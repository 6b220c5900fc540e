/** The few-shot example loader: its own SKILL.md parser (which rejects a
    file without frontmatter), the conversion of a parsed file into a build
    input with its fallbacks, the prompt that lists the examples, and the
    evenly spaced selection used when there are too many. */
module LoadExamples {
  import opened Text
  import opened Results
  import opened MdScan
  import opened Schema
  import IndexSkills

  datatype SkillFrontmatter = SkillFrontmatter(name: String, description: String, requiresMcp: Option<seq<String>>)
  datatype ParsedSkillMd = ParsedSkillMd(frontmatter: SkillFrontmatter, content: String)

  /** A matched value with surrounding white space and one leading and one
      trailing quote removed, or "" when the line is missing. */
  function FieldOrEmpty(v: Option<String>): String {
    match v
    case Some(x) => McpItem(x)
    case None => ""
  }

  /** Parse a SKILL.md: nothing without a frontmatter block; a present
      `name:` or `description:` line gives its trimmed value with one quote
      taken off each end, a missing one gives "". */
  function ParseSkillMd(content: String): (r: Option<ParsedSkillMd>)
    ensures r.None? <==> SplitFrontmatter(content).None?
    ensures r.Some? ==>
      var fm := SplitFrontmatter(content).value;
      && content == Fence + fm.text + Closing + r.value.content
      && (LineValue(fm.text, IndexSkills.NameKey).None? ==> r.value.frontmatter.name == "")
      && (LineValue(fm.text, IndexSkills.NameKey).Some? ==>
            r.value.frontmatter.name == McpItem(LineValue(fm.text, IndexSkills.NameKey).value))
      && (LineValue(fm.text, IndexSkills.DescriptionKey).None? ==> r.value.frontmatter.description == "")
      && (LineValue(fm.text, IndexSkills.DescriptionKey).Some? ==>
            r.value.frontmatter.description == McpItem(LineValue(fm.text, IndexSkills.DescriptionKey).value))
      && r.value.frontmatter.requiresMcp == RequiresMcp(fm.text)
      && (r.value.frontmatter.requiresMcp.Some? ==> StartsWith(fm.text, RequiresKey))
  {
    match SplitFrontmatter(content)
    case None => None
    case Some(fm) =>
      var name := FieldOrEmpty(LineValue(fm.text, IndexSkills.NameKey));
      var description := FieldOrEmpty(LineValue(fm.text, IndexSkills.DescriptionKey));
      Some(ParsedSkillMd(SkillFrontmatter(name, description, RequiresMcp(fm.text)), fm.body))
  }

  /** Name and description written as frontmatter lines read back unchanged. */
  lemma ParseDocument(name: String, description: String, body: String)
    requires Bare(name) && IndexSkills.SingleLine(name)
    requires Bare(description) && IndexSkills.SingleLine(description)
    ensures ParseSkillMd(IndexSkills.Document(name, description, body))
         == Some(ParsedSkillMd(SkillFrontmatter(name, description, None), body))
  {
    IndexSkills.DocumentSplits(name, description, body);
    IndexSkills.TextValues(name, description);
    McpItemOfBare(name);
    McpItemOfBare(description);
  }

  /** Quoted name and description lines read back without their outer
      quotes; the opening and closing quote characters need not match. */
  lemma ParseQuotedDocument(a: char, name: String, b: char, c: char, description: String, d: char, body: String)
    requires IsQuote(a) && IsQuote(b) && IsQuote(c) && IsQuote(d)
    requires IndexSkills.SingleLine(name) && IndexSkills.SingleLine(description)
    ensures ParseSkillMd(IndexSkills.Document([a] + name + [b], [c] + description + [d], body))
         == Some(ParsedSkillMd(SkillFrontmatter(name, description, None), body))
  {
    var qn, qd := [a] + name + [b], [c] + description + [d];
    IndexSkills.QuotedValued(a, name, b);
    IndexSkills.QuotedValued(c, description, d);
    IndexSkills.DocumentSplits(qn, qd, body);
    IndexSkills.TextValues(qn, qd);
    McpItemOfQuoted(a, name, b);
    McpItemOfQuoted(c, description, d);
  }

  // --- the strategy loop as written

  /** The state of the strategy loop: the regex's `lastIndex`, the local
      `lastIndex` and the strategies pushed so far. */
  datatype LoopState = LoopState(regexIndex: nat, lastIndex: nat, strategies: seq<Section>)

  /** One turn of the loop as written: `exec` from the regex position (no
      match ends the loop), a second `exec` for the next heading, then the
      regex position is reset to the local `lastIndex`, moved to the next
      heading when there is one, and copied back into the local. */
  function AsWrittenStep(t: String, st: LoopState): (r: Option<LoopState>)
    requires st.regexIndex <= |t| && st.lastIndex <= |t|
    ensures r.Some? ==> r.value.regexIndex <= |t| && r.value.lastIndex <= |t|
    ensures r.None? <==> FindHeading(t, st.regexIndex).None?
  {
    match FindHeading(t, st.regexIndex)
    case None => None
    case Some(m) =>
      var next := FindHeading(t, m.capEnd);
      var endIndex := if next.Some? then next.value.start else |t|;
      var index := if next.Some? then next.value.start else st.lastIndex;
      Some(LoopState(index, index, st.strategies + SectionOf(t, m, endIndex)))
  }

  /** The loop's state on entry: both positions at 0, nothing pushed. */
  const Start := LoopState(0, 0, [])

  /** One turn from any state; the loop itself only reaches states whose
      positions lie inside the text. */
  function Turn(t: String): LoopState -> Option<LoopState> {
    (st: LoopState) => if st.regexIndex <= |t| && st.lastIndex <= |t| then AsWrittenStep(t, st) else None
  }

  /** The state after `n` turns of `step` from `st`, or nothing when the
      loop leaves before. */
  function Iterate(step: LoopState -> Option<LoopState>, st: LoopState, n: nat): Option<LoopState>
    decreases n
  {
    if n == 0 then Some(st)
    else match step(st)
      case None => None
      case Some(st') => Iterate(step, st', n - 1)
  }

  /** The loop as written, `n` turns after entry. */
  function AsWrittenRun(t: String, n: nat): (r: Option<LoopState>)
    ensures n == 0 ==> r == Some(Start)
    ensures n > 0 && FindHeading(t, 0).None? ==> r.None?
  {
    Iterate(Turn(t), Start, n)
  }

  /** A loop whose every turn from a state satisfying `inv` continues in
      such a state never leaves. */
  lemma {:induction false} IterateForever(step: LoopState -> Option<LoopState>, inv: LoopState -> bool,
                                          st: LoopState, n: nat)
    requires inv(st)
    requires forall s :: inv(s) ==> step(s).Some? && inv(step(s).value)
    ensures Iterate(step, st, n).Some?
    decreases n
  {
    if n > 0 {
      IterateForever(step, inv, step(st).value, n - 1);
    }
  }

  /** Both positions the loop can restart from lie before a heading. */
  predicate Stuck(t: String, st: LoopState)
    requires st.regexIndex <= |t| && st.lastIndex <= |t|
  {
    FindHeading(t, st.regexIndex).Some? && FindHeading(t, st.lastIndex).Some?
  }

  lemma StuckStep(t: String, st: LoopState)
    requires st.regexIndex <= |t| && st.lastIndex <= |t| && Stuck(t, st)
    ensures AsWrittenStep(t, st).Some? && Stuck(t, AsWrittenStep(t, st).value)
  {
    var m := FindHeading(t, st.regexIndex).value;
    var next := FindHeading(t, m.capEnd);
    if next.Some? {
      FindHeadingAgain(t, m.capEnd);
    }
  }

  /** As written, the loop never ends on a text with a heading: after any
      number of turns it is still running, because resetting the regex
      position makes it find a heading it has already seen. */
  lemma AsWrittenNeverExits(t: String, n: nat)
    requires FindHeading(t, 0).Some?
    ensures AsWrittenRun(t, n).Some?
  {
    var inv := (s: LoopState) => s.regexIndex <= |t| && s.lastIndex <= |t| && Stuck(t, s);
    forall s | inv(s) ensures Turn(t)(s).Some? && inv(Turn(t)(s).value) {
      StuckStep(t, s);
    }
    IterateForever(Turn(t), inv, Start, n);
  }

  /** The smallest input: one heading with a body. */
  lemma AsWrittenLoopsOnOneHeading()
    ensures FindHeading("## A\nbody", 0).Some?
    ensures forall n: nat :: AsWrittenRun("## A\nbody", n).Some?
  {
    var t := "## A\nbody";
    assert SkipSpace(t, 2) == 3;
    assert LineEnd(t, 3) == 4;
    assert HeadingAt(t, 0) == Some(Heading(0, 3, 4));
    forall n: nat ensures AsWrittenRun(t, n).Some? {
      AsWrittenNeverExits(t, n);
    }
  }

  /** The sections as strategies. */
  function AsStrategies(ss: seq<Section>): (r: seq<Strategy>)
    ensures |r| == |ss|
    ensures forall k :: 0 <= k < |r| ==> r[k].title == ss[k].title && r[k].content == ss[k].content
  {
    seq(|ss|, k requires 0 <= k < |ss| => Strategy(ss[k].title, ss[k].content))
  }

  method ToStrategies(sections: seq<Section>) returns (strategies: seq<Strategy>)
    ensures strategies == AsStrategies(sections)
  {
    strategies := [];
    for i := 0 to |sections|
      invariant strategies == AsStrategies(sections[..i])
    {
      strategies := strategies + [Strategy(sections[i].title, sections[i].content)];
    }
    assert sections[..|sections|] == sections;
  }

  const OverviewTitle: String := "Overview"

  /** Build input from a parsed file, with the section walk that ends (the
      search resumes at the next heading). An empty name falls back to the
      directory name, an empty description to the first 200 characters,
      and a text without sections to one `Overview` of the first 500. */
  method SkillMdToSkillBuildInput(parsed: ParsedSkillMd, skillName: String) returns (r: SkillBuildInput)
    ensures r.skillName == if parsed.frontmatter.name != [] then parsed.frontmatter.name else skillName
    ensures r.description == if parsed.frontmatter.description != [] then parsed.frontmatter.description
                             else Prefix(parsed.content, 200)
    ensures r.triggers == TriggerList(parsed.content, parsed.frontmatter.name)
    ensures |r.triggers| >= 1 && r.triggers[0] == parsed.frontmatter.name && NoDup(r.triggers)
    ensures Sections(parsed.content) != [] ==> r.strategies == AsStrategies(Sections(parsed.content))
    ensures Sections(parsed.content) == [] ==> r.strategies == [Strategy(OverviewTitle, Prefix(parsed.content, 500))]
    ensures r.researchSummary.None? && r.promptTemplates.None? && r.scriptLogic.None?
  {
    var sections := IndexSkills.ExtractStrategies(parsed.content);
    var strategies := ToStrategies(sections);
    var triggers := CollectTriggers(parsed.content, parsed.frontmatter.name);
    TriggerListSpec(parsed.content, parsed.frontmatter.name);
    var name := if parsed.frontmatter.name != [] then parsed.frontmatter.name else skillName;
    var description := if parsed.frontmatter.description != [] then parsed.frontmatter.description
                       else Prefix(parsed.content, 200);
    r := SkillBuildInput(
      name,
      description,
      if |triggers| > 0 then triggers else [skillName],
      None,
      if |strategies| > 0 then strategies else [Strategy(OverviewTitle, Prefix(parsed.content, 500))],
      None,
      None);
  }

  // --- the few-shot prompt

  const Ellipsis: String := "..."

  /** A strategy's content cut to 300 characters, with "..." when it was longer. */
  function Cut(c: String): (r: String)
    ensures |c| <= 300 ==> r == c
    ensures |c| > 300 ==> |r| == 303 && r[..300] == c[..300] && r[300..] == Ellipsis
  {
    Prefix(c, 300) + (if |c| > 300 then Ellipsis else [])
  }

  function StrategyLine(s: Strategy): String {
    "- **" + s.title + "**: " + Cut(s.content)
  }

  function StrategyLines(ss: seq<Strategy>): (r: seq<String>)
    ensures |r| == |ss|
  {
    seq(|ss|, k requires 0 <= k < |ss| => StrategyLine(ss[k]))
  }

  function ExampleHeader(idx: nat): String {
    "Example " + NatToString(idx + 1) + ":\n"
  }

  /** One example block, numbered from 1. */
  function ExampleText(ex: SkillBuildInput, idx: nat): (r: String)
    ensures StartsWith(r, ExampleHeader(idx))
  {
    var head := ExampleHeader(idx);
    var tail := "Skill Name: " + ex.skillName + "\n"
      + "Description: " + ex.description + "\n"
      + "Trigger Phrases: " + Join(ex.triggers, ", ") + "\n"
      + "Strategies:\n"
      + Join(StrategyLines(ex.strategies), "\n");
    assert (head + tail)[..|head|] == head;
    head + tail
  }

  function ExampleTexts(sel: seq<SkillBuildInput>): (r: seq<String>)
    ensures |r| == |sel|
    ensures forall k :: 0 <= k < |r| ==> StartsWith(r[k], ExampleHeader(k))
  {
    seq(|sel|, k requires 0 <= k < |sel| => ExampleText(sel[k], k))
  }

  const PromptIntro: String := " examples of high-quality skill packs from the awesome-claude-skills repository:\n\n"
  const PromptOutro: String :=
    "\n\nUse these as reference for structure, depth, and quality. Generate similar quality content with:\n"
    + "- Clear YAML frontmatter (name, description, optional requires)\n"
    + "- Detailed sections like \"Prerequisites\", \"Setup\", \"Core Workflows\"\n"
    + "- Each workflow should have \"When to use\", \"Tool sequence\", \"Key parameters\", \"Pitfalls\"\n"
    + "- Professional, detailed style matching these examples."

  /** The limit `getFewShotExamplesPrompt` uses when its caller gives none. */
  const DefaultMaxExamples: int := 10

  /** The examples the prompt lists: all of them when within the limit. */
  function Selected(examples: seq<SkillBuildInput>, maxExamples: int): (r: seq<SkillBuildInput>)
    ensures |examples| <= maxExamples ==> r == examples
    ensures |examples| > maxExamples >= 1 ==> |r| == maxExamples
    ensures |examples| > maxExamples ==> r == DiverseSelection(examples, maxExamples)
  {
    if |examples| <= maxExamples then examples else DiverseSelection(examples, maxExamples)
  }

  /** The few-shot prompt: "" for no examples, otherwise the count, the
      numbered example blocks separated by blank lines, and the closing
      instructions. */
  function FewShotExamplesPrompt(examples: seq<SkillBuildInput>, maxExamples: int): (r: String)
    ensures examples == [] <==> r == []
    ensures examples != [] ==>
      var sel := Selected(examples, maxExamples);
      StartsWith(r, "Here are " + NatToString(|sel|) + PromptIntro)
    ensures examples != [] ==>
      var sel := Selected(examples, maxExamples);
      r == "Here are " + NatToString(|sel|) + PromptIntro + Join(ExampleTexts(sel), "\n\n") + PromptOutro
  {
    if examples == [] then []
    else
      var sel := Selected(examples, maxExamples);
      var head := "Here are " + NatToString(|sel|) + PromptIntro;
      var body := Join(ExampleTexts(sel), "\n\n");
      StartsWithAppend(head, body, PromptOutro);
      head + body + PromptOutro
  }

  // --- evenly spaced selection

  /** What the stride loop picks: with `step = floor(len / count)`, the
      items at `0, step, ...` until `count` are taken; a zero step (fewer
      items than slots) takes the first item `count` times. */
  function DiverseSelection<T>(examples: seq<T>, count: int): (r: seq<T>)
    ensures count <= 0 || examples == [] ==> r == []
    ensures count >= 1 && examples != [] ==> |r| == count
  {
    if count <= 0 || examples == [] then []
    else
      var step := |examples| / count;
      seq(count, k requires 0 <= k < count => if step == 0 then examples[0] else examples[Stride(k, step, |examples|, count)])
  }

  /** The index of the `k`-th pick, which stays inside the list. */
  function Stride(k: nat, step: nat, len: nat, count: nat): (i: nat)
    requires k < count && step >= 1 && step == len / count
    ensures i == k * step && i < len
  {
    MulBound(k, step, len, count);
    k * step
  }

  lemma MulBound(k: nat, step: nat, len: nat, count: nat)
    requires k < count && step >= 1 && step == len / count
    ensures k * step < len
  {
    assert len == step * count + len % count;
    var rest: nat := count - 1 - k;
    assert count * step == k * step + rest * step + step by {
      assert count == k + rest + 1;
    }
  }

  /** When the list is longer than `count >= 1`, exactly the items at
      `0, step, ..., (count - 1) * step` are picked. */
  lemma DiverseSelectionStride<T>(examples: seq<T>, count: int)
    requires |examples| > count >= 1
    ensures var step := |examples| / count;
      var r := DiverseSelection(examples, count);
      && step >= 1 && |r| == count
      && forall k :: 0 <= k < count ==> k * step < |examples| && r[k] == examples[k * step]
  {
    var step := |examples| / count;
    assert step >= 1;
    forall k | 0 <= k < count ensures k * step < |examples| {
      MulBound(k, step, |examples|, count);
    }
  }

  lemma SelectionMatches<T>(examples: seq<T>, count: int, selected: seq<T>)
    requires count >= 1 && examples != [] && |selected| == count
    requires var step := |examples| / count;
      && (step == 0 ==> forall k :: 0 <= k < |selected| ==> selected[k] == examples[0])
      && (step >= 1 ==> forall k :: 0 <= k < |selected| ==> k * step < |examples| && selected[k] == examples[k * step])
    ensures selected == DiverseSelection(examples, count)
  {
    var d := DiverseSelection(examples, count);
    forall k | 0 <= k < count ensures selected[k] == d[k] {
    }
  }

  /** Pushing the element at the current index keeps the picks on the stride. */
  lemma StridePush<T>(examples: seq<T>, step: nat, selected: seq<T>, i: nat)
    requires i < |examples| && i == |selected| * step
    requires step == 0 ==> forall k :: 0 <= k < |selected| ==> selected[k] == examples[0]
    requires step >= 1 ==> forall k :: 0 <= k < |selected| ==> k * step < |examples| && selected[k] == examples[k * step]
    ensures var next := selected + [examples[i]];
      && i + step == |next| * step
      && (step == 0 ==> forall k :: 0 <= k < |next| ==> next[k] == examples[0])
      && (step >= 1 ==> forall k :: 0 <= k < |next| ==> k * step < |examples| && next[k] == examples[k * step])
  {
    var next := selected + [examples[i]];
    assert |next| * step == |selected| * step + step;
    assert forall k :: 0 <= k < |selected| ==> next[k] == selected[k];
    assert next[|selected|] == examples[i];
  }

  /** The stride loop, pushing while both the index and the count allow.
      The random fill that follows never runs: the stride loop already
      filled every slot the list can supply. */
  method SelectDiverseExamples<T>(examples: seq<T>, count: int) returns (selected: seq<T>)
    ensures selected == DiverseSelection(examples, count)
    ensures !(|selected| < count && |selected| < |examples|)
  {
    var step: nat := if count >= 1 then |examples| / count else 0;
    selected := [];
    var i: nat := 0;
    while i < |examples| && |selected| < count
      invariant count >= 1 || selected == []
      invariant |selected| <= count || selected == []
      invariant i == |selected| * step
      invariant selected != [] ==> examples != []
      invariant step == 0 && examples != [] ==> forall k :: 0 <= k < |selected| ==> selected[k] == examples[0]
      invariant step >= 1 ==> forall k :: 0 <= k < |selected| ==> k * step < |examples| && selected[k] == examples[k * step]
      invariant step >= 1 && |selected| < count ==> i < |examples|
      decreases count - |selected|
    {
      StridePush(examples, step, selected, i);
      selected := selected + [examples[i]];
      i := i + step;
      if step >= 1 && |selected| < count {
        MulBound(|selected|, step, |examples|, count);
      }
    }
    if count >= 1 && examples != [] {
      SelectionMatches(examples, count, selected);
    }
  }
}
