/** The skill-pack builder: the SKILL.md renderer and the fixed, ordered
    list of archive entries both build methods append. The ZIP writer is
    abstracted as an archive object whose state is the list of entries
    appended so far; compression itself is opaque. */
module Builder {
  import opened Text
  import opened Results
  import opened Schema
  import Json

  datatype Entry = Entry(name: String, content: String)

  const ScriptPlaceholderPython: String := "# Skill logic placeholder\n# Implement your skill here\n"
  const ScriptPlaceholderOther: String := "// Skill logic placeholder\n// Implement your skill here\n"
  const StrategiesPlaceholder: String := "# Strategies\n\nAdd successful patterns here."
  const PromptsPlaceholder: String := "# Prompt templates\n\nAdd .txt templates here."

  const LayerLines: seq<String> := [
    "- **Scripts**: Executable logic for this skill",
    "- **References**: Common strategies and successful patterns",
    "- **Assets**: Prompt templates and JSON schemas"]

  const TriggerIntro: String := "Use these phrases when you want this skill to activate:"

  /** The lines the renderer emits before the trigger bullets. */
  function HeaderLines(input: SkillBuildInput): seq<String> {
    ["# " + input.skillName, "", input.description, "", "## Trigger phrases", "",
     TriggerIntro, ""]
  }

  function Bullets(ts: seq<String>): (r: seq<String>)
    ensures |r| == |ts|
  {
    seq(|ts|, k requires 0 <= k < |ts| => "- " + ts[k])
  }

  /** The lines the renderer emits after the trigger bullets. */
  function FooterLines(version: String): seq<String> {
    ["", "## Version", "", version, "", "## Layers", ""] + LayerLines
  }

  /** The SKILL.md document as a list of lines. */
  function SkillMdLines(input: SkillBuildInput, version: String): seq<String> {
    HeaderLines(input) + Bullets(input.triggers) + FooterLines(version)
  }

  /** The SKILL.md document: its lines joined with "\n". */
  function SkillMd(input: SkillBuildInput, version: String): String {
    Join(SkillMdLines(input, version), "\n")
  }

  /** `renderSkillMd`: pushes the lines one by one, then joins them. */
  method RenderSkillMd(input: SkillBuildInput, version: String) returns (md: String)
    ensures md == SkillMd(input, version)
  {
    var lines: seq<String> := [];
    lines := lines + ["# " + input.skillName];
    lines := lines + [""];
    lines := lines + [input.description];
    lines := lines + [""];
    lines := lines + ["## Trigger phrases"];
    lines := lines + [""];
    lines := lines + [TriggerIntro];
    lines := lines + [""];
    for i := 0 to |input.triggers|
      invariant lines == HeaderLines(input) + Bullets(input.triggers[..i])
    {
      assert Bullets(input.triggers[..i + 1]) == Bullets(input.triggers[..i]) + ["- " + input.triggers[i]];
      lines := lines + ["- " + input.triggers[i]];
    }
    assert input.triggers[..|input.triggers|] == input.triggers;
    lines := lines + [""];
    lines := lines + ["## Version"];
    lines := lines + [""];
    lines := lines + [version];
    lines := lines + [""];
    lines := lines + ["## Layers"];
    lines := lines + [""];
    lines := lines + [LayerLines[0]];
    lines := lines + [LayerLines[1]];
    lines := lines + [LayerLines[2]];
    assert lines == SkillMdLines(input, version);
    md := Join(lines, "\n");
  }

  /** The fields that end up on a line of their own. */
  predicate SingleLineFields(input: SkillBuildInput, version: String) {
    && HasNoChar(input.skillName, '\n') && HasNoChar(input.description, '\n') && HasNoChar(version, '\n')
    && forall k :: 0 <= k < |input.triggers| ==> HasNoChar(input.triggers[k], '\n')
  }

  /** Reading SKILL.md back line by line: for single-line fields the document
      splits into exactly the title, the description, the trigger section
      (heading and intro line even with no triggers, then one bullet per
      trigger in input order), the version section and the three fixed
      layer lines. */
  lemma SkillMdLayout(input: SkillBuildInput, version: String)
    requires SingleLineFields(input, version)
    ensures var ls := Split(SkillMd(input, version), '\n');
      && |ls| == 18 + |input.triggers|
      && ls[0] == "# " + input.skillName && ls[2] == input.description
      && ls[4] == "## Trigger phrases" && ls[6] == TriggerIntro
      && (forall k :: 0 <= k < |input.triggers| ==> ls[8 + k] == "- " + input.triggers[k])
      && ls[9 + |input.triggers|] == "## Version" && ls[11 + |input.triggers|] == version
      && ls[13 + |input.triggers|] == "## Layers"
      && ls[15 + |input.triggers|..] == LayerLines
  {
    var ls := SkillMdLines(input, version);
    SkillMdLinesSingle(input, version);
    SplitJoin(ls, '\n');
    SkillMdLinesAt(input, version);
  }

  /** Where each line of the document sits in the line list. */
  lemma SkillMdLinesAt(input: SkillBuildInput, version: String)
    ensures var ls := SkillMdLines(input, version);
      && |ls| == 18 + |input.triggers|
      && ls[0] == "# " + input.skillName && ls[2] == input.description
      && ls[4] == "## Trigger phrases" && ls[6] == TriggerIntro
      && (forall k :: 0 <= k < |input.triggers| ==> ls[8 + k] == "- " + input.triggers[k])
      && ls[9 + |input.triggers|] == "## Version" && ls[11 + |input.triggers|] == version
      && ls[13 + |input.triggers|] == "## Layers"
      && ls[15 + |input.triggers|..] == LayerLines
  {
    var h, b, f := HeaderLines(input), Bullets(input.triggers), FooterLines(version);
    assert SkillMdLines(input, version) == h + b + f;
    ThreeParts(h, b, f);
    assert h[0] == "# " + input.skillName && h[2] == input.description;
    assert h[4] == "## Trigger phrases" && h[6] == TriggerIntro;
    assert f[1] == "## Version" && f[3] == version && f[5] == "## Layers" && f[7..] == LayerLines;
  }

  /** Indexing into three concatenated line lists. */
  lemma ThreeParts(h: seq<String>, b: seq<String>, f: seq<String>)
    ensures var ls := h + b + f;
      && |ls| == |h| + |b| + |f|
      && (forall k :: 0 <= k < |h| ==> ls[k] == h[k])
      && (forall k :: 0 <= k < |b| ==> ls[|h| + k] == b[k])
      && (forall k :: 0 <= k < |f| ==> ls[|h| + |b| + k] == f[k])
      && (forall k :: 0 <= k <= |f| ==> ls[|h| + |b| + k..] == f[k..])
  {
    var ls := h + b + f;
    forall k | 0 <= k <= |f| ensures ls[|h| + |b| + k..] == f[k..] {
      assert ls[|h| + |b|..] == f;
    }
  }

  /** No line of the document holds a line break. */
  lemma SkillMdLinesSingle(input: SkillBuildInput, version: String)
    requires SingleLineFields(input, version)
    ensures var ls := SkillMdLines(input, version);
      forall k :: 0 <= k < |ls| ==> HasNoChar(ls[k], '\n')
  {
    var h, b, f := HeaderLines(input), Bullets(input.triggers), FooterLines(version);
    HeaderSingle(input);
    BulletsSingle(input.triggers);
    FooterSingle(version);
    ConcatLines(h, b, f);
  }

  lemma HeaderSingle(input: SkillBuildInput)
    requires HasNoChar(input.skillName, '\n') && HasNoChar(input.description, '\n')
    ensures var h := HeaderLines(input); forall k :: 0 <= k < |h| ==> HasNoChar(h[k], '\n')
  {
    HasNoCharConcat("# ", input.skillName, '\n');
    HasNoCharOfPieces("Use these phrases ", "when you want this ", "skill to activate:");
  }

  lemma BulletsSingle(ts: seq<String>)
    requires forall k :: 0 <= k < |ts| ==> HasNoChar(ts[k], '\n')
    ensures var b := Bullets(ts); forall k :: 0 <= k < |b| ==> HasNoChar(b[k], '\n')
  {
    forall k | 0 <= k < |ts| ensures HasNoChar("- " + ts[k], '\n') {
      HasNoCharConcat("- ", ts[k], '\n');
    }
  }

  lemma FooterSingle(version: String)
    requires HasNoChar(version, '\n')
    ensures var f := FooterLines(version); forall k :: 0 <= k < |f| ==> HasNoChar(f[k], '\n')
  {
    LayerLinesSingle();
    var f := FooterLines(version);
    assert f[7..] == LayerLines;
  }

  /** The three fixed layer lines hold no line break. */
  lemma LayerLinesSingle()
    ensures forall k :: 0 <= k < |LayerLines| ==> HasNoChar(LayerLines[k], '\n')
  {
    HasNoCharOfPieces("- **Scripts**: Executable ", "logic for this skill", "");
    HasNoCharOfPieces("- **References**: Common ", "strategies and ", "successful patterns");
    HasNoCharOfPieces("- **Assets**: Prompt ", "templates and JSON schemas", "");
  }

  /** Three line lists free of line breaks join into one. */
  lemma ConcatLines(h: seq<String>, b: seq<String>, f: seq<String>)
    requires forall k :: 0 <= k < |h| ==> HasNoChar(h[k], '\n')
    requires forall k :: 0 <= k < |b| ==> HasNoChar(b[k], '\n')
    requires forall k :: 0 <= k < |f| ==> HasNoChar(f[k], '\n')
    ensures var ls := h + b + f; forall k :: 0 <= k < |ls| ==> HasNoChar(ls[k], '\n')
  {
  }

  /** A literal holds no line break when each of its pieces holds none. */
  lemma HasNoCharOfPieces(a: String, b: String, c: String)
    requires HasNoChar(a, '\n') && HasNoChar(b, '\n') && HasNoChar(c, '\n')
    ensures HasNoChar(a + b + c, '\n')
  {
    HasNoCharConcat(a, b, '\n');
    HasNoCharConcat(a + b, c, '\n');
  }

  lemma HasNoCharConcat(a: String, b: String, c: char)
    requires HasNoChar(a, c) && HasNoChar(b, c)
    ensures HasNoChar(a + b, c)
  {
    assert forall i :: 0 <= i < |a + b| ==> (a + b)[i] == if i < |a| then a[i] else b[i - |a|];
  }

  lemma {:induction false} JoinStartsWith(parts: seq<String>, sep: String)
    requires |parts| >= 1
    ensures StartsWith(Join(parts, sep), parts[0])
  {
    if |parts| > 1 {
      assert Join(parts, sep) == parts[0] + (sep + Join(parts[1..], sep));
    }
  }

  lemma {:induction false} JoinEndsWith(parts: seq<String>, sep: String)
    requires |parts| >= 1
    ensures var j := Join(parts, sep); var l := parts[|parts| - 1];
      |l| <= |j| && j[|j| - |l|..] == l
  {
    if |parts| > 1 {
      JoinEndsWith(parts[1..], sep);
      var rest := Join(parts[1..], sep);
      assert Join(parts, sep) == (parts[0] + sep) + rest;
    }
  }

  /** SKILL.md opens with the "# " title, so it has no YAML frontmatter
      (it never starts with "---"), and it ends with the last layer line,
      so there is no trailing newline. */
  lemma SkillMdShape(input: SkillBuildInput, version: String)
    ensures var md := SkillMd(input, version);
      && StartsWith(md, "# " + input.skillName)
      && !StartsWith(md, "---")
      && |md| >= |LayerLines[2]| && md[|md| - |LayerLines[2]|..] == LayerLines[2]
      && md[|md| - 1] != '\n'
  {
    var ls := SkillMdLines(input, version);
    var md := SkillMd(input, version);
    JoinStartsWith(ls, "\n");
    JoinEndsWith(ls, "\n");
    assert ls[|ls| - 1] == LayerLines[2];
    assert md[0] == '#';
    assert LayerLines[2][|LayerLines[2]| - 1] == 's';
    assert md[|md| - 1] == LayerLines[2][|LayerLines[2]| - 1];
  }

  // --- entries

  /** `scripts/main.<ext>`: `py` exactly for python; the code when a script
      is given, else the placeholder chosen by the (absent) language. */
  function ScriptEntry(sl: Option<ScriptLogic>): Entry {
    var language := if sl.Some? then Some(sl.value.language) else None;
    var code := if sl.Some? then sl.value.code
                else if language == Some(Python) then ScriptPlaceholderPython
                else ScriptPlaceholderOther;
    var ext := if language == Some(Python) then "py" else "ts";
    Entry("scripts/main." + ext, code)
  }

  /** The file stem for a strategy: `title.replace(/[^a-z0-9-_]/gi, "_").toLowerCase()`. */
  function ReferenceStem(title: String): (r: String)
    ensures |r| == Utf16Length(title)
    ensures forall i :: 0 <= i < |r| ==> IsLowerSafeChar(r[i])
  {
    var safe := SafeName(title);
    var r := LowerSafe(safe);
    assert forall i :: 0 <= i < |r| ==> r[i] == AsciiLower(safe[i]) && IsSafeChar(safe[i]);
    r
  }

  function ReferenceEntry(s: Strategy): Entry {
    Entry("references/" + ReferenceStem(s.title) + ".md", "# " + s.title + "\n\n" + s.content)
  }

  /** One `references/<stem>.md` per strategy, or the placeholder when there are none. */
  function ReferenceEntries(strategies: seq<Strategy>): (r: seq<Entry>)
    ensures |r| == if strategies == [] then 1 else |strategies|
    ensures strategies == [] ==> r == [Entry("references/strategies.md", StrategiesPlaceholder)]
    ensures forall k :: 0 <= k < |strategies| ==> r[k] == ReferenceEntry(strategies[k])
  {
    if strategies == [] then [Entry("references/strategies.md", StrategiesPlaceholder)]
    else seq(|strategies|, k requires 0 <= k < |strategies| => ReferenceEntry(strategies[k]))
  }

  function PromptIndexLine(p: PromptTemplate): String {
    "- " + p.id + ": " + p.name
  }

  /** One `assets/prompts/<id>.txt` per template plus the README index, or the
      placeholder README when the list is absent or empty. */
  function PromptEntries(templates: Option<seq<PromptTemplate>>): (r: seq<Entry>)
    ensures templates.None? || templates.value == [] ==> r == [Entry("assets/prompts/README.md", PromptsPlaceholder)]
    ensures templates.Some? && templates.value != [] ==>
      var ts := templates.value;
      && |r| == |ts| + 1
      && (forall k :: 0 <= k < |ts| ==> r[k] == Entry("assets/prompts/" + ts[k].id + ".txt", ts[k].template))
      && r[|ts|] == Entry("assets/prompts/README.md",
                          Join(seq(|ts|, k requires 0 <= k < |ts| => PromptIndexLine(ts[k])), "\n"))
  {
    if templates.Some? && |templates.value| > 0 then
      var ts := templates.value;
      seq(|ts|, k requires 0 <= k < |ts| => Entry("assets/prompts/" + ts[k].id + ".txt", ts[k].template))
      + [Entry("assets/prompts/README.md", Join(seq(|ts|, k requires 0 <= k < |ts| => PromptIndexLine(ts[k])), "\n"))]
    else [Entry("assets/prompts/README.md", PromptsPlaceholder)]
  }

  /** `JSON.stringify({ skillName, version }, null, 2)`. */
  function SchemaJson(skillName: String, version: String): String {
    "{\n  \"skillName\": " + Json.Quote(skillName) + ",\n  \"version\": " + Json.Quote(version) + "\n}"
  }

  /** The full entry list, in append order. */
  function Entries(p: SkillBuildInput, version: String): seq<Entry> {
    [Entry("SKILL.md", SkillMd(p, version)), ScriptEntry(p.scriptLogic)]
    + ReferenceEntries(p.strategies)
    + PromptEntries(p.promptTemplates)
    + [Entry("assets/schema.json", SchemaJson(p.skillName, version))]
  }

  function CountNamed(es: seq<Entry>, name: String): nat {
    if es == [] then 0 else (if es[0].name == name then 1 else 0) + CountNamed(es[1..], name)
  }

  function CountPrefixed(es: seq<Entry>, prefix: String): nat {
    if es == [] then 0 else (if StartsWith(es[0].name, prefix) then 1 else 0) + CountPrefixed(es[1..], prefix)
  }

  lemma CountSingle(e: Entry, name: String)
    ensures CountNamed([e], name) == if e.name == name then 1 else 0
    ensures CountPrefixed([e], name) == if StartsWith(e.name, name) then 1 else 0
  {
    assert [e][1..] == [];
  }

  lemma {:induction false} CountNamedAppend(a: seq<Entry>, b: seq<Entry>, name: String)
    ensures CountNamed(a + b, name) == CountNamed(a, name) + CountNamed(b, name)
  {
    if a != [] {
      assert (a + b)[1..] == a[1..] + b;
      CountNamedAppend(a[1..], b, name);
    } else {
      assert a + b == b;
    }
  }

  lemma {:induction false} CountPrefixedAppend(a: seq<Entry>, b: seq<Entry>, prefix: String)
    ensures CountPrefixed(a + b, prefix) == CountPrefixed(a, prefix) + CountPrefixed(b, prefix)
  {
    if a != [] {
      assert (a + b)[1..] == a[1..] + b;
      CountPrefixedAppend(a[1..], b, prefix);
    } else {
      assert a + b == b;
    }
  }

  /** No entry of the list carries a name starting with `prefix`. */
  lemma {:induction false} CountPrefixedNone(es: seq<Entry>, prefix: String)
    requires forall k :: 0 <= k < |es| ==> !StartsWith(es[k].name, prefix)
    ensures CountPrefixed(es, prefix) == 0
  {
    if es != [] {
      CountPrefixedNone(es[1..], prefix);
    }
  }

  lemma {:induction false} CountNamedNone(es: seq<Entry>, name: String)
    requires forall k :: 0 <= k < |es| ==> es[k].name != name
    ensures CountNamed(es, name) == 0
  {
    if es != [] {
      CountNamedNone(es[1..], name);
    }
  }

  /** The middle entries (references and prompt assets) live under
      `references/` or `assets/prompts/`, and the only README is the index. */
  lemma MiddleNames(p: SkillBuildInput)
    ensures var mid := ReferenceEntries(p.strategies) + PromptEntries(p.promptTemplates);
      forall k :: 0 <= k < |mid| ==>
        (StartsWith(mid[k].name, "references/") || StartsWith(mid[k].name, "assets/prompts/"))
  {
    var refs := ReferenceEntries(p.strategies);
    var prompts := PromptEntries(p.promptTemplates);
    forall k | 0 <= k < |refs| ensures StartsWith(refs[k].name, "references/") {
      if p.strategies != [] {
        assert refs[k].name == "references/" + (ReferenceStem(p.strategies[k].title) + ".md");
      }
    }
    forall k | 0 <= k < |prompts| ensures StartsWith(prompts[k].name, "assets/prompts/") {
      if p.promptTemplates.Some? && p.promptTemplates.value != [] && k < |p.promptTemplates.value| {
        var t := p.promptTemplates.value[k];
        assert prompts[k].name == "assets/prompts/" + (t.id + ".txt");
      }
    }
  }

  /** No middle entry is named like one of the four singleton entries. */
  lemma MiddleAvoidsSingletons(p: SkillBuildInput)
    ensures var mid := ReferenceEntries(p.strategies) + PromptEntries(p.promptTemplates);
      forall k :: 0 <= k < |mid| ==>
        mid[k].name != "SKILL.md" && mid[k].name != "assets/schema.json"
        && !StartsWith(mid[k].name, "scripts/main.")
  {
    var mid := ReferenceEntries(p.strategies) + PromptEntries(p.promptTemplates);
    MiddleNames(p);
    forall k | 0 <= k < |mid| ensures mid[k].name != "SKILL.md" && mid[k].name != "assets/schema.json"
      && !StartsWith(mid[k].name, "scripts/main.")
    {
      MiddleNameAvoidsSingletons(mid[k].name);
    }
  }

  lemma MiddleNameAvoidsSingletons(name: String)
    requires StartsWith(name, "references/") || StartsWith(name, "assets/prompts/")
    ensures name != "SKILL.md" && name != "assets/schema.json" && !StartsWith(name, "scripts/main.")
  {
    if StartsWith(name, "references/") {
      assert name[0] == "references/"[0] == 'r';
    } else {
      assert name[0] == 'a' && name[7] == "assets/prompts/"[7] == 'p';
      assert "assets/schema.json"[7] == 's';
    }
  }

  /** The entry list is the two leading entries, the middle ones and the schema. */
  lemma EntriesSplit(p: SkillBuildInput, version: String)
    ensures Entries(p, version) ==
      [Entry("SKILL.md", SkillMd(p, version)), ScriptEntry(p.scriptLogic)]
      + (ReferenceEntries(p.strategies) + PromptEntries(p.promptTemplates))
      + [Entry("assets/schema.json", SchemaJson(p.skillName, version))]
  {
    var head := [Entry("SKILL.md", SkillMd(p, version)), ScriptEntry(p.scriptLogic)];
    var refs, prompts := ReferenceEntries(p.strategies), PromptEntries(p.promptTemplates);
    var tail := [Entry("assets/schema.json", SchemaJson(p.skillName, version))];
    assert head + refs + prompts == head + (refs + prompts);
  }

  lemma CountNamed3(a: seq<Entry>, b: seq<Entry>, c: seq<Entry>, name: String)
    ensures CountNamed(a + b + c, name) == CountNamed(a, name) + CountNamed(b, name) + CountNamed(c, name)
  {
    CountNamedAppend(a + b, c, name);
    CountNamedAppend(a, b, name);
  }

  lemma CountPrefixed3(a: seq<Entry>, b: seq<Entry>, c: seq<Entry>, prefix: String)
    ensures CountPrefixed(a + b + c, prefix) == CountPrefixed(a, prefix) + CountPrefixed(b, prefix) + CountPrefixed(c, prefix)
  {
    CountPrefixedAppend(a + b, c, prefix);
    CountPrefixedAppend(a, b, prefix);
  }

  /** `SKILL.md` and `assets/schema.json` occur exactly once. */
  lemma SkillMdAndSchemaOnce(p: SkillBuildInput, version: String)
    ensures CountNamed(Entries(p, version), "SKILL.md") == 1
    ensures CountNamed(Entries(p, version), "assets/schema.json") == 1
  {
    var head := [Entry("SKILL.md", SkillMd(p, version)), ScriptEntry(p.scriptLogic)];
    var mid := ReferenceEntries(p.strategies) + PromptEntries(p.promptTemplates);
    var tail := [Entry("assets/schema.json", SchemaJson(p.skillName, version))];
    EntriesSplit(p, version);
    MiddleAvoidsSingletons(p);
    CountNamedNone(mid, "SKILL.md");
    CountNamedNone(mid, "assets/schema.json");
    CountNamed3(head, mid, tail, "SKILL.md");
    CountNamed3(head, mid, tail, "assets/schema.json");
    var se := ScriptEntry(p.scriptLogic);
    assert se.name[0] == 's';
    assert head == [head[0]] + [se];
    CountNamedAppend([head[0]], [se], "SKILL.md");
    CountNamedAppend([head[0]], [se], "assets/schema.json");
    CountSingle(head[0], "SKILL.md");
    CountSingle(head[0], "assets/schema.json");
    CountSingle(se, "SKILL.md");
    CountSingle(se, "assets/schema.json");
    CountSingle(tail[0], "SKILL.md");
    CountSingle(tail[0], "assets/schema.json");
  }

  /** Exactly one entry lies under `scripts/main.`. */
  lemma ScriptOnce(p: SkillBuildInput, version: String)
    ensures CountPrefixed(Entries(p, version), "scripts/main.") == 1
  {
    var head := [Entry("SKILL.md", SkillMd(p, version)), ScriptEntry(p.scriptLogic)];
    var mid := ReferenceEntries(p.strategies) + PromptEntries(p.promptTemplates);
    var tail := [Entry("assets/schema.json", SchemaJson(p.skillName, version))];
    EntriesSplit(p, version);
    MiddleAvoidsSingletons(p);
    CountPrefixedNone(mid, "scripts/main.");
    CountPrefixed3(head, mid, tail, "scripts/main.");
    var se := ScriptEntry(p.scriptLogic);
    assert se.name[..13] == "scripts/main.";
    assert "assets/schema.json"[0] == 'a' && "SKILL.md"[0] == 'S' && "scripts/main."[0] == 's';
    assert !StartsWith("assets/schema.json", "scripts/main.") by {
      assert "assets/schema.json"[..13][0] != "scripts/main."[0];
    }
    assert !StartsWith("SKILL.md", "scripts/main.");
    assert head == [head[0]] + [se];
    CountPrefixedAppend([head[0]], [se], "scripts/main.");
    CountSingle(head[0], "scripts/main.");
    CountSingle(se, "scripts/main.");
    CountSingle(tail[0], "scripts/main.");
  }

  /** Exactly one `assets/prompts/README.md`. */
  lemma ReadmeOnce(p: SkillBuildInput, version: String)
    ensures CountNamed(Entries(p, version), "assets/prompts/README.md") == 1
  {
    var head := [Entry("SKILL.md", SkillMd(p, version)), ScriptEntry(p.scriptLogic)];
    var refs := ReferenceEntries(p.strategies);
    var prompts := PromptEntries(p.promptTemplates);
    var tail := [Entry("assets/schema.json", SchemaJson(p.skillName, version))];
    var name := "assets/prompts/README.md";
    EntriesSplit(p, version);
    MiddleNames(p);
    forall k | 0 <= k < |refs| ensures refs[k].name != name {
      assert (refs + prompts)[k] == refs[k];
      assert refs[k].name[0] == 'r';
    }
    PromptReadmeOnce(p.promptTemplates);
    CountNamedNone(refs, name);
    CountNamedAppend(refs, prompts, name);
    CountNamed3(head, refs + prompts, tail, name);
    var se := ScriptEntry(p.scriptLogic);
    assert se.name[0] == 's';
    assert head == [head[0]] + [se];
    CountNamedAppend([head[0]], [se], name);
    CountSingle(head[0], name);
    CountSingle(se, name);
    CountSingle(tail[0], name);
  }

  /** At least one entry lies under `references/`. */
  lemma ReferencesPresent(p: SkillBuildInput, version: String)
    ensures CountPrefixed(Entries(p, version), "references/") >= 1
  {
    var head := [Entry("SKILL.md", SkillMd(p, version)), ScriptEntry(p.scriptLogic)];
    var refs := ReferenceEntries(p.strategies);
    var prompts := PromptEntries(p.promptTemplates);
    var tail := [Entry("assets/schema.json", SchemaJson(p.skillName, version))];
    EntriesSplit(p, version);
    MiddleNames(p);
    assert (refs + prompts)[0] == refs[0];
    assert StartsWith(refs[0].name, "references/");
    assert refs == [refs[0]] + refs[1..];
    CountPrefixedAppend([refs[0]], refs[1..], "references/");
    CountSingle(refs[0], "references/");
    CountPrefixedAppend(refs, prompts, "references/");
    CountPrefixed3(head, refs + prompts, tail, "references/");
  }

  /** `SKILL.md`, `scripts/main.*`, `assets/prompts/README.md` and
      `assets/schema.json` each occur exactly once, and there is at least one
      entry under `references/`. */
  lemma EntriesComplete(p: SkillBuildInput, version: String)
    ensures var es := Entries(p, version);
      && CountNamed(es, "SKILL.md") == 1
      && CountPrefixed(es, "scripts/main.") == 1
      && CountNamed(es, "assets/prompts/README.md") == 1
      && CountNamed(es, "assets/schema.json") == 1
      && CountPrefixed(es, "references/") >= 1
  {
    SkillMdAndSchemaOnce(p, version);
    ScriptOnce(p, version);
    ReadmeOnce(p, version);
    ReferencesPresent(p, version);
  }

  lemma PromptReadmeOnce(templates: Option<seq<PromptTemplate>>)
    ensures CountNamed(PromptEntries(templates), "assets/prompts/README.md") == 1
  {
    var es := PromptEntries(templates);
    if templates.Some? && templates.value != [] {
      var ts := templates.value;
      forall k | 0 <= k < |ts| ensures es[k].name != "assets/prompts/README.md" {
        var n := es[k].name;
        assert n == "assets/prompts/" + ts[k].id + ".txt";
        assert n[|n| - 1] == 't';
      }
      CountNamedNone(es[..|ts|], "assets/prompts/README.md");
      assert es == es[..|ts|] + [es[|ts|]];
      CountNamedAppend(es[..|ts|], [es[|ts|]], "assets/prompts/README.md");
    }
  }

  /** Two strategies whose titles sanitise alike produce two entries with the
      same path; nothing is merged. */
  lemma CollidingTitlesKeepBoth(p: SkillBuildInput, version: String, i: nat, j: nat)
    requires i < j < |p.strategies|
    requires ReferenceStem(p.strategies[i].title) == ReferenceStem(p.strategies[j].title)
    ensures var es := Entries(p, version);
      |es| == 4 + |p.strategies| + |PromptEntries(p.promptTemplates)| - 1
      && es[2 + i].name == es[2 + j].name
      && es[2 + i] == ReferenceEntry(p.strategies[i]) && es[2 + j] == ReferenceEntry(p.strategies[j])
  {
    ReferenceEntryAt(p, version, i);
    ReferenceEntryAt(p, version, j);
  }

  /** Entry `2 + k` of the archive is the reference file of strategy `k`. */
  lemma ReferenceEntryAt(p: SkillBuildInput, version: String, k: nat)
    requires k < |p.strategies|
    ensures var es := Entries(p, version);
      |es| == 4 + |p.strategies| + |PromptEntries(p.promptTemplates)| - 1
      && es[2 + k] == ReferenceEntry(p.strategies[k])
  {
    var head := [Entry("SKILL.md", SkillMd(p, version)), ScriptEntry(p.scriptLogic)];
    var refs := ReferenceEntries(p.strategies);
    var tail := PromptEntries(p.promptTemplates) + [Entry("assets/schema.json", SchemaJson(p.skillName, version))];
    assert Entries(p, version) == head + refs + tail;
    IndexOfMiddle(head, refs, tail, k);
  }

  lemma IndexOfMiddle<T>(a: seq<T>, b: seq<T>, c: seq<T>, k: nat)
    requires k < |b|
    ensures |a + b + c| == |a| + |b| + |c| && (a + b + c)[|a| + k] == b[k]
  {}

  // --- the archive and the builder

  /** The archiver: its observable state is the list of appended entries. */
  class Archive {
    var entries: seq<Entry>

    constructor ()
      ensures entries == []
    {
      entries := [];
    }

    /** `archive.append(content, { name })`. */
    method Append(content: String, name: String)
      modifies this
      ensures entries == old(entries) + [Entry(name, content)]
    {
      entries := entries + [Entry(name, content)];
    }
  }

  /** The `scripts/main.*` entry. */
  method AppendScript(archive: Archive, sl: Option<ScriptLogic>)
    modifies archive
    ensures archive.entries == old(archive.entries) + [ScriptEntry(sl)]
  {
    var language := if sl.Some? then Some(sl.value.language) else None;
    var scriptExt := if language == Some(Python) then "py" else "ts";
    var scriptCode := if sl.Some? then sl.value.code
                      else if language == Some(Python) then ScriptPlaceholderPython
                      else ScriptPlaceholderOther;
    archive.Append(scriptCode, "scripts/main." + scriptExt);
  }

  /** The `references/` part of the append sequence. */
  method AppendReferences(archive: Archive, strategies: seq<Strategy>)
    modifies archive
    ensures archive.entries == old(archive.entries) + ReferenceEntries(strategies)
  {
    ghost var start := archive.entries;
    var i := 0;
    while i < |strategies|
      invariant i <= |strategies|
      invariant archive.entries == start + seq(i, k requires 0 <= k < i => ReferenceEntry(strategies[k]))
    {
      var s := strategies[i];
      var safeName := LowerSafe(SafeName(s.title));
      archive.Append("# " + s.title + "\n\n" + s.content, "references/" + safeName + ".md");
      assert seq(i + 1, k requires 0 <= k < i + 1 => ReferenceEntry(strategies[k]))
          == seq(i, k requires 0 <= k < i => ReferenceEntry(strategies[k])) + [ReferenceEntry(s)];
      i := i + 1;
    }
    if |strategies| == 0 {
      archive.Append(StrategiesPlaceholder, "references/strategies.md");
    }
  }

  /** The `assets/prompts/` part of the append sequence. */
  method AppendPrompts(archive: Archive, templates: Option<seq<PromptTemplate>>)
    modifies archive
    ensures archive.entries == old(archive.entries) + PromptEntries(templates)
  {
    ghost var start := archive.entries;
    if templates.Some? && |templates.value| > 0 {
      var ts := templates.value;
      for k := 0 to |ts|
        invariant archive.entries == start + seq(k, j requires 0 <= j < k => Entry("assets/prompts/" + ts[j].id + ".txt", ts[j].template))
      {
        archive.Append(ts[k].template, "assets/prompts/" + ts[k].id + ".txt");
        assert seq(k + 1, j requires 0 <= j < k + 1 => Entry("assets/prompts/" + ts[j].id + ".txt", ts[j].template))
            == seq(k, j requires 0 <= j < k => Entry("assets/prompts/" + ts[j].id + ".txt", ts[j].template))
               + [Entry("assets/prompts/" + ts[k].id + ".txt", ts[k].template)];
      }
      var promptsIndex := Join(seq(|ts|, k requires 0 <= k < |ts| => PromptIndexLine(ts[k])), "\n");
      archive.Append(promptsIndex, "assets/prompts/README.md");
    } else {
      archive.Append(PromptsPlaceholder, "assets/prompts/README.md");
    }
  }

  /** `SKILL.md`, then the script. */
  method AppendHead(archive: Archive, p: SkillBuildInput, version: String)
    modifies archive
    ensures archive.entries == old(archive.entries) + [Entry("SKILL.md", SkillMd(p, version)), ScriptEntry(p.scriptLogic)]
  {
    var skillMd := RenderSkillMd(p, version);
    archive.Append(skillMd, "SKILL.md");
    AppendScript(archive, p.scriptLogic);
  }

  /** The references, then the prompt templates. */
  method AppendMiddle(archive: Archive, p: SkillBuildInput)
    modifies archive
    ensures archive.entries == old(archive.entries) + (ReferenceEntries(p.strategies) + PromptEntries(p.promptTemplates))
  {
    AppendReferences(archive, p.strategies);
    AppendPrompts(archive, p.promptTemplates);
  }

  lemma AppendAssoc(start: seq<Entry>, head: seq<Entry>, mid: seq<Entry>, last: seq<Entry>)
    ensures start + head + mid + last == start + (head + mid + last)
  {}

  class SkillBuilder {
    const version: String

    /** `new SkillBuilder()` uses version "1.0.0". */
    constructor (version: String := "1.0.0")
      ensures this.version == version
    {
      this.version := version;
    }

    /** The append sequence shared by both build methods. */
    method AppendEntries(archive: Archive, p: SkillBuildInput)
      modifies archive
      ensures archive.entries == old(archive.entries) + Entries(p, version)
    {
      ghost var start := archive.entries;
      AppendHead(archive, p, version);
      AppendMiddle(archive, p);
      archive.Append(SchemaJson(p.skillName, version), "assets/schema.json");
      EntriesSplit(p, version);
      AppendAssoc(start, [Entry("SKILL.md", SkillMd(p, version)), ScriptEntry(p.scriptLogic)],
                  ReferenceEntries(p.strategies) + PromptEntries(p.promptTemplates),
                  [Entry("assets/schema.json", SchemaJson(p.skillName, version))]);
    }

    /** `buildZipBuffer`: validate first (no entry is appended for an invalid
        input), then append the entries; the buffer is represented by the
        entry list it compresses. */
    method BuildZipBuffer(input: RawBuildInput) returns (r: Result<seq<Entry>, seq<String>>)
      ensures ParseBuildInput(input).Err? ==> r == Err(ParseBuildInput(input).error)
      ensures ParseBuildInput(input).Ok? ==> r.Ok? && r.value == Entries(ParseBuildInput(input).value, version)
    {
      var parsed := ParseBuildInput(input);
      if parsed.Err? {
        return Err(parsed.error);
      }
      var archive := new Archive();
      AppendEntries(archive, parsed.value);
      assert archive.entries == [] + Entries(parsed.value, version);
      r := Ok(archive.entries);
    }

    /** `buildZipStream`: the same validation and the same entry sequence,
        returned as the archive itself. */
    method BuildZipStream(input: RawBuildInput) returns (r: Result<Archive, seq<String>>)
      ensures ParseBuildInput(input).Err? ==> r == Err(ParseBuildInput(input).error)
      ensures ParseBuildInput(input).Ok? ==>
        r.Ok? && fresh(r.value) && r.value.entries == Entries(ParseBuildInput(input).value, version)
    {
      var parsed := ParseBuildInput(input);
      if parsed.Err? {
        return Err(parsed.error);
      }
      var archive := new Archive();
      AppendEntries(archive, parsed.value);
      assert archive.entries == [] + Entries(parsed.value, version);
      r := Ok(archive);
    }
  }
}
