/** The indexer's SKILL.md reader: the frontmatter parser with its
    directory-name fallbacks, the section extractor that walks the `##`/`###`
    headings, and the trigger collector. */
module IndexSkills {
  import opened Text
  import opened Results
  import opened MdScan

  const NameKey: String := "name:"
  const DescriptionKey: String := "description:"

  /** The frontmatter fields the indexer keeps; `requiresMcp` is the
      `requires.mcp` list when the frontmatter has one. */
  datatype SkillFrontmatter = SkillFrontmatter(name: String, description: String, requiresMcp: Option<seq<String>>)

  datatype ParsedSkillMd = ParsedSkillMd(frontmatter: SkillFrontmatter, content: String, skillName: String)

  /** A matched value with surrounding white space and one leading and one
      trailing quote removed. */
  function FieldOr(v: Option<String>, fallback: String): String {
    match v
    case Some(x) => McpItem(x)
    case None => fallback
  }

  /** Parse a SKILL.md. Never fails: without a frontmatter block the whole
      text is the content, the name is the directory name and the
      description the first 200 characters. With one, a missing `name:` or
      `description:` line falls back to the directory name or to the first
      200 characters of the body. */
  function ParseSkillMd(content: String, skillName: String): (r: ParsedSkillMd)
    ensures r.skillName == skillName
    ensures SplitFrontmatter(content).None? ==>
      r == ParsedSkillMd(SkillFrontmatter(skillName, Prefix(content, 200), None), content, skillName)
    ensures SplitFrontmatter(content).Some? ==>
      var fm := SplitFrontmatter(content).value;
      && content == Fence + fm.text + Closing + r.content
      && (LineValue(fm.text, NameKey).None? ==> r.frontmatter.name == skillName)
      && (LineValue(fm.text, NameKey).Some? ==> r.frontmatter.name == McpItem(LineValue(fm.text, NameKey).value))
      && (LineValue(fm.text, DescriptionKey).None? ==> r.frontmatter.description == Prefix(r.content, 200))
      && (LineValue(fm.text, DescriptionKey).Some? ==>
            r.frontmatter.description == McpItem(LineValue(fm.text, DescriptionKey).value))
      && r.frontmatter.requiresMcp == RequiresMcp(fm.text)
      && (r.frontmatter.requiresMcp.Some? ==> StartsWith(fm.text, RequiresKey))
  {
    match SplitFrontmatter(content)
    case None =>
      ParsedSkillMd(SkillFrontmatter(skillName, Prefix(content, 200), None), content, skillName)
    case Some(fm) =>
      var name := FieldOr(LineValue(fm.text, NameKey), skillName);
      var description := FieldOr(LineValue(fm.text, DescriptionKey), Prefix(fm.body, 200));
      ParsedSkillMd(SkillFrontmatter(name, description, RequiresMcp(fm.text)), fm.body, skillName)
  }

  /** A SKILL.md with a two-line frontmatter. */
  function Document(name: String, description: String, body: String): String {
    Fence + (NameKey + " " + name + "\n" + DescriptionKey + " " + description) + Closing + body
  }

  predicate SingleLine(s: String) {
    forall k :: 0 <= k < |s| ==> !IsLineTerminator(s[k])
  }

  /** Name and description written as frontmatter lines read back
      unchanged, with the body after the block as the content and no
      `requires` list. */
  lemma ParseDocument(name: String, description: String, body: String, dir: String)
    requires Bare(name) && SingleLine(name)
    requires Bare(description) && SingleLine(description)
    ensures ParseSkillMd(Document(name, description, body), dir)
         == ParsedSkillMd(SkillFrontmatter(name, description, None), body, dir)
  {
    var text := FrontmatterText(name, description);
    DocumentSplits(name, description, body);
    TextValues(name, description);
    McpItemOfBare(name);
    McpItemOfBare(description);
    ParseOfParts(Document(name, description, body), dir, text, body, name, description);
  }

  /** Quoted name and description lines read back without their outer
      quotes; the opening and closing quote characters need not match. */
  lemma ParseQuotedDocument(a: char, name: String, b: char, c: char, description: String, d: char,
                            body: String, dir: String)
    requires IsQuote(a) && IsQuote(b) && IsQuote(c) && IsQuote(d)
    requires SingleLine(name) && SingleLine(description)
    ensures ParseSkillMd(Document([a] + name + [b], [c] + description + [d], body), dir)
         == ParsedSkillMd(SkillFrontmatter(name, description, None), body, dir)
  {
    var qn, qd := [a] + name + [b], [c] + description + [d];
    QuotedValued(a, name, b);
    QuotedValued(c, description, d);
    DocumentSplits(qn, qd, body);
    TextValues(qn, qd);
    McpItemOfQuoted(a, name, b);
    McpItemOfQuoted(c, description, d);
    ParseOfParts(Document(qn, qd, body), dir, FrontmatterText(qn, qd), body, qn, qd);
  }

  /** A value the `key:\s*(.+)` pattern reads whole: non-empty, starting
      with a non-blank character, on one line. */
  predicate Valued(v: String) {
    v != [] && !IsSpace(v[0]) && SingleLine(v)
  }

  lemma QuotedValued(a: char, v: String, b: char)
    requires IsQuote(a) && IsQuote(b) && SingleLine(v)
    ensures Valued([a] + v + [b])
  {
    var w := [a] + v + [b];
    assert forall k :: 0 <= k < |w| ==> w[k] == a || w[k] == b || w[k] == v[k - 1];
  }

  function FrontmatterText(name: String, description: String): String {
    NameKey + " " + name + "\n" + DescriptionKey + " " + description
  }

  lemma DocumentSplits(name: String, description: String, body: String)
    requires SingleLine(name) && SingleLine(description)
    ensures SplitFrontmatter(Document(name, description, body))
         == Some(Frontmatter(FrontmatterText(name, description), body))
  {
    var line1 := NameKey + " " + name;
    var line2 := DescriptionKey + " " + description;
    var text := line1 + "\n" + line2;
    KeyLine(NameKey, name);
    KeyLine(DescriptionKey, description);
    NoEarlyClosing(line1, line2);
    FrontmatterRoundTrip(text, body);
    assert text == FrontmatterText(name, description);
  }

  lemma TextValues(name: String, description: String)
    requires Valued(name) && Valued(description)
    ensures var text := FrontmatterText(name, description);
      && LineValue(text, NameKey) == Some(name)
      && LineValue(text, DescriptionKey) == Some(description)
      && RequiresMcp(text) == None
  {
    var line1 := NameKey + " " + name;
    var line2 := DescriptionKey + " " + description;
    var text := line1 + "\n" + line2;
    assert text == FrontmatterText(name, description);
    KeyLine(NameKey, name);
    NameLineValue(name, line2);
    assert NameKey[0] == 'n';
    DescriptionLineValue(line1, description);
    assert text == line1 + "\n" + DescriptionKey + " " + description;
    assert text[0] != RequiresKey[0];
  }

  lemma ParseOfParts(doc: String, dir: String, text: String, body: String, name: String, description: String)
    requires SplitFrontmatter(doc) == Some(Frontmatter(text, body))
    requires LineValue(text, NameKey) == Some(name)
    requires LineValue(text, DescriptionKey) == Some(description)
    requires RequiresMcp(text) == None
    ensures ParseSkillMd(doc, dir)
         == ParsedSkillMd(SkillFrontmatter(McpItem(name), McpItem(description), None), body, dir)
  {
  }

  lemma KeyLine(key: String, v: String)
    requires SingleLine(key) && SingleLine(v) && key != []
    ensures var line := key + " " + v;
      SingleLine(line) && line[0] == key[0]
  {
    var line := key + " " + v;
    forall k | 0 <= k < |line| ensures !IsLineTerminator(line[k]) {
      if k < |key| {
        assert line[k] == key[k];
      } else if k > |key| {
        assert line[k] == v[k - |key| - 1];
      }
    }
  }

  lemma NameLineValue(name: String, line2: String)
    requires Valued(name)
    ensures LineValue(NameKey + " " + name + "\n" + line2, NameKey) == Some(name)
  {
    LineValueOfFirstLine(NameKey, " ", name, "\n" + line2);
    assert NameKey + " " + name + "\n" + line2 == NameKey + " " + name + ("\n" + line2);
  }

  lemma DescriptionLineValue(line1: String, description: String)
    requires SingleLine(line1) && line1 != [] && line1[0] == 'n'
    requires Valued(description)
    ensures LineValue(line1 + "\n" + DescriptionKey + " " + description, DescriptionKey) == Some(description)
  {
    var text := line1 + "\n" + DescriptionKey + " " + description;
    ValueAtLine(line1 + "\n", DescriptionKey, " ", description, []);
    assert text == (line1 + "\n") + DescriptionKey + " " + description + [];
    var p := |line1| + 1;
    forall q | 0 <= q < p && q + |DescriptionKey| <= |text|
      ensures !AtLineStart(text, q) || text[q..q + |DescriptionKey|] != DescriptionKey
    {
      if q == 0 {
        assert text[0] == 'n';
      } else {
        assert text[q - 1] == line1[q - 1];
      }
    }
    FindValueSkips(text, DescriptionKey, 0, p);
    assert text[p..p + |DescriptionKey|] == DescriptionKey;
  }

  /** The only newline in the two-line frontmatter is followed by the
      second key, so the block cannot close early. */
  lemma NoEarlyClosing(line1: String, line2: String)
    requires SingleLine(line1) && SingleLine(line2)
    requires line2 != [] && line2[0] != '-'
    ensures var text := line1 + "\n" + line2;
      forall k :: 0 <= k < |text| ==> !OccursAt(text + Closing, Closing, k)
  {
    var text := line1 + "\n" + line2;
    var c := text + Closing;
    forall k | 0 <= k < |text| ensures !OccursAt(c, Closing, k) {
      if k < |line1| {
        assert c[k] == line1[k];
      } else if k == |line1| {
        assert c[k + 1] == line2[0];
      } else {
        assert c[k] == line2[k - |line1| - 1];
      }
    }
  }

  /** The section walk: each heading's body runs to the next heading, and
      the search resumes at that next heading's start, which is strictly
      later than the current one, so the loop ends. */
  method ExtractStrategies(content: String) returns (strategies: seq<Section>)
    ensures strategies == Sections(content)
  {
    strategies := [];
    var lastIndex: nat := 0;
    var done := false;
    while !done
      invariant lastIndex <= |content|
      invariant !done ==> strategies + SectionsFrom(content, lastIndex) == Sections(content)
      invariant done ==> strategies == Sections(content)
      decreases if done then 0 else |content| - lastIndex + 1
    {
      var found := FindHeading(content, lastIndex);
      if found.None? {
        done := true;
      } else {
        var section, next := NextSection(content, lastIndex);
        ghost var rest := if next.Some? then SectionsFrom(content, next.value) else [];
        AppendAssoc(strategies, section, rest);
        strategies := strategies + section;
        if next.None? {
          done := true;
        } else {
          lastIndex := next.value;
        }
      }
    }
  }

  /** One turn of the section walk: the section of the heading found from
      `from`, if kept, and where the next search starts. */
  method NextSection(content: String, from: nat) returns (section: seq<Section>, next: Option<nat>)
    requires from <= |content| && FindHeading(content, from).Some?
    ensures next.Some? ==> from < next.value <= |content|
    ensures SectionsFrom(content, from)
            == section + (if next.Some? then SectionsFrom(content, next.value) else [])
  {
    var m := FindHeading(content, from).value;
    var title := Trim(content[m.capStart..m.capEnd]);
    var startIndex := m.capEnd;
    var nextMatch := FindHeading(content, startIndex);
    var endIndex := if nextMatch.Some? then nextMatch.value.start else |content|;
    var sectionContent := Trim(content[startIndex..endIndex]);
    SectionsFromStep(content, from);
    if title != [] && sectionContent != [] {
      section := [Section(title, sectionContent)];
    } else {
      section := [];
    }
    assert section == SectionOf(content, m, endIndex);
    next := if nextMatch.Some? then Some(nextMatch.value.start) else None;
  }

  lemma AppendAssoc<T>(a: seq<T>, b: seq<T>, c: seq<T>)
    ensures a + (b + c) == (a + b) + c
  {
  }

  /** One turn of the section walk, and the search moving strictly forward. */
  lemma SectionsFromStep(t: String, from: nat)
    requires from <= |t| && FindHeading(t, from).Some?
    ensures var m := FindHeading(t, from).value;
      var next := FindHeading(t, m.capEnd);
      var endIndex := if next.Some? then next.value.start else |t|;
      && m.capStart <= m.capEnd <= endIndex <= |t|
      && (next.Some? ==> from < next.value.start)
      && SectionsFrom(t, from)
         == SectionOf(t, m, endIndex) + (if next.Some? then SectionsFrom(t, next.value.start) else [])
  {
    var m := FindHeading(t, from).value;
    var next := FindHeading(t, m.capEnd);
    if next.None? {
      assert SectionOf(t, m, |t|) + [] == SectionOf(t, m, |t|);
    }
  }

  /** The skill name followed by every new `trigger...:` and then every new
      `when to use...:` capture; the list is never empty. */
  method ExtractTriggers(content: String, skillName: String) returns (r: seq<String>)
    ensures r == TriggerList(content, skillName)
    ensures |r| >= 1 && r[0] == skillName && NoDup(r)
  {
    var triggers := CollectTriggers(content, skillName);
    TriggerListSpec(content, skillName);
    r := if |triggers| > 0 then triggers else [skillName];
  }
}
