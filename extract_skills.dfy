/** The example extractor's SKILL.md reader: `key: value` metadata lines
    (the last occurrence of a key wins), trigger bullets under a
    `## When to Use` heading, and strategies from every `##` section, with
    the caps and fallbacks of the extractor. */
module ExtractSkills {
  import opened Text
  import opened Results
  import opened MdScan
  import opened Schema

  // --- `^(\w+):\s*(.+)$` and `^[-*]\s*(.+)$` on one line

  predicate IsWordChar(c: char) {
    ('a' <= c <= 'z') || ('A' <= c <= 'Z') || ('0' <= c <= '9') || c == '_'
  }

  /** Index just past the run of word characters starting at `from`. */
  function WordEnd(s: String, from: nat): (i: nat)
    requires from <= |s|
    ensures from <= i <= |s|
    ensures i < |s| ==> !IsWordChar(s[i])
    ensures forall k :: from <= k < i ==> IsWordChar(s[k])
    decreases |s| - from
  {
    if from == |s| || !IsWordChar(s[from]) then from else WordEnd(s, from + 1)
  }

  predicate SingleLine(s: String) {
    forall k :: 0 <= k < |s| ==> !IsLineTerminator(s[k])
  }

  /** `\s*(.+)$` from `q` to the end of a line: after the longest blank run,
      the rest, which must hold no line terminator; when the blank run
      reaches the end, the regex gives back its last character instead. */
  function RestOfLine(line: String, q: nat): (r: Option<String>)
    requires q <= |line|
    ensures r.Some? ==> r.value != [] && SingleLine(r.value)
  {
    var e := SkipSpace(line, q);
    if e < |line| then
      if SingleLine(line[e..]) then Some(line[e..]) else None
    else if |line| > q && !IsLineTerminator(line[|line| - 1]) then Some(line[|line| - 1..])
    else None
  }

  /** A value loses its surrounding quotes only when both ends carry the
      same quote character. */
  function Unquote(v: String): (r: String)
    ensures v != [] && IsQuote(v[0]) && v[|v| - 1] == v[0] ==> r == (if |v| >= 2 then v[1..|v| - 1] else [])
    ensures !(v != [] && IsQuote(v[0]) && v[|v| - 1] == v[0]) ==> r == v
  {
    if v != [] && (v[0] == '"' || v[0] == '\'') && v[|v| - 1] == v[0] then
      if |v| >= 2 then v[1..|v| - 1] else []
    else v
  }

  /** A metadata line: a word, a colon, then the value, trimmed and unquoted. */
  function MetaLine(line: String): (r: Option<(String, String)>)
    ensures r.Some? ==> r.value.0 != [] && forall k :: 0 <= k < |r.value.0| ==> IsWordChar(r.value.0[k])
  {
    var k := WordEnd(line, 0);
    if k == 0 || k == |line| || line[k] != ':' then None
    else match RestOfLine(line, k + 1)
      case None => None
      case Some(v) => Some((line[..k], Unquote(Trim(v))))
  }

  /** A word key, a colon, a blank and a bare single-line value read back as
      that key and value. */
  lemma MetaLineOfEntry(key: String, value: String)
    requires key != [] && forall k :: 0 <= k < |key| ==> IsWordChar(key[k])
    requires Bare(value) && SingleLine(value)
    ensures MetaLine(key + ": " + value) == Some((key, value))
  {
    var line := key + ": " + value;
    assert forall k :: 0 <= k < |key| ==> line[k] == key[k];
    assert line[|key|] == ':';
    assert WordEnd(line, 0) == |key|;
    assert line[|key| + 1] == ' ';
    assert forall k :: |key| + 2 <= k < |line| ==> line[k] == value[k - |key| - 2];
    assert SkipSpace(line, |key| + 1) == |key| + 2;
    assert line[|key| + 2..] == value;
    assert line[..|key|] == key;
    TrimOfTrimmed(value);
  }

  /** A bullet line: `-` or `*`, then the item, trimmed. */
  function Bullet(line: String): (r: Option<String>)
    ensures r.Some? ==> Trimmed(r.value)
  {
    if line == [] || (line[0] != '-' && line[0] != '*') then None
    else match RestOfLine(line, 1)
      case None => None
      case Some(v) => Some(Trim(v))
  }

  /** `- ` and a trimmed single-line item read back as the item. */
  lemma BulletOfItem(item: String)
    requires item != [] && Trimmed(item) && SingleLine(item)
    ensures Bullet("- " + item) == Some(item)
  {
    var line := "- " + item;
    assert forall k :: 2 <= k < |line| ==> line[k] == item[k - 2];
    assert SkipSpace(line, 1) == 2;
    assert line[2..] == item;
    TrimOfTrimmed(item);
  }

  // --- metadata

  /** The metadata object after the `forEach` over the lines: each matching
      line sets its key, so a later line with the same key wins. */
  function MetadataOf(lines: seq<String>): map<String, String>
  {
    if lines == [] then map[]
    else
      var m := MetadataOf(lines[..|lines| - 1]);
      match MetaLine(lines[|lines| - 1])
      case None => m
      case Some(kv) => m[kv.0 := kv.1]
  }

  /** The value of a key is that of the last line setting it. */
  lemma {:induction false} MetadataLastWins(lines: seq<String>, j: nat, key: String, value: String)
    requires j < |lines| && MetaLine(lines[j]) == Some((key, value))
    requires forall i :: j < i < |lines| ==> MetaLine(lines[i]).None? || MetaLine(lines[i]).value.0 != key
    ensures key in MetadataOf(lines) && MetadataOf(lines)[key] == value
    decreases |lines|
  {
    var init := lines[..|lines| - 1];
    if j < |lines| - 1 {
      assert forall i :: j < i < |init| ==> init[i] == lines[i];
      MetadataLastWins(init, j, key, value);
    }
  }

  /** A key no line sets is absent. */
  lemma {:induction false} MetadataAbsent(lines: seq<String>, key: String)
    requires forall i :: 0 <= i < |lines| ==> MetaLine(lines[i]).None? || MetaLine(lines[i]).value.0 != key
    ensures key !in MetadataOf(lines)
    decreases |lines|
  {
    if lines != [] {
      MetadataAbsent(lines[..|lines| - 1], key);
    }
  }

  method ReadMetadata(lines: seq<String>) returns (metadata: map<String, String>)
    ensures metadata == MetadataOf(lines)
  {
    metadata := map[];
    for i := 0 to |lines|
      invariant metadata == MetadataOf(lines[..i])
    {
      assert lines[..i + 1][..i] == lines[..i];
      match MetaLine(lines[i]) {
        case None =>
        case Some(kv) => metadata := metadata[kv.0 := kv.1];
      }
    }
    assert lines[..|lines|] == lines;
  }

  /** `metadata[key] || ""`. */
  function Field(m: map<String, String>, key: String): String {
    if key in m then m[key] else []
  }

  // --- `## When to Use[^\n]*\n([\s\S]*?)(?=\n## |$)`, case-insensitive

  const WhenHeading: String := "## when to use"
  const SectionBreak: String := "\n## "

  /** The heading can start at `p`: its words in any letter case, and a
      newline somewhere after them. */
  predicate WhenToUseAt(body: String, p: nat) {
    p + |WhenHeading| <= |body| && LowerEq(body[p..p + |WhenHeading|], WhenHeading)
    && IndexOfFrom(body, '\n', p + |WhenHeading|) < |body|
  }

  /** `v` is what the lazy group captures after the heading at `p`: it starts
      on the line after the heading and runs up to the first `\n## ` at or
      after that start, or to the end of the text when there is none. */
  predicate WhenSectionIs(body: String, p: nat, v: String)
    requires WhenToUseAt(body, p)
  {
    var s := IndexOfFrom(body, '\n', p + |WhenHeading|) + 1;
    && s + |v| <= |body| && v == body[s..s + |v|]
    && (forall k :: s <= k < s + |v| ==> !OccursAt(body, SectionBreak, k))
    && (s + |v| == |body| || OccursAt(body, SectionBreak, s + |v|))
  }

  /** The text under the first such heading at or after `from`: from the
      line after it up to the next `\n## ` or the end. */
  function WhenToUseFrom(body: String, from: nat): Option<String>
    decreases |body| - from
  {
    if from >= |body| then None
    else if WhenToUseAt(body, from) then Some(WhenSectionAt(body, from))
    else WhenToUseFrom(body, from + 1)
  }

  /** There is no section exactly when no heading occurs at or after
      `from`; otherwise the section is the one under the first heading. */
  lemma {:induction false} WhenToUseFromSpec(body: String, from: nat)
    ensures var r := WhenToUseFrom(body, from);
      && (r.None? <==> forall p :: from <= p ==> !WhenToUseAt(body, p))
      && (r.Some? ==> exists p :: from <= p && WhenToUseAt(body, p) && WhenSectionIs(body, p, r.value)
                                  && forall q :: from <= q < p ==> !WhenToUseAt(body, q))
    decreases |body| - from
  {
    if from >= |body| {
      assert forall p :: from <= p ==> !WhenToUseAt(body, p);
    } else if WhenToUseAt(body, from) {
      assert WhenSectionIs(body, from, WhenSectionAt(body, from));
    } else {
      WhenToUseFromSpec(body, from + 1);
      var r := WhenToUseFrom(body, from + 1);
      assert WhenToUseFrom(body, from) == r;
      if r.Some? {
        var p :| from + 1 <= p && WhenToUseAt(body, p) && WhenSectionIs(body, p, r.value)
                 && forall q :: from + 1 <= q < p ==> !WhenToUseAt(body, q);
        assert forall q :: from <= q < p ==> !WhenToUseAt(body, q);
      } else {
        assert forall p :: from <= p ==> !WhenToUseAt(body, p);
      }
    }
  }

  /** The lazy group after the heading at `p`. */
  function WhenSectionAt(body: String, p: nat): (r: String)
    requires WhenToUseAt(body, p)
    ensures WhenSectionIs(body, p, r)
  {
    var s := IndexOfFrom(body, '\n', p + |WhenHeading|) + 1;
    var j := match IndexOfSub(body, SectionBreak, s) case Some(j) => j case None => |body|;
    body[s..j]
  }

  function BulletsOf(lines: seq<String>): (r: seq<String>)
    ensures |r| <= |lines|
  {
    if lines == [] then []
    else
      var init := BulletsOf(lines[..|lines| - 1]);
      match Bullet(lines[|lines| - 1])
      case None => init
      case Some(b) => init + [b]
  }

  method CollectBullets(lines: seq<String>) returns (triggers: seq<String>)
    ensures triggers == BulletsOf(lines)
  {
    triggers := [];
    for i := 0 to |lines|
      invariant triggers == BulletsOf(lines[..i])
    {
      assert lines[..i + 1][..i] == lines[..i];
      match Bullet(lines[i]) {
        case None =>
        case Some(b) => triggers := triggers + [b];
      }
    }
    assert lines[..|lines|] == lines;
  }

  function BulletLines(items: seq<String>): (r: seq<String>)
    ensures |r| == |items|
    ensures forall k :: 0 <= k < |r| ==> r[k] == "- " + items[k]
  {
    seq(|items|, k requires 0 <= k < |items| => "- " + items[k])
  }

  /** Bullet items written one per line are read back in order. */
  lemma {:induction false} BulletsOfItems(items: seq<String>)
    requires forall k :: 0 <= k < |items| ==> items[k] != [] && Trimmed(items[k]) && SingleLine(items[k])
    ensures BulletsOf(BulletLines(items)) == items
    decreases |items|
  {
    var lines := BulletLines(items);
    if items != [] {
      var n := |items| - 1;
      var init := items[..n];
      assert items == init + [items[n]];
      BulletsOfItems(init);
      assert lines[..n] == BulletLines(init);
      BulletOfItem(items[n]);
      assert lines[n] == "- " + items[n];
      assert Bullet(lines[|lines| - 1]) == Some(items[n]);
      assert BulletsOf(lines) == BulletsOf(lines[..n]) + [items[n]];
    }
  }

  // --- `##+ ([^\n]+)\n([\s\S]*?)(?=\n##+ |$)`, global

  /** Index just past the run of `#` starting at `from`. */
  function HashEnd(s: String, from: nat): (i: nat)
    requires from <= |s|
    ensures from <= i <= |s|
    ensures i < |s| ==> s[i] != '#'
    ensures forall k :: from <= k < i ==> s[k] == '#'
    decreases |s| - from
  {
    if from == |s| || s[from] != '#' then from else HashEnd(s, from + 1)
  }

  /** `##+ ` matches at `p`: two or more `#`, then a blank. */
  predicate HashesAt(s: String, p: nat)
    requires p <= |s|
  {
    var h := HashEnd(s, p);
    h >= p + 2 && h < |s| && s[h] == ' '
  }

  /** The lazy body stops at the first `\n` followed by `##+ `, or at the end. */
  function BreakFrom(s: String, from: nat): (j: nat)
    requires from <= |s|
    ensures from <= j <= |s|
    decreases |s| - from
  {
    if from == |s| || (s[from] == '\n' && HashesAt(s, from + 1)) then from
    else BreakFrom(s, from + 1)
  }

  /** A section match: title line `[titleStart, titleEnd)`, body
      `[titleEnd + 1, end)`. */
  datatype SectionMatch = SectionMatch(titleStart: nat, titleEnd: nat, end: nat)

  function SectionAt(s: String, p: nat): (r: Option<SectionMatch>)
    requires p <= |s|
    ensures r.Some? ==> p < r.value.titleStart < r.value.titleEnd < r.value.end <= |s|
  {
    if !HashesAt(s, p) then None
    else
      var ts := HashEnd(s, p) + 1;
      var q := IndexOfFrom(s, '\n', ts);
      if q == |s| || q == ts then None
      else Some(SectionMatch(ts, q, BreakFrom(s, q + 1)))
  }

  /** `body.match(regex_g)`: every match, each search resuming where the
      previous match ended. */
  function SectionMatches(s: String, from: nat): (r: seq<SectionMatch>)
    requires from <= |s|
    ensures forall k :: 0 <= k < |r| ==> (from < r[k].titleStart < r[k].titleEnd < r[k].end <= |s|)
    decreases |s| - from
  {
    if from == |s| then []
    else match SectionAt(s, from)
      case Some(m) => [m] + SectionMatches(s, m.end)
      case None => SectionMatches(s, from + 1)
  }

  const LicenseWord: String := "license"
  const OverviewTitle: String := "Overview"

  function Contains(s: String, pat: String): bool {
    IndexOfSub(s, pat, 0).Some?
  }

  /** A strategy the section scan may yield: a non-empty title that does not
      mention a license, and content of 51 to 500 characters. */
  predicate GoodStrategy(st: Strategy) {
    st.title != [] && !Contains(LowerSafe(st.title), LicenseWord) && 50 < |st.content| <= 500
  }

  /** The strategy a section with trimmed title `title` and trimmed body
      `content` yields: one exactly when the title is non-empty and free of
      "license" in any case and the body is longer than 50 characters; then
      that title and the first 500 characters of that body. */
  function Keep(title: String, content: String): (r: Option<Strategy>)
    ensures r.Some? <==> title != [] && !Contains(LowerSafe(title), LicenseWord) && |content| > 50
    ensures r.Some? ==> r.value == Strategy(title, Prefix(content, 500)) && GoodStrategy(r.value)
  {
    if title != [] && content != [] && !Contains(LowerSafe(title), LicenseWord) && |content| > 50 then
      Some(Strategy(title, Prefix(content, 500)))
    else None
  }

  /** The strategy a section yields, read from its trimmed title line and
      its trimmed body. */
  function StrategyOf(s: String, m: SectionMatch): Option<Strategy>
    requires m.titleStart < m.titleEnd < m.end <= |s|
  {
    Keep(Trim(s[m.titleStart..m.titleEnd]), Trim(s[m.titleEnd + 1..m.end]))
  }

  /** A body in which no line starts with `#` holds no section break. */
  predicate NoHeadingLine(body: String) {
    forall k :: 0 <= k < |body| && body[k] == '\n' ==> k + 1 < |body| && body[k + 1] != '#'
  }

  /** A section written as a `## ` title line and a body, followed by the
      next `## ` heading or by the end of the text, is matched with exactly
      that title line and that body. */
  lemma SectionMatchesLayout(pre: String, title: String, body: String, post: String)
    requires title != [] && HasNoChar(title, '\n') && NoHeadingLine(body)
    requires post == [] || StartsWith(post, "\n## ")
    ensures SectionAt(pre + "## " + title + "\n" + body + post, |pre|)
      == Some(SectionMatch(|pre| + 3, |pre| + 3 + |title|, |pre| + 4 + |title| + |body|))
  {
    var s := pre + "## " + title + "\n" + body + post;
    SliceOfJoin(pre, "## ", title + "\n" + body + post);
    SliceOfJoin(pre + "## ", title, "\n" + body + post);
    SliceOfJoin(pre + "## " + title + "\n", body, post);
    SectionAtPos(s, |pre|, title, body, post);
  }

  /** Such a section yields what `Keep` gives for its title line and its
      body, both trimmed. */
  lemma SectionYields(pre: String, title: String, body: String, post: String)
    requires title != []
    ensures var s := pre + "## " + title + "\n" + body + post;
      var m := SectionMatch(|pre| + 3, |pre| + 3 + |title|, |pre| + 4 + |title| + |body|);
      m.end <= |s| && StrategyOf(s, m) == Keep(Trim(title), Trim(body))
  {
    var s := pre + "## " + title + "\n" + body + post;
    SliceOfJoin(pre + "## ", title, "\n" + body + post);
    SliceOfJoin(pre + "## " + title + "\n", body, post);
    StrategyOfSlices(s, SectionMatch(|pre| + 3, |pre| + 3 + |title|, |pre| + 4 + |title| + |body|), title, body);
  }

  /** The middle piece of a text in three pieces, and what follows it. */
  lemma SliceOfJoin(x: String, y: String, z: String)
    ensures (x + y + z)[|x|..|x| + |y|] == y && (x + y + z)[|x| + |y|..] == z
  {
  }

  /** The section pattern at `p` over a text laid out as `## `, title line,
      newline, body and what follows. */
  lemma SectionAtPos(s: String, p: nat, title: String, body: String, post: String)
    requires title != [] && HasNoChar(title, '\n') && NoHeadingLine(body)
    requires post == [] || StartsWith(post, "\n## ")
    requires p + 4 + |title| + |body| <= |s|
    requires s[p..p + 3] == "## " && s[p + 3..p + 3 + |title|] == title && s[p + 3 + |title|] == '\n'
    requires s[p + 4 + |title|..p + 4 + |title| + |body|] == body && s[p + 4 + |title| + |body|..] == post
    ensures SectionAt(s, p) == Some(SectionMatch(p + 3, p + 3 + |title|, p + 4 + |title| + |body|))
  {
    var q := p + 3 + |title|;
    SectionAtOf(s, p, title);
    BodyHasNoBreak(s, q + 1, body, post);
  }

  lemma StrategyOfSlices(s: String, m: SectionMatch, title: String, body: String)
    requires m.titleStart < m.titleEnd < m.end <= |s|
    requires s[m.titleStart..m.titleEnd] == title && s[m.titleEnd + 1..m.end] == body
    ensures StrategyOf(s, m) == Keep(Trim(title), Trim(body))
  {
    var t0, b0 := s[m.titleStart..m.titleEnd], s[m.titleEnd + 1..m.end];
    StrategyOfUnfold(s, m);
    KeepOfEqual(Trim(t0), Trim(b0), Trim(title), Trim(body));
  }

  lemma StrategyOfUnfold(s: String, m: SectionMatch)
    requires m.titleStart < m.titleEnd < m.end <= |s|
    ensures StrategyOf(s, m) == Keep(Trim(s[m.titleStart..m.titleEnd]), Trim(s[m.titleEnd + 1..m.end]))
  {
  }

  lemma KeepOfEqual(x: String, y: String, a: String, b: String)
    requires x == a && y == b
    ensures Keep(x, y) == Keep(a, b)
  {
  }

  /** `## ` and a title line: the match's title runs to the newline. */
  lemma SectionAtOf(s: String, p: nat, title: String)
    requires HasNoChar(title, '\n')
    requires p + 4 + |title| <= |s|
    requires s[p..p + 3] == "## " && s[p + 3..p + 3 + |title|] == title && s[p + 3 + |title|] == '\n'
    ensures HashesAt(s, p) && HashEnd(s, p) + 1 == p + 3
    ensures IndexOfFrom(s, '\n', p + 3) == p + 3 + |title|
  {
    var q := p + 3 + |title|;
    assert s[p] == '#' && s[p + 1] == '#' && s[p + 2] == ' ';
    assert HashEnd(s, p + 2) == p + 2;
    assert forall k :: p + 3 <= k < q ==> s[k] == title[k - p - 3];
  }

  /** The lazy body runs over a body without heading lines up to the break
      that `post` opens, or to the end of the text. */
  lemma BodyHasNoBreak(s: String, from: nat, body: String, post: String)
    requires from + |body| <= |s| && s[from..from + |body|] == body && s[from + |body|..] == post
    requires NoHeadingLine(body)
    requires post == [] || StartsWith(post, "\n## ")
    ensures BreakFrom(s, from) == from + |body|
  {
    var j := from + |body|;
    forall k | from <= k < j ensures !(s[k] == '\n' && HashesAt(s, k + 1)) {
      assert s[k] == body[k - from];
      if s[k] == '\n' {
        assert s[k + 1] == body[k + 1 - from];
      }
    }
    BreakFromSkips(s, from, j);
    if post != [] {
      assert post[..4] == "\n## ";
      assert s[j] == '\n' && s[j + 1] == '#' && s[j + 2] == '#' && s[j + 3] == ' ';
      assert HashEnd(s, j + 1) == j + 3;
    }
  }

  /** Positions that open no section break are passed over. */
  lemma {:induction false} BreakFromSkips(s: String, from: nat, j: nat)
    requires from <= j <= |s|
    requires forall k :: from <= k < j ==> !(s[k] == '\n' && HashesAt(s, k + 1))
    ensures BreakFrom(s, from) == BreakFrom(s, j)
    decreases j - from
  {
    if from < j {
      BreakFromSkips(s, from + 1, j);
    }
  }

  /** What each section yields, in order. */
  function Yields(s: String, ms: seq<SectionMatch>): (r: seq<Option<Strategy>>)
    requires forall k :: 0 <= k < |ms| ==> ms[k].titleStart < ms[k].titleEnd < ms[k].end <= |s|
    ensures |r| == |ms|
  {
    seq(|ms|, k requires 0 <= k < |ms| => StrategyOf(s, ms[k]))
  }

  lemma YieldsGood(s: String, ms: seq<SectionMatch>)
    requires forall k :: 0 <= k < |ms| ==> ms[k].titleStart < ms[k].titleEnd < ms[k].end <= |s|
    ensures forall st :: st in Somes(Yields(s, ms)) ==> GoodStrategy(st)
  {
    forall st | st in Somes(Yields(s, ms)) ensures GoodStrategy(st) {
      SomesSound(Yields(s, ms), st);
    }
  }

  /** The strategies the sections yield, in order. */
  function StrategiesOf(s: String, ms: seq<SectionMatch>): (r: seq<Strategy>)
    requires forall k :: 0 <= k < |ms| ==> ms[k].titleStart < ms[k].titleEnd < ms[k].end <= |s|
    ensures |r| <= |ms|
    ensures forall k :: 0 <= k < |r| ==> GoodStrategy(r[k])
  {
    YieldsGood(s, ms);
    Somes(Yields(s, ms))
  }

  /** The scan over a run of sections is the scan over its first part
      followed by the scan over the rest: the strategies keep the order of
      their sections. */
  lemma StrategiesOfConcat(s: String, a: seq<SectionMatch>, b: seq<SectionMatch>)
    requires forall k :: 0 <= k < |a| ==> a[k].titleStart < a[k].titleEnd < a[k].end <= |s|
    requires forall k :: 0 <= k < |b| ==> b[k].titleStart < b[k].titleEnd < b[k].end <= |s|
    ensures StrategiesOf(s, a + b) == StrategiesOf(s, a) + StrategiesOf(s, b)
  {
    var ya, yb, yab := Yields(s, a), Yields(s, b), Yields(s, a + b);
    forall k | 0 <= k < |yab| ensures yab[k] == (ya + yb)[k] {
      if k < |a| {
        assert (a + b)[k] == a[k];
      } else {
        assert (a + b)[k] == b[k - |a|];
      }
    }
    assert yab == ya + yb;
    SomesConcat(ya, yb);
  }

  /** Every kept strategy is the one some section yields. */
  lemma StrategiesOfSound(s: String, ms: seq<SectionMatch>, st: Strategy)
    requires forall k :: 0 <= k < |ms| ==> ms[k].titleStart < ms[k].titleEnd < ms[k].end <= |s|
    requires st in StrategiesOf(s, ms)
    ensures exists k :: 0 <= k < |ms| && StrategyOf(s, ms[k]) == Some(st)
  {
    SomesSound(Yields(s, ms), st);
  }

  /** Every section that yields a strategy has it kept. */
  lemma StrategiesOfComplete(s: String, ms: seq<SectionMatch>, k: nat)
    requires forall k :: 0 <= k < |ms| ==> ms[k].titleStart < ms[k].titleEnd < ms[k].end <= |s|
    requires k < |ms| && StrategyOf(s, ms[k]).Some?
    ensures StrategyOf(s, ms[k]).value in StrategiesOf(s, ms)
  {
    SomesComplete(Yields(s, ms), k);
  }

  method CollectStrategies(s: String, ms: seq<SectionMatch>) returns (strategies: seq<Strategy>)
    requires forall k :: 0 <= k < |ms| ==> ms[k].titleStart < ms[k].titleEnd < ms[k].end <= |s|
    ensures strategies == StrategiesOf(s, ms)
  {
    strategies := [];
    for i := 0 to |ms|
      invariant strategies == Somes(Yields(s, ms)[..i])
    {
      var ys := Yields(s, ms);
      assert ys[..i + 1][..i] == ys[..i];
      match StrategyOf(s, ms[i]) {
        case None =>
        case Some(st) => strategies := strategies + [st];
      }
    }
    assert Yields(s, ms)[..|ms|] == Yields(s, ms);
  }

  // --- the whole file

  const Unknown: String := "unknown"

  function Take<T>(xs: seq<T>, n: nat): (r: seq<T>)
    ensures |r| <= n && |r| <= |xs| && r == xs[..|r|]
    ensures |xs| <= n ==> r == xs
  {
    if |xs| <= n then xs else xs[..n]
  }

  /** The trigger bullets under the first `## When to Use` heading, if any. */
  function WhenToUseBullets(body: String): seq<String> {
    match WhenToUseFrom(body, 0)
    case None => []
    case Some(section) => BulletsOf(Split(section, '\n'))
  }

  /** At most four strategies: those the section scan keeps, or, when it
      keeps none, an `Overview` of the first 500 characters of a body longer
      than 100 characters. */
  function BodyStrategies(body: String): (r: seq<Strategy>)
    ensures |r| <= 4
    ensures forall k :: 0 <= k < |r| ==> GoodStrategy(r[k]) || r[k].title == OverviewTitle
    ensures var found := StrategiesOf(body, SectionMatches(body, 0));
      && (found == [] ==> r == (if |body| > 100 then [Strategy(OverviewTitle, Prefix(body, 500))] else []))
      && (found != [] ==> r == Take(found, 4))
  {
    var found := StrategiesOf(body, SectionMatches(body, 0));
    var strategies := if found == [] && |body| > 100 then [Strategy(OverviewTitle, Prefix(body, 500))]
                      else found;
    var r := Take(strategies, 4);
    assert forall k :: 0 <= k < |r| ==> r[k] == strategies[k];
    r
  }

  /** The extractor's record for one SKILL.md, or nothing without frontmatter. */
  function ParseSkillFileSpec(content: String): (r: Option<SkillBuildInput>)
    ensures r.None? <==> SplitFrontmatter(content).None?
  {
    match SplitFrontmatter(content)
    case None => None
    case Some(fm) =>
      var metadata := MetadataOf(Split(fm.text, '\n'));
      var name := if Field(metadata, "name") != [] then Field(metadata, "name") else Unknown;
      var description := if Field(metadata, "description") != [] then Field(metadata, "description")
                         else Split(fm.body, '\n')[0];
      var bullets := WhenToUseBullets(fm.body);
      Some(SkillBuildInput(
        name,
        Prefix(description, 300),
        if |bullets| > 0 then Take(bullets, 5) else [name],
        None,
        BodyStrategies(fm.body),
        None,
        None))
  }

  /** The extractor's record: the name (or `unknown`), a description of at
      most 300 characters, one to five triggers (the bullets under
      `## When to Use`, or else the name alone), and at most four
      strategies, each a section that passed the filter or the `Overview`
      fallback. */
  lemma ParseSkillFileShape(content: String)
    requires SplitFrontmatter(content).Some?
    ensures var r := ParseSkillFileSpec(content).value;
      var fm := SplitFrontmatter(content).value;
      && r.skillName != []
      && |r.description| <= 300
      && 1 <= |r.triggers| <= 5
      && |r.strategies| <= 4
      && (forall k :: 0 <= k < |r.strategies| ==> GoodStrategy(r.strategies[k]) || r.strategies[k].title == OverviewTitle)
      && (StrategiesOf(fm.body, SectionMatches(fm.body, 0)) == [] ==>
            r.strategies == (if |fm.body| > 100 then [Strategy(OverviewTitle, Prefix(fm.body, 500))] else []))
      && (StrategiesOf(fm.body, SectionMatches(fm.body, 0)) != [] ==>
            r.strategies == Take(StrategiesOf(fm.body, SectionMatches(fm.body, 0)), 4))
  {
    var fm := SplitFrontmatter(content).value;
    var r := ParseSkillFileSpec(content).value;
    assert r.strategies == BodyStrategies(fm.body);
  }

  /** Where the record's fields come from: the `name` metadata (else
      `unknown`); the `description` metadata, else the body's first line, cut
      to 300 characters; the first five bullets of the `## When to Use`
      section, or else the name alone. */
  lemma ParseSkillFileFields(content: String)
    requires SplitFrontmatter(content).Some?
    ensures var r := ParseSkillFileSpec(content).value;
      var fm := SplitFrontmatter(content).value;
      var metadata := MetadataOf(Split(fm.text, '\n'));
      var bullets := if WhenToUseFrom(fm.body, 0).Some? then BulletsOf(Split(WhenToUseFrom(fm.body, 0).value, '\n')) else [];
      && r.skillName == (if Field(metadata, "name") != [] then Field(metadata, "name") else Unknown)
      && r.description == Prefix(if Field(metadata, "description") != [] then Field(metadata, "description")
                                 else Split(fm.body, '\n')[0], 300)
      && r.triggers == (if bullets != [] then Take(bullets, 5) else [r.skillName])
  {
  }

  /** The bullets of the `When to Use` section, line by line. */
  method ReadTriggers(body: String) returns (triggers: seq<String>)
    ensures triggers == WhenToUseBullets(body)
  {
    triggers := [];
    var whenToUse := WhenToUseFrom(body, 0);
    if whenToUse.Some? {
      triggers := CollectBullets(Split(whenToUse.value, '\n'));
    }
  }

  /** The section scan with its `Overview` fallback, cut to four. */
  method ReadStrategies(body: String) returns (strategies: seq<Strategy>)
    ensures strategies == BodyStrategies(body)
  {
    strategies := CollectStrategies(body, SectionMatches(body, 0));
    if |strategies| == 0 && |body| > 100 {
      strategies := [Strategy(OverviewTitle, Prefix(body, 500))];
    }
    strategies := Take(strategies, 4);
  }

  /** Reading the file with the three `forEach` loops. */
  method ParseSkillFile(content: String) returns (r: Option<SkillBuildInput>)
    ensures r == ParseSkillFileSpec(content)
  {
    var split := SplitFrontmatter(content);
    if split.None? {
      return None;
    }
    var fm := split.value;
    var metadata := ReadMetadata(Split(fm.text, '\n'));
    var description := if Field(metadata, "description") != [] then Field(metadata, "description")
                       else Split(fm.body, '\n')[0];
    var triggers := ReadTriggers(fm.body);
    var strategies := ReadStrategies(fm.body);
    var name := if Field(metadata, "name") != [] then Field(metadata, "name") else Unknown;
    r := Some(SkillBuildInput(
      name,
      Prefix(description, 300),
      if |triggers| > 0 then Take(triggers, 5) else [name],
      None,
      strategies,
      None,
      None));
  }
}
