/** Scanners for the regular expressions the SKILL.md parsers share, written
    out as explicit searches: the `---` frontmatter block, `key: value`
    lines, the `requires: / mcp: [...]` list, `##`/`###` headings and the
    `trigger...:` / `when to use...:` phrases. Each function returns what the
    corresponding `match`/`exec`/`matchAll` call yields. */
module MdScan {
  import opened Text
  import opened Results

  // --- searching

  /** `pat` occurs in `s` starting at index `k`. */
  predicate OccursAt(s: String, pat: String, k: nat) {
    k + |pat| <= |s| && s[k..k + |pat|] == pat
  }

  /** The first index at or after `from` where `pat` occurs. */
  function IndexOfSub(s: String, pat: String, from: nat): (r: Option<nat>)
    ensures r.Some? ==> from <= r.value && OccursAt(s, pat, r.value)
    ensures r.Some? ==> forall k :: from <= k < r.value ==> !OccursAt(s, pat, k)
    ensures r.None? ==> forall k :: from <= k ==> !OccursAt(s, pat, k)
    decreases |s| - from
  {
    if from + |pat| > |s| then None
    else if s[from..from + |pat|] == pat then Some(from)
    else IndexOfSub(s, pat, from + 1)
  }

  /** An occurrence inside the second part of a concatenation. */
  lemma OccursAtShift(a: String, b: String, pat: String, k: nat)
    ensures OccursAt(a + b, pat, |a| + k) == OccursAt(b, pat, k)
  {
    if k + |pat| <= |b| {
      assert (a + b)[|a| + k..|a| + k + |pat|] == b[k..k + |pat|];
    }
  }

  /** An occurrence that ends inside the first part of a concatenation. */
  lemma OccursAtPrefix(a: String, b: String, pat: String, k: nat)
    requires k + |pat| <= |a|
    ensures OccursAt(a + b, pat, k) == OccursAt(a, pat, k)
  {
    assert (a + b)[k..k + |pat|] == a[k..k + |pat|];
  }

  /** The index of the first line terminator at or after `from`, or `|s|`. */
  function LineEnd(s: String, from: nat): (i: nat)
    requires from <= |s|
    ensures from <= i <= |s|
    ensures i < |s| ==> IsLineTerminator(s[i])
    ensures forall k :: from <= k < i ==> !IsLineTerminator(s[k])
    decreases |s| - from
  {
    if from == |s| || IsLineTerminator(s[from]) then from else LineEnd(s, from + 1)
  }

  /** The last index in `[lo, hi)` that is not a line terminator. */
  function LastNonTerminator(s: String, lo: nat, hi: nat): (r: Option<nat>)
    requires lo <= hi <= |s|
    ensures r.Some? ==> lo <= r.value < hi && !IsLineTerminator(s[r.value])
    ensures r.Some? ==> forall k :: r.value < k < hi ==> IsLineTerminator(s[k])
    ensures r.None? ==> forall k :: lo <= k < hi ==> IsLineTerminator(s[k])
    decreases hi - lo
  {
    if hi == lo then None
    else if !IsLineTerminator(s[hi - 1]) then Some(hi - 1)
    else LastNonTerminator(s, lo, hi - 1)
  }

  /** Where `^` may match in multiline mode. */
  predicate AtLineStart(s: String, p: nat) {
    p == 0 || (p <= |s| && IsLineTerminator(s[p - 1]))
  }

  // --- /^---\n([\s\S]*?)\n---\n([\s\S]*)$/

  const Fence: String := "---\n"
  const Closing: String := "\n---\n"

  datatype Frontmatter = Frontmatter(text: String, body: String)

  /** The frontmatter block: the text must open with `---\n`; the block ends
      at the first `\n---\n` after the opening fence, and everything after
      it is the body. */
  function SplitFrontmatter(content: String): (r: Option<Frontmatter>)
    ensures r.Some? ==> content == Fence + r.value.text + Closing + r.value.body
    ensures r.Some? ==> forall k :: 4 <= k < 4 + |r.value.text| ==> !OccursAt(content, Closing, k)
    ensures r.None? ==> !StartsWith(content, Fence) || forall k :: 4 <= k ==> !OccursAt(content, Closing, k)
  {
    if |content| < 4 || content[..4] != Fence then None
    else match IndexOfSub(content, Closing, 4)
      case None => None
      case Some(j) =>
        var text, body := content[4..j], content[j + 5..];
        assert content == content[..4] + content[4..j] + content[j..j + 5] + content[j + 5..];
        Some(Frontmatter(text, body))
  }

  /** A document written as fence, frontmatter, closing fence and body is
      split back into that frontmatter and body, provided the frontmatter
      does not itself close the block early. */
  lemma FrontmatterRoundTrip(text: String, body: String)
    requires forall k :: 0 <= k < |text| ==> !OccursAt(text + Closing, Closing, k)
    ensures SplitFrontmatter(Fence + text + Closing + body) == Some(Frontmatter(text, body))
  {
    var c := Fence + text + Closing + body;
    assert c == Fence + ((text + Closing) + body);
    assert c[..4] == Fence;
    forall k | 4 <= k < 4 + |text| ensures !OccursAt(c, Closing, k) {
      OccursAtShift(Fence, (text + Closing) + body, Closing, k - 4);
      OccursAtPrefix(text + Closing, body, Closing, k - 4);
    }
    OccursAtShift(Fence, (text + Closing) + body, Closing, |text|);
    OccursAtPrefix(text + Closing, body, Closing, |text|);
    OccursAtShift(text, Closing, Closing, 0);
    assert OccursAt(c, Closing, 4 + |text|);
    var r := IndexOfSub(c, Closing, 4);
    assert r == Some(4 + |text|);
    assert c[4..4 + |text|] == text;
    assert c[4 + |text| + 5..] == body;
  }

  // --- /^key:\s*(.+)$/m

  /** The capture of `^key:\s*(.+)$` at a line start `p` where `key` occurs:
      after the longest whitespace run, the rest of that line; when the run
      reaches the end of the text, the regex backtracks to the last
      character of the run that is not a line terminator. */
  function ValueAt(t: String, p: nat, key: String): (r: Option<String>)
    requires p + |key| <= |t|
    ensures r.Some? ==> r.value != [] && forall k :: 0 <= k < |r.value| ==> !IsLineTerminator(r.value[k])
  {
    var q := p + |key|;
    var e := SkipSpace(t, q);
    if e < |t| then
      LineTerminatorIsSpace(t[e]);
      Some(t[e..LineEnd(t, e)])
    else
      match LastNonTerminator(t, q, e)
      case Some(k) => Some(t[k..k + 1])
      case None => None
  }

  /** `t.match(/^key:\s*(.+)$/m)?.[1]`, searching from `from`. */
  function FindValue(t: String, key: String, from: nat): (r: Option<String>)
    ensures r.Some? ==> r.value != [] && forall k :: 0 <= k < |r.value| ==> !IsLineTerminator(r.value[k])
    decreases |t| - from
  {
    if from + |key| > |t| then None
    else if AtLineStart(t, from) && t[from..from + |key|] == key && ValueAt(t, from, key).Some? then
      ValueAt(t, from, key)
    else FindValue(t, key, from + 1)
  }

  function LineValue(t: String, key: String): Option<String> {
    FindValue(t, key, 0)
  }

  /** A line `key`, padding blanks, value, read at the start of the line,
      yields the value. */
  lemma ValueAtLine(pre: String, key: String, pad: String, v: String, rest: String)
    requires forall k :: 0 <= k < |pad| ==> pad[k] == ' '
    requires v != [] && !IsSpace(v[0])
    requires forall k :: 0 <= k < |v| ==> !IsLineTerminator(v[k])
    requires rest == [] || IsLineTerminator(rest[0])
    ensures |pre| + |key| <= |pre + key + pad + v + rest|
    ensures ValueAt(pre + key + pad + v + rest, |pre|, key) == Some(v)
  {
    var t := pre + key + pad + v + rest;
    var q := |pre| + |key|;
    var s := q + |pad|;
    assert forall k :: 0 <= k < |pad| ==> t[q + k] == pad[k];
    assert t[s..s + |v|] == v;
    if rest != [] {
      assert t[s + |v|] == rest[0];
    }
    ValueAtPos(t, |pre|, key, pad, v);
  }

  /** The same, stated on the positions of the line in the text. */
  lemma ValueAtPos(t: String, p: nat, key: String, pad: String, v: String)
    requires p + |key| + |pad| + |v| <= |t|
    requires forall k :: 0 <= k < |pad| ==> pad[k] == ' ' && t[p + |key| + k] == pad[k]
    requires v != [] && !IsSpace(v[0])
    requires forall k :: 0 <= k < |v| ==> !IsLineTerminator(v[k])
    requires t[p + |key| + |pad|..p + |key| + |pad| + |v|] == v
    requires p + |key| + |pad| + |v| == |t| || IsLineTerminator(t[p + |key| + |pad| + |v|])
    ensures ValueAt(t, p, key) == Some(v)
  {
    var q := p + |key|;
    var s := q + |pad|;
    forall k | q <= k < s ensures IsSpace(t[k]) {
      assert t[q + (k - q)] == pad[k - q];
    }
    assert t[s] == v[0];
    SkipSpaceTo(t, q, s);
    forall k | s <= k < s + |v| ensures !IsLineTerminator(t[k]) {
      assert t[k] == v[k - s];
    }
    LineEndAt(t, s, s + |v|);
  }

  /** A run of blanks ended by a non-blank: the white-space run ends there. */
  lemma SkipSpaceTo(t: String, from: nat, e: nat)
    requires from <= e < |t| && !IsSpace(t[e])
    requires forall k :: from <= k < e ==> IsSpace(t[k])
    ensures SkipSpace(t, from) == e
  {
  }

  /** A run of non-terminators ended by a terminator or by the end of the
      text: the line ends there. */
  lemma LineEndAt(t: String, from: nat, e: nat)
    requires from <= e <= |t| && (e == |t| || IsLineTerminator(t[e]))
    requires forall k :: from <= k < e ==> !IsLineTerminator(t[k])
    ensures LineEnd(t, from) == e
  {
  }

  /** The search passes over positions where the key cannot start a line. */
  lemma {:induction false} FindValueSkips(t: String, key: String, from: nat, p: nat)
    requires from <= p
    requires forall q :: from <= q < p && q + |key| <= |t| ==> !AtLineStart(t, q) || t[q..q + |key|] != key
    ensures FindValue(t, key, from) == FindValue(t, key, p)
    decreases p - from
  {
    if from < p {
      FindValueSkips(t, key, from + 1, p);
    }
  }

  /** A first line `key`, padding blanks, value reads back as the value. */
  lemma LineValueOfFirstLine(key: String, pad: String, v: String, rest: String)
    requires forall k :: 0 <= k < |pad| ==> pad[k] == ' '
    requires v != [] && !IsSpace(v[0])
    requires forall k :: 0 <= k < |v| ==> !IsLineTerminator(v[k])
    requires rest == [] || IsLineTerminator(rest[0])
    ensures LineValue(key + pad + v + rest, key) == Some(v)
  {
    var t := key + pad + v + rest;
    var s := |key| + |pad|;
    assert forall k :: 0 <= k < |pad| ==> t[|key| + k] == pad[k];
    assert t[s..s + |v|] == v;
    if rest != [] {
      assert t[s + |v|] == rest[0];
    }
    ValueAtPos(t, 0, key, pad, v);
    assert t[..|key|] == key;
  }

  // --- /^requires:\s*\n\s*mcp:\s*\[(.*?)\]/s

  const RequiresKey: String := "requires:"
  const McpKey: String := "mcp:"

  /** One list item: trimmed, then one leading and one trailing quote removed. */
  function McpItem(s: String): String {
    StripQuotes(Trim(s))
  }

  function McpItems(parts: seq<String>): (r: seq<String>)
    ensures |r| == |parts|
  {
    seq(|parts|, k requires 0 <= k < |parts| => McpItem(parts[k]))
  }

  /** `x.split(",").map(s => s.trim().replace(/^["']|["']$/g, "")).filter(Boolean)`. */
  function McpList(x: String): (r: seq<String>)
    ensures forall k :: 0 <= k < |r| ==> r[k] != []
  {
    NonEmpty(McpItems(Split(x, ',')))
  }

  /** The `requires.mcp` list. Without the `m` flag, `^` only matches at the
      start of the frontmatter text, so it must begin with `requires:`; the
      whitespace before `mcp:` must include a newline; the list runs to the
      first `]`. */
  function RequiresMcp(t: String): (r: Option<seq<String>>)
    ensures r.Some? ==> StartsWith(t, RequiresKey)
    ensures r.Some? ==> forall k :: 0 <= k < |r.value| ==> r.value[k] != []
  {
    if !StartsWith(t, RequiresKey) then None
    else
      var e1 := SkipSpace(t, 9);
      if HasNoChar(t[9..e1], '\n') || !StartsWith(t[e1..], McpKey) then None
      else
        var e2 := SkipSpace(t, e1 + 4);
        if e2 == |t| || t[e2] != '[' then None
        else
          var close := IndexOfFrom(t, ']', e2 + 1);
          if close == |t| then None
          else Some(McpList(t[e2 + 1..close]))
  }

  /** A bare value: non-empty, with no surrounding white space or quotes. */
  predicate Bare(s: String) {
    s != [] && Trimmed(s) && !IsQuote(s[0]) && !IsQuote(s[|s| - 1])
  }

  /** A plain list item: bare and without a comma. */
  predicate PlainItem(s: String) {
    Bare(s) && HasNoChar(s, ',')
  }

  lemma McpItemOfBare(s: String)
    requires Bare(s)
    ensures McpItem(s) == s
  {
    TrimOfTrimmed(s);
    assert s[0..|s|] == s;
  }

  /** Plain names written as a comma-separated list read back unchanged. */
  lemma McpListOfJoin(ns: seq<String>)
    requires |ns| >= 1 && forall k :: 0 <= k < |ns| ==> PlainItem(ns[k])
    ensures McpList(Join(ns, ",")) == ns
  {
    assert "," == [','];
    SplitJoin(ns, ',');
    forall k | 0 <= k < |ns| ensures McpItem(ns[k]) == ns[k] {
      McpItemOfBare(ns[k]);
    }
    assert McpItems(ns) == ns;
    NonEmptyOfNonEmpty(ns);
  }

  /** A quoted item loses exactly its two outer quotes, whatever it holds. */
  lemma McpItemOfQuoted(a: char, v: String, b: char)
    requires IsQuote(a) && IsQuote(b)
    ensures McpItem([a] + v + [b]) == v
  {
    var s := [a] + v + [b];
    assert s[0] == a && s[|s| - 1] == b;
    TrimOfTrimmed(s);
    StripQuotesSpec(v, a, b);
  }

  /** Each name between a pair of quote characters `q`. */
  function Quoted(ns: seq<String>, q: char): (r: seq<String>)
    ensures |r| == |ns|
  {
    seq(|ns|, k requires 0 <= k < |ns| => [q] + ns[k] + [q])
  }

  /** Quoted names written as a comma-separated list read back without
      their quotes. */
  lemma McpListOfQuotedJoin(ns: seq<String>, q: char)
    requires IsQuote(q)
    requires |ns| >= 1 && forall k :: 0 <= k < |ns| ==> ns[k] != [] && HasNoChar(ns[k], ',')
    ensures McpList(Join(Quoted(ns, q), ",")) == ns
  {
    var qs := Quoted(ns, q);
    assert "," == [','];
    QuotedHasNoChar(ns, q, ',');
    SplitJoin(qs, ',');
    forall k | 0 <= k < |ns| ensures McpItem(qs[k]) == ns[k] {
      McpItemOfQuoted(q, ns[k], q);
    }
    assert McpItems(qs) == ns;
    NonEmptyOfNonEmpty(ns);
  }

  /** The opening of a `requires.mcp` block: a `requires:` line, then an
      indented `mcp: [` line. */
  const McpOpening: String := "requires:\n  mcp: ["

  /** The search for a character that starts past a prefix is a search in
      the rest. */
  lemma {:induction false} IndexOfFromAfter(a: String, b: String, c: char, k: nat)
    requires k <= |b|
    ensures IndexOfFrom(a + b, c, |a| + k) == |a| + IndexOfFrom(b, c, k)
    decreases |b| - k
  {
    if k < |b| {
      assert (a + b)[|a| + k] == b[k];
      if b[k] != c {
        IndexOfFromAfter(a, b, c, k + 1);
      }
    }
  }

  /** What the `requires` pattern sees in the opening lines. */
  lemma OpeningFacts(y: String)
    ensures var t := McpOpening + y;
      && StartsWith(t, RequiresKey) && SkipSpace(t, 9) == 12 && !HasNoChar(t[9..12], '\n')
      && StartsWith(t[12..], McpKey) && SkipSpace(t, 16) == 17 && t[17] == '['
  {
    var t := McpOpening + y;
    forall k | 0 <= k < 18 ensures t[k] == McpOpening[k] {}
    assert t[..9] == RequiresKey;
    assert SkipSpace(t, 12) == 12;
    assert SkipSpace(t, 11) == 12;
    assert SkipSpace(t, 10) == 12;
    assert t[9..12][0] == '\n';
    assert t[12..][..4] == McpKey;
    assert SkipSpace(t, 17) == 17;
  }

  /** A frontmatter that opens with a `requires:` line and an `mcp: [x]`
      line yields the items of `x`, whatever follows the closing bracket. */
  lemma RequiresMcpOfList(x: String, rest: String)
    requires HasNoChar(x, ']')
    ensures RequiresMcp(McpOpening + x + "]" + rest) == Some(McpList(x))
  {
    var y := x + "]" + rest;
    var t := McpOpening + y;
    assert McpOpening + x + "]" + rest == t;
    OpeningFacts(y);
    IndexOfFromStops(x, ']', rest);
    IndexOfFromAfter(McpOpening, y, ']', 0);
    assert IndexOfFrom(t, ']', 18) == 18 + |x|;
    assert t[18..18 + |x|] == x;
  }

  /** Plain names listed after `mcp:` are found as written. */
  lemma RequiresMcpOfNames(ns: seq<String>, rest: String)
    requires |ns| >= 1 && forall k :: 0 <= k < |ns| ==> PlainItem(ns[k]) && HasNoChar(ns[k], ']')
    ensures RequiresMcp(McpOpening + Join(ns, ",") + "]" + rest) == Some(ns)
  {
    JoinHasNoChar(ns, ",", ']');
    RequiresMcpOfList(Join(ns, ","), rest);
    McpListOfJoin(ns);
  }

  /** Names listed after `mcp:`, each in the quotes `q`, are found without
      their quotes. */
  lemma RequiresMcpOfQuotedNames(ns: seq<String>, q: char, rest: String)
    requires IsQuote(q)
    requires |ns| >= 1 && forall k :: 0 <= k < |ns| ==> ns[k] != [] && HasNoChar(ns[k], ',') && HasNoChar(ns[k], ']')
    ensures RequiresMcp(McpOpening + Join(Quoted(ns, q), ",") + "]" + rest) == Some(ns)
  {
    var qs := Quoted(ns, q);
    QuotedHasNoChar(ns, q, ']');
    JoinHasNoChar(qs, ",", ']');
    RequiresMcpOfList(Join(qs, ","), rest);
    McpListOfQuotedJoin(ns, q);
  }

  lemma QuotedHasNoChar(ns: seq<String>, q: char, c: char)
    requires q != c && forall k :: 0 <= k < |ns| ==> HasNoChar(ns[k], c)
    ensures forall k :: 0 <= k < |ns| ==> HasNoChar(Quoted(ns, q)[k], c)
  {
    forall k | 0 <= k < |ns| ensures HasNoChar(Quoted(ns, q)[k], c) {
      var w := [q] + ns[k] + [q];
      assert forall i :: 0 <= i < |w| ==> w[i] == q || w[i] == ns[k][i - 1];
    }
  }

  // --- /^###?\s+(.+?)$/gm

  /** A heading match: where it starts, the captured title and where the
      match ends (the end of the captured text). */
  datatype Heading = Heading(start: nat, capStart: nat, capEnd: nat)

  /** `^###?\s+(.+?)$` tried at `p`: two or three `#`, a whitespace run of
      at least one character (it may span lines), then the rest of the line.
      When the run reaches the end of the text the regex backtracks to the
      last character of the run that is not a line terminator; a third `#`
      directly followed by a non-space character fails. */
  function HeadingAt(t: String, p: nat): (r: Option<Heading>)
    requires p <= |t|
    ensures r.Some? ==> r.value.start == p && p + 3 <= r.value.capStart < r.value.capEnd <= |t|
    ensures r.Some? ==> forall k :: r.value.capStart <= k < r.value.capEnd ==> !IsLineTerminator(t[k])
  {
    if p + 2 >= |t| || t[p] != '#' || t[p + 1] != '#' then None
    else
      var s0 := if t[p + 2] == '#' then p + 3 else p + 2;
      var e := SkipSpace(t, s0);
      if e == s0 then None
      else if e < |t| then
        LineTerminatorIsSpace(t[e]);
        Some(Heading(p, e, LineEnd(t, e)))
      else
        match LastNonTerminator(t, s0 + 1, e)
        case Some(k) => Some(Heading(p, k, k + 1))
        case None => None
  }

  /** A single-line piece followed by a line terminator or the end of the
      text ends its line. */
  lemma LineEndOfPiece(a: String, v: String, rest: String)
    requires forall k :: 0 <= k < |v| ==> !IsLineTerminator(v[k])
    requires rest == [] || IsLineTerminator(rest[0])
    ensures |a| <= |a + v + rest| && LineEnd(a + v + rest, |a|) == |a| + |v|
  {
    var t := a + v + rest;
    if rest != [] {
      assert t[|a| + |v|] == rest[0];
    }
  }

  /** One blank, then a non-blank character: the white-space run ends at it. */
  lemma SkipOneBlank(t: String, i: nat)
    requires i + 1 < |t| && IsSpace(t[i]) && !IsSpace(t[i + 1])
    ensures SkipSpace(t, i) == i + 1
  {
    assert SkipSpace(t, i + 1) == i + 1;
  }

  /** A `##` or `###` line at a line start, whose title begins with a
      non-blank character, is recognised as a heading capturing exactly that
      title. */
  lemma HeadingAtLine(pre: String, hashes: String, title: String, rest: String)
    requires hashes == "##" || hashes == "###"
    requires pre == [] || IsLineTerminator(pre[|pre| - 1])
    requires title != [] && !IsSpace(title[0])
    requires forall k :: 0 <= k < |title| ==> !IsLineTerminator(title[k])
    requires rest == [] || IsLineTerminator(rest[0])
    ensures var t := pre + hashes + " " + title + rest;
      var p, c := |pre|, |pre| + |hashes| + 1;
      && HeadingStartsAt(t, p)
      && HeadingAt(t, p) == Some(Heading(p, c, c + |title|))
      && t[c..c + |title|] == title
  {
    var a := pre + hashes + " ";
    var t := a + title + rest;
    var p, c := |pre|, |a|;
    assert a[p] == '#' && a[p + 1] == '#' && a[c - 1] == ' ';
    assert hashes == "###" ==> a[p + 2] == '#';
    assert t[p] == '#' && t[p + 1] == '#' && t[c - 1] == ' ' && t[c] == title[0];
    assert hashes == "###" ==> t[p + 2] == '#';
    if pre != [] {
      assert t[p - 1] == pre[p - 1];
    }
    SkipOneBlank(t, c - 1);
    LineEndOfPiece(a, title, rest);
    assert t[c..c + |title|] == title;
  }

  predicate HeadingStartsAt(t: String, p: nat)
    requires p <= |t|
  {
    AtLineStart(t, p) && HeadingAt(t, p).Some?
  }

  /** `sectionRegex.exec(t)` with `lastIndex == from`: the first heading
      starting at or after `from`. */
  function FindHeading(t: String, from: nat): (r: Option<Heading>)
    requires from <= |t|
    ensures r.Some? ==> from <= r.value.start <= |t| && HeadingStartsAt(t, r.value.start)
                        && HeadingAt(t, r.value.start) == r
    ensures r.Some? ==> forall p :: from <= p < r.value.start ==> !HeadingStartsAt(t, p)
    ensures r.None? ==> forall p :: from <= p <= |t| ==> !HeadingStartsAt(t, p)
    decreases |t| - from
  {
    var h := HeadingAt(t, from);
    if AtLineStart(t, from) && h.Some? then h
    else if from == |t| then None
    else FindHeading(t, from + 1)
  }

  /** Searching again from the start of a heading that was found finds that
      same heading: this is what lets the loops restart at `nextMatch.index`. */
  lemma FindHeadingAgain(t: String, from: nat)
    requires from <= |t| && FindHeading(t, from).Some?
    ensures FindHeading(t, FindHeading(t, from).value.start) == FindHeading(t, from)
  {}

  datatype Section = Section(title: String, content: String)

  /** The section of heading `m` whose body ends at `endIndex`, if both its
      trimmed title and its trimmed body are non-empty. */
  function SectionOf(t: String, m: Heading, endIndex: nat): (r: seq<Section>)
    requires m.capStart <= m.capEnd <= endIndex <= |t|
    ensures |r| <= 1
    ensures forall k :: 0 <= k < |r| ==> (r[k].title != [] && r[k].content != []
                                         && Trimmed(r[k].title) && Trimmed(r[k].content))
  {
    var title := Trim(t[m.capStart..m.capEnd]);
    var body := Trim(t[m.capEnd..endIndex]);
    if title != [] && body != [] then [Section(title, body)] else []
  }

  /** The sections from `from` on: each heading, its body running to the
      next heading (or the end), kept when title and body are non-empty. */
  function SectionsFrom(t: String, from: nat): (r: seq<Section>)
    requires from <= |t|
    ensures forall k :: 0 <= k < |r| ==> (r[k].title != [] && r[k].content != []
                                         && Trimmed(r[k].title) && Trimmed(r[k].content))
    decreases |t| - from
  {
    match FindHeading(t, from)
    case None => []
    case Some(m) =>
      var next := FindHeading(t, m.capEnd);
      var endIndex := if next.Some? then next.value.start else |t|;
      if next.None? then SectionOf(t, m, endIndex)
      else SectionOf(t, m, endIndex) + SectionsFrom(t, next.value.start)
  }

  function Sections(t: String): seq<Section> {
    SectionsFrom(t, 0)
  }

  /** Every heading match in order, each search starting where the previous
      match ended (what a global `exec` loop without resets visits). */
  function HeadingsFrom(t: String, from: nat): (r: seq<Heading>)
    requires from <= |t|
    ensures forall k :: 0 <= k < |r| ==> (from <= r[k].start <= r[k].capStart <= r[k].capEnd <= |t|)
    ensures forall k :: 0 <= k < |r| - 1 ==> r[k].capEnd <= r[k + 1].start
    decreases |t| - from
  {
    match FindHeading(t, from)
    case None => []
    case Some(m) => [m] + HeadingsFrom(t, m.capEnd)
  }

  /** The sections of a list of consecutive headings. */
  function SectionsOfHeadings(t: String, hs: seq<Heading>): seq<Section>
    requires forall k :: 0 <= k < |hs| ==> hs[k].start <= hs[k].capStart <= hs[k].capEnd <= |t|
    requires forall k :: 0 <= k < |hs| - 1 ==> hs[k].capEnd <= hs[k + 1].start
  {
    if hs == [] then []
    else
      var endIndex := if |hs| > 1 then hs[1].start else |t|;
      SectionOf(t, hs[0], endIndex) + SectionsOfHeadings(t, hs[1..])
  }

  /** The sections are exactly those of the heading matches in document
      order, each body running up to the next heading: restarting the search
      at the next heading's start visits every heading once. */
  lemma {:induction false} SectionsFollowHeadings(t: String, from: nat)
    requires from <= |t|
    ensures SectionsFrom(t, from) == SectionsOfHeadings(t, HeadingsFrom(t, from))
    decreases |t| - from
  {
    match FindHeading(t, from)
    case None =>
    case Some(m) =>
      var next := FindHeading(t, m.capEnd);
      var hs := HeadingsFrom(t, from);
      assert hs == [m] + HeadingsFrom(t, m.capEnd);
      if next.Some? {
        FindHeadingAgain(t, m.capEnd);
        assert HeadingsFrom(t, next.value.start) == HeadingsFrom(t, m.capEnd);
        SectionsFollowHeadings(t, next.value.start);
        assert hs[1..] == HeadingsFrom(t, m.capEnd);
        assert hs[1] == next.value;
      } else {
        assert hs == [m];
      }
  }

  // --- /trigger[^:]*:\s*(.+?)(?:\n|$)/gi and /when to use[^:]*:\s*(.+?)(?:\n|$)/gi

  const TriggerKey: String := "trigger"
  const WhenKey: String := "when to use"

  /** Case-insensitive comparison with a lower-case key (ASCII letters only,
      as in a non-Unicode `i` regex). */
  predicate LowerEq(seg: String, key: String) {
    |seg| == |key| && forall k :: 0 <= k < |key| ==> AsciiLower(seg[k]) == key[k]
  }

  datatype Capture = Capture(text: String, end: nat)

  /** A non-empty text without a line terminator. */
  predicate SingleLineText(x: String) {
    x != [] && forall k :: 0 <= k < |x| ==> !IsLineTerminator(x[k])
  }

  /** `(.+?)(?:\n|$)` from `s`: a non-empty run of non-terminators that is
      followed by `\n` (consumed) or by the end of the text. */
  function TryCapture(t: String, s: nat): (r: Option<Capture>)
    requires s <= |t|
    ensures r.Some? ==> s < r.value.end <= |t| && r.value.text != []
    ensures r.Some? ==> s + |r.value.text| <= |t| && r.value.text == t[s..s + |r.value.text|]
    ensures r.Some? ==> forall k :: 0 <= k < |r.value.text| ==> !IsLineTerminator(r.value.text[k])
    ensures r.Some? ==> (r.value.end == s + |r.value.text| == |t|)
                        || (r.value.end == s + |r.value.text| + 1 && t[r.value.end - 1] == '\n')
  {
    if s == |t| || IsLineTerminator(t[s]) then None
    else
      var k := LineEnd(t, s);
      if k == |t| then Some(Capture(t[s..k], k))
      else if t[k] == '\n' then Some(Capture(t[s..k], k + 1))
      else None
  }

  /** The greedy `\s*` gives characters back one at a time until the rest
      of the pattern matches. */
  function CaptureBack(t: String, lo: nat, s: nat): (r: Option<Capture>)
    requires lo <= s <= |t|
    ensures r.Some? ==> lo < r.value.end <= |t|
    ensures r.Some? ==> SingleLineText(r.value.text)
    decreases s - lo
  {
    match TryCapture(t, s)
    case Some(c) => Some(c)
    case None => if s == lo then None else CaptureBack(t, lo, s - 1)
  }

  /** The phrase pattern tried at `p`: the key (any letter case), everything
      up to the first `:`, white space, then the capture. */
  function PhraseAt(t: String, p: nat, key: String): (r: Option<Capture>)
    requires p <= |t|
    ensures r.Some? ==> p < r.value.end <= |t|
    ensures r.Some? ==> SingleLineText(r.value.text)
  {
    if p + |key| > |t| || !LowerEq(t[p..p + |key|], key) then None
    else
      var c := IndexOfFrom(t, ':', p + |key|);
      if c == |t| then None
      else CaptureBack(t, c + 1, SkipSpace(t, c + 1))
  }

  /** The captures of `t.matchAll(pattern)` from `from`, in order; each
      is a non-empty piece of a single line. */
  function PhraseCaptures(t: String, key: String, from: nat): (r: seq<String>)
    requires from <= |t|
    ensures forall k :: 0 <= k < |r| ==> SingleLineText(r[k])
    decreases |t| - from
  {
    if from == |t| then []
    else match PhraseAt(t, from, key)
      case Some(c) => [c.text] + PhraseCaptures(t, key, c.end)
      case None => PhraseCaptures(t, key, from + 1)
  }

  /** A line holding the key (in lower case), a colon, a blank and a value
      that starts with a non-blank character is matched at the key, and
      the capture is the value, the match ending past the newline. */
  lemma PhraseAtLine(pre: String, key: String, v: String, rest: String)
    requires LowerEq(key, key)
    requires v != [] && !IsSpace(v[0]) && SingleLineText(v)
    ensures var t := pre + key + ": " + v + "\n" + rest;
      PhraseAt(t, |pre|, key) == Some(Capture(v, |pre| + |key| + 3 + |v|))
  {
    var t := pre + key + ": " + v + "\n" + rest;
    var p, c := |pre|, |pre| + |key|;
    assert t[p..c] == key;
    assert t[c] == ':' && t[c + 1] == ' ';
    assert t[c + 2..c + 2 + |v|] == v;
    assert t[c + 2 + |v|] == '\n';
    PhraseAtPos(t, p, key, v);
  }

  /** The phrase pattern at `p` over a text laid out as key, colon, blank,
      value and newline. */
  lemma PhraseAtPos(t: String, p: nat, key: String, v: String)
    requires LowerEq(key, key)
    requires v != [] && !IsSpace(v[0]) && SingleLineText(v)
    requires p + |key| + 2 + |v| < |t|
    requires t[p..p + |key|] == key
    requires t[p + |key|] == ':' && t[p + |key| + 1] == ' '
    requires t[p + |key| + 2..p + |key| + 2 + |v|] == v
    requires t[p + |key| + 2 + |v|] == '\n'
    ensures PhraseAt(t, p, key) == Some(Capture(v, p + |key| + 3 + |v|))
  {
    var c := p + |key|;
    assert IndexOfFrom(t, ':', c) == c;
    assert t[c + 2] == v[0];
    SkipOneBlank(t, c + 1);
    var i := LineEnd(t, c + 2);
    assert forall k :: c + 2 <= k < c + 2 + |v| ==> t[k] == v[k - c - 2];
    assert i == c + 2 + |v|;
    assert TryCapture(t, c + 2) == Some(Capture(v, c + 3 + |v|));
  }

  /** Positions where the pattern does not match are passed over. */
  lemma {:induction false} PhraseCapturesSkip(t: String, key: String, from: nat, p: nat)
    requires from <= p <= |t|
    requires forall q :: from <= q < p ==> PhraseAt(t, q, key).None?
    ensures PhraseCaptures(t, key, from) == PhraseCaptures(t, key, p)
    decreases p - from
  {
    if from < p {
      PhraseCapturesSkip(t, key, from + 1, p);
    }
  }

  /** The first match of the scan gives its first capture, and the scan
      resumes where that match ends. */
  lemma PhraseCapturesFirst(t: String, key: String, p: nat, c: Capture)
    requires p < |t| && PhraseAt(t, p, key) == Some(c)
    requires forall q :: 0 <= q < p ==> PhraseAt(t, q, key).None?
    ensures PhraseCaptures(t, key, 0) == [c.text] + PhraseCaptures(t, key, c.end)
  {
    PhraseCapturesSkip(t, key, 0, p);
  }

  // --- the trigger list

  /** Adding one trimmed capture: kept when non-empty and not present yet. */
  function AddTrigger(acc: seq<String>, x: String): (r: seq<String>)
    ensures acc <= r && |r| <= |acc| + 1
  {
    var t := Trim(x);
    if t != [] && t !in acc then acc + [t] else acc
  }

  function AddTriggers(acc: seq<String>, xs: seq<String>): (r: seq<String>)
    ensures acc <= r
  {
    if xs == [] then acc else AddTrigger(AddTriggers(acc, xs[..|xs| - 1]), xs[|xs| - 1])
  }

  predicate NoDup(xs: seq<String>) {
    forall i, j :: 0 <= i < j < |xs| ==> xs[i] != xs[j]
  }

  /** The non-empty trimmed captures, in order. */
  function Kept(xs: seq<String>): seq<String> {
    if xs == [] then []
    else Kept(xs[..|xs| - 1]) + (if Trim(xs[|xs| - 1]) != [] then [Trim(xs[|xs| - 1])] else [])
  }

  /** The elements of `xs` that are not in `seen` and not earlier in `xs`,
      each at its first occurrence, in order. */
  function Firsts(xs: seq<String>, seen: seq<String>): seq<String> {
    if xs == [] then []
    else
      var init := xs[..|xs| - 1];
      var x := xs[|xs| - 1];
      Firsts(init, seen) + (if x !in seen && x !in init then [x] else [])
  }

  lemma {:induction false} FirstsMembers(xs: seq<String>, seen: seq<String>, y: String)
    ensures y in Firsts(xs, seen) <==> y in xs && y !in seen
    decreases |xs|
  {
    if xs != [] {
      var init := xs[..|xs| - 1];
      FirstsMembers(init, seen, y);
      assert xs == init + [xs[|xs| - 1]];
    }
  }

  lemma FirstsSnoc(xs: seq<String>, seen: seq<String>, t: String)
    ensures Firsts(xs + [t], seen) == Firsts(xs, seen) + (if t !in seen && t !in xs then [t] else [])
  {
    assert (xs + [t])[..|xs + [t]| - 1] == xs;
  }

  /** One added capture `t`, given the list so far is `acc` followed by the
      first occurrences of the captures kept so far. */
  lemma AddOneOrder(acc: seq<String>, kept: seq<String>, t: String)
    ensures var before := acc + Firsts(kept, acc);
      (if t != [] && t !in before then before + [t] else before)
      == acc + Firsts(kept + (if t != [] then [t] else []), acc)
  {
    var f := Firsts(kept, acc);
    if t != [] {
      FirstsMembers(kept, acc, t);
      FirstsSnoc(kept, acc, t);
      assert t in acc + f <==> t in acc || t in f;
      assert acc + f + [t] == acc + (f + [t]);
    } else {
      assert kept + [] == kept;
    }
  }

  /** Adding captures appends, in order, the first occurrence of every
      non-empty trimmed capture that was not there yet. */
  lemma {:induction false} AddTriggersOrder(acc: seq<String>, xs: seq<String>)
    ensures AddTriggers(acc, xs) == acc + Firsts(Kept(xs), acc)
    decreases |xs|
  {
    if xs != [] {
      var init := xs[..|xs| - 1];
      AddTriggersOrder(acc, init);
      AddOneOrder(acc, Kept(init), Trim(xs[|xs| - 1]));
    }
  }

  /** The trigger list both parsers build: the skill name first, then the
      `trigger...:` captures, then the `when to use...:` captures, each
      trimmed, skipping empty ones and ones already present. */
  function TriggerList(content: String, first: String): seq<String> {
    AddTriggers(AddTriggers([first], PhraseCaptures(content, TriggerKey, 0)),
                PhraseCaptures(content, WhenKey, 0))
  }

  /** Adding captures keeps the list free of duplicates, keeps what was
      there as a prefix, and ends up holding exactly what was there plus
      every non-empty trimmed capture. */
  lemma {:induction false} AddTriggersSpec(acc: seq<String>, xs: seq<String>)
    requires NoDup(acc)
    ensures var r := AddTriggers(acc, xs);
      && NoDup(r) && acc <= r
      && (forall y :: y in Kept(xs) ==> y in r)
      && (forall y :: y in r ==> y in acc || y in Kept(xs))
  {
    if xs != [] {
      var init := xs[..|xs| - 1];
      AddTriggersSpec(acc, init);
    }
  }

  /** The trigger list starts with the skill name, never holds a duplicate,
      holds exactly the name and the non-empty trimmed captures of both
      patterns, and all the `trigger` additions come before any `when to
      use` addition. */
  lemma TriggerListSpec(content: String, first: String)
    ensures var r := TriggerList(content, first);
      var tc := Kept(PhraseCaptures(content, TriggerKey, 0));
      var wc := Kept(PhraseCaptures(content, WhenKey, 0));
      var afterTrigger := AddTriggers([first], PhraseCaptures(content, TriggerKey, 0));
      && |r| >= 1 && r[0] == first && NoDup(r)
      && afterTrigger <= r
      && (forall y :: y in tc ==> y in afterTrigger)
      && (forall y :: y in r ==> y == first || y in tc || y in wc)
      && (forall y :: y in wc ==> y in r)
      && r == [first] + Firsts(tc, [first]) + Firsts(wc, [first] + Firsts(tc, [first]))
  {
    var tcs := PhraseCaptures(content, TriggerKey, 0);
    var wcs := PhraseCaptures(content, WhenKey, 0);
    AddTriggersSpec([first], tcs);
    var mid := AddTriggers([first], tcs);
    AddTriggersSpec(mid, wcs);
    assert [first] <= mid;
    AddTriggersOrder([first], tcs);
    AddTriggersOrder(mid, wcs);
  }

  /** The nested loops over the two patterns, pushing each new trigger. */
  method CollectTriggers(content: String, first: String) returns (triggers: seq<String>)
    ensures triggers == TriggerList(content, first)
  {
    triggers := [first];
    var patterns := [TriggerKey, WhenKey];
    for p := 0 to 2
      invariant p == 0 ==> triggers == [first]
      invariant p == 1 ==> triggers == AddTriggers([first], PhraseCaptures(content, TriggerKey, 0))
      invariant p == 2 ==> triggers == TriggerList(content, first)
    {
      var matches := PhraseCaptures(content, patterns[p], 0);
      triggers := PushTriggers(triggers, matches);
    }
  }

  /** The inner loop over one pattern's matches. */
  method PushTriggers(start: seq<String>, matches: seq<String>) returns (triggers: seq<String>)
    ensures triggers == AddTriggers(start, matches)
  {
    triggers := start;
    for i := 0 to |matches|
      invariant triggers == AddTriggers(start, matches[..i])
    {
      assert matches[..i + 1][..i] == matches[..i];
      var triggerText := Trim(matches[i]);
      if triggerText != [] && triggerText !in triggers {
        triggers := triggers + [triggerText];
      }
    }
    assert matches[..|matches|] == matches;
  }
}
