/** String helpers shared by the models: JavaScript's whitespace class and
    `trim`, `split`, `join`, the quote-stripping replace used by the SKILL.md
    parsers, the `[^a-z0-9-_]` path sanitiser and decimal rendering.
    Strings are sequences of Unicode scalar values. */
module Text {

  type String = seq<char>

  /** The characters matched by JavaScript's `\s` and removed by `trim()`:
      WhiteSpace and LineTerminator of ECMA-262. */
  predicate IsSpace(c: char) {
    c == ' ' || c == '\t' || c == '\n' || c == '\U{B}' || c == '\U{C}' || c == '\r'
    || c == '\U{A0}' || c == '\U{1680}' || ('\U{2000}' <= c <= '\U{200A}')
    || c == '\U{2028}' || c == '\U{2029}' || c == '\U{202F}' || c == '\U{205F}'
    || c == '\U{3000}' || c == '\U{FEFF}'
  }

  /** The characters `.` does not match and at which `^`/`$` anchor in multiline mode. */
  predicate IsLineTerminator(c: char) {
    c == '\n' || c == '\r' || c == '\U{2028}' || c == '\U{2029}'
  }

  lemma LineTerminatorIsSpace(c: char)
    ensures IsLineTerminator(c) ==> IsSpace(c)
  {}

  predicate NoSpace(s: String) {
    forall i :: 0 <= i < |s| ==> !IsSpace(s[i])
  }

  predicate AllSpace(s: String) {
    forall i :: 0 <= i < |s| ==> IsSpace(s[i])
  }

  predicate HasNoChar(s: String, c: char) {
    forall i :: 0 <= i < |s| ==> s[i] != c
  }

  /** No leading and no trailing whitespace. */
  predicate Trimmed(s: String) {
    s == [] || (!IsSpace(s[0]) && !IsSpace(s[|s| - 1]))
  }

  /** Index just before the whitespace run that ends at `hi`, never below `lo`. */
  function DropSpace(s: String, lo: nat, hi: nat): (j: nat)
    requires lo <= hi <= |s|
    ensures lo <= j <= hi
    ensures j > lo ==> !IsSpace(s[j - 1])
    ensures forall k :: j <= k < hi ==> IsSpace(s[k])
    decreases hi - lo
  {
    if hi == lo || !IsSpace(s[hi - 1]) then hi else DropSpace(s, lo, hi - 1)
  }

  /** `String.prototype.trim`: leading and trailing whitespace removed. */
  function Trim(s: String): (r: String)
    ensures |r| <= |s| && Trimmed(r)
  {
    var a := SkipSpace(s, 0);
    s[a..DropSpace(s, a, |s|)]
  }

  /** The trimmed string is the input with a whitespace prefix and a whitespace suffix removed. */
  lemma TrimIsInfix(s: String) returns (a: nat, b: nat)
    ensures a <= b <= |s| && Trim(s) == s[a..b]
    ensures AllSpace(s[..a]) && AllSpace(s[b..])
  {
    a := SkipSpace(s, 0);
    b := DropSpace(s, a, |s|);
  }

  /** Trimming a string without surrounding whitespace changes nothing; in
      particular `trim` is idempotent. */
  lemma TrimOfTrimmed(s: String)
    requires Trimmed(s)
    ensures Trim(s) == s
  {
    assert SkipSpace(s, 0) == 0;
    assert DropSpace(s, 0, |s|) == |s|;
    assert s[0..|s|] == s;
  }

  /** The string is blank (`!s.trim()` in JavaScript) exactly when it is all whitespace. */
  lemma {:induction false} TrimEmptyIffAllSpace(s: String)
    ensures Trim(s) == [] <==> AllSpace(s)
  {
    var a, b := TrimIsInfix(s);
    if Trim(s) != [] {
      assert s[a..b][0] == s[a];
      assert !IsSpace(s[a]);
    }
    if Trim(s) == [] {
      assert a == b;
      forall i | 0 <= i < |s| ensures IsSpace(s[i]) {
        if i < a { assert s[..a][i] == s[i]; } else { assert s[b..][i - b] == s[i]; }
      }
    }
  }

  /** The first index at or after `from` holding `c`, or `|s|`. */
  function IndexOfFrom(s: String, c: char, from: nat): (i: nat)
    requires from <= |s|
    ensures from <= i <= |s|
    ensures i < |s| ==> s[i] == c
    ensures forall k :: from <= k < i ==> s[k] != c
    decreases |s| - from
  {
    if from == |s| || s[from] == c then from else IndexOfFrom(s, c, from + 1)
  }

  /** `s.split(c)` for a one-character separator. */
  function Split(s: String, c: char): (r: seq<String>)
    ensures |r| >= 1
    ensures forall k :: 0 <= k < |r| ==> HasNoChar(r[k], c)
    decreases |s|
  {
    var i := IndexOfFrom(s, c, 0);
    if i == |s| then [s] else [s[..i]] + Split(s[i + 1..], c)
  }

  /** `parts.join(sep)`. */
  function Join(parts: seq<String>, sep: String): String {
    if |parts| == 0 then []
    else if |parts| == 1 then parts[0]
    else parts[0] + sep + Join(parts[1..], sep)
  }

  /** Splitting a join on its one-character separator gives back the parts,
      provided no part contains the separator. */
  lemma {:induction false} SplitJoin(parts: seq<String>, c: char)
    requires |parts| >= 1
    requires forall k :: 0 <= k < |parts| ==> HasNoChar(parts[k], c)
    ensures Split(Join(parts, [c]), c) == parts
  {
    if |parts| == 1 {
      assert IndexOfFrom(parts[0], c, 0) == |parts[0]|;
    } else {
      var s := Join(parts, [c]);
      var rest := Join(parts[1..], [c]);
      assert s == parts[0] + [c] + rest;
      IndexOfFromStops(parts[0], c, rest);
      assert s[..|parts[0]|] == parts[0];
      assert s[|parts[0]| + 1..] == rest;
      SplitJoin(parts[1..], c);
    }
  }

  lemma IndexOfFromStops(p: String, c: char, rest: String)
    requires HasNoChar(p, c)
    ensures IndexOfFrom(p + [c] + rest, c, 0) == |p|
  {
    var s := p + [c] + rest;
    assert s[|p|] == c;
    assert forall k :: 0 <= k < |p| ==> s[k] == p[k];
  }

  lemma {:induction false} JoinHasNoChar(parts: seq<String>, sep: String, c: char)
    requires HasNoChar(sep, c)
    requires forall k :: 0 <= k < |parts| ==> HasNoChar(parts[k], c)
    ensures HasNoChar(Join(parts, sep), c)
  {
    if |parts| > 1 {
      JoinHasNoChar(parts[1..], sep, c);
    }
  }

  /** The characters the sanitiser `replace(/[^a-z0-9-_]/gi, "_")` keeps. */
  predicate IsSafeChar(c: char) {
    ('a' <= c <= 'z') || ('A' <= c <= 'Z') || ('0' <= c <= '9') || c == '-' || c == '_'
  }

  predicate AllSafe(s: String) {
    forall i :: 0 <= i < |s| ==> IsSafeChar(s[i])
  }

  /** Number of UTF-16 code units of a string: JavaScript's `length`. */
  function Utf16Length(s: String): nat {
    if s == [] then 0 else (if s[0] <= '\U{FFFF}' then 1 else 2) + Utf16Length(s[1..])
  }

  /** `s.replace(/[^a-z0-9-_]/gi, "_")`. The regex works on UTF-16 code
      units, so a character outside the Basic Multilingual Plane (two code
      units) becomes two underscores. */
  function SafeName(s: String): (r: String)
    ensures |r| == Utf16Length(s)
    ensures AllSafe(r)
  {
    if s == [] then []
    else
      var head := if IsSafeChar(s[0]) then [s[0]] else if s[0] <= '\U{FFFF}' then "_" else "__";
      head + SafeName(s[1..])
  }

  /** Characters are kept or replaced one by one: a safe character survives
      in place, in its original case. */
  lemma SafeNameKeepsSafe(x: String, c: char, y: String)
    requires IsSafeChar(c)
    ensures SafeName(x + [c] + y) == SafeName(x) + [c] + SafeName(y)
  {
    assert x + [c] + y == x + ([c] + y);
    SafeNameAppend(x, [c] + y);
    SafeNameAppend([c], y);
    SafeNameOfSafeChar(c);
  }

  /** An unsafe character becomes one underscore per UTF-16 code unit: `_`
      for a character of the Basic Multilingual Plane, `__` for one outside
      it; the characters around it are sanitised independently. */
  lemma SafeNameReplaces(x: String, c: char, y: String)
    requires !IsSafeChar(c)
    ensures c <= '\U{FFFF}' ==> SafeName(x + [c] + y) == SafeName(x) + "_" + SafeName(y)
    ensures c > '\U{FFFF}' ==> SafeName(x + [c] + y) == SafeName(x) + "__" + SafeName(y)
  {
    SafeNameAppend(x + [c], y);
    SafeNameAppend(x, [c]);
    SafeNameOfUnsafeChar(c);
  }

  lemma SafeNameOfUnsafeChar(c: char)
    requires !IsSafeChar(c)
    ensures SafeName([c]) == if c <= '\U{FFFF}' then "_" else "__"
  {
    assert [c][1..] == [];
  }

  lemma SafeNameOfSafeChar(c: char)
    requires IsSafeChar(c)
    ensures SafeName([c]) == [c]
  {
    assert [c][1..] == [];
  }

  lemma {:induction false} SafeNameAppend(a: String, b: String)
    ensures SafeName(a + b) == SafeName(a) + SafeName(b)
  {
    if a != [] {
      assert (a + b)[1..] == a[1..] + b;
      SafeNameAppend(a[1..], b);
    } else {
      assert a + b == b;
    }
  }

  /** Every character of a safe name is already safe, so sanitising again
      changes nothing. */
  lemma {:induction false} SafeNameIdempotent(s: String)
    ensures SafeName(SafeName(s)) == SafeName(s)
  {
    SafeNameOfSafe(SafeName(s));
  }

  lemma {:induction false} SafeNameOfSafe(s: String)
    requires AllSafe(s)
    ensures SafeName(s) == s
  {
    if s != [] {
      SafeNameOfSafe(s[1..]);
    }
  }

  /** ASCII `toLowerCase` (sufficient for strings of safe characters). */
  function AsciiLower(c: char): char {
    if 'A' <= c <= 'Z' then (c as int + 32) as char else c
  }

  function LowerSafe(s: String): (r: String)
    ensures |r| == |s|
    ensures forall i :: 0 <= i < |s| ==> r[i] == AsciiLower(s[i])
  {
    if s == [] then [] else [AsciiLower(s[0])] + LowerSafe(s[1..])
  }

  /** The lower-case safe alphabet `[a-z0-9_-]`. */
  predicate IsLowerSafeChar(c: char) {
    ('a' <= c <= 'z') || ('0' <= c <= '9') || c == '-' || c == '_'
  }

  /** Decimal digit of a value below ten. */
  function Digit(d: nat): char
    requires d < 10
  {
    ('0' as int + d) as char
  }

  predicate IsDigit(c: char) {
    '0' <= c <= '9'
  }

  /** `String(n)` for a natural number: its decimal digits, no leading zero. */
  function NatToString(n: nat): (r: String)
    ensures |r| >= 1
    ensures forall i :: 0 <= i < |r| ==> IsDigit(r[i])
    ensures |r| > 1 ==> r[0] != '0'
    decreases n
  {
    if n < 10 then [Digit(n)] else NatToString(n / 10) + [Digit(n % 10)]
  }

  /** Value of a string of decimal digits. */
  function DigitsValue(s: String): nat
    requires forall i :: 0 <= i < |s| ==> IsDigit(s[i])
  {
    if s == [] then 0
    else
      assert IsDigit(s[|s| - 1]);
      DigitsValue(s[..|s| - 1]) * 10 + (s[|s| - 1] as int - '0' as int)
  }

  /** Reading back the decimal rendering of a number gives the number. */
  lemma {:induction false} NatToStringValue(n: nat)
    ensures DigitsValue(NatToString(n)) == n
  {
    if n >= 10 {
      var r := NatToString(n);
      NatToStringValue(n / 10);
      assert r[..|r| - 1] == NatToString(n / 10);
    }
  }

  /** Prefix `s.substring(0, n)`. */
  function Prefix(s: String, n: nat): (r: String)
    ensures |r| == if |s| < n then |s| else n
    ensures r == s[..|r|]
  {
    if |s| <= n then s else s[..n]
  }

  predicate StartsWith(s: String, p: String) {
    |p| <= |s| && s[..|p|] == p
  }

  lemma StartsWithAppend(p: String, t: String, u: String)
    ensures StartsWith(p + t + u, p)
  {
    assert (p + t + u)[..|p|] == p;
  }

  predicate IsQuote(c: char) {
    c == '"' || c == '\''
  }

  /** `s.replace(/^["']|["']$/g, "")`: one leading quote and one trailing
      quote are removed, independently of each other. */
  function StripQuotes(s: String): (r: String)
    ensures |r| <= |s|
  {
    var a := if |s| > 0 && IsQuote(s[0]) then 1 else 0;
    var b := if |s| > a && IsQuote(s[|s| - 1]) then |s| - 1 else |s|;
    s[a..b]
  }

  /** What the quote stripping removes: a quote at each end, the two
      independently (the quote characters need not match), a quote at one
      end only, or nothing from a value without an outer quote; quotes
      further inside are kept. */
  lemma StripQuotesSpec(v: String, a: char, b: char)
    ensures IsQuote(a) && IsQuote(b) ==> StripQuotes([a] + v + [b]) == v
    ensures IsQuote(a) && (v == [] || !IsQuote(v[|v| - 1])) ==> StripQuotes([a] + v) == v
    ensures IsQuote(b) && v != [] && !IsQuote(v[0]) ==> StripQuotes(v + [b]) == v
    ensures v == [] || (!IsQuote(v[0]) && !IsQuote(v[|v| - 1])) ==> StripQuotes(v) == v
  {
    assert ([a] + v + [b])[1..|v| + 1] == v;
    assert ([a] + v)[1..] == v;
    assert (v + [b])[..|v|] == v;
    assert v[0..|v|] == v;
  }

  /** Remove the empty strings: `.filter(Boolean)` on strings. */
  function NonEmpty(xs: seq<String>): (r: seq<String>)
    ensures |r| <= |xs|
    ensures forall k :: 0 <= k < |r| ==> r[k] != []
  {
    if xs == [] then []
    else (if xs[0] == [] then [] else [xs[0]]) + NonEmpty(xs[1..])
  }

  lemma {:induction false} NonEmptyOfNonEmpty(xs: seq<String>)
    requires forall k :: 0 <= k < |xs| ==> xs[k] != []
    ensures NonEmpty(xs) == xs
  {
    if xs != [] {
      NonEmptyOfNonEmpty(xs[1..]);
    }
  }

  /** Index of the first whitespace character at or after `from`, or `|s|`. */
  function SpaceFrom(s: String, from: nat): (i: nat)
    requires from <= |s|
    ensures from <= i <= |s|
    ensures i < |s| ==> IsSpace(s[i])
    ensures forall k :: from <= k < i ==> !IsSpace(s[k])
    decreases |s| - from
  {
    if from == |s| || IsSpace(s[from]) then from else SpaceFrom(s, from + 1)
  }

  /** Index just past the whitespace run starting at `from`. */
  function SkipSpace(s: String, from: nat): (i: nat)
    requires from <= |s|
    ensures from <= i <= |s|
    ensures i < |s| ==> !IsSpace(s[i])
    ensures forall k :: from <= k < i ==> IsSpace(s[k])
    decreases |s| - from
  {
    if from == |s| || !IsSpace(s[from]) then from else SkipSpace(s, from + 1)
  }

  /** `s.split(/\s+/)`: the pieces between maximal whitespace runs, with an
      empty first or last piece when `s` starts or ends with whitespace. */
  function SplitWs(s: String): (r: seq<String>)
    ensures |r| >= 1
    ensures forall k :: 0 <= k < |r| ==> NoSpace(r[k])
    decreases |s|
  {
    var i := SpaceFrom(s, 0);
    if i == |s| then [s]
    else
      var j := SkipSpace(s, i);
      [s[..i]] + SplitWs(s[j..])
  }

  /** `s.trim().split(/\s+/).filter(Boolean)`: the whitespace-separated words. */
  function Words(s: String): (r: seq<String>)
    ensures forall k :: 0 <= k < |r| ==> r[k] != [] && NoSpace(r[k])
  {
    var r := NonEmpty(SplitWs(Trim(s)));
    assert forall k :: 0 <= k < |r| ==> r[k] in SplitWs(Trim(s)) by {
      NonEmptyIn(SplitWs(Trim(s)));
    }
    r
  }

  lemma {:induction false} NonEmptyIn(xs: seq<String>)
    ensures forall k :: 0 <= k < |NonEmpty(xs)| ==> NonEmpty(xs)[k] in xs
  {
    if xs != [] {
      NonEmptyIn(xs[1..]);
    }
  }

  /** A valid word: non-empty and free of whitespace. */
  predicate IsWord(w: String) {
    w != [] && NoSpace(w)
  }

  /** On a non-empty string without surrounding whitespace, `split(/\s+/)`
      yields only non-empty pieces, so the filter removes nothing. */
  lemma {:induction false} SplitWsOfTrimmed(s: String)
    requires s != [] && Trimmed(s)
    ensures forall k :: 0 <= k < |SplitWs(s)| ==> SplitWs(s)[k] != []
  {
    var i := SpaceFrom(s, 0);
    if i < |s| {
      var j := SkipSpace(s, i);
      assert !IsSpace(s[|s| - 1]);
      assert j < |s|;
      SplitWsOfTrimmed(s[j..]);
    }
  }

  /** Splitting a space-joined list of words gives back the words. */
  lemma {:induction false} SplitWsJoin(ws: seq<String>)
    requires |ws| >= 1
    requires forall k :: 0 <= k < |ws| ==> IsWord(ws[k])
    ensures SplitWs(Join(ws, " ")) == ws
  {
    var s := Join(ws, " ");
    if |ws| == 1 {
      assert SpaceFrom(s, 0) == |s|;
    } else {
      var rest := Join(ws[1..], " ");
      assert s == ws[0] + " " + rest;
      var i := SpaceFrom(s, 0);
      assert s[|ws[0]|] == ' ';
      assert forall k :: 0 <= k < |ws[0]| ==> s[k] == ws[0][k];
      assert i == |ws[0]|;
      JoinWordsTrimmed(ws[1..]);
      assert rest[0] == s[|ws[0]| + 1];
      var j := SkipSpace(s, i);
      assert j == i + 1;
      assert s[..i] == ws[0];
      assert s[j..] == rest;
      SplitWsJoin(ws[1..]);
    }
  }

  /** A space-joined non-empty list of words has no surrounding whitespace. */
  lemma {:induction false} JoinWordsTrimmed(ws: seq<String>)
    requires |ws| >= 1
    requires forall k :: 0 <= k < |ws| ==> IsWord(ws[k])
    ensures Join(ws, " ") != [] && Trimmed(Join(ws, " "))
  {
    if |ws| > 1 {
      JoinWordsTrimmed(ws[1..]);
      var rest := Join(ws[1..], " ");
      assert Join(ws, " ") == ws[0] + " " + rest;
    }
  }

  /** Round trip: the words of a space-joined list of words are that list. */
  lemma WordsOfJoin(ws: seq<String>)
    requires forall k :: 0 <= k < |ws| ==> IsWord(ws[k])
    ensures Words(Join(ws, " ")) == ws
  {
    if ws == [] {
      assert Trim([]) == [];
    } else {
      JoinWordsTrimmed(ws);
      TrimOfTrimmed(Join(ws, " "));
      SplitWsJoin(ws);
      NonEmptyOfNonEmpty(ws);
    }
  }

  /** Counting the pieces of `split(/\s+/)` on the trimmed, non-blank string
      gives the number of words. */
  lemma WordCountOfTrimmed(s: String)
    requires Trim(s) != []
    ensures |SplitWs(Trim(s))| == |Words(s)|
  {
    SplitWsOfTrimmed(Trim(s));
    NonEmptyOfNonEmpty(SplitWs(Trim(s)));
  }
}
