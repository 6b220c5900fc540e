/** Request sanitisation: `stripInjection` removes fenced code blocks, then
    inline code spans, then angle, curly and square brackets, and trims;
    the search and generate request schemas bound the raw length, strip,
    and then bound the number of words. */
module Sanitize {
  import opened Text
  import opened Results
  import opened MdScan

  const MaxWords := 5
  const MaxQueryLength := 50
  const Fence3: String := "```"

  /** Occurrences of `c` in `s`. */
  function CountChar(s: String, c: char): nat {
    if s == [] then 0 else CountChar(s[..|s| - 1], c) + (if s[|s| - 1] == c then 1 else 0)
  }

  lemma {:induction false} CountAppend(a: String, b: String, c: char)
    ensures CountChar(a + b, c) == CountChar(a, c) + CountChar(b, c)
    decreases |b|
  {
    if b != [] {
      assert (a + b)[..|a + b| - 1] == a + b[..|b| - 1];
      CountAppend(a, b[..|b| - 1], c);
    } else {
      assert a + b == a;
    }
  }

  lemma {:induction false} CountNone(s: String, c: char)
    requires HasNoChar(s, c)
    ensures CountChar(s, c) == 0
    decreases |s|
  {
    if s != [] {
      CountNone(s[..|s| - 1], c);
    }
  }

  /** Counting over a piece of a string counts no more than over the whole. */
  lemma CountInfix(s: String, a: nat, b: nat, c: char)
    requires a <= b <= |s|
    ensures CountChar(s[a..b], c) <= CountChar(s, c)
  {
    assert s == s[..a] + s[a..b] + s[b..];
    CountAppend(s[..a] + s[a..b], s[b..], c);
    CountAppend(s[..a], s[a..b], c);
  }

  lemma CountOne(x: char, c: char)
    ensures CountChar([x], c) == if x == c then 1 else 0
  {
    assert [x][..0] == [];
  }

  /** With at most one `c`, nothing after an occurrence of `c` is another `c`. */
  lemma CountAtMostOne(s: String, c: char, p: nat)
    requires CountChar(s, c) <= 1 && p < |s| && s[p] == c
    ensures forall q :: p < q < |s| ==> s[q] != c
  {
    forall q | p < q < |s| ensures s[q] != c {
      var a, b, d := s[..p], s[p + 1..q], s[q + 1..];
      assert s == a + [s[p]] + b + [s[q]] + d;
      CountAppend(a + [s[p]] + b + [s[q]], d, c);
      CountAppend(a + [s[p]] + b, [s[q]], c);
      CountAppend(a + [s[p]], b, c);
      CountAppend(a, [s[p]], c);
      CountOne(s[p], c);
      CountOne(s[q], c);
    }
  }

  // --- the three replacements

  /** `replace(/```[\s\S]*?```/g, "")`: from the first fence to the next
      fence, repeatedly; an unclosed fence stays. Text without a fence is
      unchanged, and no complete fenced block is left. */
  function RemoveFences(s: String): (r: String)
    ensures |r| <= |s|
    ensures (forall k :: !OccursAt(s, Fence3, k)) ==> r == s
    ensures NoFencedBlock(r)
    decreases |s|
  {
    var open := IndexOfSub(s, Fence3, 0);
    if open.None? then s
    else
      var close := IndexOfSub(s, Fence3, open.value + 3);
      if close.None? then
        NoBlockUnclosed(s, open.value);
        s
      else
        var rest := RemoveFences(s[close.value + 3..]);
        NoBlockJoin(s, open.value, rest);
        s[..open.value] + rest
  }

  /** No complete fenced block: after any fence, no other fence starts
      past its three backticks. */
  predicate NoFencedBlock(s: String) {
    forall i, j :: 0 <= i && i + 3 <= j < |s| && OccursAt(s, Fence3, i) ==> !OccursAt(s, Fence3, j)
  }

  /** Joining what lies before the first fence of `s` to any `rest` forms
      no fence at the seam: every fence of the join lies inside `rest`. */
  lemma FenceAfterFirst(s: String, p: nat, rest: String, i: nat)
    requires OccursAt(s, Fence3, p)
    requires forall k :: 0 <= k < p ==> !OccursAt(s, Fence3, k)
    requires OccursAt(s[..p] + rest, Fence3, i)
    ensures p <= i && OccursAt(rest, Fence3, i - p)
  {
    var r := s[..p] + rest;
    if i < p {
      if i + 3 <= p {
        assert r[i..i + 3] == s[i..i + 3];
        assert OccursAt(s, Fence3, i);
      } else {
        assert r[i..i + 3][p - 1 - i] == r[p - 1] == s[p - 1];
        assert s[p..p + 3][0] == s[p] && s[p..p + 3][1] == s[p + 1];
        assert s[p - 1..p + 2] == Fence3;
        assert OccursAt(s, Fence3, p - 1);
      }
    }
    OccursAtShift(s[..p], rest, Fence3, i - p);
  }

  /** A join of what precedes the first fence with a text free of fenced
      blocks is free of them too. */
  lemma NoBlockJoin(s: String, p: nat, rest: String)
    requires OccursAt(s, Fence3, p)
    requires forall k :: 0 <= k < p ==> !OccursAt(s, Fence3, k)
    requires NoFencedBlock(rest)
    ensures NoFencedBlock(s[..p] + rest)
  {
    var r := s[..p] + rest;
    forall i, j | 0 <= i && i + 3 <= j < |r| && OccursAt(r, Fence3, i) ensures !OccursAt(r, Fence3, j) {
      FenceAfterFirst(s, p, rest, i);
      if OccursAt(r, Fence3, j) {
        FenceAfterFirst(s, p, rest, j);
      }
    }
  }

  /** A text whose first fence is never followed by another holds no
      fenced block. */
  lemma NoBlockUnclosed(s: String, p: nat)
    requires forall k :: 0 <= k < p ==> !OccursAt(s, Fence3, k)
    requires forall k :: p + 3 <= k ==> !OccursAt(s, Fence3, k)
    ensures NoFencedBlock(s)
  {
  }

  /** `replace(/`[^`]*`/g, "")`: each pair of backticks with what lies
      between them; a last unpaired backtick stays. */
  function RemoveInline(s: String): (r: String)
    ensures |r| <= |s|
    ensures CountChar(r, '`') <= 1
    decreases |s|
  {
    var p := IndexOfFrom(s, '`', 0);
    if p == |s| then
      CountNone(s, '`');
      s
    else
      var q := IndexOfFrom(s, '`', p + 1);
      if q == |s| then
        assert s == s[..p] + [s[p]] + s[p + 1..];
        CountNone(s[..p], '`');
        CountNone(s[p + 1..], '`');
        CountAppend(s[..p] + [s[p]], s[p + 1..], '`');
        CountAppend(s[..p], [s[p]], '`');
        assert [s[p]][..0] == [];
        s
      else
        var rest := RemoveInline(s[q + 1..]);
        CountNone(s[..p], '`');
        CountAppend(s[..p], rest, '`');
        s[..p] + rest
  }

  predicate IsBracket(c: char) {
    c == '<' || c == '>' || c == '{' || c == '}' || c == '[' || c == ']'
  }

  predicate NoBracket(s: String) {
    forall i :: 0 <= i < |s| ==> !IsBracket(s[i])
  }

  /** `replace(/[<>{}[\]]/g, "")`. */
  function RemoveBrackets(s: String): (r: String)
    ensures |r| <= |s| && NoBracket(r)
    ensures CountChar(r, '`') == CountChar(s, '`')
  {
    if s == [] then []
    else
      var init := s[..|s| - 1];
      var last := s[|s| - 1];
      var r := RemoveBrackets(init) + (if IsBracket(last) then [] else [last]);
      CountAppend(RemoveBrackets(init), if IsBracket(last) then [] else [last], '`');
      assert [last][..0] == [];
      r
  }

  lemma {:induction false} RemoveBracketsOfClean(s: String)
    requires NoBracket(s)
    ensures RemoveBrackets(s) == s
    decreases |s|
  {
    if s != [] {
      RemoveBracketsOfClean(s[..|s| - 1]);
    }
  }

  /** Removing brackets keeps every other character. */
  lemma {:induction false} RemoveBracketsKeepsOthers(s: String, c: char)
    requires !IsBracket(c)
    ensures CountChar(RemoveBrackets(s), c) == CountChar(s, c)
    decreases |s|
  {
    if s != [] {
      var init, last := s[..|s| - 1], s[|s| - 1];
      RemoveBracketsKeepsOthers(init, c);
      CountAppend(RemoveBrackets(init), if IsBracket(last) then [] else [last], c);
      assert [last][..0] == [];
    }
  }

  /** Trimming removes characters only from the ends. */
  lemma TrimKeeps(s: String, c: char)
    ensures CountChar(Trim(s), c) <= CountChar(s, c)
    ensures NoBracket(s) ==> NoBracket(Trim(s))
  {
    var a, b := TrimIsInfix(s);
    CountInfix(s, a, b, c);
    if NoBracket(s) {
      assert forall i :: 0 <= i < b - a ==> Trim(s)[i] == s[a + i];
    }
  }

  /** The sanitiser: the output holds no bracket, at most one backtick, no
      surrounding white space, and is no longer than the input. */
  function StripInjection(value: String): (r: String)
    ensures NoBracket(r)
    ensures CountChar(r, '`') <= 1
    ensures Trimmed(r)
    ensures |r| <= |value|
  {
    var noBrackets := RemoveBrackets(RemoveInline(RemoveFences(value)));
    TrimKeeps(noBrackets, '`');
    Trim(noBrackets)
  }

  /** Sanitising twice gives the same as sanitising once. */
  lemma StripInjectionIdempotent(value: String)
    ensures StripInjection(StripInjection(value)) == StripInjection(value)
  {
    var t := StripInjection(value);
    FencesOfFewTicks(t);
    InlineOfFewTicks(t);
    RemoveBracketsOfClean(t);
    TrimOfTrimmed(t);
  }

  /** Text that already holds no bracket, at most one backtick and no
      surrounding white space passes the sanitiser unchanged. */
  lemma StripInjectionKeepsClean(value: String)
    requires NoBracket(value) && CountChar(value, '`') <= 1 && Trimmed(value)
    ensures StripInjection(value) == value
  {
    FencesOfFewTicks(value);
    InlineOfFewTicks(value);
    RemoveBracketsOfClean(value);
    TrimOfTrimmed(value);
  }

  /** Text with at most one backtick holds no fence to remove. */
  lemma FencesOfFewTicks(t: String)
    requires CountChar(t, '`') <= 1
    ensures RemoveFences(t) == t
  {
    forall k | 0 <= k < |t| ensures !OccursAt(t, Fence3, k) {
      if k + 3 <= |t| {
        assert t[k..k + 3][0] == t[k] && t[k..k + 3][1] == t[k + 1];
        if t[k] == '`' {
          CountAtMostOne(t, '`', k);
        }
      }
    }
  }

  /** Text with at most one backtick holds no inline span to remove. */
  lemma InlineOfFewTicks(t: String)
    requires CountChar(t, '`') <= 1
    ensures RemoveInline(t) == t
  {
    var p := IndexOfFrom(t, '`', 0);
    if p < |t| {
      CountAtMostOne(t, '`', p);
    }
  }

  // --- request schemas

  datatype SchemaError = TooShort | TooLong | TooManyWords | InvalidUrl

  /** `searchQuerySchema`: at most 50 UTF-16 units before stripping (no
      minimum), at most five words after. */
  function ParseSearchQuery(q: String): (r: Result<String, SchemaError>)
    ensures r.Ok? <==> Utf16Length(q) <= MaxQueryLength && |Words(StripInjection(q))| <= MaxWords
    ensures r.Ok? ==> r.value == StripInjection(q)
    ensures r.Err? && Utf16Length(q) > MaxQueryLength ==> r.error == TooLong
  {
    if Utf16Length(q) > MaxQueryLength then Err(TooLong)
    else
      var s := StripInjection(q);
      if |Words(s)| > MaxWords then Err(TooManyWords) else Ok(s)
  }

  datatype RawGenerateBody = RawGenerateBody(skillName: String, successUrl: Option<String>, cancelUrl: Option<String>)
  datatype GenerateBody = GenerateBody(skillName: String, successUrl: Option<String>, cancelUrl: Option<String>)

  predicate UrlOk(u: Option<String>, isUrl: String -> bool) {
    u.None? || isUrl(u.value)
  }

  /** `generateBodySchema`: the name is 1 to 50 UTF-16 units before
      stripping and at most five words after; the two URLs are optional
      and, when given, must be URLs (the URL check is a parameter). */
  function ParseGenerateBody(raw: RawGenerateBody, isUrl: String -> bool): (r: Result<GenerateBody, SchemaError>)
    ensures r.Ok? <==> 1 <= Utf16Length(raw.skillName) <= MaxQueryLength
                       && |Words(StripInjection(raw.skillName))| <= MaxWords
                       && UrlOk(raw.successUrl, isUrl) && UrlOk(raw.cancelUrl, isUrl)
    ensures r.Ok? ==> r.value.skillName == StripInjection(raw.skillName)
                      && r.value.successUrl == raw.successUrl && r.value.cancelUrl == raw.cancelUrl
  {
    var n := Utf16Length(raw.skillName);
    if n < 1 then Err(TooShort)
    else if n > MaxQueryLength then Err(TooLong)
    else
      var s := StripInjection(raw.skillName);
      if |Words(s)| > MaxWords then Err(TooManyWords)
      else if !UrlOk(raw.successUrl, isUrl) || !UrlOk(raw.cancelUrl, isUrl) then Err(InvalidUrl)
      else Ok(GenerateBody(s, raw.successUrl, raw.cancelUrl))
  }

  /** The length bounds apply before stripping: a name made only of
      brackets passes and becomes empty. */
  lemma BracketsOnlyNameAccepted(isUrl: String -> bool)
    ensures ParseGenerateBody(RawGenerateBody("{}", None, None), isUrl) == Ok(GenerateBody("", None, None))
  {
    var s := "{}";
    assert IndexOfSub(s, Fence3, 0).None?;
    assert RemoveFences(s) == s;
    assert IndexOfFrom(s, '`', 0) == |s|;
    assert RemoveInline(s) == s;
    assert RemoveBrackets(s[..1]) == [];
    assert RemoveBrackets(s) == [];
    assert Trim([]) == [];
    assert Words([]) == [];
  }

  /** The query has no minimum length: an empty query is accepted. */
  lemma EmptyQueryAccepted()
    ensures ParseSearchQuery("") == Ok("")
  {
    assert RemoveFences("") == "";
    assert RemoveInline("") == "";
    assert Words([]) == [];
  }
}
