/** The search bar's word limit: the displayed word count, the over-limit
    flag, the change handler that cuts an over-long value down to its first
    words, and the Enter handler that only searches for a non-blank value
    within the limit. */
module SearchBar {
  import opened Text
  import opened Results

  const DefaultMaxWords: nat := 5

  /** `value.trim() ? value.trim().split(/\s+/).length : 0`. */
  function WordCount(value: String): (n: nat)
    ensures n == |Words(value)|
  {
    var t := Trim(value);
    if t != [] then
      WordCountOfTrimmed(value);
      |SplitWs(t)|
    else
      assert Words(value) == [] by { assert SplitWs(t) == [t]; }
      0
  }

  predicate IsOverLimit(value: String, maxWords: nat) {
    WordCount(value) > maxWords
  }

  /** The change handler: a value within the limit passes unchanged;
      otherwise its first `maxWords` words joined by single spaces. */
  function HandleChange(next: String, maxWords: nat): (r: String)
    ensures |Words(next)| <= maxWords ==> r == next
    ensures |Words(next)| > maxWords ==> Words(r) == Words(next)[..maxWords]
    ensures |Words(next)| > maxWords ==> r == Join(Words(r), " ")
  {
    var words := Words(next);
    if |words| <= maxWords then next
    else
      WordsOfJoin(words[..maxWords]);
      Join(words[..maxWords], " ")
  }

  /** Whatever is typed, the emitted value is within the limit, and its
      words are the first words of what was typed. */
  lemma ChangeWithinLimit(next: String, maxWords: nat)
    ensures !IsOverLimit(HandleChange(next, maxWords), maxWords)
    ensures var w := Words(HandleChange(next, maxWords));
      w <= Words(next)
  {
  }

  /** Trimming first does not change the words. */
  lemma WordsOfTrim(value: String)
    ensures Words(Trim(value)) == Words(value)
  {
    TrimOfTrimmed(Trim(value));
  }

  /** The Enter handler: the trimmed value is searched for when it is
      non-blank and within the limit; any other key searches nothing. */
  function HandleKeyDown(key: String, value: String, maxWords: nat): (r: Option<String>)
    ensures r.Some? <==> key == "Enter" && 1 <= |Words(value)| <= maxWords
    ensures r.Some? ==> r.value == Trim(value) && Trimmed(r.value) && 1 <= |Words(r.value)| <= maxWords
  {
    WordsOfTrim(value);
    BlankIffNoWords(value);
    if key == "Enter" && !IsOverLimit(value, maxWords) && Trim(value) != [] then Some(Trim(value))
    else None
  }

  /** A value is blank exactly when it has no words. */
  lemma BlankIffNoWords(value: String)
    ensures Trim(value) == [] <==> Words(value) == []
  {
    if Trim(value) == [] {
      assert SplitWs(Trim(value)) == [[]];
    } else {
      WordCountOfTrimmed(value);
    }
  }
}
