/** Post-training evaluation: a quality score that starts at one and loses
    a fixed amount for each failed check, clamped at zero, with one issue
    and one suggestion per failed check. Scores are real numbers. */
module PostTraining {
  import opened Text
  import opened Results
  import opened Schema

  datatype EvaluationResult = EvaluationResult(skillName: String, quality: real, issues: seq<String>, suggestions: seq<String>)

  /** The checks of both evaluations; a count is carried where the issue
      text reports one. */
  datatype Check =
    | ShortDescription | FewTriggers | FewStrategies | ShortStrategies(short: nat)
    | NoTrends | FewTrends | NoLocations | FewLocations | InvalidCoordinates(invalid: nat)

  function Issue(c: Check): String {
    match c
    case ShortDescription => "Description too short"
    case FewTriggers => "Not enough trigger phrases"
    case FewStrategies => "Not enough strategies"
    case ShortStrategies(n) => NatToString(n) + " strategy(ies) too short"
    case NoTrends => "No trends returned"
    case FewTrends => "Too few trends"
    case NoLocations => "No locations returned"
    case FewLocations => "Too few locations"
    case InvalidCoordinates(n) => NatToString(n) + " location(s) have invalid coordinates"
  }

  function Suggestion(c: Check): String {
    match c
    case ShortDescription => "Add more detailed description (50+ chars)"
    case FewTriggers => "Add at least 3 trigger phrases"
    case FewStrategies => "Add at least 2 strategy documents"
    case ShortStrategies(_) => "Each strategy should have 100+ chars of content"
    case NoTrends => "Must return at least 3-5 trends"
    case FewTrends => "Return 3-5 trends minimum"
    case NoLocations => "Must return at least 5-10 locations with coordinates"
    case FewLocations => "Return 5-10 locations minimum"
    case InvalidCoordinates(_) => "Ensure lat is -90 to 90, lng is -180 to 180"
  }

  /** The deduction of a failed check; short strategies cost 0.1 each, an
      invalid coordinate 0.1 however many there are. */
  function Penalty(c: Check): real {
    match c
    case ShortDescription => 0.2
    case FewTriggers => 0.15
    case FewStrategies => 0.2
    case ShortStrategies(n) => 0.1 * n as real
    case NoTrends => 0.4
    case FewTrends => 0.2
    case NoLocations => 0.4
    case FewLocations => 0.2
    case InvalidCoordinates(_) => 0.1
  }

  /** A check as it is raised: a strategy count only when some are short. */
  predicate Raised(c: Check) {
    c.ShortStrategies? ==> c.short > 0
  }

  predicate AllRaised(cs: seq<Check>) {
    forall i :: 0 <= i < |cs| ==> Raised(cs[i])
  }

  function Issues(cs: seq<Check>): (r: seq<String>)
    ensures |r| == |cs|
  {
    if cs == [] then [] else Issues(cs[..|cs| - 1]) + [Issue(cs[|cs| - 1])]
  }

  function Suggestions(cs: seq<Check>): (r: seq<String>)
    ensures |r| == |cs|
  {
    if cs == [] then [] else Suggestions(cs[..|cs| - 1]) + [Suggestion(cs[|cs| - 1])]
  }

  function TotalPenalty(cs: seq<Check>): real {
    if cs == [] then 0.0 else TotalPenalty(cs[..|cs| - 1]) + Penalty(cs[|cs| - 1])
  }

  /** Every raised check costs something, so the total is zero exactly when
      nothing failed. */
  lemma {:induction false} TotalPenaltyZero(cs: seq<Check>)
    requires AllRaised(cs)
    ensures TotalPenalty(cs) >= 0.0
    ensures TotalPenalty(cs) == 0.0 <==> cs == []
    decreases |cs|
  {
    if cs != [] {
      var c := cs[|cs| - 1];
      assert Raised(c);
      TotalPenaltyZero(cs[..|cs| - 1]);
    }
  }

  function Clamp(q: real): (r: real)
    ensures r >= 0.0 && r >= q && (q >= 0.0 ==> r == q)
  {
    if q < 0.0 then 0.0 else q
  }

  /** The result of a list of failed checks: one issue and one suggestion
      each, and the clamped score. */
  function Evaluation(name: String, cs: seq<Check>): EvaluationResult {
    EvaluationResult(name, Clamp(1.0 - TotalPenalty(cs)), Issues(cs), Suggestions(cs))
  }

  /** The score lies in [0, 1], the issues and suggestions pair up, and the
      score is perfect exactly when there is no issue. */
  lemma EvaluationBounds(name: String, cs: seq<Check>)
    requires AllRaised(cs)
    ensures var r := Evaluation(name, cs);
      && 0.0 <= r.quality <= 1.0
      && |r.issues| == |r.suggestions| == |cs|
      && (r.quality == 1.0 <==> r.issues == [])
  {
    TotalPenaltyZero(cs);
  }

  /** Once every check has run, the tracked state is the evaluation. */
  lemma Conclude(name: String, issues: seq<String>, suggestions: seq<String>, quality: real, failed: seq<Check>)
    requires Tracks(issues, suggestions, quality, failed) && AllRaised(failed)
    ensures var r := EvaluationResult(name, Clamp(quality), issues, suggestions);
      r == Evaluation(name, failed) && 0.0 <= r.quality <= 1.0 && |r.issues| == |r.suggestions|
  {
    EvaluationBounds(name, failed);
  }

  /** Recording one more failed check. */
  lemma Record(cs: seq<Check>, c: Check)
    ensures Issues(cs + [c]) == Issues(cs) + [Issue(c)]
    ensures Suggestions(cs + [c]) == Suggestions(cs) + [Suggestion(c)]
    ensures TotalPenalty(cs + [c]) == TotalPenalty(cs) + Penalty(c)
  {
    assert (cs + [c])[..|cs|] == cs;
  }

  // --- skill generation

  lemma SkillFailuresInOrder(o: SkillBuildInput)
    ensures [] + DescriptionFailure(o) + TriggerFailure(o) + StrategyCountFailure(o) + StrategyContentFailure(o)
         == SkillFailures(o)
  {
    assert [] + DescriptionFailure(o) == DescriptionFailure(o);
  }

  /** Strategies whose content is shorter than 100 characters. */
  function ShortCount(strategies: seq<Strategy>): (n: nat)
    ensures n <= |strategies|
  {
    if strategies == [] then 0
    else ShortCount(strategies[..|strategies| - 1]) + (if Utf16Length(strategies[|strategies| - 1].content) < 100 then 1 else 0)
  }

  /** The checks a generated skill fails, in order: a description under 50
      characters, fewer than 3 triggers, fewer than 2 strategies, and any
      strategy under 100 characters. */
  function SkillFailures(o: SkillBuildInput): (cs: seq<Check>)
    ensures AllRaised(cs) && |cs| <= 4
  {
    DescriptionFailure(o) + TriggerFailure(o) + StrategyCountFailure(o) + StrategyContentFailure(o)
  }

  function DescriptionFailure(o: SkillBuildInput): seq<Check> {
    if Utf16Length(o.description) < 50 then [ShortDescription] else []
  }

  function TriggerFailure(o: SkillBuildInput): seq<Check> {
    if |o.triggers| < 3 then [FewTriggers] else []
  }

  function StrategyCountFailure(o: SkillBuildInput): seq<Check> {
    if |o.strategies| < 2 then [FewStrategies] else []
  }

  function StrategyContentFailure(o: SkillBuildInput): seq<Check> {
    if ShortCount(o.strategies) > 0 then [ShortStrategies(ShortCount(o.strategies))] else []
  }

  /** The running state of an evaluation: the lists and the score match the
      checks failed so far. */
  predicate Tracks(issues: seq<String>, suggestions: seq<String>, quality: real, failed: seq<Check>) {
    issues == Issues(failed) && suggestions == Suggestions(failed) && quality == 1.0 - TotalPenalty(failed)
  }

  /** However many strategies are short, they raise one issue and cost 0.1 each. */
  lemma ShortStrategiesOneIssue(o: SkillBuildInput)
    requires Utf16Length(o.description) >= 50 && |o.triggers| >= 3 && |o.strategies| >= 2
    requires ShortCount(o.strategies) > 0
    ensures SkillFailures(o) == [ShortStrategies(ShortCount(o.strategies))]
    ensures TotalPenalty(SkillFailures(o)) == 0.1 * ShortCount(o.strategies) as real
  {
    assert SkillFailures(o)[..0] == [];
  }

  /** One check: when it fails, push its issue and its suggestion and
      deduct its penalty. */
  method ApplyCheck(issues: seq<String>, suggestions: seq<String>, quality: real, ghost failed: seq<Check>,
                    fails: bool, c: Check)
    returns (issues': seq<String>, suggestions': seq<String>, quality': real)
    requires Tracks(issues, suggestions, quality, failed)
    ensures Tracks(issues', suggestions', quality', failed + (if fails then [c] else []))
  {
    if fails {
      Record(failed, c);
      issues' := issues + [Issue(c)];
      quality' := quality - Penalty(c);
      suggestions' := suggestions + [Suggestion(c)];
    } else {
      assert failed + [] == failed;
      issues', suggestions', quality' := issues, suggestions, quality;
    }
  }

  /** `evaluateSkillGeneration`. */
  method EvaluateSkillGeneration(skillName: String, output: SkillBuildInput) returns (r: EvaluationResult)
    ensures r == Evaluation(skillName, SkillFailures(output))
    ensures 0.0 <= r.quality <= 1.0 && |r.issues| == |r.suggestions|
  {
    var issues: seq<String> := [];
    var suggestions: seq<String> := [];
    var quality := 1.0;
    ghost var failed: seq<Check> := [];

    issues, suggestions, quality := ApplyCheck(issues, suggestions, quality, failed,
      Utf16Length(output.description) < 50, ShortDescription);
    failed := failed + DescriptionFailure(output);
    issues, suggestions, quality := ApplyCheck(issues, suggestions, quality, failed,
      |output.triggers| < 3, FewTriggers);
    failed := failed + TriggerFailure(output);
    issues, suggestions, quality := ApplyCheck(issues, suggestions, quality, failed,
      |output.strategies| < 2, FewStrategies);
    failed := failed + StrategyCountFailure(output);
    var short := CountShort(output.strategies);
    issues, suggestions, quality := ApplyCheck(issues, suggestions, quality, failed,
      short > 0, ShortStrategies(short));
    failed := failed + StrategyContentFailure(output);

    SkillFailuresInOrder(output);
    Conclude(skillName, issues, suggestions, quality, failed);
    r := EvaluationResult(skillName, Clamp(quality), issues, suggestions);
  }

  /** The `filter` over strategies, counted. */
  method CountShort(strategies: seq<Strategy>) returns (short: nat)
    ensures short == ShortCount(strategies)
  {
    short := 0;
    var i := 0;
    while i < |strategies|
      invariant 0 <= i <= |strategies|
      invariant short == ShortCount(strategies[..i])
    {
      assert strategies[..i + 1][..i] == strategies[..i];
      if Utf16Length(strategies[i].content) < 100 {
        short := short + 1;
      }
      i := i + 1;
    }
    assert strategies[..i] == strategies;
  }

  // --- search results

  datatype Trend = Trend(name: String, description: Option<String>)
  datatype Location = Location(name: String, lat: real, lng: real)

  predicate InvalidCoords(l: Location) {
    l.lat < -90.0 || l.lat > 90.0 || l.lng < -180.0 || l.lng > 180.0
  }

  /** Locations with a latitude or longitude out of range. */
  function InvalidCount(ls: seq<Location>): (n: nat)
    ensures n <= |ls|
    ensures n == 0 <==> forall i :: 0 <= i < |ls| ==> !InvalidCoords(ls[i])
  {
    if ls == [] then 0
    else
      var n := InvalidCount(ls[..|ls| - 1]) + (if InvalidCoords(ls[|ls| - 1]) then 1 else 0);
      assert forall i :: 0 <= i < |ls| - 1 ==> ls[..|ls| - 1][i] == ls[i];
      n
  }

  /** The checks a search result fails: no trends or one or two, no
      locations or one to four, and any out-of-range coordinate. */
  function SearchFailures(trends: nat, ls: seq<Location>): (cs: seq<Check>)
    ensures AllRaised(cs) && |cs| <= 3
  {
    TrendFailure(trends) + LocationFailure(ls) + CoordinateFailure(ls)
  }

  function TrendFailure(trends: nat): seq<Check> {
    if trends == 0 then [NoTrends] else if trends < 3 then [FewTrends] else []
  }

  function LocationFailure(ls: seq<Location>): seq<Check> {
    if |ls| == 0 then [NoLocations] else if |ls| < 5 then [FewLocations] else []
  }

  function CoordinateFailure(ls: seq<Location>): seq<Check> {
    if InvalidCount(ls) > 0 then [InvalidCoordinates(InvalidCount(ls))] else []
  }

  lemma SearchFailuresInOrder(trends: nat, ls: seq<Location>)
    ensures [] + TrendFailure(trends) + LocationFailure(ls) + CoordinateFailure(ls) == SearchFailures(trends, ls)
  {
    assert [] + TrendFailure(trends) == TrendFailure(trends);
  }

  /** Bad coordinates cost 0.1 once: the score does not depend on how many
      locations are out of range. */
  lemma InvalidCoordsCostOnce(trends: nat, ls: seq<Location>, ls': seq<Location>)
    requires |ls| == |ls'| && InvalidCount(ls) > 0 && InvalidCount(ls') > 0
    ensures TotalPenalty(SearchFailures(trends, ls)) == TotalPenalty(SearchFailures(trends, ls'))
  {
    var a := SearchFailures(trends, ls);
    var b := SearchFailures(trends, ls');
    assert |a| == |b| && a[..|a| - 1] == b[..|b| - 1];
  }

  /** `evaluateSearchResults`; the query becomes the result's name. */
  method EvaluateSearchResults(query: String, trends: seq<Trend>, locations: seq<Location>) returns (r: EvaluationResult)
    ensures r == Evaluation(query, SearchFailures(|trends|, locations))
    ensures 0.0 <= r.quality <= 1.0 && |r.issues| == |r.suggestions|
  {
    var issues: seq<String> := [];
    var suggestions: seq<String> := [];
    var quality := 1.0;
    ghost var failed: seq<Check> := [];

    if |trends| == 0 {
      issues, suggestions, quality := ApplyCheck(issues, suggestions, quality, failed, true, NoTrends);
    } else {
      issues, suggestions, quality := ApplyCheck(issues, suggestions, quality, failed, |trends| < 3, FewTrends);
    }
    failed := failed + TrendFailure(|trends|);

    if |locations| == 0 {
      issues, suggestions, quality := ApplyCheck(issues, suggestions, quality, failed, true, NoLocations);
    } else {
      issues, suggestions, quality := ApplyCheck(issues, suggestions, quality, failed, |locations| < 5, FewLocations);
    }
    failed := failed + LocationFailure(locations);

    var invalid := CountInvalid(locations);
    issues, suggestions, quality := ApplyCheck(issues, suggestions, quality, failed,
      invalid > 0, InvalidCoordinates(invalid));
    failed := failed + CoordinateFailure(locations);

    SearchFailuresInOrder(|trends|, locations);
    Conclude(query, issues, suggestions, quality, failed);
    r := EvaluationResult(query, Clamp(quality), issues, suggestions);
  }

  /** The `filter` over locations, counted. */
  method CountInvalid(locations: seq<Location>) returns (invalid: nat)
    ensures invalid == InvalidCount(locations)
  {
    invalid := 0;
    var i := 0;
    while i < |locations|
      invariant 0 <= i <= |locations|
      invariant invalid == InvalidCount(locations[..i])
    {
      assert locations[..i + 1][..i] == locations[..i];
      if InvalidCoords(locations[i]) {
        invalid := invalid + 1;
      }
      i := i + 1;
    }
    assert locations[..i] == locations;
  }
}
