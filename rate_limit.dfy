/** In-memory fixed-window rate limiting. A map from `prefix:identifier`
    keys to a request count and the time its window ends; a request is
    allowed while the count is below the maximum, and a request after the
    window ends starts a new window. A periodic pass deletes expired
    entries. The clock is a parameter. */
module RateLimit {
  import opened Text
  import opened Results

  const SearchMax := 10
  const SearchWindowMs := 10 * 60 * 1000
  const GenerateMax := 3
  const GenerateWindowMs := 5 * 60 * 1000
  const SearchPrefix: String := "search"
  const GeneratePrefix: String := "generate"
  const Anonymous: String := "anonymous"

  datatype Record = Record(count: int, resetAt: int)

  datatype Verdict = Verdict(allowed: bool, remaining: int)

  /** The counter key: the prefix, a colon, then the identifier. */
  function Key(identifier: String, prefix: String): (r: String)
    ensures |r| == |prefix| + 1 + |identifier|
    ensures r[|prefix|] == ':'
  {
    prefix + ":" + identifier
  }

  /** For prefixes without a colon, the key determines both the prefix and
      the identifier. */
  lemma KeyInjective(a: String, p: String, b: String, q: String)
    requires HasNoChar(p, ':') && HasNoChar(q, ':')
    requires Key(a, p) == Key(b, q)
    ensures p == q && a == b
  {
    IndexOfFromStops(p, ':', a);
    IndexOfFromStops(q, ':', b);
    assert Key(a, p) == p + [':'] + a;
    assert Key(b, q) == q + [':'] + b;
    assert |p| == |q|;
    assert p == Key(a, p)[..|p|];
    assert q == Key(b, q)[..|q|];
    assert a == Key(a, p)[|p| + 1..];
    assert b == Key(b, q)[|q| + 1..];
  }

  /** The search and generate counters never share a key. */
  lemma SearchAndGenerateKeysDiffer(a: String, b: String)
    ensures Key(a, SearchPrefix) != Key(b, GeneratePrefix)
  {
    assert Key(a, SearchPrefix)[0] == 's';
    assert Key(b, GeneratePrefix)[0] == 'g';
  }

  /** One request against the counter map at time `now`: the verdict and
      the new map. */
  function CheckSpec(m: map<String, Record>, key: String, maxRequests: int, windowMs: int, now: int)
    : (r: (Verdict, map<String, Record>))
    ensures r.1.Keys == m.Keys + {key}
    ensures forall k :: k in m && k != key ==> r.1[k] == m[k]
    ensures r.0.allowed <==> key !in m || now > m[key].resetAt || m[key].count < maxRequests
    ensures !r.0.allowed ==> r.0.remaining == 0 && r.1 == m
  {
    if key !in m || now > m[key].resetAt then
      (Verdict(true, maxRequests - 1), m[key := Record(1, now + windowMs)])
    else if m[key].count >= maxRequests then
      (Verdict(false, 0), m)
    else
      var rec := Record(m[key].count + 1, m[key].resetAt);
      (Verdict(true, maxRequests - rec.count), m[key := rec])
  }

  /** No record, or an expired one: a fresh window of one request. */
  lemma CheckStartsWindow(m: map<String, Record>, key: String, maxRequests: int, windowMs: int, now: int)
    requires key !in m || now > m[key].resetAt
    ensures var (v, m') := CheckSpec(m, key, maxRequests, windowMs, now);
      v == Verdict(true, maxRequests - 1) && m'[key] == Record(1, now + windowMs)
  {
  }

  /** Inside a live window (its last instant `resetAt` included) and under
      the limit: the count goes up by one, the window keeps its reset time,
      and the remainder is the limit minus the new count. */
  lemma CountInsideWindow(m: map<String, Record>, key: String, maxRequests: int, windowMs: int, now: int)
    requires key in m && now <= m[key].resetAt && m[key].count < maxRequests
    ensures var (v, m') := CheckSpec(m, key, maxRequests, windowMs, now);
      v == Verdict(true, maxRequests - (m[key].count + 1))
      && m'[key] == Record(m[key].count + 1, m[key].resetAt)
  {
  }

  /** For a limit of at least one, the reported remainder is never negative. */
  lemma RemainingNonNegative(m: map<String, Record>, key: String, maxRequests: int, windowMs: int, now: int)
    requires maxRequests >= 1
    ensures CheckSpec(m, key, maxRequests, windowMs, now).0.remaining >= 0
  {
  }

  /** Every count lies between one and the limit. */
  predicate Bounded(m: map<String, Record>, maxRequests: int) {
    forall k :: k in m ==> 1 <= m[k].count <= maxRequests
  }

  /** A check keeps every count between one and the limit. */
  lemma CheckKeepsBound(m: map<String, Record>, key: String, maxRequests: int, windowMs: int, now: int)
    requires maxRequests >= 1 && Bounded(m, maxRequests)
    ensures Bounded(CheckSpec(m, key, maxRequests, windowMs, now).1, maxRequests)
  {
  }

  /** A run of requests for one key: how many are allowed, and the final map. */
  function Run(m: map<String, Record>, key: String, maxRequests: int, windowMs: int, times: seq<int>)
    : (r: (nat, map<String, Record>))
    ensures r.0 <= |times|
    decreases |times|
  {
    if times == [] then (0, m)
    else
      var (v, m') := CheckSpec(m, key, maxRequests, windowMs, times[0]);
      var (n, m'') := Run(m', key, maxRequests, windowMs, times[1..]);
      ((if v.allowed then 1 else 0) + n, m'')
  }

  /** Inside one window, at most as many further requests are allowed as
      the limit leaves, and the window's end does not move. */
  lemma {:induction false} RunWithinWindow(m: map<String, Record>, key: String, maxRequests: int, windowMs: int, times: seq<int>)
    requires key in m && m[key].count <= maxRequests
    requires forall i :: 0 <= i < |times| ==> times[i] <= m[key].resetAt
    ensures var (n, m') := Run(m, key, maxRequests, windowMs, times);
      n <= maxRequests - m[key].count
      && key in m' && m'[key].resetAt == m[key].resetAt
      && m'[key].count == m[key].count + n
    decreases |times|
  {
    if times != [] {
      var (v, m') := CheckSpec(m, key, maxRequests, windowMs, times[0]);
      assert m'[key].resetAt == m[key].resetAt;
      assert m'[key].count == m[key].count + (if v.allowed then 1 else 0);
      RunWithinWindow(m', key, maxRequests, windowMs, times[1..]);
    }
  }

  /** A fresh window allows at most `maxRequests` requests in total. */
  lemma FreshWindowCap(m: map<String, Record>, key: String, maxRequests: int, windowMs: int, now: int, times: seq<int>)
    requires maxRequests >= 1
    requires key !in m || now > m[key].resetAt
    requires forall i :: 0 <= i < |times| ==> times[i] <= now + windowMs
    ensures Run(m, key, maxRequests, windowMs, [now] + times).0 <= maxRequests
  {
    var (v, m') := CheckSpec(m, key, maxRequests, windowMs, now);
    assert ([now] + times)[1..] == times;
    RunWithinWindow(m', key, maxRequests, windowMs, times);
  }

  /** The entries the cleanup pass keeps: those whose window has not ended. */
  function Live(m: map<String, Record>, now: int): (r: map<String, Record>)
    ensures forall k :: k in r <==> k in m && now <= m[k].resetAt
    ensures forall k :: k in r ==> r[k] == m[k]
  {
    map k | k in m && now <= m[k].resetAt :: m[k]
  }

  /** Cleaning up before a request changes nothing the request observes:
      the verdict is the same, and the map is the cleaned-up result of the
      request on the full map. */
  lemma CleanupCommutesWithCheck(m: map<String, Record>, key: String, maxRequests: int, windowMs: int, now: int)
    requires windowMs >= 0
    ensures var (v1, m1) := CheckSpec(Live(m, now), key, maxRequests, windowMs, now);
      var (v2, m2) := CheckSpec(m, key, maxRequests, windowMs, now);
      v1 == v2 && m1 == Live(m2, now)
  {
    var (v1, m1) := CheckSpec(Live(m, now), key, maxRequests, windowMs, now);
    var (v2, m2) := CheckSpec(m, key, maxRequests, windowMs, now);
    assert m1.Keys == Live(m2, now).Keys;
  }

  /** The outcome of a middleware: the limit and remainder headers, and
      either passing the request on or a 429 with a message. */
  datatype Outcome = PassOn(limit: String, remaining: int) | TooMany(limit: String, remaining: int, message: String)

  /** The first comma-separated entry of `x-forwarded-for`, trimmed. */
  function FirstForwarded(header: String): (r: String)
    ensures HasNoChar(r, ',') && Trimmed(r)
  {
    var first := Split(header, ',')[0];
    TrimKeepsNoChar(first, ',');
    Trim(first)
  }

  lemma TrimKeepsNoChar(s: String, c: char)
    requires HasNoChar(s, c)
    ensures HasNoChar(Trim(s), c)
  {
    var a, b := TrimIsInfix(s);
    assert forall i :: 0 <= i < b - a ==> Trim(s)[i] == s[a + i];
  }

  /** A forwarded list whose entries carry no comma and whose first entry is
      trimmed yields that first entry. */
  lemma FirstForwardedOfList(parts: seq<String>)
    requires |parts| >= 1 && Trimmed(parts[0])
    requires forall k :: 0 <= k < |parts| ==> HasNoChar(parts[k], ',')
    ensures FirstForwarded(Join(parts, [','])) == parts[0]
  {
    SplitJoin(parts, ',');
    TrimOfTrimmed(parts[0]);
  }

  /** The search middleware's client: the first forwarded address when that
      header is present (even if empty), else `x-real-ip`, else "anonymous". */
  function SearchIdentifier(forwardedFor: Option<String>, realIp: Option<String>): (r: String)
    ensures forwardedFor.Some? ==> HasNoChar(r, ',')
    ensures forwardedFor.None? && realIp.None? ==> r == Anonymous
  {
    if forwardedFor.Some? then FirstForwarded(forwardedFor.value)
    else realIp.GetOr(Anonymous)
  }

  /** `??` falls back only on a missing header: an empty `x-forwarded-for`
      gives the empty identifier, and `x-real-ip` is not consulted. */
  lemma EmptyForwardedIgnoresRealIp(realIp: Option<String>)
    ensures SearchIdentifier(Some([]), realIp) == []
  {
    assert Split([], ',') == [[]];
    assert Trim([]) == [];
  }

  /** The generate middleware's client: `x-user-id`, else `x-session-id`,
      else the first forwarded address, else "anonymous". */
  function GenerateIdentifier(userId: Option<String>, sessionId: Option<String>, forwardedFor: Option<String>): (r: String)
    ensures userId.Some? ==> r == userId.value
    ensures userId.None? && sessionId.Some? ==> r == sessionId.value
    ensures userId.None? && sessionId.None? ==> r == SearchIdentifier(forwardedFor, None)
  {
    if userId.Some? then userId.value
    else if sessionId.Some? then sessionId.value
    else if forwardedFor.Some? then FirstForwarded(forwardedFor.value)
    else Anonymous
  }

  /** The module-level counter map and the operations that update it. */
  class RateLimiter {
    var requestCounts: map<String, Record>

    constructor()
      ensures requestCounts == map[]
    {
      requestCounts := map[];
    }

    /** `checkRateLimit`: reset an absent or expired record, deny at the
        limit, otherwise count the request. */
    method CheckRateLimit(key: String, maxRequests: int, windowMs: int, now: int) returns (v: Verdict)
      modifies this
      ensures (v, requestCounts) == CheckSpec(old(requestCounts), key, maxRequests, windowMs, now)
    {
      if key !in requestCounts || now > requestCounts[key].resetAt {
        requestCounts := requestCounts[key := Record(1, now + windowMs)];
        return Verdict(true, maxRequests - 1);
      }
      var rec := requestCounts[key];
      if rec.count >= maxRequests {
        return Verdict(false, 0);
      }
      rec := rec.(count := rec.count + 1);
      requestCounts := requestCounts[key := rec];
      v := Verdict(true, maxRequests - rec.count);
    }

    /** The periodic pass: delete every entry whose window has ended. */
    method Cleanup(now: int)
      modifies this
      ensures requestCounts == Live(old(requestCounts), now)
    {
      ghost var m := requestCounts;
      var pending := requestCounts.Keys;
      while pending != {}
        invariant pending <= m.Keys
        invariant requestCounts == map k | k in m && (k in pending || now <= m[k].resetAt) :: m[k]
        decreases |pending|
      {
        var key :| key in pending;
        if now > requestCounts[key].resetAt {
          requestCounts := requestCounts - {key};
        }
        pending := pending - {key};
      }
    }

    /** `rateLimitSearch`: 10 requests per 10 minutes per client address. */
    method RateLimitSearch(forwardedFor: Option<String>, realIp: Option<String>, now: int) returns (o: Outcome)
      modifies this
      ensures var (v, m) := CheckSpec(old(requestCounts), Key(SearchIdentifier(forwardedFor, realIp), SearchPrefix),
                                      SearchMax, SearchWindowMs, now);
        && requestCounts == m
        && o.remaining == v.remaining && o.remaining >= 0
        && o.limit == "10"
        && (o.PassOn? <==> v.allowed)
    {
      var key := Key(SearchIdentifier(forwardedFor, realIp), SearchPrefix);
      RemainingNonNegative(requestCounts, key, SearchMax, SearchWindowMs, now);
      var v := CheckRateLimit(key, SearchMax, SearchWindowMs, now);
      if !v.allowed {
        return TooMany("10", v.remaining, "Too many requests. Try again in 10 minutes.");
      }
      o := PassOn("10", v.remaining);
    }

    /** `rateLimitGenerate`: 3 requests per 5 minutes per user, session or
        client address. */
    method RateLimitGenerate(userId: Option<String>, sessionId: Option<String>, forwardedFor: Option<String>, now: int)
      returns (o: Outcome)
      modifies this
      ensures var (v, m) := CheckSpec(old(requestCounts), Key(GenerateIdentifier(userId, sessionId, forwardedFor), GeneratePrefix),
                                      GenerateMax, GenerateWindowMs, now);
        && requestCounts == m
        && o.remaining == v.remaining && o.remaining >= 0
        && o.limit == "3"
        && (o.PassOn? <==> v.allowed)
    {
      var key := Key(GenerateIdentifier(userId, sessionId, forwardedFor), GeneratePrefix);
      RemainingNonNegative(requestCounts, key, GenerateMax, GenerateWindowMs, now);
      var v := CheckRateLimit(key, GenerateMax, GenerateWindowMs, now);
      if !v.allowed {
        return TooMany("3", v.remaining, "Too many generation requests. Try again in 5 minutes.");
      }
      o := PassOn("3", v.remaining);
    }
  }
}
