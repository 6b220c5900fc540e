/** The object keys under which generated skill packs are stored, as built
    by the Supabase storage service and by the R2 service. */
module StorageKeys {
  import opened Text

  const KeyPrefix: String := "skills/"
  const KeySuffix: String := ".skills"

  /** Supabase `skillKey`: the session verbatim, then the sanitised name. */
  function SupabaseSkillKey(sessionId: String, skillName: String): (r: String)
    ensures |r| == |KeyPrefix| + |sessionId| + 1 + Utf16Length(skillName) + |KeySuffix|
    ensures StartsWith(r, KeyPrefix + sessionId + "/")
  {
    KeyPrefix + sessionId + "/" + SafeName(skillName) + KeySuffix
  }

  /** R2 `skillKey`, written separately with the same sanitiser. */
  function R2SkillKey(sessionId: String, skillName: String): (r: String)
    ensures |r| == |KeyPrefix| + |sessionId| + 1 + Utf16Length(skillName) + |KeySuffix|
  {
    KeyPrefix + sessionId + "/" + SafeName(skillName) + KeySuffix
  }

  /** The two services agree on every key. */
  lemma KeysAgree(sessionId: String, skillName: String)
    ensures SupabaseSkillKey(sessionId, skillName) == R2SkillKey(sessionId, skillName)
  {
  }

  /** Sanitising a name that is already sanitised gives the same key. */
  lemma KeyOfSafeName(sessionId: String, skillName: String)
    ensures SupabaseSkillKey(sessionId, SafeName(skillName)) == SupabaseSkillKey(sessionId, skillName)
  {
    SafeNameIdempotent(skillName);
  }

  /** Letters keep their case: an upper-case letter of the name appears
      unchanged in the key, unlike the builder's lower-cased file names. */
  lemma KeyKeepsSafeChars(sessionId: String, skillName: String, i: nat)
    requires i < |skillName| && IsSafeChar(skillName[i])
    ensures SupabaseSkillKey(sessionId, skillName)
         == KeyPrefix + sessionId + "/" + SafeName(skillName[..i]) + [skillName[i]] + SafeName(skillName[i + 1..]) + KeySuffix
  {
    var x, y := skillName[..i], skillName[i + 1..];
    SafeNameKeepsSafe(x, skillName[i], y);
    assert x + [skillName[i]] + y == skillName;
  }

  /** Sanitised upper case differs from the builder's lower-cased name. */
  lemma CaseKept()
    ensures SafeName("A") == "A" && LowerSafe(SafeName("A")) == "a"
  {
    assert SafeName("A") == ['A'] + SafeName([]);
  }

  /** For sessions without a slash, the key determines the session and the
      sanitised name. */
  lemma KeyDeterminesParts(s1: String, n1: String, s2: String, n2: String)
    requires HasNoChar(s1, '/') && HasNoChar(s2, '/')
    requires SupabaseSkillKey(s1, n1) == SupabaseSkillKey(s2, n2)
    ensures s1 == s2 && SafeName(n1) == SafeName(n2)
  {
    var a1, a2 := SafeName(n1), SafeName(n2);
    Regroup(s1, a1);
    Regroup(s2, a2);
    DropAffixes(KeyPrefix, s1 + ['/'] + a1, s2 + ['/'] + a2, KeySuffix);
    SplitAtFirst(s1, a1, s2, a2, '/');
  }

  lemma Regroup(session: String, safe: String)
    ensures KeyPrefix + session + "/" + safe + KeySuffix == KeyPrefix + (session + ['/'] + safe) + KeySuffix
  {
    assert KeyPrefix + session + "/" + safe == KeyPrefix + (session + ['/'] + safe);
  }

  /** Equal strings with the same prefix and suffix have equal middles. */
  lemma DropAffixes(p: String, a: String, b: String, q: String)
    requires p + a + q == p + b + q
    ensures a == b
  {
    var k := p + a + q;
    assert |a| == |b|;
    assert a == k[|p|..|p| + |a|];
    assert b == k[|p|..|p| + |b|];
  }

  /** A string is split uniquely at the first occurrence of a character the
      front part does not contain. */
  lemma SplitAtFirst(s1: String, u1: String, s2: String, u2: String, c: char)
    requires HasNoChar(s1, c) && HasNoChar(s2, c)
    requires s1 + [c] + u1 == s2 + [c] + u2
    ensures s1 == s2 && u1 == u2
  {
    var t := s1 + [c] + u1;
    IndexOfFromStops(s1, c, u1);
    IndexOfFromStops(s2, c, u2);
    assert s1 == t[..|s1|];
    assert s2 == t[..|s2|];
    assert u1 == t[|s1| + 1..];
    assert u2 == t[|s2| + 1..];
  }
}
