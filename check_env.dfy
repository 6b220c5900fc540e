/** The environment check script: each known variable is listed with a
    status symbol and a masked value, and the script exits with 0 exactly
    when every required API and web variable is set. The environment is a
    map from variable names to values. */
module CheckEnv {
  import opened Text
  import opened Results

  const NotSet: String := "\U{274C} Not set"
  const Hidden: String := "***"
  const Ellipsis: String := "..."
  const PresentMark: String := "\U{2705}"
  const MissingMark: String := "\U{274C}"
  const OptionalMark: String := "\U{26A0}\U{FE0F} "

  /** `maskValue`: not set for a missing or empty value, stars for a short
      one, otherwise the first four and last four characters around "...". */
  function MaskValue(value: Option<String>): (r: String)
    ensures value.None? || value.value == [] ==> r == NotSet
    ensures value.Some? && 1 <= |value.value| <= 8 ==> r == Hidden
    ensures value.Some? && |value.value| > 8 ==>
      |r| == 11 && r[..4] == value.value[..4] && r[4..7] == Ellipsis && r[7..] == value.value[|value.value| - 4..]
  {
    if value.None? || value.value == [] then NotSet
    else if |value.value| <= 8 then Hidden
    else
      var v := value.value;
      var r := v[..4] + Ellipsis + v[|v| - 4..];
      assert r[..4] == v[..4];
      assert r[4..7] == Ellipsis;
      assert r[7..] == v[|v| - 4..];
      r
  }

  /** The mask reveals nothing but the first four and last four characters:
      long values that agree there mask alike, whatever lies between. */
  lemma MaskHidesMiddle(a: String, b: String)
    requires |a| > 8 && |b| > 8
    requires a[..4] == b[..4] && a[|a| - 4..] == b[|b| - 4..]
    ensures MaskValue(Some(a)) == MaskValue(Some(b))
  {
    var ma, mb := MaskValue(Some(a)), MaskValue(Some(b));
    assert ma == ma[..4] + ma[4..7] + ma[7..];
    assert mb == mb[..4] + mb[4..7] + mb[7..];
  }

  /** `!!process.env[name]`: defined and non-empty. */
  predicate Present(env: map<String, String>, name: String) {
    name in env && env[name] != []
  }

  function EnvValue(env: map<String, String>, name: String): Option<String> {
    if name in env then Some(env[name]) else None
  }

  datatype EnvCheck = EnvCheck(name: String, required: bool, present: bool, masked: String)

  function Check(env: map<String, String>, name: String, required: bool): (r: EnvCheck)
    ensures r.present <==> Present(env, name)
    ensures r.masked == NotSet <==> !Present(env, name)
  {
    var masked := MaskValue(EnvValue(env, name));
    MaskOfSet(EnvValue(env, name));
    EnvCheck(name, required, Present(env, name), masked)
  }

  /** A set value never masks to the not-set text. */
  lemma MaskOfSet(value: Option<String>)
    ensures MaskValue(value) == NotSet <==> value.None? || value.value == []
  {
    if value.Some? && value.value != [] {
      var m := MaskValue(value);
      if |value.value| <= 8 {
        assert m[0] != NotSet[0];
      } else {
        assert |m| != |NotSet|;
      }
    }
  }

  /** The API variables, three of them required. */
  function ApiChecks(env: map<String, String>): seq<EnvCheck> {
    [ Check(env, "OPENAI_API_KEY", true),
      Check(env, "SUPABASE_URL", true),
      Check(env, "SUPABASE_SERVICE_ROLE_KEY", true),
      Check(env, "SUPABASE_STORAGE_BUCKET", false),
      Check(env, "STRIPE_SECRET_KEY", false),
      Check(env, "STRIPE_WEBHOOK_SECRET", false) ]
  }

  /** The web variables, one of them required. */
  function WebChecks(env: map<String, String>): seq<EnvCheck> {
    [ Check(env, "NEXT_PUBLIC_API_URL", true),
      Check(env, "NEXT_PUBLIC_STRIPE_PUBLISHABLE_KEY", false) ]
  }

  /** The status symbol of one line. */
  function Status(c: EnvCheck): (r: String)
    ensures r == PresentMark <==> c.present
    ensures r == MissingMark <==> !c.present && c.required
    ensures r == OptionalMark <==> !c.present && !c.required
  {
    assert PresentMark[0] != MissingMark[0] && PresentMark[0] != OptionalMark[0] && MissingMark[0] != OptionalMark[0];
    if c.present then PresentMark else if c.required then MissingMark else OptionalMark
  }

  /** One status loop: the flag stays true until a required variable is
      found missing. */
  method AllRequired(checks: seq<EnvCheck>) returns (all: bool)
    ensures all <==> forall i :: 0 <= i < |checks| && checks[i].required ==> checks[i].present
  {
    all := true;
    var i := 0;
    while i < |checks|
      invariant 0 <= i <= |checks|
      invariant all <==> forall j :: 0 <= j < i && checks[j].required ==> checks[j].present
    {
      if checks[i].required && !checks[i].present {
        all := false;
      }
      i := i + 1;
    }
  }

  /** The four required variables are set. */
  predicate RequiredSet(env: map<String, String>) {
    && Present(env, "OPENAI_API_KEY")
    && Present(env, "SUPABASE_URL")
    && Present(env, "SUPABASE_SERVICE_ROLE_KEY")
    && Present(env, "NEXT_PUBLIC_API_URL")
  }

  /** The script's exit code: 0 exactly when every required variable is set. */
  method ExitCode(env: map<String, String>) returns (code: int)
    ensures code == 0 <==> RequiredSet(env)
    ensures code == 0 || code == 1
  {
    var api := ApiChecks(env);
    var web := WebChecks(env);
    var allApi := AllRequired(api);
    var allWeb := AllRequired(web);
    assert allApi <==> api[0].present && api[1].present && api[2].present;
    assert allWeb <==> web[0].present;
    code := if allApi && allWeb then 0 else 1;
  }
}
