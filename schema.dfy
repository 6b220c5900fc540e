/** The skill-pack input types and the zod schemas that validate them, as
    validation predicates and parse functions. An unvalidated record has
    every field optional; parsing either yields the typed record or the list
    of offending field paths, in the schema's key order. */
module Schema {
  import opened Text
  import opened Results

  datatype Strategy = Strategy(title: String, content: String)
  datatype PromptTemplate = PromptTemplate(id: String, name: String, template: String)

  datatype Language = Python | TypeScript
  datatype ScriptLogic = ScriptLogic(language: Language, code: String)

  /** A validated `SkillBuildInput`. */
  datatype SkillBuildInput = SkillBuildInput(
    skillName: String,
    description: String,
    triggers: seq<String>,
    researchSummary: Option<String>,
    strategies: seq<Strategy>,
    promptTemplates: Option<seq<PromptTemplate>>,
    scriptLogic: Option<ScriptLogic>)

  datatype RawScriptLogic = RawScriptLogic(language: Option<String>, code: Option<String>)

  /** A build request before validation: any field may be missing. The
      elements of the lists are taken to be well-typed records. */
  datatype RawBuildInput = RawBuildInput(
    skillName: Option<String>,
    description: Option<String>,
    triggers: Option<seq<String>>,
    researchSummary: Option<String>,
    strategies: Option<seq<Strategy>>,
    promptTemplates: Option<seq<PromptTemplate>>,
    scriptLogic: Option<RawScriptLogic>)

  /** `z.enum(["python", "typescript"])`. */
  function ParseLanguage(s: String): (r: Option<Language>)
    ensures r == Some(Python) <==> s == "python"
    ensures r == Some(TypeScript) <==> s == "typescript"
    ensures r.None? <==> s != "python" && s != "typescript"
  {
    if s == "python" then Some(Python)
    else if s == "typescript" then Some(TypeScript)
    else None
  }

  /** What `skillBuildInputSchema` demands: a non-empty `skillName`, a
      `description` and the two lists present (possibly empty), and, when
      `scriptLogic` is given, a known language and a code string. */
  predicate ValidBuildInput(raw: RawBuildInput) {
    && raw.skillName.Some? && |raw.skillName.value| >= 1
    && raw.description.Some?
    && raw.triggers.Some?
    && raw.strategies.Some?
    && (raw.scriptLogic.Some? ==>
          && raw.scriptLogic.value.language.Some?
          && raw.scriptLogic.value.language.value in {"python", "typescript"}
          && raw.scriptLogic.value.code.Some?)
  }

  /** The issues zod reports, one field path per failed check, in key order. */
  function BuildInputIssues(raw: RawBuildInput): seq<String> {
    (if raw.skillName.None? || |raw.skillName.value| < 1 then ["skillName"] else [])
    + (if raw.description.None? then ["description"] else [])
    + (if raw.triggers.None? then ["triggers"] else [])
    + (if raw.strategies.None? then ["strategies"] else [])
    + (match raw.scriptLogic
       case None => []
       case Some(sl) =>
         (if sl.language.None? || ParseLanguage(sl.language.value).None? then ["scriptLogic.language"] else [])
         + (if sl.code.None? then ["scriptLogic.code"] else []))
  }

  /** `skillBuildInputSchema.parse`: the typed record, or the issues (zod throws). */
  function ParseBuildInput(raw: RawBuildInput): (r: Result<SkillBuildInput, seq<String>>)
    ensures r.Ok? <==> ValidBuildInput(raw)
    ensures r.Err? ==> |r.error| >= 1
    ensures r.Ok? ==>
      && r.value.skillName == raw.skillName.value && |r.value.skillName| >= 1
      && r.value.description == raw.description.value
      && r.value.triggers == raw.triggers.value
      && r.value.strategies == raw.strategies.value
      && r.value.researchSummary == raw.researchSummary
      && r.value.promptTemplates == raw.promptTemplates
      && (r.value.scriptLogic.None? <==> raw.scriptLogic.None?)
      && (r.value.scriptLogic.Some? ==>
            && r.value.scriptLogic.value.code == raw.scriptLogic.value.code.value
            && (r.value.scriptLogic.value.language == Python <==> raw.scriptLogic.value.language.value == "python"))
  {
    var issues := BuildInputIssues(raw);
    if issues == [] then
      var script := match raw.scriptLogic
        case None => None
        case Some(sl) => Some(ScriptLogic(ParseLanguage(sl.language.value).value, sl.code.value));
      Ok(SkillBuildInput(raw.skillName.value, raw.description.value, raw.triggers.value,
                         raw.researchSummary, raw.strategies.value, raw.promptTemplates, script))
    else Err(issues)
  }

  /** A validated input can be given back as a raw record that parses to it. */
  function Unparse(p: SkillBuildInput): RawBuildInput {
    RawBuildInput(Some(p.skillName), Some(p.description), Some(p.triggers), p.researchSummary,
                  Some(p.strategies), p.promptTemplates,
                  match p.scriptLogic
                  case None => None
                  case Some(sl) => Some(RawScriptLogic(Some(if sl.language == Python then "python" else "typescript"), Some(sl.code))))
  }

  /** Parsing is the left inverse of forgetting the types: every valid input
      is accepted unchanged. */
  lemma ParseUnparse(p: SkillBuildInput)
    requires |p.skillName| >= 1
    ensures ParseBuildInput(Unparse(p)) == Ok(p)
  {
    match p.scriptLogic
    case None =>
    case Some(sl) =>
      assert sl.language == Python || sl.language == TypeScript;
  }

  // --- skillLayerSchema and skillManifestSchema

  datatype LayerType = Scripts | References | Assets

  datatype SkillLayer = SkillLayer(id: String, name: String, description: String, layerType: LayerType)
  datatype SkillManifest = SkillManifest(name: String, description: String, triggers: seq<String>,
                                         version: String, layers: seq<SkillLayer>)

  datatype RawLayer = RawLayer(id: Option<String>, name: Option<String>, description: Option<String>,
                               layerType: Option<String>)
  datatype RawManifest = RawManifest(name: Option<String>, description: Option<String>,
                                     triggers: Option<seq<String>>, version: Option<String>,
                                     layers: Option<seq<RawLayer>>)

  const DefaultVersion: String := "1.0.0"

  /** `z.enum(["scripts", "references", "assets"])`. */
  function ParseLayerType(s: String): (r: Option<LayerType>)
    ensures r.Some? <==> s in {"scripts", "references", "assets"}
    ensures r == Some(Scripts) <==> s == "scripts"
    ensures r == Some(References) <==> s == "references"
    ensures r == Some(Assets) <==> s == "assets"
  {
    if s == "scripts" then Some(Scripts)
    else if s == "references" then Some(References)
    else if s == "assets" then Some(Assets)
    else None
  }

  predicate ValidLayer(l: RawLayer) {
    l.id.Some? && l.name.Some? && l.description.Some? && l.layerType.Some?
    && l.layerType.value in {"scripts", "references", "assets"}
  }

  function ParseLayer(l: RawLayer): (r: Option<SkillLayer>)
    ensures r.Some? <==> ValidLayer(l)
    ensures r.Some? ==> r.value.id == l.id.value && r.value.name == l.name.value
                        && r.value.description == l.description.value
    ensures r.Some? ==> Some(r.value.layerType) == ParseLayerType(l.layerType.value)
  {
    if l.id.Some? && l.name.Some? && l.description.Some? && l.layerType.Some?
       && ParseLayerType(l.layerType.value).Some?
    then Some(SkillLayer(l.id.value, l.name.value, l.description.value, ParseLayerType(l.layerType.value).value))
    else None
  }

  predicate ValidManifest(m: RawManifest) {
    && m.name.Some? && |m.name.value| >= 1
    && m.description.Some?
    && m.triggers.Some?
    && m.layers.Some?
    && forall k :: 0 <= k < |m.layers.value| ==> ValidLayer(m.layers.value[k])
  }

  function ParseLayers(ls: seq<RawLayer>): (r: Option<seq<SkillLayer>>)
    ensures r.Some? <==> forall k :: 0 <= k < |ls| ==> ValidLayer(ls[k])
    ensures r.Some? ==> |r.value| == |ls| && forall k :: 0 <= k < |ls| ==> Some(r.value[k]) == ParseLayer(ls[k])
  {
    if ls == [] then Some([])
    else
      match (ParseLayer(ls[0]), ParseLayers(ls[1..]))
      case (Some(l), Some(rest)) => Some([l] + rest)
      case _ => None
  }

  /** `skillManifestSchema.parse`: a missing `version` becomes "1.0.0". */
  function ParseManifest(m: RawManifest): (r: Option<SkillManifest>)
    ensures r.Some? <==> ValidManifest(m)
    ensures r.Some? ==> |r.value.name| >= 1 && r.value.name == m.name.value
    ensures r.Some? ==> r.value.version == (if m.version.Some? then m.version.value else DefaultVersion)
    ensures r.Some? ==> |r.value.layers| == |m.layers.value|
    ensures r.Some? ==> r.value.description == m.description.value && r.value.triggers == m.triggers.value
    ensures r.Some? ==> ParseLayers(m.layers.value) == Some(r.value.layers)
  {
    if m.name.Some? && |m.name.value| >= 1 && m.description.Some? && m.triggers.Some? && m.layers.Some? then
      match ParseLayers(m.layers.value)
      case Some(layers) =>
        Some(SkillManifest(m.name.value, m.description.value, m.triggers.value,
                           m.version.GetOr(DefaultVersion), layers))
      case None => None
    else None
  }
}
