/**
 * The AI client: whether it is configured, and the two generators that send a
 * prompt to the chat-completion service, clean up the reply, parse it as JSON
 * and normalise every failure into a fixed payload.
 *
 * The completion call and `json.loads` are parameters: `complete` maps a
 * prompt to the reply text or to the text of the exception it raised, and
 * `parse` maps cleaned-up text to a JSON value or to the text of the decode
 * error.
 */
module AiClient {
  import opened Wrappers
  import opened Json
  import opened Prompt
  import opened ResponseParser

  /** The client keeps only the API key it read from the environment when it was created. */
  datatype AIClient = AIClient(apiKey: Option<string>) {
    /** A key is configured when it is present and not the empty string. */
    predicate IsConfigured() {
      apiKey.Some? && apiKey.value != ""
    }
  }

  /** The user's profile as the analysis route passes it in. */
  datatype Profile = Profile(
    skills: seq<Skill>,
    certifications: seq<Certification>,
    achievements: seq<Achievement>)

  const NotConfiguredMessage := "GROQ_API_KEY not configured"
  const AnalysisFailedPrefix := "AI analysis failed: "
  const QuizFailedPrefix := "Quiz generation failed: "
  const FallbackStudyPlan := "Unable to generate study plan"

  /** The payload returned when any step of the analysis raised. */
  function AnalysisFallback(message: string): Json {
    JObj(map[
      "error" := JStr(AnalysisFailedPrefix + message),
      "analysis" := JObj(map[
        "missing" := JArr([]),
        "underdeveloped" := JArr([]),
        "fit_score" := JNum(0)]),
      "recommendations" := JArr([]),
      "study_plan" := JStr(FallbackStudyPlan),
      "ai_used" := JBool(false)])
  }

  /** The text of the TypeError raised by `result["ai_used"] = True` when `result` is not a dict. */
  function ItemAssignmentError(j: Json): string
    requires !j.JObj?
  {
    if j.JArr? then "list indices must be integers or slices, not str"
    else if j.JStr? then "'str' object does not support item assignment"
    else if j.JNum? then "'int' object does not support item assignment"
    else if j.JBool? then "'bool' object does not support item assignment"
    else "'NoneType' object does not support item assignment"
  }

  /** Call the model, strip code fences from its reply and parse what remains. */
  function ParsedReply<P>(
    prompt: P, complete: P -> Result<string, string>, parse: string -> Result<Json, string>
  ): Result<Json, string>
  {
    match complete(prompt)
    case Failure(e) => Failure(e)
    case Success(text) => parse(StripCodeFences(text))
  }

  /** The analysis the model produced, when it parsed to a dict; otherwise the exception text. */
  function AnalysisObject(
    profile: Profile, targetRole: string, catalog: seq<Course>,
    complete: AnalysisPrompt -> Result<string, string>, parse: string -> Result<Json, string>
  ): Result<map<string, Json>, string>
  {
    var prompt := RenderAnalysisPrompt(profile.skills, profile.certifications,
                                       profile.achievements, targetRole, catalog);
    match ParsedReply(prompt, complete, parse)
    case Failure(e) => Failure(e)
    case Success(j) => if j.JObj? then Success(j.fields) else Failure(ItemAssignmentError(j))
  }

  /**
   * `generate_skill_gap_analysis`. Unconfigured: the fixed error object, and
   * neither oracle is consulted. Otherwise `ai_used` is true exactly when the
   * reply parsed to a dict, in which case every other key is passed through
   * unchanged; every failure gives the fallback payload.
   */
  function GenerateSkillGapAnalysis(
    client: AIClient, profile: Profile, targetRole: string, catalog: seq<Course>,
    complete: AnalysisPrompt -> Result<string, string>, parse: string -> Result<Json, string>
  ): (r: Json)
    ensures !client.IsConfigured() ==> r == ErrorObject(NotConfiguredMessage)
    ensures client.IsConfigured() ==>
      var outcome := AnalysisObject(profile, targetRole, catalog, complete, parse);
      && r.JObj? && "ai_used" in r.fields
      && (r.fields["ai_used"] == JBool(true) <==> outcome.Success?)
      && (outcome.Success? ==>
            && r.fields.Keys == outcome.value.Keys + {"ai_used"}
            && forall k :: k in outcome.value && k != "ai_used" ==> r.fields[k] == outcome.value[k])
      && (outcome.Failure? ==> r == AnalysisFallback(outcome.error))
  {
    if !client.IsConfigured() then ErrorObject(NotConfiguredMessage)
    else
      match AnalysisObject(profile, targetRole, catalog, complete, parse)
      case Success(m) => JObj(MarkAiUsed(m))
      case Failure(e) => AnalysisFallback(e)
  }

  /** `result["ai_used"] = True` on a parsed dict. */
  function MarkAiUsed(m: map<string, Json>): (r: map<string, Json>)
    ensures r.Keys == m.Keys + {"ai_used"} && r["ai_used"] == JBool(true)
    ensures forall k :: k in m && k != "ai_used" ==> r[k] == m[k]
  {
    m["ai_used" := JBool(true)]
  }

  /**
   * `generate_quiz`. Unconfigured: the fixed error object. Otherwise the parsed
   * reply is returned as it is, whatever JSON it is; a failed call or parse
   * gives an object whose only key is `"error"`.
   */
  function GenerateQuiz(
    client: AIClient, skill: string,
    complete: QuizPrompt -> Result<string, string>, parse: string -> Result<Json, string>
  ): (r: Json)
    ensures !client.IsConfigured() ==> r == ErrorObject(NotConfiguredMessage)
    ensures client.IsConfigured() ==>
      var reply := ParsedReply(QuizPrompt(skill), complete, parse);
      && (reply.Success? ==> r == reply.value)
      && (reply.Failure? ==> r.JObj? && r.fields.Keys == {"error"}
                             && r.fields["error"] == JStr(QuizFailedPrefix + reply.error))
  {
    if !client.IsConfigured() then ErrorObject(NotConfiguredMessage)
    else
      match ParsedReply(QuizPrompt(skill), complete, parse)
      case Success(j) => j
      case Failure(e) => ErrorObject(QuizFailedPrefix + e)
  }

  /**
   * Without a key neither generator reaches the model: the result is the same
   * whatever the completion call and the parser would have done.
   */
  lemma UnconfiguredIgnoresModel(
    client: AIClient, profile: Profile, targetRole: string, catalog: seq<Course>, skill: string,
    complete1: AnalysisPrompt -> Result<string, string>, complete2: AnalysisPrompt -> Result<string, string>,
    quiz1: QuizPrompt -> Result<string, string>, quiz2: QuizPrompt -> Result<string, string>,
    parse1: string -> Result<Json, string>, parse2: string -> Result<Json, string>)
    requires !client.IsConfigured()
    ensures GenerateSkillGapAnalysis(client, profile, targetRole, catalog, complete1, parse1)
         == GenerateSkillGapAnalysis(client, profile, targetRole, catalog, complete2, parse2)
         == ErrorObject(NotConfiguredMessage)
    ensures GenerateQuiz(client, skill, quiz1, parse1) == GenerateQuiz(client, skill, quiz2, parse2)
         == ErrorObject(NotConfiguredMessage)
  {
  }

  /**
   * The configured analysis fails over to a payload with `ai_used` false, a
   * zero fit score, empty gap lists and no recommendations.
   */
  lemma FallbackShape(message: string)
    ensures var r := AnalysisFallback(message);
      && r.fields["ai_used"] == JBool(false)
      && r.fields["analysis"].fields["fit_score"] == JNum(0)
      && r.fields["analysis"].fields["missing"] == JArr([])
      && r.fields["analysis"].fields["underdeveloped"] == JArr([])
      && r.fields["recommendations"] == JArr([])
      && r.fields["study_plan"] == JStr(FallbackStudyPlan)
  {
  }

  /**
   * The parsed reply depends on the model's reply only through its cleaned-up
   * text. A step of `AnalysisSeesCleanedReply`, kept separate so that each
   * proof stays small for the solver.
   */
  lemma ParsedReplySeesCleanedText<P>(
    prompt: P, complete1: P -> Result<string, string>, complete2: P -> Result<string, string>,
    parse: string -> Result<Json, string>)
    requires complete1(prompt).Success? && complete2(prompt).Success?
    requires StripCodeFences(complete1(prompt).value) == StripCodeFences(complete2(prompt).value)
    ensures ParsedReply(prompt, complete1, parse) == ParsedReply(prompt, complete2, parse)
  {
  }

  /** The analysis sees the model's reply only through its cleaned-up text. */
  lemma AnalysisSeesCleanedReply(
    client: AIClient, profile: Profile, targetRole: string, catalog: seq<Course>,
    reply1: string, reply2: string,
    complete1: AnalysisPrompt -> Result<string, string>, complete2: AnalysisPrompt -> Result<string, string>,
    parse: string -> Result<Json, string>)
    requires forall p :: complete1(p) == Success(reply1)
    requires forall p :: complete2(p) == Success(reply2)
    requires StripCodeFences(reply1) == StripCodeFences(reply2)
    ensures GenerateSkillGapAnalysis(client, profile, targetRole, catalog, complete1, parse)
         == GenerateSkillGapAnalysis(client, profile, targetRole, catalog, complete2, parse)
  {
    var prompt := RenderAnalysisPrompt(profile.skills, profile.certifications,
                                       profile.achievements, targetRole, catalog);
    ParsedReplySeesCleanedText(prompt, complete1, complete2, parse);
    AnalysisSeesParsedReply(profile, targetRole, catalog, complete1, complete2, parse);
    AnalysisSeesObject(client, profile, targetRole, catalog, complete1, complete2, parse);
  }

  /** One step of `AnalysisSeesCleanedReply`, kept separate so that each proof stays small for the solver. */
  lemma AnalysisSeesParsedReply(
    profile: Profile, targetRole: string, catalog: seq<Course>,
    complete1: AnalysisPrompt -> Result<string, string>, complete2: AnalysisPrompt -> Result<string, string>,
    parse: string -> Result<Json, string>)
    requires var prompt := RenderAnalysisPrompt(profile.skills, profile.certifications,
                                                profile.achievements, targetRole, catalog);
      ParsedReply(prompt, complete1, parse) == ParsedReply(prompt, complete2, parse)
    ensures AnalysisObject(profile, targetRole, catalog, complete1, parse)
         == AnalysisObject(profile, targetRole, catalog, complete2, parse)
  {
  }

  /** One step of `AnalysisSeesCleanedReply`, kept separate so that each proof stays small for the solver. */
  lemma AnalysisSeesObject(
    client: AIClient, profile: Profile, targetRole: string, catalog: seq<Course>,
    complete1: AnalysisPrompt -> Result<string, string>, complete2: AnalysisPrompt -> Result<string, string>,
    parse: string -> Result<Json, string>)
    requires AnalysisObject(profile, targetRole, catalog, complete1, parse)
          == AnalysisObject(profile, targetRole, catalog, complete2, parse)
    ensures GenerateSkillGapAnalysis(client, profile, targetRole, catalog, complete1, parse)
         == GenerateSkillGapAnalysis(client, profile, targetRole, catalog, complete2, parse)
  {
  }

  /**
   * A model that answers with a ```` ```json ````-fenced block is analysed
   * exactly as one that answers with the same JSON bare.
   */
  lemma FencedAnalysisReply(
    client: AIClient, profile: Profile, targetRole: string, catalog: seq<Course>, body: string,
    fenced: AnalysisPrompt -> Result<string, string>, bare: AnalysisPrompt -> Result<string, string>,
    parse: string -> Result<Json, string>)
    requires !PyStr.StartsWith(PyStr.Strip(body), Fence) && !PyStr.EndsWith(PyStr.Strip(body), Fence)
    requires forall p :: fenced(p) == Success(JsonFence + "\n" + body + "\n" + Fence)
    requires forall p :: bare(p) == Success(body)
    ensures GenerateSkillGapAnalysis(client, profile, targetRole, catalog, fenced, parse)
         == GenerateSkillGapAnalysis(client, profile, targetRole, catalog, bare, parse)
  {
    JsonFencedReply(body);
    UnfencedReply(body);
    AnalysisSeesCleanedReply(client, profile, targetRole, catalog,
                             JsonFence + "\n" + body + "\n" + Fence, body, fenced, bare, parse);
  }
}
