/**
 * The quiz routes and the in-memory table of active quizzes they share:
 * generating a quiz records its answer key under the skill name, submitting
 * answers looks the key up, scores against it and removes it.
 */
module QuizRoutes {
  import opened Wrappers
  import opened Json
  import opened Prompt
  import opened Scorer
  import PyStr
  import AiClient

  /** An HTTP reply: the handler's return value, or a 500 for an exception it did not catch. */
  datatype Response<T> = Ok(body: T) | InternalServerError(cause: string)

  /** What the submit handler returns when it does not raise. */
  datatype SubmitReply = Rejected(error: string) | Graded(result: QuizResult)

  const NoActiveQuizMessage := "No active quiz found for this skill. Generate a quiz first."
  const ScoreQuizArityError := "TypeError: AIClient.score_quiz() missing 1 required positional argument: 'questions'"

  /** `"error" in result`, or `None` where `in` raises because the value is not a container. */
  function HasErrorMarker(result: Json): Option<bool> {
    match result
    case JObj(m) => Some("error" in m)
    case JArr(items) => Some(JStr("error") in items)
    case JStr(s) => Some(PyStr.Contains(s, "error"))
    case _ => None
  }

  /**
   * `q["correct"]` for one question, when it is a dict holding an integer
   * there (a JSON `true`/`false` is the integer 1/0 in Python).
   */
  function CorrectValue(q: Json): Option<int> {
    if q.JObj? && "correct" in q.fields then
      match q.fields["correct"]
      case JNum(n) => Some(n)
      case JBool(b) => Some(if b then 1 else 0)
      case _ => None
    else None
  }

  /** `[q["correct"] for q in items]`: one key entry per question, in question order. */
  function CorrectFields(items: seq<Json>): (r: Option<seq<int>>)
    ensures r.Some? <==> forall i :: 0 <= i < |items| ==> CorrectValue(items[i]).Some?
    ensures r.Some? ==>
      && |r.value| == |items|
      && forall i :: 0 <= i < |items| ==> Some(r.value[i]) == CorrectValue(items[i])
  {
    if |items| == 0 then Some([])
    else
      var rest := CorrectFields(items[1..]);
      match CorrectValue(items[0])
      case Some(c) =>
        if rest.Some? then Some([c] + rest.value)
        else
          assert exists i :: 1 <= i < |items| && CorrectValue(items[i]).None? by {
            var j :| 0 <= j < |items| - 1 && CorrectValue(items[1..][j]).None?;
            assert items[1..][j] == items[j + 1];
          }
          None
      case None => None
  }

  /**
   * The comprehension over `result["questions"]`. Iterating an empty string
   * or an empty dict yields nothing, so those store an empty key; any other
   * non-list, or a list holding a non-question, raises.
   */
  function AnswerKey(questions: Json): Option<seq<int>> {
    match questions
    case JArr(items) => CorrectFields(items)
    case JStr(s) => if |s| == 0 then Some([]) else None
    case JObj(m) => if |m| == 0 then Some([]) else None
    case _ => None
  }

  /** What the generate handler does with the generator's result. */
  datatype StoreStep = KeepTable | StoreKey(key: seq<int>) | Raise(cause: string)

  /**
   * The store step of the generate handler: a result carrying `"error"` is
   * passed through; otherwise the key is read from its `"questions"`.
   */
  function StoreStepFor(result: Json): (r: StoreStep)
    ensures result.JObj? && "error" in result.fields ==> r == KeepTable
    ensures r.StoreKey? ==>
      && result.JObj? && "error" !in result.fields && "questions" in result.fields
      && AnswerKey(result.fields["questions"]) == Some(r.key)
    ensures result.JObj? && "error" !in result.fields && "questions" in result.fields
            && result.fields["questions"].JArr? ==>
      var items := result.fields["questions"].items;
      (r.StoreKey? <==> forall i :: 0 <= i < |items| ==> CorrectValue(items[i]).Some?)
      && (r.StoreKey? ==> |r.key| == |items|
                          && forall i :: 0 <= i < |items| ==> Some(r.key[i]) == CorrectValue(items[i]))
  {
    match HasErrorMarker(result)
    case None => Raise("TypeError: argument is not iterable")
    case Some(true) => KeepTable
    case Some(false) =>
      if !result.JObj? then Raise("TypeError: indices must be integers")
      else if "questions" !in result.fields then Raise("KeyError: 'questions'")
      else
        match AnswerKey(result.fields["questions"])
        case Some(key) => StoreKey(key)
        case None => Raise("TypeError or KeyError while reading 'correct'")
  }

  /**
   * The handler leaves the table alone exactly when `"error" in result` holds,
   * which for a list means an element equal to the string `"error"` and for a
   * string means a substring `"error"`.
   */
  lemma KeepTableIffErrorMarker(result: Json)
    ensures StoreStepFor(result) == KeepTable <==> HasErrorMarker(result) == Some(true)
    ensures result.JArr? && JStr("error") in result.items ==> StoreStepFor(result) == KeepTable
    ensures result.JStr? && PyStr.Contains(result.s, "error") ==> StoreStepFor(result) == KeepTable
  {
  }

  /** The two quiz handlers over the module-level table `active_quizzes`. */
  class QuizRouter {
    /** The process-wide AI client, fixed at start-up. */
    const client: AiClient.AIClient
    /** `active_quizzes`: each skill name to the answer key of its latest quiz. */
    var activeQuizzes: map<string, seq<int>>

    constructor(client: AiClient.AIClient)
      ensures this.client == client && activeQuizzes == map[]
    {
      this.client := client;
      activeQuizzes := map[];
    }

    /**
     * `generate_quiz`: unconfigured, the error object and no change. A result
     * without `"error"` stores its key under `skill`, replacing any earlier
     * key for it; no other skill's entry changes.
     */
    method GenerateQuiz(
      skill: string,
      complete: QuizPrompt -> Result<string, string>, parse: string -> Result<Json, string>)
      returns (resp: Response<Json>)
      modifies this
      ensures !client.IsConfigured() ==>
        resp == Ok(ErrorObject(AiClient.NotConfiguredMessage)) && activeQuizzes == old(activeQuizzes)
      ensures client.IsConfigured() ==>
        var result := AiClient.GenerateQuiz(client, skill, complete, parse);
        match StoreStepFor(result)
        case KeepTable => resp == Ok(result) && activeQuizzes == old(activeQuizzes)
        case StoreKey(key) => resp == Ok(result) && activeQuizzes == old(activeQuizzes)[skill := key]
        case Raise(cause) => resp == InternalServerError(cause) && activeQuizzes == old(activeQuizzes)
      ensures activeQuizzes.Keys <= old(activeQuizzes).Keys + {skill}
      ensures forall s :: s != skill && s in old(activeQuizzes) ==>
        s in activeQuizzes && activeQuizzes[s] == old(activeQuizzes)[s]
    {
      if !client.IsConfigured() {
        return Ok(ErrorObject(AiClient.NotConfiguredMessage));
      }
      var result := AiClient.GenerateQuiz(client, skill, complete, parse);
      match StoreStepFor(result) {
        case KeepTable =>
          resp := Ok(result);
        case StoreKey(key) =>
          activeQuizzes := activeQuizzes[skill := key];
          resp := Ok(result);
        case Raise(cause) =>
          resp := InternalServerError(cause);
      }
    }

    /**
     * `submit_quiz` as written: it calls `score_quiz` without the questions,
     * so every submit that finds a quiz raises before the entry is deleted.
     */
    method SubmitQuizAsWritten(skill: string, answers: seq<int>) returns (resp: Response<SubmitReply>)
      ensures !client.IsConfigured() ==> resp == Ok(Rejected(AiClient.NotConfiguredMessage))
      ensures client.IsConfigured() && skill !in activeQuizzes ==> resp == Ok(Rejected(NoActiveQuizMessage))
      ensures client.IsConfigured() && skill in activeQuizzes ==> resp == InternalServerError(ScoreQuizArityError)
    {
      if !client.IsConfigured() {
        return Ok(Rejected(AiClient.NotConfiguredMessage));
      }
      if skill !in activeQuizzes {
        return Ok(Rejected(NoActiveQuizMessage));
      }
      resp := InternalServerError(ScoreQuizArityError);
    }

    /**
     * `submit_quiz` with the quiz's questions passed to `score_quiz`: scores
     * against the stored key, then removes that skill's entry and no other.
     * When scoring raises, the entry stays.
     */
    method SubmitQuiz(skill: string, answers: seq<int>, questions: seq<Question>)
      returns (resp: Response<SubmitReply>)
      modifies this
      ensures !client.IsConfigured() ==>
        resp == Ok(Rejected(AiClient.NotConfiguredMessage)) && activeQuizzes == old(activeQuizzes)
      ensures client.IsConfigured() && skill !in old(activeQuizzes) ==>
        resp == Ok(Rejected(NoActiveQuizMessage)) && activeQuizzes == old(activeQuizzes)
      ensures client.IsConfigured() && skill in old(activeQuizzes) ==>
        var scored := ScoreResult(answers, old(activeQuizzes)[skill], questions);
        && (scored.Success? ==>
              resp == Ok(Graded(scored.value)) && activeQuizzes == old(activeQuizzes) - {skill})
        && (scored.Failure? ==>
              resp == InternalServerError(scored.error) && activeQuizzes == old(activeQuizzes))
    {
      if !client.IsConfigured() {
        return Ok(Rejected(AiClient.NotConfiguredMessage));
      }
      if skill !in activeQuizzes {
        return Ok(Rejected(NoActiveQuizMessage));
      }
      var correctAnswers := activeQuizzes[skill];
      var scored := ScoreQuiz(answers, correctAnswers, questions);
      if scored.Failure? {
        return InternalServerError(scored.error);
      }
      activeQuizzes := activeQuizzes - {skill};
      resp := Ok(Graded(scored.value));
    }
  }

  /**
   * As written, a quiz is never consumed: submitting twice fails twice in the
   * same way and the entry is still there.
   */
  method AsWrittenSubmitNeverConsumes(router: QuizRouter, skill: string, answers: seq<int>)
    returns (first: Response<SubmitReply>, second: Response<SubmitReply>)
    requires router.client.IsConfigured() && skill in router.activeQuizzes
    ensures first == second == InternalServerError(ScoreQuizArityError)
    ensures skill in router.activeQuizzes
  {
    first := router.SubmitQuizAsWritten(skill, answers);
    second := router.SubmitQuizAsWritten(skill, answers);
  }

  /** A scored submission consumes the quiz: submitting again finds none. */
  method SubmitConsumesQuiz(router: QuizRouter, skill: string, answers: seq<int>, questions: seq<Question>)
    returns (first: Response<SubmitReply>, second: Response<SubmitReply>)
    requires router.client.IsConfigured() && skill in router.activeQuizzes
    requires ScoreResult(answers, router.activeQuizzes[skill], questions).Success?
    modifies router
    ensures first == Ok(Graded(ScoreResult(answers, old(router.activeQuizzes)[skill], questions).value))
    ensures second == Ok(Rejected(NoActiveQuizMessage))
    ensures router.activeQuizzes == old(router.activeQuizzes) - {skill}
  {
    first := router.SubmitQuiz(skill, answers, questions);
    second := router.SubmitQuiz(skill, answers, questions);
  }

  /**
   * Two generations for one skill before a submit: the submit is scored
   * against the second key, the first is lost.
   */
  method RegenerateReplacesKey(
    router: QuizRouter, skill: string,
    complete1: QuizPrompt -> Result<string, string>, complete2: QuizPrompt -> Result<string, string>,
    parse: string -> Result<Json, string>, answers: seq<int>, questions: seq<Question>)
    returns (resp: Response<SubmitReply>)
    requires router.client.IsConfigured()
    requires StoreStepFor(AiClient.GenerateQuiz(router.client, skill, complete1, parse)).StoreKey?
    requires StoreStepFor(AiClient.GenerateQuiz(router.client, skill, complete2, parse)).StoreKey?
    modifies router
    ensures var key2 := StoreStepFor(AiClient.GenerateQuiz(router.client, skill, complete2, parse)).key;
      var scored := ScoreResult(answers, key2, questions);
      scored.Success? ==> resp == Ok(Graded(scored.value))
  {
    var _ := router.GenerateQuiz(skill, complete1, parse);
    var _ := router.GenerateQuiz(skill, complete2, parse);
    resp := router.SubmitQuiz(skill, answers, questions);
  }

  /**
   * A quiz generated for one skill does not answer for another: submitting
   * for a skill that has no quiz is rejected and leaves the other quiz in place
   * to be scored.
   */
  method SkillsAreSeparate(
    router: QuizRouter, generated: string, other: string,
    complete: QuizPrompt -> Result<string, string>, parse: string -> Result<Json, string>,
    answers: seq<int>, questions: seq<Question>)
    returns (forOther: Response<SubmitReply>, forGenerated: Response<SubmitReply>)
    requires router.client.IsConfigured()
    requires other != generated && other !in router.activeQuizzes
    requires StoreStepFor(AiClient.GenerateQuiz(router.client, generated, complete, parse)).StoreKey?
    modifies router
    ensures forOther == Ok(Rejected(NoActiveQuizMessage))
    ensures var key := StoreStepFor(AiClient.GenerateQuiz(router.client, generated, complete, parse)).key;
      var scored := ScoreResult(answers, key, questions);
      scored.Success? ==> forGenerated == Ok(Graded(scored.value))
  {
    var _ := router.GenerateQuiz(generated, complete, parse);
    forOther := router.SubmitQuiz(other, answers, questions);
    forGenerated := router.SubmitQuiz(generated, answers, questions);
  }
}
