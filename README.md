# Skill manager: quiz scoring, reply clean-up and the quiz session table

This is a Dafny model of the deterministic core of a skill-management web
application. The application asks a hosted language model for two things: a
gap analysis of a user's profile against a target role, and a four-question
self-assessment quiz for a skill. The model covers the code around those calls:

- **Prompt builder** (`prompt.dfy`): how skills, certifications, achievements and
  the course catalog are rendered into the text sections of the analysis prompt.
  This includes the `"None"` fallbacks and the comma and newline joins.
- **Response clean-up** (`response_parser.dfy`): the exact-prefix/suffix
  code-fence stripper that both generators apply to the model's reply.
- **AI client** (`ai_client.dfy`): whether the client is configured, and the two
  generators. Each one short-circuits without a key, parses the reply, marks a
  good analysis with `ai_used: true`, and turns every failure into its fixed
  payload. The completion call and `json.loads` are function parameters
  (`complete`, `parse`). Each returns either a value or the text of the
  exception it raised.
- **Scorer** (`scorer.dfy`): `score_quiz` as a method that builds the per-question
  detail records in a loop. It is proved equal to a specification function.
  Lemmas about that function cover the count, the score bounds, the level
  thresholds and the answer-text rule.
- **Quiz session table** (`quiz_routes.dfy`): a class whose `activeQuizzes` field
  is the module-level `active_quizzes` dict. Its methods are the generate
  handler (the store step) and the submit handler (lookup, score, delete).
- `pystr.dfy` holds the Python string operations these rely on: `strip`,
  `startswith`, `endswith`, `join`, `split` and `str()` of an integer.
  `json.dfy` and `wrappers.dfy` hold the value types.

The submit handler calls `score_quiz` with two arguments, but the method takes
three. The model keeps both versions. `SubmitQuizAsWritten` raises before the
`del`, so the table is unchanged. `SubmitQuiz` takes the quiz's questions as an
explicit parameter, scores against the stored key, and then deletes the entry.
See "Findings".

Three behaviours of the code worth noting:

- Answer and key lists of different lengths are not rejected. They are truncated
  by `zip`.
- The session table stores only the answer key, not the questions.
- A found quiz is not consumed by the submit as written.

## Model

| member | source | states |
|---|---|---|
| PyStr.StripPadded | app/ai_client.py:128 | `strip` gives the same result when whitespace is added on either side |
| PyStr.StripIdempotent | app/ai_client.py:119-128 | stripping a stripped reply again changes nothing |
| PyStr.SplitJoin | app/ai_client.py:52-72 | splitting a newline-joined text on newlines gives back the parts, if no part contains a newline |
| PyStr.NatToStringRoundTrip | app/ai_client.py:48 | the decimal text of a skill level reads back as that level |
| Prompt.SkillsText | app/ai_client.py:48 | definition; properties in `Prompt.SkillsTextNoneIffEmpty` and `Prompt.SkillsTextInOrder` |
| Prompt.CertificationsText | app/ai_client.py:50-57 | definition; properties in `Prompt.BulletSectionsNoneIffEmpty` and `Prompt.BulletSectionsOneLineEach` |
| Prompt.AchievementsText | app/ai_client.py:59-66 | definition; properties in `Prompt.BulletSectionsNoneIffEmpty` and `Prompt.BulletSectionsOneLineEach` |
| Prompt.CourseList | app/ai_client.py:68-72 | definition; properties in `Prompt.CourseListEmptyIffNoCourses` and `Prompt.BulletSectionsOneLineEach` |
| Prompt.RenderAnalysisPrompt | app/ai_client.py:47-89 | definition: the target role and the four rendered sections that the prompt text interpolates; properties in the section lemmas above |
| Prompt.SkillsTextNoneIffEmpty | app/ai_client.py:48 | the skills section is `"None"` exactly when the user has no skills |
| Prompt.SkillsTextInOrder | app/ai_client.py:48 | skills appear as `name (Level L/5)` entries in input order: rendering `xs + ys` is rendering `xs`, then `", "`, then `ys` |
| Prompt.BulletSectionsNoneIffEmpty | app/ai_client.py:50-66 | the certifications and achievements sections are `"None"` exactly when their lists are empty |
| Prompt.CourseListEmptyIffNoCourses | app/ai_client.py:69-72 | the course list has no fallback: it is `""` exactly when the catalog is empty |
| Prompt.BulletSectionsOneLineEach | app/ai_client.py:50-72 | each certification, achievement and course is one `- ...` line of its section, in input order |
| ResponseParser.DropFences | app/ai_client.py:122-127 | definition: the three exact prefix/suffix checks in source order; properties in `ResponseParser.JsonFencedReply`, `ResponseParser.PlainFencedReply` and `ResponseParser.UnfencedReply` |
| ResponseParser.StripCodeFences | app/ai_client.py:119-128 | the cleaned reply is never longer than the reply and has no whitespace at either end |
| ResponseParser.JsonFencedReply | app/ai_client.py:119-128 | a reply of ```` ```json ````, newline, body, newline, ```` ``` ```` cleans to the stripped body |
| ResponseParser.PlainFencedReply | app/ai_client.py:182-191 | a reply in plain ```` ``` ```` fences cleans to the stripped body |
| ResponseParser.UnfencedReply | app/ai_client.py:122-128 | a reply with no ```` ``` ```` at either end is only stripped |
| ResponseParser.FencingIsTransparent | app/ai_client.py:119-130 | the fenced and the bare body reach the parser as the same text, so they parse alike |
| AiClient.AIClient.IsConfigured | app/ai_client.py:19-21 | definition: a key that is present and not empty; properties in `AiClient.UnconfiguredIgnoresModel` |
| AiClient.UnconfiguredIgnoresModel | app/ai_client.py:19-21 | with the key absent or empty, both generators return exactly `{"error": "GROQ_API_KEY not configured"}` whatever the model and the parser would do |
| AiClient.GenerateSkillGapAnalysis | app/ai_client.py:44-141 | if configured, `ai_used` is present and is true exactly when the reply parsed to a dict; then the keys are the parsed keys plus `ai_used` and every other value is unchanged; otherwise the result is the fallback payload carrying the error text |
| AiClient.AnalysisFallback | app/ai_client.py:134-141 | definition; properties in `AiClient.FallbackShape` and `AiClient.GenerateSkillGapAnalysis` |
| AiClient.FallbackShape | app/ai_client.py:134-141 | the fallback has `ai_used` false, `fit_score` 0, empty `missing`, `underdeveloped` and `recommendations`, and the fixed study-plan text |
| AiClient.AnalysisSeesCleanedReply | app/ai_client.py:119-132 | two model replies that clean up to the same text give the same analysis result |
| AiClient.FencedAnalysisReply | app/ai_client.py:119-132 | a model answering with a ```` ```json ````-fenced block gives the same analysis result as one answering with the same JSON bare |
| AiClient.GenerateQuiz | app/ai_client.py:153-197 | unconfigured gives the fixed error; a parsed reply is returned unchanged whatever JSON it is; a failed call or parse gives an object whose only key is `error`, holding the prefixed message |
| Scorer.CorrectCount | app/ai_client.py:211 | the count never exceeds either list's length |
| Scorer.CorrectCountIsMatchCount | app/ai_client.py:211 | the count equals the number of positions below both lengths where answer and key are equal |
| Scorer.Score | app/ai_client.py:212-213 | the score is the percentage rounded down (`s*t <= c*100 < (s+1)*t`), and lies in 0..100 when the count is at most the total |
| Scorer.SuggestedLevel | app/ai_client.py:216-225 | the level is in 1..5 and is one more than the number of thresholds 40, 60, 75, 90 that the score reaches |
| Scorer.LevelMonotone | app/ai_client.py:216-225 | a higher score never gives a lower level |
| Scorer.LevelBoundaries | app/ai_client.py:216-225 | 90→5, 89→4, 75→4, 74→3, 60→3, 59→2, 40→2, 39→1 |
| Scorer.DetailAt | app/ai_client.py:230-237 | entry `i` has number `i+1`, is correct iff answer equals key, shows `options[a]` for an index in range (Python negative indexing below 0), `"Invalid"` / `"Unknown"` past the end, and `""` / `"unknown"` for a missing `q` / `difficulty`; it raises exactly when an index is below `-len(options)` |
| Scorer.ScoreResult | app/ai_client.py:199-245 | raises on an empty key (division by zero) or an index below `-len(options)`; otherwise score in 0..100, level for that score, `ai_used` true, and one detail record per question that `zip` reaches, in question order |
| Scorer.ScoreQuiz | app/ai_client.py:228-245 | the loop that appends detail records returns exactly `ScoreResult` |
| Scorer.FourQuestionExample | app/ai_client.py:211-238 | answers `[0,1,2,3]` against key `[0,1,0,3]` give score 75, level 4, and question 3 marked wrong |
| QuizRoutes.HasErrorMarker | app/routes/quiz.py:24 | definition of `"error" in result` for a dict, a list and a string, and the raise for anything else; properties in `QuizRoutes.KeepTableIffErrorMarker` |
| QuizRoutes.KeepTableIffErrorMarker | app/routes/quiz.py:24-26 | the table is left alone exactly when `"error" in result` holds, including a list with an `"error"` element and a string containing `error` |
| QuizRoutes.AnswerKey | app/routes/quiz.py:26 | definition of the comprehension over `result["questions"]`; properties in `QuizRoutes.CorrectFields` and `QuizRoutes.StoreStepFor` |
| QuizRoutes.CorrectFields | app/routes/quiz.py:26 | the stored key has one entry per question, holding that question's `correct`, in question order |
| QuizRoutes.StoreStepFor | app/routes/quiz.py:24-26 | a result with `error` leaves the table alone; a key is stored only for an object without `error` whose `questions` yield it; for a list of questions the key has the list's length and order |
| QuizRoutes.QuizRouter.constructor | app/routes/quiz.py:9 | the table starts empty |
| QuizRoutes.QuizRouter.GenerateQuiz | app/routes/quiz.py:13-28 | unconfigured: error, table unchanged; a stored key replaces any earlier key for the skill (last writer wins); other skills' entries are unchanged; an `error` result or a raise leaves the table unchanged |
| QuizRoutes.QuizRouter.SubmitQuizAsWritten | app/routes/quiz.py:39-51 | unconfigured or no quiz: the two error replies; a found quiz always raises the arity TypeError |
| QuizRoutes.QuizRouter.SubmitQuiz | app/routes/quiz.py:39-51 | unconfigured or no quiz: the error reply, table unchanged; otherwise graded against the stored key and only that skill's entry removed; if scoring raises, the entry stays |
| QuizRoutes.AsWrittenSubmitNeverConsumes | app/routes/quiz.py:45-49 | as written, two submits for a found quiz both raise, and the entry is still there |
| QuizRoutes.SubmitConsumesQuiz | app/routes/quiz.py:42-49 | a graded submit removes the quiz, so a second submit gets "No active quiz found for this skill. Generate a quiz first." |
| QuizRoutes.RegenerateReplacesKey | app/routes/quiz.py:26 | after two generations for one skill, a submit is graded against the second key |
| QuizRoutes.SkillsAreSeparate | app/routes/quiz.py:42-43 | a submit for a skill without a quiz is rejected, and the other skill's quiz is still graded afterwards |

## Findings

| source | as written | input that shows it | evidently intended | confidence | as-written member | corrected member |
|---|---|---|---|---|---|---|
| app/routes/quiz.py:46 | `score_quiz(submission.answers, correct_answers)` passes two arguments to a method that takes three (`answers`, `correct_answers`, `questions`) | any submit for a skill whose quiz was generated: the call raises TypeError, the handler fails with a 500, and `del active_quizzes[skill]` is never reached | the quiz is scored with its questions, then its entry is deleted | high (not executed) | QuizRoutes.AsWrittenSubmitNeverConsumes | QuizRoutes.SubmitConsumesQuiz |

The as-written handler is `QuizRoutes.QuizRouter.SubmitQuizAsWritten`. The
corrected handler is `QuizRoutes.QuizRouter.SubmitQuiz`. It takes the questions
as an explicit parameter, because the table holds only answer keys. Storing the
questions next to the key would supply them equally well.

## Left out

- The chat-completion call (network I/O, model name, temperature, token limit) is the parameter `complete`. Its failure, including a reply whose content is missing, is a `Failure` carrying the exception text.
- `json.loads` is the parameter `parse`. No JSON parser is modelled.
- The fixed instruction text of both prompts is not represented. A prompt is the datatype of the sections interpolated into it: the target role and the four rendered sections, or the skill name.
- Scorer.Score: uses the exact integer quotient `(c*100)/t`. Python computes `int((c/t)*100)` in floating point, which can come out one lower (for example c=29, t=100 gives 28 in Python, not 29). The two agree when `t` is a power of two, as for the four-question quiz.
- JSON numbers are integers. Floating-point values and dict key order are not represented.
- QuizRoutes.StoreStepFor: a `correct` field that is not an integer or boolean is treated as raising. The source would store it in the table.
- QuizRoutes.StoreStepFor: the texts of the exceptions raised while reading a malformed result are short descriptions, not Python's exact messages.
- Scorer.DetailAt: questions are records whose `q`, `options` and `difficulty` may be missing. A question that is not a dict, or `options` that is not a list of strings, is not represented.
- Concurrent requests sharing `active_quizzes` under the web server's thread pool are not modelled. Each handler runs as one atomic method.
- Loading the key from `.env` / the environment is not modelled. The key is the `AIClient` value the router is built with.
- The analysis route, the other CRUD routes, the ORM models and schemas, the seeding script and the Streamlit front end are not part of this model.
