/**
 * `score_quiz`: count the answers that match the key, turn the count into a
 * 0-100 score, map the score to a suggested level 1-5, and build one detail
 * record per question.
 */
module Scorer {
  import opened Wrappers

  /**
   * A generated question as the scorer reads it. Each field is `None` when the
   * key is missing, and the scorer then falls back as `dict.get` does.
   */
  datatype Question = Question(q: Option<string>, options: Option<seq<string>>, difficulty: Option<string>)

  datatype DetailedResult = DetailedResult(
    questionNumber: int,
    question: string,
    userAnswer: string,
    correctAnswer: string,
    isCorrect: bool,
    difficulty: string)

  datatype QuizResult = QuizResult(
    score: int,
    suggestedLevel: int,
    aiUsed: bool,
    detailedResults: seq<DetailedResult>)

  /** The texts of the two exceptions `score_quiz` can raise. */
  const ZeroDivisionMessage := "division by zero"
  const IndexErrorMessage := "list index out of range"

  function Options(q: Question): seq<string> {
    q.options.GetOr([])
  }

  function Min(a: int, b: int): int {
    if a <= b then a else b
  }

  /** How many pairs `zip` forms from three lists: the shortest length. */
  function ZipLength<A, B, C>(xs: seq<A>, ys: seq<B>, zs: seq<C>): (n: nat)
    ensures n <= |xs| && n <= |ys| && n <= |zs|
    ensures n == |xs| || n == |ys| || n == |zs|
  {
    Min(Min(|xs|, |ys|), |zs|)
  }

  /** The number of matching pairs among the first `k` answer/key pairs. */
  function MatchesIn(answers: seq<int>, correct: seq<int>, k: nat): (n: nat)
    requires k <= |answers| && k <= |correct|
    ensures n <= k
  {
    if k == 0 then 0
    else MatchesIn(answers, correct, k - 1) + (if answers[k - 1] == correct[k - 1] then 1 else 0)
  }

  /** `correct_count`: matching pairs over `zip(answers, correct_answers)`. */
  function CorrectCount(answers: seq<int>, correct: seq<int>): (n: nat)
    ensures n <= |answers| && n <= |correct|
  {
    MatchesIn(answers, correct, Min(|answers|, |correct|))
  }

  /** The positions where the submitted answer equals the key. */
  function MatchPositions(answers: seq<int>, correct: seq<int>): set<int> {
    set i | 0 <= i < |answers| && i < |correct| && answers[i] == correct[i]
  }

  lemma {:induction false} MatchesInIsCount(answers: seq<int>, correct: seq<int>, k: nat)
    requires k <= |answers| && k <= |correct|
    ensures MatchesIn(answers, correct, k) == |set i | 0 <= i < k && answers[i] == correct[i]|
  {
    if k > 0 {
      MatchesInIsCount(answers, correct, k - 1);
      var before := set i | 0 <= i < k - 1 && answers[i] == correct[i];
      var upto := set i | 0 <= i < k && answers[i] == correct[i];
      if answers[k - 1] == correct[k - 1] {
        assert upto == before + {k - 1};
      } else {
        assert upto == before;
      }
    }
  }

  /** The correct count is the number of positions where answer and key agree. */
  lemma CorrectCountIsMatchCount(answers: seq<int>, correct: seq<int>)
    ensures CorrectCount(answers, correct) == |MatchPositions(answers, correct)|
  {
    var k := Min(|answers|, |correct|);
    MatchesInIsCount(answers, correct, k);
    assert MatchPositions(answers, correct) == set i | 0 <= i < k && answers[i] == correct[i];
  }

  /**
   * `score`: the percentage of correct answers, rounded down. Python computes
   * it in floating point; here it is the exact integer quotient.
   */
  function Score(count: nat, total: nat): (s: int)
    requires total > 0
    ensures s * total <= count * 100 < (s + 1) * total
    ensures count <= total ==> 0 <= s <= 100
  {
    ScoreBounds(count, total);
    (count * 100) / total
  }

  lemma ScoreBounds(count: nat, total: nat)
    requires total > 0
    ensures var s := (count * 100) / total;
      && s * total <= count * 100 < (s + 1) * total
      && (count <= total ==> 0 <= s <= 100)
  {
    var s := (count * 100) / total;
    assert count * 100 == s * total + (count * 100) % total;
  }

  /** The score thresholds of levels 2 to 5, in increasing order. */
  const LevelThresholds: seq<int> := [40, 60, 75, 90]

  /** How many of the thresholds `score` reaches. */
  function Reached(thresholds: seq<int>, score: int): (n: nat)
    ensures n <= |thresholds|
  {
    if |thresholds| == 0 then 0
    else (if thresholds[0] <= score then 1 else 0) + Reached(thresholds[1..], score)
  }

  /**
   * `suggested_level`: 5 from 90, 4 from 75, 3 from 60, 2 from 40, else 1,
   * which is one more than the number of thresholds the score reaches.
   */
  function SuggestedLevel(score: int): (level: int)
    ensures 1 <= level <= 5
    ensures level == 1 + Reached(LevelThresholds, score)
  {
    ThresholdsReached(score);
    if score >= 90 then 5
    else if score >= 75 then 4
    else if score >= 60 then 3
    else if score >= 40 then 2
    else 1
  }

  lemma ThresholdsReached(score: int)
    ensures Reached(LevelThresholds, score)
         == (if 40 <= score then 1 else 0) + (if 60 <= score then 1 else 0)
          + (if 75 <= score then 1 else 0) + (if 90 <= score then 1 else 0)
  {
    var t := LevelThresholds;
    assert t[1..] == [60, 75, 90];
    assert t[1..][1..] == [75, 90];
    assert t[1..][1..][1..] == [90];
    assert t[1..][1..][1..][1..] == [];
    assert Reached([90], score) == if 90 <= score then 1 else 0;
    assert Reached([75, 90], score) == (if 75 <= score then 1 else 0) + Reached([90], score);
    assert Reached([60, 75, 90], score) == (if 60 <= score then 1 else 0) + Reached([75, 90], score);
  }

  lemma {:induction false} ReachedMonotone(thresholds: seq<int>, s1: int, s2: int)
    requires s1 <= s2
    ensures Reached(thresholds, s1) <= Reached(thresholds, s2)
  {
    if |thresholds| > 0 {
      ReachedMonotone(thresholds[1..], s1, s2);
    }
  }

  /** A higher score never suggests a lower level. */
  lemma LevelMonotone(s1: int, s2: int)
    requires s1 <= s2
    ensures SuggestedLevel(s1) <= SuggestedLevel(s2)
  {
    ReachedMonotone(LevelThresholds, s1, s2);
  }

  /** Each boundary belongs to the level above it. */
  lemma LevelBoundaries()
    ensures SuggestedLevel(90) == 5 && SuggestedLevel(89) == 4
    ensures SuggestedLevel(75) == 4 && SuggestedLevel(74) == 3
    ensures SuggestedLevel(60) == 3 && SuggestedLevel(59) == 2
    ensures SuggestedLevel(40) == 2 && SuggestedLevel(39) == 1
  {
  }

  /** Python's `xs[i]`: a negative index counts from the end; beyond either end it raises. */
  function PyIndex(xs: seq<string>, i: int): Option<string> {
    if 0 <= i < |xs| then Some(xs[i])
    else if -|xs| <= i < 0 then Some(xs[|xs| + i])
    else None
  }

  /** `options[i] if i < len(options) else fallback`; `None` when the indexing raises. */
  function OptionText(options: seq<string>, i: int, fallback: string): Option<string> {
    if i < |options| then PyIndex(options, i) else Some(fallback)
  }

  /**
   * The detail record for question `i` (0-based), or `None` when an index
   * below `-len(options)` makes Python raise.
   */
  function DetailAt(i: nat, a: int, c: int, q: Question): (r: Option<DetailedResult>)
    ensures r.Some? <==> a >= -|Options(q)| && c >= -|Options(q)|
    ensures r.Some? ==>
      && r.value.questionNumber == i + 1
      && r.value.isCorrect == (a == c)
      && r.value.question == q.q.GetOr("")
      && r.value.difficulty == q.difficulty.GetOr("unknown")
    ensures r.Some? ==>
      && (0 <= a < |Options(q)| ==> r.value.userAnswer == Options(q)[a])
      && (a < 0 ==> r.value.userAnswer == Options(q)[|Options(q)| + a])
      && (a >= |Options(q)| ==> r.value.userAnswer == "Invalid")
      && (0 <= c < |Options(q)| ==> r.value.correctAnswer == Options(q)[c])
      && (c < 0 ==> r.value.correctAnswer == Options(q)[|Options(q)| + c])
      && (c >= |Options(q)| ==> r.value.correctAnswer == "Unknown")
  {
    var opts := Options(q);
    var user := OptionText(opts, a, "Invalid");
    var key := OptionText(opts, c, "Unknown");
    if user.Some? && key.Some? then
      Some(DetailedResult(i + 1, q.q.GetOr(""), user.value, key.value, a == c,
                          q.difficulty.GetOr("unknown")))
    else
      None
  }

  /** Every question that `zip` reaches has a detail record. */
  predicate AllDetailsDefined(answers: seq<int>, correct: seq<int>, questions: seq<Question>) {
    forall i :: 0 <= i < ZipLength(answers, correct, questions) ==>
      DetailAt(i, answers[i], correct[i], questions[i]).Some?
  }

  /**
   * What `score_quiz` returns, or the exception it raises: an empty key
   * divides by zero, an index below `-len(options)` is out of range.
   */
  function ScoreResult(answers: seq<int>, correct: seq<int>, questions: seq<Question>): (r: Result<QuizResult, string>)
    ensures r.Success? <==> |correct| > 0 && AllDetailsDefined(answers, correct, questions)
    ensures |correct| == 0 ==> r == Failure(ZeroDivisionMessage)
    ensures |correct| > 0 && !AllDetailsDefined(answers, correct, questions) ==> r == Failure(IndexErrorMessage)
    ensures r.Success? ==>
      var res := r.value;
      && res.score == Score(CorrectCount(answers, correct), |correct|)
      && 0 <= res.score <= 100
      && res.suggestedLevel == SuggestedLevel(res.score)
      && res.aiUsed
      && |res.detailedResults| == ZipLength(answers, correct, questions)
      && forall i :: 0 <= i < |res.detailedResults| ==>
           Some(res.detailedResults[i]) == DetailAt(i, answers[i], correct[i], questions[i])
  {
    if |correct| == 0 then Failure(ZeroDivisionMessage)
    else if !AllDetailsDefined(answers, correct, questions) then Failure(IndexErrorMessage)
    else
      var score := Score(CorrectCount(answers, correct), |correct|);
      var n := ZipLength(answers, correct, questions);
      Success(QuizResult(score, SuggestedLevel(score), true,
        seq(n, i requires 0 <= i < n => DetailAt(i, answers[i], correct[i], questions[i]).value)))
  }

  /** `score_quiz`, building the detail records one question at a time. */
  method ScoreQuiz(answers: seq<int>, correct: seq<int>, questions: seq<Question>)
    returns (r: Result<QuizResult, string>)
    ensures r == ScoreResult(answers, correct, questions)
  {
    var total := |correct|;
    if total == 0 {
      return Failure(ZeroDivisionMessage);
    }
    var score := Score(CorrectCount(answers, correct), total);
    var level := SuggestedLevel(score);
    var n := ZipLength(answers, correct, questions);
    var details: seq<DetailedResult> := [];
    var i := 0;
    while i < n
      invariant 0 <= i <= n
      invariant |details| == i
      invariant forall j :: 0 <= j < i ==> Some(details[j]) == DetailAt(j, answers[j], correct[j], questions[j])
    {
      var d := DetailAt(i, answers[i], correct[i], questions[i]);
      if d.None? {
        assert !AllDetailsDefined(answers, correct, questions);
        return Failure(IndexErrorMessage);
      }
      details := details + [d.value];
      i := i + 1;
    }
    assert AllDetailsDefined(answers, correct, questions);
    assert details == seq(n, j requires 0 <= j < n => DetailAt(j, answers[j], correct[j], questions[j]).value);
    r := Success(QuizResult(score, level, true, details));
  }

  /**
   * Four answers `[0, 1, 2, 3]` against the key `[0, 1, 0, 3]`: three right,
   * score 75, level 4, and the third question marked wrong.
   */
  lemma FourQuestionExample(options: seq<string>)
    requires |options| == 4
    ensures var q := Question(Some("?"), Some(options), Some("beginner"));
      var r := ScoreResult([0, 1, 2, 3], [0, 1, 0, 3], [q, q, q, q]);
      && r.Success?
      && r.value.score == 75
      && r.value.suggestedLevel == 4
      && !r.value.detailedResults[2].isCorrect
      && r.value.detailedResults[2].userAnswer == options[2]
      && r.value.detailedResults[2].correctAnswer == options[0]
  {
    var answers, correct := [0, 1, 2, 3], [0, 1, 0, 3];
    assert CorrectCount(answers, correct) == 3 by {
      assert MatchesIn(answers, correct, 4) == 3;
    }
  }
}
