/**
 * The student's quiz page: the list / taking / results flow driven by five
 * state cells, and the score, `Math.round` of the points earned, each correct
 * answer earning `totalPoints / n` of a quiz with n questions.
 *
 * Arithmetic is exact: the per-question share and the running score are
 * reals, where the page accumulates floating-point numbers.
 */
module Quizzes {
  import opened Wrappers
  import opened Types

  /** The answer array of the page; `None` is a slot holding `undefined` (or a hole). */
  type Answers = seq<Option<int>>

  /** Reading slot `i`; past the end the value is `undefined`. */
  function AnswerAt(answers: Answers, i: nat): Option<int> {
    if i < |answers| then answers[i] else None
  }

  /**
   * `handleAnswerSelect`'s array update: copy, then assign slot `i`. Assigning
   * past the end lengthens the array and leaves `undefined` in between.
   */
  function SetAnswer(answers: Answers, i: nat, a: int): (r: Answers)
    ensures |r| == if i < |answers| then |answers| else i + 1
    ensures AnswerAt(r, i) == Some(a)
    ensures forall j: nat :: j != i ==> AnswerAt(r, j) == AnswerAt(answers, j)
  {
    if i < |answers| then answers[i := Some(a)]
    else answers + seq(i - |answers|, _ => None) + [Some(a)]
  }

  /** Question `i` is answered with its correct option. */
  predicate IsCorrect(qs: seq<QuizQuestion>, answers: Answers, i: nat)
    requires i < |qs|
  {
    AnswerAt(answers, i) == Some(qs[i].correctAnswer)
  }

  /** How many of the first `m` questions are answered correctly. */
  function CorrectBelow(qs: seq<QuizQuestion>, answers: Answers, m: nat): (k: nat)
    requires m <= |qs|
    ensures k <= m
    ensures k == m <==> forall i :: 0 <= i < m ==> IsCorrect(qs, answers, i)
  {
    if m == 0 then 0
    else CorrectBelow(qs, answers, m - 1) + (if IsCorrect(qs, answers, m - 1) then 1 else 0)
  }

  /** The k of the scoring rule: correctly answered questions of the quiz. */
  function CorrectCount(qs: seq<QuizQuestion>, answers: Answers): (k: nat)
    ensures k <= |qs|
  {
    CorrectBelow(qs, answers, |qs|)
  }

  /** `Math.round`: the integer nearest to `x`, halves rounded up. */
  function Round(x: real): (r: int)
    ensures r as real <= x + 0.5 < r as real + 1.0
  {
    (x + 0.5).Floor
  }

  /** What one correct answer earns: `totalPoints / n` (never needed when n is 0). */
  function Share(total: int, n: nat): real {
    if n == 0 then 0.0 else total as real / n as real
  }

  /** The score for k correct answers: round(k * totalPoints / n). */
  function QuizScore(k: nat, n: nat, total: int): int {
    Round(k as real * Share(total, n))
  }

  /** The score a quiz earns with the given answers. */
  function FinalScore(quiz: Quiz, answers: Answers): (r: int)
    ensures 0 <= quiz.totalPoints ==> 0 <= r <= quiz.totalPoints
  {
    var k := CorrectCount(quiz.questions, answers);
    if 0 <= quiz.totalPoints then
      ScoreBounds(k, |quiz.questions|, quiz.totalPoints);
      QuizScore(k, |quiz.questions|, quiz.totalPoints)
    else
      QuizScore(k, |quiz.questions|, quiz.totalPoints)
  }

  /** The score lies between 0 and the quiz's total points. */
  lemma ScoreBounds(k: nat, n: nat, total: int)
    requires k <= n && 0 <= total
    ensures 0 <= QuizScore(k, n, total) <= total
  {
    if n > 0 {
      var q := Share(total, n);
      assert n as real * q == total as real;
      assert 0.0 <= k as real * q <= n as real * q;
    }
  }

  /** More correct answers never lower the score. */
  lemma ScoreMonotone(k1: nat, k2: nat, n: nat, total: int)
    requires k1 <= k2 && 0 <= total
    ensures QuizScore(k1, n, total) <= QuizScore(k2, n, total)
  {
    var q := Share(total, n);
    assert 0.0 <= q;
    assert k1 as real * q <= k2 as real * q;
  }

  /** All n answers correct earns every point. */
  lemma ScoreAllCorrect(n: nat, total: int)
    requires 0 < n
    ensures QuizScore(n, n, total) == total
  {
    assert n as real * Share(total, n) == total as real;
  }

  /** The floor of an exact quotient is the integer quotient. */
  lemma FloorOfQuotient(a: int, d: int)
    requires 0 < d
    ensures (a as real / d as real).Floor == a / d
  {
    var q, m := a / d, a % d;
    assert a == d * q + m && 0 <= m < d;
    assert (d * q) as real == d as real * q as real;
    assert a as real / d as real == q as real + m as real / d as real;
    assert 0.0 <= m as real / d as real < 1.0;
  }

  /** The same score in integer arithmetic: round(k * total / n) == (2 k total + n) div 2n. */
  lemma ScoreInIntegers(k: nat, n: nat, total: int)
    requires 0 < n
    ensures QuizScore(k, n, total) == (2 * k * total + n) / (2 * n)
  {
    var a := 2 * k * total + n;
    var share := Share(total, n);
    var x := k as real * share + 0.5;
    var d := (2 * n) as real;
    assert n as real * share == total as real;
    assert (k * total) as real == k as real * total as real;
    assert a as real == 2.0 * (k as real * total as real) + n as real;
    assert x * d == 2.0 * k as real * (n as real * share) + n as real;
    assert x * d == a as real;
    assert x == a as real / d;
    FloorOfQuotient(a, 2 * n);
  }

  /** The running sum of `finishQuiz`: one share added per correct question among the first `m`. */
  function SharesBelow(qs: seq<QuizQuestion>, answers: Answers, m: nat, share: real): real
    requires m <= |qs|
  {
    if m == 0 then 0.0
    else SharesBelow(qs, answers, m - 1, share) + (if IsCorrect(qs, answers, m - 1) then share else 0.0)
  }

  /** Adding the share once per correct answer is multiplying it by their number. */
  lemma {:induction false} SharesBelowIsProduct(qs: seq<QuizQuestion>, answers: Answers, m: nat, share: real)
    requires m <= |qs|
    ensures SharesBelow(qs, answers, m, share) == CorrectBelow(qs, answers, m) as real * share
  {
    SharesBelowIsTimes(qs, answers, m, share);
    TimesIsProduct(CorrectBelow(qs, answers, m), share);
  }

  /** `k` shares added one after the other. */
  function Times(k: nat, share: real): real {
    if k == 0 then 0.0 else Times(k - 1, share) + share
  }

  lemma {:induction false} SharesBelowIsTimes(qs: seq<QuizQuestion>, answers: Answers, m: nat, share: real)
    requires m <= |qs|
    ensures SharesBelow(qs, answers, m, share) == Times(CorrectBelow(qs, answers, m), share)
  {
    if m > 0 {
      SharesBelowIsTimes(qs, answers, m - 1, share);
    }
  }

  lemma {:induction false} TimesIsProduct(k: nat, share: real)
    ensures Times(k, share) == k as real * share
  {
    if k > 0 {
      TimesIsProduct(k - 1, share);
      assert k as real * share == (k - 1) as real * share + share;
    }
  }

  /** The running sum over the whole quiz is k shares, and its rounding is the final score. */
  lemma SharesOfQuiz(quiz: Quiz, answers: Answers)
    ensures SharesBelow(quiz.questions, answers, |quiz.questions|, Share(quiz.totalPoints, |quiz.questions|))
            == CorrectCount(quiz.questions, answers) as real * Share(quiz.totalPoints, |quiz.questions|)
    ensures Round(SharesBelow(quiz.questions, answers, |quiz.questions|, Share(quiz.totalPoints, |quiz.questions|)))
            == FinalScore(quiz, answers)
  {
    SharesBelowIsProduct(quiz.questions, answers, |quiz.questions|, Share(quiz.totalPoints, |quiz.questions|));
  }

  /**
   * `finishQuiz`'s `forEach`: adds the share once per question whose slot
   * equals its correct answer.
   */
  method AccumulateScore(quiz: Quiz, answers: Answers) returns (score: real)
    ensures score == CorrectCount(quiz.questions, answers) as real * Share(quiz.totalPoints, |quiz.questions|)
    ensures Round(score) == FinalScore(quiz, answers)
  {
    var qs := quiz.questions;
    ghost var share := Share(quiz.totalPoints, |qs|);
    score := 0.0;
    var index := 0;
    while index < |qs|
      invariant 0 <= index <= |qs|
      invariant score == SharesBelow(qs, answers, index, share)
    {
      if AnswerAt(answers, index) == Some(qs[index].correctAnswer) {
        assert share == quiz.totalPoints as real / |qs| as real;
        score := score + quiz.totalPoints as real / |qs| as real;
      }
      index := index + 1;
    }
    SharesOfQuiz(quiz, answers);
  }

  /** The first `m` slots of the array that hold the correct answer, as the results view's `filter` counts them. */
  function FilteredCorrect(qs: seq<QuizQuestion>, answers: Answers, m: nat): nat
    requires m <= |answers| && m <= |qs|
  {
    if m == 0 then 0
    else FilteredCorrect(qs, answers, m - 1) + (if answers[m - 1] == Some(qs[m - 1].correctAnswer) then 1 else 0)
  }

  /**
   * The results view's count of correct answers. The `filter` reads the
   * question at every index of the array, so an array longer than the quiz
   * throws (`None`).
   */
  function ResultsCorrectCount(qs: seq<QuizQuestion>, answers: Answers): (r: Option<nat>)
    ensures r.Some? <==> |answers| <= |qs|
    ensures r.Some? ==> r.value == CorrectCount(qs, answers) <= |qs|
  {
    if |answers| > |qs| then None
    else
      FilteredAgreesBelow(qs, answers, |answers|);
      NoCorrectPastEnd(qs, answers, |qs|);
      Some(FilteredCorrect(qs, answers, |answers|))
  }

  lemma {:induction false} FilteredAgreesBelow(qs: seq<QuizQuestion>, answers: Answers, m: nat)
    requires m <= |answers| <= |qs|
    ensures FilteredCorrect(qs, answers, m) == CorrectBelow(qs, answers, m)
  {
    if m > 0 {
      FilteredAgreesBelow(qs, answers, m - 1);
    }
  }

  lemma {:induction false} NoCorrectPastEnd(qs: seq<QuizQuestion>, answers: Answers, m: nat)
    requires |answers| <= m <= |qs|
    ensures CorrectBelow(qs, answers, m) == CorrectBelow(qs, answers, |answers|)
  {
    if m > |answers| {
      NoCorrectPastEnd(qs, answers, m - 1);
    }
  }

  /** When the array fits the quiz, the results count is the k used in scoring, at most n. */
  lemma ResultsCountIsScoringCount(qs: seq<QuizQuestion>, answers: Answers)
    requires |answers| <= |qs|
    ensures ResultsCorrectCount(qs, answers) == Some(CorrectCount(qs, answers))
    ensures CorrectCount(qs, answers) <= |qs|
  {
    FilteredAgreesBelow(qs, answers, |answers|);
    NoCorrectPastEnd(qs, answers, |qs|);
  }

  /** The slots below `m` all hold an answer. */
  predicate AnsweredBefore(answers: Answers, m: nat) {
    forall i: nat :: i < m ==> AnswerAt(answers, i).Some?
  }

  /** The three interfaces of the page. */
  datatype Screen = QuizList | Taking | Results

  /** The quizzes the page lists. */
  const SampleQuizzes: seq<Quiz> := [
    Quiz("1", "Water Conservation Basics",
         "Test your knowledge about water conservation techniques and their environmental impact.",
         [QuizQuestion("1", "What percentage of Earth's water is fresh water available for human use?",
                       ["10%", "3%", "1%", "25%"], 2, "Less than 1% of Earth's water is fresh water that is accessible for human use. Most water is in oceans or frozen in ice caps."),
          QuizQuestion("2", "Which household activity typically uses the most water?",
                       ["Showering", "Toilet flushing", "Laundry", "Dishwashing"], 1, "Toilet flushing accounts for nearly 30% of household water use, making it the largest single use of water indoors."),
          QuizQuestion("3", "How much water can a running faucet waste per minute?",
                       ["1 gallon", "2.5 gallons", "5 gallons", "0.5 gallons"], 1, "A running faucet can waste 2.5 gallons of water per minute, which adds up quickly!"),
          QuizQuestion("4", "What is greywater?",
                       ["Polluted river water", "Wastewater from sinks and showers", "Rainwater", "Drinking water"],
                       1, "Greywater is wastewater from bathtubs, showers, bathroom sinks, and washing machines that can be recycled for irrigation.")],
         100, None, None),
    Quiz("2", "Climate Change Fundamentals", "Explore the science behind climate change and its global impacts.",
         [QuizQuestion("1", "What is the primary greenhouse gas contributing to climate change?",
                       ["Methane", "Carbon Dioxide", "Nitrous Oxide", "Water Vapor"], 1, "While water vapor is the most abundant greenhouse gas, CO2 is the primary driver of human-caused climate change.")],
         150, Some("2024-01-18"), Some(125)),
    Quiz("3", "Renewable Energy Systems", "Learn about different types of renewable energy and their benefits.",
         [QuizQuestion("1", "Which renewable energy source has the fastest growing capacity worldwide?",
                       ["Wind", "Solar", "Hydroelectric", "Geothermal"], 1, "Solar energy has experienced the fastest growth in recent years due to decreasing costs and improving technology.")],
         120, None, None)
  ]

  /** Three of the four water questions right earns 75 of its 100 points. */
  lemma WaterQuizThreeOfFour()
    ensures FinalScore(SampleQuizzes[0], [Some(2), Some(1), Some(0), Some(1)]) == 75
  {
    var qs := SampleQuizzes[0].questions;
    var answers: Answers := [Some(2), Some(1), Some(0), Some(1)];
    assert CorrectBelow(qs, answers, 4) == 3;
    ScoreInIntegers(3, 4, 100);
  }

  /** The five state cells of the page. */
  class QuizzesPage {
    var selectedQuiz: Option<Quiz>
    var currentQuestionIndex: nat
    var selectedAnswers: Answers
    var showResults: bool
    var quizScore: int

    /**
     * While a quiz with questions is selected, the index is on one of its
     * questions and no answer slot lies past the last question; and the
     * score of a selected quiz with non-negative points stays within them.
     */
    predicate Valid()
      reads this
    {
      && (selectedQuiz.Some? && |selectedQuiz.value.questions| > 0 ==>
            currentQuestionIndex < |selectedQuiz.value.questions|
            && |selectedAnswers| <= |selectedQuiz.value.questions|)
      && (selectedQuiz.Some? && 0 <= selectedQuiz.value.totalPoints ==>
            0 <= quizScore <= selectedQuiz.value.totalPoints)
    }

    /** Which interface is rendered. */
    function CurrentScreen(): Screen
      reads this
    {
      if selectedQuiz.Some? && !showResults then Taking
      else if showResults && selectedQuiz.Some? then Results
      else QuizList
    }

    /** The Next / Finish button is enabled once the current question has an answer. */
    predicate NextEnabled()
      reads this
    {
      AnswerAt(selectedAnswers, currentQuestionIndex).Some?
    }

    constructor ()
      ensures Valid() && CurrentScreen() == QuizList
      ensures selectedQuiz.None? && currentQuestionIndex == 0 && selectedAnswers == []
      ensures !showResults && quizScore == 0
    {
      selectedQuiz := None;
      currentQuestionIndex := 0;
      selectedAnswers := [];
      showResults := false;
      quizScore := 0;
    }

    /** `startQuiz(quiz)`. */
    method StartQuiz(quiz: Quiz)
      modifies this
      ensures Valid() && CurrentScreen() == Taking
      ensures selectedQuiz == Some(quiz) && currentQuestionIndex == 0 && selectedAnswers == []
      ensures !showResults && quizScore == 0
    {
      selectedQuiz := Some(quiz);
      currentQuestionIndex := 0;
      selectedAnswers := [];
      showResults := false;
      quizScore := 0;
    }

    /** `handleAnswerSelect(answerIndex)`: only the current slot changes, and advancing becomes possible. */
    method HandleAnswerSelect(answerIndex: int)
      requires Valid()
      modifies this
      ensures Valid() && NextEnabled()
      ensures selectedAnswers == SetAnswer(old(selectedAnswers), old(currentQuestionIndex), answerIndex)
      ensures selectedQuiz == old(selectedQuiz) && currentQuestionIndex == old(currentQuestionIndex)
      ensures showResults == old(showResults) && quizScore == old(quizScore)
    {
      var newAnswers := SetAnswer(selectedAnswers, currentQuestionIndex, answerIndex);
      selectedAnswers := newAnswers;
    }

    /** `finishQuiz()`: nothing without a quiz; otherwise the score is computed and the results shown. */
    method FinishQuiz()
      requires Valid()
      modifies this
      ensures Valid()
      ensures old(selectedQuiz).None? ==>
                && showResults == old(showResults) && quizScore == old(quizScore)
      ensures old(selectedQuiz).Some? ==>
                && showResults && quizScore == FinalScore(old(selectedQuiz).value, old(selectedAnswers))
      ensures selectedQuiz == old(selectedQuiz) && currentQuestionIndex == old(currentQuestionIndex)
      ensures selectedAnswers == old(selectedAnswers)
    {
      if selectedQuiz.None? {
        return;
      }
      var quiz := selectedQuiz.value;
      var score := AccumulateScore(quiz, selectedAnswers);
      quizScore := Round(score);
      showResults := true;
    }

    /**
     * `nextQuestion()`: move to the next question while one is left,
     * otherwise finish. The index never decreases, and advancing from an
     * answered question keeps every question before the index answered.
     */
    method NextQuestion()
      requires Valid()
      modifies this
      ensures Valid()
      ensures currentQuestionIndex >= old(currentQuestionIndex)
      ensures selectedQuiz == old(selectedQuiz) && selectedAnswers == old(selectedAnswers)
      ensures old(selectedQuiz).Some? && old(currentQuestionIndex) < |old(selectedQuiz).value.questions| - 1 ==>
                && currentQuestionIndex == old(currentQuestionIndex) + 1
                && showResults == old(showResults) && quizScore == old(quizScore)
      ensures !(old(selectedQuiz).Some? && old(currentQuestionIndex) < |old(selectedQuiz).value.questions| - 1) ==>
                && currentQuestionIndex == old(currentQuestionIndex)
                && (old(selectedQuiz).None? ==> showResults == old(showResults) && quizScore == old(quizScore))
                && (old(selectedQuiz).Some? ==>
                      showResults && quizScore == FinalScore(old(selectedQuiz).value, old(selectedAnswers)))
      ensures old(NextEnabled() && AnsweredBefore(selectedAnswers, currentQuestionIndex)) ==>
                AnsweredBefore(selectedAnswers, old(currentQuestionIndex) + 1)
    {
      if selectedQuiz.Some? && (currentQuestionIndex as int) < |selectedQuiz.value.questions| - 1 {
        currentQuestionIndex := currentQuestionIndex + 1;
      } else {
        FinishQuiz();
      }
    }

    /** `resetQuiz()`: back to the list with every cell at its start value. */
    method ResetQuiz()
      modifies this
      ensures Valid() && CurrentScreen() == QuizList
      ensures selectedQuiz.None? && currentQuestionIndex == 0 && selectedAnswers == []
      ensures !showResults && quizScore == 0
    {
      selectedQuiz := None;
      currentQuestionIndex := 0;
      selectedAnswers := [];
      showResults := false;
      quizScore := 0;
    }
  }
}
