/**
 * The "10-Year Bet" quiz (`TenYearBetGame`): questions are answered in
 * order, one answer per question, correct answers are counted, and the
 * final score is turned into one of four messages.
 */
module TenYearBet {
  import opened Common

  datatype AnswerChoice = Outperform | Average | Underperform

  datatype BetQuestion = BetQuestion(id: int, company: string, headline: string, correctAnswer: AnswerChoice)

  /** One answered question as the game records it. */
  datatype AnswerRecord = AnswerRecord(question: BetQuestion, answer: AnswerChoice, isCorrect: bool)

  /** The number of records marked correct. */
  function CountCorrect(answers: seq<AnswerRecord>): (n: nat)
    ensures n <= |answers|
  {
    if answers == [] then 0
    else CountCorrect(answers[..|answers| - 1]) + (if answers[|answers| - 1].isCorrect then 1 else 0)
  }

  /** Appending one record adds one to the count exactly when that record is correct. */
  lemma CountCorrectAppend(answers: seq<AnswerRecord>, a: AnswerRecord)
    ensures CountCorrect(answers + [a]) == CountCorrect(answers) + (if a.isCorrect then 1 else 0)
  {
    assert (answers + [a])[..|answers|] == answers;
  }

  /** The four closing messages, from best to worst. */
  datatype Tier = Visionary | GreatInsight | Decent | KeepLearning

  function Message(t: Tier): string {
    match t
    case Visionary => "\U{1F3C6} You're an Investment Visionary!"
    case GreatInsight => "\U{1F4C8} Great Market Insight!"
    case Decent => "\U{1F4CA} Decent Understanding!"
    case KeepLearning => "\U{1F4DA} Keep Learning!"
  }

  /** Higher is better. */
  function TierRank(t: Tier): nat {
    match t
    case KeepLearning => 0
    case Decent => 1
    case GreatInsight => 2
    case Visionary => 3
  }

  /**
   * `getScoreMessage`: the tier of a score by its percentage of the total,
   * at thresholds of 80, 60 and 40 per cent.
   */
  function ScoreTier(score: int, total: int): (t: Tier)
    requires total > 0
    ensures t == Visionary <==> 100 * score >= 80 * total
    ensures t == GreatInsight <==> 60 * total <= 100 * score < 80 * total
    ensures t == Decent <==> 40 * total <= 100 * score < 60 * total
    ensures t == KeepLearning <==> 100 * score < 40 * total
  {
    var percentage := score as real / total as real * 100.0;
    PercentageAtLeast(score, total, 80);
    PercentageAtLeast(score, total, 60);
    PercentageAtLeast(score, total, 40);
    if percentage >= 80.0 then Visionary
    else if percentage >= 60.0 then GreatInsight
    else if percentage >= 40.0 then Decent
    else KeepLearning
  }

  /** A percentage of at least c is the same as 100 * score >= c * total. */
  lemma PercentageAtLeast(score: int, total: int, c: int)
    requires total > 0
    ensures score as real / total as real * 100.0 >= c as real <==> 100 * score >= c * total
  {
    var t := total as real;
    assert score as real / t * 100.0 * t == 100.0 * score as real;
  }

  /** A better score never earns a worse message. */
  lemma ScoreTierMonotone(s1: int, s2: int, total: int)
    requires total > 0 && s1 <= s2
    ensures TierRank(ScoreTier(s1, total)) <= TierRank(ScoreTier(s2, total))
  {
  }

  /** `progress`: the share of questions reached, the current one included, in per cent. */
  function Progress(index: int, total: int): (p: real)
    requires total > 0
    ensures 0 <= index < total ==> 0.0 < p <= 100.0
    ensures p == 100.0 <==> index + 1 == total
  {
    (index + 1) as real / total as real * 100.0
  }

  /** Each further question moves the bar by the same step. */
  lemma ProgressStep(index: int, total: int)
    requires total > 0
    ensures Progress(index + 1, total) - Progress(index, total) == 100.0 / total as real
  {
  }

  class Game {
    const questions: seq<BetQuestion>

    var currentQuestionIndex: int
    var selectedAnswer: Option<AnswerChoice>
    var showResult: bool
    var isCorrect: Option<bool>
    var correctCount: int
    var gameCompleted: bool
    var answers: seq<AnswerRecord>

    /** The index stays on a question, and the count agrees with the records. */
    ghost predicate Valid()
      reads this
    {
      0 <= currentQuestionIndex < |questions|
      && correctCount == CountCorrect(answers)
    }

    constructor (questions: seq<BetQuestion>)
      requires |questions| > 0
      ensures Valid() && this.questions == questions
      ensures currentQuestionIndex == 0 && selectedAnswer == None && !showResult && isCorrect == None
      ensures correctCount == 0 && !gameCompleted && answers == []
    {
      this.questions := questions;
      currentQuestionIndex := 0;
      selectedAnswer := None;
      showResult := false;
      isCorrect := None;
      correctCount := 0;
      gameCompleted := false;
      answers := [];
    }

    /**
     * `handleAnswer`: ignored (reporting nothing) once an answer is
     * selected; otherwise the answer is marked, recorded and counted, and
     * whether it was right is reported to the parent.
     */
    method HandleAnswer(answer: AnswerChoice) returns (reported: Option<bool>)
      requires Valid()
      modifies this
      ensures Valid()
      ensures old(selectedAnswer).Some? ==>
        reported == None && selectedAnswer == old(selectedAnswer) && showResult == old(showResult) && isCorrect == old(isCorrect)
        && correctCount == old(correctCount) && answers == old(answers)
      ensures old(selectedAnswer).None? ==>
        var correct := answer == questions[currentQuestionIndex].correctAnswer;
        reported == Some(correct) && selectedAnswer == Some(answer) && showResult && isCorrect == Some(correct)
        && answers == old(answers) + [AnswerRecord(questions[currentQuestionIndex], answer, correct)]
        && correctCount == old(correctCount) + (if correct then 1 else 0)
      ensures currentQuestionIndex == old(currentQuestionIndex) && gameCompleted == old(gameCompleted)
    {
      if selectedAnswer.Some? {
        return None;
      }
      var currentQuestion := questions[currentQuestionIndex];
      var correct := answer == currentQuestion.correctAnswer;
      var record := AnswerRecord(currentQuestion, answer, correct);
      CountCorrectAppend(answers, record);
      selectedAnswer, isCorrect, showResult := Some(answer), Some(correct), true;
      if correct {
        correctCount := correctCount + 1;
      }
      answers := answers + [record];
      reported := Some(correct);
    }

    /**
     * `handleNext`: moves to the next question with a clean slate, or, on
     * the last question, ends the game and stays where it is.
     */
    method HandleNext()
      requires Valid()
      modifies this
      ensures Valid()
      ensures old(currentQuestionIndex) < |questions| - 1 ==>
        currentQuestionIndex == old(currentQuestionIndex) + 1 && selectedAnswer == None
        && !showResult && isCorrect == None && gameCompleted == old(gameCompleted)
      ensures old(currentQuestionIndex) == |questions| - 1 ==>
        gameCompleted && currentQuestionIndex == old(currentQuestionIndex)
        && selectedAnswer == old(selectedAnswer) && showResult == old(showResult) && isCorrect == old(isCorrect)
      ensures correctCount == old(correctCount) && answers == old(answers)
    {
      if currentQuestionIndex < |questions| - 1 {
        currentQuestionIndex := currentQuestionIndex + 1;
        selectedAnswer := None;
        showResult := false;
        isCorrect := None;
      } else {
        gameCompleted := true;
      }
    }

    /** The closing message for the score so far. */
    function FinalTier(): (t: Tier)
      requires Valid()
      reads this
      ensures t == Visionary <==> 100 * CountCorrect(answers) >= 80 * |questions|
    {
      ScoreTier(correctCount, |questions|)
    }
  }
}
