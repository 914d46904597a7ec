/**
 * The stock-news quiz (`StockNewsQuiz`): a question drawn at random,
 * answered "Yes" or "No", with running counts of questions answered and
 * answers that were right.
 */
module StockNewsQuiz {
  import opened Common

  datatype StockQuestion = StockQuestion(id: int, news: string, question: string, correctAnswer: string)

  /** The question a draw picks, or none from an empty bank. */
  function PickQuestion(bank: seq<StockQuestion>, r: Draw): (q: Option<StockQuestion>)
    ensures q.None? <==> bank == []
    ensures q.Some? ==> q.value in bank && q.value == bank[PickIndex(r, |bank|)]
  {
    if |bank| == 0 then None else Some(bank[PickIndex(r, |bank|)])
  }

  /** Every question of a non-empty bank is picked by some draw. */
  lemma EveryQuestionReachable(bank: seq<StockQuestion>, i: int)
    requires 0 <= i < |bank|
    ensures var r: Draw := i as real / |bank| as real; PickQuestion(bank, r) == Some(bank[i])
  {
    var n := |bank| as real;
    var r: Draw := i as real / n;
    assert r * n == i as real;
  }

  class Quiz {
    const bank: seq<StockQuestion>

    var currentQuestion: Option<StockQuestion>
    var selectedAnswer: Option<string>
    var showExplanation: bool
    var isCorrect: Option<bool>
    var questionCount: int
    var correctCount: int

    /** Right answers never outnumber answers. */
    ghost predicate Valid()
      reads this
    {
      0 <= correctCount <= questionCount
    }

    constructor (bank: seq<StockQuestion>)
      ensures Valid() && this.bank == bank
      ensures currentQuestion == None && selectedAnswer == None && !showExplanation && isCorrect == None
      ensures questionCount == 0 && correctCount == 0
    {
      this.bank := bank;
      currentQuestion := None;
      selectedAnswer := None;
      showExplanation := false;
      isCorrect := None;
      questionCount := 0;
      correctCount := 0;
    }

    /** `loadRandomQuestion`: a drawn question with selection, explanation and verdict cleared. */
    method LoadRandomQuestion(r: Draw)
      modifies this
      ensures currentQuestion == PickQuestion(bank, r)
      ensures selectedAnswer == None && !showExplanation && isCorrect == None
      ensures questionCount == old(questionCount) && correctCount == old(correctCount)
    {
      if |bank| == 0 {
        currentQuestion := None;
      } else {
        var randomIndex := PickIndex(r, |bank|);
        currentQuestion := Some(bank[randomIndex]);
      }
      selectedAnswer := None;
      showExplanation := false;
      isCorrect := None;
    }

    /** The answer buttons are enabled only while nothing is selected. */
    predicate AnswerEnabled()
      reads this
    {
      selectedAnswer.None?
    }

    /**
     * `handleAnswer`: without a question nothing happens; otherwise the
     * answer is marked and judged, both counters are updated and the
     * verdict is reported. The handler itself does not refuse a second
     * answer to the same question; only the disabled buttons do.
     */
    method HandleAnswer(answer: string) returns (reported: Option<bool>)
      requires Valid()
      modifies this
      ensures Valid()
      ensures old(currentQuestion).None? ==>
        reported == None && selectedAnswer == old(selectedAnswer) && showExplanation == old(showExplanation)
        && isCorrect == old(isCorrect) && questionCount == old(questionCount) && correctCount == old(correctCount)
      ensures old(currentQuestion).Some? ==>
        var correct := answer == old(currentQuestion).value.correctAnswer;
        reported == Some(correct) && selectedAnswer == Some(answer) && showExplanation
        && isCorrect == Some(correct) && questionCount == old(questionCount) + 1
        && correctCount == old(correctCount) + (if correct then 1 else 0)
      ensures currentQuestion == old(currentQuestion)
    {
      if currentQuestion.None? {
        return None;
      }
      selectedAnswer := Some(answer);
      var correct := answer == currentQuestion.value.correctAnswer;
      isCorrect := Some(correct);
      showExplanation := true;
      if correct {
        correctCount := correctCount + 1;
      }
      questionCount := questionCount + 1;
      reported := Some(correct);
    }

    /** `handleNextQuestion`: a new draw; the counters carry on. */
    method HandleNextQuestion(r: Draw)
      requires Valid()
      modifies this
      ensures Valid()
      ensures currentQuestion == PickQuestion(bank, r)
      ensures selectedAnswer == None && !showExplanation && isCorrect == None
      ensures questionCount == old(questionCount) && correctCount == old(correctCount)
    {
      LoadRandomQuestion(r);
    }
  }
}
