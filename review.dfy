/** The answer review: every option of every question is shown with a mark
    derived from the correct answer and the answer the user committed. */
module Review {
  import opened QuizData

  /** Correct: the green option. Wrong: the red option. Plain: unmarked. */
  datatype Mark = Correct | Wrong | Plain

  /** The mark of one option. The correct answer is always green; the user's
      own pick is red when it was not the correct answer; nothing else is
      marked. */
  function OptionMark(option: string, correctAnswer: string, userAnswer: Option<string>): (m: Mark)
    ensures m == Correct <==> option == correctAnswer
    ensures m == Wrong <==> option != correctAnswer && userAnswer == Some(option)
  {
    var isCorrect := userAnswer == Some(correctAnswer);
    var isCorrectAnswer := option == correctAnswer;
    var isUserSelection := userAnswer == Some(option);
    if isCorrectAnswer then Correct
    else if isUserSelection && !isCorrect then Wrong
    else Plain
  }

  /** The marks of a question's options, in the order they are shown. */
  function QuestionMarks(q: Question, userAnswer: Option<string>): (ms: seq<Mark>)
    ensures |ms| == |q.options|
  {
    seq(|q.options|, i requires 0 <= i < |q.options| => OptionMark(q.options[i], q.correctAnswer, userAnswer))
  }

  /** A question card shows a red option exactly when the user picked one of
      its options and that pick was not the correct answer; the green
      option appears exactly when the correct answer is among the options. */
  lemma MarksOfQuestion(q: Question, userAnswer: Option<string>)
    ensures Wrong in QuestionMarks(q, userAnswer)
        <==> userAnswer.Some? && userAnswer.value in q.options && userAnswer.value != q.correctAnswer
    ensures Correct in QuestionMarks(q, userAnswer) <==> q.correctAnswer in q.options
  {
    var ms := QuestionMarks(q, userAnswer);
    if userAnswer.Some? && userAnswer.value in q.options && userAnswer.value != q.correctAnswer {
      var i :| 0 <= i < |q.options| && q.options[i] == userAnswer.value;
      assert ms[i] == Wrong;
    }
    if q.correctAnswer in q.options {
      var i :| 0 <= i < |q.options| && q.options[i] == q.correctAnswer;
      assert ms[i] == Correct;
    }
  }
}
