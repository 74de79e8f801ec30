/** The data a quiz session works on: questions as the backend sends them,
    the answers the user commits, and how many of those answers are correct. */
module QuizData {

  /** A value that may be absent (JavaScript's `null`/`undefined`). */
  datatype Option<+T> = None | Some(value: T)

  /** One multiple-choice question: its text, the options offered, and the
      option that is right. The session never changes a question. */
  datatype Question = Question(question: string, options: seq<string>, correctAnswer: string)

  /** JavaScript truthiness of a possibly-null string: null and "" are falsy. */
  predicate IsTruthy(a: Option<string>)
  {
    a.Some? && a.value != ""
  }

  /** The answer recorded for question `i`, or None when no answer is stored
      at that index (reading past the end of a JavaScript array). */
  function AnswerAt(answers: seq<string>, i: nat): (r: Option<string>)
    ensures r.Some? <==> i < |answers|
    ensures r.Some? ==> r.value == answers[i]
  {
    if i < |answers| then Some(answers[i]) else None
  }

  /** The review screen's verdict on question `i`: the stored answer is the
      question's correct answer. */
  predicate IsCorrectAt(questions: seq<Question>, answers: seq<string>, i: nat)
    requires i < |questions|
  {
    AnswerAt(answers, i) == Some(questions[i].correctAnswer)
  }

  /** The score as the session accumulates it: one point for each committed
      answer, taken in order, that equals its question's correct answer. */
  function CountCorrect(questions: seq<Question>, answers: seq<string>): (n: nat)
    requires |answers| <= |questions|
    ensures n <= |answers|
    decreases |answers|
  {
    if answers == [] then 0
    else
      var last := |answers| - 1;
      CountCorrect(questions, answers[..last])
        + (if answers[last] == questions[last].correctAnswer then 1 else 0)
  }

  /** The set of question indices the review screen marks as answered
      correctly. */
  ghost function CorrectIndices(questions: seq<Question>, answers: seq<string>): set<nat>
  {
    set i: nat | i < |questions| && IsCorrectAt(questions, answers, i)
  }

  /** Committing one more answer adds a point exactly when that answer is
      correct, and never changes the points already earned. */
  lemma CountCorrectAppend(questions: seq<Question>, answers: seq<string>, a: string)
    requires |answers| < |questions|
    ensures CountCorrect(questions, answers + [a])
         == CountCorrect(questions, answers)
            + (if a == questions[|answers|].correctAnswer then 1 else 0)
  {
  }

  /** The accumulated score is the number of questions marked correct in
      review: the two ways the app computes correctness agree. */
  lemma {:induction false} CountCorrectIsCorrectIndices(questions: seq<Question>, answers: seq<string>)
    requires |answers| <= |questions|
    ensures CountCorrect(questions, answers) == |CorrectIndices(questions, answers)|
  {
    if answers == [] {
      assert CorrectIndices(questions, answers) == {};
    } else {
      var last := |answers| - 1;
      var prefix := answers[..last];
      CountCorrectIsCorrectIndices(questions, prefix);
      var before := CorrectIndices(questions, prefix);
      var after := CorrectIndices(questions, answers);
      assert last !in before;
      if answers[last] == questions[last].correctAnswer {
        assert after == before + {last};
      } else {
        assert after == before;
      }
    }
  }
}
