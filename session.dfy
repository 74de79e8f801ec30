/** The quiz session: the eight pieces of state the app keeps, the phases it
    moves through, and the handlers that update the state. */
module QuizApp {
  import opened QuizData
  import opened Fetch
  import opened Review
  import opened Stepper

  /** The screen the app shows. */
  datatype Phase = CategorySelect | Loading | InProgress | Finished | ReviewAnswers | Error

  /** A snapshot of the session's eight state fields. */
  datatype SessionState = SessionState(
    gameState: Phase,
    questions: seq<Question>,
    currentQuestionIndex: nat,
    selectedAnswer: Option<string>,
    userAnswers: seq<string>,
    score: nat,
    error: Option<string>,
    selectedCategory: string)

  /** The state the app starts in. */
  function Initial(): SessionState
  {
    SessionState(CategorySelect, [], 0, None, [], 0, None, "")
  }

  /** Every committed answer is one of the options its question offered. */
  predicate AnswersAreOptions(questions: seq<Question>, answers: seq<string>)
  {
    |answers| <= |questions|
    && forall i :: 0 <= i < |answers| ==> answers[i] in questions[i].options
  }

  /** No quiz data: nothing fetched, nothing answered, nothing pending. */
  predicate Cleared(st: SessionState)
  {
    st.questions == [] && st.currentQuestionIndex == 0 && st.selectedAnswer == None
    && st.userAnswers == [] && st.score == 0
  }

  /** A quiz under way or done: the questions are there, the score counts
      the correct committed answers, and every committed answer was an
      option of its question. */
  predicate Quizzing(st: SessionState)
  {
    st.selectedCategory != "" && st.error == None && st.questions != []
    && AnswersAreOptions(st.questions, st.userAnswers)
    && st.score == CountCorrect(st.questions, st.userAnswers)
  }

  /** What holds between handlers, phase by phase. */
  predicate Consistent(st: SessionState)
  {
    match st.gameState
    case CategorySelect => Cleared(st) && st.selectedCategory == ""
    case Loading => Cleared(st) && st.selectedCategory != "" && st.error == None
    case Error => Cleared(st) && st.selectedCategory != "" && st.error.Some?
    case InProgress =>
      Quizzing(st)
      && st.currentQuestionIndex < |st.questions|
      && |st.userAnswers| == st.currentQuestionIndex
      && (st.selectedAnswer.Some? ==>
            st.selectedAnswer.value in st.questions[st.currentQuestionIndex].options)
    case Finished | ReviewAnswers =>
      Quizzing(st)
      && st.currentQuestionIndex == |st.questions| - 1
      && |st.userAnswers| == |st.questions|
      && st.selectedAnswer == None
  }

  class Session {
    var gameState: Phase
    var questions: seq<Question>
    var currentQuestionIndex: nat
    var selectedAnswer: Option<string>
    var userAnswers: seq<string>
    var score: nat
    var error: Option<string>
    var selectedCategory: string

    function State(): SessionState
      reads this
    {
      SessionState(gameState, questions, currentQuestionIndex, selectedAnswer,
                   userAnswers, score, error, selectedCategory)
    }

    ghost predicate Valid()
      reads this
    {
      Consistent(State())
    }

    constructor ()
      ensures Valid() && State() == Initial()
    {
      gameState := CategorySelect;
      questions := [];
      currentQuestionIndex := 0;
      selectedAnswer := None;
      userAnswers := [];
      score := 0;
      error := None;
      selectedCategory := "";
    }

    /** The synchronous start of a question request: show the loading
        screen, clear any earlier error, and ask for the category's path. */
    method BeginFetch(category: string) returns (path: string)
      modifies this
      ensures State() == old(State()).(gameState := Loading, error := None)
      ensures path == RequestPath(category)
    {
      gameState := Loading;
      error := None;
      path := RequestPath(category);
    }

    /** The end of a question request: store a non-empty question list and
        start the quiz, or show the error the outcome is classified as. */
    method ResolveFetch(outcome: FetchOutcome)
      requires Valid() && gameState == Loading
      modifies this
      ensures Valid()
      ensures Classify(outcome).Loaded? ==>
        State() == old(State()).(questions := Classify(outcome).questions, gameState := InProgress)
      ensures Classify(outcome).Failed? ==>
        State() == old(State()).(error := Some(Classify(outcome).message), gameState := Error)
      ensures gameState == InProgress ==> questions != [] && currentQuestionIndex == 0
    {
      match Classify(outcome)
      case Loaded(data) =>
        questions := data;
        gameState := InProgress;
      case Failed(message) =>
        error := Some(message);
        gameState := Error;
    }

    /** A category button: remember the category and request its questions. */
    method HandleCategorySelect(category: string) returns (path: string)
      requires Valid() && gameState == CategorySelect
      requires category != ""
      modifies this
      ensures Valid()
      ensures State() == old(State()).(selectedCategory := category, gameState := Loading, error := None)
      ensures path == RequestPath(category)
    {
      selectedCategory := category;
      path := BeginFetch(category);
    }

    /** An option button: make it the pending choice, replacing any earlier
        one. Nothing else changes. */
    method HandleAnswerSelect(option: string)
      requires Valid() && gameState == InProgress
      requires option in questions[currentQuestionIndex].options
      modifies this
      ensures Valid()
      ensures State() == old(State()).(selectedAnswer := Some(option))
    {
      selectedAnswer := Some(option);
    }

    /** The next/submit button, enabled only while the pending choice is
        truthy: commit the choice, score it, clear it, and move to the next
        question or finish the quiz. */
    method HandleNextQuestion()
      requires Valid() && gameState == InProgress
      requires IsTruthy(selectedAnswer)
      modifies this
      ensures Valid()
      ensures userAnswers == old(userAnswers) + [old(selectedAnswer).value]
      ensures score == old(score)
        + (if old(selectedAnswer).value == old(questions[currentQuestionIndex]).correctAnswer then 1 else 0)
      ensures selectedAnswer == None
      ensures old(currentQuestionIndex) < |questions| - 1 ==>
        currentQuestionIndex == old(currentQuestionIndex) + 1 && gameState == InProgress
      ensures old(currentQuestionIndex) == |questions| - 1 ==>
        currentQuestionIndex == old(currentQuestionIndex) && gameState == Finished
      ensures questions == old(questions) && error == old(error)
      ensures selectedCategory == old(selectedCategory)
    {
      var answer := selectedAnswer.value;
      CountCorrectAppend(questions, userAnswers, answer);
      userAnswers := userAnswers + [answer];
      if answer == questions[currentQuestionIndex].correctAnswer {
        score := score + 1;
      }
      selectedAnswer := None;
      assert AnswersAreOptions(questions, userAnswers);
      assert score == CountCorrect(questions, userAnswers);
      if currentQuestionIndex < |questions| - 1 {
        currentQuestionIndex := currentQuestionIndex + 1;
      } else {
        gameState := Finished;
      }
    }

    /** Clear the quiz data, and the category unless asked to keep it. The
        phase and the error are left as they are. */
    method ResetQuizState(keepCategory: bool)
      modifies this
      ensures State() == old(State()).(
        currentQuestionIndex := 0, selectedAnswer := None, score := 0,
        questions := [], userAnswers := [],
        selectedCategory := if keepCategory then old(selectedCategory) else "")
    {
      currentQuestionIndex := 0;
      selectedAnswer := None;
      score := 0;
      questions := [];
      userAnswers := [];
      if !keepCategory {
        selectedCategory := "";
      }
    }

    /** "Try Again": drop the finished quiz and request new questions for the
        same category. */
    method HandleRegenerateQuiz() returns (path: string)
      requires Valid() && gameState == Finished
      modifies this
      ensures Valid()
      ensures State() == old(State()).(
        gameState := Loading, questions := [], currentQuestionIndex := 0,
        selectedAnswer := None, userAnswers := [], score := 0, error := None)
      ensures path == RequestPath(old(selectedCategory))
    {
      ResetQuizState(true);
      path := BeginFetch(selectedCategory);
    }

    /** "Back to Menu" / "New Category": return to the category screen with
        all quiz data and the category cleared. The error message is kept
        (it is not shown there, and the next request clears it). */
    method HandleBackToMenu()
      requires Valid() && gameState != Loading
      modifies this
      ensures Valid()
      ensures State() == Initial().(error := old(error))
    {
      gameState := CategorySelect;
      ResetQuizState(false);
    }

    /** "Review Answers": show the review; no data changes. */
    method OpenReview()
      requires Valid() && gameState == Finished
      modifies this
      ensures Valid()
      ensures State() == old(State()).(gameState := ReviewAnswers)
    {
      gameState := ReviewAnswers;
    }

    /** "Back to Score": leave the review; no data changes. */
    method CloseReview()
      requires Valid() && gameState == ReviewAnswers
      modifies this
      ensures Valid()
      ensures State() == old(State()).(gameState := Finished)
    {
      gameState := Finished;
    }
  }

  /** The question cards of the review screen that show no red option. */
  ghost function CardsWithoutWrongMark(st: SessionState): set<nat>
  {
    set i: nat | i < |st.questions| && Wrong !in QuestionMarks(st.questions[i], AnswerAt(st.userAnswers, i))
  }

  /** Once the quiz is over, the score shown equals the number of review
      cards without a red option, and never exceeds the number of
      questions. */
  lemma ScoreMatchesReview(st: SessionState)
    requires Consistent(st)
    requires st.gameState == Finished || st.gameState == ReviewAnswers
    ensures st.score == |CardsWithoutWrongMark(st)|
    ensures st.score <= |st.questions|
  {
    forall i: nat | i < |st.questions|
      ensures (Wrong !in QuestionMarks(st.questions[i], AnswerAt(st.userAnswers, i)))
          <==> IsCorrectAt(st.questions, st.userAnswers, i)
    {
      MarksOfQuestion(st.questions[i], AnswerAt(st.userAnswers, i));
    }
    assert CardsWithoutWrongMark(st) == CorrectIndices(st.questions, st.userAnswers);
    CountCorrectIsCorrectIndices(st.questions, st.userAnswers);
  }

  /** While a question is shown, the stepper marks one step done per
      committed answer, the current question's step active, and the rest
      pending. */
  lemma StepperShowsProgress(st: SessionState)
    requires Consistent(st) && st.gameState == InProgress
    ensures Count(Steps(st.currentQuestionIndex, |st.questions|), Done) == |st.userAnswers|
    ensures Count(Steps(st.currentQuestionIndex, |st.questions|), Active) == 1
    ensures Count(Steps(st.currentQuestionIndex, |st.questions|), Pending)
         == |st.questions| - |st.userAnswers| - 1
  {
    StepCounts(st.currentQuestionIndex, |st.questions|);
  }
}
