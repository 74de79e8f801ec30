/** Sessions driven through the handlers from start to end, as the app's
    buttons and the question request would drive them. */
module Scenarios {
  import opened QuizData
  import opened Fetch
  import opened QuizApp

  /** A session that chose "SQL" and received two questions, before any
      answer. */
  method SqlLoaded() returns (s: Session)
    ensures fresh(s) && s.Valid()
    ensures s.State() == SessionState(InProgress,
      [Question("Q1", ["A", "B"], "A"), Question("Q2", ["C", "D"], "D")],
      0, None, [], 0, None, "SQL")
  {
    s := new Session();
    var path := s.HandleCategorySelect("SQL");
    assert path == "/quiz/generate/SQL";
    var q1 := Question("Q1", ["A", "B"], "A");
    var q2 := Question("Q2", ["C", "D"], "D");
    var outcome := Response(200, Some([q1, q2]));
    assert Classify(outcome) == Loaded([q1, q2]);
    s.ResolveFetch(outcome);
  }

  /** Two SQL questions; the first is answered right, the second wrong. */
  method SqlQuiz() returns (score: nat, answers: seq<string>, phase: Phase, total: nat)
    ensures score == 1 && answers == ["A", "C"] && phase == Finished && total == 2
  {
    var s := SqlLoaded();
    assert "A" in s.questions[0].options;
    s.HandleAnswerSelect("A");
    s.HandleNextQuestion();
    assert s.score == 1 && s.currentQuestionIndex == 1;
    assert "C" in s.questions[1].options;
    s.HandleAnswerSelect("C");
    s.HandleNextQuestion();
    score, answers, phase, total := s.score, s.userAnswers, s.gameState, |s.questions|;
  }

  /** A status-500 response ends on the error screen naming the status;
      going back to the menu clears the category. */
  method ServerFailure() returns (phase: Phase, message: Option<string>, menuCategory: string)
    ensures phase == Error && message == Some("Server error: 500") && menuCategory == ""
  {
    var s := new Session();
    var _ := s.HandleCategorySelect("Python");
    assert Decimal(500) == "500" by {
      assert Decimal(5) == "5";
      assert Decimal(50) == "50";
    }
    var outcome := Response(500, None);
    assert Classify(outcome) == Failed("Server error: 500");
    s.ResolveFetch(outcome);
    phase, message := s.gameState, s.error;
    s.HandleBackToMenu();
    menuCategory := s.selectedCategory;
  }

  /** Opening the review and leaving it again restores the session exactly. */
  method ReviewTwice(s: Session)
    requires s.Valid() && s.gameState == Finished
    modifies s
    ensures s.Valid() && s.State() == old(s.State())
  {
    s.OpenReview();
    s.CloseReview();
  }

  /** "Try Again" after a finished quiz asks again for the same category,
      from a cleared quiz. */
  method TryAgain(s: Session) returns (path: string)
    requires s.Valid() && s.gameState == Finished
    modifies s
    ensures s.Valid() && s.gameState == Loading
    ensures path == RequestPath(old(s.selectedCategory))
    ensures s.selectedCategory == old(s.selectedCategory)
    ensures s.userAnswers == [] && s.score == 0 && s.currentQuestionIndex == 0
  {
    path := s.HandleRegenerateQuiz();
  }
}
