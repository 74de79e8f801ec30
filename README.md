# Quiz session model

This project models the quiz session that the `App` component of the quiz
front end runs. The user picks a category. The app requests generated
questions for it and walks through them one at a time. Each answer is
committed when the user moves on. The app keeps a score, can show a review
of every answer, and can start over for the same category or for a new one.

The eight pieces of state the component keeps (`gameState`, `questions`,
`currentQuestionIndex`, `selectedAnswer`, `userAnswers`, `score`, `error`,
`selectedCategory`) are the fields of the class `QuizApp.Session`. Each
event handler is a method that updates them. Each handler is treated as one
atomic update, and its `requires` admits at least the screens on which the
app offers that button. Most handlers require exactly those screens;
`HandleBackToMenu` admits every screen but loading (see "## Left out"). The asynchronous question request is split in two:

- `BeginFetch` is the part that runs at once: it shows the loading screen
  and clears the error.
- `ResolveFetch` takes the request's outcome as a value and applies the
  app's classification.

`QuizApp.Consistent` is the invariant that holds between handlers, phase by
phase, and every handler preserves it. In particular:

- while a question is shown, one answer is committed per question already passed;
- once the quiz is over, there is one answer per question;
- the score always equals the number of committed answers that match their
  question's correct answer;
- the question index stays in range;
- no quiz is under way without questions;
- the loading screen is always entered with no quiz data.

Modules and files:

- `quiz_data.dfy` (`QuizData`): the question record and how committed answers are scored.
- `fetch.dfy` (`Fetch`): the request path, the request outcomes, the error
  messages and how an outcome is classified.
- `review.dfy` (`Review`): the green/red/plain mark of each option on the review screen.
- `stepper.dfy` (`Stepper`): the done/active/pending status of each progress step.
- `session.dfy` (`QuizApp`): the phases, the session state, the class
  `Session` with its handlers, and lemmas that link the state to what the
  review screen and the stepper show.
- `scenarios.dfy` (`Scenarios`): sessions driven through the handlers from start to end.

The question record mirrors the backend's `QuizQuestion`
(`ai-quiz/src/main/java/com/sky/ai_quiz/QuizQuestion.java:13-17`): the
question text, its options and the correct answer.

What the app offers, screen by screen, and how the model follows it:

- "Try Again" is offered only on the finished screen.
- The error screen offers only "Back to Menu".
- There is no difficulty selection.
- Going back to the menu keeps the old error message until the next
  request clears it.

## Model

| member | source | states |
|---|---|---|
| `QuizData.AnswerAt` | quiz-frontend/src/App.jsx:194 | the answer read for a question is present exactly when that index has a committed answer, and is that answer |
| `QuizData.CountCorrect` | quiz-frontend/src/App.jsx:73-77 | the score built up answer by answer never exceeds the number of committed answers |
| `QuizData.CountCorrectAppend` | quiz-frontend/src/App.jsx:73-77 | committing one more answer adds one point exactly when that answer is the question's correct answer, otherwise the score is unchanged |
| `QuizData.CountCorrectIsCorrectIndices` | quiz-frontend/src/App.jsx:193-195 | the accumulated score equals the size of the set of questions the review judges correct (`isCorrect`) |
| `Fetch.RequestPath` | quiz-frontend/src/App.jsx:48 | the request path starts with `/quiz/generate/` and the rest of it is the category |
| `Fetch.Decimal` | quiz-frontend/src/App.jsx:50 | a status is written as a non-empty string of decimal digits without a leading zero |
| `Fetch.DecimalRoundTrip` | quiz-frontend/src/App.jsx:50 | reading the written status back as a decimal number gives the status |
| `Fetch.ServerErrorMessage` | quiz-frontend/src/App.jsx:50 | a server-error message starts with `Server error: ` and has text after it |
| `Fetch.ServerErrorMentionsStatus` | quiz-frontend/src/App.jsx:50 | the text after the prefix is all digits and denotes the status |
| `Fetch.FailureMessagesDistinct` | quiz-frontend/src/App.jsx:50-52 | two server-error messages are equal exactly when their statuses are, and no server error reads as the "no questions" message |
| `Fetch.Classify` | quiz-frontend/src/App.jsx:49-58 | questions load exactly when the status is in 200-299 and the body is a non-empty list; a thrown error keeps its message; a non-ok status gives `Server error: <status>`; a null or empty body gives `No questions received from the server.`; every failed response has a non-empty message |
| `Stepper.StepStatusAt` | quiz-frontend/src/App.jsx:17-20 | a step is done exactly when it comes before the current question, and active exactly when it is the current question |
| `Stepper.Steps` | quiz-frontend/src/App.jsx:10-13 | the stepper has one step per question |
| `Stepper.StepCounts` | quiz-frontend/src/App.jsx:13-20 | the stepper shows min(current, total) done steps, one active step when the current question exists, and the remaining steps pending |
| `Review.OptionMark` | quiz-frontend/src/App.jsx:200-206 | an option is green exactly when it is the correct answer, and red exactly when it is the user's pick and not the correct answer |
| `Review.QuestionMarks` | quiz-frontend/src/App.jsx:200-213 | a question card marks each of its options once |
| `Review.MarksOfQuestion` | quiz-frontend/src/App.jsx:194-206 | a card shows a red option exactly when the user picked one of its options and the pick was wrong, and a green option exactly when the correct answer is among the options |
| `QuizApp.Session.constructor` | quiz-frontend/src/App.jsx:35-42 | the session starts on the category screen with no questions, index 0, no pending answer, no answers, score 0, no error and no category, and satisfies the invariant |
| `QuizApp.Session.BeginFetch` | quiz-frontend/src/App.jsx:44-48 | starting a request shows the loading screen and clears the error, changes nothing else, and asks for the category's path |
| `QuizApp.Session.ResolveFetch` | quiz-frontend/src/App.jsx:49-59 | a loaded outcome stores the questions and starts the quiz at index 0 with a non-empty question list; a failed one shows the error screen with the classified message; nothing else changes |
| `QuizApp.Session.HandleCategorySelect` | quiz-frontend/src/App.jsx:62-65 | choosing a category stores it, enters loading with the error cleared, and requests that category |
| `QuizApp.Session.HandleAnswerSelect` | quiz-frontend/src/App.jsx:67-69 | choosing an option sets only the pending answer, so the last call wins and index, score, answers and phase are unchanged |
| `QuizApp.Session.HandleNextQuestion` | quiz-frontend/src/App.jsx:71-85 | the pending answer is appended to the answers; the score rises by one exactly when it is correct; the pending answer is cleared; below the last question the index advances and the quiz continues, at the last question the quiz finishes with the index unchanged; the invariant is kept |
| `QuizApp.Session.ResetQuizState` | quiz-frontend/src/App.jsx:87-96 | index 0, no pending answer, score 0, no questions and no answers; the category is kept only when asked; the phase and the error are untouched |
| `QuizApp.Session.HandleRegenerateQuiz` | quiz-frontend/src/App.jsx:98-101 | "Try Again" keeps the category, clears all quiz data, enters loading with no error, and requests the same category again |
| `QuizApp.Session.HandleBackToMenu` | quiz-frontend/src/App.jsx:103-106 | going back to the menu yields the initial state except for the old error message |
| `QuizApp.Session.OpenReview` | quiz-frontend/src/App.jsx:175 | opening the review changes only the phase, from finished to review |
| `QuizApp.Session.CloseReview` | quiz-frontend/src/App.jsx:220 | leaving the review changes only the phase, from review back to finished |
| `QuizApp.ScoreMatchesReview` | quiz-frontend/src/App.jsx:189-206 | once the quiz is over, the score shown equals the number of review cards with no red option, and is at most the number of questions |
| `QuizApp.StepperShowsProgress` | quiz-frontend/src/App.jsx:146 | while a question is shown, the stepper has one done step per committed answer, one active step, and the rest pending |
| `Scenarios.SqlQuiz` | quiz-frontend/src/App.jsx:62-85 | two SQL questions, answered right and then wrong, end finished with score 1 and answers `["A", "C"]` |
| `Scenarios.ServerFailure` | quiz-frontend/src/App.jsx:44-60 | a 500 response ends on the error screen with `Server error: 500`, and back-to-menu clears the category |
| `Scenarios.ReviewTwice` | quiz-frontend/src/App.jsx:175-220 | opening and then closing the review restores the session state exactly |
| `Scenarios.TryAgain` | quiz-frontend/src/App.jsx:98-101 | "Try Again" after a finished quiz enters loading for the same category with no answers, score 0 and index 0 |

## Left out

- The request itself is not modelled. This covers `fetch`, `response.json()`,
  the base URL taken from the environment, and `console.error`. The outcome
  of the request is an input to `ResolveFetch`: either a thrown error with
  its message, or a status with a parsed body.
- The backend service is not part of this model. That is
  `QuizController.java`, with its call to the language-model API, its
  prompt text and its JSON parsing.
- The body of an ok response is taken to be either null or a list of
  questions. A JSON body of another shape is not modelled: the app stores
  it as it is, unless it is falsy or has length 0, in which case the app
  reports that no questions were received.
- The app does not validate the question payload, so neither does the model.
  Nothing guarantees that options are distinct or that the correct answer is
  among them.
- All markup, styling, animation and the dispatch from phase to screen are
  not modelled. The same goes for the fixed list of category names: a
  category is any non-empty string.
- React's state batching and re-rendering are not modelled: each handler is
  one atomic update.
- The request is not modelled as running concurrently with other events.
  The app offers no button while loading, and the model has none either, so
  a response cannot arrive after the user has left the loading screen.
- QuizApp.Session.HandleBackToMenu: requires that the phase is not loading. The
  handler itself accepts any phase, but the app never offers it while a
  request is pending. Allowing it there would let a late response start a
  quiz with no category.
- QuizApp.Session.HandleNextQuestion: requires a truthy pending answer, because the
  button is disabled otherwise. Calling it with no answer is not modelled.
  One consequence of the truthiness test is kept: an option whose text is
  empty can be picked but never submitted.
- QuizApp.Session.HandleAnswerSelect: requires that the option is one of the
  current question's options, because those are the only buttons the app shows.
- Difficulty selection is not modelled, because this front end has none.
- Review and "Try Again" are not modelled from the error screen, because
  this front end does not offer them there.
- Number widths are not modelled. Scores and indices are small, so the model
  uses unbounded naturals for JavaScript numbers.
