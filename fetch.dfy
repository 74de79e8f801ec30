/** The question request: the path it asks for, the outcomes it can have,
    and how an outcome is classified into questions or an error message. */
module Fetch {
  import opened QuizData

  /** What the request came back with. `Thrown` is a rejected `fetch` or a
      body that is not JSON, carrying the exception's message; `Response`
      is a completed exchange with its HTTP status and parsed body (None for
      a null body). */
  datatype FetchOutcome =
    | Thrown(message: string)
    | Response(status: nat, payload: Option<seq<Question>>)

  /** What the session makes of an outcome. */
  datatype Resolution = Loaded(questions: seq<Question>) | Failed(message: string)

  /** The path requested for a category, below the configured base URL. */
  function RequestPath(category: string): (path: string)
    ensures |path| == |"/quiz/generate/"| + |category|
    ensures path[..|"/quiz/generate/"|] == "/quiz/generate/"
    ensures path[|"/quiz/generate/"|..] == category
  {
    "/quiz/generate/" + category
  }

  /** `Response.ok`: the status is in the range 200-299. */
  predicate IsOk(status: nat)
  {
    200 <= status <= 299
  }

  const ServerErrorPrefix: string := "Server error: "
  const NoQuestionsMessage: string := "No questions received from the server."

  predicate IsDigit(c: char)
  {
    '0' <= c <= '9'
  }

  function DigitChar(d: nat): (c: char)
    requires d < 10
    ensures IsDigit(c)
  {
    "0123456789"[d]
  }

  function DigitValue(c: char): nat
    requires IsDigit(c)
  {
    (c - '0') as nat
  }

  /** A natural number in decimal, as JavaScript writes it in a template
      string: digits only, no leading zero. */
  function Decimal(n: nat): (s: string)
    ensures |s| >= 1
    ensures forall i :: 0 <= i < |s| ==> IsDigit(s[i])
    ensures |s| > 1 ==> s[0] != '0'
    decreases n
  {
    if n < 10 then [DigitChar(n)] else Decimal(n / 10) + [DigitChar(n % 10)]
  }

  /** The number a string of decimal digits denotes. */
  function DecimalValue(s: string): nat
    requires forall i :: 0 <= i < |s| ==> IsDigit(s[i])
    decreases |s|
  {
    if s == [] then 0
    else DecimalValue(s[..|s| - 1]) * 10 + DigitValue(s[|s| - 1])
  }

  /** Writing a status in decimal loses nothing: reading it back gives the
      status. */
  lemma {:induction false} DecimalRoundTrip(n: nat)
    ensures DecimalValue(Decimal(n)) == n
    decreases n
  {
    var s := Decimal(n);
    if n < 10 {
      assert s[..0] == [];
    } else {
      DecimalRoundTrip(n / 10);
      assert s[..|s| - 1] == Decimal(n / 10);
    }
  }

  /** The message set for a response whose status is not ok. */
  function ServerErrorMessage(status: nat): (m: string)
    ensures |m| > |ServerErrorPrefix|
    ensures m[..|ServerErrorPrefix|] == ServerErrorPrefix
  {
    ServerErrorPrefix + Decimal(status)
  }

  /** The server error message mentions the status: the status can be read
      back from the text after the prefix. */
  lemma ServerErrorMentionsStatus(status: nat)
    ensures var m := ServerErrorMessage(status);
      (forall i :: |ServerErrorPrefix| <= i < |m| ==> IsDigit(m[i]))
      && DecimalValue(m[|ServerErrorPrefix|..]) == status
  {
    var m := ServerErrorMessage(status);
    assert m[|ServerErrorPrefix|..] == Decimal(status);
    DecimalRoundTrip(status);
  }

  /** The failure messages tell the causes apart: different statuses give
      different messages, and no server error reads as "no questions". */
  lemma FailureMessagesDistinct(s1: nat, s2: nat)
    ensures ServerErrorMessage(s1) == ServerErrorMessage(s2) <==> s1 == s2
    ensures ServerErrorMessage(s1) != NoQuestionsMessage
  {
    if ServerErrorMessage(s1) == ServerErrorMessage(s2) {
      ServerErrorMentionsStatus(s1);
      ServerErrorMentionsStatus(s2);
    }
    assert ServerErrorMessage(s1)[0] == 'S' && NoQuestionsMessage[0] == 'N';
  }

  /** How the request's outcome is classified: a thrown error keeps its own
      message; a status that is not ok is a server error naming the status
      (the body is not read); an ok response with a null or empty body is
      "no questions"; only an ok response with at least one question loads. */
  function Classify(outcome: FetchOutcome): (r: Resolution)
    ensures r.Loaded? <==> outcome.Response? && IsOk(outcome.status)
                           && outcome.payload.Some? && outcome.payload.value != []
    ensures r.Loaded? ==> r.questions != [] && r.questions == outcome.payload.value
    ensures outcome.Thrown? ==> r == Failed(outcome.message)
    ensures outcome.Response? && !IsOk(outcome.status)
            ==> r == Failed(ServerErrorMessage(outcome.status))
    ensures outcome.Response? && IsOk(outcome.status)
            && (outcome.payload == None || outcome.payload == Some([]))
            ==> r == Failed(NoQuestionsMessage)
    ensures outcome.Response? && r.Failed? ==> r.message != ""
  {
    match outcome
    case Thrown(message) => Failed(message)
    case Response(status, payload) =>
      if !IsOk(status) then Failed(ServerErrorMessage(status))
      else if payload.None? || payload.value == [] then Failed(NoQuestionsMessage)
      else Loaded(payload.value)
  }
}
