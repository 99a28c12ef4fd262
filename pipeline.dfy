/** The page and the relay together: what the page makes of each reply the relay can give. */
module Pipeline {
  import opened Js
  import opened Judge0
  import opened Judge0Route
  import opened CodePage

  /** `data.details?.message` of an error reply: only Judge0's own error JSON can carry a
      `message`; the exception handler's `details` is a string, which has none. */
  function DetailsMessage(details: Details): Option<string> {
    match details
    case DataDetails(data) => data.message
    case _ => None
  }

  /** What `fetch("/api/judge0")` and `response.json()` yield to the page for a relay
      reply: `response.ok` is a 2xx status, and the body is read as the JSON it is (an
      error body has none of a result's fields, a result has neither `error` nor `details`). */
  function AsPageResponse(reply: Reply): RelayResponse {
    if 200 <= reply.status <= 299 then
      Ok(match reply.body
         case ResultBody(result) => result
         case ErrorBody(_, _) => ExecutionResult(None, None, None, None, None))
    else
      NotOk(match reply.body
            case ResultBody(_) => ApiErrorData(None, None)
            case ErrorBody(error, details) => ApiErrorData(Some(error), DetailsMessage(details)))
  }

  /** The verdict for one test case whose relay call ran against the given backend. */
  function CaseVerdict(tc: TestCase, incoming: Incoming, submit: SubmitOutcome, answers: nat -> PollResponse): TestCaseResult {
    Verdict(tc, AsPageResponse(Respond(incoming, submit, answers).reply))
  }

  /** A case whose polling timed out is judged incorrect (not left undecided), with
      status "API Error" and the relay's timeout message as its error. */
  lemma TimedOutCaseIsJudgedIncorrect(tc: TestCase, incoming: Incoming, submit: SubmitOutcome, answers: nat -> PollResponse)
    requires incoming.Parsed? && submit.Submitted?
    requires forall j | 0 <= j < MaxAttempts :: !Stops(answers(j))
    ensures CaseVerdict(tc, incoming, submit, answers) ==
              TestCaseResult(tc.input, tc.expectedOutput, None, ApiErrorStatus, Some(false), Some(PollingTimedOut))
  {
    TimesOutIffNoAnswerStops(incoming, submit, answers);
    ReplyStatusMatchesBody(incoming, submit, answers);
    var body := ApiErrorData(Some(PollingTimedOut), None);
    assert ApiErrorText(body) == PollingTimedOut by {
      var candidates := [body.detailsMessage, body.error];
      assert !Truthy(candidates[0]) && Truthy(candidates[1]);
    }
  }

  /** A rejected submission makes no status fetch and is judged incorrect with status
      "API Error"; its error is Judge0's own message when it gave a non-empty one, and
      otherwise the relay's "Failed to submit code to Judge0". */
  lemma RejectedSubmissionIsApiError(tc: TestCase, request: RelayRequest, status: ErrorStatus, data: ErrorData, answers: nat -> PollResponse)
    ensures Respond(Parsed(request), SubmitRejected(status, data), answers).fetches == 0
    ensures CaseVerdict(tc, Parsed(request), SubmitRejected(status, data), answers) ==
              TestCaseResult(tc.input, tc.expectedOutput, None, ApiErrorStatus, Some(false),
                             Some(if Truthy(data.message) then data.message.value else SubmitFailed))
  {
    ReplyStatusMatchesBody(Parsed(request), SubmitRejected(status, data), answers);
    var body := ApiErrorData(Some(SubmitFailed), data.message);
    var candidates := [body.detailsMessage, body.error];
    assert candidates[0] == data.message && Truthy(candidates[1]);
  }

  /** An exception somewhere in the relay: reading the request, submitting, or the
      status fetch that ends the polling. */
  predicate RelayThrows(incoming: Incoming, submit: SubmitOutcome, answers: nat -> PollResponse) {
    || incoming.Unparsable?
    || submit.SubmitThrew?
    || (submit.Submitted? && FirstStop(answers, 0) < MaxAttempts && answers(FirstStop(answers, 0)).PollThrew?)
  }

  /** Any exception in the relay reaches the page as "API Error" with error
      "Internal server error": the exception's own message is not shown. */
  lemma RelayExceptionIsInternalError(tc: TestCase, incoming: Incoming, submit: SubmitOutcome, answers: nat -> PollResponse)
    requires RelayThrows(incoming, submit, answers)
    ensures CaseVerdict(tc, incoming, submit, answers) ==
              TestCaseResult(tc.input, tc.expectedOutput, None, ApiErrorStatus, Some(false), Some(InternalServerError))
  {
    var k := FirstStop(answers, 0);
    var message :=
      if incoming.Unparsable? then incoming.message
      else if submit.SubmitThrew? then submit.message
      else answers(k).message;
    assert Respond(incoming, submit, answers).reply == InternalError(message);
    ReplyStatusMatchesBody(incoming, submit, answers);
    var body := ApiErrorData(Some(InternalServerError), None);
    var candidates := [body.detailsMessage, body.error];
    assert !Truthy(candidates[0]) && Truthy(candidates[1]);
  }

  /** A case passes exactly when the relay passed on a terminal Judge0 result from its
      last fetch, that result's status id is 3, and its shown output equals the expected
      output. */
  lemma PassIffAcceptedMatchingResult(tc: TestCase, incoming: Incoming, submit: SubmitOutcome, answers: nat -> PollResponse)
    ensures var run := Respond(incoming, submit, answers);
            CaseVerdict(tc, incoming, submit, answers).isCorrect == Some(true) <==>
              && run.reply.body.ResultBody?
              && run.fetches > 0
              && answers(run.fetches - 1) == Polled(run.reply.body.result)
              && IsAccepted(run.reply.body.result)
              && OutputOf(run.reply.body.result) == tc.expectedOutput
  {
    ReplyStatusMatchesBody(incoming, submit, answers);
  }
}
