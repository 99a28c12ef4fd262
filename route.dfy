/** The same-origin relay `POST /api/judge0`: it turns the page's request into one Judge0
    submission, polls the submission's status a bounded number of times, and answers with
    the terminal result or with an error reply.

    The network is an input. `submit` is what the submission call yields and
    `answers(n)` is what the n-th status fetch (counting from 0) yields; a call whose
    transport fails or whose body is not JSON surfaces as a thrown exception, so those
    cases are the `...Threw` constructors. The 500 ms sleep before each fetch has no
    effect on the reply; `Post` reports the total time it spent sleeping. */
module Judge0Route {
  import opened Js
  import opened Judge0

  const MaxAttempts := 10
  const PollIntervalMs := 500
  const CpuTimeLimit := 2
  const MemoryLimit := 128000

  const SubmitFailed := "Failed to submit code to Judge0"
  const FetchFailed := "Failed to fetch Judge0 result"
  const PollingTimedOut := "Judge0 polling timed out."
  const InternalServerError := "Internal server error"

  /** The status of an HTTP response whose `ok` is false. */
  type ErrorStatus = s: int | 300 <= s <= 599 witness 500

  /** The fields the relay destructures from the page's JSON request. */
  datatype RelayRequest = RelayRequest(code: string, languageId: int, stdin: string, compilerOptions: Option<string>)

  /** `await req.json()`: the request, or the message of the exception it threw. */
  datatype Incoming = Parsed(request: RelayRequest) | Unparsable(message: Option<string>)

  /** The JSON body of `POST /submissions` sent to Judge0. */
  datatype SubmissionBody = SubmissionBody(
    sourceCode: string,
    languageId: int,
    stdin: string,
    cpuTimeLimit: int,
    memoryLimit: int,
    redirectStderrToStdout: bool,
    base64Encoded: bool,
    compilerOptions: Option<string>)

  /** What the submission call yields. */
  datatype SubmitOutcome =
    | Submitted(token: string)
    | SubmitRejected(status: ErrorStatus, data: ErrorData)
    | SubmitThrew(message: Option<string>)

  /** What one status fetch yields. */
  datatype PollResponse =
    | Polled(result: ExecutionResult)
    | PollRejected(status: ErrorStatus, data: ErrorData)
    | PollThrew(message: Option<string>)

  /** The `details` member of an error reply. */
  datatype Details = NoDetails | DataDetails(data: ErrorData) | TextDetails(text: string)

  datatype ReplyBody = ResultBody(result: ExecutionResult) | ErrorBody(error: string, details: Details)

  /** The relay's HTTP reply: its status and its JSON body. */
  datatype Reply = Reply(status: int, body: ReplyBody)

  /** The reply together with the number of status fetches made to produce it. */
  datatype RelayRun = RelayRun(reply: Reply, fetches: nat)

  // ---------------------------------------------------------------------------
  // Submission body

  /** `body` is the submission the relay sends for `request`: the request's code,
      language and stdin, the fixed limits, and the compiler options only when truthy. */
  predicate IsSubmissionFor(body: SubmissionBody, request: RelayRequest) {
    && body.sourceCode == request.code
    && body.languageId == request.languageId
    && body.stdin == request.stdin
    && body.cpuTimeLimit == CpuTimeLimit
    && body.memoryLimit == MemoryLimit
    && body.redirectStderrToStdout
    && !body.base64Encoded
    && body.compilerOptions == (if Truthy(request.compilerOptions) then request.compilerOptions else None)
  }

  method BuildSubmissionBody(request: RelayRequest) returns (body: SubmissionBody)
    ensures IsSubmissionFor(body, request)
  {
    body := SubmissionBody(request.code, request.languageId, request.stdin, CpuTimeLimit, MemoryLimit, true, false, None);
    if Truthy(request.compilerOptions) {
      body := body.(compilerOptions := request.compilerOptions);
    }
  }

  // ---------------------------------------------------------------------------
  // Specification of the reply

  /** `statusId && statusId >= 3`: the backend has finished with the submission. */
  predicate IsTerminal(r: ExecutionResult)
    ensures IsTerminal(r) <==> StatusIdOf(r).Some? && StatusIdOf(r).value >= Accepted
  {
    var statusId := StatusIdOf(r);
    NumberTruthy(statusId) && statusId.value >= Accepted
  }

  /** A result still "In Queue" or "Processing", or with a missing or zero status id,
      does not end the polling. */
  lemma UnfinishedResultKeepsPolling(r: ExecutionResult)
    requires StatusIdOf(r) == Some(InQueue) || StatusIdOf(r) == Some(Processing) || !NumberTruthy(StatusIdOf(r))
    ensures !IsTerminal(r)
  {
  }

  /** A fetch answer after which the relay makes no further fetch. */
  predicate Stops(p: PollResponse) {
    !p.Polled? || IsTerminal(p.result)
  }

  /** The first attempt at or after `from` whose answer stops the polling, or
      `MaxAttempts` when none of the remaining attempts does. */
  function FirstStop(answers: nat -> PollResponse, from: nat): (k: nat)
    requires from <= MaxAttempts
    ensures from <= k <= MaxAttempts
    ensures forall j | from <= j < k :: !Stops(answers(j))
    ensures k < MaxAttempts ==> Stops(answers(k))
    decreases MaxAttempts - from
  {
    if from == MaxAttempts then MaxAttempts
    else if Stops(answers(from)) then from
    else FirstStop(answers, from + 1)
  }

  /** The 500 reply of the exception handler. */
  function InternalError(message: Option<string>): Reply {
    Reply(500, ErrorBody(InternalServerError, if message.Some? then TextDetails(message.value) else NoDetails))
  }

  const TimeoutReply := Reply(504, ErrorBody(PollingTimedOut, NoDetails))

  /** The reply sent after a fetch answer that stops the polling. */
  function StopReply(p: PollResponse): Reply {
    match p
    case Polled(r) => Reply(200, ResultBody(r))
    case PollRejected(status, data) => Reply(status, ErrorBody(FetchFailed, DataDetails(data)))
    case PollThrew(message) => InternalError(message)
  }

  /** The relay's reply, and its number of status fetches, for the given request and network. */
  function Respond(incoming: Incoming, submit: SubmitOutcome, answers: nat -> PollResponse): (run: RelayRun)
    ensures run.fetches <= MaxAttempts
    ensures run.fetches > 0 <==> incoming.Parsed? && submit.Submitted?
    ensures incoming.Parsed? && submit.SubmitRejected? ==>
              run.reply == Reply(submit.status, ErrorBody(SubmitFailed, DataDetails(submit.data)))
    ensures incoming.Unparsable? ==> run.reply == InternalError(incoming.message)
    ensures incoming.Parsed? && submit.SubmitThrew? ==> run.reply == InternalError(submit.message)
    ensures run.reply.body.ResultBody? ==>
              && incoming.Parsed? && submit.Submitted?
              && answers(run.fetches - 1) == Polled(run.reply.body.result)
              && IsTerminal(run.reply.body.result)
              && forall j | 0 <= j < run.fetches - 1 :: !Stops(answers(j))
  {
    match incoming
    case Unparsable(message) => RelayRun(InternalError(message), 0)
    case Parsed(_) =>
      match submit
      case SubmitThrew(message) => RelayRun(InternalError(message), 0)
      case SubmitRejected(status, data) => RelayRun(Reply(status, ErrorBody(SubmitFailed, DataDetails(data))), 0)
      case Submitted(_) =>
        var k := FirstStop(answers, 0);
        if k == MaxAttempts then RelayRun(TimeoutReply, MaxAttempts)
        else RelayRun(StopReply(answers(k)), k + 1)
  }

  // ---------------------------------------------------------------------------
  // The handler

  /** `POST(req)`: returns the reply, its fetch count, the submission body sent, if any,
      and the milliseconds spent in `delay` before the fetches. */
  method Post(incoming: Incoming, submit: SubmitOutcome, answers: nat -> PollResponse)
    returns (run: RelayRun, sent: Option<SubmissionBody>, waitedMs: nat)
    ensures run == Respond(incoming, submit, answers)
    ensures waitedMs == run.fetches * PollIntervalMs <= MaxAttempts * PollIntervalMs
    ensures sent.Some? <==> incoming.Parsed?
    ensures sent.Some? ==> IsSubmissionFor(sent.value, incoming.request)
  {
    if incoming.Unparsable? {
      return RelayRun(InternalError(incoming.message), 0), None, 0;
    }
    var body := BuildSubmissionBody(incoming.request);
    sent := Some(body);

    if submit.SubmitThrew? {
      return RelayRun(InternalError(submit.message), 0), sent, 0;
    } else if submit.SubmitRejected? {
      return RelayRun(Reply(submit.status, ErrorBody(SubmitFailed, DataDetails(submit.data))), 0), sent, 0;
    }

    var result: Option<ExecutionResult> := None;
    var statusId: Option<int> := None;
    var attempts := 0;
    var fetches := 0;
    waitedMs := 0;
    while attempts < MaxAttempts
      invariant attempts <= MaxAttempts
      invariant fetches == attempts
      invariant waitedMs == fetches * PollIntervalMs
      invariant forall j | 0 <= j < attempts :: !Stops(answers(j))
    {
      waitedMs := waitedMs + PollIntervalMs;
      var response := answers(fetches);
      fetches := fetches + 1;
      if response.PollRejected? {
        return RelayRun(Reply(response.status, ErrorBody(FetchFailed, DataDetails(response.data))), fetches), sent, waitedMs;
      } else if response.PollThrew? {
        return RelayRun(InternalError(response.message), fetches), sent, waitedMs;
      }
      result := Some(response.result);
      statusId := StatusIdOf(response.result);
      if NumberTruthy(statusId) && statusId.value >= Accepted {
        break;
      }
      attempts := attempts + 1;
    }

    if attempts == MaxAttempts {
      return RelayRun(TimeoutReply, fetches), sent, waitedMs;
    }
    run := RelayRun(Reply(200, ResultBody(result.value)), fetches);
  }

  // ---------------------------------------------------------------------------
  // Properties of the reply

  /** Polling ends at the first answer that stops it: a terminal result is passed on
      unchanged with status 200, a rejected fetch is answered with that fetch's status,
      and a thrown exception with 500; later answers are never fetched. */
  lemma {:induction false} FirstStoppingAnswerDecides(incoming: Incoming, submit: SubmitOutcome, answers: nat -> PollResponse, k: nat)
    requires incoming.Parsed? && submit.Submitted?
    requires k < MaxAttempts && Stops(answers(k))
    requires forall j | 0 <= j < k :: !Stops(answers(j))
    ensures Respond(incoming, submit, answers).fetches == k + 1
    ensures answers(k).Polled? ==> Respond(incoming, submit, answers).reply == Reply(200, ResultBody(answers(k).result))
    ensures answers(k).PollRejected? ==>
              Respond(incoming, submit, answers).reply == Reply(answers(k).status, ErrorBody(FetchFailed, DataDetails(answers(k).data)))
    ensures answers(k).PollThrew? ==> Respond(incoming, submit, answers).reply == InternalError(answers(k).message)
  {
    var first := FirstStop(answers, 0);
    assert first == MaxAttempts || Stops(answers(first));
    assert first <= k || !Stops(answers(k));
  }

  /** The relay answers 504 "Judge0 polling timed out." exactly when the submission was
      accepted and none of the `MaxAttempts` fetches stopped the polling. */
  lemma TimesOutIffNoAnswerStops(incoming: Incoming, submit: SubmitOutcome, answers: nat -> PollResponse)
    ensures Respond(incoming, submit, answers).reply == TimeoutReply <==>
              incoming.Parsed? && submit.Submitted? && forall j | 0 <= j < MaxAttempts :: !Stops(answers(j))
  {
    if incoming.Parsed? && submit.Submitted? {
      var k := FirstStop(answers, 0);
      if k < MaxAttempts {
        assert Stops(answers(k));
        match answers(k)
        case Polled(r) =>
        case PollRejected(_, _) =>
        case PollThrew(_) =>
      }
    }
  }

  /** A terminal status on the last allowed fetch is still a result, not a timeout. */
  lemma TerminalOnLastFetchIsResult(incoming: Incoming, submit: SubmitOutcome, answers: nat -> PollResponse)
    requires incoming.Parsed? && submit.Submitted?
    requires forall j | 0 <= j < MaxAttempts - 1 :: !Stops(answers(j))
    requires answers(MaxAttempts - 1).Polled? && IsTerminal(answers(MaxAttempts - 1).result)
    ensures Respond(incoming, submit, answers) == RelayRun(Reply(200, ResultBody(answers(MaxAttempts - 1).result)), MaxAttempts)
  {
    FirstStoppingAnswerDecides(incoming, submit, answers, MaxAttempts - 1);
  }

  lemma {:induction false} FirstStopAgrees(a1: nat -> PollResponse, a2: nat -> PollResponse, from: nat)
    requires from <= MaxAttempts
    requires forall j | from <= j < MaxAttempts && j <= FirstStop(a1, from) :: a1(j) == a2(j)
    ensures FirstStop(a1, from) == FirstStop(a2, from)
    decreases MaxAttempts - from
  {
    if from < MaxAttempts && !Stops(a1(from)) {
      FirstStopAgrees(a1, a2, from + 1);
    }
  }

  /** The reply depends only on the answers actually fetched: two networks that agree on
      those give the same reply and the same fetch count. */
  lemma OutcomeDependsOnlyOnFetchedAnswers(incoming: Incoming, submit: SubmitOutcome, a1: nat -> PollResponse, a2: nat -> PollResponse)
    requires forall j | 0 <= j < Respond(incoming, submit, a1).fetches :: a1(j) == a2(j)
    ensures Respond(incoming, submit, a1) == Respond(incoming, submit, a2)
  {
    if incoming.Parsed? && submit.Submitted? {
      FirstStopAgrees(a1, a2, 0);
    }
  }

  /** The reply's status is a success status exactly when it carries a backend result. */
  lemma ReplyStatusMatchesBody(incoming: Incoming, submit: SubmitOutcome, answers: nat -> PollResponse)
    ensures var reply := Respond(incoming, submit, answers).reply;
            reply.body.ResultBody? <==> 200 <= reply.status <= 299
  {
    if incoming.Parsed? && submit.Submitted? {
      var k := FirstStop(answers, 0);
      if k < MaxAttempts {
        match answers(k)
        case Polled(r) =>
        case PollRejected(_, _) =>
        case PollThrew(_) =>
      }
    }
  }
}
