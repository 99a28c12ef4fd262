/** The coding-challenge page's `runCode`: for each test case, in order, it wraps the
    user's code with a call on the case's input, sends it to the relay, and turns the
    relay's response into one `TestCaseResult`.

    The network is an input: `answer(i)` is what `fetch("/api/judge0", ...)` followed by
    `response.json()` yields for the i-th test case. */
module CodePage {
  import opened Js
  import opened Judge0
  import Judge0Route

  /** Judge0's language id for Python 3. */
  const PythonLanguageId := 71

  const InitialStatus := "Error"
  const UnknownStatus := "Unknown Status"
  const NoOutput := "No output"
  const ExecutionFailed := "Execution failed."
  const ApiErrorStatus := "API Error"
  const FailedToExecute := "Failed to execute code."
  const ClientErrorStatus := "Client Error"
  const NetworkError := "Network or unexpected error."

  /** A test case of the page: a numeric input to `countPrimes`, an integer that a
      JavaScript Number holds exactly, and the expected printed text. */
  datatype TestCase = TestCase(input: SafeInteger, expectedOutput: string)

  /** The page's fixed test cases. */
  const PageTestCases := [TestCase(10, "4"), TestCase(0, "0"), TestCase(20, "8")]

  /** One row of the results; `None` stands for `null`. */
  datatype TestCaseResult = TestCaseResult(
    input: int,
    expectedOutput: string,
    actualOutput: Option<string>,
    status: string,
    isCorrect: Option<bool>,
    error: Option<string>)

  /** The JSON body of a non-OK relay response, as far as the page reads it:
      `data.error` and `data.details?.message`. */
  datatype ApiErrorData = ApiErrorData(error: Option<string>, detailsMessage: Option<string>)

  /** What one relay call yields to the page: an OK response and its JSON, a non-OK
      response and its JSON, or an exception (from `fetch` or from `response.json()`). */
  datatype RelayResponse =
    | Ok(data: ExecutionResult)
    | NotOk(body: ApiErrorData)
    | Thrown(message: Option<string>)

  /** The text appended to the user's code before and after the case's input. */
  const CallPrefix := "\n\nprint(countPrimes("
  const CallSuffix := "))"

  /** The program sent for one test case: the user's code, a blank line, and a line
      printing `countPrimes` of the case's input. */
  function ProgramText(code: string, input: int): string
  {
    code + CallPrefix + Decimal(input) + CallSuffix
  }

  /** The relay request for one test case: the wrapped program, Python, empty stdin, no
      compiler options. */
  function RequestFor(code: string, tc: TestCase): Judge0Route.RelayRequest {
    Judge0Route.RelayRequest(ProgramText(code, tc.input), PythonLanguageId, "", None)
  }

  /** Different inputs are sent as different programs. */
  lemma ProgramTextInjective(code: string, a: int, b: int)
    requires ProgramText(code, a) == ProgramText(code, b)
    ensures a == b
  {
    var prefix := code + CallPrefix;
    var pa, pb := ProgramText(code, a), ProgramText(code, b);
    assert pa == prefix + Decimal(a) + CallSuffix;
    assert pb == prefix + Decimal(b) + CallSuffix;
    assert Decimal(a) == pa[|prefix|..|pa| - 2];
    assert Decimal(b) == pb[|prefix|..|pb| - 2];
    DecimalInjective(a, b);
  }

  // ---------------------------------------------------------------------------
  // The fallback chains

  /** `data.stdout ? data.stdout.trim() : data.compile_output || data.stderr || "No output"` */
  function OutputOf(data: ExecutionResult): string {
    if Truthy(data.stdout) then Trim(data.stdout.value)
    else FirstTruthy([data.compileOutput, data.stderr], NoOutput)
  }

  /** `data.status?.description || "Unknown Status"` */
  function StatusLabel(data: ExecutionResult): string {
    FirstTruthy([StatusDescriptionOf(data)], UnknownStatus)
  }

  /** `data.compile_output || data.stderr || data.message || "Execution failed."` */
  function ExecutionError(data: ExecutionResult): string {
    FirstTruthy([data.compileOutput, data.stderr, data.message], ExecutionFailed)
  }

  /** `data.details?.message || data.error || "Failed to execute code."` */
  function ApiErrorText(body: ApiErrorData): string {
    FirstTruthy([body.detailsMessage, body.error], FailedToExecute)
  }

  /** `err.message || "Network or unexpected error."` */
  function ClientErrorText(message: Option<string>): string {
    FirstTruthy([message], NetworkError)
  }

  /** `data.status?.id === 3` */
  predicate IsAccepted(data: ExecutionResult) {
    StatusIdOf(data) == Some(Accepted)
  }

  /** On an OK response the shown output is the trimmed stdout when stdout is non-empty,
      and otherwise the first non-empty of compile output and stderr, else "No output";
      the status is the backend's description, else "Unknown Status". */
  lemma OkOutputPrecedence(data: ExecutionResult)
    ensures Truthy(data.stdout) ==> OutputOf(data) == Trim(data.stdout.value)
    ensures !Truthy(data.stdout) && Truthy(data.compileOutput) ==> OutputOf(data) == data.compileOutput.value
    ensures !Truthy(data.stdout) && !Truthy(data.compileOutput) && Truthy(data.stderr) ==> OutputOf(data) == data.stderr.value
    ensures !Truthy(data.stdout) && !Truthy(data.compileOutput) && !Truthy(data.stderr) ==> OutputOf(data) == NoOutput
    ensures Truthy(StatusDescriptionOf(data)) ==> StatusLabel(data) == StatusDescriptionOf(data).value
    ensures !Truthy(StatusDescriptionOf(data)) ==> StatusLabel(data) == UnknownStatus
  {
    var candidates := [data.compileOutput, data.stderr];
    assert candidates[0] == data.compileOutput && candidates[1] == data.stderr;
  }

  // ---------------------------------------------------------------------------
  // One test case

  /** The result row `runCode` pushes for test case `tc` when the relay call yields `response`. */
  function Verdict(tc: TestCase, response: RelayResponse): (r: TestCaseResult)
    ensures r.input == tc.input && r.expectedOutput == tc.expectedOutput
    ensures r.isCorrect.Some?
    ensures r.isCorrect == Some(true) <==>
              response.Ok? && IsAccepted(response.data) && r.actualOutput == Some(tc.expectedOutput)
    ensures r.error.None? <==> response.Ok? && IsAccepted(response.data)
    ensures r.actualOutput.Some? <==> response.Ok?
    ensures response.Ok? ==> r.actualOutput == Some(OutputOf(response.data)) && r.status == StatusLabel(response.data)
    ensures response.Ok? && !IsAccepted(response.data) ==> r.error == Some(ExecutionError(response.data))
    ensures response.NotOk? ==> r.status == ApiErrorStatus && r.error == Some(ApiErrorText(response.body))
    ensures response.Thrown? ==> r.status == ClientErrorStatus && r.error == Some(ClientErrorText(response.message))
  {
    match response
    case Ok(data) =>
      var actual := OutputOf(data);
      var accepted := IsAccepted(data);
      TestCaseResult(tc.input, tc.expectedOutput, Some(actual), StatusLabel(data),
                     Some(accepted && actual == tc.expectedOutput),
                     if accepted then None else Some(ExecutionError(data)))
    case NotOk(body) =>
      TestCaseResult(tc.input, tc.expectedOutput, None, ApiErrorStatus, Some(false), Some(ApiErrorText(body)))
    case Thrown(message) =>
      TestCaseResult(tc.input, tc.expectedOutput, None, ClientErrorStatus, Some(false), Some(ClientErrorText(message)))
  }

  /** An accepted run printing the expected text followed by a newline passes. */
  lemma AcceptedMatchingOutputPasses(tc: TestCase, description: Option<string>)
    requires var t := tc.expectedOutput; t == [] || (!IsJsWhitespace(t[0]) && !IsJsWhitespace(t[|t| - 1]))
    ensures var data := ExecutionResult(Some(StatusInfo(Some(Accepted), description)), Some(tc.expectedOutput + "\n"), None, None, None);
            Verdict(tc, Ok(data)) == TestCaseResult(tc.input, tc.expectedOutput, Some(tc.expectedOutput),
                                                   StatusLabel(data), Some(true), None)
  {
    var t := tc.expectedOutput;
    assert AllWhitespace("\n");
    assert [] + t + "\n" == t + "\n";
    TrimOfPadded([], t, "\n");
    var data := ExecutionResult(Some(StatusInfo(Some(Accepted), description)), Some(t + "\n"), None, None, None);
    assert OutputOf(data) == t;
  }

  /** A run that is not accepted fails whatever it printed, and its error is the first
      non-empty of compile output, stderr and message, else "Execution failed.". */
  lemma RejectedRunFailsDespiteMatch(tc: TestCase, data: ExecutionResult)
    requires !IsAccepted(data)
    ensures Verdict(tc, Ok(data)).isCorrect == Some(false)
    ensures Truthy(data.compileOutput) ==> Verdict(tc, Ok(data)).error == data.compileOutput
    ensures !Truthy(data.compileOutput) && Truthy(data.stderr) ==> Verdict(tc, Ok(data)).error == data.stderr
    ensures !Truthy(data.compileOutput) && !Truthy(data.stderr) && Truthy(data.message) ==>
              Verdict(tc, Ok(data)).error == data.message
    ensures !Truthy(data.compileOutput) && !Truthy(data.stderr) && !Truthy(data.message) ==>
              Verdict(tc, Ok(data)).error == Some(ExecutionFailed)
  {
    var candidates := [data.compileOutput, data.stderr, data.message];
    assert candidates[0] == data.compileOutput && candidates[1] == data.stderr && candidates[2] == data.message;
  }

  /** The page's three test cases are sent as three different programs, whatever the
      user's code. */
  lemma PageRequestsAreDistinct(code: string)
    ensures forall i, j | 0 <= i < j < |PageTestCases| ::
              RequestFor(code, PageTestCases[i]) != RequestFor(code, PageTestCases[j])
  {
    forall i, j | 0 <= i < j < |PageTestCases|
      ensures RequestFor(code, PageTestCases[i]) != RequestFor(code, PageTestCases[j])
    {
      if ProgramText(code, PageTestCases[i].input) == ProgramText(code, PageTestCases[j].input) {
        ProgramTextInjective(code, PageTestCases[i].input, PageTestCases[j].input);
      }
    }
  }

  // ---------------------------------------------------------------------------
  // The loop

  /** One iteration of `runCode`'s loop: the request sent for `tc` and the row pushed
      in its `finally` block once the relay call has yielded `response`. */
  method RunTestCase(code: string, tc: TestCase, response: RelayResponse)
    returns (request: Judge0Route.RelayRequest, row: TestCaseResult)
    ensures request == RequestFor(code, tc)
    ensures row == Verdict(tc, response)
  {
    var actualOutput: Option<string> := None;
    var status := InitialStatus;
    var isCorrect: Option<bool> := None;
    var error: Option<string> := None;

    var codeToExecute := ProgramText(code, tc.input);
    request := Judge0Route.RelayRequest(codeToExecute, PythonLanguageId, "", None);
    match response {
      case Ok(data) =>
        var output := OutputOf(data);
        actualOutput := Some(output);
        status := StatusLabel(data);
        if IsAccepted(data) {
          isCorrect := Some(output == tc.expectedOutput);
        } else {
          isCorrect := Some(false);
          error := Some(ExecutionError(data));
        }
      case NotOk(body) =>
        error := Some(ApiErrorText(body));
        status := ApiErrorStatus;
        isCorrect := Some(false);
      case Thrown(message) =>
        error := Some(ClientErrorText(message));
        status := ClientErrorStatus;
        isCorrect := Some(false);
    }
    row := TestCaseResult(tc.input, tc.expectedOutput, actualOutput, status, isCorrect, error);
  }

  /** `f` applied to each element of `xs` and its position, in order. */
  function MapIndexed<A, B>(xs: seq<A>, f: (A, nat) -> B): (ys: seq<B>)
    ensures |ys| == |xs|
  {
    if xs == [] then [] else MapIndexed(xs[..|xs| - 1], f) + [f(xs[|xs| - 1], |xs| - 1)]
  }

  lemma MapIndexedStep<A, B>(xs: seq<A>, f: (A, nat) -> B, i: nat)
    requires i < |xs|
    ensures MapIndexed(xs[..i + 1], f) == MapIndexed(xs[..i], f) + [f(xs[i], i)]
  {
    assert xs[..i + 1][..i] == xs[..i];
  }

  lemma {:induction false} MapIndexedAt<A, B>(xs: seq<A>, f: (A, nat) -> B, i: nat)
    requires i < |xs|
    ensures MapIndexed(xs, f)[i] == f(xs[i], i)
  {
    var n := |xs| - 1;
    if i < n {
      MapIndexedAt(xs[..n], f, i);
      assert xs[..n][i] == xs[i];
    }
  }

  /** The requests `runCode` sends for `testCases`, in order. */
  function Requests(code: string, testCases: seq<TestCase>): seq<Judge0Route.RelayRequest> {
    MapIndexed(testCases, (tc: TestCase, i: nat) => RequestFor(code, tc))
  }

  /** The rows `runCode` pushes for `testCases`, the i-th case's response being `answer(i)`. */
  function Verdicts(testCases: seq<TestCase>, answer: nat -> RelayResponse): seq<TestCaseResult> {
    MapIndexed(testCases, (tc: TestCase, i: nat) => Verdict(tc, answer(i)))
  }

  /** The i-th request sent is the one for the i-th test case. */
  lemma RequestsAt(code: string, testCases: seq<TestCase>, i: nat)
    requires i < |testCases|
    ensures Requests(code, testCases)[i] == RequestFor(code, testCases[i])
  {
    MapIndexedAt(testCases, (tc: TestCase, i: nat) => RequestFor(code, tc), i);
  }

  /** The i-th row pushed is the verdict on the i-th test case and the i-th response. */
  lemma VerdictsAt(testCases: seq<TestCase>, answer: nat -> RelayResponse, i: nat)
    requires i < |testCases|
    ensures Verdicts(testCases, answer)[i] == Verdict(testCases[i], answer(i))
  {
    MapIndexedAt(testCases, (tc: TestCase, i: nat) => Verdict(tc, answer(i)), i);
  }

  /** `runCode`: sends one request per test case, in order, and returns the requests sent
      and the result rows pushed. */
  method RunCode(code: string, testCases: seq<TestCase>, answer: nat -> RelayResponse)
    returns (sent: seq<Judge0Route.RelayRequest>, results: seq<TestCaseResult>)
    ensures sent == Requests(code, testCases)
    ensures results == Verdicts(testCases, answer)
  {
    sent, results := [], [];
    for i := 0 to |testCases|
      invariant sent == Requests(code, testCases[..i])
      invariant results == Verdicts(testCases[..i], answer)
    {
      var request, row := RunTestCase(code, testCases[i], answer(i));
      MapIndexedStep(testCases, (tc: TestCase, i: nat) => RequestFor(code, tc), i);
      MapIndexedStep(testCases, (tc: TestCase, i: nat) => Verdict(tc, answer(i)), i);
      sent := sent + [request];
      results := results + [row];
    }
    assert testCases[..|testCases|] == testCases;
  }
}
