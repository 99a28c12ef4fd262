# Code-judging pipeline: relay and per-test-case verdicts

This project models the two parts of the coding-challenge front end that judge code:

- the same-origin relay `POST /api/judge0` (`frontend/src/app/api/judge0/route.ts`). It
  builds one Judge0 submission with fixed resource limits and submits it once. It then
  polls the submission's status at most 10 times, 500 ms apart, and stops at the first
  status id of 3 or more. It answers with that result, with the failing call's status,
  with 504 when polling runs out, or with 500 when an exception is thrown;
- the page's `runCode` (`frontend/src/app/code/page.tsx`). For each test case, in order,
  it appends a `print(countPrimes(<input>))` line to the user's Python code and sends it
  to the relay. It then turns the response into one result row: the shown output, a
  status label, a pass/fail flag and an error text. Each field comes from a fixed
  JavaScript `||` fallback chain.

Files and modules:

- `js.dfy`, module `Js`: the JavaScript semantics the code relies on. It covers optional
  values and their truthiness, where `""` and `0` are falsy. It also has the `a || b || c`
  chain (`FirstTruthy`), `String.prototype.trim` over ECMAScript's whitespace set, and the
  decimal text a template literal produces for an integer that a JavaScript Number holds
  exactly.
- `judge0.dfy`, module `Judge0`: the Judge0 payloads the code reads.
- `route.dfy`, module `Judge0Route`: the relay. `Respond` is the specification, a function
  of the request and of the network's answers. `Post` is the handler with its `while`
  loop, and it is proved equal to `Respond`.
- `page.dfy`, module `CodePage`: `Verdict` is the pure per-case mapping. `RunTestCase` is
  one loop iteration with the source's mutable locals. `RunCode` is the order-preserving
  loop.
- `pipeline.dfy`, module `Pipeline`: what the page makes of each reply the relay can give.

The network is an input everywhere. For the relay, `submit` is what the submission call
yields and `answers(n)` is what the n-th status fetch yields. For the page, `answer(i)` is
what the i-th relay call yields. A failed transport and a body that is not JSON both show
up in the code as thrown exceptions, so the model folds them into the `Threw`/`Thrown`
constructors.

Behaviour of the code worth knowing:

- A case whose polling timed out is judged `isCorrect = false` with status "API Error"
  (`TimedOutCaseIsJudgedIncorrect`).
- The shown output is the trimmed `stdout` whenever `stdout` is non-empty, whatever the
  status id.
- `trim` strips whitespace at both ends.
- The page computes no aggregate "all correct" flag and persists nothing.
- The relay's 500 reply puts the exception's message in `details` as a string. The page
  reads `details?.message`, which a string does not have, so it shows "Internal server
  error" (`RelayExceptionIsInternalError`).

## Model

| member | source | states |
|---|---|---|
| `Js.FirstTruthy` | frontend/src/app/code/page.tsx:99-116 | an or-chain of optional strings yields the first candidate that is present and non-empty, and the fallback when there is none |
| `Js.Trim` | frontend/src/app/code/page.tsx:99 | `trim()` returns a substring of its input that has only whitespace around it and no whitespace at either end |
| `Js.TrimOfPadded` | frontend/src/app/code/page.tsx:98-99 | trimming any whitespace padding off a text with no whitespace at its ends gives back exactly that text |
| `Js.TrimIdempotent` | frontend/src/app/code/page.tsx:99 | trimming twice equals trimming once |
| `Js.NaturalTextRoundTrip` | frontend/src/app/code/page.tsx:81 | the digits interpolated for a non-negative input read back as that input |
| `Js.DecimalInjective` | frontend/src/app/code/page.tsx:81 | distinct integer inputs are interpolated as distinct texts |
| `Judge0Route.BuildSubmissionBody` | frontend/src/app/api/judge0/route.ts:16-29 | the submission copies code, language id and stdin, and has cpu limit 2, memory limit 128000, stderr redirected to stdout and no base64 encoding; `compiler_options` is present only when the request's value is truthy, and then equals it |
| `Judge0Route.IsTerminal` | frontend/src/app/api/judge0/route.ts:74-80 | `statusId && statusId >= 3` holds exactly when a status id is present and at least 3 |
| `Judge0Route.UnfinishedResultKeepsPolling` | frontend/src/app/api/judge0/route.ts:76-83 | a result "In Queue" (1) or "Processing" (2), or with a missing or zero status id, does not end the polling |
| `Judge0Route.FirstStop` | frontend/src/app/api/judge0/route.ts:57-84 | the attempt at which polling stops is the first whose answer is terminal, rejected or thrown, and is `MaxAttempts` when no attempt's answer is |
| `Judge0Route.Respond` | frontend/src/app/api/judge0/route.ts:11-97 | at most 10 status fetches are made; none unless the request parsed and the submission was accepted; a rejected submission returns its status and "Failed to submit code to Judge0"; an exception returns 500; a passed-on result is the terminal answer of the last fetch, after only non-terminal answers |
| `Judge0Route.Post` | frontend/src/app/api/judge0/route.ts:11-97 | the handler, with its polling loop, returns exactly the reply and fetch count of `Respond`, sends the submission body that `BuildSubmissionBody` specifies exactly when the request parsed, and sleeps 500 ms before each fetch, at most 5000 ms in all |
| `Judge0Route.FirstStoppingAnswerDecides` | frontend/src/app/api/judge0/route.ts:64-82 | polling ends at the first answer that stops it, after k+1 fetches: a terminal result is passed on unchanged with 200, a rejected fetch returns that fetch's status and "Failed to fetch Judge0 result", an exception returns 500 |
| `Judge0Route.TimesOutIffNoAnswerStops` | frontend/src/app/api/judge0/route.ts:86-89 | the 504 "Judge0 polling timed out." reply is given exactly when the submission was accepted and none of the 10 fetches stopped the polling |
| `Judge0Route.TerminalOnLastFetchIsResult` | frontend/src/app/api/judge0/route.ts:57-92 | a terminal status on the 10th fetch is returned as a result with 200 after 10 fetches, not as a timeout |
| `Judge0Route.OutcomeDependsOnlyOnFetchedAnswers` | frontend/src/app/api/judge0/route.ts:54-84 | two backends that give the same answers to the fetches actually made lead to the same reply and fetch count |
| `Judge0Route.ReplyStatusMatchesBody` | frontend/src/app/api/judge0/route.ts:43-95 | the reply has a success status exactly when it carries a Judge0 result |
| `CodePage.ProgramTextInjective` | frontend/src/app/code/page.tsx:81 | different test inputs are sent as different programs |
| `CodePage.OkOutputPrecedence` | frontend/src/app/code/page.tsx:99-100 | on an OK response the output is the trimmed stdout if stdout is non-empty, else compile output, else stderr, else "No output"; the status is the description, else "Unknown Status" |
| `CodePage.Verdict` | frontend/src/app/code/page.tsx:72-128 | a row carries its case's input and expected output and always a boolean `isCorrect`; it passes exactly when the response is OK, the status id is 3 and the output equals the expected output; its error is null exactly in that accepted case; a non-OK response gives "API Error" and a thrown one "Client Error", each with its own fallback chain |
| `CodePage.AcceptedMatchingOutputPasses` | frontend/src/app/code/page.tsx:97-104 | an accepted run printing the expected text (possibly empty) and a newline passes, with the trimmed text as its output |
| `CodePage.RejectedRunFailsDespiteMatch` | frontend/src/app/code/page.tsx:103-108 | any run whose status id is not 3 fails whatever it printed, and its error is the first non-empty of compile output, stderr and message, else "Execution failed." |
| `CodePage.PageRequestsAreDistinct` | frontend/src/app/code/page.tsx:14-18 | the page's three test cases (inputs 10, 0, 20) are sent as three different programs for any user code |
| `CodePage.RunTestCase` | frontend/src/app/code/page.tsx:72-128 | one iteration sends the user's code followed by the `print(countPrimes(input))` line, with language 71, empty stdin and no compiler options, and pushes the row `Verdict` specifies |
| `CodePage.RunCode` | frontend/src/app/code/page.tsx:65-132 | the loop sends exactly the requests `Requests` lists and pushes exactly the rows `Verdicts` lists: one per test case, in test-case order |
| `CodePage.RequestsAt` | frontend/src/app/code/page.tsx:71-93 | the i-th request sent is the one built for the i-th test case |
| `CodePage.VerdictsAt` | frontend/src/app/code/page.tsx:71-128 | the i-th row pushed is the verdict on the i-th test case and the i-th relay response |
| `Pipeline.TimedOutCaseIsJudgedIncorrect` | frontend/src/app/api/judge0/route.ts:87-89 | a case whose polling timed out is shown as "API Error", `isCorrect = false`, error "Judge0 polling timed out." |
| `Pipeline.RejectedSubmissionIsApiError` | frontend/src/app/api/judge0/route.ts:40-47 | a rejected submission makes no fetch and gives "API Error", `isCorrect = false`, with Judge0's message or else "Failed to submit code to Judge0" |
| `Pipeline.RelayExceptionIsInternalError` | frontend/src/app/api/judge0/route.ts:93-96 | an exception while reading the request, while submitting, or on the fetch that ends the polling gives "API Error", `isCorrect = false`, error "Internal server error" |
| `Pipeline.PassIffAcceptedMatchingResult` | frontend/src/app/code/page.tsx:103-104 | a case passes exactly when the relay passed on the terminal result of its last fetch, with status id 3 and output equal to the expected output |

## Left out

- Network and runtime effects: `fetch`, `req.json()` and `response.json()`, the backend URL
  taken from the environment, and `console` logging. The network is a parameter.
- The 500 ms sleep itself: `Post` only counts the milliseconds it would spend.
- JSON values of unexpected types: a non-string `code`, `stdin`, `stdout` or
  `compiler_options`, or a non-integer status id. The request's `code`, `language_id` and
  `stdin` are always present, because the only caller sends all three
  (frontend/src/app/code/page.tsx:88-92); the other fields are `string`/`int` or absent.
  Numeric truthiness is modelled for the status id only.
- A status-fetch body of JSON `null` makes `result.status` throw (`PollThrew`); any other
  non-object JSON reads as a non-terminal result with no status (a `Polled` result with
  every field absent).
- Judge0's error bodies are reduced to their `message` field, the only part the page
  reads.
- The test-case input is an integer of magnitude at most 2^53 - 1 (`SafeInteger`), the
  range a JavaScript Number holds exactly. Beyond it JavaScript prints the shortest digits
  that identify the nearest Number, which `Decimal` does not model. Exponent form for
  magnitudes of 1e21 and above, and fractional numbers, are not modelled either.
- React state, rendering and the JSX of the page, the other pages and components, the
  submission-history routes, and the embedded `countPrimes` template.
- Strings are sequences of Unicode scalar values, while JavaScript strings are sequences
  of UTF-16 code units. A lone surrogate, such as a JSON `"\ud800"` in `stdout`, cannot
  be represented.
- There is no concurrency: every `await` runs in sequence.
