/** The payloads the Judge0 execution backend sends back, as far as the relay and the
    page read them. */
module Judge0 {
  import opened Js

  /** Judge0's status ids: 1 In Queue, 2 Processing, 3 Accepted, 4 and up are the
      error classes (wrong answer, time limit exceeded, compilation error, ...). */
  const InQueue := 1
  const Processing := 2
  const Accepted := 3

  /** The `status` object of a submission: `{id, description}`, either field may be missing. */
  datatype StatusInfo = StatusInfo(id: Option<int>, description: Option<string>)

  /** The JSON object returned by `GET /submissions/{token}`. */
  datatype ExecutionResult = ExecutionResult(
    status: Option<StatusInfo>,
    stdout: Option<string>,
    stderr: Option<string>,
    compileOutput: Option<string>,
    message: Option<string>)

  /** The JSON body of a failed backend call, abstracted to its `message` field, the only
      part of it the page ever reads. */
  datatype ErrorData = ErrorData(message: Option<string>)

  /** `result.status?.id` */
  function StatusIdOf(r: ExecutionResult): Option<int> {
    if r.status.Some? then r.status.value.id else None
  }

  /** `result.status?.description` */
  function StatusDescriptionOf(r: ExecutionResult): Option<string> {
    if r.status.Some? then r.status.value.description else None
  }
}
