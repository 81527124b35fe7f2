/** Run results in the requested format: what `get_workflow_run_results`
    does with the raw response once the exchange has succeeded. */
module Results {
  import opened Wrappers
  import opened PyJson
  import opened Http
  import opened Errors
  import opened Dispatch

  /** The members of the result-format enum the client branches on. */
  datatype FormatKind = JsonFormat | CsvFormat | ExcelFormat | OtherFormat

  /** A requested format: which member it is, its `.value` (the media type
      sent as `Accept`) and its `str()` (used in the error message). */
  datatype ResultFormat = ResultFormat(kind: FormatKind, value: string, shown: string)

  /** The typed result object, built from the decoded body by the result model. */
  datatype RunResult = RunResult(payload: Json)

  /** What `RunResult(**json_data)` does: builds the object, or raises `TypeError`. */
  datatype Construction = Built(result: RunResult) | TypeMismatch(reason: string)

  /** The three shapes a result comes back in. */
  datatype RunResults = Structured(result: RunResult) | CsvText(text: string) | ExcelBytes(bytes: seq<byte>)

  const DecodeFailedMessage := "Failed to decode JSON response for RunResult."

  function MismatchMessage(data: Json, reason: string): string
  {
    "Mismatched JSON structure for RunResult: " + Str(data) + ". Error: " + reason
  }

  /** The result for `format` given what `_request(..., parse_json=False)`
      produced. An API error of the exchange is raised as it is, whatever the
      format. After a successful exchange: CSV is the body text verbatim,
      EXCEL the body bytes verbatim, JSON the object built from the decoded
      body; a body that does not decode, an object that cannot be built and
      an unsupported format are `ValueError`s, never API errors. */
  function FromResponse(settled: Result<Reply, ClientError>, format: ResultFormat, build: Json -> Construction): (r: Result<RunResults, ClientError>)
    requires settled.Success? ==> settled.value.RawResponse?
    requires settled.Failure? ==> settled.error.IsApiError()
    ensures settled.Failure? ==> r == Failure(settled.error)
    ensures r.Failure? && r.error.ValueError? <==> settled.Success? && r.Failure?
    ensures settled.Success? && format.kind == CsvFormat ==> r == Success(CsvText(settled.value.response.text))
    ensures settled.Success? && format.kind == ExcelFormat ==> r == Success(ExcelBytes(settled.value.response.content))
    ensures settled.Success? && format.kind == OtherFormat ==>
      r == Failure(ValueError("Unsupported accept_format: " + format.shown))
    ensures settled.Success? && format.kind == JsonFormat ==>
      var body := settled.value.response.json;
      && (body.Malformed? ==> r == Failure(ValueError(DecodeFailedMessage)))
      && (body.Parsed? && build(body.value).Built? ==> r == Success(Structured(build(body.value).result)))
      && (body.Parsed? && build(body.value).TypeMismatch? ==>
            r == Failure(ValueError(MismatchMessage(body.value, build(body.value).reason))))
  {
    match settled
    case Failure(e) => Failure(e)
    case Success(reply) =>
      var response := reply.response;
      match format.kind
      case JsonFormat =>
        (match response.json
         case Malformed(_) => Failure(ValueError(DecodeFailedMessage))
         case Parsed(data) =>
           match build(data)
           case Built(result) => Success(Structured(result))
           case TypeMismatch(why) => Failure(ValueError(MismatchMessage(data, why))))
      case CsvFormat => Success(CsvText(response.text))
      case ExcelFormat => Success(ExcelBytes(response.content))
      case OtherFormat => Failure(ValueError("Unsupported accept_format: " + format.shown))
  }
}
