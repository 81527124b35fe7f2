/** The request dispatcher `_request`, apart from the object that holds its
    configuration: how headers are merged and how the outcome of the one
    HTTP exchange becomes a return value or a raised error. */
module Dispatch {
  import opened Wrappers
  import opened PyJson
  import opened Http
  import opened Errors

  /** What `_request` returns: the response object itself (`parse_json=False`),
      `None` (204 No Content), or the decoded JSON body. */
  datatype Reply = RawResponse(response: Response) | NoneValue | JsonValue(value: Json)

  /** The keyword arguments `_request` forwards: an optional `headers`
      override (popped and merged, never forwarded as is), the query
      `params`, and the body. */
  datatype Kwargs = Kwargs(headers: Option<map<string, string>>, params: map<string, string>, payload: Payload)

  /** The header values fixed at construction: the bearer token
      (section 2.1 of RFC 6750) and a default `Accept`. */
  function BaseHeaders(apiKey: string): (h: map<string, string>)
    ensures h.Keys == {"Authorization", "Accept"}
    ensures h["Authorization"] == "Bearer " + apiKey
    ensures h["Accept"] == "application/json"
  {
    map["Authorization" := "Bearer " + apiKey, "Accept" := "application/json"]
  }

  /** `merged` is `base` updated with `overrides`: it has exactly the keys of
      both, an overridden key has the caller's value, any other key keeps the
      base value. */
  ghost predicate MergedFrom(merged: map<string, string>, base: map<string, string>, overrides: Option<map<string, string>>)
  {
    var over := if overrides.Some? then overrides.value else map[];
    && merged.Keys == base.Keys + over.Keys
    && (forall k :: k in over ==> merged[k] == over[k])
    && (forall k :: k in base && k !in over ==> merged[k] == base[k])
  }

  /** Python's `d.update(overrides)` on a copy of `d`. */
  function Update(d: map<string, string>, overrides: map<string, string>): (r: map<string, string>)
    ensures MergedFrom(r, d, Some(overrides))
  {
    d + overrides
  }

  /** Merging over the construction headers keeps the credentials and the
      default `Accept` unless the caller overrides those very keys. */
  lemma MergeKeepsBaseHeaders(merged: map<string, string>, apiKey: string, overrides: Option<map<string, string>>)
    requires MergedFrom(merged, BaseHeaders(apiKey), overrides)
    ensures "Authorization" in merged && "Accept" in merged
    ensures (overrides.None? || "Authorization" !in overrides.value) ==> merged["Authorization"] == "Bearer " + apiKey
    ensures (overrides.None? || "Accept" !in overrides.value) ==> merged["Accept"] == "application/json"
    ensures overrides.Some? && "Accept" in overrides.value ==> merged["Accept"] == overrides.value["Accept"]
    ensures forall k :: k in merged ==> k in BaseHeaders(apiKey) || (overrides.Some? && k in overrides.value)
  {
  }

  /** The outcome of `_request` once the exchange `ex` with `url` is over.
      A response that passed the status check is returned raw when
      `parse_json` is off (even a 204), as `None` for a 204, else decoded;
      a body that does not decode is a request failure like a transport
      failure. An `HTTPError` is classified by its status. Every failure is
      one of the client's API errors; none is a caller-side `ValueError`. */
  function Settle(ex: Exchange, parseJson: bool, url: string): (r: Result<Reply, ClientError>)
    ensures r.Success? ==> ex.Answered?
    ensures r.Failure? ==> r.error.IsApiError()
    ensures ex.Answered? && !parseJson ==> r == Success(RawResponse(ex.response))
    ensures ex.Answered? && parseJson && ex.response.status == NoContent ==> r == Success(NoneValue)
    ensures ex.Answered? && parseJson && ex.response.status != NoContent ==>
      (r.Success? <==> ex.response.json.Parsed?) &&
      (r.Success? ==> r.value == JsonValue(ex.response.json.value)) &&
      (r.Failure? ==> r.error == DocumentExtractorAPIError(RequestFailedMessage(url, ex.response.json.reason), None, None))
    ensures ex.TransportFailed? ==> r == Failure(DocumentExtractorAPIError(RequestFailedMessage(url, ex.reason), None, None))
    ensures ex.HttpErrorRaised? ==>
      r == Failure(Classify(StatusOf(ex.errorResponse), BestEffortDetails(ex.errorResponse), url))
  {
    match ex
    case TransportFailed(reason) =>
      Failure(DocumentExtractorAPIError(RequestFailedMessage(url, reason), None, None))
    case HttpErrorRaised(response) =>
      Failure(Classify(StatusOf(response), BestEffortDetails(response), url))
    case Answered(response) =>
      if !parseJson then Success(RawResponse(response))
      else if response.status == NoContent then Success(NoneValue)
      else match response.json
        case Parsed(j) => Success(JsonValue(j))
        case Malformed(why) => Failure(DocumentExtractorAPIError(RequestFailedMessage(url, why), None, None))
  }

  /** An `HTTPError` whose response has a 4xx or 5xx status (the statuses
      `raise_for_status` rejects) never falls through to the catch-all error:
      it is always one of the four specific kinds and keeps its status. */
  lemma ErrorStatusIsNeverGeneric(response: Response, parseJson: bool, url: string)
    requires 400 <= response.status < 600
    ensures var r := Settle(HttpErrorRaised(Some(response)), parseJson, url);
      && r.Failure?
      && !r.error.DocumentExtractorAPIError?
      && (r.error.ClientRequestError? || r.error.APIServerError? ==> r.error.statusCode == response.status)
  {
  }
}
