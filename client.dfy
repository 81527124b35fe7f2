/** The client object: its configuration, the dispatcher every operation goes
    through, and the operations built on it. The network is the parameter
    `send`: what the transport makes of the request it is handed. Every
    operation returns the request it handed over, so what was sent (or that
    nothing was) is part of its contract. No method changes the client. */
module ApiClient {
  import opened Wrappers
  import opened PyJson
  import opened Http
  import opened Errors
  import opened Dispatch
  import opened Endpoints
  import opened Results
  import opened Upload
  import PyText

  class DocumentExtractorAPIClient {
    var rootUrl: string
    var apiKey: string
    var headers: map<string, string>

    /** What construction establishes: a root without trailing `/`, and the
        base headers for the key. */
    ghost predicate Valid()
      reads this
    {
      !PyText.EndsWith(rootUrl, '/') && headers == BaseHeaders(apiKey)
    }

    constructor (rootUrl: string, apiKey: string)
      ensures this.rootUrl == PyText.RStrip(rootUrl, '/')
      ensures this.apiKey == apiKey
      ensures this.headers == BaseHeaders(apiKey)
      ensures Valid()
    {
      this.rootUrl := PyText.RStrip(rootUrl, '/');
      this.apiKey := apiKey;
      this.headers := BaseHeaders(apiKey);
    }

    /** `_request`: one request to the root followed by `path`, with the
        client's headers updated by the caller's on a copy, and its outcome
        settled. */
    method Request(verb: Method, path: string, parseJson: bool, kwargs: Kwargs, send: HttpRequest -> Exchange)
      returns (sent: HttpRequest, r: Result<Reply, ClientError>)
      ensures sent.verb == verb && sent.url == rootUrl + path
      ensures sent.params == kwargs.params && sent.payload == kwargs.payload
      ensures MergedFrom(sent.headers, headers, kwargs.headers)
      ensures r == Settle(send(sent), parseJson, sent.url)
    {
      var url := rootUrl + path;
      var requestHeaders := headers;
      if kwargs.headers.Some? {
        requestHeaders := Update(requestHeaders, kwargs.headers.value);
      }
      sent := HttpRequest(verb, url, requestHeaders, kwargs.params, kwargs.payload);
      r := Settle(send(sent), parseJson, url);
    }

    /** An endpoint that is a single `_request` call: sent on its route with
        the client's own headers; a delete returns `None` once the exchange
        succeeds, every other endpoint returns what `_request` returns. */
    method Call(e: Endpoint, send: HttpRequest -> Exchange)
      returns (sent: HttpRequest, r: Result<Reply, ClientError>)
      ensures var route := RouteOf(e);
        && sent.verb == route.verb && sent.url == rootUrl + route.path
        && sent.headers == headers && sent.params == map[] && sent.payload == route.payload
      ensures var settled := Settle(send(sent), RouteOf(e).parseJson, sent.url);
        && (r.Failure? <==> settled.Failure?)
        && (r.Failure? ==> r == settled)
        && (e.IsDelete() && r.Success? ==> r.value == NoneValue)
        && (!e.IsDelete() ==> r == settled)
    {
      var route := RouteOf(e);
      sent, r := Request(route.verb, route.path, route.parseJson, Kwargs(None, map[], route.payload), send);
      if e.IsDelete() && r.Success? {
        r := Success(NoneValue);
      }
    }

    /** `upload_file`: a missing name for in-memory content is refused before
        anything is sent; otherwise one multipart `POST` to the files
        collection. */
    method UploadFile(filePath: string, content: Option<seq<byte>>, filename: Option<string>,
                      guessType: string -> Option<string>, send: HttpRequest -> Exchange)
      returns (sent: Option<HttpRequest>, r: Result<Reply, ClientError>)
      ensures sent.None? <==> content.Some? && filename.None?
      ensures sent.None? ==> r == Failure(ValueError(MissingFilenameMessage))
      ensures sent.Some? ==>
        var plan := PlanUpload(filePath, content, filename, guessType);
        && plan.Success?
        && sent.value == HttpRequest(POST, rootUrl + FilesPath, headers, map[], Multipart(FileField, plan.value))
        && r == Settle(send(sent.value), true, sent.value.url)
    {
      var plan := PlanUpload(filePath, content, filename, guessType);
      if plan.Failure? {
        return None, Failure(plan.error);
      }
      var request, response := Request(POST, FilesPath, true, Kwargs(None, map[], Multipart(FileField, plan.value)), send);
      sent, r := Some(request), response;
    }

    /** `get_workflow_run_results`: always one `GET` of the run's results,
        negotiated by `Accept` and with `format_option` as a query parameter
        only when it is a non-empty string; the raw response is then read
        according to the format. */
    method GetWorkflowRunResults(workflow: Uuid, runNum: int, format: ResultFormat, formatOption: Option<string>,
                                 send: HttpRequest -> Exchange, build: Json -> Construction)
      returns (sent: HttpRequest, r: Result<RunResults, ClientError>)
      ensures sent.verb == GET && sent.url == rootUrl + RunResultsPath(workflow, runNum) && sent.payload == NoPayload
      ensures sent.params.Keys <= {"format_option"}
      ensures "format_option" in sent.params <==> formatOption.Some? && formatOption.value != ""
      ensures "format_option" in sent.params ==> sent.params["format_option"] == formatOption.value
      ensures sent.headers.Keys == headers.Keys + {"Accept"}
      ensures sent.headers["Accept"] == format.value
      ensures forall k :: k in headers && k != "Accept" ==> sent.headers[k] == headers[k]
      ensures Valid() ==> sent.headers["Authorization"] == "Bearer " + apiKey
      ensures r == FromResponse(Settle(send(sent), false, sent.url), format, build)
    {
      var path := RunResultsPath(workflow, runNum);
      var params: map<string, string> := map[];
      if formatOption.Some? && formatOption.value != "" {
        params := params["format_option" := formatOption.value];
      }
      var customHeaders := headers;
      customHeaders := customHeaders["Accept" := format.value];
      var response;
      sent, response := Request(GET, path, false, Kwargs(Some(customHeaders), params, NoPayload), send);
      r := FromResponse(response, format, build);
    }
  }
}
