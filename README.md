# DocumentExtractor API client — a verified model of its request layer

The Python package `documentextractor_client` is a thin client for a remote
document-extraction service. Every operation goes through one dispatcher,
`DocumentExtractorAPIClient._request`. The dispatcher:

- builds the URL from the configured root;
- merges the bearer-token headers with the caller's overrides;
- makes exactly one HTTP exchange;
- turns the outcome into a return value or one of five typed API errors.

This project models that dispatcher and the decisions around it in Dafny:

- the constructor's root and header setup;
- the method, path and body of each endpoint;
- the argument handling of `upload_file`;
- the content negotiation of `get_workflow_run_results`.

It then proves what these promise.

The model lives in these files:

- `wrappers.dfy`: `Option` and `Result`.
- `pytext.dfy`: the Python string operations the client relies on: `rstrip`,
  `split`, `join` and `str(int)`. It proves that `rstrip` strips exactly the
  trailing run and that `split` then `join` gives back the input. It also
  proves that the text of an integer is its decimal numeral and so
  determines the integer.
- `pyjson.dfy`: decoded JSON values, with Python truthiness, `dict.get`, and
  the `str()`/`repr()` text that f-strings insert.
- `http.dfy`: requests, responses and the outcome of an exchange. It also has
  the status classes of section 15 of RFC 9110 (204 No Content, 401, 403, 4xx,
  5xx).
- `errors.dfy`: the error taxonomy and how an `HTTPError` is classified. The
  error body is read best effort (decoded JSON, else raw text). The message of
  a `ClientRequestError` comes from a truthy `detail` member, else from a short
  string body, else from the status alone.
- `dispatch.dfy`: the base headers (the bearer token of section 2.1 of
  RFC 6750 and `Accept: application/json`), the header merge, and `Settle`.
  `Settle` is the outcome of `_request` once the exchange is over.
- `endpoints.dfy`: every single-request endpoint's method, path, JSON
  decoding and body. It proves that a route identifies its endpoint, and that
  run paths carry their workflow and run number unambiguously.
- `results.dfy`: how the raw response becomes a structured result, CSV text
  or Excel bytes, and which failures are `ValueError`s.
- `upload.dfy`: the precondition check, the file-name fallback and the MIME
  type fallback of `upload_file`.
- `client.dfy`: the class `DocumentExtractorAPIClient`, with the fields
  `rootUrl`, `apiKey` and `headers`. It has a constructor and the methods
  `Request` (`_request`), `Call` (the single-request endpoints), `UploadFile`
  and `GetWorkflowRunResults`.

How the outside world appears in the model:

- **The network** is the parameter `send: HttpRequest -> Exchange`. It maps
  the request handed to `requests.request` to what came back:
  - a transport failure;
  - an `HTTPError` from `raise_for_status`, with or without a response;
  - a response that passed the status check.
- **Every operation returns the request it sent.** `UploadFile` returns no
  request when it refuses its arguments, so "the check comes before any
  request" is part of its contract.
- **No method has a `modifies` clause.** So no operation can change the
  client, and in particular `headers` stays as it was. As in the source, the
  merge works on a copy.
- **`mimetypes.guess_type`** is the parameter `guessType`.
- **The JSON decoder's verdict** on a body is part of the `Response` value.
- **The result model's constructor `RunResult(**json_data)`** is the
  parameter `build`.

Behaviour of the client worth knowing (the model follows the code):

- An unsupported result format is reported only after the request has been
  made. `get_workflow_run_results` sends its request at
  `documentextractor_client/client.py:188`, before it looks at the format at
  lines 190-205. So in `GetWorkflowRunResults`, `sent` is always a request. If
  that exchange fails, its API error is raised instead of the `ValueError`.
- On the success path, a body that cannot be decoded as JSON (the
  `response.json()` at line 60) is a `DocumentExtractorAPIError` ("Request
  failed for …"). The decoding error is a `RequestException`, so the handler
  at line 94 catches it. This assumes the `requests` version named under
  "## Left out".
- A status of 0 is falsy in Python, so the fallback message at line 91 reads
  "HTTP Error Unknown for {url}", just as when the status is missing.
- The `except TypeError` at line 197 does not catch a result model's
  validation error. Pydantic's `ValidationError` is a `ValueError`, so a missing
  or mistyped field escapes `get_workflow_run_results` with Pydantic's own
  message, not "Mismatched JSON structure …". Only a `TypeError` from the
  keyword expansion `RunResult(**json_data)` gives the mismatch message,
  as when the body decodes to a list instead of a mapping. The input `build`
  stands for these two outcomes: it builds the result or raises `TypeError`.
- When an error body repeats the member `detail`, the message uses its last
  value, because Python's JSON decoder keeps the last value of a repeated name.

## Model

| member | source | states |
|---|---|---|
| `PyText.RStrip` | documentextractor_client/client.py:38 | `root_url.rstrip('/')` is a prefix of the input that does not end in `/`, and everything removed is `/` |
| `PyText.RStripUnique` | documentextractor_client/client.py:38 | any prefix with those two properties is the stripped root, so the contract determines the stored root |
| `PyText.RStripIdempotent` | documentextractor_client/client.py:38 | stripping an already stripped root changes nothing |
| `PyText.Split` | documentextractor_client/client.py:113 | `split('/')` yields at least one part and no part holds a `/` |
| `PyText.SplitJoin` | documentextractor_client/client.py:113 | joining the parts of `split('/')` with `/` gives back the path |
| `PyText.LastSegmentIsTail` | documentextractor_client/client.py:113 | `split('/')[-1]` is the suffix of the path after its last `/` (the whole path when there is none) and holds no `/` |
| `PyText.IntStrInjective` | documentextractor_client/client.py:170 | different run numbers print differently in a path |
| `PyText.IntStr` | documentextractor_client/client.py:79-91 | `str(n)` of a status or run number starts with `-` exactly when it is negative, and the rest is decimal digits without a leading zero (except for 0 itself) |
| `PyText.IntStrValue` | documentextractor_client/client.py:79-91 | `str(n)` is the decimal numeral of `n`: its digits, read in base ten, give `n`, after a leading `-` when `n` is negative |
| `PyJson.Get` | documentextractor_client/client.py:80 | `dict.get(key)` is `None` exactly when no member has that key, and otherwise it is the value of the last member with that key, which is the one Python's decoder keeps |
| `PyJson.Truthy` | documentextractor_client/client.py:80 | a decoded value is false exactly when it is `None`, `False`, `0`, `""`, `[]` or `{}` |
| `PyJson.QuoteReprRoundTrip` | documentextractor_client/client.py:81 | the `repr` of a string, as it appears inside a printed list or dict, is a string literal: same quote at both ends, and the text between reads back as the string |
| `PyJson.Repr` | documentextractor_client/client.py:81 | the printed form of a decoded value is never empty, and its first character tells lists, dicts, strings and numbers apart |
| `PyJson.Str` | documentextractor_client/client.py:81 | the text an f-string inserts is a string as it is and anything else as its `repr`; it is empty only for the empty string, so a truthy `detail` never prints as nothing |
| `Errors.StatusOf` | documentextractor_client/client.py:64 | the status is present exactly when the error carries a response, and then it is that response's status |
| `Errors.BestEffortDetails` | documentextractor_client/client.py:63-71 | the error body is absent without a response, is the decoded JSON when the body decodes, and is the raw text when it does not |
| `Errors.DetailOf` | documentextractor_client/client.py:80 | a `detail` is used exactly when the body is a JSON object whose `detail` member is present and truthy, and then it is that member |
| `Errors.TextOf` | documentextractor_client/client.py:82 | the body is a `str` exactly when it is the raw text or JSON that decoded to a string, and then it is that string |
| `Errors.ShortText` | documentextractor_client/client.py:82 | the short-string rule applies exactly to raw text or a decoded string of fewer than 100 characters, never to a decoded object or list |
| `Errors.ClientErrorMessage` | documentextractor_client/client.py:79-83 | the message starts with "Client error {s}". A truthy `detail` follows it; failing that, a string body shorter than 100 characters follows it. The message is the bare prefix exactly when neither applies, and a `detail` always adds text after the colon |
| `Errors.ClientErrorMessageNamesStatus` | documentextractor_client/client.py:79-83 | two 4xx messages that read the same come from the same status |
| `Errors.ClientErrorMessageSpellsStatus` | documentextractor_client/client.py:79-83 | the three characters after "Client error " in a 4xx message are the decimal status |
| `Errors.ServerErrorMessageSpellsStatus` | documentextractor_client/client.py:87 | the three characters after "Server error " in a 5xx message are the decimal status |
| `Errors.HttpErrorMessage` | documentextractor_client/client.py:91 | the fallback HTTP error's message ends with the request URL |
| `Errors.StatusText` | documentextractor_client/client.py:91 | the status reads "Unknown" exactly when it is missing or 0, and otherwise it is the decimal status |
| `Errors.RequestFailedMessage` | documentextractor_client/client.py:96 | the transport-failure message holds the URL right after its lead-in and ends with the underlying error |
| `Errors.Classify` | documentextractor_client/client.py:73-92 | 401 is `AuthenticationError` and 403 is `ForbiddenError`, both exactly. Every other 4xx-class status is `ClientRequestError`; every 5xx-class status is `APIServerError` ("Server error {s}"); both carry that status. Anything else is the generic error, with the URL in its message. Every kind keeps the best-effort body, and none is a `ValueError` |
| `Dispatch.BaseHeaders` | documentextractor_client/client.py:40-43 | the base headers are exactly `Authorization: Bearer <key>` and `Accept: application/json` |
| `Dispatch.Update` | documentextractor_client/client.py:47-49 | the merged headers have exactly the keys of base and overrides, an overridden key takes the caller's value, and any other key keeps its base value |
| `Dispatch.MergeKeepsBaseHeaders` | documentextractor_client/client.py:40-49 | a merge over the base headers keeps `Authorization` and `Accept` (the key's bearer token and `application/json` unless overridden), takes the caller's `Accept` when given, and adds no key outside base and overrides |
| `Dispatch.Settle` | documentextractor_client/client.py:51-96 | there is a success only on an answered exchange. With `parse_json` off the raw response is returned, even for 204; otherwise 204 gives `None` and any other answer gives the decoded JSON. An undecodable body and a transport failure both give "Request failed for {url}: …". An `HTTPError` is `Classify` of its status and best-effort body. Every failure is an API error |
| `Dispatch.ErrorStatusIsNeverGeneric` | documentextractor_client/client.py:73-92 | an `HTTPError` with a 4xx/5xx response is always one of the four specific kinds and keeps its status |
| `Endpoints.RouteOf` | documentextractor_client/client.py:99-171 | every path lies under `/v1/`. Exactly the two deletes use `DELETE` and skip JSON decoding. Exactly the create, replace and update calls send a JSON body, the serialized model they were given. Everything else is a bodiless `GET` |
| `Endpoints.RouteIdentifiesEndpoint` | documentextractor_client/client.py:99-171 | two endpoints with the same method and path are the same operation on the same identifiers |
| `Endpoints.RunPathInjective` | documentextractor_client/client.py:169-171 | a run's path determines both its workflow and its run number |
| `Endpoints.RunResultsPathInjective` | documentextractor_client/client.py:180 | a results path `/v1/workflows/{id}/runs/{n}/results` determines both the workflow and the run number |
| `Endpoints.RunResultsPath` | documentextractor_client/client.py:180 | the results path is `/v1/workflows/`, the workflow at a fixed place, `/runs/`, the decimal run number, then `/results` |
| `Results.FromResponse` | documentextractor_client/client.py:190-205 | an API error of the exchange passes through unchanged whatever the format. After a successful exchange: CSV is the body text verbatim and EXCEL the body bytes verbatim. JSON is the built result, an undecodable body is a `ValueError("Failed to decode …")`, and a `TypeError` from construction is a `ValueError("Mismatched JSON structure …")`. Any other format is `ValueError("Unsupported accept_format: …")`. A `ValueError` arises exactly when the exchange succeeded and reading it failed |
| `Upload.PlanUpload` | documentextractor_client/client.py:110-119 | it refuses exactly content without a filename, with the `ValueError`. Otherwise the name is the given non-empty filename or the path's last segment. The source is the in-memory bytes or the path. The MIME type is the guess for the path (content from disk) or for the name (content in memory), falling back to `application/octet-stream` |
| `Upload.UploadName` | documentextractor_client/client.py:113 | a non-empty filename is used as it is. Without one, the upload name is the base name of the path: the text after its last `/`, which holds no `/` |
| `ApiClient.DocumentExtractorAPIClient.constructor` | documentextractor_client/client.py:31-43 | the stored root is the stripped root URL, and the headers are the base headers for the key |
| `ApiClient.DocumentExtractorAPIClient.Request` | documentextractor_client/client.py:45-96 | the request goes to exactly root + path with the given method, params and body. Its headers are the client's headers updated by the caller's. The result is `Settle` of the exchange, and the client is left unchanged |
| `ApiClient.DocumentExtractorAPIClient.Call` | documentextractor_client/client.py:99-171 | each endpoint sends its route with the client's own headers and no query. A delete returns `None` once the exchange succeeds. Every other endpoint returns what `_request` returns |
| `ApiClient.DocumentExtractorAPIClient.UploadFile` | documentextractor_client/client.py:103-125 | nothing is sent exactly when content comes without a filename, and then the `ValueError` is raised. Otherwise one `POST` to `/v1/files/` carries the plan under the multipart field `file` |
| `ApiClient.DocumentExtractorAPIClient.GetWorkflowRunResults` | documentextractor_client/client.py:173-205 | one `GET` of `/v1/workflows/{id}/runs/{n}/results` is always sent. `Accept` is the format's value and the other headers are kept (`Authorization` is the bearer token on a constructed client). `format_option` is the only possible query parameter, present exactly when it is a non-empty string. The result is `FromResponse` of the raw outcome |

## Left out

- The transport: `requests.request`, `raise_for_status` and the network itself. Their outcome is an input (`send`), so the model does not say which statuses `raise_for_status` rejects.
- Opening and reading a file from disk in `upload_file`: the model records the path as the file's source. Errors from `open` (a missing file, for one) are not modelled.
- `mimetypes.guess_type` and JSON decoding are foreign library calls. They are inputs (`guessType`, and the `json` verdict carried by a `Response`).
- The result, file, workflow and run models of the external `documentextractor_commons` package, and their `model_dump` options. Request bodies are the already serialized JSON. `FileResponse(**…)`, `WorkflowResponse(**…)` and `RunResponse(**…)` are not applied: `Call` and `UploadFile` return the decoded JSON. `RunResult(**…)` is the input `build`, which either builds the result or raises a `TypeError`. Any other exception such a constructor raises is not modelled, in particular Pydantic's `ValidationError`, which escapes `get_workflow_run_results` as it is.
- `exceptions.py` is not part of this model. The error kinds carry only the constructor arguments visible in the client. A transport failure carries no status and no body, assuming the constructor's defaults.
- `RunResultResponseFormat` belongs to the external package. A format is modelled as its member together with its `.value` and its `str()`.
- JSON numbers with a fraction or an exponent (Python `float`) are not modelled: only integers. `repr` of strings escapes the enclosing quote, backslashes, `\t`, `\n`, `\r` and the characters up to U+001F and from U+007F to U+00A0. Python escapes further non-printable characters, which are copied as is here.
- The environment is the one where the exceptions meet as described above: `requests` 2.27 or later with the standard `json` module. With an older `requests`, an undecodable success body raises a plain `ValueError`, which escapes `_request` unclassified. With `simplejson` installed, the decode errors are not the `json.JSONDecodeError` caught at lines 69 and 195, so they escape the `HTTPError` handler and `get_workflow_run_results`. The model does not cover these environments.
- `PyJson.Repr`: a decoded object that repeats a member name prints each member as the document lists it. Python's dict keeps the name once, with the last value. `Get`, which the messages use for `detail`, does follow Python.
- Header names are compared exactly, as in the Python dict. The case-insensitive merge that `requests` performs later is not modelled.
- The demo script `examples/basic_usage.py` (polling, printing, cleanup) and the package's `__init__.py` (re-exports and the version string) have no logic to model.
