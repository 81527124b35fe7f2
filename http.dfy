/** The HTTP exchange as the client sees it: the request it hands to the
    transport and what comes back. The transport itself (the `requests`
    library and the network) is not modelled; its outcome is an input. */
module Http {
  import opened Wrappers
  import opened PyJson

  newtype byte = x: int | 0 <= x < 256

  datatype Method = GET | POST | PUT | PATCH | DELETE

  /** What `response.json()` does with a body: decodes it, or raises a
      JSON decoding error carrying the decoder's message. */
  datatype JsonParse = Parsed(value: Json) | Malformed(reason: string)

  /** A received response: its status code, its body as text and as bytes,
      and the decoder's verdict on the body. */
  datatype Response = Response(status: int, text: string, content: seq<byte>, json: JsonParse)

  /** The outcome of `requests.request(...)` followed by `raise_for_status()`:
      a transport failure with no response (connection refused, DNS, timeout),
      an `HTTPError` (whose `response` may be missing), or a response that
      passed the status check. */
  datatype Exchange =
    | TransportFailed(reason: string)
    | HttpErrorRaised(errorResponse: Option<Response>)
    | Answered(response: Response)

  /** Where the bytes of an uploaded file come from. */
  datatype FileSource = InMemory(bytes: seq<byte>) | OnDisk(path: string)

  /** One multipart file entry: `(filename, content, mime_type)`. */
  datatype FilePart = FilePart(filename: string, source: FileSource, mimeType: string)

  /** The body keyword the client passes on: none, `json=...` or `files={field: part}`. */
  datatype Payload = NoPayload | JsonPayload(value: Json) | Multipart(field: string, part: FilePart)

  /** Everything the client hands to the transport for one request. */
  datatype HttpRequest = HttpRequest(
    verb: Method,
    url: string,
    headers: map<string, string>,
    params: map<string, string>,
    payload: Payload)

  /** 204 No Content (section 15.3.5 of RFC 9110). */
  const NoContent := 204
  /** 401 Unauthorized (section 15.5.2 of RFC 9110). */
  const Unauthorized := 401
  /** 403 Forbidden (section 15.5.4 of RFC 9110). */
  const Forbidden := 403

  /** The 4xx class, Client Error (section 15.5 of RFC 9110). */
  predicate IsClientErrorClass(status: int)
  {
    status / 100 == 4
  }

  /** The 5xx class, Server Error (section 15.6 of RFC 9110). */
  predicate IsServerErrorClass(status: int)
  {
    status / 100 == 5
  }
}
