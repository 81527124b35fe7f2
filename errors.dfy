/** The client's error taxonomy and the classification `_request` applies
    when the service answers with an HTTP error. */
module Errors {
  import opened Wrappers
  import opened PyJson
  import opened Http
  import PyText

  /** The body of an error response, best effort: the decoded JSON when the
      body decodes, else the raw text. */
  datatype Details = DecodedBody(value: Json) | RawText(text: string)

  /** The exceptions the client raises. The first five are the API error
      classes; `ValueError` is Python's, for misuse of the client and for a
      successful response that cannot be decoded into a result. */
  datatype ClientError =
    | AuthenticationError(details: Option<Details>)
    | ForbiddenError(details: Option<Details>)
    | ClientRequestError(message: string, statusCode: int, details: Option<Details>)
    | APIServerError(message: string, statusCode: int, details: Option<Details>)
    | DocumentExtractorAPIError(message: string, code: Option<int>, details: Option<Details>)
    | ValueError(message: string)
  {
    /** Raised because of the HTTP exchange, not because of how the client was called. */
    predicate IsApiError()
    {
      !ValueError?
    }
  }

  /** `e.response.status_code`, or `None` when the error has no response. */
  function StatusOf(response: Option<Response>): (s: Option<int>)
    ensures s.Some? <==> response.Some?
    ensures s.Some? ==> s.value == response.value.status
  {
    if response.Some? then Some(response.value.status) else None
  }

  /** `error_details`: `None` without a response, the decoded body when it
      decodes, the raw text when decoding fails. Never a second failure. */
  function BestEffortDetails(response: Option<Response>): (d: Option<Details>)
    ensures d.None? <==> response.None?
    ensures d.Some? && d.value.DecodedBody? <==> response.Some? && response.value.json.Parsed?
    ensures d.Some? && d.value.DecodedBody? ==> d.value.value == response.value.json.value
    ensures d.Some? && d.value.RawText? ==> d.value.text == response.value.text
  {
    match response
    case None => None
    case Some(r) =>
      match r.json
      case Parsed(j) => Some(DecodedBody(j))
      case Malformed(_) => Some(RawText(r.text))
  }

  /** The `detail` member of an object body, exactly when it is present and truthy. */
  function DetailOf(d: Option<Details>): (v: Option<Json>)
    ensures v.Some? ==> Truthy(v.value)
    ensures v.Some? ==> d.Some? && d.value.DecodedBody? && d.value.value.JObject?
    ensures v.Some? ==> Get(d.value.value.fields, "detail") == v
    ensures d.Some? && d.value.DecodedBody? && d.value.value.JObject? ==>
      var got := Get(d.value.value.fields, "detail");
      got.Some? && Truthy(got.value) ==> v.Some?
  {
    if d.Some? && d.value.DecodedBody? && d.value.value.JObject? then
      var got := Get(d.value.value.fields, "detail");
      if got.Some? && Truthy(got.value) then got else None
    else None
  }

  /** The body when it is a Python `str`: the raw text, or JSON that decoded
      to a string; a decoded object, list, number, boolean or null is not. */
  function TextOf(d: Option<Details>): (t: Option<string>)
    ensures t.Some? <==> d.Some? && (d.value.RawText? || d.value.value.JStr?)
    ensures t.Some? && d.value.RawText? ==> t.value == d.value.text
    ensures t.Some? && d.value.DecodedBody? ==> t.value == d.value.value.s
  {
    if d.None? then None
    else match d.value
      case RawText(t) => Some(t)
      case DecodedBody(JStr(s)) => Some(s)
      case DecodedBody(_) => None
  }

  /** The body is a short string: it goes into the message as it is. A
      decoded object is never one, so a body without a usable `detail` never
      reaches the message unless it is a string. */
  function ShortText(d: Option<Details>): (b: bool)
    ensures b <==>
      d.Some? && ((d.value.RawText? && |d.value.text| < 100) || (d.value.DecodedBody? && d.value.value.JStr? && |d.value.value.s| < 100))
  {
    TextOf(d).Some? && |TextOf(d).value| < 100
  }

  function ClientErrorPrefix(status: int): string
  {
    "Client error " + PyText.IntStr(status)
  }

  /** The message of a `ClientRequestError`: the status, then the body's
      `detail` if it has a truthy one, else the body itself if it is a string
      shorter than 100 characters, else nothing more. */
  function ClientErrorMessage(status: int, d: Option<Details>): (m: string)
    ensures ClientErrorPrefix(status) <= m
    ensures DetailOf(d).Some? ==> m == ClientErrorPrefix(status) + ": " + Str(DetailOf(d).value)
    ensures DetailOf(d).None? && ShortText(d) ==> m == ClientErrorPrefix(status) + ": " + TextOf(d).value
    ensures m == ClientErrorPrefix(status) <==> DetailOf(d).None? && !ShortText(d)
    ensures DetailOf(d).Some? ==> |m| > |ClientErrorPrefix(status) + ": "|
  {
    var detail := DetailOf(d);
    if detail.Some? then ClientErrorPrefix(status) + ": " + Str(detail.value)
    else if ShortText(d) then ClientErrorPrefix(status) + ": " + TextOf(d).value
    else ClientErrorPrefix(status)
  }

  /** A `ClientRequestError` message names its status unambiguously: two
      4xx messages that read the same come from the same status. */
  lemma ClientErrorMessageNamesStatus(s1: int, d1: Option<Details>, s2: int, d2: Option<Details>)
    requires IsClientErrorClass(s1) && IsClientErrorClass(s2)
    requires ClientErrorMessage(s1, d1) == ClientErrorMessage(s2, d2)
    ensures s1 == s2
  {
    PyText.ThreeDigitStr(s1);
    PyText.ThreeDigitStr(s2);
    var m := ClientErrorMessage(s1, d1);
    var p1, p2 := ClientErrorPrefix(s1), ClientErrorPrefix(s2);
    assert |p1| == 16 && |p2| == 16;
    assert p1 <= m && p2 <= m;
    assert p1 == m[..16] == p2;
    assert PyText.IntStr(s1) == p1[13..] == p2[13..] == PyText.IntStr(s2);
    PyText.IntStrInjective(s1, s2);
  }

  /** The status in a 4xx message is its decimal numeral: the three
      characters after "Client error " spell the status. */
  lemma ClientErrorMessageSpellsStatus(status: int, d: Option<Details>)
    requires IsClientErrorClass(status)
    ensures var m := ClientErrorMessage(status, d); |m| >= 16 && PyText.DigitsValue(m[13..16]) == status
  {
    PyText.ThreeDigitStr(status);
    PyText.IntStrValue(status);
    var digits := PyText.IntStr(status);
    var p := ClientErrorPrefix(status);
    assert |p| == 16 && p[13..16] == digits;
    var m := ClientErrorMessage(status, d);
    assert m[..16] == p;
    assert m[13..16] == digits;
  }

  /** The status in a 5xx message is its decimal numeral, likewise. */
  lemma ServerErrorMessageSpellsStatus(status: int)
    requires IsServerErrorClass(status)
    ensures var m := "Server error " + PyText.IntStr(status); |m| == 16 && PyText.DigitsValue(m[13..16]) == status
  {
    PyText.ThreeDigitStr(status);
    PyText.IntStrValue(status);
    var m := "Server error " + PyText.IntStr(status);
    assert m[13..16] == PyText.IntStr(status);
  }

  /** `f"{status_code if status_code else 'Unknown'}"`: status 0 and a
      missing status both read "Unknown", and no status reads like them. */
  function StatusText(status: Option<int>): (t: string)
    ensures t == "Unknown" <==> status.None? || status.value == 0
    ensures status.Some? && status.value != 0 ==> t == PyText.IntStr(status.value)
  {
    if status.Some? && status.value != 0 then PyText.IntStr(status.value) else "Unknown"
  }

  /** The message of the fallback HTTP error; it ends with the request URL. */
  function HttpErrorMessage(status: Option<int>, url: string): (m: string)
    ensures |url| <= |m| && m[|m| - |url|..] == url
  {
    "HTTP Error " + StatusText(status) + " for " + url
  }

  /** The message of a request that got no usable response; the URL follows
      a fixed lead-in, then the underlying error. */
  function RequestFailedMessage(url: string, reason: string): (m: string)
    ensures |m| == |"Request failed for "| + |url| + 2 + |reason|
    ensures m[|"Request failed for "|..|"Request failed for "| + |url|] == url
    ensures m[|m| - |reason|..] == reason
  {
    "Request failed for " + url + ": " + reason
  }

  /** The error `_request` raises for an `HTTPError` with the given status
      and body. The kind depends on the status class alone (section 15 of
      RFC 9110); every kind keeps the body for diagnosis. */
  function Classify(status: Option<int>, details: Option<Details>, url: string): (e: ClientError)
    ensures e.IsApiError() && e.details == details
    ensures e.AuthenticationError? <==> status == Some(Unauthorized)
    ensures e.ForbiddenError? <==> status == Some(Forbidden)
    ensures e.ClientRequestError? <==>
      status.Some? && IsClientErrorClass(status.value) && status.value != Unauthorized && status.value != Forbidden
    ensures e.APIServerError? <==> status.Some? && IsServerErrorClass(status.value)
    ensures e.ClientRequestError? ==> e.statusCode == status.value && e.message == ClientErrorMessage(status.value, details)
    ensures e.APIServerError? ==> e.statusCode == status.value && e.message == "Server error " + PyText.IntStr(status.value)
    ensures e.DocumentExtractorAPIError? ==> e.code == status && e.message == HttpErrorMessage(status, url)
  {
    if status == Some(401) then AuthenticationError(details)
    else if status == Some(403) then ForbiddenError(details)
    else if status.Some? && status.value != 0 && 400 <= status.value < 500 then
      ClientRequestError(ClientErrorMessage(status.value, details), status.value, details)
    else if status.Some? && status.value != 0 && 500 <= status.value < 600 then
      APIServerError("Server error " + PyText.IntStr(status.value), status.value, details)
    else
      DocumentExtractorAPIError(HttpErrorMessage(status, url), status, details)
  }
}
