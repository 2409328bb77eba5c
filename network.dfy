/** `NetworkService`: how a request is assembled (method, headers, body) and
    how a response's status code is turned into a value or a `NetworkError`.
    The URL session itself, the JSON coders and URL parsing are outside the
    model: their outcomes are parameters. */
module Network {
  import opened Text

  datatype NetworkError =
    | InvalidURL
    | InvalidResponse
    | HttpError(statusCode: int)
    | DecodingError(cause: string)
    | EncodingError(cause: string)
    | NoData
    | Unauthorized
    | ServerError(message: string)

  /** The request body a caller hands over: the private `EmptyBody`, or a
      value together with what the JSON encoder makes of it. */
  datatype Body = EmptyBody | Value(encoded: Result<seq<bv8>, string>)

  datatype Request = Request(url: string, httpMethod: string, headers: map<string, string>, httpBody: Option<seq<bv8>>)

  const Json: string := "application/json"

  /** Methods other than GET and DELETE carry a Content-Type and a body. */
  predicate CarriesBody(httpMethod: string) {
    httpMethod != "GET" && httpMethod != "DELETE"
  }

  /** The headers set before the caller's: Content-Type for methods that carry
      a body, Accept always. */
  function DefaultHeaders(httpMethod: string): map<string, string> {
    if CarriesBody(httpMethod) then map["Content-Type" := Json, "Accept" := Json] else map["Accept" := Json]
  }

  /** The caller's headers are applied after the defaults, so a caller value
      wins; Accept is always present, and Content-Type is present exactly
      when the method carries a body or the caller sets it. */
  lemma HeaderRules(httpMethod: string, custom: map<string, string>)
    ensures var h := DefaultHeaders(httpMethod) + custom;
      && h.Keys == DefaultHeaders(httpMethod).Keys + custom.Keys
      && (forall k :: k in custom ==> h[k] == custom[k])
      && "Accept" in h
      && ("Accept" !in custom ==> h["Accept"] == Json)
      && ("Content-Type" in h <==> CarriesBody(httpMethod) || "Content-Type" in custom)
      && (CarriesBody(httpMethod) && "Content-Type" !in custom ==> h["Content-Type"] == Json)
  {
  }

  /** The private `request(_:method:body:headers:)` up to the point where it
      is sent. `urlParses` is whether `URL(string:)` accepts the endpoint;
      `body` is None for the default `nil`. */
  method BuildRequest(endpoint: string, urlParses: bool, httpMethod: string, body: Option<Body>, headers: Option<map<string, string>>)
    returns (r: Result<Request, NetworkError>)
    ensures !urlParses ==> r == Err(InvalidURL)
    ensures r.Ok? ==> r.value.url == endpoint && r.value.httpMethod == httpMethod
    ensures r.Ok? ==> r.value.headers == DefaultHeaders(httpMethod) + headers.GetOr(map[])
    ensures r.Ok? ==> (r.value.httpBody.Some? <==> CarriesBody(httpMethod) && body.Some? && body.value.Value?)
    ensures r.Ok? && r.value.httpBody.Some? ==> body.value.encoded == Ok(r.value.httpBody.value)
    ensures urlParses && r.Err? ==>
      CarriesBody(httpMethod) && body.Some? && body.value.Value? && body.value.encoded.Err?
      && r.error == EncodingError(body.value.encoded.error)
    ensures urlParses && CarriesBody(httpMethod) && body.Some? && body.value.Value? && body.value.encoded.Err? ==> r.Err?
  {
    if !urlParses {
      return Err(InvalidURL);
    }
    var fields: map<string, string> := map[];
    if httpMethod != "GET" && httpMethod != "DELETE" {
      fields := fields["Content-Type" := Json];
    }
    fields := fields["Accept" := Json];
    if headers.Some? {
      fields := Assign(fields, headers.value);
    }
    assert fields == DefaultHeaders(httpMethod) + headers.GetOr(map[]);

    var httpBody: Option<seq<bv8>> := None;
    if body.Some? && httpMethod != "GET" && httpMethod != "DELETE" && !body.value.EmptyBody? {
      match body.value.encoded {
        case Ok(bytes) =>
          httpBody := Some(bytes);
        case Err(cause) =>
          return Err(EncodingError(cause));
      }
    }
    r := Ok(Request(endpoint, httpMethod, fields, httpBody));
  }

  /** The status-code switch after a response arrives. `statusCode` is None
      when the response is not an HTTP response; `decoded` is what the JSON
      decoder makes of the data; `bodyText` is the data read as UTF-8. */
  function Classify<T>(statusCode: Option<int>, decoded: Result<T, string>, bodyText: Option<string>): Result<T, NetworkError> {
    match statusCode
    case None => Err(InvalidResponse)
    case Some(code) =>
      if 200 <= code <= 299 then
        match decoded
        case Ok(v) => Ok(v)
        case Err(cause) => Err(DecodingError(cause))
      else if code == 401 then Err(Unauthorized)
      else if 400 <= code <= 499 then Err(HttpError(code))
      else if 500 <= code <= 599 then Err(ServerError(bodyText.GetOr("Server error")))
      else Err(HttpError(code))
  }

  /** Which outcome each status code leads to. */
  lemma ClassifyRules<T>(code: int, decoded: Result<T, string>, bodyText: Option<string>)
    ensures var r := Classify(Some(code), decoded, bodyText);
      && (r.Ok? <==> 200 <= code <= 299 && decoded.Ok?)
      && (r.Ok? ==> r.value == decoded.value)
      && (r == Err(Unauthorized) <==> code == 401)
      && (r.Err? && r.error.DecodingError? <==> 200 <= code <= 299 && decoded.Err?)
      && (r.Err? && r.error.ServerError? <==> 500 <= code <= 599)
      && (500 <= code <= 599 ==> r.error.message == bodyText.GetOr("Server error"))
      && (r.Err? && r.error.HttpError? <==> !(200 <= code <= 299) && code != 401 && !(500 <= code <= 599))
      && (r.Err? && r.error.HttpError? ==> r.error.statusCode == code)
  {
  }

  /** `errorDescription` */
  function ErrorDescription(e: NetworkError): string {
    match e
    case InvalidURL => "Invalid URL"
    case InvalidResponse => "Invalid server response"
    case HttpError(code) => "HTTP error: " + IntToString(code)
    case DecodingError(cause) => "Failed to decode response: " + cause
    case EncodingError(cause) => "Failed to encode request: " + cause
    case NoData => "No data received"
    case Unauthorized => "Unauthorized - please log in"
    case ServerError(message) => "Server error: " + message
  }

  /** The status code of an HTTP error can be read back from its description. */
  lemma HttpErrorDescriptionNamesCode(code: nat)
    ensures StartsWith(ErrorDescription(HttpError(code)), "HTTP error: ")
    ensures DigitsValue(ErrorDescription(HttpError(code))[12..]) == code
  {
    var d := ErrorDescription(HttpError(code));
    assert d[12..] == NatToString(code);
    NatToStringRoundTrip(code);
  }
}
