// The pure rules inside the HTTP server's request handler: how an incoming request
// becomes the validator's request record, how the mock configuration is merged,
// which status an error reply carries, and the content-type parser's 415 rule.
// The transport, `getHttpConfigFromRequest`, the request pipeline (`process`), the
// `application/*+json` matcher, `JSON.parse` and the sending of a reply are parameters.
module Server {
  import opened Wrappers
  import opened Js
  import opened HttpTypes
  import opened Config
  import Strings
  import Caseless

  /** What the transport hands the handler. */
  datatype RawRequest = RawRequest(
    httpMethod: Option<string>,
    url: Option<string>,
    query: Query,
    headers: Headers,
    body: JsValue)

  /** An error thrown inside the handler: its message, its `status` property when it
      has one, and `additional.headers` when present. */
  datatype HttpError = HttpError(message: string, status: Option<int>, extraHeaders: Option<Headers>)

  /** What the request pipeline returns; only `output` is used here. */
  datatype ProcessResult = ProcessResult(output: Option<HttpResponse>)

  /** How sending a produced response failed: the error thrown, and whether the reply
      counted as sent when it was thrown. */
  datatype SendFailure = SendFailure(error: HttpError, sent: bool)

  /** What the handler writes back. `End` closes a reply that was already sent. */
  datatype Reply =
    | Send(statusCode: int, headers: Option<Headers>, body: JsValue)
    | Problem(statusCode: int, contentType: string, replyHeaders: Headers, error: HttpError)
    | End

  const ProblemJson := "application/problem+json"

  const UnsupportedMediaType := HttpError("Unsupported media type.", Some(415), None)

  const NoResponse := HttpError("Unable to find any decent response for the current request.", None, None)

  /** The request method, lower-cased; `get` when missing or empty. */
  function NormaliseMethod(httpMethod: Option<string>): (r: string)
    ensures httpMethod.None? || httpMethod.value == "" ==> r == "get"
    ensures httpMethod.Some? && httpMethod.value != "" ==>
      |r| == |httpMethod.value| && forall i :: 0 <= i < |r| ==> r[i] == Strings.LowerChar(httpMethod.value[i])
    ensures r != ""
    ensures forall i :: 0 <= i < |r| ==> !Strings.IsUpper(r[i])
  {
    if httpMethod.Some? && httpMethod.value != "" then Strings.Lower(httpMethod.value) else "get"
  }

  /** Normalising an already normalised method changes nothing. */
  lemma NormaliseMethodIdempotent(httpMethod: Option<string>)
    ensures NormaliseMethod(Some(NormaliseMethod(httpMethod))) == NormaliseMethod(httpMethod)
  {
    Strings.LowerOfLower(NormaliseMethod(httpMethod));
  }

  /** Methods that differ only in letter case normalise alike. */
  lemma NormaliseMethodIgnoresCase(a: string, b: string)
    requires |a| == |b|
    requires forall i :: 0 <= i < |a| ==> Strings.LowerChar(a[i]) == Strings.LowerChar(b[i])
    ensures NormaliseMethod(Some(a)) == NormaliseMethod(Some(b))
  {
  }

  /** The URL the handler works from: `/` when missing or empty. */
  function UrlOrRoot(url: Option<string>): string {
    if url.Some? && url.value != "" then url.value else "/"
  }

  /** `(url || '/').split('?')[0]`: the URL up to, not including, its first `?`. */
  function RequestPath(url: Option<string>): (r: string)
    ensures '?' !in r
    ensures r <= UrlOrRoot(url)
    ensures |r| < |UrlOrRoot(url)| ==> UrlOrRoot(url)[|r|] == '?'
  {
    Strings.Split(UrlOrRoot(url), '?')[0]
  }

  /** A URL without a query string is its own path. */
  lemma RequestPathWithoutQuery(url: string)
    requires url != "" && '?' !in url
    ensures RequestPath(Some(url)) == url
  {
  }

  /** The `__server` query value, the request's base-URL override. */
  function ServerOverride(query: Query): (r: Option<QueryValue>)
    ensures r.Some? <==> "__server" in query
    ensures r.Some? ==> r.value == query["__server"]
  {
    if "__server" in query then Some(query["__server"]) else None
  }

  /** The request record the pipeline receives. The query, headers and body pass
      through unchanged. */
  function BuildInput(raw: RawRequest): (r: HttpRequest)
    ensures r.httpMethod == NormaliseMethod(raw.httpMethod)
    ensures r.url.path == RequestPath(raw.url)
    ensures r.url.query == Some(raw.query)
    ensures r.url.baseUrl == ServerOverride(raw.query)
    ensures r.headers == Some(raw.headers) && r.body == raw.body
  {
    HttpRequest(
      NormaliseMethod(raw.httpMethod),
      HttpUrl(RequestPath(raw.url), Some(raw.query), ServerOverride(raw.query)),
      Some(raw.headers),
      raw.body)
  }

  /** The configuration a request is processed with: the server configuration after
      its defaults, whose `mock` is overridden key by key by the per-request mock
      configuration. */
  function EffectiveConfig(config: HttpConfig, requestMock: MockConfig): (r: HttpConfig)
    ensures r.validateRequest == MergeDefaults(config).validateRequest
    ensures r.validateResponse == MergeDefaults(config).validateResponse
    ensures r.checkSecurity == config.checkSecurity && r.proxy == config.proxy
    ensures r.mock.Some?
    ensures requestMock.dynamic.Some? ==> r.mock.value.dynamic == requestMock.dynamic
    ensures requestMock.dynamic.None? ==> r.mock.value.dynamic == MergeDefaults(config).mock.value.dynamic
    ensures requestMock.code.Some? ==> r.mock.value.code == requestMock.code
    ensures requestMock.code.None? ==> r.mock.value.code == MergeDefaults(config).mock.value.code
    ensures requestMock.exampleKey.Some? ==> r.mock.value.exampleKey == requestMock.exampleKey
    ensures requestMock.exampleKey.None? ==> r.mock.value.exampleKey == MergeDefaults(config).mock.value.exampleKey
    ensures requestMock.mediaType.Some? ==> r.mock.value.mediaType == requestMock.mediaType
    ensures requestMock.mediaType.None? ==> r.mock.value.mediaType == MergeDefaults(config).mock.value.mediaType
  {
    var merged := MergeDefaults(config);
    merged.(mock := Some(Assign(merged.mock, requestMock)))
  }

  /** With no mock key set anywhere, mocks are static: `dynamic` is false. */
  lemma StaticMockByDefault(config: HttpConfig, requestMock: MockConfig)
    requires config.mock.None? && requestMock.dynamic.None?
    ensures EffectiveConfig(config, requestMock).mock.value.dynamic == Some(false)
  {
  }

  /** `'status' in e ? e.status : 500`. */
  function ErrorStatus(e: HttpError): (r: int)
    ensures e.status.Some? ==> r == e.status.value
    ensures e.status.None? ==> r == 500
  {
    match e.status
    case Some(s) => s
    case None => 500
  }

  /** The catch block. A reply not yet sent becomes a problem reply with the error's
      status (500 when it has none) on the same reply object: the headers `written`
      on it before the error stay, except `content-type`, which is set anew to
      `application/problem+json`, and the error's extra headers are written after
      them. A reply already sent is only closed. */
  function HandleError(e: HttpError, sent: bool, written: Headers): (r: Reply)
    ensures sent <==> r.End?
    ensures !sent ==> r.Problem? && r.statusCode == ErrorStatus(e) && r.contentType == ProblemJson
                      && r.error == e
    ensures !sent ==> r.replyHeaders == Caseless.Drop(written, ContentType) + e.extraHeaders.GetOr([])
  {
    if sent then End
    else Problem(ErrorStatus(e), ProblemJson, Caseless.Drop(written, ContentType) + e.extraHeaders.GetOr([]), e)
  }

  /** The headers of a problem reply: an extra header of the error wins; any other
      header written before the error keeps its value; an earlier `content-type` is
      gone, so only the error's own extra headers can set one. */
  lemma ProblemHeaders(e: HttpError, written: Headers, name: string)
    ensures var r := HandleError(e, false, written);
      var extra := e.extraHeaders.GetOr([]);
      && (Caseless.Get(extra, name).Some? ==> Caseless.Get(r.replyHeaders, name) == Caseless.Get(extra, name))
      && (Caseless.Get(extra, name).None? && Strings.Lower(name) != ContentType ==>
            Caseless.Get(r.replyHeaders, name) == Caseless.Get(written, name))
      && (Caseless.Get(extra, name).None? && Strings.Lower(name) == ContentType ==>
            Caseless.Get(r.replyHeaders, name).None?)
  {
    var extra := e.extraHeaders.GetOr([]);
    var dropped := Caseless.Drop(written, ContentType);
    Caseless.GetConcat(dropped, extra, name);
    ContentTypeIsLower();
    if Strings.Lower(name) != ContentType {
      Caseless.DropKeepsOthers(written, ContentType, name);
    } else {
      Caseless.GetIgnoresCase(dropped, name, ContentType);
    }
  }

  /** The request handler. The per-request configuration, the pipeline and the sending
      of a produced response may each throw; a pipeline result without `output` is
      itself an error. Only an error thrown after the reply counted as sent ends the
      reply without a problem payload. */
  function HandleRequest(raw: RawRequest, config: HttpConfig,
                         configFor: HttpRequest -> Result<MockConfig, HttpError>,
                         process: (HttpRequest, HttpConfig) -> Result<ProcessResult, HttpError>,
                         send: HttpResponse -> Option<SendFailure>): (r: Reply)
    ensures configFor(BuildInput(raw)).Failure? ==> r == HandleError(configFor(BuildInput(raw)).error, false, [])
    ensures configFor(BuildInput(raw)).Success? ==>
      var result := process(BuildInput(raw), EffectiveConfig(config, configFor(BuildInput(raw)).value));
      && (result.Failure? ==> r == HandleError(result.error, false, []))
      && (result.Success? && result.value.output.Some? && send(result.value.output.value).None? ==>
            r == Send(result.value.output.value.statusCode, result.value.output.value.headers,
                      result.value.output.value.body))
      && (result.Success? && result.value.output.Some? && send(result.value.output.value).Some? ==>
            r == HandleError(send(result.value.output.value).value.error,
                             send(result.value.output.value).value.sent,
                             result.value.output.value.headers.GetOr([])))
      && (result.Success? && result.value.output.None? ==> r == HandleError(NoResponse, false, []))
  {
    var input := BuildInput(raw);
    match configFor(input)
    case Failure(e) => HandleError(e, false, [])
    case Success(requestMock) =>
      match process(input, EffectiveConfig(config, requestMock))
      case Failure(e) => HandleError(e, false, [])
      case Success(response) =>
        match response.output
        case None => HandleError(NoResponse, false, [])
        case Some(output) =>
          match send(output)
          case None => Send(output.statusCode, output.headers, output.body)
          case Some(failure) => HandleError(failure.error, failure.sent, output.headers.GetOr([]))
  }

  /** The reply is only closed, with no problem payload, when sending a produced
      response threw after the reply counted as sent. */
  lemma EndOnlyAfterSent(raw: RawRequest, config: HttpConfig,
                         configFor: HttpRequest -> Result<MockConfig, HttpError>,
                         process: (HttpRequest, HttpConfig) -> Result<ProcessResult, HttpError>,
                         send: HttpResponse -> Option<SendFailure>)
    ensures HandleRequest(raw, config, configFor, process, send).End? <==>
      && configFor(BuildInput(raw)).Success?
      && var result := process(BuildInput(raw), EffectiveConfig(config, configFor(BuildInput(raw)).value));
      && result.Success? && result.value.output.Some?
      && send(result.value.output.value).Some?
      && send(result.value.output.value).value.sent
  {
  }

  /** When sending a produced response throws before the reply counts as sent, the
      problem reply keeps every output header other than `content-type` that the
      error does not set itself. */
  lemma FailedSendKeepsOutputHeaders(raw: RawRequest, config: HttpConfig,
                                     configFor: HttpRequest -> Result<MockConfig, HttpError>,
                                     process: (HttpRequest, HttpConfig) -> Result<ProcessResult, HttpError>,
                                     send: HttpResponse -> Option<SendFailure>,
                                     output: HttpResponse, e: HttpError, name: string)
    requires configFor(BuildInput(raw)).Success?
    requires process(BuildInput(raw), EffectiveConfig(config, configFor(BuildInput(raw)).value))
             == Success(ProcessResult(Some(output)))
    requires send(output) == Some(SendFailure(e, false))
    requires Strings.Lower(name) != ContentType
    requires Caseless.Get(e.extraHeaders.GetOr([]), name).None?
    ensures var r := HandleRequest(raw, config, configFor, process, send);
      r.Problem? && Caseless.Get(r.replyHeaders, name) == Caseless.Get(output.headers.GetOr([]), name)
  {
    ProblemHeaders(e, output.headers.GetOr([]), name);
  }

  /** A pipeline result without output becomes a 500 problem reply. */
  lemma NoOutputIs500(raw: RawRequest, config: HttpConfig,
                      configFor: HttpRequest -> Result<MockConfig, HttpError>,
                      process: (HttpRequest, HttpConfig) -> Result<ProcessResult, HttpError>,
                      send: HttpResponse -> Option<SendFailure>)
    requires configFor(BuildInput(raw)).Success?
    requires process(BuildInput(raw), EffectiveConfig(config, configFor(BuildInput(raw)).value))
             == Success(ProcessResult(None))
    ensures var r := HandleRequest(raw, config, configFor, process, send);
      r.Problem? && r.statusCode == 500 && r.contentType == ProblemJson
  {
  }

  /** An error the pipeline throws with a status is replied with that status. */
  lemma ThrownStatusIsReplied(raw: RawRequest, config: HttpConfig,
                              configFor: HttpRequest -> Result<MockConfig, HttpError>,
                              process: (HttpRequest, HttpConfig) -> Result<ProcessResult, HttpError>,
                              send: HttpResponse -> Option<SendFailure>,
                              status: int)
    requires configFor(BuildInput(raw)).Success?
    requires var result := process(BuildInput(raw), EffectiveConfig(config, configFor(BuildInput(raw)).value));
      result.Failure? && result.error.status == Some(status)
    ensures HandleRequest(raw, config, configFor, process, send).statusCode == status
  {
  }

  // The content-type parser: a body whose media type matches `application/*+json`
  // goes to the JSON parser; any other is refused with status 415.
  function ParseBody(headers: Headers, text: string,
                     matchesJson: Headers -> bool,
                     parseJson: string -> Result<JsValue, HttpError>): (r: Result<JsValue, HttpError>)
    ensures matchesJson(headers) ==> r == parseJson(text)
    ensures !matchesJson(headers) ==> r.Failure? && r.error.status == Some(415)
    ensures !matchesJson(headers) ==> r.error.message == "Unsupported media type."
  {
    if matchesJson(headers) then parseJson(text) else Failure(UnsupportedMediaType)
  }

  /** A body of another media type never reaches the JSON parser: replacing the parser
      changes nothing, and the body text is irrelevant. */
  lemma RefusedBodyNotParsed(headers: Headers, text: string, otherText: string,
                             matchesJson: Headers -> bool,
                             parseJson: string -> Result<JsValue, HttpError>,
                             otherParse: string -> Result<JsValue, HttpError>)
    requires !matchesJson(headers)
    ensures ParseBody(headers, text, matchesJson, parseJson)
         == ParseBody(headers, otherText, matchesJson, otherParse)
  {
  }
}
