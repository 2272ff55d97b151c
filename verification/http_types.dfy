/** The records the validator and the request handler exchange: operations as the
    API description declares them, requests and responses as they travel, and the
    diagnostics validation produces. Optional properties are `Option`s. */
module HttpTypes {
  import opened Wrappers
  import opened Js
  import Caseless
  import Strings

  /** Header names and values, in insertion order, looked up case-insensitively. */
  type Headers = Caseless.Dict

  /** The name of the header that carries a body's media type, already lower-case. */
  const ContentType: string := "content-type"

  lemma ContentTypeIsLower()
    ensures Strings.Lower(ContentType) == ContentType
  {
    Strings.LowerOfLower(ContentType);
  }

  /** One query value: a single string, or a list when the key repeats. */
  datatype QueryValue = One(value: string) | Many(values: seq<string>)

  /** Query keys are case-sensitive. */
  type Query = map<string, QueryValue>

  datatype Severity = Error | Warning | Information | Hint

  /** One validation finding. */
  datatype Diagnostic = Diagnostic(
    code: Option<string>,
    message: string,
    severity: Severity,
    path: Option<seq<string>>)

  /** A declared media type with its schema. */
  datatype ContentSpec = ContentSpec(mediaType: string, schema: Option<JsValue>)

  /** A declared header or query parameter. */
  datatype ParamSpec = ParamSpec(
    name: string,
    style: Option<string>,
    required: Option<bool>,
    explode: Option<bool>,
    schema: Option<JsValue>)

  datatype BodySpec = BodySpec(required: Option<bool>, contents: Option<seq<ContentSpec>>)

  datatype RequestSpec = RequestSpec(
    body: Option<BodySpec>,
    headers: Option<seq<ParamSpec>>,
    query: Option<seq<ParamSpec>>)

  /** A declared response; `code` is an exact status or a range such as `2XX`. */
  datatype ResponseSpec = ResponseSpec(
    code: string,
    contents: Option<seq<ContentSpec>>,
    headers: Option<seq<ParamSpec>>)

  datatype Operation = Operation(
    id: string,
    httpMethod: string,
    path: string,
    request: Option<RequestSpec>,
    responses: Option<seq<ResponseSpec>>)

  datatype HttpUrl = HttpUrl(path: string, query: Option<Query>, baseUrl: Option<QueryValue>)

  datatype HttpRequest = HttpRequest(
    httpMethod: string,
    url: HttpUrl,
    headers: Option<Headers>,
    body: JsValue)

  datatype HttpResponse = HttpResponse(statusCode: int, headers: Option<Headers>, body: JsValue)
}
