/** `HttpValidator`: runs the body, headers and query validators over a request, or
    the body and headers validators over a response, and collects every diagnostic
    they report, in a fixed order, without stopping at the first one. The three
    sub-validators and the response lookup are collaborators whose behaviour this
    model does not fix: they are function-valued parameters. */
module Validator {
  import opened Wrappers
  import opened Js
  import opened HttpTypes
  import Caseless

  type BodyValidator = (JsValue, seq<ContentSpec>, Option<string>) -> seq<Diagnostic>
  type HeadersValidator = (Headers, seq<ParamSpec>, Option<string>) -> seq<Diagnostic>
  type QueryValidator = (Query, seq<ParamSpec>, Option<string>) -> seq<Diagnostic>

  /** `findOperationResponse(responses, statusCode)`. */
  type ResponseFinder = (seq<ResponseSpec>, int) -> Option<ResponseSpec>

  /** The validator with its three injected sub-validators. */
  datatype HttpValidator = HttpValidator(
    body: BodyValidator,
    headers: HeadersValidator,
    query: QueryValidator)

  /** The one diagnostic the validator reports itself. */
  const RequiredBody := Diagnostic(Some("required"), "Body parameter is required", Error, None)

  /** `found.forEach(d => results.push(d))`. */
  function PushAll(results: seq<Diagnostic>, found: seq<Diagnostic>): (r: seq<Diagnostic>)
    ensures r == results + found
    decreases |found|
  {
    if found == [] then results
    else
      assert results + found == (results + [found[0]]) + found[1..];
      PushAll(results + [found[0]], found[1..])
  }

  /** The `content-type` header, looked up case-insensitively; absent headers are `{}`. */
  function MediaType(headers: Option<Headers>): Option<string> {
    Caseless.Get(headers.GetOr([]), ContentType)
  }

  // What an operation declares about the request, with the source's defaults.

  predicate DeclaresBody(op: Operation) {
    op.request.Some? && op.request.value.body.Some?
  }

  predicate RequiresBody(op: Operation) {
    DeclaresBody(op) && op.request.value.body.value.required == Some(true)
  }

  function DeclaredContents(op: Operation): seq<ContentSpec> {
    if DeclaresBody(op) then op.request.value.body.value.contents.GetOr([]) else []
  }

  function DeclaredHeaders(op: Operation): seq<ParamSpec> {
    if op.request.Some? then op.request.value.headers.GetOr([]) else []
  }

  function DeclaredQuery(op: Operation): seq<ParamSpec> {
    if op.request.Some? then op.request.value.query.GetOr([]) else []
  }

  /** What the headers validator reports on a request: absent headers are `{}`. */
  function RequestHeaderDiagnostics(v: HttpValidator, op: Operation, input: HttpRequest): seq<Diagnostic> {
    v.headers(input.headers.GetOr([]), DeclaredHeaders(op), MediaType(input.headers))
  }

  /** What the query validator reports on a request: an absent query is `{}`. */
  function QueryDiagnostics(v: HttpValidator, op: Operation, input: HttpRequest): seq<Diagnostic> {
    v.query(input.url.query.GetOr(map[]), DeclaredQuery(op), MediaType(input.headers))
  }

  /** The body step of `validateInput`, appended to `results`. The body is validated
      only when the operation declares one and the request sends a truthy body; a
      required body that is missing yields the validator's own `required` Error and
      the body validator is not called. */
  function CheckBody(v: HttpValidator, op: Operation, input: HttpRequest, mediaType: Option<string>,
                     results: seq<Diagnostic>): (r: seq<Diagnostic>)
    ensures !DeclaresBody(op) ==> r == results
    ensures RequiresBody(op) && !Truthy(input.body) ==> r == results + [RequiredBody]
    ensures DeclaresBody(op) && !RequiresBody(op) && !Truthy(input.body) ==> r == results
    ensures DeclaresBody(op) && Truthy(input.body) ==>
      r == results + v.body(input.body, DeclaredContents(op), mediaType)
  {
    var request := op.request;
    if request.Some? && request.value.body.Some? then
      if !Truthy(input.body) && request.value.body.value.required == Some(true) then
        results + [RequiredBody]
      else if Truthy(input.body) then
        PushAll(results, v.body(input.body, request.value.body.value.contents.GetOr([]), mediaType))
      else results
    else results
  }

  /** `validateInput`: body diagnostics, then header diagnostics, then query
      diagnostics; the header and query validators run whatever the body step did. */
  function ValidateInput(v: HttpValidator, op: Operation, input: HttpRequest): (r: seq<Diagnostic>)
    ensures r == CheckBody(v, op, input, MediaType(input.headers), [])
                 + RequestHeaderDiagnostics(v, op, input) + QueryDiagnostics(v, op, input)
  {
    var mediaType := MediaType(input.headers);
    var request := op.request;
    var results := CheckBody(v, op, input, mediaType, []);
    var results := PushAll(results, v.headers(input.headers.GetOr([]),
                                              if request.Some? then request.value.headers.GetOr([]) else [],
                                              mediaType));
    PushAll(results, v.query(input.url.query.GetOr(map[]),
                             if request.Some? then request.value.query.GetOr([]) else [],
                             mediaType))
  }

  /** The response declaration an output is checked against: none when the
      operation lists no responses or the lookup finds no match. */
  function ResponseSpecFor(op: Operation, statusCode: int, find: ResponseFinder): Option<ResponseSpec> {
    if op.responses.Some? then find(op.responses.value, statusCode) else None
  }

  /** `(responseSpec && responseSpec.contents) || []`. */
  function ResponseContents(op: Operation, statusCode: int, find: ResponseFinder): seq<ContentSpec> {
    var spec := ResponseSpecFor(op, statusCode, find);
    if spec.Some? then spec.value.contents.GetOr([]) else []
  }

  /** `(responseSpec && responseSpec.headers) || []`. */
  function ResponseHeaderSpecs(op: Operation, statusCode: int, find: ResponseFinder): seq<ParamSpec> {
    var spec := ResponseSpecFor(op, statusCode, find);
    if spec.Some? then spec.value.headers.GetOr([]) else []
  }

  /** What the body validator reports on a response. */
  function ResponseBodyDiagnostics(v: HttpValidator, op: Operation, output: HttpResponse, find: ResponseFinder): seq<Diagnostic> {
    v.body(output.body, ResponseContents(op, output.statusCode, find), MediaType(output.headers))
  }

  /** What the headers validator reports on a response. */
  function ResponseHeaderDiagnostics(v: HttpValidator, op: Operation, output: HttpResponse, find: ResponseFinder): seq<Diagnostic> {
    v.headers(output.headers.GetOr([]), ResponseHeaderSpecs(op, output.statusCode, find), MediaType(output.headers))
  }

  /** `validateOutput`: body diagnostics then header diagnostics. The body validator
      runs even on an absent body; the query is never checked. */
  function ValidateOutput(v: HttpValidator, op: Operation, output: HttpResponse, find: ResponseFinder): (r: seq<Diagnostic>)
    ensures r == ResponseBodyDiagnostics(v, op, output, find) + ResponseHeaderDiagnostics(v, op, output, find)
  {
    var mediaType := MediaType(output.headers);
    var results := PushAll([], v.body(output.body, ResponseContents(op, output.statusCode, find), mediaType));
    PushAll(results, v.headers(output.headers.GetOr([]), ResponseHeaderSpecs(op, output.statusCode, find), mediaType))
  }
}

/** Properties of the composition that hold whatever the sub-validators report. */
module ValidatorProperties {
  import opened Wrappers
  import opened Js
  import opened HttpTypes
  import opened Validator

  /** The body validator is consulted only for a declared body that was sent: replacing
      it changes nothing otherwise, in particular when a required body is missing. */
  lemma BodyValidatorOnlyForSentBody(v: HttpValidator, other: BodyValidator, op: Operation, input: HttpRequest)
    requires !(DeclaresBody(op) && Truthy(input.body))
    ensures ValidateInput(v.(body := other), op, input) == ValidateInput(v, op, input)
  {
  }

  /** A missing required body contributes exactly one diagnostic before the header and
      query diagnostics: the `required` Error. */
  lemma MissingRequiredBody(v: HttpValidator, op: Operation, input: HttpRequest)
    requires RequiresBody(op) && !Truthy(input.body)
    ensures var r := ValidateInput(v, op, input);
      && |r| == 1 + |RequestHeaderDiagnostics(v, op, input)| + |QueryDiagnostics(v, op, input)|
      && r[0] == RequiredBody
  {
  }

  /** Some diagnostic is an Error. */
  predicate HasError(ds: seq<Diagnostic>) {
    exists i :: 0 <= i < |ds| && ds[i].severity == Error
  }

  /** An Error in a concatenation comes from one of its parts, and every part's Error
      survives the concatenation. */
  lemma HasErrorConcat(a: seq<Diagnostic>, b: seq<Diagnostic>)
    ensures HasError(a + b) <==> HasError(a) || HasError(b)
  {
    if HasError(a + b) {
      var i :| 0 <= i < |a + b| && (a + b)[i].severity == Error;
      if i >= |a| {
        assert b[i - |a|].severity == Error;
      } else {
        assert a[i].severity == Error;
      }
    }
    if HasError(a) {
      var i :| 0 <= i < |a| && a[i].severity == Error;
      assert (a + b)[i].severity == Error;
    }
    if HasError(b) {
      var i :| 0 <= i < |b| && b[i].severity == Error;
      assert (a + b)[|a| + i].severity == Error;
    }
  }

  /** Nothing is dropped on the way: the request has an Error diagnostic exactly when a
      required body is missing or one of the validators that ran reported an Error. */
  lemma InputErrorsComeFromParts(v: HttpValidator, op: Operation, input: HttpRequest)
    ensures HasError(ValidateInput(v, op, input)) <==>
      || (RequiresBody(op) && !Truthy(input.body))
      || (DeclaresBody(op) && Truthy(input.body)
           && HasError(v.body(input.body, DeclaredContents(op), MediaType(input.headers))))
      || HasError(RequestHeaderDiagnostics(v, op, input))
      || HasError(QueryDiagnostics(v, op, input))
  {
    var h := RequestHeaderDiagnostics(v, op, input);
    var q := QueryDiagnostics(v, op, input);
    var b := CheckBody(v, op, input, MediaType(input.headers), []);
    HasErrorConcat(b + h, q);
    HasErrorConcat(b, h);
    if RequiresBody(op) && !Truthy(input.body) {
      assert b == [RequiredBody];
      assert b[0].severity == Error;
    } else if DeclaresBody(op) && Truthy(input.body) {
      assert b == v.body(input.body, DeclaredContents(op), MediaType(input.headers));
    } else {
      assert b == [];
    }
  }

  /** Query parameters are never checked on output: the query validator is irrelevant. */
  lemma OutputIgnoresQueryValidator(v: HttpValidator, other: QueryValidator, op: Operation,
                                    output: HttpResponse, find: ResponseFinder)
    ensures ValidateOutput(v.(query := other), op, output, find) == ValidateOutput(v, op, output, find)
  {
  }

  /** Without a matching response declaration, both the body and the headers are
      checked against empty declaration lists; the body is checked even if absent. */
  lemma OutputWithoutResponseSpec(v: HttpValidator, op: Operation, output: HttpResponse, find: ResponseFinder)
    requires op.responses.None? || find(op.responses.value, output.statusCode).None?
    ensures ValidateOutput(v, op, output, find)
      == v.body(output.body, [], MediaType(output.headers))
         + v.headers(output.headers.GetOr([]), [], MediaType(output.headers))
  {
  }
}
