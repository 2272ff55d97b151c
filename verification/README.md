# HTTP validator and request-handler rules of the Prism mock server, in Dafny

Prism turns an API description into an HTTP server that mocks or proxies the
described operations and validates traffic against them. This project models two
pieces of it:

- **`HttpValidator`** (`packages/http/src/validator/index.ts`). It combines a body
  validator, a headers validator and a query validator into one ordered list of
  diagnostics, for a request (`validateInput`) and for a response
  (`validateOutput`). It decides when the body is checked at all. It reports its
  own `required` Error when a required body is missing. It replaces missing header
  and query maps and missing declaration lists with empty ones. It never stops
  early: every sub-validator's diagnostics are appended in a fixed order.
- **The pure rules of the HTTP server's request handler**
  (`packages/http-server/src/server.ts`):
  - how the incoming method, URL and `__server` query key become the request record;
  - how the server-wide defaults fill a configuration (lodash `defaults`);
  - how the per-request mock configuration overrides the server's
    (`Object.assign`);
  - which status an error reply carries;
  - the content-type parser's 415 rule.

The sub-validators, `findOperationResponse`, `getHttpConfigFromRequest`, the
request pipeline `process`, the sending of a reply, the `application/*+json` matcher and `JSON.parse` are
not modelled as code. They appear as function-valued parameters, or as fields of
the `HttpValidator` datatype (which mirrors its constructor). They are assumed to
return normally, each with a list of diagnostics or a value. Beyond that, the
properties below hold for any values they return.

Modules:

| file | module | contents |
|---|---|---|
| wrappers.dfy | `Wrappers` | `Option` (an absent property) and `Result` (a thrown error) |
| js.dfy | `Js` | body values and JavaScript truthiness |
| strings.dfy | `Strings` | ASCII `toLowerCase`, `split`/`join` on one character |
| caseless.dfy | `Caseless` | case-insensitive header lookup |
| http_types.dfy | `HttpTypes` | operations, requests, responses, diagnostics |
| validator.dfy | `Validator`, `ValidatorProperties` | `validateInput`, `validateOutput` and their properties |
| config.dfy | `Config` | configuration records, `defaults` and `Object.assign` merging |
| server.dfy | `Server` | request normalisation, effective configuration, error replies, body parser |

Two points of the code that a reader might not expect:

- lodash `defaults` mutates its first argument, and that argument is
  `opts.config`. So the request handler's later reads of `opts.config` see the
  configuration after the defaults were applied. `Server.EffectiveConfig` therefore
  starts from `Config.MergeDefaults(config)`.
- The `proxy` default is `opts.config.proxy`, the same object's own value. It
  never changes a value (`Config.MergeDefaults` ensures `r.proxy == config.proxy`).

## Model

| member | source | states |
|---|---|---|
| Validator.PushAll | packages/http/src/validator/index.ts:29-31 | pushing a validator's diagnostics one by one appends all of them, in order, after the earlier ones |
| Validator.CheckBody | packages/http/src/validator/index.ts:22-33 | no declared body: nothing is added, even if a body is sent; declared, required and falsy body: exactly the `required` Error "Body parameter is required"; declared and truthy body: the body validator's diagnostics, unchanged, with the declared contents or `[]`; declared, not required and falsy body: nothing |
| Validator.ValidateInput | packages/http/src/validator/index.ts:17-44 | the result is the body step's diagnostics, then the headers validator's, then the query validator's; all sub-validators get the `content-type` header as media type; missing headers, query and declaration lists become empty |
| ValidatorProperties.BodyValidatorOnlyForSentBody | packages/http/src/validator/index.ts:25-33 | unless a body is declared and a truthy body is sent, replacing the body validator does not change the result: it is not consulted |
| ValidatorProperties.MissingRequiredBody | packages/http/src/validator/index.ts:25-27 | a missing required body adds exactly one diagnostic, the `required` Error, before the header and query diagnostics |
| ValidatorProperties.InputErrorsComeFromParts | packages/http/src/validator/index.ts:17-44 | the request has an Error diagnostic iff a required body is missing or a sub-validator that ran reported an Error: nothing is dropped and nothing is invented |
| ValidatorProperties.HasErrorConcat | packages/http/src/validator/index.ts:29-41 | an Error in appended diagnostic lists comes from one of the lists, and every list's Errors survive appending |
| Validator.ValidateOutput | packages/http/src/validator/index.ts:46-60 | the result is the body validator's diagnostics on the output body, present or not, then the headers validator's; both get the response spec that `findOperationResponse` selects for the status code |
| ValidatorProperties.OutputIgnoresQueryValidator | packages/http/src/validator/index.ts:46-60 | the query validator plays no part in output validation |
| ValidatorProperties.OutputWithoutResponseSpec | packages/http/src/validator/index.ts:49-57 | with no responses or no matching response, body contents and header declarations are both `[]` |
| Caseless.Get | packages/http/src/validator/index.ts:48 | the lookup finds nothing iff no key matches the name case-insensitively, else the value of the last matching key |
| Caseless.GetIgnoresCase | packages/http/src/validator/index.ts:19 | names equal up to letter case look up the same value |
| Caseless.GetLastWins | packages/http/src/validator/index.ts:19 | a matching key added later hides every earlier one |
| Caseless.GetSkipsOthers | packages/http/src/validator/index.ts:48 | a non-matching key added later changes nothing |
| Caseless.GetConcat | packages/http-server/src/server.ts:158 | merging headers after existing ones: a key found in the later part wins, otherwise the earlier part answers |
| Caseless.Drop | packages/http-server/src/server.ts:153 | setting the reply type removes every key matching the name case-insensitively and keeps only existing entries |
| Caseless.DropKeepsOthers | packages/http-server/src/server.ts:153 | removing one name leaves the lookup of every other name (up to case) unchanged |
| Strings.Lower | packages/http-server/src/server.ts:116 | lower-casing keeps the length, maps each character to its lower-case form and leaves no upper-case letter |
| Strings.LowerIdempotent | packages/http-server/src/server.ts:116 | lower-casing twice is lower-casing once |
| Strings.Split | packages/http-server/src/server.ts:118 | `split` gives at least one piece and no piece contains the separator; the first piece is a prefix of the string, followed by the separator or the end |
| Strings.JoinSplit | packages/http-server/src/server.ts:118 | joining the pieces with the separator gives back the original string |
| Server.NormaliseMethod | packages/http-server/src/server.ts:116 | the method lower-cased character by character, or `get` when missing or empty; the result is never empty and has no upper-case letter |
| Server.NormaliseMethodIdempotent | packages/http-server/src/server.ts:116 | normalising a normalised method changes nothing |
| Server.NormaliseMethodIgnoresCase | packages/http-server/src/server.ts:116 | methods equal up to letter case normalise alike |
| Server.RequestPath | packages/http-server/src/server.ts:118 | the path contains no `?`, is a prefix of the URL (`/` when the URL is missing or empty) and stops at its first `?` |
| Server.RequestPathWithoutQuery | packages/http-server/src/server.ts:118 | a URL without `?` is its own path |
| Server.ServerOverride | packages/http-server/src/server.ts:120 | the base URL is set iff the query has a `__server` key, and is then that key's value |
| Server.BuildInput | packages/http-server/src/server.ts:115-124 | the request record has the normalised method and path, the query, headers and body unchanged, and a base URL that is the `__server` entry of the query it carries |
| Config.Defaults | packages/http-server/src/server.ts:77-82 | every top-level key the configuration sets is kept; only missing keys come from the defaults |
| Config.MergeDefaults | packages/http-server/src/server.ts:77-82 | supplied keys win; `mock` (default `{dynamic: false}`), `validateRequest` and `validateResponse` (default true) are always set afterwards; `proxy` and `checkSecurity` are unchanged |
| Config.MergeDefaultsIdempotent | packages/http-server/src/server.ts:77-82 | applying the defaults twice equals applying them once |
| Config.MergeDefaultsShallow | packages/http-server/src/server.ts:77-82 | a supplied `mock` without `dynamic` is not completed |
| Config.Assign | packages/http-server/src/server.ts:129 | each key the per-request mock configuration sets wins; every other key keeps the server-wide value, or stays unset when there is none |
| Config.AssignIdentity | packages/http-server/src/server.ts:129 | overriding with an empty configuration keeps the base, and overriding a missing base gives the overrides |
| Config.AssignComposes | packages/http-server/src/server.ts:129 | successive overrides compose: the latest value of each key wins |
| Server.EffectiveConfig | packages/http-server/src/server.ts:128-134 | the pipeline receives the server configuration after its defaults, with `mock` overridden key by key by the per-request configuration |
| Server.StaticMockByDefault | packages/http-server/src/server.ts:77-82 | with no mock configuration on the server and no `dynamic` on the request, mocking is static |
| Server.ErrorStatus | packages/http-server/src/server.ts:151 | the error's own status when it has one, else 500 |
| Server.HandleError | packages/http-server/src/server.ts:149-164 | an unsent reply becomes a problem reply with the error's status and content type `application/problem+json`; its headers are those already written to the reply minus `content-type`, followed by the error's extra headers; a sent reply is only closed |
| Server.HandleRequest | packages/http-server/src/server.ts:127-164 | a result with output is sent with its status, headers and body; a failure of the per-request configuration or of the pipeline, or a result without output, becomes a problem reply with no written headers; an error thrown while sending goes to the error handler with the reply's sent state and the output headers already written |
| Server.EndOnlyAfterSent | packages/http-server/src/server.ts:138-164 | the reply is only closed without a problem payload exactly when sending a produced response threw after the reply counted as sent |
| Server.NoOutputIs500 | packages/http-server/src/server.ts:136-155 | a pipeline result without output yields a 500 problem reply |
| Server.ProblemHeaders | packages/http-server/src/server.ts:141-158 | in a problem reply an extra header of the error wins; any other header except `content-type` keeps the value already written; `content-type` with no extra header of that name is left to the problem type |
| Server.FailedSendKeepsOutputHeaders | packages/http-server/src/server.ts:139-161 | when sending a produced response throws before the reply counts as sent, the problem reply still carries every output header other than `content-type` that the error does not override |
| Server.ThrownStatusIsReplied | packages/http-server/src/server.ts:149-155 | an error the pipeline throws with a status is replied with that status |
| Server.ParseBody | packages/http-server/src/server.ts:63-75 | a body matching `application/*+json` goes to the JSON parser unchanged; any other is refused with "Unsupported media type." and status 415 |
| Server.RefusedBodyNotParsed | packages/http-server/src/server.ts:63-75 | a body that does not match never reaches the JSON parser: neither the parser nor the body text changes the outcome |

## Left out

- The body, headers and query validators, the deserializer registries, `findOperationResponse`, `getHttpConfigFromRequest`, `process`, the `type-is` matcher and `JSON.parse` are not part of this model. They are parameters, assumed to return normally.
- Validator.ValidateInput: a collaborator that throws is not modelled. In the source, an exception from a sub-validator ends validation with no diagnostics, so later validators do not run. The in-order, nothing-dropped results hold only when every sub-validator returns normally. The same holds for Validator.ValidateOutput.
- The `caseless` library is not part of this model. `Caseless.Get` follows its `get`: it keeps the last key that matches ignoring case.
- Strings.Lower: lower-cases only the ASCII letters A-Z, because JavaScript's Unicode case mapping is not modelled. HTTP method names are ASCII tokens.
- Server.NormaliseMethod: inherits the ASCII-only lower-casing of `Strings.Lower`.
- Server.ErrorStatus: an error whose `status` property exists but holds `undefined` is not modelled. Such an error would reply with an undefined status, not 500. A thrown non-object is not modelled either: for it, `'status' in e` itself throws a TypeError.
- Config.Assign: a per-request key that is present but `undefined` is treated as absent. `Object.assign` would copy the `undefined` over the server-wide value.
- Server.HandleRequest: does not model the order in which reply headers are written. It assumes every output header was written before a send failure. An error's extra `content-type` header could replace `application/problem+json`; the `Problem` reply keeps its content type in a field apart from its headers. The handler also does not model body serialisation, `ProblemJsonError`'s payload or logging. Sending a produced response is a parameter that either succeeds or throws, and it reports whether the reply counted as sent.
- Server.ParseBody: its 415 error is handled by the web framework's own error handler, not by the request handler's catch block. So it is not composed with `HandleError`.
- Header values that are arrays, and JavaScript's own key order for integer-like keys, are not modelled. Headers are an ordered list of string entries.
- Transport code is left out because it does I/O and holds no logic to prove. This covers the fastify, CORS and form-body registration, the proxy plugin and its hard-coded upstream, stream reading, the logging stub and `listen`.
- The HTTP client wrapper, the proxy plugin options module and the CLI commands are argument wiring and process management. They are left out.
- JSON numbers are Dafny reals, and floating-point rounding is not modelled. Only their truthiness matters here.
