# RegApp backend worker: request dispatch and response envelopes

A Dafny model of the `fetch` handler of the RegApp backend, a Cloudflare-style
worker (`src/index.js`). The handler:

- answers every `OPTIONS` request as a CORS preflight (null body, CORS headers);
- answers `/health`, whatever the method, with `{ ok: true }`;
- on `POST /auth/callback` reads `code` from the JSON body, refuses a falsy
  code with 400, otherwise POSTs a form-encoded token request to Google's
  token endpoint and answers 200 with a preview (at most ten characters plus `...`) of the granted
  `access_token` and its `expires_in`, 400 with the provider's whole payload
  when no token was granted, or 500 with the message of any exception;
- answers everything else with the plain text `RegApp Contacts API`;
- attaches the same three CORS headers to every response.

The model is pure, as the handler is a chain of early returns:

- `js_value.dfy` (module `JsValue`): JavaScript values after JSON parsing,
  truthiness, and property reads that throw on null or undefined.
- `worker.dfy` (module `Worker`): requests, responses, the outgoing token
  request, `Classify` (branch precedence), `Dispatch` (everything before the
  provider is awaited: an immediate reply or the token request to issue),
  `Complete` (the provider's result to an envelope), `Handle` (the whole
  handler) and `Preview`.
- `worker_properties.dfy` (module `WorkerProperties`): lemmas relating the
  branches.

The identity provider is a parameter `provider: TokenRequest -> ProviderResult`:
it receives exactly the request the handler issues and returns either the
parsed payload or the message of the error that `fetch` or `tokenRes.json()`
threw. "No token request is issued" is then stated as "the response does not
depend on the provider" (`ProviderMattersIffExchange`).

TypeErrors raised by the language itself are caught by the same `catch` and
modelled as faults with V8's wording: destructuring `code` from a `null` body,
reading `access_token` of a `null` payload, and calling `substring` on a truthy
`access_token` that is not a string (a number, `true`, an array or an object),
which therefore yields 500 rather than 200.

Facts about the code worth stating outright, since a reader might expect
otherwise:

- `/health` is matched on the path alone, whatever the method, so a
  `POST /health` gets `{ ok: true }` too.
- `substring(0, 10)` keeps ten characters: the preview of
  `abcdefghijklmnop` is `"abcdefghij..."` (`PreviewOfSixteenCharacters`).
- The full token can appear in a response: for a token of ten characters or
  fewer, `substring(0, 10)` is the whole token, so the preview is the token
  followed by `...` (`Preview`'s contract states this).
- A `GET /auth/callback` is not the callback route; it gets the default text.
- The handler has no other routes: no categories routes, no checks of an
  `Authorization` header, no database.

## Model

| member | source | states |
|---|---|---|
| `JsValue.Get` | src/index.js:27-28 | reading a property throws exactly on null or undefined; on an object holding the key it yields that field's value, and on any other readable value `undefined` |
| `Worker.Preview` | src/index.js:52 | the preview is at most 13 characters, ends in `...`, what precedes the ellipsis is a prefix of the token, 13 characters for tokens of ten or more, and the whole token plus `...` for tokens of ten or fewer |
| `Worker.Classify` | src/index.js:13-25 | the branch is the preflight iff the method is OPTIONS, health iff not OPTIONS and the path is `/health`, the callback iff POST to `/auth/callback`, and the default route otherwise |
| `Worker.Dispatch` | src/index.js:24-46 | a token request is issued iff the request is a POST to `/auth/callback` whose body parses to a value with a truthy `code`; it goes to Google's token endpoint as a form POST whose parameters are exactly that code, the configured client id and secret, the redirect URI `https://regapp-frontend.pages.dev` and grant type `authorization_code` |
| `Worker.Complete` | src/index.js:48-68 | JSON headers always; 200 iff the payload grants a non-empty string token, with body `{token: Preview(token), expires_in}`; 400 iff the payload's `access_token` is falsy, with body `{error: 'Token exchange failed', details: payload}`; 500 otherwise, always with a body holding only a string `error`: the thrown message when the provider threw, the null-read TypeError's message for a null payload, and the `substring is not a function` message for a truthy non-string token |
| `Worker.Handle` | src/index.js:2-76 | every response carries the CORS headers, plus the JSON content type exactly when the body is JSON; status is 200, 400 or 500, and non-200 only on `POST /auth/callback`; a null body iff OPTIONS; a text body iff the default route |
| `WorkerProperties.OptionsAlwaysPreflight` | src/index.js:13-15 | any OPTIONS request, whatever its path, gets status 200, a null body and exactly the three CORS headers, and issues no token request |
| `WorkerProperties.HealthIgnoresMethod` | src/index.js:18-22 | any non-OPTIONS request to `/health` gets 200 `{ok: true}` with the JSON headers |
| `WorkerProperties.MissingCodeRejected` | src/index.js:27-33 | a callback whose parsed body has a falsy `code` gets 400 `{error: 'Missing code'}` and issues no token request |
| `WorkerProperties.UnparsableBodyFails` | src/index.js:63-68 | a callback whose body fails to parse gets 500 `{error: <parser's message>}` |
| `WorkerProperties.NullishBodyFails` | src/index.js:27 | a callback whose body parses to `null` gets 500 with the TypeError raised by destructuring `code` from it, and issues no token request |
| `WorkerProperties.CallbackAnswersFromProvider` | src/index.js:48-56 | once the token request is issued, the body is an object holding `code`, and the response is the envelope of the provider's answer to the token request for that code and the configured credentials; a granted token is answered 200 with its preview |
| `WorkerProperties.OtherRequestsGetDefaultText` | src/index.js:71-75 | every request that is not OPTIONS, not `/health` and not a POST to `/auth/callback` (a GET to the callback included) gets 200 `RegApp Contacts API` with only the CORS headers and no Content-Type |
| `WorkerProperties.CorsOnEveryResponse` | src/index.js:6-10 | every response carries the same three CORS header values |
| `WorkerProperties.BadRequestExactly` | src/index.js:28-61 | the status is 400 iff the request is a callback whose `code` is falsy or whose token request the provider refused |
| `WorkerProperties.ProviderMattersIffExchange` | src/index.js:28-46 | the provider's answer can change the response iff the handler issues a token request |
| `WorkerProperties.PreviewIgnoresTail` | src/index.js:52 | tokens that agree on their first ten characters have the same preview |
| `WorkerProperties.PreviewOfSixteenCharacters` | src/index.js:52 | the preview of `abcdefghijklmnop` is `abcdefghij...` |

## Left out

- The HTTPS call to the token endpoint and `tokenRes.json()`: a network client and a parser; their combined outcome is the `provider` parameter.
- `request.json()`: the body arrives already parsed, or as the parser's error message.
- `new URL(request.url)`: the pathname is given as a string; URL parsing and normalisation are not modelled.
- The runtime's normalisation of standard method names: the method is compared as given, as the code's `===` does.
- `JSON.stringify`: response bodies are values, not text; it omits keys whose value is `undefined`, so an absent `expires_in` does not appear in the serialised 200 body although the model keeps it as `Undefined`.
- `URLSearchParams` string conversion: the form holds the `code` value and the configured secrets as given, not their string forms (`String(code)`, `"undefined"` for a missing secret).
- The `Response` constructor's defaults: the model records the headers the handler passes; the runtime also adds `text/plain;charset=UTF-8` to the default text response.
- `JsValue.Get`: models only keys that are own data properties or absent (`code`, `access_token`, `expires_in`), not prototype properties such as `length`.
- Characters: strings are sequences of `char`; `substring` counts UTF-16 code units, which differs for characters outside the Basic Multilingual Plane.
- Thrown values that are not `Error` objects (whose `message` would be `undefined`): `fetch`, `request.json()` and `tokenRes.json()` throw errors with messages.
- `async`/`await`, `ctx` and the worker runtime: platform plumbing with no state in the handler.
