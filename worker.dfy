/** The `fetch` handler of the RegApp backend worker: it classifies a request
    by method and path, answers CORS preflight, health and default requests
    directly, and on `POST /auth/callback` exchanges the posted authorization
    code for an access token at the identity provider, answering with one of
    three JSON envelopes. Every response carries the same three CORS headers.

    The asynchronous parts are inputs here: the parsed request body is part of
    the request, and the identity provider is a function from the token request
    the handler issues to what `fetch` followed by `tokenRes.json()` produced. */
module Worker {
  import opened JsValue

  type Headers = map<string, string>

  /** A response body before serialisation: `null`, a plain string, or the
      value that `JSON.stringify` is applied to. */
  datatype Body = NoBody | Text(text: string) | Json(value: Value)

  datatype Response = Response(status: int, headers: Headers, body: Body)

  /** What `request.json()` gives: the parsed value, or the message of the
      error it throws. */
  datatype RequestBody = Parsed(value: Value) | Unparsable(message: string)

  /** A request as the handler inspects it: its method, the pathname of its
      URL, and its body. */
  datatype Request = Request(httpMethod: string, pathname: string, body: RequestBody)

  /** The worker's configured secrets, `GOOGLE_CLIENT_ID` and `GOOGLE_CLIENT_SECRET`. */
  datatype Env = Env(clientId: string, clientSecret: string)

  /** The form-encoded parameters of the token request. */
  datatype TokenForm = TokenForm(
    code: Value,
    clientId: string,
    clientSecret: string,
    redirectUri: string,
    grantType: string)

  /** The outgoing request to the identity provider's token endpoint. */
  datatype TokenRequest = TokenRequest(
    endpoint: string,
    httpMethod: string,
    contentType: string,
    form: TokenForm)

  /** What awaiting the token request and its JSON body produced: the parsed
      payload, or the message of the error that either step threw. */
  datatype ProviderResult = Payload(data: Value) | Throws(message: string)

  /** An exception caught by the handler's `catch`: one raised by an awaited
      call, or a TypeError raised by the language itself. */
  datatype Fault =
    | Raised(message: string)
    | DestructureCodeOf(nullish: Value)   // `const { code } = <null>`
    | ReadAccessTokenOf(nullish: Value)   // `<null>.access_token`
    | SubstringNotCallable                // `access_token.substring(...)` on a non-string

  /** The four branches of the handler, in the order they are tried. */
  datatype Route = Preflight | Health | AuthCallback | Root

  /** What the handler does before awaiting the provider: answer at once, or
      issue a token request and answer from its result. */
  datatype Step = Reply(response: Response) | Exchange(request: TokenRequest)

  const FrontendOrigin := "https://regapp-frontend.pages.dev"
  const TokenEndpoint := "https://oauth2.googleapis.com/token"
  const RootText := "RegApp Contacts API"
  const RedirectUri := "https://regapp-frontend.pages.dev"
  const PreviewLength := 10

  function CorsHeaders(): Headers {
    map[
      "Access-Control-Allow-Origin" := FrontendOrigin,
      "Access-Control-Allow-Methods" := "GET, POST, OPTIONS",
      "Access-Control-Allow-Headers" := "Content-Type"
    ]
  }

  /** `{ 'Content-Type': 'application/json', ...corsHeaders }` */
  function JsonHeaders(): Headers {
    map["Content-Type" := "application/json"] + CorsHeaders()
  }

  function JsonResponse(status: int, value: Value): Response {
    Response(status, JsonHeaders(), Json(value))
  }

  function NullishName(v: Value): string {
    if v.Null? then "null" else "undefined"
  }

  /** `err.message` for each fault, with the TypeError wording of V8, the
      engine the worker runs on. */
  function FaultMessage(f: Fault): string {
    match f
    case Raised(message) => message
    case DestructureCodeOf(v) =>
      "Cannot destructure property 'code' of '(intermediate value)' as it is " + NullishName(v) + "."
    case ReadAccessTokenOf(v) =>
      "Cannot read properties of " + NullishName(v) + " (reading 'access_token')"
    case SubstringNotCallable => "tokenData.access_token.substring is not a function"
  }

  /** The `catch` branch: 500 with `{ error: err.message }`. */
  function FaultResponse(f: Fault): Response {
    JsonResponse(500, Obj(map["error" := Str(FaultMessage(f))]))
  }

  /** `token.substring(0, 10) + '...'`: the first ten characters of the token,
      or all of it when it is shorter, followed by an ellipsis. */
  function Preview(token: string): (r: string)
    ensures 3 <= |r| <= PreviewLength + 3
    ensures r[|r| - 3..] == "..."
    ensures r[..|r| - 3] <= token
    ensures |token| >= PreviewLength ==> |r| == PreviewLength + 3
    ensures |token| <= PreviewLength ==> r == token + "..."
  {
    var n := if |token| < PreviewLength then |token| else PreviewLength;
    token[..n] + "..."
  }

  /** Which branch the handler takes: OPTIONS before anything else, then the
      health path whatever the method, then a POST to the callback path, and
      every other request to the default text response. */
  function Classify(httpMethod: string, pathname: string): (r: Route)
    ensures r == Preflight <==> httpMethod == "OPTIONS"
    ensures r == Health <==> httpMethod != "OPTIONS" && pathname == "/health"
    ensures r == AuthCallback <==> httpMethod == "POST" && pathname == "/auth/callback"
    ensures r == Root <==>
      httpMethod != "OPTIONS" && pathname != "/health" && !(httpMethod == "POST" && pathname == "/auth/callback")
  {
    if httpMethod == "OPTIONS" then Preflight
    else if pathname == "/health" then Health
    else if pathname == "/auth/callback" && httpMethod == "POST" then AuthCallback
    else Root
  }

  /** The `code` field the callback reads from its body, when reading it does
      not throw. */
  function SubmittedCode(body: RequestBody): Option<Value> {
    if body.Parsed? then Get(body.value, "code") else None
  }

  /** The token request issued for a code: the code, the configured client
      credentials, the registered redirect URI and the authorization-code
      grant, form-encoded and POSTed to the provider's token endpoint. */
  function TokenRequestFor(code: Value, env: Env): TokenRequest {
    TokenRequest(
      TokenEndpoint, "POST", "application/x-www-form-urlencoded",
      TokenForm(code, env.clientId, env.clientSecret, RedirectUri, "authorization_code"))
  }

  function PreflightResponse(): Response {
    Response(200, CorsHeaders(), NoBody)
  }

  function HealthResponse(): Response {
    JsonResponse(200, Obj(map["ok" := Bool(true)]))
  }

  function MissingCodeResponse(): Response {
    JsonResponse(400, Obj(map["error" := Str("Missing code")]))
  }

  function RootResponse(): Response {
    Response(200, CorsHeaders(), Text(RootText))
  }

  /** Everything the handler does before the token request's result is
      awaited. A token request is issued exactly for a POST to the callback
      path whose body parses to a value with a truthy `code`, and it carries
      that code and the configured credentials. */
  function Dispatch(req: Request, env: Env): (r: Step)
    ensures r.Exchange? <==>
      req.httpMethod == "POST" && req.pathname == "/auth/callback" &&
      SubmittedCode(req.body).Some? && Truthy(SubmittedCode(req.body).value)
    ensures r.Exchange? ==>
      r.request.endpoint == "https://oauth2.googleapis.com/token" &&
      r.request.httpMethod == "POST" &&
      r.request.contentType == "application/x-www-form-urlencoded" &&
      r.request.form == TokenForm(
        req.body.value.fields["code"], env.clientId, env.clientSecret,
        "https://regapp-frontend.pages.dev", "authorization_code")
  {
    match Classify(req.httpMethod, req.pathname)
    case Preflight => Reply(PreflightResponse())
    case Health => Reply(HealthResponse())
    case Root => Reply(RootResponse())
    case AuthCallback =>
      match req.body
      case Unparsable(message) => Reply(FaultResponse(Raised(message)))
      case Parsed(value) =>
        match Get(value, "code")
        case None => Reply(FaultResponse(DestructureCodeOf(value)))
        case Some(code) =>
          if !Truthy(code) then Reply(MissingCodeResponse())
          else Exchange(TokenRequestFor(code, env))
  }

  /** The `access_token` the provider granted: a non-empty string under that
      key of the payload object. */
  predicate Granted(p: ProviderResult, token: string) {
    p.Payload? && p.data.Obj? && "access_token" in p.data.fields &&
    p.data.fields["access_token"] == Str(token) && token != ""
  }

  /** The provider answered with a payload whose `access_token` is falsy. */
  predicate Refused(p: ProviderResult) {
    p.Payload? && !Nullish(p.data) && !Truthy(Get(p.data, "access_token").value)
  }

  /** Maps the provider's result to the response: 200 with a token preview
      and `expires_in` when a token was granted, 400 with the whole payload
      when it was refused, and 500 with the error's message when awaiting the
      provider threw or reading the payload raised a TypeError. */
  function Complete(p: ProviderResult): (r: Response)
    ensures r.headers == JsonHeaders() && r.body.Json? && r.body.value.Obj?
    ensures r.status == 200 <==> exists token :: Granted(p, token)
    ensures forall token :: Granted(p, token) ==>
      r.body.value.fields == map[
        "token" := Str(Preview(token)),
        "expires_in" := if "expires_in" in p.data.fields then p.data.fields["expires_in"] else Undefined]
    ensures r.status == 400 <==> Refused(p)
    ensures r.status == 400 ==>
      r.body.value.fields == map["error" := Str("Token exchange failed"), "details" := p.data]
    ensures r.status == 500 <==> !Refused(p) && forall token :: !Granted(p, token)
    ensures r.status == 500 ==>
      r.body.value.fields.Keys == {"error"} && r.body.value.fields["error"].Str?
    ensures p.Throws? ==> r.body.value.fields == map["error" := Str(p.message)]
    ensures p.Payload? && Nullish(p.data) ==>
      r.body.value.fields == map["error" := Str(FaultMessage(ReadAccessTokenOf(p.data)))]
    ensures p.Payload? && p.data.Obj? && "access_token" in p.data.fields &&
            Truthy(p.data.fields["access_token"]) && !p.data.fields["access_token"].Str? ==>
      r.body.value.fields == map["error" := Str("tokenData.access_token.substring is not a function")]
  {
    match p
    case Throws(message) => FaultResponse(Raised(message))
    case Payload(data) =>
      match Get(data, "access_token")
      case None => FaultResponse(ReadAccessTokenOf(data))
      case Some(accessToken) =>
        if !Truthy(accessToken) then
          JsonResponse(400, Obj(map["error" := Str("Token exchange failed"), "details" := data]))
        else if accessToken.Str? then
          assert Granted(p, accessToken.s);
          JsonResponse(200, Obj(map[
            "token" := Str(Preview(accessToken.s)),
            "expires_in" := Get(data, "expires_in").value]))
        else
          FaultResponse(SubstringNotCallable)
  }

  /** The handler: one response per request. Every response carries the CORS
      headers, JSON ones add the JSON content type; only a preflight has no
      body, only the default route answers in plain text, and the only
      statuses are 200, 400 and 500, the last two only on the callback route. */
  function Handle(req: Request, env: Env, provider: TokenRequest -> ProviderResult): (r: Response)
    ensures r.headers == if r.body.Json? then JsonHeaders() else CorsHeaders()
    ensures r.status in {200, 400, 500}
    ensures r.body.NoBody? <==> req.httpMethod == "OPTIONS"
    ensures r.body.Text? <==> Classify(req.httpMethod, req.pathname) == Root
    ensures r.status != 200 ==> req.httpMethod == "POST" && req.pathname == "/auth/callback"
  {
    match Dispatch(req, env)
    case Reply(response) => response
    case Exchange(request) => Complete(provider(request))
  }
}
