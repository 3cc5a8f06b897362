/** Properties of the RegApp worker's `fetch` handler that relate several
    branches or several calls: routing precedence, the envelopes each branch
    answers with, and when the identity provider's answer can matter. */
module WorkerProperties {
  import opened JsValue
  import opened Worker

  /** Any OPTIONS request is a preflight, whatever its path or body: a null
      body, the three CORS headers only, the default status, and no token
      request. */
  lemma OptionsAlwaysPreflight(req: Request, env: Env, provider: TokenRequest -> ProviderResult)
    requires req.httpMethod == "OPTIONS"
    ensures Dispatch(req, env).Reply?
    ensures Handle(req, env, provider) == Response(200, CorsHeaders(), NoBody)
    ensures Handle(req, env, provider).headers.Keys ==
      {"Access-Control-Allow-Origin", "Access-Control-Allow-Methods", "Access-Control-Allow-Headers"}
  {
  }

  /** The health path answers `{ ok: true }` as JSON to every method but
      OPTIONS. */
  lemma HealthIgnoresMethod(req: Request, env: Env, provider: TokenRequest -> ProviderResult)
    requires req.httpMethod != "OPTIONS" && req.pathname == "/health"
    ensures Handle(req, env, provider) ==
      Response(200, JsonHeaders(), Json(Obj(map["ok" := Bool(true)])))
  {
  }

  /** A callback whose body has a falsy `code` (absent, null, false, 0 or
      the empty string) is refused with 400 before any token request. */
  lemma MissingCodeRejected(req: Request, env: Env, provider: TokenRequest -> ProviderResult)
    requires req.httpMethod == "POST" && req.pathname == "/auth/callback"
    requires req.body.Parsed? && !Nullish(req.body.value)
    requires !Truthy(Get(req.body.value, "code").value)
    ensures Dispatch(req, env).Reply?
    ensures Handle(req, env, provider) ==
      Response(400, JsonHeaders(), Json(Obj(map["error" := Str("Missing code")])))
  {
  }

  /** A callback whose body does not parse as JSON answers 500 with the
      parser's message. */
  lemma UnparsableBodyFails(req: Request, env: Env, provider: TokenRequest -> ProviderResult)
    requires req.httpMethod == "POST" && req.pathname == "/auth/callback"
    requires req.body.Unparsable?
    ensures Handle(req, env, provider) ==
      Response(500, JsonHeaders(), Json(Obj(map["error" := Str(req.body.message)])))
  {
  }

  /** A callback whose body parses to `null` cannot have `code` destructured
      from it: it answers 500 with that TypeError's message. */
  lemma NullishBodyFails(req: Request, env: Env, provider: TokenRequest -> ProviderResult)
    requires req.httpMethod == "POST" && req.pathname == "/auth/callback"
    requires req.body.Parsed? && Nullish(req.body.value)
    ensures Dispatch(req, env).Reply?
    ensures Handle(req, env, provider) == FaultResponse(DestructureCodeOf(req.body.value))
    ensures req.body.value.Null? ==>
      Handle(req, env, provider).body.value.fields["error"] ==
        Str("Cannot destructure property 'code' of '(intermediate value)' as it is null.")
  {
  }

  /** Once the token request is issued, the response is the provider result's
      envelope: a preview of a granted token, the refused payload, or the
      error's message. */
  lemma CallbackAnswersFromProvider(req: Request, env: Env, provider: TokenRequest -> ProviderResult, token: string)
    requires Dispatch(req, env).Exchange?
    ensures req.body.Parsed? && req.body.value.Obj? && "code" in req.body.value.fields
    ensures Handle(req, env, provider) ==
      Complete(provider(TokenRequestFor(req.body.value.fields["code"], env)))
    ensures Granted(provider(Dispatch(req, env).request), token) ==>
      Handle(req, env, provider).status == 200 &&
      Handle(req, env, provider).body.value.fields["token"] == Str(Preview(token))
  {
  }

  /** A GET (or any method other than POST and OPTIONS) to the callback path
      is not the callback: it falls through to the default text response, as
      does every path the handler does not know. */
  lemma OtherRequestsGetDefaultText(req: Request, env: Env, provider: TokenRequest -> ProviderResult)
    requires req.httpMethod != "OPTIONS" && req.pathname != "/health"
    requires req.httpMethod != "POST" || req.pathname != "/auth/callback"
    ensures Dispatch(req, env).Reply?
    ensures Handle(req, env, provider) == Response(200, CorsHeaders(), Text("RegApp Contacts API"))
    ensures "Content-Type" !in Handle(req, env, provider).headers
  {
  }

  /** Every response on every branch carries the same three CORS headers. */
  lemma CorsOnEveryResponse(req: Request, env: Env, provider: TokenRequest -> ProviderResult)
    ensures Handle(req, env, provider).headers["Access-Control-Allow-Origin"] == "https://regapp-frontend.pages.dev"
    ensures Handle(req, env, provider).headers["Access-Control-Allow-Methods"] == "GET, POST, OPTIONS"
    ensures Handle(req, env, provider).headers["Access-Control-Allow-Headers"] == "Content-Type"
  {
  }

  /** 400 is answered exactly to a callback whose code is falsy and to one
      whose token request the provider refused. */
  lemma BadRequestExactly(req: Request, env: Env, provider: TokenRequest -> ProviderResult)
    ensures Handle(req, env, provider).status == 400 <==>
      req.httpMethod == "POST" && req.pathname == "/auth/callback" &&
      SubmittedCode(req.body).Some? &&
      (!Truthy(SubmittedCode(req.body).value) ||
       Refused(provider(TokenRequestFor(SubmittedCode(req.body).value, env))))
  {
  }

  /** The provider's answer can change the response exactly when the handler
      issues a token request: on every other request the provider is never
      consulted. */
  lemma ProviderMattersIffExchange(req: Request, env: Env)
    ensures Dispatch(req, env).Exchange? <==>
      exists p1, p2 :: Handle(req, env, p1) != Handle(req, env, p2)
  {
    if Dispatch(req, env).Exchange? {
      var p1: TokenRequest -> ProviderResult := _ => Throws("a");
      var p2: TokenRequest -> ProviderResult := _ => Throws("b");
      assert Handle(req, env, p1).body.value.fields["error"] == Str("a");
      assert Handle(req, env, p2).body.value.fields["error"] == Str("b");
    }
  }

  /** The preview shows nothing past the tenth character: tokens that agree
      on their first ten characters have the same preview. */
  lemma PreviewIgnoresTail(a: string, b: string)
    requires |a| >= 10 && |b| >= 10 && a[..10] == b[..10]
    ensures Preview(a) == Preview(b)
  {
  }

  /** The sixteen-character token `abcdefghijklmnop` is previewed as its first
      ten characters, `abcdefghij...`. */
  lemma PreviewOfSixteenCharacters()
    ensures Preview("abcdefghijklmnop") == "abcdefghij..."
  {
  }
}
