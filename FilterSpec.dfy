/**
 * The `Filter` object's state and, for each of its methods, a pure step function from the
 * state before the call to the state after it. Requests sent to the two endpoints are part
 * of the state, as logs, so that "no request is made" can be stated. The clock and the
 * endpoints' replies come in as `Externals`.
 */
module FilterSpec {
  import opened Wrappers
  import opened PyText
  import opened FireflyApi
  import opened Pipeline

  /** The administrator's configuration (`Filter.Valves`), read-only for the filter. */
  datatype Valves = Valves(
    priority: int,
    clientId: string,
    clientSecret: string,
    defaultSize: string,
    defaultContentClass: string,
    defaultModel: string)

  const DefaultValves := Valves(0, "", "", "1024x1024", "photo", "image4_standard")

  /** `token_cache`: one token for the default pair, with its expiry time in seconds. */
  datatype CachedToken = CachedToken(accessToken: Option<string>, expiresAt: int)

  const EmptyCache := CachedToken(None, 0)

  /** A cached token is refreshed this many seconds before it expires. */
  const RefreshMargin := 300

  /** The token lifetime assumed when the reply has no `expires_in`. */
  const DefaultLifetime := 86400

  datatype FilterState = FilterState(
    valves: Valves,
    tokenCache: CachedToken,
    imageUrl: string,
    prompt: string,
    applyFilter: bool,
    identityRequests: seq<TokenRequest>,
    generationRequests: seq<GenerationRequest>)

  /** The state `__init__` leaves behind, with the valves the host supplied. */
  function InitialState(valves: Valves): FilterState {
    FilterState(valves, EmptyCache, "", "", false, [], [])
  }

  /**
   * What the outside world supplies during one call: the clock read before the cache
   * lookup (`now`), the clock read after the token reply arrived (`tokenReceivedAt`), and
   * the two endpoints' replies (each used only if the request is actually sent).
   */
  datatype Externals = Externals(
    now: int,
    tokenReceivedAt: int,
    tokenReply: TokenReply,
    generationReply: GenerationReply)

  function AsSeq<T>(o: Option<T>): (r: seq<T>)
    ensures |r| <= 1 && (o.Some? ==> r == [o.value]) && (o.None? ==> r == [])
  {
    if o.Some? then [o.value] else []
  }

  /** Python's `arg or default` for an optional string argument. */
  function Or(arg: Option<string>, default: string): (r: string)
    ensures Truthy(arg) ==> r == arg.value
    ensures !Truthy(arg) ==> r == default
  {
    if Truthy(arg) then arg.value else default
  }

  /** The cache lookup's test of the raw arguments: `None` counts as the default part. */
  predicate CountsAsDefault(v: Valves, clientId: Option<string>, clientSecret: Option<string>) {
    (clientId.None? || clientId.value == v.clientId) && (clientSecret.None? || clientSecret.value == v.clientSecret)
  }

  /** A cached token is served while it is set and more than five minutes from expiry. */
  predicate Fresh(cache: CachedToken, now: int) {
    cache.accessToken.Some? && cache.expiresAt > now + RefreshMargin
  }

  function Lifetime(expiresIn: Option<int>): int {
    expiresIn.GetOr(DefaultLifetime)
  }

  // ---------------------------------------------------------------- _get_access_token

  datatype Fetched = Fetched(data: Option<TokenData>, state: FilterState)

  /**
   * `_get_access_token`: gives up without a request unless both parts are truthy; otherwise
   * sends one token request and returns the decoded reply, or `None` if the request failed.
   */
  function AccessTokenStep(s: FilterState, clientId: Option<string>, clientSecret: Option<string>,
                           reply: TokenReply): (r: Fetched)
    ensures r.state == s.(identityRequests := s.identityRequests + AsSeq(TokenRequestFor(clientId, clientSecret)))
    ensures !Truthy(clientId) || !Truthy(clientSecret) ==> r.data.None? && r.state == s
    ensures Truthy(clientId) && Truthy(clientSecret) ==>
              r.data == if reply.TokenJson? then Some(reply.data) else None
  {
    var request := TokenRequestFor(clientId, clientSecret);
    var s' := s.(identityRequests := s.identityRequests + AsSeq(request));
    if request.None? then
      assert s' == s;
      Fetched(None, s)
    else
      match reply
      case TokenRequestFailed => Fetched(None, s')
      case TokenJson(data) => Fetched(Some(data), s')
  }

  // ---------------------------------------------------------------- _get_valid_token

  datatype TokenStep = TokenStep(token: Option<string>, state: FilterState)

  /**
   * `_get_valid_token`. The lookup tests the raw arguments; the fetch and the cache write use
   * the arguments resolved with `or`; only a pair that resolves to the default one is cached.
   */
  function ValidTokenStep(s: FilterState, clientId: Option<string>, clientSecret: Option<string>,
                          now: int, receivedAt: int, reply: TokenReply): TokenStep
  {
    if CountsAsDefault(s.valves, clientId, clientSecret) && Fresh(s.tokenCache, now) then
      TokenStep(s.tokenCache.accessToken, s)
    else
      var id := Or(clientId, s.valves.clientId);
      var secret := Or(clientSecret, s.valves.clientSecret);
      var f := AccessTokenStep(s, Some(id), Some(secret), reply);
      if f.data.Some? && f.data.value.accessToken.Some? then
        var cache :=
          if id == s.valves.clientId && secret == s.valves.clientSecret then
            CachedToken(f.data.value.accessToken, receivedAt + Lifetime(f.data.value.expiresIn))
          else
            s.tokenCache;
        TokenStep(f.data.value.accessToken, f.state.(tokenCache := cache))
      else
        TokenStep(None, f.state)
  }

  /** What `_get_valid_token` does on a hit, on a miss, and to the cache. */
  lemma ValidTokenBehaviour(s: FilterState, clientId: Option<string>, clientSecret: Option<string>,
                             now: int, receivedAt: int, reply: TokenReply)
    // a hit serves the cached token, with no request and no change
    ensures var r := ValidTokenStep(s, clientId, clientSecret, now, receivedAt, reply);
            CountsAsDefault(s.valves, clientId, clientSecret) && Fresh(s.tokenCache, now) ==>
              r.token == s.tokenCache.accessToken && r.state == s
    // a miss sends exactly the request for the resolved pair, if it is complete
    ensures var r := ValidTokenStep(s, clientId, clientSecret, now, receivedAt, reply);
            !(CountsAsDefault(s.valves, clientId, clientSecret) && Fresh(s.tokenCache, now)) ==>
              r.state.identityRequests == s.identityRequests +
                AsSeq(TokenRequestFor(Some(Or(clientId, s.valves.clientId)), Some(Or(clientSecret, s.valves.clientSecret))))
    // a miss returns the fetched access_token, whichever pair it was for, or None
    ensures var r := ValidTokenStep(s, clientId, clientSecret, now, receivedAt, reply);
            !(CountsAsDefault(s.valves, clientId, clientSecret) && Fresh(s.tokenCache, now)) ==>
              r.token ==
                if TokenRequestFor(Some(Or(clientId, s.valves.clientId)), Some(Or(clientSecret, s.valves.clientSecret))).Some?
                   && reply.TokenJson?
                then reply.data.accessToken
                else None
    // nothing but the cache and the request log ever changes
    ensures var r := ValidTokenStep(s, clientId, clientSecret, now, receivedAt, reply);
            r.state == s.(tokenCache := r.state.tokenCache, identityRequests := r.state.identityRequests)
    // a pair that does not resolve to the default one never touches the cache
    ensures var r := ValidTokenStep(s, clientId, clientSecret, now, receivedAt, reply);
            Or(clientId, s.valves.clientId) != s.valves.clientId || Or(clientSecret, s.valves.clientSecret) != s.valves.clientSecret ==>
              r.state.tokenCache == s.tokenCache
    // the cache only ever changes to the token just returned, stamped with its lifetime
    ensures var r := ValidTokenStep(s, clientId, clientSecret, now, receivedAt, reply);
            r.state.tokenCache != s.tokenCache ==>
              && reply.TokenJson? && reply.data.accessToken.Some?
              && r.token == reply.data.accessToken
              && r.state.tokenCache == CachedToken(r.token, receivedAt + Lifetime(reply.data.expiresIn))
    // a miss for the default pair with a usable reply overwrites both cache fields
    ensures var r := ValidTokenStep(s, clientId, clientSecret, now, receivedAt, reply);
            && !(CountsAsDefault(s.valves, clientId, clientSecret) && Fresh(s.tokenCache, now))
            && Or(clientId, s.valves.clientId) == s.valves.clientId && Or(clientSecret, s.valves.clientSecret) == s.valves.clientSecret
            && s.valves.clientId != "" && s.valves.clientSecret != ""
            && reply.TokenJson? && reply.data.accessToken.Some? ==>
              && r.token == reply.data.accessToken
              && r.state.tokenCache == CachedToken(reply.data.accessToken, receivedAt + Lifetime(reply.data.expiresIn))
    // a miss whose reply failed or lacks access_token yields None and keeps the cache
    ensures var r := ValidTokenStep(s, clientId, clientSecret, now, receivedAt, reply);
            !(CountsAsDefault(s.valves, clientId, clientSecret) && Fresh(s.tokenCache, now)) &&
            (reply.TokenRequestFailed? || reply.data.accessToken.None?) ==>
              r.token.None? && r.state.tokenCache == s.tokenCache
  {
  }

  // ---------------------------------------------------------------- _generate_image

  datatype GenStep = GenStep(outcome: Outcome, state: FilterState)

  /**
   * `_generate_image`. The token comes first, then the size is parsed, then the one
   * generation request is sent; only a returned URL is stored in `image_url`.
   */
  function GenerateStep(s: FilterState, prompt: string, clientId: Option<string>, clientSecret: Option<string>,
                        size: string, contentClass: string, ext: Externals): GenStep
  {
    var t := ValidTokenStep(s, clientId, clientSecret, ext.now, ext.tokenReceivedAt, ext.tokenReply);
    if !Truthy(t.token) then
      GenStep(Raised(TokenUnavailable), t.state)
    else
      var apiKey := Or(clientId, s.valves.clientId);
      match ParseSize(size)
      case None => GenStep(Raised(InvalidSize(size)), t.state)
      case Some(d) =>
        var request := GenerationRequestFor(prompt, apiKey, t.token.value, d, contentClass, s.valves.defaultModel);
        var sent := t.state.(generationRequests := t.state.generationRequests + [request]);
        var outcome := InterpretReply(ext.generationReply);
        GenStep(outcome, if outcome.Generated? then sent.(imageUrl := outcome.url) else sent)
  }

  /** What `_generate_image` sends, stores and returns or raises. */
  lemma GenerateBehaviour(s: FilterState, prompt: string, clientId: Option<string>, clientSecret: Option<string>,
                          size: string, contentClass: string, ext: Externals)
    // the token is obtained whatever the size
    ensures var r := GenerateStep(s, prompt, clientId, clientSecret, size, contentClass, ext);
            var t := ValidTokenStep(s, clientId, clientSecret, ext.now, ext.tokenReceivedAt, ext.tokenReply);
            && r.state.tokenCache == t.state.tokenCache
            && r.state.identityRequests == t.state.identityRequests
    ensures var r := GenerateStep(s, prompt, clientId, clientSecret, size, contentClass, ext);
            var t := ValidTokenStep(s, clientId, clientSecret, ext.now, ext.tokenReceivedAt, ext.tokenReply);
            !Truthy(t.token) ==> r.outcome == Raised(TokenUnavailable)
    ensures var r := GenerateStep(s, prompt, clientId, clientSecret, size, contentClass, ext);
            var t := ValidTokenStep(s, clientId, clientSecret, ext.now, ext.tokenReceivedAt, ext.tokenReply);
            Truthy(t.token) && ParseSize(size).None? ==> r.outcome == Raised(InvalidSize(size))
    // a generation request is sent exactly when a token was had and the size parsed, and it is this one
    ensures var r := GenerateStep(s, prompt, clientId, clientSecret, size, contentClass, ext);
            var t := ValidTokenStep(s, clientId, clientSecret, ext.now, ext.tokenReceivedAt, ext.tokenReply);
            r.state.generationRequests ==
              if Truthy(t.token) && ParseSize(size).Some? then
                s.generationRequests + [GenerationRequestFor(prompt, Or(clientId, s.valves.clientId), t.token.value,
                                                             ParseSize(size).value, contentClass, s.valves.defaultModel)]
              else s.generationRequests
    ensures var r := GenerateStep(s, prompt, clientId, clientSecret, size, contentClass, ext);
            r.state.generationRequests != s.generationRequests ==> r.outcome == InterpretReply(ext.generationReply)
    // `image_url` changes only to a URL the call returns
    ensures var r := GenerateStep(s, prompt, clientId, clientSecret, size, contentClass, ext);
            r.state.imageUrl == if r.outcome.Generated? then r.outcome.url else s.imageUrl
    ensures var r := GenerateStep(s, prompt, clientId, clientSecret, size, contentClass, ext);
            r.outcome.Generated? ==> r.state.generationRequests != s.generationRequests
    ensures var r := GenerateStep(s, prompt, clientId, clientSecret, size, contentClass, ext);
            && r.state.valves == s.valves && r.state.prompt == s.prompt && r.state.applyFilter == s.applyFilter
  {
    ValidTokenBehaviour(s, clientId, clientSecret, ext.now, ext.tokenReceivedAt, ext.tokenReply);
  }

  // ---------------------------------------------------------------- inlet

  datatype HookStep = HookStep(messages: seq<Message>, state: FilterState)

  /** `not client_id or len(client_id) < 10`, which is just a length test. */
  predicate TooShort(credential: string) {
    credential == "" || |credential| < 10
  }

  /** The generation `inlet` runs for prompt `p`: default credentials and default options, filter on. */
  function InletGeneration(s: FilterState, p: string, ext: Externals): (g: GenStep)
    ensures g.state.applyFilter && g.state.prompt == p && g.state.valves == s.valves
    ensures g.state.imageUrl == if g.outcome.Generated? then g.outcome.url else s.imageUrl
  {
    GenerateBehaviour(s.(applyFilter := true, prompt := p), p, Some(s.valves.clientId), Some(s.valves.clientSecret),
                      s.valves.defaultSize, s.valves.defaultContentClass, ext);
    GenerateStep(s.(applyFilter := true, prompt := p), p, Some(s.valves.clientId), Some(s.valves.clientSecret),
                 s.valves.defaultSize, s.valves.defaultContentClass, ext)
  }

  /** What replaces the user's message after a generation: nothing, or the error report. */
  function InletReplyText(o: Outcome): string {
    match o
    case Generated(_) => ""
    case Raised(failure) => GenerationErrorText(FailureMessage(failure))
  }

  /**
   * What `inlet` does once it has recognised a command with prompt `p`: the filter is on
   * and the prompt recorded, then the usage text, a credential error (filter off again) or
   * a generation follows.
   */
  function CommandStep(s: FilterState, messages: seq<Message>, p: string, ext: Externals): HookStep
    requires messages != []
  {
    var on := s.(applyFilter := true, prompt := p);
    if p == "" then
      HookStep(SetLastContent(messages, UsageText), on)
    else if TooShort(s.valves.clientId) then
      HookStep(SetLastContent(messages, ClientIdError), on.(applyFilter := false))
    else if TooShort(s.valves.clientSecret) then
      HookStep(SetLastContent(messages, ClientSecretError), on.(applyFilter := false))
    else
      var g := InletGeneration(s, p, ext);
      HookStep(SetLastContent(messages, InletReplyText(g.outcome)), g.state)
  }

  /**
   * `inlet`. Only a `/firefly` command in the last message has any effect. It switches the
   * filter on and records the prompt; then an empty prompt gets the usage text, default
   * credentials shorter than ten characters get an error and switch the filter off again,
   * and otherwise an image is generated with the default valves. A failed generation
   * replaces the message with the error but leaves the filter on.
   */
  function InletStep(s: FilterState, messages: seq<Message>, ext: Externals): (r: HookStep)
    ensures CommandPrompt(messages).None? ==> r == HookStep(messages, s)
    ensures CommandPrompt(messages).Some? ==>
              && r.state.prompt == CommandPrompt(messages).value
              && |r.messages| == |messages|
              && r.messages[..|messages| - 1] == messages[..|messages| - 1]
              && r.messages[|messages| - 1].role == messages[|messages| - 1].role
              && r.state.valves == s.valves
    ensures CommandPrompt(messages) == Some("") ==>
              && r.messages == SetLastContent(messages, UsageText)
              && r.state == s.(applyFilter := true, prompt := "")
    ensures CommandPrompt(messages).Some? && CommandPrompt(messages) != Some("") && TooShort(s.valves.clientId) ==>
              && r.messages == SetLastContent(messages, ClientIdError)
              && r.state == s.(applyFilter := false, prompt := CommandPrompt(messages).value)
    ensures CommandPrompt(messages).Some? && CommandPrompt(messages) != Some("") && !TooShort(s.valves.clientId)
            && TooShort(s.valves.clientSecret) ==>
              && r.messages == SetLastContent(messages, ClientSecretError)
              && r.state == s.(applyFilter := false, prompt := CommandPrompt(messages).value)
    ensures CommandPrompt(messages).Some? && CommandPrompt(messages) != Some("")
            && !TooShort(s.valves.clientId) && !TooShort(s.valves.clientSecret) ==>
              var g := InletGeneration(s, CommandPrompt(messages).value, ext);
              && r.state == g.state
              && r.messages == SetLastContent(messages, InletReplyText(g.outcome))
    // after a command the filter is on unless a credential was rejected, even if generation failed
    ensures CommandPrompt(messages).Some? ==>
              (r.state.applyFilter <==>
                 CommandPrompt(messages) == Some("") || (!TooShort(s.valves.clientId) && !TooShort(s.valves.clientSecret)))
  {
    match CommandPrompt(messages)
    case None => HookStep(messages, s)
    case Some(p) => CommandStep(s, messages, p, ext)
  }

  /** `inlet` sends no request of any kind unless there is a prompt and both credentials are long enough. */
  lemma InletRequestsNeedCredentials(s: FilterState, messages: seq<Message>, ext: Externals)
    ensures var r := InletStep(s, messages, ext);
            r.state.identityRequests != s.identityRequests || r.state.generationRequests != s.generationRequests ==>
              && CommandPrompt(messages).Some? && CommandPrompt(messages) != Some("")
              && |s.valves.clientId| >= 10 && |s.valves.clientSecret| >= 10
  {
  }

  // ---------------------------------------------------------------- outlet

  datatype OutletStep = OutletStep(messages: seq<Message>, state: FilterState, raisedIndexError: bool)

  /**
   * `outlet`. While the filter is on, the last message becomes the image markdown; the
   * filter is then switched off. With no message to rewrite, `[-1]` raises `IndexError`
   * before the switch is reset.
   */
  function OutletStepOf(s: FilterState, messages: seq<Message>): (r: OutletStep)
    ensures r.raisedIndexError <==> s.applyFilter && messages == []
    ensures r.raisedIndexError ==> r.state == s && r.messages == messages
    ensures !r.raisedIndexError ==> r.state == s.(applyFilter := false)
    ensures !s.applyFilter ==> r.messages == messages
    ensures s.applyFilter && messages != [] ==> r.messages == SetLastContent(messages, ImageMarkdown(s.imageUrl))
  {
    if !s.applyFilter then OutletStep(messages, s.(applyFilter := false), false)
    else if messages == [] then OutletStep(messages, s, true)
    else OutletStep(SetLastContent(messages, ImageMarkdown(s.imageUrl)), s.(applyFilter := false), false)
  }
}
