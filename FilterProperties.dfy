/**
 * Properties of the filter that relate several calls, or a call to a concrete exchange,
 * stated over the step functions of `FilterSpec`.
 */
module FilterProperties {
  import opened Wrappers
  import opened PyText
  import opened FireflyApi
  import opened Pipeline
  import opened FilterSpec

  /** A token reply carrying `access_token` and, optionally, `expires_in`. */
  function Granted(token: string, expiresIn: Option<int>): TokenReply {
    TokenJson(TokenData(Some(token), expiresIn))
  }

  /**
   * A token fetched for the default pair with lifetime `L` at time `t` is served without a
   * request for every lookup strictly before `t + L - 300`, and refetched from then on.
   */
  lemma CachedTokenServedUntilMargin(s: FilterState, token: string, lifetime: int, t: int, now0: int,
                                     now: int, later: int, reply: TokenReply)
    requires s.valves.clientId != "" && s.valves.clientSecret != ""
    requires !Fresh(s.tokenCache, now0)
    ensures var first := ValidTokenStep(s, None, None, now0, t, Granted(token, Some(lifetime)));
            var second := ValidTokenStep(first.state, None, None, now, later, reply);
            && first.state.tokenCache == CachedToken(Some(token), t + lifetime)
            && (second.state.identityRequests == first.state.identityRequests <==> now < t + lifetime - RefreshMargin)
            && (now < t + lifetime - RefreshMargin ==> second.token == Some(token) && second.state == first.state)
  {
    var first := ValidTokenStep(s, None, None, now0, t, Granted(token, Some(lifetime)));
    var second := ValidTokenStep(first.state, None, None, now, later, reply);
    if now >= t + lifetime - RefreshMargin {
      assert |second.state.identityRequests| == |first.state.identityRequests| + 1;
    }
  }

  /** A stale cache and a granted token: the default pair is asked once and the token is cached. */
  lemma DefaultPairRefetch(s: FilterState, now: int, t: int, token: string, expiresIn: Option<int>)
    requires s.valves.clientId != "" && s.valves.clientSecret != ""
    requires !Fresh(s.tokenCache, now)
    ensures ValidTokenStep(s, None, None, now, t, Granted(token, expiresIn)) ==
              TokenStep(Some(token), s.(tokenCache := CachedToken(Some(token), t + Lifetime(expiresIn)),
                                        identityRequests := s.identityRequests +
                                          [TokenRequestFor(Some(s.valves.clientId), Some(s.valves.clientSecret)).value]))
  {
  }

  /** Without `expires_in`, the token is kept for a day. */
  lemma MissingExpiryMeansOneDay(s: FilterState, token: string, now: int, t: int)
    requires s.valves.clientId != "" && s.valves.clientSecret != ""
    requires !Fresh(s.tokenCache, now)
    ensures ValidTokenStep(s, None, None, now, t, Granted(token, None)).state.tokenCache == CachedToken(Some(token), t + 86400)
  {
  }

  /**
   * The lookup tests the raw arguments but the write tests the resolved ones: an empty
   * client id skips a fresh cache, sends a request for the default pair, and overwrites the cache.
   */
  lemma EmptyClientIdSkipsLookupButRefillsCache(s: FilterState, now: int, t: int, token: string, lifetime: int)
    requires s.valves.clientId != "" && s.valves.clientSecret != ""
    requires Fresh(s.tokenCache, now)
    ensures var r := ValidTokenStep(s, Some(""), None, now, t, Granted(token, Some(lifetime)));
            && r.state.identityRequests == s.identityRequests + [TokenRequestFor(Some(s.valves.clientId), Some(s.valves.clientSecret)).value]
            && r.state.tokenCache == CachedToken(Some(token), t + lifetime)
            && r.token == Some(token)
  {
  }

  /**
   * Foreign credentials (either part differs from the valves) are fetched every time, get
   * the fetched token back, and never enter the cache.
   */
  lemma ForeignCredentialsNeverCached(s: FilterState, id: string, secret: string, now: int, t: int, reply: TokenReply)
    requires id != "" && secret != ""
    requires id != s.valves.clientId || secret != s.valves.clientSecret
    ensures var r := ValidTokenStep(s, Some(id), Some(secret), now, t, reply);
            && r.state.tokenCache == s.tokenCache
            && r.state.identityRequests == s.identityRequests + [TokenRequestFor(Some(id), Some(secret)).value]
            && r.token == (if reply.TokenJson? then reply.data.accessToken else None)
  {
  }

  /** Missing or empty credentials end the call with no request at all. */
  lemma NoCredentialsNoRequest(s: FilterState, now: int, t: int, reply: TokenReply)
    requires s.valves.clientSecret == ""
    requires !Fresh(s.tokenCache, now)
    ensures var r := ValidTokenStep(s, None, Some(""), now, t, reply);
            r.token.None? && r.state == s
  {
  }

  /**
   * Two generations in a row with the default pair send one token request in all when the
   * token from the first is still fresh at the second.
   */
  lemma TwoGenerationsOneTokenRequest(s: FilterState, token: string, lifetime: int,
                                      prompt1: string, prompt2: string, size: string, contentClass: string,
                                      e1: Externals, e2: Externals)
    requires s.valves.clientId != "" && s.valves.clientSecret != ""
    requires !Fresh(s.tokenCache, e1.now)
    requires token != ""
    requires e1.tokenReply == Granted(token, Some(lifetime))
    requires e2.now < e1.tokenReceivedAt + lifetime - RefreshMargin
    ensures var g1 := GenerateStep(s, prompt1, None, None, size, contentClass, e1);
            var g2 := GenerateStep(g1.state, prompt2, None, None, size, contentClass, e2);
            && g2.state.identityRequests == s.identityRequests + [TokenRequestFor(Some(s.valves.clientId), Some(s.valves.clientSecret)).value]
            && (ParseSize(size).Some? ==>
                  g2.state.generationRequests == g1.state.generationRequests +
                    [GenerationRequestFor(prompt2, s.valves.clientId, token, ParseSize(size).value, contentClass, s.valves.defaultModel)])
  {
    DefaultPairRefetch(s, e1.now, e1.tokenReceivedAt, token, Some(lifetime));
    GenerateBehaviour(s, prompt1, None, None, size, contentClass, e1);
    var g1 := GenerateStep(s, prompt1, None, None, size, contentClass, e1);
    assert g1.state.valves == s.valves;
    assert g1.state.tokenCache == CachedToken(Some(token), e1.tokenReceivedAt + lifetime);
    var t2 := ValidTokenStep(g1.state, None, None, e2.now, e2.tokenReceivedAt, e2.tokenReply);
    assert t2.token == Some(token) && t2.state == g1.state;
  }

  /** A malformed size still costs a token fetch, then fails before any generation request. */
  lemma MalformedSizeStillFetchesToken(s: FilterState, prompt: string, size: string, contentClass: string,
                                       token: string, ext: Externals)
    requires s.valves.clientId != "" && s.valves.clientSecret != ""
    requires !Fresh(s.tokenCache, ext.now)
    requires token != "" && ext.tokenReply.TokenJson? && ext.tokenReply.data.accessToken == Some(token)
    requires ParseSize(size).None?
    ensures var g := GenerateStep(s, prompt, None, None, size, contentClass, ext);
            && g.outcome == Raised(InvalidSize(size))
            && |g.state.identityRequests| == |s.identityRequests| + 1
            && g.state.generationRequests == s.generationRequests
            && g.state.tokenCache.accessToken == Some(token)
  {
  }

  /** A failed token fetch raises before any generation request and leaves the cache alone. */
  lemma FailedTokenStopsGeneration(s: FilterState, prompt: string, id: Option<string>, secret: Option<string>,
                                   size: string, contentClass: string, ext: Externals)
    requires !(CountsAsDefault(s.valves, id, secret) && Fresh(s.tokenCache, ext.now))
    requires ext.tokenReply.TokenRequestFailed? || ext.tokenReply.data.accessToken.None?
    ensures var g := GenerateStep(s, prompt, id, secret, size, contentClass, ext);
            && g.outcome == Raised(TokenUnavailable)
            && g.state.tokenCache == s.tokenCache
            && g.state.generationRequests == s.generationRequests
            && g.state.imageUrl == s.imageUrl
  {
  }

  /**
   * A reply whose `access_token` is `""` is cached like any other; lookups keep serving it,
   * and each generation then raises without asking the identity endpoint again.
   */
  lemma EmptyTokenIsCachedAndServed(s: FilterState, prompt: string, size: string, contentClass: string,
                                    e1: Externals, e2: Externals)
    requires s.valves.clientId != "" && s.valves.clientSecret != ""
    requires !Fresh(s.tokenCache, e1.now)
    requires e1.tokenReply == Granted("", None)
    requires e2.now < e1.tokenReceivedAt + DefaultLifetime - RefreshMargin
    ensures var g1 := GenerateStep(s, prompt, None, None, size, contentClass, e1);
            var g2 := GenerateStep(g1.state, prompt, None, None, size, contentClass, e2);
            && g1.outcome == Raised(TokenUnavailable)
            && g2.outcome == Raised(TokenUnavailable)
            && g2.state.identityRequests == g1.state.identityRequests
            && g2.state.generationRequests == s.generationRequests
  {
    var g1 := GenerateStep(s, prompt, None, None, size, contentClass, e1);
    assert g1.state.tokenCache == CachedToken(Some(""), e1.tokenReceivedAt + DefaultLifetime);
  }

  /**
   * The cache does not record which pair its token belongs to: after the host replaces the
   * valves, the token fetched for the old pair is served for the new one.
   */
  lemma CacheOutlivesValvesChange(s: FilterState, newValves: Valves, now: int, t: int, reply: TokenReply)
    requires Fresh(s.tokenCache, now)
    requires newValves.clientId != s.valves.clientId
    ensures var r := ValidTokenStep(s.(valves := newValves), None, None, now, t, reply);
            r.token == s.tokenCache.accessToken && r.state.identityRequests == s.identityRequests
  {
  }

  /** A command with an image produced: the user message is blanked, and `outlet` shows the new image. */
  lemma GeneratedImageReachesOutlet(s: FilterState, messages: seq<Message>, reply: seq<Message>, ext: Externals,
                                    p: string, url: string)
    requires CommandPrompt(messages) == Some(p) && p != ""
    requires |s.valves.clientId| >= 10 && |s.valves.clientSecret| >= 10
    requires InletGeneration(s, p, ext).outcome == Generated(url)
    requires reply != []
    ensures var i := InletStep(s, messages, ext);
            && i.messages == SetLastContent(messages, "")
            && OutletStepOf(i.state, reply).messages == SetLastContent(reply, ImageMarkdown(url))
            && !OutletStepOf(i.state, reply).state.applyFilter
  {
    var g := InletGeneration(s, p, ext);
    var i := InletStep(s, messages, ext);
    assert i.state == g.state && i.messages == SetLastContent(messages, InletReplyText(g.outcome));
  }

  /**
   * A command whose generation raised: the error replaces the user message, but the filter
   * stays on, so `outlet` overwrites the reply with the image of an earlier call (or `""`).
   */
  lemma FailedGenerationShowsStaleImage(s: FilterState, messages: seq<Message>, reply: seq<Message>, ext: Externals,
                                        p: string)
    requires CommandPrompt(messages) == Some(p) && p != ""
    requires |s.valves.clientId| >= 10 && |s.valves.clientSecret| >= 10
    requires InletGeneration(s, p, ext).outcome.Raised?
    requires reply != []
    ensures var i := InletStep(s, messages, ext);
            && i.messages == SetLastContent(messages, GenerationErrorText(FailureMessage(InletGeneration(s, p, ext).outcome.failure)))
            && i.state.applyFilter
            && OutletStepOf(i.state, reply).messages == SetLastContent(reply, ImageMarkdown(s.imageUrl))
  {
    var g := InletGeneration(s, p, ext);
    var i := InletStep(s, messages, ext);
    assert i.state == g.state && i.messages == SetLastContent(messages, InletReplyText(g.outcome));
    var f := g.outcome.failure;
    assert g.outcome == Raised(f);
    assert InletReplyText(Raised(f)) == GenerationErrorText(FailureMessage(f));
    assert i.state.applyFilter && i.state.imageUrl == s.imageUrl;
    var o := OutletStepOf(i.state, reply);
    assert o.messages == SetLastContent(reply, ImageMarkdown(i.state.imageUrl));
  }

  /** Credentials shorter than ten characters: the filter is off again and `outlet` leaves the reply alone. */
  lemma ShortCredentialsLeaveReplyAlone(s: FilterState, messages: seq<Message>, reply: seq<Message>, ext: Externals)
    requires CommandPrompt(messages).Some? && CommandPrompt(messages) != Some("")
    requires |s.valves.clientId| < 10
    ensures var i := InletStep(s, messages, ext);
            var o := OutletStepOf(i.state, reply);
            && i.state.identityRequests == s.identityRequests
            && o.messages == reply && !o.state.applyFilter
  {
  }

  // ---------------------------------------------------------------- whole exchanges

  /**
   * A stale cache, a granted token and a reply with one image: the URL comes back, the
   * token is cached with its lifetime, and exactly one generation request is sent, carrying
   * the default client id as API key, the token and the default model.
   */
  lemma SuccessfulGeneration(s: FilterState, prompt: string, size: string, d: Dimensions, contentClass: string,
                             ext: Externals, token: string, expiresIn: Option<int>, url: string)
    requires s.valves.clientId != "" && s.valves.clientSecret != ""
    requires !Fresh(s.tokenCache, ext.now)
    requires ext.tokenReply == Granted(token, expiresIn) && token != ""
    requires ParseSize(size) == Some(d)
    requires ext.generationReply == Success(ReplyJson(Some([Output(Some(ImageObject(Some(url))))]), None, None))
    ensures var g := GenerateStep(s, prompt, None, None, size, contentClass, ext);
            && g.outcome == Generated(url)
            && g.state.imageUrl == url
            && g.state.tokenCache == CachedToken(Some(token), ext.tokenReceivedAt + Lifetime(expiresIn))
            && g.state.generationRequests ==
                 s.generationRequests + [GenerationRequestFor(prompt, s.valves.clientId, token, d, contentClass, s.valves.defaultModel)]
  {
    DefaultPairRefetch(s, ext.now, ext.tokenReceivedAt, token, expiresIn);
  }

  /** A 429 whose body says `rate limited` raises with exactly that message. */
  lemma ExampleRateLimited(errorText: string)
    ensures InterpretReply(HttpError(429, Some(ReplyJson(None, Some(ErrorObject(Some("rate limited"))), None)), errorText))
              == Raised(ApiError("rate limited"))
    ensures FailureMessage(ApiError("rate limited")) == "Adobe Firefly API error: rate limited"
  {
  }

  /** A 2xx body `{}` has no image and raises the bare message. */
  lemma ExampleEmptyBody()
    ensures InterpretReply(Success(ReplyJson(None, None, None))) == Raised(NoImageUrl(None))
    ensures FailureMessage(NoImageUrl(None)) == "No image URL found in Firefly API response"
  {
  }

  /** The size `"abc"` is rejected. */
  lemma ExampleBadSize()
    ensures ParseSize("abc").None?
  {
    ParseSizeNeedsSeparator("abc");
  }
}
