/**
 * The `Filter` object itself. Its fields are the ones the methods update in place; the
 * requests it sends are kept in two ghost logs. Every method is proved to move the object
 * from `old(State())` to the state its step function in `FilterSpec` computes, so every
 * property proved there about the step functions holds of the object.
 */
module FireflyFilter {
  import opened Wrappers
  import opened PyText
  import opened FireflyApi
  import opened Pipeline
  import opened FilterSpec

  /** A request body as the host passes it: only its `messages` list is touched. */
  class Body {
    var messages: seq<Message>

    constructor(messages: seq<Message>)
      ensures this.messages == messages
    {
      this.messages := messages;
    }
  }

  /** A streamed event: only its `choices` list is touched. */
  class Event {
    var choices: seq<Choice>

    constructor(choices: seq<Choice>)
      ensures this.choices == choices
    {
      this.choices := choices;
    }
  }

  class Filter {
    const filterType: string
    const id: string
    const name: string
    const imageHtml: string

    /** Replaced by the host when the administrator edits the configuration. */
    var valves: Valves
    var tokenCache: CachedToken
    var imageUrl: string
    var prompt: string
    var applyFilter: bool

    /** The token requests sent so far. */
    ghost var identityRequests: seq<TokenRequest>
    /** The generation requests sent so far. */
    ghost var generationRequests: seq<GenerationRequest>

    ghost function State(): FilterState
      reads this
    {
      FilterState(valves, tokenCache, imageUrl, prompt, applyFilter, identityRequests, generationRequests)
    }

    /**
     * `__init__`. Its credential check only runs when the default valves hold both
     * credentials, and they hold neither, so it sends nothing.
     */
    constructor()
      ensures filterType == "filter" && id == "firefly_filter" && name == "Firefly Filter" && imageHtml == ""
      ensures State() == InitialState(DefaultValves)
    {
      filterType := "filter";
      id := "firefly_filter";
      name := "Firefly Filter";
      imageHtml := "";
      tokenCache := EmptyCache;
      imageUrl := "";
      prompt := "";
      applyFilter := false;
      valves := DefaultValves;
      identityRequests := [];
      generationRequests := [];
    }

    /** `_get_access_token`; `reply` is what the identity endpoint answers, if it is asked. */
    method GetAccessToken(clientId: Option<string>, clientSecret: Option<string>, reply: TokenReply)
      returns (data: Option<TokenData>)
      modifies this
      ensures Fetched(data, State()) == AccessTokenStep(old(State()), clientId, clientSecret, reply)
    {
      if !Truthy(clientId) || !Truthy(clientSecret) {
        return None;
      }
      var request := TokenRequestFor(clientId, clientSecret);
      identityRequests := identityRequests + [request.value];
      match reply
      case TokenRequestFailed => data := None;
      case TokenJson(d) => data := Some(d);
    }

    /**
     * `_get_valid_token`; `now` is the clock before the lookup and `receivedAt` the clock
     * after the token reply.
     */
    method GetValidToken(clientId: Option<string>, clientSecret: Option<string>, now: int, receivedAt: int,
                         reply: TokenReply)
      returns (token: Option<string>)
      modifies this
      ensures TokenStep(token, State()) == ValidTokenStep(old(State()), clientId, clientSecret, now, receivedAt, reply)
    {
      if CountsAsDefault(valves, clientId, clientSecret) && Fresh(tokenCache, now) {
        return tokenCache.accessToken;
      }
      var resolvedId := Or(clientId, valves.clientId);
      var resolvedSecret := Or(clientSecret, valves.clientSecret);
      ghost var f := AccessTokenStep(State(), Some(resolvedId), Some(resolvedSecret), reply);
      var data := GetAccessToken(Some(resolvedId), Some(resolvedSecret), reply);
      assert Fetched(data, State()) == f;
      if data.Some? && data.value.accessToken.Some? {
        if resolvedId == valves.clientId && resolvedSecret == valves.clientSecret {
          tokenCache := CachedToken(data.value.accessToken, receivedAt + Lifetime(data.value.expiresIn));
        }
        return data.value.accessToken;
      }
      return None;
    }

    /** `_generate_image`: the URL it returns, or the exception it raises. */
    method GenerateImage(prompt: string, clientId: Option<string>, clientSecret: Option<string>,
                         size: string, contentClass: string, ext: Externals)
      returns (outcome: Outcome)
      modifies this
      ensures GenStep(outcome, State()) == GenerateStep(old(State()), prompt, clientId, clientSecret, size, contentClass, ext)
    {
      ghost var t := ValidTokenStep(State(), clientId, clientSecret, ext.now, ext.tokenReceivedAt, ext.tokenReply);
      var accessToken := GetValidToken(clientId, clientSecret, ext.now, ext.tokenReceivedAt, ext.tokenReply);
      assert TokenStep(accessToken, State()) == t;
      if !Truthy(accessToken) {
        return Raised(TokenUnavailable);
      }
      var apiKey := Or(clientId, valves.clientId);
      var dimensions := ParseSize(size);
      if dimensions.None? {
        return Raised(InvalidSize(size));
      }
      var request := GenerationRequestFor(prompt, apiKey, accessToken.value, dimensions.value, contentClass,
                                          valves.defaultModel);
      generationRequests := generationRequests + [request];
      outcome := InterpretReply(ext.generationReply);
      if outcome.Generated? {
        imageUrl := outcome.url;
      }
    }

    /** `inlet`: rewrites the last message of `body` and runs a `/firefly` command. */
    method Inlet(body: Body, ext: Externals)
      modifies this, body
      ensures HookStep(body.messages, State()) == InletStep(old(State()), old(body.messages), ext)
    {
      var command := CommandPrompt(body.messages);
      if command.None? {
        return;
      }
      ghost var s0 := State();
      applyFilter := true;
      prompt := command.value;
      RunCommand(body, command.value, ext, s0);
    }

    /**
     * The body of a recognised command, entered with the filter already switched on and
     * the prompt recorded: the usage text, a credential error, or a generation.
     */
    method RunCommand(body: Body, p: string, ext: Externals, ghost s0: FilterState)
      requires body.messages != []
      requires State() == s0.(applyFilter := true, prompt := p)
      modifies this, body
      ensures HookStep(body.messages, State()) == CommandStep(s0, old(body.messages), p, ext)
    {
      var messages := body.messages;
      if p == "" {
        body.messages := SetLastContent(messages, UsageText);
      } else if TooShort(valves.clientId) {
        body.messages := SetLastContent(messages, ClientIdError);
        applyFilter := false;
      } else if TooShort(valves.clientSecret) {
        body.messages := SetLastContent(messages, ClientSecretError);
        applyFilter := false;
      } else {
        var outcome := GenerateImage(p, Some(valves.clientId), Some(valves.clientSecret), valves.defaultSize,
                                     valves.defaultContentClass, ext);
        body.messages := SetLastContent(messages, InletReplyText(outcome));
      }
    }

    /** `stream`: while the filter is on, blanks the `content` of every choice's delta, one by one. */
    method Stream(event: Event)
      modifies event
      ensures event.choices == StreamedChoices(applyFilter, old(event.choices))
    {
      if !applyFilter {
        return;
      }
      var i := 0;
      while i < |event.choices|
        invariant 0 <= i <= |event.choices| == |old(event.choices)|
        invariant forall j | 0 <= j < i :: event.choices[j] == Blank(old(event.choices)[j])
        invariant forall j | i <= j < |event.choices| :: event.choices[j] == old(event.choices)[j]
      {
        event.choices := event.choices[i := Blank(event.choices[i])];
        i := i + 1;
      }
    }

    /**
     * `outlet`: while the filter is on, puts the image markdown in the last message; then
     * switches the filter off. `raisedIndexError` reports the `IndexError` of an empty list.
     */
    method Outlet(body: Body) returns (raisedIndexError: bool)
      modifies this, body
      ensures OutletStep(body.messages, State(), raisedIndexError) == OutletStepOf(old(State()), old(body.messages))
    {
      if applyFilter {
        if body.messages == [] {
          return true;
        }
        body.messages := SetLastContent(body.messages, ImageMarkdown(imageUrl));
      }
      applyFilter := false;
      raisedIndexError := false;
    }
  }
}
