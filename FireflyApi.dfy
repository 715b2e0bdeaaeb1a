/**
 * The data exchanged with the two endpoints: the identity service's client-credentials
 * token request and reply, and the image-generation request and reply. The HTTP calls
 * themselves are not modelled: a reply is a value handed in from outside.
 */
module FireflyApi {
  import opened Wrappers
  import opened PyText

  // ---------------------------------------------------------------- identity endpoint

  const TokenUrl := "https://ims-na1.adobelogin.com/ims/token/v3"
  const TokenScope := "openid,AdobeID,session,additional_info,read_organizations,firefly_api,ff_apis"

  /** An HTTP POST as it goes on the wire: the URL, the headers and the body. */
  datatype Post<Body> = Post(url: string, headers: map<string, string>, body: Body)

  /**
   * One client-credentials request to the identity endpoint, recorded by the pair it
   * carries; `TokenPost` gives the exact request.
   */
  datatype TokenRequest = TokenRequest(clientId: string, clientSecret: string)

  /** The decoded JSON body of a successful token reply; a missing key is `None`. */
  datatype TokenData = TokenData(accessToken: Option<string>, expiresIn: Option<int>)

  /**
   * What the identity endpoint answers: a non-2xx status, a connection failure or a body
   * that is not JSON all end in the same `except RequestException` branch.
   */
  datatype TokenReply = TokenRequestFailed | TokenJson(data: TokenData)

  /** Python truthiness of an optional string: neither `None` nor `""`. */
  predicate Truthy(s: Option<string>) {
    s.Some? && s.value != ""
  }

  /** The request `_get_access_token` sends for a pair; there is none unless both parts are truthy. */
  function TokenRequestFor(clientId: Option<string>, clientSecret: Option<string>): (r: Option<TokenRequest>)
    ensures r.Some? <==> Truthy(clientId) && Truthy(clientSecret)
    ensures r.Some? ==> r.value.clientId == clientId.value && r.value.clientSecret == clientSecret.value
  {
    if !Truthy(clientId) || !Truthy(clientSecret) then None
    else Some(TokenRequest(clientId.value, clientSecret.value))
  }

  /** The form-encoded POST a token request stands for. */
  function TokenPost(r: TokenRequest): Post<map<string, string>> {
    Post(TokenUrl,
         map["Content-Type" := "application/x-www-form-urlencoded"],
         map["grant_type" := "client_credentials",
             "client_id" := r.clientId,
             "client_secret" := r.clientSecret,
             "scope" := TokenScope])
  }

  /** The request is a form POST to the token endpoint, with the pair and the fixed grant type and scope. */
  lemma TokenPostContents(r: TokenRequest)
    ensures var p := TokenPost(r);
            && p.url == TokenUrl
            && p.headers == map["Content-Type" := "application/x-www-form-urlencoded"]
            && p.body.Keys == {"grant_type", "client_id", "client_secret", "scope"}
            && p.body["grant_type"] == "client_credentials"
            && p.body["client_id"] == r.clientId
            && p.body["client_secret"] == r.clientSecret
            && p.body["scope"] == TokenScope
  {
  }

  /** Different requests give different POSTs, so a `TokenRequest` records the whole request. */
  lemma TokenPostInjective(r1: TokenRequest, r2: TokenRequest)
    ensures TokenPost(r1) == TokenPost(r2) ==> r1 == r2
  {
    if TokenPost(r1) == TokenPost(r2) {
      assert TokenPost(r1).body["client_id"] == TokenPost(r2).body["client_id"];
      assert TokenPost(r1).body["client_secret"] == TokenPost(r2).body["client_secret"];
    }
  }

  // ---------------------------------------------------------------- generation endpoint

  const GenerateUrl := "https://firefly-api.adobe.io/v3/images/generate"

  datatype Dimensions = Dimensions(width: int, height: int)

  /** The JSON payload: exactly a prompt, a size and a content class. */
  datatype Payload = Payload(prompt: string, size: Dimensions, contentClass: string)

  /**
   * One request to the generation endpoint, recorded by what varies in it; `GenerationPost`
   * gives the exact request.
   */
  datatype GenerationRequest = GenerationRequest(apiKey: string, accessToken: string, model: string, payload: Payload)

  /** The JSON POST a generation request stands for. */
  function GenerationPost(r: GenerationRequest): Post<Payload> {
    Post(GenerateUrl,
         map["x-api-key" := r.apiKey,
             "Authorization" := "Bearer " + r.accessToken,
             "Content-Type" := "application/json",
             "Accept" := "application/json",
             "x-model-version" := r.model],
         r.payload)
  }

  /** Exactly five headers: the API key, the bearer token, the two JSON media types and the model. */
  lemma GenerationPostContents(r: GenerationRequest)
    ensures var p := GenerationPost(r);
            && p.url == GenerateUrl
            && p.headers.Keys == {"x-api-key", "Authorization", "Content-Type", "Accept", "x-model-version"}
            && p.headers["x-api-key"] == r.apiKey
            && p.headers["Authorization"] == "Bearer " + r.accessToken
            && p.headers["Content-Type"] == "application/json" && p.headers["Accept"] == "application/json"
            && p.headers["x-model-version"] == r.model
            && p.body == r.payload
  {
  }

  /** Different requests give different POSTs, so a `GenerationRequest` records the whole request. */
  lemma GenerationPostInjective(r1: GenerationRequest, r2: GenerationRequest)
    ensures GenerationPost(r1) == GenerationPost(r2) ==> r1 == r2
  {
    if GenerationPost(r1) == GenerationPost(r2) {
      var a1, a2 := GenerationPost(r1).headers["Authorization"], GenerationPost(r2).headers["Authorization"];
      assert a1 == a2;
      assert r1.accessToken == a1[|"Bearer "|..] && r2.accessToken == a2[|"Bearer "|..];
      assert GenerationPost(r1).headers["x-api-key"] == GenerationPost(r2).headers["x-api-key"];
      assert GenerationPost(r1).headers["x-model-version"] == GenerationPost(r2).headers["x-model-version"];
    }
  }

  /**
   * `width, height = map(int, size.split("x"))`: succeeds exactly when the split gives two
   * pieces that both parse as integers. Zero and negative numbers are accepted.
   */
  function ParseSize(size: string): Option<Dimensions> {
    var parts := Split(size, 'x');
    if |parts| == 2 && ParseInt(parts[0]).Some? && ParseInt(parts[1]).Some? then
      Some(Dimensions(ParseInt(parts[0]).value, ParseInt(parts[1]).value))
    else
      None
  }

  /** The one way to write a valid size: two integer strings around a single `x`. */
  lemma ParseSizeOfParts(w: string, h: string)
    requires 'x' !in w && 'x' !in h
    ensures ParseSize(w + "x" + h) ==
      if ParseInt(w).Some? && ParseInt(h).Some? then Some(Dimensions(ParseInt(w).value, ParseInt(h).value))
      else None
  {
    assert w + "x" + h == Join([w, h], 'x');
    SplitJoin([w, h], 'x');
  }

  /**
   * In the model, printing any integer size as `"<w>x<h>"` and parsing it gives it back: `int()` accepts a
   * sign, so zero and negative dimensions such as `"-5x0"` parse as well.
   */
  lemma ParseSizeRoundTrip(w: int, h: int)
    ensures ParseSize(Str(w) + "x" + Str(h)) == Some(Dimensions(w, h))
  {
    ParseIntStr(w);
    ParseIntStr(h);
    ParseSizeOfParts(Str(w), Str(h));
  }

  /** A size is accepted only if it holds exactly one `x`; one without any, such as `"abc"`, is rejected. */
  lemma ParseSizeNeedsSeparator(size: string)
    ensures ParseSize(size).Some? ==> Count(size, 'x') == 1
    ensures 'x' !in size ==> ParseSize(size).None?
  {
    SplitLength(size, 'x');
  }

  function GenerationRequestFor(prompt: string, apiKey: string, accessToken: string, size: Dimensions,
                                contentClass: string, model: string): GenerationRequest
  {
    GenerationRequest(apiKey, accessToken, model, Payload(prompt, size, contentClass))
  }

  // ---------------------------------------------------------------- generation reply

  /** An element of `error` / `errors`: only its `message` key is read. */
  datatype ErrorObject = ErrorObject(message: Option<string>)

  datatype ImageObject = ImageObject(url: Option<string>)

  datatype Output = Output(image: Option<ImageObject>)

  /** The keys of a generation reply's JSON object that the filter reads; a missing key is `None`. */
  datatype ReplyJson = ReplyJson(outputs: Option<seq<Output>>, error: Option<ErrorObject>, errors: Option<seq<ErrorObject>>)

  /**
   * What the generation endpoint answers. `HttpError` is a `RequestException` that carries a
   * response (a non-2xx status): `body` is its JSON, or `None` when it does not parse, and
   * `errorText` is `str(e)`. `RequestFailed` is one without a response (a connection error,
   * a timeout, or a 2xx body that is not JSON); it is re-raised as it is.
   */
  datatype GenerationReply =
    | Success(data: ReplyJson)
    | HttpError(status: int, body: Option<ReplyJson>, errorText: string)
    | RequestFailed(errorText: string)

  /** Which `raise` a failed generation ends in, with what its message is made of. */
  datatype Failure =
    | TokenUnavailable
    | InvalidSize(size: string)
    | NoImageUrl(detail: Option<string>)
    | MissingUrlKey
    | ApiError(message: string)
    | RequestError(errorText: string)

  /** The result of `_generate_image`: the image URL it returns, or the exception it raises. */
  datatype Outcome = Generated(url: string) | Raised(failure: Failure)

  const TokenFailureMessage := "Failed to obtain access token from Adobe API. Please verify your client_id and client_secret are valid and have the correct permissions."
  const NoImageText := "No image URL found in Firefly API response"

  /** `str(e)` for each exception `_generate_image` raises. */
  function FailureMessage(f: Failure): (m: string)
    ensures f.NoImageUrl? ==> NoImageText <= m
    ensures f.NoImageUrl? && f.detail.None? ==> m == NoImageText
    ensures f.NoImageUrl? && f.detail.Some? ==> m == NoImageText + ": " + f.detail.value
    ensures f.TokenUnavailable? ==> m == TokenFailureMessage
    ensures f.InvalidSize? ==> m == "Invalid size format: " + f.size + ". Use format '1024x1024'"
    ensures f.ApiError? ==> m == "Adobe Firefly API error: " + f.message
    ensures f.RequestError? ==> m == f.errorText
    ensures f.MissingUrlKey? ==> m == "'url'"
  {
    match f
    case TokenUnavailable => TokenFailureMessage
    case InvalidSize(size) => "Invalid size format: " + size + ". Use format '1024x1024'"
    case NoImageUrl(None) => NoImageText
    case NoImageUrl(Some(d)) => NoImageText + ": " + d
    case MissingUrlKey => "'url'"
    case ApiError(message) => "Adobe Firefly API error: " + message
    case RequestError(text) => text
  }

  /** The reply has at least one output, and its first output carries an `image` object. */
  predicate HasImage(data: ReplyJson) {
    data.outputs.Some? && |data.outputs.value| > 0 && data.outputs.value[0].image.Some?
  }

  /**
   * What a 2xx reply without an image adds to the message: `error.message`, else
   * `errors[0].message` (`""` when the object has no `message`), else nothing.
   */
  function NoImageDetail(data: ReplyJson): (d: Option<string>)
    ensures data.error.Some? ==> d == Some(data.error.value.message.GetOr(""))
    ensures data.error.None? && data.errors.Some? && |data.errors.value| > 0 ==>
              d == Some(data.errors.value[0].message.GetOr(""))
    ensures d.None? <==> data.error.None? && (data.errors.None? || data.errors.value == [])
  {
    if data.error.Some? then Some(data.error.value.message.GetOr(""))
    else if data.errors.Some? && |data.errors.value| > 0 then Some(data.errors.value[0].message.GetOr(""))
    else None
  }

  /** The message of a non-2xx reply: the body's `error.message`, otherwise the transport's `str(e)`. */
  function ApiErrorMessage(body: Option<ReplyJson>, errorText: string): (m: string)
    ensures body.Some? && body.value.error.Some? && body.value.error.value.message.Some? ==>
              m == body.value.error.value.message.value
    ensures body.None? || body.value.error.None? || body.value.error.value.message.None? ==> m == errorText
  {
    if body.Some? && body.value.error.Some? then body.value.error.value.message.GetOr(errorText)
    else errorText
  }

  /**
   * The reading of the generation reply. An image URL comes back only from a 2xx reply
   * whose first output has an image with a `url`; an image without `url` is a `KeyError`.
   */
  function InterpretReply(reply: GenerationReply): (o: Outcome)
    ensures o.Generated? <==> reply.Success? && HasImage(reply.data) && reply.data.outputs.value[0].image.value.url.Some?
    ensures o.Generated? ==> o.url == reply.data.outputs.value[0].image.value.url.value
    ensures reply.Success? && HasImage(reply.data) && reply.data.outputs.value[0].image.value.url.None? ==>
              o == Raised(MissingUrlKey)
    ensures reply.Success? && !HasImage(reply.data) ==> o == Raised(NoImageUrl(NoImageDetail(reply.data)))
    ensures reply.HttpError? ==> o == Raised(ApiError(ApiErrorMessage(reply.body, reply.errorText)))
    ensures reply.RequestFailed? ==> o == Raised(RequestError(reply.errorText))
  {
    match reply
    case Success(data) =>
      if HasImage(data) then
        match data.outputs.value[0].image.value.url
        case Some(u) => Generated(u)
        case None => Raised(MissingUrlKey)
      else
        Raised(NoImageUrl(NoImageDetail(data)))
    case HttpError(_, body, text) => Raised(ApiError(ApiErrorMessage(body, text)))
    case RequestFailed(text) => Raised(RequestError(text))
  }
}
