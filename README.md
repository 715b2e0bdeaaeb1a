# Firefly filter: a verified model

This project models the `Filter` class of `firefly_filter.py`. It is a chat-pipeline filter
for a host chat application. When the last user message is a `/firefly <prompt>` command,
`inlet` gets an access token from Adobe's identity service and asks the Firefly
image-generation endpoint for an image:

- The token is an OAuth2 client-credentials token, cached for the default credential pair.
  The cache keeps a five-minute refresh margin, and a token without `expires_in` lives one day.
- `inlet` replaces the command with `""`, with a usage text, with a credential error, or with
  an error report.
- `stream` blanks streamed deltas while the filter is on.
- `outlet` puts the image markdown in the reply and switches the filter off.

The model is split into modules:

| module | contents |
|---|---|
| `Wrappers` | `Option`. |
| `PyText` | The Python string operations the filter relies on, modelled on characters: `str.strip`, `str.lower().startswith`, `str.split` on one character and `int()`. Their properties are proved as lemmas: the strip characterisation, split/join inverses and the decimal round trip. |
| `FireflyApi` | The data exchanged with the two endpoints. It holds the token request and reply, and the generation request with its exact headers and payload. It also holds the parsing of `"<w>x<h>"` sizes, the reading of a generation reply, and the message of every exception `_generate_image` raises. |
| `Pipeline` | The request body's messages, the streamed choices, the `/firefly` command recognition, and the fixed texts the filter writes. |
| `FilterSpec` | The filter's state as a value: valves, token cache, image URL, prompt, `apply_filter`, plus logs of the requests sent. It has one pure step function per method of `Filter`, from the state before a call to the state after it. Lemmas state the behaviour of the cached lookup and of a generation. |
| `FilterProperties` | Properties relating several calls or a whole exchange, stated over the step functions. Examples: two generations share one token request, the cache survives a valves change, and a failed generation shows a stale image in `outlet`. |
| `FireflyFilter` | `class Filter` with the object's real fields, which its methods update in place. It has two ghost request logs. Each method is proved to take `old(State())` to the state its `FilterSpec` step function computes, so every lemma about the step functions holds of the object. |

The network and the clock are inputs. An `Externals` value carries:

- the clock reading before the cache lookup;
- the clock reading after the token reply (the time the expiry is computed from);
- the identity endpoint's reply;
- the generation endpoint's reply.

A reply is used only if the model actually sends that request. Sent requests are appended to
`identityRequests` and `generationRequests`. That is how "no request is made" is stated.

Some behaviours of the code are easy to miss when reading it. Each is proved by the lemma
named next to it:

- Cache lookup, `EmptyClientIdSkipsLookupButRefillsCache`. The lookup compares the raw
  arguments, and `None` counts as the default. The fetch and the cache write use the arguments
  after `or`. So an empty client id skips a fresh cache, and the token fetched for it still
  overwrites the cache.
- Valves changes, `CacheOutlivesValvesChange`. The cache does not record which pair its token
  was issued for. After the host replaces the valves, the old token is served for the new pair.
- Order of checks, `MalformedSizeStillFetchesToken`. The size is parsed after the token has been
  obtained, so a malformed size still costs a token request. The generation request is never
  sent.
- Size values, `ParseSizeRoundTrip`. `int("-5")` succeeds, so zero and negative sizes such as
  `"-5x0"` parse and are sent to the generation endpoint.
- Empty access token, `EmptyTokenIsCachedAndServed`. A reply whose `access_token` is `""` is
  cached like any other. Every generation then raises "Failed to obtain access token"
  without asking again, until the token expires.
- Empty prompts, `InletRequestsNeedCredentials`. `_generate_image` does not reject them.
  `inlet` never calls it with one: an empty command prompt gets the usage text and sends nothing.
- `apply_filter` after a failure, `FailedGenerationShowsStaleImage`. A failed generation
  leaves `apply_filter` on, so `outlet` overwrites the reply with the URL of an earlier image,
  or with `![image]()`.

## Model

| member | source | states |
|---|---|---|
| PyText.StripProperties | firefly_filter.py:117 | `strip` removes exactly a whitespace prefix and suffix: the result is an infix of the input, its ends are not whitespace, and it is empty iff the input is all whitespace |
| PyText.SplitLength | firefly_filter.py:323 | `split("x")` returns one more piece than there are separators |
| PyText.SplitPieces | firefly_filter.py:323 | no piece of `split` contains the separator |
| PyText.JoinSplit | firefly_filter.py:323 | joining the pieces of `split` with the separator gives back the input |
| PyText.SplitJoin | firefly_filter.py:323 | splitting a join of separator-free pieces gives back exactly those pieces |
| PyText.ParseIntDecimal | firefly_filter.py:323 | `int()` of a natural number's decimal form returns that number |
| FireflyApi.TokenRequestFor | firefly_filter.py:211-221 | a token request exists iff both client id and secret are truthy, and it carries them |
| PyText.ParseIntStr | firefly_filter.py:323 | in the model, `int(str(n)) == n` for every integer, a leading minus sign included (see `PyText.ParseInt` under Left out for the digit limit) |
| PyText.InformationSeparatorRejected | firefly_filter.py:323 | `int()` fails on text holding U+001C..U+001F, although `strip` removes those characters |
| FireflyApi.TokenPostContents | firefly_filter.py:225-237 | the token request is a form POST to the IMS v3 URL with exactly the grant type, the pair and the fixed scope |
| FireflyApi.TokenPostInjective | firefly_filter.py:225-237 | two token requests with the same POST are the same request, so the pair records the request |
| FireflyApi.GenerationPostContents | firefly_filter.py:327-346 | the generation request goes to the v3 generate URL with exactly five headers (API key, bearer token, JSON types, model) and the prompt/size/content-class payload |
| FireflyApi.GenerationPostInjective | firefly_filter.py:327-346 | two generation requests with the same POST are the same request: key, token, model and payload are all recoverable |
| FireflyApi.ParseSizeOfParts | firefly_filter.py:322-325 | `"<w>x<h>"` with `x`-free parts parses iff both parts are integers, to those integers |
| FireflyApi.ParseSizeRoundTrip | firefly_filter.py:322-325 | in the model, printing any integer dimensions as `"<w>x<h>"` and parsing gives them back, so zero and negative sizes parse |
| FireflyApi.ParseSizeNeedsSeparator | firefly_filter.py:322-325 | an accepted size holds exactly one `x`, and a size with none is rejected |
| FireflyApi.NoImageDetail | firefly_filter.py:368-373 | a missing image's detail is `error.message`, else `errors[0].message` (`""` if absent), and there is none iff neither key gives one |
| FireflyApi.ApiErrorMessage | firefly_filter.py:383-391 | a non-2xx reply's message is the body's `error.message` when present, else `str(e)` |
| FireflyApi.FailureMessage | firefly_filter.py:309-397 | the text of each exception: the token failure text, `Invalid size format: <size>. Use format '1024x1024'`, the no-image text alone or followed by `": " + detail`, `'url'` for the `KeyError`, `Adobe Firefly API error: <message>`, and a re-raised `str(e)` unchanged |
| FireflyApi.InterpretReply | firefly_filter.py:343-397 | a URL is returned iff the reply is 2xx and its first output's image has a `url`; an image without `url` is a `KeyError`; no image, a non-2xx reply and a transport failure each raise their own error |
| Pipeline.CommandPrompt | firefly_filter.py:104-118 | a command prompt is found only in a non-empty message list |
| Pipeline.CommandRecognised | firefly_filter.py:104-118 | a command is recognised iff the last content is a string starting with `/firefly` in any case; the prompt is the stripped rest, empty iff the rest is all whitespace |
| Pipeline.SetLastContent | firefly_filter.py:123-125 | only the last message changes; it keeps its role and gets the new string content |
| Pipeline.Blank | firefly_filter.py:183-186 | a delta `content` becomes `""` when present; the index, the role, and choices without a delta or content are unchanged |
| Pipeline.StreamedChoices | firefly_filter.py:180-187 | while the filter is on every choice is blanked, else the event is unchanged; the length is kept |
| Pipeline.StreamIdempotent | firefly_filter.py:180-187 | streaming the same event twice changes it no further |
| Pipeline.StreamShowsNothing | firefly_filter.py:180-187 | while the filter is on no streamed delta carries text |
| FilterSpec.Or | firefly_filter.py:266-267 | `arg or default`: the argument when truthy, else the default |
| FilterSpec.AccessTokenStep | firefly_filter.py:200-247 | no request and `None` unless both parts are truthy; otherwise exactly one request for the pair, returning the decoded reply or `None` when it failed |
| FilterSpec.ValidTokenBehaviour | firefly_filter.py:249-284 | a hit (default pair, token set, expiry more than 300 s ahead) serves the cache with no request; a miss sends exactly the request for the `or`-resolved pair and returns the fetched `access_token` for any pair, or `None` when the pair is incomplete, the request failed or the key is missing; only the cache and the log change; the cache changes only for the default pair, to the returned token and receipt time plus `expires_in` (default 86400) |
| FilterSpec.GenerateBehaviour | firefly_filter.py:287-397 | the token is obtained first; no token raises, then a bad size raises; exactly one generation request with the resolved key, the token and the default model is sent otherwise; `image_url` changes only to a returned URL |
| FilterSpec.InletGeneration | firefly_filter.py:159-176 | a generation from `inlet` leaves the filter on with the prompt recorded, valves unchanged, `image_url` updated only on success |
| FilterSpec.InletStep | firefly_filter.py:99-178 | no command changes nothing; a command records its prompt and rewrites only the last message with the usage text, a credential error, `""` or the error report; the filter stays on unless a credential was rejected |
| FilterSpec.InletRequestsNeedCredentials | firefly_filter.py:120-167 | `inlet` sends no request unless the prompt is non-empty and both default credentials have at least ten characters |
| FilterSpec.OutletStepOf | firefly_filter.py:189-198 | while the filter is on, the last message becomes the image markdown (an empty list raises `IndexError`); the filter is off afterwards |
| FilterProperties.CachedTokenServedUntilMargin | firefly_filter.py:252-282 | a fetched token of lifetime L received at t is served with no request exactly while the clock is before t + L - 300 |
| FilterProperties.DefaultPairRefetch | firefly_filter.py:265-282 | with a stale cache the default pair is requested once and the granted token is cached with its lifetime |
| FilterProperties.MissingExpiryMeansOneDay | firefly_filter.py:277-280 | without `expires_in` the token expires 86400 s after receipt |
| FilterProperties.EmptyClientIdSkipsLookupButRefillsCache | firefly_filter.py:252-277 | an empty client id skips a fresh cache, requests the default pair and overwrites the cache |
| FilterProperties.ForeignCredentialsNeverCached | firefly_filter.py:252-282 | a pair whose id or secret differs from the valves is requested every time, gets the fetched token back, and never touches the cache |
| FilterProperties.NoCredentialsNoRequest | firefly_filter.py:211-221 | an empty resolved secret ends the lookup with `None` and no request or change |
| FilterProperties.TwoGenerationsOneTokenRequest | firefly_filter.py:249-346 | two generations with the default pair while the first token is fresh send one token request in all, and the second generation request carries that token |
| FilterProperties.MalformedSizeStillFetchesToken | firefly_filter.py:309-325 | a malformed size raises the size error after one token request and before any generation request |
| FilterProperties.FailedTokenStopsGeneration | firefly_filter.py:309-313 | a failed token fetch raises before any generation request and keeps cache and image URL |
| FilterProperties.EmptyTokenIsCachedAndServed | firefly_filter.py:271-313 | an empty `access_token` is cached; later generations raise with no further token request |
| FilterProperties.CacheOutlivesValvesChange | firefly_filter.py:252-263 | after the valves change, a fresh cached token is served for the new pair with no request |
| FilterProperties.GeneratedImageReachesOutlet | firefly_filter.py:159-198 | a successful command blanks the user message and `outlet` shows the new image and switches the filter off |
| FilterProperties.FailedGenerationShowsStaleImage | firefly_filter.py:172-198 | a failed generation puts the error report in the message, keeps the filter on, and `outlet` shows the previous image URL |
| FilterProperties.ShortCredentialsLeaveReplyAlone | firefly_filter.py:145-198 | a client id under ten characters sends nothing and `outlet` leaves the reply unchanged |
| FilterProperties.SuccessfulGeneration | firefly_filter.py:287-363 | a stale cache, a granted token and a reply with an image: the URL is returned and stored, the token cached, and exactly the expected generation request sent |
| FilterProperties.ExampleRateLimited | firefly_filter.py:383-393 | a 429 whose body says `rate limited` raises `Adobe Firefly API error: rate limited` |
| FilterProperties.ExampleEmptyBody | firefly_filter.py:353-375 | a 2xx body `{}` raises the bare no-image message |
| FilterProperties.ExampleBadSize | firefly_filter.py:322-325 | the size `"abc"` is rejected |
| FireflyFilter.Filter.constructor | firefly_filter.py:63-97 | the identifying constants, default valves, an empty cache, empty image URL and prompt, filter off, nothing sent |
| FireflyFilter.Filter.GetAccessToken | firefly_filter.py:200-247 | the object moves as `AccessTokenStep` says and returns its data |
| FireflyFilter.Filter.GetValidToken | firefly_filter.py:249-284 | the object moves as `ValidTokenStep` says and returns its token |
| FireflyFilter.Filter.GenerateImage | firefly_filter.py:287-397 | the object moves as `GenerateStep` says and returns its outcome |
| FireflyFilter.Filter.Inlet | firefly_filter.py:99-178 | the object and the body's messages move as `InletStep` says |
| FireflyFilter.Filter.RunCommand | firefly_filter.py:120-176 | after a recognised command, the object and the body move as `CommandStep` says |
| FireflyFilter.Filter.Stream | firefly_filter.py:180-187 | the event's choices become `StreamedChoices` of the old ones, blanked one by one in place |
| FireflyFilter.Filter.Outlet | firefly_filter.py:189-198 | the object and the body's messages move as `OutletStepOf` says, reporting the `IndexError` |

The definitions these contracts are about model the code directly: `FilterSpec.ValidTokenStep`
is firefly_filter.py:249-284, `FilterSpec.GenerateStep` is :287-397, `FilterSpec.CommandStep`
is :120-176, `FireflyApi.ParseSize` is :322-325, `PyText.ParseInt` is `int()` at :323,
`PyText.Strip` is `.strip()` at :117, `PyText.Split` is `.split("x")` at :323,
`PyText.LowerStartsWith` is `.lower().startswith("/firefly")` at :110,
`FilterSpec.InletReplyText` and `Pipeline.GenerationErrorText` are the replacement texts of
:170-176, and `Pipeline.ImageMarkdown` is the markdown of :195.

## Left out

- HTTP is not performed. Each endpoint's reply is an input, and a request is recorded by the
  values that vary in it. `TokenPost` and `GenerationPost` give the exact request built from
  those values.
- The clock is an input. Python's float `time.time()` is modelled as an integer number of
  seconds.
- Logging is left out, including the `logger` calls in every method.
- The logger set-up, `IMAGES_DIR` and `os.makedirs` at module level are left out: the filter
  never reads them.
- The credential check in `__init__` is left out. It only runs when the default valves hold
  both credentials, and pydantic's defaults hold neither, so with those defaults it sends
  nothing.
- pydantic's validation of `Valves` is left out. `UserValves` and the `__user__` argument are
  also left out: `inlet` reads `__user__`'s valves at line 135 and never uses them.
- `_generate_image` is modelled with every argument explicit. Its default arguments
  (`size="1024x1024"`, `content_class="photo"`) are left out because `inlet` always passes
  both.
- `int()` is modelled for ASCII: surrounding whitespace, an optional sign and ASCII digits.
  Text holding U+001C..U+001F is rejected, as `int()` does. Underscores between digits and
  non-ASCII digits are left out.
- PyText.ParseInt: does not model CPython's limit on decimal conversions (`sys.int_max_str_digits`,
  4300 digits by default since Python 3.11 and in the 3.7-3.10 security releases). There `int()`
  of a longer numeral raises `ValueError`, so a `default_size` such as 5000 ones followed by `x1`
  raises "Invalid size format"; the model parses it and sends the request. `PyText.Str`,
  `PyText.ParseIntDecimal`, `PyText.ParseIntStr` and `FireflyApi.ParseSizeRoundTrip` are stated
  for numbers of any length for the same reason. The limit depends on the interpreter version
  and configuration.
- `str.lower()` is modelled for ASCII letters only. The check only asks whether a string starts
  with `/firefly`, and no other character lower-cases to one of its letters alone.
- JSON is modelled for the shapes the code reads: objects with the keys it reads and string
  values. The following are left out:
  - a non-string or `null` `access_token` or `url`;
  - a non-numeric `expires_in`;
  - an `error` value that is not an object. At line 387 that would fall into the bare `except`.
  - `outputs` or `image` values of another type.
- A request body without a `messages` key is left out. `inlet` treats it as an empty list;
  `outlet` would raise `KeyError` while the filter is on, and returns the body untouched otherwise.
- `str(e)` of a `RequestException` is an input text. How `requests` renders it is not modelled.
- Concurrency is left out. The cache's check-then-write is modelled as one uninterrupted call.
- Aliasing between the `Body`/`Event` objects and the filter is not modelled: they are
  separate objects.
