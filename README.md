# Roblox game likes proxy: model of `get_game_likes`

This project models the one request handler of a small Flask proxy,
`get_game_likes` (`app.py`, the `/getGameLikes` route). The handler takes the
`universeId` query parameter and makes at most one GET to the Roblox games
endpoint (`https://games.roblox.com/v1/games?universeIds=<id>`). It answers
with the first game record's `favoritedCount` or with one of several error
responses.

The model is pure, like the source. The handler is the function
`LikesHandler.GetGameLikes(universeId, fetch)`:

- `universeId` is an `Option<string>`, the result of `request.args.get`.
- `fetch` maps the URL requested to an abstract `Upstream.Outcome`. The outcome is a
  network failure, an error status, an odd body shape, or a decoded payload. A payload
  is a falsy JSON value, or an object with an optional `data` list of records. Each
  record's `favoritedCount` is absent, null or a number.

The result is an `Exchange`: the single `Response(status, kind, likes)` and the
list of URLs the handler requested. That list is empty or has exactly one URL.
The list is what lets the contracts say which inputs reach the upstream.

Modules:

- `Decimal`: Python's `int(...)` on the parameter (`ParseInt`) and the decimal text of
  the parsed integer that goes into the URL (`IntToString`), with their round trip.
- `Responses`: the response kinds, with the status table they must agree with.
- `Upstream`: the outcomes of the GET and how the handler classifies them
  (`Classify`, `Extract`).
- `LikesHandler`: the URL and the handler itself.

Each request makes its own GET; nothing is cached between requests.

Two behaviours of the code are worth stating outright:

- The code accepts any integer that `int()` parses, negatives included; there is no
  positivity check (`LikesHandler.EveryIntegerRequested`).
- A body that is not JSON raises from `response.json()`. That exception is a
  `ValueError`, so the code answers it with 400 and the invalid-id message (see Left out).

## Model

| member | source | states |
|---|---|---|
| `LikesHandler.GetGameLikes` | app.py:17-53 | every request gets exactly one response with status 200, 400, 404 or 500, and the status agrees with the response kind; at most one GET is made; no GET is made if and only if the answer is 400; after a GET, the answer is the classification of what that URL returned |
| `LikesHandler.MissingParameterNoRequest` | app.py:18-21 | a missing or empty `universeId` (Python falsiness) gives 400 missing-parameter and no GET, whatever the upstream would say |
| `LikesHandler.InvalidIdNoRequest` | app.py:26-47 | a non-empty id that `int()` rejects gives 400 invalid-id and no GET, because `int()` runs before `requests.get` |
| `LikesHandler.NonNumericIdNoRequest` | app.py:46-47 | `universeId=abc` gives 400 invalid-id without contacting upstream |
| `LikesHandler.ParsedIdRequest` | app.py:26-28 | an id that parses to n makes exactly the GET for n, and the answer is the classification of that GET's outcome |
| `LikesHandler.EveryIntegerRequested` | app.py:26-28 | every integer, negative ones included, reaches the upstream with its own URL |
| `LikesHandler.SameIdSameExchange` | app.py:26 | two parameter strings that parse to the same integer make the same GET and get the same answer |
| `LikesHandler.LeadingZeroSameExchange` | app.py:26 | "0123" and "123" are the same request |
| `LikesHandler.QueryUrlInjective` | app.py:26 | distinct ids are requested with distinct URLs, so the URL identifies the integer |
| `LikesHandler.OnlyRequestedUrlsMatter` | app.py:26-31 | the answer depends on the upstream only at the URLs in the request list, so that list is the complete record of upstream contact |
| `LikesHandler.LikesExactly` | app.py:26-39 | the answer is 200 with n if and only if the id parses, and its GET returns an object whose non-empty `data` starts with a record whose count is n |
| `LikesHandler.Scenario1818` | app.py:26-39 | `universeId=1818` with upstream `{"data":[{"favoritedCount": 4200}]}` requests `...?universeIds=1818` and answers 200 with 4200 likes |
| `LikesHandler.ScenarioEmptyData` | app.py:43-44 | an upstream `{"data": []}` answers 404 game-not-found |
| `LikesHandler.UpstreamFailureAnswers500` | app.py:48-50 | a failed connection or an error status from upstream answers 500 failed-to-connect |
| `Upstream.Classify` | app.py:28-53 | classification after the GET is well formed and never 400; it is failed-to-connect exactly for network failures and error statuses; a decoded body is answered by extraction; an unexpected shape is answered 500 internal-server-error |
| `Upstream.ClassifyUpstreamFailure` | app.py:48-50 | network failures and error statuses both give 500 failed-to-connect |
| `Upstream.Extract` | app.py:33-44 | extraction is well formed with status 200, 404 or 500, and it is 404 exactly when the payload is falsy, has no `data`, or has an empty `data` |
| `Upstream.ExtractLikes` | app.py:33-39 | extraction gives 200 with n if and only if the payload's first `data` record has count n |
| `Upstream.ExtractFirstRecordOnly` | app.py:34-39 | records after the first have no effect on the answer |
| `Upstream.ExtractFieldMissing` | app.py:37-42 | a first record whose `favoritedCount` is absent or null gives 500 field-not-found |
| `Upstream.ExtractZeroIsFound` | app.py:37-39 | a count of 0 is a 200 success, because the test is `is not None`, not truthiness |
| `Responses.StatusOf` | app.py:20-53 | the status of each kind of answer is one of 200, 400, 404 and 500, and it is 200 exactly for the likes answer |
| `LikesHandler.QueryUrl` | app.py:9-26 | the upstream URL is the games endpoint followed by `?universeIds=` and then exactly the decimal text of the id, which parses back to the id |
| `Decimal.ParseInt` | app.py:26 | a successful parse needs non-empty text, and a negative result needs a leading '-' |
| `Decimal.ParseIntRejectsStray` | app.py:26 | a character that is not a digit, and is not a leading sign with digits after it, makes `int()` fail |
| `Decimal.NatToDigits` | app.py:26 | the decimal text of n is non-empty digits with no leading zero (0 is written "0"), and its value is n |
| `Decimal.IntToString` | app.py:26 | the text of an integer is `str(int)`'s canonical form: '-' exactly for negatives, then non-empty digits with no leading zero (0 is "0") whose value is the magnitude; parsing it gives that integer back |
| `Decimal.ParseIntAccepts` | app.py:26 | any non-empty digit string, leading zeros included, parses to its value, bare, after '+', and negated after '-' (so "-0" is 0) |
| `Decimal.IntToStringInjective` | app.py:26 | distinct integers have distinct decimal text |
| `Decimal.LeadingZeroParse` | app.py:26 | a leading '0' or '+' does not change the parsed integer |

## Left out

- Flask routing, the welcome route (`app.py:12-14`) and server start-up (`app.py:55-56`) are framework plumbing.
- The HTTP call, `raise_for_status` and `response.json()` are library code. They are
  represented only by the abstract `Upstream.Outcome` that `fetch` returns, so the model
  does not say which statuses `raise_for_status` treats as errors.
- A body that is not valid JSON is not modelled. Its status depends on which exception the
  `requests` library raises. That exception is a `ValueError`, so the source answers 400
  with the invalid-id message.
- Odd payload shapes that make `"data" in data`, `len(...)`, `data["data"][0]` or `.get` raise are collapsed
  into one outcome, `UnexpectedShape`, which gives 500. Examples: a `data` that is null or a
  number, a non-empty `data` that is an object or a string, a first record that is not an
  object, a truthy number at the top level. An empty `data` of another type (`""`, `{}`)
  is not such a shape: the length test fails and the source answers 404.
- A truthy top-level JSON array or string without a "data" element also gives 404 in the
  source. It is not a separate payload shape here.
- Decimal.ParseInt: a simplified `int()`: an optional sign and ASCII digits only. It does not
  model the surrounding whitespace, `_` digit separators or non-ASCII digits that Python's
  `int()` also accepts. For those strings the model answers 400 where the source makes a GET.
- Decimal.ParseInt: it has no length limit. CPython 3.11 and later (and the 3.10.7 and 3.9.14
  backports) raise ValueError for more than 4300 digits by default. For such an id the source
  answers 400 with no GET, while the model parses it and makes a GET.
- Some `requests` exceptions are also `ValueError`s (InvalidURL, InvalidSchema, MissingSchema,
  InvalidHeader, for example on a redirect to a non-http location). The source catches them
  first and answers 400. The model's `NetworkError` covers only connection-level failures,
  which answer 500.
- Upstream.Record: `favoritedCount` is modelled as an integer. The source returns any
  non-null JSON value found there as `likes`, unchecked.
- Error-message texts, the echoed `api_response` bodies and the `print` logging are left
  out. Each response carries only a kind tag for its body.
