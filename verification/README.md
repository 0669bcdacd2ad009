# Retail semantic layer NLQ API — Dafny model

This project models the deterministic core of the retail semantic layer's
question-answering API:

- the `POST /ask` endpoint (`api/main.py`), a mock natural-language
  front end that lower-cases the question, looks for the keywords
  "revenue", then "orders"/"sales", then "users"/"customers", first match
  wins, and answers with a fixed intent, Cube query, SQL text and
  demonstration data, or with intent `unknown` and empty fields;
- the `GET /` status endpoint, which always answers `ok`;
- the Cube REST client (`api/cube_client.py`): JWT claims and request
  headers, the readiness probe and its URL, the metadata call, the
  construction of `/load` query payloads, the pre-built metric queries,
  and the intent table with its dispatcher, each as written and as
  intended (see Findings).

Modules: `Wrappers` (Option), `Json` (JSON values), `Text` (Python string
operations: `lower`, `in`, `replace`, integer formatting), `CubeClient` and
`NlqApi`.

The HTTP library, the JWT signer and the clock are not modelled; they are
parameters. A `Transport` maps one request (verb, URL, headers, JSON body,
timeout) to a `Reply`: either the library raised, or a response arrived
with a status and a body that decodes as JSON or does not. A `Signer` is
`jwt.encode(claims, secret, "HS256")`. The clock is one integer reading
`now`. The client's failure handling is then stated over every possible
transport.

Points where the code is followed closely:

- Error statuses are those for which `raise_for_status()` raises,
  400 to 599. A 1xx or 3xx reply with a JSON body is returned as a result.
  It is not collapsed to `None`, so "every non-2xx status gives None" is not
  what the code does.
- `str.replace` removes occurrences left to right, without rescanning, and
  `/readyz` is appended afterwards. The model proves that a URL ending in
  the API path `/cubejs-api/v1`, with no other occurrence of it, probes
  `<root>/readyz`. It also proves that the default URL probes
  `http://localhost:4000/readyz`.
- Optional `query_cube` arguments are kept only when Python treats them as
  true. An explicit `dimensions=[]`, as most pre-built queries pass, is
  therefore left out of the payload.

## Model

| member | source | states |
|---|---|---|
| NlqApi.HealthCheck | api/main.py:25-27 | the status endpoint always reports `status: ok` and `service: Retail Semantic NLQ API`, and nothing else |
| NlqApi.ValidateRequest | api/main.py:8-10 | an omitted `user_id` becomes `demo_user`; a given one, `null` included, is kept; the question is kept as sent |
| NlqApi.AskQuestion | api/main.py:29-80 | the question is echoed unchanged; no branch sets filters; a time dimension is present exactly when the lower-cased question contains "revenue", and it is then `Orders.orderDate` by `day` |
| NlqApi.AskRevenue | api/main.py:43-51 | any question containing "revenue" is `analyze_revenue` with `Orders.totalRevenue`, no dimensions, the daily time dimension, its SQL and data, whatever other keywords it contains |
| NlqApi.AskOrderCount | api/main.py:53-60 | a question without "revenue" that has "orders" or "sales" gives `analyze_order_count` with `Orders.count` by `Orders.status`, even if users or customers are mentioned |
| NlqApi.AskUsers | api/main.py:62-69 | with neither of the earlier keyword sets, "users" or "customers" gives `analyze_users` with `Users.count` by `Users.country` |
| NlqApi.AskUnknown | api/main.py:38-41 | a question with none of the five keywords is `unknown` with empty measures, dimensions, SQL and data |
| NlqApi.AskIntentExactly | api/main.py:35-69 | each of the four intents is reported if and only if its keyword condition holds under the first-match order |
| NlqApi.AskIgnoresCase | api/main.py:35 | questions with the same lower-case form get identical answers apart from the echoed question |
| NlqApi.AskLowerCased | api/main.py:35 | asking the lower-cased question gives the same answer as asking the original, apart from the echoed question |
| NlqApi.AskIgnoresUser | api/main.py:8-10 | the `user_id` of the request has no effect on the answer |
| NlqApi.RevenueKeywordAnywhere | api/main.py:43 | "revenue" in any letter case, anywhere in the question and even inside a longer word, selects the revenue answer |
| NlqApi.OrderKeywordAnywhere | api/main.py:53 | a question without "revenue" that has "orders" or "sales", in any case and at any position, selects the order-count answer |
| NlqApi.SalespersonIsAnOrderQuestion | api/main.py:53 | "Top SALESPERSON?" is an order-count question, because matching is by substring |
| NlqApi.FirstMatchEarliest | api/main.py:43-69 | in a first-match rule list the earliest rule that fires decides the outcome |
| NlqApi.ClassifyIsFirstMatch | api/main.py:43-69 | the if/elif chain equals first-match evaluation of the rule list revenue, then orders/sales, then users/customers |
| Text.Lower | api/main.py:35 | lower-casing keeps the length, turns each capital letter into its small letter, keeps every other character and leaves no capital letter |
| Text.Contains | api/main.py:43 | Python's `in` on strings holds exactly when the pattern occurs at some index |
| Text.ReplaceAll | api/cube_client.py:43 | `str.replace` with a replacement no longer than the pattern never lengthens the string |
| Text.ReplaceAllAbsent | api/cube_client.py:43 | `str.replace` leaves a string without the pattern unchanged |
| Text.ReplaceAllFirst | api/cube_client.py:43 | `str.replace` keeps the text before the first occurrence, replaces that occurrence, and carries on after it |
| Text.ReplaceAllMiddle | api/cube_client.py:43 | when the pattern first occurs right after `base` and never in `tail`, replacement turns `base + pat + tail` into `base + rep + tail` |
| Text.ReplaceAllTrailing | api/cube_client.py:43 | when a pattern occurs only as the suffix, `str.replace` turns exactly that suffix into the replacement |
| Text.IntToString | api/cube_client.py:128 | the f-string `{days}` is non-empty, starts with `-` exactly for a negative number, and is otherwise digits |
| Text.NatToStringRoundTrip | api/cube_client.py:128 | the decimal text of a day count reads back as the same number |
| Text.IntToStringInjective | api/cube_client.py:128 | distinct integers are formatted as distinct decimal texts |
| CubeClient.TokenClaims | api/cube_client.py:22-28 | token claims issued at `now` have `iat = now` and expire exactly `expirySeconds` later |
| CubeClient.GenerateToken | api/cube_client.py:22-28 | the token is the configured secret's signature over claims issued now and expiring `expirySeconds` later |
| CubeClient.HeaderTokenLifetime | api/cube_client.py:22-34 | the header token signs claims issued now that expire exactly the default 3600 seconds later |
| CubeClient.CubeHeaders | api/cube_client.py:31-36 | the headers are exactly `Authorization`, a token signed with the configured secret for `[now, now + 3600]`, and `Content-Type: application/json` |
| CubeClient.HealthUrl | api/cube_client.py:43 | the probe URL ends in `/readyz` and is at most the API URL plus those 7 characters long |
| CubeClient.HealthRequest | api/cube_client.py:42-45 | the probe is an unauthenticated GET of the probe URL, with no body and a 5 second timeout |
| CubeClient.CheckCubeHealth | api/cube_client.py:39-49 | the probe reports healthy if and only if the readiness request got status 200; a raised request means unhealthy |
| CubeClient.HealthUrlWithoutApiPath | api/cube_client.py:43 | a URL without the API path probes the URL itself followed by `/readyz` |
| CubeClient.HealthUrlOfApiRoot | api/cube_client.py:43 | a URL that is a root plus `/cubejs-api/v1`, with no other occurrence, probes `<root>/readyz` |
| CubeClient.HealthUrlOfApiPathInside | api/cube_client.py:43 | with the API path once in the middle of the URL, only that occurrence is removed, so `http://host/cubejs-api/v1/` probes `http://host//readyz` |
| CubeClient.HealthUrlOfDefault | api/cube_client.py:18-43 | with the default API URL the probe goes to `http://localhost:4000/readyz` |
| CubeClient.Collapse | api/cube_client.py:60-61 | `raise_for_status()` then `json()` yields a value exactly when a response arrived with a status outside 400-599 and a decodable body, and that value is the body |
| CubeClient.MetaRequest | api/cube_client.py:55-59 | the metadata call is a GET of `<api url>/meta` with the Cube headers, no body and a 10 second timeout |
| CubeClient.GetCubeMeta | api/cube_client.py:52-64 | the result is `Some(body)` exactly when the `/meta` call returned a non-error status with a decodable body (a JSON `null` body included); every failure gives `None` |
| CubeClient.BuildQuery | api/cube_client.py:89-101 | the query always holds `measures` as passed and `limit`; `dimensions`, `filters`, `timeDimensions` and `order` are present exactly when the argument is given and non-empty; no other key appears |
| CubeClient.LoadRequest | api/cube_client.py:105-110 | the query call is a POST of the wrapped query to `<api url>/load` with the Cube headers and a 30 second timeout |
| CubeClient.LoadBody | api/cube_client.py:105-110 | the request body has the single key `query`, holding the built query |
| CubeClient.BuildQueryRoundTrip | api/cube_client.py:89-101 | decoding a built query recovers the arguments, with empty optional arguments read as omitted |
| CubeClient.BuildQueryInjective | api/cube_client.py:89-101 | equal payloads come only from arguments that agree once empty ones are dropped |
| CubeClient.LogLineError | api/cube_client.py:113 | the log line raises `AttributeError` exactly for a body that is not a dict, `TypeError` exactly for a dict whose `data` is null, a boolean or a number, and nothing when `data` is missing, a string, a list or a dict |
| CubeClient.QueryCubeAsWritten | api/cube_client.py:103-117 | as written, a raised request, an error status or an undecodable body returns `None`, and any value returned is the reply body |
| CubeClient.QueryCubeAsWrittenRaises | api/cube_client.py:111-117 | a 200 reply whose body is `{"data": null}` makes `query_cube` raise `TypeError` |
| CubeClient.QueryCube | api/cube_client.py:103-117 | the intended `query_cube` returns `Some(body)` exactly when the `/load` call succeeded (a JSON `null` body included), and `None` on every failure, never raising |
| CubeClient.QueryCubeAsWrittenAgrees | api/cube_client.py:103-117 | the code as written returns what the intended version returns; it raises exactly on a successful reply whose body the log line cannot measure |
| CubeClient.RevenueByDatePayload | api/cube_client.py:121-132 | the revenue-by-date payload holds measures, the `revenue_daily.date` time dimension with window `last <days> days` by `day`, ascending date order and limit 100 |
| CubeClient.RevenueByDateDistinguishesDays | api/cube_client.py:128 | different day counts produce different payloads |
| CubeClient.RevenueByCountryPayload | api/cube_client.py:135-142 | the revenue-by-country payload has limit 20, dimension `orders.country` and descending `orders.total_revenue` order |
| CubeClient.OrdersByStatusPayload | api/cube_client.py:161-167 | the orders-by-status payload has dimension `orders.status`, descending `orders.count` order and limit 100 |
| CubeClient.MetricsOnlyPayloads | api/cube_client.py:145-179 | the four queries that pass only `measures` and `dimensions=[]` (`get_order_metrics`, `get_user_metrics` and the `total_revenue` and `total_orders` lambdas) send only `measures` and `limit` |
| CubeClient.IntentTableContents | api/cube_client.py:171-184 | the intent table has exactly six names, each mapped to its pre-built query, with `daily_revenue` covering 30 days |
| CubeClient.ExecuteCubeIntentAsWritten | api/cube_client.py:187-196 | as written, an intent outside the table returns `None` without a call; a listed intent does exactly what `query_cube` as written does with its mapped query, raising included |
| CubeClient.ExecuteCubeIntentAsWrittenRaises | api/cube_client.py:194-195 | `total_revenue` with a 200 reply whose body is `{"data": null}` raises `TypeError` |
| CubeClient.ExecuteKnownIntentAsWritten | api/cube_client.py:194-195 | as written, a listed intent returns a value exactly when its `/load` call succeeds with a body the log line can measure, and the value is that body |
| CubeClient.ExecuteCubeIntent | api/cube_client.py:187-196 | the corrected dispatcher: an intent outside the table gives `None`; a listed intent gives the result of the corrected `query_cube` on its mapped query |
| CubeClient.ExecuteCubeIntentAsWrittenAgrees | api/cube_client.py:187-196 | where the dispatcher as written returns, it returns what the corrected one returns; it raises exactly when a listed intent's call succeeds with a body the log line cannot measure |
| CubeClient.ExecuteKnownIntent | api/cube_client.py:194-195 | with the corrected `query_cube`, a listed intent yields `Some(body)` exactly when its `/load` call succeeds (a JSON `null` body included) |
| CubeClient.DailyRevenueIntentPayload | api/cube_client.py:182 | the `daily_revenue` intent asks for `last 30 days` at `day` granularity |

## Left out

- CubeClient.TokenClaims: `generate_cube_token` reads the clock twice, so a second boundary between the two readings makes the real `exp - iat` one more than the expiry. The model takes one reading.
- Text.Lower: only ASCII letters are lower-cased. The only other characters whose lower-case form contains an ASCII letter are the Kelvin sign (to `k`) and capital dotted I (to `i`). Neither letter occurs in a keyword, so the chosen branch is the same as in the program.
- `time.sleep(1)` in `ask_question` affects only latency.
- Logging is not modelled, apart from the effect of evaluating the `query_cube` log line.
- FastAPI routing and pydantic validation of the request and response are framework code. A request that fails validation never reaches `ask_question`.
- Real HTTP and JSON encoding and decoding are not modelled. They are the `Transport` parameter.
- Decoding a reply body is assumed to raise a `RequestException` subclass when the body is not JSON. The `requests` library has done this since version 2.27.
- JWT HS256 signing is not modelled. It is the `Signer` parameter, assumed not to raise.
- Environment variables are not read. They become `Config`, with the program's defaults in `DefaultConfig`.
- The `timeout` values (5, 10 and 30 seconds) are recorded in the requests. What a timeout does is part of the transport.
- CubeClient.GetCubeMeta: a successful reply whose body is JSON `null` gives `Some(Null)` here. The program returns Python `None` in that case, which its callers cannot tell apart from a failure.
- CubeClient.QueryCube: likewise, `Some(Null)` for a `null` body stands for a Python `None` return, the same value as a failed call.
- CubeClient.ExecuteKnownIntent: likewise, a listed intent whose call succeeds with a `null` body yields `Some(Null)` here and `None` in the program.
- JSON numbers are integers or floats, and a float is an exact real. Only the type of a reply value matters to the code: a float as `data` makes the log line raise `TypeError`, and a bare number as the body makes it raise `AttributeError`.
- CubeClient.BuildQuery: a Python dict keeps insertion order and `json=` sends keys in that order, so Cube reads a multi-key `order` object in key order. The model holds `order` and every JSON object as a map, so two `order` dicts with the same entries in a different order give equal payloads here. Every call in these files passes an `order` with at most one key, where no order is lost.
- `ui/app.py` is not part of this model. It holds dashboard rendering, charts, demo data and simulated latency.
- `api/prompts.py` is not part of this model. It holds a constant prompt text and a table-name map with no behaviour.
- The language-model query synthesis, routing between metrics and warehouse, retries with backoff, result caching, the row cap and column normalisation are not implemented in these files. They are not modelled.

## Findings

| source | as written | input that shows it | evidently intended | confidence | as-written member | corrected member |
|---|---|---|---|---|---|---|
| api/cube_client.py:111-117 | after a successful call the log line `len(result.get('data', []))` runs inside a `try` that catches only `RequestException` | a 200 reply with body `{"data": null}`, or any body that is not a JSON object, makes `query_cube` raise `TypeError` or `AttributeError` | return the decoded body, or `None` on error, without raising (the function's documentation) | medium; not executed | CubeClient.QueryCubeAsWritten | CubeClient.QueryCube |
| api/cube_client.py:187-196 | `execute_cube_intent` returns whatever the mapped query returns, so it inherits the uncaught log-line exception of `query_cube` | intent `total_revenue` with a 200 reply whose body is `{"data": null}` raises `TypeError` | `None` for an unknown intent or a failed call, otherwise the query result, without raising | medium; not executed | CubeClient.ExecuteCubeIntentAsWritten | CubeClient.ExecuteCubeIntent |
