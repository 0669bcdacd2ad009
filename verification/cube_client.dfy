/**
 The Cube REST API client of the retail semantic layer: token claims and
 request headers, the readiness probe, the metadata call, construction of
 `/load` query payloads, the pre-built metric queries and the table that maps
 intent names onto them.

 The HTTP library and the JWT signer are not modelled; they are parameters.
 A `Transport` is whatever the `requests` library does with one request, and
 a `Signer` is `jwt.encode(payload, secret, algorithm="HS256")`. The clock
 is a single reading `now`, in whole seconds.
 */
module CubeClient {
  import opened Wrappers
  import opened Json
  import Text

  /* ---------------------------------------------------------------------
     Configuration (read from the environment at start-up, else these defaults)
     --------------------------------------------------------------------- */

  /** The default API URL, `http://localhost:4000/cubejs-api/v1`, is a server
      root followed by the API path. */
  const DefaultApiRoot: string := "http://localhost:4000"
  const DefaultApiUrl: string := DefaultApiRoot + ApiPath
  const DefaultApiSecret: string := "retail-semantic-layer-secret-key-change-me"

  datatype Config = Config(apiUrl: string, apiSecret: string)

  const DefaultConfig: Config := Config(DefaultApiUrl, DefaultApiSecret)

  /* ---------------------------------------------------------------------
     Authentication
     --------------------------------------------------------------------- */

  const DefaultTokenExpiry: int := 3600

  /** The JWT payload: issued-at and expiry, in seconds since the epoch. */
  datatype Claims = Claims(iat: int, exp: int)

  /** `jwt.encode(claims, secret, algorithm="HS256")`. */
  type Signer = (Claims, string) -> string

  /** The claims of a token minted at time `now`. */
  function TokenClaims(now: int, expirySeconds: int): (c: Claims)
    ensures c.iat == now
    ensures c.exp - c.iat == expirySeconds
  {
    Claims(now, now + expirySeconds)
  }

  /** `generate_cube_token(expirySeconds)`: the configured secret signs claims
      issued now and expiring `expirySeconds` later. */
  function GenerateToken(cfg: Config, sign: Signer, now: int, expirySeconds: int): (token: string)
    ensures token == sign(Claims(now, now + expirySeconds), cfg.apiSecret)
  {
    sign(TokenClaims(now, expirySeconds), cfg.apiSecret)
  }

  /** The token in the headers carries claims issued now that expire after
      the default lifetime. */
  lemma HeaderTokenLifetime(cfg: Config, sign: Signer, now: int)
    ensures var c := TokenClaims(now, DefaultTokenExpiry);
      CubeHeaders(cfg, sign, now)["Authorization"] == sign(c, cfg.apiSecret)
      && c.iat == now && c.exp - c.iat == DefaultTokenExpiry
  {
  }

  /** `get_cube_headers()`: a token with the default lifetime, and a JSON content type. */
  function CubeHeaders(cfg: Config, sign: Signer, now: int): (h: map<string, string>)
    ensures h.Keys == {"Authorization", "Content-Type"}
    ensures h["Authorization"] == sign(Claims(now, now + 3600), cfg.apiSecret)
    ensures h["Content-Type"] == "application/json"
  {
    map["Authorization" := GenerateToken(cfg, sign, now, DefaultTokenExpiry),
        "Content-Type" := "application/json"]
  }

  /* ---------------------------------------------------------------------
     Transport
     --------------------------------------------------------------------- */

  datatype Method = Get | Post

  /** One call of `requests.get` / `requests.post`; `json` is the body to encode. */
  datatype HttpRequest = HttpRequest(
    verb: Method,
    url: string,
    headers: map<string, string>,
    json: Option<Json>,
    timeout: nat)

  /** What one call yields: either the library raised a `RequestException`
      (connection failure, timeout, invalid URL, ...), or a response arrived
      with a status code and a body that `response.json()` either decodes
      (`Some`) or fails to decode (`None`). */
  datatype Reply =
    | Raised
    | Received(status: int, body: Option<Json>)

  type Transport = HttpRequest -> Reply

  /** The statuses for which `response.raise_for_status()` raises. */
  predicate IsHttpError(status: int) {
    400 <= status < 600
  }

  /** The reply was a response that passed `raise_for_status()` and whose body decoded. */
  predicate Succeeded(reply: Reply) {
    reply.Received? && !IsHttpError(reply.status) && reply.body.Some?
  }

  /** `raise_for_status()` then `json()`, with every exception becoming `None`. */
  function Collapse(reply: Reply): (r: Option<Json>)
    ensures r.Some? <==> Succeeded(reply)
    ensures r.Some? ==> r == reply.body
  {
    match reply
    case Raised => None
    case Received(status, body) => if IsHttpError(status) then None else body
  }

  /* ---------------------------------------------------------------------
     Readiness probe: check_cube_health
     --------------------------------------------------------------------- */

  const ApiPath: string := "/cubejs-api/v1"

  /** The readiness URL: the API URL with every occurrence of the API path
      removed (Python's `str.replace`), followed by `/readyz`. */
  function HealthUrl(apiUrl: string): (url: string)
    ensures |url| >= 7 && url[|url| - 7..] == "/readyz"
    ensures |url| <= |apiUrl| + 7
  {
    Text.ReplaceAll(apiUrl, ApiPath, "") + "/readyz"
  }

  /** The probe is a bare GET, without authentication, given 5 seconds. */
  function HealthRequest(cfg: Config): (req: HttpRequest)
    ensures req.verb == Get && req.url == HealthUrl(cfg.apiUrl)
    ensures req.headers == map[] && req.json == None && req.timeout == 5
  {
    HttpRequest(Get, HealthUrl(cfg.apiUrl), map[], None, 5)
  }

  /** `check_cube_health()`: healthy exactly when the readiness probe answers
      200; any other status and any exception mean unhealthy. */
  function CheckCubeHealth(cfg: Config, send: Transport): (healthy: bool)
    ensures healthy <==> send(HealthRequest(cfg)).Received? && send(HealthRequest(cfg)).status == 200
    ensures send(HealthRequest(cfg)).Raised? ==> !healthy
  {
    match send(HealthRequest(cfg))
    case Raised => false
    case Received(status, _) => status == 200
  }

  /** A URL without the API path gets `/readyz` appended unchanged. */
  lemma HealthUrlWithoutApiPath(apiUrl: string)
    requires !Text.Contains(apiUrl, ApiPath)
    ensures HealthUrl(apiUrl) == apiUrl + "/readyz"
  {
    Text.ReplaceAllAbsent(apiUrl, ApiPath, "");
  }

  /** No proper suffix of the API path is also a prefix of it. */
  lemma ApiPathHasNoBorder(d: int)
    requires 0 < d < |ApiPath|
    ensures ApiPath[d..] != ApiPath[..|ApiPath| - d]
  {
    if d == 11 {
      assert ApiPath[d..][1] != ApiPath[..|ApiPath| - d][1];
    } else {
      assert ApiPath[d] != '/';
      assert ApiPath[d..][0] != ApiPath[..|ApiPath| - d][0];
    }
  }

  /** The API path cannot start inside `base` and end inside an appended copy of itself. */
  lemma NoApiPathAcrossJoin(base: string, i: int)
    requires 0 <= i < |base| < i + |ApiPath|
    ensures !Text.OccursAt(base + ApiPath, ApiPath, i)
  {
    var s := base + ApiPath;
    var n := |ApiPath|;
    var d := |base| - i;
    assert s[i..i + n][d..] == ApiPath[..n - d] by {
      assert forall k | 0 <= k < n - d :: s[i..i + n][d..][k] == s[|base| + k] == ApiPath[k];
    }
    ApiPathHasNoBorder(d);
  }

  /** A URL that ends in the API path, and has it nowhere else, probes
      `/readyz` at the server root: the API path has no proper suffix that
      is also its prefix, so it cannot occur across the join. */
  lemma HealthUrlOfApiRoot(base: string)
    requires !Text.Contains(base, ApiPath)
    ensures HealthUrl(base + ApiPath) == base + "/readyz"
  {
    ApiPathOnlyTrailing(base);
    Text.ReplaceAllTrailing(base, ApiPath, "");
    assert base + "" == base;
  }

  /** A URL with the API path in the middle, and nowhere else, loses just
      that occurrence: `http://host/cubejs-api/v1/` probes `http://host//readyz`. */
  lemma HealthUrlOfApiPathInside(base: string, tail: string)
    requires !Text.Contains(base, ApiPath) && !Text.Contains(tail, ApiPath)
    ensures HealthUrl(base + ApiPath + tail) == base + tail + "/readyz"
  {
    ApiPathOnlyTrailing(base);
    Text.ReplaceAllMiddle(base, ApiPath, tail, "");
    assert base + "" + tail == base + tail;
  }

  lemma ApiPathOnlyTrailing(base: string)
    requires !Text.Contains(base, ApiPath)
    ensures Text.OnlyTrailing(base, ApiPath)
  {
    var s := base + ApiPath;
    var n := |ApiPath|;
    forall i | 0 <= i < |base|
      ensures !Text.OccursAt(s, ApiPath, i)
    {
      if i + n <= |base| {
        assert s[i..i + n] == base[i..i + n];
        assert !Text.OccursAt(base, ApiPath, i);
      } else {
        NoApiPathAcrossJoin(base, i);
      }
    }
  }

  /** The default server root does not itself contain the API path: its only
      slashes are followed by `/` and `l`, never by `c`. */
  lemma DefaultRootLacksApiPath()
    ensures !Text.Contains(DefaultApiRoot, ApiPath)
  {
    var base := DefaultApiRoot;
    forall i | 0 <= i && i + |ApiPath| <= |base|
      ensures !Text.OccursAt(base, ApiPath, i)
    {
      RootWindowMismatch(i);
    }
  }

  lemma RootWindowMismatch(i: int)
    requires 0 <= i && i + |ApiPath| <= |DefaultApiRoot|
    ensures DefaultApiRoot[i..i + |ApiPath|] != ApiPath
  {
    var w := DefaultApiRoot[i..i + |ApiPath|];
    if i == 5 || i == 6 {
      assert w[1] == DefaultApiRoot[i + 1];
      assert w[1] != ApiPath[1];
    } else {
      assert w[0] == DefaultApiRoot[i];
      if i == 0 { assert DefaultApiRoot[0] == 'h'; }
      else if i == 1 { assert DefaultApiRoot[1] == 't'; }
      else if i == 2 { assert DefaultApiRoot[2] == 't'; }
      else if i == 3 { assert DefaultApiRoot[3] == 'p'; }
      else if i == 4 { assert DefaultApiRoot[4] == ':'; }
      else { assert DefaultApiRoot[7] == 'l'; }
      assert w[0] != ApiPath[0];
    }
  }

  /** With the default configuration the probe goes to the server root. */
  lemma HealthUrlOfDefault()
    ensures HealthUrl(DefaultConfig.apiUrl) == DefaultApiRoot + "/readyz"
  {
    DefaultRootLacksApiPath();
    HealthUrlOfApiRoot(DefaultApiRoot);
  }

  /* ---------------------------------------------------------------------
     Metadata: get_cube_meta
     --------------------------------------------------------------------- */

  /** The metadata call: an authenticated GET of `<api url>/meta`, given 10 seconds. */
  function MetaRequest(cfg: Config, sign: Signer, now: int): (req: HttpRequest)
    ensures req.verb == Get && req.url == cfg.apiUrl + "/meta"
    ensures req.headers == CubeHeaders(cfg, sign, now) && req.json == None && req.timeout == 10
  {
    HttpRequest(Get, cfg.apiUrl + "/meta", CubeHeaders(cfg, sign, now), None, 10)
  }

  /** `get_cube_meta()`: the decoded body of a successful `/meta` call, and
      `None` on any exception, error status or undecodable body. */
  function GetCubeMeta(cfg: Config, sign: Signer, now: int, send: Transport): (meta: Option<Json>)
    ensures meta.Some? <==> Succeeded(send(MetaRequest(cfg, sign, now)))
    ensures meta.Some? ==> meta == send(MetaRequest(cfg, sign, now)).body
  {
    Collapse(send(MetaRequest(cfg, sign, now)))
  }

  /* ---------------------------------------------------------------------
     Query construction: query_cube
     --------------------------------------------------------------------- */

  const DefaultLimit: int := 100

  /** The arguments of `query_cube`. `None` is an omitted argument. */
  datatype QueryArgs = QueryArgs(
    measures: seq<string>,
    dimensions: Option<seq<string>>,
    filters: Option<seq<Json>>,
    timeDimensions: Option<seq<Json>>,
    order: Option<map<string, string>>,
    limit: int)

  /** `query_cube(measures)` with every other argument left at its default. */
  function Measures(measures: seq<string>): QueryArgs {
    QueryArgs(measures, None, None, None, None, DefaultLimit)
  }

  /** Python truthiness of an optional list: given and non-empty. */
  predicate Given<T>(o: Option<seq<T>>) {
    o.Some? && |o.value| > 0
  }

  /** Python truthiness of an optional dict: given and non-empty. */
  predicate GivenMap(o: Option<map<string, string>>) {
    o.Some? && |o.value| > 0
  }

  const QueryKeys: set<string> := {"measures", "limit", "dimensions", "filters", "timeDimensions", "order"}

  /** The query object `query_cube` builds: `measures` and `limit` always,
      each optional part only when its argument is truthy, under Cube's
      camel-case key names, and nothing else. */
  function BuildQuery(a: QueryArgs): (q: map<string, Json>)
    ensures q.Keys <= QueryKeys
    ensures "measures" in q && q["measures"] == StrArray(a.measures)
    ensures "limit" in q && q["limit"] == Int(a.limit)
    ensures "dimensions" in q <==> Given(a.dimensions)
    ensures "dimensions" in q ==> q["dimensions"] == StrArray(a.dimensions.value)
    ensures "filters" in q <==> Given(a.filters)
    ensures "filters" in q ==> q["filters"] == Array(a.filters.value)
    ensures "timeDimensions" in q <==> Given(a.timeDimensions)
    ensures "timeDimensions" in q ==> q["timeDimensions"] == Array(a.timeDimensions.value)
    ensures "order" in q <==> GivenMap(a.order)
    ensures "order" in q ==> q["order"] == StrObject(a.order.value)
  {
    var q0 := map["measures" := StrArray(a.measures), "limit" := Int(a.limit)];
    var q1 := if Given(a.dimensions) then q0["dimensions" := StrArray(a.dimensions.value)] else q0;
    var q2 := if Given(a.filters) then q1["filters" := Array(a.filters.value)] else q1;
    var q3 := if Given(a.timeDimensions) then q2["timeDimensions" := Array(a.timeDimensions.value)] else q2;
    if GivenMap(a.order) then q3["order" := StrObject(a.order.value)] else q3
  }

  /** The request body: the query wrapped as `{"query": ...}`. */
  function LoadBody(a: QueryArgs): (body: Json)
    ensures body.Object? && body.fields.Keys == {"query"}
    ensures body.fields["query"] == Object(BuildQuery(a))
  {
    Object(map["query" := Object(BuildQuery(a))])
  }

  /** The query call: an authenticated POST of the wrapped query to
      `<api url>/load`, given 30 seconds. */
  function LoadRequest(cfg: Config, sign: Signer, now: int, a: QueryArgs): (req: HttpRequest)
    ensures req.verb == Post && req.url == cfg.apiUrl + "/load"
    ensures req.headers == CubeHeaders(cfg, sign, now) && req.json == Some(LoadBody(a)) && req.timeout == 30
  {
    HttpRequest(Post, cfg.apiUrl + "/load", CubeHeaders(cfg, sign, now), Some(LoadBody(a)), 30)
  }

  /* Reading a query object back, to show the payload loses nothing but the
     difference between an omitted and an empty argument. */

  function ParseStrings(items: seq<Json>): Option<seq<string>> {
    if |items| == 0 then Some([])
    else if !items[0].Str? then None
    else match ParseStrings(items[1..])
      case None => None
      case Some(rest) => Some([items[0].s] + rest)
  }

  function ParseStrArray(j: Json): Option<seq<string>> {
    if j.Array? then ParseStrings(j.items) else None
  }

  function ParseStrObject(j: Json): Option<map<string, string>> {
    if j.Object? && forall k | k in j.fields :: j.fields[k].Str? then
      Some(map k | k in j.fields :: j.fields[k].s)
    else None
  }

  function ParseArray(j: Json): Option<seq<Json>> {
    if j.Array? then Some(j.items) else None
  }

  /** Decodes an optional key: absent is an omitted argument. */
  function ParseOptional<T>(q: map<string, Json>, key: string, parse: Json -> Option<T>): Option<Option<T>> {
    if key !in q then Some(None)
    else match parse(q[key])
      case None => None
      case Some(v) => Some(Some(v))
  }

  /** The arguments a query object was built from, as far as they can be told apart. */
  function ParseQuery(q: map<string, Json>): Option<QueryArgs> {
    if "measures" !in q || "limit" !in q || !q["limit"].Int? then None
    else
      match (ParseStrArray(q["measures"]), ParseOptional(q, "dimensions", ParseStrArray),
             ParseOptional(q, "filters", ParseArray), ParseOptional(q, "timeDimensions", ParseArray),
             ParseOptional(q, "order", ParseStrObject))
      case (Some(m), Some(d), Some(f), Some(t), Some(o)) => Some(QueryArgs(m, d, f, t, o, q["limit"].i))
      case _ => None
  }

  /** Arguments with every falsy optional argument replaced by an omitted one. */
  function Normalize(a: QueryArgs): QueryArgs {
    a.(dimensions := if Given(a.dimensions) then a.dimensions else None,
       filters := if Given(a.filters) then a.filters else None,
       timeDimensions := if Given(a.timeDimensions) then a.timeDimensions else None,
       order := if GivenMap(a.order) then a.order else None)
  }

  lemma {:induction false} ParseStringsOfStrArray(xs: seq<string>)
    ensures ParseStrings(StrArray(xs).items) == Some(xs)
    decreases |xs|
  {
    if |xs| > 0 {
      assert StrArray(xs).items[1..] == StrArray(xs[1..]).items;
      ParseStringsOfStrArray(xs[1..]);
      assert xs == [xs[0]] + xs[1..];
    }
  }

  lemma ParseStrObjectOfStrObject(m: map<string, string>)
    ensures ParseStrObject(StrObject(m)) == Some(m)
  {
    var f := StrObject(m).fields;
    assert forall k | k in f :: f[k].Str?;
    var back := map k | k in f :: f[k].s;
    assert back.Keys == m.Keys;
    assert forall k | k in m :: back[k] == m[k];
    assert back == m;
  }

  /** The payload determines its arguments up to the dropping of falsy ones:
      decoding a built query gives back the normalised arguments. */
  lemma BuildQueryRoundTrip(a: QueryArgs)
    ensures ParseQuery(BuildQuery(a)) == Some(Normalize(a))
  {
    ParseStringsOfStrArray(a.measures);
    if Given(a.dimensions) {
      ParseStringsOfStrArray(a.dimensions.value);
    }
    if GivenMap(a.order) {
      ParseStrObjectOfStrObject(a.order.value);
    }
  }

  /** Two calls with the same non-empty arguments send the same payload, and
      different ones send different payloads. */
  lemma BuildQueryInjective(a: QueryArgs, b: QueryArgs)
    requires BuildQuery(a) == BuildQuery(b)
    ensures Normalize(a) == Normalize(b)
  {
    BuildQueryRoundTrip(a);
    BuildQueryRoundTrip(b);
  }

  /* ---------------------------------------------------------------------
     Executing a query
     --------------------------------------------------------------------- */

  /** A Python exception escaping `query_cube`. */
  datatype PyError = AttributeError | TypeError

  /** The result of a Python call: a return value or an escaping exception. */
  datatype Outcome<T> = Returned(value: T) | Threw(error: PyError)

  /** Python values that `len()` accepts: strings, lists and dicts. */
  predicate HasLen(j: Json) {
    j.Str? || j.Array? || j.Object?
  }

  /** The exception raised by the log line `len(result.get('data', []))`
      evaluated on a decoded body. A body that is not a dict has no `.get`;
      a `"data"` entry that is null, a boolean or a number has no length;
      a missing entry falls back to the empty list. */
  function LogLineError(result: Json): (e: Option<PyError>)
    ensures e == Some(AttributeError) <==> !result.Object?
    ensures e == Some(TypeError) <==>
      result.Object? && "data" in result.fields && !HasLen(result.fields["data"])
    ensures e == None <==>
      result.Object? && ("data" in result.fields ==> HasLen(result.fields["data"]))
  {
    if !result.Object? then Some(AttributeError)
    else if "data" !in result.fields then None
    else match result.fields["data"]
      case Str(_) => None
      case Array(_) => None
      case Object(_) => None
      case _ => Some(TypeError)
  }

  /** `query_cube` as written: only `RequestException` is caught, so an
      exception from the log line after a successful call escapes. */
  function QueryCubeAsWritten(cfg: Config, sign: Signer, now: int, send: Transport, a: QueryArgs)
    : (r: Outcome<Option<Json>>)
    ensures !Succeeded(send(LoadRequest(cfg, sign, now, a))) ==> r == Returned(None)
    ensures r.Returned? && r.value.Some? ==> r.value == send(LoadRequest(cfg, sign, now, a)).body
  {
    match Collapse(send(LoadRequest(cfg, sign, now, a)))
    case None => Returned(None)
    case Some(result) =>
      match LogLineError(result)
      case Some(e) => Threw(e)
      case None => Returned(Some(result))
  }

  /** A successful reply whose body has `"data": null` makes `query_cube`
      raise instead of returning. */
  lemma QueryCubeAsWrittenRaises(sign: Signer)
    ensures QueryCubeAsWritten(DefaultConfig, sign, 0,
      (req: HttpRequest) => Received(200, Some(Object(map["data" := Null]))),
      Measures(["orders.count"])) == Threw(TypeError)
  {
  }

  /** `query_cube` as its documentation describes it: the decoded result of
      a successful `/load` call, and `None` on every failure, never raising. */
  function QueryCube(cfg: Config, sign: Signer, now: int, send: Transport, a: QueryArgs): (r: Option<Json>)
    ensures r.Some? <==> Succeeded(send(LoadRequest(cfg, sign, now, a)))
    ensures r.Some? ==> r == send(LoadRequest(cfg, sign, now, a)).body
  {
    Collapse(send(LoadRequest(cfg, sign, now, a)))
  }

  /** Wherever the code as written returns, it returns what the intended
      definition returns; it differs only by raising, and only on a
      successful reply whose body the log line cannot measure. */
  lemma QueryCubeAsWrittenAgrees(cfg: Config, sign: Signer, now: int, send: Transport, a: QueryArgs)
    ensures QueryCubeAsWritten(cfg, sign, now, send, a).Returned? ==>
      QueryCubeAsWritten(cfg, sign, now, send, a).value == QueryCube(cfg, sign, now, send, a)
    ensures QueryCubeAsWritten(cfg, sign, now, send, a).Threw? <==>
      (Succeeded(send(LoadRequest(cfg, sign, now, a)))
       && LogLineError(send(LoadRequest(cfg, sign, now, a)).body.value).Some?)
  {
  }

  /* ---------------------------------------------------------------------
     Pre-built metric queries
     --------------------------------------------------------------------- */

  /** `get_total_revenue_by_date(days)`: daily revenue over the last `days` days, oldest first. */
  function RevenueByDateQuery(days: int): QueryArgs {
    QueryArgs(
      ["revenue_daily.total_revenue", "revenue_daily.total_orders"],
      Some([]),
      None,
      Some([Object(map[
        "dimension" := Str("revenue_daily.date"),
        "dateRange" := Str("last " + Text.IntToString(days) + " days"),
        "granularity" := Str("day")])]),
      Some(map["revenue_daily.date" := "asc"]),
      DefaultLimit)
  }

  /** `get_revenue_by_country()`: the 20 countries with the highest revenue. */
  const RevenueByCountryQuery: QueryArgs := QueryArgs(
    ["orders.total_revenue", "orders.count"],
    Some(["orders.country"]),
    None,
    None,
    Some(map["orders.total_revenue" := "desc"]),
    20)

  /** `get_order_metrics()`. */
  const OrderMetricsQuery: QueryArgs :=
    QueryArgs(["orders.count", "orders.total_revenue", "orders.avg_order_value"], Some([]), None, None, None, DefaultLimit)

  /** `get_user_metrics()`. */
  const UserMetricsQuery: QueryArgs :=
    QueryArgs(["users.count", "users.total_orders_placed"], Some([]), None, None, None, DefaultLimit)

  /** The inline query of the `total_revenue` intent. */
  const TotalRevenueQuery: QueryArgs :=
    QueryArgs(["orders.total_revenue"], Some([]), None, None, None, DefaultLimit)

  /** The inline query of the `total_orders` intent. */
  const TotalOrdersQuery: QueryArgs :=
    QueryArgs(["orders.count"], Some([]), None, None, None, DefaultLimit)

  /** `get_orders_by_status()`. */
  const OrdersByStatusQuery: QueryArgs := QueryArgs(
    ["orders.count", "orders.total_revenue"],
    Some(["orders.status"]),
    None,
    None,
    Some(map["orders.count" := "desc"]),
    DefaultLimit)

  /** The wire payload of the revenue-by-date query: the time window names
      the day count in decimal, at day granularity, ordered by date. */
  lemma RevenueByDatePayload(days: int)
    ensures BuildQuery(RevenueByDateQuery(days)).Keys == {"measures", "timeDimensions", "order", "limit"}
    ensures BuildQuery(RevenueByDateQuery(days))["limit"] == Int(100)
    ensures BuildQuery(RevenueByDateQuery(days))["timeDimensions"] == Array([Object(map[
        "dimension" := Str("revenue_daily.date"),
        "dateRange" := Str("last " + Text.IntToString(days) + " days"),
        "granularity" := Str("day")])])
    ensures BuildQuery(RevenueByDateQuery(days))["order"] == Object(map["revenue_daily.date" := Str("asc")])
  {
  }

  /** Distinct day counts give distinct time windows. */
  lemma RevenueByDateDistinguishesDays(d1: int, d2: int)
    requires d1 != d2
    ensures BuildQuery(RevenueByDateQuery(d1)) != BuildQuery(RevenueByDateQuery(d2))
  {
    var w1 := "last " + Text.IntToString(d1) + " days";
    var w2 := "last " + Text.IntToString(d2) + " days";
    if w1 == w2 {
      assert w1[5..|w1| - 5] == Text.IntToString(d1);
      assert w2[5..|w2| - 5] == Text.IntToString(d2);
      Text.IntToStringInjective(d1, d2);
    }
    RevenueByDatePayload(d1);
    RevenueByDatePayload(d2);
    var t1 := BuildQuery(RevenueByDateQuery(d1))["timeDimensions"];
    var t2 := BuildQuery(RevenueByDateQuery(d2))["timeDimensions"];
    assert t1.items[0].fields["dateRange"] == Str(w1);
    assert t2.items[0].fields["dateRange"] == Str(w2);
  }

  /** The wire payload of the revenue-by-country query. */
  lemma RevenueByCountryPayload()
    ensures BuildQuery(RevenueByCountryQuery).Keys == {"measures", "dimensions", "order", "limit"}
    ensures BuildQuery(RevenueByCountryQuery)["limit"] == Int(20)
    ensures BuildQuery(RevenueByCountryQuery)["dimensions"] == Array([Str("orders.country")])
    ensures BuildQuery(RevenueByCountryQuery)["order"] == Object(map["orders.total_revenue" := Str("desc")])
  {
  }

  /** The wire payload of the orders-by-status query: default limit, busiest status first. */
  lemma OrdersByStatusPayload()
    ensures BuildQuery(OrdersByStatusQuery).Keys == {"measures", "dimensions", "order", "limit"}
    ensures BuildQuery(OrdersByStatusQuery)["limit"] == Int(100)
    ensures BuildQuery(OrdersByStatusQuery)["dimensions"] == Array([Str("orders.status")])
    ensures BuildQuery(OrdersByStatusQuery)["order"] == Object(map["orders.count" := Str("desc")])
  {
  }

  /** An explicitly empty dimension list is dropped: these payloads carry
      only measures and the default limit. */
  lemma MetricsOnlyPayloads()
    ensures BuildQuery(OrderMetricsQuery).Keys == {"measures", "limit"}
    ensures BuildQuery(UserMetricsQuery).Keys == {"measures", "limit"}
    ensures BuildQuery(TotalRevenueQuery).Keys == {"measures", "limit"}
    ensures BuildQuery(TotalOrdersQuery).Keys == {"measures", "limit"}
    ensures BuildQuery(OrderMetricsQuery)["limit"] == BuildQuery(UserMetricsQuery)["limit"] == Int(100)
    ensures BuildQuery(TotalRevenueQuery)["measures"] == Array([Str("orders.total_revenue")])
    ensures BuildQuery(TotalOrdersQuery)["measures"] == Array([Str("orders.count")])
  {
  }

  /* ---------------------------------------------------------------------
     Intent dispatch: INTENT_TO_CUBE_QUERY and execute_cube_intent
     --------------------------------------------------------------------- */

  const IntentTable: map<string, QueryArgs> := map[
    "total_revenue" := TotalRevenueQuery,
    "total_orders" := TotalOrdersQuery,
    "revenue_by_country" := RevenueByCountryQuery,
    "orders_by_status" := OrdersByStatusQuery,
    "daily_revenue" := RevenueByDateQuery(30),
    "user_count" := UserMetricsQuery]

  /** `execute_cube_intent(intent)` as written: `None` for a name outside
      the table, without any call; otherwise whatever `query_cube` as written
      does with the mapped query, including raising from its log line. */
  function ExecuteCubeIntentAsWritten(intent: string, cfg: Config, sign: Signer, now: int, send: Transport)
    : (r: Outcome<Option<Json>>)
    ensures intent !in IntentTable ==> r == Returned(None)
    ensures intent in IntentTable ==> r == QueryCubeAsWritten(cfg, sign, now, send, IntentTable[intent])
  {
    if intent in IntentTable then QueryCubeAsWritten(cfg, sign, now, send, IntentTable[intent])
    else Returned(None)
  }

  /** A listed intent whose `/load` call succeeds with `{"data": null}` makes
      `execute_cube_intent` raise instead of returning. */
  lemma ExecuteCubeIntentAsWrittenRaises(sign: Signer)
    ensures ExecuteCubeIntentAsWritten("total_revenue", DefaultConfig, sign, 0,
      (req: HttpRequest) => Received(200, Some(Object(map["data" := Null])))) == Threw(TypeError)
  {
  }

  /** `execute_cube_intent(intent)` over the corrected `query_cube`: `None`
      for a name outside the table, without any call; otherwise the result
      of the mapped query, never raising. */
  function ExecuteCubeIntent(intent: string, cfg: Config, sign: Signer, now: int, send: Transport)
    : (r: Option<Json>)
    ensures intent !in IntentTable ==> r == None
    ensures intent in IntentTable ==> r == QueryCube(cfg, sign, now, send, IntentTable[intent])
  {
    if intent in IntentTable then QueryCube(cfg, sign, now, send, IntentTable[intent]) else None
  }

  /** Wherever the dispatcher as written returns, it returns what the
      corrected one returns; it raises exactly when a listed intent's `/load`
      call succeeds with a body the log line cannot measure. */
  lemma ExecuteCubeIntentAsWrittenAgrees(intent: string, cfg: Config, sign: Signer, now: int, send: Transport)
    ensures ExecuteCubeIntentAsWritten(intent, cfg, sign, now, send).Returned? ==>
      ExecuteCubeIntentAsWritten(intent, cfg, sign, now, send).value == ExecuteCubeIntent(intent, cfg, sign, now, send)
    ensures ExecuteCubeIntentAsWritten(intent, cfg, sign, now, send).Threw? <==>
      (intent in IntentTable
       && Succeeded(send(LoadRequest(cfg, sign, now, IntentTable[intent])))
       && LogLineError(send(LoadRequest(cfg, sign, now, IntentTable[intent])).body.value).Some?)
  {
  }

  /** Exactly six intent names are recognised, each mapped to its pre-built query. */
  lemma IntentTableContents()
    ensures IntentTable.Keys ==
      {"total_revenue", "total_orders", "revenue_by_country", "orders_by_status", "daily_revenue", "user_count"}
    ensures IntentTable["total_revenue"] == TotalRevenueQuery
    ensures IntentTable["total_orders"] == TotalOrdersQuery
    ensures IntentTable["revenue_by_country"] == RevenueByCountryQuery
    ensures IntentTable["orders_by_status"] == OrdersByStatusQuery
    ensures IntentTable["daily_revenue"] == RevenueByDateQuery(30)
    ensures IntentTable["user_count"] == UserMetricsQuery
  {
  }

  /** With the corrected `query_cube`, a recognised intent yields a result
      exactly when its `/load` call succeeds. */
  lemma ExecuteKnownIntent(intent: string, cfg: Config, sign: Signer, now: int, send: Transport)
    requires intent in IntentTable
    ensures ExecuteCubeIntent(intent, cfg, sign, now, send).Some?
        <==> Succeeded(send(LoadRequest(cfg, sign, now, IntentTable[intent])))
  {
  }

  /** As written, a recognised intent yields a result exactly when its
      `/load` call succeeds with a body the log line can measure, and the
      result is that body. */
  lemma ExecuteKnownIntentAsWritten(intent: string, cfg: Config, sign: Signer, now: int, send: Transport)
    requires intent in IntentTable
    ensures var r := ExecuteCubeIntentAsWritten(intent, cfg, sign, now, send);
      var reply := send(LoadRequest(cfg, sign, now, IntentTable[intent]));
      (r.Returned? && r.value.Some? <==> Succeeded(reply) && LogLineError(reply.body.value).None?)
      && (r.Returned? && r.value.Some? ==> r.value == reply.body)
  {
  }

  /** The daily-revenue intent asks for the last 30 days at day granularity. */
  lemma DailyRevenueIntentPayload()
    ensures BuildQuery(IntentTable["daily_revenue"])["timeDimensions"] == Array([Object(map[
        "dimension" := Str("revenue_daily.date"),
        "dateRange" := Str("last 30 days"),
        "granularity" := Str("day")])])
  {
    IntentTableContents();
    RevenueByDatePayload(30);
    ThirtyDays();
  }

  lemma ThirtyDays()
    ensures "last " + Text.IntToString(30) + " days" == "last 30 days"
  {
  }
}
