/**
 The question-answering endpoint of the NLQ API: `GET /` reports the service
 as up, and `POST /ask` turns a free-text question into a Cube query by a
 fixed keyword classifier. The question is lower-cased and searched for
 keywords in a fixed order, first match wins; each outcome carries a fixed
 intent name, Cube query, SQL text and demonstration data.
 */
module NlqApi {
  import opened Wrappers
  import opened Json
  import Text

  /* ---------------------------------------------------------------------
     Request and response shapes
     --------------------------------------------------------------------- */

  const DefaultUserId: string := "demo_user"

  /** The body of `POST /ask` after validation; `userId` is `None` when the
      client sent an explicit `null`. */
  datatype NlqRequest = NlqRequest(query: string, userId: Option<string>)

  /** Validation of a request body: an omitted `user_id` (outer `None`)
      takes the default, a given one, `null` included, is kept as sent. */
  function ValidateRequest(query: string, userId: Option<Option<string>>): (req: NlqRequest)
    ensures req.query == query
    ensures userId.None? ==> req.userId == Some(DefaultUserId)
    ensures userId.Some? ==> req.userId == userId.value
  {
    match userId
    case None => NlqRequest(query, Some(DefaultUserId))
    case Some(given) => NlqRequest(query, given)
  }

  /** A Cube query as the response reports it. */
  datatype CubeQuery = CubeQuery(
    measures: seq<string>,
    dimensions: seq<string>,
    filters: Option<seq<Json>>,
    timeDimensions: Option<seq<Json>>)

  datatype NlqResponse = NlqResponse(
    originalQuery: string,
    interpretedIntent: string,
    cubeQuery: CubeQuery,
    sqlGenerated: string,
    data: map<string, Json>)

  /* ---------------------------------------------------------------------
     GET /
     --------------------------------------------------------------------- */

  /** `health_check()`: the service always reports itself as up. */
  function HealthCheck(): (r: map<string, string>)
    ensures r.Keys == {"status", "service"}
    ensures r["status"] == "ok"
    ensures r["service"] == "Retail Semantic NLQ API"
  {
    map["status" := "ok", "service" := "Retail Semantic NLQ API"]
  }

  /* ---------------------------------------------------------------------
     Keyword classification
     --------------------------------------------------------------------- */

  /** The outcomes of classification, one per branch of `ask_question`. */
  datatype Topic = Revenue | OrderCount | Users | Unrecognised

  /** The branch `ask_question` takes for an already lower-cased question. */
  function Classify(q: string): Topic {
    if Text.Contains(q, "revenue") then Revenue
    else if Text.Contains(q, "orders") || Text.Contains(q, "sales") then OrderCount
    else if Text.Contains(q, "users") || Text.Contains(q, "customers") then Users
    else Unrecognised
  }

  function IntentName(t: Topic): string {
    match t
    case Revenue => "analyze_revenue"
    case OrderCount => "analyze_order_count"
    case Users => "analyze_users"
    case Unrecognised => "unknown"
  }

  /** The daily time dimension of the revenue query. */
  const OrderDateByDay: Json := Object(map["dimension" := Str("Orders.orderDate"), "granularity" := Str("day")])

  function TopicQuery(t: Topic): CubeQuery {
    match t
    case Revenue => CubeQuery(["Orders.totalRevenue"], [], None, Some([OrderDateByDay]))
    case OrderCount => CubeQuery(["Orders.count"], ["Orders.status"], None, None)
    case Users => CubeQuery(["Users.count"], ["Users.country"], None, None)
    case Unrecognised => CubeQuery([], [], None, None)
  }

  function TopicSql(t: Topic): string {
    match t
    case Revenue => "SELECT order_date, SUM(revenue) FROM orders GROUP BY 1"
    case OrderCount => "SELECT status, COUNT(*) FROM orders GROUP BY 1"
    case Users => "SELECT country, COUNT(*) FROM users GROUP BY 1"
    case Unrecognised => ""
  }

  /** The fixed demonstration data returned with each outcome. */
  function TopicData(t: Topic): map<string, Json> {
    match t
    case Revenue => map["result" := Str("$1.2M"), "trend" := Str("up")]
    case OrderCount => map["count" := Int(14500)]
    case Users => map["total_users" := Int(5200)]
    case Unrecognised => map[]
  }

  /* ---------------------------------------------------------------------
     POST /ask
     --------------------------------------------------------------------- */

  /** `ask_question(request)`. The question is echoed untouched; only the
      revenue branch asks for a time dimension, and no branch sets filters. */
  function AskQuestion(req: NlqRequest): (r: NlqResponse)
    ensures r.originalQuery == req.query
    ensures r.cubeQuery.filters == None
    ensures r.cubeQuery.timeDimensions.Some? <==> Text.Contains(Text.Lower(req.query), "revenue")
    ensures r.cubeQuery.timeDimensions.Some? ==> r.cubeQuery.timeDimensions == Some([OrderDateByDay])
  {
    var t := Classify(Text.Lower(req.query));
    NlqResponse(req.query, IntentName(t), TopicQuery(t), TopicSql(t), TopicData(t))
  }

  /** The keyword sets, lower-cased. */
  predicate MentionsRevenue(req: NlqRequest) {
    Text.Contains(Text.Lower(req.query), "revenue")
  }

  predicate MentionsOrders(req: NlqRequest) {
    Text.Contains(Text.Lower(req.query), "orders") || Text.Contains(Text.Lower(req.query), "sales")
  }

  predicate MentionsUsers(req: NlqRequest) {
    Text.Contains(Text.Lower(req.query), "users") || Text.Contains(Text.Lower(req.query), "customers")
  }

  /** "revenue" wins over every other keyword. */
  lemma AskRevenue(req: NlqRequest)
    requires MentionsRevenue(req)
    ensures AskQuestion(req).interpretedIntent == "analyze_revenue"
    ensures AskQuestion(req).cubeQuery == CubeQuery(["Orders.totalRevenue"], [], None, Some([OrderDateByDay]))
    ensures AskQuestion(req).sqlGenerated == "SELECT order_date, SUM(revenue) FROM orders GROUP BY 1"
    ensures AskQuestion(req).data == map["result" := Str("$1.2M"), "trend" := Str("up")]
  {
  }

  /** Without "revenue", "orders" or "sales" wins over "users" and "customers". */
  lemma AskOrderCount(req: NlqRequest)
    requires !MentionsRevenue(req) && MentionsOrders(req)
    ensures AskQuestion(req).interpretedIntent == "analyze_order_count"
    ensures AskQuestion(req).cubeQuery == CubeQuery(["Orders.count"], ["Orders.status"], None, None)
    ensures AskQuestion(req).sqlGenerated == "SELECT status, COUNT(*) FROM orders GROUP BY 1"
    ensures AskQuestion(req).data == map["count" := Int(14500)]
  {
  }

  lemma AskUsers(req: NlqRequest)
    requires !MentionsRevenue(req) && !MentionsOrders(req) && MentionsUsers(req)
    ensures AskQuestion(req).interpretedIntent == "analyze_users"
    ensures AskQuestion(req).cubeQuery == CubeQuery(["Users.count"], ["Users.country"], None, None)
    ensures AskQuestion(req).sqlGenerated == "SELECT country, COUNT(*) FROM users GROUP BY 1"
    ensures AskQuestion(req).data == map["total_users" := Int(5200)]
  {
  }

  /** A question with none of the five keywords is not understood, and the
      answer carries nothing. */
  lemma AskUnknown(req: NlqRequest)
    requires !MentionsRevenue(req) && !MentionsOrders(req) && !MentionsUsers(req)
    ensures AskQuestion(req).interpretedIntent == "unknown"
    ensures AskQuestion(req).cubeQuery == CubeQuery([], [], None, None)
    ensures AskQuestion(req).sqlGenerated == ""
    ensures AskQuestion(req).data == map[]
  {
  }

  /** Each intent is reported exactly when its keywords decide the question. */
  lemma AskIntentExactly(req: NlqRequest)
    ensures AskQuestion(req).interpretedIntent == "analyze_revenue" <==> MentionsRevenue(req)
    ensures AskQuestion(req).interpretedIntent == "analyze_order_count"
        <==> !MentionsRevenue(req) && MentionsOrders(req)
    ensures AskQuestion(req).interpretedIntent == "analyze_users"
        <==> !MentionsRevenue(req) && !MentionsOrders(req) && MentionsUsers(req)
    ensures AskQuestion(req).interpretedIntent == "unknown"
        <==> !MentionsRevenue(req) && !MentionsOrders(req) && !MentionsUsers(req)
  {
  }

  /** Only the lower-cased question is inspected: questions that differ only
      in letter case get the same answer apart from the echoed question. */
  lemma AskIgnoresCase(r1: NlqRequest, r2: NlqRequest)
    requires Text.Lower(r1.query) == Text.Lower(r2.query)
    ensures AskQuestion(r1).originalQuery == r1.query
    ensures AskQuestion(r1).(originalQuery := r2.query) == AskQuestion(r2)
  {
  }

  /** In particular, asking the lower-cased question gives the same answer. */
  lemma AskLowerCased(req: NlqRequest)
    ensures AskQuestion(req.(query := Text.Lower(req.query))).(originalQuery := req.query) == AskQuestion(req)
  {
    Text.LowerIdempotent(req.query);
    AskIgnoresCase(req.(query := Text.Lower(req.query)), req);
  }

  /** The user identifier plays no part in the answer. */
  lemma AskIgnoresUser(req: NlqRequest, user: Option<string>)
    ensures AskQuestion(req.(userId := user)) == AskQuestion(req)
  {
  }

  /** Matching is by substring, in any letter case: the revenue keyword
      decides the question wherever it appears, even inside a longer word. */
  lemma RevenueKeywordAnywhere(prefix: string, keyword: string, suffix: string, user: Option<string>)
    requires Text.Lower(keyword) == "revenue"
    ensures AskQuestion(NlqRequest(prefix + keyword + suffix, user)).interpretedIntent == "analyze_revenue"
  {
    LowerOfJoin(prefix, keyword, suffix);
    Text.ContainsInContext(Text.Lower(prefix), "revenue", Text.Lower(suffix), "revenue");
  }

  /** Without the revenue keyword, an order or sales keyword anywhere, in
      any case, makes it an order-count question. */
  lemma OrderKeywordAnywhere(prefix: string, keyword: string, suffix: string, user: Option<string>)
    requires Text.Lower(keyword) == "orders" || Text.Lower(keyword) == "sales"
    requires !Text.Contains(Text.Lower(prefix + keyword + suffix), "revenue")
    ensures AskQuestion(NlqRequest(prefix + keyword + suffix, user)).interpretedIntent == "analyze_order_count"
  {
    LowerOfJoin(prefix, keyword, suffix);
    Text.ContainsInContext(Text.Lower(prefix), Text.Lower(keyword), Text.Lower(suffix), Text.Lower(keyword));
  }

  lemma LowerOfJoin(a: string, b: string, c: string)
    ensures Text.Lower(a + b + c) == Text.Lower(a) + Text.Lower(b) + Text.Lower(c)
  {
    Text.LowerConcat(a + b, c);
    Text.LowerConcat(a, b);
  }

  /** The sales keyword matches inside a longer word, whatever its case. */
  lemma SalespersonIsAnOrderQuestion()
    ensures AskQuestion(NlqRequest("Top SALESPERSON?", None)).interpretedIntent == "analyze_order_count"
  {
    var q := "Top SALESPERSON?";
    assert q == "Top " + "SALES" + "PERSON?";
    assert Text.Lower("SALES") == "sales";
    var lowered := Text.Lower(q);
    assert !Text.Contains(lowered, "revenue") by {
      forall i | 0 <= i && i + 7 <= |lowered|
        ensures !Text.OccursAt(lowered, "revenue", i)
      {
        assert q[i] != 'r' && q[i] != 'R';
        assert lowered[i] != 'r';
        assert lowered[i..i + 7][0] != 'r';
      }
    }
    OrderKeywordAnywhere("Top ", "SALES", "PERSON?", None);
  }

  /* ---------------------------------------------------------------------
     The classifier as a priority list of rules
     --------------------------------------------------------------------- */

  /** A rule fires when the question contains any of its keywords. */
  datatype Rule = Rule(keywords: seq<string>, topic: Topic)

  predicate Fires(rule: Rule, q: string) {
    exists k | k in rule.keywords :: Text.Contains(q, k)
  }

  /** The rules in the order they are tried. */
  const Rules: seq<Rule> := [
    Rule(["revenue"], Revenue),
    Rule(["orders", "sales"], OrderCount),
    Rule(["users", "customers"], Users)]

  /** First-match-wins evaluation of a rule list. */
  function FirstMatch(rules: seq<Rule>, q: string): Topic {
    if |rules| == 0 then Unrecognised
    else if Fires(rules[0], q) then rules[0].topic
    else FirstMatch(rules[1..], q)
  }

  /** The earliest rule that fires decides. */
  lemma {:induction false} FirstMatchEarliest(rules: seq<Rule>, q: string, j: int)
    requires 0 <= j < |rules| && Fires(rules[j], q)
    requires forall i | 0 <= i < j :: !Fires(rules[i], q)
    ensures FirstMatch(rules, q) == rules[j].topic
    decreases j
  {
    if j > 0 {
      assert !Fires(rules[0], q);
      assert forall i | 0 <= i < j - 1 :: rules[1..][i] == rules[i + 1];
      FirstMatchEarliest(rules[1..], q, j - 1);
    }
  }

  /** When no rule fires the question is not understood. */
  lemma {:induction false} FirstMatchNone(rules: seq<Rule>, q: string)
    requires forall i | 0 <= i < |rules| :: !Fires(rules[i], q)
    ensures FirstMatch(rules, q) == Unrecognised
    decreases |rules|
  {
    if |rules| > 0 {
      assert !Fires(rules[0], q);
      assert forall i | 0 <= i < |rules| - 1 :: rules[1..][i] == rules[i + 1];
      FirstMatchNone(rules[1..], q);
    }
  }

  /** The if-chain of `ask_question` is first-match evaluation of `Rules`. */
  lemma ClassifyIsFirstMatch(q: string)
    ensures Classify(q) == FirstMatch(Rules, q)
  {
    assert Fires(Rules[0], q) <==> Text.Contains(q, "revenue") by {
      assert Rules[0].keywords == ["revenue"];
    }
    assert Fires(Rules[1], q) <==> Text.Contains(q, "orders") || Text.Contains(q, "sales") by {
      assert Rules[1].keywords == ["orders", "sales"];
    }
    assert Fires(Rules[2], q) <==> Text.Contains(q, "users") || Text.Contains(q, "customers") by {
      assert Rules[2].keywords == ["users", "customers"];
    }
    match Classify(q)
    case Revenue => FirstMatchEarliest(Rules, q, 0);
    case OrderCount => FirstMatchEarliest(Rules, q, 1);
    case Users => FirstMatchEarliest(Rules, q, 2);
    case Unrecognised => FirstMatchNone(Rules, q);
  }
}
