/** The user service's proxy in front of the Riot data service's ingestion
    endpoints: the base URL it forwards to, the request it builds from the
    incoming one, and how it hands back the upstream answer or reports the
    upstream as unavailable. The upstream exchange is a parameter: what
    `fetch` and the body read produced, or the error either threw. */
module IngestionProxy {
  import opened Common
  import opened Json
  import opened Url

  const DefaultBase: string := "http://localhost:3003/api/v1"
  const QueueUnavailable: string := "QUEUE_UNAVAILABLE"
  const UnavailableMessage: string := "RiotDataService unavailable"
  const AuthorizationHeader: string := "Authorization"
  const ContentTypeHeader: string := "Content-Type"
  const LatestTarget: string := "/ingestion/summoner/latest"
  const FullTarget: string := "/ingestion/summoner/full"
  const RankDailyTarget: string := "/ingestion/rank/daily"
  const ReportWeeklyTarget: string := "/ingestion/report/weekly"
  const JobsTarget: string := "/ingestion/jobs/"
  const SummaryTarget: string := "/ingestion/summary"
  const ConfigTarget: string := "/ingestion/config"

  /** `(RIOT_DATA_SERVICE_BASE_URL || default)` without its trailing slashes. */
  function Base(env: Option<string>): (b: string)
    ensures !Present(env) ==> b == DefaultBase
    ensures Present(env) ==> b == StripTrailingSlashes(env.value)
    ensures b == [] || b[|b| - 1] != '/'
  {
    assert DefaultBase[|DefaultBase| - 1] == '1';
    StripTrailingSlashes(if Present(env) then env.value else DefaultBase)
  }

  /** `buildUrl(path)`: the configured (or default) base joined to the path
      the way the frontend joins its URLs, with exactly one slash between
      them. */
  function ProxyUrl(env: Option<string>, path: string): (url: string)
    ensures url == JoinUrl(if Present(env) then env.value else DefaultBase, path)
    ensures var b := Base(env);
            && url[|b|] == '/' && (|b| + 1 == |url| || url[|b| + 1] != '/')
  {
    JoinUrlSingleSlash(if Present(env) then env.value else DefaultBase, path);
    Base(env) + "/" + StripLeadingSlashes(path)
  }

  /** The second argument of `relay`: a method and a body to send, each
      possibly absent. */
  datatype Init = Init(httpMethod: Option<string>, body: Option<Json>)

  /** The request handed to `fetch`; `body` is what `JSON.stringify` receives. */
  datatype Outgoing = Outgoing(url: string, httpMethod: string, headers: map<string, string>, body: Option<Json>)

  /** What the upstream exchange produced: a response with its status, its
      content type, its text and the outcome of reading it as JSON; or the
      error `fetch` threw. */
  datatype Fetched =
    | Reached(status: int, contentType: Option<string>, text: string, json: Result<Json, Error>)
    | Unreachable(error: Error)

  /** A relayed answer: JSON (`res.json`) or text (`res.send`). */
  datatype Payload = JsonPayload(data: Json) | TextPayload(text: string)

  datatype Relayed = Relayed(status: int, payload: Payload)

  /** The 503 `QUEUE_UNAVAILABLE` answer, with the error's message as details. */
  function Unavailable(details: string): (r: Relayed)
    ensures r.status == 503 && r.payload.JsonPayload?
    ensures Prop(r.payload.data, "success") == Some(JBool(false))
  {
    Relayed(503, JsonPayload(JObj(map[
      "success" := JBool(false),
      "error" := JObj(map["code" := JStr(QueueUnavailable), "message" := JStr(UnavailableMessage),
                          "details" := JStr(details)])])))
  }

  /** The headers `relay` sends: the forwarded Authorization header (empty
      when the caller sent none), and a JSON content type only with a body. */
  function Headers(authorization: Option<string>, hasBody: bool): (h: map<string, string>)
    ensures AuthorizationHeader in h
    ensures h[AuthorizationHeader] == (if Present(authorization) then authorization.value else "")
    ensures ContentTypeHeader in h <==> hasBody
    ensures hasBody ==> h[ContentTypeHeader] == JsonType
    ensures forall k :: k in h ==> k == AuthorizationHeader || k == ContentTypeHeader
  {
    var auth := map[AuthorizationHeader := if Present(authorization) then authorization.value else ""];
    if hasBody then auth[ContentTypeHeader := JsonType] else auth
  }

  /** The request `relay` sends: the joined URL, the method (GET when none
      is given), the headers above and the body only when it is truthy. */
  function Request(env: Option<string>, authorization: Option<string>, target: string, init: Init): (out: Outgoing)
    ensures out.url == ProxyUrl(env, target)
    ensures out.httpMethod == (if Present(init.httpMethod) then init.httpMethod.value else "GET")
    ensures out.headers == Headers(authorization, Truthy(init.body))
    ensures out.body == (if Truthy(init.body) then init.body else None)
  {
    Outgoing(ProxyUrl(env, target), if Present(init.httpMethod) then init.httpMethod.value else "GET",
             Headers(authorization, Truthy(init.body)), if Truthy(init.body) then init.body else None)
  }

  /** The answer `relay` gives: the upstream status with its JSON or its
      text, chosen by the lower-cased content type; and a 503 when the
      upstream cannot be reached or its JSON cannot be read. */
  function Answer(fetched: Fetched): (r: Relayed)
    ensures fetched.Unreachable? ==> r == Unavailable(fetched.error.message)
    ensures (fetched.Reached? && IsJsonType(fetched.contentType) && fetched.json.Failure?)
              ==> r == Unavailable(fetched.json.error.message)
    ensures (fetched.Reached? && IsJsonType(fetched.contentType) && fetched.json.Success?)
              ==> r == Relayed(fetched.status, JsonPayload(fetched.json.value))
    ensures (fetched.Reached? && !IsJsonType(fetched.contentType))
              ==> r == Relayed(fetched.status, TextPayload(fetched.text))
  {
    match fetched
    case Unreachable(e) => Unavailable(e.message)
    case Reached(status, contentType, text, json) =>
      if !IsJsonType(contentType) then Relayed(status, TextPayload(text))
      else if json.Failure? then Unavailable(json.error.message)
      else Relayed(status, JsonPayload(json.value))
  }

  /** The proxy never invents a status: its answer carries the upstream
      status, or 503 exactly when the upstream was not reached or its JSON
      body could not be read. */
  lemma StatusIsUpstreamOr503(fetched: Fetched)
    ensures var r := Answer(fetched);
            var failed := fetched.Unreachable? || (IsJsonType(fetched.contentType) && fetched.json.Failure?);
            && (failed ==> r.status == 503 && ErrorCode(r.payload.data) == Some(QueueUnavailable))
            && (!failed ==> r.status == fetched.status)
  {
    var r := Answer(fetched);
    if fetched.Unreachable? || (IsJsonType(fetched.contentType) && fetched.json.Failure?) {
      var e := Prop(r.payload.data, "error").value;
      assert Prop(e, "code") == Some(JStr(QueueUnavailable));
    }
  }

  // ---------------------------------------------------------------------
  // The routes

  /** The proxied routes; the POST routes carry the incoming body. */
  datatype ProxyCall =
    | SummonerLatest(latestBody: Option<Json>)
    | SummonerFull(fullBody: Option<Json>)
    | RankDaily(rankBody: Option<Json>)
    | ReportWeekly(reportBody: Option<Json>)
    | Job(id: string)
    | Summary
    | Config

  /** `req.body || {}` */
  function BodyOrEmpty(body: Option<Json>): (b: Json)
    ensures Truthy(Some(b))
    ensures Truthy(body) ==> b == body.value
  {
    if Truthy(body) then body.value else JObj(map[])
  }

  /** The upstream path of each route. */
  function TargetOf(c: ProxyCall): string {
    match c
    case SummonerLatest(_) => LatestTarget
    case SummonerFull(_) => FullTarget
    case RankDaily(_) => RankDailyTarget
    case ReportWeekly(_) => ReportWeeklyTarget
    case Job(id) => JobsTarget + EncodeUriComponent(id)
    case Summary => SummaryTarget
    case Config => ConfigTarget
  }

  /** The `init` each route passes to `relay`. */
  function InitOf(c: ProxyCall): Init {
    match c
    case SummonerLatest(body) => Init(Some("POST"), Some(BodyOrEmpty(body)))
    case SummonerFull(body) => Init(Some("POST"), Some(BodyOrEmpty(body)))
    case RankDaily(body) => Init(Some("POST"), Some(BodyOrEmpty(body)))
    case ReportWeekly(body) => Init(Some("POST"), Some(BodyOrEmpty(body)))
    case _ => Init(None, None)
  }

  /** A proxied call: the request sent and the answer given. The request
      goes to the route's upstream path under the configured base with the
      caller's authorization; a POST route sends its body (an empty object
      when it has none) as JSON, a GET route sends nothing; the answer keeps
      the upstream status unless the upstream failed, which gives 503. */
  function Proxy(env: Option<string>, authorization: Option<string>, c: ProxyCall, fetched: Fetched): (r: (Outgoing, Relayed))
    ensures r.0.url == ProxyUrl(env, TargetOf(c))
    ensures AuthorizationHeader in r.0.headers
            && r.0.headers[AuthorizationHeader] == (if Present(authorization) then authorization.value else "")
    ensures IsPost(c) ==> r.0.httpMethod == "POST" && r.0.body == Some(BodyOrEmpty(IncomingBody(c)))
                          && ContentTypeHeader in r.0.headers && r.0.headers[ContentTypeHeader] == JsonType
    ensures !IsPost(c) ==> r.0.httpMethod == "GET" && r.0.body == None && ContentTypeHeader !in r.0.headers
    ensures var failed := fetched.Unreachable? || (IsJsonType(fetched.contentType) && fetched.json.Failure?);
            && (failed ==> r.1.status == 503 && r.1.payload.JsonPayload? && ErrorCode(r.1.payload.data) == Some(QueueUnavailable))
            && (!failed ==> r.1.status == fetched.status)
  {
    var out := Request(env, authorization, TargetOf(c), InitOf(c));
    var answer := Answer(fetched);
    assert IsPost(c) ==> out.httpMethod == "POST" && out.body == Some(BodyOrEmpty(IncomingBody(c)))
                         && ContentTypeHeader in out.headers
      by { BodiesOfRoutes(env, authorization, c); }
    assert !IsPost(c) ==> out.httpMethod == "GET" && out.body == None && ContentTypeHeader !in out.headers
      by { BodiesOfRoutes(env, authorization, c); }
    StatusIsUpstreamOr503(fetched);
    (out, answer)
  }

  predicate IsPost(c: ProxyCall) {
    c.SummonerLatest? || c.SummonerFull? || c.RankDaily? || c.ReportWeekly?
  }

  function IncomingBody(c: ProxyCall): Option<Json>
    requires IsPost(c)
  {
    match c
    case SummonerLatest(b) => b
    case SummonerFull(b) => b
    case RankDaily(b) => b
    case ReportWeekly(b) => b
  }

  /** Every POST route sends a JSON body, even without an incoming one (an
      empty object then); the GET routes send neither a body nor a content
      type. */
  lemma BodiesOfRoutes(env: Option<string>, authorization: Option<string>, c: ProxyCall)
    ensures var out := Request(env, authorization, TargetOf(c), InitOf(c));
            && (IsPost(c) ==> out.httpMethod == "POST" && ContentTypeHeader in out.headers
                              && out.body == Some(BodyOrEmpty(IncomingBody(c))))
            && (IsPost(c) && !Truthy(IncomingBody(c)) ==> out.body == Some(JObj(map[])))
            && (!IsPost(c) ==> out.httpMethod == "GET" && ContentTypeHeader !in out.headers && out.body == None)
  {
  }

  /** A job id reaches the upstream as one encoded segment after
      `<base>/ingestion/jobs/`, and decodes back to itself. */
  lemma JobUrlSegment(env: Option<string>, id: string)
    ensures var enc := EncodeUriComponent(id);
            && ProxyUrl(env, TargetOf(Job(id))) == Base(env) + "/ingestion/jobs/" + enc
            && '/' !in enc
            && DecodeUriComponent(enc) == Some(id)
  {
    var enc := EncodeUriComponent(id);
    EncodedComponentIsOneSegment(id);
    EncodeUriComponentRoundTrip(id);
    JobTargetStripped(enc);
    ProxyUrlJoins(env, JobsTarget + enc);
  }

  /** Stripping the leading slash of a job target leaves `ingestion/jobs/<enc>`. */
  lemma JobTargetStripped(enc: string)
    ensures forall b: string {:trigger b + "/" + StripLeadingSlashes(JobsTarget + enc)} ::
              b + "/" + StripLeadingSlashes(JobsTarget + enc) == b + "/ingestion/jobs/" + enc
  {
    var rest := "ingestion/jobs/" + enc;
    assert rest[0] == 'i';
    assert JobsTarget + enc == "/" + rest;
    StripLeadingOfSlash(rest);
    assert StripLeadingSlashes(JobsTarget + enc) == rest;
    forall b: string
      ensures b + "/" + rest == b + "/ingestion/jobs/" + enc
    {
      assert b + "/" + rest == b + ("/" + rest);
    }
  }

  lemma ProxyUrlJoins(env: Option<string>, path: string)
    ensures ProxyUrl(env, path) == Base(env) + "/" + StripLeadingSlashes(path)
  {
  }

  /** A configured base with trailing slashes reaches the same URLs as
      the base without them. */
  lemma TrailingSlashesIgnored(base: string, path: string)
    requires base != ""
    ensures ProxyUrl(Some(base + "/"), path) == ProxyUrl(Some(base), path)
  {
    JoinUrlIgnoresExtraSlashes(base, path);
  }
}
