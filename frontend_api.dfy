/** The frontend's HTTP helper and the calls built on it: joining the base
    URL and the path, composing the headers, reading the body by its
    content type, turning a failed response into an error message, and the
    paths and query strings of the user, ingestion and analysis calls. The
    network exchange itself is a parameter: the response `fetch` resolved to. */
module FrontendApi {
  import opened Common
  import opened Json
  import opened Url

  const HttpError: string := "HTTP_ERROR"
  const AuthorizationHeader: string := "Authorization"
  const ContentTypeHeader: string := "Content-Type"
  const DefaultLookbackDays: string := "30"

  /** The `options` of a call: its method, its body (to be sent as
      `JSON.stringify(body)`; None when there is none) and caller headers. */
  datatype Options = Options(httpMethod: Option<string>, body: Option<Json>, headers: map<string, string>)

  /** The request handed to `fetch`. */
  datatype Outgoing = Outgoing(url: string, httpMethod: Option<string>, headers: map<string, string>, body: Option<Json>)

  /** The response `fetch` resolved to; `json` is what `res.json()` parsed,
      None when the body is not JSON. */
  datatype Incoming = Incoming(status: int, statusText: string, contentType: Option<string>, text: string, json: Option<Json>)

  /** The caller's headers, then `Authorization: Bearer <token>` for a
      non-empty token, then `Content-Type: application/json` when there is
      a body; each later entry overrides an earlier one. */
  function ComposeHeaders(caller: map<string, string>, token: Option<string>, hasBody: bool): (h: map<string, string>)
    ensures forall k :: k in h <==> k in caller || (k == AuthorizationHeader && Present(token)) || (k == ContentTypeHeader && hasBody)
    ensures Present(token) ==> h[AuthorizationHeader] == "Bearer " + token.value
    ensures hasBody ==> h[ContentTypeHeader] == JsonType
    ensures forall k :: k in caller && !(k == AuthorizationHeader && Present(token)) && !(k == ContentTypeHeader && hasBody)
                        ==> h[k] == caller[k]
  {
    var withAuth := if Present(token) then caller[AuthorizationHeader := "Bearer " + token.value] else caller;
    if hasBody then withAuth[ContentTypeHeader := JsonType] else withAuth
  }

  /** `res.ok` */
  predicate Ok(res: Incoming) {
    200 <= res.status <= 299
  }

  /** The body as `http` reads it: parsed JSON for a JSON content type
      (null when it does not parse), the text otherwise. */
  function ReadBody(res: Incoming): Json {
    if IsJsonType(res.contentType) then res.json.GetOr(JNull) else JStr(res.text)
  }

  /** `data.error.message` when every step is truthy, else `statusText`. */
  function ErrorMessageOf(data: Json, statusText: string): Json {
    var e := Prop(data, "error");
    if Truthy(Some(data)) && Truthy(e) && Truthy(Prop(e.value, "message")) then Prop(e.value, "message").value
    else JStr(statusText)
  }

  /** `data.error.code` when every step is truthy, else HTTP_ERROR. */
  function ErrorCodeOf(data: Json): Json {
    var e := Prop(data, "error");
    if Truthy(Some(data)) && Truthy(e) && Truthy(Prop(e.value, "code")) then Prop(e.value, "code").value
    else JStr(HttpError)
  }

  /** `${res.status} ${code}: ${msg}` */
  function FailureText(res: Incoming, data: Json): string {
    IntToString(res.status) + " " + ToJsString(ErrorCodeOf(data)) + ": " + ToJsString(ErrorMessageOf(data, res.statusText))
  }

  /** `http(base, token, path, options)`: the request it sends and, given
      the response, the data it resolves to or the error it throws. */
  function Http(base: string, token: Option<string>, path: string, options: Options, res: Incoming): (r: (Outgoing, Result<Json, Error>))
    ensures r.0.url == JoinUrl(base, path) && r.0.httpMethod == options.httpMethod && r.0.body == options.body
    ensures r.0.headers == ComposeHeaders(options.headers, token, options.body.Some?)
    ensures r.1.Success? <==> Ok(res)
    ensures r.1.Success? ==> r.1.value == ReadBody(res)
    ensures r.1.Failure? ==> r.1.error == Raise(FailureText(res, ReadBody(res)))
  {
    var out := Outgoing(JoinUrl(base, path), options.httpMethod,
                        ComposeHeaders(options.headers, token, options.body.Some?), options.body);
    var data := ReadBody(res);
    if !Ok(res) then (out, Failure(Raise(FailureText(res, data)))) else (out, Success(data))
  }

  /** A failed response carrying the services' error envelope with a
      non-empty code and message is reported as `<status> <code>: <message>`. */
  lemma EnvelopeErrorText(res: Incoming, code: string, message: string)
    requires !Ok(res) && IsJsonType(res.contentType) && res.json == Some(ErrorBody(code, message))
    requires code != "" && message != ""
    ensures FailureText(res, ReadBody(res)) == IntToString(res.status) + " " + code + ": " + message
  {
    var e := JObj(map["code" := JStr(code), "message" := JStr(message)]);
    assert Prop(ErrorBody(code, message), "error") == Some(e);
    assert Prop(e, "code") == Some(JStr(code));
    assert Prop(e, "message") == Some(JStr(message));
  }

  /** A failed response without a JSON body is reported with HTTP_ERROR
      and the status text. */
  lemma PlainErrorText(res: Incoming)
    requires !Ok(res) && !IsJsonType(res.contentType)
    ensures FailureText(res, ReadBody(res)) == IntToString(res.status) + " " + HttpError + ": " + res.statusText
  {
  }

  // ---------------------------------------------------------------------
  // The calls

  /** Every call the frontend makes. */
  datatype Endpoint =
    | AuthMe
    | ClanList
    | ClanAdd(payload: Json)
    | ClanGet(userId: string)
    | ClanRemove(userId: string)
    | IngestLatest(latestBody: Option<Json>)
    | IngestFull(fullBody: Option<Json>)
    | IngestRankDaily
    | IngestReportWeekly
    | IngestJob(jobId: string)
    | IngestSummary
    | IngestConfig
    | SummonerSummary(puuid: string, lookbackDays: Option<string>)
    | GlobalWeekly(start: Option<string>, end: Option<string>)
    | AnalysisReportWeekly

  /** The `start` and `end` pairs `URLSearchParams` holds: only the values given. */
  function WeeklyPairs(start: Option<string>, end: Option<string>): (pairs: seq<string>)
    ensures |pairs| == (if Present(start) then 1 else 0) + (if Present(end) then 1 else 0)
  {
    (if Present(start) then ["start=" + FormEncode(start.value)] else [])
    + (if Present(end) then ["end=" + FormEncode(end.value)] else [])
  }

  /** `/analysis/global/weekly`, with `?` and the query only when it is not empty. */
  function WeeklyPath(start: Option<string>, end: Option<string>): string {
    var qs := Join(WeeklyPairs(start, end), '&');
    "/analysis/global/weekly" + (if qs != "" then "?" + qs else "")
  }

  /** The path, method and body of each call. */
  function PathOf(e: Endpoint): string {
    match e
    case AuthMe => "/auth/me"
    case ClanList => "/clan/members"
    case ClanAdd(_) => "/clan/members"
    case ClanGet(id) => "/clan/members/" + EncodeUriComponent(id)
    case ClanRemove(id) => "/clan/members/" + EncodeUriComponent(id)
    case IngestLatest(_) => "/ingestion/summoner/latest"
    case IngestFull(_) => "/ingestion/summoner/full"
    case IngestRankDaily => "/ingestion/rank/daily"
    case IngestReportWeekly => "/ingestion/report/weekly"
    case IngestJob(id) => "/ingestion/jobs/" + EncodeUriComponent(id)
    case IngestSummary => "/ingestion/summary"
    case IngestConfig => "/ingestion/config"
    case SummonerSummary(puuid, days) =>
      "/analysis/summoner/" + EncodeUriComponent(puuid) + "/summary?lookbackDays="
      + EncodeUriComponent(days.GetOr(DefaultLookbackDays))
    case GlobalWeekly(start, end) => WeeklyPath(start, end)
    case AnalysisReportWeekly => "/analysis/report/weekly"
  }

  function OptionsOf(e: Endpoint): Options {
    match e
    case ClanAdd(payload) => Options(Some("POST"), Some(payload), map[])
    case ClanRemove(_) => Options(Some("DELETE"), None, map[])
    case IngestLatest(body) => Options(Some("POST"), body, map[])
    case IngestFull(body) => Options(Some("POST"), body, map[])
    case IngestRankDaily => Options(Some("POST"), None, map[])
    case IngestReportWeekly => Options(Some("POST"), None, map[])
    case AnalysisReportWeekly => Options(Some("POST"), None, map[])
    case _ => Options(None, None, map[])
  }

  /** The request a call sends: the joined URL, a bearer header for a
      non-empty token, and a JSON content type exactly for calls with a body. */
  function Send(base: string, token: Option<string>, e: Endpoint): (out: Outgoing)
    ensures out.url == JoinUrl(base, PathOf(e))
    ensures ContentTypeHeader in out.headers <==> out.body.Some?
    ensures AuthorizationHeader in out.headers <==> Present(token)
    ensures Present(token) ==> out.headers[AuthorizationHeader] == "Bearer " + token.value
  {
    Outgoing(JoinUrl(base, PathOf(e)), OptionsOf(e).httpMethod,
             ComposeHeaders(map[], token, OptionsOf(e).body.Some?), OptionsOf(e).body)
  }

  /** A member id travels as one encoded path segment and decodes back to itself. */
  lemma ClanMemberPathSegments(userId: string)
    ensures var enc := EncodeUriComponent(userId);
            && Split(PathOf(ClanGet(userId)), '/') == ["", "clan", "members", enc]
            && DecodeUriComponent(enc) == Some(userId)
  {
    var enc := EncodeUriComponent(userId);
    EncodeUriComponentRoundTrip(userId);
    assert Split("/clan/members/" + enc, '/') == ["", "clan", "members", enc] by {
      EncodedSegments("/clan/members/", "clan", "members", userId);
    }
  }

  /** A job id travels as one encoded path segment and decodes back to itself. */
  lemma JobPathSegments(jobId: string)
    ensures var enc := EncodeUriComponent(jobId);
            && Split(PathOf(IngestJob(jobId)), '/') == ["", "ingestion", "jobs", enc]
            && DecodeUriComponent(enc) == Some(jobId)
  {
    var enc := EncodeUriComponent(jobId);
    EncodeUriComponentRoundTrip(jobId);
    assert Split("/ingestion/jobs/" + enc, '/') == ["", "ingestion", "jobs", enc] by {
      EncodedSegments("/ingestion/jobs/", "ingestion", "jobs", jobId);
    }
  }

  /** `/<a>/<b>/<encoded id>` splits into its three segments. */
  lemma EncodedSegments(prefix: string, a: string, b: string, id: string)
    requires '/' !in a && '/' !in b
    requires prefix == "/" + a + "/" + b + "/"
    ensures var enc := EncodeUriComponent(id);
            Split(prefix + enc, '/') == ["", a, b, enc]
  {
    var enc := EncodeUriComponent(id);
    assert prefix + enc == "/" + a + "/" + b + "/" + enc;
    EncodedComponentIsOneSegment(id);
    ThreeSegments(a, b, enc);
    JoinSplit(["", a, b, enc], '/');
  }

  /** The weekly path has a query exactly when a start or an end is given,
      and the query splits back into exactly the given pairs. */
  lemma WeeklyQuery(start: Option<string>, end: Option<string>)
    ensures !Present(start) && !Present(end) ==> WeeklyPath(start, end) == "/analysis/global/weekly"
    ensures Present(start) || Present(end) ==>
              var qs := Join(WeeklyPairs(start, end), '&');
              && WeeklyPath(start, end) == "/analysis/global/weekly?" + qs
              && Split(qs, '&') == WeeklyPairs(start, end)
  {
    var pairs := WeeklyPairs(start, end);
    if |pairs| > 0 {
      WeeklyPairsSeparatorFree(start, end);
      JoinSplit(pairs, '&');
      JoinOfNonEmptyHead(pairs, '&');
    }
  }

  /** No pair contains `&`, and each one is non-empty. */
  lemma WeeklyPairsSeparatorFree(start: Option<string>, end: Option<string>)
    ensures var pairs := WeeklyPairs(start, end);
            forall i :: 0 <= i < |pairs| ==> '&' !in pairs[i] && pairs[i] != ""
  {
    var pairs := WeeklyPairs(start, end);
    if Present(start) {
      FormEncodedHasNoDelimiter(start.value);
    }
    if Present(end) {
      FormEncodedHasNoDelimiter(end.value);
    }
    forall i | 0 <= i < |pairs|
      ensures '&' !in pairs[i] && pairs[i] != ""
    {
      if Present(start) && i == 0 {
        assert pairs[i] == "start=" + FormEncode(start.value);
      } else {
        assert pairs[i] == "end=" + FormEncode(end.value);
      }
    }
  }

  /** A join whose first piece is non-empty is non-empty. */
  lemma JoinOfNonEmptyHead(parts: seq<string>, sep: char)
    requires |parts| > 0 && parts[0] != ""
    ensures Join(parts, sep) != ""
  {
    if |parts| > 1 {
      assert |Join(parts, sep)| >= |parts[0]|;
    }
  }
}
