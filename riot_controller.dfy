/** The LolAPIService controller of the `/api/v1/riot` routes: parameter
    checks, the `count` defaults, the shaping of the five responses and the
    mapping of a thrown error to a 500. Each handler reports the response
    and the Riot requests the service sent for it. */
module RiotController {
  import opened Common
  import opened RiotData
  import Simple = RiotSimpleService

  const InvalidInput: string := "INVALID_INPUT"
  const InternalError: string := "INTERNAL_ERROR"
  const NameTagRequired: string := "summonerName과 tag 파라미터가 필요합니다"
  const MatchIdRequired: string := "matchId 파라미터가 필요합니다"
  const PuuidRequired: string := "puuid 파라미터가 필요합니다"
  const LatestFailed: string := "매치 정보를 조회할 수 없습니다"
  const HistoryFailed: string := "매치 히스토리를 조회할 수 없습니다"
  const DetailFailed: string := "매치 상세 정보를 조회할 수 없습니다"
  const PuuidFailed: string := "소환사 정보를 조회할 수 없습니다"
  const IdsFailed: string := "매치 ID 목록을 조회할 수 없습니다"
  const DefaultHistoryQueryCount: int := 10
  const DefaultIdsQueryCount: int := 20

  /** `{ success: true, data }` or `{ success: false, error: { code, message, details? } }` */
  datatype Body<T> = Ok(data: T) | Err(code: string, message: string, details: Option<string>)

  datatype Response<T> = Response(status: int, body: Body<T>)

  /** A handler's response and the Riot requests made while producing it. */
  datatype Handled<T> = Handled(response: Response<T>, requests: seq<Request>)

  datatype SummonerPuuidResponse = SummonerPuuidResponse(summonerName: string, tag: string, puuid: string)

  datatype MatchHistoryResponse = MatchHistoryResponse(summonerName: string, tag: string, matches: seq<HistoryItem>, totalCount: int)

  datatype MatchIdsResponse = MatchIdsResponse(puuid: string, count: int, matchIds: seq<string>)

  /** The 400 of a missing parameter. */
  function BadRequest<T>(message: string): (h: Handled<T>)
    ensures h.response.status == 400 && h.requests == []
    ensures h.response.body == Err(InvalidInput, message, None)
  {
    Handled(Response(400, Err(InvalidInput, message, None)), [])
  }

  /** The 500 of a thrown error: a fixed message and the error's own as `details`. */
  function ServerError<T>(message: string, e: Error): (r: Response<T>)
    ensures r.status == 500 && r.body == Err(InternalError, message, Some(e.message))
  {
    Response(500, Err(InternalError, message, Some(e.message)))
  }

  /** The 200 of a result, or the 500 of its error. */
  function Respond<T, U>(res: Result<T, Error>, shape: T -> U, message: string): (r: Response<U>)
    ensures res.Success? ==> r == Response(200, Ok(shape(res.value)))
    ensures res.Failure? ==> r == ServerError(message, res.error)
  {
    if res.Success? then Response(200, Ok(shape(res.value))) else ServerError(message, res.error)
  }

  class RiotController {
    const service: Simple.RiotAPIService

    /** `new RiotController()`: the controller creates its service. */
    constructor (apiKeyEnv: Option<string>)
      ensures fresh(service)
    {
      service := new Simple.RiotAPIService(apiKeyEnv);
    }

    /** `getLatestMatch`: 400 without a name or tag, otherwise the latest
        match's detail or a 500 carrying the service's error. */
    function GetLatestMatch(summonerName: Option<string>, tag: Option<string>, up: Upstream): (h: Handled<Option<Detail>>)
      ensures h.response.status == 400 <==> !Present(summonerName) || !Present(tag)
      ensures h.response.status == 400 ==> h == BadRequest(NameTagRequired)
      ensures h.response.status != 400 ==>
                var run := service.LatestMatch(summonerName.value, tag.value, up);
                && h.requests == run.requests
                && (run.result.Success? ==> h.response == Response(200, Ok(run.result.value)))
                && (run.result.Failure? ==> h.response == ServerError(LatestFailed, run.result.error))
    {
      if !Present(summonerName) || !Present(tag) then BadRequest(NameTagRequired)
      else
        var run := service.LatestMatch(summonerName.value, tag.value, up);
        Handled(Respond(run.result, d => d, LatestFailed), run.requests)
    }

    /** `getPlayerMatchHistory`: `count` is `parseInt(query.count) || 10`;
        the entries come back with their number as `totalCount`. */
    function GetPlayerMatchHistory(summonerName: Option<string>, tag: Option<string>, countQuery: Option<string>, up: Upstream)
      : (h: Handled<MatchHistoryResponse>)
      ensures h.response.status == 400 <==> !Present(summonerName) || !Present(tag)
      ensures h.response.status == 400 ==> h == BadRequest(NameTagRequired)
      ensures h.response.status != 400 ==>
                var q := Simple.HistoryQuery(summonerName.value, tag.value, Some(HistoryQueryCount(countQuery)));
                var run := service.History(q, up);
                && h.requests == run.requests
                && (run.result.Success? ==>
                      h.response == Response(200, Ok(MatchHistoryResponse(summonerName.value, tag.value,
                                                                          run.result.value, |run.result.value|))))
                && (run.result.Failure? ==> h.response == ServerError(HistoryFailed, run.result.error))
    {
      var count := HistoryQueryCount(countQuery);
      if !Present(summonerName) || !Present(tag) then BadRequest(NameTagRequired)
      else
        var run := service.History(Simple.HistoryQuery(summonerName.value, tag.value, Some(count)), up);
        Handled(Respond(run.result, items => MatchHistoryResponse(summonerName.value, tag.value, items, |items|), HistoryFailed),
                run.requests)
    }

    /** `getMatchDetail`: 400 without a match id, otherwise its detail. */
    function GetMatchDetail(matchId: Option<string>, up: Upstream): (h: Handled<Option<Detail>>)
      ensures h.response.status == 400 <==> !Present(matchId)
      ensures h.response.status == 400 ==> h == BadRequest(MatchIdRequired)
      ensures h.response.status != 400 ==>
                && h.requests == [DetailFetch(matchId.value)]
                && (up.detail(0).Success? ==> h.response == Response(200, Ok(up.detail(0).value)))
                && (up.detail(0).Failure? ==> h.response == ServerError(DetailFailed, Classify(up.detail(0).error)))
    {
      if !Present(matchId) then BadRequest(MatchIdRequired)
      else Handled(Respond(service.GetMatchDetail(up.detail(0)), d => d, DetailFailed), [DetailFetch(matchId.value)])
    }

    /** `getSummonerPuuid`: 400 without a name or tag, otherwise the PUUID
        the account lookup found, with the name and tag as asked. */
    function GetSummonerPuuid(summonerName: Option<string>, tag: Option<string>, up: Upstream): (h: Handled<SummonerPuuidResponse>)
      ensures h.response.status == 400 <==> !Present(summonerName) || !Present(tag)
      ensures h.response.status == 400 ==> h == BadRequest(NameTagRequired)
      ensures h.response.status == 200 <==> Present(summonerName) && Present(tag) && up.account.Success? && Present(up.account.value)
      ensures h.response.status == 200 ==>
                h.response.body == Ok(SummonerPuuidResponse(summonerName.value, tag.value, up.account.value.value))
      ensures h.response.status != 400 ==> h.requests == [AccountLookup(summonerName.value, tag.value)]
    {
      if !Present(summonerName) || !Present(tag) then BadRequest(NameTagRequired)
      else
        Handled(Respond(service.GetPuuidBySummonerName(up.account),
                      puuid => SummonerPuuidResponse(summonerName.value, tag.value, puuid), PuuidFailed),
                [AccountLookup(summonerName.value, tag.value)])
    }

    /** `getMatchIdsByPuuid`: `count` is `parseInt(query.count) || 20`,
        passed on to the service, which clamps it, and echoed as it was. */
    function GetMatchIdsByPuuid(puuid: Option<string>, countQuery: Option<string>, up: Upstream): (h: Handled<MatchIdsResponse>)
      ensures h.response.status == 400 <==> !Present(puuid)
      ensures h.response.status == 400 ==> h == BadRequest(PuuidRequired)
      ensures h.response.status != 400 ==>
                && h.requests == [MatchListing(puuid.value, Some(IdsQueryCount(countQuery)))]
                && (up.matchIds.Success? ==>
                      h.response == Response(200, Ok(MatchIdsResponse(puuid.value, IdsQueryCount(countQuery), up.matchIds.value.GetOr([])))))
                && (up.matchIds.Failure? ==> h.response == ServerError(IdsFailed, Classify(up.matchIds.error)))
    {
      var count := IdsQueryCount(countQuery);
      if !Present(puuid) then BadRequest(PuuidRequired)
      else
        Handled(Respond(service.GetMatchIdsByPuuid(up.matchIds), ids => MatchIdsResponse(puuid.value, count, ids), IdsFailed),
                [MatchListing(puuid.value, Some(count))])
    }

    /** A history answered with 200 has one entry per listed id and says so
        in `totalCount`. */
    lemma HistoryTotalCount(summonerName: Option<string>, tag: Option<string>, countQuery: Option<string>, up: Upstream)
      requires GetPlayerMatchHistory(summonerName, tag, countQuery, up).response.status == 200
      ensures var body := GetPlayerMatchHistory(summonerName, tag, countQuery, up).response.body;
              && body.Ok?
              && body.data.totalCount == |body.data.matches| == |up.matchIds.value.GetOr([])|
              && (forall j :: 0 <= j < |body.data.matches| ==> body.data.matches[j].Id() == up.matchIds.value.GetOr([])[j])
    {
      var q := Simple.HistoryQuery(summonerName.value, tag.value, Some(HistoryQueryCount(countQuery)));
      service.HistoryEntries(q, up);
    }

    /** The id listing echoes the count it was asked for, not the one it
        requested: any `?count=n` above 100 is answered with `count: n`
        although the Riot listing was asked for 100 ids. */
    lemma MatchIdsEchoesRequestedCount(puuid: string, n: nat, up: Upstream)
      requires puuid != "" && up.matchIds.Success? && n > MaxMatchCount
      ensures var h := GetMatchIdsByPuuid(Some(puuid), Some(NatToString(n)), up);
              && h.response.status == 200 && h.response.body.data.count == n
              && h.requests == [MatchListing(puuid, Some(n))]
              && RequestedCount(Some(n)) == MaxMatchCount
    {
      ParseIntOrOfNatToString(n, false, DefaultIdsQueryCount);
    }
  }

  /** `parseInt(req.query.count) || 10` */
  function HistoryQueryCount(countQuery: Option<string>): (n: int)
    ensures n != 0
    ensures countQuery.None? ==> n == DefaultHistoryQueryCount
  {
    ParseIntOr(countQuery, false, DefaultHistoryQueryCount)
  }

  /** `parseInt(req.query.count) || 20` */
  function IdsQueryCount(countQuery: Option<string>): (n: int)
    ensures n != 0
    ensures countQuery.None? ==> n == DefaultIdsQueryCount
  {
    ParseIntOr(countQuery, false, DefaultIdsQueryCount)
  }
}
