/** The LolAPIService client of the Riot API that its controller uses: the
    PUUID lookup, the match-id listing, the latest match, the player's line
    of a match and the match history that records per-match failures. The
    Riot replies of one call are an `Upstream` value. */
module RiotSimpleService {
  import opened Common
  import opened RiotData

  const UserAgent: string := "FIT.LOL/LolAPIService v1.0.2"
  const TimeoutMs: int := 10000
  const NoPuuidMessage: string := "PUUID를 찾을 수 없습니다"
  const NoMatchesMessage: string := "매치 기록이 없습니다"
  const NoParticipantMessage: string := "해당 소환사의 참가자 정보를 찾을 수 없습니다"
  const DefaultHistoryCount: int := 10
  const LatestCount: int := 1

  /** The `{ summonerName, tag, count }` the history is asked for. */
  datatype HistoryQuery = HistoryQuery(summonerName: string, tag: string, count: Option<int>)

  /** `count = 10` when the query gives none. */
  function HistoryCount(q: HistoryQuery): int {
    q.count.GetOr(DefaultHistoryCount)
  }

  /** What one service call produces: its result (or the error it throws)
      and the requests it sends, in order. */
  datatype Run<T> = Run(result: Result<T, Error>, requests: seq<Request>)

  /** The participant a name and tag select: both `riotIdName` and
      `riotIdTagline` are present and equal. */
  predicate IsPlayer(p: Participant, name: string, tag: string) {
    p.riotIdName == Some(name) && p.riotIdTagline == Some(tag)
  }

  /** One detail request per id, in order. */
  function DetailFetches(ids: seq<string>): (rs: seq<Request>)
    ensures |rs| == |ids|
    ensures forall j :: 0 <= j < |ids| ==> rs[j] == DetailFetch(ids[j])
  {
    seq(|ids|, j requires 0 <= j < |ids| => DetailFetch(ids[j]))
  }

  class RiotAPIService {
    const apiKey: string
    const matchRegion: string
    const baseHeaders: map<string, string>

    /** `new RiotAPIService()`: the key from RIOT_API_KEY (empty when unset)
        and the Riot headers. */
    constructor (apiKeyEnv: Option<string>)
      ensures apiKey == (if Present(apiKeyEnv) then apiKeyEnv.value else "")
      ensures matchRegion == "asia"
      ensures "X-Riot-Token" in baseHeaders && baseHeaders["X-Riot-Token"] == apiKey
      ensures "User-Agent" in baseHeaders && baseHeaders["User-Agent"] == UserAgent
    {
      var key := if Present(apiKeyEnv) then apiKeyEnv.value else "";
      apiKey := key;
      matchRegion := "asia";
      baseHeaders := map[
        "Accept-Language" := "ko-KR,ko;q=0.9,en-US;q=0.8,en;q=0.7",
        "Accept-Charset" := "application/x-www-form-urlencoded; charset=UTF-8",
        "Origin" := "https://developer.riotgames.com",
        "X-Riot-Token" := key,
        "User-Agent" := UserAgent];
    }

    /** The URL the service sends a request to. */
    function UrlOf(req: Request): string {
      RequestUrl(matchRegion, req)
    }

    /** `getPuuidBySummonerName`: the `puuid` of the account body; a body
        without one (or with an empty one) is an error, and a failed request
        is classified and thrown. */
    function GetPuuidBySummonerName(reply: Reply<string>): (r: Result<string, Error>)
      ensures r.Success? <==> reply.Success? && Present(reply.value)
      ensures r.Success? ==> r.value == reply.value.value
      ensures reply.Failure? ==> r == Failure(Classify(reply.error))
      ensures reply.Success? && !Present(reply.value) ==> r == Failure(Raise(NoPuuidMessage))
    {
      var res := Settle(reply);
      if res.Failure? then Failure(res.error)
      else if !Present(res.value) then Failure(Raise(NoPuuidMessage))
      else Success(res.value.value)
    }

    /** `getMatchIdsByPuuid`: the listed ids, `[]` for an absent body. */
    function GetMatchIdsByPuuid(reply: Reply<seq<string>>): (r: Result<seq<string>, Error>)
      ensures reply.Success? ==> r == Success(reply.value.GetOr([]))
      ensures reply.Failure? ==> r == Failure(Classify(reply.error))
    {
      var res := Settle(reply);
      if res.Success? then Success(res.value.GetOr([])) else Failure(res.error)
    }

    /** `getMatchDetail`: the body as it came (possibly absent). */
    function GetMatchDetail(reply: Reply<Detail>): (r: Result<Option<Detail>, Error>)
      ensures reply.Success? ==> r == Success(reply.value)
      ensures reply.Failure? ==> r == Failure(Classify(reply.error))
    {
      var res := Settle(reply);
      if res.Success? then Success(res.value) else Failure(res.error)
    }

    /** `getPlayerStats`: the line of the first participant the name and
        tag select; an error when there is none, also when the detail has
        no participants at all. */
    function GetPlayerStats(detail: Option<Detail>, name: string, tag: string): (r: Result<PlayerStats, Error>)
      ensures r.Success? <==> ParticipantsOf(detail).Some?
                              && exists i :: 0 <= i < |ParticipantsOf(detail).value|
                                             && IsPlayer(ParticipantsOf(detail).value[i], name, tag)
      ensures r.Success? ==> exists i :: 0 <= i < |ParticipantsOf(detail).value|
                                         && IsPlayer(ParticipantsOf(detail).value[i], name, tag)
                                         && (forall j :: 0 <= j < i ==> !IsPlayer(ParticipantsOf(detail).value[j], name, tag))
                                         && r.value == StatsOf(ParticipantsOf(detail).value[i])
      ensures r.Failure? ==> r.error == Raise(NoParticipantMessage)
    {
      var ps := ParticipantsOf(detail);
      if ps.None? then Failure(Raise(NoParticipantMessage))
      else
        match FindFirst(ps.value, p => IsPlayer(p, name, tag))
        case None => Failure(Raise(NoParticipantMessage))
        case Some(i) => Success(StatsOf(ps.value[i]))
    }

    /** `getLatestMatchBySummonerName`: the PUUID, a listing of one id, and
        the detail of that id; no id at all is an error. */
    function LatestMatch(name: string, tag: string, up: Upstream): (o: Run<Option<Detail>>)
      ensures o.result.Success? <==> up.account.Success? && Present(up.account.value)
                                     && up.matchIds.Success? && up.matchIds.value.GetOr([]) != []
                                     && up.detail(0).Success?
      ensures o.result.Success? ==> o.result.value == up.detail(0).value
      ensures (up.account.Success? && Present(up.account.value) && up.matchIds.Success?
               && up.matchIds.value.GetOr([]) == []) ==> o.result == Failure(Raise(NoMatchesMessage))
      ensures |o.requests| >= 1 && o.requests[0] == AccountLookup(name, tag)
      ensures !(up.account.Success? && Present(up.account.value)) ==> o.requests == [AccountLookup(name, tag)]
      ensures up.account.Success? && Present(up.account.value) ==>
                |o.requests| >= 2 && o.requests[1] == MatchListing(up.account.value.value, Some(LatestCount))
      ensures o.result.Success? ==> o.requests == [AccountLookup(name, tag),
                                                   MatchListing(up.account.value.value, Some(LatestCount)),
                                                   DetailFetch(up.matchIds.value.value[0])]
    {
      var lookup := [AccountLookup(name, tag)];
      var puuid := GetPuuidBySummonerName(up.account);
      if puuid.Failure? then Run(Failure(puuid.error), lookup)
      else
        var listing := lookup + [MatchListing(puuid.value, Some(LatestCount))];
        var ids := GetMatchIdsByPuuid(up.matchIds);
        if ids.Failure? then Run(Failure(ids.error), listing)
        else if |ids.value| == 0 then Run(Failure(Raise(NoMatchesMessage)), listing)
        else Run(GetMatchDetail(up.detail(0)), listing + [DetailFetch(ids.value[0])])
    }

    /** The entry of the history for one id: the player's line with the
        match's start, duration and queue, or the message of the error the
        fetch or the participant lookup threw. */
    function HistoryItemOf(name: string, tag: string, id: string, reply: Reply<Detail>): (it: HistoryItem)
      ensures it.Id() == id
      ensures it.Played? <==> reply.Success? && GetPlayerStats(reply.value, name, tag).Success?
      ensures it.Played? ==> it.stats == GetPlayerStats(reply.value, name, tag).value
                             && it.gameStartTimestamp == GameStartOf(reply.value)
      ensures reply.Failure? ==> it == Errored(id, Classify(reply.error).message)
      ensures reply.Success? && it.Errored? ==> it == Errored(id, NoParticipantMessage)
    {
      var fetched := GetMatchDetail(reply);
      if fetched.Failure? then Errored(id, fetched.error.message)
      else
        match GetPlayerStats(fetched.value, name, tag)
        case Failure(e) => Errored(id, e.message)
        case Success(stats) =>
          var info := InfoOf(fetched.value).value;
          Played(id, info.gameStartTimestamp, info.gameDuration, info.queueId, stats)
    }

    /** The entries for a list of ids, the j-th answered by `detail(j)`. */
    function HistoryItems(name: string, tag: string, ids: seq<string>, detail: nat -> Reply<Detail>): (items: seq<HistoryItem>)
      ensures |items| == |ids|
      ensures forall j :: 0 <= j < |ids| ==> items[j] == HistoryItemOf(name, tag, ids[j], detail(j))
    {
      seq(|ids|, j requires 0 <= j < |ids| => HistoryItemOf(name, tag, ids[j], detail(j)))
    }

    lemma HistoryItemsSnoc(name: string, tag: string, ids: seq<string>, detail: nat -> Reply<Detail>, i: nat)
      requires i < |ids|
      ensures HistoryItems(name, tag, ids[..i + 1], detail)
              == HistoryItems(name, tag, ids[..i], detail) + [HistoryItemOf(name, tag, ids[i], detail(i))]
    {
      var a := HistoryItems(name, tag, ids[..i + 1], detail);
      var b := HistoryItems(name, tag, ids[..i], detail) + [HistoryItemOf(name, tag, ids[i], detail(i))];
      forall j | 0 <= j < |a|
        ensures a[j] == b[j]
      {
        if j < i {
          assert ids[..i + 1][j] == ids[..i][j];
        }
      }
    }

    /** `getPlayerMatchHistory`: one run of the service on a query. */
    function History(q: HistoryQuery, up: Upstream): (o: Run<seq<HistoryItem>>)
      ensures o.result.Success? <==> up.account.Success? && Present(up.account.value) && up.matchIds.Success?
      ensures o.result.Success? ==> o.result.value == HistoryItems(q.summonerName, q.tag, up.matchIds.value.GetOr([]), up.detail)
      ensures |o.requests| >= 1 && o.requests[0] == AccountLookup(q.summonerName, q.tag)
      ensures !(up.account.Success? && Present(up.account.value)) ==> o.requests == [AccountLookup(q.summonerName, q.tag)]
      ensures up.account.Success? && Present(up.account.value) ==>
                |o.requests| >= 2 && o.requests[1] == MatchListing(up.account.value.value, Some(HistoryCount(q)))
      ensures o.result.Success? ==> o.requests[2..] == DetailFetches(up.matchIds.value.GetOr([]))
    {
      var lookup := [AccountLookup(q.summonerName, q.tag)];
      var puuid := GetPuuidBySummonerName(up.account);
      if puuid.Failure? then Run(Failure(puuid.error), lookup)
      else
        var listing := lookup + [MatchListing(puuid.value, Some(HistoryCount(q)))];
        var ids := GetMatchIdsByPuuid(up.matchIds);
        if ids.Failure? then Run(Failure(ids.error), listing)
        else Run(Success(HistoryItems(q.summonerName, q.tag, ids.value, up.detail)), listing + DetailFetches(ids.value))
    }

    /** `getPlayerMatchHistory(dto)`: the loop over the listed ids, pushing
        one entry per id whatever happens to its match. */
    method GetPlayerMatchHistory(q: HistoryQuery, up: Upstream) returns (r: Result<seq<HistoryItem>, Error>, sent: seq<Request>)
      ensures Run(r, sent) == History(q, up)
    {
      sent := [AccountLookup(q.summonerName, q.tag)];
      var puuid := GetPuuidBySummonerName(up.account);
      if puuid.Failure? {
        return Failure(puuid.error), sent;
      }
      sent := sent + [MatchListing(puuid.value, Some(HistoryCount(q)))];
      var listed := GetMatchIdsByPuuid(up.matchIds);
      if listed.Failure? {
        return Failure(listed.error), sent;
      }
      var ids := listed.value;
      ghost var listing := sent;
      var items: seq<HistoryItem> := [];
      for i := 0 to |ids|
        invariant items == HistoryItems(q.summonerName, q.tag, ids[..i], up.detail)
        invariant sent == listing + DetailFetches(ids[..i])
      {
        sent := sent + [DetailFetch(ids[i])];
        var item: HistoryItem;
        var fetched := GetMatchDetail(up.detail(i));
        if fetched.Failure? {
          item := Errored(ids[i], fetched.error.message);
        } else {
          var stats := GetPlayerStats(fetched.value, q.summonerName, q.tag);
          if stats.Failure? {
            item := Errored(ids[i], stats.error.message);
          } else {
            var info := InfoOf(fetched.value).value;
            item := Played(ids[i], info.gameStartTimestamp, info.gameDuration, info.queueId, stats.value);
          }
        }
        assert ids[..i + 1] == ids[..i] + [ids[i]];
        assert item == HistoryItemOf(q.summonerName, q.tag, ids[i], up.detail(i));
        HistoryItemsSnoc(q.summonerName, q.tag, ids, up.detail, i);
        items := items + [item];
      }
      assert ids[..|ids|] == ids;
      r := Success(items);
    }

    /** A history that gets past the listing never fails: it has one entry
        per listed id, in order, each either the player's line of that match
        or the error that match raised. */
    lemma HistoryEntries(q: HistoryQuery, up: Upstream)
      requires History(q, up).result.Success?
      ensures var ids := up.matchIds.value.GetOr([]);
              var items := History(q, up).result.value;
              && |items| == |ids|
              && (forall j :: 0 <= j < |ids| ==> items[j].Id() == ids[j])
              && (forall j :: 0 <= j < |ids| && items[j].Played? ==>
                    up.detail(j).Success?
                    && exists i :: 0 <= i < |ParticipantsOf(up.detail(j).value).value|
                                   && IsPlayer(ParticipantsOf(up.detail(j).value).value[i], q.summonerName, q.tag)
                                   && items[j].stats == StatsOf(ParticipantsOf(up.detail(j).value).value[i]))
              && (forall j :: 0 <= j < |ids| && items[j].Errored? ==>
                    items[j].error == (if up.detail(j).Failure? then Classify(up.detail(j).error).message
                                       else NoParticipantMessage))
    {
      var ids := up.matchIds.value.GetOr([]);
      var items := History(q, up).result.value;
      forall j | 0 <= j < |ids|
        ensures items[j].Id() == ids[j]
        ensures items[j].Played? ==>
                  up.detail(j).Success?
                  && exists i :: 0 <= i < |ParticipantsOf(up.detail(j).value).value|
                                 && IsPlayer(ParticipantsOf(up.detail(j).value).value[i], q.summonerName, q.tag)
                                 && items[j].stats == StatsOf(ParticipantsOf(up.detail(j).value).value[i])
        ensures items[j].Errored? ==>
                  items[j].error == (if up.detail(j).Failure? then Classify(up.detail(j).error).message
                                     else NoParticipantMessage)
      {
        assert items[j] == HistoryItemOf(q.summonerName, q.tag, ids[j], up.detail(j));
      }
    }
  }
}
