/** The other LolAPIService client of the Riot API: the same requests as
    `RiotSimpleService`, but every failure of the PUUID lookup, the listing
    and the detail fetch is rethrown under a message prefix of its own, the
    participant lookup tells "no participants" apart from "not found", and
    the season lookup is a stub that always throws. */
module RiotService {
  import opened Common
  import opened RiotData
  import Simple = RiotSimpleService

  const PuuidPrefix: string := "소환사 정보를 조회할 수 없습니다: "
  const IdsPrefix: string := "매치 기록을 조회할 수 없습니다: "
  const DetailPrefix: string := "매치 상세 정보를 조회할 수 없습니다: "
  const NoParticipantsMessage: string := "매치 참가자 정보를 찾을 수 없습니다"
  const SeasonInfoMessage: string := "시즌 정보 조회는 아직 구현되지 않았습니다"

  /** `new Error(`${prefix}${error.message}`)` */
  function Wrap(prefix: string, e: Error): (w: Error)
    ensures w.status.None? && StartsWith(w.message, prefix)
    ensures w.message[|prefix|..] == e.message
  {
    Raise(prefix + e.message)
  }

  /** The message a `Wrap` keeps is the original one, so two wrapped errors
      with the same prefix are equal exactly when the messages were. */
  lemma WrapInjective(prefix: string, e1: Error, e2: Error)
    ensures Wrap(prefix, e1) == Wrap(prefix, e2) <==> e1.message == e2.message
  {
    if Wrap(prefix, e1) == Wrap(prefix, e2) {
      assert Wrap(prefix, e1).message[|prefix|..] == Wrap(prefix, e2).message[|prefix|..];
    }
  }

  class RiotAPIService {
    const apiKey: string
    const matchRegion: string
    const baseHeaders: map<string, string>

    /** `new RiotAPIService()` */
    constructor (apiKeyEnv: Option<string>)
      ensures apiKey == (if Present(apiKeyEnv) then apiKeyEnv.value else "")
      ensures matchRegion == "asia"
      ensures "X-Riot-Token" in baseHeaders && baseHeaders["X-Riot-Token"] == apiKey
      ensures "User-Agent" in baseHeaders && baseHeaders["User-Agent"] == Simple.UserAgent
    {
      var key := if Present(apiKeyEnv) then apiKeyEnv.value else "";
      apiKey := key;
      matchRegion := "asia";
      baseHeaders := map[
        "Accept-Language" := "ko-KR,ko;q=0.9,en-US;q=0.8,en;q=0.7",
        "Accept-Charset" := "application/x-www-form-urlencoded; charset=UTF-8",
        "Origin" := "https://developer.riotgames.com",
        "X-Riot-Token" := key,
        "User-Agent" := Simple.UserAgent];
    }

    /** The URL the service sends a request to. */
    function UrlOf(req: Request): string {
      RequestUrl(matchRegion, req)
    }

    /** `getPuuidBySummonerName`: any failure, the classified request error
        or the missing `puuid`, is rethrown under the PUUID prefix. */
    function GetPuuidBySummonerName(reply: Reply<string>): (r: Result<string, Error>)
      ensures r.Success? <==> reply.Success? && Present(reply.value)
      ensures r.Success? ==> r.value == reply.value.value
      ensures r.Failure? ==> r.error == Wrap(PuuidPrefix, if reply.Failure? then Classify(reply.error) else Raise(Simple.NoPuuidMessage))
    {
      var res := Settle(reply);
      if res.Failure? then Failure(Wrap(PuuidPrefix, res.error))
      else if !Present(res.value) then Failure(Wrap(PuuidPrefix, Raise(Simple.NoPuuidMessage)))
      else Success(res.value.value)
    }

    /** `getMatchIdsByPuuid`: the listed ids, `[]` for an absent body; a
        failure is rethrown under the listing prefix. */
    function GetMatchIdsByPuuid(reply: Reply<seq<string>>): (r: Result<seq<string>, Error>)
      ensures reply.Success? ==> r == Success(reply.value.GetOr([]))
      ensures reply.Failure? ==> r == Failure(Wrap(IdsPrefix, Classify(reply.error)))
    {
      var res := Settle(reply);
      if res.Success? then Success(res.value.GetOr([])) else Failure(Wrap(IdsPrefix, res.error))
    }

    /** `getMatchDetail`: the body as it came; a failure is rethrown under
        the detail prefix. */
    function GetMatchDetail(reply: Reply<Detail>): (r: Result<Option<Detail>, Error>)
      ensures reply.Success? ==> r == Success(reply.value)
      ensures reply.Failure? ==> r == Failure(Wrap(DetailPrefix, Classify(reply.error)))
    {
      var res := Settle(reply);
      if res.Success? then Success(res.value) else Failure(Wrap(DetailPrefix, res.error))
    }

    /** `getPlayerStats`: a detail without participants is one error, a
        participant list without the player another; otherwise the line of
        the first participant the name and tag select. */
    function GetPlayerStats(detail: Option<Detail>, name: string, tag: string): (r: Result<PlayerStats, Error>)
      ensures ParticipantsOf(detail).None? ==> r == Failure(Raise(NoParticipantsMessage))
      ensures r.Success? <==> ParticipantsOf(detail).Some?
                              && exists i :: 0 <= i < |ParticipantsOf(detail).value|
                                             && Simple.IsPlayer(ParticipantsOf(detail).value[i], name, tag)
      ensures r.Success? ==> exists i :: 0 <= i < |ParticipantsOf(detail).value|
                                         && Simple.IsPlayer(ParticipantsOf(detail).value[i], name, tag)
                                         && (forall j :: 0 <= j < i ==> !Simple.IsPlayer(ParticipantsOf(detail).value[j], name, tag))
                                         && r.value == StatsOf(ParticipantsOf(detail).value[i])
      ensures r.Failure? && ParticipantsOf(detail).Some? ==> r.error == Raise(Simple.NoParticipantMessage)
    {
      var ps := ParticipantsOf(detail);
      if ps.None? then Failure(Raise(NoParticipantsMessage))
      else
        match FindFirst(ps.value, p => Simple.IsPlayer(p, name, tag))
        case None => Failure(Raise(Simple.NoParticipantMessage))
        case Some(i) => Success(StatsOf(ps.value[i]))
    }

    /** `getLatestMatchBySummonerName`: errors of the steps pass through as
        the steps threw them; an empty listing is its own error. */
    function LatestMatch(name: string, tag: string, up: Upstream): (o: Simple.Run<Option<Detail>>)
      ensures o.result.Success? <==> up.account.Success? && Present(up.account.value)
                                     && up.matchIds.Success? && up.matchIds.value.GetOr([]) != []
                                     && up.detail(0).Success?
      ensures o.result.Success? ==> o.result.value == up.detail(0).value
      ensures up.account.Failure? ==> o.result == Failure(Wrap(PuuidPrefix, Classify(up.account.error)))
      ensures up.account.Success? && !Present(up.account.value) ==> o.result == Failure(Wrap(PuuidPrefix, Raise(Simple.NoPuuidMessage)))
      ensures (up.account.Success? && Present(up.account.value) && up.matchIds.Failure?)
              ==> o.result == Failure(Wrap(IdsPrefix, Classify(up.matchIds.error)))
      ensures (up.account.Success? && Present(up.account.value) && up.matchIds.Success?
               && up.matchIds.value.GetOr([]) == []) ==> o.result == Failure(Raise(Simple.NoMatchesMessage))
      ensures (up.account.Success? && Present(up.account.value) && up.matchIds.Success?
               && up.matchIds.value.GetOr([]) != [] && up.detail(0).Failure?)
              ==> o.result == Failure(Wrap(DetailPrefix, Classify(up.detail(0).error)))
      ensures |o.requests| >= 1 && o.requests[0] == AccountLookup(name, tag)
      ensures up.account.Success? && Present(up.account.value) ==>
                |o.requests| >= 2 && o.requests[1] == MatchListing(up.account.value.value, Some(Simple.LatestCount))
    ensures !(up.account.Success? && Present(up.account.value)) ==> |o.requests| == 1
    ensures (up.account.Success? && Present(up.account.value) && up.matchIds.Success? && up.matchIds.value.GetOr([]) != [])
            <==> |o.requests| == 3
    ensures |o.requests| == 3 ==> o.requests[2] == DetailFetch(up.matchIds.value.GetOr([])[0])
    {
      var lookup := [AccountLookup(name, tag)];
      var puuid := GetPuuidBySummonerName(up.account);
      if puuid.Failure? then Simple.Run(Failure(puuid.error), lookup)
      else
        var listing := lookup + [MatchListing(puuid.value, Some(Simple.LatestCount))];
        var ids := GetMatchIdsByPuuid(up.matchIds);
        if ids.Failure? then Simple.Run(Failure(ids.error), listing)
        else if |ids.value| == 0 then Simple.Run(Failure(Raise(Simple.NoMatchesMessage)), listing)
        else Simple.Run(GetMatchDetail(up.detail(0)), listing + [DetailFetch(ids.value[0])])
    }

    /** The entry of the history for one id: the player's line, or the
        message of the (wrapped) fetch error or of the participant lookup. */
    function HistoryItemOf(name: string, tag: string, id: string, reply: Reply<Detail>): (it: HistoryItem)
      ensures it.Id() == id
      ensures it.Played? <==> reply.Success? && GetPlayerStats(reply.value, name, tag).Success?
      ensures it.Played? ==> it.stats == GetPlayerStats(reply.value, name, tag).value
                             && it.gameStartTimestamp == GameStartOf(reply.value)
      ensures reply.Failure? ==> it == Errored(id, DetailPrefix + Classify(reply.error).message)
      ensures reply.Success? && it.Errored? ==>
                it == Errored(id, if ParticipantsOf(reply.value).None? then NoParticipantsMessage else Simple.NoParticipantMessage)
    {
      var fetched := GetMatchDetail(reply);
      if fetched.Failure? then Errored(id, fetched.error.message)
      else
        match GetPlayerStats(fetched.value, name, tag)
        case Failure(e) => Errored(id, e.message)
        case Success(stats) =>
          var info := InfoOf(fetched.value).value;
          Played(id, info.gameStartTimestamp, info.gameDuration, info.queueId, stats)
    }

    /** The entries for a list of ids, the j-th answered by `detail(j)`. */
    function HistoryItems(name: string, tag: string, ids: seq<string>, detail: nat -> Reply<Detail>): (items: seq<HistoryItem>)
      ensures |items| == |ids|
      ensures forall j :: 0 <= j < |ids| ==> items[j] == HistoryItemOf(name, tag, ids[j], detail(j))
    {
      seq(|ids|, j requires 0 <= j < |ids| => HistoryItemOf(name, tag, ids[j], detail(j)))
    }

    lemma HistoryItemsSnoc(name: string, tag: string, ids: seq<string>, detail: nat -> Reply<Detail>, i: nat)
      requires i < |ids|
      ensures HistoryItems(name, tag, ids[..i + 1], detail)
              == HistoryItems(name, tag, ids[..i], detail) + [HistoryItemOf(name, tag, ids[i], detail(i))]
    {
      var a := HistoryItems(name, tag, ids[..i + 1], detail);
      var b := HistoryItems(name, tag, ids[..i], detail) + [HistoryItemOf(name, tag, ids[i], detail(i))];
      forall j | 0 <= j < |a|
        ensures a[j] == b[j]
      {
        if j < i {
          assert ids[..i + 1][j] == ids[..i][j];
        }
      }
    }

    /** `getPlayerMatchHistory`: one run of the service on a query. */
    function History(q: Simple.HistoryQuery, up: Upstream): (o: Simple.Run<seq<HistoryItem>>)
      ensures o.result.Success? <==> up.account.Success? && Present(up.account.value) && up.matchIds.Success?
      ensures o.result.Success? ==> o.result.value == HistoryItems(q.summonerName, q.tag, up.matchIds.value.GetOr([]), up.detail)
      ensures o.result.Failure? ==> StartsWith(o.result.error.message, PuuidPrefix) || StartsWith(o.result.error.message, IdsPrefix)
      ensures |o.requests| >= 1 && o.requests[0] == AccountLookup(q.summonerName, q.tag)
      ensures up.account.Success? && Present(up.account.value) ==>
                |o.requests| >= 2 && o.requests[1] == MatchListing(up.account.value.value, Some(Simple.HistoryCount(q)))
      ensures o.result.Success? ==> o.requests[2..] == Simple.DetailFetches(up.matchIds.value.GetOr([]))
    {
      var lookup := [AccountLookup(q.summonerName, q.tag)];
      var puuid := GetPuuidBySummonerName(up.account);
      if puuid.Failure? then Simple.Run(Failure(puuid.error), lookup)
      else
        var listing := lookup + [MatchListing(puuid.value, Some(Simple.HistoryCount(q)))];
        var ids := GetMatchIdsByPuuid(up.matchIds);
        if ids.Failure? then Simple.Run(Failure(ids.error), listing)
        else Simple.Run(Success(HistoryItems(q.summonerName, q.tag, ids.value, up.detail)), listing + Simple.DetailFetches(ids.value))
    }

    /** `getPlayerMatchHistory(dto)`: the loop over the listed ids, pushing
        one entry per id whatever happens to its match. */
    method GetPlayerMatchHistory(q: Simple.HistoryQuery, up: Upstream) returns (r: Result<seq<HistoryItem>, Error>, sent: seq<Request>)
      ensures Simple.Run(r, sent) == History(q, up)
    {
      sent := [AccountLookup(q.summonerName, q.tag)];
      var puuid := GetPuuidBySummonerName(up.account);
      if puuid.Failure? {
        return Failure(puuid.error), sent;
      }
      sent := sent + [MatchListing(puuid.value, Some(Simple.HistoryCount(q)))];
      var listed := GetMatchIdsByPuuid(up.matchIds);
      if listed.Failure? {
        return Failure(listed.error), sent;
      }
      var ids := listed.value;
      ghost var listing := sent;
      var results: seq<HistoryItem> := [];
      for i := 0 to |ids|
        invariant results == HistoryItems(q.summonerName, q.tag, ids[..i], up.detail)
        invariant sent == listing + Simple.DetailFetches(ids[..i])
      {
        sent := sent + [DetailFetch(ids[i])];
        var item: HistoryItem;
        var fetched := GetMatchDetail(up.detail(i));
        if fetched.Failure? {
          item := Errored(ids[i], fetched.error.message);
        } else {
          var stats := GetPlayerStats(fetched.value, q.summonerName, q.tag);
          if stats.Failure? {
            item := Errored(ids[i], stats.error.message);
          } else {
            var info := InfoOf(fetched.value).value;
            item := Played(ids[i], info.gameStartTimestamp, info.gameDuration, info.queueId, stats.value);
          }
        }
        assert ids[..i + 1] == ids[..i] + [ids[i]];
        assert item == HistoryItemOf(q.summonerName, q.tag, ids[i], up.detail(i));
        HistoryItemsSnoc(q.summonerName, q.tag, ids, up.detail, i);
        results := results + [item];
      }
      assert ids[..|ids|] == ids;
      r := Success(results);
    }

    /** A history that gets past the listing has exactly one entry per
        listed id, in order; a match whose fetch failed is recorded under the
        detail prefix, never thrown. */
    lemma HistoryEntries(q: Simple.HistoryQuery, up: Upstream)
      requires History(q, up).result.Success?
      ensures var ids := up.matchIds.value.GetOr([]);
              var items := History(q, up).result.value;
              && |items| == |ids|
              && (forall j :: 0 <= j < |ids| ==> items[j].Id() == ids[j])
              && (forall j :: 0 <= j < |ids| && up.detail(j).Failure? ==>
                    items[j].Errored? && StartsWith(items[j].error, DetailPrefix))
              && (forall j :: 0 <= j < |ids| && items[j].Played? ==>
                    exists i :: 0 <= i < |ParticipantsOf(up.detail(j).value).value|
                                && Simple.IsPlayer(ParticipantsOf(up.detail(j).value).value[i], q.summonerName, q.tag)
                                && items[j].stats == StatsOf(ParticipantsOf(up.detail(j).value).value[i]))
    {
      var ids := up.matchIds.value.GetOr([]);
      var items := History(q, up).result.value;
      forall j | 0 <= j < |ids|
        ensures items[j].Id() == ids[j]
        ensures up.detail(j).Failure? ==> items[j].Errored? && StartsWith(items[j].error, DetailPrefix)
        ensures items[j].Played? ==>
                  exists i :: 0 <= i < |ParticipantsOf(up.detail(j).value).value|
                              && Simple.IsPlayer(ParticipantsOf(up.detail(j).value).value[i], q.summonerName, q.tag)
                              && items[j].stats == StatsOf(ParticipantsOf(up.detail(j).value).value[i])
      {
        assert items[j] == HistoryItemOf(q.summonerName, q.tag, ids[j], up.detail(j));
      }
    }

    /** `getSummonerSeasonInfo`: not implemented; every call throws. */
    function GetSummonerSeasonInfo(name: string, tag: string): (r: Result<(), Error>)
      ensures r.Failure? && r.error.message == SeasonInfoMessage
    {
      Failure(Raise(SeasonInfoMessage))
    }
  }
}
