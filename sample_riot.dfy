/** The sample backend's Riot helpers: the account lookup, the match-id
    listing (default count 1, sent as given), the latest match of a player
    and the KDA string of a player's line. The Riot replies are an
    `Upstream` value; the helpers rethrow every error unchanged. */
module SampleRiot {
  import opened Common
  import opened RiotData

  const Region: string := "asia"
  const DefaultCount: int := 1
  const NoMatchesMessage: string := "No matches found"
  const NoParticipantMessage: string := "No participant found"

  /** Reading a property of an undefined value. */
  function ReadOfUndefined(property: string): (e: Error)
    ensures e.name == "TypeError" && e.status == None
  {
    Error("TypeError", "Cannot read properties of undefined (reading '" + property + "')", None)
  }

  /** `${puuid}` for a PUUID that may be undefined. */
  function PuuidText(puuid: Option<string>): string {
    if puuid.Some? then puuid.value else "undefined"
  }

  /** The listing URL of `getMatchIdsByPuuid(puuid, count = 1)`: the count
      goes into the query exactly as given. */
  function IdsUrl(puuid: string, count: Option<int>): (url: string)
    ensures var prefix := Host(Region) + "/lol/match/v5/matches/by-puuid/" + puuid + MatchIdsQuery();
            && |url| > |prefix| && url[..|prefix|] == prefix
            && url[|prefix|..] == IntToString(count.GetOr(DefaultCount))
  {
    var prefix := Host(Region) + "/lol/match/v5/matches/by-puuid/" + puuid + MatchIdsQuery();
    var url := prefix + IntToString(count.GetOr(DefaultCount));
    assert url[..|prefix|] == prefix && url[|prefix|..] == IntToString(count.GetOr(DefaultCount));
    url
  }

  /** Without a count the sample asks for one id, as the clamping client
      does when asked for one; a count above 100 is sent unclamped, so the
      two clients then ask for different listings. */
  lemma CountDefaultsToOneUnclamped(puuid: string, c: int)
    requires c > MaxMatchCount
    ensures IdsUrl(puuid, None) == MatchIdsUrl(Region, puuid, Some(1))
    ensures IdsUrl(puuid, Some(c)) != MatchIdsUrl(Region, puuid, Some(c))
  {
    var prefix := Host(Region) + "/lol/match/v5/matches/by-puuid/" + puuid + MatchIdsQuery();
    assert RequestedCount(Some(c)) == MaxMatchCount;
    assert MatchIdsUrl(Region, puuid, Some(c)) == prefix + IntToString(MaxMatchCount);
    assert (prefix + IntToString(MaxMatchCount))[|prefix|..] == IntToString(MaxMatchCount);
    DecimalRoundTrip(c);
    DecimalRoundTrip(MaxMatchCount);
    assert IntToString(c) != IntToString(MaxMatchCount);
    assert IdsUrl(puuid, Some(c))[|prefix|..] == IntToString(c);
  }

  /** What `getLatestMatchBySummonerName` produces: the detail it returns
      or the error it throws, and the URLs it requests, in order. */
  datatype Latest = Latest(result: Result<Option<Detail>, Error>, urls: seq<string>)

  /** `getLatestMatchBySummonerName(name, tag)`: the PUUID (possibly
      undefined), a listing of one id, and the detail of the first id. */
  function LatestMatch(name: string, tag: string, up: Upstream): (o: Latest)
    ensures o.result.Success? <==> up.account.Success? && up.matchIds.Success? && up.matchIds.value.Some?
                                   && up.matchIds.value.value != [] && up.detail(0).Success?
    ensures o.result.Success? ==> o.result.value == up.detail(0).value
                                  && o.urls == [AccountUrl(Region, name, tag),
                                                IdsUrl(PuuidText(up.account.value), Some(1)),
                                                MatchDetailUrl(Region, up.matchIds.value.value[0])]
    ensures up.account.Failure? ==> o == Latest(Failure(up.account.error), [AccountUrl(Region, name, tag)])
    ensures (up.account.Success? && up.matchIds.Success? && up.matchIds.value == Some([]))
              ==> o.result == Failure(Raise(NoMatchesMessage))
    ensures (up.account.Success? && up.matchIds.Success? && up.matchIds.value.None?)
              ==> o.result == Failure(ReadOfUndefined("length"))
    ensures (o.result.Failure? && up.account.Success? && up.matchIds.Success? && up.matchIds.value.Some?
             && up.matchIds.value.value != []) ==> o.result.error == up.detail(0).error
  {
    var lookup := [AccountUrl(Region, name, tag)];
    if up.account.Failure? then Latest(Failure(up.account.error), lookup)
    else
      var listing := lookup + [IdsUrl(PuuidText(up.account.value), Some(1))];
      if up.matchIds.Failure? then Latest(Failure(up.matchIds.error), listing)
      else if up.matchIds.value.None? then Latest(Failure(ReadOfUndefined("length")), listing)
      else if up.matchIds.value.value == [] then Latest(Failure(Raise(NoMatchesMessage)), listing)
      else Latest(up.detail(0), listing + [MatchDetailUrl(Region, up.matchIds.value.value[0])])
  }

  /** The participant `getKDA` looks for: game name and tagline both equal. */
  predicate IsNamed(p: Participant, name: string, tag: string) {
    p.riotIdGameName == Some(name) && p.riotIdTagline == Some(tag)
  }

  /** `getKDA(matchDetail, name, tag)`: the KDA string of the first
      participant with that game name and tagline, `No participant found`
      when there is none, and a TypeError when the detail has no info or
      no participants. */
  function Kda(detail: Detail, name: string, tag: string): (r: Result<string, Error>)
    ensures ParticipantsOf(Some(detail)).None? ==> r.Failure? && r.error.name == "TypeError"
    ensures ParticipantsOf(Some(detail)).Some? ==>
              var ps := ParticipantsOf(Some(detail)).value;
              && (r.Success? <==> exists i :: 0 <= i < |ps| && IsNamed(ps[i], name, tag))
              && (r.Success? ==> exists i :: 0 <= i < |ps| && IsNamed(ps[i], name, tag)
                                             && (forall j :: 0 <= j < i ==> !IsNamed(ps[j], name, tag))
                                             && r.value == KdaText(ps[i].kills, ps[i].deaths, ps[i].assists))
              && (r.Failure? ==> r.error == Raise(NoParticipantMessage))
  {
    if detail.info.None? then Failure(ReadOfUndefined("participants"))
    else if detail.info.value.participants.None? then Failure(ReadOfUndefined("find"))
    else
      var ps := detail.info.value.participants.value;
      match FindFirst(ps, p => IsNamed(p, name, tag))
      case None => Failure(Raise(NoParticipantMessage))
      case Some(i) => Success(KdaText(ps[i].kills, ps[i].deaths, ps[i].assists))
  }

  /** The KDA of a player whose three counts are present reads back as
      those counts. */
  lemma KdaReadsBack(detail: Detail, name: string, tag: string, i: nat)
    requires ParticipantsOf(Some(detail)).Some?
    requires i < |ParticipantsOf(Some(detail)).value|
    requires var ps := ParticipantsOf(Some(detail)).value;
             IsNamed(ps[i], name, tag) && forall j :: 0 <= j < i ==> !IsNamed(ps[j], name, tag)
    requires var p := ParticipantsOf(Some(detail)).value[i];
             p.kills.Some? && p.deaths.Some? && p.assists.Some?
             && p.kills.value >= 0 && p.deaths.value >= 0 && p.assists.value >= 0
    ensures var p := ParticipantsOf(Some(detail)).value[i];
            var parts := Split(Kda(detail, name, tag).value, '/');
            Kda(detail, name, tag).Success?
            && |parts| == 3
            && ParseInt(parts[0], true) == p.kills
            && ParseInt(parts[1], true) == p.deaths
            && ParseInt(parts[2], true) == p.assists
  {
    var ps := ParticipantsOf(Some(detail)).value;
    var r := Kda(detail, name, tag);
    var k :| 0 <= k < |ps| && IsNamed(ps[k], name, tag)
             && (forall j :: 0 <= j < k ==> !IsNamed(ps[j], name, tag))
             && r.value == KdaText(ps[k].kills, ps[k].deaths, ps[k].assists);
    assert IsNamed(ps[k], name, tag) && IsNamed(ps[i], name, tag);
    assert k == i;
    KdaTextSplits(ps[i].kills.value, ps[i].deaths.value, ps[i].assists.value);
  }
}
