/** The persistence service of RiotDataService: the summoner, match,
    match-participant and ingestion-cursor tables, and the three upserts the
    ingestion writes them with. Each table is a map from its unique key to
    its row; `Tables` is the state the upserts are specified on, and `Db`
    is the store they update in place. */
module Persist {
  import opened Common
  import opened RiotData

  datatype Summoner = Summoner(puuid: string, summonerName: Option<string>)

  datatype MatchRow = MatchRow(
    matchId: string,
    gameStartTimestamp: Option<int>,
    gameDuration: Option<int>,
    queueId: Option<int>,
    payload: Detail)

  datatype ParticipantRow = ParticipantRow(
    matchId: string,
    puuid: string,
    riotIdName: Option<string>,
    riotIdTagline: Option<string>,
    kills: Option<int>,
    deaths: Option<int>,
    assists: Option<int>,
    kda: string,
    championName: Option<string>,
    win: Option<bool>,
    totalDamageDealtToChampions: Option<int>,
    goldEarned: Option<int>,
    totalMinionsKilled: Option<int>,
    visionScore: Option<int>,
    teamPosition: Option<string>,
    lane: Option<string>)

  datatype Cursor = Cursor(
    puuid: string,
    lastMatchId: Option<string>,
    lastMatchTimestamp: Option<int>,
    lastFetchedCount: int)

  /** A participant row is keyed by its match and its player. */
  type ParticipantKey = (string, string)

  datatype Tables = Tables(
    summoners: map<string, Summoner>,
    matches: map<string, MatchRow>,
    participants: map<ParticipantKey, ParticipantRow>,
    cursors: map<string, Cursor>)

  const EmptyTables: Tables := Tables(map[], map[], map[], map[])

  const MissingMatchIdMessage: string := "matchId missing in detail"

  /** Every row sits under its own key, and every participant row belongs
      to a stored match. */
  ghost predicate Consistent(t: Tables) {
    && (forall k :: k in t.summoners ==> t.summoners[k].puuid == k)
    && (forall k :: k in t.matches ==> t.matches[k].matchId == k)
    && (forall k :: k in t.participants ==>
          k.0 in t.matches && t.participants[k].matchId == k.0 && t.participants[k].puuid == k.1)
    && (forall k :: k in t.cursors ==> t.cursors[k].puuid == k)
  }

  // ---------------------------------------------------------------------
  // Summoners

  /** `upsertSummonerByPuuid(puuid, fields)`; `fields` is the optional
      `summonerName`, None when the caller passes no fields. */
  function ApplyUpsertSummoner(t: Tables, puuid: string, summonerName: Option<string>): (r: Tables)
    ensures puuid in r.summoners && r.summoners[puuid].puuid == puuid
    ensures summonerName.Some? ==> r.summoners[puuid].summonerName == summonerName
    ensures summonerName.None? && puuid in t.summoners ==> r.summoners[puuid].summonerName == t.summoners[puuid].summonerName
    ensures summonerName.None? && puuid !in t.summoners ==> r.summoners[puuid].summonerName == None
    ensures forall k :: k != puuid ==> (k in r.summoners <==> k in t.summoners)
    ensures forall k :: k in t.summoners && k != puuid ==> r.summoners[k] == t.summoners[k]
    ensures r.matches == t.matches && r.participants == t.participants && r.cursors == t.cursors
  {
    var row :=
      if puuid in t.summoners then
        Summoner(puuid, if summonerName.Some? then summonerName else t.summoners[puuid].summonerName)
      else Summoner(puuid, summonerName);
    t.(summoners := t.summoners[puuid := row])
  }

  // ---------------------------------------------------------------------
  // Matches and their participants

  /** The string a template literal makes of a possibly-undefined string. */
  function ShowStr(s: Option<string>): string {
    if s.Some? then s.value else "undefined"
  }

  /** `p.puuid || `${p.riotIdName}#${p.riotIdTagline}``: the player part of
      a participant row's key. */
  function PlayerKey(p: Participant): (k: string)
    ensures Present(p.puuid) ==> k == p.puuid.value
    ensures !Present(p.puuid) ==> k == ShowStr(p.riotIdName) + "#" + ShowStr(p.riotIdTagline)
  {
    if Present(p.puuid) then p.puuid.value
    else ShowStr(p.riotIdName) + "#" + ShowStr(p.riotIdTagline)
  }

  /** `${p.kills ?? 0}/${p.deaths ?? 0}/${p.assists ?? 0}` */
  function StoredKda(p: Participant): string {
    KdaText(Some(p.kills.GetOr(0)), Some(p.deaths.GetOr(0)), Some(p.assists.GetOr(0)))
  }

  /** The row a participant is stored as: strings through `|| null`,
      numbers and `win` through `?? null`. */
  function ParticipantRowOf(matchId: string, p: Participant): (row: ParticipantRow)
    ensures row.matchId == matchId && row.puuid == PlayerKey(p)
    ensures row.kills == p.kills && row.deaths == p.deaths && row.assists == p.assists
    ensures row.riotIdName == OrNull(p.riotIdName) && row.riotIdTagline == OrNull(p.riotIdTagline)
    ensures row.championName == OrNull(p.championName)
    ensures row.teamPosition == OrNull(p.teamPosition) && row.lane == OrNull(p.lane)
    ensures row.kda == StoredKda(p) && row.win == p.win
    ensures row.totalDamageDealtToChampions == p.totalDamageDealtToChampions && row.goldEarned == p.goldEarned
    ensures row.totalMinionsKilled == p.totalMinionsKilled && row.visionScore == p.visionScore
  {
    ParticipantRow(matchId, PlayerKey(p), OrNull(p.riotIdName), OrNull(p.riotIdTagline),
                   p.kills, p.deaths, p.assists, StoredKda(p), OrNull(p.championName), p.win,
                   p.totalDamageDealtToChampions, p.goldEarned, p.totalMinionsKilled,
                   p.visionScore, OrNull(p.teamPosition), OrNull(p.lane))
  }

  /** The stored KDA always reads back, count by count, as the participant's
      kills, deaths and assists, a missing count reading as 0. */
  lemma StoredKdaReadsBack(p: Participant)
    requires p.kills.GetOr(0) >= 0 && p.deaths.GetOr(0) >= 0 && p.assists.GetOr(0) >= 0
    ensures var parts := Split(StoredKda(p), '/');
            |parts| == 3
            && ParseInt(parts[0], true) == Some(p.kills.GetOr(0))
            && ParseInt(parts[1], true) == Some(p.deaths.GetOr(0))
            && ParseInt(parts[2], true) == Some(p.assists.GetOr(0))
  {
    KdaTextSplits(p.kills.GetOr(0), p.deaths.GetOr(0), p.assists.GetOr(0));
  }

  /** The participant upserts of one match, in order: each one writes the
      row of its key, so of two participants with the same key the later wins. */
  function ApplyParticipants(m: map<ParticipantKey, ParticipantRow>, matchId: string, ps: seq<Participant>): map<ParticipantKey, ParticipantRow>
  {
    if ps == [] then m
    else
      var last := ps[|ps| - 1];
      ApplyParticipants(m, matchId, ps[..|ps| - 1])[(matchId, PlayerKey(last)) := ParticipantRowOf(matchId, last)]
  }

  /** The keys the upserts of `ps` write. */
  ghost function WrittenKeys(matchId: string, ps: seq<Participant>): set<ParticipantKey> {
    set j | 0 <= j < |ps| :: (matchId, PlayerKey(ps[j]))
  }

  /** The participant upserts write exactly the rows of the match's players
      and nothing else: every key they do not write keeps its row. */
  lemma {:induction false} ApplyParticipantsFrame(m: map<ParticipantKey, ParticipantRow>, matchId: string, ps: seq<Participant>)
    ensures ApplyParticipants(m, matchId, ps).Keys == m.Keys + WrittenKeys(matchId, ps)
    ensures forall k :: k in m && k !in WrittenKeys(matchId, ps) ==> ApplyParticipants(m, matchId, ps)[k] == m[k]
  {
    if ps != [] {
      var init := ps[..|ps| - 1];
      ApplyParticipantsFrame(m, matchId, init);
      var last := ps[|ps| - 1];
      assert WrittenKeys(matchId, ps) == WrittenKeys(matchId, init) + {(matchId, PlayerKey(last))} by {
        forall k | k in WrittenKeys(matchId, ps)
          ensures k in WrittenKeys(matchId, init) + {(matchId, PlayerKey(last))}
        {
          var j :| 0 <= j < |ps| && k == (matchId, PlayerKey(ps[j]));
          if j < |ps| - 1 {
            assert ps[j] == init[j];
          }
        }
        forall k | k in WrittenKeys(matchId, init)
          ensures k in WrittenKeys(matchId, ps)
        {
          var j :| 0 <= j < |init| && k == (matchId, PlayerKey(init[j]));
          assert init[j] == ps[j];
        }
      }
    }
  }

  /** Each participant's row holds that participant's data unless a later
      participant of the same match has the same key. */
  lemma {:induction false} ApplyParticipantsLastWins(m: map<ParticipantKey, ParticipantRow>, matchId: string, ps: seq<Participant>, j: nat)
    requires j < |ps|
    requires forall j' :: j < j' < |ps| ==> PlayerKey(ps[j']) != PlayerKey(ps[j])
    ensures (matchId, PlayerKey(ps[j])) in ApplyParticipants(m, matchId, ps)
    ensures ApplyParticipants(m, matchId, ps)[(matchId, PlayerKey(ps[j]))] == ParticipantRowOf(matchId, ps[j])
  {
    if j < |ps| - 1 {
      var init := ps[..|ps| - 1];
      assert init[j] == ps[j];
      ApplyParticipantsLastWins(m, matchId, init, j);
    }
  }

  /** The upserts only depend on what was there for the keys they do not
      write: they are the old table overwritten with the match's rows. */
  lemma {:induction false} ApplyParticipantsOverwrites(m: map<ParticipantKey, ParticipantRow>, matchId: string, ps: seq<Participant>)
    ensures ApplyParticipants(m, matchId, ps) == m + ApplyParticipants(map[], matchId, ps)
  {
    if ps != [] {
      ApplyParticipantsOverwrites(m, matchId, ps[..|ps| - 1]);
    }
  }

  /** `detail?.info || {}` */
  function InfoOrEmpty(d: Option<Detail>): Info {
    if InfoOf(d).Some? then InfoOf(d).value else Info(None, None, None, None)
  }

  /** The match header row: a falsy start timestamp is stored as null. */
  function MatchRowOf(matchId: string, info: Info, payload: Detail): (row: MatchRow)
    ensures row.matchId == matchId && row.payload == payload
    ensures row.gameStartTimestamp.Some? <==> info.gameStartTimestamp.Some? && info.gameStartTimestamp.value != 0
    ensures row.gameStartTimestamp.Some? ==> row.gameStartTimestamp == info.gameStartTimestamp
    ensures row.gameDuration == info.gameDuration && row.queueId == info.queueId
  {
    var ts := info.gameStartTimestamp;
    MatchRow(matchId, if ts.Some? && ts.value != 0 then ts else None,
             info.gameDuration, info.queueId, payload)
  }

  /** `upsertMatch(detail)`: the match header and then one upsert per
      participant; a detail without a match id is rejected before any write. */
  function ApplyUpsertMatch(t: Tables, d: Option<Detail>): (r: Result<Tables, Error>)
    ensures r.Failure? <==> !Present(MatchIdOf(d))
    ensures r.Failure? ==> r.error == Raise(MissingMatchIdMessage)
    ensures r.Success? ==> d.Some? && MatchIdOf(d).value in r.value.matches
    ensures r.Success? ==> r.value.summoners == t.summoners && r.value.cursors == t.cursors
  {
    if !Present(MatchIdOf(d)) then Failure(Raise(MissingMatchIdMessage))
    else
      var matchId := MatchIdOf(d).value;
      var info := InfoOrEmpty(d);
      var parts := info.participants.GetOr([]);
      Success(t.(matches := t.matches[matchId := MatchRowOf(matchId, info, d.value)],
                 participants := ApplyParticipants(t.participants, matchId, parts)))
  }

  /** Upserting the same detail twice leaves the tables as upserting it once. */
  lemma UpsertMatchIdempotent(t: Tables, d: Option<Detail>)
    requires ApplyUpsertMatch(t, d).Success?
    ensures ApplyUpsertMatch(ApplyUpsertMatch(t, d).value, d) == ApplyUpsertMatch(t, d)
  {
    var matchId := MatchIdOf(d).value;
    var parts := InfoOrEmpty(d).participants.GetOr([]);
    var once := ApplyParticipants(t.participants, matchId, parts);
    var rows := ApplyParticipants(map[], matchId, parts);
    ApplyParticipantsOverwrites(t.participants, matchId, parts);
    ApplyParticipantsOverwrites(once, matchId, parts);
    assert (t.participants + rows) + rows == t.participants + rows;
    var header := MatchRowOf(matchId, InfoOrEmpty(d), d.value);
    var first := ApplyUpsertMatch(t, d).value;
    assert first.matches == t.matches[matchId := header];
    assert ApplyUpsertMatch(first, d).value.matches == first.matches;
    assert ApplyUpsertMatch(first, d).value.participants == first.participants;
  }

  /** Storing a match keeps the tables consistent: its participant rows
      all point at the match header written with them. */
  lemma UpsertMatchConsistent(t: Tables, d: Option<Detail>)
    requires Consistent(t)
    requires ApplyUpsertMatch(t, d).Success?
    ensures Consistent(ApplyUpsertMatch(t, d).value)
  {
    var matchId := MatchIdOf(d).value;
    var parts := InfoOrEmpty(d).participants.GetOr([]);
    ApplyParticipantsFrame(t.participants, matchId, parts);
    var r := ApplyUpsertMatch(t, d).value;
    forall k | k in r.participants
      ensures k.0 in r.matches && r.participants[k].matchId == k.0 && r.participants[k].puuid == k.1
    {
      if k in WrittenKeys(matchId, parts) {
        var j :| 0 <= j < |parts| && k == (matchId, PlayerKey(parts[j]));
        var last := LastWithKey(parts, j);
        ApplyParticipantsLastWins(t.participants, matchId, parts, last);
      }
    }
  }

  /** The last index whose participant has the key of `ps[j]`. */
  function LastWithKey(ps: seq<Participant>, j: nat): (l: nat)
    requires j < |ps|
    ensures j <= l < |ps| && PlayerKey(ps[l]) == PlayerKey(ps[j])
    ensures forall j' :: l < j' < |ps| ==> PlayerKey(ps[j']) != PlayerKey(ps[j])
    decreases |ps| - j
  {
    if exists j' :: j < j' < |ps| && PlayerKey(ps[j']) == PlayerKey(ps[j]) then
      var j' :| j < j' < |ps| && PlayerKey(ps[j']) == PlayerKey(ps[j]);
      LastWithKey(ps, j')
    else j
  }

  // ---------------------------------------------------------------------
  // Ingestion cursors

  /** `updateCursor(puuid, { lastMatchId, lastMatchTimestamp, fetchedCount })`;
      `fetchedCount` is None when it is not a number: an update then keeps
      the stored count and a creation stores 0. */
  function ApplyUpdateCursor(t: Tables, puuid: string, lastMatchId: Option<string>,
                        lastMatchTimestamp: Option<int>, fetchedCount: Option<int>): (r: Tables)
    ensures puuid in r.cursors
    ensures r.cursors[puuid].puuid == puuid && r.cursors[puuid].lastMatchId == lastMatchId
    ensures r.cursors[puuid].lastMatchTimestamp.Some? <==> lastMatchTimestamp.Some? && lastMatchTimestamp.value != 0
    ensures r.cursors[puuid].lastMatchTimestamp.Some? ==> r.cursors[puuid].lastMatchTimestamp == lastMatchTimestamp
    ensures fetchedCount.Some? ==> r.cursors[puuid].lastFetchedCount == fetchedCount.value
    ensures fetchedCount.None? && puuid in t.cursors ==> r.cursors[puuid].lastFetchedCount == t.cursors[puuid].lastFetchedCount
    ensures fetchedCount.None? && puuid !in t.cursors ==> r.cursors[puuid].lastFetchedCount == 0
    ensures forall k :: k != puuid ==> (k in r.cursors <==> k in t.cursors)
    ensures forall k :: k in t.cursors && k != puuid ==> r.cursors[k] == t.cursors[k]
    ensures r.summoners == t.summoners && r.matches == t.matches && r.participants == t.participants
  {
    var ts := if lastMatchTimestamp.Some? && lastMatchTimestamp.value != 0 then lastMatchTimestamp else None;
    var count :=
      if fetchedCount.Some? then fetchedCount.value
      else if puuid in t.cursors then t.cursors[puuid].lastFetchedCount
      else 0;
    t.(cursors := t.cursors[puuid := Cursor(puuid, lastMatchId, ts, count)])
  }

  /** The summoner and cursor upserts keep the tables consistent. */
  lemma UpsertSummonerAndCursorConsistent(t: Tables, puuid: string, name: Option<string>,
                                          lastMatchId: Option<string>, ts: Option<int>, fetched: Option<int>)
    requires Consistent(t)
    ensures Consistent(ApplyUpsertSummoner(t, puuid, name))
    ensures Consistent(ApplyUpdateCursor(t, puuid, lastMatchId, ts, fetched))
  {
  }

  // ---------------------------------------------------------------------
  // The store

  class Db {
    var summoners: map<string, Summoner>
    var matches: map<string, MatchRow>
    var participants: map<ParticipantKey, ParticipantRow>
    var cursors: map<string, Cursor>

    function State(): Tables
      reads this
    {
      Tables(summoners, matches, participants, cursors)
    }

    constructor ()
      ensures State() == EmptyTables
    {
      summoners, matches, participants, cursors := map[], map[], map[], map[];
    }

    /** `upsertSummonerByPuuid`: returns the stored row. */
    method UpsertSummonerByPuuid(puuid: string, summonerName: Option<string>) returns (row: Summoner)
      modifies this
      ensures State() == ApplyUpsertSummoner(old(State()), puuid, summonerName)
      ensures row == summoners[puuid]
    {
      if puuid in summoners {
        row := Summoner(puuid, if summonerName.Some? then summonerName else summoners[puuid].summonerName);
      } else {
        row := Summoner(puuid, summonerName);
      }
      summoners := summoners[puuid := row];
    }

    /** `upsertMatch`: the header row, then each participant in order;
        returns the stored header, or throws before writing anything. */
    method UpsertMatch(detail: Option<Detail>) returns (r: Result<MatchRow, Error>)
      modifies this
      ensures ApplyUpsertMatch(old(State()), detail).Failure? ==>
                r == Failure(ApplyUpsertMatch(old(State()), detail).error) && State() == old(State())
      ensures ApplyUpsertMatch(old(State()), detail).Success? ==>
                State() == ApplyUpsertMatch(old(State()), detail).value
                && r == Success(matches[MatchIdOf(detail).value])
    {
      var matchId := MatchIdOf(detail);
      if !Present(matchId) {
        return Failure(Raise(MissingMatchIdMessage));
      }
      var info := InfoOrEmpty(detail);
      var header := MatchRowOf(matchId.value, info, detail.value);
      matches := matches[matchId.value := header];
      var parts := info.participants.GetOr([]);
      for i := 0 to |parts|
        invariant participants == ApplyParticipants(old(participants), matchId.value, parts[..i])
        invariant summoners == old(summoners) && cursors == old(cursors)
        invariant matches == old(matches)[matchId.value := header]
      {
        var p := parts[i];
        participants := participants[(matchId.value, PlayerKey(p)) := ParticipantRowOf(matchId.value, p)];
        assert parts[..i + 1][..i] == parts[..i];
      }
      assert parts[..|parts|] == parts;
      r := Success(header);
    }

    /** `updateCursor`: returns the stored cursor. */
    method UpdateCursor(puuid: string, lastMatchId: Option<string>, lastMatchTimestamp: Option<int>,
                        fetchedCount: Option<int>) returns (row: Cursor)
      modifies this
      ensures State() == ApplyUpdateCursor(old(State()), puuid, lastMatchId, lastMatchTimestamp, fetchedCount)
      ensures row == cursors[puuid]
    {
      var ts := if lastMatchTimestamp.Some? && lastMatchTimestamp.value != 0 then lastMatchTimestamp else None;
      var count := 0;
      if fetchedCount.Some? {
        count := fetchedCount.value;
      } else if puuid in cursors {
        count := cursors[puuid].lastFetchedCount;
      }
      row := Cursor(puuid, lastMatchId, ts, count);
      cursors := cursors[puuid := row];
    }
  }
}
