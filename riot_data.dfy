/** The Riot match-v5 payload as the services read it, the replies of the
    Riot API to one run of requests, and the status classification every
    Riot client applies to a failed request. */
module RiotData {
  import opened Common
  import opened Url

  datatype Participant = Participant(
    puuid: Option<string>,
    riotIdName: Option<string>,
    riotIdGameName: Option<string>,
    riotIdTagline: Option<string>,
    kills: Option<int>,
    deaths: Option<int>,
    assists: Option<int>,
    championName: Option<string>,
    win: Option<bool>,
    totalDamageDealtToChampions: Option<int>,
    goldEarned: Option<int>,
    totalMinionsKilled: Option<int>,
    visionScore: Option<int>,
    teamPosition: Option<string>,
    lane: Option<string>)

  datatype Metadata = Metadata(matchId: Option<string>)

  datatype Info = Info(
    gameStartTimestamp: Option<int>,
    gameDuration: Option<int>,
    queueId: Option<int>,
    participants: Option<seq<Participant>>)

  /** A match detail; the whole value is the payload that gets stored. */
  datatype Detail = Detail(metadata: Option<Metadata>, info: Option<Info>)

  /** `detail?.metadata?.matchId` */
  function MatchIdOf(d: Option<Detail>): Option<string> {
    if d.Some? && d.value.metadata.Some? then d.value.metadata.value.matchId else None
  }

  /** `detail?.info` */
  function InfoOf(d: Option<Detail>): Option<Info> {
    if d.Some? then d.value.info else None
  }

  /** `detail?.info?.gameStartTimestamp` */
  function GameStartOf(d: Option<Detail>): Option<int> {
    if InfoOf(d).Some? then InfoOf(d).value.gameStartTimestamp else None
  }

  /** `detail?.info?.participants` */
  function ParticipantsOf(d: Option<Detail>): Option<seq<Participant>> {
    if InfoOf(d).Some? then InfoOf(d).value.participants else None
  }

  /** The reply to one request: the response body (None when it is absent)
      or the error the HTTP client raised. */
  type Reply<T> = Result<Option<T>, Error>

  /** What the Riot API answers during one run of a service: the account
      lookup (the `puuid` of the body), the match-id listing, and the k-th
      match-detail request of the run. */
  datatype Upstream = Upstream(
    account: Reply<string>,
    matchIds: Reply<seq<string>>,
    detail: nat -> Reply<Detail>)

  const RateLimitMessage: string := "Riot API rate limit (429)"
  const UnavailableMessage: string := "Riot API unavailable (503)"

  /** The `catch` of every Riot client's GET: a 429 or 503 response becomes
      a fixed error, anything else is rethrown as it is. */
  function Classify(e: Error): (r: Error)
    ensures e.status == Some(429) ==> r == Raise(RateLimitMessage)
    ensures e.status == Some(503) ==> r == Raise(UnavailableMessage)
    ensures e.status != Some(429) && e.status != Some(503) ==> r == e
  {
    if e.status == Some(429) then Raise(RateLimitMessage)
    else if e.status == Some(503) then Raise(UnavailableMessage)
    else e
  }

  /** A classified error passes a second classification unchanged, so
      wrapping clients in clients never changes an error twice. */
  lemma ClassifyIdempotent(e: Error)
    ensures Classify(Classify(e)) == Classify(e)
  {
  }

  /** The reply of one GET as the client returns it. */
  function Settle<T>(r: Reply<T>): (s: Reply<T>)
    ensures r.Success? <==> s.Success?
    ensures r.Success? ==> s == r
    ensures r.Failure? ==> s.error == Classify(r.error)
  {
    if r.Success? then r else Failure(Classify(r.error))
  }

  // ---------------------------------------------------------------------
  // Request URLs and the match-count clamp shared by the Riot clients

  const DefaultMatchCount: int := 20
  const MaxMatchCount: int := 100

  /** `Math.min(count, 100)` with `count = 20` when it is undefined. */
  function RequestedCount(count: Option<int>): (n: int)
    ensures n <= MaxMatchCount
    ensures n == (if count.GetOr(DefaultMatchCount) <= MaxMatchCount then count.GetOr(DefaultMatchCount) else MaxMatchCount)
  {
    var c := count.GetOr(DefaultMatchCount);
    if c <= MaxMatchCount then c else MaxMatchCount
  }

  function Host(region: string): string {
    "https://" + region + ".api.riotgames.com"
  }

  function AccountBase(region: string): string {
    Host(region) + "/riot/account/v1/accounts/by-riot-id/"
  }

  /** The account lookup URL: the name percent-encoded, the tag as given. */
  function AccountUrl(region: string, name: string, tag: string): string {
    AccountBase(region) + EncodeUriComponent(name) + "/" + tag
  }

  function MatchIdsQuery(): string {
    "/ids?count="
  }

  /** The match-id listing URL for a count as the caller passed it. */
  function MatchIdsUrl(region: string, puuid: string, count: Option<int>): string {
    Host(region) + "/lol/match/v5/matches/by-puuid/" + puuid + MatchIdsQuery() + IntToString(RequestedCount(count))
  }

  function MatchDetailUrl(region: string, matchId: string): string {
    Host(region) + "/lol/match/v5/matches/" + matchId
  }

  /** A GET a Riot client sends: an account lookup by name and tag, a
      match-id listing for a count as the caller passed it, or the detail of
      one match. */
  datatype Request =
    | AccountLookup(name: string, tag: string)
    | MatchListing(puuid: string, count: Option<int>)
    | DetailFetch(matchId: string)

  /** The URL of a request sent to the given routing region. */
  function RequestUrl(region: string, req: Request): string {
    match req
    case AccountLookup(name, tag) => AccountUrl(region, name, tag)
    case MatchListing(puuid, count) => MatchIdsUrl(region, puuid, count)
    case DetailFetch(matchId) => MatchDetailUrl(region, matchId)
  }

  /** The name occupies exactly one path segment of the account URL and
      the server decodes it back to the name; the tag follows unencoded. */
  lemma AccountUrlSegments(region: string, name: string, tag: string)
    ensures exists enc :: AccountUrl(region, name, tag) == AccountBase(region) + enc + "/" + tag
                          && '/' !in enc && DecodeUriComponent(enc) == Some(name)
  {
    var enc := EncodeUriComponent(name);
    EncodedComponentIsOneSegment(name);
    EncodeUriComponentRoundTrip(name);
    assert '/' !in enc;
    assert AccountUrl(region, name, tag) == AccountBase(region) + enc + "/" + tag;
  }

  /** The listing asks for the requested count when it is at most 100,
      for 100 otherwise, and for 20 when no count is given. */
  lemma MatchIdsUrlCount(region: string, puuid: string, count: Option<int>)
    ensures exists n :: MatchIdsUrl(region, puuid, count) == Host(region) + "/lol/match/v5/matches/by-puuid/" + puuid + MatchIdsQuery() + IntToString(n)
                        && n <= MaxMatchCount
                        && (count.None? ==> n == DefaultMatchCount)
                        && (count.Some? && count.value <= MaxMatchCount ==> n == count.value)
  {
    var n := RequestedCount(count);
    assert MatchIdsUrl(region, puuid, count) == Host(region) + "/lol/match/v5/matches/by-puuid/" + puuid + MatchIdsQuery() + IntToString(n);
  }

  // ---------------------------------------------------------------------
  // Participant lookup and the KDA string

  /** `participants.find(matches)`: the index of the first match. */
  function FindFirst(ps: seq<Participant>, matches: Participant -> bool): (r: Option<nat>)
    ensures r.Some? ==> r.value < |ps| && matches(ps[r.value])
    ensures r.Some? ==> forall j :: 0 <= j < r.value ==> !matches(ps[j])
    ensures r.None? ==> forall j :: 0 <= j < |ps| ==> !matches(ps[j])
  {
    if ps == [] then None
    else if matches(ps[0]) then Some(0)
    else
      var rest := FindFirst(ps[1..], matches);
      if rest.Some? then Some(rest.value + 1) else None
  }

  /** `${n}` for a number that may be undefined. */
  function ShowInt(n: Option<int>): string {
    if n.Some? then IntToString(n.value) else "undefined"
  }

  /** `${p.kills}/${p.deaths}/${p.assists}` */
  function KdaText(kills: Option<int>, deaths: Option<int>, assists: Option<int>): string {
    ShowInt(kills) + "/" + ShowInt(deaths) + "/" + ShowInt(assists)
  }

  lemma NoSlashInInt(n: int)
    ensures '/' !in IntToString(n)
  {
    var s := if n < 0 then NatToString(-n) else NatToString(n);
    DecimalRoundTrip(if n < 0 then -n else n);
    assert forall i :: 0 <= i < |s| ==> s[i] != '/';
  }

  /** The KDA string splits on `/` into exactly the three counts, each
      readable back with `parseInt`. */
  lemma KdaTextSplits(k: nat, d: nat, a: nat)
    ensures var parts := Split(KdaText(Some(k), Some(d), Some(a)), '/');
            |parts| == 3
            && ParseInt(parts[0], true) == Some(k)
            && ParseInt(parts[1], true) == Some(d)
            && ParseInt(parts[2], true) == Some(a)
  {
    NoSlashInInt(k);
    NoSlashInInt(d);
    NoSlashInInt(a);
    var pieces := [NatToString(k), NatToString(d), NatToString(a)];
    assert pieces[1..][1..] == [NatToString(a)];
    assert Join(pieces[1..], '/') == NatToString(d) + "/" + NatToString(a);
    assert Join(pieces, '/') == KdaText(Some(k), Some(d), Some(a));
    JoinSplit(pieces, '/');
    ParseIntOfNatToString(k, true);
    ParseIntOfNatToString(d, true);
    ParseIntOfNatToString(a, true);
  }

  // ---------------------------------------------------------------------
  // Shapes of the LolAPIService responses

  datatype PlayerStats = PlayerStats(
    kills: Option<int>,
    deaths: Option<int>,
    assists: Option<int>,
    kda: string,
    championName: Option<string>,
    win: Option<bool>,
    totalDamageDealtToChampions: Option<int>,
    goldEarned: Option<int>,
    totalMinionsKilled: Option<int>,
    visionScore: Option<int>)

  /** One entry of a match history: the player's line of a match, or the
      error that match raised. */
  datatype HistoryItem =
    | Played(matchId: string, gameStartTimestamp: Option<int>, gameDuration: Option<int>, queueId: Option<int>, stats: PlayerStats)
    | Errored(matchId: string, error: string)
  {
    function Id(): string {
      match this
      case Played(id, _, _, _, _) => id
      case Errored(id, _) => id
    }
  }

  /** The record `getPlayerStats` builds from a participant. */
  function StatsOf(p: Participant): (s: PlayerStats)
    ensures s.kills == p.kills && s.deaths == p.deaths && s.assists == p.assists
    ensures s.kda == KdaText(p.kills, p.deaths, p.assists)
  {
    PlayerStats(p.kills, p.deaths, p.assists, KdaText(p.kills, p.deaths, p.assists),
                p.championName, p.win, p.totalDamageDealtToChampions, p.goldEarned,
                p.totalMinionsKilled, p.visionScore)
  }
}
