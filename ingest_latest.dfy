/** The `ingest.summoner.latest` job of RiotDataService: it resolves a Riot
    id to a PUUID, makes sure the summoner row exists, fetches and stores the
    latest matches one by one (a failed match is logged and skipped),
    reports progress after each, and records the ingestion cursor.

    `Ingest` says what one run does, as a function of the job's data, the
    store before it and the Riot API's replies; `IngestSummonerLatest` is the
    processor, proved to do exactly that. */
module IngestLatest {
  import opened Common
  import opened RiotData
  import opened RiotClient
  import opened Persist

  /** The job payload; the queue's producer fills in all fields. `count`
      is None when undefined and Some(None) when null (a NaN count is
      stored as null). */
  datatype JobData = JobData(
    summonerName: Option<string>,
    tag: Option<string>,
    count: Option<Option<int>>,
    force: Option<bool>,
    requestedBy: Option<string>)

  /** The value a successful run returns to the queue. */
  datatype Summary = Summary(
    puuid: string,
    total: nat,
    processed: nat,
    lastMatchId: Option<string>,
    lastMatchTimestamp: Option<int>)

  const DefaultJobCount: int := 10
  const RequiredMessage: string := "summonerName and tag are required"
  const NoPuuidMessage: string := "PUUID not found"

  /** A job as its processor sees it: its data, its progress, every
      progress value it reported and the lines it logged. */
  class Job {
    const data: Option<JobData>
    var progress: int
    var reports: seq<int>
    var logs: seq<string>

    constructor (data: Option<JobData>)
      ensures this.data == data && progress == 0 && reports == [] && logs == []
    {
      this.data := data;
      progress := 0;
      reports := [];
      logs := [];
    }

    /** `job.updateProgress(p)` */
    method UpdateProgress(p: int)
      modifies this
      ensures progress == p && reports == old(reports) + [p] && logs == old(logs)
    {
      progress := p;
      reports := reports + [p];
    }

    /** `job.log(line)` */
    method Log(line: string)
      modifies this
      ensures logs == old(logs) + [line] && progress == old(progress) && reports == old(reports)
    {
      logs := logs + [line];
    }
  }

  // ---------------------------------------------------------------------
  // Progress

  /** `5 + Math.round(((i + 1) / Math.max(n, 1)) * 95)` after the i-th of
      n matches; rounding half up is `floor((190 (i + 1) + n) / (2 n))`. */
  function ProgressAfter(i: nat, n: nat): (p: int)
    requires i < n
    ensures 5 <= p <= 100
  {
    RoundedShareBound(i + 1, n);
    5 + (190 * (i + 1) + n) / (2 * n)
  }

  lemma RoundedShareBound(k: nat, n: nat)
    requires 0 < k <= n
    ensures 0 <= (190 * k + n) / (2 * n) <= 95
  {
    assert 190 * k + n <= 191 * n;
    assert 191 * n < 96 * (2 * n);
  }

  /** Progress never goes back while the matches are worked through. */
  lemma ProgressAfterMonotone(i: nat, j: nat, n: nat)
    requires i <= j < n
    ensures ProgressAfter(i, n) <= ProgressAfter(j, n)
  {
    var a := 190 * (i + 1) + n;
    var b := 190 * (j + 1) + n;
    assert a <= b;
    DivMonotone(a, b, 2 * n);
  }

  lemma DivMonotone(a: nat, b: nat, d: nat)
    requires a <= b && d > 0
    ensures a / d <= b / d
  {
    var qa, qb := a / d, b / d;
    assert qa * d <= a;
    assert b < (qb + 1) * d;
    MulCancel(qa, qb + 1, d);
  }

  lemma MulCancel(x: int, y: int, d: nat)
    requires d > 0 && x * d < y * d
    ensures x < y
  {
    if x >= y {
      MulMonotone(y, x, d);
    }
  }

  lemma MulMonotone(x: int, y: int, d: nat)
    requires x <= y
    ensures x * d <= y * d
  {
  }

  /** The last match brings the progress to exactly 100. */
  lemma ProgressAfterLast(n: nat)
    requires n > 0
    ensures ProgressAfter(n - 1, n) == 100
  {
    DivUnique(190 * n + n, 2 * n, 95, n);
  }

  /** Euclidean division has a unique quotient. */
  lemma DivUnique(x: int, d: int, q: int, r: int)
    requires d > 0 && 0 <= r < d && x == q * d + r
    ensures x / d == q
  {
    var q0 := x / d;
    assert q0 * d + x % d == x;
    assert (q0 + 1) * d == q0 * d + d;
    MulCancel(q, q0 + 1, d);
    assert (q + 1) * d == q * d + d;
    MulCancel(q0, q + 1, d);
  }

  // ---------------------------------------------------------------------
  // One match

  /** The outcome of fetching and storing one match: the new tables and the
      detail, or the error the fetch or the store threw. */
  function Attempt(client: RiotClient, t: Tables, reply: Reply<Detail>): (a: Result<(Tables, Option<Detail>), Error>)
    ensures a.Success? <==> Succeeds(reply)
    ensures a.Success? ==> a.value.1 == reply.value && Success(a.value.0) == ApplyUpsertMatch(t, reply.value)
    ensures reply.Failure? ==> a == Failure(Classify(reply.error))
  {
    var fetched := client.GetMatchDetail(reply);
    if fetched.Failure? then Failure(fetched.error)
    else
      var stored := ApplyUpsertMatch(t, fetched.value);
      if stored.Failure? then Failure(stored.error) else Success((stored.value, fetched.value))
  }

  /** Whether a match is processed: its detail arrives and carries a match id. */
  predicate Succeeds(reply: Reply<Detail>) {
    reply.Success? && Present(MatchIdOf(reply.value))
  }

  /** `detail?.info?.gameDuration` and `detail?.info?.queueId` */
  function DurationOf(d: Option<Detail>): Option<int> {
    if InfoOf(d).Some? then InfoOf(d).value.gameDuration else None
  }

  function QueueIdOf(d: Option<Detail>): Option<int> {
    if InfoOf(d).Some? then InfoOf(d).value.queueId else None
  }

  /** The line the job logs for one match. */
  function AttemptLog(id: string, a: Result<(Tables, Option<Detail>), Error>): (line: string)
    ensures a.Success? ==> StartsWith(line, "Fetched match " + id)
    ensures a.Failure? ==> StartsWith(line, "Failed to fetch match " + id + ": ")
  {
    if a.Success? then
      "Fetched match " + id + " (duration=" + ShowInt(DurationOf(a.value.1))
        + ", queueId=" + ShowInt(QueueIdOf(a.value.1)) + ")"
    else "Failed to fetch match " + id + ": " + a.error.message
  }

  /** Where the loop stands: the tables, the processed count, what the job
      reported and logged, and the URLs it requested. */
  datatype Fetched = Fetched(tables: Tables, processed: nat, reports: seq<int>, logs: seq<string>, requests: seq<Request>)

  /** The state after the loop has worked through the first k ids; the i-th
      detail request of the run is answered by `detail(i)`. */
  function FetchAll(client: RiotClient, t: Tables, ids: seq<string>, detail: nat -> Reply<Detail>, k: nat): Fetched
    requires k <= |ids|
  {
    if k == 0 then Fetched(t, 0, [], [], [])
    else
      var s := FetchAll(client, t, ids, detail, k - 1);
      var a := Attempt(client, s.tables, detail(k - 1));
      Fetched(if a.Success? then a.value.0 else s.tables,
              if a.Success? then s.processed + 1 else s.processed,
              s.reports + [ProgressAfter(k - 1, |ids|)],
              s.logs + [AttemptLog(ids[k - 1], a)],
              s.requests + [DetailFetch(ids[k - 1])])
  }

  /** How many of the first k details arrive with a match id. */
  function CountSucceeded(detail: nat -> Reply<Detail>, k: nat): (c: nat)
    ensures c <= k
  {
    if k == 0 then 0
    else CountSucceeded(detail, k - 1) + (if Succeeds(detail(k - 1)) then 1 else 0)
  }

  /** After k ids the job has reported k progress values, one per match
      and in order. */
  lemma {:induction false} FetchAllReports(client: RiotClient, t: Tables, ids: seq<string>, detail: nat -> Reply<Detail>, k: nat)
    requires k <= |ids|
    ensures var s := FetchAll(client, t, ids, detail, k);
            && |s.reports| == k
            && (forall j :: 0 <= j < k ==> s.reports[j] == ProgressAfter(j, |ids|))
  {
    if k > 0 {
      FetchAllReports(client, t, ids, detail, k - 1);
    }
  }

  /** After k ids the loop has requested the detail of each of them once,
      in list order. */
  lemma {:induction false} FetchAllRequests(client: RiotClient, t: Tables, ids: seq<string>, detail: nat -> Reply<Detail>, k: nat)
    requires k <= |ids|
    ensures var s := FetchAll(client, t, ids, detail, k);
            && |s.requests| == k
            && (forall j :: 0 <= j < k ==> s.requests[j] == DetailFetch(ids[j]))
  {
    if k > 0 {
      FetchAllRequests(client, t, ids, detail, k - 1);
    }
  }

  /** After k ids the job has logged one line per match, saying whether
      it was stored. */
  lemma {:induction false} FetchAllLogs(client: RiotClient, t: Tables, ids: seq<string>, detail: nat -> Reply<Detail>, k: nat)
    requires k <= |ids|
    ensures var s := FetchAll(client, t, ids, detail, k);
            && |s.logs| == k
            && (forall j :: 0 <= j < k ==>
                  if Succeeds(detail(j)) then StartsWith(s.logs[j], "Fetched match " + ids[j])
                  else StartsWith(s.logs[j], "Failed to fetch match " + ids[j] + ": "))
  {
    if k > 0 {
      FetchAllLogs(client, t, ids, detail, k - 1);
      var s := FetchAll(client, t, ids, detail, k - 1);
      var a := Attempt(client, s.tables, detail(k - 1));
      assert FetchAll(client, t, ids, detail, k).logs == s.logs + [AttemptLog(ids[k - 1], a)];
    }
  }

  /** After k ids the loop has counted exactly the matches that were stored. */
  lemma {:induction false} FetchAllProcessed(client: RiotClient, t: Tables, ids: seq<string>, detail: nat -> Reply<Detail>, k: nat)
    requires k <= |ids|
    ensures FetchAll(client, t, ids, detail, k).processed == CountSucceeded(detail, k)
  {
    if k > 0 {
      FetchAllProcessed(client, t, ids, detail, k - 1);
    }
  }

  /** The loop writes no summoner or cursor row and removes no match. */
  lemma {:induction false} FetchAllFrame(client: RiotClient, t: Tables, ids: seq<string>, detail: nat -> Reply<Detail>, k: nat)
    requires k <= |ids|
    ensures var s := FetchAll(client, t, ids, detail, k);
            && s.tables.summoners == t.summoners && s.tables.cursors == t.cursors
            && t.matches.Keys <= s.tables.matches.Keys
  {
    if k > 0 {
      FetchAllFrame(client, t, ids, detail, k - 1);
    }
  }

  /** Every processed match is stored under its detail's match id. */
  lemma {:induction false} FetchAllStores(client: RiotClient, t: Tables, ids: seq<string>, detail: nat -> Reply<Detail>, k: nat)
    requires k <= |ids|
    ensures var s := FetchAll(client, t, ids, detail, k);
            forall j :: 0 <= j < k && Succeeds(detail(j)) ==> MatchIdOf(detail(j).value).value in s.tables.matches
  {
    if k > 0 {
      FetchAllStores(client, t, ids, detail, k - 1);
      var s := FetchAll(client, t, ids, detail, k - 1);
      var a := Attempt(client, s.tables, detail(k - 1));
      if a.Success? {
        assert s.tables.matches.Keys <= a.value.0.matches.Keys;
      }
    }
  }

  /** The loop keeps consistent tables consistent. */
  lemma {:induction false} FetchAllConsistent(client: RiotClient, t: Tables, ids: seq<string>, detail: nat -> Reply<Detail>, k: nat)
    requires k <= |ids|
    requires Consistent(t)
    ensures Consistent(FetchAll(client, t, ids, detail, k).tables)
  {
    if k > 0 {
      FetchAllConsistent(client, t, ids, detail, k - 1);
      var s := FetchAll(client, t, ids, detail, k - 1);
      var a := Attempt(client, s.tables, detail(k - 1));
      if a.Success? {
        UpsertMatchConsistent(s.tables, detail(k - 1).value);
      }
    }
  }

  // ---------------------------------------------------------------------
  // One run

  /** What one run produces: its result, the tables after it, the progress
      values and log lines it adds to the job, and the URLs it requests. */
  datatype Outcome = Outcome(result: Result<Summary, Error>, tables: Tables, reports: seq<int>, logs: seq<string>, requests: seq<Request>)

  const NoData: JobData := JobData(None, None, None, None, None)

  /** `matchIds[0] || null` */
  function FirstId(ids: seq<string>): (r: Option<string>)
    ensures r.Some? <==> |ids| > 0 && ids[0] != ""
    ensures r.Some? ==> r.value == ids[0]
  {
    if |ids| > 0 && ids[0] != "" then Some(ids[0]) else None
  }

  /** The cursor's timestamp: the start of the newest match, fetched once
      more after the loop; a failed fetch, a missing or a zero value all
      give null. */
  function CursorTimestamp(client: RiotClient, lastMatchId: Option<string>, reply: Reply<Detail>): (ts: Option<int>)
    ensures ts.Some? <==> lastMatchId.Some? && reply.Success? && GameStartOf(reply.value).Some? && GameStartOf(reply.value).value != 0
    ensures ts.Some? ==> ts == GameStartOf(reply.value)
  {
    if lastMatchId.None? then None
    else
      var fetched := client.GetMatchDetail(reply);
      if fetched.Failure? then None
      else
        var start := GameStartOf(fetched.value);
        if start.Some? && start.value != 0 then start else None
  }

  /** One run of `ingestSummonerLatest` on the job's data. */
  function Ingest(client: RiotClient, data: Option<JobData>, t: Tables, up: Upstream): (o: Outcome)
    ensures var d := data.GetOr(NoData);
            !Present(d.summonerName) || !Present(d.tag) ==>
              o == Outcome(Failure(Raise(RequiredMessage)), t, [], [], [])
  {
    var d := data.GetOr(NoData);
    if !Present(d.summonerName) || !Present(d.tag) then
      Outcome(Failure(Raise(RequiredMessage)), t, [], [], [])
    else
      Lookup(client, d, t, up)
  }

  /** The rest of a run once the name and tag are known to be present: the
      account lookup, then `Resolved`. */
  function Lookup(client: RiotClient, d: JobData, t: Tables, up: Upstream): (o: Outcome)
    requires Present(d.summonerName) && Present(d.tag)
    ensures o.reports != [] && o.reports[0] == 1
  {
    var lookup := [AccountLookup(d.summonerName.value, d.tag.value)];
    var account := client.GetPuuidByRiotId(up.account);
    if account.Failure? then Outcome(Failure(account.error), t, [1], [], lookup)
    else if !Present(account.value) then Outcome(Failure(Raise(NoPuuidMessage)), t, [1], [], lookup)
    else
      Resolved(client, d, account.value.value, t, up, lookup)
  }

  /** The rest of a run once the PUUID is known: the summoner row, the
      listing, and then `Finish`; `before` are the requests made so far. */
  function Resolved(client: RiotClient, d: JobData, puuid: string, t: Tables, up: Upstream, before: seq<Request>): (o: Outcome)
    ensures o.tables.summoners == ApplyUpsertSummoner(t, puuid, d.summonerName).summoners
    ensures |o.reports| >= 2 && o.reports[0] == 1
  {
    var t1 := ApplyUpsertSummoner(t, puuid, d.summonerName);
    var listing := before + [MatchListing(puuid, Some(JobCount(d)))];
    var listed := client.GetMatchIdsByPuuid(up.matchIds);
    if listed.Failure? then Outcome(Failure(listed.error), t1, [1, 5], [], listing)
    else
      var o := Finish(client, puuid, t1, listed.value, up.detail, listing);
      FinishKeepsSummoners(client, puuid, t1, listed.value, up.detail, listing);
      o
  }

  /** The rest of a run once the ids are listed: the loop over them, then
      the cursor, from the tables `t1` that hold the summoner row; `before`
      are the requests made so far. */
  function Finish(client: RiotClient, puuid: string, t1: Tables, ids: seq<string>,
                  detail: nat -> Reply<Detail>, before: seq<Request>): (o: Outcome)
    ensures o.result.Success?
    ensures |o.reports| >= 2 && o.reports[0] == 1 && o.reports[1] == 5
  {
    var s := FetchAll(client, t1, ids, detail, |ids|);
    var lastMatchId := FirstId(ids);
    var lastTs := CursorTimestamp(client, lastMatchId, detail(|ids|));
    var again := if lastMatchId.Some? then [DetailFetch(lastMatchId.value)] else [];
    var t2 := ApplyUpdateCursor(s.tables, puuid, lastMatchId, lastTs, Some(s.processed));
    Outcome(Success(Summary(puuid, |ids|, s.processed, lastMatchId, lastTs)),
            t2, [1, 5] + s.reports, s.logs, before + s.requests + again)
  }

  lemma FinishKeepsSummoners(client: RiotClient, puuid: string, t1: Tables, ids: seq<string>,
                             detail: nat -> Reply<Detail>, before: seq<Request>)
    ensures Finish(client, puuid, t1, ids, detail, before).tables.summoners == t1.summoners
  {
    FetchAllFrame(client, t1, ids, detail, |ids|);
  }

  /** A run that gets as far as the listing ends in `Finish`. */
  lemma IngestListed(client: RiotClient, data: Option<JobData>, t: Tables, up: Upstream)
    requires Ingest(client, data, t, up).result.Success?
             || (var d := data.GetOr(NoData);
                 Present(d.summonerName) && Present(d.tag)
                 && up.account.Success? && Present(up.account.value) && up.matchIds.Success?)
    ensures var d := data.GetOr(NoData);
            && Present(d.summonerName) && Present(d.tag)
            && up.account.Success? && Present(up.account.value) && up.matchIds.Success?
            && Ingest(client, data, t, up)
               == Finish(client, up.account.value.value,
                         ApplyUpsertSummoner(t, up.account.value.value, d.summonerName),
                         ListedIds(up), up.detail,
                         [AccountLookup(d.summonerName.value, d.tag.value),
                          MatchListing(up.account.value.value, Some(JobCount(d)))])
  {
  }

  /** The job's `count` as `Math.min` reads it: 10 when undefined (the
      destructuring default), 0 when null (which the default does not
      replace). */
  function JobCount(d: JobData): (n: int)
    ensures d.count.None? ==> n == DefaultJobCount
    ensures d.count == Some(None) ==> n == 0
    ensures d.count.Some? && d.count.value.Some? ==> n == d.count.value.value
  {
    match d.count
    case None => DefaultJobCount
    case Some(None) => 0
    case Some(Some(c)) => c
  }

  /** A run asks for the account of the job's name and tag, then for at most
      100 ids (10 when the job gives no count), then for the detail of each
      listed id in order, and finally once more for the newest match. */
  lemma IngestRequests(client: RiotClient, data: Option<JobData>, t: Tables, up: Upstream)
    requires Ingest(client, data, t, up).result.Success?
    ensures var o := Ingest(client, data, t, up);
            var d := data.GetOr(NoData);
            var ids := ListedIds(up);
            var n := |ids|;
            && |o.requests| == 2 + n + (if FirstId(ids).Some? then 1 else 0)
            && o.requests[0] == AccountLookup(d.summonerName.value, d.tag.value)
            && o.requests[1] == MatchListing(o.result.value.puuid, Some(JobCount(d)))
            && RequestedCount(Some(JobCount(d))) <= MaxMatchCount
            && (d.count.None? ==> RequestedCount(Some(JobCount(d))) == DefaultJobCount)
            && (forall j :: 0 <= j < n ==> o.requests[2 + j] == DetailFetch(ids[j]))
            && (FirstId(ids).Some? ==> o.requests[2 + n] == DetailFetch(ids[0]))
  {
    IngestListed(client, data, t, up);
    var d := data.GetOr(NoData);
    var puuid := up.account.value.value;
    FinishRequests(client, puuid, ApplyUpsertSummoner(t, puuid, d.summonerName), ListedIds(up), up.detail,
                   [AccountLookup(d.summonerName.value, d.tag.value), MatchListing(puuid, Some(JobCount(d)))]);
  }

  /** After the requests made before it, the rest of a run asks for the
      detail of each listed id in order, then once more for the first id
      when it is non-empty. */
  lemma FinishRequests(client: RiotClient, puuid: string, t1: Tables, ids: seq<string>,
                       detail: nat -> Reply<Detail>, before: seq<Request>)
    ensures var r := Finish(client, puuid, t1, ids, detail, before).requests;
            var m := |before|;
            && |r| == m + |ids| + (if FirstId(ids).Some? then 1 else 0)
            && r[..m] == before
            && (forall j :: 0 <= j < |ids| ==> r[m + j] == DetailFetch(ids[j]))
            && (FirstId(ids).Some? ==> r[m + |ids|] == DetailFetch(ids[0]))
  {
    FetchAllRequests(client, t1, ids, detail, |ids|);
    var s := FetchAll(client, t1, ids, detail, |ids|);
    var again := if FirstId(ids).Some? then [DetailFetch(ids[0])] else [];
    var r := Finish(client, puuid, t1, ids, detail, before).requests;
    assert r == before + s.requests + again;
    var m := |before|;
    assert r[..m] == before;
    forall j | 0 <= j < |ids|
      ensures r[m + j] == DetailFetch(ids[j])
    {
      assert r[m + j] == s.requests[j];
    }
  }

  /** The ids a run works through: the listing's body, `[]` when absent. */
  function ListedIds(up: Upstream): seq<string>
    requires up.matchIds.Success?
  {
    up.matchIds.value.GetOr([])
  }

  /** Once the ids are listed the job reports 1, 5, then one value per
      match, never decreasing, all between 1 and 100, ending at 100 (at 5
      when there are no matches). */
  lemma FinishProgress(client: RiotClient, puuid: string, t1: Tables, ids: seq<string>,
                       detail: nat -> Reply<Detail>, before: seq<Request>)
    ensures var r := Finish(client, puuid, t1, ids, detail, before).reports;
            && |r| == 2 + |ids| && r[0] == 1 && r[1] == 5
            && (forall i :: 0 <= i < |r| ==> 1 <= r[i] <= 100)
            && (forall i, j :: 0 <= i <= j < |r| ==> r[i] <= r[j])
            && r[|r| - 1] == (if ids == [] then 5 else 100)
  {
    var n := |ids|;
    FetchAllReports(client, t1, ids, detail, n);
    var s := FetchAll(client, t1, ids, detail, n);
    var r := Finish(client, puuid, t1, ids, detail, before).reports;
    assert r == [1, 5] + s.reports;
    forall i, j | 0 <= i <= j < |r|
      ensures r[i] <= r[j]
    {
      if i >= 2 {
        ProgressAfterMonotone(i - 2, j - 2, n);
      }
    }
    if n > 0 {
      ProgressAfterLast(n);
    }
  }

  /** The progress a run reports starts at 1, never decreases, never
      exceeds 100, and a successful run ends at 100 (at 5 when there were no
      matches), having reported once per match after the first two. */
  lemma IngestProgress(client: RiotClient, data: Option<JobData>, t: Tables, up: Upstream)
    ensures var o := Ingest(client, data, t, up);
            && (o.reports != [] ==> o.reports[0] == 1)
            && (forall i :: 0 <= i < |o.reports| ==> 1 <= o.reports[i] <= 100)
            && (forall i, j :: 0 <= i <= j < |o.reports| ==> o.reports[i] <= o.reports[j])
            && (o.result.Success? ==> |o.reports| == 2 + o.result.value.total
                                      && o.reports[|o.reports| - 1] == (if o.result.value.total == 0 then 5 else 100))
  {
    var o := Ingest(client, data, t, up);
    if o.result.Success? {
      IngestListed(client, data, t, up);
      var d := data.GetOr(NoData);
      var puuid := up.account.value.value;
      var ids := ListedIds(up);
      FinishProgress(client, puuid, ApplyUpsertSummoner(t, puuid, d.summonerName), ids, up.detail,
                     [AccountLookup(d.summonerName.value, d.tag.value), MatchListing(puuid, Some(JobCount(d)))]);
    } else {
      assert o.reports == [] || o.reports == [1] || o.reports == [1, 5];
    }
  }

  /** A successful run reports the PUUID it resolved, the number of listed
      ids, and as processed exactly the matches whose detail arrived with a
      match id; the summoner row carries the name, and the cursor records
      the newest id, its start time and the processed count. */
  lemma IngestSummary(client: RiotClient, data: Option<JobData>, t: Tables, up: Upstream)
    requires Ingest(client, data, t, up).result.Success?
    ensures var o := Ingest(client, data, t, up);
            var sum := o.result.value;
            && up.account == Success(Some(sum.puuid)) && sum.puuid != ""
            && up.matchIds.Success? && sum.total == |ListedIds(up)|
            && sum.processed == CountSucceeded(up.detail, sum.total) <= sum.total
            && sum.lastMatchId == FirstId(ListedIds(up))
            && sum.lastMatchTimestamp == CursorTimestamp(client, sum.lastMatchId, up.detail(sum.total))
            && sum.puuid in o.tables.summoners
            && o.tables.summoners[sum.puuid].summonerName == data.GetOr(NoData).summonerName
            && sum.puuid in o.tables.cursors
            && o.tables.cursors[sum.puuid] == Cursor(sum.puuid, sum.lastMatchId, sum.lastMatchTimestamp, sum.processed)
  {
    IngestListed(client, data, t, up);
    var d := data.GetOr(NoData);
    var puuid := up.account.value.value;
    var t1 := ApplyUpsertSummoner(t, puuid, d.summonerName);
    var ids := ListedIds(up);
    FetchAllProcessed(client, t1, ids, up.detail, |ids|);
    FetchAllFrame(client, t1, ids, up.detail, |ids|);
    var s := FetchAll(client, t1, ids, up.detail, |ids|);
    assert s.tables.summoners == t1.summoners;
  }

  /** Every match a successful run processed is in the store afterwards,
      and a run keeps consistent tables consistent. */
  lemma IngestStores(client: RiotClient, data: Option<JobData>, t: Tables, up: Upstream)
    ensures var o := Ingest(client, data, t, up);
            && (Consistent(t) ==> Consistent(o.tables))
            && (o.result.Success? ==>
                  forall j :: 0 <= j < o.result.value.total && Succeeds(up.detail(j)) ==>
                    MatchIdOf(up.detail(j).value).value in o.tables.matches)
  {
    var o := Ingest(client, data, t, up);
    var d := data.GetOr(NoData);
    if Present(d.summonerName) && Present(d.tag) && up.account.Success? && Present(up.account.value) {
      var puuid := up.account.value.value;
      var t1 := ApplyUpsertSummoner(t, puuid, d.summonerName);
      if Consistent(t) {
        UpsertSummonerAndCursorConsistent(t, puuid, d.summonerName, None, None, None);
      }
      if up.matchIds.Success? {
        IngestListed(client, data, t, up);
        var ids := ListedIds(up);
        FetchAllStores(client, t1, ids, up.detail, |ids|);
        FetchAllFrame(client, t1, ids, up.detail, |ids|);
        var s := FetchAll(client, t1, ids, up.detail, |ids|);
        if Consistent(t) {
          FetchAllConsistent(client, t1, ids, up.detail, |ids|);
          var lastMatchId := FirstId(ids);
          var lastTs := CursorTimestamp(client, lastMatchId, up.detail(|ids|));
          UpsertSummonerAndCursorConsistent(s.tables, puuid, None, lastMatchId, lastTs, Some(s.processed));
        }
      }
    }
  }

  /** A run that fails writes no match, participant or cursor row; only a
      failure of the id listing leaves the summoner row behind. */
  lemma IngestFailureWritesNoMatch(client: RiotClient, data: Option<JobData>, t: Tables, up: Upstream)
    requires Ingest(client, data, t, up).result.Failure?
    ensures var o := Ingest(client, data, t, up);
            && o.tables.matches == t.matches && o.tables.participants == t.participants
            && o.tables.cursors == t.cursors
            && o.logs == []
            && (o.tables.summoners != t.summoners ==> up.matchIds.Failure?)
  {
  }

  // ---------------------------------------------------------------------
  // The processor

  /** One turn of the processor's loop: fetch and store the match, then
      log the outcome; the caller reports the progress. */
  method FetchOne(job: Job, db: Db, client: RiotClient, id: string, reply: Reply<Detail>) returns (stored: bool)
    modifies job, db
    ensures var a := Attempt(client, old(db.State()), reply);
            && stored == a.Success?
            && db.State() == (if a.Success? then a.value.0 else old(db.State()))
            && job.logs == old(job.logs) + [AttemptLog(id, a)]
            && job.reports == old(job.reports) && job.progress == old(job.progress)
  {
    ghost var a := Attempt(client, db.State(), reply);
    var line: string;
    var fetched := client.GetMatchDetail(reply);
    if fetched.Failure? {
      line := "Failed to fetch match " + id + ": " + fetched.error.message;
      stored := false;
    } else {
      var upserted := db.UpsertMatch(fetched.value);
      if upserted.Failure? {
        line := "Failed to fetch match " + id + ": " + upserted.error.message;
        stored := false;
      } else {
        line := "Fetched match " + id + " (duration=" + ShowInt(DurationOf(fetched.value))
          + ", queueId=" + ShowInt(QueueIdOf(fetched.value)) + ")";
        stored := true;
      }
    }
    job.Log(line);
  }

  /** The processor's loop over the listed ids. */
  method FetchMatches(job: Job, db: Db, client: RiotClient, ids: seq<string>, detail: nat -> Reply<Detail>)
    returns (processed: nat, sent: seq<Request>)
    modifies job, db
    ensures var s := FetchAll(client, old(db.State()), ids, detail, |ids|);
            && db.State() == s.tables && processed == s.processed && sent == s.requests
            && job.reports == old(job.reports) + s.reports
            && job.logs == old(job.logs) + s.logs
            && job.progress == (if ids == [] then old(job.progress) else job.reports[|job.reports| - 1])
  {
    ghost var t1 := db.State();
    processed := 0;
    sent := [];
    for i := 0 to |ids|
      invariant db.State() == FetchAll(client, t1, ids, detail, i).tables
      invariant processed == FetchAll(client, t1, ids, detail, i).processed
      invariant sent == FetchAll(client, t1, ids, detail, i).requests
      invariant job.reports == old(job.reports) + FetchAll(client, t1, ids, detail, i).reports
      invariant job.logs == old(job.logs) + FetchAll(client, t1, ids, detail, i).logs
      invariant job.progress == (if i == 0 then old(job.progress) else job.reports[|job.reports| - 1])
    {
      sent := sent + [DetailFetch(ids[i])];
      var stored := FetchOne(job, db, client, ids[i], detail(i));
      if stored {
        processed := processed + 1;
      }
      job.UpdateProgress(ProgressAfter(i, |ids|));
    }
  }

  /** The part of `ingestSummonerLatest` after the listing: the loop, the
      cursor, and the summary. */
  method FinishRun(job: Job, db: Db, client: RiotClient, puuid: string, ids: seq<string>,
                   detail: nat -> Reply<Detail>, before: seq<Request>)
    returns (r: Result<Summary, Error>, sent: seq<Request>)
    modifies job, db
    ensures var o := Finish(client, puuid, old(db.State()), ids, detail, before);
            && r == o.result && db.State() == o.tables && sent == o.requests
            && job.reports == old(job.reports) + o.reports[2..]
            && job.logs == old(job.logs) + o.logs
            && job.progress == (if ids == [] then old(job.progress) else job.reports[|job.reports| - 1])
  {
    var processed, fetches := FetchMatches(job, db, client, ids, detail);
    sent := before + fetches;
    var lastMatchId := FirstId(ids);
    if lastMatchId.Some? {
      sent := sent + [DetailFetch(lastMatchId.value)];
    }
    var lastTs := CursorTimestamp(client, lastMatchId, detail(|ids|));
    var _ := db.UpdateCursor(puuid, lastMatchId, lastTs, Some(processed));
    r := Success(Summary(puuid, |ids|, processed, lastMatchId, lastTs));
  }

  /** The part of `ingestSummonerLatest` once the PUUID is known. */
  method ResolvedRun(job: Job, db: Db, client: RiotClient, d: JobData, puuid: string, up: Upstream, before: seq<Request>)
    returns (r: Result<Summary, Error>, sent: seq<Request>)
    modifies job, db
    ensures var o := Resolved(client, d, puuid, old(db.State()), up, before);
            && r == o.result && db.State() == o.tables && sent == o.requests
            && job.reports == old(job.reports) + o.reports[1..]
            && job.logs == old(job.logs) + o.logs
            && job.progress == job.reports[|job.reports| - 1]
  {
    var _ := db.UpsertSummonerByPuuid(puuid, d.summonerName);
    job.UpdateProgress(5);
    sent := before + [MatchListing(puuid, Some(JobCount(d)))];
    var listed := client.GetMatchIdsByPuuid(up.matchIds);
    if listed.Failure? {
      return Failure(listed.error), sent;
    }
    ghost var o := Finish(client, puuid, db.State(), listed.value, up.detail, sent);
    r, sent := FinishRun(job, db, client, puuid, listed.value, up.detail, sent);
    assert o.reports[1..] == [5] + o.reports[2..];
  }

  /** The part of `ingestSummonerLatest` once the name and tag are known
      to be present: the account lookup and what follows. */
  method LookupRun(job: Job, db: Db, client: RiotClient, up: Upstream)
    returns (r: Result<Summary, Error>, sent: seq<Request>)
    requires Present(job.data.GetOr(NoData).summonerName) && Present(job.data.GetOr(NoData).tag)
    modifies job, db
    ensures var o := Lookup(client, job.data.GetOr(NoData), old(db.State()), up);
            && r == o.result && db.State() == o.tables && sent == o.requests
            && job.reports == old(job.reports) + o.reports
            && job.logs == old(job.logs) + o.logs
            && job.progress == o.reports[|o.reports| - 1]
  {
    var d := job.data.GetOr(NoData);
    job.UpdateProgress(1);
    sent := [AccountLookup(d.summonerName.value, d.tag.value)];
    var account := client.GetPuuidByRiotId(up.account);
    if account.Failure? {
      return Failure(account.error), sent;
    }
    if !Present(account.value) {
      return Failure(Raise(NoPuuidMessage)), sent;
    }
    ghost var o := Resolved(client, d, account.value.value, db.State(), up, sent);
    r, sent := ResolvedRun(job, db, client, d, account.value.value, up, sent);
    assert o.reports == [1] + o.reports[1..];
  }

  /** `ingestSummonerLatest(job)`, with the client it creates passed in;
      `sent` lists the URLs of the requests it makes, in order. */
  method IngestSummonerLatest(job: Job, db: Db, client: RiotClient, up: Upstream)
    returns (r: Result<Summary, Error>, sent: seq<Request>)
    modifies job, db
    ensures var o := Ingest(client, job.data, old(db.State()), up);
            && r == o.result && db.State() == o.tables && sent == o.requests
            && job.reports == old(job.reports) + o.reports
            && job.logs == old(job.logs) + o.logs
            && job.progress == (if o.reports == [] then old(job.progress) else o.reports[|o.reports| - 1])
  {
    var d := job.data.GetOr(NoData);
    if !Present(d.summonerName) || !Present(d.tag) {
      return Failure(Raise(RequiredMessage)), [];
    }
    r, sent := LookupRun(job, db, client, up);
  }
}
