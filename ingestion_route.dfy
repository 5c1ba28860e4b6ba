/** The HTTP façade of RiotDataService's ingestion queue: enqueueing an
    `ingest.summoner.latest` job, a job's status, the per-state counts and
    the effective configuration. The queue is a map from job id to job
    record; ids are handed out by a counter, as the queue's own id
    sequence does. */
module IngestionRoute {
  import opened Common
  import opened Json
  import opened RiotClient
  import opened IngestLatest
  import RiotData

  const JobName: string := "ingest.summoner.latest"
  const DefaultMaxMatches: int := 10

  /** The states a job of the queue can be in. */
  datatype JobState = Waiting | Active | Completed | Failed | Delayed | Prioritized | WaitingChildren

  /** The name `job.getState()` answers with. */
  function StateName(s: JobState): string {
    match s
    case Waiting => "waiting"
    case Active => "active"
    case Completed => "completed"
    case Failed => "failed"
    case Delayed => "delayed"
    case Prioritized => "prioritized"
    case WaitingChildren => "waiting-children"
  }

  /** The retention options a job is added with: completed jobs are kept
      for `completedAge` seconds and at most `completedCount` of them, failed
      jobs at most `failedCount`. */
  datatype JobOptions = JobOptions(completedAge: int, completedCount: int, failedCount: int)

  const Retention: JobOptions := JobOptions(3600, 1000, 100)

  datatype JobRecord = JobRecord(
    name: string,
    data: JobData,
    opts: JobOptions,
    state: JobState,
    progress: Option<Json>,
    attemptsMade: nat,
    failedReason: Option<string>)

  /** The request body of `POST /summoner/latest`; `count` is None when
      absent and Some(None) when null. */
  datatype LatestBody = LatestBody(summonerName: Option<string>, tag: Option<string>, count: Option<Option<int>>, force: Option<bool>)

  /** The authenticated caller, when there is one. */
  datatype Caller = Caller(sub: Option<string>)

  const InvalidInputMessage: string := "summonerName and tag are required"

  /** `Number(process.env.INGESTION_MAX_MATCHES_PER_RUN || 10)`; None is NaN. */
  function MaxMatchesPerRun(env: Option<string>): (r: Option<int>)
    ensures !Present(env) ==> r == Some(DefaultMaxMatches)
  {
    if Present(env) then EnvNumber(env.value) else Some(DefaultMaxMatches)
  }

  /** The payload a valid request enqueues: the body's fields with their
      defaults and the caller's `sub` (or `system`) as `requestedBy`. */
  function EnqueuedData(body: LatestBody, caller: Option<Caller>, maxEnv: Option<string>): (d: JobData)
    ensures d.summonerName == body.summonerName && d.tag == body.tag
    ensures body.count.Some? ==> d.count == body.count
    ensures body.count.None? ==> d.count == Some(MaxMatchesPerRun(maxEnv))
    ensures body.count.None? && MaxMatchesPerRun(maxEnv).None? ==> d.count == Some(None)
    ensures d.force == Some(body.force.GetOr(false))
    ensures Present(d.requestedBy)
    ensures d.requestedBy.value == (if caller.Some? && Present(caller.value.sub) then caller.value.sub.value else "system")
  {
    var count := if body.count.Some? then body.count else Some(MaxMatchesPerRun(maxEnv));
    var requester := if caller.Some? && Present(caller.value.sub) then caller.value.sub.value else "system";
    JobData(body.summonerName, body.tag, count, Some(body.force.GetOr(false)), Some(requester))
  }

  /** `job.progress || 0` */
  function ProgressValue(p: Option<Json>): (v: Json)
    ensures Truthy(Some(v))  || v == JNum(0)
    ensures Truthy(p) ==> v == p.value
  {
    if Truthy(p) then p.value else JNum(0)
  }

  /** The `data` of a status response. */
  function StatusData(id: string, rec: JobRecord): Json {
    JObj(map[
      "id" := JStr(id),
      "state" := JStr(StateName(rec.state)),
      "progress" := ProgressValue(rec.progress),
      "name" := JStr(rec.name),
      "attemptsMade" := JNum(rec.attemptsMade),
      "failedReason" := if Present(rec.failedReason) then JStr(rec.failedReason.value) else JNull])
  }

  // ---------------------------------------------------------------------
  // Counting jobs by state

  /** The ids of the jobs in state `s`. */
  function IdsIn(jobs: map<string, JobRecord>, s: JobState): (ids: set<string>)
    ensures ids <= jobs.Keys
    ensures forall id :: id in ids <==> id in jobs && jobs[id].state == s
  {
    set id | id in jobs && jobs[id].state == s
  }

  function CountIn(jobs: map<string, JobRecord>, s: JobState): nat {
    |IdsIn(jobs, s)|
  }

  /** Adding a job in state `r.state` under a new id raises that state's
      count by one and leaves every other count as it was. */
  lemma CountAfterAdd(jobs: map<string, JobRecord>, id: string, r: JobRecord, s: JobState)
    requires id !in jobs
    ensures CountIn(jobs[id := r], s) == CountIn(jobs, s) + (if r.state == s then 1 else 0)
  {
    if r.state == s {
      assert IdsIn(jobs[id := r], s) == IdsIn(jobs, s) + {id};
    } else {
      assert IdsIn(jobs[id := r], s) == IdsIn(jobs, s);
    }
  }

  function CountAll(jobs: map<string, JobRecord>): nat {
    CountIn(jobs, Waiting) + CountIn(jobs, Active) + CountIn(jobs, Completed)
      + CountIn(jobs, Failed) + CountIn(jobs, Delayed) + CountIn(jobs, Prioritized)
      + CountIn(jobs, WaitingChildren)
  }

  /** Every job is in exactly one state, so the counts of all states add up
      to the number of jobs. */
  lemma {:induction false} CountsPartition(jobs: map<string, JobRecord>)
    ensures CountAll(jobs) == |jobs|
    decreases |jobs|
  {
    if jobs != map[] {
      var id :| id in jobs;
      var rest := jobs - {id};
      assert |rest.Keys| < |jobs.Keys| by {
        assert rest.Keys == jobs.Keys - {id};
      }
      CountsPartition(rest);
      assert rest[id := jobs[id]] == jobs;
      CountAllAfterAdd(rest, id, jobs[id]);
      assert |jobs.Keys| == |rest.Keys| + 1 by {
        assert jobs.Keys == rest.Keys + {id};
      }
    }
  }

  /** Adding a job under a new id raises the total of the counts by one. */
  lemma CountAllAfterAdd(jobs: map<string, JobRecord>, id: string, r: JobRecord)
    requires id !in jobs
    ensures CountAll(jobs[id := r]) == CountAll(jobs) + 1
  {
    CountAfterAdd(jobs, id, r, Waiting);
    CountAfterAdd(jobs, id, r, Active);
    CountAfterAdd(jobs, id, r, Completed);
    CountAfterAdd(jobs, id, r, Failed);
    CountAfterAdd(jobs, id, r, Delayed);
    CountAfterAdd(jobs, id, r, Prioritized);
    CountAfterAdd(jobs, id, r, WaitingChildren);
  }

  /** The `data` of a summary response: the counts of the five states
      the façade asks for. */
  function CountsData(jobs: map<string, JobRecord>): Json {
    JObj(map["counts" := JObj(map[
      "wait" := JNum(CountIn(jobs, Waiting)),
      "active" := JNum(CountIn(jobs, Active)),
      "completed" := JNum(CountIn(jobs, Completed)),
      "failed" := JNum(CountIn(jobs, Failed)),
      "delayed" := JNum(CountIn(jobs, Delayed))])])
  }

  // ---------------------------------------------------------------------
  // The queue and its handlers

  class IngestQueue {
    var jobs: map<string, JobRecord>
    var nextId: nat

    /** Every id is the decimal numeral of a number the counter has passed. */
    ghost predicate Valid()
      reads this
    {
      forall id :: id in jobs ==> AllDigits(id) && DecimalValue(id) < nextId
    }

    constructor ()
      ensures jobs == map[] && nextId == 1 && Valid()
    {
      jobs := map[];
      nextId := 1;
    }

    /** `queue.add(name, data, opts)`: a new waiting job under a fresh id. */
    method Add(name: string, data: JobData, opts: JobOptions) returns (id: string)
      requires Valid()
      modifies this
      ensures Valid()
      ensures id !in old(jobs) && id == NatToString(old(nextId))
      ensures jobs == old(jobs)[id := JobRecord(name, data, opts, Waiting, None, 0, None)]
    {
      id := NatToString(nextId);
      DecimalRoundTrip(nextId);
      jobs := jobs[id := JobRecord(name, data, opts, Waiting, None, 0, None)];
      nextId := nextId + 1;
    }

    /** `POST /summoner/latest` */
    method PostSummonerLatest(body: Option<LatestBody>, caller: Option<Caller>, maxEnv: Option<string>)
      returns (resp: Response)
      requires Valid()
      modifies this
      ensures Valid()
      ensures var b := body.GetOr(LatestBody(None, None, None, None));
              !Present(b.summonerName) || !Present(b.tag) ==>
                resp == Response(400, ErrorBody("INVALID_INPUT", InvalidInputMessage))
                && jobs == old(jobs) && nextId == old(nextId)
      ensures var b := body.GetOr(LatestBody(None, None, None, None));
              var id := NatToString(old(nextId));
              Present(b.summonerName) && Present(b.tag) ==>
                && resp == Response(202, OkBody(JObj(map["jobId" := JStr(id), "type" := JStr(JobName)])))
                && id !in old(jobs)
                && jobs == old(jobs)[id := JobRecord(JobName, EnqueuedData(b, caller, maxEnv), Retention, Waiting, None, 0, None)]
                && Status(id) == Response(200, OkBody(StatusData(id, jobs[id])))
    {
      var b := body.GetOr(LatestBody(None, None, None, None));
      if !Present(b.summonerName) || !Present(b.tag) {
        return Response(400, ErrorBody("INVALID_INPUT", InvalidInputMessage));
      }
      var id := Add(JobName, EnqueuedData(b, caller, maxEnv), Retention);
      resp := Response(202, OkBody(JObj(map["jobId" := JStr(id), "type" := JStr(JobName)])));
    }

    /** `GET /jobs/:id` */
    function Status(id: string): (resp: Response)
      reads this
      ensures id !in jobs <==> resp.status == 404
      ensures id !in jobs ==> resp.body == ErrorBody("JOB_NOT_FOUND", "Job not found")
      ensures id in jobs ==> resp == Response(200, OkBody(StatusData(id, jobs[id])))
    {
      if id !in jobs then Response(404, ErrorBody("JOB_NOT_FOUND", "Job not found"))
      else Response(200, OkBody(StatusData(id, jobs[id])))
    }

    /** `GET /summary` */
    function Summary(): (resp: Response)
      reads this
      ensures resp.status == 200 && Prop(resp.body, "success") == Some(JBool(true))
      ensures Prop(resp.body, "data").Some? && Prop(Prop(resp.body, "data").value, "counts").Some?
      ensures var counts := Prop(Prop(resp.body, "data").value, "counts").value;
              && Prop(counts, "wait") == Some(JNum(|IdsIn(jobs, Waiting)|))
              && Prop(counts, "active") == Some(JNum(|IdsIn(jobs, Active)|))
              && Prop(counts, "completed") == Some(JNum(|IdsIn(jobs, Completed)|))
              && Prop(counts, "failed") == Some(JNum(|IdsIn(jobs, Failed)|))
              && Prop(counts, "delayed") == Some(JNum(|IdsIn(jobs, Delayed)|))
      // the five reported counts and the two unreported states cover every job once
      ensures |IdsIn(jobs, Waiting)| + |IdsIn(jobs, Active)| + |IdsIn(jobs, Completed)| + |IdsIn(jobs, Failed)|
                + |IdsIn(jobs, Delayed)| + |IdsIn(jobs, Prioritized)| + |IdsIn(jobs, WaitingChildren)| == |jobs|
    {
      CountsPartition(jobs);
      Response(200, OkBody(CountsData(jobs)))
    }
  }

  /** How many match ids the processor asks for, for a request body without
      a count: 10 when INGESTION_MAX_MATCHES_PER_RUN is unset or empty, its
      value up to 100 when it is a numeral, and 0 when it is not a number,
      since NaN reaches the processor as null. A body whose count is null
      also asks for 0. */
  lemma DefaultCountReachesListing(body: LatestBody, caller: Option<Caller>, maxEnv: Option<string>)
    ensures var n := RiotData.RequestedCount(Some(JobCount(EnqueuedData(body, caller, maxEnv))));
            && (body.count.None? && !Present(maxEnv) ==> n == DefaultMaxMatches)
            && (body.count.None? && Present(maxEnv) && MaxMatchesPerRun(maxEnv).Some? ==>
                  n == (if MaxMatchesPerRun(maxEnv).value <= RiotData.MaxMatchCount
                        then MaxMatchesPerRun(maxEnv).value else RiotData.MaxMatchCount))
            && (body.count.None? && MaxMatchesPerRun(maxEnv).None? ==> n == 0)
            && (body.count == Some(None) ==> n == 0)
  {
  }

  /** A job that was just enqueued reports state `waiting`, progress 0, no
      attempts and a null failure reason. */
  lemma FreshJobStatus(id: string, name: string, data: JobData, opts: JobOptions)
    ensures var d := StatusData(id, JobRecord(name, data, opts, Waiting, None, 0, None));
            && Prop(d, "state") == Some(JStr("waiting"))
            && Prop(d, "progress") == Some(JNum(0))
            && Prop(d, "attemptsMade") == Some(JNum(0))
            && Prop(d, "failedReason") == Some(JNull)
            && Prop(d, "name") == Some(JStr(name))
  {
  }

  /** The environment `GET /config` reports on. */
  datatype QueueEnv = QueueEnv(
    queuePrefix: Option<string>,
    concurrency: Option<string>,
    maxMatchesPerRun: Option<string>,
    scheduleEnable: Option<string>)

  /** A number as JSON: NaN is serialised as null. */
  function NumberJson(n: Option<int>): Json {
    if n.Some? then JNum(n.value) else JNull
  }

  /** `GET /config`: every setting with its default when unset or empty. */
  function Config(env: QueueEnv): (resp: Response)
    ensures resp.status == 200 && Prop(resp.body, "success") == Some(JBool(true))
    ensures Prop(resp.body, "data").Some?
    ensures var data := Prop(resp.body, "data").value;
            && (Present(env.queuePrefix) ==> Prop(data, "QUEUE_PREFIX") == Some(JStr(env.queuePrefix.value)))
            && (!Present(env.queuePrefix) ==> Prop(data, "QUEUE_PREFIX") == Some(JStr("fitlol")))
            && (Present(env.concurrency) ==> Prop(data, "BULLMQ_CONCURRENCY") == Some(NumberJson(EnvNumber(env.concurrency.value))))
            && (!Present(env.concurrency) ==> Prop(data, "BULLMQ_CONCURRENCY") == Some(JNum(5)))
            && Prop(data, "INGESTION_MAX_MATCHES_PER_RUN") == Some(NumberJson(MaxMatchesPerRun(env.maxMatchesPerRun)))
            && (Present(env.scheduleEnable) ==> Prop(data, "SCHEDULE_ENABLE") == Some(JStr(env.scheduleEnable.value)))
            && (!Present(env.scheduleEnable) ==> Prop(data, "SCHEDULE_ENABLE") == Some(JStr("false")))
    ensures Prop(resp.body, "data").value.JObj? && |Prop(resp.body, "data").value.fields| == 4
  {
    var prefix := if Present(env.queuePrefix) then env.queuePrefix.value else "fitlol";
    var concurrency := if Present(env.concurrency) then EnvNumber(env.concurrency.value) else Some(5);
    var schedule := if Present(env.scheduleEnable) then env.scheduleEnable.value else "false";
    Response(200, OkBody(JObj(map[
      "QUEUE_PREFIX" := JStr(prefix),
      "BULLMQ_CONCURRENCY" := NumberJson(concurrency),
      "INGESTION_MAX_MATCHES_PER_RUN" := NumberJson(MaxMatchesPerRun(env.maxMatchesPerRun)),
      "SCHEDULE_ENABLE" := JStr(schedule)])))
  }

  /** With nothing set, the configuration is the documented defaults. */
  lemma ConfigDefaults()
    ensures var d := Prop(Config(QueueEnv(None, None, None, None)).body, "data").value;
            && Prop(d, "QUEUE_PREFIX") == Some(JStr("fitlol"))
            && Prop(d, "BULLMQ_CONCURRENCY") == Some(JNum(5))
            && Prop(d, "INGESTION_MAX_MATCHES_PER_RUN") == Some(JNum(10))
            && Prop(d, "SCHEDULE_ENABLE") == Some(JStr("false"))
  {
  }
}
