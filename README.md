# FIT.LOL core, modelled in Dafny

FIT.LOL is a League of Legends clan tool split into several Node services. This project models the logic that decides what those services do:

- **RiotDataService** ingests matches. The `ingestSummonerLatest` job resolves a player and lists their match ids. It fetches and stores each match in turn, reports progress 1, 5, then 5 + round(95·k/n), and writes an ingestion cursor. Its persistence layer makes keyed upserts into the Summoner, Match, MatchParticipant and IngestionCursor tables. Its Riot client clamps the match count and classifies 429 and 503 replies. Its ingestion routes enqueue jobs and report job status, queue counts and defaults.
- **LolAPIService** holds two Riot services (a plain one and one that wraps error messages), the controller of the `/api/v1/riot` routes, the server's CORS and authentication gates, and the command-line parser of the OpenAPI generator.
- **UserSerivce** holds the in-memory user and clan store, the clan controller, the authentication middleware and the proxy to the ingestion endpoints.
- **The frontend's HTTP helper** builds URLs, headers and error messages for every call.
- **The sample backend** has a SQLite members and matches store, match registration with INSERT OR IGNORE, the paged match list, and its own Riot helpers.

Each module follows one source file:

| module | models |
|---|---|
| `RiotData`, `RiotClient` | shapes of Riot replies, error classification and the Riot client |
| `Persist` | the persistence service over four tables (maps) |
| `IngestLatest` | the ingestion job processor, a `Job` class with a loop over the match ids |
| `IngestionRoute` | the enqueue, status, summary and config handlers over a queue class |
| `RiotSimpleService`, `RiotService`, `RiotController` | the LolAPIService services and controller |
| `LolServer`, `GenOpenapi` | the LolAPIService server gates and the OpenAPI script's settings |
| `UserStore`, `ClanController`, `Auth`, `IngestionProxy` | the user service |
| `FrontendApi` | the frontend's `http` helper and API calls |
| `SampleBackend`, `SampleRiot` | the sample backend and its Riot helpers |
| `Common`, `Json`, `Url` | the JavaScript semantics the code relies on: truthiness, `parseInt`, `split`, `trim`, `encodeURIComponent`, `URLSearchParams`, property access on JSON values |

Everything that leaves the process becomes a value handed to the model:

- the replies of the Riot API and of the upstream services;
- the outcome of JWT verification;
- environment variables;
- generated ids and timestamps.

The classes `Job`, `Persist.Db`, `IngestQueue`, `MemoryStore` and `SampleBackend.Db` keep the state the source mutates. Their methods are proved against functions on that state. The classes `RiotClient.RiotClient`, `RiotSimpleService.RiotAPIService`, `RiotService.RiotAPIService`, `RiotController.RiotController` and `ClanController.ClanController` follow the source's classes and closures. Their fields are fixed at construction: the client's settings, the service a controller calls, and the store the clan controller reads.

## Model

| member | source | states |
|---|---|---|
| RiotData.Classify | RiotDataService/src/services/riot.client.js:21-24 | a 429 becomes the fixed rate-limit error, a 503 the fixed unavailable error, and every other error is rethrown unchanged |
| RiotData.ClassifyIdempotent | RiotDataService/src/services/riot.client.js:21-24 | classifying an already classified error changes nothing |
| RiotData.Settle | RiotDataService/src/services/riot.client.js:17-26 | a GET succeeds exactly when its reply does, with that reply; a failure carries the classified error |
| RiotData.RequestedCount | RiotDataService/src/services/riot.client.js:34-35 | the listing count is 20 when none is given and never exceeds 100; a count up to 100 is kept |
| RiotData.MatchIdsUrlCount | RiotDataService/src/services/riot.client.js:35 | the listing URL ends in a count of at most 100, 20 when none is given, the caller's count when it is at most 100 |
| RiotData.AccountUrlSegments | RiotDataService/src/services/riot.client.js:29 | the name occupies one path segment of the account URL and decodes back to the name; the tag follows unencoded |
| RiotClient.EnvNumber | RiotDataService/src/services/riot.client.js:14 | `Number` of a blank string is 0, of a decimal numeral its value, of a `-` or `+` numeral its signed value; exactly the other strings are NaN |
| RiotClient.TimeoutFrom | RiotDataService/src/services/riot.client.js:14 | without RIOT_HTTP_TIMEOUT_MS the timeout is 10000, with a decimal setting it is that number |
| RiotClient.RiotClient.constructor | RiotDataService/src/services/riot.client.js:4-15 | the key is RIOT_API_KEY or empty, the region is asia, the X-Riot-Token header carries the key, and the timeout is read from the environment |
| RiotClient.RiotClient.GetPuuidByRiotId | RiotDataService/src/services/riot.client.js:28-32 | the body's puuid (possibly absent) on success, the classified error otherwise |
| RiotClient.RiotClient.GetMatchIdsByPuuid | RiotDataService/src/services/riot.client.js:34-38 | the listed ids, `[]` for an absent body, the classified error otherwise |
| RiotClient.RiotClient.GetMatchDetail | RiotDataService/src/services/riot.client.js:40-44 | the body as it came, the classified error otherwise |
| Persist.ApplyUpsertSummoner | RiotDataService/src/services/persist.service.js:3-9 | the summoner row exists under its PUUID afterwards, a given name replaces the stored one, an absent name keeps it, and no other row or table changes |
| Persist.PlayerKey | RiotDataService/src/services/persist.service.js:39 | a participant is keyed by its PUUID when present, by `<riotIdName>#<riotIdTagline>` otherwise |
| Persist.ParticipantRowOf | RiotDataService/src/services/persist.service.js:37-73 | every column of the participant row: the match id, the player key, the counts, win and damage, gold, minions and vision as given, the optional strings through `|| null`, and the stored KDA |
| Persist.StoredKdaReadsBack | RiotDataService/src/services/persist.service.js:37 | the stored KDA splits into three counts that read back as the kills, deaths and assists, a missing count as 0 |
| Persist.ApplyParticipantsFrame | RiotDataService/src/services/persist.service.js:35-75 | the participant upserts add exactly the keys of the match's players and leave every other row as it was |
| Persist.ApplyParticipantsLastWins | RiotDataService/src/services/persist.service.js:36-74 | each participant's row holds its own data unless a later participant has the same key |
| Persist.ApplyParticipantsOverwrites | RiotDataService/src/services/persist.service.js:36-74 | the upserts are the old table overwritten by the match's rows |
| Persist.MatchRowOf | RiotDataService/src/services/persist.service.js:17-32 | the header carries the match id and the detail; a falsy start time is stored as null, duration and queue as given |
| Persist.ApplyUpsertMatch | RiotDataService/src/services/persist.service.js:11-78 | a detail without a match id is rejected with `matchId missing in detail` before any write; otherwise the match is stored and the summoners and cursors are untouched |
| Persist.UpsertMatchIdempotent | RiotDataService/src/services/persist.service.js:11-78 | upserting the same detail twice gives the same tables as once |
| Persist.UpsertMatchConsistent | RiotDataService/src/services/persist.service.js:11-78 | storing a match keeps every row under its own key and every participant row pointing at a stored match |
| Persist.ApplyUpdateCursor | RiotDataService/src/services/persist.service.js:80-95 | the cursor of the PUUID records the last id, and the given timestamp whenever one is stored; a non-number count keeps the stored count on update and stores 0 on creation; nothing else changes |
| Persist.UpsertSummonerAndCursorConsistent | RiotDataService/src/services/persist.service.js:3-95 | the summoner and cursor upserts keep the tables consistent |
| Persist.Db.UpsertSummonerByPuuid | RiotDataService/src/services/persist.service.js:3-9 | the store becomes `ApplyUpsertSummoner` of the old store and the stored row is returned |
| Persist.Db.UpsertMatch | RiotDataService/src/services/persist.service.js:11-78 | the header and then each participant are written in order, ending in `ApplyUpsertMatch` of the old store; a rejected detail leaves the store unchanged |
| Persist.Db.UpdateCursor | RiotDataService/src/services/persist.service.js:80-95 | the store becomes `ApplyUpdateCursor` of the old store and the stored cursor is returned |
| IngestLatest.Job.UpdateProgress | RiotDataService/src/workers/processors/ingestLatest.js:10 | the job's progress becomes the value, which is appended to what it reported |
| IngestLatest.Job.Log | RiotDataService/src/workers/processors/ingestLatest.js:29 | the line is appended to the job's log and nothing else changes |
| IngestLatest.ProgressAfter | RiotDataService/src/workers/processors/ingestLatest.js:34 | the rounded progress after any match lies between 5 and 100 |
| IngestLatest.ProgressAfterMonotone | RiotDataService/src/workers/processors/ingestLatest.js:34 | progress never goes back from one match to a later one |
| IngestLatest.ProgressAfterLast | RiotDataService/src/workers/processors/ingestLatest.js:34 | the last match brings progress to exactly 100 |
| IngestLatest.Attempt | RiotDataService/src/workers/processors/ingestLatest.js:23-33 | a match is processed exactly when its detail arrives with a match id, and the store is then `upsertMatch` of it; a failed fetch gives the classified error |
| IngestLatest.AttemptLog | RiotDataService/src/workers/processors/ingestLatest.js:29-32 | a processed match logs `Fetched match <id>`, a failed one `Failed to fetch match <id>: ` and the message |
| IngestLatest.CountSucceeded | RiotDataService/src/workers/processors/ingestLatest.js:30 | at most one processed match per id |
| IngestLatest.FetchAllReports | RiotDataService/src/workers/processors/ingestLatest.js:21-36 | the loop reports one progress value per match, in order |
| IngestLatest.FetchAllRequests | RiotDataService/src/workers/processors/ingestLatest.js:21-24 | the loop requests the detail of each listed id once, in list order |
| IngestLatest.FetchAllLogs | RiotDataService/src/workers/processors/ingestLatest.js:21-33 | the loop logs one line per match saying whether it was stored |
| IngestLatest.FetchAllProcessed | RiotDataService/src/workers/processors/ingestLatest.js:20-33 | the processed count is exactly the number of details that arrived with a match id |
| IngestLatest.FetchAllFrame | RiotDataService/src/workers/processors/ingestLatest.js:21-36 | the loop writes no summoner or cursor row and removes no match |
| IngestLatest.FetchAllStores | RiotDataService/src/workers/processors/ingestLatest.js:21-36 | every processed match is stored under its match id |
| IngestLatest.FetchAllConsistent | RiotDataService/src/workers/processors/ingestLatest.js:21-36 | the loop keeps consistent tables consistent |
| IngestLatest.FirstId | RiotDataService/src/workers/processors/ingestLatest.js:39 | the cursor's id is the first listed id when there is a non-empty one, null otherwise |
| IngestLatest.CursorTimestamp | RiotDataService/src/workers/processors/ingestLatest.js:40-46 | the cursor's timestamp is the newest match's non-zero start time when it is re-fetched; a failed fetch or a missing or zero value gives null |
| IngestLatest.Ingest | RiotDataService/src/workers/processors/ingestLatest.js:4-6 | a job without a name or a tag fails with `summonerName and tag are required` and touches nothing |
| IngestLatest.Lookup | RiotDataService/src/workers/processors/ingestLatest.js:10-12 | once the name and tag are present the first progress reported is 1 |
| IngestLatest.Resolved | RiotDataService/src/workers/processors/ingestLatest.js:15-18 | once the PUUID is known the summoner row is upserted with the job's name and progress 5 follows 1 |
| IngestLatest.Finish | RiotDataService/src/workers/processors/ingestLatest.js:20-49 | once the ids are listed the run succeeds, having reported 1 and 5 first |
| IngestLatest.FinishKeepsSummoners | RiotDataService/src/workers/processors/ingestLatest.js:20-47 | after the listing no summoner row changes |
| IngestLatest.IngestListed | RiotDataService/src/workers/processors/ingestLatest.js:4-49 | a run that succeeds, or whose account and listing replies succeed, is the loop and the cursor update over the listed ids |
| IngestLatest.JobCount | RiotDataService/src/workers/processors/ingestLatest.js:5 | the count a run passes to the listing: 10 when the job has none, 0 when it is null, the job's count otherwise |
| IngestLatest.IngestRequests | RiotDataService/src/workers/processors/ingestLatest.js:5-43 | a successful run asks for the account, then for at most 100 ids (10 by default), then each listed id's detail in order, then the newest match once more |
| IngestLatest.FinishRequests | RiotDataService/src/workers/processors/ingestLatest.js:21-43 | after the earlier requests come each listed id's detail in order, then the first id again when it is non-empty |
| IngestLatest.FinishProgress | RiotDataService/src/workers/processors/ingestLatest.js:10-36 | after the listing the job reports 1, 5, then one value per match, never decreasing, within 1..100, ending at 100 (at 5 without matches) |
| IngestLatest.IngestProgress | RiotDataService/src/workers/processors/ingestLatest.js:10-36 | any run's progress starts at 1, never decreases and stays within 1..100; a successful run reports 2 + total values and ends at 100 (5 without matches) |
| IngestLatest.IngestSummary | RiotDataService/src/workers/processors/ingestLatest.js:11-49 | a successful run returns the resolved PUUID, the listed total, the exact count of stored matches, the newest id and its start time; the summoner row carries the name and the cursor records the same |
| IngestLatest.IngestStores | RiotDataService/src/workers/processors/ingestLatest.js:21-47 | every match a successful run processed is stored, and a run keeps consistent tables consistent |
| IngestLatest.IngestFailureWritesNoMatch | RiotDataService/src/workers/processors/ingestLatest.js:6-18 | a failing run writes no match, participant or cursor row and logs nothing; only a listing failure leaves the summoner row behind |
| IngestLatest.FetchOne | RiotDataService/src/workers/processors/ingestLatest.js:22-33 | one turn fetches and stores the match as `Attempt` says and logs its outcome, without reporting progress |
| IngestLatest.FetchMatches | RiotDataService/src/workers/processors/ingestLatest.js:20-36 | the loop leaves the store, the processed count, the requests, the reports and the logs exactly as `FetchAll` over all the ids |
| IngestLatest.FinishRun | RiotDataService/src/workers/processors/ingestLatest.js:20-49 | the loop, the cursor update and the summary, exactly as `Finish` |
| IngestLatest.ResolvedRun | RiotDataService/src/workers/processors/ingestLatest.js:15-49 | the summoner upsert, progress 5, the listing and the rest, exactly as `Resolved` |
| IngestLatest.LookupRun | RiotDataService/src/workers/processors/ingestLatest.js:10-49 | progress 1, the account lookup and the rest, exactly as `Lookup` |
| IngestLatest.IngestSummonerLatest | RiotDataService/src/workers/processors/ingestLatest.js:4-50 | the processor's result, store, requests, reports, logs and progress are exactly those of `Ingest`, whose properties are proved above |
| IngestionRoute.MaxMatchesPerRun | RiotDataService/src/routes/ingestion.route.js:10 | without INGESTION_MAX_MATCHES_PER_RUN the default count is 10 |
| IngestionRoute.EnqueuedData | RiotDataService/src/routes/ingestion.route.js:10-17 | the job carries the body's name and tag, the body's count (null kept as null) or the configured default (NaN stored as null), `force` defaulting to false, and the caller's `sub` or `system` as requester |
| IngestionRoute.DefaultCountReachesListing | RiotDataService/src/routes/ingestion.route.js:10-17 | without a count in the body the processor asks for 10 ids when the setting is unset, for the setting up to 100 when it is a numeral, and for 0 when it is not a number; a null count also asks for 0 |
| IngestionRoute.ProgressValue | RiotDataService/src/routes/ingestion.route.js:38 | a truthy progress is reported as it is, anything else as 0 |
| IngestionRoute.IdsIn | RiotDataService/src/routes/ingestion.route.js:48 | the jobs counted for a state are exactly the queued jobs in that state |
| IngestionRoute.CountAfterAdd | RiotDataService/src/routes/ingestion.route.js:15-22 | enqueueing under a new id raises the count of the new job's state by one and no other count |
| IngestionRoute.CountsPartition | RiotDataService/src/routes/ingestion.route.js:48 | the counts of all states add up to the number of jobs |
| IngestionRoute.CountAllAfterAdd | RiotDataService/src/routes/ingestion.route.js:15-22 | enqueueing raises the total of the counts by one |
| IngestionRoute.IngestQueue.Add | RiotDataService/src/routes/ingestion.route.js:15-22 | a new waiting job with no progress or attempts under a fresh numeric id, every other job unchanged |
| IngestionRoute.IngestQueue.PostSummonerLatest | RiotDataService/src/routes/ingestion.route.js:8-28 | without a name or a tag: 400 INVALID_INPUT and the queue unchanged; otherwise 202 with the new job's id, the job enqueued with the retention options, and its status immediately readable |
| IngestionRoute.IngestQueue.Status | RiotDataService/src/routes/ingestion.route.js:31-43 | 404 JOB_NOT_FOUND exactly for an unknown id, otherwise 200 with the job's status |
| IngestionRoute.IngestQueue.Summary | RiotDataService/src/routes/ingestion.route.js:46-53 | 200 with the number of jobs in each of `wait`, `active`, `completed`, `failed` and `delayed`; with the two unreported states these counts cover every job exactly once |
| IngestionRoute.FreshJobStatus | RiotDataService/src/routes/ingestion.route.js:37-39 | a just-enqueued job reports state `waiting`, progress 0, no attempts and a null failure reason |
| IngestionRoute.Config | RiotDataService/src/routes/ingestion.route.js:56-64 | 200 with exactly four settings, each the environment value when set and non-empty, else `fitlol`, 5, the run default and `false`; a non-numeric number setting reads as null |
| IngestionRoute.ConfigDefaults | RiotDataService/src/routes/ingestion.route.js:57-62 | with nothing set the configuration is prefix `fitlol`, concurrency 5, 10 matches per run, schedule `false` |
| RiotSimpleService.DetailFetches | LolAPIService/src/services/riot-simple.service.js:72-74 | one detail request per listed id, in list order |
| RiotSimpleService.RiotAPIService.constructor | LolAPIService/src/services/riot-simple.service.js:4-14 | the key is RIOT_API_KEY or empty, the region asia, and the headers carry the key and the service's user agent |
| RiotSimpleService.RiotAPIService.GetPuuidBySummonerName | LolAPIService/src/services/riot-simple.service.js:27-32 | succeeds exactly with a non-empty `puuid` in the body; a body without one throws `PUUID를 찾을 수 없습니다`, a failed request its classified error |
| RiotSimpleService.RiotAPIService.GetMatchIdsByPuuid | LolAPIService/src/services/riot-simple.service.js:34-38 | the listed ids, `[]` for an absent body, the classified error otherwise |
| RiotSimpleService.RiotAPIService.GetMatchDetail | LolAPIService/src/services/riot-simple.service.js:40-44 | the body as it came, the classified error otherwise |
| RiotSimpleService.RiotAPIService.GetPlayerStats | LolAPIService/src/services/riot-simple.service.js:53-66 | succeeds exactly when some participant has the name and tag, with the stats of the first such one; otherwise the not-found error |
| RiotSimpleService.RiotAPIService.LatestMatch | LolAPIService/src/services/riot-simple.service.js:46-51 | succeeds exactly when the PUUID, a non-empty listing of one id and its detail all arrive, with that detail; an empty listing throws `매치 기록이 없습니다`; the requests are the lookup, a listing of 1 and the first id's detail |
| RiotSimpleService.RiotAPIService.HistoryItemOf | LolAPIService/src/services/riot-simple.service.js:73-85 | an entry carries its match id; it holds the player's stats and the match's start time exactly when the detail arrives and the player is in it, otherwise the fetch's or the lookup's error message |
| RiotSimpleService.RiotAPIService.HistoryItems | LolAPIService/src/services/riot-simple.service.js:72-86 | one entry per id, the j-th for the j-th id |
| RiotSimpleService.RiotAPIService.HistoryItemsSnoc | LolAPIService/src/services/riot-simple.service.js:72-86 | handling one more id appends exactly that id's entry |
| RiotSimpleService.RiotAPIService.History | LolAPIService/src/services/riot-simple.service.js:68-88 | the history fails exactly when the PUUID lookup or the listing does; otherwise it is the entries of the listed ids, after the lookup, a listing of the query's count (10 by default) and one detail request per id |
| RiotSimpleService.RiotAPIService.GetPlayerMatchHistory | LolAPIService/src/services/riot-simple.service.js:68-88 | the loop's result and requests are exactly `History` |
| RiotSimpleService.RiotAPIService.HistoryEntries | LolAPIService/src/services/riot-simple.service.js:72-86 | past the listing, one entry per listed id, in order; a played entry carries a matching participant's stats, an errored one the classified fetch error or the not-found message |
| RiotService.Wrap | LolAPIService/src/services/riot.service.js:39 | a rethrown error's message is the prefix followed by the original message |
| RiotService.WrapInjective | LolAPIService/src/services/riot.service.js:39 | two wrapped errors are equal exactly when the original messages were |
| RiotService.RiotAPIService.constructor | LolAPIService/src/services/riot.service.js:6-16 | the key is RIOT_API_KEY or empty, the region asia, and the headers carry the key and the service's user agent |
| RiotService.RiotAPIService.GetPuuidBySummonerName | LolAPIService/src/services/riot.service.js:29-41 | succeeds exactly with a non-empty `puuid`; every failure, the missing PUUID included, is rethrown under the PUUID prefix |
| RiotService.RiotAPIService.GetMatchIdsByPuuid | LolAPIService/src/services/riot.service.js:43-52 | the listed ids, `[]` for an absent body; a failure is rethrown under the listing prefix |
| RiotService.RiotAPIService.GetMatchDetail | LolAPIService/src/services/riot.service.js:54-63 | the body as it came; a failure is rethrown under the detail prefix |
| RiotService.RiotAPIService.GetPlayerStats | LolAPIService/src/services/riot.service.js:79-101 | a detail without participants throws its own error; otherwise succeeds exactly when a participant has the name and tag, with the first one's stats, else the not-found error |
| RiotService.RiotAPIService.LatestMatch | LolAPIService/src/services/riot.service.js:65-77 | succeeds exactly when the PUUID, a non-empty listing and the detail arrive; a missing PUUID and a failed listing fail under their prefixes, while an empty listing throws the unwrapped message `매치 기록이 없습니다`; one request when the lookup fails, three (the last the first id's detail) exactly when a non-empty listing arrives |
| RiotService.RiotAPIService.HistoryItemOf | LolAPIService/src/services/riot.service.js:111-124 | an entry carries its match id; a failed fetch is recorded under the detail prefix, a detail without participants or without the player under the matching message |
| RiotService.RiotAPIService.HistoryItems | LolAPIService/src/services/riot.service.js:110-125 | one entry per id, the j-th for the j-th id |
| RiotService.RiotAPIService.HistoryItemsSnoc | LolAPIService/src/services/riot.service.js:110-125 | handling one more id appends exactly that id's entry |
| RiotService.RiotAPIService.History | LolAPIService/src/services/riot.service.js:103-131 | fails exactly when the lookup or the listing does, then under one of their prefixes; otherwise the entries of the listed ids after the lookup, the listing and one detail request per id |
| RiotService.RiotAPIService.GetPlayerMatchHistory | LolAPIService/src/services/riot.service.js:103-131 | the loop's result and requests are exactly `History` |
| RiotService.RiotAPIService.HistoryEntries | LolAPIService/src/services/riot.service.js:110-125 | past the listing, one entry per listed id, in order; a failed fetch is recorded under the detail prefix, never thrown; a played entry carries a matching participant's stats |
| RiotService.RiotAPIService.GetSummonerSeasonInfo | LolAPIService/src/services/riot.service.js:133-135 | every call throws the not-implemented error |
| RiotData.FindFirst | LolAPIService/src/services/riot.service.js:83-85 | the index found is the first whose participant matches; none when no participant matches |
| RiotData.StatsOf | LolAPIService/src/services/riot.service.js:89-100 | the stats carry the participant's counts and their KDA string |
| RiotData.KdaTextSplits | LolAPIService/src/services/riot.service.js:93 | the KDA string splits on `/` into three parts that read back as the kills, deaths and assists |
| RiotController.BadRequest | LolAPIService/src/controllers/riot.controller.js:12-13 | a missing parameter is a 400 INVALID_INPUT with the handler's message, and no Riot request is made |
| RiotController.ServerError | LolAPIService/src/controllers/riot.controller.js:16-19 | a thrown error becomes a 500 INTERNAL_ERROR with the handler's message and the error's own as details |
| RiotController.Respond | LolAPIService/src/controllers/riot.controller.js:14-19 | a result becomes a 200 carrying its shaped value, an error the handler's 500 |
| RiotController.RiotController.GetLatestMatch | LolAPIService/src/controllers/riot.controller.js:9-20 | 400 exactly when the name or tag is missing; otherwise the service's latest match as a 200, or a 500 carrying its error, after exactly the service's requests |
| RiotController.RiotController.GetPlayerMatchHistory | LolAPIService/src/controllers/riot.controller.js:22-36 | 400 exactly when the name or tag is missing; otherwise the history for the parsed count, with its length as `totalCount`, or a 500 |
| RiotController.RiotController.GetMatchDetail | LolAPIService/src/controllers/riot.controller.js:38-49 | 400 exactly without a match id; otherwise one detail request, answered with the detail or a 500 carrying the classified error |
| RiotController.RiotController.GetSummonerPuuid | LolAPIService/src/controllers/riot.controller.js:51-63 | 400 exactly without a name or tag; 200 exactly when the account has a PUUID, echoing the name and tag; one account request |
| RiotController.RiotController.GetMatchIdsByPuuid | LolAPIService/src/controllers/riot.controller.js:65-78 | 400 exactly without a PUUID; otherwise one listing request for the parsed count, answered with the ids and the count as parsed, or a 500 |
| RiotController.RiotController.HistoryTotalCount | LolAPIService/src/controllers/riot.controller.js:29-31 | a 200 history has one entry per listed id, in order, and `totalCount` equals their number |
| RiotController.RiotController.MatchIdsEchoesRequestedCount | LolAPIService/src/controllers/riot.controller.js:68-73 | every `?count=n` above 100 is answered with `count: n` although the Riot listing asks for 100 ids |
| RiotController.HistoryQueryCount | LolAPIService/src/controllers/riot.controller.js:25 | the history count is never 0 and is 10 without a query |
| RiotController.IdsQueryCount | LolAPIService/src/controllers/riot.controller.js:68 | the listing count is never 0 and is 20 without a query |
| Auth.GetValueByPathOfFalsy | UserSerivce/src/middlewares/auth.js:19-25 | nothing is read from a falsy or undefined value, whatever the path |
| Auth.WalkFromFalsy | UserSerivce/src/middlewares/auth.js:21 | once a step gives a falsy value, every further step gives undefined |
| Auth.WalkAppend | UserSerivce/src/middlewares/auth.js:21 | walking two key lists in turn is walking their concatenation |
| Auth.GetValueByPathKey | UserSerivce/src/middlewares/auth.js:19-25 | a path without a dot reads one property of a truthy value |
| Auth.GetValueByPathDot | UserSerivce/src/middlewares/auth.js:19-25 | `a.b` reads `b` from what `a` reads |
| Auth.RolePath | UserSerivce/src/middlewares/auth.js:7 | the role path is never empty and is `realm_access.roles` unless configured |
| Auth.RolesKeyOnlyOnObjects | UserSerivce/src/middlewares/auth.js:21 | only an object has a `roles` property |
| Auth.DefaultPathReadsRealmRoles | UserSerivce/src/middlewares/auth.js:19-25 | the default path reads an array exactly when the claims hold an array at `realm_access.roles`, and then that array |
| Auth.Options | UserSerivce/src/middlewares/auth.js:34-35 | the verifier gets RS256 only, the configured issuer, and an audience exactly when one is configured |
| Auth.BearerToken | UserSerivce/src/middlewares/auth.js:28-30 | a token exists exactly when the header starts with `Bearer ` and has more after it; prefix and token give back the header |
| Auth.BearerTokenRoundTrip | UserSerivce/src/middlewares/auth.js:28-29 | every non-empty token sent with the `Bearer ` scheme is read back unchanged |
| Auth.LowerCaseSchemeIsMissing | UserSerivce/src/middlewares/auth.js:29 | any header opening with a seven-character scheme other than `Bearer ` counts as no token |
| Auth.Authenticate | UserSerivce/src/middlewares/auth.js:27-45 | the request passes exactly when there is a bearer token and it verifies, with its payload as the user; every refusal is a 401, `Missing token` without a token |
| Auth.AuthenticateRefusals | UserSerivce/src/middlewares/auth.js:27-45 | a refusal's code is TOKEN_EXPIRED exactly for an expired token and UNAUTHORIZED otherwise; its message is `Missing token` exactly when there was no token |
| Auth.RequireRole | UserSerivce/src/middlewares/auth.js:47-55 | the request goes on unchanged exactly when the value at the role path is an array holding the role; otherwise a 403 FORBIDDEN |
| Auth.RequireRoleOfClaims | UserSerivce/src/middlewares/auth.js:47-55 | with the default path, a token passes exactly when `realm_access.roles` is an array holding the role |
| Auth.NoUserIsForbidden | UserSerivce/src/middlewares/auth.js:49-51 | a request without a user is refused whatever the role and the path |
| LolServer.AllowedOriginsEntries | LolAPIService/src/server.js:66 | every allowed origin is non-empty, trimmed and free of commas |
| LolServer.CorsCheck | LolAPIService/src/server.js:68-73 | a request is allowed exactly when it has no origin, no list is configured or its origin is listed; otherwise `Not allowed by CORS` |
| LolServer.UnsetCorsAllowsAll | LolAPIService/src/server.js:66-73 | without CORS_ORIGIN every origin is allowed |
| LolServer.ListedOriginsOnly | LolAPIService/src/server.js:66-73 | with CORS_ORIGIN a comma list of origins, a request's origin is allowed exactly when it is one of them |
| LolServer.CorsCheckOfListed | LolAPIService/src/server.js:69 | with a non-empty list an origin passes exactly when it is listed |
| LolServer.AllowedOriginsOfJoin | LolAPIService/src/server.js:66 | a comma list of clean origins is read back as exactly those origins |
| LolServer.RateLimitSetting | LolAPIService/src/server.js:81-84 | an unset setting takes its default |
| LolServer.RateLimitDefaults | LolAPIService/src/server.js:81-84 | the window is 60000 ms and the budget 100 requests unless configured |
| LolServer.InternalError | LolAPIService/src/server.js:98-101 | the error handler answers 500 INTERNAL_SERVER_ERROR |
| LolServer.MemberGate | LolAPIService/src/server.js:95 | the Riot routes pass exactly when authentication passes and the user has MEMBER; a failed authentication answers as it did, a missing role with a 403 |
| LolServer.Handle | LolAPIService/src/server.js:77-101 | a CORS rejection reaches the error handler; an allowed OPTIONS request is a 204 preflight; GET or HEAD on the health path answers its body; a Riot path answers the router's response only through the MEMBER gate |
| LolServer.RiotRoutesNeedMember | LolAPIService/src/server.js:95 | every non-OPTIONS request below `/api/v1/riot` answers 401 without a valid token, 403 without MEMBER, and the router's response otherwise |
| LolServer.HealthNeedsNoToken | LolAPIService/src/server.js:87-92 | the health check answers 200 to a GET or HEAD from any allowed origin without an Authorization header |
| LolServer.RiotWithoutTokenIs401 | LolAPIService/src/server.js:36-41 | a non-OPTIONS Riot request without an origin or a token is a 401 `Missing token` whatever CORS_ORIGIN says |
| LolServer.PreflightNeedsNoToken | LolAPIService/src/server.js:78 | every OPTIONS request from an allowed origin is answered 204 on any path, token or not |
| LolServer.RiotPathIsNotHealth | LolAPIService/src/server.js:87-95 | no path below `/api/v1/riot` is the health path |
| UserStore.TokenRole | UserSerivce/src/store/memory.js:13-14 | a token is a LEADER's exactly when its roles claim includes LEADER, otherwise a MEMBER's; a roles claim that is neither an array nor a string is a TypeError |
| UserStore.RolesClaimOfClaims | UserSerivce/src/store/memory.js:13 | the roles claim is the `realm_access.roles` array when there is one, and `[]` without `realm_access` |
| UserStore.TokenRoleOfClaims | UserSerivce/src/store/memory.js:13-14 | with an array of realm roles the role is LEADER exactly when the array holds "LEADER"; without `realm_access` it is MEMBER |
| UserStore.NewUser | UserSerivce/src/store/memory.js:16-26 | a new user gets the new id, the subject, the keycloak provider, the role, is active and is stamped now; a truthy email and preferred_username are kept as given, a missing one falls back to `<sub>@placeholder.local` and `user_<first 8 of sub>` respectively |
| UserStore.Record | UserSerivce/src/store/memory.js:12-35 | recording an accepted token always returns a user |
| UserStore.Upsert | UserSerivce/src/store/memory.js:9-36 | a token without a truthy sub throws `Token missing sub`; a failed upsert leaves the indexes unchanged; it succeeds exactly when the token has a string sub and a readable role |
| UserStore.UpsertCreates | UserSerivce/src/store/memory.js:15-28 | the first token of a subject creates one user, stored under the new id and under the subject |
| UserStore.UpsertExisting | UserSerivce/src/store/memory.js:29-34 | a later token of the same subject returns the same user with only the role changed, and the update time only when the role changed; no other user is touched and no id is added |
| UserStore.RecordExisting | UserSerivce/src/store/memory.js:29-34 | the same for an already recorded subject |
| UserStore.RecordKeepsUsersOk | UserSerivce/src/store/memory.js:12-34 | recording keeps both indexes consistent: every user under its own id, every subject leading to that same user |
| UserStore.UpsertKeepsUsersOk | UserSerivce/src/store/memory.js:9-36 | every upsert with an unused id keeps the indexes consistent |
| UserStore.RecordAgain | UserSerivce/src/store/memory.js:12-34 | recording the same subject and role twice changes nothing the second time |
| UserStore.UpsertIdempotent | UserSerivce/src/store/memory.js:9-36 | upserting the same token twice gives the same indexes and the same user as upserting it once |
| UserStore.NewMember | UserSerivce/src/store/memory.js:46-55 | a new member gets the new id, a null email when none is given, the username as given (undefined stays undefined), MEMBER when no role is given, is active and stamped now |
| UserStore.AddTo | UserSerivce/src/store/memory.js:56 | adding stores the member under its id; a new id goes last in the order |
| UserStore.Without | UserSerivce/src/store/memory.js:65 | removing a key keeps exactly the other keys, still each once |
| UserStore.DeleteFrom | UserSerivce/src/store/memory.js:64-66 | deleting reports true exactly when the id was stored, and removes it |
| UserStore.List | UserSerivce/src/store/memory.js:42-44 | the list has one entry per key in insertion order, each the stored member |
| UserStore.AddKeepsMembersOk | UserSerivce/src/store/memory.js:46-58 | adding keeps the order and the map in step |
| UserStore.DeleteKeepsMembersOk | UserSerivce/src/store/memory.js:64-66 | deleting keeps them in step, removes the id and leaves every other member as it was |
| UserStore.ListEachOnce | UserSerivce/src/store/memory.js:42-44 | every stored member is listed exactly once, and nothing else is |
| UserStore.ListLength | UserSerivce/src/store/memory.js:42-44 | the list is as long as the number of members |
| UserStore.DistinctCard | UserSerivce/src/store/memory.js:42-44 | a list of distinct keys has as many elements as its set of keys |
| UserStore.AddThenList | UserSerivce/src/store/memory.js:46-58 | after adding a new member the list is the old list followed by that member |
| UserStore.MemoryStore.constructor | UserSerivce/src/store/memory.js:1-3 | the store starts with no users and no members |
| UserStore.MemoryStore.UpsertUserFromToken | UserSerivce/src/store/memory.js:9-36 | the store's user indexes and the result become what Upsert gives; the members are untouched; the store stays consistent with an unused id |
| UserStore.MemoryStore.GetUserById | UserSerivce/src/store/memory.js:38-40 | the user stored under the id, or null exactly when there is none |
| UserStore.MemoryStore.ListMembers | UserSerivce/src/store/memory.js:42-44 | the members in insertion order |
| UserStore.MemoryStore.AddMember | UserSerivce/src/store/memory.js:46-58 | returns the new member and stores it as AddTo says; the users are untouched |
| UserStore.MemoryStore.GetMember | UserSerivce/src/store/memory.js:60-62 | the member stored under the id, or null exactly when there is none |
| UserStore.MemoryStore.DeleteMember | UserSerivce/src/store/memory.js:64-66 | true exactly when the member was there; the members become what DeleteFrom gives |
| ClanController.ClanController.constructor | UserSerivce/src/controllers/clan.controller.js:1-3 | the controller works on the given store |
| ClanController.ClanController.ListMembers | UserSerivce/src/controllers/clan.controller.js:4-7 | 200 with a success envelope whose `members` are the stored members as JSON, one per stored id, in insertion order |
| ClanController.ListIsOnePage | UserSerivce/src/controllers/clan.controller.js:5-6 | the listing's page covers the whole list: limit and total are the number of stored members, and every stored member is listed |
| ClanController.ClanController.AddMember | UserSerivce/src/controllers/clan.controller.js:9-16 | without a truthy username (also without a body) it answers 400 INVALID_INPUT and adds nothing; otherwise 201 with the member added to the store |
| ClanController.ClanController.GetMember | UserSerivce/src/controllers/clan.controller.js:18-23 | 200 with the member exactly when it is stored, otherwise 404 NOT_FOUND |
| ClanController.ClanController.DeleteMember | UserSerivce/src/controllers/clan.controller.js:25-30 | 200 exactly when the member was stored, and it is then gone; otherwise 404 NOT_FOUND |
| IngestionProxy.Base | UserSerivce/src/routes/ingestion.proxy.route.js:7 | the configured base, or the local default, without trailing slashes |
| IngestionProxy.ProxyUrl | UserSerivce/src/routes/ingestion.proxy.route.js:9-11 | the base and the path are joined with exactly one slash between them |
| IngestionProxy.TrailingSlashesIgnored | UserSerivce/src/routes/ingestion.proxy.route.js:7-11 | a configured base with a trailing slash reaches the same URLs as without it |
| IngestionProxy.Unavailable | UserSerivce/src/routes/ingestion.proxy.route.js:31-34 | an unavailable upstream answers 503 with `success: false` |
| IngestionProxy.Headers | UserSerivce/src/routes/ingestion.proxy.route.js:16-19 | the caller's Authorization header is always forwarded (empty when absent); a JSON content type is sent exactly when there is a body; no other header |
| IngestionProxy.Request | UserSerivce/src/routes/ingestion.proxy.route.js:13-21 | the request goes to the joined URL with the given method or GET, those headers, and the body only when it is truthy |
| IngestionProxy.Answer | UserSerivce/src/routes/ingestion.proxy.route.js:20-34 | a JSON content type relays the parsed JSON with the upstream status, any other relays the text; an unreachable upstream or unreadable JSON is a 503 carrying the error's message |
| IngestionProxy.StatusIsUpstreamOr503 | UserSerivce/src/routes/ingestion.proxy.route.js:22-34 | the answer's status is the upstream's, or 503 QUEUE_UNAVAILABLE exactly when the upstream failed |
| IngestionProxy.BodyOrEmpty | UserSerivce/src/routes/ingestion.proxy.route.js:37-55 | the forwarded POST body is always truthy and is the incoming body whenever that is truthy |
| IngestionProxy.Proxy | UserSerivce/src/routes/ingestion.proxy.route.js:37-71 | a proxied call goes to its route's path under the configured base with the caller's authorization; POST routes send their body (an empty object when there is none) as JSON, GET routes send nothing; the answer keeps the upstream status, or is 503 QUEUE_UNAVAILABLE when the upstream failed |
| IngestionProxy.BodiesOfRoutes | UserSerivce/src/routes/ingestion.proxy.route.js:37-71 | every POST route sends a JSON body (an empty object without an incoming one); the GET routes send neither body nor content type |
| IngestionProxy.JobUrlSegment | UserSerivce/src/routes/ingestion.proxy.route.js:57-61 | a job id reaches the upstream as one encoded segment after `/ingestion/jobs/` that decodes back to the id |
| SampleRiot.ReadOfUndefined | samples/backend/riot.js:42-48 | reading a property of undefined is a TypeError without a status |
| SampleRiot.IdsUrl | samples/backend/riot.js:23-29 | the listing URL carries the count as given, 1 without one |
| SampleRiot.CountDefaultsToOneUnclamped | samples/backend/riot.js:23-41 | without a count the sample asks for the same listing as the clamping client asked for one; above 100 the two ask for different listings |
| SampleRiot.LatestMatch | samples/backend/riot.js:39-45 | succeeds exactly when the account, the listing and the first detail succeed and the listing is non-empty, with the first id's detail after three requests in order; an empty listing throws `No matches found`, an undefined one a TypeError, any upstream error is rethrown |
| SampleRiot.Kda | samples/backend/riot.js:47-52 | the KDA of the first participant with that game name and tagline; `No participant found` exactly when there is none; a TypeError without info or participants |
| SampleRiot.KdaReadsBack | samples/backend/riot.js:47-52 | a participant's KDA string splits into three parts that parse back to the kills, deaths and assists |
| FrontendApi.ComposeHeaders | Frontend/src/lib/api.js:3-7 | the caller's headers, overridden by `Authorization: Bearer <token>` exactly when the token is non-empty and by the JSON content type exactly when there is a body; nothing else is added |
| FrontendApi.Http | Frontend/src/lib/api.js:1-20 | the request goes to the base and path joined with one slash, with the caller's method and body and the composed headers; the call resolves exactly when the response is ok, to the body read as JSON or text, and otherwise throws `<status> <code>: <message>` |
| FrontendApi.EnvelopeErrorText | Frontend/src/lib/api.js:14-17 | a failed response with the services' error envelope is reported with that envelope's code and message |
| FrontendApi.PlainErrorText | Frontend/src/lib/api.js:14-17 | a failed response without a JSON body is reported with HTTP_ERROR and the status text |
| FrontendApi.Send | Frontend/src/lib/api.js:22-54 | each call goes to its path under the base, carries a bearer header exactly when there is a token, and a JSON content type exactly when it has a body |
| FrontendApi.ClanMemberPathSegments | Frontend/src/lib/api.js:28-29 | a member id travels as one encoded segment after `/clan/members/` and decodes back to itself |
| FrontendApi.JobPathSegments | Frontend/src/lib/api.js:36 | a job id travels as one encoded segment after `/ingestion/jobs/` and decodes back to itself |
| FrontendApi.EncodedSegments | Frontend/src/lib/api.js:28-36 | a two-segment prefix followed by an encoded id splits into exactly those three segments |
| FrontendApi.WeeklyPairs | Frontend/src/lib/api.js:47-49 | the query holds one pair per given value of start and end |
| FrontendApi.WeeklyPairsSeparatorFree | Frontend/src/lib/api.js:47-50 | no pair of the weekly query contains `&` or is empty |
| FrontendApi.WeeklyQuery | Frontend/src/lib/api.js:46-52 | the weekly path has a `?` query exactly when start or end is given, and that query splits back into exactly the given pairs |
| FrontendApi.JoinOfNonEmptyHead | Frontend/src/lib/api.js:50 | a query whose first pair is non-empty is non-empty |
| SampleBackend.SqlText | samples/backend/index.js:59-61 | a TEXT column holds NULL exactly for an undefined or null value, and a string as itself |
| SampleBackend.TagOf | samples/backend/index.js:20-23 | the lookup finds a row exactly when some row has that name, and gives the tag of such a row |
| SampleBackend.LookupAfterInsert | samples/backend/index.js:20-23 | a name already present keeps the tag of its first row after more rows are added; a new name is found with the tag it was added with |
| SampleBackend.RowOf | samples/backend/index.js:94 | the bound row carries the item's match id as a TEXT value, the registration time, and `''` as registrant when the item has none |
| SampleBackend.InsertOrIgnore | samples/backend/index.js:92-94 | a row whose match id is already registered is ignored; any other row, a NULL id included, is appended |
| SampleBackend.InsertAllStep | samples/backend/index.js:93-95 | binding one more item extends the table by that item's INSERT OR IGNORE |
| SampleBackend.FirstNull | samples/backend/index.js:93-95 | the first null item, before which every item can be read |
| SampleBackend.InsertAllKeepsRows | samples/backend/index.js:92-95 | registering never changes or removes a row already in the table |
| SampleBackend.InsertAllKeepsKeysDistinct | samples/backend/index.js:47 | registered match ids stay unique |
| SampleBackend.InsertAllRegisters | samples/backend/index.js:93-95 | after registering, every item with a non-null id is in the table |
| SampleBackend.InsertAllOfRegistered | samples/backend/index.js:92-95 | items whose ids are all registered already change nothing |
| SampleBackend.Reregistering | samples/backend/index.js:86-100 | registering the same matches again, at any later time, leaves the table as after the first time |
| SampleBackend.WindowOfPage | samples/backend/index.js:104-115 | the page is the slice from `(page-1)*size` to `page*size`, cut off at the end of the listing, never longer than the page size |
| SampleBackend.PagesCover | samples/backend/index.js:104-115 | walking pages 1 to k in order visits the first k*size ids, each once, in listing order |
| SampleBackend.DefaultPageIsFirstFive | samples/backend/index.js:104-105 | without query parameters the page is the first five ids, or all of them when there are fewer |
| SampleBackend.KdaOf | samples/backend/index.js:120-130 | the counts exist exactly when the detail has an array of participants and one has the player's PUUID, and they are the first such participant's |
| SampleBackend.SummaryOf | samples/backend/index.js:116-139 | each entry carries its own match id; a failed or empty detail, or a start time that cannot be formatted, gives the fallback entry; otherwise the queue id or `-`, the ISO date of a non-zero start or null, and the player's KDA |
| SampleBackend.Summaries | samples/backend/index.js:116-140 | one entry per id of the page, in page order, each from its own detail reply |
| SampleBackend.Db.constructor | samples/backend/index.js:40-51 | both tables start empty |
| SampleBackend.Db.AddMember | samples/backend/index.js:54-67 | without a truthy name 400 and nothing inserted; otherwise one row appended with the next id, the name and the tag (NULL when absent), and the id, name and tag echoed |
| SampleBackend.Db.RegisterMatches | samples/backend/index.js:86-100 | 400 and no change unless the body is a non-empty array; otherwise the items before the first null one are bound in order with INSERT OR IGNORE, and a null item throws after them |
| SampleBackend.Db.LatestMatchRoute | samples/backend/index.js:16-34 | 404 exactly for an unknown member; otherwise the latest match of the name and stored tag, or 400 with the error's message |
| SampleBackend.Db.MatchesRoute | samples/backend/index.js:102-146 | 404 exactly for an unknown member, 400 for a failed PUUID or listing request; otherwise one entry per id of the requested page, in order, and the total of the whole listing |
| GenOpenapi.ParseArgs | LolAPIService/scripts/gen-openapi.mjs:12-28 | the loop gathers exactly the options the left-to-right scan from the third token defines |
| GenOpenapi.Untouched | LolAPIService/scripts/gen-openapi.mjs:14-26 | an option no later token names keeps whatever it had |
| GenOpenapi.ReachesOption | LolAPIService/scripts/gen-openapi.mjs:19-21 | an option token is never swallowed as the value of the token before it |
| GenOpenapi.LastOccurrenceWins | LolAPIService/scripts/gen-openapi.mjs:12-28 | the last `--key` decides the option: the next token when it is non-empty and not an option, `true` otherwise |
| GenOpenapi.KeysAreOptions | LolAPIService/scripts/gen-openapi.mjs:14-16 | every option comes from some `--key` token; other tokens and the first two entries are ignored |
| GenOpenapi.Setting | LolAPIService/scripts/gen-openapi.mjs:39-41 | an option wins over the environment, which wins over the default |
| GenOpenapi.Resolve | LolAPIService/scripts/gen-openapi.mjs:42-52 | an absolute path is kept, any other is the root, one `/` and the path, so an absolute root gives absolute paths |
| GenOpenapi.OutPath | LolAPIService/scripts/gen-openapi.mjs:42-44 | the output path is `openapi.json` under the root by default and the resolved `--out` value when one is given; `--out` without a value throws and nothing else does |
| GenOpenapi.ResolveAll | LolAPIService/scripts/gen-openapi.mjs:52 | each glob is resolved in place, none dropped or reordered |
| GenOpenapi.Apis | LolAPIService/scripts/gen-openapi.mjs:46-52 | the option, else OPENAPI_APIS, split on commas, trimmed and without empty entries, each resolved; the two default globs when neither is given; `--apis` without a value throws |
| GenOpenapi.ApisOfList | LolAPIService/scripts/gen-openapi.mjs:48-52 | a comma list of clean globs is read back as exactly those globs |
| GenOpenapi.Resolved | LolAPIService/scripts/gen-openapi.mjs:30-61 | the settings exist exactly when neither `--out` nor `--apis` is given without a value; each setting comes from its option, its environment variable or its default |
| GenOpenapi.DefaultsWithoutArguments | LolAPIService/scripts/gen-openapi.mjs:39-52 | without arguments the script writes `openapi.json` under the root and documents the two default globs there |
| IngestLatest.Job.constructor | RiotDataService/src/workers/processors/ingestLatest.js:4 | a job starts with its data, progress 0, and no reports or log lines |
| IngestionRoute.IngestQueue.constructor | RiotDataService/src/routes/ingestion.route.js:8-17 | the queue starts empty, with the first id 1 |
| Persist.Db.constructor | RiotDataService/src/services/persist.service.js:1 | all four tables start empty |
| Persist.LastWithKey | RiotDataService/src/services/persist.service.js:36-74 | the last participant sharing a row key with a given one |
| Json.OkBody | RiotDataService/src/routes/ingestion.route.js:24 | the success envelope carries `success: true` and the data |
| Json.ErrorBody | UserSerivce/src/controllers/clan.controller.js:12 | the error envelope carries `success: false` and the code and message |
| Json.EnvelopesDiffer | UserSerivce/src/controllers/clan.controller.js:12-22 | a success envelope is never an error envelope, and the code reads back from an error envelope only |
| Json.MixedCaseJsonType | UserSerivce/src/routes/ingestion.proxy.route.js:22-24 | any content type holding some upper- or lower-case spelling of `application/json`, whatever precedes or follows it, is recognised as JSON |
| Common.ToLowerAscii | Frontend/src/lib/api.js:9 | lower-casing keeps the length and changes exactly the ASCII capitals |
| Common.ParseIntOr | samples/backend/index.js:104-105 | an absent value gives the default, and a non-zero default never yields 0 |
| Common.ParseIntOrOfNatToString | samples/backend/index.js:104-105 | a positive number written in decimal is read back as itself |
| Common.SplitJoin | LolAPIService/src/server.js:66 | the pieces of a split hold no separator and join back to the string |
| Common.JoinSplit | Frontend/src/lib/api.js:50 | splitting a join of separator-free pieces gives back the pieces |
| Common.SplitTrimmedOfJoin | LolAPIService/scripts/gen-openapi.mjs:49-51 | a join of non-empty, trimmed, separator-free entries splits, trims and filters back to the same entries |
| Url.JoinUrlSingleSlash | Frontend/src/lib/api.js:2 | exactly one slash separates base and path, whatever slashes either brought |
| Url.JoinUrlIgnoresExtraSlashes | Frontend/src/lib/api.js:2 | an extra slash at the end of the base or the start of the path changes nothing |
| Url.JoinUrl | Frontend/src/lib/api.js:2 | the URL is the base without trailing slashes, one `/`, and the path without leading slashes, with no other slash at the junction |
| Url.EncodeUriComponentRoundTrip | Frontend/src/lib/api.js:28 | `decodeURIComponent` gives back every string `encodeURIComponent` encoded |
| Url.EncodedComponentIsOneSegment | Frontend/src/lib/api.js:28 | an encoded component holds no `/`, `?`, `#` or `&` |
| Url.FormEncodedHasNoDelimiter | Frontend/src/lib/api.js:47-50 | a form-encoded name or value holds no `&`, `=`, `?` or `#` |
| Url.StripTrailingIdempotent | UserSerivce/src/routes/ingestion.proxy.route.js:7 | removing trailing slashes twice is removing them once |

## Left out

- The Riot API, the upstream services, `fetch` and `axios` are not called. Their replies, including thrown transport errors, are parameters (`Upstream`, `Reply`, `Fetched`, `Incoming`). Timeouts and retry behaviour are not modelled.
- JWT signature checking, JWKS retrieval and OIDC discovery are replaced by a given verification outcome (the payload, or an error name).
- BullMQ and Redis are replaced by a sequential map of job records. Job ids come from a counter rendered in decimal. Retention options are recorded but not enforced. Concurrency, leases, retries and the worker's event logging are not modelled.
- Prisma and SQLite are replaced by maps and sequences. Store failures, transactions and the 500 answers of failed queries are not modelled, so `updateCursor` never fails in the model.
- `genId` randomness and `Date.now`/`toISOString` are fresh-id and timestamp parameters. An id collision cannot happen because fresh ids are required. `toISOString` of a match start time is a given function `iso`.
- JavaScript numbers are integers. NaN appears only where `parseInt` or `Number` can produce it, and floating point is left out. The progress value `5 + Math.round(95·k/n)` is computed exactly in integers.
- RiotClient.EnvNumber: reads hexadecimal, exponent, fractional and `Infinity` forms of `Number` as NaN.
- IngestionRoute.EnqueuedData: takes a body count to be absent, null or an integer. A string or fractional count, which would reach the Riot listing as `NaN` or unrounded, is not modelled.
- `JSON.stringify` of request bodies is not modelled; the model passes the JSON value that would be serialised.
- `toLowerCase` is modelled on ASCII letters only.
- Strings are sequences of Unicode scalar values, not UTF-16 code units. `sub.slice(0, 8)` in `upsertUserFromToken` takes eight scalars, where JavaScript counts code units and can split a surrogate pair. A lone surrogate, on which `encodeURIComponent` throws URIError (the Riot clients' name encoding and the frontend's path and query encoding), cannot be represented, so that error path is not modelled.
- `path.join` normalisation (`..`, repeated slashes) is not modelled. Absolute paths are POSIX paths.
- Reading `package.json`, running the documentation generator and writing the output file in the OpenAPI script are left out. The package version is a parameter.
- Express routing details are not modelled: case-insensitive and trailing-slash matching, body parsing, `helmet` headers, and the rate limiter's counting (only its settings are). A handler's request is given already parsed.
- The server's copy of `getValueByPath`, `authenticate` and `requireRole` in LolAPIService/src/server.js:19-62 is identical to the user service's middleware, so the model defines them once, in `Auth`.
- The sample backend's `GET /api/members` and `GET /api/matches` listings are plain table reads. The ordering by `registeredAt` is not modelled.
- SampleBackend.SqlText: gives the string form of non-string primitives without modelling how SQLite converts objects and arrays.
- The detail requests of the paged match list run concurrently in the source (`Promise.all`). The model answers request j of the page with `detail(j)` and does not record the URLs requested.
- Console logging in every service is left out, except the job log lines of the ingestion processor.
- UserStore.Upsert: refuses every truthy non-string `sub` with the TypeError of `sub.slice`. The source throws it only when it has to build a username from the subject; given a `preferred_username` it stores a user under a non-string subject.
- The in-memory store's maps hold values rather than shared objects. A user returned by `upsertUserFromToken` and later changed through the store is not aliased in the model.
- The browser UI, AnalysisService, the DTO classes, the entry points and the other services' copies of the CORS and auth code are not part of this model.
