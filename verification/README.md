# InstantBoard: verified protocols

A Dafny model of the stateful protocols of InstantBoard, a FastAPI and Redis service with a
Vue client, and proofs of what they keep over whole runs. The model shares three notions:

- the clock is a non-decreasing integer number of seconds, passed in by the caller;
- Redis is a map from keys to a value and an optional expiry, and an entry is live strictly
  before its expiry (`RedisStore.dfy`);
- each handler is one atomic step.

An object whose methods update its fields is a class here too. Its methods are proved equal
to functions on values, and the run-level theorems are lemmas about those functions.

| file | what it holds |
|---|---|
| `Wrappers.dfy`, `Constants.dfy` | a value that may be missing; constants that several services share |
| `RedisStore.dfy`, `Arithmetic.dfy` | keys with expiry; powers of two and facts about products |
| `LockoutPolicy.dfy`, `AdminLogin.dfy` | one dimension of the brute-force protection; the admin login over both |
| `RefreshTokens.dfy` | minting, the blacklist, refresh and logout; the chain of rotations of a login |
| `EventRouter.dfy`, `EventHistory.dfy` | the SSE router and its index; the capped history behind replay |
| `Scheduler.dfy`, `Worker.dfy` | the scheduler manager; the worker that follows the sources table |
| `SourceHealth.dfy`, `Collector.dfy` | the two health records of a source; the base collector |
| `RoundRobin.dfy`, `ApiKeys.dfy` | rotation over a pool with blocked places; the key pool |
| `KeyRequests.dfy`, `Finnhub.dfy` | logs of requests that carry an API key; the loop that sends them |
| `Tags.dfy`, `ItemScan.dfy`, `Reclassify.dfy` | tag extraction and order; a paged scan against one pass; reclassification |
| `ReconnectClient.dfy` | the browser's reconnecting event stream |
| `IndexFailover.dfy` | progressive failover for market indices |
| `ProcessorChain.dfy` | the processing chain with deduplication first |

Some promises turn out to hold under a condition only, and the model says exactly which:

- A disconnected client stays disconnected if and only if every pending timer is the one
  whose handle is stored (`DisconnectIsFinalIff`). A `connect` by hand between two failures
  breaks it (`StrayTimerReopens`), and over a run that call is the only thing that can make
  the timer state wrong (`TimerRightIffClean`).
- A success forgets an e-mail's failures, so the lockout bound grows with the logins: a span
  of 900 s with n of them holds at most 8 + 4n failed password checks for the e-mail
  (`EmailLockoutBound`), and for every n some run of attempts reaches that number
  (`EmailBoundIsReached`).
- An API key that was rejected for a quote is used for another quote of the same batch only
  after a 429 whose cooldown has run out (`BatchIsExplained`). Where none runs out, no such
  key is used again, each is rejected at most once and the attempt limit cuts nothing off
  (`QuickBatchGoesWell`). Where one does, a key is used and rejected again and the limit is
  reached (`LapseNeedsTheCondition`). All of this is about quote requests: a rejection of the
  profile request that follows a quote is ignored, and the key stays in use
  (`ProfileRejectionsGoUnmarked`).
- Failing over symbol by symbol gives the item of the first source that has it if and only
  if the first source that answers names the asked symbol itself
  (`SingleFailoverIsFirstHavingIff`). Eastmoney, asked for one symbol, answers with its fixed
  list of indices, so a Chinese stock that the next source has becomes an index
  (`StockBecomesAnIndex`). The progressive batch translates that list, and every index comes
  from the first source that has it, whatever the list holds (`EastMoneyComesFirst`).
- The interval of an active source can be changed by an update that publishes nothing: a call
  keeps the jobs in step with the rows if and only if it is not one (`CallKeepsStepIff`).
  Without such updates every job ends up at the interval its row asks for
  (`IntervalsConverge`).
- `add_job` on an existing job reschedules it but keeps the recorded original interval, so
  four recorded successes return to the interval the job was first added with, whatever it
  was rescheduled to later (`FourSuccessesRecover`).

Where code and comment disagree the model follows the code: `_recompute_item_tags` says that
it rebuilds tags exactly as at collection time, but a stored item has no `type`, so the
finance rules that look at it never apply.

## Model

| member | source | states |
|---|---|---|
| `RedisStore.Incr` | backend/app/services/auth.py:424 | INCR keeps the expiry of a live counter and starts a lapsed one at 1 without any |
| `RedisStore.Store.Get` | backend/app/core/redis.py:150-153 | an entry reads as absent from its expiry on |
| `RedisStore.Store.Set` | backend/app/core/redis.py:155-160 | SET replaces value and expiry together |
| `LockoutPolicy.InvHolds` | backend/app/services/auth.py:416-428 | every possible event keeps: a live counter never exceeds its threshold and expires within one window, and at the threshold a live lock outlasts it |
| `LockoutPolicy.RoomBounds` | backend/app/services/auth.py:384-434 | once a span has begun, the state and the successes still to come bound the failures left in it |
| `LockoutPolicy.SpanBound` | backend/app/services/auth.py:384-434 | for every policy whose lock is at least as long as its window, any window-long span with n successes has at most 2 * threshold - 2 + n * (threshold - 1) failures |
| `LockoutPolicy.RoundsRun` | backend/app/services/auth.py:416-434 | n rounds that stop one failure short and succeed, and a last one that does not stop, are a possible run |
| `LockoutPolicy.SpanBoundIsReached` | backend/app/services/auth.py:416-434 | for every n some run reaches that number, so the bound is exact |
| `AdminLogin.AuthService.CheckAdminLoginLocks` | backend/app/services/auth.py:384-393 | an attempt passes exactly when neither its e-mail nor its IP is locked |
| `AdminLogin.AuthService.RegisterAdminLoginFailure` | backend/app/services/auth.py:416-428 | the counter, its expiry on the first failure and the lock at the threshold |
| `AdminLogin.AuthService.RecordAdminLoginFailure` | backend/app/services/auth.py:395-414 | a failed check counts for the e-mail and for the IP |
| `AdminLogin.AuthService.ClearAdminLoginFailures` | backend/app/services/auth.py:430-434 | a success forgets the e-mail's counter and nothing else |
| `AdminLogin.AuthService.AdminLogin` | backend/app/services/auth.py:131-176 | outcome and new store of every attempt, in the order disabled, locked, wrong password, success |
| `AdminLogin.StepProjects` | backend/app/services/auth.py:131-176 | each subject sees an attempt as one step of its own policy, whatever the other dimension does |
| `AdminLogin.RunProjects` | backend/app/services/auth.py:131-176 | a whole run, seen by one subject, is a possible run of its policy with the same failures and, for an e-mail, the logins as successes |
| `AdminLogin.IpLockoutBound` | backend/app/core/constants.py:17-22 | any 3600 s span of any run has at most 38 failed password checks from one IP |
| `AdminLogin.EmailLockoutBound` | backend/app/core/constants.py:17-22 | any 900 s span with n logins as an e-mail has at most 8 + 4n failed checks for it, so at most 8 without a login |
| `AdminLogin.Realise` | backend/app/services/auth.py:131-176 | every possible run of failures and successes of an e-mail, and every one of failures of an IP, comes from a run of real attempts by strangers in the other dimension |
| `AdminLogin.EmailBoundIsReached` | backend/app/core/constants.py:17-19 | for every n some run of attempts with n logins in a 900 s span has exactly 8 + 4n failed checks in it |
| `AdminLogin.IpBoundIsReached` | backend/app/core/constants.py:20-22 | some run of attempts has exactly 38 failed checks from one IP in a 3600 s span |
| `AdminLogin.OutcomesAreExact` | backend/app/services/auth.py:131-176 | disabled exactly without a complete configuration, rejected exactly when a lock of the e-mail or the IP is live, and otherwise a login exactly for the configured e-mail with a verified password |
| `AdminLogin.OnlyTheAdminLogsIn` | backend/app/services/auth.py:152-168 | over any run nobody logs in with an e-mail that is not configured, whatever the passwords |
| `RefreshTokens.AuthService.AddTokenToBlacklist` | backend/app/core/security.py:64-75 | a token that decodes is blacklisted under its jti for the given or the remaining time |
| `RefreshTokens.AuthService.LogIn` | backend/app/core/security.py:22-53 | a login mints an access token for an hour and a refresh token for seven days under fresh ids, both for its user, and the refresh token's version is its jti |
| `RefreshTokens.AuthService.RefreshToken` | backend/app/services/auth.py:203-245 | which of the six outcomes a refresh has, and that only a success spends the token |
| `RefreshTokens.AuthService.Logout` | backend/app/services/auth.py:265-276 | both tokens passed to logout are blacklisted, the access token only while it is valid |
| `RefreshTokens.AuthService.IsTokenBlacklisted` | backend/app/core/security.py:78-86 | a token that decodes is listed exactly while an entry under its jti is live |
| `RefreshTokens.AuthService.GetCurrentUser` | backend/app/dependencies.py:34-54 | a revoked token is refused first, then all but access tokens that decode; the others are admitted as their user |
| `RefreshTokens.NextFollowsTheService` | backend/app/services/auth.py:203-276 | recording the lineage of a token never changes what the service does at a login, a refresh or a logout |
| `RefreshTokens.InvHolds` | backend/app/services/auth.py:203-276 | every step keeps: whatever blacklists a token outlives it, and a login has at most one refresh token that is not spent |
| `RefreshTokens.AtMostOneAcceptable` | backend/app/services/auth.py:203-245 | in every run, two acceptable refresh tokens of one login are the same token |
| `RefreshTokens.SpentForGood` | backend/app/services/auth.py:203-245 | a refresh token once accepted, or passed to logout in either argument, is never accepted later in the run |
| `RefreshTokens.BlacklistKeepsTheLedger` | backend/app/core/security.py:64-95 | along every run an unexpired token of either kind is on the blacklist exactly if some call has spent it |
| `RefreshTokens.AcceptableIff` | backend/app/services/auth.py:203-245 | after every run an issued refresh token is acceptable exactly if it has not expired, its user exists, the kill-switch does not concern it and no call so far has accepted it or logged it out |
| `RefreshTokens.LogoutEndsTheLogin` | backend/app/services/auth.py:265-276 | logging out with the acceptable token ends its login: no token of it, present or future, is accepted again |
| `RefreshTokens.KillSwitchKeepsTheToken` | backend/app/services/auth.py:203-225 | a rejection by the kill-switch consumes nothing, and says exactly when the token is accepted later |
| `RefreshTokens.LoginIssuesItsPair` | backend/app/core/security.py:22-53 | in every run a login issues its pair under ids that nobody had, as a lineage of its own, and the refresh token is accepted for seven days unless the kill-switch concerns it |
| `RefreshTokens.RefreshIssuesItsAnswer` | backend/app/services/auth.py:226-245 | in every run an accepted refresh hands back exactly the pair it issues: new ids, the user, provider and lineage of the spent token, accepted for seven days; the spent token is blacklisted until it expires and refused from then on |
| `RefreshTokens.LoginKeepsItsUser` | backend/app/services/auth.py:226-245 | over every run all tokens of a login are for its user and, once named, its provider, so the kill-switch stops every later token of a local one |
| `RefreshTokens.RefusalsAreExact` | backend/app/services/auth.py:203-224 | after every run, which of the five refusals an issued token gets, in terms of its expiry, its kind, the kill-switch, the calls so far and the users |
| `RefreshTokens.AdmittedIff` | backend/app/dependencies.py:34-54 | after every run exactly the issued access tokens that have not expired and that nothing has spent are admitted, each as its user |
| `RefreshTokens.OnlyLogoutSpendsAccess` | backend/app/services/auth.py:265-276 | an access token is spent exactly by a logout that gets it |
| `RefreshTokens.LogoutWritesBoth` | backend/app/services/auth.py:265-271 | a logout lists the access token for what is left of it and the refresh token for seven days |
| `EventRouter.SSEConnection.SendEvent` | backend/app/core/sse_router.py:45-51 | a sent event is queued last and counted |
| `EventRouter.SSEEventRouter.Register` | backend/app/core/sse_router.py:61-73 | a new connection is added with an empty queue, and the index stays exact |
| `EventRouter.SSEEventRouter.AddToIndex` | backend/app/core/sse_router.py:61-73 | a listed category gains exactly the new client, no other category changes |
| `EventRouter.SSEEventRouter.Unregister` | backend/app/core/sse_router.py:75-86 | the connection is dropped and deactivated, and the index stays exact |
| `EventRouter.SSEEventRouter.RemoveFromIndex` | backend/app/core/sse_router.py:75-86 | a listed category loses exactly the client, and disappears when that leaves it empty |
| `EventRouter.SSEEventRouter.OnRedisMessage` | backend/app/core/sse_router.py:191-212 | two passes over the index do what one look at every connection would do, each queue getting the event at most once |
| `EventRouter.SSEEventRouter.SendTo` | backend/app/core/sse_router.py:191-212 | one pass hands the event to the listed clients of the right tenant outside an excluded set |
| `EventRouter.TwoPassesScan` | backend/app/core/sse_router.py:191-212 | passing over a category and then over "all" without the former equals the full scan |
| `EventRouter.ExactAfterAdding` | backend/app/core/sse_router.py:61-73 | adding a client keeps every index entry exactly the set of its listers, never empty |
| `EventRouter.ExactAfterRemoving` | backend/app/core/sse_router.py:75-86 | removing a client keeps that too |
| `EventRouter.DeliveryRefinesScan` | backend/app/core/sse_router.py:61-104 | for every run, what a connection has been sent is the log since its registration filtered by category and tenant, in order and once each |
| `EventRouter.TenantsAreIsolated` | backend/app/core/sse_router.py:191-212 | whatever a connection was sent carried no tenant or its own, and a category it lists unless it lists the aggregate |
| `EventRouter.NothingIsLost` | backend/app/core/sse_router.py:191-212 | and all of that reached it: each message dispatched since its registration under a listed category, or any for the aggregate, with no tenant or its own |
| `EventHistory.RedisPushHistory` | backend/app/core/redis.py:197-211 | LPUSH, LTRIM and EXPIRE keep the newest entries first, at most the limit, for a full TTL |
| `EventHistory.EventLog.GenerateEventId` | backend/app/core/sse_router.py:106-108 | ids carry a counter that only grows |
| `EventHistory.EventLog.PushEvent` | backend/app/core/sse_router.py:110-135 | an event is stored and published under a new id and dispatched to the local connections |
| `EventHistory.EventLog.GetMissedEvents` | backend/app/core/sse_router.py:137-183 | replay is the tenant's part of what follows the anchor in the stored order |
| `EventHistory.HistoryIsTheCappedLog` | backend/app/core/redis.py:197-211 | at every time the list is the reversed last 500 events of the log since it last expired |
| `EventHistory.CountersIncrease` | backend/app/core/sse_router.py:106-108 | ids in that log are distinct, in increasing order |
| `EventHistory.ReplayIsTheLogSuffix` | backend/app/core/sse_router.py:137-183 | an anchor among the last 500 replays exactly what the tenant may see of the log after it |
| `EventHistory.OtherAnchorsReplayNothing` | backend/app/core/sse_router.py:137-183 | any other anchor replays nothing |
| `EventHistory.ReplayComposes` | backend/app/core/sse_router.py:137-183 | stopping at any replayed event and resuming from it yields the same events |
| `EventHistory.ReplaysAreIsolated` | backend/app/core/sse_router.py:175-183 | whatever the anchor, a replay to a tenant holds only events that were pushed to the category with no tenant or with that one, each once, in the order of the pushes |
| `EventHistory.ReplayIsComplete` | backend/app/core/sse_router.py:175-183 | after an anchor among the last 500 a replay holds exactly the later log records with no tenant or the asker's, and all of them for an asker without |
| `Scheduler.ResolveEffectiveInterval` | backend/app/scheduler/manager.py:34-71 | whatever the settings hold, the interval is at least ten seconds |
| `Scheduler.FirstUsableDecides` | backend/app/scheduler/manager.py:34-71 | a usable override decides alone, failing that a usable interval of the source, and failing both the default of its type |
| `Scheduler.AsyncSchedulerManager.AddJob` | backend/app/scheduler/manager.py:113-140 | a new job records its interval and multiplier 1; an existing one only gets the interval |
| `Scheduler.AsyncSchedulerManager.AddCollectionJob` | backend/app/scheduler/manager.py:142-157 | an interval below ten seconds becomes the default of the source type |
| `Scheduler.AsyncSchedulerManager.RemoveJob` | backend/app/scheduler/manager.py:159-166 | job, original interval and multiplier go together, other jobs stay |
| `Scheduler.AsyncSchedulerManager.AddSourceJob` | backend/app/scheduler/manager.py:168-187 | a source with an id gets its job at its resolved interval |
| `Scheduler.AsyncSchedulerManager.RemoveSourceJob` | backend/app/scheduler/manager.py:189-195 | exactly the source's job goes |
| `Scheduler.AsyncSchedulerManager.RescheduleJob` | backend/app/scheduler/manager.py:209-213 | only the interval of an existing job changes |
| `Scheduler.AsyncSchedulerManager.ScheduleAllActiveSources` | backend/app/scheduler/manager.py:243-267 | the rebuild adds a job for each active source in turn |
| `Scheduler.AsyncSchedulerManager.AdaptiveReschedule` | backend/app/scheduler/manager.py:272-322 | the multiplier jumps up to its target, comes down by at most half, and scales the recorded original |
| `Scheduler.AsyncSchedulerManager.UpdateHealthAfterCollection` | backend/app/scheduler/manager.py:518-595 | the health row moves by one step of its state machine, a changed status is announced with the one before, and the job follows the new status |
| `Scheduler.ReachableMultipliers` | backend/app/scheduler/manager.py:272-322 | in every run the multiplier is one of 1, 5/4, 2, 5/2, 5, 10 |
| `Scheduler.EveryMultiplierIsReached` | backend/app/scheduler/manager.py:272-322 | each of the six occurs in some run |
| `Scheduler.NeverFasterThanOriginal` | backend/app/scheduler/manager.py:272-322 | no recorded outcome ever schedules a source faster than it was added |
| `Scheduler.FourSuccessesRecover` | backend/app/scheduler/manager.py:518-595 | from every reachable state four recorded successes give healthy, multiplier 1 and the original interval |
| `Scheduler.ThreeSuccessesMayNotRecover` | backend/app/scheduler/manager.py:518-595 | three do not, for a source that is down at multiplier 10 |
| `Scheduler.IntervalFollowsTheMultiplier` | backend/app/scheduler/manager.py:310-318 | in every run a recorded outcome leaves the interval at the recorded original times the multiplier, truncated |
| `Scheduler.FailuresStretchTheInterval` | backend/app/scheduler/manager.py:272-322 | a new source with n failures in a row is collected at its own interval, from the third on at twice and from the tenth on at ten times that |
| `Scheduler.AddingReschedules` | backend/app/scheduler/manager.py:113-140 | in every run, adding a job that is there changes its interval only, and a new one starts neutral |
| `Scheduler.OriginalIsTheFirst` | backend/app/scheduler/manager.py:113-140 | whatever happens to a job until it is removed, its recorded original is the interval it was first added with |
| `Scheduler.AnnouncementsTellTheStatus` | backend/app/scheduler/manager.py:528-593 | over every run, whoever applies the announcements knows the status; each names the one before, and none repeats it |
| `Scheduler.FirstFailureDegrades` | backend/app/scheduler/manager.py:561-577 | a source without a health row is degraded by its first failure, and healthy without an announcement after a first success |
| `Worker.SourceService.CreateSource` | backend/app/services/source.py:218-329 | result, rows and published event of a creation |
| `Worker.SourceService.UpdateSource` | backend/app/services/source.py:346-442 | an update publishes exactly when it flips the activity |
| `Worker.SourceService.DeleteSource` | backend/app/services/source.py:444-472 | result, rows and published event of a deletion |
| `Worker.HandleSourceStatusEvent` | backend/app/scheduler/worker.py:89-131 | which jobs an event leaves, with the embedded source or the looked-up one |
| `Worker.Start` | backend/app/scheduler/worker.py:282-308 | rebuild from the snapshot, then every event in order |
| `Worker.EventsTrackTheRows` | backend/app/scheduler/worker.py:89-131 | from any jobs, a source some event decides about ends with a job exactly if it is active; others keep job and activity |
| `Worker.WorkerConverges` | backend/app/scheduler/worker.py:282-308 | however many calls the snapshot already reflects, the jobs end up being exactly the active sources |
| `Worker.ResultsAreExact` | backend/app/services/source.py:346-472 | when each call succeeds: only the owner updates or deletes, and nobody deletes a source of the system tenant |
| `Worker.CallChangesOneRow` | backend/app/services/source.py:346-472 | a call that succeeds creates, deletes or updates exactly its row, an update with exactly the given fields |
| `Worker.OnlyTheOwnerChangesASource` | backend/app/services/source.py:346-472 | over every sequence of calls a source stays as it is unless its own tenant calls for it |
| `Worker.SystemSourcesStay` | backend/app/services/source.py:444-472 | over every sequence of calls a source of the system tenant stays |
| `Worker.DeliveryIsExact` | backend/app/scheduler/worker.py:89-131 | whatever a delivery carries, an announced active source, embedded or looked up, is scheduled at its resolved interval, a withdrawn one is not, and no other job changes |
| `Worker.CallKeepsStepIff` | backend/app/services/source.py:393-437 | a call and its events keep the intervals of all jobs in step with the rows exactly if it is not an update that changes the interval of a source that stays active |
| `Worker.IntervalsConverge` | backend/app/scheduler/worker.py:282-308 | if no call is such an update, every active source ends up scheduled at the interval its row asks for, however many calls the snapshot already reflects |
| `SourceHealth.StatusFollowsTheFailures` | backend/app/scheduler/manager.py:528-572 | the status read off the outcomes alone: down exactly from ten trailing failures on, and exactly when it is degraded |
| `SourceHealth.DownNeverJumpsToHealthy` | backend/app/scheduler/manager.py:528-572 | a success takes down to degraded, never to healthy |
| `SourceHealth.InvAlong` | backend/app/collectors/base.py:149-178 | the failures Redis counts never exceed those of the database row |
| `SourceHealth.DatabaseDominatesRedis` | backend/app/scheduler/manager.py:528-572 | over every run and at every time, the database severity is at least the Redis one, also after the Redis record expired |
| `SourceHealth.RowHearsItsPart` | backend/app/scheduler/manager.py:361-427 | over every run the database row reads exactly the collections that get past the pipeline, the rejected ones as failures |
| `SourceHealth.RecordHearsItsPart` | backend/app/collectors/base.py:40-100 | and the record in Redis exactly those that are not rejected |
| `Collector.BaseCollector.RateLimitCheck` | backend/app/collectors/base.py:118-137 | admission and new counter, with the expiry rewritten on each admission |
| `Collector.BaseCollector.CollectWithRetry` | backend/app/collectors/base.py:102-116 | stops at the first call that does not raise; a failing collection makes max_retries calls and sleeps base * (2^(max_retries-1) - 1) |
| `Collector.BaseCollector.RecordHealth` | backend/app/collectors/base.py:139-188 | the record after one outcome, with the truncated running average |
| `Collector.BaseCollector.Collect` | backend/app/collectors/base.py:40-100 | a collection succeeds exactly if it is admitted, some attempt within the limit is the first that does not raise, and what that brings can be parsed and validated; a rejected one leaves no health record, any other records its own outcome |
| `Collector.RateLimitHolds` | backend/app/collectors/base.py:118-137 | every 60 s span of every run admits at most the limit |
| `Collector.StretchIsCapped` | backend/app/collectors/base.py:118-137 | a stretch of any length in which no two consecutive admissions are 60 s or more apart has at most the limit of them in all |
| `Collector.NoLimitAdmitsAll` | backend/app/collectors/base.py:118-121 | a limit of zero or less admits everything |
| `Collector.RefusedExactlyWhenFull` | backend/app/collectors/base.py:118-137 | after every run a call is refused exactly when the stretch of admissions it would continue, with no gap of a minute, already holds the limit |
| `Collector.RecordCountsTheOutcomes` | backend/app/collectors/base.py:139-188 | the record's counts and status read off the outcomes: fetches, successes, trailing failures, and the status these ask for |
| `Collector.AverageStaysInRange` | backend/app/collectors/base.py:162-182 | the average lies between the smallest and the largest sample |
| `Collector.AverageNearTheMean` | backend/app/collectors/base.py:162-182 | it is never above the true mean and at most (n - 1) / 2 below it |
| `Collector.RecordIsTheLiveFold` | backend/app/collectors/base.py:139-188 | the stored record is the fold of the outcomes since it last expired |
| `RoundRobin.ServedModulo` | backend/app/core/api_keys.py:100-104 | the place a rotation serves depends on the counter modulo the pool size only |
| `RoundRobin.FairShare` | backend/app/core/api_keys.py:88-122 | over any lap of rotations a usable place is served 1 + (blocked run cyclically before it) times |
| `ApiKeys.APIKeyManager.GetKey` | backend/app/core/api_keys.py:88-122 | the answer is the first usable key from the rotation counter on, and the counter advances by one |
| `ApiKeys.APIKeyManager.MarkRateLimited` | backend/app/core/api_keys.py:124-130 | the marker lasts the cooldown |
| `ApiKeys.APIKeyManager.MarkInvalid` | backend/app/core/api_keys.py:132-138 | the marker never expires |
| `ApiKeys.APIKeyManager.Clear` | backend/app/core/api_keys.py:140-147 | both markers of a key go, nothing else |
| `ApiKeys.AnswersAreExact` | backend/app/core/api_keys.py:88-122 | a key exactly when one is usable, never a blocked one, and AllKeysUnavailable exactly when all are invalid |
| `ApiKeys.RotationIsFair` | backend/app/core/api_keys.py:88-122 | over n consecutive calls a usable key of n distinct ones is returned 1 + (blocked run before it) times |
| `ApiKeys.SharesAddUp` | backend/app/core/api_keys.py:88-122 | the counts add up to the number of calls, and blocked keys have none |
| `Finnhub.FinnhubCollector.NextKeyOrNone` | backend/app/collectors/finance/finnhub_collector.py:51-56 | the next usable key of the pool or none, and the counter advanced |
| `Finnhub.PoolOfIsFair` | backend/app/collectors/finance/finnhub_collector.py:51-56 | at every state of the pool: none exactly when every key is blocked, else a key that is not, and asking changes no marker |
| `Finnhub.FinnhubCollector.FetchSingleQuote` | backend/app/collectors/finance/finnhub_collector.py:122-149 | a quote request, and after a quote one profile request with the same key, whose answer decides nothing |
| `Finnhub.FinnhubCollector.Attempt` | backend/app/collectors/finance/finnhub_collector.py:93-117 | a 429 marks the key for the cooldown, a 401 or 403 for good, and the next usable key follows unless there is none; any other answer settles the symbol |
| `Finnhub.FinnhubCollector.FetchSymbol` | backend/app/collectors/finance/finnhub_collector.py:89-117 | at most len(keys) + 1 attempts, ended by an answer, by the limit or by a dry pool |
| `Finnhub.FinnhubCollector.FetchStockQuotes` | backend/app/collectors/finance/finnhub_collector.py:83-120 | the symbols in order, each with the key the one before left, until the pool runs dry |
| `Finnhub.RejectedKeyIsNotNext` | backend/app/collectors/finance/finnhub_collector.py:107-113 | the pool never gives back a key that has just been rejected, so the guard against the same key ends no batch that could go on |
| `Finnhub.AttemptKeepsSane` | backend/app/collectors/finance/finnhub_collector.py:93-113 | every attempt leaves a key in hand whose cooldown, if the batch rejected it, is over, or a dry pool |
| `Finnhub.SymbolStory` | backend/app/collectors/finance/finnhub_collector.py:89-117 | the quote requests for one symbol are rejections, and then what the ending says; the quote is that of the answer |
| `Finnhub.BatchIsExplained` | backend/app/collectors/finance/finnhub_collector.py:83-120 | for every batch and a clock that never runs backwards: a key rejected for a quote is used for another only after a 429 whose cooldown has run out; every symbol ends in one of the three ways, in order; no results exactly if the pool runs dry |
| `Finnhub.MarkersTellTheStory` | backend/app/collectors/finance/finnhub_collector.py:93-113 | after every batch a key is invalid exactly if it was or some answer to it was a 401 or 403, limited for 60 s from its last 429 on, and no other answer marks anything |
| `Finnhub.ProfilesFollowQuotes` | backend/app/collectors/finance/finnhub_collector.py:122-149 | in every batch a profile is looked up for exactly the quotes that come, in order, each with the key that brought it |
| `KeyRequests.RejectionKeepsSane` | backend/app/core/api_keys.py:124-138 | after a rejection every marker of the batch is still in place, and the next key is not one whose cooldown runs |
| `KeyRequests.RejectionsCountKeys` | backend/app/collectors/finance/finnhub_collector.py:83-120 | without reuse, rejected quote requests and rejected keys are equally many |
| `KeyRequests.QuickBatch` | backend/app/collectors/finance/finnhub_collector.py:83-120 | if no quote request comes a cooldown or more after a 429, no key rejected for a quote is used again and such rejections number at most the pool size |
| `KeyRequests.LimitNeedsALapse` | backend/app/collectors/finance/finnhub_collector.py:89-92 | the attempt limit cuts a symbol off only if a cooldown ran out among its own quote requests |
| `KeyRequests.QuickSymbolIsAnswered` | backend/app/collectors/finance/finnhub_collector.py:89-92 | a symbol in whose quote requests none runs out is never cut off, whatever happens to the others |
| `KeyRequests.QuickBatchGoesWell` | backend/app/collectors/finance/finnhub_collector.py:83-120 | what such a batch comes to as a whole: no reuse for a quote, at most one rejected quote request per key, and every symbol settled in order unless the pool runs dry |
| `Finnhub.LapsesReachTheLimit` | backend/app/collectors/finance/finnhub_collector.py:89-112 | with two keys, always rate limited, and a cooldown between requests, the two alternate until the attempt limit, however high |
| `Finnhub.LapseNeedsTheCondition` | backend/app/collectors/finance/finnhub_collector.py:89-112 | so the condition is needed: a key is rejected, used again and rejected again, there are more rejections than keys, and the limit is reached |
| `Finnhub.ProfilesDecideNothing` | backend/app/collectors/finance/finnhub_collector.py:139-149 | whatever the profile requests bring, results, quote requests, markers and counter are the same |
| `Finnhub.ProfileRejectionsGoUnmarked` | backend/app/collectors/finance/finnhub_collector.py:136-149 | while the quotes come, one key serves all requests of both kinds, however often it is rejected for a profile, and nothing is marked |
| `Tags.SortedAlphabetically` | backend/app/processors/categorizer.py:264-266 | a strictly increasing list of exactly the set |
| `Tags.SortTags` | backend/app/processors/categorizer.py:223-268 | exactly the set, strictly increasing by (level-1 rank, level-2 rank, alphabet) |
| `Tags.CanonicalIsUnique` | backend/app/processors/categorizer.py:223-268 | equal tag sets give equal lists |
| `Tags.ExtractTags` | backend/app/processors/categorizer.py:201-215 | the canonical list of the tags of all keywords that occur, or "general" |
| `Tags.ExtractWithLevel1` | backend/app/processors/categorizer.py:217-221 | the extracted tags as they are, with the level-1 tag in front if they lack it; no duplicates |
| `Tags.AppendingKeepsTags` | backend/app/processors/categorizer.py:201-215 | appending text removes no tag but "general", and that only for a first real one |
| `Tags.OrderIsStable` | backend/app/processors/categorizer.py:223-268 | two tags keep their relative order in every list that has both |
| `Tags.LessIff` | backend/app/processors/categorizer.py:264-266 | the alphabet decides at the first difference, and a proper prefix comes first |
| `Tags.ListsStartWithTheListed` | backend/app/processors/categorizer.py:223-268 | in every canonical list the level-1 tags come first, then the other listed ones, then the rest alphabetically |
| `Tags.EarlierListedComesFirst` | backend/app/processors/categorizer.py:223-268 | of two tags the one that the lists name first comes first |
| `Tags.KeywordAnywhereTags` | backend/app/processors/categorizer.py:201-215 | a keyword tags every text in which it occurs, wherever and in whatever case |
| `Tags.TagsComeFromKeywords` | backend/app/processors/categorizer.py:201-215 | every tag but "general" comes from a keyword whose lower-case form is a part of the text's |
| `Tags.GeneralIsTheLastResort` | backend/app/processors/categorizer.py:211-212 | "general" stands alone, and is given exactly when no keyword with a tag occurs |
| `Reclassify.RecomputeItemTags` | backend/app/services/category.py:404-420 | the tags depend on title, summary and region only, never on the stored tags |
| `Reclassify.TagsFollowTheKind` | backend/app/services/category.py:404-420 | a technical item gets its keywords' tags with the slug in front, a financial one "finance" and one rule's tag, any other the slug alone |
| `Reclassify.FirstRuleDecides` | backend/app/processors/categorizer.py:299-319 | which finance rule wins: the Chinese region before all, funds before indices, indices before commodities |
| `Reclassify.ItemTable.SelectPage` | backend/app/services/category.py:370-377 | going through the table in id order, skipping and taking matches, gives a stretch of the list of all matches |
| `ItemScan.PageIsAStretch` | backend/app/services/category.py:370-377 | a page starts at its offset, is at most a batch long, and a shorter one ends the list |
| `ItemScan.MatchingIsComplete` | backend/app/services/category.py:372 | no item of the tenant in the category is missing from the list |
| `ItemScan.MatchingIsExact` | backend/app/services/category.py:370-377 | the listed places are exactly those of the tenant's items in the category, each once, in order |
| `Reclassify.ItemTable.ReclassifyPages` | backend/app/services/category.py:366-393 | paging reads every matching row exactly once, in order, for every batch size of at least 1 |
| `Reclassify.ItemTable.ReclassifyCategoryItems` | backend/app/services/category.py:338-402 | the table ends as after a single pass, and updated counts exactly the rows whose tags differed |
| `ItemScan.OneMore` | backend/app/services/category.py:381-388 | the next row is still the original, and handling it extends the scan |
| `ItemScan.ScanKeepsMatching` | backend/app/services/category.py:370-377 | rewriting tags moves no row in or out of later pages |
| `ItemScan.AllDone` | backend/app/services/category.py:366-393 | a complete scan is one pass, and its count is the size of the set of differing rows |
| `ItemScan.SecondRunUpdatesNothing` | backend/app/services/category.py:366-393 | after one run, a second one changes and counts nothing |
| `ItemScan.PassTouchesNothingElse` | backend/app/services/category.py:366-393 | only tags change, only those of the tenant's items of the category, and these all end with what the rules give; the rows counted are those that differed |
| `ReconnectClient.SSEConnection.Connect` | frontend/src/utils/sse.ts:45-82 | connecting is ignored while online, and otherwise opens with the latest stored token |
| `ReconnectClient.SSEConnection.OnOpen` | frontend/src/utils/sse.ts:68-71 | an open connection resets the delay |
| `ReconnectClient.SSEConnection.OnError` | frontend/src/utils/sse.ts:73-84 | an error drops the EventSource and schedules a reconnect |
| `ReconnectClient.SSEConnection.ScheduleReconnect` | frontend/src/utils/sse.ts:157-165 | one timer with the current delay, which then doubles up to a minute |
| `ReconnectClient.SSEConnection.OnTimer` | frontend/src/utils/sse.ts:160-162 | a timer that fires connects and leaves the stored handle behind |
| `ReconnectClient.SSEConnection.Disconnect` | frontend/src/utils/sse.ts:116-127 | only the stored timer is cancelled, the EventSource is dropped |
| `ReconnectClient.SSEConnection.UpdateToken` | frontend/src/utils/sse.ts:141-150 | an online client reconnects, any other one only keeps the token |
| `ReconnectClient.SourceAlong` | frontend/src/utils/sse.ts:45-165 | on every run an EventSource is held exactly while connecting or connected |
| `ReconnectClient.StatesFollowTheEvents` | frontend/src/utils/sse.ts:45-165 | in every run, the state after each event |
| `ReconnectClient.StreamsCarryTheLatestToken` | frontend/src/utils/sse.ts:53-66 | in every run a stream is opened with the token stored at that moment and only failing that with the one at hand, and keeps it until it is dropped |
| `ReconnectClient.TimerRightIffClean` | frontend/src/utils/sse.ts:45-165 | exactly one cancellable timer while reconnecting and none otherwise, through a whole run, if and only if nobody connects by hand while one is pending |
| `ReconnectClient.KthFailureWaits` | frontend/src/utils/sse.ts:157-165 | the k-th failure since the last open waits min(1000 * 2^(k-1), 60000) ms, on every run |
| `ReconnectClient.DisconnectIsFinalIff` | frontend/src/utils/sse.ts:116-127 | after a disconnect nothing reopens by itself exactly when no timer but the stored one is pending |
| `ReconnectClient.CleanDisconnectIsFinal` | frontend/src/utils/sse.ts:116-127 | on every clean run a disconnect is final until somebody connects |
| `ReconnectClient.StrayTimerReopens` | frontend/src/utils/sse.ts:116-127 | a run in which the stream reopens after a disconnect |
| `IndexFailover.TryCollectorBatch` | backend/app/services/finance.py:776-817 | the stamped items of a source, translated back for the one with its own symbols |
| `IndexFailover.TryCollector` | backend/app/services/finance.py:750-774 | the first item with the asked symbol, failing that the first item |
| `IndexFailover.FetchWithFailover` | backend/app/services/finance.py:688-699 | the first source that answers |
| `IndexFailover.FetchIndicesWithFailover` | backend/app/services/finance.py:654-681 | each later source is asked for what is missing, an exception skips it, and nothing merged is none |
| `IndexFailover.MergedFromFinds` | backend/app/services/finance.py:664-676 | from any intermediate merge, a symbol keeps its item or gets that of the first source that has it |
| `IndexFailover.ProgressiveIsPerSymbol` | backend/app/services/finance.py:654-681 | for a chain of any length whose sources answer per symbol among the asked ones, each symbol gets the item of the first source that has it, none twice, none unasked, and none at all exactly if no source has any |
| `IndexFailover.FixedAnswerIsPerSymbol` | backend/app/services/finance.py:800-813 | a source with its own symbols that returns one list whatever is asked does answer per symbol, among all symbols of which none is the source symbol of another and no two share one |
| `IndexFailover.StandardIsSeparate` | backend/app/collectors/finance/eastmoney_collector.py:157-166 | the conversion keeps standard symbols apart, from each other and from the source symbols of others |
| `IndexFailover.IndexSymbolsAreStandard` | backend/app/services/finance.py:27-41 | every configured index is such a symbol |
| `IndexFailover.EastMoneyComesFirst` | backend/app/services/finance.py:654-681 | on the chain the code builds, whatever list eastmoney returns, each standard symbol gets the item from there if the list has it and that of the second source otherwise |
| `IndexFailover.SingleFailoverIsFirstHavingIff` | backend/app/services/finance.py:688-699 | failing over symbol by symbol gives the item of the first source that has it exactly if the first source that answers has a raw item under the asked symbol, with the quote of the first one that stands for it |
| `IndexFailover.PlainChainsAgree` | backend/app/services/finance.py:688-699 | it does on every chain whose sources answer under the asked symbols |
| `IndexFailover.SilentSourceIsSkipped` | backend/app/services/finance.py:654-681 | a source that is not registered, raises, fails or brings nothing makes no difference to a batch, wherever in the chain it stands |
| `IndexFailover.SilentSourceIsPassedOver` | backend/app/services/finance.py:688-699 | nor to failing over for one symbol |
| `IndexFailover.OnlyTheMissingAreAsked` | backend/app/services/finance.py:664-676 | a source is never asked for a symbol that an earlier one has given |
| `IndexFailover.IndexListHidesTheSymbol` | backend/app/services/finance.py:766-772 | asked for one symbol its list does not name, eastmoney gives the first index as it is, and no later source is tried |
| `IndexFailover.StockBecomesAnIndex` | backend/app/services/finance.py:650-652 | a Chinese stock that the second source has comes back as an index |
| `IndexFailover.MoutaiIsNoIndex` | backend/app/collectors/finance/eastmoney_collector.py:157-166 | 600519.SS is such a stock for a list that starts with the Shanghai index |
| `IndexFailover.TranslationDropsTheUnasked` | backend/app/services/finance.py:800-813 | whatever a source with its own symbols returns, only asked symbols come through |
| `IndexFailover.SymbolMapFindsTheAsked` | backend/app/services/finance.py:808-809 | its own symbol leads back to the asked one as long as no two asked symbols share it |
| `IndexFailover.SymbolMapKeepsTheAsked` | backend/app/services/finance.py:808-809 | an asked symbol stays itself as long as no source symbol looks like it |
| `ProcessorChain.ProcessorChain.Deduplicate` | backend/app/processors/dedup.py:17-42 | an item is dropped exactly if its hash is in the live set, otherwise added and stamped |
| `ProcessorChain.ProcessorChain.Sadd` | backend/app/core/redis.py:182-189 | the member joins the live set, or starts a new one, and the set lives another day |
| `ProcessorChain.ProcessorChain.Process` | backend/app/processors/base.py:34-41 | one processor's outcome decides how the rest of the chain goes on |
| `ProcessorChain.ProcessorChain.Handle` | backend/app/processors/base.py:30-50 | one item through all processors: a drop ends it, an exception keeps the current item |
| `ProcessorChain.ProcessorChain.Execute` | backend/app/processors/base.py:28-51 | one result per raw item, in order |
| `ProcessorChain.BatchesCompose` | backend/app/processors/base.py:28-51 | the seen-sets after batch upon batch are those after one run over all their items |
| `ProcessorChain.CallIsInTheRun` | backend/app/processors/base.py:28-51 | the i-th item of call b has its place in the one run over the items of all calls |
| `ProcessorChain.CallResultIsRunResult` | backend/app/processors/base.py:28-51 | and its result there is the one the call returned |
| `ProcessorChain.AddedStageDecides` | backend/app/processors/base.py:34-50 | for every chain and run, adding a stage changes each result by exactly what the stage makes of it: the item it returns, a drop under its name, or an error with the item kept; a dropped item stays dropped |
| `ProcessorChain.StagesStartFromTheRawItem` | backend/app/processors/dedup.py:17-42 | an item that deduplication lets through reaches the stages as it came, with the hash of its title and address; an empty chain leaves it alone |
| `ProcessorChain.OnlyRepeatsAreKeptBack` | backend/app/processors/dedup.py:27-39 | deduplication keeps no item back but one whose title and address it has let through before for the same source |
| `ProcessorChain.AtMostOnceADay` | backend/app/processors/dedup.py:27-39 | a repeat within a day of an item let through, dropped later or not, gives exactly the duplicate result |
| `ProcessorChain.LoneRepeatIff` | backend/app/processors/dedup.py:11-13 | a lone repeat is recognised if and only if it comes within the day |
| `ProcessorChain.AtMostOnceWhileAlive` | backend/app/processors/dedup.py:27-39 | while the set lives, however long, of two items with the same content one is a duplicate |
| `ProcessorChain.AtMostOnceOverBatches` | backend/app/processors/dedup.py:17-42 | over any sequence of calls for any sources, of two items of one source with the same content, in one batch or two, at most one has a result that is not filtered, within a day or while the set lives |
| `ProcessorChain.DuplicateHasAnOriginal` | backend/app/processors/dedup.py:27-39 | whatever is dropped as a duplicate has an earlier original of the same source that was let through |

## Left out

- Finnhub.FinnhubCollector.FetchStockQuotes: of the company's profile only the request is modelled, not the name it brings; Redis works throughout, and the in-process fallback cursor (backend/app/core/api_keys.py:149-152) is not modelled.
- Collector.BaseCollector.CollectWithRetry: the delays are real numbers, rounding is not modelled.
- Tags.ExtractTags: the keyword table is a parameter, and so is the lower case of a character; Python's rule for a final Greek sigma, which looks at the context, is not covered.
- EventHistory.EventLog.PushEvent: ids are unique within one router only, since the counter is per process.
- IndexFailover.ProgressiveIsPerSymbol: assumes of the other sources what is proved of eastmoney: what they answer for a symbol does not depend on the others asked with it, and only asked symbols are returned.
- IndexFailover.EastMoneyComesFirst: the list is taken as one value per call; how it is parsed and validated is not modelled.
- AdminLogin.AuthService.AdminLogin: the user row that a success creates or updates and the tokens it mints are not modelled, since the lockout does not read them.
- EventRouter.SSEConnection.SendEvent: the queue has no capacity here, because putting into a full one waits instead of failing.
- Scheduler.AsyncSchedulerManager.AdaptiveReschedule: the branch that pauses a job is not modelled; the worker disables it.
- Scheduler.AsyncSchedulerManager.UpdateHealthAfterCollection: daily counters, times, the last error and the database's own average, which counts successes only, are not modelled; scheduling does not read them.
- Worker.IntervalsConverge: tenant settings do not change while the events are delivered, and no outcome is recorded in between.
- Worker.SourceService.CreateSource: the verdict of the validation is an input, and the health records it writes are part of `SourceHealth.Created` only.
- Worker.SourceService.UpdateSource: the verdict of the validation is an input, and of the fields only those that scheduling reads are kept.
- Worker.SourceService.DeleteSource: the removal of the health record in Redis is not modelled.
- RefreshTokens.AuthService.Logout: the scan for stored sessions of the user is not modelled, only the two tokens.
- Concurrency: handlers are atomic steps; interleaving at an `await` is not modelled.
- Redis outages: the branches that fail open, the warning paths and the fallbacks without Redis.
- HTTP, SSO providers, bcrypt, JWT encoding and SQL text. A token is a record of its claims, a signed one decodes strictly before its `exp` (section 4.1.4 of RFC 7519), and signatures cannot be forged. Hashes are injective.
- End-to-end resume of a live stream: the id on live frames is not the id of the history, so replay is claimed for anchors from the history.
- Exactly-once delivery across processes: `push_event` publishes to Redis and dispatches locally, so delivery is stated per dispatched message.
- The translation of channel names to categories, heartbeat frames, `push_to_client` and `get_stats`.
- The startup race of an event handled between the snapshot read and the rebuild, and a transaction rolled back after its event was published.
- Pausing and resuming jobs, which is up to the scheduler library.
- Floating point: multipliers are dyadic, so rationals are exact, and products and averages are exact below 2^53.
- Equality of reclassified tags with the tags at collection time, since stored text is transformed and a stored item has no `type`.
- Items whose processing stage raises after it has changed the item in place.
- The order in which Python iterates a set of subscribers: each connection has its own queue, so it is not observable.
- The IEX Cloud collector, which has the same loop as the Finnhub one, and the remaining collectors, parsers, schemas, dashboards and migrations.
