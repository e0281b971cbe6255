# Credential scheduling and routing: a verified model

`caddy-agent-gateway` keeps a pool of upstream credentials. A scheduler picks one for each request from an index that
is maintained incrementally; a manager records what happened, imposes cooldowns, refreshes tokens and writes
everything through to a store. This project models that core in Dafny, together with the gateway's target selection,
provider cache and retry loop, and proves what it promises.

`dafny verify dfyconfig.toml` checks the whole project.

## How the model is laid out

| files | what they hold |
|---|---|
| Credentials, Ordering | credential values; string order and sorted listings |
| Blocking | model keys and the plain block test, with and without the clock |
| Shards, Picking, Failover | one model shard as a value, its invariant, and what a pick from it answers |
| Scheduling, History, Sweeps | the whole scheduler as a value, histories of operations, what a caller sees |
| Values, Staleness | which values of a credential the scheduler keeps and hands out |
| Selectors, ModelSchedulers, AuthSchedulers | the code's own form: objects changed in place, loops over maps in arbitrary order, proved equal to the values |
| Backoff, Lifecycle | backoff arithmetic; how a result or a refresh changes one credential |
| Managing, Managers | the manager as a value, and as an object |
| Runs, Persistence, Rotation | safety over whole serialised runs: cooldown, disabling, write-through, backoff counting, fairness |
| Effects, Upkeep | each operation of the manager, field by field, and what the next picks answer |
| Interleaving, Serial, Overlaps, Aftermath, Agreement | the same operations cut where the code gives up its locks; their refinement of the whole ones; what overlapping ones can undo; what follows a recorded failure; whether scheduler, memory and store agree |
| Routing, ProviderCache, Retrying | target selection, the fingerprint-keyed provider cache, the retry loop |

Times are integers in nanoseconds with 0 as Go's zero time; each step reads one `now`, a natural number. Go map
iteration is an arbitrary choice (`Ordering.Take`), so no proof depends on its order. IDs and provider keys are taken
as already trimmed and lower-cased. Store failures, upstream answers, refresh outcomes and random numbers are
parameters. Methods of the in-place objects carry the value they represent as a ghost argument.

## What turned out not to hold as one might expect

* The index can hide an available credential: the block test compares the clock with `NextRetryAfter`, but the index
  waits for the later of that and `Quota.NextRecoverAt`. `Picking.ExactIffPunctual` gives the exact condition.
* A 429 does not always hold a model until the announced end: success on another model resets the shared backoff
  level, so a later 429 on the first model can shorten its cooldown (`Lifecycle.ShortenedCooldown`).
  `Lifecycle.HeldUnlessReleased` says exactly which results do that; results of requests, one at a time, never do
  (`Runs.CooldownOverRuns`).
* The model key is canonicalised twice on the pick path, and the function is not idempotent
  (`Blocking.CanonicalTwice`). Results are stored under the raw model name instead, so a 429 on a name that is not its
  own shard key, such as `llama3:8b`, imposes no cooldown: the next pick for the same model may return the same
  credential at once (`Lifecycle.TaggedModelNotCooled`, `Runs.QuotaWithoutCooldown`). Exact condition on the name in
  `Lifecycle.QuotaReachesIff`. A 429 on a request without model name ends with the first success on any model
  (`Lifecycle.UnnamedCooldownCut`).
* Recovery and retry time part exactly when a retry hint that is not taken as a quota failure meets a cooldown
  (`Lifecycle.MarkKeepsInStep`); the index suffers exactly when the hint ends before the quota recovers
  (`Lifecycle.MarkKeepsPunctual`). That includes a 429 while cooling is disabled.
* A credential disabled by 401/403 comes back if the result of an overlapping request is recorded later
  (`Runs.OverlapRevives`, `Overlaps.LostDisable`). Exact conditions: `Lifecycle.DisabledUnlessRevived` for one result,
  `Runs.StepSwitchedOff` for serialised steps, `Overlaps.NextOff` for interleaved ones.
* A refresh under way writes back the value it started from, so a 429 recorded meanwhile imposes no cooldown
  (`Overlaps.RefreshWipesCooldown`; exact condition per step in `Overlaps.NextHeld`). With nothing else under way for
  the credential it does (`Aftermath.CooldownAfterQuota`), although shards of other models go on listing the value
  from before (`Aftermath.OtherBucketsLag`).
* Scheduler and memory can disagree for good with nothing under way: two updates of one ID cross between memory and
  scheduler (`Agreement.CrossedUpdates`). Exact condition over runs in `Agreement.RunFollows`; a discipline that
  avoids it in `Agreement.OrderlyFollows`.
* A removed credential can come back into memory and scheduler, but not into the store, through an update that was
  past its store write (`Agreement.RemovalUndone`; exact condition per step in `Agreement.NextBacked`).
* A refreshed token is not handed out while the credential keeps its place and no cooldown ends in the shard
  (`Staleness.RefreshedTokenNotPicked`; which value is handed out, in general: `Staleness.PickedValue`).
* Any change of place of one credential sends the rotation of the whole shard back to the start
  (`Rotation.UpsertRotation`).
* The provider cache can answer with the provider of an older store tag if the configuration names no provider
  (`ProviderCache.UnnamedIsStale`).
* Weights whose sum exceeds a 64-bit int are not honoured (`Routing.ExactShares`).

Where comments and code disagree, the code is modelled: `selector.go:103` announces a fall-through to the
credential-level check, but a credential with model states and none for the asked model is reported as free;
`manager.go:214-215` says that registering an existing ID replaces it, but with a store the create step rejects it.

## Model

| member | source | states |
|---|---|---|
| Blocking.PlainKey | llm/cliauth/manager/selector.go:122-128 | a model name without suffix or blanks is its own shard key |
| Blocking.CanonicalTwice | llm/cliauth/manager/scheduler.go:233-241 | canonicalising a second time changes the key if and only if a suffix is left in it |
| Blocking.CanonicalNotIdempotent | llm/cliauth/manager/selector.go:122-128 | a concrete key that the second application changes |
| Blocking.SuffixCut | llm/cliauth/manager/selector.go:122-128 | of a name with colons the part after the last goes, with blanks before it; a colon in first place starts no suffix |
| Blocking.TrimRest | llm/cliauth/manager/selector.go:122-128 | trimming takes away blanks at both ends and nothing else |
| Blocking.StateDecides | llm/cliauth/manager/selector.go:82-103 | a state for the model decides alone: closed while unavailable before its retry time, for quota exactly if that is exceeded, with the later of its two times |
| Blocking.OtherStatesDecide | llm/cliauth/manager/selector.go:82-105 | states for other models only leave the model open |
| Blocking.CredentialDecides | llm/cliauth/manager/selector.go:107-118 | without states or model name the credential decides in the same way |
| Blocking.SwitchedOffShut | llm/cliauth/manager/selector.go:77-90 | a switched-off credential is closed to all models, and nothing else but a switched-off state is closed for that reason |
| Blocking.TestIsGate | llm/cliauth/manager/selector.go:69-119 | the clock enters the block test only through one comparison with a time that depends on the credential alone |
| Blocking.PunctualGate | llm/cliauth/manager/selector.go:91-116 | if no quota recovers after its retry time, tested and reported time coincide for every model |
| Blocking.PunctualMeans | llm/cliauth/manager/selector.go:91-101 | tested and reported time coincide if and only if the state's quota does not recover after its retry time, where that counts |
| Blocking.PunctualMeansAtCredential | llm/cliauth/manager/selector.go:107-116 | the same where the credential itself decides |
| Shards.Seconds | llm/cliauth/manager/scheduler.go:407-413 | the wait in whole seconds is the true one rounded up, and 0 for a wait that is over |
| Shards.ReindexIndexed | llm/cliauth/manager/scheduler.go:415-460 | after a rebuild each bucket lists exactly the ready entries of its priority in ID order |
| Shards.UpsertEntryTracks | llm/cliauth/manager/scheduler.go:256-295 | an upsert keeps the shard an index of the provider's credentials, whether or not it rebuilds |
| Shards.RemoveEntryTracks | llm/cliauth/manager/scheduler.go:297-306 | a removal keeps the shard an index of the remaining credentials |
| Shards.PromoteTracks | llm/cliauth/manager/scheduler.go:308-337 | promotion keeps the index and leaves no overdue entry blocked |
| Shards.NewShardTracks | llm/cliauth/manager/scheduler.go:242-253 | a lazily created shard is an index of all credentials of the provider |
| Shards.ReadyIsOpen | llm/cliauth/manager/scheduler.go:308-337 | after promotion ready entries pass the plain test; exactly those do when the two times agree |
| Picking.PickReadyCorrect | llm/cliauth/manager/scheduler.go:339-365 | the best ready untried credential is picked if there is one, and only a cursor moves |
| Picking.PickMoves | llm/cliauth/manager/selector.go:30-56 | round-robin puts the bucket's cursor just after the picked place, fill-first changes nothing |
| Picking.PickSound | llm/cliauth/manager/scheduler.go:123-159 | whatever the times, only credentials that pass the plain test are picked |
| Picking.ErrorAgrees | llm/cliauth/manager/scheduler.go:376-405 | the error computed from the entries is the error a scan of the credentials gives, including the wait |
| Picking.PickAgrees | llm/cliauth/manager/scheduler.go:339-405 | a pick from the index answers as a scan with the block test: same best credential or same error |
| Picking.AnswerMeans | llm/cliauth/manager/scheduler.go:376-405 | which kind of answer, from the verdicts on the credentials not tried, and the shortest wait among them in whole seconds rounded up |
| Picking.UnpunctualIsMissed | llm/cliauth/manager/selector.go:91-116 | every credential whose two times differ is left out of some pick although the test lets it through |
| Picking.ExactIffPunctual | llm/cliauth/manager/scheduler.go:256-337 | index and scan agree whenever the shard was built and is asked, if and only if the two times agree |
| Picking.AnswerUnique | llm/cliauth/manager/selector.go:49-56 | with fill-first the scan has exactly one answer |
| Failover.RetryHintExact | llm/cliauth/manager/scheduler.go:376-413 | for one shard, a failed pick succeeds later exactly from the earliest stored retry time on |
| Failover.VisitExhaustive | llm/cliauth/manager/scheduler.go:339-374 | asking again with each answer added to the tried set meets every ready credential once, by falling priority |
| Failover.EvenShare | llm/cliauth/manager/selector.go:30-46 | k full turns of a cursor around n places meet each place exactly k times |
| Staleness.UpsertTakenUp | llm/cliauth/manager/scheduler.go:256-295 | an upsert brings every value of the index up to date if the credential changes place, else leaves every list alone; so the new value is listed exactly in the first case or if it was listed before |
| Staleness.RefreshedTokenNotPicked | llm/cliauth/manager/scheduler.go:256-295 | in any shard, a refresh that changes only the token leaves every pick's answer as it was, old token included, until a cooldown in the shard ends; then the new token is handed out |
| Staleness.PickedIsListed | llm/cliauth/manager/scheduler.go:339-365 | a pick hands out a value that is in a bucket and leaves all buckets' values alone; from an up-to-date shard it is the entry's value |
| Staleness.LastIndexed | llm/cliauth/manager/scheduler.go:256-337 | in any history a shard has a last moment at which it was up to date, and lists the same values ever since |
| Staleness.PickedValue | llm/cliauth/manager/scheduler.go:123-159 | after any history the picked value is the one upserted for that ID and provider when the shard was last up to date; it is current if and only if that was not replaced since |
| Values.PickHolds | llm/cliauth/manager/scheduler.go:123-159 | a property of all values in entries and buckets is kept by a pick and holds of the picked value |
| Values.UpsertHolds | llm/cliauth/manager/scheduler.go:161-295 | an upsert keeps a property of all values in the scheduler that the new value has |
| Scheduling.UpsertRepresents | llm/cliauth/manager/scheduler.go:161-182 | an upsert, also one that moves the credential to another provider or finds it disabled, keeps every shard an index of one table |
| Scheduling.RemoveRepresents | llm/cliauth/manager/scheduler.go:184-194 | a removal takes the credential out of its owner and all its shards and nothing else |
| Scheduling.RebuildRepresents | llm/cliauth/manager/scheduler.go:83-96 | a rebuild yields an index of the listed credentials |
| Scheduling.PickRepresents | llm/cliauth/manager/scheduler.go:123-159 | a pick leaves the table alone and returns only an untried credential of the provider that passes the test |
| Scheduling.PickIsScan | llm/cliauth/manager/scheduler.go:123-159 | a pick answers as a scan of the provider's credentials, if these have one retry time each |
| History.HistoryRepresents | llm/cliauth/manager/scheduler.go:83-254 | after any history in time order each ID has one owner, its provider, and every shard exactly that provider's credentials |
| History.HistoryPickIsScan | llm/cliauth/manager/scheduler.go:83-405 | after any history a pick answers as a scan of the current credentials |
| History.IncrementalEqualsRebuilt | llm/cliauth/manager/scheduler.go:83-254 | with fill-first, the pick after any history equals the pick after a rebuild from a snapshot in any order |
| Sweeps.RetryHint | llm/cliauth/manager/scheduler.go:376-413 | after a cooldown error of d seconds one moment, at most d and more than d-1 seconds away, divides failing from succeeding picks |
| Sweeps.SweepVisitsOpen | llm/cliauth/manager/scheduler.go:123-159 | failover by tried set meets exactly the open credentials of the provider, once each, by falling priority |
| Selectors.RoundRobinPick | llm/cliauth/manager/selector.go:30-46 | the loop finds the first untried place at or after the cursor, cyclically |
| Selectors.FillFirstPick | llm/cliauth/manager/selector.go:49-56 | the loop finds the first untried place |
| ModelSchedulers.ModelScheduler.RebuildIndexes | llm/cliauth/manager/scheduler.go:415-460 | visiting entries in any order leaves the one index the entries determine |
| ModelSchedulers.ModelScheduler.UpsertEntry | llm/cliauth/manager/scheduler.go:256-295 | the in-place upsert has the effect of the value operation |
| ModelSchedulers.ModelScheduler.RemoveEntry | llm/cliauth/manager/scheduler.go:297-306 | the in-place removal has the effect of the value operation |
| ModelSchedulers.ModelScheduler.PromoteExpired | llm/cliauth/manager/scheduler.go:308-337 | re-testing overdue entries one by one, in any order, has the effect of promoting them together |
| ModelSchedulers.ModelScheduler.PickReady | llm/cliauth/manager/scheduler.go:339-365 | the loop over buckets picks from the highest with a match and moves only its cursor |
| ModelSchedulers.ModelScheduler.UnavailableError | llm/cliauth/manager/scheduler.go:376-405 | counting entries in any order gives the error that the entries determine |
| AuthSchedulers.ProviderScheduler.Upsert | llm/cliauth/manager/scheduler.go:209-219 | every shard of the provider takes in the credential, in any order |
| AuthSchedulers.ProviderScheduler.Remove | llm/cliauth/manager/scheduler.go:221-231 | every shard of the provider drops the credential |
| AuthSchedulers.ProviderScheduler.Ensure | llm/cliauth/manager/scheduler.go:233-254 | an existing shard is promoted; a missing one is built from all credentials, in any order |
| AuthSchedulers.AuthScheduler.Upsert | llm/cliauth/manager/scheduler.go:161-182 | the object comes to hold the value after the upsert; other providers' shards are untouched |
| AuthSchedulers.AuthScheduler.Remove | llm/cliauth/manager/scheduler.go:184-194 | the object comes to hold the value after the removal |
| AuthSchedulers.AuthScheduler.Rebuild | llm/cliauth/manager/scheduler.go:83-96 | the object comes to hold the value rebuilt from the list |
| AuthSchedulers.AuthScheduler.Pick | llm/cliauth/manager/scheduler.go:123-159 | the object answers, and changes, as the value operation does |
| Backoff.ComputeBackoff | llm/cliauth/manager/manager.go:647-659 | the loop computes min(base * 2^level, max), never reaches 2 * max, and doubles only below max however large the level |
| Backoff.BackoffMonotone | llm/cliauth/manager/manager.go:647-659 | a higher level never means a shorter wait |
| Backoff.ShippedBackoff | llm/cliauth/manager/manager.go:16-21 | at the shipped constants waits lie between one second and half an hour, at most eleven doublings happen and no value comes near 64 bits |
| Lifecycle.MarkKeepsSane | llm/cliauth/manager/manager.go:362-449 | every result keeps: a backoff level comes with an exceeded quota, that with unavailability |
| Lifecycle.MarkKeepsInStep | llm/cliauth/manager/manager.go:387-449 | a result keeps recovery and retry time equal, whatever the two reads of the cooling switch give, if and only if it is not a hint, outside the quota branch, for something that cools down |
| Lifecycle.MarkKeepsPunctual | llm/cliauth/manager/manager.go:387-449 | a result lets a quota recover after the retry time if and only if it is a hint, outside the quota branch, that ends before the recovery |
| Lifecycle.SuccessClears | llm/cliauth/manager/manager.go:362-386 | a success clears every error and quota mark of credential and model, leaves other models alone, and a second one changes nothing |
| Lifecycle.SuccessOpens | llm/cliauth/manager/manager.go:374-383 | after a success the model's state is off only if it was and had nothing to clear, a cleared state is active, and unless model or credential are off the model is open at every time |
| Lifecycle.DisabledUnlessRevived | llm/cliauth/manager/manager.go:362-418 | a result leaves a disabled credential disabled if and only if it is a 401/403, carries no error, or is a success on a credential with nothing to clear |
| Lifecycle.QuotaUnread | llm/cliauth/manager/manager.go:428-441 | a quota failure under a name that is not its own shard key leaves the verdict on picks for it to older model states; without any, the model is free |
| Lifecycle.QuotaReachesIff | llm/cliauth/manager/selector.go:77-105 | a quota failure on a model closes picks for it until the announced end, whatever the credential, if and only if the name is its own shard key or blank |
| Lifecycle.TaggedModelNotCooled | llm/cliauth/manager/selector.go:122-128 | the case `llama3:8b` |
| Lifecycle.UnnamedCooldownCut | llm/cliauth/manager/manager.go:362-372 | a cooldown recorded without a model name is over after a success on any model |
| Lifecycle.RefreshNotRepeated | llm/cliauth/manager/manager.go:562-593 | a failed refresh is not due again for five minutes, one under way not at all |
| Lifecycle.RefreshKeepsValues | llm/cliauth/manager/manager.go:576-606 | refreshes keep the properties of the values |
| Lifecycle.QuotaHolds | llm/cliauth/manager/manager.go:392-441 | a quota failure on a model blocks it until the end of the backoff |
| Lifecycle.HeldUnlessReleased | llm/cliauth/manager/manager.go:362-449 | a blocked model stays blocked under a result if and only if that is not one of three kinds of result on the same model |
| Lifecycle.HeldUnlessReleasedReading | llm/cliauth/manager/manager.go:392-447 | the same if the cooling switch is turned between the two reads of it: the model may then take over a hint's or an older retry time |
| Lifecycle.HeldIsBlocked | llm/cliauth/manager/selector.go:77-105 | a held model fails the block test at every time before the end |
| Lifecycle.ShortenedCooldown | llm/cliauth/manager/manager.go:362-408 | success on another model and a second 429 cut a cooldown of 1024 s short |
| Managing.NewCoherent | llm/cliauth/manager/manager.go:101-119 | a new manager satisfies the invariant that all runs keep |
| Managing.RegisterMakesKnown | llm/cliauth/manager/manager.go:216-249 | a registration that goes through is in memory and store under its own or a new ID, and scheduled unless disabled |
| Managing.StepCoherent | llm/cliauth/manager/manager.go:187-458 | every operation, however the store fails, keeps the scheduler an index of exactly the schedulable part of memory |
| Managing.RunCoherent | llm/cliauth/manager/manager.go:187-458 | the same after every serialised run |
| Managing.PickCoherent | llm/cliauth/manager/manager.go:330-335 | a pick returns a credential that is in memory, not disabled, and passes the block test now |
| Managers.ApplyResult | llm/cliauth/manager/manager.go:362-449 | changing the clone field by field, with the backoff loop, gives the specified credential |
| Managers.ApplySuccess | llm/cliauth/manager/manager.go:362-386 | clearing credential and model state field by field gives the specified credential and change flag |
| Managers.ApplyToModel | llm/cliauth/manager/manager.go:422-447 | the model state's failure branch, field by field |
| Managers.CredentialManager.Update | llm/cliauth/manager/manager.go:252-273 | store, memory and scheduler change together or not at all; the error is exactly the store's refusal |
| Managers.CredentialManager.Register | llm/cliauth/manager/manager.go:216-249 | fails exactly without provider or when the store refuses to create |
| Managers.CredentialManager.Deregister | llm/cliauth/manager/manager.go:276-299 | the ID leaves memory and scheduler even when the store's delete fails, and the store exactly when that works |
| Managers.CredentialManager.Load | llm/cliauth/manager/manager.go:187-211 | stored credentials are registered in ID order up to the first without provider |
| Managers.CredentialManager.MarkResult | llm/cliauth/manager/manager.go:339-458 | the object comes to hold the value after the result |
| Managers.CredentialManager.RefreshOne | llm/cliauth/manager/manager.go:576-606 | two updates, either of which may fail, with the refresher's outcome between them |
| Managers.CredentialManager.Generate | llm/provider/authmanaged.go:41-103 | pick, call, mark: the credential used is the one picked and the one marked |
| Runs.StepKeeps | llm/cliauth/manager/manager.go:187-606 | a property of one credential's values survives every step that is not an outside write if results and refreshes keep it |
| Runs.QuotaStartsCooldown | llm/cliauth/manager/manager.go:392-441 | a recorded quota failure blocks the model in memory and in the store |
| Runs.CooldownHolds | llm/cliauth/manager/manager.go:387-449 | for a model that is its own shard key: through any run without outside write or releasing result, no pick for the model returns the credential before the end |
| Runs.CooldownOverRuns | llm/provider/authmanaged.go:41-103 | after a 429 on such a model, no run of requests, refreshes, removals, loads and results on other models picks the credential for it before the backoff ends |
| Runs.QuotaWithoutCooldown | llm/cliauth/manager/scheduler.go:123-159 | after a 429 on any other model name, a credential without older model states and without competitors is picked for that very model at every later time |
| Runs.AuthFailureDisables | llm/cliauth/manager/manager.go:409-413 | a recorded 401 or 403 disables the credential in memory and in the store |
| Runs.AuthFailureSticks | llm/cliauth/manager/manager.go:409-560 | a disabled credential has no owner in the scheduler and is not picked or refreshed, through every run without outside write of it or recorded reviving result on it |
| Runs.StepSwitchedOff | llm/cliauth/manager/manager.go:339-458 | a step other than an outside write keeps it disabled if and only if it is not a recorded reviving result; no request marks it and no refresh is due |
| Runs.OverlapRevives | llm/cliauth/manager/manager.go:392-408 | a 429 reported after the 401 makes it schedulable again |
| Persistence.WriteThroughOverRuns | llm/cliauth/manager/manager.go:187-299 | with persistence on, IDs in the scheduler are in memory and IDs in memory are in the store, with equal values up to the status Load resets |
| Persistence.WrittenOverRuns | llm/cliauth/manager/manager.go:187-299 | the same for one ID, whatever is done to others: only an outside write of it that skips the store can break it |
| Persistence.LoadComplete | llm/cliauth/manager/manager.go:187-211 | at start-up Load brings in the whole store if and only if every stored credential names a provider |
| Persistence.RestartRoundTrip | llm/cliauth/manager/manager.go:187-211 | a restart gives back the memory that was written through, but for refreshes under way |
| Persistence.RefreshLeaves | llm/cliauth/manager/manager.go:576-606 | a refresh leaves its credential refreshing exactly when its first write succeeds and its last fails |
| Persistence.LoadSettles | llm/cliauth/manager/manager.go:187-211 | straight after Load nothing is refreshing, whatever the store holds |
| Persistence.LevelCounts | llm/cliauth/manager/manager.go:362-408 | for a credential whose value was written through, over every run that does not write or remove it from outside, the backoff level is the number of recorded quota failures since the last recorded success |
| Persistence.NthQuotaWait | llm/cliauth/manager/manager.go:392-408 | the n-th quota failure imposes exactly min(2^(n-1) s, 30 min) |
| Rotation.RequestTurns | llm/provider/authmanaged.go:41-46 | a successful request on a healthy credential, before the next cooldown in the shard ends, moves one cursor and changes nothing else in the whole manager |
| Rotation.FitMakesRound | llm/cliauth/manager/scheduler.go:233-254 | where each credential of a provider is healthy and enabled or blocked beyond a time, every pick leaves a shard in which the rotation is steady up to that time |
| Rotation.FairShare | llm/cliauth/manager/selector.go:30-46 | any k * n successful requests over a top bucket of n, before the next cooldown in the shard ends, use each of its credentials exactly k times |
| Rotation.UpsertRotation | llm/cliauth/manager/scheduler.go:256-295 | an upsert keeps all cursors of a shard if the credential keeps its place, and else resets them all, so that the next round-robin pick is the fill-first one |
| Effects.QuotaEffect | llm/cliauth/manager/manager.go:392-441 | a 429 with cooling on gives credential and model one quota, one retry time and the error status in memory and store, one more level, and leaves every other field alone |
| Effects.AuthEffect | llm/cliauth/manager/manager.go:409-447 | a 401 or 403 sets the credential's status and the model's error mark and nothing else |
| Effects.ErrorEffect | llm/cliauth/manager/manager.go:413-447 | any other failure is recorded for credential and model, and makes them unavailable only by a hint |
| Effects.SuccessEffect | llm/cliauth/manager/manager.go:362-386 | a success clears exactly what there is to clear |
| Effects.MarkIgnored | llm/cliauth/manager/manager.go:339-458 | a result without known credential or content, or one the store refuses, changes nothing |
| Effects.QuotaAnswer | llm/cliauth/manager/scheduler.go:376-413 | after a recorded 429 on the only credential picks for the model report the cooldown with the wait to its end, and return it from the end on |
| Effects.ErrorAnswer | llm/cliauth/manager/scheduler.go:376-405 | after another failure picks report unavailability while the hint lasts, and return the credential at once without one |
| Effects.AuthAnswer | llm/cliauth/manager/scheduler.go:376-405 | after a 401 or 403 on the only credential picks find nothing |
| Effects.SuccessAnswer | llm/cliauth/manager/selector.go:77-105 | after a recorded success on the model, unless that or the credential is off, every later pick for it returns the only credential |
| Upkeep.RefreshEffect | llm/cliauth/manager/manager.go:576-606 | a due refresh leaves in memory and store the delivered token, expiry and status, or error and delay, or the mark of a refresh under way, by which writes get through |
| Upkeep.TokenArrives | llm/cliauth/manager/manager.go:601-605 | a refresh that gets through hands over the new token and expiry, in memory and store, and no other field but the status changes |
| Upkeep.DueAgain | llm/cliauth/manager/manager.go:562-593 | the next refresh is due exactly five minutes before the new expiry, or five minutes after a failure, and never while one is under way |
| Upkeep.RefreshIgnored | llm/cliauth/manager/manager.go:546-574 | what is not due is not refreshed |
| Upkeep.UpdateEffect | llm/cliauth/manager/manager.go:252-273 | the value reaches memory and store, or memory only, or nothing, and the scheduler exactly if it can be scheduled |
| Upkeep.RegisterEffect | llm/cliauth/manager/manager.go:216-249 | every field is taken as given but a missing ID or status; refused exactly without provider or by the store |
| Upkeep.RegisteredScheduled | llm/cliauth/manager/manager.go:216-249 | a registration that goes through is scheduled if and only if the credential is not disabled |
| Upkeep.DeregisterEffect | llm/cliauth/manager/manager.go:276-299 | a known ID leaves memory and scheduler whatever the store does, and the store exactly if that is asked and works; all others stay |
| Upkeep.DeregisterIgnored | llm/cliauth/manager/manager.go:276-289 | removing an unknown ID changes nothing |
| Upkeep.DeregisteredNotPicked | llm/cliauth/manager/manager.go:276-299 | no pick returns it afterwards |
| Upkeep.LoadEffect | llm/cliauth/manager/manager.go:187-211 | after start-up memory holds exactly the stored credentials up to the first without provider, as stored but for a status that is reset |
| Upkeep.LoadIgnored | llm/cliauth/manager/manager.go:187-195 | without a store, or with a failing listing, nothing is loaded |
| Upkeep.SwitchEffect | llm/cliauth/manager/manager.go:460-468 | the global switch decides whether a 429 counts, but for credentials with a setting of their own |
| Upkeep.StrategyEffect | llm/cliauth/manager/manager.go:151-166 | the strategy set last is the one picks follow; memory and store stay |
| Upkeep.RequestEffect | llm/provider/authmanaged.go:78-103 | a request marks the credential it was given with upstream's answer, under the model's own name and without a hint |
| Serial.SerialUpdate | llm/cliauth/manager/manager.go:252-273 | the cut update, run alone, is the whole one, however the store behaves |
| Serial.SerialRegister | llm/cliauth/manager/manager.go:216-249 | the same for a registration |
| Serial.SerialDeregister | llm/cliauth/manager/manager.go:276-299 | the same for a removal |
| Serial.SerialMark | llm/cliauth/manager/manager.go:339-458 | the same for a result |
| Serial.SerialPick | llm/cliauth/manager/manager.go:330-335 | the same for a pick |
| Serial.SerialSwitch | llm/cliauth/manager/manager.go:181-183 | the same for the cooling switch |
| Serial.SerialRefresh | llm/cliauth/manager/manager.go:509-606 | the same for a refresh started by a cycle, which also gives its token back |
| Serial.CycleTakes | llm/cliauth/manager/manager.go:546-560 | a cycle takes exactly the credentials that are due |
| Serial.CycleEnds | llm/cliauth/manager/manager.go:509-532 | a cycle without refreshers passes over its candidates and is over without a trace |
| Interleaving.NextInv | llm/cliauth/manager/manager.go:339-606 | every atomic step, also between the two reads of the cooling switch, keeps a property of all values held, in memory, store, operations and inside the scheduler, if the values entering or computed in it have it |
| Interleaving.ValuesSane | llm/cliauth/manager/manager.go:349-455 | under every interleaving, with lost updates, all values keep level => exceeded => unavailable |
| Interleaving.ValuesPunctual | llm/cliauth/manager/manager.go:349-455 | if no retry hint ends before a quota recovers, no value held, however updates are lost, recovers after its retry time |
| Interleaving.InterleavedPickIsScan | llm/cliauth/manager/scheduler.go:123-159 | so under every such interleaving a pick answers as a scan of what the scheduler was told |
| Interleaving.HintFreePickIsScan | llm/provider/authmanaged.go:78-103 | the same for every interleaving of results without hints, which are all that requests report |
| Interleaving.ValuesInStep | llm/provider/authmanaged.go:78-103 | without hints, an exceeded quota recovers exactly at the retry time in every value ever held, under every interleaving |
| Interleaving.RefreshesBounded | llm/cliauth/manager/manager.go:509-530 | over all interleavings of cycles and completions at most eight refreshes are in flight, one per token |
| Overlaps.NextOff | llm/cliauth/manager/manager.go:349-455 | a credential held only as disabled stays so under an atomic step if and only if that takes in no other value and computes no reviving result; the scheduler is not told about it |
| Overlaps.OffOverRuns | llm/cliauth/manager/manager.go:349-606 | the same over every interleaved run of such steps |
| Overlaps.OffNotPicked | llm/cliauth/manager/scheduler.go:123-182 | it then has no owner in the scheduler and no pick returns it |
| Overlaps.LostDisable | llm/cliauth/manager/manager.go:349-455 | two overlapping results: the later write, computed from the older clone, undoes the disabling |
| Overlaps.NextHeld | llm/cliauth/manager/manager.go:349-455 | a cooldown that every value of a credential carries in memory, store, operations under way and what the scheduler was told survives an atomic step if and only if that takes in no value without it and computes no releasing result |
| Overlaps.HeldOverRuns | llm/cliauth/manager/manager.go:349-606 | the same over every interleaved run of such steps |
| Overlaps.HeldNotPicked | llm/cliauth/manager/scheduler.go:123-159 | no pick for the model then returns the credential before the end |
| Overlaps.HeldWhenPicked | llm/cliauth/manager/scheduler.go:339-365 | if also the copies inside the scheduler carry the cooldown, what picks for other models return carries it over every such run |
| Overlaps.RefreshWipesCooldown | llm/cliauth/manager/manager.go:576-606 | a refresh under way writes the value it started from and so wipes a 429 recorded meanwhile |
| Aftermath.QuotaStartsHeld | llm/cliauth/manager/manager.go:392-455 | a recorded 429, with nothing else under way for the ID, puts the cooldown into memory, store and what the scheduler was told |
| Aftermath.AuthStartsOff | llm/cliauth/manager/manager.go:409-455 | a recorded 401 or 403, with nothing else under way for the ID, leaves it disabled everywhere and unknown to the scheduler |
| Aftermath.CooldownAfterQuota | llm/cliauth/manager/manager.go:339-606 | after such a 429, under every interleaving without outside write of the credential or result on the model, no pick for the model returns it before the announced end |
| Aftermath.OffAfterAuth | llm/cliauth/manager/manager.go:339-606 | after such a 401 or 403, under every interleaving without outside write of the credential or other result on it, it has no owner in the scheduler and no pick returns it |
| Aftermath.OtherBucketsLag | llm/cliauth/manager/scheduler.go:256-295 | a shard of another model goes on listing the value from before the 429 |
| Agreement.NextFollows | llm/cliauth/manager/manager.go:252-299 | after a write to memory an operation owes the scheduler the news; a write to the scheduler is in order if and only if it is not belated; no other step matters |
| Agreement.RunFollows | llm/cliauth/manager/manager.go:252-299 | over every run, the scheduler follows memory on an ID if and only if the last step about it was not a belated write |
| Agreement.QuietCoherence | llm/cliauth/manager/manager.go:252-299 | once nobody is about to tell the scheduler anything, whatever else is under way, it was told exactly the schedulable part of memory if and only if no ID's last word was belated |
| Agreement.OrderlyFollows | llm/cliauth/manager/manager.go:252-299 | if memory is written for an ID only while nobody is due to tell about it, the scheduler follows memory on it over every run |
| Agreement.CrossedUpdates | llm/cliauth/manager/manager.go:252-273 | two crossing updates leave memory with a disabled credential that the scheduler still owns |
| Agreement.NextBacked | llm/cliauth/manager/manager.go:252-299 | a step keeps an ID that is in memory, or on its way there, in the store if and only if it is not a write past the store for an ID not stored or a delete of one in memory or on its way |
| Agreement.RunBacked | llm/cliauth/manager/manager.go:252-299 | the same over every interleaved run of such steps |
| Agreement.RemovalUndone | llm/cliauth/manager/manager.go:252-299 | an update past its store write brings a removed credential back into memory and scheduler but not into the store |
| Routing.GroupsPartition | gateway/route/selector.go:37-48 | the four groups together hold every eligible target exactly as often as the route does |
| Routing.ChooseWeighted | gateway/route/selector.go:112-141 | the fallback return is unreachable; the chosen target's interval holds the draw |
| Routing.ExactShares | gateway/route/selector.go:112-141 | each target gets exactly its weight of the draws, 1 for none, if and only if the sum fits a 64-bit int |
| Routing.OverflowExample | gateway/route/selector.go:117-127 | two weights of 2^62 give a negative total |
| Routing.CoversUnique | gateway/route/selector.go:129-139 | a draw belongs to one target only |
| Routing.SelectTarget | gateway/route/selector.go:16-71 | the answer is enabled, has a provider and meets its own conditions, is of the mode the strategy calls for, and is the first of minimal priority or the one drawn; an error exactly if no admitted mode has such a target |
| Routing.AnswerableIff | gateway/route/selector.go:73-103 | a target is found if and only if one that may serve the request is of the modes that the strategy and fallback admit |
| Routing.AnswerMode | gateway/route/selector.go:73-103 | the mode of the answer for every strategy, from which modes have such targets |
| Routing.FailoverAnswer | gateway/route/selector.go:54-62 | of failover targets the lowest priority number wins, the first listed of equals |
| Routing.FallbackComplete | gateway/route/selector.go:73-103 | with fallback a target is found exactly when one is eligible |
| Routing.NoFallback | gateway/route/selector.go:73-103 | without fallback exactly when one is eligible in a group the strategy names |
| Routing.ChosenUnique | gateway/route/selector.go:16-71 | route, request and random numbers determine the answer |
| Routing.FallbackOnlyAdds | gateway/route/selector.go:73-103 | switching fallback on never changes an answer that was found without it |
| Routing.PreferredWins | gateway/route/selector.go:73-103 | where the preferred mode has an eligible target the answer is of that mode |
| ProviderCache.Resolver.ResolveProvider | gateway/providerresolver.go:98-132 | the answer is a build of the configuration read, and exactly a fresh one if that names its provider; it is cached under the fingerprint, an unchanged configuration is answered from the cache, and other entries stay |
| ProviderCache.EveryAnswerFresh | gateway/providerresolver.go:98-132 | the same for every answer under all store changes and overlapping resolves |
| ProviderCache.UnnamedIsStale | llm/provider/provider.go:139-155 | without a name, a change of the tag alone is answered with the provider of the old tag |
| Retrying.RetryGenerate | llm/provider/httputil.go:122-147 | calls are made up to the first that succeeds or fails otherwise than by network, 429 or 5xx, at most one more than the retries; the pauses sum to delay * n(n-1)/2 for n calls; a failure without status becomes a 502 |

## Left out

- HTTP handlers, SSE, Caddy modules, Caddyfile parsing, admin API: input and output around the modelled core.
- OAuth login and token requests: a refresh returns an error, nothing, or a credential with new token, expiry and status; that a refresher leaves ID, provider, quota and model states alone is taken from the built-in authenticators.
- Hooks, labels, status messages, creation and update times: recorded, never read by the modelled decisions.
- Null model states in stored JSON: a model state is always present in the model.
- Parsing of priority, expiry and cooling override, lower-casing and trimming of IDs and provider names: taken as done.
- Several clock readings within one operation: a pick or an update reads one time; a result reads its time with the first read of the cooling switch.
- Shared empty model-state maps: `Clone` copies a model-state map only if it has entries, so an empty map that is not nil is shared with the clone and the first failure on a model shows in memory and scheduler before, or without, the update; the model has values.
- The order of the blocked list and of the priority list: nothing reads them; the one loop over priorities keeps the maximum.
- Custom selection strategies and the unused `mixedCursors`, `providerOffsets` and request-retry settings.
- Interleaving of SetStrategy and of Load with other operations: Load's registrations appear there as separate registrations, a rebuild only in serialised runs.
- The factory registry, `ChainProviderResolvers`, `shouldUseCredential`, `ResolveCredential` and policy checks: short case analyses.
- Local API keys, admin sessions, MCP, memory and agent packages.
- Managers.CredentialManager.Load: the store's listing is passed in; that the store lists by ID is its own property.
