# Verified model of the IoT ingestion platform

The platform takes telemetry from devices, pushes it through a bounded worker pool, stores it, marks devices online,
evaluates alert rules and broadcasts events to subscribers, while a reconciler marks silent devices offline. Behind it
stand two interchangeable stores (memory and MongoDB), a status cache laid over the store, users with rotating refresh
tokens, aggregates over the history and an MQTT bridge.

Most of what can go wrong there goes wrong between goroutines, so the concurrent parts are transition systems: a state,
labels for the atomic actions (mutex-protected store calls, channel sends and receives, lock operations, single database
operations), and theorems about every run. The code that changes things in place is modelled a second time as classes
with the same fields and loops. The methods of the pool and of the hub are proved to be runs of their transition systems;
those of the stores, of the service and of the authentication service are proved against the functions their theorems are
about, and for the service and for MongoStore further lemmas show that the interleaved actions of a call, left alone, add
up to it; the alert engine's Evaluate is proved under any interference by appends.

| module | what it covers |
|---|---|
| `Models`, `Sequences`, `Sorting` | entities; subsequences and suffixes; `sort.Slice` as order plus permutation, not stable |
| `Store` | MemoryStore: devices, capped telemetry, alerts, queries |
| `Alerts` | rules in a Go slice (backing array and length), evaluation under concurrent appends |
| `Pool` | submitters, workers, cancellation, counters |
| `Hub` | subscribers under a read-write lock, bounded channels, broadcasts as multi-step loops |
| `Pipeline` | all of ingestion interleaved: pool, job stages, store, reconciler, device management |
| `Ingestion`, `Settling` | conservation of samples and alerts over pipeline runs; the workers do finish |
| `Status`, `Announcements` | the status machine and status events over pipeline runs |
| `Silence` | whom a scan marks offline, over pipeline runs |
| `Orphans` | alerts and deletions over pipeline runs |
| `CacheRaces` | the pipeline together with the status cache |
| `Scenes` | concrete beginnings of runs, for showing that something can happen |
| `Broadcasts` | pipeline and hub together: the order of a job's events, from the worker to the subscriber |
| `Service`, `Coarse` | the service one call at a time with its cache; the interleaved steps add up to those calls |
| `Mongo`, `MongoRetention` | AddTelemetry at database-operation granularity; how many documents are kept |
| `MongoSerial`, `MongoAgreement`, `MongoCapped` | MongoStore without overlapping calls; when it answers as MemoryStore does |
| `Users`, `Tokens` | users under interleaving; refresh tokens over whole histories |
| `Accounts` | users, logins and tokens against the calls alone |
| `Analytics` | Aggregate and TimeSeries |
| `Topics` | device ids in MQTT topics against the subscription filter |

Conventions: `float64` is `real`; time is an `int` of nanoseconds with 0 for the zero `time.Time`; ids and random tokens
are fresh; hashing is injective; every MongoDB operation is atomic. Randomness, the clock, map iteration order and the
choice of a ready `select` case are parameters or nondeterministic, so the theorems hold for all of them.

## What the proofs found

Where the code does less than one might expect, the model keeps the code's behaviour, shows a run, and proves exactly
when the expectation holds.

- Two "status" events for a device need not have an online mark between them: a worker can mark the device online after
  the reconciler marked it offline and before the reconciler publishes (`Announcements.EventsWithoutOnlineBetween`, under
  every configuration). An event is separated from the device's next one by an online mark, in every continuation, if and
  only if at the moment of publishing the store still says Offline or no longer has the device
  (`Announcements.NextEventNeedsOnline`). Between two offline *marks* there always is one (`Status.OnlineBetweenOfflines`).
- The cache can be left telling an overtaken status: Offline while the store says Online
  (`CacheRaces.OnlineShownOffline`). Once no cache write for a device is to come, GetDevice returns what the store holds if
  and only if the entry has expired or its write, when it was made, said what the store held
  (`CacheRaces.OverlayExactAtRest`); it always does if no mark of the device falls between a mark and its cache write
  (`CacheRaces.OverlayExactWhenOrderly`). When cache writes are lost, GetDevice differs on a device exactly when the last
  call to mark it lost its write over an entry that said something else, and that entry has not expired since
  (`Service.ShowsExactly`); the next write that succeeds heals it (`Service.SuccessHeals`).
- Submit's comment says that it returns false on a stopped pool; `select` may pick the queue instead
  (`Pool.StoppedPoolAccepts`). It is certain to refuse if and only if the jobs left over fill the queue
  (`Pool.RefusesExactly`). Nothing accepted after Stop runs, exactly when all workers had been launched
  (`Pool.StopNeedsStart`): a Start after Stop can still run a job.
- TrySubmit's comment says that it counts a drop on a stopped pool; it does not (`Pool.StoppedDropUncounted`). The drops
  are all the refused TrySubmits if and only if none was refused after the pool was stopped (`Pool.DropsCountedExactly`).
- Alerts, unlike telemetry, can outlive their device (`Orphans.AlertOutlivesDevice`): AddAlert does not look for it.
  Deleting a device leaves no alert behind, now or later, if and only if no worker has yet to store an alert of it
  (`Orphans.DeletionSafeExactly`).
- Interleaved MongoDB trims keep the cap but can go below it, down to nothing (`MongoRetention.TrimsCanOvershoot`). From
  any reachable state they leave the device no smaller than it is or than the cap, in whatever order they go on, if and only
  if what they can still remove does not exceed the excess (`MongoRetention.TrimsStopExactly`), and calls of a device that
  do not overlap keep exactly the cap's worth (`MongoRetention.ExactRetention`).
- The two stores answer all whole-millisecond queries alike if and only if a device's samples are in whole milliseconds, in
  order, and equal where simultaneous (`MongoAgreement.AgreesExactly`, `MongoAgreement.RunAgreesExactly`). Past the cap that
  is asked of the samples kept, and each discarded one must lie in an earlier millisecond than these or equal them
  (`MongoCapped.CappedAgreesExactly`). A finer `since` agrees if and only if no sample lies in the millisecond it falls into
  (`MongoAgreement.FinerSinceAgreesExactly`).
- A role change that overlaps a password change can put the old password back (`Users.StaleCopyRestoresPassword`). A
  password stays until somebody sets out to change it if and only if no update in progress holds a copy of the record with
  another one (`Users.PasswordHoldsExactly`).
- With a slash or a wildcard in the topic prefix the bridge never ingests anything, although the filter may be valid and
  match; with neither it can (`Topics.IngestsExactly`, an if and only if).

## Model

| member | source | states |
|---|---|---|
| `Store.MemoryStore.constructor` | internal/store/store.go:46-55 | a new store is empty and keeps its history cap |
| `Store.MemoryStore.CreateDevice` | internal/store/store.go:58-66 | refuses an existing id and then changes nothing; otherwise adds just that device |
| `Store.MemoryStore.GetDevice` | internal/store/store.go:69-77 | the stored device, or not found |
| `Store.MemoryStore.ListDevices` | internal/store/store.go:80-91 | every device exactly once, sorted by registration time, for every map order |
| `Store.MemoryStore.UpdateDevice` | internal/store/store.go:95-108 | replaces the descriptive fields only; not found changes nothing |
| `Store.MemoryStore.UpdateDeviceStatus` | internal/store/store.go:111-124 | sets the status, and the last-seen time unless it is given as zero |
| `Store.MemoryStore.DeleteDevice` | internal/store/store.go:127-137 | removes device, telemetry and alerts of that id and nothing else |
| `Store.MemoryStore.AddTelemetry` | internal/store/store.go:140-152 | appends and keeps the last maxHistory; an unknown device changes nothing |
| `Store.MemoryStore.GetTelemetry` | internal/store/store.go:156-170 | the last `limit` of the samples at or after `since`, in stored order |
| `Store.MemoryStore.AddAlert` | internal/store/store.go:173-178 | appends to the alerts of the device, existing or not |
| `Store.KeyedAlways` | internal/store/store.go:58-124 | every call keeps devices filed under their own ids |
| `Store.Retention` | internal/store/store.go:58-66 | after any calls a device and its telemetry exist exactly when the call log says so, and the series is the last maxHistory samples logged since creation |
| `Store.NewestKept` | internal/store/store.go:140-152 | counted from the newest, the series holds the samples of the call log at the same places, as many as the cap allows |
| `Store.RecordFromCalls` | internal/store/store.go:58-137 | after any calls every field of a record is what the last accepted call that sets it said, and a record exists exactly while its device does |
| `Store.AlertsFromCalls` | internal/store/store.go:127-178 | after any calls the alerts of a device are those added since a deletion last found it, in order |
| `Store.QueryAnswersFromLog` | internal/store/store.go:154-170 | what GetTelemetry returns, in terms of the call log; everything when within the cap |
| `Store.QueryFilters` | internal/store/store.go:154-170 | without a limit a query returns exactly the samples not before `since`, each as often as stored, in stored order |
| `Store.LimitKeepsLast` | internal/store/store.go:166-169 | a positive limit leaves that many of them, the last ones |
| `Store.AlertsWithinDevices` | internal/store/store.go:173-178 | alerts stay within live devices across a call if and only if it is not an AddAlert for a missing device |
| `Alerts.Engine.constructor` | internal/alerts/alerts.go:21-23 | holds the given rules in its own array |
| `Alerts.Engine.AddRule` | internal/alerts/alerts.go:26-30 | appends in place or into a larger copy; the part of the old array in use keeps its contents |
| `Alerts.Engine.Evaluate` | internal/alerts/alerts.go:43-69 | with any appends before any of its reads, returns the alerts of the breached rules of the list at its start, in order, and that list is a prefix of the final one |
| `Alerts.BreachesBound` | internal/alerts/alerts.go:48-68 | a sample breaches at most as many rules as there are |
| `Alerts.BreachesDevice` | internal/alerts/alerts.go:55-65 | every alert carries the device of the sample |
| `Alerts.RuleAlertsExactly` | internal/alerts/alerts.go:48-86 | a rule alerts if and only if the sample has its metric, its operator is one of the five and the value lies on a side of the threshold that operator is for; the alert carries that device, metric, value, threshold and severity |
| `Alerts.BreachesAppend` | internal/alerts/alerts.go:48-68 | each rule of a list alerts as it would alone, in the order of the list |
| `Alerts.RaisingValue` | internal/alerts/alerts.go:72-86 | raising a value silences no rule that alerts upwards and sets off none that alerts downwards |
| `Alerts.OperatorsPartition` | internal/alerts/alerts.go:72-86 | at every value exactly one of ">", "==" and "<" alerts; ">=" and "<=" alert besides at equality |
| `Pool.WorkerPool.constructor` | internal/worker/pool.go:28-42 | defaults of one worker and of a queue as long as the workers |
| `Pool.WorkerPool.Start` | internal/worker/pool.go:45-52 | the first call is the run that launches all workers, later calls change nothing |
| `Pool.WorkerPool.Submit` | internal/worker/pool.go:72-79 | is a Submit transition, whichever ready case `select` picks |
| `Pool.WorkerPool.TrySubmit` | internal/worker/pool.go:83-93 | is a TrySubmit transition: counts a drop only for a full queue of a pool not cancelled |
| `Pool.WorkerPool.Stop` | internal/worker/pool.go:96-99 | is the run that cancels, lets each worker take any number of further jobs and exit, and returns when all are gone |
| `Pool.WorkerPool.LastTurns` | internal/worker/pool.go:54-68 | a worker's remaining turns and its exit |
| `Pool.WorkerPool.RunJob` | internal/worker/pool.go:54-68 | a turn of the loop takes the head of the queue, runs it and counts it |
| `Pool.AlwaysBalanced` | internal/worker/pool.go:54-93 | invariant of every run: accepted = begun + queued, begun = counted + in flight, drops and cancellation match the run |
| `Pool.Conservation` | internal/worker/pool.go:28-93 | jobs begin in acceptance order, queue and in-flight bounds, processed lags completions by at most the workers, dropped counts exactly the refusals by a full queue before cancellation |
| `Pool.DropsCountedExactly` | internal/worker/pool.go:81-93 | dropped is the number of refused TrySubmits if and only if none was refused after the pool was stopped |
| `Pool.StoppedDropUncounted` | internal/worker/pool.go:84-86 | on any pool a TrySubmit after the stop may return false and count nothing |
| `Pool.BegunOnce` | internal/worker/pool.go:54-68 | of distinct jobs none begins twice, and none that began is still queued |
| `Pool.StopIsFinal` | internal/worker/pool.go:96-99 | once Stop returned on a started pool, nothing is in flight, processed is the number begun, and no continuation begins a job |
| `Pool.StopNeedsStart` | internal/worker/pool.go:45-99 | for stopped pools that guarantee holds if and only if all workers had been launched |
| `Pool.RefusesExactly` | internal/worker/pool.go:70-79 | on a stopped pool Submit is certain to return false if and only if the jobs accepted and never begun fill the queue |
| `Pool.AdmitsExactly` | internal/worker/pool.go:72-93 | in every reachable state Submit and TrySubmit can succeed if and only if the jobs accepted and not begun leave room; TrySubmit can fail if and only if they do not or the pool was cancelled, Submit only in the latter case |
| `Pool.SizesAsGiven` | internal/worker/pool.go:28-52 | a new pool takes n jobs before any worker runs if and only if n is at most the given queue size, and Start launches n workers if and only if n is at most the given number; with the defaults for non-positive ones |
| `Pool.StoppedPoolAccepts` | internal/worker/pool.go:72-79 | any pool, started and stopped, may accept a job after Stop returned |
| `Pool.WorkerStepDecreases` | internal/worker/pool.go:54-68 | every worker step lowers a measure over queue and worker phases |
| `Pool.WorkersComeToRest` | internal/worker/pool.go:54-68 | without submissions the number of worker steps is bounded by that measure |
| `Pool.RestMeansStopped` | internal/worker/pool.go:95-99 | a cancelled pool whose workers cannot move is one whose Stop can return |
| `Hub.EventHub.constructor` | internal/realtime/hub.go:21-29 | the initial state of the hub system, buffer of 16 unless given |
| `Hub.EventHub.Subscribe` | internal/realtime/hub.go:32-38 | is the run make, lock, add, unlock of a new open empty channel |
| `Hub.EventHub.Unsubscribe` | internal/realtime/hub.go:41-48 | is the run lock, remove, close, unlock; repeated, it finds nothing and closes nothing |
| `Hub.EventHub.Broadcast` | internal/realtime/hub.go:52-62 | is the run read-lock, one send to each subscriber in some order, read-unlock; drops only where the buffer is full |
| `Hub.SafeStep` | internal/realtime/hub.go:32-62 | every lock, map, channel and loop step of any goroutine keeps the safety invariant |
| `Hub.ChannelSafety` | internal/realtime/hub.go:32-62 | in every interleaving no send or close meets a closed channel, registered channels are open, buffers stay within size |
| `Hub.AlwaysAccounted` | internal/realtime/hub.go:52-62 | received and buffered are the offers kept, in order; offers = kept + dropped |
| `Hub.AlwaysInOrder` | internal/realtime/hub.go:52-62 | what a channel was offered from one goroutine follows that goroutine's broadcasts |
| `Hub.Delivery` | internal/realtime/hub.go:21-62 | offered = received + buffered + dropped, both orders kept, no buffer exceeds the size the hub was given (16 unless positive), and that many first offers are never lost |
| `Hub.OfferedExactly` | internal/realtime/hub.go:52-62 | no subscriber is skipped: while a channel stays registered, what it is offered from a goroutine between two of its broadcasts is all that goroutine broadcast, in order |
| `Hub.BroadcastFinishes` | internal/realtime/hub.go:50-62 | a broadcast that has begun can be finished by its own steps alone, whatever the buffers hold |
| `Hub.BufferDrains` | internal/realtime/hub.go:41-48 | what is buffered can be received to the last message and in order, even from a closed channel |
| `Hub.OpenExactly` | internal/realtime/hub.go:32-48 | in every run a channel is open if and only if it is on its way in, registered, or taken out and about to be closed |
| `Pipeline.PoolWithin` | internal/service/service.go:176-183 | the pool inside the pipeline runs as a pool alone, and accepts just the samples the log says |
| `Pipeline.JobCases` | internal/service/service.go:187-217 | each action of a job does one of five things to store, log and worker, and nothing to the rest |
| `Pipeline.ScanCases` | internal/service/service.go:246-265 | each action of the reconciler skips, marks one existing silent device offline, or announces the one it marked |
| `Pipeline.StoreWithin` | internal/service/service.go:187-265 | in every run the store is what the store calls of the jobs, of the reconciler and of device management, in the order in which they interleave, make of an empty one |
| `Ingestion.AlwaysBalanced` | internal/service/service.go:176-217 | invariant of every run from a registered device of which nothing was accepted yet, whatever else went on: what accepted samples promise = queued + held by workers + delivered, and the series is the kept end of the arrivals |
| `Ingestion.AllDelivered` | internal/service/service.go:187-217 | when no sample of the device is pending, each promised sample and alert has been delivered in exactly the promised number |
| `Ingestion.SamplesConserved` | internal/service/service.go:176-217 | in every run from the start of the program, whenever the device was registered, a settled device has received a permutation of its accepted samples and holds the last maxHistory arrivals, all within the cap |
| `Ingestion.AlertsConserved` | internal/service/service.go:187-217 | likewise it holds exactly the alerts its accepted samples breach, whatever the cap discarded |
| `Ingestion.SerialLog` | internal/store/store.go:140-152 | samples given one after another to a new device are its log |
| `Ingestion.Registration` | internal/service/service.go:101-124 | a device registered at any point of any run is such a device, if nobody used its id before |
| `Ingestion.AggregatesIndependent` | internal/analytics/analytics.go:12-45 | within the cap Aggregate gives, after any interleaving, the same metrics and the same Count, Min, Max, Sum and Avg as after a serial run in submission order |
| `Settling.StepLowers` | internal/service/service.go:187-217 | every action of a worker lowers a measure over queue, workers and stages |
| `Settling.WorkersBounded` | internal/worker/pool.go:54-68 | without submissions the workers take no more steps than the measure says |
| `Settling.StuckMeansSettled` | internal/worker/pool.go:54-68 | in a pool started and not stopped, workers that cannot move have settled every device |
| `Settling.WorkersSettle` | internal/worker/pool.go:54-68 | from every such reachable state the workers alone settle every device within the measure |
| `Status.UnknownMeansNeverSeen` | internal/service/service.go:101-112 | in every reachable state a device is Unknown exactly when its last-seen time is zero |
| `Status.NeverUnknownAgain` | internal/store/store.go:111-124 | a device that left Unknown never returns to it in any continuation |
| `Status.AlwaysMarked` | internal/service/service.go:246-265 | invariant of every run: a device is Offline exactly when marked offline and not online since, and exactly the reconciler's current device is unannounced |
| `Status.OnlineBetweenOfflines` | internal/service/service.go:246-282 | between two offline marks of a device there is an online mark |
| `Status.OnlineBehindEvents` | internal/service/service.go:253-262 | two status events come from two offline marks with an online mark between the marks, the second mark between the events |
| `Status.OnlineBetweenEvents` | internal/service/service.go:253-262 | two status events have an online mark between them unless one fell between the first mark and its event |
| `Silence.ScanExactly` | internal/service/service.go:246-265 | whatever goes on during a scan, it marks a device offline at most once and only if at its start the store held it not Offline and last seen longer ago than allowed; when it ends every such device still there has been marked and announced once |
| `Silence.OfflineJustified` | internal/service/service.go:246-265 | in every run, each device ever marked offline was overdue in the store when some scan began |
| `Announcements.NextEventNeedsOnline` | internal/service/service.go:246-265 | every continuation has an online mark before the device's next status event if and only if, when this one is published, the store says Offline or has lost the device |
| `Announcements.OnlineBeforeNext` | internal/service/service.go:252-262 | the half that finds the online mark |
| `Announcements.NextWithoutOnline` | internal/service/service.go:248-262 | the other half: the reconciler alone reaches the next event |
| `Announcements.EventsWithoutOnlineBetween` | internal/service/service.go:253-262 | under every configuration some run publishes two status events without an online mark between |
| `Orphans.AlertsWithinDevices` | internal/service/service.go:205-209 | in every run that deletes no device while a worker has yet to store an alert of it, alerts exist only of existing devices |
| `Orphans.DeletionSafeExactly` | internal/store/store.go:127-137 | a deletion leaves no alert behind in any continuation if and only if no worker has yet to store an alert of the device |
| `Orphans.AlertOutlivesDevice` | internal/store/store.go:173-178 | under every configuration with a rule to breach some run leaves an alert of a deleted device |
| `CacheRaces.AlwaysSound` | internal/service/service.go:187-196 | invariant of every run with the cache: with no write to come, an entry tells the record exactly if its write did when made |
| `CacheRaces.OverlayExactAtRest` | internal/service/service.go:126-144 | then GetDevice returns what the store holds if and only if the entry has expired or its write was true when made |
| `CacheRaces.OverlayExactWhenOrderly` | internal/service/service.go:126-144 | if no mark of the device falls between a mark and its cache write, GetDevice returns what the store holds whenever no write is to come, however other devices interleave |
| `CacheRaces.CachedUnlessExpired` | internal/service/service.go:89-98 | in every run a device whose entry never expired has one once no write for it is to come |
| `CacheRaces.OnlineShownOffline` | internal/service/service.go:253-256 | under every configuration some run ends with no write to come, the store saying Online and GetDevice saying Offline |
| `Broadcasts.AlwaysOnScript` | internal/service/service.go:198-216 | in every run a worker has published a prefix of its script: per stored sample, the sample and then its alerts in rule order |
| `Broadcasts.AlwaysCoupled` | internal/service/service.go:84-86 | pipeline and hub run together as a pipeline run and a hub run, the hub being given exactly what the workers publish |
| `Broadcasts.SubscribersSeeJobOrder` | internal/realtime/hub.go:52-62 | in every joint run, what a subscriber gets from a worker is a subsequence of that script |
| `Service.PlatformService.constructor` | internal/service/service.go:65-81 | a service over the given store with nothing cached, offline after 30 seconds unless given |
| `Service.PlatformService.RegisterDevice` | internal/service/service.go:101-124 | stores, caches and announces a new Unknown device, or does nothing |
| `Service.PlatformService.GetDevice` | internal/service/service.go:128-144 | the overlaid answer is what the store holds |
| `Service.PlatformService.UpdateDevice` | internal/service/service.go:157-172 | updates the store, answers and announces the updated device |
| `Service.PlatformService.DeleteDevice` | internal/service/service.go:152-154 | deletes from the store; the stale cache entry stays harmless |
| `Service.PlatformService.IngestTelemetry` | internal/service/service.go:176-183 | stamps a sample without a timestamp and submits it once |
| `Service.PlatformService.ProcessTelemetry` | internal/service/service.go:187-217 | stores, marks online in store and cache, raises all breached alerts, publishes the job's events in order; nothing for an unknown device |
| `Service.PlatformService.StoreSample` | internal/service/service.go:188-203 | the part before the alerts: store, online mark, cache, event; nothing for an unknown device |
| `Service.PlatformService.RaiseBreached` | internal/service/service.go:205-216 | the alerts of the breached rules, stored and published |
| `Service.PlatformService.RaiseAll` | internal/service/service.go:205-216 | stores and publishes the alerts in order |
| `Service.PlatformService.ReconcileStatuses` | internal/service/service.go:246-265 | a device last seen longer ago than allowed and not Offline ends Offline in store and cache with exactly one event; any other keeps its record and entry and gets none; events in order of registration |
| `Service.PlatformService.ReconcileListed` | internal/service/service.go:248-264 | the loop over a listing deals with its devices in turn and announces exactly the silent ones, in its order |
| `Service.PassReconciles` | internal/service/service.go:248-264 | a pass in turn over a listing marks exactly the devices silent at its start |
| `Service.PassJudged` | internal/service/service.go:246-265 | that outcome for each device, from the records alone, for every listing of them |
| `Service.PlatformService.ReconcileDevice` | internal/service/service.go:249-263 | marks, caches and announces one device exactly when it was seen, longer ago than allowed, is not Offline and is still there |
| `Service.OverlayExact` | internal/service/service.go:133-142 | the overlay changes nothing if and only if the entry tells what the record tells |
| `Service.CoherentStep` | internal/service/service.go:89-98 | every call and every expiry keeps cache and store in agreement |
| `Service.CacheTransparent` | internal/service/service.go:126-144 | after any calls and expiries, reading through the cache gives the stored device |
| `Service.RecordAfter` | internal/service/service.go:101-265 | every call leaves a record marked, newly described, or exactly as it was |
| `Service.DevicesAfter` | internal/service/service.go:101-170 | devices come by registration and go by deletion |
| `Service.HistoryAfter` | internal/service/service.go:163-217 | a processed sample adds itself and the alerts it breaches to its device, a deletion removes both, nothing else touches them |
| `Service.LostWriteShows` | internal/service/service.go:95-97 | one call in any state: a call that marks the device makes GetDevice differ if and only if its write is lost over an entry it outdates; any other leaves that as it was, but for expiry |
| `Service.ShowsExactly` | internal/service/service.go:89-144 | after any calls with any writes lost, GetDevice differs on a device if and only if its last mark lost its write over an entry it outdated and that entry has not expired |
| `Service.ShowsLastWritten` | internal/service/service.go:89-144 | GetDevice then answers with the status and last-seen time of the last cache write that succeeded and has not expired, and with the stored ones otherwise |
| `Service.SuccessHeals` | internal/service/service.go:89-98 | a write that succeeds heals the device until it is marked again, whatever was lost before |
| `Coarse.JobAlone` | internal/service/service.go:187-217 | the interleaved steps of a job, left alone, have the effect of the whole call and publish its events in order |
| `Coarse.JobRefused` | internal/service/service.go:188-191 | a job for a missing device ends at once and changes nothing |
| `Coarse.ScanAlone` | internal/service/service.go:246-265 | the steps of a scan, left alone, have the effect of the whole pass in any listing order, and announce its events in that order |
| `Mongo.CapStep` | internal/store/mongo.go:226-275 | every database operation of any call keeps: within the cap, or some call in progress is obliged to get there |
| `Mongo.AlwaysCovered` | internal/store/mongo.go:226-275 | that invariant in every run |
| `Mongo.CapAtQuiescence` | internal/store/mongo.go:226-275 | once all calls for a device have returned, at most maxHistory of its documents remain, whatever the interleaving |
| `MongoRetention.ExactRetention` | internal/store/mongo.go:226-275 | when calls of a device do not overlap, whatever other devices do, then once they returned exactly min(maxHistory, documents inserted since the last purge) remain |
| `MongoRetention.AlwaysExact` | internal/store/mongo.go:226-275 | the invariant behind it, phase by phase |
| `MongoRetention.TrimsStopExactly` | internal/store/mongo.go:250-275 | from every reachable state the calls in progress leave no less than the cap or what there is, in every order, if and only if what they have picked and may yet pick does not exceed the excess |
| `MongoRetention.Drain` | internal/store/mongo.go:250-275 | from every reachable state the trims can be run to their end so that no more is left than must be |
| `MongoRetention.TwoOvershoot` | internal/store/mongo.go:254-274 | from any state with an excess, two calls about to count can take the device below the cap |
| `MongoRetention.TrimsCanOvershoot` | internal/store/mongo.go:254-274 | two interleaved calls under a cap of one can leave nothing |
| `MongoRetention.OldestExist` | internal/store/mongo.go:259-260 | the query for the oldest always has an answer |
| `MongoSerial.MongoStore.CreateDevice` | internal/store/mongo.go:126-134 | stores the device, times rounded down to milliseconds; a duplicate id changes nothing |
| `MongoSerial.RoundingLoses` | internal/store/mongo_mapping.go:21-46 | a device document loses the fraction of a millisecond of each of its times, and nothing else |
| `MongoSerial.MongoStore.DeleteDevice` | internal/store/mongo.go:210-223 | removes the device, its telemetry documents and its alerts, and nothing else |
| `MongoSerial.WithoutExactly` | internal/store/mongo.go:221-221 | of the alerts, exactly those of the device go |
| `MongoSerial.WithoutInOrder` | internal/store/mongo.go:221-221 | the others stay in order |
| `MongoSerial.MongoStore.AddAlert` | internal/store/mongo.go:320-325 | adds the alert |
| `MongoSerial.MongoStore.AddTelemetry` | internal/store/mongo.go:226-247 | inserts and trims; an unknown device changes nothing |
| `MongoSerial.MongoStore.TrimHistory` | internal/store/mongo.go:250-275 | removes exactly the excess over the cap, oldest first |
| `MongoSerial.MongoStore.GetTelemetry` | internal/store/mongo.go:278-317 | the newest `limit` matching documents in ascending order of time |
| `MongoSerial.Reverse` | internal/store/mongo.go:310-315 | the swap loop reverses the array |
| `MongoSerial.NewestReversed` | internal/store/mongo.go:286-315 | newest first, limited and reversed is the end of oldest first |
| `MongoAgreement.OneOrder` | internal/store/mongo.go:286-289 | documents equal where simultaneous have one ascending order |
| `MongoAgreement.RestIsSuffix` | internal/store/mongo.go:259-274 | whatever k oldest documents of a tidy series are removed, its end remains |
| `MongoAgreement.TrimRefines` | internal/store/mongo.go:250-275 | trimming the oldest is trimming the earliest arrivals when arrivals are tidy |
| `MongoAgreement.QueryAgrees` | internal/store/mongo.go:278-317 | every answer about a tidy series is MemoryStore's |
| `MongoAgreement.MongoRefinesMemory` | internal/store/mongo.go:226-317 | for every serial run, every device whose samples since its creation have whole-millisecond timestamps that rise, or repeat with the sample, every whole-millisecond `since` and every limit, both stores answer the same |
| `MongoAgreement.AgreesExactly` | internal/store/mongo.go:278-317 | over the same samples the stores answer all whole-millisecond queries alike if and only if these are in whole milliseconds, in order, and equal where simultaneous |
| `MongoAgreement.RunAgreesExactly` | internal/store/mongo.go:226-317 | after every serial run within the cap, the stores agree on a device if and only if its samples are so |
| `MongoCapped.SelectRun` | internal/store/mongo.go:226-275 | every serial run keeps the newest maxHistory samples of a device by millisecond |
| `MongoCapped.Reach` | internal/store/mongo.go:259-274 | and every way of choosing among equally old ones is what some run keeps |
| `MongoCapped.CappedAgreesExactly` | internal/store/mongo.go:226-317 | for any calls and any cap, all serial runs agree with MemoryStore on a device if and only if the samples it keeps are tidy and each it discarded lies in an earlier millisecond than these or equals them |
| `MongoAgreement.FinerSinceAgreesExactly` | internal/store/mongo.go:282-285 | for a tidy series a finer `since` agrees if and only if no sample lies in the millisecond it falls into |
| `MongoSerial.AloneIsSerial` | internal/store/mongo.go:226-275 | every result of the serial call is reached by its database operations run alone |
| `MongoSerial.SoloIsSerial` | internal/store/mongo.go:226-275 | and they reach nothing else |
| `MongoSerial.DeletionIsSerial` | internal/store/mongo.go:210-223 | a deletion run alone is the serial call: the device and its documents are gone, those of other devices stay |
| `MongoSerial.TrimmedCount` | internal/store/mongo.go:250-275 | a trim leaves exactly the smaller of the cap and what there was, in whatever time order |
| `Users.MemoryUsers.CreateUser` | internal/store/memory_users.go:11-21 | refuses a taken username |
| `Users.MemoryUsers.GetUserByUsername` | internal/store/memory_users.go:24-33 | finds a user of that name exactly when there is one |
| `Users.MemoryUsers.GetUserByID` | internal/store/memory_users.go:36-44 | the record of that id, or not found |
| `Users.MemoryUsers.UpdateUser` | internal/store/memory_users.go:61-69 | overwrites the whole record of an existing id |
| `Users.MemoryUsers.DeleteUser` | internal/store/memory_users.go:72-85 | removes the user and all its refresh tokens and leaves every other record alone |
| `Users.MemoryUsers.StoreRefreshToken` | internal/store/memory_users.go:88-93 | files the token under its hash |
| `Users.MemoryUsers.GetRefreshToken` | internal/store/memory_users.go:97-108 | the token if it is there and has no expiry or one not yet past |
| `Users.MemoryUsers.DeleteRefreshToken` | internal/store/memory_users.go:111-116 | removes that token |
| `Users.MemoryUsers.DeleteUserRefreshTokens` | internal/store/memory_users.go:119-128 | deleting while iterating removes exactly the user's tokens |
| `Users.NamedStep` | internal/auth/service.go:55-131 | every store call of any service call keeps usernames unique and tied to ids |
| `Users.UsernamesUniqueAndStable` | internal/auth/service.go:55-131 | in every interleaving usernames are unique and an id keeps its name, despite stale copies |
| `Users.StaleCopyRestoresPassword` | internal/auth/service.go:105-131 | from any state two overlapping updates can put the old password back after the change finished |
| `Users.PasswordHoldsExactly` | internal/auth/service.go:105-131 | in every reachable world a password stays, until somebody sets out to change it, if and only if no update in progress holds a copy with another |
| `Users.CreationAdds` | internal/store/memory_users.go:11-21 | a creation adds just that user if nobody has the name, and otherwise nothing |
| `Users.EnsuredName` | internal/auth/service.go:79-91 | EnsureUser alone leaves somebody with the name, and every earlier user as it was |
| `Users.UpdateTakesEffect` | internal/auth/service.go:105-131 | whatever happens between its read and its write, an update leaves the user, unless deleted, with the roles and the password it was given |
| `Users.DeletedForGood` | internal/store/memory_users.go:72-85 | a deleted user does not come back, whatever updates still hold copies of the record |
| `Users.OthersUntouched` | internal/store/memory_users.go:11-85 | a store call leaves the record of every other user alone |
| `Tokens.AlwaysSound` | internal/auth/service.go:105-206 | in every history the store holds exactly the tokens the history leaves standing, each of an existing user |
| `Tokens.NeverRedeemedAfter` | internal/auth/service.go:126-180 | no token redeems after its redemption or logout, or its user's password change or deletion |
| `Tokens.RedemptionsJustified` | internal/auth/service.go:161-175 | every redemption is of a token issued to that user, by its expiry, with nothing ending it in between |
| `Tokens.RedeemedOnce` | internal/auth/service.go:161-175 | each token is redeemed at most once |
| `Tokens.OneLivePerLogin` | internal/auth/service.go:151-206 | each login has at most one live descendant, and every stored token an existing owner |
| `Accounts.UsersAsGiven` | internal/auth/service.go:55-134 | in every history the users are exactly the accounts that the calls have given, each with its name, last password, last roles and time of creation |
| `Accounts.LoginExactly` | internal/auth/service.go:137-157 | in every reachable state a login issues a token, valid for the lifetime of tokens, if and only if the name and password presented are those of an account, and it is that account's |
| `Accounts.RefreshExactly` | internal/auth/service.go:161-206 | in every reachable state a refresh succeeds if and only if the token was issued, has not expired, and no redemption, logout, new password or deletion has ended it; the new token is the same user's |
| `Accounts.IssuesJustified` | internal/auth/service.go:150-206 | every token was issued by a login to the account it opened or by the refresh that redeemed its parent, and expires one lifetime later |
| `Accounts.EndsLogged` | internal/auth/service.go:105-180 | an accepted new password, the deletion of an existing user and every logout take effect on tokens, and no other call does |
| `Accounts.DeletedForGood` | internal/auth/service.go:134-134 | once an existing user is deleted no later state has that id and no token is issued to it |
| `Tokens.AuthService.constructor` | internal/auth/service.go:42-52 | tokens live seven days unless given |
| `Tokens.AuthService.CreateUser` | internal/auth/service.go:55-77 | refuses short passwords and taken names; viewer by default (what it stores: Accounts.UsersAsGiven) |
| `Tokens.AuthService.EnsureUser` | internal/auth/service.go:81-91 | creates only when the name is free |
| `Tokens.AuthService.UpdateUser` | internal/auth/service.go:105-131 | edits roles and password, revoking all tokens on a new password; a short one changes nothing |
| `Tokens.AuthService.DeleteUser` | internal/auth/service.go:134-134 | removes the user and its tokens |
| `Tokens.AuthService.Login` | internal/auth/service.go:137-157 | issues a token exactly on the right password of an existing user |
| `Tokens.AuthService.Refresh` | internal/auth/service.go:161-175 | rotates: the presented token is gone whatever the outcome |
| `Tokens.AuthService.Logout` | internal/auth/service.go:178-180 | removes that token |
| `Tokens.AuthService.IssueTokens` | internal/auth/service.go:183-206 | stores the hashed token with its expiry |
| `Analytics.Aggregate` | internal/analytics/analytics.go:12-45 | a metric has statistics exactly when some point carries it, and they are count, sum, extremes, mean and last of its values, for every map order |
| `Analytics.TimeSeries` | internal/analytics/analytics.go:55-69 | sorted by time; each point occurs as often as there are samples of the metric with its value in its millisecond; for samples a millisecond or more apart in order of time the values come in sample order |
| `Analytics.MeanWithinRange` | internal/analytics/analytics.go:37-43 | Min <= Avg <= Max |
| `Analytics.SumPermutes` | internal/analytics/analytics.go:26-26 | sums do not depend on order |
| `Analytics.OrderIrrelevant` | internal/analytics/analytics.go:12-45 | reordering the points changes neither which metrics have statistics nor any statistic but Last |
| `Analytics.SeriesMatchesStats` | internal/analytics/analytics.go:12-69 | a metric has statistics exactly when its series is not empty, and they describe the series |
| `Topics.SplitJoin` | internal/mqtt/mqtt.go:126-126 | splitting loses nothing |
| `Topics.SplitLevels` | internal/mqtt/mqtt.go:126-126 | and leaves no slash in a level |
| `Topics.JoinSplit` | internal/mqtt/mqtt.go:126-126 | slash-free levels survive joining and splitting |
| `Topics.TopicRoundTrip` | internal/mqtt/mqtt.go:125-131 | a device's topic yields the device; a prefix with a slash yields nothing for any topic |
| `Topics.IngestsExactly` | internal/mqtt/mqtt.go:69-131 | some topic name yields a device id if and only if the prefix has no slash and no wildcard (topic names: section 4.7.1 of MQTT 3.1.1) |
| `Topics.DeviceIdSound` | internal/mqtt/mqtt.go:125-131 | a non-empty answer is the slash-free middle level of prefix/id/telemetry |
| `Topics.FilterLevels` | internal/mqtt/mqtt.go:69-69 | the subscription filter matches exactly the three-level topics with that prefix and ending (section 4.7.1 of MQTT 3.1.1) |
| `Topics.BridgeIngestsFilter` | internal/mqtt/mqtt.go:69-131 | of the delivered topics exactly those with a non-empty middle level are ingested, and these are exactly prefix/id/telemetry |

Two preconditions are representation invariants rather than demands on callers. `Store.MemoryStore.ListDevices` and the
methods of `Tokens.AuthService` take devices and users to be filed under their own ids; `Store.KeyedAlways` and
`Tokens.AlwaysSound` show that every call keeps it so. `Pool.WorkerPool.Submit` and
`Service.PlatformService.IngestTelemetry` require a ready case because the source blocks until there is one.

## Left out

- Mongo.CapAtQuiescence: an upper bound, because overlapping trims can go below the cap; MongoRetention says when they do. Failing database operations are not modelled.
- MongoStore's status and description updates, device and alert listings and the field-by-field document mapping.
- Broadcasts.SubscribersSeeJobOrder: the order is per worker; which broadcasts the reconciler and the handlers begin is left open in the joint runs.
- Service.CacheTransparent: calls do not overlap and cache writes succeed; overlap is the subject of CacheRaces, lost writes of Service.ShowsExactly.
- CacheRaces.OverlayExactAtRest: cache writes succeed; lost ones are treated call by call, in Service.
- Ingestion.SamplesConserved: nobody sends samples under an id before it is drawn at registration; ids are random.
- Tokens.RedeemedOnce: each service call is one step; interleavings inside Refresh and inside a password change are not modelled.
- Users.UsernamesUniqueAndStable: for MemoryStore; uniqueness in MongoDB rests on a database index.
- Alert ids, messages and creation times: random, formatted and clock values; ListAlerts across devices, which sorts by creation time.
- ListUsers, SubscriberCount, Rules, Processed and Dropped: plain reads.
- "device" events in the interleaved pipeline; they are in the one-call view.
- Writer preference of Go's RWMutex: the model allows more interleavings than Go does.
- Overflow of the 64-bit counters, of `time.Duration` and of the clock; floating-point rounding and NaN.
- Aliasing of metadata maps and metrics maps shared between a caller and the store.
- bcrypt (also on passwords beyond 72 bytes), SHA-256, JWT and random-generator failures; access tokens and middleware.
- Redis client and event bus, HTTP and WebSocket handlers, MQTT connection and payload decoding, configuration and wiring.
