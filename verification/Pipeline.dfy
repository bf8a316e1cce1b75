/** Ingestion end to end: submitters, pool workers running multi-step jobs, the status reconciler and device management,
    interleaved at the granularity of store calls, queue operations and broadcasts. */
module Pipeline {
  import opened Models
  import opened Sequences
  import Store
  import Alerts
  import Pool

  datatype Config = Config(maxHistory: int, rules: seq<AlertRule>, offlineAfter: int)

  /** The next action of the job a worker is running. */
  datatype Stage =
    | Persist
    | MarkOnline
    | CacheOnline
    | PublishSample
    | Evaluate
    | StoreAlert(pending: seq<Alert>)
    | PublishAlert(pending: seq<Alert>)
    | Finished

  /** The reconciler's position in its scan of a snapshot of the devices. */
  datatype Reconciler =
    | Resting
    | Scanning(now: Time, todo: seq<Device>)
    | CachingOffline(now: Time, todo: seq<Device>, id: string)
    | Announcing(now: Time, todo: seq<Device>, id: string)
  {
    function Ahead(): seq<Device> {
      if Resting? then [] else todo
    }
  }

  /** What an observer of the store and of the hub sees happen. */
  datatype Entry =
    | Accepted(sample: Telemetry)
    | Persisted(w: nat, sample: Telemetry)
    | WentOnline(id: string)
    | WentOffline(id: string)
    | Published(w: nat, event: Event)
    | Announced(id: string)

  datatype State = State(
    pool: Pool.State<Telemetry>,
    stages: seq<Stage>,        // per worker, meaningful while it runs a job
    store: Store.State,
    used: set<string>,         // device ids ever issued
    reconciler: Reconciler,
    log: seq<Entry>)

  function Init(workers: int, queueSize: int): State {
    State(Pool.Init(workers, queueSize), [], Store.EMPTY, {}, Resting, [])
  }

  datatype Label =
    | PoolStep(l: Pool.Label<Telemetry>)
    | JobStep(w: nat)
    | Register(device: Device)
    | Manage(op: Store.Op)                                 // UpdateDevice and DeleteDevice
    | BeginScan(now: Time, snapshot: seq<Device>)
    | ScanStep

  /** ListDevices: every device once, in some order. */
  ghost predicate Snapshot(s: Store.State, devices: seq<Device>) {
    forall d :: multiset(devices)[d] == if Store.Holds(s, d) then 1 else 0
  }

  ghost predicate Enabled(s: State, l: Label) {
    match l
    case PoolStep(p) =>
      && Pool.Enabled(s.pool, p)
      && (p.Submit? || p.TrySubmit? ==> p.job.timestamp != ZERO_TIME)     // IngestTelemetry stamps the sample
      && (p.Finish? ==> p.w < |s.stages| && s.stages[p.w].Finished?)
    case JobStep(w) =>
      w < |s.pool.phases| && w < |s.stages| && s.pool.phases[w].Running? && !s.stages[w].Finished?
    case Register(d) => d.id !in s.used && d.status == Unknown && d.lastSeenAt == ZERO_TIME
    case Manage(op) => op.UpdateDevice? || op.DeleteDevice?
    case BeginScan(_, devices) => s.reconciler.Resting? && Snapshot(s.store, devices)
    case ScanStep => !s.reconciler.Resting?
  }

  ghost function Apply(c: Config, s: State, l: Label): State
    requires Enabled(s, l)
  {
    match l
    case PoolStep(p) =>
      s.(pool := Pool.Apply(s.pool, p),
         stages := if p.Launch? then s.stages + [Finished]
                   else if p.Take? && p.w < |s.stages| then s.stages[p.w := Persist] else s.stages,
         log := if (p.Submit? || p.TrySubmit?) && p.ok then s.log + [Accepted(p.job)] else s.log)
    case JobStep(w) => ApplyJob(c, s, w, s.pool.phases[w].job)
    case Register(d) =>
      s.(store := Store.Exec(s.store, c.maxHistory, Store.CreateDevice(d)), used := s.used + {d.id})
    case Manage(op) => s.(store := Store.Exec(s.store, c.maxHistory, op))
    case BeginScan(now, devices) => s.(reconciler := Scanning(now, devices))
    case ScanStep => ApplyScan(c, s)
  }

  function Afterwards(pending: seq<Alert>): Stage {
    if pending == [] then Finished else StoreAlert(pending)
  }

  /** One action of processTelemetry. */
  function ApplyJob(c: Config, s: State, w: nat, t: Telemetry): State
    requires w < |s.stages| && !s.stages[w].Finished?
  {
    match s.stages[w]
    case Persist =>
      if !Store.Accepts(s.store, Store.AddTelemetry(t)) then s.(stages := s.stages[w := Finished])
      else s.(store := Store.Exec(s.store, c.maxHistory, Store.AddTelemetry(t)),
              stages := s.stages[w := MarkOnline], log := s.log + [Persisted(w, t)])
    case MarkOnline =>
      var op := Store.UpdateDeviceStatus(t.deviceId, Online, t.timestamp);
      s.(store := Store.Exec(s.store, c.maxHistory, op), stages := s.stages[w := CacheOnline],
         log := if Store.Accepts(s.store, op) then s.log + [WentOnline(t.deviceId)] else s.log)
    case CacheOnline => s.(stages := s.stages[w := PublishSample])
    case PublishSample => s.(stages := s.stages[w := Evaluate], log := s.log + [Published(w, TelemetryEvent(t))])
    case Evaluate => s.(stages := s.stages[w := Afterwards(Alerts.Breaches(c.rules, t))])
    case StoreAlert(pending) =>
      if pending == [] then s.(stages := s.stages[w := Finished])
      else s.(store := Store.Exec(s.store, c.maxHistory, Store.AddAlert(pending[0])),
              stages := s.stages[w := PublishAlert(pending)])
    case PublishAlert(pending) =>
      if pending == [] then s.(stages := s.stages[w := Finished])
      else s.(stages := s.stages[w := Afterwards(pending[1..])], log := s.log + [Published(w, AlertEvent(pending[0]))])
  }

  /** Whether the reconciler takes a snapshot's device for silent. */
  predicate LooksSilent(offlineAfter: int, now: Time, d: Device) {
    d.lastSeenAt != ZERO_TIME && now - d.lastSeenAt > offlineAfter && d.status != Offline
  }

  /** One action of ReconcileStatuses. */
  function ApplyScan(c: Config, s: State): State
    requires !s.reconciler.Resting?
  {
    match s.reconciler
    case Scanning(now, todo) =>
      if todo == [] then s.(reconciler := Resting) else
        var op := Store.UpdateDeviceStatus(todo[0].id, Offline, ZERO_TIME);
        if !LooksSilent(c.offlineAfter, now, todo[0]) || !Store.Accepts(s.store, op)
        then s.(reconciler := Scanning(now, todo[1..]))
        else s.(store := Store.Exec(s.store, c.maxHistory, op), log := s.log + [WentOffline(todo[0].id)],
                reconciler := CachingOffline(now, todo[1..], todo[0].id))
    case CachingOffline(now, todo, id) => s.(reconciler := Announcing(now, todo, id))
    case Announcing(now, todo, id) => s.(log := s.log + [Announced(id)], reconciler := Scanning(now, todo))
  }

  ghost function Exec(c: Config, s0: State, run: seq<Label>): Option<State> {
    if run == [] then Some(s0) else
      var before := Exec(c, s0, Front(run));
      if before.Some? && Enabled(before.value, Last(run)) then Some(Apply(c, before.value, Last(run))) else None
  }

  lemma {:induction false} ExecAppend(c: Config, s0: State, a: seq<Label>, m: State, b: seq<Label>, s: State)
    requires Exec(c, s0, a) == Some(m) && Exec(c, m, b) == Some(s)
    ensures Exec(c, s0, a + b) == Some(s)
  {
    if b == [] {
      assert a + b == a;
    } else {
      ExecAppend(c, s0, a, m, Front(b), Exec(c, m, Front(b)).value);
      assert Front(a + b) == a + Front(b) && Last(a + b) == Last(b);
    }
  }

  lemma {:induction false} ExecSplit(c: Config, s0: State, a: seq<Label>, b: seq<Label>, s: State) returns (m: State)
    requires Exec(c, s0, a + b) == Some(s)
    ensures Exec(c, s0, a) == Some(m) && Exec(c, m, b) == Some(s)
  {
    if b == [] {
      assert a + b == a;
      m := s;
    } else {
      assert Front(a + b) == a + Front(b) && Last(a + b) == Last(b);
      m := ExecSplit(c, s0, a, Front(b), Exec(c, s0, a + Front(b)).value);
    }
  }

  lemma OneStep(c: Config, s: State, l: Label)
    requires Enabled(s, l)
    ensures Exec(c, s, [l]) == Some(Apply(c, s, l))
  {
    assert Front([l]) == [];
    assert Exec(c, s, Front([l])) == Some(s);
  }

  lemma Go(c: Config, s0: State, run: seq<Label>, s: State, l: Label) returns (run': seq<Label>, s': State)
    requires Exec(c, s0, run) == Some(s) && Enabled(s, l)
    ensures run' == run + [l] && s' == Apply(c, s, l) && Exec(c, s0, run') == Some(s')
  {
    run', s' := run + [l], Apply(c, s, l);
    OneStep(c, s, l);
    ExecAppend(c, s0, run, s, [l], s');
  }

  // ---------------------------------------------------------------- the pool inside

  function PoolRun(run: seq<Label>): seq<Pool.Label<Telemetry>> {
    if run == [] then []
    else if Last(run).PoolStep? then PoolRun(Front(run)) + [Last(run).l]
    else PoolRun(Front(run))
  }

  function AcceptedIn(log: seq<Entry>): seq<Telemetry> {
    if log == [] then []
    else if Last(log).Accepted? then AcceptedIn(Front(log)) + [Last(log).sample]
    else AcceptedIn(Front(log))
  }

  lemma AcceptedAppend(log: seq<Entry>, e: Entry)
    ensures AcceptedIn(log + [e]) == if e.Accepted? then AcceptedIn(log) + [e.sample] else AcceptedIn(log)
  {
    assert Front(log + [e]) == log;
  }

  // ---------------------------------------------------------------- what one action of a job can be

  ghost predicate OnlyWorker(s: State, s': State, w: nat) {
    && s'.pool == s.pool && s'.used == s.used && s'.reconciler == s.reconciler
    && w < |s.stages| == |s'.stages| && s'.stages == s.stages[w := s'.stages[w]]
  }

  /** It changes nothing outside the worker. */
  ghost predicate Quietly(s: State, s': State, w: nat) {
    OnlyWorker(s, s', w) && s'.store == s.store && s'.log == s.log
  }

  ghost predicate Persists(c: Config, s: State, s': State, w: nat, t: Telemetry) {
    && OnlyWorker(s, s', w) && t.deviceId in s.store.devices && s'.log == s.log + [Persisted(w, t)]
    && s'.store == s.store.(telemetry :=
         s.store.telemetry[t.deviceId := Keep(s.store.Series(t.deviceId) + [t], c.maxHistory)])
  }

  ghost predicate MarksOnline(s: State, s': State, w: nat, t: Telemetry) {
    && OnlyWorker(s, s', w) && t.deviceId in s.store.devices && s'.log == s.log + [WentOnline(t.deviceId)]
    && s'.store == s.store.(devices :=
         s.store.devices[t.deviceId := Store.Mark(s.store.devices[t.deviceId], Online, t.timestamp)])
  }

  ghost predicate Publishes(s: State, s': State, w: nat, e: Event) {
    OnlyWorker(s, s', w) && s'.store == s.store && s'.log == s.log + [Published(w, e)]
  }

  ghost predicate Raises(s: State, s': State, w: nat, a: Alert) {
    && OnlyWorker(s, s', w) && s'.log == s.log
    && s'.store == s.store.(alerts := s.store.alerts[a.deviceId := s.store.Raised(a.deviceId) + [a]])
  }

  /** What a step of a job did, and to what. */
  datatype JobEffect = Silent | Stored | Marked | Told(event: Event) | Raised(alert: Alert)

  ghost predicate HasEffect(c: Config, s: State, s': State, w: nat, t: Telemetry, e: JobEffect) {
    match e
    case Silent => Quietly(s, s', w)
    case Stored => Persists(c, s, s', w, t) && s.stages[w].Persist?
    case Marked => MarksOnline(s, s', w, t) && s.stages[w].MarkOnline?
    case Told(event) => Publishes(s, s', w, event)
    case Raised(alert) => Raises(s, s', w, alert) && s.stages[w].StoreAlert? && alert in s.stages[w].pending
  }

  lemma JobCases(c: Config, s: State, w: nat) returns (s': State, e: JobEffect)
    requires Enabled(s, JobStep(w))
    ensures s' == Apply(c, s, JobStep(w)) && HasEffect(c, s, s', w, s.pool.phases[w].job, e)
  {
    s' := Apply(c, s, JobStep(w));
    var t := s.pool.phases[w].job;
    match s.stages[w]
    case Persist => e := if t.deviceId in s.store.devices then Stored else Silent;
    case MarkOnline => e := if t.deviceId in s.store.devices then Marked else Silent;
    case PublishSample => e := Told(TelemetryEvent(t));
    case StoreAlert(pending) => e := if pending == [] then Silent else Raised(pending[0]);
    case PublishAlert(pending) => e := if pending == [] then Silent else Told(AlertEvent(pending[0]));
    case _ => e := Silent;
  }

  lemma JobKeepsPool(c: Config, s: State, w: nat)
    requires Enabled(s, JobStep(w))
    ensures var s' := Apply(c, s, JobStep(w)); OnlyWorker(s, s', w) && AcceptedIn(s'.log) == AcceptedIn(s.log)
  {
    var s', e := JobCases(c, s, w);
    if s'.log != s.log {
      AcceptedAppend(s.log, Last(s'.log));
    }
  }

  // ---------------------------------------------------------------- what one action of the reconciler can be

  /** The device whose offline mark is still to be announced. */
  function Busy(r: Reconciler): Option<string> {
    if r.CachingOffline? || r.Announcing? then Some(r.id) else None
  }

  ghost predicate SameElsewhere(s: State, s': State) {
    s'.pool == s.pool && s'.stages == s.stages && s'.used == s.used
  }

  /** It moves on without touching anything. */
  ghost predicate Skips(s: State, s': State) {
    && SameElsewhere(s, s') && s'.store == s.store && s'.log == s.log && Busy(s'.reconciler) == Busy(s.reconciler)
    && (s'.reconciler.Ahead() == s.reconciler.Ahead()
        || (s.reconciler.Ahead() != [] && s'.reconciler.Ahead() == s.reconciler.Ahead()[1..]))
  }

  /** It marks the next device of its snapshot offline. */
  ghost predicate MarksOffline(s: State, s': State, d: Device) {
    && SameElsewhere(s, s') && s.reconciler.Ahead() != [] && d == s.reconciler.Ahead()[0]
    && d.lastSeenAt != ZERO_TIME && d.status != Offline && d.id in s.store.devices
    && s'.store == s.store.(devices := s.store.devices[d.id := s.store.devices[d.id].(status := Offline)])
    && s'.log == s.log + [WentOffline(d.id)] && s'.reconciler.Ahead() == s.reconciler.Ahead()[1..]
    && Busy(s.reconciler) == None && Busy(s'.reconciler) == Some(d.id)
  }

  /** It publishes the status event. */
  ghost predicate Announces(s: State, s': State, id: string) {
    && SameElsewhere(s, s') && s'.store == s.store && s'.log == s.log + [Announced(id)]
    && Busy(s.reconciler) == Some(id) && Busy(s'.reconciler) == None && s'.reconciler.Ahead() == s.reconciler.Ahead()
  }

  lemma ScanCases(c: Config, s: State)
    requires Enabled(s, ScanStep)
    ensures var s', r := Apply(c, s, ScanStep), s.reconciler;
            Skips(s, s') || (r.Ahead() != [] && MarksOffline(s, s', r.Ahead()[0]))
                || (r.Announcing? && Announces(s, s', r.id))
  {
  }

  lemma ScanKeepsPool(c: Config, s: State)
    requires Enabled(s, ScanStep)
    ensures var s' := Apply(c, s, ScanStep);
            s'.pool == s.pool && AcceptedIn(s'.log) == AcceptedIn(s.log) && s'.stages == s.stages && s'.used == s.used
  {
    ScanCases(c, s);
    var s' := Apply(c, s, ScanStep);
    if s'.log != s.log {
      AcceptedAppend(s.log, Last(s'.log));
    }
  }

  ghost predicate HoldsPool(s: State, p0: Pool.State<Telemetry>, prun: seq<Pool.Label<Telemetry>>) {
    && Pool.Exec(p0, prun) == Some(s.pool)
    && AcceptedIn(s.log) == Pool.Accepted(prun)
    && |s.stages| == |s.pool.phases|
  }

  lemma LogWithin(c: Config, s: State, l: Label)
    requires Enabled(s, l) && l.PoolStep?
    ensures AcceptedIn(Apply(c, s, l).log)
         == if (l.l.Submit? || l.l.TrySubmit?) && l.l.ok then AcceptedIn(s.log) + [l.l.job] else AcceptedIn(s.log)
  {
    if (l.l.Submit? || l.l.TrySubmit?) && l.l.ok {
      AcceptedAppend(s.log, Accepted(l.l.job));
    }
  }

  lemma PoolStepWithin(c: Config, s: State, p0: Pool.State<Telemetry>, prun: seq<Pool.Label<Telemetry>>, l: Label)
    requires HoldsPool(s, p0, prun) && Enabled(s, l) && l.PoolStep?
    ensures HoldsPool(Apply(c, s, l), p0, prun + [l.l])
  {
    Pool.Extend(p0, prun, s.pool, l.l);
    LogWithin(c, s, l);
  }

  lemma OtherStepWithin(c: Config, s: State, p0: Pool.State<Telemetry>, prun: seq<Pool.Label<Telemetry>>, l: Label)
    requires HoldsPool(s, p0, prun) && Enabled(s, l) && !l.PoolStep?
    ensures HoldsPool(Apply(c, s, l), p0, prun)
  {
    if l.JobStep? {
      JobKeepsPool(c, s, l.w);
    } else if l.ScanStep? {
      ScanKeepsPool(c, s);
    }
  }

  /** The pool within the pipeline runs as a pool, so all that holds of pools holds here; and the accepted samples are
      those the pool accepted. */
  lemma {:induction false} PoolWithin(c: Config, s0: State, run: seq<Label>, s: State)
    requires Exec(c, s0, run) == Some(s) && s0.log == [] && |s0.stages| == |s0.pool.phases|
    ensures HoldsPool(s, s0.pool, PoolRun(run))
  {
    if run != [] {
      var before, l := Exec(c, s0, Front(run)).value, Last(run);
      PoolWithin(c, s0, Front(run), before);
      if l.PoolStep? {
        PoolStepWithin(c, before, s0.pool, PoolRun(Front(run)), l);
      } else {
        OtherStepWithin(c, before, s0.pool, PoolRun(Front(run)), l);
      }
    }
  }

  // ---------------------------------------------------------------- the store inside

  /** The store call that an action makes, if it makes one. */
  function StoreCall(c: Config, s: State, l: Label): seq<Store.Op> {
    match l
    case Register(d) => [Store.CreateDevice(d)]
    case Manage(op) => [op]
    case JobStep(w) =>
      if w < |s.stages| && w < |s.pool.phases| && s.pool.phases[w].Running?
      then JobCall(s.stages[w], s.pool.phases[w].job) else []
    case ScanStep =>
      if s.reconciler.Scanning? && s.reconciler.todo != []
      then ScanCall(c.offlineAfter, s.reconciler.now, s.reconciler.todo[0]) else []
    case _ => []
  }

  /** Of a job: store the sample, mark its device online, store its alerts. */
  function JobCall(stage: Stage, t: Telemetry): seq<Store.Op> {
    match stage
    case Persist => [Store.AddTelemetry(t)]
    case MarkOnline => [Store.UpdateDeviceStatus(t.deviceId, Online, t.timestamp)]
    case StoreAlert(pending) => if pending == [] then [] else [Store.AddAlert(pending[0])]
    case _ => []
  }

  /** Of the reconciler: mark the device offline, keeping its last-seen time. */
  function ScanCall(offlineAfter: int, now: Time, d: Device): seq<Store.Op> {
    if d.lastSeenAt == ZERO_TIME || now <= d.lastSeenAt + offlineAfter || d.status == Offline then []
    else [Store.UpdateDeviceStatus(d.id, Offline, ZERO_TIME)]
  }

  ghost function StoreCalls(c: Config, s0: State, run: seq<Label>): seq<Store.Op>
    requires Exec(c, s0, run).Some?
  {
    if run == [] then []
    else StoreCalls(c, s0, Front(run)) + StoreCall(c, Exec(c, s0, Front(run)).value, Last(run))
  }

  function Called(maxHistory: int, s: Store.State, calls: seq<Store.Op>): Store.State {
    if calls == [] then s else Store.Exec(Called(maxHistory, s, Front(calls)), maxHistory, Last(calls))
  }

  lemma CalledOne(maxHistory: int, s: Store.State, op: Store.Op)
    ensures Called(maxHistory, s, [op]) == Store.Exec(s, maxHistory, op)
  {
    assert Front([op]) == [] && Last([op]) == op;
  }

  lemma JobStore(c: Config, s: State, w: nat, t: Telemetry)
    requires w < |s.stages| && !s.stages[w].Finished?
    ensures ApplyJob(c, s, w, t).store == Called(c.maxHistory, s.store, JobCall(s.stages[w], t))
  {
    forall op ensures Called(c.maxHistory, s.store, [op]) == Store.Exec(s.store, c.maxHistory, op) {
      CalledOne(c.maxHistory, s.store, op);
    }
  }

  lemma ScanStore(c: Config, s: State)
    requires s.reconciler.Scanning? && s.reconciler.todo != []
    ensures ApplyScan(c, s).store
         == Called(c.maxHistory, s.store, ScanCall(c.offlineAfter, s.reconciler.now, s.reconciler.todo[0]))
  {
    CalledOne(c.maxHistory, s.store, Store.UpdateDeviceStatus(s.reconciler.todo[0].id, Offline, ZERO_TIME));
  }

  lemma StoreStep(c: Config, s: State, l: Label)
    requires Enabled(s, l)
    ensures Apply(c, s, l).store == Called(c.maxHistory, s.store, StoreCall(c, s, l))
  {
    if l.JobStep? {
      JobStore(c, s, l.w, s.pool.phases[l.w].job);
    } else if l.ScanStep? && s.reconciler.Scanning? && s.reconciler.todo != [] {
      ScanStore(c, s);
    } else if l.Register? {
      CalledOne(c.maxHistory, s.store, Store.CreateDevice(l.device));
    } else if l.Manage? {
      CalledOne(c.maxHistory, s.store, l.op);
    }
  }

  lemma {:induction false} RunCalled(maxHistory: int, ops: seq<Store.Op>, calls: seq<Store.Op>)
    ensures Store.Run(maxHistory, ops + calls) == Called(maxHistory, Store.Run(maxHistory, ops), calls)
  {
    if calls == [] {
      assert ops + calls == ops;
    } else {
      assert Front(ops + calls) == ops + Front(calls) && Last(ops + calls) == Last(calls);
      RunCalled(maxHistory, ops, Front(calls));
    }
  }

  /** The store within the pipeline is what these calls, in the order in which they interleave, make of an empty one; so
      all that is proved of records, samples and alerts over sequences of calls holds in every run of the pipeline. */
  lemma {:induction false} StoreWithin(c: Config, workers: int, queueSize: int, run: seq<Label>, s: State)
    requires Exec(c, Init(workers, queueSize), run) == Some(s)
    ensures s.store == Store.Run(c.maxHistory, StoreCalls(c, Init(workers, queueSize), run))
  {
    if run != [] {
      var before := Exec(c, Init(workers, queueSize), Front(run)).value;
      StoreWithin(c, workers, queueSize, Front(run), before);
      StoreStep(c, before, Last(run));
      RunCalled(c.maxHistory, StoreCalls(c, Init(workers, queueSize), Front(run)), StoreCall(c, before, Last(run)));
    }
  }
}
