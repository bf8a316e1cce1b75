/** What the pipeline conserves: under every interleaving, accepted samples and the alerts they breach all arrive. */
module Ingestion {
  import opened Models
  import opened Sequences
  import opened Pipeline
  import Store
  import Alerts
  import Analytics
  import Pool

  type Phase = Pool.Phase<Telemetry>

  /** Something the store must end up with: copies of a sample, or of an alert. */
  datatype Goal = OfSample(sample: Telemetry) | OfAlert(alert: Alert)
  {
    function Device(): string {
      if OfSample? then sample.deviceId else alert.deviceId
    }
  }

  /** How many copies processing one sample owes to the goal. */
  function Worth(c: Config, g: Goal, t: Telemetry): nat {
    match g
    case OfSample(x) => if t == x then 1 else 0
    case OfAlert(a) => multiset(Alerts.Breaches(c.rules, t))[a]
  }

  function Promised(c: Config, g: Goal, samples: seq<Telemetry>): nat {
    if samples == [] then 0 else Promised(c, g, Front(samples)) + Worth(c, g, Last(samples))
  }

  /** How many of them a worker in this phase and stage still has to deliver. */
  function Due(c: Config, g: Goal, p: Phase, stage: Stage): nat {
    if !p.Running? then 0 else
      match stage
      case Persist => Worth(c, g, p.job)
      case Finished => 0
      case StoreAlert(pending) => if g.OfAlert? then multiset(pending)[g.alert] else 0
      case PublishAlert(pending) => if g.OfAlert? && pending != [] then multiset(pending[1..])[g.alert] else 0
      case _ => if g.OfAlert? then Worth(c, g, p.job) else 0
  }

  function Held(c: Config, g: Goal, phases: seq<Phase>, stages: seq<Stage>): nat
    requires |phases| == |stages|
  {
    if phases == [] then 0 else Held(c, g, Front(phases), Front(stages)) + Due(c, g, Last(phases), Last(stages))
  }

  /** The samples of a device in the order they reached the store. */
  function Arrivals(log: seq<Entry>, id: string): seq<Telemetry> {
    if log == [] then []
    else if Last(log).Persisted? && Last(log).sample.deviceId == id then Arrivals(Front(log), id) + [Last(log).sample]
    else Arrivals(Front(log), id)
  }

  function ForDevice(samples: seq<Telemetry>, id: string): seq<Telemetry> {
    if samples == [] then []
    else if Last(samples).deviceId == id then ForDevice(Front(samples), id) + [Last(samples)]
    else ForDevice(Front(samples), id)
  }

  function Delivered(g: Goal, s: State): nat {
    match g
    case OfSample(x) => multiset(Arrivals(s.log, x.deviceId))[x]
    case OfAlert(a) => multiset(s.store.Raised(a.deviceId))[a]
  }

  // ---------------------------------------------------------------- sums

  lemma PromisedAppend(c: Config, g: Goal, samples: seq<Telemetry>, t: Telemetry)
    ensures Promised(c, g, samples + [t]) == Promised(c, g, samples) + Worth(c, g, t)
  {
    assert Front(samples + [t]) == samples;
  }

  lemma {:induction false} PromisedHead(c: Config, g: Goal, samples: seq<Telemetry>)
    requires samples != []
    ensures Promised(c, g, samples) == Worth(c, g, samples[0]) + Promised(c, g, samples[1..])
  {
    if |samples| > 1 {
      PromisedHead(c, g, Front(samples));
      assert Front(samples)[1..] == Front(samples[1..]);
    } else {
      assert Front(samples) == [] == samples[1..];
    }
  }

  lemma {:induction false} HeldUpdate(c: Config, g: Goal, phases: seq<Phase>, stages: seq<Stage>, w: nat, p: Phase,
                                      st: Stage)
    requires |phases| == |stages| && w < |phases|
    ensures Held(c, g, phases[w := p], stages[w := st]) + Due(c, g, phases[w], stages[w])
         == Held(c, g, phases, stages) + Due(c, g, p, st)
  {
    var ps, ss := phases[w := p], stages[w := st];
    if w == |phases| - 1 {
      assert Front(ps) == Front(phases) && Front(ss) == Front(stages);
    } else {
      assert Front(ps) == Front(phases)[w := p] && Front(ss) == Front(stages)[w := st];
      HeldUpdate(c, g, Front(phases), Front(stages), w, p, st);
    }
  }

  lemma ArrivalsAppend(log: seq<Entry>, e: Entry, id: string)
    ensures Arrivals(log + [e], id)
         == if e.Persisted? && e.sample.deviceId == id then Arrivals(log, id) + [e.sample] else Arrivals(log, id)
  {
    assert Front(log + [e]) == log;
  }

  lemma {:induction false} WorthlessElsewhere(c: Config, g: Goal, t: Telemetry)
    requires t.deviceId != g.Device()
    ensures Worth(c, g, t) == 0
  {
    if g.OfAlert? {
      Alerts.BreachesDevice(c.rules, t);
      assert g.alert !in Alerts.Breaches(c.rules, t);
    }
  }

  // ---------------------------------------------------------------- the books

  /** Promised by acceptance = still queued + still in a worker + delivered. */
  ghost predicate Balanced(c: Config, g: Goal, s: State) {
    && |s.stages| == |s.pool.phases|
    && Promised(c, g, AcceptedIn(s.log))
       == Promised(c, g, s.pool.queue) + Held(c, g, s.pool.phases, s.stages) + Delivered(g, s)
  }

  /** What a submission changes: on success the sample is in the log and at the end of the queue. */
  lemma SubmitEffect(c: Config, s: State, l: Label, id: string)
    requires Enabled(s, l) && l.PoolStep? && (l.l.Submit? || l.l.TrySubmit?)
    ensures var s' := Apply(c, s, l);
            && s'.stages == s.stages && s'.store == s.store && s'.pool.phases == s.pool.phases
            && AcceptedIn(s'.log) == (if l.l.ok then AcceptedIn(s.log) + [l.l.job] else AcceptedIn(s.log))
            && s'.pool.queue == (if l.l.ok then s.pool.queue + [l.l.job] else s.pool.queue)
            && Arrivals(s'.log, id) == Arrivals(s.log, id)
  {
    if l.l.ok {
      AcceptedAppend(s.log, Accepted(l.l.job));
      ArrivalsAppend(s.log, Accepted(l.l.job), id);
    }
  }

  lemma TakeBalanced(c: Config, g: Goal, s: State, l: Label)
    requires Balanced(c, g, s) && Enabled(s, l) && l.PoolStep? && l.l.Take?
    ensures Balanced(c, g, Apply(c, s, l))
  {
    HeldUpdate(c, g, s.pool.phases, s.stages, l.l.w, Pool.Running(l.l.job), Persist);
    PromisedHead(c, g, s.pool.queue);
  }

  /** A worker between jobs owes nothing. */
  lemma NewPhaseBalanced(c: Config, g: Goal, s: State, s': State, w: nat, p: Phase)
    requires Balanced(c, g, s) && w < |s.stages| && !p.Running? && Due(c, g, s.pool.phases[w], s.stages[w]) == 0
    requires s'.pool.phases == s.pool.phases[w := p] && s'.pool.queue == s.pool.queue
    requires s'.stages == s.stages && s'.log == s.log && s'.store == s.store
    ensures Balanced(c, g, s')
  {
    HeldUpdate(c, g, s.pool.phases, s.stages, w, p, s.stages[w]);
    assert s.stages[w := s.stages[w]] == s.stages;
  }

  lemma LeaveBalanced(c: Config, g: Goal, s: State, l: Label)
    requires Balanced(c, g, s) && Enabled(s, l) && l.PoolStep? && (l.l.Finish? || l.l.Count? || l.l.Exit?)
    ensures Balanced(c, g, Apply(c, s, l))
  {
    var s' := Apply(c, s, l);
    NewPhaseBalanced(c, g, s, s', l.l.w, s'.pool.phases[l.l.w]);
  }

  lemma LaunchBalanced(c: Config, g: Goal, s: State)
    requires Balanced(c, g, s) && Enabled(s, PoolStep(Pool.Launch))
    ensures Balanced(c, g, Apply(c, s, PoolStep(Pool.Launch)))
  {
    var s' := Apply(c, s, PoolStep(Pool.Launch));
    assert Front(s'.pool.phases) == s.pool.phases && Front(s'.stages) == s.stages;
    assert Last(s'.pool.phases) == Pool.Idle;
  }

  lemma ControlBalanced(c: Config, g: Goal, s: State, l: Label)
    requires Balanced(c, g, s) && Enabled(s, l) && l.PoolStep? && (l.l.StartCall? || l.l.Cancel? || l.l.StopReturn?)
    ensures Balanced(c, g, Apply(c, s, l))
  {
    var s' := Apply(c, s, l);
    assert s'.pool.phases == s.pool.phases && s'.pool.queue == s.pool.queue;
    assert s'.stages == s.stages && s'.log == s.log && s'.store == s.store;
  }

  lemma PoolBalanced(c: Config, g: Goal, s: State, l: Label)
    requires Balanced(c, g, s) && Enabled(s, l) && l.PoolStep?
    ensures Balanced(c, g, Apply(c, s, l))
  {
    if l.l.Submit? || l.l.TrySubmit? {
      SubmitEffect(c, s, l, g.Device());
      PromisedAppend(c, g, AcceptedIn(s.log), l.l.job);
      PromisedAppend(c, g, s.pool.queue, l.l.job);
    } else if l.l.Take? {
      TakeBalanced(c, g, s, l);
    } else if l.l.Finish? || l.l.Count? || l.l.Exit? {
      LeaveBalanced(c, g, s, l);
    } else if l.l.Launch? {
      LaunchBalanced(c, g, s);
    } else {
      ControlBalanced(c, g, s, l);
    }
  }

  lemma ArrivalCount(log: seq<Entry>, w: nat, t: Telemetry, x: Telemetry)
    ensures multiset(Arrivals(log + [Persisted(w, t)], x.deviceId))[x]
         == multiset(Arrivals(log, x.deviceId))[x] + if t == x then 1 else 0
  {
    ArrivalsAppend(log, Persisted(w, t), x.deviceId);
  }

  lemma PersistDeliversSample(c: Config, x: Telemetry, s: State, w: nat, t: Telemetry)
    requires w < |s.stages| && s.stages[w].Persist? && x.deviceId in s.store.devices
    ensures var s' := ApplyJob(c, s, w, t);
            (if t == x then 1 else 0) + Delivered(OfSample(x), s) == Delivered(OfSample(x), s')
  {
    if t.deviceId in s.store.devices {
      ArrivalCount(s.log, w, t, x);
    }
  }

  lemma PersistKeepsAlerts(c: Config, s: State, w: nat, t: Telemetry)
    requires w < |s.stages| && s.stages[w].Persist?
    ensures var s' := ApplyJob(c, s, w, t);
            s'.store.alerts == s.store.alerts && (s'.stages[w].Finished? || s'.stages[w].MarkOnline?)
            && (s'.stages[w].Finished? <==> t.deviceId !in s.store.devices)
  {
  }

  lemma PersistDelivers(c: Config, g: Goal, s: State, w: nat, t: Telemetry)
    requires w < |s.stages| && s.stages[w].Persist? && g.Device() in s.store.devices
    ensures var s' := ApplyJob(c, s, w, t);
            Worth(c, g, t) + Delivered(g, s) == Due(c, g, Pool.Running(t), s'.stages[w]) + Delivered(g, s')
  {
    PersistKeepsAlerts(c, s, w, t);
    if g.OfSample? {
      PersistDeliversSample(c, g.sample, s, w, t);
    } else if t.deviceId !in s.store.devices {
      WorthlessElsewhere(c, g, t);
    }
  }

  lemma RaisedCount(s: Store.State, maxHistory: int, a: Alert, x: Alert)
    ensures multiset(Store.Exec(s, maxHistory, Store.AddAlert(a)).Raised(x.deviceId))[x]
         == multiset(s.Raised(x.deviceId))[x] + if a == x then 1 else 0
  {
  }

  lemma HeadCount<T>(s: seq<T>, x: T)
    requires s != []
    ensures multiset(s)[x] == multiset(s[1..])[x] + if s[0] == x then 1 else 0
  {
    assert s == [s[0]] + s[1..];
  }

  lemma AlertKeepsSamples(c: Config, s: State, w: nat, t: Telemetry)
    requires w < |s.stages| && s.stages[w].StoreAlert?
    ensures var s', pending := ApplyJob(c, s, w, t), s.stages[w].pending;
            && s'.log == s.log
            && s'.stages[w] == (if pending == [] then Finished else PublishAlert(pending))
            && s'.store == if pending == [] then s.store
                else Store.Exec(s.store, c.maxHistory, Store.AddAlert(pending[0]))
  {
  }

  lemma AlertDelivers(c: Config, g: Goal, s: State, w: nat, t: Telemetry)
    requires w < |s.stages| && s.stages[w].StoreAlert?
    ensures var s' := ApplyJob(c, s, w, t);
            Due(c, g, Pool.Running(t), s.stages[w]) + Delivered(g, s)
                == Due(c, g, Pool.Running(t), s'.stages[w]) + Delivered(g, s')
  {
    AlertKeepsSamples(c, s, w, t);
    var pending := s.stages[w].pending;
    if g.OfAlert? && pending != [] {
      RaisedCount(s.store, c.maxHistory, pending[0], g.alert);
      HeadCount(pending, g.alert);
    }
  }

  lemma OthersOwe(c: Config, g: Goal, s: State, w: nat, t: Telemetry)
    requires w < |s.stages| && !s.stages[w].StoreAlert? && !s.stages[w].Persist? && !s.stages[w].Finished?
    ensures Due(c, g, Pool.Running(t), s.stages[w]) == Due(c, g, Pool.Running(t), ApplyJob(c, s, w, t).stages[w])
  {
  }

  lemma OthersDeliverNothing(c: Config, g: Goal, s: State, w: nat)
    requires Enabled(s, JobStep(w)) && !s.stages[w].StoreAlert? && !s.stages[w].Persist?
    ensures Delivered(g, s) == Delivered(g, Apply(c, s, JobStep(w)))
  {
    var s', e := JobCases(c, s, w);
    if s'.log != s.log {
      ArrivalsAppend(s.log, Last(s'.log), g.Device());
    }
  }

  /** What a job step takes off the worker's debt it adds to what is delivered. */
  lemma JobDelivers(c: Config, g: Goal, s: State, w: nat)
    requires Enabled(s, JobStep(w)) && g.Device() in s.store.devices
    ensures var s' := Apply(c, s, JobStep(w));
            Due(c, g, s.pool.phases[w], s.stages[w]) + Delivered(g, s)
                == Due(c, g, s.pool.phases[w], s'.stages[w]) + Delivered(g, s')
  {
    var t := s.pool.phases[w].job;
    if s.stages[w].Persist? {
      PersistDelivers(c, g, s, w, t);
    } else if s.stages[w].StoreAlert? {
      AlertDelivers(c, g, s, w, t);
    } else {
      OthersOwe(c, g, s, w, t);
      OthersDeliverNothing(c, g, s, w);
    }
  }

  lemma JobBalanced(c: Config, g: Goal, s: State, w: nat)
    requires Balanced(c, g, s) && Enabled(s, JobStep(w)) && g.Device() in s.store.devices
    ensures Balanced(c, g, Apply(c, s, JobStep(w)))
  {
    var s' := Apply(c, s, JobStep(w));
    JobKeepsPool(c, s, w);
    JobDelivers(c, g, s, w);
    HeldUpdate(c, g, s.pool.phases, s.stages, w, s.pool.phases[w], s'.stages[w]);
    assert s.pool.phases[w := s.pool.phases[w]] == s.pool.phases;
  }

  /** The store still has the device, and every sample that reached it, up to the cap. */
  ghost predicate Retained(c: Config, s: State, id: string) {
    id in s.store.devices && s.store.Series(id) == Keep(Arrivals(s.log, id), c.maxHistory)
  }

  lemma PersistRetained(c: Config, s: State, s': State, w: nat, t: Telemetry, id: string)
    requires Retained(c, s, id) && Persists(c, s, s', w, t)
    ensures Retained(c, s', id)
  {
    ArrivalsAppend(s.log, Persisted(w, t), id);
    if t.deviceId == id {
      Store.KeepAppend(Arrivals(s.log, id), c.maxHistory, t);
    }
  }

  lemma JobRetained(c: Config, s: State, w: nat, id: string)
    requires Enabled(s, JobStep(w)) && Retained(c, s, id)
    ensures Retained(c, Apply(c, s, JobStep(w)), id)
  {
    var s', e := JobCases(c, s, w);
    if e.Stored? {
      PersistRetained(c, s, s', w, s.pool.phases[w].job, id);
    } else if s'.log != s.log {
      ArrivalsAppend(s.log, Last(s'.log), id);
    }
  }

  /** Steps that touch neither telemetry nor alerts of the device, nor anything the books read. */
  ghost predicate LeavesAlone(s: State, s': State, id: string) {
    && s'.pool == s.pool && s'.stages == s.stages
    && AcceptedIn(s'.log) == AcceptedIn(s.log) && Arrivals(s'.log, id) == Arrivals(s.log, id)
    && (id in s.store.devices ==> id in s'.store.devices)
    && s'.store.Series(id) == s.store.Series(id) && s'.store.Raised(id) == s.store.Raised(id)
  }

  lemma ScanKeepsData(c: Config, s: State)
    requires Enabled(s, ScanStep)
    ensures var s' := Apply(c, s, ScanStep);
            s'.store.telemetry == s.store.telemetry && s'.store.alerts == s.store.alerts
            && s'.store.devices.Keys == s.store.devices.Keys
  {
    ScanCases(c, s);
  }

  lemma ScanKeepsArrivals(c: Config, s: State, id: string)
    requires Enabled(s, ScanStep)
    ensures Arrivals(Apply(c, s, ScanStep).log, id) == Arrivals(s.log, id)
  {
    ScanCases(c, s);
    var s' := Apply(c, s, ScanStep);
    if s'.log != s.log {
      ArrivalsAppend(s.log, Last(s'.log), id);
    }
  }

  lemma ScanLeavesAlone(c: Config, s: State, id: string)
    requires Enabled(s, ScanStep)
    ensures LeavesAlone(s, Apply(c, s, ScanStep), id)
  {
    ScanKeepsPool(c, s);
    ScanKeepsData(c, s);
    ScanKeepsArrivals(c, s, id);
  }

  lemma PoolRetained(c: Config, s: State, l: Label, id: string)
    requires Enabled(s, l) && l.PoolStep? && Retained(c, s, id)
    ensures Retained(c, Apply(c, s, l), id)
  {
    if (l.l.Submit? || l.l.TrySubmit?) && l.l.ok {
      ArrivalsAppend(s.log, Accepted(l.l.job), id);
    }
  }

  lemma StepKeeps(c: Config, g: Goal, s: State, l: Label)
    requires Balanced(c, g, s) && Retained(c, s, g.Device()) && Enabled(s, l)
    requires l != Manage(Store.DeleteDevice(g.Device()))
    ensures Balanced(c, g, Apply(c, s, l)) && Retained(c, Apply(c, s, l), g.Device())
  {
    if l.PoolStep? {
      PoolBalanced(c, g, s, l);
      PoolRetained(c, s, l, g.Device());
    } else if l.JobStep? {
      JobBalanced(c, g, s, l.w);
      JobRetained(c, s, l.w, g.Device());
    } else {
      if l.ScanStep? {
        ScanLeavesAlone(c, s, g.Device());
      } else {
      }
    }
  }

  // ---------------------------------------------------------------- whose alerts a worker holds

  predicate OwnStage(t: Telemetry, stage: Stage) {
    stage.StoreAlert? || stage.PublishAlert? ==> forall a :: a in stage.pending ==> a.deviceId == t.deviceId
  }

  /** A worker only ever holds alerts of the device it is processing. */
  ghost predicate OwnAlerts(s: State) {
    && |s.stages| == |s.pool.phases|
    && forall w :: 0 <= w < |s.stages| && s.pool.phases[w].Running? ==> OwnStage(s.pool.phases[w].job, s.stages[w])
  }

  lemma JobOwnStage(c: Config, s: State, w: nat, t: Telemetry)
    requires w < |s.stages| && !s.stages[w].Finished? && OwnStage(t, s.stages[w])
    ensures OwnStage(t, ApplyJob(c, s, w, t).stages[w])
  {
    Alerts.BreachesDevice(c.rules, t);
  }

  lemma OwnAlertsStep(c: Config, s: State, l: Label)
    requires OwnAlerts(s) && Enabled(s, l)
    ensures OwnAlerts(Apply(c, s, l))
  {
    if l.JobStep? {
      JobOwnStage(c, s, l.w, s.pool.phases[l.w].job);
      JobKeepsPool(c, s, l.w);
    } else if l.ScanStep? {
      ScanKeepsPool(c, s);
    }
  }

  lemma {:induction false} AlwaysOwnAlerts(c: Config, s0: State, run: seq<Label>, s: State)
    requires OwnAlerts(s0) && Exec(c, s0, run) == Some(s)
    ensures OwnAlerts(s)
  {
    if run != [] {
      var before := Exec(c, s0, Front(run)).value;
      AlwaysOwnAlerts(c, s0, Front(run), before);
      OwnAlertsStep(c, before, Last(run));
    }
  }

  // ---------------------------------------------------------------- whole runs

  /** None of the device's samples is waiting or being processed. */
  ghost predicate Settled(s: State, id: string) {
    && (forall i :: 0 <= i < |s.pool.queue| ==> s.pool.queue[i].deviceId != id)
    && (forall w :: 0 <= w < |s.pool.phases| && s.pool.phases[w].Running? ==> s.pool.phases[w].job.deviceId != id)
  }

  /** A device of which nothing has been accepted or stored so far. */
  ghost predicate Unheard(s: State, id: string) {
    && OwnAlerts(s) && Settled(s, id)
    && ForDevice(AcceptedIn(s.log), id) == [] && Arrivals(s.log, id) == []
    && s.store.Series(id) == [] && s.store.Raised(id) == []
  }

  /** And registered: where observing it can begin. */
  ghost predicate Untouched(s: State, id: string) {
    Unheard(s, id) && id in s.store.devices
  }

  ghost predicate NeverDeleted(run: seq<Label>, id: string) {
    forall i :: 0 <= i < |run| ==> run[i] != Manage(Store.DeleteDevice(id))
  }

  lemma {:induction false} NothingPromised(c: Config, g: Goal, samples: seq<Telemetry>)
    requires forall i :: 0 <= i < |samples| ==> samples[i].deviceId != g.Device()
    ensures Promised(c, g, samples) == 0
  {
    if samples != [] {
      NothingPromised(c, g, Front(samples));
      WorthlessElsewhere(c, g, Last(samples));
    }
  }

  lemma {:induction false} NothingAccepted(c: Config, g: Goal, samples: seq<Telemetry>)
    requires ForDevice(samples, g.Device()) == []
    ensures Promised(c, g, samples) == 0
  {
    if samples != [] {
      NothingAccepted(c, g, Front(samples));
      WorthlessElsewhere(c, g, Last(samples));
    }
  }

  lemma NothingDue(c: Config, g: Goal, p: Phase, stage: Stage)
    requires p.Running? ==> p.job.deviceId != g.Device() && OwnStage(p.job, stage)
    ensures Due(c, g, p, stage) == 0
  {
    if p.Running? {
      WorthlessElsewhere(c, g, p.job);
      if stage.StoreAlert? || stage.PublishAlert? {
        assert g.OfAlert? ==> g.alert !in stage.pending;
      }
    }
  }

  lemma {:induction false} NothingHeld(c: Config, g: Goal, phases: seq<Phase>, stages: seq<Stage>)
    requires |phases| == |stages|
    requires forall w :: 0 <= w < |phases| && phases[w].Running? ==>
               phases[w].job.deviceId != g.Device() && OwnStage(phases[w].job, stages[w])
    ensures Held(c, g, phases, stages) == 0
  {
    if phases != [] {
      NothingHeld(c, g, Front(phases), Front(stages));
      NothingDue(c, g, Last(phases), Last(stages));
    }
  }

  lemma SettledBooks(c: Config, g: Goal, s: State)
    requires Settled(s, g.Device()) && OwnAlerts(s)
    ensures Promised(c, g, s.pool.queue) == 0 && Held(c, g, s.pool.phases, s.stages) == 0
  {
    NothingPromised(c, g, s.pool.queue);
    NothingHeld(c, g, s.pool.phases, s.stages);
  }

  lemma {:induction false} AlwaysBalanced(c: Config, g: Goal, s0: State, run: seq<Label>, s: State)
    requires Untouched(s0, g.Device()) && Exec(c, s0, run) == Some(s) && NeverDeleted(run, g.Device())
    ensures Balanced(c, g, s) && Retained(c, s, g.Device())
  {
    if run == [] {
      SettledBooks(c, g, s0);
      NothingAccepted(c, g, AcceptedIn(s0.log));
    } else {
      var before := Exec(c, s0, Front(run)).value;
      AlwaysBalanced(c, g, s0, Front(run), before);
      StepKeeps(c, g, before, Last(run));
    }
  }

  /** Once a device's accepted samples have all been processed, each goal has been met exactly. */
  lemma AllDelivered(c: Config, g: Goal, s0: State, run: seq<Label>, s: State)
    requires Untouched(s0, g.Device()) && Exec(c, s0, run) == Some(s) && NeverDeleted(run, g.Device())
    requires Settled(s, g.Device())
    ensures Delivered(g, s) == Promised(c, g, AcceptedIn(s.log))
  {
    AlwaysBalanced(c, g, s0, run, s);
    AlwaysOwnAlerts(c, s0, run, s);
    SettledBooks(c, g, s);
  }

  lemma {:induction false} CountForDevice(c: Config, samples: seq<Telemetry>, x: Telemetry)
    ensures multiset(ForDevice(samples, x.deviceId))[x] == Promised(c, OfSample(x), samples)
  {
    if samples != [] {
      CountForDevice(c, Front(samples), x);
    }
  }

  lemma {:induction false} ArrivalsOwn(log: seq<Entry>, id: string)
    ensures forall t :: t in Arrivals(log, id) ==> t.deviceId == id
  {
    if log != [] {
      ArrivalsOwn(Front(log), id);
    }
  }

  lemma {:induction false} ForDeviceOwn(samples: seq<Telemetry>, id: string)
    ensures forall t :: t in ForDevice(samples, id) ==> t.deviceId == id
  {
    if samples != [] {
      ForDeviceOwn(Front(samples), id);
    }
  }

  // ---------------------------------------------------------------- from the start of the program

  predicate Admits(l: Label, id: string) {
    l.PoolStep? && (l.l.Submit? || l.l.TrySubmit?) && l.l.ok && l.l.job.deviceId == id
  }

  lemma UnheardSubmit(c: Config, s: State, l: Label, id: string)
    requires Unheard(s, id) && Enabled(s, l) && !Admits(l, id) && l.PoolStep? && (l.l.Submit? || l.l.TrySubmit?)
    ensures Unheard(Apply(c, s, l), id)
  {
    var s' := Apply(c, s, l);
    SubmitEffect(c, s, l, id);
    OthersSample(AcceptedIn(s.log), l.l.job, id);
    OwnAlertsStep(c, s, l);
  }

  lemma OthersSample(samples: seq<Telemetry>, t: Telemetry, id: string)
    ensures t.deviceId != id ==> ForDevice(samples + [t], id) == ForDevice(samples, id)
  {
    assert Front(samples + [t]) == samples;
  }

  lemma JobArrivals(c: Config, s: State, w: nat, id: string)
    requires Enabled(s, JobStep(w)) && s.pool.phases[w].job.deviceId != id
    ensures Arrivals(Apply(c, s, JobStep(w)).log, id) == Arrivals(s.log, id)
  {
    var s', e := JobCases(c, s, w);
    if s'.log != s.log {
      ArrivalsAppend(s.log, Last(s'.log), id);
    }
  }

  lemma JobElsewhere(c: Config, s: State, w: nat, id: string)
    requires Enabled(s, JobStep(w)) && s.pool.phases[w].job.deviceId != id && OwnAlerts(s)
    ensures var s' := Apply(c, s, JobStep(w));
            s'.store.Series(id) == s.store.Series(id) && s'.store.Raised(id) == s.store.Raised(id)
  {
    var s', e := JobCases(c, s, w);
    assert OwnStage(s.pool.phases[w].job, s.stages[w]);
  }

  lemma UnheardStep(c: Config, s: State, l: Label, id: string)
    requires Unheard(s, id) && Enabled(s, l) && !Admits(l, id)
    ensures Unheard(Apply(c, s, l), id)
  {
    if l.PoolStep? {
      if l.l.Submit? || l.l.TrySubmit? {
        UnheardSubmit(c, s, l, id);
      } else {
        OwnAlertsStep(c, s, l);
      }
    } else if l.JobStep? {
      assert s.pool.phases[l.w].job.deviceId != id;
      OwnAlertsStep(c, s, l);
      JobKeepsPool(c, s, l.w);
      JobArrivals(c, s, l.w, id);
      JobElsewhere(c, s, l.w, id);
    } else if l.ScanStep? {
      ScanLeavesAlone(c, s, id);
    } else if l != Manage(Store.DeleteDevice(id)) {
    }
  }

  lemma {:induction false} StaysUnheard(c: Config, s0: State, run: seq<Label>, s: State, id: string)
    requires Unheard(s0, id) && Exec(c, s0, run) == Some(s)
    requires forall i :: 0 <= i < |run| ==> !Admits(run[i], id)
    ensures Unheard(s, id)
  {
    if run != [] {
      var before := Exec(c, s0, Front(run)).value;
      StaysUnheard(c, s0, Front(run), before, id);
      UnheardStep(c, before, Last(run), id);
    }
  }

  /** The program has run through `a`, in which nobody sent samples under the id yet to be drawn, registered the
      device, and gone on through `b`, in which nobody deleted it. */
  ghost predicate Life(c: Config, workers: int, queueSize: int, a: seq<Label>, d: Device, b: seq<Label>, s: State) {
    && Exec(c, Init(workers, queueSize), a + ([Register(d)] + b)) == Some(s)
    && (forall i :: 0 <= i < |a| ==> !Admits(a[i], d.id))
    && NeverDeleted(b, d.id)
  }

  lemma Registration(c: Config, workers: int, queueSize: int, a: seq<Label>, d: Device, b: seq<Label>, s: State)
    returns (s0: State)
    requires Life(c, workers, queueSize, a, d, b, s)
    ensures Untouched(s0, d.id) && Exec(c, s0, b) == Some(s)
  {
    var before := ExecSplit(c, Init(workers, queueSize), a, [Register(d)] + b, s);
    s0 := ExecSplit(c, before, [Register(d)], b, s);
    StaysUnheard(c, Init(workers, queueSize), a, before, d.id);
    assert Front([Register(d)]) == [] && Exec(c, before, Front([Register(d)])) == Some(before);
    UnheardStep(c, before, Register(d), d.id);
  }

  /** Scheduling independence. However the workers interleave, a settled device has received a permutation of its
      accepted samples; its stored series is the end of it, so within the cap it is a permutation of all of them. */
  lemma SamplesConserved(c: Config, workers: int, queueSize: int, a: seq<Label>, d: Device, b: seq<Label>, s: State)
    requires Life(c, workers, queueSize, a, d, b, s) && Settled(s, d.id)
    ensures multiset(Arrivals(s.log, d.id)) == multiset(ForDevice(AcceptedIn(s.log), d.id))
    ensures s.store.Series(d.id) == Keep(Arrivals(s.log, d.id), c.maxHistory)
    ensures c.maxHistory <= 0 || |ForDevice(AcceptedIn(s.log), d.id)| <= c.maxHistory ==>
              multiset(s.store.Series(d.id)) == multiset(ForDevice(AcceptedIn(s.log), d.id))
  {
    var s0 := Registration(c, workers, queueSize, a, d, b, s);
    var arrived, accepted := Arrivals(s.log, d.id), ForDevice(AcceptedIn(s.log), d.id);
    forall x ensures multiset(arrived)[x] == multiset(accepted)[x] {
      SampleCount(c, s0, b, s, d.id, x);
    }
    assert multiset(arrived) == multiset(accepted);
    assert |multiset(arrived)| == |arrived| && |multiset(accepted)| == |accepted|;
    AlwaysBalanced(c, OfSample(Telemetry(d.id, 1, map[])), s0, b, s);
  }

  lemma SampleCount(c: Config, s0: State, run: seq<Label>, s: State, id: string, x: Telemetry)
    requires Untouched(s0, id) && Exec(c, s0, run) == Some(s) && NeverDeleted(run, id) && Settled(s, id)
    ensures multiset(Arrivals(s.log, id))[x] == multiset(ForDevice(AcceptedIn(s.log), id))[x]
  {
    if x.deviceId == id {
      AllDelivered(c, OfSample(x), s0, run, s);
      CountForDevice(c, AcceptedIn(s.log), x);
    } else {
      ArrivalsOwn(s.log, id);
      ForDeviceOwn(AcceptedIn(s.log), id);
      assert x !in Arrivals(s.log, id) && x !in ForDevice(AcceptedIn(s.log), id);
    }
  }

  /** The alerts called for by the samples of a device: for each sample, one per rule it breaches. */
  function CalledFor(rules: seq<AlertRule>, samples: seq<Telemetry>): multiset<Alert> {
    if samples == [] then multiset{}
    else CalledFor(rules, Front(samples)) + multiset(Alerts.Breaches(rules, Last(samples)))
  }

  lemma {:induction false} CountCalledFor(c: Config, samples: seq<Telemetry>, id: string, a: Alert)
    ensures CalledFor(c.rules, ForDevice(samples, id))[a] == if a.deviceId == id then Promised(c, OfAlert(a), samples)
            else 0
  {
    if samples != [] {
      CountCalledFor(c, Front(samples), id, a);
      var t := Last(samples);
      if t.deviceId == id {
        assert Front(ForDevice(samples, id)) == ForDevice(Front(samples), id);
      }
      if t.deviceId != a.deviceId {
        WorthlessElsewhere(c, OfAlert(a), t);
      }
    }
  }

  ghost predicate FiledUnder(s: State, id: string) {
    forall a :: a in s.store.Raised(id) ==> a.deviceId == id
  }

  lemma FiledStep(c: Config, s: State, l: Label, id: string)
    requires FiledUnder(s, id) && Enabled(s, l)
    ensures FiledUnder(Apply(c, s, l), id)
  {
    if l.ScanStep? {
      ScanKeepsData(c, s);
    }
  }

  lemma {:induction false} AlwaysFiled(c: Config, s0: State, run: seq<Label>, s: State, id: string)
    requires FiledUnder(s0, id) && Exec(c, s0, run) == Some(s)
    ensures FiledUnder(s, id)
  {
    if run != [] {
      var before := Exec(c, s0, Front(run)).value;
      AlwaysFiled(c, s0, Front(run), before, id);
      FiledStep(c, before, Last(run), id);
    }
  }

  lemma AlertCount(c: Config, s0: State, run: seq<Label>, s: State, id: string, a: Alert)
    requires Untouched(s0, id) && Exec(c, s0, run) == Some(s) && NeverDeleted(run, id) && Settled(s, id)
    ensures multiset(s.store.Raised(id))[a] == CalledFor(c.rules, ForDevice(AcceptedIn(s.log), id))[a]
  {
    CountCalledFor(c, AcceptedIn(s.log), id, a);
    if a.deviceId == id {
      AllDelivered(c, OfAlert(a), s0, run, s);
    } else {
      AlwaysFiled(c, s0, run, s, id);
      assert a !in s.store.Raised(id);
    }
  }

  /** Alert conservation. A settled device has exactly the alerts its accepted samples call for, one per breached rule,
      even those whose samples the history cap has since discarded. */
  lemma AlertsConserved(c: Config, workers: int, queueSize: int, a: seq<Label>, d: Device, b: seq<Label>, s: State)
    requires Life(c, workers, queueSize, a, d, b, s) && Settled(s, d.id)
    ensures multiset(s.store.Raised(d.id)) == CalledFor(c.rules, ForDevice(AcceptedIn(s.log), d.id))
  {
    var s0 := Registration(c, workers, queueSize, a, d, b, s);
    forall x ensures multiset(s.store.Raised(d.id))[x] == CalledFor(c.rules, ForDevice(AcceptedIn(s.log), d.id))[x] {
      AlertCount(c, s0, b, s, d.id, x);
    }
  }

  // ---------------------------------------------------------------- against a serial run

  /** The same samples, given to a fresh store one after another. */
  function Serially(d: Device, samples: seq<Telemetry>): seq<Store.Op> {
    if samples == [] then [Store.CreateDevice(d)]
    else Serially(d, Front(samples)) + [Store.AddTelemetry(Last(samples))]
  }

  lemma {:induction false} SerialLog(d: Device, samples: seq<Telemetry>)
    requires forall t :: t in samples ==> t.deviceId == d.id
    ensures Store.Log(Serially(d, samples), d.id) == Some(samples)
  {
    if samples == [] {
      assert Front([Store.CreateDevice(d)]) == [];
    } else {
      SerialLog(d, Front(samples));
      assert Front(Serially(d, samples)) == Serially(d, Front(samples));
      assert Last(samples) in samples;
      FrontLast(samples);
    }
  }

  /** Aggregates do not depend on scheduling: within the cap, Aggregate over the concurrent run's series and over that
      of processing the accepted samples one after another in submission order give the same metrics and the same
      statistics but Last. */
  lemma AggregatesIndependent(c: Config, workers: int, queueSize: int, a: seq<Label>, d: Device, b: seq<Label>,
                              s: State,
                              concurrent: map<string, Analytics.MetricStats>, serial: map<string,
                                  Analytics.MetricStats>)
    requires Life(c, workers, queueSize, a, d, b, s) && Settled(s, d.id)
    requires c.maxHistory <= 0 || |ForDevice(AcceptedIn(s.log), d.id)| <= c.maxHistory
    requires Analytics.Summarizes(concurrent, s.store.Series(d.id))
    requires var ops := Serially(d, ForDevice(AcceptedIn(s.log), d.id));
             Analytics.Summarizes(serial, Store.Run(c.maxHistory, ops).Series(d.id))
    ensures Analytics.SameButLast(concurrent, serial)
  {
    var accepted := ForDevice(AcceptedIn(s.log), d.id);
    SamplesConserved(c, workers, queueSize, a, d, b, s);
    ForDeviceOwn(AcceptedIn(s.log), d.id);
    SerialLog(d, accepted);
    Store.Retention(c.maxHistory, Serially(d, accepted), d.id);
    assert Store.Run(c.maxHistory, Serially(d, accepted)).Series(d.id) == accepted;
    Analytics.OrderIrrelevant(s.store.Series(d.id), accepted, concurrent, serial);
  }
}
