/** Accepted samples do get processed: left alone, the workers of a running pipeline settle every device in a bounded
    number of steps. */
module Settling {
  import opened Models
  import opened Sequences
  import opened Pipeline
  import Alerts
  import Ingestion
  import Pool

  type Phase = Pool.Phase<Telemetry>

  /** An action of a worker: of the job it runs, or of its loop around jobs. */
  predicate IsWorkerStep(l: Label) {
    l.JobStep? || (l.PoolStep? && l.l.IsWorkerStep())
  }

  // ---------------------------------------------------------------- how much is left to do

  /** A bound on the actions left in a job, under so many rules. */
  function Ahead(rules: nat, stage: Stage): nat {
    match stage
    case Persist => 2 * rules + 7
    case MarkOnline => 2 * rules + 6
    case CacheOnline => 2 * rules + 5
    case PublishSample => 2 * rules + 4
    case Evaluate => 2 * rules + 3
    case StoreAlert(pending) => 2 * |pending| + 2
    case PublishAlert(pending) => 2 * |pending| + 1
    case Finished => 0
  }

  function Load(rules: nat, p: Phase, stage: Stage): nat {
    match p
    case Idle => 1
    case Running(_) => Ahead(rules, stage) + 3
    case Done(_) => 2
    case Exited => 0
  }

  function Work(rules: nat, phases: seq<Phase>, stages: seq<Stage>): nat
    requires |phases| == |stages|
  {
    if phases == [] then 0
    else Work(rules, Front(phases), Front(stages)) + Load(rules, Last(phases), Last(stages))
  }

  function Measure(rules: nat, s: State): nat
    requires |s.stages| == |s.pool.phases|
  {
    (2 * rules + 11) * |s.pool.queue| + Work(rules, s.pool.phases, s.stages)
    + 2 * (if |s.pool.phases| <= s.pool.workers then s.pool.workers - |s.pool.phases| else 0)
  }

  lemma {:induction false} WorkUpdate(rules: nat, phases: seq<Phase>, stages: seq<Stage>, w: nat, p: Phase,
                                      stage: Stage)
    requires |phases| == |stages| && w < |phases|
    ensures Work(rules, phases[w := p], stages[w := stage]) + Load(rules, phases[w], stages[w])
         == Work(rules, phases, stages) + Load(rules, p, stage)
  {
    var ps, ss := phases[w := p], stages[w := stage];
    if w == |phases| - 1 {
      assert Front(ps) == Front(phases) && Front(ss) == Front(stages);
    } else {
      assert Front(ps) == Front(phases)[w := p] && Front(ss) == Front(stages)[w := stage];
      WorkUpdate(rules, Front(phases), Front(stages), w, p, stage);
    }
  }

  lemma JobGetsShorter(c: Config, s: State, w: nat)
    requires Enabled(s, JobStep(w))
    ensures Ahead(|c.rules|, Apply(c, s, JobStep(w)).stages[w]) < Ahead(|c.rules|, s.stages[w])
  {
    Alerts.BreachesBound(c.rules, s.pool.phases[w].job);
  }

  lemma JobLowers(c: Config, s: State, w: nat)
    requires Enabled(s, JobStep(w)) && |s.stages| == |s.pool.phases|
    ensures var s' := Apply(c, s, JobStep(w));
            |s'.stages| == |s'.pool.phases| && Measure(|c.rules|, s') < Measure(|c.rules|, s)
  {
    var s', p := Apply(c, s, JobStep(w)), s.pool.phases[w];
    JobKeepsPool(c, s, w);
    JobGetsShorter(c, s, w);
    WorkUpdate(|c.rules|, s.pool.phases, s.stages, w, p, s'.stages[w]);
    assert s.pool.phases[w := p] == s.pool.phases;
  }

  lemma TakeLowers(c: Config, s: State, l: Label)
    requires Enabled(s, l) && l.PoolStep? && l.l.Take? && |s.stages| == |s.pool.phases|
    ensures var s' := Apply(c, s, l);
            |s'.stages| == |s'.pool.phases| && Measure(|c.rules|, s') < Measure(|c.rules|, s)
  {
    WorkUpdate(|c.rules|, s.pool.phases, s.stages, l.l.w, Pool.Running(l.l.job), Persist);
    assert (2 * |c.rules| + 11) * |s.pool.queue|
        == (2 * |c.rules| + 11) * |s.pool.queue[1..]| + (2 * |c.rules| + 11);
  }

  lemma LoopLowers(c: Config, s: State, l: Label)
    requires Enabled(s, l) && l.PoolStep? && (l.l.Finish? || l.l.Count? || l.l.Exit?) && |s.stages| == |s.pool.phases|
    ensures var s' := Apply(c, s, l);
            |s'.stages| == |s'.pool.phases| && Measure(|c.rules|, s') < Measure(|c.rules|, s)
  {
    var w, s' := l.l.w, Apply(c, s, l);
    WorkUpdate(|c.rules|, s.pool.phases, s.stages, w, s'.pool.phases[w], s.stages[w]);
    assert s.stages[w := s.stages[w]] == s.stages;
  }

  lemma LaunchLowers(c: Config, s: State)
    requires Enabled(s, PoolStep(Pool.Launch)) && |s.stages| == |s.pool.phases|
    ensures var s' := Apply(c, s, PoolStep(Pool.Launch));
            |s'.stages| == |s'.pool.phases| && Measure(|c.rules|, s') < Measure(|c.rules|, s)
  {
    var s' := Apply(c, s, PoolStep(Pool.Launch));
    assert Front(s'.pool.phases) == s.pool.phases && Front(s'.stages) == s.stages;
  }

  /** Every action of a worker lowers the measure. */
  lemma StepLowers(c: Config, s: State, l: Label)
    requires Enabled(s, l) && IsWorkerStep(l) && |s.stages| == |s.pool.phases|
    ensures var s' := Apply(c, s, l);
            |s'.stages| == |s'.pool.phases| && Measure(|c.rules|, s') < Measure(|c.rules|, s)
  {
    if l.JobStep? {
      JobLowers(c, s, l.w);
    } else if l.l.Take? {
      TakeLowers(c, s, l);
    } else if l.l.Launch? {
      LaunchLowers(c, s);
    } else {
      LoopLowers(c, s, l);
    }
  }

  // ---------------------------------------------------------------- somebody can always move

  /** The pool has been told to start and has not been stopped. */
  ghost predicate Awake(s: State) {
    && |s.stages| == |s.pool.phases| <= s.pool.workers && 0 < s.pool.workers
    && s.pool.startCalled && !s.pool.cancelled
    && forall w :: 0 <= w < |s.pool.phases| ==> !s.pool.phases[w].Exited?
  }

  ghost predicate AllSettled(s: State) {
    s.pool.queue == [] && forall w :: 0 <= w < |s.pool.phases| ==> !s.pool.phases[w].Running?
  }

  lemma {:induction false} ExitNeedsCancel(p0: Pool.State<Telemetry>, run: seq<Pool.Label<Telemetry>>,
                                           p: Pool.State<Telemetry>)
    requires Pool.Exec(p0, run) == Some(p) && p0.phases == []
    ensures p.cancelled || forall w :: 0 <= w < |p.phases| ==> !p.phases[w].Exited?
  {
    if run != [] {
      ExitNeedsCancel(p0, Front(run), Pool.Exec(p0, Front(run)).value);
    }
  }

  lemma ReachedAwake(c: Config, workers: int, queueSize: int, run: seq<Label>, s: State)
    requires Exec(c, Init(workers, queueSize), run) == Some(s) && s.pool.startCalled && !s.pool.cancelled
    ensures Awake(s)
  {
    PoolWithin(c, Init(workers, queueSize), run, s);
    ExitNeedsCancel(Init(workers, queueSize).pool, PoolRun(run), s.pool);
    Pool.AlwaysBalanced(workers, queueSize, PoolRun(run));
    Pool.SizesFixed(Init(workers, queueSize).pool, PoolRun(run));
  }

  lemma NextMove(s: State) returns (l: Label)
    requires Awake(s) && !AllSettled(s)
    ensures IsWorkerStep(l) && Enabled(s, l)
  {
    if |s.pool.phases| < s.pool.workers {
      return PoolStep(Pool.Launch);
    }
    if w :| 0 <= w < |s.pool.phases| && s.pool.phases[w].Running? {
      return if s.stages[w].Finished? then PoolStep(Pool.Finish(w)) else JobStep(w);
    }
    return PoolStep(if s.pool.phases[0].Done? then Pool.Count(0) else Pool.Take(0, s.pool.queue[0]));
  }

  lemma StaysAwake(c: Config, s: State, l: Label)
    requires Awake(s) && Enabled(s, l) && IsWorkerStep(l)
    ensures Awake(Apply(c, s, l))
  {
    if l.JobStep? {
      JobKeepsPool(c, s, l.w);
    }
  }

  // ---------------------------------------------------------------- the workers settle

  /** However the workers interleave, without submissions they take no more steps than the measure says. */
  lemma {:induction false} WorkersBounded(c: Config, s: State, run: seq<Label>, s': State)
    requires Exec(c, s, run) == Some(s') && |s.stages| == |s.pool.phases|
    requires forall i :: 0 <= i < |run| ==> IsWorkerStep(run[i])
    ensures |s'.stages| == |s'.pool.phases| && |run| + Measure(|c.rules|, s') <= Measure(|c.rules|, s)
  {
    if run != [] {
      var before := Exec(c, s, Front(run)).value;
      WorkersBounded(c, s, Front(run), before);
      StepLowers(c, before, Last(run));
    }
  }

  /** And when none of them can move any more, no sample of any device is waiting or being processed. */
  lemma StuckMeansSettled(c: Config, workers: int, queueSize: int, run: seq<Label>, s: State, id: string)
    requires Exec(c, Init(workers, queueSize), run) == Some(s) && s.pool.startCalled && !s.pool.cancelled
    requires forall l :: IsWorkerStep(l) ==> !Enabled(s, l)
    ensures Ingestion.Settled(s, id)
  {
    ReachedAwake(c, workers, queueSize, run, s);
    if !AllSettled(s) {
      var l := NextMove(s);
    }
  }

  lemma {:induction false} CanSettle(c: Config, s: State) returns (run: seq<Label>, s': State)
    requires Awake(s)
    ensures Exec(c, s, run) == Some(s') && AllSettled(s') && forall i :: 0 <= i < |run| ==> IsWorkerStep(run[i])
    decreases Measure(|c.rules|, s)
  {
    if AllSettled(s) {
      return [], s;
    }
    var l := NextMove(s);
    StepLowers(c, s, l);
    StaysAwake(c, s, l);
    var rest;
    rest, s' := CanSettle(c, Apply(c, s, l));
    run := [l] + rest;
    OneStep(c, s, l);
    ExecAppend(c, s, [l], Apply(c, s, l), rest, s');
  }

  /** From every reachable state of a pool started and not stopped, the workers alone settle every device, in no more
      steps than the measure says. */
  lemma WorkersSettle(c: Config, workers: int, queueSize: int, run: seq<Label>, s: State)
    returns (more: seq<Label>, s': State)
    requires Exec(c, Init(workers, queueSize), run) == Some(s) && s.pool.startCalled && !s.pool.cancelled
    ensures Exec(c, s, more) == Some(s') && (forall i :: 0 <= i < |more| ==> IsWorkerStep(more[i]))
    ensures |s.stages| == |s.pool.phases| && |more| <= Measure(|c.rules|, s)
    ensures forall id :: Ingestion.Settled(s', id)
  {
    ReachedAwake(c, workers, queueSize, run, s);
    more, s' := CanSettle(c, s);
    WorkersBounded(c, s, more, s');
  }
}
