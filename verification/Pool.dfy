/** The bounded worker pool, as the interleaving of submitters, workers and a stopper. */
module Pool {
  import opened Models
  import opened Sequences

  /** Where one worker goroutine stands: at its `select`, inside a job, past the job but not yet counting it, or gone.
      */
  datatype Phase<J> = Idle | Running(job: J) | Done(job: J) | Exited

  datatype State<J> = State(
    workers: nat, capacity: nat,
    startCalled: bool, phases: seq<Phase<J>>,
    queue: seq<J>, cancelled: bool,
    processed: nat, dropped: nat)
  {
    /** Start has launched every worker. */
    predicate Started() {
      startCalled && |phases| == workers
    }

    predicate HasRoom() {
      |queue| < capacity
    }

    /** The wait group is at zero. */
    predicate AllExited() {
      forall w :: 0 <= w < |phases| ==> phases[w].Exited?
    }
  }

  datatype Label<J> =
    | StartCall
    | Launch
    | Submit(job: J, ok: bool)
    | TrySubmit(job: J, ok: bool)
    | Take(w: nat, job: J)
    | Finish(w: nat)
    | Count(w: nat)
    | Exit(w: nat)
    | Cancel
    | StopReturn
  {
    predicate IsWorkerStep() {
      Launch? || Take? || Finish? || Count? || Exit?
    }
  }

  /** NewPool's defaults for non-positive arguments. */
  function Init<J>(workers: int, queueSize: int): State<J> {
    var n := if workers <= 0 then 1 else workers;
    State(n, if queueSize <= 0 then n else queueSize, false, [], [], false, 0, 0)
  }

  /** `select` takes any ready case, so a cancelled pool may still accept a job and an idle worker may still take one.
      */
  predicate Enabled<J(==)>(s: State<J>, l: Label<J>) {
    match l
    case StartCall => true
    case Launch => s.startCalled && |s.phases| < s.workers
    case Submit(_, ok) => if ok then s.HasRoom() else s.cancelled
    case TrySubmit(_, ok) => if ok then s.HasRoom() else s.cancelled || !s.HasRoom()
    case Take(w, j) => w < |s.phases| && s.phases[w].Idle? && s.queue != [] && s.queue[0] == j
    case Finish(w) => w < |s.phases| && s.phases[w].Running?
    case Count(w) => w < |s.phases| && s.phases[w].Done?
    case Exit(w) => w < |s.phases| && s.phases[w].Idle? && s.cancelled
    case Cancel => true
    case StopReturn => s.cancelled && s.AllExited()
  }

  function Apply<J(==)>(s: State<J>, l: Label<J>): State<J>
    requires Enabled(s, l)
  {
    match l
    case StartCall => s.(startCalled := true)
    case Launch => s.(phases := s.phases + [Idle])
    case Submit(j, ok) => if ok then s.(queue := s.queue + [j]) else s
    case TrySubmit(j, ok) =>
      if ok then s.(queue := s.queue + [j])
      else if s.cancelled then s
      else s.(dropped := s.dropped + 1)
    case Take(w, j) => s.(queue := s.queue[1..], phases := s.phases[w := Running(j)])
    case Finish(w) => s.(phases := s.phases[w := Done(s.phases[w].job)])
    case Count(w) => s.(phases := s.phases[w := Idle], processed := s.processed + 1)
    case Exit(w) => s.(phases := s.phases[w := Exited])
    case Cancel => s.(cancelled := true)
    case StopReturn => s
  }

  /** The state a run leads to, or None when some step is not possible. */
  function Exec<J(==)>(s0: State<J>, run: seq<Label<J>>): Option<State<J>> {
    if run == [] then Some(s0) else
      var before := Exec(s0, Front(run));
      if before.Some? && Enabled(before.value, Last(run)) then Some(Apply(before.value, Last(run))) else None
  }

  // ---------------------------------------------------------------- what a run did, read off its labels

  function Accepted<J>(run: seq<Label<J>>): seq<J> {
    if run == [] then [] else
      Accepted(Front(run)) + match Last(run)
        case Submit(j, ok) => if ok then [j] else []
        case TrySubmit(j, ok) => if ok then [j] else []
        case _ => []
  }

  function Begun<J>(run: seq<Label<J>>): seq<J> {
    if run == [] then [] else
      Begun(Front(run)) + match Last(run)
        case Take(_, j) => [j]
        case _ => []
  }

  function Completions<J>(run: seq<Label<J>>): nat {
    if run == [] then 0 else Completions(Front(run)) + if Last(run).Finish? then 1 else 0
  }

  /** TrySubmit calls that came back false from a full queue before anybody cancelled. */
  function Refusals<J(==)>(run: seq<Label<J>>): nat {
    if run == [] then 0 else
      Refusals(Front(run)) + if Last(run).TrySubmit? && !Last(run).ok && Cancel !in Front(run) then 1 else 0
  }

  lemma Extend<J>(s0: State<J>, run: seq<Label<J>>, s: State<J>, l: Label<J>)
    requires Exec(s0, run) == Some(s) && Enabled(s, l)
    ensures Exec(s0, run + [l]) == Some(Apply(s, l))
    ensures Accepted(run + [l]) ==
      if (l.Submit? || l.TrySubmit?) && l.ok then Accepted(run) + [l.job] else Accepted(run)
  {
    assert Front(run + [l]) == run && Last(run + [l]) == l;
  }

  // ---------------------------------------------------------------- workers, weighed

  /** The total weight of the workers, where a phase weighs what the three parameters say and an exited worker
      nothing. */
  function Load<J>(phases: seq<Phase<J>>, idle: nat, running: nat, done: nat): nat {
    if phases == [] then 0 else Load(Front(phases), idle, running, done) + Weight(Last(phases), idle, running, done)
  }

  function Weight<J>(p: Phase<J>, idle: nat, running: nat, done: nat): nat {
    match p
    case Idle => idle
    case Running(_) => running
    case Done(_) => done
    case Exited => 0
  }

  lemma {:induction false} LoadUpdate<J>(phases: seq<Phase<J>>, w: nat, p: Phase<J>, idle: nat, running: nat, done: nat)
    requires w < |phases|
    ensures Load(phases[w := p], idle, running, done) + Weight(phases[w], idle, running, done)
         == Load(phases, idle, running, done) + Weight(p, idle, running, done)
  {
    var q := phases[w := p];
    if w == |phases| - 1 {
      assert Front(q) == Front(phases);
    } else {
      assert Front(q) == Front(phases)[w := p];
      LoadUpdate(Front(phases), w, p, idle, running, done);
    }
  }

  lemma {:induction false} LoadBound<J>(phases: seq<Phase<J>>)
    ensures Load(phases, 0, 1, 1) <= |phases| && Load(phases, 0, 0, 1) <= Load(phases, 0, 1, 1)
  {
    if phases != [] {
      LoadBound(Front(phases));
    }
  }

  lemma {:induction false} LoadOfExited<J>(phases: seq<Phase<J>>, idle: nat, running: nat, done: nat)
    requires forall w :: 0 <= w < |phases| ==> phases[w].Exited?
    ensures Load(phases, idle, running, done) == 0
  {
    if phases != [] {
      LoadOfExited(Front(phases), idle, running, done);
    }
  }

  /** Jobs inside a worker. */
  function InFlight<J>(s: State<J>): nat {
    Load(s.phases, 0, 1, 1)
  }

  // ---------------------------------------------------------------- conservation

  ghost predicate Balanced<J(!new)>(s: State<J>, run: seq<Label<J>>) {
    && Accepted(run) == Begun(run) + s.queue
    && |Begun(run)| == s.processed + InFlight(s)
    && Completions(run) == s.processed + Load(s.phases, 0, 0, 1)
    && s.dropped == Refusals(run)
    && (s.cancelled <==> Cancel in run)
    && |s.queue| <= s.capacity && |s.phases| <= s.workers
  }

  lemma QueueStep<J(!new)>(s: State<J>, run: seq<Label<J>>, l: Label<J>)
    requires Balanced(s, run) && Enabled(s, l)
    requires l.Submit? || l.TrySubmit?
    ensures Balanced(Apply(s, l), run + [l])
  {
    assert Front(run + [l]) == run && Last(run + [l]) == l;
  }

  lemma TakeStep<J(!new)>(s: State<J>, run: seq<Label<J>>, l: Label<J>)
    requires Balanced(s, run) && Enabled(s, l) && l.Take?
    ensures Balanced(Apply(s, l), run + [l])
  {
    assert Front(run + [l]) == run && Last(run + [l]) == l;
    LoadUpdate(s.phases, l.w, Running(l.job), 0, 1, 1);
    LoadUpdate(s.phases, l.w, Running(l.job), 0, 0, 1);
    assert s.queue == [l.job] + s.queue[1..];
  }

  lemma PhaseStep<J(!new)>(s: State<J>, run: seq<Label<J>>, l: Label<J>, p: Phase<J>)
    requires Balanced(s, run) && Enabled(s, l) && (l.Finish? || l.Count? || l.Exit?)
    requires Apply(s, l).phases == s.phases[l.w := p]
    ensures Balanced(Apply(s, l), run + [l])
  {
    assert Front(run + [l]) == run && Last(run + [l]) == l;
    assert p == Apply(s, l).phases[l.w];
    LoadUpdate(s.phases, l.w, p, 0, 1, 1);
    LoadUpdate(s.phases, l.w, p, 0, 0, 1);
  }

  lemma ControlStep<J(!new)>(s: State<J>, run: seq<Label<J>>, l: Label<J>)
    requires Balanced(s, run) && Enabled(s, l)
    requires l.StartCall? || l.Launch? || l.Cancel? || l.StopReturn?
    ensures Balanced(Apply(s, l), run + [l])
  {
    assert Front(run + [l]) == run && Last(run + [l]) == l;
    if l.Launch? {
      assert Front(Apply(s, l).phases) == s.phases;
    }
  }

  lemma BalancedStep<J(!new)>(s: State<J>, run: seq<Label<J>>, l: Label<J>)
    requires Balanced(s, run) && Enabled(s, l)
    ensures Balanced(Apply(s, l), run + [l])
  {
    if l.Submit? || l.TrySubmit? {
      QueueStep(s, run, l);
    } else if l.Take? {
      TakeStep(s, run, l);
    } else if l.Finish? || l.Count? || l.Exit? {
      PhaseStep(s, run, l, Apply(s, l).phases[l.w]);
    } else {
      ControlStep(s, run, l);
    }
  }

  lemma {:induction false} AlwaysBalanced<J(!new)>(workers: int, queueSize: int, run: seq<Label<J>>)
    requires Exec(Init(workers, queueSize), run).Some?
    ensures Balanced(Exec(Init(workers, queueSize), run).value, run)
  {
    if run != [] {
      AlwaysBalanced(workers, queueSize, Front(run));
      BalancedStep(Exec(Init(workers, queueSize), Front(run)).value, Front(run), Last(run));
      assert Front(run) + [Last(run)] == run;
    }
  }

  lemma {:induction false} SizesFixed<J>(s0: State<J>, run: seq<Label<J>>)
    requires Exec(s0, run).Some?
    ensures Exec(s0, run).value.workers == s0.workers && Exec(s0, run).value.capacity == s0.capacity
  {
    if run != [] {
      SizesFixed(s0, Front(run));
    }
  }

  /** In every reachable state of every pool: jobs begin in the order they were accepted and none begins twice, the
      bounds hold, and the counters lag or match what happened. */
  lemma Conservation<J(!new)>(workers: int, queueSize: int, run: seq<Label<J>>, s: State<J>)
    requires Exec(Init(workers, queueSize), run) == Some(s)
    ensures Accepted(run) == Begun(run) + s.queue
    ensures |s.queue| <= Init<J>(workers, queueSize).capacity
    ensures InFlight(s) <= Init<J>(workers, queueSize).workers
    ensures s.processed <= Completions(run) <= s.processed + Init<J>(workers, queueSize).workers
    ensures |Begun(run)| == s.processed + InFlight(s)
    ensures s.dropped == Refusals(run)
  {
    AlwaysBalanced(workers, queueSize, run);
    SizesFixed(Init(workers, queueSize), run);
    LoadBound(s.phases);
  }

  /** TrySubmit calls that came back false, for whatever reason. */
  function RefusedTries<J>(run: seq<Label<J>>): nat {
    if run == [] then 0 else RefusedTries(Front(run)) + if Last(run).TrySubmit? && !Last(run).ok then 1 else 0
  }

  ghost predicate RefusedAfterCancel<J>(run: seq<Label<J>>) {
    exists i :: 0 <= i < |run| && run[i].TrySubmit? && !run[i].ok && Cancel in run[..i]
  }

  lemma OneRefusalMore<J>(run: seq<Label<J>>)
    requires run != []
    ensures RefusedAfterCancel(run)
       <==> RefusedAfterCancel(Front(run)) || (Last(run).TrySubmit? && !Last(run).ok && Cancel in Front(run))
  {
    var so, n := Front(run), |run| - 1;
    assert forall i :: 0 <= i < n ==> so[i] == run[i] && so[..i] == run[..i];
    assert run[..n] == so;
    if RefusedAfterCancel(so) {
      var i :| 0 <= i < |so| && so[i].TrySubmit? && !so[i].ok && Cancel in so[..i];
      assert run[i].TrySubmit? && !run[i].ok && Cancel in run[..i];
    }
  }

  lemma {:induction false} RefusalsCounted<J>(run: seq<Label<J>>)
    ensures Refusals(run) <= RefusedTries(run)
    ensures Refusals(run) == RefusedTries(run) <==> !RefusedAfterCancel(run)
  {
    if run != [] {
      RefusalsCounted(Front(run));
      OneRefusalMore(run);
    }
  }

  /** Every TrySubmit that returned false is counted as a drop, as its comment says, if and only if none did so after
      the pool was stopped. */
  lemma DropsCountedExactly<J(!new)>(workers: int, queueSize: int, run: seq<Label<J>>, s: State<J>)
    requires Exec(Init(workers, queueSize), run) == Some(s)
    ensures s.dropped == RefusedTries(run) <==> !RefusedAfterCancel(run)
  {
    AlwaysBalanced(workers, queueSize, run);
    RefusalsCounted(run);
  }

  /** On any pool, a TrySubmit after the stop may return false and count nothing. */
  lemma StoppedDropUncounted<J(!new)>(workers: int, queueSize: int, j: J) returns (s: State<J>)
    ensures Exec(Init(workers, queueSize), [Cancel] + [TrySubmit(j, false)]) == Some(s) && s.dropped == 0
  {
    var s0 := Init<J>(workers, queueSize);
    s := s0.(cancelled := true);
    OneStep(s0, Cancel);
    OneStep(s, TrySubmit(j, false));
    ExecAppend(s0, [Cancel], s, [TrySubmit(j, false)], s);
  }

  /** Submitting distinct jobs, no job begins twice. */
  lemma BegunOnce<J(!new)>(workers: int, queueSize: int, run: seq<Label<J>>, s: State<J>)
    requires Exec(Init(workers, queueSize), run) == Some(s)
    requires Distinct(Accepted(run))
    ensures Distinct(Begun(run)) && forall j :: j in Begun(run) ==> j !in s.queue
  {
    AlwaysBalanced(workers, queueSize, run);
    var all := Accepted(run);
    forall i, k | 0 <= i < |Begun(run)| && 0 <= k < |s.queue| ensures Begun(run)[i] != s.queue[k] {
      assert all[i] == Begun(run)[i] && all[|Begun(run)| + k] == s.queue[k];
    }
    forall i, k | 0 <= i < k < |Begun(run)| ensures Begun(run)[i] != Begun(run)[k] {
      assert all[i] == Begun(run)[i] && all[k] == Begun(run)[k];
    }
  }

  // ---------------------------------------------------------------- shutdown

  ghost predicate Stopped<J(!new)>(s: State<J>) {
    s.cancelled && s.AllExited()
  }

  /** Nothing that can happen from `s` on begins a job. */
  ghost predicate NothingBegins<J(!new)>(s: State<J>) {
    forall more :: Exec(s, more).Some? ==> Begun(more) == []
  }

  lemma {:induction false} StoppedForever<J(!new)>(s: State<J>, more: seq<Label<J>>)
    requires Stopped(s) && s.Started() && Exec(s, more).Some?
    ensures Begun(more) == []
    ensures Stopped(Exec(s, more).value) && Exec(s, more).value.Started()
  {
    if more != [] {
      StoppedForever(s, Front(more));
    }
  }

  /** Stop returning on a pool that was started means nothing is in flight, every job ever begun is counted, and no
      continuation begins another, although Submit may still accept some. */
  lemma StopIsFinal<J(!new)>(workers: int, queueSize: int, run: seq<Label<J>>, s: State<J>)
    requires Exec(Init(workers, queueSize), run + [StopReturn]) == Some(s)
    requires s.Started()
    ensures InFlight(s) == 0 && s.processed == |Begun(run)|
    ensures NothingBegins(s)
  {
    assert Front(run + [StopReturn]) == run && Last(run + [StopReturn]) == Label<J>.StopReturn;
    AlwaysBalanced(workers, queueSize, run);
    LoadOfExited(s.phases, 0, 1, 1);
    forall more | Exec(s, more).Some? ensures Begun(more) == [] {
      StoppedForever(s, more);
    }
  }

  /** The guarantee of Stop holds exactly for pools fully started before: on any other, a later Start may still run a
      job. */
  lemma StopNeedsStart<J(!new)>(workers: int, queueSize: int, run: seq<Label<J>>, s: State<J>, j: J)
    requires Exec(Init(workers, queueSize), run) == Some(s) && Stopped(s)
    ensures NothingBegins(s) <==> s.Started()
  {
    AlwaysBalanced(workers, queueSize, run);
    SizesFixed(Init(workers, queueSize), run);
    if s.Started() {
      forall more | Exec(s, more).Some? ensures Begun(more) == [] {
        StoppedForever(s, more);
      }
    } else {
      LaunchNeedsStart(workers, queueSize, run);
      LateStart(s, j);
    }
  }

  lemma {:induction false} LaunchNeedsStart<J(!new)>(workers: int, queueSize: int, run: seq<Label<J>>)
    requires Exec(Init(workers, queueSize), run).Some?
    ensures var s := Exec(Init(workers, queueSize), run).value; s.phases == [] || s.startCalled
  {
    if run != [] {
      LaunchNeedsStart(workers, queueSize, Front(run));
    }
  }

  lemma LateStart<J(!new)>(s: State<J>, j: J)
    requires |s.phases| < s.workers && 0 < s.capacity
    ensures !NothingBegins(s)
  {
    var s1 := s.(startCalled := true, phases := s.phases + [Idle]);
    var launch := [Label<J>.StartCall, Label<J>.Launch];
    assert Exec(s, [Label<J>.StartCall]) == Some(s.(startCalled := true)) by {
      assert Front([Label<J>.StartCall]) == [];
    }
    assert Exec(s, launch) == Some(s1) by {
      assert Front(launch) == [Label<J>.StartCall];
    }
    var w := |s.phases|;
    if s.queue != [] {
      TakeFrom(s, launch, s1, w, s.queue[0]);
    } else {
      var s2 := s1.(queue := s.queue + [j]);
      assert Front(launch + [Submit(j, true)]) == launch;
      assert Exec(s, launch + [Submit(j, true)]) == Some(s2);
      TakeFrom(s, launch + [Submit(j, true)], s2, w, j);
    }
  }

  lemma TakeFrom<J(!new)>(s: State<J>, run: seq<Label<J>>, s': State<J>, w: nat, j: J)
    requires Exec(s, run) == Some(s') && Enabled(s', Take(w, j))
    ensures !NothingBegins(s)
  {
    var more := run + [Take(w, j)];
    assert Front(more) == run && Last(more) == Take(w, j);
    assert Exec(s, more).Some? && Last(Begun(more)) == j;
  }

  // ---------------------------------------------------------------- starting, stopping, and submitting afterwards

  lemma {:induction false} ExecAppend<J>(s0: State<J>, a: seq<Label<J>>, m: State<J>, b: seq<Label<J>>, s: State<J>)
    requires Exec(s0, a) == Some(m) && Exec(m, b) == Some(s)
    ensures Exec(s0, a + b) == Some(s)
  {
    if b == [] {
      assert a + b == a;
    } else {
      ExecAppend(s0, a, m, Front(b), Exec(m, Front(b)).value);
      assert Front(a + b) == a + Front(b) && Last(a + b) == Last(b);
    }
  }

  lemma OneStep<J>(s: State<J>, l: Label<J>)
    requires Enabled(s, l)
    ensures Exec(s, [l]) == Some(Apply(s, l))
  {
    assert Front([l]) == [] && Exec(s, Front([l])) == Some(s);
  }

  function Launches<J>(n: nat): seq<Label<J>> {
    seq(n, _ => Launch)
  }

  function Exits<J>(n: nat): seq<Label<J>> {
    seq(n, w requires 0 <= w < n => Exit(w))
  }

  lemma {:induction false} LaunchAll<J>(s: State<J>, n: nat)
    requires s.startCalled && |s.phases| + n <= s.workers
    ensures Exec(s, Launches(n)) == Some(s.(phases := s.phases + seq(n, _ => Idle)))
  {
    var after := s.(phases := s.phases + seq(n, _ => Idle));
    if n == 0 {
      assert after.phases == s.phases;
    } else {
      LaunchAll(s, n - 1);
      assert Front(Launches<J>(n)) == Launches(n - 1);
      assert after.phases == s.phases + seq(n - 1, _ => Idle) + [Idle];
    }
  }

  lemma OneMoreExited<J>(phases: seq<Phase<J>>, n: nat)
    requires 0 < n <= |phases|
    ensures (seq(n - 1, _ => Exited) + phases[n - 1..])[n - 1 := Exited] == seq(n, _ => Exited) + phases[n..]
  {
  }

  lemma {:induction false} ExitAll<J>(s: State<J>, n: nat)
    requires s.cancelled && n <= |s.phases| && forall w :: 0 <= w < |s.phases| ==> s.phases[w].Idle?
    ensures Exec(s, Exits(n)) == Some(s.(phases := seq(n, _ => Exited) + s.phases[n..]))
  {
    var after := s.(phases := seq(n, _ => Exited) + s.phases[n..]);
    if n == 0 {
      assert after.phases == s.phases;
    } else {
      ExitAll(s, n - 1);
      assert Front(Exits<J>(n)) == Exits(n - 1);
      OneMoreExited(s.phases, n);
    }
  }

  /** Start, as what it adds to a run. */
  lemma StartRun<J>(s: State<J>)
    requires !s.startCalled && s.phases == []
    ensures Exec(s, [StartCall] + Launches(s.workers))
            == Some(s.(startCalled := true, phases := seq(s.workers, _ => Idle)))
  {
    var s1 := s.(startCalled := true);
    OneStep(s, StartCall);
    LaunchAll(s1, s.workers);
    assert s1.phases + seq(s.workers, _ => Idle) == seq(s.workers, _ => Idle);
    ExecAppend(s, [StartCall], s1, Launches(s.workers), s1.(phases := seq(s.workers, _ => Idle)));
  }

  /** A Submit is certain to be refused. */
  ghost predicate Refuses<J(!new)>(s: State<J>, j: J) {
    forall ok :: Enabled(s, Submit(j, ok)) ==> !ok
  }

  /** In every reachable state of a stopped pool, Submit is certain to return false if and only if the jobs accepted and
      never begun fill the queue; otherwise `select` may pick either. */
  lemma RefusesExactly<J(!new)>(workers: int, queueSize: int, run: seq<Label<J>>, s: State<J>, j: J)
    requires Exec(Init(workers, queueSize), run) == Some(s) && Stopped(s)
    ensures Refuses(s, j) <==> |Accepted(run)| - |Begun(run)| == Init<J>(workers, queueSize).capacity
    ensures Enabled(s, Submit(j, false))
  {
    AlwaysBalanced(workers, queueSize, run);
    SizesFixed(Init(workers, queueSize), run);
    assert Enabled(s, Submit(j, true)) <==> s.HasRoom();
  }

  // ---------------------------------------------------------------- what NewPool's arguments mean

  function Submits<J>(j: J, n: nat): seq<Label<J>> {
    seq(n, _ => Submit(j, true))
  }

  lemma {:induction false} SubmitAll<J>(s: State<J>, j: J, n: nat)
    requires |s.queue| <= s.capacity
    ensures Exec(s, Submits(j, n))
         == if |s.queue| + n <= s.capacity then Some(s.(queue := s.queue + seq(n, _ => j))) else None
  {
    var after := s.(queue := s.queue + seq(n, _ => j));
    if n == 0 {
      assert after.queue == s.queue;
    } else {
      SubmitAll(s, j, n - 1);
      assert Front(Submits(j, n)) == Submits(j, n - 1);
      assert after.queue == s.queue + seq(n - 1, _ => j) + [j];
    }
  }

  lemma {:induction false} LaunchesBounded<J>(s: State<J>, n: nat)
    requires Exec(s, Launches(n)).Some?
    ensures |s.phases| <= s.workers ==> |s.phases| + n == |Exec(s, Launches(n)).value.phases| <= s.workers
    ensures Exec(s, Launches(n)).value.workers == s.workers
  {
    if n > 0 {
      assert Front(Launches<J>(n)) == Launches(n - 1);
      LaunchesBounded(s, n - 1);
    }
  }

  /** A new pool takes a number of jobs, before any worker runs, if and only if that is at most the queue size it was
      given; and Start launches a number of workers if and only if that is at most the workers it was given. Without a
      positive number of workers there is one; without a positive queue size it is the number of workers. */
  lemma SizesAsGiven<J>(workers: int, queueSize: int, j: J, n: nat)
    ensures workers > 0 && queueSize > 0 ==> (Exec(Init(workers, queueSize), Submits(j, n)).Some? <==> n <= queueSize)
    ensures workers > 0 && queueSize <= 0 ==> (Exec(Init(workers, queueSize), Submits(j, n)).Some? <==> n <= workers)
    ensures workers <= 0 && queueSize <= 0 ==> (Exec(Init(workers, queueSize), Submits(j, n)).Some? <==> n <= 1)
    ensures workers <= 0 && queueSize > 0 ==> (Exec(Init(workers, queueSize), Submits(j, n)).Some? <==> n <= queueSize)
    ensures Exec(Init<J>(workers, queueSize), [StartCall] + Launches(n)).Some?
       <==> if workers > 0 then n <= workers else n <= 1
  {
    var s0 := Init<J>(workers, queueSize);
    SubmitAll(s0, j, n);
    var s1 := s0.(startCalled := true);
    OneStep(s0, StartCall);
    if n <= s0.workers {
      LaunchAll(s1, n);
      ExecAppend(s0, [StartCall], s1, Launches(n), Exec(s1, Launches(n)).value);
    } else if Exec(s0, [StartCall] + Launches(n)).Some? {
      var m := ExecSplit(s0, [StartCall], Launches<J>(n));
      LaunchesBounded(m, n);
    }
  }

  lemma {:induction false} ExecSplit<J>(s0: State<J>, a: seq<Label<J>>, b: seq<Label<J>>) returns (m: State<J>)
    requires Exec(s0, a + b).Some?
    ensures Exec(s0, a) == Some(m) && Exec(m, b) == Exec(s0, a + b)
  {
    if b == [] {
      assert a + b == a;
      m := Exec(s0, a).value;
    } else {
      assert Front(a + b) == a + Front(b) && Last(a + b) == Last(b);
      m := ExecSplit(s0, a, Front(b));
    }
  }

  /** In every reachable state, Submit and TrySubmit alike can succeed if and only if the jobs accepted and not begun do
      not fill the queue. TrySubmit can fail if and only if they do or the pool was cancelled, Submit only in the latter
      case: otherwise it waits. */
  lemma AdmitsExactly<J(!new)>(workers: int, queueSize: int, run: seq<Label<J>>, s: State<J>, j: J)
    requires Exec(Init(workers, queueSize), run) == Some(s)
    ensures var room := |Accepted(run)| - |Begun(run)| < Init<J>(workers, queueSize).capacity;
            && (Enabled(s, Submit(j, true)) <==> room) && (Enabled(s, TrySubmit(j, true)) <==> room)
            && (Enabled(s, TrySubmit(j, false)) <==> !room || Cancel in run)
            && (Enabled(s, Submit(j, false)) <==> Cancel in run)
  {
    AlwaysBalanced(workers, queueSize, run);
    SizesFixed(Init(workers, queueSize), run);
  }

  /** Any pool, started, stopped and with Stop returned, may still accept a job. */
  lemma StoppedPoolAccepts<J(!new)>(workers: int, queueSize: int, j: J) returns (run: seq<Label<J>>, s: State<J>)
    ensures Exec(Init(workers, queueSize), run + [StopReturn] + [Submit(j, true)]) == Some(s)
    ensures s.Started() && Stopped(s) && s.queue == [j]
  {
    var s0 := Init<J>(workers, queueSize);
    var n := s0.workers;
    var s1 := s0.(startCalled := true, phases := seq(n, _ => Idle));
    StartRun(s0);
    var s2 := s1.(cancelled := true);
    OneStep(s1, Cancel);
    ExecAppend(s0, [StartCall] + Launches(n), s1, [Cancel], s2);
    var s3 := s2.(phases := seq(n, _ => Exited));
    ExitAll(s2, n);
    assert seq(n, _ => Exited) + s2.phases[n..] == s3.phases;
    run := [StartCall] + Launches(n) + [Cancel] + Exits(n);
    ExecAppend(s0, [StartCall] + Launches(n) + [Cancel], s2, Exits(n), s3);
    OneStep(s3, StopReturn);
    ExecAppend(s0, run, s3, [StopReturn], s3);
    s := s3.(queue := [j]);
    assert s3.queue + [j] == [j];
    OneStep(s3, Submit(j, true));
    ExecAppend(s0, run + [StopReturn], s3, [Submit(j, true)], s);
  }

  // ---------------------------------------------------------------- termination of Stop

  function Measure<J>(s: State<J>): nat {
    4 * |s.queue| + Load(s.phases, 1, 3, 2) + 2 * (if |s.phases| <= s.workers then s.workers - |s.phases| else 0)
  }

  lemma WorkerStepDecreases<J>(s: State<J>, l: Label<J>)
    requires Enabled(s, l) && l.IsWorkerStep()
    ensures Measure(Apply(s, l)) < Measure(s)
  {
    if l.Launch? {
      assert Front(Apply(s, l).phases) == s.phases;
    } else {
      LoadUpdate(s.phases, l.w, Apply(s, l).phases[l.w], 1, 3, 2);
    }
  }

  /** With no further submissions, the workers take a bounded number of steps. */
  lemma {:induction false} WorkersComeToRest<J>(s: State<J>, run: seq<Label<J>>)
    requires Exec(s, run).Some? && forall i :: 0 <= i < |run| ==> run[i].IsWorkerStep()
    ensures |run| + Measure(Exec(s, run).value) <= Measure(s)
  {
    if run != [] {
      WorkersComeToRest(s, Front(run));
      WorkerStepDecreases(Exec(s, Front(run)).value, Last(run));
    }
  }

  /** A cancelled pool whose workers cannot move is one whose Stop can return. */
  lemma RestMeansStopped<J(!new)>(s: State<J>)
    requires s.cancelled
    requires forall l :: Enabled(s, l) ==> !l.IsWorkerStep()
    ensures Enabled(s, StopReturn)
  {
    forall w | 0 <= w < |s.phases| ensures s.phases[w].Exited? {
      assert !Enabled(s, Exit(w)) && !Enabled(s, Finish(w)) && !Enabled(s, Count(w)) by {
        assert Label<J>.Exit(w).IsWorkerStep() && Label<J>.Finish(w).IsWorkerStep() && Label<J>.Count(w).IsWorkerStep();
      }
    }
  }

  // ---------------------------------------------------------------- the pool as an object

  /** A Stop under way: the first `w` workers are gone, the others gone or between jobs. */
  ghost predicate Stopping<J>(before: State<J>, run: seq<Label<J>>, now: State<J>, w: nat) {
    && now.cancelled && Exec(before, [Cancel] + run) == Some(now)
    && forall v :: 0 <= v < |now.phases| ==> now.phases[v].Exited? || (v >= w && now.phases[v].Idle?)
  }

  lemma StoppingNext<J>(before: State<J>, run: seq<Label<J>>, now: State<J>, w: nat, more: seq<Label<J>>,
                        then': State<J>)
    requires Stopping(before, run, now, w) && w < |now.phases|
    requires Exec(now, more) == Some(then') && then'.cancelled && then'.phases == now.phases[w := Exited]
    ensures Stopping(before, run + more, then', w + 1)
  {
    CancelThen(before, run, now, more, then');
  }

  lemma CancelThen<J>(before: State<J>, run: seq<Label<J>>, now: State<J>, more: seq<Label<J>>, then': State<J>)
    requires Exec(before, [Cancel] + run) == Some(now) && Exec(now, more) == Some(then')
    ensures Exec(before, [Cancel] + (run + more)) == Some(then')
  {
    Associative([Label<J>.Cancel], run, more);
    ExecAppend(before, [Cancel] + run, now, more, then');
  }

  predicate WorkerRun<J>(run: seq<Label<J>>) {
    forall i :: 0 <= i < |run| ==> run[i].IsWorkerStep()
  }

  /** The pool's fields, changed by whole runs of the transition system above. */
  class WorkerPool<J(==)> {
    const workers: nat
    const capacity: nat
    var startCalled: bool
    var phases: seq<Phase<J>>
    var queue: seq<J>
    var cancelled: bool
    var processed: nat
    var dropped: nat

    function View(): State<J>
      reads this
    {
      State(workers, capacity, startCalled, phases, queue, cancelled, processed, dropped)
    }

    constructor (workers: int, queueSize: int)
      ensures View() == Init(workers, queueSize)
    {
      var n := if workers <= 0 then 1 else workers;
      this.workers := n;
      this.capacity := if queueSize <= 0 then n else queueSize;
      startCalled, phases, queue, cancelled, processed, dropped := false, [], [], false, 0, 0;
    }

    /** Only the first call launches anything. */
    method Start()
      requires startCalled || phases == []
      modifies this
      ensures View() == if old(startCalled) then old(View())
                        else old(View()).(startCalled := true, phases := seq(workers, _ => Idle))
      ensures !old(startCalled) ==> Exec(old(View()), [StartCall] + Launches(workers)) == Some(View())
    {
      if startCalled {
        return;
      }
      StartRun(View());
      startCalled := true;
      var i := 0;
      while i < workers
        invariant 0 <= i <= workers
        invariant View() == old(View()).(startCalled := true, phases := seq(i, _ => Idle))
      {
        phases := phases + [Idle];
        i := i + 1;
      }
    }

    /** Blocks until a case is ready; `seesDone` says which one `select` picks when both are. */
    method Submit(job: J, seesDone: bool) returns (ok: bool)
      requires cancelled || View().HasRoom()
      modifies this
      ensures Enabled(old(View()), Label.Submit(job, ok))
      ensures View() == Apply(old(View()), Label.Submit(job, ok))
    {
      if cancelled && (seesDone || |queue| >= capacity) {
        return false;
      }
      queue := queue + [job];
      return true;
    }

    method TrySubmit(job: J, seesDone: bool) returns (ok: bool)
      modifies this
      ensures Enabled(old(View()), Label.TrySubmit(job, ok))
      ensures View() == Apply(old(View()), Label.TrySubmit(job, ok))
    {
      if cancelled && (seesDone || |queue| >= capacity) {
        return false;
      } else if |queue| < capacity {
        queue := queue + [job];
        return true;
      } else {
        dropped := dropped + 1;
        return false;
      }
    }

    /** Cancels and waits. Until it sees the cancellation, the w-th worker takes up to `turns[w]` more jobs. */
    method Stop(turns: seq<nat>) returns (ghost run: seq<Label<J>>)
      requires |turns| == |phases| && forall w :: 0 <= w < |phases| ==> phases[w].Idle? || phases[w].Exited?
      modifies this
      ensures Exec(old(View()), [Cancel] + run + [StopReturn]) == Some(View())
      ensures WorkerRun(run) && View().AllExited() && cancelled && |phases| == old(|phases|)
    {
      ghost var before := View();
      cancelled := true;
      OneStep(before, Cancel);
      run := [];
      assert [Cancel] + run == [Label<J>.Cancel];
      for w := 0 to |phases|
        invariant |phases| == |turns| == old(|phases|) && Stopping(before, run, View(), w) && WorkerRun(run)
      {
        if phases[w].Idle? {
          ghost var now := View();
          ghost var more := LastTurns(w, turns[w]);
          StoppingNext(before, run, now, w, more, View());
          run := run + more;
        }
      }
      OneStep(View(), StopReturn);
      ExecAppend(before, [Cancel] + run, View(), [StopReturn], View());
    }

    /** A worker's last turns, and its exit. */
    method LastTurns(w: nat, turns: nat) returns (ghost run: seq<Label<J>>)
      requires cancelled && w < |phases| && phases[w].Idle?
      modifies this
      ensures Exec(old(View()), run) == Some(View()) && WorkerRun(run)
      ensures cancelled && phases == old(phases)[w := Exited]
    {
      ghost var before := View();
      run := [];
      var n := 0;
      while n < turns && queue != []
        invariant cancelled && phases == before.phases
        invariant Exec(before, run) == Some(View()) && WorkerRun(run)
      {
        ghost var now := View();
        var job := RunJob(w);
        ExecAppend(before, run, now, [Take(w, job), Finish(w), Count(w)], View());
        run := run + [Take(w, job), Finish(w), Count(w)];
        n := n + 1;
      }
      OneStep(View(), Exit(w));
      ExecAppend(before, run, View(), [Exit(w)], Apply(View(), Exit(w)));
      run := run + [Exit(w)];
      phases := phases[w := Exited];
    }

    /** One turn of a worker's loop that received a job, run to the end of the turn. */
    method RunJob(w: nat) returns (job: J)
      requires w < |phases| && phases[w].Idle? && queue != []
      modifies this
      ensures Exec(old(View()), [Take(w, job), Finish(w), Count(w)]) == Some(View())
      ensures View() == old(View()).(queue := old(queue)[1..], processed := old(processed) + 1)
    {
      job := queue[0];
      Turn(View(), w);
      queue := queue[1..];
      phases := phases[w := Running(job)];
      phases := phases[w := Done(job)];
      phases := phases[w := Idle];
      processed := processed + 1;
      assert phases == old(phases);
    }
  }

  lemma Turn<J>(s: State<J>, w: nat)
    requires w < |s.phases| && s.phases[w].Idle? && s.queue != []
    ensures Exec(s, [Take(w, s.queue[0]), Finish(w), Count(w)])
         == Some(s.(queue := s.queue[1..], processed := s.processed + 1))
  {
    var t, f, c := Take(w, s.queue[0]), Label<J>.Finish(w), Label<J>.Count(w);
    var s1 := Apply(s, t);
    var s2 := Apply(s1, f);
    OneStep(s, t);
    OneStep(s1, f);
    OneStep(s2, c);
    ExecAppend(s, [t], s1, [f], s2);
    ExecAppend(s, [t] + [f], s2, [c], Apply(s2, c));
    assert [t] + [f] + [c] == [t, f, c];
    assert Apply(s2, c).phases == s.phases;
  }
}
