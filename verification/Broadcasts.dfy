/** The order of the events of one job, from the worker that publishes them to the subscribers that receive them. */
module Broadcasts {
  import opened Models
  import opened Sequences
  import opened Pipeline
  import Alerts
  import Hub
  import Pool

  function PublishedBy(log: seq<Entry>, w: nat): seq<Event> {
    if log == [] then []
    else if Last(log).Published? && Last(log).w == w then PublishedBy(Front(log), w) + [Last(log).event]
    else PublishedBy(Front(log), w)
  }

  /** What a worker is to publish for the samples it has stored, job after job. */
  function Script(c: Config, log: seq<Entry>, w: nat): seq<Event> {
    if log == [] then []
    else if Last(log).Persisted? && Last(log).w == w
    then Script(c, Front(log), w) + Alerts.JobEvents(c.rules, Last(log).sample)
    else Script(c, Front(log), w)
  }

  /** The part of its current job's events still to come. */
  function Remaining(c: Config, p: Pool.Phase<Telemetry>, stage: Stage): seq<Event> {
    if !p.Running? then [] else
      match stage
      case Persist => []
      case Finished => []
      case Evaluate => Alerts.AlertEvents(Alerts.Breaches(c.rules, p.job))
      case StoreAlert(pending) => Alerts.AlertEvents(pending)
      case PublishAlert(pending) => Alerts.AlertEvents(pending)
      case _ => Alerts.JobEvents(c.rules, p.job)
  }

  function Left(c: Config, s: State, w: nat): seq<Event> {
    if w < |s.stages| && w < |s.pool.phases| then Remaining(c, s.pool.phases[w], s.stages[w]) else []
  }

  ghost predicate OnScript(c: Config, s: State, w: nat) {
    && |s.stages| == |s.pool.phases|
    && Script(c, s.log, w)
       == PublishedBy(s.log, w) + Left(c, s, w)
  }

  lemma LogAppend(c: Config, log: seq<Entry>, e: Entry, w: nat)
    ensures PublishedBy(log + [e], w)
         == if e.Published? && e.w == w then PublishedBy(log, w) + [e.event] else PublishedBy(log, w)
    ensures Script(c, log + [e], w)
         == if e.Persisted? && e.w == w then Script(c, log, w) + Alerts.JobEvents(c.rules, e.sample)
             else Script(c, log, w)
  {
    assert Front(log + [e]) == log;
  }

  /** A step that adds `added` to the worker's script and publishes `published`. */
  ghost predicate Advances(c: Config, s: State, s': State, w: nat, added: seq<Event>, published: seq<Event>) {
    && Script(c, s'.log, w) == Script(c, s.log, w) + added
    && PublishedBy(s'.log, w) == PublishedBy(s.log, w) + published
  }

  lemma PersistAdvances(c: Config, s: State, w: nat, t: Telemetry)
    requires w < |s.stages| && s.stages[w].Persist?
    ensures var s' := ApplyJob(c, s, w, t); Advances(c, s, s', w, Remaining(c, Pool.Running(t), s'.stages[w]), [])
  {
    LogAppend(c, s.log, Persisted(w, t), w);
  }

  lemma SampleAdvances(c: Config, s: State, w: nat, t: Telemetry)
    requires w < |s.stages| && s.stages[w].PublishSample?
    ensures var s', was := ApplyJob(c, s, w, t), Remaining(c, Pool.Running(t), s.stages[w]);
            was != [] && Advances(c, s, s', w, [], [was[0]]) && Remaining(c, Pool.Running(t), s'.stages[w]) == was[1..]
  {
    LogAppend(c, s.log, Published(w, TelemetryEvent(t)), w);
  }

  lemma AlertAdvances(c: Config, s: State, w: nat, t: Telemetry)
    requires w < |s.stages| && s.stages[w].PublishAlert?
    ensures var pending := s.stages[w].pending;
            Advances(c, s, ApplyJob(c, s, w, t), w, [], if pending == [] then [] else [AlertEvent(pending[0])])
  {
    if s.stages[w].pending != [] {
      LogAppend(c, s.log, Published(w, AlertEvent(s.stages[w].pending[0])), w);
    }
  }

  predicate IsQuiet(stage: Stage) {
    stage.MarkOnline? || stage.CacheOnline? || stage.Evaluate? || stage.StoreAlert?
  }

  lemma QuietAdvances(c: Config, s: State, w: nat, t: Telemetry)
    requires w < |s.stages| && IsQuiet(s.stages[w])
    ensures Advances(c, s, ApplyJob(c, s, w, t), w, [], [])
  {
    var s' := ApplyJob(c, s, w, t);
    assert s'.log == s.log || s'.log == s.log + [WentOnline(t.deviceId)];
    LogAppend(c, s.log, WentOnline(t.deviceId), w);
  }

  /** An action of a job adds to the worker's script, or publishes what comes next on it, or neither. */
  lemma JobAdvances(c: Config, s: State, w: nat, t: Telemetry) returns (added: seq<Event>, published: seq<Event>)
    requires w < |s.stages| && !s.stages[w].Finished?
    ensures Advances(c, s, ApplyJob(c, s, w, t), w, added, published)
    ensures var was := Remaining(c, Pool.Running(t), s.stages[w]);
            was + added == published + Remaining(c, Pool.Running(t), ApplyJob(c, s, w, t).stages[w])
  {
    if s.stages[w].Persist? {
      PersistAdvances(c, s, w, t);
      added, published := Remaining(c, Pool.Running(t), ApplyJob(c, s, w, t).stages[w]), [];
    } else if s.stages[w].PublishSample? {
      SampleAdvances(c, s, w, t);
      added, published := [], [TelemetryEvent(t)];
    } else if s.stages[w].PublishAlert? {
      AlertAdvances(c, s, w, t);
      var pending := s.stages[w].pending;
      added, published := [], if pending == [] then [] else [AlertEvent(pending[0])];
      assert pending != [] ==> Alerts.AlertEvents(pending) == published + Alerts.AlertEvents(pending[1..]);
    } else {
      QuietAdvances(c, s, w, t);
      added, published := [], [];
    }
  }

  lemma OneFurther(script: seq<Event>, done: seq<Event>, was: seq<Event>, added: seq<Event>, published: seq<Event>,
                   now: seq<Event>)
    requires script == done + was && was + added == published + now
    ensures script + added == done + published + now
  {
    assert done + was + added == done + (was + added);
  }

  lemma JobOnScript(c: Config, s: State, w: nat)
    requires OnScript(c, s, w) && Enabled(s, JobStep(w))
    ensures OnScript(c, Apply(c, s, JobStep(w)), w)
  {
    var p, s' := s.pool.phases[w], Apply(c, s, JobStep(w));
    JobKeepsPool(c, s, w);
    var added, published := JobAdvances(c, s, w, p.job);
    OneFurther(Script(c, s.log, w), PublishedBy(s.log, w), Remaining(c, p, s.stages[w]), added, published,
               Remaining(c, p, s'.stages[w]));
  }

  /** What somebody else's entry in the log does to a worker's books: nothing. */
  lemma AsideOnScript(c: Config, s: State, s': State, w: nat)
    requires OnScript(c, s, w) && |s'.stages| == |s'.pool.phases|
    requires Left(c, s, w) == Left(c, s', w)
    requires s'.log == s.log || (s'.log != [] && s'.log == s.log + [Last(s'.log)])
    requires s'.log != s.log && (Last(s'.log).Published? || Last(s'.log).Persisted?) ==> Last(s'.log).w != w
    ensures OnScript(c, s', w)
  {
    if s'.log != s.log {
      LogAppend(c, s.log, Last(s'.log), w);
    }
  }

  lemma OtherWorkerOnScript(c: Config, s: State, v: nat, w: nat)
    requires OnScript(c, s, w) && Enabled(s, JobStep(v)) && v != w
    ensures OnScript(c, Apply(c, s, JobStep(v)), w)
  {
    var s', e := JobCases(c, s, v);
    AsideOnScript(c, s, s', w);
  }

  lemma PoolOnScript(c: Config, s: State, l: Label, w: nat)
    requires OnScript(c, s, w) && Enabled(s, l) && l.PoolStep?
    ensures OnScript(c, Apply(c, s, l), w)
  {
    PoolLeaves(c, s, l, w);
    AsideOnScript(c, s, Apply(c, s, l), w);
  }

  /** A worker between jobs, or at the start of one, has nothing left to publish. */
  lemma PoolLeaves(c: Config, s: State, l: Label, w: nat)
    requires Enabled(s, l) && l.PoolStep? && |s.stages| == |s.pool.phases|
    ensures Left(c, s, w) == Left(c, Apply(c, s, l), w)
  {
  }

  lemma OthersOnScript(c: Config, s: State, l: Label, w: nat)
    requires OnScript(c, s, w) && Enabled(s, l) && !l.JobStep? && !l.PoolStep?
    ensures OnScript(c, Apply(c, s, l), w)
  {
    if l.ScanStep? {
      ScanCases(c, s);
    }
    AsideOnScript(c, s, Apply(c, s, l), w);
  }

  lemma {:induction false} AlwaysOnScript(c: Config, workers: int, queueSize: int, run: seq<Label>, s: State, w: nat)
    requires Exec(c, Init(workers, queueSize), run) == Some(s)
    ensures OnScript(c, s, w)
  {
    if run != [] {
      var before, l := Exec(c, Init(workers, queueSize), Front(run)).value, Last(run);
      AlwaysOnScript(c, workers, queueSize, Front(run), before, w);
      if l.JobStep? && l.w == w {
        JobOnScript(c, before, w);
      } else if l.JobStep? {
        OtherWorkerOnScript(c, before, l.w, w);
      } else if l.PoolStep? {
        PoolOnScript(c, before, l, w);
      } else {
        OthersOnScript(c, before, l, w);
      }
    }
  }

  function Tagged(w: nat, events: seq<Event>): seq<Hub.Msg<Event>> {
    seq(|events|, i requires 0 <= i < |events| => Hub.Msg(w, events[i]))
  }

  lemma {:induction false} PrefixSubsequence<T>(a: seq<T>, b: seq<T>)
    ensures Subsequence(a, a + b)
  {
    if b != [] {
      PrefixSubsequence(a, Front(b));
      SubsequenceExtend(a, a + Front(b), Last(b));
      assert a + Front(b) + [Last(b)] == a + b;
    } else {
      assert a + b == a;
      ReflexiveSubsequence(a);
    }
  }

  lemma {:induction false} ReflexiveSubsequence<T>(a: seq<T>)
    ensures Subsequence(a, a)
  {
    if a != [] {
      ReflexiveSubsequence(Front(a));
    }
  }

  lemma TaggedPrefix(w: nat, all: seq<Event>, done: seq<Event>, rest: seq<Event>)
    requires all == done + rest
    ensures Subsequence(Tagged(w, done), Tagged(w, all))
  {
    PrefixSubsequence(Tagged(w, done), Tagged(w, rest));
    assert Tagged(w, all) == Tagged(w, done) + Tagged(w, rest);
  }

  // ---------------------------------------------------------------- the pipeline and the hub together

  datatype Joint = Joint(pipe: State, hub: Hub.State<Event>)

  /** An action of one of the two, or of both when a worker begins a broadcast. Hub goroutines below the number of
      workers are the workers; the reconciler and the handlers are others. */
  datatype Action =
    | Internal(l: Label)
    | Begin(w: nat, event: Event)
    | InHub(h: Hub.Label<Event>)

  /** What a worker would publish in its next action. */
  function NextEvent(s: State, w: nat): Option<Event>
    requires w < |s.stages| && w < |s.pool.phases| && s.pool.phases[w].Running?
  {
    match s.stages[w]
    case PublishSample => Some(TelemetryEvent(s.pool.phases[w].job))
    case PublishAlert(pending) => if pending == [] then None else Some(AlertEvent(pending[0]))
    case _ => None
  }

  /** A worker goes on with its job only after its broadcast has returned. */
  ghost predicate Possible(j: Joint, a: Action) {
    match a
    case Internal(l) =>
      Enabled(j.pipe, l) && (l.JobStep? ==> NextEvent(j.pipe, l.w) == None && l.w !in j.hub.readers)
    case Begin(w, event) =>
      && Enabled(j.pipe, JobStep(w)) && NextEvent(j.pipe, w) == Some(event)
      && Hub.Enabled(j.hub, Hub.ReadLock(Hub.Msg(w, event)))
    case InHub(h) => Hub.Enabled(j.hub, h) && (h.ReadLock? ==> h.msg.from >= j.pipe.pool.workers)
  }

  ghost function Act(c: Config, j: Joint, a: Action): Joint
    requires Possible(j, a)
  {
    match a
    case Internal(l) => j.(pipe := Apply(c, j.pipe, l))
    case Begin(w, event) => Joint(Apply(c, j.pipe, JobStep(w)), Hub.Apply(j.hub, Hub.ReadLock(Hub.Msg(w, event))))
    case InHub(h) => j.(hub := Hub.Apply(j.hub, h))
  }

  ghost function Perform(c: Config, j0: Joint, run: seq<Action>): Option<Joint> {
    if run == [] then Some(j0) else
      var before := Perform(c, j0, Front(run));
      if before.Some? && Possible(before.value, Last(run)) then Some(Act(c, before.value, Last(run))) else None
  }

  function PipePart(run: seq<Action>): seq<Label> {
    if run == [] then [] else AndPipe(PipePart(Front(run)), Last(run))
  }

  function AndPipe(run: seq<Label>, a: Action): seq<Label> {
    match a
    case Internal(l) => run + [l]
    case Begin(w, _) => run + [JobStep(w)]
    case InHub(_) => run
  }

  function HubPart(run: seq<Action>): seq<Hub.Label<Event>> {
    if run == [] then [] else AndHub(HubPart(Front(run)), Last(run))
  }

  function AndHub(run: seq<Hub.Label<Event>>, a: Action): seq<Hub.Label<Event>> {
    match a
    case Internal(_) => run
    case Begin(w, event) => run + [Hub.ReadLock(Hub.Msg(w, event))]
    case InHub(h) => run + [h]
  }

  /** A joint state reached by these two runs, in which the hub has begun each worker's broadcasts and no others of
      it. */
  ghost predicate Coupled(c: Config, workers: int, queueSize: int, bufferSize: int, j: Joint,
                          pipeRun: seq<Label>, hubRun: seq<Hub.Label<Event>>) {
    && Exec(c, Init(workers, queueSize), pipeRun) == Some(j.pipe)
    && Hub.Exec(Hub.Init(bufferSize), hubRun) == Some(j.hub)
    && j.pipe.pool.workers == Init(workers, queueSize).pool.workers
    && forall w :: 0 <= w < j.pipe.pool.workers ==> Hub.Published(hubRun, w) == Tagged(w, PublishedBy(j.pipe.log, w))
  }

  /** Only a publishing action of a worker adds to what it has published. */
  lemma PublishesOnlyNext(c: Config, s: State, l: Label, w: nat)
    requires Enabled(s, l)
    ensures PublishedBy(Apply(c, s, l).log, w)
         == PublishedBy(s.log, w) + if l == JobStep(w) && NextEvent(s, w).Some? then [NextEvent(s, w).value] else []
  {
    var s' := Apply(c, s, l);
    if l.JobStep? {
      var _, _ := JobCases(c, s, l.w);
    } else if l.ScanStep? {
      ScanCases(c, s);
    }
    if s'.log != s.log {
      LogAppend(c, s.log, Last(s'.log), w);
    }
  }

  lemma WorkersFixed(c: Config, s: State, l: Label)
    requires Enabled(s, l)
    ensures Apply(c, s, l).pool.workers == s.pool.workers
  {
    if l.JobStep? {
      JobKeepsPool(c, s, l.w);
    } else if l.ScanStep? {
      ScanKeepsPool(c, s);
    }
  }

  lemma HubGoes(h0: Hub.State<Event>, run: seq<Hub.Label<Event>>, h: Hub.State<Event>, l: Hub.Label<Event>, w: nat)
    requires Hub.Exec(h0, run) == Some(h) && Hub.Enabled(h, l)
    ensures Hub.Exec(h0, run + [l]) == Some(Hub.Apply(h, l))
    ensures Hub.Published(run + [l], w)
         == Hub.Published(run, w) + if l.ReadLock? && l.msg.from == w then [l.msg] else []
  {
    assert Front(run + [l]) == run;
  }

  lemma InternalCoupled(c: Config, workers: int, queueSize: int, bufferSize: int, j: Joint,
                        pipeRun: seq<Label>, hubRun: seq<Hub.Label<Event>>, l: Label)
    requires Coupled(c, workers, queueSize, bufferSize, j, pipeRun, hubRun) && Possible(j, Internal(l))
    ensures Coupled(c, workers, queueSize, bufferSize, Act(c, j, Internal(l)), pipeRun + [l], hubRun)
  {
    var _, _ := Go(c, Init(workers, queueSize), pipeRun, j.pipe, l);
    WorkersFixed(c, j.pipe, l);
    forall w | 0 <= w < j.pipe.pool.workers
      ensures Hub.Published(hubRun, w) == Tagged(w, PublishedBy(Apply(c, j.pipe, l).log, w))
    {
      PublishesOnlyNext(c, j.pipe, l, w);
    }
  }

  lemma BeginCoupled(c: Config, workers: int, queueSize: int, bufferSize: int, j: Joint,
                     pipeRun: seq<Label>, hubRun: seq<Hub.Label<Event>>, w: nat, event: Event)
    requires Coupled(c, workers, queueSize, bufferSize, j, pipeRun, hubRun) && Possible(j, Begin(w, event))
    ensures Coupled(c, workers, queueSize, bufferSize, Act(c, j, Begin(w, event)), pipeRun + [JobStep(w)],
                    hubRun + [Hub.ReadLock(Hub.Msg(w, event))])
  {
    var h := Hub.ReadLock(Hub.Msg(w, event));
    var _, _ := Go(c, Init(workers, queueSize), pipeRun, j.pipe, JobStep(w));
    WorkersFixed(c, j.pipe, JobStep(w));
    HubGoes(Hub.Init(bufferSize), hubRun, j.hub, h, w);
    forall v | 0 <= v < j.pipe.pool.workers
      ensures Hub.Published(hubRun + [h], v) == Tagged(v, PublishedBy(Apply(c, j.pipe, JobStep(w)).log, v))
    {
      HubGoes(Hub.Init(bufferSize), hubRun, j.hub, h, v);
      PublishesOnlyNext(c, j.pipe, JobStep(w), v);
    }
  }

  lemma InHubCoupled(c: Config, workers: int, queueSize: int, bufferSize: int, j: Joint,
                     pipeRun: seq<Label>, hubRun: seq<Hub.Label<Event>>, h: Hub.Label<Event>)
    requires Coupled(c, workers, queueSize, bufferSize, j, pipeRun, hubRun) && Possible(j, InHub(h))
    ensures Coupled(c, workers, queueSize, bufferSize, Act(c, j, InHub(h)), pipeRun, hubRun + [h])
  {
    HubGoes(Hub.Init(bufferSize), hubRun, j.hub, h, 0);
    forall w | 0 <= w < j.pipe.pool.workers
      ensures Hub.Published(hubRun + [h], w) == Tagged(w, PublishedBy(j.pipe.log, w))
    {
      HubGoes(Hub.Init(bufferSize), hubRun, j.hub, h, w);
    }
  }

  lemma CoupledStep(c: Config, workers: int, queueSize: int, bufferSize: int, j: Joint,
                    pipeRun: seq<Label>, hubRun: seq<Hub.Label<Event>>, a: Action)
    requires Coupled(c, workers, queueSize, bufferSize, j, pipeRun, hubRun) && Possible(j, a)
    ensures Coupled(c, workers, queueSize, bufferSize, Act(c, j, a), AndPipe(pipeRun, a), AndHub(hubRun, a))
  {
    match a
    case Internal(l) => InternalCoupled(c, workers, queueSize, bufferSize, j, pipeRun, hubRun, l);
    case Begin(w, event) => BeginCoupled(c, workers, queueSize, bufferSize, j, pipeRun, hubRun, w, event);
    case InHub(h) => InHubCoupled(c, workers, queueSize, bufferSize, j, pipeRun, hubRun, h);
  }

  /** Together, the pipeline runs as a pipeline and the hub as a hub, which is given what the workers publish. */
  lemma {:induction false} AlwaysCoupled(c: Config, workers: int, queueSize: int, bufferSize: int, run: seq<Action>,
                                         j: Joint)
    requires Perform(c, Joint(Init(workers, queueSize), Hub.Init(bufferSize)), run) == Some(j)
    ensures Coupled(c, workers, queueSize, bufferSize, j, PipePart(run), HubPart(run))
  {
    if run != [] {
      var before := Perform(c, Joint(Init(workers, queueSize), Hub.Init(bufferSize)), Front(run)).value;
      AlwaysCoupled(c, workers, queueSize, bufferSize, Front(run), before);
      CoupledStep(c, workers, queueSize, bufferSize, before, PipePart(Front(run)), HubPart(Front(run)), Last(run));
    }
  }

  /** What a subscriber has received from one goroutine, or has waiting. */
  function Gets(j: Joint, run: seq<Action>, ch: nat, w: nat): seq<Hub.Msg<Event>>
    requires ch in j.hub.chans
  {
    Hub.From(Hub.Received(HubPart(run), ch) + j.hub.chans[ch].buffer, w)
  }

  /** In every run of pipeline and hub together, what a subscriber gets from a worker keeps the order of its jobs, and
      within each job the sample first and then the alerts in rule order; slowness only leaves gaps. */
  lemma SubscribersSeeJobOrder(c: Config, workers: int, queueSize: int, bufferSize: int, run: seq<Action>, j: Joint,
                               w: nat, ch: nat)
    requires Perform(c, Joint(Init(workers, queueSize), Hub.Init(bufferSize)), run) == Some(j)
    requires w < j.pipe.pool.workers && ch in j.hub.chans
    ensures Subsequence(Gets(j, run, ch, w), Tagged(w, Script(c, j.pipe.log, w)))
  {
    AlwaysCoupled(c, workers, queueSize, bufferSize, run, j);
    AlwaysOnScript(c, workers, queueSize, PipePart(run), j.pipe, w);
    var script, done := Script(c, j.pipe.log, w), PublishedBy(j.pipe.log, w);
    TaggedPrefix(w, script, done, script[|done|..]);
    Hub.Delivery(bufferSize, HubPart(run), j.hub, ch, w);
    SubsequenceTransitive(Gets(j, run, ch, w), Tagged(w, done), Tagged(w, script));
  }
}
