/** The status cache under interleaving. Every status is written to the store first and to the cache in a later
    action, so the cache can be left telling an overtaken status: here is exactly when. */
module CacheRaces {
  import opened Models
  import opened Sequences
  import opened Pipeline
  import Store
  import Service
  import Status
  import Scenes

  /** The pipeline with its cache. `registering` holds devices whose registration has not yet written the cache;
      `truthful` is a history variable: the devices whose last cache write said what the store held at that moment. */
  datatype World = World(pipe: State, cache: Service.Cache, registering: set<string>, truthful: set<string>)

  function Start(workers: int, queueSize: int): World {
    World(Init(workers, queueSize), map[], {}, {})
  }

  datatype Action =
    | Step(l: Label)
    | CacheRegistered(id: string)          // the cache write of RegisterDevice
    | Expire(ids: set<string>)

  ghost predicate Possible(w: World, a: Action) {
    match a
    case Step(l) => Enabled(w.pipe, l)
    case CacheRegistered(id) => id in w.registering
    case Expire(_) => true
  }

  datatype Write = Write(id: string, entry: Service.CacheEntry)

  /** The cache write that a pipeline action is, if it is one. */
  function CacheWrite(s: State, l: Label): Option<Write> {
    if l.JobStep? && l.w < |s.stages| && l.w < |s.pool.phases| && s.pool.phases[l.w].Running?
       && s.stages[l.w].CacheOnline?
    then
      var t := s.pool.phases[l.w].job;
      Some(Write(t.deviceId, Service.CacheEntry(Online, t.timestamp)))
    else if l.ScanStep? && s.reconciler.CachingOffline? then
      Some(Write(s.reconciler.id, Service.CacheEntry(Offline, ZERO_TIME)))
    else None
  }

  function WriteOf(s: State, a: Action): Option<Write> {
    match a
    case Step(l) => CacheWrite(s, l)
    case CacheRegistered(id) => Some(Write(id, Service.CacheEntry(Unknown, ZERO_TIME)))
    case Expire(_) => None
  }

  ghost predicate Fits(s: Store.State, x: Write) {
    x.id in s.devices ==> Service.Tells(x.entry, s.devices[x.id])
  }

  ghost function Written(w: World, x: Write): World {
    w.(cache := w.cache[x.id := x.entry],
       truthful := if Fits(w.pipe.store, x) then w.truthful + {x.id} else w.truthful - {x.id})
  }

  ghost function Act(c: Config, w: World, a: Action): World
    requires Possible(w, a)
  {
    var after := if WriteOf(w.pipe, a).Some? then Written(w, WriteOf(w.pipe, a).value) else w;
    match a
    case Step(l) =>
      after.(pipe := Apply(c, w.pipe, l),
             registering := if l.Register? then w.registering + {l.device.id} else w.registering)
    case CacheRegistered(id) => after.(registering := w.registering - {id})
    case Expire(ids) => after.(cache := w.cache - ids)
  }

  ghost function Run(c: Config, w0: World, run: seq<Action>): Option<World> {
    if run == [] then Some(w0) else
      var before := Run(c, w0, Front(run));
      if before.Some? && Possible(before.value, Last(run)) then Some(Act(c, before.value, Last(run))) else None
  }

  // ---------------------------------------------------------------- the invariant

  /** The worker is about to write the device's status to the cache. */
  predicate AboutToCache(s: State, v: nat, id: string) {
    && v < |s.stages| && v < |s.pool.phases| && s.pool.phases[v].Running?
    && s.stages[v].CacheOnline? && s.pool.phases[v].job.deviceId == id
  }

  /** Some cache write for the device is still to come. */
  ghost predicate WriteDue(w: World, id: string) {
    || id in w.registering
    || (w.pipe.reconciler.CachingOffline? && w.pipe.reconciler.id == id)
    || exists v: nat :: AboutToCache(w.pipe, v, id)
  }

  ghost predicate Told(w: World, id: string)
    requires id in w.cache && id in w.pipe.store.devices
  {
    Service.Tells(w.cache[id], w.pipe.store.devices[id])
  }

  /** With no write to come, the entry tells the record exactly if its write did when it was made. */
  ghost predicate Settled(w: World, id: string) {
    id in w.cache && id in w.pipe.store.devices && !WriteDue(w, id) ==> (Told(w, id) <==> id in w.truthful)
  }

  ghost predicate Sound(w: World) {
    Status.Known(w.pipe) && forall id :: Settled(w, id)
  }

  /** What a device's record tells about its status is the same before and after. */
  ghost predicate SameStatus(s: Store.State, s': Store.State, id: string) {
    id in s'.devices ==> id in s.devices && s'.devices[id].status == s.devices[id].status
                         && s'.devices[id].lastSeenAt == s.devices[id].lastSeenAt
  }

  // ---------------------------------------------------------------- marks and writes

  function OnlineWrite(t: Telemetry): Write {
    Write(t.deviceId, Service.CacheEntry(Online, t.timestamp))
  }

  /** The mark that the action makes, if it makes one: a status for the store, with this cache write to come. */
  function Mark(c: Config, s: State, a: Action): Option<Write> {
    if !a.Step? then None
    else if a.l.Register? then Some(Write(a.l.device.id, Service.CacheEntry(Unknown, ZERO_TIME)))
    else if a.l.JobStep? && a.l.w < |s.stages| && a.l.w < |s.pool.phases| && s.pool.phases[a.l.w].Running?
            && s.stages[a.l.w].MarkOnline?
    then Some(OnlineWrite(s.pool.phases[a.l.w].job))
    else if a.l.ScanStep? && s.reconciler.Scanning? && s.reconciler.todo != []
            && LooksSilent(c.offlineAfter, s.reconciler.now, s.reconciler.todo[0])
            && s.reconciler.todo[0].id in s.store.devices
    then Some(Write(s.reconciler.todo[0].id, Service.CacheEntry(Offline, ZERO_TIME)))
    else None
  }

  ghost predicate MarksNow(c: Config, s: State, a: Action, id: string) {
    Mark(c, s, a).Some? && Mark(c, s, a).value.id == id
  }

  lemma JobStageAfter(c: Config, s: State, v: nat)
    requires Enabled(s, JobStep(v))
    ensures var s' := Apply(c, s, JobStep(v));
            && (s.stages[v].MarkOnline? ==> s'.stages[v].CacheOnline?)
            && OnlyWorker(s, s', v)
            && (!s.stages[v].MarkOnline? ==> s'.store.devices == s.store.devices)
            && forall id :: id != s.pool.phases[v].job.deviceId ==> SameStatus(s.store, s'.store, id)
  {
    var s', e := JobCases(c, s, v);
  }

  lemma MarkLeavesDue(c: Config, w: World, a: Action)
    requires Possible(w, a) && Mark(c, w.pipe, a).Some?
    ensures WriteDue(Act(c, w, a), Mark(c, w.pipe, a).value.id)
  {
    if a.l.JobStep? {
      JobStageAfter(c, w.pipe, a.l.w);
      assert AboutToCache(Act(c, w, a).pipe, a.l.w, Mark(c, w.pipe, a).value.id);
    }
  }

  /** Unless the action marks a device, what it tells about its status stays, and so do the writes due that it does
      not make. */
  lemma Unmarked(c: Config, w: World, a: Action, id: string)
    requires Possible(w, a) && !MarksNow(c, w.pipe, a, id)
    ensures SameStatus(w.pipe.store, Act(c, w, a).pipe.store, id)
  {
    if a.Step? && a.l.JobStep? {
      var s', e := JobCases(c, w.pipe, a.l.w);
    }
  }

  lemma StaysDue(c: Config, w: World, a: Action, id: string)
    requires Possible(w, a) && WriteDue(w, id) && !(WriteOf(w.pipe, a).Some? && WriteOf(w.pipe, a).value.id == id)
    ensures WriteDue(Act(c, w, a), id)
  {
    var w' := Act(c, w, a);
    if a.Step? && a.l.JobStep? {
      JobStageAfter(c, w.pipe, a.l.w);
    }
    if v: nat :| AboutToCache(w.pipe, v, id) {
      assert AboutToCache(w'.pipe, v, id);
    }
  }

  lemma SettledStep(c: Config, w: World, a: Action, id: string)
    requires Sound(w) && Possible(w, a)
    ensures Settled(Act(c, w, a), id)
  {
    assert Settled(w, id);
    if MarksNow(c, w.pipe, a, id) {
      MarkLeavesDue(c, w, a);
    } else {
      Unmarked(c, w, a, id);
      if WriteOf(w.pipe, a).Some? && WriteOf(w.pipe, a).value.id == id {
        WroteSettles(c, w, a, WriteOf(w.pipe, a).value);
      } else if WriteDue(w, id) {
        StaysDue(c, w, a, id);
      }
    }
  }

  lemma WroteSettles(c: Config, w: World, a: Action, x: Write)
    requires Possible(w, a) && WriteOf(w.pipe, a) == Some(x) && SameStatus(w.pipe.store, Act(c, w, a).pipe.store, x.id)
    ensures Settled(Act(c, w, a), x.id)
  {
    var w' := Act(c, w, a);
    assert w'.cache[x.id] == x.entry && (x.id in w'.truthful <==> Fits(w.pipe.store, x));
  }

  lemma SoundStep(c: Config, w: World, a: Action)
    requires Sound(w) && Possible(w, a)
    ensures Sound(Act(c, w, a))
  {
    forall id ensures Settled(Act(c, w, a), id) {
      SettledStep(c, w, a, id);
    }
    if a.Step? {
      Status.KnownStep(c, w.pipe, a.l);
    }
  }

  lemma {:induction false} AlwaysSound(c: Config, workers: int, queueSize: int, run: seq<Action>, w: World)
    requires Run(c, Start(workers, queueSize), run) == Some(w)
    ensures Sound(w)
  {
    if run != [] {
      var before := Run(c, Start(workers, queueSize), Front(run)).value;
      AlwaysSound(c, workers, queueSize, Front(run), before);
      SoundStep(c, before, Last(run));
    }
  }

  /** However registrations, workers, the reconciler, deletions and expiries interleave: once no cache write for a
      device is to come, GetDevice returns what the store holds if and only if the entry has expired or its write,
      when it was made, said what the store held. */
  lemma OverlayExactAtRest(c: Config, workers: int, queueSize: int, run: seq<Action>, w: World, id: string)
    requires Run(c, Start(workers, queueSize), run) == Some(w)
    requires id in w.pipe.store.devices && !WriteDue(w, id)
    ensures var d := w.pipe.store.devices[id];
            Service.Overlay(d, w.cache) == d <==> (id in w.cache ==> id in w.truthful)
  {
    AlwaysSound(c, workers, queueSize, run, w);
    assert Settled(w, id);
    Service.OverlayExact(w.pipe.store.devices[id], w.cache);
  }

  ghost predicate CachedOrDue(w: World, id: string) {
    id in w.pipe.store.devices ==> id in w.cache || WriteDue(w, id)
  }

  lemma CachedStep(c: Config, w: World, a: Action, id: string)
    requires Possible(w, a) && CachedOrDue(w, id) && !(a.Expire? && id in a.ids)
    ensures CachedOrDue(Act(c, w, a), id)
  {
    if MarksNow(c, w.pipe, a, id) {
      MarkLeavesDue(c, w, a);
    } else if !(WriteOf(w.pipe, a).Some? && WriteOf(w.pipe, a).value.id == id) {
      Unmarked(c, w, a, id);
      if WriteDue(w, id) {
        StaysDue(c, w, a, id);
      }
    }
  }

  /** Unless its entry expires, an existing device has one once no write for it is to come. */
  lemma {:induction false} CachedUnlessExpired(c: Config, workers: int, queueSize: int, run: seq<Action>, w: World,
                                               id: string)
    requires Run(c, Start(workers, queueSize), run) == Some(w)
    requires forall i :: 0 <= i < |run| ==> !(run[i].Expire? && id in run[i].ids)
    ensures id in w.pipe.store.devices ==> id in w.cache || WriteDue(w, id)
  {
    if run != [] {
      var before := Run(c, Start(workers, queueSize), Front(run)).value;
      CachedUnlessExpired(c, workers, queueSize, Front(run), before, id);
      CachedStep(c, before, Last(run), id);
    }
  }

  // ---------------------------------------------------------------- marks that do not overlap

  /** A cache write that some goroutine is about to make. */
  ghost predicate DueWrite(w: World, x: Write) {
    || (x.id in w.registering && x == Write(x.id, Service.CacheEntry(Unknown, ZERO_TIME)))
    || (w.pipe.reconciler.CachingOffline? && x == Write(w.pipe.reconciler.id, Service.CacheEntry(Offline, ZERO_TIME)))
    || exists v: nat :: AboutToCache(w.pipe, v, x.id) && x == OnlineWrite(w.pipe.pool.phases[v].job)
  }

  /** At no point of the run is the device marked while the cache write of an earlier mark is still to come. What
      happens to other devices may overlap anyhow. */
  ghost predicate Orderly(c: Config, w0: World, run: seq<Action>, id: string) {
    if run == [] then true else
      && Orderly(c, w0, Front(run), id)
      && (Run(c, w0, Front(run)).Some? && MarksNow(c, Run(c, w0, Front(run)).value.pipe, Last(run), id) ==>
            !WriteDue(Run(c, w0, Front(run)).value, id))
  }

  /** The writes to come, and with none to come the entry, say what the record says. */
  ghost predicate InTune(w: World, id: string) {
    id in w.pipe.store.devices ==>
      && (forall x: Write :: x.id == id && DueWrite(w, x) ==> Fits(w.pipe.store, x))
      && (!WriteDue(w, id) && id in w.cache ==> Told(w, id))
  }

  lemma DueAfterJob(c: Config, w: World, v: nat, y: Write)
    requires Possible(w, Step(JobStep(v))) && DueWrite(Act(c, w, Step(JobStep(v))), y)
    ensures DueWrite(w, y) || Mark(c, w.pipe, Step(JobStep(v))) == Some(y)
  {
    var w' := Act(c, w, Step(JobStep(v)));
    JobKeepsPool(c, w.pipe, v);
    if u: nat :| AboutToCache(w'.pipe, u, y.id) && y == OnlineWrite(w'.pipe.pool.phases[u].job) {
      assert u != v ==> AboutToCache(w.pipe, u, y.id);
    }
  }

  /** Only a job's own action brings it to its cache write. */
  lemma CachersBefore(c: Config, w: World, a: Action, u: nat, id: string)
    requires Possible(w, a) && (a.Step? ==> !a.l.JobStep?) && AboutToCache(Act(c, w, a).pipe, u, id)
    ensures AboutToCache(w.pipe, u, id) && Act(c, w, a).pipe.pool.phases[u].job == w.pipe.pool.phases[u].job
  {
    if a.Step? && a.l.ScanStep? {
      ScanKeepsPool(c, w.pipe);
    }
  }

  lemma DueAfterOthers(c: Config, w: World, a: Action, y: Write)
    requires Possible(w, a) && (a.Step? ==> !a.l.JobStep?) && DueWrite(Act(c, w, a), y)
    ensures DueWrite(w, y) || Mark(c, w.pipe, a) == Some(y)
  {
    var w' := Act(c, w, a);
    if u: nat :| AboutToCache(w'.pipe, u, y.id) && y == OnlineWrite(w'.pipe.pool.phases[u].job) {
      CachersBefore(c, w, a, u, y.id);
    }
  }

  lemma DueAfter(c: Config, w: World, a: Action, y: Write)
    requires Possible(w, a) && DueWrite(Act(c, w, a), y)
    ensures DueWrite(w, y) || Mark(c, w.pipe, a) == Some(y)
  {
    if a.Step? && a.l.JobStep? {
      DueAfterJob(c, w, a.l.w, y);
    } else {
      DueAfterOthers(c, w, a, y);
    }
  }

  /** A mark puts into the store what its cache write will say. */
  lemma MarkFits(c: Config, w: World, a: Action)
    requires Sound(w) && Possible(w, a) && Mark(c, w.pipe, a).Some?
    ensures Fits(Act(c, w, a).pipe.store, Mark(c, w.pipe, a).value)
  {
  }

  lemma MarkInTune(c: Config, w: World, a: Action, id: string)
    requires Sound(w) && Possible(w, a) && MarksNow(c, w.pipe, a, id) && !WriteDue(w, id)
    ensures InTune(Act(c, w, a), id)
  {
    var w' := Act(c, w, a);
    MarkFits(c, w, a);
    forall x: Write | x.id == id && DueWrite(w', x) ensures Fits(w'.pipe.store, x) {
      DueAfter(c, w, a, x);
      assert DueWrite(w, x) ==> WriteDue(w, id);
    }
    MarkLeavesDue(c, w, a);
  }

  lemma UnmarkedInTune(c: Config, w: World, a: Action, id: string)
    requires InTune(w, id) && Possible(w, a) && !MarksNow(c, w.pipe, a, id)
    ensures InTune(Act(c, w, a), id)
  {
    var w' := Act(c, w, a);
    Unmarked(c, w, a, id);
    forall x: Write | x.id == id && DueWrite(w', x) ensures DueWrite(w, x) {
      DueAfter(c, w, a, x);
    }
    if WriteOf(w.pipe, a).Some? && WriteOf(w.pipe, a).value.id == id {
      assert DueWrite(w, WriteOf(w.pipe, a).value) by {
        if a.Step? && a.l.JobStep? {
          assert AboutToCache(w.pipe, a.l.w, id);
        }
      }
    } else if WriteDue(w, id) {
      StaysDue(c, w, a, id);
    }
  }

  lemma {:induction false} StaysInTune(c: Config, workers: int, queueSize: int, run: seq<Action>, w: World, id: string)
    requires Run(c, Start(workers, queueSize), run) == Some(w) && Orderly(c, Start(workers, queueSize), run, id)
    ensures InTune(w, id)
  {
    if run != [] {
      var before, a := Run(c, Start(workers, queueSize), Front(run)).value, Last(run);
      StaysInTune(c, workers, queueSize, Front(run), before, id);
      AlwaysSound(c, workers, queueSize, Front(run), before);
      if MarksNow(c, before.pipe, a, id) {
        MarkInTune(c, before, a, id);
      } else {
        UnmarkedInTune(c, before, a, id);
      }
    }
  }

  /** If a device is never marked between a mark and its cache write, then however other devices interleave, GetDevice
      returns what the store holds whenever no cache write for the device is to come. */
  lemma OverlayExactWhenOrderly(c: Config, workers: int, queueSize: int, run: seq<Action>, w: World, id: string)
    requires Run(c, Start(workers, queueSize), run) == Some(w) && Orderly(c, Start(workers, queueSize), run, id)
    requires id in w.pipe.store.devices && !WriteDue(w, id)
    ensures Service.Overlay(w.pipe.store.devices[id], w.cache) == w.pipe.store.devices[id]
  {
    StaysInTune(c, workers, queueSize, run, w, id);
    AlwaysSound(c, workers, queueSize, run, w);
    Service.OverlayExact(w.pipe.store.devices[id], w.cache);
  }

  // ---------------------------------------------------------------- and it does happen

  /** A pipeline run, with the cache following it and each registration writing the cache at once. */
  lemma {:induction false} Follow(c: Config, workers: int, queueSize: int, run: seq<Label>, s: State)
    returns (actions: seq<Action>, w: World)
    requires Exec(c, Init(workers, queueSize), run) == Some(s)
    ensures Run(c, Start(workers, queueSize), actions) == Some(w) && w.pipe == s && w.registering == {}
  {
    if run == [] {
      return [], Start(workers, queueSize);
    }
    actions, w := Follow(c, workers, queueSize, Front(run), Exec(c, Init(workers, queueSize), Front(run)).value);
    actions, w := Go(c, Start(workers, queueSize), actions, w, Step(Last(run)));
    if Last(run).Register? {
      actions, w := Go(c, Start(workers, queueSize), actions, w, CacheRegistered(Last(run).device.id));
    }
  }

  lemma Go(c: Config, w0: World, run: seq<Action>, w: World, a: Action) returns (run': seq<Action>, w': World)
    requires Run(c, w0, run) == Some(w) && Possible(w, a)
    ensures run' == run + [a] && w' == Act(c, w, a) && Run(c, w0, run') == Some(w')
  {
    run', w' := run + [a], Act(c, w, a);
    assert Front(run') == run;
  }

  /** Under every configuration some run ends with no write to come, the device online in the store, and GetDevice
      saying Offline. */
  lemma OnlineShownOffline(c: Config, workers: int, queueSize: int, d: Device, t: Telemetry)
    returns (run: seq<Action>, w: World)
    requires Scenes.Casting(d, t)
    ensures Run(c, Start(workers, queueSize), run) == Some(w) && d.id in w.pipe.store.devices
    ensures w.pipe.store.devices[d.id].status == Online
    ensures Service.Overlay(w.pipe.store.devices[d.id], w.cache).status == Offline
    ensures !WriteDue(w, d.id)
  {
    var plan, s := Scenes.SlipsIn(c, workers, queueSize, d, t);
    run, w := Follow(c, workers, queueSize, plan, s);
    run, w := Go(c, Start(workers, queueSize), run, w, Step(JobStep(0)));
    run, w := Go(c, Start(workers, queueSize), run, w, Step(ScanStep));
  }
}
