/** When a status event is followed by another one for the same device only after telemetry put the device online. */
module Announcements {
  import opened Models
  import opened Sequences
  import opened Pipeline
  import opened Status
  import Store
  import Scenes

  // ---------------------------------------------------------------- runs and their logs

  lemma LogGrowsBy(c: Config, s: State, l: Label)
    requires Enabled(s, l)
    ensures s.log <= Apply(c, s, l).log
  {
    if l.JobStep? {
      var s', e := JobCases(c, s, l.w);
    } else if l.ScanStep? {
      ScanCases(c, s);
    }
  }

  lemma {:induction false} LogGrows(c: Config, s: State, run: seq<Label>, s': State)
    requires Exec(c, s, run) == Some(s')
    ensures s.log <= s'.log
  {
    if run != [] {
      LogGrows(c, s, Front(run), Exec(c, s, Front(run)).value);
      LogGrowsBy(c, Exec(c, s, Front(run)).value, Last(run));
    }
  }

  // ---------------------------------------------------------------- offline when announced: online must come first

  ghost predicate Gone(s: State, id: string) {
    Known(s) && id in s.used && id !in s.store.devices
  }

  lemma GoneStep(c: Config, s: State, l: Label, id: string)
    requires Gone(s, id) && Enabled(s, l)
    ensures var s' := Apply(c, s, l);
            Gone(s', id) && (s'.log == s.log
                || (s'.log != [] && s'.log == s.log + [Last(s'.log)] && Last(s'.log) != WentOffline(id)))
  {
    KnownStep(c, s, l);
    if l.JobStep? {
      var s', e := JobCases(c, s, l.w);
    } else if l.ScanStep? {
      ScanCases(c, s);
    }
  }

  /** A deleted device is not marked again. */
  lemma {:induction false} GoneForGood(c: Config, s: State, run: seq<Label>, s': State, id: string)
    requires Gone(s, id) && Exec(c, s, run) == Some(s')
    ensures Gone(s', id) && |s.log| <= |s'.log| && forall k :: |s.log| <= k < |s'.log| ==> s'.log[k] != WentOffline(id)
  {
    if run != [] {
      GoneForGood(c, s, Front(run), Exec(c, s, Front(run)).value, id);
      GoneStep(c, Exec(c, s, Front(run)).value, Last(run), id);
    }
  }

  /** The reconciler is about to announce that the device went offline. */
  ghost predicate About(c: Config, workers: int, queueSize: int, run: seq<Label>, s: State, id: string) {
    Exec(c, Init(workers, queueSize), run) == Some(s) && s.reconciler.Announcing? && s.reconciler.id == id
  }

  lemma AfterAnnouncing(c: Config, workers: int, queueSize: int, run: seq<Label>, s: State, id: string)
    returns (s1: State)
    requires About(c, workers, queueSize, run, s, id)
    ensures s1 == Apply(c, s, ScanStep) && Exec(c, Init(workers, queueSize), run + [ScanStep]) == Some(s1)
    ensures s1.log == s.log + [Announced(id)] && s1.store == s.store && s1.used == s.used
    ensures Known(s1) && Watched(s1) && s1.reconciler.Scanning? && s1.reconciler.todo == s.reconciler.todo
    ensures forall d :: d in s1.reconciler.Ahead() ==> d.id != id
    ensures id in s.used && (Awaiting(s1.log, id) <==> Awaiting(s.log, id))
  {
    s1 := Apply(c, s, ScanStep);
    AlwaysMarked(c, workers, queueSize, run, s);
    OneStep(c, s, ScanStep);
    ExecAppend(c, Init(workers, queueSize), run, s, [ScanStep], s1);
    AlwaysKnown(c, workers, queueSize, run + [ScanStep], s1);
    AlwaysMarked(c, workers, queueSize, run + [ScanStep], s1);
    AwaitingAppend(s.log, Announced(id), id);
    AlwaysKnown(c, workers, queueSize, run, s);
  }

  ghost predicate SaidOffline(s: State, id: string) {
    id in s.store.devices ==> s.store.devices[id].status == Offline
  }

  lemma OnlineBeforeNext(c: Config, workers: int, queueSize: int, run: seq<Label>, s: State, id: string,
                         more: seq<Label>, s': State, j: nat) returns (k: nat)
    requires About(c, workers, queueSize, run, s, id) && SaidOffline(s, id)
    requires Exec(c, Apply(c, s, ScanStep), more) == Some(s') && |s.log| < j < |s'.log| && s'.log[j] == Announced(id)
    ensures |s.log| < k < j && s'.log[k] == WentOnline(id)
  {
    var s1 := AfterAnnouncing(c, workers, queueSize, run, s, id);
    ExecAppend(c, Init(workers, queueSize), run + [ScanStep], s1, more, s');
    AlwaysMarked(c, workers, queueSize, run + [ScanStep] + more, s');
    LogGrows(c, s1, more, s');
    var b := MarkBehind(s'.log, |s.log|, j, id);
    if id !in s.store.devices {
      GoneForGood(c, s1, more, s', id);
      assert false;
    }
    assert s'.log[..|s1.log|] == s1.log;
    k := FindReturn(s'.log, |s1.log|, b, id);
  }

  // ---------------------------------------------------------------- online when announced: the reconciler may do it

  /** Actions the reconciler has yet to take in its scan. */
  function Effort(r: Reconciler): nat {
    match r
    case Resting => 0
    case Scanning(_, todo) => 3 * |todo| + 1
    case Announcing(_, todo, _) => 3 * |todo| + 2
    case CachingOffline(_, todo, _) => 3 * |todo| + 3
  }

  /** `s'` is reached from `s` by a run in which nothing goes online. */
  ghost predicate NoOnline(c: Config, s: State, run: seq<Label>, s': State) {
    && Exec(c, s, run) == Some(s') && s.log <= s'.log
    && forall k :: |s.log| <= k < |s'.log| ==> !s'.log[k].WentOnline?
  }

  lemma NoOnlineAppend(c: Config, s: State, a: seq<Label>, m: State, b: seq<Label>, s': State)
    requires NoOnline(c, s, a, m) && NoOnline(c, m, b, s')
    ensures NoOnline(c, s, a + b, s')
  {
    ExecAppend(c, s, a, m, b, s');
    forall k | |s.log| <= k < |m.log| ensures !s'.log[k].WentOnline? {
      assert s'.log[k] == m.log[k];
    }
  }

  lemma ScanOnce(c: Config, s: State) returns (s': State)
    requires Enabled(s, ScanStep)
    ensures s' == Apply(c, s, ScanStep) && NoOnline(c, s, [ScanStep], s')
            && Effort(s'.reconciler) < Effort(s.reconciler)
    ensures s'.store.devices.Keys == s.store.devices.Keys
    ensures forall d :: d in s'.reconciler.Ahead() ==> d in s.reconciler.Ahead()
  {
    s' := Apply(c, s, ScanStep);
    ScanCases(c, s);
    OneStep(c, s, ScanStep);
  }

  /** A scan that has passed the device finishes without touching it. */
  lemma {:induction false} FinishScan(c: Config, s: State, id: string) returns (run: seq<Label>, s': State)
    requires id in s.store.devices && forall d :: d in s.reconciler.Ahead() ==> d.id != id
    ensures NoOnline(c, s, run, s') && s'.reconciler.Resting?
    ensures id in s'.store.devices && s'.store.devices[id] == s.store.devices[id]
    decreases Effort(s.reconciler)
  {
    if s.reconciler.Resting? {
      return [], s;
    }
    var s1 := ScanOnce(c, s);
    ScanCases(c, s);
    var rest;
    rest, s' := FinishScan(c, s1, id);
    run := [ScanStep] + rest;
    NoOnlineAppend(c, s, [ScanStep], s1, rest, s');
  }

  /** A scan that has a silent-looking device ahead gets to announcing it. */
  lemma {:induction false} ScanTo(c: Config, s: State, now: Time, d: Device) returns (run: seq<Label>, s': State)
    requires !s.reconciler.Resting? && s.reconciler.now == now && d in s.reconciler.Ahead() && d.id in s.store.devices
    requires forall e :: e in s.reconciler.Ahead() && e.id == d.id ==> LooksSilent(c.offlineAfter, now, e)
    ensures NoOnline(c, s, run, s') && |s'.log| > |s.log| && Last(s'.log) == Announced(d.id)
    decreases Effort(s.reconciler)
  {
    var s1 := ScanOnce(c, s);
    if s.reconciler.Scanning? && s.reconciler.todo[0].id == d.id {
      var s2 := ScanOnce(c, s1);
      s' := ScanOnce(c, s2);
      NoOnlineAppend(c, s, [ScanStep], s1, [ScanStep], s2);
      run := [ScanStep] + [ScanStep] + [ScanStep];
      NoOnlineAppend(c, s, [ScanStep] + [ScanStep], s2, [ScanStep], s');
    } else {
      var rest;
      rest, s' := ScanTo(c, s1, now, d);
      run := [ScanStep] + rest;
      NoOnlineAppend(c, s, [ScanStep], s1, rest, s');
    }
  }

  lemma {:induction false} Listing(s: Store.State, ids: set<string>) returns (out: seq<Device>)
    requires Store.Keyed(s) && ids <= s.devices.Keys
    ensures forall d :: multiset(out)[d] == if Store.Holds(s, d) && d.id in ids then 1 else 0
  {
    if ids == {} {
      out := [];
    } else {
      var id :| id in ids;
      var rest := Listing(s, ids - {id});
      out := rest + [s.devices[id]];
    }
  }

  /** The next scan, some time after the current one. */
  lemma ScanAgain(c: Config, s: State, id: string, since: Time) returns (run: seq<Label>, s': State)
    requires Known(s) && s.reconciler.Resting? && id in s.store.devices
    requires s.store.devices[id].status != Offline && s.store.devices[id].lastSeenAt != ZERO_TIME
    ensures NoOnline(c, s, run, s') && |s'.log| > |s.log| && Last(s'.log) == Announced(id)
  {
    var d := s.store.devices[id];
    var late := d.lastSeenAt + c.offlineAfter + 1;
    var now := if late < since then since else late;
    var devices := Listing(s.store, s.store.devices.Keys);
    assert Snapshot(s.store, devices);
    SnapshotDistinct(s.store, devices);
    assert multiset(devices)[d] == 1;
    var begin := BeginScan(now, devices);
    OneStep(c, s, begin);
    var s1 := Apply(c, s, begin);
    var rest;
    rest, s' := ScanTo(c, s1, now, d);
    run := [begin] + rest;
    NoOnlineAppend(c, s, [begin], s1, rest, s');
  }

  lemma NextWithoutOnline(c: Config, workers: int, queueSize: int, run: seq<Label>, s: State, id: string)
    returns (more: seq<Label>, s': State)
    requires About(c, workers, queueSize, run, s, id) && !SaidOffline(s, id)
    ensures NoOnline(c, Apply(c, s, ScanStep), more, s') && |s'.log| > |s.log| + 1 && Last(s'.log) == Announced(id)
  {
    var s1 := AfterAnnouncing(c, workers, queueSize, run, s, id);
    var first, m := FinishScan(c, s1, id);
    ExecAppend(c, Init(workers, queueSize), run + [ScanStep], s1, first, m);
    AlwaysKnown(c, workers, queueSize, run + [ScanStep] + first, m);
    AlwaysKnown(c, workers, queueSize, run, s);
    var second;
    second, s' := ScanAgain(c, m, id, s.reconciler.now);
    more := first + second;
    NoOnlineAppend(c, s1, first, m, second, s');
  }

  // ---------------------------------------------------------------- exactly

  /** Whatever follows, the device's next status event comes after some telemetry update put it online. */
  ghost predicate OnlineComesFirst(c: Config, s: State, id: string) {
    forall more: seq<Label>, j: nat ::
      Exec(c, s, more).Some? && |s.log| <= j < |Exec(c, s, more).value.log|
          && Exec(c, s, more).value.log[j] == Announced(id) ==>
        exists k :: |s.log| <= k < j && Exec(c, s, more).value.log[k] == WentOnline(id)
  }

  /** A status event separates itself from the next one of its device by an online mark exactly when the store, at the
      moment the event is published, still says what the event says, or has lost the device. */
  lemma NextEventNeedsOnline(c: Config, workers: int, queueSize: int, run: seq<Label>, s: State, id: string)
    requires About(c, workers, queueSize, run, s, id)
    ensures OnlineComesFirst(c, Apply(c, s, ScanStep), id) <==> SaidOffline(s, id)
  {
    var s1 := AfterAnnouncing(c, workers, queueSize, run, s, id);
    if SaidOffline(s, id) {
      forall more: seq<Label>, j: nat | Exec(c, s1, more).Some? && |s1.log| <= j < |Exec(c, s1, more).value.log|
                                        && Exec(c, s1, more).value.log[j] == Announced(id)
        ensures exists k :: |s1.log| <= k < j && Exec(c, s1, more).value.log[k] == WentOnline(id)
      {
        var k := OnlineBeforeNext(c, workers, queueSize, run, s, id, more, Exec(c, s1, more).value, j);
      }
    } else {
      var more, s' := NextWithoutOnline(c, workers, queueSize, run, s, id);
      assert Exec(c, s1, more).value.log[|s'.log| - 1] == Announced(id);
    }
  }

  // ---------------------------------------------------------------- and it does fail

  /** Two status events of the device in the log, and nothing going online between them. */
  ghost predicate NothingBetween(log: seq<Entry>, i: nat, j: nat, id: string) {
    && i < j < |log| && log[i] == Announced(id) && log[j] == Announced(id)
    && forall k :: i < k < j ==> !log[k].WentOnline?
  }

  lemma TwoEvents(c: Config, workers: int, queueSize: int, run: seq<Label>, s: State, id: string)
    returns (run': seq<Label>, s': State)
    requires About(c, workers, queueSize, run, s, id) && !SaidOffline(s, id)
    ensures Exec(c, Init(workers, queueSize), run') == Some(s') && |s'.log| > 0
    ensures NothingBetween(s'.log, |s.log|, |s'.log| - 1, id)
  {
    var s1 := AfterAnnouncing(c, workers, queueSize, run, s, id);
    var more;
    more, s' := NextWithoutOnline(c, workers, queueSize, run, s, id);
    run' := run + [ScanStep] + more;
    ExecAppend(c, Init(workers, queueSize), run + [ScanStep], s1, more, s');
    assert s'.log[|s.log|] == s1.log[|s.log|];
  }

  lemma AnnouncesOnline(c: Config, workers: int, queueSize: int, d: Device, t: Telemetry)
    returns (run: seq<Label>, s: State)
    requires Scenes.Casting(d, t)
    ensures About(c, workers, queueSize, run, s, d.id) && !SaidOffline(s, d.id)
  {
    var run1, s1 := Scenes.SlipsIn(c, workers, queueSize, d, t);
    run, s := Go(c, Init(workers, queueSize), run1, s1, ScanStep);
  }

  /** Under every configuration some run publishes two status events for a device without an online mark between them.
      */
  lemma EventsWithoutOnlineBetween(c: Config, workers: int, queueSize: int, d: Device, t: Telemetry)
    returns (run: seq<Label>, s: State, i: nat, j: nat)
    requires Scenes.Casting(d, t)
    ensures Exec(c, Init(workers, queueSize), run) == Some(s) && NothingBetween(s.log, i, j, d.id)
  {
    var run1, s1 := AnnouncesOnline(c, workers, queueSize, d, t);
    run, s := TwoEvents(c, workers, queueSize, run1, s1, d.id);
    i, j := |s1.log|, |s.log| - 1;
  }
}
