/** The status of a device while workers mark it online and the single reconciler marks it offline, concurrently. */
module Status {
  import opened Models
  import opened Sequences
  import opened Pipeline
  import Store
  import Pool

  // ---------------------------------------------------------------- Unknown means never seen

  ghost predicate Stamped(p: Pool.State<Telemetry>) {
    && (forall i :: 0 <= i < |p.queue| ==> p.queue[i].timestamp != ZERO_TIME)
    && (forall w :: 0 <= w < |p.phases| && p.phases[w].Running? ==> p.phases[w].job.timestamp != ZERO_TIME)
  }

  ghost predicate SeenOrUnknown(s: Store.State) {
    forall id :: id in s.devices ==> (s.devices[id].status == Unknown <==> s.devices[id].lastSeenAt == ZERO_TIME)
  }

  /** What the snapshot saw alive is, if it still exists, still known to have been seen. */
  ghost predicate SnapshotSeen(s: State) {
    forall d :: d in s.reconciler.Ahead() && d.lastSeenAt != ZERO_TIME && d.id in s.store.devices ==>
      s.store.devices[d.id].lastSeenAt != ZERO_TIME
  }

  /** Seen, or gone for good. */
  ghost predicate PastUnknown(s: State, id: string) {
    id in s.used && (id in s.store.devices ==> s.store.devices[id].lastSeenAt != ZERO_TIME)
  }

  ghost predicate Known(s: State) {
    && Store.Keyed(s.store) && Stamped(s.pool) && SeenOrUnknown(s.store) && SnapshotSeen(s)
    && (forall id :: id in s.store.devices ==> id in s.used)
    && (forall d :: d in s.reconciler.Ahead() ==> d.id in s.used)
    && (Busy(s.reconciler).Some? ==> PastUnknown(s, Busy(s.reconciler).value))
  }

  lemma PoolKnown(c: Config, s: State, p: Pool.Label<Telemetry>)
    requires Known(s) && Enabled(s, PoolStep(p))
    ensures Known(Apply(c, s, PoolStep(p)))
  {
  }

  lemma JobKnown(c: Config, s: State, w: nat)
    requires Known(s) && Enabled(s, JobStep(w))
    ensures Known(Apply(c, s, JobStep(w)))
  {
    var s', e := JobCases(c, s, w);
    if e.Marked? {
    } else {
      assert s'.store.devices == s.store.devices;
    }
  }

  lemma ManagementKnown(c: Config, s: State, l: Label)
    requires Known(s) && Enabled(s, l) && (l.Register? || l.Manage?)
    ensures Known(Apply(c, s, l))
  {
  }

  lemma BeginScanKnown(c: Config, s: State, l: Label)
    requires Known(s) && Enabled(s, l) && l.BeginScan?
    ensures Known(Apply(c, s, l))
  {
    forall d | d in l.snapshot ensures Store.Holds(s.store, d) {
      assert multiset(l.snapshot)[d] > 0;
    }
  }

  lemma MarkKnown(s: State, s': State, d: Device)
    requires Known(s) && MarksOffline(s, s', d)
    ensures Known(s')
  {
    assert d in s.reconciler.Ahead();
  }

  lemma ScanKnown(c: Config, s: State)
    requires Known(s) && Enabled(s, ScanStep)
    ensures Known(Apply(c, s, ScanStep))
  {
    var s' := Apply(c, s, ScanStep);
    ScanCases(c, s);
    if s.reconciler.Ahead() != [] && MarksOffline(s, s', s.reconciler.Ahead()[0]) {
      MarkKnown(s, s', s.reconciler.Ahead()[0]);
    }
  }

  lemma KnownStep(c: Config, s: State, l: Label)
    requires Known(s) && Enabled(s, l)
    ensures Known(Apply(c, s, l))
  {
    match l
    case PoolStep(p) => PoolKnown(c, s, p);
    case JobStep(w) => JobKnown(c, s, w);
    case BeginScan(_, _) => BeginScanKnown(c, s, l);
    case ScanStep => ScanKnown(c, s);
    case _ => ManagementKnown(c, s, l);
  }

  lemma {:induction false} AlwaysKnown(c: Config, workers: int, queueSize: int, run: seq<Label>, s: State)
    requires Exec(c, Init(workers, queueSize), run) == Some(s)
    ensures Known(s)
  {
    if run != [] {
      var before := Exec(c, Init(workers, queueSize), Front(run)).value;
      AlwaysKnown(c, workers, queueSize, Front(run), before);
      KnownStep(c, before, Last(run));
    }
  }

  /** In every reachable state a device is Unknown exactly when it has never been seen. */
  lemma UnknownMeansNeverSeen(c: Config, workers: int, queueSize: int, run: seq<Label>, s: State, id: string)
    requires Exec(c, Init(workers, queueSize), run) == Some(s) && id in s.store.devices
    ensures s.store.devices[id].status == Unknown <==> s.store.devices[id].lastSeenAt == ZERO_TIME
  {
    AlwaysKnown(c, workers, queueSize, run, s);
  }

  lemma PastUnknownStep(c: Config, s: State, l: Label, id: string)
    requires Known(s) && PastUnknown(s, id) && Enabled(s, l)
    ensures PastUnknown(Apply(c, s, l), id)
  {
    if l.JobStep? {
      var s', e := JobCases(c, s, l.w);
    } else if l.ScanStep? {
      ScanCases(c, s);
    }
  }

  lemma {:induction false} StaysPastUnknown(c: Config, s: State, more: seq<Label>, s': State, id: string)
    requires Known(s) && PastUnknown(s, id) && Exec(c, s, more) == Some(s')
    ensures Known(s') && PastUnknown(s', id)
  {
    if more != [] {
      var before := Exec(c, s, Front(more)).value;
      StaysPastUnknown(c, s, Front(more), before, id);
      KnownStep(c, before, Last(more));
      PastUnknownStep(c, before, Last(more), id);
    }
  }

  /** A device that has left Unknown never returns to it, whatever happens next. */
  lemma NeverUnknownAgain(c: Config, workers: int, queueSize: int, run: seq<Label>, s: State, more: seq<Label>,
                          s': State,
                          id: string)
    requires Exec(c, Init(workers, queueSize), run) == Some(s) && Exec(c, s, more) == Some(s')
    requires id in s.store.devices && s.store.devices[id].status != Unknown && id in s'.store.devices
    ensures s'.store.devices[id].status != Unknown
  {
    AlwaysKnown(c, workers, queueSize, run, s);
    StaysPastUnknown(c, s, more, s', id);
  }

  // ---------------------------------------------------------------- between two offline marks

  /** Marked offline, and not marked online since. */
  function Awaiting(log: seq<Entry>, id: string): bool {
    if log == [] then false
    else if Last(log) == WentOffline(id) then true
    else if Last(log) == WentOnline(id) then false
    else Awaiting(Front(log), id)
  }

  ghost predicate DistinctIds(devices: seq<Device>) {
    forall i, j :: 0 <= i < j < |devices| ==> devices[i].id != devices[j].id
  }

  ghost predicate Watched(s: State) {
    && DistinctIds(s.reconciler.Ahead())
    && (forall id :: Awaiting(s.log, id) ==> id in s.used)
    && (forall id :: id in s.store.devices ==> (Awaiting(s.log, id) <==> s.store.devices[id].status == Offline))
    && (forall d :: d in s.reconciler.Ahead() && d.status != Offline ==> !Awaiting(s.log, d.id))
    && (forall d :: d in s.reconciler.Ahead() ==> Busy(s.reconciler) != Some(d.id))
  }

  lemma AwaitingAppend(log: seq<Entry>, e: Entry, id: string)
    ensures Awaiting(log + [e], id) == if e == WentOffline(id) then true
                                       else if e == WentOnline(id) then false else Awaiting(log, id)
  {
    assert Front(log + [e]) == log;
  }

  lemma SnapshotDistinct(s: Store.State, devices: seq<Device>)
    requires Snapshot(s, devices)
    ensures DistinctIds(devices) && forall d :: d in devices ==> Store.Holds(s, d)
  {
    forall d | d in devices ensures Store.Holds(s, d) {
      assert multiset(devices)[d] > 0;
    }
    forall i, j | 0 <= i < j < |devices| ensures devices[i].id != devices[j].id {
      assert devices[i] in devices && devices[j] in devices;
      ListedOnce(devices, i, j);
    }
  }

  lemma OnlineWatched(s: State, s': State, w: nat, t: Telemetry)
    requires Watched(s) && MarksOnline(s, s', w, t)
    ensures Watched(s')
  {
    forall id ensures Awaiting(s'.log, id) == (id != t.deviceId && Awaiting(s.log, id)) {
      AwaitingAppend(s.log, WentOnline(t.deviceId), id);
    }
  }

  /** Entries about other things leave every device's marks as they were. */
  lemma UnrelatedWatched(s: State, s': State, e: Entry)
    requires Watched(s) && !e.WentOnline? && !e.WentOffline?
    requires s'.log == s.log + [e] && s'.store.devices == s.store.devices && s'.used == s.used
             && s'.reconciler == s.reconciler
    ensures Watched(s')
  {
    forall id ensures Awaiting(s'.log, id) == Awaiting(s.log, id) {
      AwaitingAppend(s.log, e, id);
    }
  }

  lemma JobWatched(c: Config, s: State, w: nat)
    requires Watched(s) && Enabled(s, JobStep(w))
    ensures Watched(Apply(c, s, JobStep(w)))
  {
    var s', e := JobCases(c, s, w);
    if e.Marked? {
      OnlineWatched(s, s', w, s.pool.phases[w].job);
    } else if s'.log != s.log {
      UnrelatedWatched(s, s', Last(s'.log));
    }
  }

  lemma MarkAwaited(s: State, s': State, d: Device, id: string)
    requires MarksOffline(s, s', d)
    ensures Awaiting(s'.log, id) == (id == d.id || Awaiting(s.log, id))
  {
    AwaitingAppend(s.log, WentOffline(d.id), id);
  }

  lemma MarkWatched(s: State, s': State, d: Device)
    requires Known(s) && Watched(s) && MarksOffline(s, s', d)
    ensures Watched(s')
  {
    var ahead := s.reconciler.Ahead();
    assert d in ahead;
    forall id ensures Awaiting(s'.log, id) == (id == d.id || Awaiting(s.log, id)) {
      MarkAwaited(s, s', d, id);
    }
    forall e | e in ahead[1..] ensures e in ahead && e.id != d.id {
      var i :| 0 <= i < |ahead[1..]| && ahead[1..][i] == e;
      assert ahead[i + 1] == e;
    }
  }

  lemma AnnounceWatched(s: State, s': State, id: string)
    requires Watched(s) && Announces(s, s', id)
    ensures Watched(s')
  {
    forall x ensures Awaiting(s'.log, x) == Awaiting(s.log, x) {
      AwaitingAppend(s.log, Announced(id), x);
    }
  }

  lemma ScanWatched(c: Config, s: State)
    requires Known(s) && Watched(s) && Enabled(s, ScanStep)
    ensures Watched(Apply(c, s, ScanStep))
  {
    var s' := Apply(c, s, ScanStep);
    ScanCases(c, s);
    if Skips(s, s') {
    } else if s.reconciler.Ahead() != [] && MarksOffline(s, s', s.reconciler.Ahead()[0]) {
      MarkWatched(s, s', s.reconciler.Ahead()[0]);
    } else {
      AnnounceWatched(s, s', s.reconciler.id);
    }
  }

  lemma OthersWatched(c: Config, s: State, l: Label)
    requires Known(s) && Watched(s) && Enabled(s, l) && !l.JobStep? && !l.ScanStep?
    ensures Watched(Apply(c, s, l))
  {
    var s' := Apply(c, s, l);
    if l.BeginScan? {
      SnapshotDistinct(s.store, l.snapshot);
    } else if s'.log != s.log {
      assert s'.log == s.log + [Last(s'.log)];
      forall id ensures Awaiting(s'.log, id) == Awaiting(s.log, id) {
        AwaitingAppend(s.log, Last(s'.log), id);
      }
    }
  }

  lemma WatchedStep(c: Config, s: State, l: Label)
    requires Known(s) && Watched(s) && Enabled(s, l)
    ensures Watched(Apply(c, s, l))
  {
    if l.JobStep? {
      JobWatched(c, s, l.w);
    } else if l.ScanStep? {
      ScanWatched(c, s);
    } else {
      OthersWatched(c, s, l);
    }
  }

  /** Marked offline, and that not yet announced. */
  function Unannounced(log: seq<Entry>, id: string): bool {
    if log == [] then false
    else if Last(log) == WentOffline(id) then true
    else if Last(log) == Announced(id) then false
    else Unannounced(Front(log), id)
  }

  lemma UnannouncedAppend(log: seq<Entry>, e: Entry, id: string)
    ensures Unannounced(log + [e], id) == if e == WentOffline(id) then true
                                          else if e == Announced(id) then false else Unannounced(log, id)
  {
    assert Front(log + [e]) == log;
  }

  /** There is one reconciler, so an announcement is outstanding exactly for the device it is busy with. */
  ghost predicate OneOutstanding(s: State) {
    forall id :: Unannounced(s.log, id) <==> Busy(s.reconciler) == Some(id)
  }

  /** Each offline mark finds the device not marked since its last online mark, and no announcement outstanding; each
      announcement finds one outstanding. */
  ghost predicate EntryFits(before: seq<Entry>, e: Entry) {
    && (e.WentOffline? ==> !Awaiting(before, e.id) && !Unannounced(before, e.id))
    && (e.Announced? ==> Unannounced(before, e.id))
  }

  ghost predicate WellMarked(log: seq<Entry>) {
    forall j :: 0 <= j < |log| ==> EntryFits(log[..j], log[j])
  }

  lemma WellMarkedAppend(log: seq<Entry>, e: Entry)
    requires WellMarked(log) && EntryFits(log, e)
    ensures WellMarked(log + [e])
  {
    var all := log + [e];
    forall j | 0 <= j < |all| ensures EntryFits(all[..j], all[j]) {
      assert all[..j] == log[..j];
      assert log[..|log|] == log;
    }
  }

  lemma ScanMarks(c: Config, s: State)
    requires Watched(s) && OneOutstanding(s) && WellMarked(s.log) && Enabled(s, ScanStep)
    ensures OneOutstanding(Apply(c, s, ScanStep)) && WellMarked(Apply(c, s, ScanStep).log)
  {
    var s' := Apply(c, s, ScanStep);
    ScanCases(c, s);
    if !Skips(s, s') {
      var e := Last(s'.log);
      assert s'.log == s.log + [e];
      EntryMarks(s, s', e);
    }
  }

  lemma EntryMarks(s: State, s': State, e: Entry)
    requires Watched(s) && OneOutstanding(s) && WellMarked(s.log) && s'.log == s.log + [e]
    requires e.WentOffline? || e.Announced?
    requires e.WentOffline? ==> s.reconciler.Ahead() != [] && MarksOffline(s, s', s.reconciler.Ahead()[0])
    requires e.Announced? ==> Announces(s, s', e.id)
    ensures OneOutstanding(s') && WellMarked(s'.log)
  {
    forall id ensures Unannounced(s'.log, id)
           == (e == WentOffline(id) || (e != Announced(id) && Unannounced(s.log, id))) {
      UnannouncedAppend(s.log, e, id);
    }
    if e.WentOffline? {
      assert s.reconciler.Ahead()[0] in s.reconciler.Ahead();
    }
    WellMarkedAppend(s.log, e);
  }

  lemma UnrelatedMarks(s: State, s': State, e: Entry)
    requires OneOutstanding(s) && WellMarked(s.log) && s'.log == s.log + [e] && !e.WentOffline? && !e.Announced?
    requires s'.reconciler == s.reconciler
    ensures OneOutstanding(s') && WellMarked(s'.log)
  {
    forall id ensures Unannounced(s'.log, id) == Unannounced(s.log, id) {
      UnannouncedAppend(s.log, e, id);
    }
    WellMarkedAppend(s.log, e);
  }

  lemma OthersMark(c: Config, s: State, l: Label)
    requires OneOutstanding(s) && WellMarked(s.log) && Enabled(s, l) && !l.ScanStep?
    ensures OneOutstanding(Apply(c, s, l)) && WellMarked(Apply(c, s, l).log)
  {
    if l.JobStep? {
      var s', e := JobCases(c, s, l.w);
      if s'.log != s.log {
        UnrelatedMarks(s, s', Last(s'.log));
      }
    } else {
      var s' := Apply(c, s, l);
      if s'.log != s.log {
        UnrelatedMarks(s, s', Last(s'.log));
      }
    }
  }

  lemma {:induction false} AlwaysMarked(c: Config, workers: int, queueSize: int, run: seq<Label>, s: State)
    requires Exec(c, Init(workers, queueSize), run) == Some(s)
    ensures Watched(s) && OneOutstanding(s) && WellMarked(s.log)
  {
    if run != [] {
      var before, l := Exec(c, Init(workers, queueSize), Front(run)).value, Last(run);
      AlwaysMarked(c, workers, queueSize, Front(run), before);
      AlwaysKnown(c, workers, queueSize, Front(run), before);
      WatchedStep(c, before, l);
      if l.ScanStep? {
        ScanMarks(c, before);
      } else {
        OthersMark(c, before, l);
      }
    }
  }

  // ---------------------------------------------------------------- what the log then says

  lemma {:induction false} FindReturn(log: seq<Entry>, i: nat, j: nat, id: string) returns (k: nat)
    requires i <= j <= |log| && Awaiting(log[..i], id) && !Awaiting(log[..j], id)
    ensures i <= k < j && log[k] == WentOnline(id)
  {
    var last := log[..j][j - 1];
    assert Front(log[..j]) == log[..j - 1];
    if last == WentOnline(id) {
      k := j - 1;
    } else {
      k := FindReturn(log, i, j - 1, id);
    }
  }

  lemma {:induction false} FindOffline(log: seq<Entry>, j: nat, id: string) returns (k: nat)
    requires j <= |log| && Unannounced(log[..j], id)
    ensures k < j && log[k] == WentOffline(id) && forall m :: k < m < j ==> log[m] != Announced(id)
  {
    assert j > 0;
    assert Front(log[..j]) == log[..j - 1];
    if log[..j][j - 1] == WentOffline(id) {
      k := j - 1;
    } else {
      k := FindOffline(log, j - 1, id);
    }
  }

  /** The mark behind an event found in the log after another event of the device at `i`. */
  lemma MarkBehind(log: seq<Entry>, i: nat, j: nat, id: string) returns (b: nat)
    requires WellMarked(log) && i < j < |log| && log[i] == Announced(id) && log[j] == Announced(id)
    ensures i < b < j && log[b] == WentOffline(id) && !Awaiting(log[..b], id)
  {
    assert EntryFits(log[..j], log[j]);
    b := FindOffline(log, j, id);
    assert EntryFits(log[..b], log[b]);
  }

  /** Between two offline marks of a device, some telemetry update marked it online. */
  lemma OnlineBetweenOfflines(c: Config, workers: int, queueSize: int, run: seq<Label>, s: State, i: nat, j: nat,
                              id: string)
    returns (k: nat)
    requires Exec(c, Init(workers, queueSize), run) == Some(s) && i < j < |s.log|
    requires s.log[i] == WentOffline(id) && s.log[j] == WentOffline(id)
    ensures i < k < j && s.log[k] == WentOnline(id)
  {
    AlwaysMarked(c, workers, queueSize, run, s);
    assert EntryFits(s.log[..j], s.log[j]);
    assert Front(s.log[..i + 1]) == s.log[..i];
    k := FindReturn(s.log, i + 1, j, id);
  }

  /** Two status events for a device come from two offline marks with an online mark between the marks: the first mark
      precedes the first event, the second lies between the events. */
  lemma OnlineBehindEvents(c: Config, workers: int, queueSize: int, run: seq<Label>, s: State, i: nat, j: nat,
                           id: string)
    returns (a: nat, b: nat, k: nat)
    requires Exec(c, Init(workers, queueSize), run) == Some(s) && i < j < |s.log|
    requires s.log[i] == Announced(id) && s.log[j] == Announced(id)
    ensures a < i < b < j && s.log[a] == WentOffline(id) && s.log[b] == WentOffline(id)
    ensures forall m :: a < m < i ==> s.log[m] != Announced(id)
    ensures a < k < b && s.log[k] == WentOnline(id)
  {
    AlwaysMarked(c, workers, queueSize, run, s);
    assert EntryFits(s.log[..i], s.log[i]);
    a := FindOffline(s.log, i, id);
    b := MarkBehind(s.log, i, j, id);
    k := OnlineBetweenOfflines(c, workers, queueSize, run, s, a, b, id);
  }

  /** An online mark fell between an offline mark and the event announcing it, at `i`. */
  ghost predicate SlippedIn(log: seq<Entry>, i: nat, id: string)
    requires i <= |log|
  {
    exists a, m :: 0 <= a < m < i && log[a] == WentOffline(id) && log[m] == WentOnline(id)
                   && forall n :: a < n < i ==> log[n] != Announced(id)
  }

  /** Two status events for a device are separated by an online mark, unless one slipped in between the first offline
      mark and its event, while the reconciler was writing the cache. */
  lemma OnlineBetweenEvents(c: Config, workers: int, queueSize: int, run: seq<Label>, s: State, i: nat, j: nat,
                            id: string)
    requires Exec(c, Init(workers, queueSize), run) == Some(s) && i < j < |s.log|
    requires s.log[i] == Announced(id) && s.log[j] == Announced(id)
    ensures SlippedIn(s.log, i, id) || exists k :: i < k < j && s.log[k] == WentOnline(id)
  {
    var a, b, k := OnlineBehindEvents(c, workers, queueSize, run, s, i, j, id);
  }
}
