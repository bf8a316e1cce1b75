/** Whom a scan of the running pipeline marks offline, whatever happens while it goes on: judged by the records in the
    store when it began. */
module Silence {
  import opened Models
  import opened Sequences
  import opened Pipeline
  import Status
  import Store

  /** Seen, but longer ago than allowed, and not Offline. */
  ghost predicate Overdue(offlineAfter: int, now: Time, devices: map<string, Device>, id: string) {
    && id in devices && devices[id].lastSeenAt != ZERO_TIME && devices[id].lastSeenAt + offlineAfter < now
    && devices[id].status != Offline
  }

  function Count(log: seq<Entry>, e: Entry): nat {
    if log == [] then 0 else Count(Front(log), e) + if Last(log) == e then 1 else 0
  }

  lemma CountAppend(log: seq<Entry>, x: Entry, e: Entry)
    ensures Count(log + [x], e) == Count(log, e) + if x == e then 1 else 0
  {
    assert Front(log + [x]) == log;
  }

  /** How often the log grew by the entry between two states. */
  function Gained(m: State, s: State, e: Entry): int {
    Count(s.log, e) - Count(m.log, e)
  }

  ghost predicate Ahead(r: Reconciler, id: string) {
    exists d :: d in r.Ahead() && d.id == id
  }

  /** What lies ahead of the scan that began at `m` is as it was listed there. */
  ghost predicate Listed(m: State, now: Time, s: State, id: string) {
    && (!s.reconciler.Resting? ==> s.reconciler.now == now) && Status.DistinctIds(s.reconciler.Ahead())
    && (forall d :: d in s.reconciler.Ahead() ==> Store.Holds(m.store, d))
    && (id in m.store.devices ==> id in s.used)
  }

  /** The marks of the device: none while it is ahead, then one if it was overdue, or none if it is gone; each announced
      but for the one the reconciler is busy with. */
  ghost predicate Marked(c: Config, m: State, now: Time, s: State, id: string) {
    var marks, due := Gained(m, s, WentOffline(id)), Overdue(c.offlineAfter, now, m.store.devices, id);
    && (marks == 0 || (marks == 1 && due && !Ahead(s.reconciler, id)))
    && (due && id in s.store.devices && !Ahead(s.reconciler, id) ==> marks == 1)
    && Gained(m, s, Announced(id)) == marks - if Busy(s.reconciler) == Some(id) then 1 else 0
  }

  /** The reconciler leaves the head of its list behind. */
  lemma OneLessAhead(s: State, s': State, id: string)
    requires s.reconciler.Ahead() != [] && s'.reconciler.Ahead() == s.reconciler.Ahead()[1..]
    requires Status.DistinctIds(s.reconciler.Ahead())
    ensures Status.DistinctIds(s'.reconciler.Ahead())
    ensures forall d :: d in s'.reconciler.Ahead() ==> d in s.reconciler.Ahead()
    ensures Ahead(s'.reconciler, id) <==> Ahead(s.reconciler, id) && s.reconciler.Ahead()[0].id != id
  {
    var all, rest := s.reconciler.Ahead(), s'.reconciler.Ahead();
    assert all == [all[0]] + rest;
    forall i, j | 0 <= i < j < |rest| ensures rest[i].id != rest[j].id {
      assert rest[i] == all[i + 1] && rest[j] == all[j + 1];
    }
    forall d | d in rest ensures d in all && d.id != all[0].id {
      var i :| 0 <= i < |rest| && rest[i] == d;
      assert all[i + 1] == d;
    }
  }

  lemma OverdueListed(offlineAfter: int, now: Time, m: State, d: Device)
    requires Store.Holds(m.store, d)
    ensures LooksSilent(offlineAfter, now, d) <==> Overdue(offlineAfter, now, m.store.devices, d.id)
  {
  }

  lemma PassesBy(c: Config, m: State, now: Time, s: State, s': State, id: string)
    requires Listed(m, now, s, id) && Marked(c, m, now, s, id) && s.reconciler.Scanning? && s.reconciler.todo != []
    requires var d := s.reconciler.todo[0];
             Overdue(c.offlineAfter, now, m.store.devices, d.id) ==> d.id !in s.store.devices
    requires s' == s.(reconciler := Scanning(s.reconciler.now, s.reconciler.todo[1..]))
    ensures Listed(m, now, s', id) && Marked(c, m, now, s', id)
  {
    OneLessAhead(s, s', id);
  }

  lemma MarksNext(c: Config, m: State, now: Time, s: State, s': State, id: string)
    requires Listed(m, now, s, id) && Marked(c, m, now, s, id) && s.reconciler.Scanning? && s.reconciler.todo != []
    requires Overdue(c.offlineAfter, now, m.store.devices, s.reconciler.todo[0].id)
    requires s'.log == s.log + [WentOffline(s.reconciler.todo[0].id)] && s'.used == s.used
    requires s'.store.devices.Keys == s.store.devices.Keys
    requires s'.reconciler == CachingOffline(s.reconciler.now, s.reconciler.todo[1..], s.reconciler.todo[0].id)
    ensures Listed(m, now, s', id) && Marked(c, m, now, s', id)
  {
    var d := s.reconciler.todo[0];
    OneLessAhead(s, s', id);
    assert d in s.reconciler.Ahead();
    CountAppend(s.log, WentOffline(d.id), WentOffline(id));
    CountAppend(s.log, WentOffline(d.id), Announced(id));
  }

  lemma MeetsNext(c: Config, m: State, now: Time, s: State, id: string)
    requires Listed(m, now, s, id) && Marked(c, m, now, s, id) && s.reconciler.Scanning? && s.reconciler.todo != []
    ensures Listed(m, now, ApplyScan(c, s), id) && Marked(c, m, now, ApplyScan(c, s), id)
  {
    var d := s.reconciler.todo[0];
    assert d in s.reconciler.Ahead();
    OverdueListed(c.offlineAfter, now, m, d);
    if LooksSilent(c.offlineAfter, now, d) && d.id in s.store.devices {
      MarksNext(c, m, now, s, ApplyScan(c, s), id);
    } else {
      PassesBy(c, m, now, s, ApplyScan(c, s), id);
    }
  }

  /** Writing the cache, announcing, or ending: nothing ahead changes. */
  lemma MovesOn(c: Config, m: State, now: Time, s: State, id: string)
    requires Listed(m, now, s, id) && Marked(c, m, now, s, id)
    requires !s.reconciler.Resting? && (s.reconciler.Scanning? ==> s.reconciler.todo == [])
    ensures Listed(m, now, ApplyScan(c, s), id) && Marked(c, m, now, ApplyScan(c, s), id)
  {
    assert ApplyScan(c, s).reconciler.Ahead() == s.reconciler.Ahead();
    if s.reconciler.Announcing? {
      CountAppend(s.log, Announced(s.reconciler.id), WentOffline(id));
      CountAppend(s.log, Announced(s.reconciler.id), Announced(id));
    }
  }

  /** What steps of anybody else do. */
  ghost predicate Elsewhere(m: State, s: State, s': State, id: string) {
    && s'.reconciler == s.reconciler && s.used <= s'.used
    && (id in s'.store.devices ==> id in s.store.devices || id !in m.store.devices)
    && (s'.log == s.log || (s'.log != [] && s'.log == s.log + [Last(s'.log)]
                            && !Last(s'.log).WentOffline? && !Last(s'.log).Announced?))
  }

  lemma OthersElsewhere(c: Config, m: State, s: State, l: Label, id: string)
    requires Enabled(s, l) && !l.ScanStep? && !l.BeginScan? && (id in m.store.devices ==> id in s.used)
    ensures Elsewhere(m, s, Apply(c, s, l), id)
  {
    if l.JobStep? {
      var _, e := JobCases(c, s, l.w);
    }
  }

  lemma ElsewhereListed(c: Config, m: State, now: Time, s: State, s': State, id: string)
    requires Listed(m, now, s, id) && Marked(c, m, now, s, id) && Elsewhere(m, s, s', id)
    ensures Listed(m, now, s', id) && Marked(c, m, now, s', id)
  {
    if s'.log != s.log {
      CountAppend(s.log, Last(s'.log), WentOffline(id));
      CountAppend(s.log, Last(s'.log), Announced(id));
    }
  }

  lemma {:induction false} ScanOn(c: Config, m: State, now: Time, s0: State, more: seq<Label>, s: State, id: string)
    requires Status.Known(s0) && Listed(m, now, s0, id) && Marked(c, m, now, s0, id) && Exec(c, s0, more) == Some(s)
    requires forall i :: 0 <= i < |more| ==> !more[i].BeginScan?
    ensures Status.Known(s) && Listed(m, now, s, id) && Marked(c, m, now, s, id)
  {
    if more != [] {
      var before := Exec(c, s0, Front(more)).value;
      ScanOn(c, m, now, s0, Front(more), before, id);
      Status.KnownStep(c, before, Last(more));
      if Last(more).ScanStep? {
        if before.reconciler.Scanning? && before.reconciler.todo != [] {
          MeetsNext(c, m, now, before, id);
        } else {
          MovesOn(c, m, now, before, id);
        }
      } else {
        OthersElsewhere(c, m, before, Last(more), id);
        ElsewhereListed(c, m, now, before, s, id);
      }
    }
  }

  lemma ScanBegins(c: Config, m: State, now: Time, snapshot: seq<Device>, id: string)
    requires Status.Known(m) && Enabled(m, BeginScan(now, snapshot))
    ensures var s := Apply(c, m, BeginScan(now, snapshot)); Listed(m, now, s, id) && Marked(c, m, now, s, id)
  {
    Status.SnapshotDistinct(m.store, snapshot);
    if id in m.store.devices {
      assert Store.Holds(m.store, m.store.devices[id]);
      assert multiset(snapshot)[m.store.devices[id]] > 0;
      assert m.store.devices[id] in Apply(c, m, BeginScan(now, snapshot)).reconciler.Ahead();
    }
  }

  /** What a scan that began at `m` has done to the device so far: marks and announces it at most once, and only if it
      was overdue; and just then, once it has ended, if the device is still there. */
  ghost predicate RightlyScanned(c: Config, m: State, now: Time, s: State, id: string) {
    var marks, due := Gained(m, s, WentOffline(id)), Overdue(c.offlineAfter, now, m.store.devices, id);
    && (marks == 0 || (marks == 1 && due)) && Gained(m, s, Announced(id)) <= marks
    && (s.reconciler.Resting? ==> Gained(m, s, Announced(id)) == marks)
    && (s.reconciler.Resting? && due && id in s.store.devices ==> marks == 1)
  }

  /** Whatever goes on during a scan, it marks offline no device but those that were overdue when it began, and these at
      most once. When it has ended, every such device still there has been marked and announced once, and no other
      device of that moment has been announced. */
  lemma ScanExactly(c: Config, workers: int, queueSize: int, run: seq<Label>, m: State, now: Time,
                    snapshot: seq<Device>, more: seq<Label>, s: State, id: string)
    requires Exec(c, Init(workers, queueSize), run) == Some(m)
    requires Exec(c, m, [BeginScan(now, snapshot)] + more) == Some(s)
    requires forall i :: 0 <= i < |more| ==> !more[i].BeginScan?
    ensures RightlyScanned(c, m, now, s, id)
  {
    var s0 := AfterFirst(c, m, BeginScan(now, snapshot), more, s);
    Status.AlwaysKnown(c, workers, queueSize, run, m);
    Status.KnownStep(c, m, BeginScan(now, snapshot));
    ScanBegins(c, m, now, snapshot, id);
    ScanOn(c, m, now, s0, more, s, id);
    assert s.reconciler.Resting? ==> !Ahead(s.reconciler, id);
  }

  lemma AfterFirst(c: Config, m: State, l: Label, more: seq<Label>, s: State) returns (s0: State)
    requires Exec(c, m, [l] + more) == Some(s)
    ensures Enabled(m, l) && s0 == Apply(c, m, l) && Exec(c, s0, more) == Some(s)
  {
    s0 := ExecSplit(c, m, [l], more, s);
    assert Front([l]) == [] && Exec(c, m, Front([l])) == Some(m);
  }

  // ---------------------------------------------------------------- every offline mark has its scan

  lemma {:induction false} LastScan(c: Config, s0: State, run: seq<Label>, s: State) returns (i: nat)
    requires Exec(c, s0, run) == Some(s) && s0.reconciler.Resting? && !s.reconciler.Resting?
    ensures i < |run| && run[i].BeginScan? && forall j :: i < j < |run| ==> !run[j].BeginScan?
  {
    if Last(run).BeginScan? {
      i := |run| - 1;
    } else {
      var before := Exec(c, s0, Front(run)).value;
      i := LastScan(c, s0, Front(run), before);
      assert forall j :: 0 <= j < |run| - 1 ==> run[j] == Front(run)[j];
    }
  }

  lemma {:induction false} CountIn(log: seq<Entry>, e: Entry)
    ensures Count(log, e) > 0 <==> e in log
  {
    if log != [] {
      CountIn(Front(log), e);
      assert log == Front(log) + [Last(log)];
    }
  }

  /** The scan that began at position i of a run. */
  lemma ScanAt(c: Config, workers: int, queueSize: int, run: seq<Label>, s: State, i: nat, id: string)
    returns (m: State)
    requires Exec(c, Init(workers, queueSize), run) == Some(s) && i < |run| && run[i].BeginScan?
    requires forall j :: i < j < |run| ==> !run[j].BeginScan?
    ensures Exec(c, Init(workers, queueSize), run[..i]) == Some(m) && RightlyScanned(c, m, run[i].now, s, id)
  {
    assert run == run[..i] + run[i..] && run[i..] == [run[i]] + run[i + 1..];
    m := ExecSplit(c, Init(workers, queueSize), run[..i], run[i..], s);
    ScanExactly(c, workers, queueSize, run[..i], m, run[i].now, run[i].snapshot, run[i + 1..], s, id);
  }

  lemma OnlyScansMark(c: Config, s: State, l: Label, id: string)
    requires Enabled(s, l) && WentOffline(id) !in s.log && WentOffline(id) in Apply(c, s, l).log
    ensures l.ScanStep? && !s.reconciler.Resting?
  {
    if !l.ScanStep? && !l.BeginScan? {
      OthersElsewhere(c, s, s, l, id);
    }
  }

  lemma MarkedNow(c: Config, workers: int, queueSize: int, run: seq<Label>, before: State, s: State, id: string)
    returns (i: nat, m: State)
    requires run != [] && Exec(c, Init(workers, queueSize), Front(run)) == Some(before)
    requires Exec(c, Init(workers, queueSize), run) == Some(s)
    requires Last(run).ScanStep? && !before.reconciler.Resting?
    requires Count(before.log, WentOffline(id)) == 0 && Count(s.log, WentOffline(id)) > 0
    ensures i < |run| - 1 && run[i].BeginScan? && Exec(c, Init(workers, queueSize), Front(run)[..i]) == Some(m)
    ensures Overdue(c.offlineAfter, run[i].now, m.store.devices, id)
  {
    i := LastScan(c, Init(workers, queueSize), Front(run), before);
    StillLast(run, i);
    m := ScanAt(c, workers, queueSize, Front(run), before, i, id);
    var m' := ScanAt(c, workers, queueSize, run, s, i, id);
    MarkedBetween(c, m, run[i].now, before, s, id);
  }

  lemma StillLast(run: seq<Label>, i: nat)
    requires run != [] && i < |Front(run)| && !Last(run).BeginScan?
    requires forall j :: i < j < |Front(run)| ==> !Front(run)[j].BeginScan?
    ensures Front(run)[i] == run[i] && Front(run)[..i] == run[..i]
    ensures forall j :: i < j < |run| ==> !run[j].BeginScan?
  {
    forall j | i < j < |run| ensures !run[j].BeginScan? {
      assert j < |run| - 1 ==> run[j] == Front(run)[j];
    }
  }

  lemma MarkedBetween(c: Config, m: State, now: Time, before: State, s: State, id: string)
    requires RightlyScanned(c, m, now, before, id) && RightlyScanned(c, m, now, s, id)
    requires Count(before.log, WentOffline(id)) == 0 && Count(s.log, WentOffline(id)) > 0
    ensures Overdue(c.offlineAfter, now, m.store.devices, id)
  {
  }

  /** Whoever was ever marked offline, in any run, was overdue when some scan began. */
  lemma {:induction false} OfflineJustified(c: Config, workers: int, queueSize: int, run: seq<Label>, s: State,
                                            id: string)
    returns (i: nat, m: State)
    requires Exec(c, Init(workers, queueSize), run) == Some(s) && WentOffline(id) in s.log
    ensures i < |run| && run[i].BeginScan? && Exec(c, Init(workers, queueSize), run[..i]) == Some(m)
    ensures Overdue(c.offlineAfter, run[i].now, m.store.devices, id)
  {
    var before := Exec(c, Init(workers, queueSize), Front(run)).value;
    if WentOffline(id) in before.log {
      i, m := OfflineJustified(c, workers, queueSize, Front(run), before, id);
    } else {
      OnlyScansMark(c, before, Last(run), id);
      CountIn(before.log, WentOffline(id));
      CountIn(s.log, WentOffline(id));
      i, m := MarkedNow(c, workers, queueSize, run, before, s, id);
    }
    assert Front(run)[..i] == run[..i];
  }
}
