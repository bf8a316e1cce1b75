/** The interleaved steps of a job, and of a scan, add up to the service call they are the steps of when nothing else
    happens in between. */
module Coarse {
  import opened Models
  import opened Sequences
  import opened Pipeline
  import Store
  import Alerts
  import Service

  function Sent(w: nat, events: seq<Event>): seq<Entry> {
    seq(|events|, i requires 0 <= i < |events| => Published(w, events[i]))
  }

  lemma Then(c: Config, s: State, l: Label, rest: seq<Label>, s': State)
    requires Enabled(s, l) && Exec(c, Apply(c, s, l), rest) == Some(s')
    ensures Exec(c, s, [l] + rest) == Some(s')
  {
    OneStep(c, s, l);
    ExecAppend(c, s, [l], Apply(c, s, l), rest, s');
  }

  /** A run of one worker's job only. */
  ghost predicate JobOnly(run: seq<Label>, w: nat) {
    forall i :: 0 <= i < |run| ==> run[i] == JobStep(w)
  }

  lemma {:induction false} JobOnlyKeeps(c: Config, s: State, run: seq<Label>, s': State, w: nat)
    requires Exec(c, s, run) == Some(s') && JobOnly(run, w)
    ensures s'.pool == s.pool && s'.used == s.used && s'.reconciler == s.reconciler && |s'.stages| == |s.stages|
  {
    if run != [] {
      JobOnlyKeeps(c, s, Front(run), Exec(c, s, Front(run)).value, w);
      JobKeepsPool(c, Exec(c, s, Front(run)).value, w);
    }
  }

  /** The worker is at this stage of a job. */
  ghost predicate At(s: State, w: nat, t: Telemetry, stage: Stage) {
    w < |s.stages| == |s.pool.phases| && s.pool.phases[w].Running? && s.pool.phases[w].job == t && s.stages[w] == stage
  }

  lemma OneAlert(c: Config, s: State, w: nat, t: Telemetry, pending: seq<Alert>) returns (run: seq<Label>, s': State)
    requires pending != [] && At(s, w, t, StoreAlert(pending))
    ensures Exec(c, s, run) == Some(s') && JobOnly(run, w) && At(s', w, t, Afterwards(pending[1..]))
    ensures s'.store == Store.Exec(s.store, c.maxHistory, Store.AddAlert(pending[0]))
    ensures s'.log == s.log + Sent(w, [AlertEvent(pending[0])])
  {
    var s1 := Apply(c, s, JobStep(w));
    s' := Apply(c, s1, JobStep(w));
    OneStep(c, s1, JobStep(w));
    run := [JobStep(w)] + [JobStep(w)];
    Then(c, s, JobStep(w), [JobStep(w)], s');
    assert Sent(w, [AlertEvent(pending[0])]) == [Published(w, AlertEvent(pending[0]))];
  }

  lemma FirstAlert(c: Config, s: Store.State, id: string, pending: seq<Alert>)
    requires pending != [] && pending[0].deviceId == id
    ensures var s1 := Store.Exec(s, c.maxHistory, Store.AddAlert(pending[0]));
            s1.(alerts := Service.WithAlerts(s1, id, pending[1..])) == s.(alerts := Service.WithAlerts(s, id, pending))
  {
    var s1 := Store.Exec(s, c.maxHistory, Store.AddAlert(pending[0]));
    assert s1.Raised(id) + pending[1..] == s.Raised(id) + pending;
    assert s1.Raised(id) == s1.Raised(id) + [];
    assert Service.WithAlerts(s1, id, pending[1..]) == Service.WithAlerts(s, id, pending);
  }

  /** These alerts of the device have been stored and published by the worker. */
  ghost predicate Raised(s: State, s': State, w: nat, pending: seq<Alert>, id: string) {
    && s'.store == s.store.(alerts := Service.WithAlerts(s.store, id, pending))
    && s'.log == s.log + Sent(w, Alerts.AlertEvents(pending))
  }

  lemma RaisedAll(c: Config, s: State, m: State, s': State, w: nat, pending: seq<Alert>, id: string)
    requires pending != [] && pending[0].deviceId == id
    requires m.store == Store.Exec(s.store, c.maxHistory, Store.AddAlert(pending[0]))
    requires m.log == s.log + Sent(w, [AlertEvent(pending[0])]) && Raised(m, s', w, pending[1..], id)
    ensures Raised(s, s', w, pending, id)
  {
    FirstAlert(c, s.store, id, pending);
  }

  lemma {:induction false} AlertsAlone(c: Config, s: State, w: nat, t: Telemetry, pending: seq<Alert>, id: string)
    returns (run: seq<Label>, s': State)
    requires At(s, w, t, Afterwards(pending)) && forall a :: a in pending ==> a.deviceId == id
    ensures Exec(c, s, run) == Some(s') && JobOnly(run, w) && At(s', w, t, Finished) && Raised(s, s', w, pending, id)
    decreases |pending|
  {
    if pending == [] {
      return [], s;
    }
    var head, m := OneAlert(c, s, w, t, pending);
    var tail;
    tail, s' := AlertsAlone(c, m, w, t, pending[1..], id);
    run := head + tail;
    ExecAppend(c, s, head, m, tail, s');
    RaisedAll(c, s, m, s', w, pending, id);
  }

  /** The steps of a job before its alerts: into the store, then to the cache and the subscribers. */
  lemma StoredAndMarked(c: Config, s: State, w: nat, t: Telemetry) returns (run: seq<Label>, s': State)
    requires At(s, w, t, Persist) && t.deviceId in s.store.devices
    ensures Exec(c, s, run) == Some(s') && JobOnly(run, w) && At(s', w, t, CacheOnline)
    ensures s'.store == Service.Arrived(c.maxHistory, Service.View(s.store, map[]), t).store
    ensures s'.log == s.log + [Persisted(w, t), WentOnline(t.deviceId)]
  {
    var s1 := Apply(c, s, JobStep(w));
    assert At(s1, w, t, MarkOnline);
    s' := Apply(c, s1, JobStep(w));
    OneStep(c, s1, JobStep(w));
    run := [JobStep(w)] + [JobStep(w)];
    Then(c, s, JobStep(w), [JobStep(w)], s');
  }

  lemma CachedAndTold(c: Config, s: State, w: nat, t: Telemetry) returns (run: seq<Label>, s': State)
    requires At(s, w, t, CacheOnline)
    ensures Exec(c, s, run) == Some(s') && JobOnly(run, w) && At(s', w, t, Evaluate)
    ensures s'.store == s.store && s'.log == s.log + [Published(w, TelemetryEvent(t))]
  {
    var s1 := Apply(c, s, JobStep(w));
    s' := Apply(c, s1, JobStep(w));
    OneStep(c, s1, JobStep(w));
    run := [JobStep(w)] + [JobStep(w)];
    Then(c, s, JobStep(w), [JobStep(w)], s');
  }

  lemma Closing(c: Config, s: State, w: nat, t: Telemetry) returns (run: seq<Label>, s': State)
    requires At(s, w, t, Evaluate)
    ensures Exec(c, s, run) == Some(s') && JobOnly(run, w) && At(s', w, t, Finished)
    ensures Raised(s, s', w, Alerts.Breaches(c.rules, t), t.deviceId)
  {
    var s1 := Apply(c, s, JobStep(w));
    Alerts.BreachesDevice(c.rules, t);
    var rest;
    rest, s' := AlertsAlone(c, s1, w, t, Alerts.Breaches(c.rules, t), t.deviceId);
    run := [JobStep(w)] + rest;
    Then(c, s, JobStep(w), rest, s');
  }

  lemma LogAddsUp(log: seq<Entry>, w: nat, t: Telemetry, rules: seq<AlertRule>)
    ensures log + [Persisted(w, t), WentOnline(t.deviceId)] + [Published(w, TelemetryEvent(t))]
              + Sent(w, Alerts.AlertEvents(Alerts.Breaches(rules, t)))
         == log + [Persisted(w, t), WentOnline(t.deviceId)] + Sent(w, Alerts.JobEvents(rules, t))
  {
    assert Sent(w, Alerts.JobEvents(rules, t))
        == [Published(w, TelemetryEvent(t))] + Sent(w, Alerts.AlertEvents(Alerts.Breaches(rules, t)));
  }

  /** A job left alone does what processing its sample does, and publishes its events in order. */
  lemma JobAlone(c: Config, s: State, w: nat, t: Telemetry, cache: Service.Cache) returns (run: seq<Label>, s': State)
    requires At(s, w, t, Persist) && t.deviceId in s.store.devices
    ensures Exec(c, s, run) == Some(s') && JobOnly(run, w) && At(s', w, t, Finished)
    ensures s'.store == Service.Perform(c, Service.View(s.store, cache), Service.Process(t)).store
    ensures s'.log == s.log + [Persisted(w, t), WentOnline(t.deviceId)] + Sent(w, Alerts.JobEvents(c.rules, t))
  {
    var first, m1 := StoredAndMarked(c, s, w, t);
    var second, m := CachedAndTold(c, m1, w, t);
    var third;
    third, s' := Closing(c, m, w, t);
    run := first + second + third;
    ExecAppend(c, s, first, m1, second, m);
    ExecAppend(c, s, first + second, m, third, s');
    LogAddsUp(s.log, w, t, c.rules);
  }

  /** A job whose device is gone does nothing, as the call does nothing. */
  lemma JobRefused(c: Config, s: State, w: nat, t: Telemetry, cache: Service.Cache) returns (s': State)
    requires At(s, w, t, Persist) && t.deviceId !in s.store.devices
    ensures Exec(c, s, [JobStep(w)]) == Some(s') && At(s', w, t, Finished) && s'.log == s.log
    ensures s'.store == s.store == Service.Perform(c, Service.View(s.store, cache), Service.Process(t)).store
  {
    s' := Apply(c, s, JobStep(w));
    OneStep(c, s, JobStep(w));
  }

  // ---------------------------------------------------------------- a scan

  /** What a pass over a listing leaves in the log: each silent device marked, then announced, in order. */
  function PassEntries(offlineAfter: int, now: Time, devices: seq<Device>): seq<Entry> {
    if devices == [] then []
    else PassEntries(offlineAfter, now, Front(devices)) + EntriesFor(offlineAfter, now, Last(devices))
  }

  function EntriesFor(offlineAfter: int, now: Time, d: Device): seq<Entry> {
    if LooksSilent(offlineAfter, now, d) then [WentOffline(d.id), Announced(d.id)] else []
  }

  /** The events a log announces. */
  function AnnouncedIn(log: seq<Entry>): seq<Event> {
    if log == [] then []
    else AnnouncedIn(Front(log)) + if Last(log).Announced? then [StatusEvent(Last(log).id, Offline)] else []
  }

  lemma {:induction false} PassAnnounces(offlineAfter: int, now: Time, devices: seq<Device>)
    ensures AnnouncedIn(PassEntries(offlineAfter, now, devices)) == Service.SilentEvents(offlineAfter, now, devices)
  {
    if devices != [] {
      PassAnnounces(offlineAfter, now, Front(devices));
      var before, d := PassEntries(offlineAfter, now, Front(devices)), Last(devices);
      if LooksSilent(offlineAfter, now, d) {
        var all := before + [WentOffline(d.id), Announced(d.id)];
        assert Front(all) == before + [WentOffline(d.id)];
        assert Front(before + [WentOffline(d.id)]) == before;
      } else {
        assert before + [] == before;
      }
    }
  }

  /** The reconciler's actions on the next device of its snapshot. */
  lemma OneDevice(c: Config, s: State, cache: Service.Cache) returns (run: seq<Label>, s': State)
    requires s.reconciler.Scanning? && s.reconciler.todo != [] && s.reconciler.todo[0].id in s.store.devices
    ensures Exec(c, s, run) == Some(s') && s'.reconciler == Scanning(s.reconciler.now, s.reconciler.todo[1..])
    ensures s'.store == Service.ReconcileOne(c.offlineAfter, Service.View(s.store, cache), s.reconciler.now,
                                             s.reconciler.todo[0]).store
    ensures s'.log == s.log + EntriesFor(c.offlineAfter, s.reconciler.now, s.reconciler.todo[0])
  {
    var s1 := Apply(c, s, ScanStep);
    OneStep(c, s, ScanStep);
    if s1.reconciler.Scanning? {
      return [ScanStep], s1;
    }
    var s2 := Apply(c, s1, ScanStep);
    s' := Apply(c, s2, ScanStep);
    OneStep(c, s2, ScanStep);
    Then(c, s1, ScanStep, [ScanStep], s');
    run := [ScanStep] + ([ScanStep] + [ScanStep]);
    Then(c, s, ScanStep, [ScanStep] + [ScanStep], s');
  }

  /** A pass that has dealt with the first `i` devices of its listing. */
  ghost predicate PassedTo(c: Config, v: Service.View, log: seq<Entry>, now: Time, out: seq<Device>, i: nat, s: State)
    requires i <= |out|
  {
    && s.reconciler == Scanning(now, out[i..])
    && s.store == Service.PassThrough(c.offlineAfter, v, now, out[..i]).store
    && s.log == log + PassEntries(c.offlineAfter, now, out[..i])
  }

  lemma PassOne(c: Config, v: Service.View, log: seq<Entry>, now: Time, out: seq<Device>, i: nat, s: State)
    returns (run: seq<Label>, s': State)
    requires i < |out| && out[i].id in v.store.devices && PassedTo(c, v, log, now, out, i, s)
    ensures Exec(c, s, run) == Some(s') && PassedTo(c, v, log, now, out, i + 1, s')
  {
    Service.PassKeepsDevices(c.offlineAfter, v, now, out[..i]);
    run, s' := OneDevice(c, s, Service.PassThrough(c.offlineAfter, v, now, out[..i]).cache);
    assert out[i..][1..] == out[i + 1..];
    assert Front(out[..i + 1]) == out[..i];
  }

  lemma {:induction false} RestOfScan(c: Config, v: Service.View, log: seq<Entry>, now: Time, out: seq<Device>,
                                      i: nat, s: State)
    returns (run: seq<Label>, s': State)
    requires i <= |out| && (forall k :: 0 <= k < |out| ==> out[k].id in v.store.devices)
             && PassedTo(c, v, log, now, out, i, s)
    ensures Exec(c, s, run) == Some(s') && s'.reconciler == Resting
    ensures s'.store == Service.PassThrough(c.offlineAfter, v, now, out).store
    ensures s'.log == log + PassEntries(c.offlineAfter, now, out)
    decreases |out| - i
  {
    if i == |out| {
      assert out[..i] == out;
      OneStep(c, s, ScanStep);
      return [ScanStep], Apply(c, s, ScanStep);
    }
    var head, m := PassOne(c, v, log, now, out, i, s);
    var tail;
    tail, s' := RestOfScan(c, v, log, now, out, i + 1, m);
    run := head + tail;
    ExecAppend(c, s, head, m, tail, s');
  }

  lemma WholeScan(c: Config, v: Service.View, now: Time, out: seq<Device>, s: State)
    returns (run: seq<Label>, s': State)
    requires Service.Listing(v.store, out) && s.reconciler == Scanning(now, out) && s.store == v.store
    ensures Exec(c, s, run) == Some(s') && s'.reconciler == Resting
    ensures s'.store == Service.Reconciled(c.offlineAfter, v, now, Service.IdsOf(out)).store
    ensures s'.log == s.log + PassEntries(c.offlineAfter, now, out)
  {
    assert out[..0] == [] && out[0..] == out && s.log + [] == s.log;
    run, s' := RestOfScan(c, v, s.log, now, out, 0, s);
    Service.PassReconciles(c.offlineAfter, v, now, out, |out|);
    assert out[..|out|] == out;
  }

  /** A scan left alone does what a reconciliation pass does, in whatever order its snapshot lists the devices, and
      announces the same events in that order. */
  lemma ScanAlone(c: Config, s: State, now: Time, out: seq<Device>, cache: Service.Cache)
    returns (run: seq<Label>, s': State)
    requires Store.Keyed(s.store) && Enabled(s, BeginScan(now, out))
    ensures Exec(c, s, run) == Some(s') && s'.reconciler == Resting
    ensures s'.store == Service.Perform(c, Service.View(s.store, cache), Service.Reconcile(now)).store
    ensures s'.log == s.log + PassEntries(c.offlineAfter, now, out)
    ensures AnnouncedIn(PassEntries(c.offlineAfter, now, out)) == Service.SilentEvents(c.offlineAfter, now, out)
  {
    var v := Service.View(s.store, cache);
    Service.ListingCovers(s.store, out);
    var s1 := Apply(c, s, BeginScan(now, out));
    var rest;
    rest, s' := WholeScan(c, v, now, out, s1);
    run := [BeginScan(now, out)] + rest;
    Then(c, s, BeginScan(now, out), rest, s');
    PassAnnounces(c.offlineAfter, now, out);
  }
}
