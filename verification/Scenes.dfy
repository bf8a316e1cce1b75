/** Concrete beginnings of pipeline runs, under any configuration, for the lemmas that show something can happen. */
module Scenes {
  import opened Models
  import opened Pipeline
  import opened Coarse
  import Store
  import Pool

  /** One worker, waiting at an empty queue, and the reconciler between two scans. */
  ghost predicate Quiet(s: State) {
    s.pool.phases == [Pool.Idle] && s.stages == [Finished] && s.pool.queue == [] && 0 < s.pool.capacity
        && s.reconciler.Resting?
  }

  /** The worker inside a job, nothing else going on. */
  ghost predicate Working(s: State, t: Telemetry, stage: Stage) {
    s.pool.phases == [Pool.Running(t)] && s.stages == [stage] && s.pool.queue == [] && 0 < s.pool.capacity
  }

  /** A new device and a sample of it. */
  predicate Casting(d: Device, t: Telemetry) {
    d.status == Unknown && d.lastSeenAt == ZERO_TIME && t.deviceId == d.id && t.timestamp != ZERO_TIME
  }

  lemma Opened(c: Config, workers: int, queueSize: int, d: Device) returns (run: seq<Label>, s: State)
    requires d.status == Unknown && d.lastSeenAt == ZERO_TIME
    ensures Exec(c, Init(workers, queueSize), run) == Some(s) && Quiet(s) && s.store.devices == map[d.id := d]
  {
    var s0 := Init(workers, queueSize);
    run, s := Go(c, s0, [], s0, Register(d));
    run, s := Go(c, s0, run, s, PoolStep(Pool.StartCall));
    run, s := Go(c, s0, run, s, PoolStep(Pool.Launch));
    assert s.pool.phases == [Pool.Idle] && s.stages == [Finished];
  }

  lemma Takes(c: Config, s0: State, run0: seq<Label>, s: State, t: Telemetry) returns (run: seq<Label>, s': State)
    requires Exec(c, s0, run0) == Some(s) && Quiet(s) && t.timestamp != ZERO_TIME
    ensures Exec(c, s0, run) == Some(s') && Working(s', t, Persist) && s'.store == s.store && s'.reconciler.Resting?
  {
    var run1, s1 := Go(c, s0, run0, s, PoolStep(Pool.Submit(t, true)));
    assert s1.pool.queue == [t];
    run, s' := Go(c, s0, run1, s1, PoolStep(Pool.Take(0, t)));
  }

  /** The worker finishes its job and waits again. */
  lemma Finishes(c: Config, s0: State, run0: seq<Label>, s: State, t: Telemetry) returns (run: seq<Label>, s': State)
    requires Exec(c, s0, run0) == Some(s) && Working(s, t, Finished) && s.reconciler.Resting?
    ensures Exec(c, s0, run) == Some(s') && Quiet(s') && s'.store == s.store
  {
    var run1, s1 := Go(c, s0, run0, s, PoolStep(Pool.Finish(0)));
    run, s' := Go(c, s0, run1, s1, PoolStep(Pool.Count(0)));
  }

  /** A whole job, after which its device is online. */
  lemma Processes(c: Config, s0: State, run0: seq<Label>, s: State, t: Telemetry) returns (run: seq<Label>, s': State)
    requires Exec(c, s0, run0) == Some(s) && Quiet(s) && t.timestamp != ZERO_TIME && t.deviceId in s.store.devices
    ensures Exec(c, s0, run) == Some(s') && Quiet(s')
    ensures s'.store.devices
            == s.store.devices[t.deviceId := Store.Mark(s.store.devices[t.deviceId], Online, t.timestamp)]
  {
    var run1, s1 := Takes(c, s0, run0, s, t);
    var job, s2 := JobAlone(c, s1, 0, t, map[]);
    ExecAppend(c, s0, run1, s1, job, s2);
    JobOnlyKeeps(c, s1, job, s2, 0);
    assert s2.stages == [Finished];
    run, s' := Finishes(c, s0, run1 + job, s2, t);
  }

  /** A device once online, and the worker about to mark it online for another sample. */
  lemma SecondSample(c: Config, workers: int, queueSize: int, d: Device, t: Telemetry)
    returns (run: seq<Label>, s: State)
    requires Casting(d, t)
    ensures Exec(c, Init(workers, queueSize), run) == Some(s) && Working(s, t, MarkOnline) && s.reconciler.Resting?
    ensures s.store.devices == map[d.id := Store.Mark(d, Online, t.timestamp)]
  {
    var s0 := Init(workers, queueSize);
    run, s := Opened(c, workers, queueSize, d);
    run, s := Processes(c, s0, run, s, t);
    run, s := Takes(c, s0, run, s, t);
    run, s := Go(c, s0, run, s, JobStep(0));
  }

  /** A scan begins and marks the only device, online and silent for long, offline. */
  lemma ScanMarks(c: Config, s0: State, run0: seq<Label>, s: State, d: Device) returns (run: seq<Label>, s': State)
    requires Exec(c, s0, run0) == Some(s) && s.reconciler.Resting? && s.store.devices == map[d.id := d]
    requires d.status == Online && d.lastSeenAt != ZERO_TIME
    ensures Exec(c, s0, run) == Some(s') && s'.reconciler.CachingOffline? && s'.reconciler.id == d.id
    ensures s'.store.devices == map[d.id := d.(status := Offline)] && s'.pool == s.pool && s'.stages == s.stages
  {
    var now := d.lastSeenAt + c.offlineAfter + 1;
    assert Snapshot(s.store, [d]);
    var run1, s1 := Go(c, s0, run0, s, BeginScan(now, [d]));
    run, s' := Go(c, s0, run1, s1, ScanStep);
  }

  /** The worker's online mark slips in between the reconciler's offline mark and what the reconciler does next. */
  lemma SlipsIn(c: Config, workers: int, queueSize: int, d: Device, t: Telemetry) returns (run: seq<Label>, s: State)
    requires Casting(d, t)
    ensures Exec(c, Init(workers, queueSize), run) == Some(s) && Working(s, t, CacheOnline)
    ensures s.reconciler.CachingOffline? && s.reconciler.id == d.id
    ensures s.store.devices == map[d.id := Store.Mark(d, Online, t.timestamp)]
  {
    var s0, up := Init(workers, queueSize), Store.Mark(d, Online, t.timestamp);
    run, s := SecondSample(c, workers, queueSize, d, t);
    run, s := ScanMarks(c, s0, run, s, up);
    run, s := Go(c, s0, run, s, JobStep(0));
    assert Store.Mark(up.(status := Offline), Online, t.timestamp) == up;
  }
}
