/** Alerts that outlive their device: exactly the deletions that can cause them. */
module Orphans {
  import opened Models
  import opened Sequences
  import opened Pipeline
  import Store
  import Alerts
  import Pool
  import Ingestion
  import Settling
  import Scenes

  type Phase = Pool.Phase<Telemetry>

  /** A worker in this phase and stage has yet to store an alert. */
  predicate Owes(c: Config, p: Phase, stage: Stage) {
    p.Running? &&
      match stage
      case Persist => false
      case Finished => false
      case StoreAlert(pending) => pending != []
      case PublishAlert(pending) => |pending| > 1
      case _ => Alerts.Breaches(c.rules, p.job) != []
  }

  /** Some worker has yet to store an alert of the device. */
  ghost predicate Debt(c: Config, s: State, id: string) {
    exists w :: 0 <= w < |s.stages| && w < |s.pool.phases| && Owes(c, s.pool.phases[w], s.stages[w])
                && s.pool.phases[w].job.deviceId == id
  }

  ghost predicate Contained(s: State) {
    s.store.alerts.Keys <= s.store.devices.Keys
  }

  /** Alerts belong to devices that exist, stored ones and those to come. */
  ghost predicate NoOrphans(c: Config, s: State) {
    && Ingestion.OwnAlerts(s) && Contained(s)
    && forall w :: 0 <= w < |s.stages| && Owes(c, s.pool.phases[w], s.stages[w]) ==>
        s.pool.phases[w].job.deviceId in s.store.devices
  }

  /** Deleting a device while some worker has yet to store an alert of it. */
  ghost predicate Careless(c: Config, s: State, l: Label) {
    l.Manage? && l.op.DeleteDevice? && l.op.id in s.store.devices && Debt(c, s, l.op.id)
  }

  ghost predicate Careful(c: Config, s0: State, run: seq<Label>) {
    if run == [] then true else
      Careful(c, s0, Front(run))
          && (Exec(c, s0, Front(run)).Some? ==> !Careless(c, Exec(c, s0, Front(run)).value, Last(run)))
  }

  // ---------------------------------------------------------------- careful runs

  lemma JobNoOrphans(c: Config, s: State, w: nat)
    requires NoOrphans(c, s) && Enabled(s, JobStep(w))
    ensures NoOrphans(c, Apply(c, s, JobStep(w)))
  {
    var s', e := JobCases(c, s, w);
    Ingestion.OwnAlertsStep(c, s, JobStep(w));
    if e.Raised? {
      assert Ingestion.OwnStage(s.pool.phases[w].job, s.stages[w]);
      assert Owes(c, s.pool.phases[w], s.stages[w]);
    }
    assert s'.store.devices.Keys == s.store.devices.Keys;
  }

  lemma PoolNoOrphans(c: Config, s: State, l: Label)
    requires NoOrphans(c, s) && Enabled(s, l) && l.PoolStep?
    ensures NoOrphans(c, Apply(c, s, l))
  {
    Ingestion.OwnAlertsStep(c, s, l);
  }

  lemma DeleteNoOrphans(c: Config, s: State, id: string)
    requires NoOrphans(c, s) && (id in s.store.devices ==> !Debt(c, s, id))
    ensures NoOrphans(c, Apply(c, s, Manage(Store.DeleteDevice(id))))
  {
    var s' := Apply(c, s, Manage(Store.DeleteDevice(id)));
    Ingestion.OwnAlertsStep(c, s, Manage(Store.DeleteDevice(id)));
    forall w | 0 <= w < |s'.stages| && Owes(c, s'.pool.phases[w], s'.stages[w])
      ensures s'.pool.phases[w].job.deviceId in s'.store.devices
    {
      assert Owes(c, s.pool.phases[w], s.stages[w]);
    }
  }

  lemma OthersNoOrphans(c: Config, s: State, l: Label)
    requires NoOrphans(c, s) && Enabled(s, l) && !l.PoolStep? && !l.JobStep? && !(l.Manage? && l.op.DeleteDevice?)
    ensures NoOrphans(c, Apply(c, s, l))
  {
    Ingestion.OwnAlertsStep(c, s, l);
    if l.ScanStep? {
      ScanCases(c, s);
    }
  }

  lemma NoOrphansStep(c: Config, s: State, l: Label)
    requires NoOrphans(c, s) && Enabled(s, l) && !Careless(c, s, l)
    ensures NoOrphans(c, Apply(c, s, l))
  {
    if l.PoolStep? {
      PoolNoOrphans(c, s, l);
    } else if l.JobStep? {
      JobNoOrphans(c, s, l.w);
    } else if l.Manage? && l.op.DeleteDevice? {
      DeleteNoOrphans(c, s, l.op.id);
    } else {
      OthersNoOrphans(c, s, l);
    }
  }

  lemma {:induction false} StaysNoOrphans(c: Config, s0: State, run: seq<Label>, s: State)
    requires NoOrphans(c, s0) && Exec(c, s0, run) == Some(s) && Careful(c, s0, run)
    ensures NoOrphans(c, s)
  {
    if run != [] {
      var before := Exec(c, s0, Front(run)).value;
      StaysNoOrphans(c, s0, Front(run), before);
      NoOrphansStep(c, before, Last(run));
    }
  }

  /** In every run without a careless deletion, alerts exist only of existing devices. */
  lemma AlertsWithinDevices(c: Config, workers: int, queueSize: int, run: seq<Label>, s: State)
    requires Exec(c, Init(workers, queueSize), run) == Some(s) && Careful(c, Init(workers, queueSize), run)
    ensures Contained(s)
  {
    StaysNoOrphans(c, Init(workers, queueSize), run, s);
  }

  // ---------------------------------------------------------------- careless deletions

  /** Left to itself, a worker that owes an alert of a missing device gets to storing it. */
  lemma {:induction false} Pays(c: Config, s: State, w: nat, id: string) returns (run: seq<Label>, s': State)
    requires |s.stages| == |s.pool.phases| && w < |s.stages| && Owes(c, s.pool.phases[w], s.stages[w])
    requires Ingestion.OwnAlerts(s) && s.pool.phases[w].job.deviceId == id && id !in s.store.devices
    ensures Exec(c, s, run) == Some(s') && forall i :: 0 <= i < |run| ==> run[i] == JobStep(w)
    ensures id in s'.store.alerts && id !in s'.store.devices
    decreases Settling.Ahead(|c.rules|, s.stages[w])
  {
    var l, s1 := JobStep(w), Apply(c, s, JobStep(w));
    OneStep(c, s, l);
    if s.stages[w].StoreAlert? {
      assert Ingestion.OwnStage(s.pool.phases[w].job, s.stages[w]);
      return [l], s1;
    }
    JobKeepsPool(c, s, w);
    Settling.JobGetsShorter(c, s, w);
    Ingestion.OwnAlertsStep(c, s, l);
    var rest;
    rest, s' := Pays(c, s1, w, id);
    run := [l] + rest;
    ExecAppend(c, s, [l], s1, rest, s');
  }

  ghost predicate DeleteFree(run: seq<Label>) {
    forall i :: 0 <= i < |run| ==> !(run[i].Manage? && run[i].op.DeleteDevice?)
  }

  /** In every continuation that deletes nothing, alerts exist only of existing devices. */
  ghost predicate StaysContained(c: Config, s: State) {
    forall more: seq<Label> :: DeleteFree(more) && Exec(c, s, more).Some? ==> Contained(Exec(c, s, more).value)
  }

  lemma {:induction false} DeleteFreeIsCareful(c: Config, s: State, run: seq<Label>)
    requires DeleteFree(run)
    ensures Careful(c, s, run)
  {
    if run != [] {
      DeleteFreeIsCareful(c, s, Front(run));
    }
  }

  /** After a run of careful deletions, deleting a device leaves no alert behind, now or later, if and only if no
      worker has yet to store an alert of it. */
  lemma DeletionSafeExactly(c: Config, workers: int, queueSize: int, run: seq<Label>, s: State, id: string)
    requires Exec(c, Init(workers, queueSize), run) == Some(s) && Careful(c, Init(workers, queueSize), run)
    requires id in s.store.devices
    ensures StaysContained(c, Apply(c, s, Manage(Store.DeleteDevice(id)))) <==> !Debt(c, s, id)
  {
    StaysNoOrphans(c, Init(workers, queueSize), run, s);
    var s1 := Apply(c, s, Manage(Store.DeleteDevice(id)));
    if !Debt(c, s, id) {
      DeleteNoOrphans(c, s, id);
      forall more: seq<Label> | DeleteFree(more) && Exec(c, s1, more).Some? ensures Contained(Exec(c, s1, more).value) {
        DeleteFreeIsCareful(c, s1, more);
        StaysNoOrphans(c, s1, more, Exec(c, s1, more).value);
      }
    } else {
      var w :| 0 <= w < |s.stages| && w < |s.pool.phases| && Owes(c, s.pool.phases[w], s.stages[w])
               && s.pool.phases[w].job.deviceId == id;
      Ingestion.OwnAlertsStep(c, s, Manage(Store.DeleteDevice(id)));
      var more, s' := Pays(c, s1, w, id);
      assert DeleteFree(more) && Exec(c, s1, more).Some?;
      assert id in s'.store.alerts.Keys && id !in s'.store.devices.Keys;
    }
  }

  /** Under every configuration with a rule to breach, a deletion between the storing of a sample and that of its alert
      leaves an alert behind. */
  lemma AlertOutlivesDevice(c: Config, workers: int, queueSize: int, d: Device, t: Telemetry)
    returns (run: seq<Label>, s: State)
    requires Scenes.Casting(d, t) && Alerts.Breaches(c.rules, t) != []
    ensures Exec(c, Init(workers, queueSize), run) == Some(s)
    ensures d.id in s.store.alerts && d.id !in s.store.devices
  {
    var s0 := Init(workers, queueSize);
    var run1, s1 := Scenes.SecondSample(c, workers, queueSize, d, t);
    var run2, s2 := Go(c, s0, run1, s1, Manage(Store.DeleteDevice(d.id)));
    var more;
    more, s := Pays(c, s2, 0, d.id);
    run := run2 + more;
    ExecAppend(c, s0, run2, s2, more, s);
  }
}
