/** Telemetry in MongoDB. A document collection is a finite map from document ids; every database operation is atomic,
    and nothing is atomic across operations. */
module Mongo {
  import opened Models
  import opened Sequences

  type DocId = nat

  /** A stored sample: BSON dates keep whole milliseconds. */
  datatype Doc = Doc(deviceId: string, millis: int, metrics: map<string, real>)

  type Docs = map<DocId, Doc>

  function Encode(t: Telemetry): Doc {
    Doc(t.deviceId, ToMillis(t.timestamp), t.metrics)
  }

  function Decode(d: Doc): Telemetry {
    Telemetry(d.deviceId, d.millis * NANOS_PER_MILLI, d.metrics)
  }

  predicate WholeMillis(t: Time) {
    t % NANOS_PER_MILLI == 0
  }

  function Of(docs: Docs, device: string): set<DocId> {
    set i | i in docs && docs[i].deviceId == device
  }

  /** An answer to "the k documents of the device with the smallest timestamps"; ties are broken anyhow. */
  ghost predicate Oldest(docs: Docs, device: string, k: nat, ids: set<DocId>) {
    && ids <= Of(docs, device)
    && |ids| == (if k < |Of(docs, device)| then k else |Of(docs, device)|)
    && forall i, j :: i in ids && j in Of(docs, device) - ids ==> docs[i].millis <= docs[j].millis
  }

  lemma {:induction false} OldestOne(docs: Docs, ids: set<DocId>) returns (i: DocId)
    requires ids != {} && forall j :: j in ids ==> j in docs
    ensures i in ids && forall j :: j in ids ==> docs[i].millis <= docs[j].millis
    decreases |ids|
  {
    var x :| x in ids;
    if ids == {x} {
      return x;
    }
    var y := OldestOne(docs, ids - {x});
    return if docs[x].millis <= docs[y].millis then x else y;
  }

  lemma SizeLeft<T>(all: set<T>, ids: set<T>)
    requires ids <= all
    ensures |all - ids| == |all| - |ids|
  {
    assert ids + (all - ids) == all;
  }

  // ---------------------------------------------------------------- concurrent AddTelemetry calls

  /** The next database operation of an AddTelemetry call. */
  datatype Phase =
    | Checking
    | Inserting
    | Counting
    | Finding(excess: nat)
    | Deleting(ids: set<DocId>)
    | Returned

  datatype Call = Call(sample: Telemetry, phase: Phase)

  datatype State = State(devices: set<string>, docs: Docs, nextId: DocId, calls: map<nat, Call>)

  const EMPTY: State := State({}, map[], 0, map[])

  datatype Label =
    | Begin(c: nat, sample: Telemetry)
    | Check(c: nat)
    | Insert(c: nat)
    | Count(c: nat)
    | Find(c: nat, ids: set<DocId>)
    | Delete(c: nat)
    | AddDevice(device: string)
    | RemoveDevice(device: string)   // the first operation of DeleteDevice
    | Purge(device: string)          // its DeleteMany on the telemetry

  ghost predicate Enabled(s: State, l: Label) {
    match l
    case Begin(c, _) => c !in s.calls
    case Check(c) => c in s.calls && s.calls[c].phase.Checking?
    case Insert(c) => c in s.calls && s.calls[c].phase.Inserting?
    case Count(c) => c in s.calls && s.calls[c].phase.Counting?
    case Find(c, ids) =>
      && c in s.calls && s.calls[c].phase.Finding?
      && Oldest(s.docs, s.calls[c].sample.deviceId, s.calls[c].phase.excess, ids)
    case Delete(c) => c in s.calls && s.calls[c].phase.Deleting?
    case _ => true
  }

  function Move(s: State, c: nat, phase: Phase): State
    requires c in s.calls
  {
    s.(calls := s.calls[c := s.calls[c].(phase := phase)])
  }

  ghost function Apply(s: State, maxHistory: int, l: Label): State
    requires Enabled(s, l)
  {
    match l
    case Begin(c, t) => s.(calls := s.calls[c := Call(t, Checking)])
    case Check(c) => Move(s, c, if s.calls[c].sample.deviceId in s.devices then Inserting else Returned)
    case Insert(c) =>
      Move(s.(docs := s.docs[s.nextId := Encode(s.calls[c].sample)], nextId := s.nextId + 1), c,
           if maxHistory <= 0 then Returned else Counting)
    case Count(c) =>
      var count := |Of(s.docs, s.calls[c].sample.deviceId)|;
      Move(s, c, if count <= maxHistory then Returned else Finding(count - maxHistory))
    case Find(c, ids) => Move(s, c, Deleting(ids))
    case Delete(c) => Move(s.(docs := s.docs - s.calls[c].phase.ids), c, Returned)
    case AddDevice(d) => s.(devices := s.devices + {d})
    case RemoveDevice(d) => s.(devices := s.devices - {d})
    case Purge(d) => s.(docs := s.docs - Of(s.docs, d))
  }

  ghost function Exec(maxHistory: int, run: seq<Label>): Option<State> {
    if run == [] then Some(EMPTY) else
      var before := Exec(maxHistory, Front(run));
      if before.Some? && Enabled(before.value, Last(run)) then Some(Apply(before.value, maxHistory, Last(run)))
          else None
  }

  /** A call in this phase is still bound to bring the device's documents within the cap. */
  ghost predicate Obliged(docs: Docs, device: string, cap: nat, phase: Phase) {
    match phase
    case Counting => true
    case Finding(excess) => |Of(docs, device)| <= cap + excess
    case Deleting(ids) => |Of(docs, device) - ids| <= cap
    case _ => false
  }

  ghost predicate Covers(s: State, cap: nat, device: string, c: nat) {
    c in s.calls && s.calls[c].sample.deviceId == device && Obliged(s.docs, device, cap, s.calls[c].phase)
  }

  /** Within the cap, or somebody is obliged to get there. */
  ghost predicate CapCovered(s: State, cap: nat, device: string) {
    |Of(s.docs, device)| <= cap || exists c :: Covers(s, cap, device, c)
  }

  lemma SubsetCardinality<T>(a: set<T>, b: set<T>)
    requires a <= b
    ensures |a| <= |b|
  {
    if a != {} {
      var x :| x in a;
      SubsetCardinality(a - {x}, b - {x});
    }
  }

  /** Losing documents discharges nobody's obligation and breaks none. */
  lemma CoverSurvivesLoss(docs: Docs, docs': Docs, device: string, cap: nat, phase: Phase)
    requires Obliged(docs, device, cap, phase) && Of(docs', device) <= Of(docs, device)
    ensures Obliged(docs', device, cap, phase)
  {
    SubsetCardinality(Of(docs', device), Of(docs, device));
    if phase.Deleting? {
      SubsetCardinality(Of(docs', device) - phase.ids, Of(docs, device) - phase.ids);
    }
  }

  lemma LossKeepsCover(s: State, s': State, cap: nat, device: string, c: nat)
    requires Covers(s, cap, device, c) && c in s'.calls && s'.calls[c] == s.calls[c]
    requires Of(s'.docs, device) <= Of(s.docs, device)
    ensures CapCovered(s', cap, device)
  {
    CoverSurvivesLoss(s.docs, s'.docs, device, cap, s.calls[c].phase);
    assert Covers(s', cap, device, c);
  }

  lemma InsertStep(s: State, cap: nat, device: string, l: Label)
    requires cap > 0 && CapCovered(s, cap, device) && Enabled(s, l) && l.Insert?
    requires forall i :: i in s.docs ==> i < s.nextId
    ensures CapCovered(Apply(s, cap, l), cap, device)
  {
    var s' := Apply(s, cap, l);
    if s.calls[l.c].sample.deviceId == device {
      assert Covers(s', cap, device, l.c);
    } else {
      assert Of(s'.docs, device) == Of(s.docs, device);
      if |Of(s.docs, device)| > cap {
        var c :| Covers(s, cap, device, c);
        LossKeepsCover(s, s', cap, device, c);
      }
    }
  }

  /** The steps by which the covering call makes progress. */
  lemma OwnStep(s: State, cap: nat, device: string, l: Label)
    requires cap > 0 && Enabled(s, l) && (l.Count? || l.Find? || l.Delete?) && Covers(s, cap, device, l.c)
    ensures CapCovered(Apply(s, cap, l), cap, device)
  {
    var s' := Apply(s, cap, l);
    if l.Count? {
      if |Of(s.docs, device)| > cap {
        assert Covers(s', cap, device, l.c);
      }
    } else if l.Find? {
      var all := Of(s.docs, device);
      assert l.ids + (all - l.ids) == all;
      assert Covers(s', cap, device, l.c);
    } else {
      assert Of(s'.docs, device) == Of(s.docs, device) - s.calls[l.c].phase.ids;
    }
  }

  lemma OtherStep(s: State, cap: nat, device: string, l: Label, c: nat)
    requires cap > 0 && Enabled(s, l) && !l.Insert? && Covers(s, cap, device, c)
    requires (l.Check? || l.Count? || l.Find? || l.Delete?) ==> l.c != c
    ensures CapCovered(Apply(s, cap, l), cap, device)
  {
    LossKeepsCover(s, Apply(s, cap, l), cap, device, c);
  }

  lemma CapStep(s: State, cap: nat, device: string, l: Label)
    requires cap > 0 && CapCovered(s, cap, device) && Enabled(s, l)
    requires forall i :: i in s.docs ==> i < s.nextId
    ensures CapCovered(Apply(s, cap, l), cap, device)
  {
    if l.Insert? {
      InsertStep(s, cap, device, l);
    } else if |Of(s.docs, device)| > cap {
      var c :| Covers(s, cap, device, c);
      if (l.Count? || l.Find? || l.Delete?) && l.c == c {
        OwnStep(s, cap, device, l);
      } else {
        OtherStep(s, cap, device, l, c);
      }
    } else {
      SubsetCardinality(Of(Apply(s, cap, l).docs, device), Of(s.docs, device));
    }
  }

  lemma {:induction false} AlwaysCovered(cap: nat, run: seq<Label>, device: string)
    requires cap > 0 && Exec(cap, run).Some?
    ensures CapCovered(Exec(cap, run).value, cap, device)
    ensures forall i :: i in Exec(cap, run).value.docs ==> i < Exec(cap, run).value.nextId
  {
    if run != [] {
      AlwaysCovered(cap, Front(run), device);
      CapStep(Exec(cap, Front(run)).value, cap, device, Last(run));
    }
  }

  /** However the calls interleave, once every call for the device has returned at most `cap` of its documents remain.
      */
  lemma CapAtQuiescence(cap: nat, run: seq<Label>, s: State, device: string)
    requires cap > 0 && Exec(cap, run) == Some(s)
    requires forall c :: c in s.calls && s.calls[c].sample.deviceId == device ==> s.calls[c].phase.Returned?
    ensures |Of(s.docs, device)| <= cap
  {
    AlwaysCovered(cap, run, device);
  }

  /** One more step of a run, into a state given field by field. */
  lemma Extend(cap: int, run: seq<Label>, s: State, l: Label, s': State) returns (run': seq<Label>)
    requires Exec(cap, run) == Some(s) && Enabled(s, l)
    requires Apply(s, cap, l).devices == s'.devices && Apply(s, cap, l).docs == s'.docs
    requires Apply(s, cap, l).nextId == s'.nextId && Apply(s, cap, l).calls == s'.calls
    ensures run' == run + [l] && Exec(cap, run') == Some(s')
  {
    run' := run + [l];
    assert Front(run') == run;
  }

  /** Two calls that both count before either deletes. */
  ghost function Two(a: Telemetry, b: Telemetry, docs: Docs, phaseA: Phase, phaseB: Phase): State {
    State({a.deviceId}, docs, 2, map[0 := Call(a, phaseA), 1 := Call(b, phaseB)])
  }

  lemma FirstInserted(a: Telemetry) returns (run: seq<Label>)
    ensures Exec(1, run) == Some(State({a.deviceId}, map[0 := Encode(a)], 1, map[0 := Call(a, Counting)]))
  {
    var d := a.deviceId;
    run := Extend(1, [], EMPTY, AddDevice(d), State({d}, map[], 0, map[]));
    run := Extend(1, run, State({d}, map[], 0, map[]), Begin(0, a), State({d}, map[], 0, map[0 := Call(a, Checking)]));
    run := Extend(1, run, State({d}, map[], 0, map[0 := Call(a, Checking)]), Check(0),
                  State({d}, map[], 0, map[0 := Call(a, Inserting)]));
    run := Extend(1, run, State({d}, map[], 0, map[0 := Call(a, Inserting)]), Insert(0),
                  State({d}, map[0 := Encode(a)], 1, map[0 := Call(a, Counting)]));
  }

  lemma BothInserted(a: Telemetry, b: Telemetry) returns (run: seq<Label>)
    requires a.deviceId == b.deviceId
    ensures Exec(1, run) == Some(Two(a, b, map[0 := Encode(a), 1 := Encode(b)], Counting, Counting))
  {
    run := FirstInserted(a);
    var d, one := a.deviceId, map[0 := Encode(a)];
    var s0 := State({d}, one, 1, map[0 := Call(a, Counting)]);
    var s1 := State({d}, one, 1, map[0 := Call(a, Counting), 1 := Call(b, Checking)]);
    var s2 := State({d}, one, 1, map[0 := Call(a, Counting), 1 := Call(b, Inserting)]);
    run := Extend(1, run, s0, Begin(1, b), s1);
    run := Extend(1, run, s1, Check(1), s2);
    run := Extend(1, run, s2, Insert(1), Two(a, b, map[0 := Encode(a), 1 := Encode(b)], Counting, Counting));
  }
}
