/** MongoStore without overlapping calls: the store as an object, and its calls as runs of their database operations. */
module MongoSerial {
  import opened Models
  import opened Sequences
  import opened Mongo
  import Sorting
  import Store

  /** A collection with its id generator, and the registered devices. */
  datatype Db = Db(devices: set<string>, docs: Docs, nextId: DocId)

  const EMPTY_DB: Db := Db({}, map[], 0)

  /** The collection once the excess over the cap has been removed, oldest first. */
  ghost predicate Trimmed(docs: Docs, device: string, maxHistory: int, docs': Docs) {
    if maxHistory <= 0 || |Of(docs, device)| <= maxHistory then docs' == docs
    else exists ids :: Oldest(docs, device, |Of(docs, device)| - maxHistory, ids) && docs' == docs - ids
  }

  /** One call, run without interference. */
  ghost predicate Serially(db: Db, maxHistory: int, op: Store.Op, db': Db) {
    match op
    case CreateDevice(d) => db' == db.(devices := db.devices + {d.id})
    case DeleteDevice(id) =>
      db' == if id in db.devices then db.(devices := db.devices - {id}, docs := db.docs - Of(db.docs, id)) else db
    case AddTelemetry(t) =>
      if t.deviceId !in db.devices then db' == db
      else
        && Trimmed(db.docs[db.nextId := Encode(t)], t.deviceId, maxHistory, db'.docs)
        && db' == Db(db.devices, db'.docs, db.nextId + 1)
    case _ => db' == db
  }

  // ---------------------------------------------------------------- queries

  predicate Matches(docs: Docs, device: string, since: Time, i: DocId)
    requires i in docs
  {
    docs[i].deviceId == device && (since == ZERO_TIME || docs[i].millis >= ToMillis(since))
  }

  function Matching(docs: Docs, device: string, since: Time): set<DocId> {
    set i | i in docs && Matches(docs, device, since, i)
  }

  /** Every member once. */
  ghost predicate Lists(ids: seq<DocId>, members: set<DocId>) {
    multiset(ids) == multiset(members)
  }

  function Millis(docs: Docs, i: DocId): int {
    if i in docs then docs[i].millis else 0
  }

  ghost predicate Ascending(docs: Docs, ids: seq<DocId>) {
    forall i, j :: 0 <= i < j < |ids| ==> Millis(docs, ids[i]) <= Millis(docs, ids[j])
  }

  function Decoded(docs: Docs, ids: seq<DocId>): seq<Telemetry>
    requires forall k :: 0 <= k < |ids| ==> ids[k] in docs
  {
    seq(|ids|, k requires 0 <= k < |ids| => Decode(docs[ids[k]]))
  }

  /** An answer GetTelemetry may give: the last `limit` of the matching documents in ascending order of time. */
  ghost predicate Answers(docs: Docs, device: string, since: Time, limit: int, out: seq<Telemetry>) {
    exists ids :: Yields(docs, device, since, limit, ids, out)
  }

  ghost predicate Yields(docs: Docs, device: string, since: Time, limit: int, ids: seq<DocId>, out: seq<Telemetry>) {
    && Lists(ids, Matching(docs, device, since)) && Ascending(docs, ids)
    && (forall k :: 0 <= k < |ids| ==> ids[k] in docs)
    && out == Decoded(docs, Keep(ids, limit))
  }

  lemma ListsMembers(ids: seq<DocId>, members: set<DocId>)
    requires Lists(ids, members)
    ensures (forall i :: i in ids <==> i in members) && |ids| == |members|
  {
    assert forall i :: i in ids <==> i in multiset(ids);
    assert |multiset(ids)| == |ids| && |multiset(members)| == |members|;
  }

  // ---------------------------------------------------------------- the store as an object

  /** A device as its document gives it back. */
  function RoundedDown(d: Device): Device {
    d.(registeredAt := ToMillis(d.registeredAt) * NANOS_PER_MILLI,
       lastSeenAt := ToMillis(d.lastSeenAt) * NANOS_PER_MILLI)
  }

  /** A document keeps everything but the fraction of a millisecond, in each of its times. */
  lemma RoundingLoses(d: Device)
    ensures var r := RoundedDown(d);
            && r.registeredAt <= d.registeredAt < r.registeredAt + 1_000_000 && r.registeredAt % 1_000_000 == 0
            && r.lastSeenAt <= d.lastSeenAt < r.lastSeenAt + 1_000_000 && r.lastSeenAt % 1_000_000 == 0
            && d == r.(registeredAt := d.registeredAt, lastSeenAt := d.lastSeenAt) && RoundedDown(r) == r
  {
  }

  /** The alerts of all devices but one, in order. */
  function Without(alerts: seq<Alert>, id: string): seq<Alert> {
    if alerts == [] then []
    else if Last(alerts).deviceId == id then Without(Front(alerts), id)
    else Without(Front(alerts), id) + [Last(alerts)]
  }

  /** What DeleteMany leaves: nothing of the device, and of the others all. */
  lemma {:induction false} WithoutExactly(alerts: seq<Alert>, id: string, a: Alert)
    ensures multiset(Without(alerts, id))[a] == if a.deviceId == id then 0 else multiset(alerts)[a]
  {
    if alerts != [] {
      WithoutExactly(Front(alerts), id, a);
      FrontLast(alerts);
    }
  }

  /** In the order they were in. */
  lemma {:induction false} WithoutInOrder(alerts: seq<Alert>, id: string)
    ensures Subsequence(Without(alerts, id), alerts)
  {
    if alerts != [] {
      WithoutInOrder(Front(alerts), id);
      FrontLast(alerts);
      SubsequenceExtend(Without(Front(alerts), id), Front(alerts), Last(alerts));
    }
  }

  class MongoStore {
    var devices: map<string, Device>
    var docs: Docs
    var nextId: DocId
    var alerts: seq<Alert>
    const maxHistory: int

    function View(): Db
      reads this
    {
      Db(devices.Keys, docs, nextId)
    }

    /** The driver's Find with a filter, a sort on the timestamp and a limit; `full` is what it would list unlimited. */
    method Find(matching: set<DocId>, descending: bool, limit: int) returns (ids: seq<DocId>, ghost full: seq<DocId>)
      ensures Lists(full, matching)
      ensures Sorting.SortedBy(full, Key(docs, descending))
      ensures ids == if 0 < limit < |full| then full[..limit] else full
    {
      var rest, listed := matching, [];
      while rest != {}
        invariant multiset(listed) + multiset(rest) == multiset(matching)
      {
        var i :| i in rest;
        listed := listed + [i];
        assert multiset(rest) == multiset(rest - {i}) + multiset{i};
        rest := rest - {i};
      }
      ids := Sorting.Sort(listed, Key(docs, descending));
      full := ids;
      if 0 < limit < |ids| {
        ids := ids[..limit];
      }
    }

    method CreateDevice(d: Device) returns (ok: bool)
      modifies this
      ensures ok == (d.id !in old(devices)) && alerts == old(alerts)
      ensures devices == if ok then old(devices)[d.id := RoundedDown(d)] else old(devices)
      ensures Serially(old(View()), maxHistory, Store.Op.CreateDevice(d), View())
    {
      ok := d.id !in devices;
      if ok {
        devices := devices[d.id := RoundedDown(d)];
      }
    }

    method DeleteDevice(id: string) returns (ok: bool)
      modifies this
      ensures ok == (id in old(devices)) && devices == old(devices) - {id}
      ensures alerts == if ok then Without(old(alerts), id) else old(alerts)
      ensures Serially(old(View()), maxHistory, Store.Op.DeleteDevice(id), View())
    {
      if id !in devices {
        return false;
      }
      devices := devices - {id};
      docs := docs - Of(docs, id);
      alerts := Without(alerts, id);
      return true;
    }

    method AddAlert(a: Alert)
      modifies this
      ensures alerts == old(alerts) + [a] && devices == old(devices) && View() == old(View())
    {
      alerts := alerts + [a];
    }

    method AddTelemetry(t: Telemetry) returns (ok: bool)
      modifies this
      ensures ok == (t.deviceId in devices) && devices == old(devices) && alerts == old(alerts)
      ensures Serially(old(View()), maxHistory, Store.Op.AddTelemetry(t), View())
    {
      if t.deviceId !in devices {
        return false;
      }
      docs := docs[nextId := Encode(t)];
      nextId := nextId + 1;
      TrimHistory(t.deviceId);
      return true;
    }

    method TrimHistory(device: string)
      modifies this`docs
      ensures Trimmed(old(docs), device, maxHistory, docs)
    {
      if maxHistory <= 0 {
        return;
      }
      var count := |Of(docs, device)|;
      if count <= maxHistory {
        return;
      }
      var excess := count - maxHistory;
      var cursor, full := Find(Of(docs, device), false, excess);
      var ids := Collect(cursor);
      ListsMembers(full, Of(docs, device));
      AscendingKey(docs, full);
      PrefixIsOldest(docs, device, full, excess, ids);
      docs := docs - ids;
    }

    method GetTelemetry(device: string, since: Time, limit: int) returns (out: seq<Telemetry>)
      ensures Answers(docs, device, since, limit, out)
    {
      var cursor, full := Find(Matching(docs, device, since), limit > 0, limit);
      ListsMembers(full, Matching(docs, device, since));
      assert forall k :: 0 <= k < |full| ==> full[k] in Matching(docs, device, since);
      assert forall k :: 0 <= k < |cursor| ==> cursor[k] in full;
      var decoded := Decoded(docs, cursor);
      var a := new Telemetry[|cursor|](k requires 0 <= k < |decoded| => decoded[k]);
      assert a[..] == decoded;
      if limit > 0 {
        Reverse(a);
        NewestReversed(docs, device, since, limit, full, cursor);
      } else {
        AscendingKey(docs, full);
        assert Yields(docs, device, since, limit, full, decoded);
      }
      out := a[..];
    }
  }

  /** The cursor loop of trimHistory. */
  method Collect(cursor: seq<DocId>) returns (ids: set<DocId>)
    ensures ids == Elements(cursor)
  {
    ids := {};
    for k := 0 to |cursor|
      invariant ids == Elements(cursor[..k])
    {
      assert cursor[..k + 1] == cursor[..k] + [cursor[k]];
      ids := ids + {cursor[k]};
    }
    assert cursor[..|cursor|] == cursor;
  }

  lemma BackwardsAscends(docs: Docs, full: seq<DocId>)
    requires Sorting.SortedBy(full, Key(docs, true))
    ensures Ascending(docs, Backwards(full))
  {
    var ids := Backwards(full);
    forall i, j | 0 <= i < j < |ids| ensures Millis(docs, ids[i]) <= Millis(docs, ids[j]) {
      assert Key(docs, true)(full[|full| - 1 - j]) <= Key(docs, true)(full[|full| - 1 - i]);
    }
  }

  /** Newest first, cut and reversed, is the end of oldest first. */
  lemma NewestReversed(docs: Docs, device: string, since: Time, limit: int, full: seq<DocId>, cursor: seq<DocId>)
    requires limit > 0 && Lists(full, Matching(docs, device, since)) && Sorting.SortedBy(full, Key(docs, true))
    requires forall k :: 0 <= k < |full| ==> full[k] in docs
    requires cursor == if limit < |full| then full[..limit] else full
    ensures Answers(docs, device, since, limit, Backwards(Decoded(docs, cursor)))
  {
    var ids := Backwards(full);
    BackwardsLists(full);
    BackwardsAscends(docs, full);
    assert Yields(docs, device, since, limit, ids, Backwards(Decoded(docs, cursor)));
  }

  function Key(docs: Docs, descending: bool): DocId -> int {
    (i: DocId) => if descending then -Millis(docs, i) else Millis(docs, i)
  }

  function Backwards<T>(s: seq<T>): seq<T> {
    seq(|s|, k requires 0 <= k < |s| => s[|s| - 1 - k])
  }

  lemma {:induction false} BackwardsLists<T>(s: seq<T>)
    ensures multiset(Backwards(s)) == multiset(s)
  {
    if s != [] {
      BackwardsLists(Front(s));
      assert Backwards(s) == [Last(s)] + Backwards(Front(s));
      FrontLast(s);
    }
  }

  /** The swap loop at the end of GetTelemetry. */
  method Reverse<T>(a: array<T>)
    modifies a
    ensures a[..] == Backwards(old(a[..]))
  {
    var i, j := 0, a.Length - 1;
    while i < j
      invariant 0 <= i <= j + 2 && i + j == a.Length - 1
      invariant forall k :: 0 <= k < i || j < k < a.Length ==> a[k] == old(a[a.Length - 1 - k])
      invariant forall k :: i <= k <= j ==> a[k] == old(a[k])
    {
      a[i], a[j] := a[j], a[i];
      i, j := i + 1, j - 1;
    }
  }

  lemma AscendingKey(docs: Docs, ids: seq<DocId>)
    requires Sorting.SortedBy(ids, Key(docs, false))
    ensures Ascending(docs, ids)
  {
    forall i, j | 0 <= i < j < |ids| ensures Millis(docs, ids[i]) <= Millis(docs, ids[j]) {
      assert Key(docs, false)(ids[i]) <= Key(docs, false)(ids[j]);
    }
  }

  lemma ListsOnce(ids: seq<DocId>, members: set<DocId>, k: nat)
    requires Lists(ids, members) && k < |ids|
    ensures ids[k] !in ids[..k] && ids[k] !in ids[k + 1..]
  {
    assert ids == ids[..k] + [ids[k]] + ids[k + 1..];
    assert multiset(ids) == multiset(ids[..k]) + multiset{ids[k]} + multiset(ids[k + 1..]);
    assert multiset(ids)[ids[k]] <= 1;
  }

  lemma ElementsAppend(ids: seq<DocId>, i: DocId)
    ensures Elements(ids + [i]) == Elements(ids) + {i}
    ensures i !in ids ==> |Elements(ids + [i])| == |Elements(ids)| + 1
  {
    assert Elements(ids + [i]) == Elements(ids) + {i};
  }

  lemma {:induction false} PrefixSize(ids: seq<DocId>, members: set<DocId>, k: nat)
    requires Lists(ids, members) && k <= |ids|
    ensures |Elements(ids[..k])| == k
  {
    if k > 0 {
      PrefixSize(ids, members, k - 1);
      ListsOnce(ids, members, k - 1);
      assert ids[..k] == ids[..k - 1] + [ids[k - 1]];
      ElementsAppend(ids[..k - 1], ids[k - 1]);
    }
  }

  lemma PrefixIsOldest(docs: Docs, device: string, full: seq<DocId>, k: nat, ids: set<DocId>)
    requires Lists(full, Of(docs, device)) && Ascending(docs, full) && k < |full|
    requires ids == Elements(full[..k])
    ensures Oldest(docs, device, k, ids)
  {
    ListsMembers(full, Of(docs, device));
    PrefixSize(full, Of(docs, device), k);
    assert full == full[..k] + full[k..];
    forall i | i in ids ensures i in Of(docs, device) {
      assert i in full;
    }
    forall i, j | i in ids && j in Of(docs, device) - ids ensures docs[i].millis <= docs[j].millis {
      var x :| 0 <= x < k && full[x] == i;
      var y :| 0 <= y < |full| && full[y] == j;
      assert Millis(docs, full[x]) <= Millis(docs, full[y]);
    }
  }

  // ---------------------------------------------------------------- the two views of AddTelemetry

  /** A state with call `c` moved to a phase, over given documents. */
  ghost function With(s: State, docs: Docs, nextId: DocId, c: nat, t: Telemetry, phase: Phase): State {
    State(s.devices, docs, nextId, s.calls[c := Call(t, phase)])
  }

  /** Run alone, the operations of an AddTelemetry call amount to the serial call. */
  lemma AloneIsSerial(maxHistory: int, run: seq<Label>, s: State, c: nat, t: Telemetry, db: Db)
    returns (run': seq<Label>)
    requires Exec(maxHistory, run) == Some(s) && c !in s.calls
    requires Serially(Db(s.devices, s.docs, s.nextId), maxHistory, Store.AddTelemetry(t), db)
    ensures run <= run' && Exec(maxHistory, run') == Some(With(s, db.docs, db.nextId, c, t, Returned))
  {
    run' := Extend(maxHistory, run, s, Begin(c, t), With(s, s.docs, s.nextId, c, t, Checking));
    if t.deviceId !in s.devices {
      run' := Extend(maxHistory, run', With(s, s.docs, s.nextId, c, t, Checking), Check(c),
                     With(s, s.docs, s.nextId, c, t, Returned));
    } else {
      run' := Extend(maxHistory, run', With(s, s.docs, s.nextId, c, t, Checking), Check(c),
                     With(s, s.docs, s.nextId, c, t, Inserting));
      run' := InsertAlone(maxHistory, run', s, c, t, db);
    }
  }

  lemma InsertAlone(maxHistory: int, run: seq<Label>, s: State, c: nat, t: Telemetry, db: Db) returns (run': seq<Label>)
    requires Exec(maxHistory, run) == Some(With(s, s.docs, s.nextId, c, t, Inserting))
    requires Trimmed(s.docs[s.nextId := Encode(t)], t.deviceId, maxHistory, db.docs) && db.nextId == s.nextId + 1
    ensures run <= run' && Exec(maxHistory, run') == Some(With(s, db.docs, db.nextId, c, t, Returned))
  {
    var docs, n := s.docs[s.nextId := Encode(t)], s.nextId + 1;
    run' := Extend(maxHistory, run, With(s, s.docs, s.nextId, c, t, Inserting), Insert(c),
                   With(s, docs, n, c, t, if maxHistory <= 0 then Returned else Counting));
    if maxHistory > 0 {
      run' := CountAlone(maxHistory, run', s, docs, n, c, t, db.docs);
    }
  }

  lemma CountAlone(maxHistory: int, run: seq<Label>, s: State, docs: Docs, n: DocId, c: nat, t: Telemetry, docs': Docs)
    returns (run': seq<Label>)
    requires Exec(maxHistory, run) == Some(With(s, docs, n, c, t, Counting)) && 0 < maxHistory
    requires Trimmed(docs, t.deviceId, maxHistory, docs')
    ensures run <= run' && Exec(maxHistory, run') == Some(With(s, docs', n, c, t, Returned))
  {
    if |Of(docs, t.deviceId)| <= maxHistory {
      run' := Extend(maxHistory, run, With(s, docs, n, c, t, Counting), Count(c), With(s, docs, n, c, t, Returned));
    } else {
      var ids :| Oldest(docs, t.deviceId, |Of(docs, t.deviceId)| - maxHistory, ids) && docs' == docs - ids;
      run' := TrimAlone(maxHistory, run, s, docs, n, c, t, ids);
    }
  }

  lemma TrimAlone(maxHistory: int, run: seq<Label>, s: State, docs: Docs, n: DocId, c: nat, t: Telemetry,
                  ids: set<DocId>)
    returns (run': seq<Label>)
    requires Exec(maxHistory, run) == Some(With(s, docs, n, c, t, Counting)) && 0 < maxHistory < |Of(docs, t.deviceId)|
    requires Oldest(docs, t.deviceId, |Of(docs, t.deviceId)| - maxHistory, ids)
    ensures run <= run' && Exec(maxHistory, run') == Some(With(s, docs - ids, n, c, t, Returned))
  {
    var excess := |Of(docs, t.deviceId)| - maxHistory;
    run' := Extend(maxHistory, run, With(s, docs, n, c, t, Counting), Count(c),
                   With(s, docs, n, c, t, Finding(excess)));
    run' := Extend(maxHistory, run', With(s, docs, n, c, t, Finding(excess)), Label.Find(c, ids),
                   With(s, docs, n, c, t, Deleting(ids)));
    run' := Extend(maxHistory, run', With(s, docs, n, c, t, Deleting(ids)), Delete(c),
                   With(s, docs - ids, n, c, t, Returned));
  }

  /** DeleteDevice run alone: its two operations on what is modelled here amount to the serial call. */
  lemma DeletionIsSerial(maxHistory: int, run: seq<Label>, s: State, id: string, db: Db)
    requires Exec(maxHistory, run) == Some(s) && id in s.devices
    requires Serially(Db(s.devices, s.docs, s.nextId), maxHistory, Store.Op.DeleteDevice(id), db)
    ensures Exec(maxHistory, run + [RemoveDevice(id)] + [Purge(id)])
         == Some(State(db.devices, db.docs, db.nextId, s.calls))
    ensures id !in db.devices && Of(db.docs, id) == {} && db.nextId == s.nextId
    ensures forall x :: x != id ==> (x in db.devices <==> x in s.devices) && Of(db.docs, x) == Of(s.docs, x)
  {
    var first := run + [RemoveDevice(id)];
    var mid := State(s.devices - {id}, s.docs, s.nextId, s.calls);
    var _ := Extend(maxHistory, run, s, RemoveDevice(id), mid);
    var _ := Extend(maxHistory, first, mid, Purge(id), State(db.devices, db.docs, db.nextId, s.calls));
  }

  // ---------------------------------------------------------------- and nothing else

  lemma TrimmedCount(docs: Docs, device: string, maxHistory: int, docs': Docs)
    requires Trimmed(docs, device, maxHistory, docs')
    ensures |Of(docs', device)| == if 0 < maxHistory < |Of(docs, device)| then maxHistory else |Of(docs, device)|
  {
    if 0 < maxHistory < |Of(docs, device)| {
      var ids :| Oldest(docs, device, |Of(docs, device)| - maxHistory, ids) && docs' == docs - ids;
      SizeLeft(Of(docs, device), ids);
      assert Of(docs', device) == Of(docs, device) - ids;
    }
  }

  predicate IsStepOf(l: Label, c: nat) {
    (l.Check? || l.Insert? || l.Count? || l.Find? || l.Delete?) && l.c == c
  }

  /** How far a call has come since it began over `before`, nobody else having done anything. */
  ghost predicate SoFar(before: Db, maxHistory: int, s: State, c: nat, t: Telemetry) {
    && c in s.calls && s.calls[c].sample == t && s.devices == before.devices
    && match s.calls[c].phase
       case Checking => s.docs == before.docs && s.nextId == before.nextId
       case Inserting => s.docs == before.docs && s.nextId == before.nextId && t.deviceId in before.devices
       case Returned => Serially(before, maxHistory, Store.AddTelemetry(t), Db(s.devices, s.docs, s.nextId))
       case Counting => HasInserted(before, maxHistory, s, t)
       case Finding(excess) => HasInserted(before, maxHistory, s, t)
           && 0 < excess == |Of(s.docs, t.deviceId)| - maxHistory
       case Deleting(ids) =>
         && HasInserted(before, maxHistory, s, t) && maxHistory < |Of(s.docs, t.deviceId)|
         && Oldest(s.docs, t.deviceId, |Of(s.docs, t.deviceId)| - maxHistory, ids)
  }

  ghost predicate HasInserted(before: Db, maxHistory: int, s: State, t: Telemetry) {
    && t.deviceId in before.devices && 0 < maxHistory
    && s.docs == before.docs[before.nextId := Encode(t)] && s.nextId == before.nextId + 1
  }

  lemma SoFarStep(before: Db, maxHistory: int, s: State, c: nat, t: Telemetry, l: Label)
    requires SoFar(before, maxHistory, s, c, t) && Enabled(s, l) && IsStepOf(l, c)
    ensures SoFar(before, maxHistory, Apply(s, maxHistory, l), c, t)
  {
  }

  ghost predicate StepsOf(run: seq<Label>, c: nat) {
    forall i :: 0 <= i < |run| ==> IsStepOf(run[i], c)
  }

  lemma {:induction false} SoloOn(before: Db, maxHistory: int, run: seq<Label>, m: State, more: seq<Label>, s: State,
                                  c: nat, t: Telemetry)
    requires Exec(maxHistory, run) == Some(m) && SoFar(before, maxHistory, m, c, t)
    requires Exec(maxHistory, run + more) == Some(s) && StepsOf(more, c)
    ensures SoFar(before, maxHistory, s, c, t)
  {
    if more == [] {
      assert run + more == run;
    } else {
      assert Front(run + more) == run + Front(more) && Last(run + more) == Last(more);
      var last := Exec(maxHistory, run + Front(more)).value;
      SoloOn(before, maxHistory, run, m, Front(more), last, c, t);
      SoFarStep(before, maxHistory, last, c, t, Last(more));
    }
  }

  /** However a call run alone goes, when it returns it has done what the serial call may do. */
  lemma SoloIsSerial(maxHistory: int, run: seq<Label>, s: State, c: nat, t: Telemetry, more: seq<Label>, s': State)
    requires Exec(maxHistory, run) == Some(s) && c !in s.calls
    requires Exec(maxHistory, run + [Begin(c, t)] + more) == Some(s') && StepsOf(more, c)
    requires c in s'.calls && s'.calls[c].phase.Returned?
    ensures Serially(Db(s.devices, s.docs, s.nextId), maxHistory, Store.AddTelemetry(t),
                     Db(s'.devices, s'.docs, s'.nextId))
  {
    assert Front(run + [Begin(c, t)]) == run && Last(run + [Begin(c, t)]) == Begin(c, t);
    SoloOn(Db(s.devices, s.docs, s.nextId), maxHistory, run + [Begin(c, t)], Apply(s, maxHistory, Begin(c, t)), more,
           s', c, t);
  }
}
