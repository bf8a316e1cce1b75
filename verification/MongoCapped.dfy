/** MongoStore against MemoryStore past the cap: which samples serial calls leave in the database, and when these are
    the ones MemoryStore keeps. */
module MongoCapped {
  import opened Models
  import opened Sequences
  import opened Mongo
  import opened MongoSerial
  import opened MongoAgreement
  import MongoRetention
  import Store

  // ---------------------------------------------------------------- documents as a bag

  ghost function Copies(docs: Docs, device: string, x: Doc): set<DocId> {
    set i | i in Of(docs, device) && docs[i] == x
  }

  /** The device's documents, ids aside. */
  ghost predicate HasBag(docs: Docs, device: string, bag: multiset<Doc>) {
    forall x :: bag[x] == |Copies(docs, device, x)|
  }

  lemma CopiesInsert(docs: Docs, device: string, id: DocId, x: Doc, y: Doc)
    requires id !in docs && x.deviceId == device
    ensures |Copies(docs[id := x], device, y)| == |Copies(docs, device, y)| + if y == x then 1 else 0
  {
    var so := Copies(docs, device, y);
    assert id !in so;
    assert Copies(docs[id := x], device, y) == if y == x then so + {id} else so;
  }

  lemma BagInsert(docs: Docs, device: string, bag: multiset<Doc>, id: DocId, x: Doc)
    requires HasBag(docs, device, bag) && id !in docs && x.deviceId == device
    ensures HasBag(docs[id := x], device, bag + multiset{x})
  {
    forall y ensures (bag + multiset{x})[y] == |Copies(docs[id := x], device, y)| {
      CopiesInsert(docs, device, id, x, y);
    }
  }

  lemma BagRemove(docs: Docs, device: string, bag: multiset<Doc>, i: DocId)
    requires HasBag(docs, device, bag) && i in Of(docs, device)
    ensures docs[i] in bag && HasBag(docs - {i}, device, bag - multiset{docs[i]})
  {
    assert i in Copies(docs, device, docs[i]);
    forall y ensures (bag - multiset{docs[i]})[y] == |Copies(docs - {i}, device, y)| {
      assert Copies(docs - {i}, device, y) == Copies(docs, device, y) - {i};
      if y == docs[i] {
        SizeLeft(Copies(docs, device, y), {i});
      }
    }
  }

  lemma BagHolds(docs: Docs, device: string, bag: multiset<Doc>, x: Doc) returns (i: DocId)
    requires HasBag(docs, device, bag) && x in bag
    ensures i in Of(docs, device) && docs[i] == x
  {
    assert Copies(docs, device, x) != {};
    i :| i in Copies(docs, device, x);
  }

  /** Any listing of the documents has their bag for contents. */
  lemma {:induction false} BagListed(docs: Docs, device: string, ids: seq<DocId>)
    requires Lists(ids, Of(docs, device)) && Stored(docs, ids)
    ensures HasBag(docs, device, multiset(Contents(docs, ids)))
    decreases |ids|
  {
    ListsMembers(ids, Of(docs, device));
    if ids == [] {
      forall x ensures multiset(Contents(docs, ids))[x] == |Copies(docs, device, x)| {
        assert Copies(docs, device, x) == {};
      }
    } else {
      var last, front, less := Last(ids), Front(ids), docs - {Last(ids)};
      ListsOnce(ids, Of(docs, device), |ids| - 1);
      assert ids[..|ids| - 1] == front;
      assert Of(less, device) == Of(docs, device) - {last};
      MultisetFront(ids);
      assert multiset(Of(less, device)) == multiset(Of(docs, device)) - multiset{last};
      BagListed(less, device, front);
      BagInsert(less, device, multiset(Contents(less, front)), last, docs[last]);
      assert less[last := docs[last]] == docs;
      assert Contents(docs, ids) == Contents(less, front) + [docs[last]];
    }
  }

  lemma BagUnique(docs: Docs, device: string, a: multiset<Doc>, b: multiset<Doc>)
    requires HasBag(docs, device, a) && HasBag(docs, device, b)
    ensures a == b
  {
    assert forall x :: a[x] == b[x];
  }

  lemma BagSize(docs: Docs, device: string, bag: multiset<Doc>)
    requires HasBag(docs, device, bag)
    ensures |bag| == |Of(docs, device)|
  {
    var ids := AscendingListing(docs, Of(docs, device));
    ListsMembers(ids, Of(docs, device));
    BagListed(docs, device, ids);
    BagUnique(docs, device, bag, multiset(Contents(docs, ids)));
  }

  // ---------------------------------------------------------------- the newest samples

  function Encoded(series: seq<Telemetry>): seq<Doc> {
    seq(|series|, i requires 0 <= i < |series| => Encode(series[i]))
  }

  function Size(maxHistory: int, log: seq<Telemetry>): nat {
    if Within(maxHistory, log) then |log| else maxHistory
  }

  ghost predicate NoNewer(gone: multiset<Doc>, kept: multiset<Doc>) {
    forall g, k :: g in gone && k in kept ==> g.millis <= k.millis
  }

  /** A way of keeping the newest samples up to the cap; among those of one millisecond any may go. */
  ghost predicate Selection(log: seq<Telemetry>, maxHistory: int, kept: multiset<Doc>, gone: multiset<Doc>) {
    kept + gone == multiset(Encoded(log)) && |kept| == Size(maxHistory, log) && NoNewer(gone, kept)
  }

  ghost predicate Selected(db: Db, maxHistory: int, device: string, log: Option<seq<Telemetry>>,
                           kept: multiset<Doc>, gone: multiset<Doc>) {
    && (forall i :: i in db.docs ==> i < db.nextId)
    && (log.None? ==> device !in db.devices && Of(db.docs, device) == {})
    && (log.Some? ==> device in db.devices && HasBag(db.docs, device, kept))
    && (log.Some? ==> Selection(log.value, maxHistory, kept, gone))
  }

  lemma EncodedAppend(log: seq<Telemetry>, t: Telemetry)
    ensures multiset(Encoded(log + [t])) == multiset(Encoded(log)) + multiset{Encode(t)}
  {
    assert Encoded(log + [t]) == Encoded(log) + [Encode(t)];
  }

  lemma NothingGone(log: seq<Telemetry>, maxHistory: int, kept: multiset<Doc>, gone: multiset<Doc>)
    requires Selection(log, maxHistory, kept, gone) && Within(maxHistory, log)
    ensures gone == multiset{}
  {
    assert |kept + gone| == |kept| + |gone| && |multiset(Encoded(log))| == |log|;
  }

  /** One sample more, and the oldest of all dropped. */
  lemma DropOldest(log: seq<Telemetry>, maxHistory: int, t: Telemetry, kept: multiset<Doc>, gone: multiset<Doc>, r: Doc)
    requires Selection(log, maxHistory, kept, gone) && !Within(maxHistory, log + [t])
    requires r in kept + multiset{Encode(t)} && forall k :: k in kept + multiset{Encode(t)} ==> r.millis <= k.millis
    ensures Selection(log + [t], maxHistory, kept + multiset{Encode(t)} - multiset{r}, gone + multiset{r})
  {
    var e := Encode(t);
    var kept', gone' := kept + multiset{e} - multiset{r}, gone + multiset{r};
    EncodedAppend(log, t);
    assert kept' + gone' == kept + gone + multiset{e};
    forall g, k | g in gone' && k in kept' ensures g.millis <= k.millis {
      assert k in kept + multiset{e};
      if g in gone && k !in kept {
        assert k == e && r in kept;
      }
    }
  }

  lemma KeepOneMore(log: seq<Telemetry>, maxHistory: int, t: Telemetry, kept: multiset<Doc>, gone: multiset<Doc>)
    requires Selection(log, maxHistory, kept, gone) && Within(maxHistory, log + [t])
    ensures Selection(log + [t], maxHistory, kept + multiset{Encode(t)}, gone)
  {
    NothingGone(log, maxHistory, kept, gone);
    EncodedAppend(log, t);
  }

  // ---------------------------------------------------------------- every serial run keeps the newest

  lemma SelectOnSample(db: Db, maxHistory: int, t: Telemetry, db': Db, log: seq<Telemetry>,
                       kept: multiset<Doc>, gone: multiset<Doc>)
    returns (kept': multiset<Doc>, gone': multiset<Doc>)
    requires Selected(db, maxHistory, t.deviceId, Some(log), kept, gone)
    requires Serially(db, maxHistory, Store.AddTelemetry(t), db')
    ensures Selected(db', maxHistory, t.deviceId, Some(log + [t]), kept', gone')
  {
    var docs, e := db.docs[db.nextId := Encode(t)], Encode(t);
    BagInsert(db.docs, t.deviceId, kept, db.nextId, e);
    BagSize(docs, t.deviceId, kept + multiset{e});
    if Within(maxHistory, log + [t]) {
      KeepOneMore(log, maxHistory, t, kept, gone);
      kept', gone' := kept + multiset{e}, gone;
    } else {
      var i := OneGone(docs, t.deviceId, maxHistory, db'.docs);
      BagRemove(docs, t.deviceId, kept + multiset{e}, i);
      forall k | k in kept + multiset{e} ensures docs[i].millis <= k.millis {
        var j := BagHolds(docs, t.deviceId, kept + multiset{e}, k);
      }
      DropOldest(log, maxHistory, t, kept, gone, docs[i]);
      kept', gone' := kept + multiset{e} - multiset{docs[i]}, gone + multiset{docs[i]};
    }
  }

  /** A trim that is one over the cap removes an oldest document. */
  lemma OneGone(docs: Docs, device: string, maxHistory: int, docs': Docs) returns (i: DocId)
    requires Trimmed(docs, device, maxHistory, docs') && 0 < maxHistory && |Of(docs, device)| == maxHistory + 1
    ensures i in Of(docs, device) && docs' == docs - {i}
    ensures forall j :: j in Of(docs, device) ==> docs[i].millis <= docs[j].millis
  {
    var ids :| Oldest(docs, device, |Of(docs, device)| - maxHistory, ids) && docs' == docs - ids;
    i :| i in ids;
    SizeLeft(ids, {i});
    assert ids - {i} == {};
    assert ids == {i};
  }

  /** Calls about other things leave the device's documents alone. */
  lemma BagElsewhere(docs: Docs, docs': Docs, device: string, bag: multiset<Doc>)
    requires HasBag(docs, device, bag) && Of(docs', device) == Of(docs, device)
    requires forall i :: i in Of(docs, device) ==> docs'[i] == docs[i]
    ensures HasBag(docs', device, bag)
  {
    forall x ensures Copies(docs', device, x) == Copies(docs, device, x) {
    }
  }

  lemma DocsElsewhere(db: Db, maxHistory: int, op: Store.Op, db': Db, device: string)
    requires Serially(db, maxHistory, op, db') && !Own(op, device) && op != Store.DeleteDevice(device)
    requires forall i :: i in db.docs ==> i < db.nextId
    ensures Of(db'.docs, device) == Of(db.docs, device)
    ensures forall i :: i in Of(db.docs, device) ==> db'.docs[i] == db.docs[i]
    ensures forall i :: i in db'.docs ==> i < db'.nextId
  {
    if op.AddTelemetry? && op.sample.deviceId in db.devices {
      var docs := db.docs[db.nextId := Encode(op.sample)];
      assert Of(docs, device) == Of(db.docs, device);
      TrimElsewhere(docs, op.sample.deviceId, maxHistory, db'.docs, device);
    }
  }

  lemma TrimElsewhere(docs: Docs, device: string, maxHistory: int, docs': Docs, other: string)
    requires Trimmed(docs, device, maxHistory, docs') && other != device
    ensures Of(docs', other) == Of(docs, other) && forall i :: i in docs' ==> i in docs && docs'[i] == docs[i]
  {
  }

  lemma SelectElsewhere(db: Db, maxHistory: int, op: Store.Op, db': Db, device: string, log: Option<seq<Telemetry>>,
                        kept: multiset<Doc>, gone: multiset<Doc>)
    requires Selected(db, maxHistory, device, log, kept, gone) && Serially(db, maxHistory, op, db')
    requires !Own(op, device) && !Anew(log, op, device)
    ensures Store.LogStep(log, op, device) == log && Selected(db', maxHistory, device, log, kept, gone)
  {
    if log.None? && op == Store.DeleteDevice(device) {
      assert db' == db;
    } else {
      DocsElsewhere(db, maxHistory, op, db', device);
      if log.Some? {
        BagElsewhere(db.docs, db'.docs, device, kept);
      }
    }
  }

  /** The device appears or disappears: nothing of it is there. */
  lemma SelectAnew(db: Db, maxHistory: int, op: Store.Op, db': Db, device: string, log: Option<seq<Telemetry>>,
                   kept: multiset<Doc>, gone: multiset<Doc>)
    requires Selected(db, maxHistory, device, log, kept, gone) && Serially(db, maxHistory, op, db')
    requires (log.Some? && op == Store.DeleteDevice(device))
             || (log.None? && op.CreateDevice? && op.device.id == device)
    ensures Selected(db', maxHistory, device, Store.LogStep(log, op, device), multiset{}, multiset{})
  {
    assert Of(db'.docs, device) == {};
    assert forall x :: Copies(db'.docs, device, x) == {};
    assert Encoded([]) == [];
  }

  predicate Anew(log: Option<seq<Telemetry>>, op: Store.Op, device: string) {
    if log.Some? then op == Store.DeleteDevice(device) else op.CreateDevice? && op.device.id == device
  }

  predicate Own(op: Store.Op, device: string) {
    op.AddTelemetry? && op.sample.deviceId == device
  }

  lemma {:induction false} SelectRun(dbs: seq<Db>, maxHistory: int, ops: seq<Store.Op>, device: string)
    returns (kept: multiset<Doc>, gone: multiset<Doc>)
    requires SerialRun(dbs, maxHistory, ops)
    ensures Selected(dbs[|ops|], maxHistory, device, Store.Log(ops, device), kept, gone)
  {
    if ops == [] {
      return multiset{}, multiset{};
    }
    var n, log := |ops| - 1, Store.Log(Front(ops), device);
    kept, gone := SelectRun(Front(dbs), maxHistory, Front(ops), device);
    assert Serially(dbs[n], maxHistory, ops[n], dbs[n + 1]);
    if Anew(log, ops[n], device) {
      SelectAnew(dbs[n], maxHistory, ops[n], dbs[n + 1], device, log, kept, gone);
      kept, gone := multiset{}, multiset{};
    } else if Own(ops[n], device) && log.Some? {
      kept, gone := SelectOnSample(dbs[n], maxHistory, ops[n].sample, dbs[n + 1], log.value, kept, gone);
    } else if Own(ops[n], device) {
      assert dbs[n + 1] == dbs[n];
    } else {
      SelectElsewhere(dbs[n], maxHistory, ops[n], dbs[n + 1], device, log, kept, gone);
    }
  }

  // ---------------------------------------------------------------- and any way of keeping them is possible

  lemma {:induction false} NewestOf(bag: multiset<Doc>) returns (r: Doc)
    requires bag != multiset{}
    ensures r in bag && forall g :: g in bag ==> g.millis <= r.millis
    decreases |bag|
  {
    var x :| x in bag;
    if bag == multiset{x} {
      return x;
    }
    var y := NewestOf(bag - multiset{x});
    r := if x.millis < y.millis then y else x;
    forall g | g in bag ensures g.millis <= r.millis {
      assert g == x || g in bag - multiset{x};
    }
  }

  /** What must have been there before the last sample, for this to be kept after it; `r` is what then goes. */
  /** Where the last sample is kept and the newest of the discarded must have gone with it. */
  lemma BeforeKept(log: seq<Telemetry>, maxHistory: int, t: Telemetry, kept: multiset<Doc>, gone: multiset<Doc>, r: Doc)
    requires Selection(log + [t], maxHistory, kept, gone) && !Within(maxHistory, log + [t])
    requires Encode(t) in kept && r in gone && forall g :: g in gone ==> g.millis <= r.millis
    ensures Selection(log, maxHistory, kept - multiset{Encode(t)} + multiset{r}, gone - multiset{r})
  {
    EncodedAppend(log, t);
    Exchange(kept, gone, Encode(t), r);
    Balance(multiset(Encoded(log)), Encode(t), kept + gone);
    NoNewerBefore(kept, gone, Encode(t), r);
  }

  lemma Exchange(kept: multiset<Doc>, gone: multiset<Doc>, e: Doc, r: Doc)
    requires e in kept && r in gone
    ensures kept - multiset{e} + multiset{r} + (gone - multiset{r}) == kept + gone - multiset{e}
    ensures |kept - multiset{e} + multiset{r}| == |kept|
  {
  }

  lemma Balance(a: multiset<Doc>, e: Doc, b: multiset<Doc>)
    requires b == a + multiset{e}
    ensures b - multiset{e} == a
  {
  }

  lemma NoNewerBefore(kept: multiset<Doc>, gone: multiset<Doc>, e: Doc, r: Doc)
    requires NoNewer(gone, kept) && r in gone && forall g :: g in gone ==> g.millis <= r.millis
    ensures NoNewer(gone - multiset{r}, kept - multiset{e} + multiset{r})
  {
    forall g, k | g in gone - multiset{r} && k in kept - multiset{e} + multiset{r} ensures g.millis <= k.millis {
      assert g in gone && (k in kept || k == r);
    }
  }

  /** Where it is discarded itself. */
  lemma BeforeGone(log: seq<Telemetry>, maxHistory: int, t: Telemetry, kept: multiset<Doc>, gone: multiset<Doc>)
    requires Selection(log + [t], maxHistory, kept, gone) && !Within(maxHistory, log + [t]) && Encode(t) !in kept
    ensures Encode(t) in gone && Selection(log, maxHistory, kept, gone - multiset{Encode(t)})
  {
    var e := Encode(t);
    EncodedAppend(log, t);
    assert e in multiset(Encoded(log + [t]));
    assert kept + (gone - multiset{e}) == kept + gone - multiset{e};
    assert kept + (gone - multiset{e}) == multiset(Encoded(log));
  }

  lemma SomeGone(log: seq<Telemetry>, maxHistory: int, kept: multiset<Doc>, gone: multiset<Doc>)
    requires Selection(log, maxHistory, kept, gone) && !Within(maxHistory, log)
    ensures gone != multiset{}
  {
    assert |multiset(Encoded(log))| == |log|;
    assert |kept + gone| == |kept| + |gone|;
  }

  /** What must have been there before the last sample, for this to be kept after it; `r` is what then goes. */
  lemma Before(log: seq<Telemetry>, maxHistory: int, t: Telemetry, kept: multiset<Doc>, gone: multiset<Doc>)
    returns (kept0: multiset<Doc>, gone0: multiset<Doc>, r: Doc)
    requires Selection(log + [t], maxHistory, kept, gone) && !Within(maxHistory, log + [t])
    ensures Selection(log, maxHistory, kept0, gone0) && kept0 + multiset{Encode(t)} == kept + multiset{r}
    ensures forall k :: k in kept ==> r.millis <= k.millis
  {
    var e := Encode(t);
    SomeGone(log + [t], maxHistory, kept, gone);
    if e in kept {
      r := NewestOf(gone);
      BeforeKept(log, maxHistory, t, kept, gone, r);
      kept0, gone0 := kept - multiset{e} + multiset{r}, gone - multiset{r};
    } else {
      BeforeGone(log, maxHistory, t, kept, gone);
      r, kept0, gone0 := e, kept, gone - multiset{e};
    }
  }

  lemma StepExists(db: Db, maxHistory: int, op: Store.Op) returns (db': Db)
    ensures Serially(db, maxHistory, op, db')
  {
    match op
    case CreateDevice(d) => db' := db.(devices := db.devices + {d.id});
    case DeleteDevice(id) =>
      db' := if id in db.devices then db.(devices := db.devices - {id}, docs := db.docs - Of(db.docs, id)) else db;
    case AddTelemetry(t) =>
      if t.deviceId !in db.devices {
        return db;
      }
      var docs := db.docs[db.nextId := Encode(t)];
      var ids := {};
      if 0 < maxHistory < |Of(docs, t.deviceId)| {
        ids := MongoRetention.OldestExist(docs, t.deviceId, |Of(docs, t.deviceId)| - maxHistory);
      }
      assert docs - {} == docs;
      db' := Db(db.devices, docs - ids, db.nextId + 1);
    case _ => db' := db;
  }

  /** A document with the oldest contents can be what a trim by one removes. */
  lemma OldestOfBag(docs: Docs, device: string, all: multiset<Doc>, r: Doc) returns (i: DocId)
    requires HasBag(docs, device, all) && r in all && forall k :: k in all ==> r.millis <= k.millis
    ensures Oldest(docs, device, 1, {i}) && HasBag(docs - {i}, device, all - multiset{r})
  {
    i := BagHolds(docs, device, all, r);
    forall j | j in Of(docs, device) ensures docs[i].millis <= docs[j].millis {
      BagRemove(docs, device, all, j);
    }
    BagRemove(docs, device, all, i);
    SubsetCardinality({i}, Of(docs, device));
  }

  lemma TrimReaches(docs: Docs, device: string, maxHistory: int, kept: multiset<Doc>, r: Doc) returns (i: DocId)
    requires HasBag(docs, device, kept + multiset{r}) && |kept| == maxHistory && 0 < maxHistory
    requires forall k :: k in kept ==> r.millis <= k.millis
    ensures Trimmed(docs, device, maxHistory, docs - {i}) && HasBag(docs - {i}, device, kept)
  {
    BagSize(docs, device, kept + multiset{r});
    i := OldestOfBag(docs, device, kept + multiset{r}, r);
    Balance(kept, r, kept + multiset{r});
    assert Oldest(docs, device, |Of(docs, device)| - maxHistory, {i});
  }

  lemma SampleReaches(db: Db, maxHistory: int, t: Telemetry, log: seq<Telemetry>, kept0: multiset<Doc>,
                      gone0: multiset<Doc>,
                      kept: multiset<Doc>, gone: multiset<Doc>, r: Doc) returns (db': Db)
    requires Selected(db, maxHistory, t.deviceId, Some(log), kept0, gone0)
    requires Selection(log + [t], maxHistory, kept, gone) && !Within(maxHistory, log + [t])
    requires kept0 + multiset{Encode(t)} == kept + multiset{r} && forall k :: k in kept ==> r.millis <= k.millis
    ensures Serially(db, maxHistory, Store.AddTelemetry(t), db')
    ensures Selected(db', maxHistory, t.deviceId, Some(log + [t]), kept, gone)
  {
    var docs := db.docs[db.nextId := Encode(t)];
    BagInsert(db.docs, t.deviceId, kept0, db.nextId, Encode(t));
    var i := TrimReaches(docs, t.deviceId, maxHistory, kept, r);
    db' := Db(db.devices, docs - {i}, db.nextId + 1);
  }

  lemma SampleFits(db: Db, maxHistory: int, t: Telemetry, log: seq<Telemetry>, kept0: multiset<Doc>,
                   gone0: multiset<Doc>)
    returns (db': Db)
    requires Selected(db, maxHistory, t.deviceId, Some(log), kept0, gone0) && Within(maxHistory, log + [t])
    ensures Serially(db, maxHistory, Store.AddTelemetry(t), db')
    ensures Selected(db', maxHistory, t.deviceId, Some(log + [t]), kept0 + multiset{Encode(t)}, gone0)
  {
    var docs, e := db.docs[db.nextId := Encode(t)], Encode(t);
    BagInsert(db.docs, t.deviceId, kept0, db.nextId, e);
    BagSize(docs, t.deviceId, kept0 + multiset{e});
    KeepOneMore(log, maxHistory, t, kept0, gone0);
    db' := Db(db.devices, docs, db.nextId + 1);
  }

  lemma BeforeFits(log: seq<Telemetry>, maxHistory: int, t: Telemetry, kept: multiset<Doc>, gone: multiset<Doc>)
    returns (kept0: multiset<Doc>)
    requires Selection(log + [t], maxHistory, kept, gone) && Within(maxHistory, log + [t])
    ensures Selection(log, maxHistory, kept0, gone) && kept0 + multiset{Encode(t)} == kept
  {
    NothingGone(log + [t], maxHistory, kept, gone);
    EncodedAppend(log, t);
    kept0 := multiset(Encoded(log));
    assert kept == kept + gone == kept0 + multiset{Encode(t)};
    assert |kept0| == |log|;
  }

  lemma {:induction false} RunExists(maxHistory: int, ops: seq<Store.Op>) returns (dbs: seq<Db>)
    ensures SerialRun(dbs, maxHistory, ops)
  {
    if ops == [] {
      return [EMPTY_DB];
    }
    dbs := RunExists(maxHistory, Front(ops));
    var db' := StepExists(Last(dbs), maxHistory, Last(ops));
    OneDbMore(dbs, maxHistory, ops, db');
    dbs := dbs + [db'];
  }

  lemma OneDbMore(dbs: seq<Db>, maxHistory: int, ops: seq<Store.Op>, db': Db)
    requires ops != [] && SerialRun(dbs, maxHistory, Front(ops)) && Serially(Last(dbs), maxHistory, Last(ops), db')
    ensures SerialRun(dbs + [db'], maxHistory, ops) && (dbs + [db'])[|ops|] == db'
  {
    var all := dbs + [db'];
    forall i | 0 <= i < |ops| ensures Serially(all[i], maxHistory, ops[i], all[i + 1]) {
      if i < |ops| - 1 {
        assert Serially(dbs[i], maxHistory, Front(ops)[i], dbs[i + 1]);
      }
    }
  }

  lemma ReachAnew(maxHistory: int, ops: seq<Store.Op>, device: string) returns (dbs: seq<Db>, db': Db)
    requires ops != [] && Anew(Store.Log(Front(ops), device), Last(ops), device)
    ensures SerialRun(dbs, maxHistory, Front(ops)) && Serially(Last(dbs), maxHistory, Last(ops), db')
    ensures Selected(db', maxHistory, device, Store.Log(ops, device), multiset{}, multiset{})
  {
    dbs := RunExists(maxHistory, Front(ops));
    var kept, gone := SelectRun(dbs, maxHistory, Front(ops), device);
    db' := StepExists(Last(dbs), maxHistory, Last(ops));
    SelectAnew(Last(dbs), maxHistory, Last(ops), db', device, Store.Log(Front(ops), device), kept, gone);
  }

  /** How a last sample leads to a selection. */
  lemma SampleStep(db: Db, maxHistory: int, t: Telemetry, log: seq<Telemetry>, kept0: multiset<Doc>,
                   gone0: multiset<Doc>,
                   kept: multiset<Doc>, gone: multiset<Doc>) returns (db': Db)
    requires Selected(db, maxHistory, t.deviceId, Some(log), kept0, gone0)
             && Selection(log + [t], maxHistory, kept, gone)
    requires Leads(maxHistory, log, t, kept0, gone0, kept, gone)
    ensures Serially(db, maxHistory, Store.AddTelemetry(t), db')
    ensures Selected(db', maxHistory, t.deviceId, Some(log + [t]), kept, gone)
  {
    if Within(maxHistory, log + [t]) {
      db' := SampleFits(db, maxHistory, t, log, kept0, gone0);
    } else {
      var r :| kept0 + multiset{Encode(t)} == kept + multiset{r} && forall k :: k in kept ==> r.millis <= k.millis;
      db' := SampleReaches(db, maxHistory, t, log, kept0, gone0, kept, gone, r);
    }
  }

  ghost predicate Leads(maxHistory: int, log: seq<Telemetry>, t: Telemetry, kept0: multiset<Doc>, gone0: multiset<Doc>,
                        kept: multiset<Doc>, gone: multiset<Doc>)
  {
    if Within(maxHistory, log + [t]) then kept0 + multiset{Encode(t)} == kept && gone0 == gone
    else exists r :: kept0 + multiset{Encode(t)} == kept + multiset{r} && forall k :: k in kept ==> r.millis <= k.millis
  }

  lemma LedBy(maxHistory: int, log: seq<Telemetry>, t: Telemetry, kept: multiset<Doc>, gone: multiset<Doc>)
    returns (kept0: multiset<Doc>, gone0: multiset<Doc>)
    requires Selection(log + [t], maxHistory, kept, gone)
    ensures Selection(log, maxHistory, kept0, gone0) && Leads(maxHistory, log, t, kept0, gone0, kept, gone)
  {
    if Within(maxHistory, log + [t]) {
      kept0 := BeforeFits(log, maxHistory, t, kept, gone);
      gone0 := gone;
    } else {
      var r;
      kept0, gone0, r := Before(log, maxHistory, t, kept, gone);
    }
  }

  ghost predicate Reaches(dbs: seq<Db>, maxHistory: int, ops: seq<Store.Op>, device: string,
                          kept: multiset<Doc>, gone: multiset<Doc>)
  {
    SerialRun(dbs, maxHistory, ops) && Selected(Last(dbs), maxHistory, device, Store.Log(ops, device), kept, gone)
  }

  /** Every way of keeping the newest samples is what some serial run keeps. */
  lemma {:induction false} Reach(maxHistory: int, ops: seq<Store.Op>, device: string, kept: multiset<Doc>,
                                 gone: multiset<Doc>)
    returns (dbs: seq<Db>)
    requires Store.Log(ops, device).Some? ==> Selection(Store.Log(ops, device).value, maxHistory, kept, gone)
    ensures Reaches(dbs, maxHistory, ops, device, kept, gone)
  {
    if ops == [] {
      return [EMPTY_DB];
    }
    var op, log := Last(ops), Store.Log(Front(ops), device);
    var so, db';
    if Own(op, device) && log.Some? {
      var kept0, gone0 := LedBy(maxHistory, log.value, op.sample, kept, gone);
      so := Reach(maxHistory, Front(ops), device, kept0, gone0);
      db' := SampleStep(Last(so), maxHistory, op.sample, log.value, kept0, gone0, kept, gone);
    } else if Anew(log, op, device) {
      so, db' := ReachAnew(maxHistory, ops, device);
      NothingToSelect(Store.LogStep(log, op, device), maxHistory, kept, gone);
    } else {
      so := Reach(maxHistory, Front(ops), device, kept, gone);
      db' := StepElsewhere(Last(so), maxHistory, op, device, log, kept, gone);
    }
    ReachesNext(so, maxHistory, ops, device, kept, gone, db');
    dbs := so + [db'];
  }

  lemma ReachesNext(so: seq<Db>, maxHistory: int, ops: seq<Store.Op>, device: string, kept: multiset<Doc>,
                    gone: multiset<Doc>,
                    db': Db)
    requires ops != [] && SerialRun(so, maxHistory, Front(ops)) && Serially(Last(so), maxHistory, Last(ops), db')
    requires Selected(db', maxHistory, device, Store.Log(ops, device), kept, gone)
    ensures Reaches(so + [db'], maxHistory, ops, device, kept, gone)
  {
    OneDbMore(so, maxHistory, ops, db');
  }

  lemma StepElsewhere(db: Db, maxHistory: int, op: Store.Op, device: string, log: Option<seq<Telemetry>>,
                      kept: multiset<Doc>, gone: multiset<Doc>) returns (db': Db)
    requires Selected(db, maxHistory, device, log, kept, gone) && !Anew(log, op, device)
             && (Own(op, device) ==> log.None?)
    ensures Serially(db, maxHistory, op, db')
    ensures Store.LogStep(log, op, device) == log && Selected(db', maxHistory, device, log, kept, gone)
  {
    db' := StepExists(db, maxHistory, op);
    if !Own(op, device) {
      SelectElsewhere(db, maxHistory, op, db', device, log, kept, gone);
    }
  }

  lemma NothingToSelect(log: Option<seq<Telemetry>>, maxHistory: int, kept: multiset<Doc>, gone: multiset<Doc>)
    requires log.Some? ==> log.value == [] && Selection([], maxHistory, kept, gone)
    ensures log.Some? ==> kept == gone == multiset{}
  {
    assert Encoded([]) == [];
  }

  // ---------------------------------------------------------------- exactly when the stores agree

  /** The samples MemoryStore has discarded. */
  function Discarded(log: seq<Telemetry>, maxHistory: int): seq<Telemetry> {
    log[..|log| - |Keep(log, maxHistory)|]
  }

  /** Every discarded sample lies in an earlier millisecond than every kept one, or is the same document. */
  ghost predicate DiscardedFirst(log: seq<Telemetry>, maxHistory: int) {
    forall i, j :: 0 <= i < |Discarded(log, maxHistory)| && 0 <= j < |Keep(log, maxHistory)| ==>
      Earlier(Encode(Discarded(log, maxHistory)[i]), Encode(Keep(log, maxHistory)[j]))
  }

  predicate Earlier(g: Doc, k: Doc) {
    g.millis < k.millis || g == k
  }

  /** In every serial run of these calls, every whole-millisecond query about the device is answered as MemoryStore
      does. */
  ghost predicate AllAgree(maxHistory: int, ops: seq<Store.Op>, device: string) {
    forall dbs: seq<Db> :: SerialRun(dbs, maxHistory, ops) ==>
      Agrees(dbs[|ops|].docs, device, Store.Run(maxHistory, ops).Series(device))
  }

  lemma EncodedBoth(a: seq<Telemetry>, b: seq<Telemetry>)
    ensures multiset(Encoded(a + b)) == multiset(Encoded(a)) + multiset(Encoded(b))
    ensures |multiset(Encoded(b))| == |b|
  {
    assert Encoded(a + b) == Encoded(a) + Encoded(b);
    assert |multiset(Encoded(b))| == |Encoded(b)|;
  }

  lemma EncodedSplit(log: seq<Telemetry>, maxHistory: int)
    ensures multiset(Encoded(log))
            == multiset(Encoded(Discarded(log, maxHistory))) + multiset(Encoded(Keep(log, maxHistory)))
    ensures |multiset(Encoded(Keep(log, maxHistory)))| == Size(maxHistory, log)
  {
    assert log == Discarded(log, maxHistory) + Keep(log, maxHistory);
    EncodedBoth(Discarded(log, maxHistory), Keep(log, maxHistory));
  }

  lemma NotMore(a: multiset<Doc>, b: multiset<Doc>)
    requires |a| == |b| && forall y :: a[y] <= b[y]
    ensures a == b
  {
    assert b == a + (b - a);
    assert |b| == |a| + |b - a|;
    assert b - a == multiset{};
  }

  /** Of two different bags of one size each has something more of than the other. */
  lemma MoreOf(a: multiset<Doc>, b: multiset<Doc>) returns (x: Doc)
    requires |a| == |b| && a != b
    ensures a[x] > b[x]
  {
    if forall y :: a[y] <= b[y] {
      NotMore(a, b);
    } else {
      x :| a[x] > b[x];
    }
  }

  lemma FirstOfAll(log: seq<Telemetry>, maxHistory: int, x: Doc, y: Doc)
    requires DiscardedFirst(log, maxHistory)
    requires x in multiset(Encoded(Discarded(log, maxHistory))) && y in multiset(Encoded(Keep(log, maxHistory)))
    ensures Earlier(x, y)
  {
    var early, late := Encoded(Discarded(log, maxHistory)), Encoded(Keep(log, maxHistory));
    var i :| 0 <= i < |early| && early[i] == x;
    var j :| 0 <= j < |late| && late[j] == y;
    assert Earlier(Encode(Discarded(log, maxHistory)[i]), Encode(Keep(log, maxHistory)[j]));
  }

  /** When the discarded come first there is only one way of keeping the newest, MemoryStore's. */
  lemma OnlySelection(log: seq<Telemetry>, maxHistory: int, kept: multiset<Doc>, gone: multiset<Doc>)
    requires Selection(log, maxHistory, kept, gone) && DiscardedFirst(log, maxHistory)
    ensures kept == multiset(Encoded(Keep(log, maxHistory)))
  {
    var early, late := Encoded(Discarded(log, maxHistory)), Encoded(Keep(log, maxHistory));
    EncodedSplit(log, maxHistory);
    if kept != multiset(late) {
      var x := MoreOf(kept, multiset(late));
      var y := MoreOf(multiset(late), kept);
      assert (kept + gone)[x] == multiset(early)[x] + multiset(late)[x];
      assert (kept + gone)[y] == multiset(early)[y] + multiset(late)[y];
      assert x in multiset(early) && y in multiset(late) && y in gone && x in kept;
      FirstOfAll(log, maxHistory, x, y);
    }
  }

  /** Documents with the bag of a tidy series represent it. */
  lemma BagRepresents(docs: Docs, device: string, series: seq<Telemetry>) returns (ids: seq<DocId>)
    requires HasBag(docs, device, multiset(Encoded(series))) && Tidy(series)
    requires forall k :: 0 <= k < |series| ==> series[k].deviceId == device
    ensures Represents(docs, device, ids, series)
  {
    ids := AscendingListing(docs, Of(docs, device));
    BagListed(docs, device, ids);
    BagUnique(docs, device, multiset(Encoded(series)), multiset(Contents(docs, ids)));
    AscendingContents(docs, ids);
    forall i, j | 0 <= i < j < |series|
      ensures Encode(series[i]).millis <= Encode(series[j]).millis
      ensures Encode(series[i]).millis == Encode(series[j]).millis ==> Encode(series[i]) == Encode(series[j])
    {
      assert Follows(series[i], series[j]);
    }
    OneOrder(Encoded(series), Contents(docs, ids));
    forall k | 0 <= k < |ids| ensures ids[k] in docs && docs[ids[k]] == Encode(series[k]) {
      assert Contents(docs, ids)[k] == Encoded(series)[k] && ids[k] in ids;
    }
  }

  /** Documents that answer every query as the series does are the encodings of its samples. */
  lemma AgreeingBag(docs: Docs, device: string, series: seq<Telemetry>)
    requires Agrees(docs, device, series)
    ensures HasBag(docs, device, multiset(Encoded(series)))
  {
    var ids := AscendingListing(docs, Of(docs, device));
    OnlyAnswer(docs, device, series, ids);
    BagListed(docs, device, ids);
    forall k | 0 <= k < |ids| ensures Contents(docs, ids)[k] == Encoded(series)[k] {
      assert series[k] == Decode(docs[ids[k]]);
    }
    assert Contents(docs, ids) == Encoded(series);
  }

  lemma {:induction false} OwnSamples(ops: seq<Store.Op>, device: string)
    ensures Store.Log(ops, device).Some? ==> forall t :: t in Store.Log(ops, device).value ==> t.deviceId == device
  {
    if ops != [] {
      OwnSamples(Front(ops), device);
    }
  }

  lemma AgreesIfFirst(maxHistory: int, ops: seq<Store.Op>, device: string, dbs: seq<Db>)
    requires Store.Log(ops, device).Some? && SerialRun(dbs, maxHistory, ops)
    requires Tidy(Keep(Store.Log(ops, device).value, maxHistory))
             && DiscardedFirst(Store.Log(ops, device).value, maxHistory)
    ensures Agrees(dbs[|ops|].docs, device, Store.Run(maxHistory, ops).Series(device))
  {
    var log := Store.Log(ops, device).value;
    var kept, gone := SelectRun(dbs, maxHistory, ops, device);
    OnlySelection(log, maxHistory, kept, gone);
    OwnSamples(ops, device);
    var ids := BagRepresents(dbs[|ops|].docs, device, Keep(log, maxHistory));
    AgreesExactly(dbs[|ops|].docs, device, ids, Keep(log, maxHistory));
    Store.Retention(maxHistory, ops, device);
  }

  /** A discarded and a kept document of one millisecond can change places. */
  lemma Exchanged(log: seq<Telemetry>, maxHistory: int, early: multiset<Doc>, late: multiset<Doc>, e: Doc, k: Doc)
    requires Selection(log, maxHistory, late, early) && e in early && k in late && e.millis == k.millis
    ensures Selection(log, maxHistory, late - multiset{k} + multiset{e}, early - multiset{e} + multiset{k})
  {
    var late', early' := late - multiset{k} + multiset{e}, early - multiset{e} + multiset{k};
    assert late' + early' == late + early;
    forall g, d | g in early' && d in late' ensures g.millis <= d.millis {
      assert (g in early || g == k) && (d in late || d == e);
    }
  }

  lemma FirstIfAllAgree(maxHistory: int, ops: seq<Store.Op>, device: string)
    requires Store.Log(ops, device).Some? && AllAgree(maxHistory, ops, device)
    ensures Tidy(Keep(Store.Log(ops, device).value, maxHistory))
            && DiscardedFirst(Store.Log(ops, device).value, maxHistory)
  {
    var log := Store.Log(ops, device).value;
    var series := Keep(log, maxHistory);
    var early, late := multiset(Encoded(Discarded(log, maxHistory))), multiset(Encoded(series));
    Store.Retention(maxHistory, ops, device);
    var dbs := RunExists(maxHistory, ops);
    AgreementNeedsTidy(dbs[|ops|].docs, device, series);
    LateIsSelected(maxHistory, ops, device, dbs);
    forall i, j | 0 <= i < |Discarded(log, maxHistory)| && 0 <= j < |series|
      ensures Earlier(Encode(Discarded(log, maxHistory)[i]), Encode(series[j]))
    {
      var e, k := Encode(Discarded(log, maxHistory)[i]), Encode(series[j]);
      assert Encoded(Discarded(log, maxHistory))[i] == e && Encoded(series)[j] == k;
      if e.millis == k.millis && e != k {
        Exchanged(log, maxHistory, early, late, e, k);
        OtherRunDiffers(maxHistory, ops, device, late - multiset{k} + multiset{e}, early - multiset{e} + multiset{k});
      }
    }
  }

  lemma LateIsSelected(maxHistory: int, ops: seq<Store.Op>, device: string, dbs: seq<Db>)
    requires Store.Log(ops, device).Some? && SerialRun(dbs, maxHistory, ops)
    requires Agrees(dbs[|ops|].docs, device, Keep(Store.Log(ops, device).value, maxHistory))
    ensures var log := Store.Log(ops, device).value;
            Selection(log, maxHistory, multiset(Encoded(Keep(log, maxHistory))),
                      multiset(Encoded(Discarded(log, maxHistory))))
  {
    var log := Store.Log(ops, device).value;
    var early, late := multiset(Encoded(Discarded(log, maxHistory))), multiset(Encoded(Keep(log, maxHistory)));
    var kept, gone := SelectRun(dbs, maxHistory, ops, device);
    AgreeingBag(dbs[|ops|].docs, device, Keep(log, maxHistory));
    BagUnique(dbs[|ops|].docs, device, kept, late);
    EncodedSplit(log, maxHistory);
    SameRest(late, gone, early);
  }

  lemma SameRest(a: multiset<Doc>, b: multiset<Doc>, c: multiset<Doc>)
    requires a + b == c + a
    ensures b == c
  {
    assert forall x :: (a + b)[x] == a[x] + b[x] && (c + a)[x] == c[x] + a[x];
  }

  /** A selection other than MemoryStore's is what some run keeps, and that run does not agree. */
  lemma OtherRunDiffers(maxHistory: int, ops: seq<Store.Op>, device: string, kept: multiset<Doc>, gone: multiset<Doc>)
    requires Store.Log(ops, device).Some? && Selection(Store.Log(ops, device).value, maxHistory, kept, gone)
    requires kept != multiset(Encoded(Keep(Store.Log(ops, device).value, maxHistory)))
    ensures !AllAgree(maxHistory, ops, device)
  {
    var series := Keep(Store.Log(ops, device).value, maxHistory);
    Store.Retention(maxHistory, ops, device);
    var dbs := Reach(maxHistory, ops, device, kept, gone);
    if Agrees(dbs[|ops|].docs, device, series) {
      AgreeingBag(dbs[|ops|].docs, device, series);
      BagUnique(dbs[|ops|].docs, device, kept, multiset(Encoded(series)));
    }
  }

  /** For any calls, one after another, and any cap: in every run of them MongoDB answers all whole-millisecond
      queries about a device as MemoryStore does, if and only if the samples that MemoryStore keeps are tidy and each
      one it has discarded lies in an earlier millisecond than all of these, or is the same as those in its
      millisecond. */
  lemma CappedAgreesExactly(maxHistory: int, ops: seq<Store.Op>, device: string)
    requires Store.Log(ops, device).Some?
    ensures var log := Store.Log(ops, device).value;
            AllAgree(maxHistory, ops, device) <==> Tidy(Keep(log, maxHistory)) && DiscardedFirst(log, maxHistory)
  {
    var log := Store.Log(ops, device).value;
    if Tidy(Keep(log, maxHistory)) && DiscardedFirst(log, maxHistory) {
      forall dbs: seq<Db> | SerialRun(dbs, maxHistory, ops)
        ensures Agrees(dbs[|ops|].docs, device, Store.Run(maxHistory, ops).Series(device))
      {
        AgreesIfFirst(maxHistory, ops, device, dbs);
      }
    }
    if AllAgree(maxHistory, ops, device) {
      FirstIfAllAgree(maxHistory, ops, device);
    }
  }
}
