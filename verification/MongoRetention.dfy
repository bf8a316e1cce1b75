/** How many documents interleaved AddTelemetry calls leave: exactly the cap's worth when the calls of a device do not
    overlap, and fewer in some continuation exactly when the calls in progress can still remove more than the excess. */
module MongoRetention {
  import opened Models
  import opened Sequences
  import opened Mongo

  ghost predicate InProgress(s: State, device: string, c: nat) {
    c in s.calls && s.calls[c].sample.deviceId == device && !s.calls[c].phase.Returned?
  }

  /** Past its insert, with the trim still to finish. */
  ghost predicate Trimming(s: State, device: string, c: nat) {
    InProgress(s, device, c) && !s.calls[c].phase.Checking? && !s.calls[c].phase.Inserting?
  }

  ghost predicate OneAtATime(s: State, device: string) {
    forall c, d :: InProgress(s, device, c) && InProgress(s, device, d) ==> c == d
  }

  /** At no point of the run are two calls of the device in progress. Calls of other devices may overlap anyhow. */
  ghost predicate NoOverlap(maxHistory: int, run: seq<Label>, device: string) {
    if run == [] then true else
      NoOverlap(maxHistory, Front(run), device)
      && (Exec(maxHistory, run).Some? ==> OneAtATime(Exec(maxHistory, run).value, device))
  }

  /** The number of documents of the device inserted since its telemetry was last purged. */
  ghost function Inserted(maxHistory: int, run: seq<Label>, device: string): nat
    requires Exec(maxHistory, run).Some?
  {
    if run == [] then 0 else
      Tally(Exec(maxHistory, Front(run)).value, device, Last(run), Inserted(maxHistory, Front(run), device))
  }

  ghost function Tally(s: State, device: string, l: Label, n: nat): nat
    requires Enabled(s, l)
  {
    if l == Purge(device) then 0
    else if l.Insert? && s.calls[l.c].sample.deviceId == device then n + 1
    else n
  }

  function Capped(maxHistory: int, n: nat): nat {
    if 0 < maxHistory < n then maxHistory else n
  }

  // ---------------------------------------------------------------- the invariant

  /** A call deletes documents of its own device only, and ids are not reused. */
  ghost predicate Owned(s: State) {
    && (forall i :: i in s.docs ==> i < s.nextId)
    && forall c :: c in s.calls && s.calls[c].phase.Deleting? ==>
        OwnIds(s, s.calls[c].sample.deviceId, s.calls[c].phase.ids)
  }

  ghost predicate OwnIds(s: State, device: string, ids: set<DocId>) {
    forall i :: i in ids ==> i < s.nextId && (i in s.docs ==> s.docs[i].deviceId == device)
  }

  /** What the only trim in progress has in front of it, when `n` documents were inserted: one too many, unless a
      purge came in between and left nothing. */
  ghost predicate Facing(docs: Docs, device: string, cap: int, n: nat, phase: Phase) {
    match phase
    case Counting => 0 < cap && |Of(docs, device)| == Capped(cap + 1, n)
    case Finding(excess) =>
      0 < cap && excess == 1 && (Purged(docs, device, n) || (|Of(docs, device)| == cap + 1 && n > cap))
    case Deleting(ids) => 0 < cap && (Purged(docs, device, n) || (|Of(docs, device) - ids| == cap && n > cap))
    case _ => true
  }

  ghost predicate Purged(docs: Docs, device: string, n: nat) {
    Of(docs, device) == {} && n == 0
  }

  ghost predicate Exact(s: State, maxHistory: int, device: string, n: nat) {
    && Owned(s)
    && (forall c :: Trimming(s, device, c) ==> Facing(s.docs, device, maxHistory, n, s.calls[c].phase))
    && ((forall c :: !Trimming(s, device, c)) ==> |Of(s.docs, device)| == Capped(maxHistory, n))
  }

  lemma OwnedStep(s: State, maxHistory: int, l: Label)
    requires Owned(s) && Enabled(s, l)
    ensures Owned(Apply(s, maxHistory, l))
  {
  }

  predicate IsCallStep(l: Label) {
    l.Check? || l.Insert? || l.Count? || l.Find? || l.Delete?
  }

  /** A call's step moves that call on, and no other. */
  lemma OthersWait(s: State, maxHistory: int, l: Label)
    requires Enabled(s, l) && IsCallStep(l)
    ensures var s' := Apply(s, maxHistory, l);
            && s'.calls.Keys == s.calls.Keys && s'.calls[l.c].sample == s.calls[l.c].sample
            && forall c :: c in s.calls && c != l.c ==> s'.calls[c] == s.calls[c]
  {
  }

  /** A step of a call of the device, the only one in progress. */
  lemma OwnInsert(s: State, maxHistory: int, device: string, n: nat, l: Label)
    requires Exact(s, maxHistory, device, n) && OneAtATime(s, device) && Enabled(s, l)
    requires l.Insert? && s.calls[l.c].sample.deviceId == device
    ensures Exact(Apply(s, maxHistory, l), maxHistory, device, n + 1)
  {
    var s' := Apply(s, maxHistory, l);
    OwnedStep(s, maxHistory, l);
    assert InProgress(s, device, l.c);
    assert forall c :: !Trimming(s, device, c);
    assert Of(s'.docs, device) == Of(s.docs, device) + {s.nextId};
    assert forall c :: Trimming(s', device, c) ==> c == l.c;
    assert maxHistory > 0 ==> Trimming(s', device, l.c);
  }

  lemma OwnTrim(s: State, maxHistory: int, device: string, n: nat, l: Label)
    requires Exact(s, maxHistory, device, n) && OneAtATime(s, device) && Enabled(s, l)
    requires (l.Count? || l.Find? || l.Delete?) && s.calls[l.c].sample.deviceId == device
    ensures Exact(Apply(s, maxHistory, l), maxHistory, device, n)
  {
    var s' := Apply(s, maxHistory, l);
    OwnedStep(s, maxHistory, l);
    OthersWait(s, maxHistory, l);
    assert Trimming(s, device, l.c);
    forall c | Trimming(s', device, c) ensures c == l.c {
      assert c == l.c || InProgress(s, device, c);
    }
    assert s'.calls[l.c].phase.Returned? || Trimming(s', device, l.c);
    TrimFaces(s, maxHistory, device, n, l);
  }

  lemma TrimFaces(s: State, maxHistory: int, device: string, n: nat, l: Label)
    requires Enabled(s, l) && (l.Count? || l.Find? || l.Delete?) && s.calls[l.c].sample.deviceId == device
    requires Facing(s.docs, device, maxHistory, n, s.calls[l.c].phase)
    ensures var s' := Apply(s, maxHistory, l);
            Facing(s'.docs, device, maxHistory, n, s'.calls[l.c].phase)
            && (s'.calls[l.c].phase.Returned? ==> |Of(s'.docs, device)| == Capped(maxHistory, n))
  {
    var s', all := Apply(s, maxHistory, l), Of(s.docs, device);
    if l.Find? {
      assert l.ids + (all - l.ids) == all;
    } else if l.Delete? {
      assert Of(s'.docs, device) == all - s.calls[l.c].phase.ids;
    }
  }

  /** A step that leaves the device's calls and documents as they are. */
  lemma ElsewhereExact(s: State, s': State, maxHistory: int, device: string, n: nat)
    requires Exact(s, maxHistory, device, n) && Owned(s') && Of(s'.docs, device) == Of(s.docs, device)
    requires forall c :: Trimming(s, device, c) <==> Trimming(s', device, c)
    requires forall c :: Trimming(s, device, c) ==> c in s'.calls && s'.calls[c] == s.calls[c]
    ensures Exact(s', maxHistory, device, n)
  {
  }

  lemma OtherDocsStay(s: State, maxHistory: int, device: string, l: Label)
    requires Owned(s) && Enabled(s, l) && l != Purge(device)
    requires (l.Insert? || l.Delete?) ==> s.calls[l.c].sample.deviceId != device
    ensures Of(Apply(s, maxHistory, l).docs, device) == Of(s.docs, device)
  {
  }

  lemma PurgeExact(s: State, maxHistory: int, device: string, n: nat)
    requires Exact(s, maxHistory, device, n)
    ensures Exact(Apply(s, maxHistory, Purge(device)), maxHistory, device, 0)
  {
    var s' := Apply(s, maxHistory, Purge(device));
    OwnedStep(s, maxHistory, Purge(device));
    assert Of(s'.docs, device) == {};
    forall c | Trimming(s', device, c) ensures Facing(s'.docs, device, maxHistory, 0, s'.calls[c].phase) {
      assert Trimming(s, device, c);
    }
  }

  predicate ByCallOf(s: State, l: Label, device: string) {
    IsCallStep(l) && l.c in s.calls && s.calls[l.c].sample.deviceId == device
  }

  lemma OthersExact(s: State, maxHistory: int, device: string, n: nat, l: Label)
    requires Exact(s, maxHistory, device, n) && Enabled(s, l) && l != Purge(device) && !ByCallOf(s, l, device)
    ensures Exact(Apply(s, maxHistory, l), maxHistory, device, n)
  {
    var s' := Apply(s, maxHistory, l);
    OwnedStep(s, maxHistory, l);
    OtherDocsStay(s, maxHistory, device, l);
    if IsCallStep(l) {
      OthersWait(s, maxHistory, l);
    }
    forall c ensures Trimming(s, device, c) <==> Trimming(s', device, c) {
    }
    ElsewhereExact(s, s', maxHistory, device, n);
  }

  lemma ExactStep(s: State, maxHistory: int, device: string, n: nat, l: Label)
    requires Exact(s, maxHistory, device, n) && OneAtATime(s, device) && Enabled(s, l)
    ensures Exact(Apply(s, maxHistory, l), maxHistory, device, Tally(s, device, l, n))
  {
    if l == Purge(device) {
      PurgeExact(s, maxHistory, device, n);
    } else if !ByCallOf(s, l, device) {
      OthersExact(s, maxHistory, device, n, l);
    } else if l.Insert? {
      OwnInsert(s, maxHistory, device, n, l);
    } else if l.Check? {
      OwnedStep(s, maxHistory, l);
      assert InProgress(s, device, l.c);
      assert forall c :: !Trimming(s, device, c);
    } else {
      OwnTrim(s, maxHistory, device, n, l);
    }
  }

  lemma {:induction false} AlwaysExact(maxHistory: int, run: seq<Label>, s: State, device: string)
    requires Exec(maxHistory, run) == Some(s) && NoOverlap(maxHistory, run, device)
    ensures Exact(s, maxHistory, device, Inserted(maxHistory, run, device))
  {
    if run != [] {
      var before := Exec(maxHistory, Front(run)).value;
      AlwaysExact(maxHistory, Front(run), before, device);
      assert OneAtATime(before, device) by {
        if Front(run) == [] {
          assert before == EMPTY;
        }
      }
      ExactStep(before, maxHistory, device, Inserted(maxHistory, Front(run), device), Last(run));
    }
  }

  /** When no two calls of a device overlap, however those of other devices interleave with them, then once they have
      returned exactly as many of its documents remain as were inserted since the last purge, up to the cap. */
  lemma ExactRetention(maxHistory: int, run: seq<Label>, s: State, device: string)
    requires Exec(maxHistory, run) == Some(s) && NoOverlap(maxHistory, run, device)
    requires forall c :: !InProgress(s, device, c)
    ensures |Of(s.docs, device)| == Capped(maxHistory, Inserted(maxHistory, run, device))
  {
    AlwaysExact(maxHistory, run, s, device);
  }

  // ---------------------------------------------------------------- how far trims can go

  predicate IsTrimStep(l: Label) {
    l.Count? || l.Find? || l.Delete?
  }

  ghost predicate TrimsOnly(run: seq<Label>) {
    forall i :: 0 <= i < |run| ==> IsTrimStep(run[i])
  }

  /** Whatever order the trims in progress go on in, they leave the device at least so many documents. */
  ghost predicate TrimsStop(cap: nat, run: seq<Label>, device: string, least: nat) {
    forall more: seq<Label> :: TrimsOnly(more) && Exec(cap, run + more).Some? ==>
      |Of(Exec(cap, run + more).value.docs, device)| >= least
  }

  /** The documents of the device that no call in progress has picked for deletion. */
  ghost function Spared(s: State, device: string): set<DocId> {
    set i | i in Of(s.docs, device) && !Picked(s, device, i)
  }

  ghost predicate Picked(s: State, device: string, i: DocId) {
    exists c :: c in s.calls && s.calls[c].sample.deviceId == device && s.calls[c].phase.Deleting?
        && i in s.calls[c].phase.ids
  }

  /** How many more documents a call may yet pick: what it has counted over the cap, or would count now. */
  ghost function MayPick(s: State, cap: nat, device: string, c: nat): nat {
    if c !in s.calls || s.calls[c].sample.deviceId != device then 0 else
      match s.calls[c].phase
      case Counting => |Of(s.docs, device)| - Capped(cap, |Of(s.docs, device)|)
      case Finding(excess) => excess
      case _ => 0
  }

  ghost function MayPickAll(s: State, cap: nat, device: string, calls: set<nat>): nat {
    if calls == {} then 0 else
      var c :| c in calls;
      MayPick(s, cap, device, c) + MayPickAll(s, cap, device, calls - {c})
  }

  /** What the calls in progress can still remove: what they have picked, and what they may yet pick. */
  ghost function CanRemove(s: State, cap: nat, device: string): nat {
    |Of(s.docs, device) - Spared(s, device)| + MayPickAll(s, cap, device, s.calls.Keys)
  }

  /** What they cannot: no continuation has fewer. */
  ghost function Left(s: State, cap: nat, device: string): int {
    |Spared(s, device)| - MayPickAll(s, cap, device, s.calls.Keys)
  }

  lemma {:induction false} AllSplit(s: State, cap: nat, device: string, calls: set<nat>, c: nat)
    requires c in calls
    ensures MayPickAll(s, cap, device, calls) == MayPick(s, cap, device, c) + MayPickAll(s, cap, device, calls - {c})
    decreases |calls|
  {
    var d :| d in calls && MayPickAll(s, cap, device, calls)
        == MayPick(s, cap, device, d) + MayPickAll(s, cap, device, calls - {d});
    if d != c {
      AllSplit(s, cap, device, calls - {d}, c);
      AllSplit(s, cap, device, calls - {c}, d);
      assert calls - {d} - {c} == calls - {c} - {d};
    }
  }

  lemma {:induction false} AllBelow(s: State, s': State, cap: nat, device: string, calls: set<nat>)
    requires forall c :: c in calls ==> MayPick(s', cap, device, c) <= MayPick(s, cap, device, c)
    ensures MayPickAll(s', cap, device, calls) <= MayPickAll(s, cap, device, calls)
    decreases |calls|
  {
    if calls != {} {
      var c :| c in calls;
      AllSplit(s, cap, device, calls, c);
      AllSplit(s', cap, device, calls, c);
      AllBelow(s, s', cap, device, calls - {c});
    }
  }

  /** The sums before and after an action of call `c`. */
  lemma AllButOne(s: State, s': State, cap: nat, device: string, c: nat)
    requires c in s.calls && s'.calls.Keys == s.calls.Keys
    requires forall d :: d in s.calls && d != c ==> MayPick(s', cap, device, d) <= MayPick(s, cap, device, d)
    ensures MayPickAll(s', cap, device, s'.calls.Keys) - MayPick(s', cap, device, c)
         <= MayPickAll(s, cap, device, s.calls.Keys) - MayPick(s, cap, device, c)
  {
    AllSplit(s, cap, device, s.calls.Keys, c);
    AllSplit(s', cap, device, s.calls.Keys, c);
    AllBelow(s, s', cap, device, s.calls.Keys - {c});
  }

  // ---------------------------------------------------------------- no further

  lemma DocsShrink(s: State, cap: nat, device: string, l: Label)
    requires Enabled(s, l) && IsTrimStep(l)
    ensures Of(Apply(s, cap, l).docs, device) <= Of(s.docs, device)
    ensures |Of(Apply(s, cap, l).docs, device)| <= |Of(s.docs, device)|
  {
    SubsetCardinality(Of(Apply(s, cap, l).docs, device), Of(s.docs, device));
  }

  /** A trim's action lowers what the others may pick, if anything, and picks what it may itself. */
  lemma PicksLess(s: State, cap: nat, device: string, l: Label)
    requires cap > 0 && Owned(s) && Enabled(s, l) && IsTrimStep(l)
    ensures var s' := Apply(s, cap, l);
            && (forall d :: d in s.calls && d != l.c ==> MayPick(s', cap, device, d) <= MayPick(s, cap, device, d))
            && MayPick(s', cap, device, l.c) <= MayPick(s, cap, device, l.c)
            && (l.Find? && s.calls[l.c].sample.deviceId == device ==>
                  MayPick(s', cap, device, l.c) == 0 && |l.ids| <= MayPick(s, cap, device, l.c))
  {
    DocsShrink(s, cap, device, l);
    OthersWait(s, cap, l);
  }

  lemma SparedAfter(s: State, cap: nat, device: string, l: Label)
    requires Owned(s) && Enabled(s, l) && IsTrimStep(l)
    ensures Spared(Apply(s, cap, l), device)
         == if l.Find? && s.calls[l.c].sample.deviceId == device then Spared(s, device) - l.ids else Spared(s, device)
  {
    var s' := Apply(s, cap, l);
    OthersWait(s, cap, l);
    forall i | i in Of(s.docs, device)
      ensures Picked(s', device, i) || i !in Of(s'.docs, device)
         <==> Picked(s, device, i) || (l.Find? && s.calls[l.c].sample.deviceId == device && i in l.ids)
    {
      PickedAfter(s, cap, device, l, i);
    }
    DocsShrink(s, cap, device, l);
  }

  lemma PickedAfter(s: State, cap: nat, device: string, l: Label, i: DocId)
    requires Owned(s) && Enabled(s, l) && IsTrimStep(l) && i in Of(s.docs, device)
    ensures var s' := Apply(s, cap, l);
            Picked(s', device, i) || i !in Of(s'.docs, device)
            <==> Picked(s, device, i) || (l.Find? && s.calls[l.c].sample.deviceId == device && i in l.ids)
  {
    var s' := Apply(s, cap, l);
    OthersWait(s, cap, l);
    if Picked(s, device, i) {
      var c :| c in s.calls && s.calls[c].sample.deviceId == device && s.calls[c].phase.Deleting?
          && i in s.calls[c].phase.ids;
      assert c != l.c ==> s'.calls[c] == s.calls[c];
    }
    if Picked(s', device, i) {
      var c :| c in s'.calls && s'.calls[c].sample.deviceId == device && s'.calls[c].phase.Deleting?
          && i in s'.calls[c].phase.ids;
      assert c != l.c ==> s'.calls[c] == s.calls[c];
    }
  }

  lemma LeftGrows(s: State, cap: nat, device: string, l: Label)
    requires cap > 0 && Owned(s) && Enabled(s, l) && IsTrimStep(l)
    ensures Left(Apply(s, cap, l), cap, device) >= Left(s, cap, device)
  {
    var s' := Apply(s, cap, l);
    OthersWait(s, cap, l);
    PicksLess(s, cap, device, l);
    AllButOne(s, s', cap, device, l.c);
    SparedAfter(s, cap, device, l);
    if l.Find? && s.calls[l.c].sample.deviceId == device {
      LosesAtMost(Spared(s, device), l.ids);
    }
  }

  lemma LosesAtMost<T>(all: set<T>, ids: set<T>)
    ensures |all - ids| >= |all| - |ids|
  {
    SizeLeft(all, all * ids);
    SubsetCardinality(all * ids, ids);
    assert all - (all * ids) == all - ids;
  }

  lemma {:induction false} LeftOn(cap: nat, run: seq<Label>, s: State, more: seq<Label>, s': State, device: string)
    requires cap > 0 && Exec(cap, run) == Some(s) && Owned(s) && Exec(cap, run + more) == Some(s') && TrimsOnly(more)
    ensures Owned(s') && Left(s', cap, device) >= Left(s, cap, device)
  {
    if more == [] {
      assert run + more == run;
    } else {
      assert Front(run + more) == run + Front(more) && Last(run + more) == Last(more);
      var before := Exec(cap, run + Front(more)).value;
      LeftOn(cap, run, s, Front(more), before, device);
      LeftGrows(before, cap, device, Last(more));
      OwnedStep(before, cap, Last(more));
    }
  }

  lemma LeftIsLeft(s: State, cap: nat, device: string)
    ensures Left(s, cap, device) <= |Of(s.docs, device)|
    ensures Left(s, cap, device) == |Of(s.docs, device)| - CanRemove(s, cap, device)
  {
    SizeLeft(Of(s.docs, device), Spared(s, device));
  }

  // ---------------------------------------------------------------- and so far

  /** The query for the oldest always has an answer. */
  lemma {:induction false} OldestExist(docs: Docs, device: string, k: nat) returns (ids: set<DocId>)
    ensures Oldest(docs, device, k, ids)
  {
    if k == 0 {
      return {};
    }
    var some := OldestExist(docs, device, k - 1);
    var rest := Of(docs, device) - some;
    assert some + rest == Of(docs, device);
    if rest == {} {
      return some;
    }
    var i := OldestOne(docs, rest);
    ids := some + {i};
  }

  lemma Go(cap: nat, run: seq<Label>, s: State, l: Label) returns (run': seq<Label>, s': State)
    requires Exec(cap, run) == Some(s) && Enabled(s, l)
    ensures run' == run + [l] && s' == Apply(s, cap, l) && Exec(cap, run') == Some(s')
  {
    run', s' := run + [l], Apply(s, cap, l);
    assert Front(run') == run;
  }

  ghost function Counters(s: State, device: string): set<nat> {
    set c | c in s.calls && s.calls[c].sample.deviceId == device && s.calls[c].phase.Counting?
  }

  ghost function Finders(s: State, device: string): set<nat> {
    set c | c in s.calls && s.calls[c].sample.deviceId == device && s.calls[c].phase.Finding?
  }

  ghost function Deleters(s: State, device: string): set<nat> {
    set c | c in s.calls && s.calls[c].sample.deviceId == device && s.calls[c].phase.Deleting?
  }

  /** Some trim of the device has not returned. */
  ghost predicate Pending(s: State, device: string) {
    Counters(s, device) + Finders(s, device) + Deleters(s, device) != {}
  }

  lemma FewerWithout<T>(all: set<T>, rest: set<T>, x: T)
    requires x in all && rest == all - {x}
    ensures |rest| < |all|
  {
  }

  /** A trim's action brings it nearer to its return, and leaves the others where they are. */
  lemma PendingFalls(s: State, cap: nat, device: string, l: Label)
    requires Enabled(s, l) && IsTrimStep(l) && s.calls[l.c].sample.deviceId == device
    ensures var s' := Apply(s, cap, l);
            if l.Count? then |Counters(s', device)| < |Counters(s, device)|
            else Counters(s', device) == Counters(s, device)
                 && if l.Find? then |Finders(s', device)| < |Finders(s, device)|
                    else Finders(s', device) == Finders(s, device) && |Deleters(s', device)| < |Deleters(s, device)|
  {
    var s' := Apply(s, cap, l);
    if l.Count? {
      FewerWithout(Counters(s, device), Counters(s', device), l.c);
    } else if l.Find? {
      FewerWithout(Finders(s, device), Finders(s', device), l.c);
    } else {
      FewerWithout(Deleters(s, device), Deleters(s', device), l.c);
    }
  }

  /** The order that removes most: first all count, then the picked go, then each picks anew. */
  ghost predicate Greedy(s: State, device: string, l: Label) {
    && Enabled(s, l) && IsTrimStep(l) && s.calls[l.c].sample.deviceId == device
    && (l.Delete? ==> Counters(s, device) == {})
    && (l.Find? ==> Counters(s, device) == {} && Deleters(s, device) == {})
  }

  /** In that order nothing more is left than must be, down to nothing. */
  lemma GreedyLeaves(s: State, cap: nat, device: string, l: Label)
    requires cap > 0 && Owned(s) && Greedy(s, device, l)
    ensures var left := Left(Apply(s, cap, l), cap, device); left <= Left(s, cap, device) || left <= 0
  {
    var s' := Apply(s, cap, l);
    OthersWait(s, cap, l);
    SparedAfter(s, cap, device, l);
    GreedyPicks(s, cap, device, l);
    AllButOne(s', s, cap, device, l.c);
    if l.Find? {
      FindTakes(s, cap, device, l);
    }
  }

  lemma GreedyPicks(s: State, cap: nat, device: string, l: Label)
    requires cap > 0 && Owned(s) && Greedy(s, device, l)
    ensures var s' := Apply(s, cap, l);
            && (forall d :: d in s.calls && d != l.c ==> MayPick(s', cap, device, d) == MayPick(s, cap, device, d))
            && (!l.Find? ==> MayPick(s', cap, device, l.c) == MayPick(s, cap, device, l.c))
  {
    OthersWait(s, cap, l);
    forall d | d in s.calls
           && d != l.c ensures MayPick(Apply(s, cap, l), cap, device, d) == MayPick(s, cap, device, d) {
      assert d !in Counters(s, device) || Apply(s, cap, l).docs == s.docs;
    }
  }

  lemma NonePicked(s: State, device: string)
    requires Deleters(s, device) == {}
    ensures Spared(s, device) == Of(s.docs, device)
  {
    assert forall c :: c in s.calls && s.calls[c].sample.deviceId == device && s.calls[c].phase.Deleting? ==>
           c in Deleters(s, device);
  }

  /** With nothing picked before, a call picks as many as it may, or all there is. */
  lemma FindTakes(s: State, cap: nat, device: string, l: Label)
    requires Enabled(s, l) && l.Find? && s.calls[l.c].sample.deviceId == device && Deleters(s, device) == {}
    ensures |Spared(s, device) - l.ids| == |Spared(s, device)| - MayPick(s, cap, device, l.c)
            || Spared(s, device) - l.ids == {}
    ensures MayPick(Apply(s, cap, l), cap, device, l.c) == 0
  {
    NonePicked(s, device);
    SizeLeft(Of(s.docs, device), l.ids);
  }

  lemma NextGreedy(s: State, device: string) returns (l: Label)
    requires Pending(s, device)
    ensures Greedy(s, device, l)
  {
    if c :| c in Counters(s, device) {
      return Count(c);
    } else if c :| c in Deleters(s, device) {
      return Delete(c);
    }
    var c :| c in Finders(s, device);
    var ids := OldestExist(s.docs, device, s.calls[c].phase.excess);
    return Find(c, ids);
  }

  lemma NonePending(s: State, cap: nat, device: string)
    requires !Pending(s, device)
    ensures Left(s, cap, device) == |Of(s.docs, device)| && forall c :: !Trimming(s, device, c)
  {
    forall c ensures MayPick(s, cap, device, c) == 0 && !Trimming(s, device, c) {
      assert c !in Counters(s, device) && c !in Finders(s, device) && c !in Deleters(s, device);
    }
    NothingToPick(s, cap, device, s.calls.Keys);
    NonePicked(s, device);
  }

  lemma {:induction false} NothingToPick(s: State, cap: nat, device: string, calls: set<nat>)
    requires forall c :: c in calls ==> MayPick(s, cap, device, c) == 0
    ensures MayPickAll(s, cap, device, calls) == 0
    decreases |calls|
  {
    if calls != {} {
      var c :| c in calls;
      AllSplit(s, cap, device, calls, c);
      NothingToPick(s, cap, device, calls - {c});
    }
  }

  /** The calls go on to return, and nothing else about them changes. */
  ghost predicate Returning(s: State, s': State, device: string) {
    s'.calls.Keys == s.calls.Keys && forall c :: c in s.calls ==>
      && s'.calls[c].sample == s.calls[c].sample
      && (s'.calls[c] == s.calls[c]
          || (Trimming(s, device, c) && !s'.calls[c].phase.Checking? && !s'.calls[c].phase.Inserting?))
  }

  /** A run that ends the trims and leaves no more than must be. */
  ghost predicate Drained(cap: nat, run: seq<Label>, s: State, device: string, more: seq<Label>, s': State) {
    && Exec(cap, run + more) == Some(s') && TrimsOnly(more) && Returning(s, s', device)
    && (|Of(s'.docs, device)| <= Left(s, cap, device) || |Of(s'.docs, device)| == 0)
    && forall c :: !Trimming(s', device, c)
  }

  lemma DrainedBefore(cap: nat, run: seq<Label>, s: State, device: string, l: Label, rest: seq<Label>, s': State)
    requires cap > 0 && Owned(s) && Greedy(s, device, l)
    requires Drained(cap, run + [l], Apply(s, cap, l), device, rest, s')
    ensures Drained(cap, run, s, device, [l] + rest, s')
  {
    OthersWait(s, cap, l);
    GreedyLeaves(s, cap, device, l);
    Associative(run, [l], rest);
    ReturningBefore(s, cap, device, l, s');
  }

  lemma ReturningBefore(s: State, cap: nat, device: string, l: Label, s': State)
    requires Greedy(s, device, l) && Returning(Apply(s, cap, l), s', device)
    ensures Returning(s, s', device)
  {
    OthersWait(s, cap, l);
    assert Trimming(s, device, l.c);
    forall c | c in s.calls && s'.calls[c] != s.calls[c]
      ensures Trimming(s, device, c) && !s'.calls[c].phase.Checking? && !s'.calls[c].phase.Inserting?
    {
      assert c != l.c && Trimming(Apply(s, cap, l), device, c) ==> Trimming(s, device, c);
    }
  }

  /** From every reachable state the trims can be run to their end so that no more is left than must be. */
  lemma {:induction false} Drain(cap: nat, run: seq<Label>, s: State, device: string)
    returns (more: seq<Label>, s': State)
    requires cap > 0 && Exec(cap, run) == Some(s) && Owned(s)
    ensures Drained(cap, run, s, device, more, s')
    decreases |Counters(s, device)|, |Finders(s, device)|, |Deleters(s, device)|
  {
    if !Pending(s, device) {
      NonePending(s, cap, device);
      assert run + [] == run;
      return [], s;
    }
    var l := NextGreedy(s, device);
    var run1, s1 := Go(cap, run, s, l);
    PendingFalls(s, cap, device, l);
    OwnedStep(s, cap, l);
    var rest;
    rest, s' := Drain(cap, run1, s1, device);
    more := [l] + rest;
    DrainedBefore(cap, run, s, device, l, rest, s');
  }

  lemma {:induction false} AlwaysOwned(maxHistory: int, run: seq<Label>, s: State)
    requires Exec(maxHistory, run) == Some(s)
    ensures Owned(s)
  {
    if run != [] {
      AlwaysOwned(maxHistory, Front(run), Exec(maxHistory, Front(run)).value);
      OwnedStep(Exec(maxHistory, Front(run)).value, maxHistory, Last(run));
    }
  }

  /** In every reachable state: the calls in progress leave the device no smaller than it is or than the cap, in
      whatever order they go on, if and only if what they can still remove does not exceed what is over the cap. */
  lemma TrimsStopExactly(cap: nat, run: seq<Label>, s: State, device: string)
    requires cap > 0 && Exec(cap, run) == Some(s)
    ensures var size := |Of(s.docs, device)|;
            TrimsStop(cap, run, device, Capped(cap, size))
            <==> size == 0 || CanRemove(s, cap, device) <= size - Capped(cap, size)
  {
    AlwaysOwned(cap, run, s);
    LeftIsLeft(s, cap, device);
    var size := |Of(s.docs, device)|;
    if size == 0 || CanRemove(s, cap, device) <= size - Capped(cap, size) {
      forall more: seq<Label> | TrimsOnly(more) && Exec(cap, run + more).Some?
        ensures |Of(Exec(cap, run + more).value.docs, device)| >= Capped(cap, size)
      {
        LeftOn(cap, run, s, more, Exec(cap, run + more).value, device);
        LeftIsLeft(Exec(cap, run + more).value, cap, device);
      }
    } else {
      var more, s' := Drain(cap, run, s, device);
      assert Exec(cap, run + more).Some?;
    }
  }

  /** Two calls that count the same excess both remove it. */
  lemma TwoOvershoot(cap: nat, run: seq<Label>, s: State, device: string, c: nat, d: nat)
    returns (more: seq<Label>, s': State)
    requires cap > 0 && Exec(cap, run) == Some(s) && c != d && |Of(s.docs, device)| > cap
    requires InProgress(s, device, c) && InProgress(s, device, d) && s.calls[c].phase.Counting?
             && s.calls[d].phase.Counting?
    ensures Exec(cap, run + more) == Some(s') && |Of(s'.docs, device)| < cap && TrimsOnly(more)
    ensures Returning(s, s', device) && forall x :: !Trimming(s', device, x)
  {
    AlwaysOwned(cap, run, s);
    AllSplit(s, cap, device, s.calls.Keys, c);
    AllSplit(s, cap, device, s.calls.Keys - {c}, d);
    SubsetCardinality(Spared(s, device), Of(s.docs, device));
    more, s' := Drain(cap, run, s, device);
  }

  lemma BothReturned(a: Telemetry, b: Telemetry, s1: State, s: State)
    requires s1.calls == map[0 := Call(a, Counting), 1 := Call(b, Counting)] && a.deviceId == b.deviceId
    requires Returning(s1, s, a.deviceId) && forall c :: !Trimming(s, a.deviceId, c)
    ensures s.calls == map[0 := Call(a, Returned), 1 := Call(b, Returned)]
  {
    assert s.calls.Keys == {0, 1};
    assert !Trimming(s, a.deviceId, 0) && !Trimming(s, a.deviceId, 1);
  }

  /** Interleaved trims may go below the cap: two samples, a cap of one, and nothing is left. */
  lemma TrimsCanOvershoot(a: Telemetry, b: Telemetry) returns (run: seq<Label>, s: State)
    requires a.deviceId == b.deviceId
    ensures Exec(1, run) == Some(s)
    ensures s.calls == map[0 := Call(a, Returned), 1 := Call(b, Returned)] && Of(s.docs, a.deviceId) == {}
  {
    var run1 := BothInserted(a, b);
    var docs := map[0 := Encode(a), 1 := Encode(b)];
    var s1 := Two(a, b, docs, Counting, Counting);
    assert Of(docs, a.deviceId) == {0, 1};
    var more;
    more, s := TwoOvershoot(1, run1, s1, a.deviceId, 0, 1);
    run := run1 + more;
    BothReturned(a, b, s1, s);
  }
}
