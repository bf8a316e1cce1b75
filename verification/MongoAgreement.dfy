/** What MongoStore answers against what MemoryStore answers. */
module MongoAgreement {
  import opened Models
  import opened Sequences
  import opened Mongo
  import opened MongoSerial
  import Store

  // ---------------------------------------------------------------- tidy series

  /** Whole milliseconds, in order, and two samples at one time only if they are equal. */
  ghost predicate Tidy(series: seq<Telemetry>) {
    && (forall k :: 0 <= k < |series| ==> WholeMillis(series[k].timestamp))
    && (forall i, j :: 0 <= i < j < |series| ==> Follows(series[i], series[j]))
  }

  predicate Follows(a: Telemetry, b: Telemetry) {
    a.timestamp < b.timestamp || a == b
  }

  /** The documents of a device are the encodings of `series`, `order` saying which is which. */
  ghost predicate Represents(docs: Docs, device: string, order: seq<DocId>, series: seq<Telemetry>) {
    && Lists(order, Of(docs, device)) && |order| == |series|
    && (forall k :: 0 <= k < |order| ==> order[k] in docs && docs[order[k]] == Encode(series[k]))
    && (forall k :: 0 <= k < |series| ==> series[k].deviceId == device)
  }

  // ---------------------------------------------------------------- only one ascending order

  ghost predicate Stored(docs: Docs, ids: seq<DocId>) {
    forall i :: i in ids ==> i in docs
  }

  ghost function Contents(docs: Docs, ids: seq<DocId>): seq<Doc>
    requires Stored(docs, ids)
  {
    seq(|ids|, k requires 0 <= k < |ids| => docs[ids[k]])
  }

  lemma {:induction false} ContentsPermute(docs: Docs, p: seq<DocId>, q: seq<DocId>)
    requires multiset(p) == multiset(q) && Stored(docs, p) && Stored(docs, q)
    ensures multiset(Contents(docs, p)) == multiset(Contents(docs, q))
  {
    if p == [] {
      assert |multiset(q)| == |q|;
    } else {
      var a, b := Locate(p, q);
      assert (forall i :: i in a ==> i in q) && forall i :: i in b ==> i in q;
      assert Last(p) in p;
      ContentsPermute(docs, Front(p), a + b);
      var x := docs[Last(p)];
      assert Contents(docs, p) == Contents(docs, Front(p)) + [x];
      assert Contents(docs, q) == Contents(docs, a) + [x] + Contents(docs, b);
      assert Contents(docs, a + b) == Contents(docs, a) + Contents(docs, b);
    }
  }

  ghost predicate InOrder(a: seq<Doc>) {
    forall i, j :: 0 <= i < j < |a| ==> a[i].millis <= a[j].millis
  }

  ghost predicate TieFree(a: seq<Doc>) {
    forall i, j :: 0 <= i < j < |a| && a[i].millis == a[j].millis ==> a[i] == a[j]
  }

  lemma SameLast(a: seq<Doc>, b: seq<Doc>)
    requires a != [] && b != [] && multiset(a) == multiset(b) && InOrder(a) && InOrder(b) && TieFree(a)
    ensures Last(a) == Last(b)
  {
    assert Last(a) in multiset(b) && Last(b) in multiset(a);
    var i :| 0 <= i < |a| && a[i] == Last(b);
    var j :| 0 <= j < |b| && b[j] == Last(a);
  }

  /** Documents of which equal times mean equal contents can be put in ascending order in one way only. */
  lemma {:induction false} OneOrder(a: seq<Doc>, b: seq<Doc>)
    requires multiset(a) == multiset(b) && InOrder(a) && InOrder(b) && TieFree(a)
    ensures a == b
  {
    assert |multiset(a)| == |a| && |multiset(b)| == |b|;
    if a != [] {
      SameLast(a, b);
      MultisetFront(a);
      MultisetFront(b);
      OneOrder(Front(a), Front(b));
      FrontLast(a);
      FrontLast(b);
    }
  }

  lemma AscendingContents(docs: Docs, ids: seq<DocId>)
    requires Ascending(docs, ids) && Stored(docs, ids)
    ensures InOrder(Contents(docs, ids))
  {
    forall i, j | 0 <= i < j < |ids| ensures docs[ids[i]].millis <= docs[ids[j]].millis {
      assert Millis(docs, ids[i]) <= Millis(docs, ids[j]);
    }
  }

  lemma TidyContents(docs: Docs, device: string, order: seq<DocId>, series: seq<Telemetry>)
    requires Represents(docs, device, order, series) && Tidy(series)
    ensures Stored(docs, order) && InOrder(Contents(docs, order)) && TieFree(Contents(docs, order))
  {
    forall i, j | 0 <= i < j < |order|
      ensures docs[order[i]].millis <= docs[order[j]].millis
      ensures docs[order[i]].millis == docs[order[j]].millis ==> docs[order[i]] == docs[order[j]]
    {
      assert Follows(series[i], series[j]);
    }
  }

  lemma {:induction false} AscendingListing(docs: Docs, members: set<DocId>) returns (ids: seq<DocId>)
    requires forall i :: i in members ==> i in docs
    ensures Lists(ids, members) && Ascending(docs, ids) && Stored(docs, ids) && forall i :: i in ids <==> i in members
    decreases |members|
  {
    if members == {} {
      return [];
    }
    var i := OldestOne(docs, members);
    var rest := AscendingListing(docs, members - {i});
    ids := [i] + rest;
    assert multiset(members) == multiset{i} + multiset(members - {i});
    forall x, y | 0 <= x < y < |ids| ensures Millis(docs, ids[x]) <= Millis(docs, ids[y]) {
      assert ids[y] == rest[y - 1] && rest[y - 1] in rest;
    }
  }

  // ---------------------------------------------------------------- trimming

  lemma ListsBoth(a: seq<DocId>, x: set<DocId>, b: seq<DocId>, y: set<DocId>)
    requires Lists(a, x) && Lists(b, y) && x !! y
    ensures Lists(a + b, x + y)
  {
    assert multiset(x + y) == multiset(x) + multiset(y);
  }

  lemma ListedApart(docs: Docs, all: set<DocId>, ids: set<DocId>) returns (gone: seq<DocId>, rest: seq<DocId>)
    requires ids <= all && forall i :: i in all ==> i in docs
    ensures Lists(gone, ids) && Lists(rest, all - ids) && Lists(gone + rest, all)
    ensures Ascending(docs, gone) && Ascending(docs, rest)
    ensures (forall i :: i in gone ==> i in ids) && forall i :: i in rest ==> i in all - ids
  {
    gone := AscendingListing(docs, ids);
    rest := AscendingListing(docs, all - ids);
    ListsBoth(gone, ids, rest, all - ids);
    assert ids + (all - ids) == all;
  }

  lemma OldestThenRest(docs: Docs, device: string, k: nat, ids: set<DocId>) returns (gone: seq<DocId>, rest: seq<DocId>)
    requires Oldest(docs, device, k, ids)
    ensures Lists(gone, ids) && Lists(rest, Of(docs, device) - ids) && Lists(gone + rest, Of(docs, device))
    ensures Stored(docs, gone + rest) && Ascending(docs, gone + rest)
  {
    gone, rest := ListedApart(docs, Of(docs, device), ids);
    forall i, j | 0 <= i < |gone| && 0 <= j < |rest| ensures Millis(docs, gone[i]) <= Millis(docs, rest[j]) {
      assert gone[i] in gone && rest[j] in rest;
    }
  }

  /** An ascending listing holds the encodings of a tidy series in order. */
  lemma ListingFollows(docs: Docs, device: string, order: seq<DocId>, series: seq<Telemetry>, ids: seq<DocId>)
    requires Represents(docs, device, order, series) && Tidy(series)
    requires Lists(ids, Of(docs, device)) && Ascending(docs, ids) && Stored(docs, ids)
    ensures |ids| == |series| && forall k :: 0 <= k < |ids| ==> docs[ids[k]] == Encode(series[k])
  {
    TidyContents(docs, device, order, series);
    ContentsPermute(docs, order, ids);
    AscendingContents(docs, ids);
    OneOrder(Contents(docs, order), Contents(docs, ids));
    forall k | 0 <= k < |ids| ensures docs[ids[k]] == Encode(series[k]) {
      assert Contents(docs, ids)[k] == Contents(docs, order)[k];
    }
  }

  /** Whatever k oldest documents are picked, what remains is the end of the series. */
  lemma RestIsSuffix(docs: Docs, device: string, order: seq<DocId>, series: seq<Telemetry>, k: nat, ids: set<DocId>)
    returns (rest: seq<DocId>)
    requires Represents(docs, device, order, series) && Tidy(series) && k <= |order| && Oldest(docs, device, k, ids)
    ensures Represents(docs - ids, device, rest, series[k..])
  {
    var gone;
    gone, rest := OldestThenRest(docs, device, k, ids);
    ListingFollows(docs, device, order, series, gone + rest);
    ListsMembers(order, Of(docs, device));
    ListsMembers(gone, ids);
    assert |gone| == k;
    EndRepresents(docs, device, series, gone, rest, ids);
  }

  lemma EndRepresents(docs: Docs, device: string, series: seq<Telemetry>, gone: seq<DocId>, rest: seq<DocId>,
                      ids: set<DocId>)
    requires Lists(rest, Of(docs, device) - ids) && |gone + rest| == |series| && Stored(docs, gone + rest)
    requires forall k :: 0 <= k < |gone + rest| ==> docs[(gone + rest)[k]] == Encode(series[k])
    requires forall k :: 0 <= k < |series| ==> series[k].deviceId == device
    ensures Represents(docs - ids, device, rest, series[|gone|..])
  {
    assert Of(docs - ids, device) == Of(docs, device) - ids;
    ListsMembers(rest, Of(docs, device) - ids);
    forall k | 0 <= k < |rest| ensures rest[k] in docs - ids && docs[rest[k]] == Encode(series[|gone| + k]) {
      assert (gone + rest)[|gone| + k] == rest[k] && rest[k] in rest;
    }
  }

  lemma ExcessRefines(docs: Docs, device: string, maxHistory: int, order: seq<DocId>, series: seq<Telemetry>,
                      ids: set<DocId>)
    returns (order': seq<DocId>)
    requires Represents(docs, device, order, series) && Tidy(series) && 0 < maxHistory < |order|
    requires Oldest(docs, device, |order| - maxHistory, ids)
    ensures Represents(docs - ids, device, order', Keep(series, maxHistory))
  {
    order' := RestIsSuffix(docs, device, order, series, |order| - maxHistory, ids);
  }

  /** Trimming the oldest documents is trimming the earliest arrivals, as long as arrivals are tidy. */
  lemma TrimRefines(docs: Docs, device: string, maxHistory: int, docs': Docs, order: seq<DocId>, series: seq<Telemetry>)
    returns (order': seq<DocId>)
    requires Represents(docs, device, order, series) && Tidy(series) && Trimmed(docs, device, maxHistory, docs')
    ensures Represents(docs', device, order', Keep(series, maxHistory))
  {
    ListsMembers(order, Of(docs, device));
    if maxHistory <= 0 || |series| <= maxHistory {
      order' := order;
    } else {
      var ids :| Oldest(docs, device, |Of(docs, device)| - maxHistory, ids) && docs' == docs - ids;
      order' := ExcessRefines(docs, device, maxHistory, order, series, ids);
    }
  }

  lemma InsertRefines(docs: Docs, id: DocId, t: Telemetry, order: seq<DocId>, series: seq<Telemetry>)
    requires Represents(docs, t.deviceId, order, series) && id !in docs
    ensures Represents(docs[id := Encode(t)], t.deviceId, order + [id], series + [t])
  {
  }

  /** Documents of other devices do not matter. */
  lemma OthersKeep(docs: Docs, docs': Docs, device: string, order: seq<DocId>, series: seq<Telemetry>)
    requires Represents(docs, device, order, series)
    requires Of(docs', device) == Of(docs, device) && forall i :: i in Of(docs, device) ==> docs'[i] == docs[i]
    ensures Represents(docs', device, order, series)
  {
    ListsMembers(order, Of(docs, device));
    forall k | 0 <= k < |order| ensures order[k] in docs' && docs'[order[k]] == Encode(series[k]) {
      assert order[k] in order;
    }
  }

  // ---------------------------------------------------------------- queries

  /** In a tidy series, nothing is at or after a time that the last sample is before. */
  lemma NoneAfterLast(series: seq<Telemetry>, since: Time)
    requires Tidy(series) && series != [] && !Store.AtOrAfter(Last(series), since)
    ensures forall i :: 0 <= i < |series| ==> !Store.AtOrAfter(series[i], since)
  {
    forall i | 0 <= i < |series| ensures !Store.AtOrAfter(series[i], since) {
      if i < |series| - 1 {
        assert Follows(series[i], series[|series| - 1]);
      }
    }
  }

  lemma {:induction false} SinceNone(series: seq<Telemetry>, since: Time)
    requires forall i :: 0 <= i < |series| ==> !Store.AtOrAfter(series[i], since)
    ensures Store.Since(series, since) == []
  {
    if series != [] {
      SinceNone(Front(series), since);
    }
  }

  /** `since` cuts the series at `k`. */
  ghost predicate CutAt(series: seq<Telemetry>, since: Time, k: nat) {
    k <= |series| && forall i :: 0 <= i < |series| ==> (i >= k <==> Store.AtOrAfter(series[i], since))
  }

  lemma CutOneLonger(series: seq<Telemetry>, since: Time, k: nat)
    requires series != [] && CutAt(Front(series), since, k) && Store.AtOrAfter(Last(series), since)
    ensures CutAt(series, since, k) && series[k..] == Front(series)[k..] + [Last(series)]
  {
    assert forall i :: 0 <= i < |series| - 1 ==> series[i] == Front(series)[i];
  }

  lemma {:induction false} SinceIsSuffix(series: seq<Telemetry>, since: Time) returns (k: nat)
    requires Tidy(series)
    ensures CutAt(series, since, k) && Store.Since(series, since) == series[k..]
  {
    if series == [] {
      k := 0;
    } else if Store.AtOrAfter(Last(series), since) {
      k := SinceIsSuffix(Front(series), since);
      CutOneLonger(series, since, k);
    } else {
      NoneAfterLast(series, since);
      SinceNone(series, since);
      k := |series|;
    }
  }

  lemma ListsSuffix(order: seq<DocId>, members: set<DocId>, k: nat)
    requires Lists(order, members) && k <= |order|
    ensures Lists(order[k..], members - Elements(order[..k]))
  {
    ListsMembers(order, members);
    var rest := members - Elements(order[..k]);
    assert order == order[..k] + order[k..];
    forall i: DocId ensures multiset(order[k..])[i] == multiset(rest)[i] {
      assert multiset(order)[i] == multiset(order[..k])[i] + multiset(order[k..])[i];
      assert i in multiset(order[..k]) <==> i in order[..k];
    }
  }

  /** Rounding `since` down to its millisecond makes no difference to the samples of a series. */
  ghost predicate Discerned(series: seq<Telemetry>, since: Time) {
    WholeMillis(since) || forall i :: 0 <= i < |series| ==> ToMillis(series[i].timestamp) != ToMillis(since)
  }

  lemma MatchingIsSuffix(docs: Docs, device: string, order: seq<DocId>, series: seq<Telemetry>, since: Time, k: nat)
    requires Represents(docs, device, order, series) && Tidy(series) && Discerned(series, since)
             && CutAt(series, since, k)
    ensures Lists(order[k..], Matching(docs, device, since))
  {
    ListsMembers(order, Of(docs, device));
    ListsSuffix(order, Of(docs, device), k);
    ListsMembers(order[k..], Of(docs, device) - Elements(order[..k]));
    forall i | i in Of(docs, device) ensures i in Matching(docs, device, since) <==> i !in Elements(order[..k]) {
      MatchesAtOrAfter(docs, device, order, series, since, k, i);
    }
    assert Matching(docs, device, since) == Of(docs, device) - Elements(order[..k]);
  }

  lemma MatchesAtOrAfter(docs: Docs, device: string, order: seq<DocId>, series: seq<Telemetry>, since: Time, k: nat,
                         i: DocId)
    requires Represents(docs, device, order, series) && Tidy(series) && Discerned(series, since)
             && CutAt(series, since, k)
    requires i in Of(docs, device)
    ensures i in Matching(docs, device, since) <==> i !in Elements(order[..k])
  {
    ListsMembers(order, Of(docs, device));
    var j :| 0 <= j < |order| && order[j] == i;
    if j < k {
      assert order[..k][j] == i;
    } else {
      ListsOnce(order, Of(docs, device), j);
      assert forall x :: x in order[..k] ==> x in order[..j];
    }
  }

  lemma DecodedSuffix(docs: Docs, device: string, order: seq<DocId>, series: seq<Telemetry>, k: nat, ids: seq<DocId>,
                      limit: int)
    requires Represents(docs, device, order, series) && Tidy(series) && k <= |order| && |ids| == |order| - k
    requires forall j :: 0 <= j < |ids| ==> ids[j] in docs && docs[ids[j]] == docs[order[k + j]]
    ensures Decoded(docs, Keep(ids, limit)) == Keep(series[k..], limit)
  {
    forall j | 0 <= j < |ids| ensures Decode(docs[ids[j]]) == series[k + j] {
    }
  }

  /** Every answer MongoDB may give about a tidy series is MemoryStore's. */
  lemma QueryAgrees(docs: Docs, device: string, order: seq<DocId>, series: seq<Telemetry>,
                    since: Time, limit: int, out: seq<Telemetry>)
    requires Represents(docs, device, order, series) && Tidy(series) && Discerned(series, since)
    requires Answers(docs, device, since, limit, out)
    ensures out == Store.Query(series, since, limit)
  {
    var k := SinceIsSuffix(series, since);
    MatchingIsSuffix(docs, device, order, series, since, k);
    var ids :| Yields(docs, device, since, limit, ids, out);
    SameContents(docs, device, order, series, k, ids);
    DecodedSuffix(docs, device, order, series, k, ids, limit);
  }

  lemma SameContents(docs: Docs, device: string, order: seq<DocId>, series: seq<Telemetry>, k: nat, ids: seq<DocId>)
    requires Represents(docs, device, order, series) && Tidy(series) && k <= |order|
    requires multiset(ids) == multiset(order[k..]) && Ascending(docs, ids) && Stored(docs, ids)
    ensures |ids| == |order| - k && forall j :: 0 <= j < |ids| ==> docs[ids[j]] == docs[order[k + j]]
  {
    var end := order[k..];
    TidyContents(docs, device, order, series);
    assert forall i :: i in end ==> i in order;
    assert Contents(docs, end) == Contents(docs, order)[k..];
    ContentsPermute(docs, end, ids);
    AscendingContents(docs, ids);
    OneOrder(Contents(docs, end), Contents(docs, ids));
    forall j | 0 <= j < |ids| ensures docs[ids[j]] == docs[order[k + j]] {
      assert Contents(docs, ids)[j] == Contents(docs, end)[j];
    }
  }

  // ---------------------------------------------------------------- exactly when the stores agree

  /** Every answer to every whole-millisecond query is MemoryStore's over the series. */
  ghost predicate Agrees(docs: Docs, device: string, series: seq<Telemetry>) {
    forall since, limit, out :: WholeMillis(since) && Answers(docs, device, since, limit, out) ==>
      out == Store.Query(series, since, limit)
  }

  lemma WholeListing(docs: Docs, device: string, ids: seq<DocId>)
    requires Lists(ids, Of(docs, device)) && Ascending(docs, ids)
    ensures (forall k :: 0 <= k < |ids| ==> ids[k] in docs) && Answers(docs, device, ZERO_TIME, 0, Decoded(docs, ids))
  {
    ListsMembers(ids, Of(docs, device));
    assert Matching(docs, device, ZERO_TIME) == Of(docs, device);
    forall k | 0 <= k < |ids| ensures ids[k] in docs {
      assert ids[k] in ids;
    }
    assert Yields(docs, device, ZERO_TIME, 0, ids, Decoded(docs, ids));
  }

  lemma OnlyAnswer(docs: Docs, device: string, series: seq<Telemetry>, ids: seq<DocId>)
    requires Agrees(docs, device, series) && Lists(ids, Of(docs, device)) && Ascending(docs, ids)
    ensures (forall k :: 0 <= k < |ids| ==> ids[k] in docs) && |ids| == |series| && Decoded(docs, ids) == series
  {
    WholeListing(docs, device, ids);
    Store.SinceZero(series);
    assert WholeMillis(ZERO_TIME);
  }

  /** In a series that every listing decodes to, samples at one time are equal: exchange them in the listing. */
  lemma TiesAreEqual(docs: Docs, device: string, series: seq<Telemetry>, ids: seq<DocId>, i: nat, j: nat)
    requires Agrees(docs, device, series) && Lists(ids, Of(docs, device)) && Ascending(docs, ids)
    requires |ids| == |series| && (forall k :: 0 <= k < |ids| ==> ids[k] in docs) && Decoded(docs, ids) == series
    requires i < j < |series| && series[i].timestamp == series[j].timestamp
    ensures series[i] == series[j]
  {
    var other := ids[i := ids[j]][j := ids[i]];
    assert Decode(docs[ids[i]]) == series[i] && Decode(docs[ids[j]]) == series[j];
    assert forall k :: 0 <= k < |ids| ==> Millis(docs, other[k]) == Millis(docs, ids[k]);
    OnlyAnswer(docs, device, series, other);
    assert Decoded(docs, other)[i] == Decode(docs[ids[j]]);
  }

  lemma AgreementNeedsTidy(docs: Docs, device: string, series: seq<Telemetry>)
    requires Agrees(docs, device, series)
    ensures Tidy(series)
  {
    var ids := AscendingListing(docs, Of(docs, device));
    OnlyAnswer(docs, device, series, ids);
    forall k | 0 <= k < |series| ensures WholeMillis(series[k].timestamp) {
      assert series[k] == Decode(docs[ids[k]]);
    }
    forall i, j | 0 <= i < j < |series| ensures Follows(series[i], series[j]) {
      ListedInOrder(docs, device, series, ids, i, j);
    }
  }

  lemma ListedInOrder(docs: Docs, device: string, series: seq<Telemetry>, ids: seq<DocId>, i: nat, j: nat)
    requires Agrees(docs, device, series) && Lists(ids, Of(docs, device)) && Ascending(docs, ids)
    requires |ids| == |series| && (forall k :: 0 <= k < |ids| ==> ids[k] in docs) && Decoded(docs, ids) == series
    requires i < j < |series|
    ensures Follows(series[i], series[j])
  {
    assert Millis(docs, ids[i]) <= Millis(docs, ids[j]);
    assert series[i] == Decode(docs[ids[i]]) && series[j] == Decode(docs[ids[j]]);
    if series[i].timestamp == series[j].timestamp {
      TiesAreEqual(docs, device, series, ids, i, j);
    }
  }

  /** Over the same samples the two stores answer every whole-millisecond query alike, whatever MongoDB does with
      ties, if and only if the samples are tidy. */
  lemma AgreesExactly(docs: Docs, device: string, order: seq<DocId>, series: seq<Telemetry>)
    requires Represents(docs, device, order, series)
    ensures Agrees(docs, device, series) <==> Tidy(series)
  {
    if Tidy(series) {
      forall since, limit, out | WholeMillis(since) && Answers(docs, device, since, limit, out)
        ensures out == Store.Query(series, since, limit)
      {
        QueryAgrees(docs, device, order, series, since, limit, out);
      }
    } else if Agrees(docs, device, series) {
      AgreementNeedsTidy(docs, device, series);
    }
  }

  ghost predicate AgreesAt(docs: Docs, device: string, series: seq<Telemetry>, since: Time) {
    forall limit, out :: Answers(docs, device, since, limit, out) ==> out == Store.Query(series, since, limit)
  }

  lemma {:induction false} SinceOnly(series: seq<Telemetry>, since: Time)
    ensures forall t :: t in Store.Since(series, since) ==> Store.AtOrAfter(t, since)
  {
    if series != [] {
      SinceOnly(Front(series), since);
    }
  }

  /** A sample in the millisecond that `since` falls into is returned by MongoDB and left out by MemoryStore. */
  lemma RoundedDown(docs: Docs, device: string, order: seq<DocId>, series: seq<Telemetry>, since: Time, i: nat)
    requires Represents(docs, device, order, series) && Tidy(series) && !WholeMillis(since)
    requires i < |series| && ToMillis(series[i].timestamp) == ToMillis(since)
    ensures !AgreesAt(docs, device, series, since)
  {
    var ids := AscendingListing(docs, Matching(docs, device, since));
    ListsMembers(order, Of(docs, device));
    assert order[i] in order;
    assert order[i] in Matching(docs, device, since);
    var k :| 0 <= k < |ids| && ids[k] == order[i];
    var out := Decoded(docs, ids);
    assert Yields(docs, device, since, 0, ids, out);
    assert Answers(docs, device, since, 0, out);
    assert out[k] == series[i] && series[i] in out;
    SinceOnly(series, since);
    assert !Store.AtOrAfter(series[i], since);
    assert out != Store.Query(series, since, 0);
  }

  /** A query with a finer `since` agrees if and only if no sample lies in the millisecond it falls into. */
  lemma FinerSinceAgreesExactly(docs: Docs, device: string, order: seq<DocId>, series: seq<Telemetry>, since: Time)
    requires Represents(docs, device, order, series) && Tidy(series)
    ensures AgreesAt(docs, device, series, since) <==> Discerned(series, since)
  {
    if Discerned(series, since) {
      forall limit, out | Answers(docs, device, since, limit, out) ensures out == Store.Query(series, since, limit) {
        QueryAgrees(docs, device, order, series, since, limit, out);
      }
    } else {
      var i :| 0 <= i < |series| && ToMillis(series[i].timestamp) == ToMillis(since);
      RoundedDown(docs, device, order, series, since, i);
    }
  }

  // ---------------------------------------------------------------- whole runs

  /** The databases a sequence of non-overlapping calls may go through. */
  ghost predicate SerialRun(dbs: seq<Db>, maxHistory: int, ops: seq<Store.Op>) {
    && |dbs| == |ops| + 1 && dbs[0] == EMPTY_DB
    && forall i :: 0 <= i < |ops| ==> Serially(dbs[i], maxHistory, ops[i], dbs[i + 1])
  }

  predicate Within(maxHistory: int, log: seq<Telemetry>) {
    maxHistory <= 0 || |log| <= maxHistory
  }

  /** A device that exists in both stores or in neither; its documents are the samples MemoryStore holds of it, as
      long as its samples are tidy or all within the cap. */
  ghost predicate Agree(db: Db, maxHistory: int, device: string, log: Option<seq<Telemetry>>, order: seq<DocId>) {
    && (forall i :: i in db.docs ==> i < db.nextId)
    && (log.None? ==> device !in db.devices && Of(db.docs, device) == {})
    && (log.Some? ==> device in db.devices)
    && (log.Some? && (Tidy(log.value) || Within(maxHistory, log.value)) ==>
          Represents(db.docs, device, order, Keep(log.value, maxHistory)))
  }

  lemma TidyKept(log: seq<Telemetry>, t: Telemetry, maxHistory: int)
    requires Tidy(log + [t])
    ensures Tidy(log) && Tidy(Keep(log, maxHistory) + [t])
  {
    var n := |log| - |Keep(log, maxHistory)|;
    assert forall i :: 0 <= i < |log| ==> log[i] == (log + [t])[i];
    assert Keep(log, maxHistory) == log[n..];
    assert forall i :: 0 <= i < |log| - n + 1 ==> (log[n..] + [t])[i] == (log + [t])[n + i];
  }

  lemma InsertAndTrim(docs: Docs, id: DocId, t: Telemetry, maxHistory: int, docs': Docs, log: seq<Telemetry>,
                      order: seq<DocId>)
    returns (order': seq<DocId>)
    requires Represents(docs, t.deviceId, order, Keep(log, maxHistory)) && id !in docs
    requires Tidy(log + [t]) || Within(maxHistory, log + [t])
    requires Trimmed(docs[id := Encode(t)], t.deviceId, maxHistory, docs')
    ensures Represents(docs', t.deviceId, order', Keep(log + [t], maxHistory))
  {
    var kept := Keep(log, maxHistory);
    InsertRefines(docs, id, t, order, kept);
    Store.KeepAppend(log, maxHistory, t);
    if Within(maxHistory, log + [t]) {
      ListsMembers(order + [id], Of(docs[id := Encode(t)], t.deviceId));
      order' := order + [id];
    } else {
      TidyKept(log, t, maxHistory);
      order' := TrimRefines(docs[id := Encode(t)], t.deviceId, maxHistory, docs', order + [id], kept + [t]);
    }
  }

  lemma AgreeOnSample(db: Db, maxHistory: int, t: Telemetry, db': Db, log: seq<Telemetry>, order: seq<DocId>)
    returns (order': seq<DocId>)
    requires Agree(db, maxHistory, t.deviceId, Some(log), order)
    requires Serially(db, maxHistory, Store.AddTelemetry(t), db')
    ensures Agree(db', maxHistory, t.deviceId, Some(log + [t]), order')
  {
    if Tidy(log + [t]) || Within(maxHistory, log + [t]) {
      if Tidy(log + [t]) {
        TidyKept(log, t, maxHistory);
      }
      order' := InsertAndTrim(db.docs, db.nextId, t, maxHistory, db'.docs, log, order);
    } else {
      order' := [];
    }
  }

  lemma AgreeOnOther(db: Db, maxHistory: int, t: Telemetry, db': Db, device: string, log: Option<seq<Telemetry>>,
                     order: seq<DocId>)
    requires Agree(db, maxHistory, device, log, order) && t.deviceId != device
    requires Serially(db, maxHistory, Store.AddTelemetry(t), db')
    ensures Agree(db', maxHistory, device, log, order)
  {
    if t.deviceId in db.devices {
      var docs := db.docs[db.nextId := Encode(t)];
      assert Of(docs, device) == Of(db.docs, device);
      if log.Some? && (Tidy(log.value) || Within(maxHistory, log.value)) {
        OthersKeep(db.docs, db'.docs, device, order, Keep(log.value, maxHistory));
      }
    }
  }

  lemma AgreeOnDevices(db: Db, maxHistory: int, op: Store.Op, db': Db, device: string, log: Option<seq<Telemetry>>,
                       order: seq<DocId>)
    requires Agree(db, maxHistory, device, log, order) && !op.AddTelemetry? && Serially(db, maxHistory, op, db')
    ensures Agree(db', maxHistory, device, Store.LogStep(log, op, device), if log.Some? then order else [])
  {
    if op.DeleteDevice? {
      if log.Some? && op.id != device && (Tidy(log.value) || Within(maxHistory, log.value)) {
        assert Of(db'.docs, device) == Of(db.docs, device);
        OthersKeep(db.docs, db'.docs, device, order, Keep(log.value, maxHistory));
      }
    } else if op.CreateDevice? {
      assert db'.docs == db.docs;
    }
  }

  lemma {:induction false} Agreement(dbs: seq<Db>, maxHistory: int, ops: seq<Store.Op>, device: string)
    returns (order: seq<DocId>)
    requires SerialRun(dbs, maxHistory, ops)
    ensures Agree(dbs[|ops|], maxHistory, device, Store.Log(ops, device), order)
  {
    if ops == [] {
      return [];
    }
    var before := Agreement(Front(dbs), maxHistory, Front(ops), device);
    var n, log := |ops| - 1, Store.Log(Front(ops), device);
    var op := ops[n];
    assert Serially(dbs[n], maxHistory, op, dbs[n + 1]);
    if !op.AddTelemetry? {
      AgreeOnDevices(dbs[n], maxHistory, op, dbs[n + 1], device, log, before);
      order := if log.Some? then before else [];
    } else if op.sample.deviceId != device {
      AgreeOnOther(dbs[n], maxHistory, op.sample, dbs[n + 1], device, log, before);
      order := before;
    } else if log.Some? {
      order := AgreeOnSample(dbs[n], maxHistory, op.sample, dbs[n + 1], log.value, before);
    } else {
      order := before;
    }
  }

  /** Behind the Store interface the two stores cannot be told apart by queries: after any non-overlapping calls,
      every answer MongoDB may give to a whole-millisecond query about a device whose samples since its creation are
      tidy, or that does not exist, is MemoryStore's. */
  lemma MongoRefinesMemory(dbs: seq<Db>, maxHistory: int, ops: seq<Store.Op>, device: string,
                           since: Time, limit: int, out: seq<Telemetry>)
    requires SerialRun(dbs, maxHistory, ops) && WholeMillis(since)
    requires Store.Log(ops, device).Some? ==> Tidy(Store.Log(ops, device).value)
    requires Answers(dbs[|ops|].docs, device, since, limit, out)
    ensures out == Store.Query(Store.Run(maxHistory, ops).Series(device), since, limit)
  {
    var order := Agreement(dbs, maxHistory, ops, device);
    Store.Retention(maxHistory, ops, device);
    var docs, log := dbs[|ops|].docs, Store.Log(ops, device);
    if log.Some? {
      QueryAgrees(docs, device, order, Keep(log.value, maxHistory), since, limit, out);
    } else {
      QueryAgrees(docs, device, [], [], since, limit, out);
    }
  }

  /** After any non-overlapping calls that have left a device within the cap, the two stores answer all
      whole-millisecond queries about it alike if and only if its samples since creation are tidy. */
  lemma RunAgreesExactly(dbs: seq<Db>, maxHistory: int, ops: seq<Store.Op>, device: string)
    requires SerialRun(dbs, maxHistory, ops)
    requires Store.Log(ops, device).Some? && Within(maxHistory, Store.Log(ops, device).value)
    ensures Agrees(dbs[|ops|].docs, device, Store.Run(maxHistory, ops).Series(device))
       <==> Tidy(Store.Log(ops, device).value)
  {
    var order := Agreement(dbs, maxHistory, ops, device);
    Store.Retention(maxHistory, ops, device);
    AgreesExactly(dbs[|ops|].docs, device, order, Store.Log(ops, device).value);
  }
}
