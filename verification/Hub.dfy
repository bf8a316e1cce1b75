/** The realtime hub: broadcasts that iterate over the subscribers under a read lock, and slow subscribers that lose
    events. Every goroutine is interleaved at the level of lock operations, channel operations and map writes. */
module Hub {
  import opened Models
  import opened Sequences

  /** An event together with the goroutine that broadcast it. */
  datatype Msg<E> = Msg(from: nat, event: E)

  datatype Chan<E> = Chan(open: bool, buffer: seq<Msg<E>>)

  /** What the holder of the write lock will do next. */
  datatype Writer = Nobody | Adding(ch: nat) | Removing(ch: nat) | Closing(ch: nat) | Leaving

  /** A Broadcast that holds the read lock, and the channels its loop has yet to visit. */
  datatype Reader<E> = Reader(msg: Msg<E>, remaining: set<nat>)

  datatype State<E> = State(
    bufferSize: nat,
    chans: map<nat, Chan<E>>,
    pending: set<nat>,        // made by a Subscribe that has not yet got the lock
    subscribers: set<nat>,
    writer: Writer,
    readers: map<nat, Reader<E>>,
    panicked: bool)           // some send or close hit a closed channel

  datatype Label<E> =
    | Make(ch: nat)                                        // Subscribe: the channel is created
    | LockToAdd(ch: nat)
    | LockToRemove(ch: nat)                                // Unsubscribe, of any channel, any number of times
    | Write                                                // the lock holder's next action
    | Unlock
    | ReadLock(msg: Msg<E>)                                // Broadcast begins in goroutine msg.from
    | Send(ch: nat, msg: Msg<E>, kept: bool)               // one turn of its loop, in any order of the map
    | ReadUnlock(from: nat)
    | Receive(ch: nat, msg: Msg<E>)

  function Init<E>(bufferSize: int): State<E> {
    State(if bufferSize <= 0 then 16 else bufferSize, map[], {}, {}, Nobody, map[], false)
  }

  predicate Sendable<E>(s: State<E>, ch: nat) {
    ch in s.chans && s.chans[ch].open
  }

  predicate Enabled<E(==)>(s: State<E>, l: Label<E>) {
    match l
    case Make(ch) => ch !in s.chans
    case LockToAdd(ch) => ch in s.pending && s.writer == Nobody && s.readers == map[]
    case LockToRemove(ch) => s.writer == Nobody && s.readers == map[]
    case Write => s.writer.Adding? || s.writer.Removing? || s.writer.Closing?
    case Unlock => s.writer == Leaving
    case ReadLock(msg) => s.writer == Nobody && msg.from !in s.readers
    case Send(ch, msg, kept) =>
      && msg.from in s.readers && s.readers[msg.from].msg == msg && ch in s.readers[msg.from].remaining
      && (Sendable(s, ch) ==> kept == (|s.chans[ch].buffer| < s.bufferSize))
    case ReadUnlock(p) => p in s.readers && s.readers[p].remaining == {}
    case Receive(ch, msg) => ch in s.chans && s.chans[ch].buffer != [] && s.chans[ch].buffer[0] == msg
  }

  function Offer<E>(buffer: seq<Msg<E>>, msg: Msg<E>, bufferSize: nat): seq<Msg<E>> {
    if |buffer| < bufferSize then buffer + [msg] else buffer
  }

  function Apply<E(==)>(s: State<E>, l: Label<E>): State<E>
    requires Enabled(s, l)
  {
    match l
    case Make(ch) => s.(chans := s.chans[ch := Chan(true, [])], pending := s.pending + {ch})
    case LockToAdd(ch) => s.(writer := Adding(ch), pending := s.pending - {ch})
    case LockToRemove(ch) => s.(writer := Removing(ch))
    case Write => WriteStep(s)
    case Unlock => s.(writer := Nobody)
    case ReadLock(msg) => s.(readers := s.readers[msg.from := Reader(msg, s.subscribers)])
    case Send(ch, msg, _) =>
      var visited := s.(readers := s.readers[msg.from := Reader(msg, s.readers[msg.from].remaining - {ch})]);
      if !Sendable(s, ch) then visited.(panicked := true)
      else visited.(chans := s.chans[ch := Chan(true, Offer(s.chans[ch].buffer, msg, s.bufferSize))])
    case ReadUnlock(p) => s.(readers := s.readers - {p})
    case Receive(ch, _) => s.(chans := s.chans[ch := s.chans[ch].(buffer := s.chans[ch].buffer[1..])])
  }

  function WriteStep<E>(s: State<E>): State<E> {
    match s.writer
    case Adding(ch) => s.(subscribers := s.subscribers + {ch}, writer := Leaving)
    case Removing(ch) =>
      if ch in s.subscribers then s.(subscribers := s.subscribers - {ch}, writer := Closing(ch))
      else s.(writer := Leaving)
    case Closing(ch) =>
      if !Sendable(s, ch) then s.(panicked := true, writer := Leaving)
      else s.(chans := s.chans[ch := s.chans[ch].(open := false)], writer := Leaving)
    case _ => s
  }

  function Exec<E(==)>(s0: State<E>, run: seq<Label<E>>): Option<State<E>> {
    if run == [] then Some(s0) else
      var before := Exec(s0, Front(run));
      if before.Some? && Enabled(before.value, Last(run)) then Some(Apply(before.value, Last(run))) else None
  }

  // ---------------------------------------------------------------- channel safety

  ghost predicate Safe<E>(s: State<E>) {
    && !s.panicked
    && (s.writer != Nobody ==> s.readers == map[])
    && (forall ch :: ch in s.subscribers ==> Sendable(s, ch))
    && (forall ch :: ch in s.pending ==> Sendable(s, ch) && ch !in s.subscribers)
    && (s.writer.Adding? ==> Sendable(s, s.writer.ch) && s.writer.ch !in s.subscribers && s.writer.ch !in s.pending)
    && (s.writer.Closing? ==> Sendable(s, s.writer.ch) && s.writer.ch !in s.subscribers && s.writer.ch !in s.pending)
    && (forall p :: p in s.readers ==> s.readers[p].msg.from == p && s.readers[p].remaining <= s.subscribers)
    && (forall ch :: ch in s.chans ==> |s.chans[ch].buffer| <= s.bufferSize)
  }

  lemma SafeStep<E>(s: State<E>, l: Label<E>)
    requires Safe(s) && Enabled(s, l)
    ensures Safe(Apply(s, l))
  {
    if l.Send? {
      assert Sendable(s, l.ch);
    }
  }

  /** Whatever the interleaving: no send or close ever meets a closed channel, every registered channel is open, and no
      buffer exceeds its size. */
  lemma {:induction false} ChannelSafety<E>(bufferSize: int, run: seq<Label<E>>, s: State<E>)
    requires Exec(Init(bufferSize), run) == Some(s)
    ensures Safe(s) && s.bufferSize == Init<E>(bufferSize).bufferSize
  {
    if run != [] {
      var before := Exec(Init<E>(bufferSize), Front(run)).value;
      ChannelSafety(bufferSize, Front(run), before);
      SafeStep(before, Last(run));
    }
  }

  // ---------------------------------------------------------------- what a run did, read off its labels

  /** The messages a broadcast tried to put on a channel, in order. */
  function Offers<E>(run: seq<Label<E>>, ch: nat): seq<Msg<E>> {
    if run == [] then []
    else if Last(run).Send? && Last(run).ch == ch then Offers(Front(run), ch) + [Last(run).msg]
    else Offers(Front(run), ch)
  }

  function Kept<E>(run: seq<Label<E>>, ch: nat): seq<Msg<E>> {
    if run == [] then []
    else if Last(run).Send? && Last(run).ch == ch && Last(run).kept then Kept(Front(run), ch) + [Last(run).msg]
    else Kept(Front(run), ch)
  }

  function Drops<E>(run: seq<Label<E>>, ch: nat): nat {
    if run == [] then 0 else
      Drops(Front(run), ch) + if Last(run).Send? && Last(run).ch == ch && !Last(run).kept then 1 else 0
  }

  function Received<E>(run: seq<Label<E>>, ch: nat): seq<Msg<E>> {
    if run == [] then []
    else if Last(run).Receive? && Last(run).ch == ch then Received(Front(run), ch) + [Last(run).msg]
    else Received(Front(run), ch)
  }

  /** The broadcasts one goroutine has begun, in order. */
  function Published<E>(run: seq<Label<E>>, p: nat): seq<Msg<E>> {
    if run == [] then []
    else if Last(run).ReadLock? && Last(run).msg.from == p then Published(Front(run), p) + [Last(run).msg]
    else Published(Front(run), p)
  }

  function From<E>(msgs: seq<Msg<E>>, p: nat): seq<Msg<E>> {
    if msgs == [] then []
    else if Last(msgs).from == p then From(Front(msgs), p) + [Last(msgs)]
    else From(Front(msgs), p)
  }

  function Min(a: nat, b: nat): nat {
    if a < b then a else b
  }

  // ---------------------------------------------------------------- accounting

  ghost predicate Books<M>(offers: seq<M>, kept: seq<M>, drops: nat, received: seq<M>, buffer: seq<M>, size: nat) {
    && received + buffer == kept
    && |offers| == |kept| + drops
    && Subsequence(kept, offers)
    && offers[..Min(size, |offers|)] <= kept
  }

  lemma BooksOffer<M>(offers: seq<M>, kept: seq<M>, drops: nat, received: seq<M>, buffer: seq<M>, size: nat, m: M)
    requires Books(offers, kept, drops, received, buffer, size)
    ensures |buffer| < size ==> Books(offers + [m], kept + [m], drops, received, buffer + [m], size)
    ensures |buffer| >= size ==> Books(offers + [m], kept, drops + 1, received, buffer, size)
  {
    SubsequenceExtend(kept, offers, m);
    assert received + (buffer + [m]) == received + buffer + [m];
    if |offers| >= size {
      assert (offers + [m])[..size] == offers[..size];
    } else {
      assert offers[..|offers|] == offers;
      assert kept == offers;
    }
  }

  ghost predicate Accounted<E>(s: State<E>, run: seq<Label<E>>, ch: nat) {
    && Books(Offers(run, ch), Kept(run, ch), Drops(run, ch), Received(run, ch),
             if ch in s.chans then s.chans[ch].buffer else [], s.bufferSize)
    && (ch !in s.chans ==> Offers(run, ch) == [])
  }

  /** What one more label adds to a channel's books. */
  lemma BookLabels<E>(run: seq<Label<E>>, l: Label<E>, ch: nat)
    ensures Offers(run + [l], ch) == if l.Send? && l.ch == ch then Offers(run, ch) + [l.msg] else Offers(run, ch)
    ensures Kept(run + [l], ch) == if l.Send? && l.ch == ch && l.kept then Kept(run, ch) + [l.msg] else Kept(run, ch)
    ensures Drops(run + [l], ch) == Drops(run, ch) + if l.Send? && l.ch == ch && !l.kept then 1 else 0
    ensures Received(run + [l], ch) == if l.Receive? && l.ch == ch then Received(run, ch) + [l.msg]
            else Received(run, ch)
  {
    assert Front(run + [l]) == run && Last(run + [l]) == l;
  }

  lemma BooksReceive<M>(offers: seq<M>, kept: seq<M>, drops: nat, received: seq<M>, buffer: seq<M>, size: nat)
    requires Books(offers, kept, drops, received, buffer, size) && buffer != []
    ensures Books(offers, kept, drops, received + [buffer[0]], buffer[1..], size)
  {
    assert received + [buffer[0]] + buffer[1..] == received + buffer;
  }

  lemma OthersBuffer<E>(s: State<E>, l: Label<E>, ch: nat)
    requires Safe(s) && Enabled(s, l) && !((l.Send? || l.Receive?) && l.ch == ch)
    ensures var s' := Apply(s, l);
            && s'.bufferSize == s.bufferSize && (ch in s.chans ==> ch in s'.chans)
            && (if ch in s'.chans then s'.chans[ch].buffer else []) == if ch in s.chans then s.chans[ch].buffer else []
  {
  }

  /** A channel's books, after any run. */
  lemma {:induction false} AlwaysAccounted<E>(bufferSize: int, run: seq<Label<E>>, s: State<E>, ch: nat)
    requires Exec(Init(bufferSize), run) == Some(s)
    ensures Accounted(s, run, ch)
  {
    if run != [] {
      var so, l := Front(run), Last(run);
      var before := Exec(Init<E>(bufferSize), so).value;
      AlwaysAccounted(bufferSize, so, before, ch);
      ChannelSafety(bufferSize, so, before);
      FrontLast(run);
      BookLabels(so, l, ch);
      if l.Send? && l.ch == ch {
        assert Sendable(before, ch);
        BooksOffer(Offers(so, ch), Kept(so, ch), Drops(so, ch), Received(so, ch), before.chans[ch].buffer,
                   before.bufferSize, l.msg);
      } else if l.Receive? && l.ch == ch {
        BooksReceive(Offers(so, ch), Kept(so, ch), Drops(so, ch), Received(so, ch), before.chans[ch].buffer,
                     before.bufferSize);
      } else {
        OthersBuffer(before, l, ch);
      }
    }
  }

  // ---------------------------------------------------------------- order

  /** The broadcasts of a goroutine that a channel may have been offered. */
  ghost function Due<E>(s: State<E>, run: seq<Label<E>>, ch: nat, p: nat): seq<Msg<E>> {
    var all := Published(run, p);
    if all != [] && p in s.readers && ch in s.readers[p].remaining then Front(all) else all
  }

  /** What has been offered from one goroutine follows its broadcasts, the one in progress counting only for the
      channels already visited. */
  ghost predicate InOrder<E>(s: State<E>, run: seq<Label<E>>, ch: nat, p: nat) {
    && (p in s.readers ==> Published(run, p) != [] && Last(Published(run, p)) == s.readers[p].msg)
    && Subsequence(From(Offers(run, ch), p), Due(s, run, ch, p))
  }

  lemma FromAppend<E>(msgs: seq<Msg<E>>, m: Msg<E>, p: nat)
    ensures From(msgs + [m], p) == if m.from == p then From(msgs, p) + [m] else From(msgs, p)
  {
    assert Front(msgs + [m]) == msgs;
  }

  /** What one more label adds to what the run offered and published. */
  lemma RunLabels<E>(run: seq<Label<E>>, l: Label<E>, ch: nat, p: nat)
    ensures Offers(run + [l], ch) == if l.Send? && l.ch == ch then Offers(run, ch) + [l.msg] else Offers(run, ch)
    ensures Published(run + [l], p) == if l.ReadLock? && l.msg.from == p then Published(run, p) + [l.msg]
            else Published(run, p)
  {
    assert Front(run + [l]) == run && Last(run + [l]) == l;
  }

  /** What a step other than the goroutine's own sends to the channel leaves of its broadcast in progress. */
  lemma OthersProgress<E>(s: State<E>, l: Label<E>, ch: nat, p: nat)
    requires Safe(s) && Enabled(s, l) && !(l.Send? && l.ch == ch && l.msg.from == p)
             && !(l.ReadLock? && l.msg.from == p)
    ensures var s' := Apply(s, l);
            p in s'.readers ==> p in s.readers && s'.readers[p].msg == s.readers[p].msg
                                && (ch in s'.readers[p].remaining <==> ch in s.readers[p].remaining)
    ensures p in s.readers && p !in Apply(s, l).readers ==> ch !in s.readers[p].remaining
  {
  }

  lemma {:induction false} AlwaysInOrder<E>(bufferSize: int, run: seq<Label<E>>, s: State<E>, ch: nat, p: nat)
    requires Exec(Init(bufferSize), run) == Some(s)
    ensures InOrder(s, run, ch, p)
  {
    if run != [] {
      var so, l := Front(run), Last(run);
      var before := Exec(Init<E>(bufferSize), so).value;
      AlwaysInOrder(bufferSize, so, before, ch, p);
      ChannelSafety(bufferSize, so, before);
      FrontLast(run);
      RunLabels(so, l, ch, p);
      var offered := From(Offers(so, ch), p);
      if l.Send? && l.ch == ch {
        FromAppend(Offers(so, ch), l.msg, p);
      }
      if l.Send? && l.ch == ch && l.msg.from == p {
        FrontLast(Published(so, p));
        SubsequenceExtend(offered, Front(Published(so, p)), l.msg);
      } else if l.ReadLock? && l.msg.from == p {
        SubsequenceExtend(offered, Published(so, p), l.msg);
        assert Front(Published(so, p) + [l.msg]) == Published(so, p);
      } else {
        OthersProgress(before, l, ch, p);
      }
    }
  }

  // ---------------------------------------------------------------- nobody is skipped

  ghost predicate NoRemoval<E>(run: seq<Label<E>>, ch: nat) {
    forall i :: 0 <= i < |run| ==> run[i] != LockToRemove(ch)
  }

  /** A registered channel that nobody is removing. */
  ghost predicate Registered<E>(s: State<E>, ch: nat) {
    Safe(s) && ch in s.subscribers && s.writer != Removing(ch) && s.writer != Closing(ch)
  }

  lemma RegisteredStep<E>(s: State<E>, l: Label<E>, ch: nat)
    requires Registered(s, ch) && Enabled(s, l) && l != LockToRemove(ch)
    ensures Registered(Apply(s, l), ch)
  {
    SafeStep(s, l);
  }

  /** While it stays registered, a channel has been offered exactly the broadcasts each goroutine has begun, in order,
      but for one in progress that has yet to visit it. */
  lemma {:induction false} OfferedDue<E>(s0: State<E>, run: seq<Label<E>>, s: State<E>, ch: nat, p: nat)
    requires Registered(s0, ch) && p !in s0.readers && Exec(s0, run) == Some(s) && NoRemoval(run, ch)
    ensures Registered(s, ch)
    ensures p in s.readers ==> Published(run, p) != [] && Last(Published(run, p)) == s.readers[p].msg
    ensures From(Offers(run, ch), p) == Due(s, run, ch, p)
  {
    if run != [] {
      var so, l := Front(run), Last(run);
      var before := Exec(s0, so).value;
      OfferedDue(s0, so, before, ch, p);
      RegisteredStep(before, l, ch);
      FrontLast(run);
      RunLabels(so, l, ch, p);
      if l.Send? && l.ch == ch {
        FromAppend(Offers(so, ch), l.msg, p);
      }
      if l.Send? && l.ch == ch && l.msg.from == p {
        FrontLast(Published(so, p));
      } else if l.ReadLock? && l.msg.from == p {
        assert Front(Published(so, p) + [l.msg]) == Published(so, p);
      } else {
        OthersProgress(before, l, ch, p);
      }
    }
  }

  /** No subscriber is skipped: over any stretch of any run in which a channel is registered and not removed, what it is
      offered from a goroutine between two of its broadcasts is all that goroutine broadcast, in order. */
  lemma OfferedExactly<E>(bufferSize: int, run: seq<Label<E>>, s: State<E>, more: seq<Label<E>>, s': State<E>, ch: nat,
                          p: nat)
    requires Exec(Init(bufferSize), run) == Some(s) && Exec(s, more) == Some(s')
    requires ch in s.subscribers && s.writer != Removing(ch) && NoRemoval(more, ch)
    requires p !in s.readers && p !in s'.readers
    ensures From(Offers(more, ch), p) == Published(more, p) && ch in s'.subscribers
  {
    ChannelSafety(bufferSize, run, s);
    OfferedDue(s, more, s', ch, p);
  }

  // ---------------------------------------------------------------- nobody waits for a subscriber

  /** The next send of a broadcast is possible, whatever the buffer holds. */
  lemma NextSend<E>(s: State<E>, p: nat, ch: nat) returns (l: Label<E>, s': State<E>)
    requires Safe(s) && p in s.readers && ch in s.readers[p].remaining
    ensures Enabled(s, l) && s' == Apply(s, l) && l.Send? && l.msg == s.readers[p].msg && Safe(s')
    ensures s'.readers == s.readers[p := Reader(l.msg, s.readers[p].remaining - {ch})]
    ensures s'.subscribers == s.subscribers
  {
    assert Sendable(s, ch);
    l := Send(ch, s.readers[p].msg, |s.chans[ch].buffer| < s.bufferSize);
    s' := Apply(s, l);
    SafeStep(s, l);
  }

  /** The rest of a broadcast: a send for each channel, and the unlock. */
  ghost predicate Finishing<E>(own: seq<Label<E>>, p: nat, r: Reader<E>) {
    && |own| == |r.remaining| + 1 && Last(own) == ReadUnlock(p)
    && forall i :: 0 <= i < |own| - 1 ==> own[i].Send? && own[i].msg == r.msg
  }

  lemma OneMoreFinishing<E>(own: seq<Label<E>>, p: nat, r: Reader<E>, ch: nat, l: Label<E>)
    requires ch in r.remaining && l.Send? && l.msg == r.msg && Finishing(own, p, Reader(r.msg, r.remaining - {ch}))
    ensures Finishing([l] + own, p, r)
  {
  }

  /** Whatever the buffers hold and whoever has stopped reading, a broadcast that has begun can be finished by its own
      steps alone. */
  lemma {:induction false} BroadcastFinishes<E>(s0: State<E>, run: seq<Label<E>>, s: State<E>, p: nat)
    returns (own: seq<Label<E>>, s': State<E>)
    requires Exec(s0, run) == Some(s) && Safe(s) && p in s.readers
    ensures Exec(s0, run + own) == Some(s') && p !in s'.readers && s'.subscribers == s.subscribers
    ensures Finishing(own, p, s.readers[p])
    decreases |s.readers[p].remaining|
  {
    var r := s.readers[p];
    if r.remaining == {} {
      Extend(s0, run, s, ReadUnlock(p));
      return [ReadUnlock(p)], Apply(s, ReadUnlock(p));
    }
    var ch :| ch in r.remaining;
    var l, next := NextSend(s, p, ch);
    Extend(s0, run, s, l);
    var rest;
    rest, s' := BroadcastFinishes(s0, run + [l], next, p);
    own := [l] + rest;
    Associative(run, [l], rest);
    OneMoreFinishing(rest, p, r, ch, l);
  }

  function Receives<E>(ch: nat, buffer: seq<Msg<E>>): seq<Label<E>> {
    seq(|buffer|, i requires 0 <= i < |buffer| => Receive(ch, buffer[i]))
  }

  function Buffering<E>(s: State<E>, ch: nat, buffer: seq<Msg<E>>): State<E>
    requires ch in s.chans
  {
    s.(chans := s.chans[ch := s.chans[ch].(buffer := buffer)])
  }

  /** What is buffered can be received, to the last message and in order, even from a channel that is closed. */
  lemma {:induction false} BufferDrains<E>(s: State<E>, ch: nat, n: nat)
    requires ch in s.chans && n <= |s.chans[ch].buffer|
    ensures Exec(s, Receives(ch, s.chans[ch].buffer[..n]))
         == Some(Buffering(s, ch, s.chans[ch].buffer[n..]))
  {
    var buffer := s.chans[ch].buffer;
    if n == 0 {
      assert buffer[0..] == buffer && s.chans[ch := s.chans[ch]] == s.chans;
    } else {
      BufferDrains(s, ch, n - 1);
      assert Last(Receives(ch, buffer[..n])) == Receive(ch, buffer[n - 1..][0]);
      var before := Buffering(s, ch, buffer[n - 1..]);
      assert before.chans[ch := before.chans[ch].(buffer := buffer[n..])] == Buffering(s, ch, buffer[n..]).chans;
      assert Front(Receives(ch, buffer[..n])) == Receives(ch, buffer[..n - 1]);
      assert buffer[n - 1..][1..] == buffer[n..];
    }
  }

  // ---------------------------------------------------------------- open channels

  /** On its way in, registered, or taken out but not yet closed. */
  ghost predicate InUse<E>(s: State<E>, ch: nat) {
    ch in s.pending || s.writer == Adding(ch) || ch in s.subscribers || s.writer == Closing(ch)
  }

  lemma OpenStep<E>(s: State<E>, l: Label<E>, ch: nat)
    requires Safe(s) && Enabled(s, l) && (InUse(s, ch) <==> Sendable(s, ch))
    ensures InUse(Apply(s, l), ch) <==> Sendable(Apply(s, l), ch)
  {
    if l.Write? {
      WriteOpen(s, ch);
    }
  }

  lemma WriteOpen<E>(s: State<E>, ch: nat)
    requires Safe(s) && Enabled(s, Write) && (InUse(s, ch) <==> Sendable(s, ch))
    ensures InUse(WriteStep(s), ch) <==> Sendable(WriteStep(s), ch)
  {
  }

  /** In every run, a channel that was made is open if and only if it is in use: it is closed in the very call that
      takes it out, and by nothing else. */
  lemma {:induction false} OpenExactly<E>(bufferSize: int, run: seq<Label<E>>, s: State<E>, ch: nat)
    requires Exec(Init(bufferSize), run) == Some(s)
    ensures InUse(s, ch) <==> ch in s.chans && s.chans[ch].open
  {
    if run != [] {
      var before := Exec(Init<E>(bufferSize), Front(run)).value;
      OpenExactly(bufferSize, Front(run), before, ch);
      ChannelSafety(bufferSize, Front(run), before);
      OpenStep(before, Last(run), ch);
    }
  }

  lemma {:induction false} FromSubsequence<E>(a: seq<Msg<E>>, b: seq<Msg<E>>, p: nat)
    requires Subsequence(a, b)
    ensures Subsequence(From(a, p), From(b, p))
    decreases |b|
  {
    if a != [] {
      if Subsequence(a, Front(b)) {
        FromSubsequence(a, Front(b), p);
        SubsequenceExtend(From(a, p), From(Front(b), p), Last(b));
      } else {
        FromSubsequence(Front(a), Front(b), p);
        SubsequenceExtend(From(Front(a), p), From(Front(b), p), Last(b));
      }
    }
  }

  lemma OfferedInOrder<E>(s: State<E>, run: seq<Label<E>>, ch: nat, p: nat)
    requires InOrder(s, run, ch, p)
    ensures Subsequence(From(Offers(run, ch), p), Published(run, p))
  {
    var all := Published(run, p);
    if all != [] {
      FrontLast(all);
      SubsequenceExtend(From(Offers(run, ch), p), Due(s, run, ch, p), Last(all));
    }
  }

  /** For every subscriber in every run: offers are received, buffered or dropped; nothing is reordered, neither against
      the offers nor against any one publisher's broadcasts; no buffer exceeds the size the hub was given, 16 unless
      positive; and the first that many offers are never lost. */
  lemma Delivery<E>(bufferSize: int, run: seq<Label<E>>, s: State<E>, ch: nat, p: nat)
    requires Exec(Init(bufferSize), run) == Some(s) && ch in s.chans
    ensures |Offers(run, ch)| == |Received(run, ch)| + |s.chans[ch].buffer| + Drops(run, ch)
    ensures Subsequence(Received(run, ch) + s.chans[ch].buffer, Offers(run, ch))
    ensures Subsequence(From(Received(run, ch) + s.chans[ch].buffer, p), Published(run, p))
    ensures var size := if bufferSize > 0 then bufferSize else 16;
            && |s.chans[ch].buffer| <= size
            && Offers(run, ch)[..Min(size, |Offers(run, ch)|)] <= Received(run, ch) + s.chans[ch].buffer
  {
    ChannelSafety(bufferSize, run, s);
    AlwaysAccounted(bufferSize, run, s, ch);
    AlwaysInOrder(bufferSize, run, s, ch, p);
    FromSubsequence(Kept(run, ch), Offers(run, ch), p);
    OfferedInOrder(s, run, ch, p);
    SubsequenceTransitive(From(Kept(run, ch), p), From(Offers(run, ch), p), Published(run, p));
  }

  // ---------------------------------------------------------------- the hub as an object

  lemma Extend<E>(s0: State<E>, run: seq<Label<E>>, s: State<E>, l: Label<E>)
    requires Exec(s0, run) == Some(s) && Enabled(s, l)
    ensures Exec(s0, run + [l]) == Some(Apply(s, l))
  {
    assert Front(run + [l]) == run && Last(run + [l]) == l;
  }

  function WithReader<E>(s: State<E>, m: Msg<E>, remaining: set<nat>): State<E> {
    s.(readers := map[m.from := Reader(m, remaining)])
  }

  function Offered<E>(s: State<E>, ch: nat, m: Msg<E>): State<E>
    requires ch in s.chans
  {
    s.(chans := s.chans[ch := Chan(true, Offer(s.chans[ch].buffer, m, s.bufferSize))])
  }

  /** One turn of a broadcast's loop, in a hub nobody else is using. */
  lemma SendAlone<E>(s: State<E>, m: Msg<E>, remaining: set<nat>, ch: nat, l: Label<E>)
    requires ch in remaining && Sendable(s, ch) && l == Send(ch, m, |s.chans[ch].buffer| < s.bufferSize)
    ensures Enabled(WithReader(s, m, remaining), l)
    ensures Apply(WithReader(s, m, remaining), l) == WithReader(Offered(s, ch, m), m, remaining - {ch})
  {
    var r := WithReader(s, m, remaining);
    assert r.readers[m.from := Reader(m, remaining - {ch})] == map[m.from := Reader(m, remaining - {ch})];
  }

  /** The loop of a broadcast: sends of the message to distinct channels, all of them. */
  ghost predicate SendsToAll<E>(sends: seq<Label<E>>, m: Msg<E>, chans: set<nat>) {
    && (forall i :: 0 <= i < |sends| ==> sends[i].Send? && sends[i].msg == m && sends[i].ch in chans)
    && (forall i, j :: 0 <= i < j < |sends| ==> sends[i].ch != sends[j].ch)
    && (forall ch :: ch in chans ==> exists i :: 0 <= i < |sends| && sends[i].ch == ch)
  }

  lemma OneMoreSend<E>(sends: seq<Label<E>>, m: Msg<E>, chans: set<nat>, l: Label<E>)
    requires SendsToAll(sends, m, chans) && l.Send? && l.msg == m && l.ch !in chans
    ensures SendsToAll(sends + [l], m, chans + {l.ch})
  {
    var all := sends + [l];
    forall ch | ch in chans + {l.ch} ensures exists i :: 0 <= i < |all| && all[i].ch == ch {
      if ch == l.ch {
        assert all[|sends|].ch == ch;
      } else {
        var i :| 0 <= i < |sends| && sends[i].ch == ch;
        assert all[i].ch == ch;
      }
    }
  }

  lemma OfferKeepsSafe<E>(s: State<E>, ch: nat, m: Msg<E>)
    requires Safe(s) && ch in s.subscribers && ch in s.chans
    ensures Safe(Offered(s, ch, m))
  {
    var s' := Offered(s, ch, m);
    assert Sendable(s, ch);
    assert forall x :: Sendable(s, x) ==> Sendable(s', x);
  }

  /** A broadcast that has come as far as `now`, having made `sends` and with the channels of `remaining` still to
      come. */
  ghost predicate Midway<E>(before: State<E>, now: State<E>, m: Msg<E>, remaining: set<nat>, sends: seq<Label<E>>) {
    && now == before.(chans := now.chans) && now.chans.Keys == before.chans.Keys
    && Safe(now) && now.readers == map[] && remaining <= now.subscribers
    && Exec(before, [ReadLock(m)] + sends) == Some(WithReader(now, m, remaining))
    && SendsToAll(sends, m, now.subscribers - remaining)
    && OfferedTo(before, now, m, now.subscribers - remaining)
  }

  /** These channels have been offered the message, and the others nothing. */
  ghost predicate OfferedTo<E>(before: State<E>, now: State<E>, m: Msg<E>, some: set<nat>) {
    forall ch :: ch in now.chans ==>
      ch in before.chans && now.chans[ch] == if ch in some
        then Chan(true, Offer(before.chans[ch].buffer, m, before.bufferSize)) else before.chans[ch]
  }

  lemma OfferedToOneMore<E>(before: State<E>, now: State<E>, m: Msg<E>, some: set<nat>, ch: nat)
    requires OfferedTo(before, now, m, some) && ch in now.chans && ch !in some && now.bufferSize == before.bufferSize
    ensures OfferedTo(before, Offered(now, ch, m), m, some + {ch})
  {
  }

  lemma BroadcastBegins<E(!new)>(s: State<E>, m: Msg<E>)
    requires Safe(s) && s.writer == Nobody && s.readers == map[]
    ensures Midway(s, s, m, s.subscribers, [])
  {
    Extend(s, [], s, ReadLock(m));
    assert [] + [Label<E>.ReadLock(m)] == [ReadLock(m)] + [];
    assert s.readers[m.from := Reader(m, s.subscribers)] == map[m.from := Reader(m, s.subscribers)];
  }

  lemma SendRun<E>(before: State<E>, now: State<E>, m: Msg<E>, remaining: set<nat>, sends: seq<Label<E>>, l: Label<E>)
    requires Exec(before, [ReadLock(m)] + sends) == Some(WithReader(now, m, remaining))
    requires l.Send? && l.ch in remaining && Sendable(now, l.ch) && l.msg == m
    requires l.kept == (|now.chans[l.ch].buffer| < now.bufferSize)
    ensures Exec(before, [ReadLock(m)] + (sends + [l]))
            == Some(WithReader(Offered(now, l.ch, m), m, remaining - {l.ch}))
  {
    SendAlone(now, m, remaining, l.ch, l);
    Extend(before, [ReadLock(m)] + sends, WithReader(now, m, remaining), l);
    assert [ReadLock(m)] + sends + [l] == [ReadLock(m)] + (sends + [l]);
  }

  lemma BroadcastSends<E(!new)>(before: State<E>, now: State<E>, m: Msg<E>, remaining: set<nat>, sends: seq<Label<E>>,
                                ch: nat)
    requires Midway(before, now, m, remaining, sends) && ch in remaining
    ensures ch in now.chans
    ensures Midway(before, Offered(now, ch, m), m, remaining - {ch},
                   sends + [Send(ch, m, |now.chans[ch].buffer| < now.bufferSize)])
  {
    assert Sendable(now, ch);
    var l := Send(ch, m, |now.chans[ch].buffer| < now.bufferSize);
    SendRun(before, now, m, remaining, sends, l);
    OneMoreSend(sends, m, now.subscribers - remaining, l);
    OfferedToOneMore(before, now, m, now.subscribers - remaining, ch);
    assert now.subscribers - remaining + {ch} == now.subscribers - (remaining - {ch});
    OfferKeepsSafe(now, ch, m);
  }

  lemma BroadcastEnds<E(!new)>(before: State<E>, now: State<E>, m: Msg<E>, sends: seq<Label<E>>)
    requires Midway(before, now, m, {}, sends)
    ensures Exec(before, [ReadLock(m)] + sends + [ReadUnlock(m.from)]) == Some(now)
    ensures SendsToAll(sends, m, now.subscribers)
  {
    Extend(before, [ReadLock(m)] + sends, WithReader(now, m, {}), ReadUnlock(m.from));
    assert map[m.from := Reader(m, {})] - {m.from} == map[];
    assert now.subscribers - {} == now.subscribers;
  }

  lemma SubscribeRun<E>(s: State<E>, ch: nat)
    requires s.writer == Nobody && s.readers == map[] && s.pending == {} && ch !in s.chans
    ensures Exec(s, [Make(ch), LockToAdd(ch), Write, Unlock])
         == Some(s.(chans := s.chans[ch := Chan(true, [])], subscribers := s.subscribers + {ch}))
  {
    var s1 := Apply(s, Make(ch));
    Extend(s, [], s, Make(ch));
    var s2 := Apply(s1, LockToAdd(ch));
    Extend(s, [Make(ch)], s1, LockToAdd(ch));
    var s3 := Apply(s2, Write);
    Extend(s, [Make(ch)] + [LockToAdd(ch)], s2, Write);
    Extend(s, [Make(ch)] + [LockToAdd(ch)] + [Write], s3, Unlock);
    assert [Make(ch)] + [LockToAdd(ch)] + [Write] + [Unlock] == [Make(ch), LockToAdd(ch), Write, Label<E>.Unlock];
    assert [] + [Make(ch)] == [Label<E>.Make(ch)] && {} + {ch} - {ch} == {};
  }

  /** The labels of one Unsubscribe: it closes only what it finds registered. */
  function UnsubscribeLabels<E>(ch: nat, registered: bool): seq<Label<E>> {
    if registered then [LockToRemove(ch), Write, Write, Unlock] else [LockToRemove(ch), Write, Unlock]
  }

  lemma UnsubscribeRun<E>(s: State<E>, ch: nat)
    requires s.writer == Nobody && s.readers == map[] && (ch in s.subscribers ==> Sendable(s, ch))
    ensures Exec(s, UnsubscribeLabels(ch, ch in s.subscribers))
         == Some(if ch in s.subscribers
                 then s.(chans := s.chans[ch := s.chans[ch].(open := false)], subscribers := s.subscribers - {ch})
                 else s)
  {
    var s1 := Apply(s, LockToRemove(ch));
    Extend(s, [], s, LockToRemove(ch));
    assert [] + [LockToRemove(ch)] == [Label<E>.LockToRemove(ch)];
    var s2 := Apply(s1, Write);
    Extend(s, [LockToRemove(ch)], s1, Write);
    if ch in s.subscribers {
      var s3 := Apply(s2, Write);
      Extend(s, [LockToRemove(ch)] + [Write], s2, Write);
      Extend(s, [LockToRemove(ch)] + [Write] + [Write], s3, Unlock);
      assert [LockToRemove(ch)] + [Write] + [Write] + [Unlock] == UnsubscribeLabels<E>(ch, true);
    } else {
      Extend(s, [LockToRemove(ch)] + [Write], s2, Unlock);
      assert [LockToRemove(ch)] + [Write] + [Unlock] == UnsubscribeLabels<E>(ch, false);
    }
  }

  /** The hub between two lock acquisitions. A channel is its id; each method is the run of its own actions, alone. */
  class EventHub<E(==,!new)> {
    var chans: map<nat, Chan<E>>      // every channel ever made
    var subscribers: set<nat>
    var made: nat
    const bufferSize: nat

    function View(): State<E>
      reads this
    {
      State(bufferSize, chans, {}, subscribers, Nobody, map[], false)
    }

    ghost predicate Valid()
      reads this
    {
      Safe(View()) && forall ch :: ch in chans ==> ch < made
    }

    constructor (bufferSize: int)
      ensures Valid() && View() == Init(bufferSize)
    {
      this.bufferSize := if bufferSize <= 0 then 16 else bufferSize;
      chans, subscribers, made := map[], {}, 0;
    }

    method Subscribe() returns (ch: nat)
      requires Valid()
      modifies this
      ensures Valid() && ch !in old(chans) && ch in subscribers && chans[ch] == Chan(true, [])
      ensures Exec(old(View()), [Make(ch), LockToAdd(ch), Write, Unlock]) == Some(View())
    {
      ch := made;
      SubscribeRun(View(), ch);
      chans := chans[ch := Chan(true, [])];
      made := made + 1;
      subscribers := subscribers + {ch};
    }

    /** A repeated call finds nothing registered and closes nothing. */
    method Unsubscribe(ch: nat)
      requires Valid()
      modifies this
      ensures Valid() && ch !in subscribers
      ensures Exec(old(View()), UnsubscribeLabels(ch, ch in old(subscribers))) == Some(View())
    {
      UnsubscribeRun(View(), ch);
      if ch in subscribers {
        assert Sendable(View(), ch);
        subscribers := subscribers - {ch};
        chans := chans[ch := chans[ch].(open := false)];
      }
    }

    /** Reaches every subscriber exactly once, in whatever order the map yields them; `sends` is that order. */
    method Broadcast(m: Msg<E>) returns (ghost sends: seq<Label<E>>)
      requires Valid()
      modifies this
      ensures Valid() && SendsToAll(sends, m, subscribers)
      ensures Exec(old(View()), [ReadLock(m)] + sends + [ReadUnlock(m.from)]) == Some(View())
      ensures chans.Keys == old(chans.Keys) && subscribers == old(subscribers)
      ensures forall ch :: ch in chans ==> chans[ch] == if ch in subscribers
                then Chan(true, Offer(old(chans)[ch].buffer, m, bufferSize)) else old(chans)[ch]
    {
      var remaining := subscribers;
      sends := [];
      ghost var before := View();
      BroadcastBegins(before, m);
      while remaining != {}
        invariant Midway(before, View(), m, remaining, sends) && forall ch :: ch in chans ==> ch < made
      {
        var ch :| ch in remaining;
        BroadcastSends(before, View(), m, remaining, sends, ch);
        sends := sends + [Send(ch, m, |chans[ch].buffer| < bufferSize)];
        chans := chans[ch := Chan(true, if |chans[ch].buffer| < bufferSize then chans[ch].buffer + [m]
            else chans[ch].buffer)];
        remaining := remaining - {ch};
      }
      BroadcastEnds(before, View(), m, sends);
    }
  }
}
