/** The service run one call at a time: device lifecycle, the processing of one sample, a reconciliation pass, and the
    status cache laid over the store. */
module Service {
  import opened Models
  import opened Sequences
  import opened Pipeline
  import Store
  import Alerts
  import Pool
  import Sorting

  datatype CacheEntry = CacheEntry(status: Status, lastSeen: Time)

  type Cache = map<string, CacheEntry>

  datatype View = View(store: Store.State, cache: Cache)

  const NEW: View := View(Store.EMPTY, map[])

  /** A service call, or an expiry in the cache. */
  datatype Call =
    | Register(device: Device)
    | Update(id: string, name: string, kind: string, location: string, metadata: map<string, string>)
    | Process(sample: Telemetry)
    | Reconcile(now: Time)
    | Delete(id: string)
    | Expire(ids: set<string>)

  function Perform(c: Config, v: View, call: Call): View {
    match call
    case Register(d) =>
      if d.id in v.store.devices then v
      else View(Store.Exec(v.store, c.maxHistory, Store.CreateDevice(d)),
                v.cache[d.id := CacheEntry(d.status, ZERO_TIME)])
    case Update(id, name, kind, location, metadata) =>
      v.(store := Store.Exec(v.store, c.maxHistory, Store.UpdateDevice(id, name, kind, location, metadata)))
    case Process(t) => if t.deviceId in v.store.devices then Processed(c, v, t) else v
    case Reconcile(now) => Reconciled(c.offlineAfter, v, now, v.store.devices.Keys)
    case Delete(id) => v.(store := Store.Exec(v.store, c.maxHistory, Store.DeleteDevice(id)))
    case Expire(ids) => v.(cache := v.cache - ids)
  }

  /** The sample stored and the device online, there and in the cache. */
  function Arrived(maxHistory: int, v: View, t: Telemetry): View
    requires t.deviceId in v.store.devices
  {
    View(Store.Exec(v.store, maxHistory, Store.AddTelemetry(t)).(
           devices := v.store.devices[t.deviceId := Store.Mark(v.store.devices[t.deviceId], Online, t.timestamp)]),
         v.cache[t.deviceId := CacheEntry(Online, t.timestamp)])
  }

  /** And then the alerts raised. */
  function Processed(c: Config, v: View, t: Telemetry): View
    requires t.deviceId in v.store.devices
  {
    var arrived := Arrived(c.maxHistory, v, t);
    arrived.(store := arrived.store.(alerts := WithAlerts(arrived.store, t.deviceId, Alerts.Breaches(c.rules, t))))
  }

  /** The two parts of a job, one after the other. */
  lemma ProcessedInTurn(c: Config, v: View, t: Telemetry, after: View)
    requires Coherent(v)
    requires after == if t.deviceId !in v.store.devices then v else
               var mid := Arrived(c.maxHistory, v, t);
               View(mid.store.(alerts := WithAlerts(mid.store, t.deviceId, Alerts.Breaches(c.rules, t))), mid.cache)
    ensures after == Perform(c, v, Process(t)) && Coherent(after)
  {
    CoherentStep(c, v, Process(t));
  }

  function WithAlerts(s: Store.State, id: string, alerts: seq<Alert>): map<string, seq<Alert>> {
    if alerts == [] then s.alerts else s.alerts[id := s.Raised(id) + alerts]
  }

  /** The devices of `ids` that look silent marked offline, in the store and in the cache. */
  function Reconciled(offlineAfter: int, v: View, now: Time, ids: set<string>): View {
    View(v.store.(devices := Quieted(offlineAfter, v.store.devices, now, ids)),
         v.cache + Quiet(offlineAfter, v.store.devices, now, ids))
  }

  function Quieted(offlineAfter: int, devices: map<string, Device>, now: Time, ids: set<string>): map<string, Device> {
    map id | id in devices ::
      if id in ids && LooksSilent(offlineAfter, now, devices[id]) then devices[id].(status := Offline) else devices[id]
  }

  function Quiet(offlineAfter: int, devices: map<string, Device>, now: Time, ids: set<string>): Cache {
    map id | id in devices && id in ids && LooksSilent(offlineAfter, now, devices[id]) :: CacheEntry(Offline, ZERO_TIME)
  }

  /** What GetDevice lays over the stored device. */
  function Overlay(d: Device, cache: Cache): Device {
    if d.id !in cache then d
    else d.(status := cache[d.id].status,
            lastSeenAt := if cache[d.id].lastSeen == ZERO_TIME then d.lastSeenAt else cache[d.id].lastSeen)
  }

  // ---------------------------------------------------------------- the cache tells nothing the store would not

  ghost predicate Tells(e: CacheEntry, d: Device) {
    e.status == d.status && (e.lastSeen == ZERO_TIME || e.lastSeen == d.lastSeenAt)
  }

  ghost predicate Coherent(v: View) {
    && Store.Keyed(v.store)
    && forall id :: id in v.cache && id in v.store.devices ==> Tells(v.cache[id], v.store.devices[id])
  }

  lemma OverlayExact(d: Device, cache: Cache)
    ensures Overlay(d, cache) == d <==> (d.id in cache ==> Tells(cache[d.id], d))
  {
  }

  lemma CoherentStep(c: Config, v: View, call: Call)
    requires Coherent(v)
    ensures Coherent(Perform(c, v, call))
  {
  }

  function Run(c: Config, calls: seq<Call>): View {
    if calls == [] then NEW else Perform(c, Run(c, Front(calls)), Last(calls))
  }

  /** After any calls, with entries expiring at any moment, reading through the cache gives what the store holds. */
  lemma {:induction false} CacheTransparent(c: Config, calls: seq<Call>)
    ensures Coherent(Run(c, calls))
    ensures forall id :: id in Run(c, calls).store.devices ==>
              Overlay(Run(c, calls).store.devices[id], Run(c, calls).cache) == Run(c, calls).store.devices[id]
  {
    if calls != [] {
      CacheTransparent(c, Front(calls));
      CoherentStep(c, Run(c, Front(calls)), Last(calls));
    }
  }

  /** The call, but with its cache writes for the devices of `lost` failing. */
  function PerformLosing(c: Config, v: View, call: Call, lost: set<string>): View {
    var after := Perform(c, v, call);
    if call.Expire? then after else
      after.(cache := map id | id in after.cache.Keys + v.cache.Keys
                               && (if id in lost then id in v.cache else id in after.cache)
                      :: if id in lost then v.cache[id] else after.cache[id])
  }

  /** Whether the call writes the device's status, to the store and then to the cache. */
  predicate Marks(c: Config, v: View, call: Call, id: string) {
    match call
    case Register(d) => d.id == id && id !in v.store.devices
    case Process(t) => t.deviceId == id && id in v.store.devices
    case Reconcile(now) => id in v.store.devices && LooksSilent(c.offlineAfter, now, v.store.devices[id])
    case _ => false
  }

  predicate Differs(e: CacheEntry, status: Status, lastSeen: Time) {
    e.status != status || (e.lastSeen != ZERO_TIME && e.lastSeen != lastSeen)
  }

  /** The status and the last-seen time it writes. */
  function MarkOf(c: Config, v: View, call: Call, id: string): (Status, Time)
    requires Marks(c, v, call, id)
  {
    match call
    case Register(d) => (d.status, d.lastSeenAt)
    case Process(t) => (Online, if t.timestamp == ZERO_TIME then v.store.devices[id].lastSeenAt else t.timestamp)
    case Reconcile(_) => (Offline, v.store.devices[id].lastSeenAt)
  }

  /** Whether the cache entry it finds says something else than what it writes. */
  predicate Outdates(c: Config, v: View, call: Call, id: string) {
    Marks(c, v, call, id) && id in v.cache && Differs(v.cache[id], MarkOf(c, v, call, id).0, MarkOf(c, v, call, id).1)
  }

  /** GetDevice says something else than the store. */
  ghost predicate Shows(v: View, id: string) {
    id in v.store.devices && Overlay(v.store.devices[id], v.cache) != v.store.devices[id]
  }

  predicate Expires(call: Call, id: string) {
    call.Expire? && id in call.ids
  }

  /** What a call leaves of a device's record: marked, or given a new description, or as it was. */
  lemma RecordAfter(c: Config, v: View, call: Call, id: string)
    requires Store.Keyed(v.store) && id in Perform(c, v, call).store.devices
    ensures var d := Perform(c, v, call).store.devices[id];
            && d.id == id
            && (if Marks(c, v, call, id) then (d.status, d.lastSeenAt) == MarkOf(c, v, call, id)
                else id in v.store.devices && d.status == v.store.devices[id].status
                     && d.lastSeenAt == v.store.devices[id].lastSeenAt)
            && if call.Register? && id !in v.store.devices then d == call.device
               else id in v.store.devices
                    && var was := v.store.devices[id].(status := d.status, lastSeenAt := d.lastSeenAt);
                       d == if call.Update? && call.id == id
                            then was.(name := call.name, kind := call.kind, location := call.location,
                                      metadata := call.metadata)
                            else was
  {
  }

  /** Which devices there are after a call. */
  lemma DevicesAfter(c: Config, v: View, call: Call, id: string)
    requires Store.Keyed(v.store)
    ensures id in Perform(c, v, call).store.devices
       <==> (id in v.store.devices && call != Delete(id)) || (call.Register? && call.device.id == id)
  {
  }

  /** What it leaves of a device's samples and alerts: one sample and its alerts more, or nothing, or what there was. */
  lemma HistoryAfter(c: Config, v: View, call: Call, id: string)
    ensures var s, s' := v.store, Perform(c, v, call).store;
            if id in s.devices && call.Process? && call.sample.deviceId == id
            then s'.Series(id) == Keep(s.Series(id) + [call.sample], c.maxHistory)
                 && s'.Raised(id) == s.Raised(id) + Alerts.Breaches(c.rules, call.sample)
            else if id in s.devices && call == Delete(id) then s'.Series(id) == [] && s'.Raised(id) == []
            else s'.Series(id) == s.Series(id) && s'.Raised(id) == s.Raised(id)
  {
    assert v.store.Raised(id) + [] == v.store.Raised(id);
  }

  /** The cache entry that a call which marks a device writes for it. */
  function EntryOf(call: Call): CacheEntry {
    match call
    case Process(t) => CacheEntry(Online, t.timestamp)
    case Reconcile(_) => CacheEntry(Offline, ZERO_TIME)
    case Register(d) => CacheEntry(d.status, ZERO_TIME)
    case _ => CacheEntry(Unknown, ZERO_TIME)
  }

  lemma EntryAfter(c: Config, v: View, call: Call, id: string)
    requires Store.Keyed(v.store) && !call.Expire?
    ensures var cache := Perform(c, v, call).cache;
            if Marks(c, v, call, id)
            then id in cache && cache[id] == EntryOf(call)
                 && !Differs(cache[id], MarkOf(c, v, call, id).0, MarkOf(c, v, call, id).1)
            else (id in cache <==> id in v.cache) && (id in cache ==> cache[id] == v.cache[id])
  {
  }

  /** One call, whatever was lost before it: a call that marks the device shows if its write is lost over an entry it
      outdates, and heals if it is not lost; any other leaves it as it was, unless the entry expires. */
  lemma LostWriteShows(c: Config, v: View, call: Call, lost: set<string>, id: string)
    requires Store.Keyed(v.store) && id in PerformLosing(c, v, call, lost).store.devices
    ensures Shows(PerformLosing(c, v, call, lost), id)
       <==> if Marks(c, v, call, id) then id in lost && Outdates(c, v, call, id) else Shows(v, id) && !Expires(call, id)
  {
    var after := PerformLosing(c, v, call, lost);
    RecordAfter(c, v, call, id);
    if !call.Expire? {
      EntryAfter(c, v, call, id);
      assert id in after.cache <==> if id in lost then id in v.cache else id in Perform(c, v, call).cache;
    }
  }

  datatype Step = Step(call: Call, lost: set<string>)

  function RunLosing(c: Config, steps: seq<Step>): View {
    if steps == [] then NEW else PerformLosing(c, RunLosing(c, Front(steps)), Last(steps).call, Last(steps).lost)
  }

  lemma {:induction false} RunKeyed(c: Config, steps: seq<Step>)
    ensures Store.Keyed(RunLosing(c, steps).store)
  {
    if steps != [] {
      RunKeyed(c, Front(steps));
    }
  }

  /** What the last call to mark the device whose write was not lost wrote, None once the entry has expired. */
  function LastWritten(c: Config, steps: seq<Step>, id: string): Option<CacheEntry> {
    if steps == [] then None else
      var before, step := LastWritten(c, Front(steps), id), Last(steps);
      if Expires(step.call, id) then None
      else if Marks(c, RunLosing(c, Front(steps)), step.call, id) && id !in step.lost then Some(EntryOf(step.call))
      else before
  }

  /** After any calls with any writes lost and any entries expired, GetDevice answers with the status and the last-seen
      time of the last write that succeeded, and with the stored ones where that says nothing. */
  lemma {:induction false} ShowsLastWritten(c: Config, steps: seq<Step>, id: string)
    ensures var cache, last := RunLosing(c, steps).cache, LastWritten(c, steps, id);
            if last.None? then id !in cache else id in cache && cache[id] == last.value
    ensures id in RunLosing(c, steps).store.devices ==>
              var d, last := RunLosing(c, steps).store.devices[id], LastWritten(c, steps, id);
              Overlay(d, RunLosing(c, steps).cache)
              == if last.None? then d
                 else if last.value.lastSeen == ZERO_TIME then d.(status := last.value.status)
                 else d.(status := last.value.status, lastSeenAt := last.value.lastSeen)
  {
    RunKeyed(c, steps);
    if steps != [] {
      var before, step := RunLosing(c, Front(steps)), Last(steps);
      ShowsLastWritten(c, Front(steps), id);
      RunKeyed(c, Front(steps));
      if !step.call.Expire? {
        EntryAfter(c, before, step.call, id);
        assert id in RunLosing(c, steps).cache
          <==> if id in step.lost then id in before.cache else id in Perform(c, before, step.call).cache;
      }
    }
  }

  /** What call `j` of a run does to a device's status. */
  predicate MarksAt(c: Config, steps: seq<Step>, j: nat, id: string)
    requires j < |steps|
  {
    Marks(c, RunLosing(c, steps[..j]), steps[j].call, id)
  }

  /** Call `k` lost its write for the device over an entry it outdated, and nothing since has marked the device or
      expired the entry. */
  ghost predicate LeftStale(c: Config, steps: seq<Step>, k: nat, id: string) {
    && k < |steps| && id in steps[k].lost && Outdates(c, RunLosing(c, steps[..k]), steps[k].call, id)
    && forall j :: k < j < |steps| ==> !MarksAt(c, steps, j, id) && !Expires(steps[j].call, id)
  }

  lemma StaleOneLonger(c: Config, steps: seq<Step>, k: nat, id: string)
    requires steps != [] && k < |steps| - 1
    ensures LeftStale(c, steps, k, id)
       <==> LeftStale(c, Front(steps), k, id) && !MarksAt(c, steps, |steps| - 1, id) && !Expires(Last(steps).call, id)
  {
    var so := Front(steps);
    assert forall j :: 0 <= j < |so| ==> so[j] == steps[j] && so[..j] == steps[..j];
  }

  /** After any calls with any writes lost and any entries expired, GetDevice differs from the store on a device
      exactly when the last call to mark it lost its write over an entry it outdated, and that entry has not expired
      since. */
  lemma {:induction false} ShowsExactly(c: Config, steps: seq<Step>, id: string)
    requires id in RunLosing(c, steps).store.devices
    ensures Shows(RunLosing(c, steps), id) <==> exists k :: LeftStale(c, steps, k, id)
  {
    var so, n := Front(steps), |steps| - 1;
    RunKeyed(c, so);
    LostWriteShows(c, RunLosing(c, so), Last(steps).call, Last(steps).lost, id);
    assert steps[..n] == so;
    if MarksAt(c, steps, n, id) {
      assert LeftStale(c, steps, n, id) <==> Shows(RunLosing(c, steps), id);
      assert forall k :: LeftStale(c, steps, k, id) ==> k == n;
    } else {
      ShowsExactly(c, so, id);
      forall k: nat | k < n ensures LeftStale(c, steps, k, id) <==>
             LeftStale(c, so, k, id) && !Expires(Last(steps).call, id) {
        StaleOneLonger(c, steps, k, id);
      }
      assert !LeftStale(c, steps, n, id);
      if exists k :: LeftStale(c, so, k, id) {
        var k :| LeftStale(c, so, k, id);
        assert LeftStale(c, steps, k, id) <==> !Expires(Last(steps).call, id);
      }
    }
  }

  /** A write that succeeds heals the device for as long as nothing marks it again, whatever was lost before. */
  lemma SuccessHeals(c: Config, steps: seq<Step>, k: nat, id: string)
    requires k < |steps| && MarksAt(c, steps, k, id) && id !in steps[k].lost
    requires forall j :: k < j < |steps| ==> !MarksAt(c, steps, j, id)
    requires id in RunLosing(c, steps).store.devices
    ensures !Shows(RunLosing(c, steps), id)
  {
    ShowsExactly(c, steps, id);
    forall i: nat ensures !LeftStale(c, steps, i, id) {
      assert k < i < |steps| ==> !MarksAt(c, steps, i, id);
    }
  }

  lemma OneMoreAlert(s: Store.State, id: string, done: seq<Alert>, a: Alert)
    ensures var s' := s.(alerts := WithAlerts(s, id, done));
            s'.alerts[id := s'.Raised(id) + [a]] == WithAlerts(s, id, done + [a])
  {
    assert s.Raised(id) + done + [a] == s.Raised(id) + (done + [a]);
    if done == [] {
      assert done + [a] == [a];
    }
  }

  /** The announcements of a pass over a listing. */
  function SilentEvents(offlineAfter: int, now: Time, devices: seq<Device>): seq<Event> {
    if devices == [] then []
    else SilentEvents(offlineAfter, now, Front(devices))
         + if LooksSilent(offlineAfter, now, Last(devices)) then [StatusEvent(Last(devices).id, Offline)] else []
  }

  // ---------------------------------------------------------------- a pass, judged by the records alone

  /** A device seen longer ago than allowed, and not Offline yet, ends up Offline in the store and in the cache and is
      announced once; any other keeps its record and its entry and is not announced. */
  ghost predicate RightlyReconciled(offlineAfter: int, now: Time, before: View, after: View, events: seq<Event>,
                                    id: string)
    requires id in before.store.devices
  {
    var d, event := before.store.devices[id], StatusEvent(id, Offline);
    && id in after.store.devices
    && if d.lastSeenAt == ZERO_TIME || now <= d.lastSeenAt + offlineAfter || d.status == Offline
       then after.store.devices[id] == d && multiset(events)[event] == 0
            && (id in after.cache <==> id in before.cache)
            && (id in before.cache ==> after.cache[id] == before.cache[id])
       else after.store.devices[id] == d.(status := Offline) && multiset(events)[event] == 1
            && id in after.cache && after.cache[id] == CacheEntry(Offline, ZERO_TIME)
  }

  /** One announcement for each listing of a device that is silent, and not yet Offline. */
  lemma {:induction false} SilentCount(offlineAfter: int, now: Time, listed: seq<Device>, d: Device)
    requires forall x :: x in listed && x.id == d.id ==> x == d
    ensures multiset(SilentEvents(offlineAfter, now, listed))[StatusEvent(d.id, Offline)]
         == if d.lastSeenAt == ZERO_TIME || now <= d.lastSeenAt + offlineAfter || d.status == Offline then 0
            else multiset(listed)[d]
  {
    if listed != [] {
      SilentCount(offlineAfter, now, Front(listed), d);
      FrontLast(listed);
      assert Last(listed) in listed;
    }
  }

  lemma PassJudged(offlineAfter: int, v: View, now: Time, listed: seq<Device>, id: string)
    requires Store.Keyed(v.store) && Snapshot(v.store, listed) && id in v.store.devices
    ensures RightlyReconciled(offlineAfter, now, v, Reconciled(offlineAfter, v, now, v.store.devices.Keys),
                              SilentEvents(offlineAfter, now, listed), id)
  {
    var d := v.store.devices[id];
    forall x | x in listed && x.id == id ensures x == d {
      assert multiset(listed)[x] > 0;
    }
    SilentCount(offlineAfter, now, listed, d);
    assert Store.Holds(v.store, d);
  }

  function IdsOf(devices: seq<Device>): set<string> {
    set d | d in devices :: d.id
  }

  lemma IdsOfNext(out: seq<Device>, i: nat)
    requires i < |out|
    ensures IdsOf(out[..i + 1]) == IdsOf(out[..i]) + {out[i].id}
  {
    assert out[..i + 1] == out[..i] + [out[i]];
  }

  /** What a pass does on meeting one device. */
  function ReconcileOne(offlineAfter: int, v: View, now: Time, d: Device): View {
    if LooksSilent(offlineAfter, now, d) && d.id in v.store.devices
    then View(v.store.(devices := v.store.devices[d.id := Store.Mark(v.store.devices[d.id], Offline, ZERO_TIME)]),
              v.cache[d.id := CacheEntry(Offline, ZERO_TIME)])
    else v
  }

  lemma QuietedOne(offlineAfter: int, devices: map<string, Device>, now: Time, ids: set<string>, id: string)
    requires id in devices && id !in ids
    ensures Quieted(offlineAfter, devices, now, ids)[id] == devices[id]
    ensures Quieted(offlineAfter, devices, now, ids + {id})
         == if LooksSilent(offlineAfter, now, devices[id])
            then Quieted(offlineAfter, devices, now, ids)[id := devices[id].(status := Offline)]
            else Quieted(offlineAfter, devices, now, ids)
    ensures Quiet(offlineAfter, devices, now, ids + {id})
         == if LooksSilent(offlineAfter, now, devices[id])
            then Quiet(offlineAfter, devices, now, ids)[id := CacheEntry(Offline, ZERO_TIME)]
            else Quiet(offlineAfter, devices, now, ids)
  {
  }

  /** One device further in a pass over a listing of the devices. */
  lemma OneFurther(offlineAfter: int, v: View, now: Time, ids: set<string>, d: Device)
    requires Store.Holds(v.store, d) && d.id !in ids
    ensures ReconcileOne(offlineAfter, Reconciled(offlineAfter, v, now, ids), now, d)
         == Reconciled(offlineAfter, v, now, ids + {d.id})
  {
    QuietedOne(offlineAfter, v.store.devices, now, ids, d.id);
    var quiet := Quiet(offlineAfter, v.store.devices, now, ids);
    assert (v.cache + quiet)[d.id := CacheEntry(Offline, ZERO_TIME)]
           == v.cache + quiet[d.id := CacheEntry(Offline, ZERO_TIME)];
  }

  /** A pass over a listing, one device after another. */
  function PassThrough(offlineAfter: int, v: View, now: Time, devices: seq<Device>): View {
    if devices == [] then v
    else ReconcileOne(offlineAfter, PassThrough(offlineAfter, v, now, Front(devices)), now, Last(devices))
  }

  lemma {:induction false} PassKeepsDevices(offlineAfter: int, v: View, now: Time, devices: seq<Device>)
    ensures PassThrough(offlineAfter, v, now, devices).store.devices.Keys == v.store.devices.Keys
  {
    if devices != [] {
      PassKeepsDevices(offlineAfter, v, now, Front(devices));
    }
  }

  /** A listing of the devices of a store, none twice. */
  ghost predicate Listing(s: Store.State, out: seq<Device>) {
    forall k :: 0 <= k < |out| ==> Store.Holds(s, out[k]) && out[k].id !in IdsOf(out[..k])
  }

  /** It marks exactly the devices that look silent to begin with. */
  lemma {:induction false} PassReconciles(offlineAfter: int, v: View, now: Time, out: seq<Device>, i: nat)
    requires Listing(v.store, out) && i <= |out|
    ensures PassThrough(offlineAfter, v, now, out[..i]) == Reconciled(offlineAfter, v, now, IdsOf(out[..i]))
  {
    if i == 0 {
      NothingReconciled(offlineAfter, v, now);
      assert IdsOf(out[..0]) == {};
    } else {
      PassReconciles(offlineAfter, v, now, out, i - 1);
      assert Front(out[..i]) == out[..i - 1];
      OneFurther(offlineAfter, v, now, IdsOf(out[..i - 1]), out[i - 1]);
      IdsOfNext(out, i - 1);
    }
  }

  // ---------------------------------------------------------------- the service as an object

  class PlatformService {
    const store: Store.MemoryStore
    const engine: Alerts.Engine
    const pool: Pool.WorkerPool<Telemetry>
    const offlineAfter: int
    var cache: Cache
    var published: seq<Event>      // what went to the publisher

    constructor (store: Store.MemoryStore, pool: Pool.WorkerPool<Telemetry>, engine: Alerts.Engine, offlineAfter: int)
      requires Store.Keyed(store.View()) && engine.Valid()
      ensures Valid() && Now() == View(store.View(), map[]) && published == []
      ensures this.store == store && this.engine == engine && this.pool == pool
      ensures this.offlineAfter == if offlineAfter <= 0 then 30_000_000_000 else offlineAfter
    {
      this.store, this.engine, this.pool := store, engine, pool;
      this.offlineAfter := if offlineAfter <= 0 then 30_000_000_000 else offlineAfter;
      cache, published := map[], [];
    }

    function Now(): View
      reads this, store
    {
      View(store.View(), cache)
    }

    function Settings(): Config
      requires engine.Valid()
      reads this, engine, engine.backing
    {
      Config(store.maxHistory, engine.Rules(), offlineAfter)
    }

    /** The invariant every call keeps: the cache agrees with the store. */
    ghost predicate Valid()
      reads this, store, engine
    {
      engine.Valid() && Coherent(Now())
    }

    /** `id` and `now` are what the id generator and the clock return; a new device has not been seen. */
    method RegisterDevice(id: string, name: string, kind: string, location: string, metadata: map<string, string>,
                          now: Time)
      returns (r: Option<Device>)
      requires Valid()
      modifies this, store
      ensures var d := Device(id, name, kind, location, metadata, Unknown, now, ZERO_TIME);
              && Valid() && Now() == Perform(Settings(), old(Now()), Call.Register(d))
              && r == (if id in old(store.devices) then None else Some(d))
              && published == old(published) + if r.Some? then [DeviceEvent(d)] else []
    {
      var d := Device(id, name, kind, location, metadata, Unknown, now, ZERO_TIME);
      CoherentStep(Settings(), Now(), Call.Register(d));
      var ok := store.CreateDevice(d);
      if !ok {
        return None;
      }
      cache := cache[d.id := CacheEntry(d.status, ZERO_TIME)];
      published := published + [DeviceEvent(d)];
      return Some(d);
    }

    /** Reads through the cache, and so reads the store. */
    method GetDevice(id: string) returns (r: Option<Device>)
      requires Valid()
      ensures r == if id in store.devices then Some(store.devices[id]) else None
    {
      r := store.GetDevice(id);
      if r.Some? && id in cache {
        var d := r.value.(status := cache[id].status);
        if cache[id].lastSeen != ZERO_TIME {
          d := d.(lastSeenAt := cache[id].lastSeen);
        }
        r := Some(d);
      }
    }

    method UpdateDevice(id: string, name: string, kind: string, location: string, metadata: map<string, string>)
      returns (r: Option<Device>)
      requires Valid()
      modifies this, store
      ensures Valid() && Now() == Perform(Settings(), old(Now()), Update(id, name, kind, location, metadata))
      ensures id in old(store.devices) ==> r == Some(old(store.devices)[id].(name := name, kind := kind,
                                                     location := location, metadata := metadata))
      ensures r == if id in store.devices then Some(store.devices[id]) else None
      ensures published == old(published) + if r.Some? then [DeviceEvent(r.value)] else []
    {
      CoherentStep(Settings(), Now(), Update(id, name, kind, location, metadata));
      var ok := store.UpdateDevice(id, name, kind, location, metadata);
      if !ok {
        return None;
      }
      r := GetDevice(id);
      published := published + [DeviceEvent(r.value)];
    }

    method DeleteDevice(id: string) returns (ok: bool)
      requires Valid()
      modifies store
      ensures Valid() && Now() == Perform(Settings(), old(Now()), Delete(id))
      ensures ok == (id in old(store.devices))
    {
      CoherentStep(Settings(), Now(), Delete(id));
      ok := store.DeleteDevice(id);
    }

    /** A sample without a timestamp gets the current time; then it is up to the pool. */
    method IngestTelemetry(t: Telemetry, now: Time, seesDone: bool) returns (ok: bool)
      requires now != ZERO_TIME && (pool.cancelled || pool.View().HasRoom())
      modifies pool
      ensures var job := if t.timestamp == ZERO_TIME then t.(timestamp := now) else t;
              && job.timestamp != ZERO_TIME
              && Pool.Enabled(old(pool.View()), Pool.Submit(job, ok))
              && pool.View() == Pool.Apply(old(pool.View()), Pool.Submit(job, ok))
    {
      var job := t;
      if job.timestamp == ZERO_TIME {
        job := job.(timestamp := now);
      }
      ok := pool.Submit(job, seesDone);
    }

    /** The job of one sample, alone: its effect, and its events in order. */
    method ProcessTelemetry(t: Telemetry)
      requires Valid()
      modifies this, store, engine, engine.backing
      ensures Valid() && Settings() == old(Settings())
      ensures Now() == Perform(old(Settings()), old(Now()), Process(t))
      ensures published == old(published)
                + if t.deviceId in old(store.devices) then Alerts.JobEvents(old(engine.Rules()), t) else []
    {
      ghost var c, before, told := Settings(), Now(), published;
      var ok := StoreSample(t);
      if !ok {
        ProcessedInTurn(c, before, t, Now());
        return;
      }
      assert Settings() == c;
      RaiseBreached(t);
      ProcessedInTurn(c, before, t, Now());
      Associative(told, [TelemetryEvent(t)], Alerts.AlertEvents(Alerts.Breaches(c.rules, t)));
    }

    /** The part of the job before its alerts. */
    method StoreSample(t: Telemetry) returns (ok: bool)
      modifies this, store
      ensures ok == (t.deviceId in old(store.devices))
      ensures Now() == if ok then Arrived(store.maxHistory, old(Now()), t) else old(Now())
      ensures published == old(published) + if ok then [TelemetryEvent(t)] else []
    {
      ok := store.AddTelemetry(t);
      if !ok {
        return;
      }
      var _ := store.UpdateDeviceStatus(t.deviceId, Online, t.timestamp);
      cache := cache[t.deviceId := CacheEntry(Online, t.timestamp)];
      published := published + [TelemetryEvent(t)];
    }

    /** The rest of it. */
    method RaiseBreached(t: Telemetry)
      requires engine.Valid()
      modifies this`published, store, engine, engine.backing
      ensures engine.Valid() && engine.Rules() == old(engine.Rules())
      ensures store.View() == old(store.View()).(alerts :=
                WithAlerts(old(store.View()), t.deviceId, Alerts.Breaches(old(engine.Rules()), t)))
      ensures published == old(published) + Alerts.AlertEvents(Alerts.Breaches(old(engine.Rules()), t))
    {
      var alerts := engine.Evaluate(t, []);
      Alerts.BreachesDevice(engine.Rules(), t);
      RaiseAll(alerts, t.deviceId);
    }

    method RaiseAll(alerts: seq<Alert>, ghost id: string)
      requires forall a :: a in alerts ==> a.deviceId == id
      modifies this`published, store
      ensures store.View() == old(store.View()).(alerts := WithAlerts(old(store.View()), id, alerts))
      ensures published == old(published) + Alerts.AlertEvents(alerts)
    {
      for i := 0 to |alerts|
        invariant store.View() == old(store.View()).(alerts := WithAlerts(old(store.View()), id, alerts[..i]))
        invariant published == old(published) + Alerts.AlertEvents(alerts[..i])
      {
        assert alerts[..i + 1] == alerts[..i] + [alerts[i]];
        OneMoreAlert(old(store.View()), id, alerts[..i], alerts[i]);
        store.AddAlert(alerts[i]);
        published := published + [AlertEvent(alerts[i])];
      }
      assert alerts[..|alerts|] == alerts;
    }

    /** One pass: exactly the devices that look silent at its start end up offline, and each is announced once, in order
        of registration. */
    method ReconcileStatuses(now: Time) returns (ghost listed: seq<Device>)
      requires Valid()
      modifies this, store
      ensures Valid() && Now() == Perform(Settings(), old(Now()), Reconcile(now))
      ensures Snapshot(old(store.View()), listed) && Sorting.SortedBy(listed, (d: Device) => d.registeredAt)
      ensures published == old(published) + SilentEvents(offlineAfter, now, listed)
      ensures forall id :: id in old(store.devices) ==>
                RightlyReconciled(offlineAfter, now, old(Now()), Now(), published[|old(published)|..], id)
    {
      ghost var before := Now();
      CoherentStep(Settings(), before, Reconcile(now));
      var out := store.ListDevices();
      listed := out;
      ListingCovers(before.store, out);
      PassReconciles(offlineAfter, before, now, out, |out|);
      assert out[..|out|] == out;
      ReconcileListed(out, now);
      forall id | id in before.store.devices
        ensures RightlyReconciled(offlineAfter, now, before, Now(), SilentEvents(offlineAfter, now, out), id)
      {
        PassJudged(offlineAfter, before, now, out, id);
      }
    }

    method ReconcileListed(out: seq<Device>, now: Time)
      requires forall i :: 0 <= i < |out| ==> out[i].id in store.devices
      modifies this, store
      ensures Now() == PassThrough(offlineAfter, old(Now()), now, out)
      ensures published == old(published) + SilentEvents(offlineAfter, now, out)
    {
      for i := 0 to |out|
        invariant Now() == PassThrough(offlineAfter, old(Now()), now, out[..i])
        invariant published == old(published) + SilentEvents(offlineAfter, now, out[..i])
      {
        assert Front(out[..i + 1]) == out[..i];
        PassKeepsDevices(offlineAfter, old(Now()), now, out[..i]);
        ReconcileDevice(out[i], now);
      }
      assert out[..|out|] == out;
    }

    /** A silent device is announced exactly when it was there to be marked. */
    method ReconcileDevice(d: Device, now: Time)
      modifies this, store
      ensures Now() == ReconcileOne(offlineAfter, old(Now()), now, d)
      ensures published == old(published)
                + if d.lastSeenAt != ZERO_TIME && d.lastSeenAt + offlineAfter < now && d.status != Offline
                     && d.id in old(store.devices)
                  then [StatusEvent(d.id, Offline)] else []
    {
      if d.lastSeenAt == ZERO_TIME {
        return;
      }
      if now - d.lastSeenAt > offlineAfter && d.status != Offline {
        var ok := store.UpdateDeviceStatus(d.id, Offline, ZERO_TIME);
        if !ok {
          return;
        }
        cache := cache[d.id := CacheEntry(Offline, ZERO_TIME)];
        published := published + [StatusEvent(d.id, Offline)];
      }
    }
  }

  lemma NothingReconciled(offlineAfter: int, v: View, now: Time)
    ensures Reconciled(offlineAfter, v, now, {}) == v
  {
    assert Reconciled(offlineAfter, v, now, {}).store.devices == v.store.devices;
    assert Reconciled(offlineAfter, v, now, {}).cache == v.cache;
  }

  lemma ListingCovers(s: Store.State, out: seq<Device>)
    requires Store.Keyed(s) && forall d :: multiset(out)[d] == if Store.Holds(s, d) then 1 else 0
    ensures IdsOf(out) == s.devices.Keys
    ensures Listing(s, out)
  {
    assert forall d :: d in out <==> multiset(out)[d] > 0;
    forall id | id in s.devices ensures id in IdsOf(out) {
      assert s.devices[id] in out;
    }
    forall i | 0 <= i < |out| ensures out[i].id !in IdsOf(out[..i]) {
      assert out[i] in out;
      forall k | 0 <= k < i ensures out[k].id != out[i].id {
        assert out[k] in out;
        ListedOnce(out, k, i);
      }
    }
  }
}
