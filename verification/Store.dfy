/** The in-memory store: devices, telemetry and alerts. */
module Store {
  import opened Models
  import opened Sequences
  import Sorting

  datatype State = State(
    devices: map<string, Device>,
    telemetry: map<string, seq<Telemetry>>,
    alerts: map<string, seq<Alert>>)
  {
    function Series(id: string): seq<Telemetry> {
      if id in telemetry then telemetry[id] else []
    }

    function Raised(id: string): seq<Alert> {
      if id in alerts then alerts[id] else []
    }
  }

  const EMPTY: State := State(map[], map[], map[])

  /** One mutex-protected call that writes. */
  datatype Op =
    | CreateDevice(device: Device)
    | UpdateDevice(id: string, name: string, kind: string, location: string, metadata: map<string, string>)
    | UpdateDeviceStatus(id: string, status: Status, seen: Time)
    | DeleteDevice(id: string)
    | AddTelemetry(sample: Telemetry)
    | AddAlert(alert: Alert)

  /** Whether the call returns no error. */
  predicate Accepts(s: State, op: Op) {
    match op
    case CreateDevice(d) => d.id !in s.devices
    case UpdateDevice(id, _, _, _, _) => id in s.devices
    case UpdateDeviceStatus(id, _, _) => id in s.devices
    case DeleteDevice(id) => id in s.devices
    case AddTelemetry(t) => t.deviceId in s.devices
    case AddAlert(_) => true
  }

  function Exec(s: State, maxHistory: int, op: Op): State {
    if !Accepts(s, op) then s else
      match op
      case CreateDevice(d) => s.(devices := s.devices[d.id := d])
      case UpdateDevice(id, name, kind, location, metadata) =>
        s.(devices := s.devices[id := s.devices[id].(name := name, kind := kind, location := location,
                                                     metadata := metadata)])
      case UpdateDeviceStatus(id, status, seen) => s.(devices := s.devices[id := Mark(s.devices[id], status, seen)])
      case DeleteDevice(id) => State(s.devices - {id}, s.telemetry - {id}, s.alerts - {id})
      case AddTelemetry(t) =>
        s.(telemetry := s.telemetry[t.deviceId := Keep(s.Series(t.deviceId) + [t], maxHistory)])
      case AddAlert(a) => s.(alerts := s.alerts[a.deviceId := s.Raised(a.deviceId) + [a]])
  }

  /** A zero `seen` leaves the last-seen time alone. */
  function Mark(d: Device, status: Status, seen: Time): Device {
    d.(status := status, lastSeenAt := if seen == ZERO_TIME then d.lastSeenAt else seen)
  }

  predicate AtOrAfter(t: Telemetry, since: Time) {
    since == ZERO_TIME || t.timestamp >= since
  }

  function Since(series: seq<Telemetry>, since: Time): seq<Telemetry> {
    if series == [] then []
    else Since(Front(series), since) + if AtOrAfter(Last(series), since) then [Last(series)] else []
  }

  /** What GetTelemetry answers from a stored series. */
  function Query(series: seq<Telemetry>, since: Time, limit: int): seq<Telemetry> {
    Keep(Since(series, since), limit)
  }

  // ---------------------------------------------------------------- the store as an object

  class MemoryStore {
    var devices: map<string, Device>
    var telemetry: map<string, seq<Telemetry>>
    var alerts: map<string, seq<Alert>>
    const maxHistory: int

    constructor (maxHistory: int)
      ensures View() == EMPTY && this.maxHistory == maxHistory
    {
      devices, telemetry, alerts := map[], map[], map[];
      this.maxHistory := maxHistory;
    }

    function View(): State
      reads this
    {
      State(devices, telemetry, alerts)
    }

    method CreateDevice(d: Device) returns (ok: bool)
      modifies this
      ensures ok == Accepts(old(View()), Op.CreateDevice(d))
      ensures View() == Exec(old(View()), maxHistory, Op.CreateDevice(d))
    {
      if d.id in devices {
        return false;
      }
      devices := devices[d.id := d];
      return true;
    }

    method GetDevice(id: string) returns (r: Option<Device>)
      ensures r == if id in devices then Some(devices[id]) else None
    {
      if id !in devices {
        return None;
      }
      return Some(devices[id]);
    }

    /** Every device once, oldest registration first. */
    method ListDevices() returns (out: seq<Device>)
      requires Keyed(View())
      ensures Sorting.SortedBy(out, (d: Device) => d.registeredAt)
      ensures forall d :: multiset(out)[d] == if Holds(View(), d) then 1 else 0
    {
      var ids := devices.Keys;
      out := [];
      while ids != {}
        invariant ids <= devices.Keys
        invariant forall d :: multiset(out)[d] == if Holds(View(), d) && d.id !in ids then 1 else 0
      {
        var id :| id in ids;
        out := out + [devices[id]];
        ids := ids - {id};
      }
      out := Sorting.Sort(out, (d: Device) => d.registeredAt);
    }

    method UpdateDevice(id: string, name: string, kind: string, location: string, metadata: map<string, string>)
      returns (ok: bool)
      modifies this
      ensures ok == Accepts(old(View()), Op.UpdateDevice(id, name, kind, location, metadata))
      ensures View() == Exec(old(View()), maxHistory, Op.UpdateDevice(id, name, kind, location, metadata))
    {
      if id !in devices {
        return false;
      }
      var d := devices[id];
      d := d.(name := name);
      d := d.(kind := kind);
      d := d.(location := location);
      d := d.(metadata := metadata);
      devices := devices[id := d];
      return true;
    }

    method UpdateDeviceStatus(id: string, status: Status, seen: Time) returns (ok: bool)
      modifies this
      ensures ok == Accepts(old(View()), Op.UpdateDeviceStatus(id, status, seen))
      ensures View() == Exec(old(View()), maxHistory, Op.UpdateDeviceStatus(id, status, seen))
    {
      if id !in devices {
        return false;
      }
      var d := devices[id];
      d := d.(status := status);
      if seen != ZERO_TIME {
        d := d.(lastSeenAt := seen);
      }
      devices := devices[id := d];
      return true;
    }

    method DeleteDevice(id: string) returns (ok: bool)
      modifies this
      ensures ok == Accepts(old(View()), Op.DeleteDevice(id))
      ensures View() == Exec(old(View()), maxHistory, Op.DeleteDevice(id))
    {
      if id !in devices {
        return false;
      }
      devices := devices - {id};
      telemetry := telemetry - {id};
      alerts := alerts - {id};
      return true;
    }

    method AddTelemetry(t: Telemetry) returns (ok: bool)
      modifies this
      ensures ok == Accepts(old(View()), Op.AddTelemetry(t))
      ensures View() == Exec(old(View()), maxHistory, Op.AddTelemetry(t))
    {
      if t.deviceId !in devices {
        return false;
      }
      var series := View().Series(t.deviceId) + [t];
      if maxHistory > 0 && |series| > maxHistory {
        series := series[|series| - maxHistory..];
      }
      telemetry := telemetry[t.deviceId := series];
      return true;
    }

    method GetTelemetry(id: string, since: Time, limit: int) returns (out: seq<Telemetry>)
      ensures out == Query(View().Series(id), since, limit)
    {
      var series := View().Series(id);
      out := [];
      for i := 0 to |series|
        invariant out == Since(series[..i], since)
      {
        assert Front(series[..i + 1]) == series[..i];
        if since == ZERO_TIME || series[i].timestamp > since || series[i].timestamp == since {
          out := out + [series[i]];
        }
      }
      assert series[..|series|] == series;
      if limit > 0 && |out| > limit {
        out := out[|out| - limit..];
      }
    }

    method AddAlert(a: Alert)
      modifies this
      ensures View() == Exec(old(View()), maxHistory, Op.AddAlert(a))
    {
      alerts := alerts[a.deviceId := View().Raised(a.deviceId) + [a]];
    }
  }

  /** Devices are filed under their own id. */
  ghost predicate Keyed(s: State) {
    forall id :: id in s.devices ==> s.devices[id].id == id
  }

  ghost predicate Holds(s: State, d: Device) {
    d.id in s.devices && s.devices[d.id] == d
  }

  lemma KeyedAlways(s: State, maxHistory: int, op: Op)
    requires Keyed(s)
    ensures Keyed(Exec(s, maxHistory, op))
  {
  }

  // ---------------------------------------------------------------- retention

  function Run(maxHistory: int, ops: seq<Op>): State {
    if ops == [] then EMPTY else Exec(Run(maxHistory, Front(ops)), maxHistory, Last(ops))
  }

  /** The samples that reached a device since it was created, read off the calls alone; None while it does not exist. */
  function Log(ops: seq<Op>, id: string): Option<seq<Telemetry>> {
    if ops == [] then None else LogStep(Log(Front(ops), id), Last(ops), id)
  }

  function LogStep(before: Option<seq<Telemetry>>, op: Op, id: string): Option<seq<Telemetry>> {
    match op
    case CreateDevice(d) => if d.id == id && before.None? then Some([]) else before
    case DeleteDevice(x) => if x == id then None else before
    case AddTelemetry(t) => if t.deviceId == id && before.Some? then Some(before.value + [t]) else before
    case _ => before
  }

  ghost predicate Retains(s: State, maxHistory: int, id: string, log: Option<seq<Telemetry>>) {
    match log
    case None => id !in s.devices && id !in s.telemetry
    case Some(samples) => id in s.devices && s.Series(id) == Keep(samples, maxHistory)
  }

  lemma RetainsAdd(s: State, maxHistory: int, id: string, log: Option<seq<Telemetry>>, t: Telemetry)
    requires Retains(s, maxHistory, id, log)
    ensures Retains(Exec(s, maxHistory, AddTelemetry(t)), maxHistory, id, LogStep(log, AddTelemetry(t), id))
  {
    if log.Some? && t.deviceId == id {
      KeepAppend(log.value, maxHistory, t);
    }
  }

  lemma RetainsStep(s: State, maxHistory: int, id: string, log: Option<seq<Telemetry>>, op: Op)
    requires Retains(s, maxHistory, id, log)
    ensures Retains(Exec(s, maxHistory, op), maxHistory, id, LogStep(log, op, id))
  {
    if op.AddTelemetry? {
      RetainsAdd(s, maxHistory, id, log, op.sample);
    } else if op.CreateDevice? && Accepts(s, op) {
      assert Exec(s, maxHistory, op).telemetry == s.telemetry;
    } else {
      assert op.DeleteDevice? || Exec(s, maxHistory, op).telemetry == s.telemetry;
    }
  }

  lemma KeepAppend<T>(s: seq<T>, n: int, x: T)
    ensures Keep(Keep(s, n) + [x], n) == Keep(s + [x], n)
  {
  }

  /** After any calls whatever, a device exists exactly when its log does, and its series is the log's retained end. */
  lemma {:induction false} Retention(maxHistory: int, ops: seq<Op>, id: string)
    ensures Retains(Run(maxHistory, ops), maxHistory, id, Log(ops, id))
  {
    if ops != [] {
      Retention(maxHistory, Front(ops), id);
      RetainsStep(Run(maxHistory, Front(ops)), maxHistory, id, Log(Front(ops), id), Last(ops));
    }
  }

  /** Counting from the newest, the series holds the samples of the log at the same places, as many as the cap
      allows. */
  lemma NewestKept(maxHistory: int, ops: seq<Op>, id: string, i: nat)
    requires Log(ops, id).Some?
    ensures var series, log := Run(maxHistory, ops).Series(id), Log(ops, id).value;
            && |series| == (if 0 < maxHistory < |log| then maxHistory else |log|)
            && (i < |series| ==> series[|series| - 1 - i] == log[|log| - 1 - i])
  {
    Retention(maxHistory, ops, id);
  }

  /** What a reader gets back, against the log: the last `limit` of the retained samples at or after `since`. */
  lemma QueryAnswersFromLog(maxHistory: int, ops: seq<Op>, id: string, since: Time, limit: int)
    requires Log(ops, id).Some?
    ensures Query(Run(maxHistory, ops).Series(id), since, limit)
         == Keep(Since(Keep(Log(ops, id).value, maxHistory), since), limit)
    ensures maxHistory <= 0 || |Log(ops, id).value| <= maxHistory ==>
              Query(Run(maxHistory, ops).Series(id), ZERO_TIME, 0) == Log(ops, id).value
  {
    Retention(maxHistory, ops, id);
    SinceZero(Log(ops, id).value);
  }

  /** An unlimited query returns the samples not before `since`, each as often as it is stored and in stored order; all
      of them for the zero time. */
  lemma {:induction false} QueryFilters(series: seq<Telemetry>, since: Time, t: Telemetry)
    ensures multiset(Query(series, since, 0))[t]
         == if since != ZERO_TIME && t.timestamp < since then 0 else multiset(series)[t]
    ensures Subsequence(Query(series, since, 0), series)
  {
    if series != [] {
      QueryFilters(Front(series), since, t);
      FrontLast(series);
      SubsequenceExtend(Since(Front(series), since), Front(series), Last(series));
      assert Front(series) + [Last(series)] == series;
      assert Since(Front(series), since) + [] == Since(Front(series), since);
    }
  }

  /** A positive limit leaves that many of them, the last ones. */
  lemma LimitKeepsLast(series: seq<Telemetry>, since: Time, limit: int, i: nat)
    ensures var all, out := Query(series, since, 0), Query(series, since, limit);
            && |out| == (if 0 < limit < |all| then limit else |all|)
            && (i < |out| ==> out[|out| - 1 - i] == all[|all| - 1 - i])
  {
  }

  // ---------------------------------------------------------------- records and alerts, read off the calls

  datatype Aspect = Birth | Description | Standing | Sighting

  /** Whether the call says this about the device, if it is accepted. */
  predicate Sets(op: Op, id: string, about: Aspect) {
    match op
    case CreateDevice(d) => d.id == id
    case UpdateDevice(x, _, _, _, _) => x == id && about.Description?
    case UpdateDeviceStatus(x, _, seen) => x == id && (about.Standing? || (about.Sighting? && seen != ZERO_TIME))
    case _ => false
  }

  /** The last accepted call that did, None while the device does not exist. */
  function LastSetting(ops: seq<Op>, id: string, about: Aspect): Option<Op> {
    if ops == [] then None else
      var before, op := LastSetting(Front(ops), id, about), Last(ops);
      if op == DeleteDevice(id) then None
      else if Sets(op, id, about) && (op.CreateDevice? <==> before.None?) then Some(op)
      else before
  }

  predicate DescribedBy(d: Device, op: Op) {
    match op
    case CreateDevice(x) => d.name == x.name && d.kind == x.kind && d.location == x.location && d.metadata == x.metadata
    case UpdateDevice(_, name, kind, location, metadata) =>
      d.name == name && d.kind == kind && d.location == location && d.metadata == metadata
    case _ => false
  }

  predicate StandsBy(d: Device, op: Op) {
    match op
    case CreateDevice(x) => d.status == x.status
    case UpdateDeviceStatus(_, status, _) => d.status == status
    case _ => false
  }

  predicate SightedBy(d: Device, op: Op) {
    match op
    case CreateDevice(x) => d.lastSeenAt == x.lastSeenAt
    case UpdateDeviceStatus(_, _, seen) => d.lastSeenAt == seen && seen != ZERO_TIME
    case _ => false
  }

  ghost predicate RecordOf(devices: map<string, Device>, ops: seq<Op>, id: string) {
    && (forall about :: LastSetting(ops, id, about).Some? <==> id in devices)
    && (id in devices ==>
        var d, birth := devices[id], LastSetting(ops, id, Birth).value;
        && birth.CreateDevice? && d.id == id && d.registeredAt == birth.device.registeredAt
        && DescribedBy(d, LastSetting(ops, id, Description).value)
        && StandsBy(d, LastSetting(ops, id, Standing).value)
        && SightedBy(d, LastSetting(ops, id, Sighting).value))
  }

  /** A call that sets one aspect of an existing device leaves the others set as they were. */
  lemma RecordStatus(maxHistory: int, ops: seq<Op>, id: string)
    requires ops != [] && RecordOf(Run(maxHistory, Front(ops)).devices, Front(ops), id)
    requires Last(ops).UpdateDeviceStatus?
    ensures RecordOf(Run(maxHistory, ops).devices, ops, id)
  {
    var s, op := Run(maxHistory, Front(ops)), Last(ops);
    if op.id == id && id in s.devices {
      assert Run(maxHistory, ops).devices[id] == Mark(s.devices[id], op.status, op.seen);
    }
  }

  lemma RecordDescription(maxHistory: int, ops: seq<Op>, id: string)
    requires ops != [] && RecordOf(Run(maxHistory, Front(ops)).devices, Front(ops), id)
    requires Last(ops).UpdateDevice?
    ensures RecordOf(Run(maxHistory, ops).devices, ops, id)
  {
    var s, op := Run(maxHistory, Front(ops)), Last(ops);
    assert LastSetting(Front(ops), id, Birth).Some? <==> id in s.devices;
    if op.id == id && id in s.devices {
      assert LastSetting(ops, id, Description) == Some(op);
    }
  }

  lemma RecordLife(maxHistory: int, ops: seq<Op>, id: string)
    requires ops != [] && RecordOf(Run(maxHistory, Front(ops)).devices, Front(ops), id)
    requires !Last(ops).UpdateDevice? && !Last(ops).UpdateDeviceStatus?
    ensures RecordOf(Run(maxHistory, ops).devices, ops, id)
  {
    assert LastSetting(Front(ops), id, Birth).Some? <==> id in Run(maxHistory, Front(ops)).devices;
  }

  /** After any calls, every field of a record is what the last call to set it said: the registration for the id and its
      time, the last update for the description, the last status for the status, the last one that carried a time for
      the last-seen time. */
  lemma {:induction false} RecordFromCalls(maxHistory: int, ops: seq<Op>, id: string)
    ensures RecordOf(Run(maxHistory, ops).devices, ops, id)
  {
    if ops != [] {
      RecordFromCalls(maxHistory, Front(ops), id);
      if Last(ops).UpdateDeviceStatus? {
        RecordStatus(maxHistory, ops, id);
      } else if Last(ops).UpdateDevice? {
        RecordDescription(maxHistory, ops, id);
      } else {
        RecordLife(maxHistory, ops, id);
      }
    }
  }

  /** The alerts stored of a device since a deletion last found it, existing or not. */
  function AlertLog(ops: seq<Op>, id: string): seq<Alert> {
    if ops == [] then [] else
      match Last(ops)
      case AddAlert(a) => AlertLog(Front(ops), id) + if a.deviceId == id then [a] else []
      case DeleteDevice(x) => if x == id && Log(Front(ops), id).Some? then [] else AlertLog(Front(ops), id)
      case _ => AlertLog(Front(ops), id)
  }

  /** After any calls, the alerts of a device are those, in order. */
  lemma {:induction false} AlertsFromCalls(maxHistory: int, ops: seq<Op>, id: string)
    ensures Run(maxHistory, ops).Raised(id) == AlertLog(ops, id)
  {
    if ops != [] {
      AlertsFromCalls(maxHistory, Front(ops), id);
      Retention(maxHistory, Front(ops), id);
    }
  }

  /** Unlike telemetry, alerts can outlive their device: the call that breaks containment is exactly an AddAlert for a
      device that is not there. */
  lemma AlertsWithinDevices(s: State, maxHistory: int, op: Op)
    requires s.alerts.Keys <= s.devices.Keys
    ensures Exec(s, maxHistory, op).alerts.Keys <= Exec(s, maxHistory, op).devices.Keys
       <==> !(op.AddAlert? && op.alert.deviceId !in s.devices)
  {
    if op.AddAlert? {
      assert op.alert.deviceId in Exec(s, maxHistory, op).alerts.Keys;
    }
  }

  lemma {:induction false} SinceZero(s: seq<Telemetry>)
    ensures Since(s, ZERO_TIME) == s
  {
    if s != [] {
      SinceZero(Front(s));
      assert s == Front(s) + [Last(s)];
    }
  }
}
