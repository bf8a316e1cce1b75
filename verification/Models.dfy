/** The domain entities of the platform. */
module Models {

  /** Nanoseconds. One value stands for the zero `time.Time`. */
  type Time = int

  const ZERO_TIME: Time := 0

  /** MongoDB and the analytics both keep whole milliseconds, rounding down. */
  const NANOS_PER_MILLI: int := 1_000_000

  function ToMillis(t: Time): int {
    t / NANOS_PER_MILLI
  }

  datatype Option<+T> = None | Some(value: T)

  datatype Status = Online | Offline | Degraded | Unknown

  datatype Device = Device(
    id: string, name: string, kind: string, location: string, metadata: map<string, string>,
    status: Status, registeredAt: Time, lastSeenAt: Time)

  datatype Telemetry = Telemetry(deviceId: string, timestamp: Time, metrics: map<string, real>)

  datatype AlertRule = AlertRule(metric: string, operator: string, threshold: real, severity: string)

  /** An alert without its random id, its creation time and its rendered message. */
  datatype Alert = Alert(deviceId: string, metric: string, value: real, threshold: real, severity: string)

  datatype Event =
    | DeviceEvent(device: Device)
    | TelemetryEvent(sample: Telemetry)
    | AlertEvent(alert: Alert)
    | StatusEvent(deviceId: string, status: Status)
}
