/**
 * The records and enumerations the gateway dashboard passes between its
 * parts (types.ts). Text is a sequence of characters; the measurements the
 * dashboard shows as decimal numbers are reals, the temperature an integer.
 */
module Types {
  /** Reachability of a device as shown in the device grid. */
  datatype DeviceStatus = Online | Offline | Warning | Maintenance

  datatype DeviceType = Sensor | Actuator | Camera | Gateway

  /** One device of the inventory; `kind` is the record's `type` field. */
  datatype Device = Device(
    id: string,
    name: string,
    ip: string,
    mac: string,
    kind: DeviceType,
    status: DeviceStatus,
    lastSeen: string,
    firmware: string)

  datatype SecuritySeverity = Info | Warning | Critical | Success

  /** One entry of the security journal. */
  datatype SecurityLog = SecurityLog(
    id: string,
    timestamp: string,
    sourceIp: string,
    event: string,
    severity: SecuritySeverity,
    protocol: string)

  /** The current telemetry snapshot; network rates are in Mbps. */
  datatype SystemStats = SystemStats(
    cpuUsage: real,
    memoryUsage: real,
    temp: int,
    networkIn: real,
    networkOut: real)

  /** A snapshot spread into one chart record together with its capture-time label. */
  datatype HistorySample = HistorySample(
    time: string,
    cpuUsage: real,
    memoryUsage: real,
    temp: int,
    networkIn: real,
    networkOut: real)
}
