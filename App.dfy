/**
 * The dashboard's top-level state (App.tsx): the device inventory, the
 * security journal, the current telemetry snapshot and the chart history,
 * each replaced by a pure updater on every tick or user action.
 */
module App {
  import opened Types
  import Telemetry
  import Random
  import StatsHistory
  import Devices
  import SecurityLogStore

  /** The four seed devices: three online, the entry lock offline. */
  const InitialDevices: seq<Device> := [
    Device("1", "Main Gateway", "192.168.1.1", "AA:BB:CC:DD:EE:01", DeviceType.Gateway, Online, "Now", "2.4.1"),
    Device("2", "Temp Sensor Hall", "192.168.1.10", "AA:BB:CC:DD:EE:02", Sensor, Online, "2m ago", "1.0.5"),
    Device("3", "Ext Camera Front", "192.168.1.15", "AA:BB:CC:DD:EE:03", Camera, Online, "1m ago", "3.1.0"),
    Device("4", "Smart Lock Entry", "192.168.1.20", "AA:BB:CC:DD:EE:04", Actuator, Offline, "5h ago", "1.2.0")
  ]

  /**
   * The three seed journal entries; their timestamps are the clock's ISO text
   * for one hour, two hours and one day before load.
   */
  function InitialLogs(hourAgo: string, twoHoursAgo: string, dayAgo: string): seq<SecurityLog> {
    [
      SecurityLog("101", hourAgo, "192.168.1.15", "Camera motion detected", Info, "RTSP"),
      SecurityLog("102", twoHoursAgo, "203.0.113.42", "Failed login attempt (root)", SecuritySeverity.Warning, "SSH"),
      SecurityLog("103", dayAgo, "System", "Firmware updated successfully", Success, "OTA")
    ]
  }

  const InitialStats: SystemStats := SystemStats(24.0, 45.0, 52, 12.5, 4.2)

  /** Every chart sample carries in-range values. */
  predicate SamplesInRange(history: seq<HistorySample>) {
    forall i :: 0 <= i < |history| ==>
      Telemetry.InRange(SystemStats(history[i].cpuUsage, history[i].memoryUsage, history[i].temp,
                                    history[i].networkIn, history[i].networkOut))
  }

  /** The seed inventory has unique ids and the seed snapshot is in range. */
  lemma SeedIsValid()
    ensures Devices.UniqueIds(InitialDevices)
    ensures Telemetry.InRange(InitialStats)
  {
  }

  /**
   * The session state of one loaded dashboard. The history window never
   * exceeds its capacity, the ids stay unique and every value shown is in range.
   */
  class GatewaySession {
    var devices: seq<Device>
    var logs: seq<SecurityLog>
    var stats: SystemStats
    var history: seq<HistorySample>

    ghost predicate Valid()
      reads this
    {
      && Devices.UniqueIds(devices)
      && Telemetry.InRange(stats)
      && |history| <= StatsHistory.Capacity
      && SamplesInRange(history)
    }

    /** The state of the first render: seed data and an empty history. */
    constructor (hourAgo: string, twoHoursAgo: string, dayAgo: string)
      ensures Valid()
      ensures devices == InitialDevices
      ensures logs == InitialLogs(hourAgo, twoHoursAgo, dayAgo)
      ensures stats == InitialStats
      ensures history == []
    {
      devices := InitialDevices;
      logs := InitialLogs(hourAgo, twoHoursAgo, dayAgo);
      stats := InitialStats;
      history := [];
    }

    /** The stats updater of the two-second timer. */
    method Tick(uCpu: real, uTemp: real, uIn: real, uOut: real)
      requires Valid()
      requires Random.IsDraw(uCpu) && Random.IsDraw(uTemp) && Random.IsDraw(uIn) && Random.IsDraw(uOut)
      modifies this
      ensures Valid()
      ensures stats == Telemetry.Next(old(stats), uCpu, uTemp, uIn, uOut)
      ensures devices == old(devices) && logs == old(logs) && history == old(history)
    {
      stats := Telemetry.Next(stats, uCpu, uTemp, uIn, uOut);
    }

    /**
     * The history effect, run on the first render and after every change of
     * the snapshot: copy the window with the labelled snapshot appended, shift
     * the head off when it is over capacity.
     */
    method RecordHistory(time: string)
      requires Valid()
      modifies this
      ensures Valid()
      ensures history == StatsHistory.Record(old(history), StatsHistory.Sample(time, stats))
      ensures devices == old(devices) && logs == old(logs) && stats == old(stats)
    {
      var sample := StatsHistory.Sample(time, stats);
      var newHistory := history + [sample];
      if |newHistory| > StatsHistory.Capacity {
        newHistory := newHistory[1..];
      }
      assert newHistory == StatsHistory.Record(history, sample);
      history := newHistory;
    }

    /** One timer period: the tick, then the history effect it triggers. */
    method Step(uCpu: real, uTemp: real, uIn: real, uOut: real, time: string)
      requires Valid()
      requires Random.IsDraw(uCpu) && Random.IsDraw(uTemp) && Random.IsDraw(uIn) && Random.IsDraw(uOut)
      modifies this
      ensures Valid()
      ensures stats == Telemetry.Next(old(stats), uCpu, uTemp, uIn, uOut)
      ensures history == StatsHistory.Record(old(history), StatsHistory.Sample(time, stats))
      ensures history[|history| - 1] == StatsHistory.Sample(time, stats)
      ensures devices == old(devices) && logs == old(logs)
    {
      Tick(uCpu, uTemp, uIn, uOut);
      RecordHistory(time);
    }

    /** `toggleDeviceStatus`. */
    method ToggleDeviceStatus(id: string)
      requires Valid()
      modifies this
      ensures Valid()
      ensures devices == Devices.Toggle(old(devices), id)
      ensures logs == old(logs) && stats == old(stats) && history == old(history)
    {
      Devices.ToggleKeepsUniqueIds(devices, id);
      devices := Devices.Toggle(devices, id);
    }

    /** `addLog`. */
    method AddLog(log: SecurityLog)
      requires Valid()
      modifies this
      ensures Valid()
      ensures logs == [log] + old(logs)
      ensures devices == old(devices) && stats == old(stats) && history == old(history)
    {
      logs := SecurityLogStore.AddLog(logs, log);
    }
  }
}
