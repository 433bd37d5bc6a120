/**
 * The telemetry tick: a clamped random walk of the stats snapshot, run every
 * two seconds by the dashboard's timer. The four `Math.random()` draws are
 * parameters.
 */
module Telemetry {
  import opened Types
  import opened Random

  /** `Math.max` */
  function Max(a: real, b: real): real {
    if a < b then b else a
  }

  /** `Math.min` */
  function Min(a: real, b: real): real {
    if a < b then a else b
  }

  /** `Math.min(hi, Math.max(lo, x))`: the point of [lo, hi] nearest to `x`. */
  function Clamp(lo: real, hi: real, x: real): (r: real)
    requires lo <= hi
    ensures lo <= r <= hi
    ensures lo <= x <= hi ==> r == x
    ensures x < lo ==> r == lo
    ensures hi < x ==> r == hi
  {
    Min(hi, Max(lo, x))
  }

  /** The bounds the tick keeps: cpu a percentage, temp in [30, 90], non-negative rates. */
  predicate InRange(s: SystemStats) {
    && 0.0 <= s.cpuUsage <= 100.0
    && 30 <= s.temp <= 90
    && 0.0 <= s.networkIn
    && 0.0 <= s.networkOut
  }

  /**
   * The next snapshot: cpu moves by `u * 10 - 5` and is clamped to [0, 100],
   * temp by `u * 4 - 2`, clamped to [30, 90] and floored, the network rates
   * by `u * 5 - 2.5` and `u * 2 - 1`, kept non-negative; memory is held.
   * Every result is in range, whatever the previous snapshot was.
   */
  function Next(prev: SystemStats, uCpu: real, uTemp: real, uIn: real, uOut: real): (next: SystemStats)
    requires IsDraw(uCpu) && IsDraw(uTemp) && IsDraw(uIn) && IsDraw(uOut)
    ensures InRange(next)
    ensures next.memoryUsage == prev.memoryUsage
  {
    var cpu := Clamp(0.0, 100.0, prev.cpuUsage + (uCpu * 10.0 - 5.0));
    var temp := Clamp(30.0, 90.0, prev.temp as real + (uTemp * 4.0 - 2.0));
    var netIn := Max(0.0, prev.networkIn + (uIn * 5.0 - 2.5));
    var netOut := Max(0.0, prev.networkOut + (uOut * 2.0 - 1.0));
    SystemStats(cpu, prev.memoryUsage, temp.Floor, netIn, netOut)
  }

  /**
   * From an in-range snapshot a tick is a small step: cpu moves by at most 5
   * either way, temp by -2 to +1 degrees (the floor biases it down), the
   * inbound rate by at most 2.5 and the outbound by at most 1.
   */
  lemma NextIsSmallStep(prev: SystemStats, uCpu: real, uTemp: real, uIn: real, uOut: real)
    requires InRange(prev)
    requires IsDraw(uCpu) && IsDraw(uTemp) && IsDraw(uIn) && IsDraw(uOut)
    ensures var next := Next(prev, uCpu, uTemp, uIn, uOut);
      && prev.cpuUsage - 5.0 <= next.cpuUsage <= prev.cpuUsage + 5.0
      && prev.temp - 2 <= next.temp <= prev.temp + 1
      && prev.networkIn - 2.5 <= next.networkIn <= prev.networkIn + 2.5
      && prev.networkOut - 1.0 <= next.networkOut <= prev.networkOut + 1.0
  {
  }
}
