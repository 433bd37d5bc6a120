/**
 * The stats history behind the dashboard charts: a window of the latest
 * samples, oldest first, that drops its head once it grows past 20.
 */
module StatsHistory {
  import opened Types

  /** How many samples the charts keep. */
  const Capacity: nat := 20

  /** `{ time, ...stats }`: the chart record for one snapshot. */
  function Sample(time: string, s: SystemStats): HistorySample {
    HistorySample(time, s.cpuUsage, s.memoryUsage, s.temp, s.networkIn, s.networkOut)
  }

  /**
   * The history updater: append the sample, then shift one element off the
   * head when the length exceeds the capacity. The newest sample is last; a
   * window within capacity stays within capacity; below capacity nothing is
   * lost, at capacity exactly the oldest sample is, and order is kept.
   */
  function Record(prev: seq<HistorySample>, sample: HistorySample): (next: seq<HistorySample>)
    ensures |next| > 0 && next[|next| - 1] == sample
    ensures |prev| <= Capacity ==> |next| <= Capacity
    ensures |prev| < Capacity ==> next == prev + [sample]
    ensures |prev| >= Capacity ==> |next| == |prev| && next == prev[1..] + [sample]
  {
    var grown := prev + [sample];
    if |grown| > Capacity then grown[1..] else grown
  }

  /** The samples of a run of ticks recorded one after the other. */
  function RecordAll(prev: seq<HistorySample>, samples: seq<HistorySample>): seq<HistorySample>
    decreases |samples|
  {
    if samples == [] then prev else RecordAll(Record(prev, samples[0]), samples[1..])
  }

  /** The last `n` elements of `s` (all of `s` when it is shorter). */
  function Newest(s: seq<HistorySample>, n: nat): (r: seq<HistorySample>)
    ensures |r| <= n
  {
    if |s| <= n then s else s[|s| - n..]
  }

  lemma NewestOfTail(s: seq<HistorySample>, n: nat)
    requires |s| > n
    ensures Newest(s[1..], n) == Newest(s, n)
  {
  }

  /**
   * Recording any run of samples into a window within capacity leaves exactly
   * the newest `Capacity` samples of the old window followed by the run, in
   * the order they were recorded.
   */
  lemma {:induction false} RecordAllKeepsNewest(prev: seq<HistorySample>, samples: seq<HistorySample>)
    requires |prev| <= Capacity
    ensures RecordAll(prev, samples) == Newest(prev + samples, Capacity)
    decreases |samples|
  {
    if samples != [] {
      var next := Record(prev, samples[0]);
      RecordAllKeepsNewest(next, samples[1..]);
      assert (prev + [samples[0]]) + samples[1..] == prev + samples;
      if |prev| == Capacity {
        assert next + samples[1..] == (prev + samples)[1..];
        NewestOfTail(prev + samples, Capacity);
      }
    }
  }

  /**
   * From the empty history of the first render, any number of recorded
   * samples leaves `min(count, Capacity)` of them: the most recent, in order.
   */
  lemma FromEmpty(samples: seq<HistorySample>)
    ensures RecordAll([], samples) == Newest(samples, Capacity)
    ensures |RecordAll([], samples)| == if |samples| < Capacity then |samples| else Capacity
  {
    RecordAllKeepsNewest([], samples);
    assert [] + samples == samples;
  }
}
