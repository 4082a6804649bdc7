/**
 * The input-to-processing latency recorder (include/LatencyMeasurer.h,
 * src/LatencyMeasurer.cpp). Performance-counter readings are parameters:
 * `now` is the counter value the call would read, `freq` the counter
 * frequency the constructor would query.
 */
module Latency {
  import Stats
  import Ring

  /** The number of samples kept (`RingBuffer<double, 1000>`). */
  const WINDOW: nat := 1000

  /** A counter reading converted to microseconds (`GetCurrentTimeUs`). */
  function TimeUs(counter: int, freq: int): (us: real)
    requires freq > 0
    ensures counter >= 0 ==> us >= 0.0
  {
    (counter as real * 1000000.0) / (freq as real)
  }

  /** The microseconds between two counter readings (the sample `EndMeasurement` records). */
  function ElapsedUs(start: int, end: int, freq: int): (us: real)
    requires freq > 0
    ensures end >= start ==> us >= 0.0
    ensures us == TimeUs(end, freq) - TimeUs(start, freq)
  {
    ((end - start) as real * 1000000.0) / (freq as real)
  }

  class LatencyMeasurer {
    /** `frequency_`, counter ticks per second. */
    var frequency: int
    /** `start_time_`, the counter at the last StartMeasurement. */
    var startTime: int
    /** `latencies_`, the last 1000 samples in microseconds. */
    const latencies: Ring.RingBuffer

    ghost predicate Valid()
      reads this, latencies
    {
      frequency > 0 && latencies.Valid() && latencies.cap == WINDOW
    }

    /** The constructor reads the counter frequency once; the start time is zero. */
    constructor (freq: int)
      requires freq > 0
      ensures Valid() && fresh(latencies)
      ensures frequency == freq && startTime == 0 && latencies.Pushes == []
    {
      frequency := freq;
      startTime := 0;
      latencies := new Ring.RingBuffer(WINDOW);
    }

    /** `StartMeasurement`: remember the counter reading `now`. */
    method StartMeasurement(now: int)
      requires Valid()
      modifies this
      ensures Valid()
      ensures startTime == now && frequency == old(frequency)
      ensures unchanged(latencies)
    {
      startTime := now;
    }

    /** `EndMeasurement`: record the time since StartMeasurement as a new sample. */
    method EndMeasurement(now: int)
      requires Valid()
      modifies latencies
      ensures Valid()
      ensures latencies.Pushes == old(latencies.Pushes) + [ElapsedUs(startTime, now, frequency)]
      ensures latencies.Window() == Ring.LastN(old(latencies.Window()) + [ElapsedUs(startTime, now, frequency)], WINDOW)
    {
      var latency := ((now - startTime) as real * 1000000.0) / (frequency as real);
      latencies.Push(latency);
    }

    /** `GetMinLatency`: the smallest recorded sample, 0 when there is none. */
    function GetMinLatency(): (r: real)
      reads this, latencies
      requires Valid()
      ensures r == Stats.Min(latencies.Window())
    {
      latencies.Min()
    }

    /** `GetAvgLatency`: the mean of the recorded samples, 0 when there is none. */
    function GetAvgLatency(): (r: real)
      reads this, latencies
      requires Valid()
      ensures r == Stats.Average(latencies.Window())
    {
      latencies.Average()
    }

    /** `GetP95Latency`: the 95th nearest-rank percentile. */
    function GetP95Latency(): (r: real)
      reads this, latencies
      requires Valid()
      ensures r == Stats.Percentile(latencies.Window(), 95, 100)
    {
      latencies.Percentile(95, 100)
    }

    /** `GetP99Latency`: the 99th nearest-rank percentile. */
    function GetP99Latency(): (r: real)
      reads this, latencies
      requires Valid()
      ensures r == Stats.Percentile(latencies.Window(), 99, 100)
    {
      latencies.Percentile(99, 100)
    }

    /** `GetSampleCount`: the number of samples held, never above 1000. */
    function GetSampleCount(): (n: nat)
      reads this, latencies
      requires Valid()
      ensures n <= WINDOW
      ensures n == if |latencies.Pushes| <= WINDOW then |latencies.Pushes| else WINDOW
    {
      latencies.Size()
    }

    /** `Reset`: drop every sample. */
    method Reset()
      requires Valid()
      modifies latencies
      ensures Valid()
      ensures latencies.Pushes == [] && latencies.Window() == []
    {
      latencies.Clear();
    }

    /** The reported statistics are ordered: min <= p95 <= p99 and min <= avg. */
    lemma ReportOrdered()
      requires Valid()
      ensures GetMinLatency() <= GetP95Latency() <= GetP99Latency()
      ensures GetMinLatency() <= GetAvgLatency()
    {
      var w := latencies.Window();
      Stats.PercentileBetween(w, 95, 100);
      Stats.PercentileMonotone(w, 95, 100, 99, 100);
      if w != [] {
        Stats.AverageBetween(w);
      }
    }
  }
}
