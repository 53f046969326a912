/** `MetricTracker` of `go/pkg/scanner/metrics.go`: parallel windows of the last 100 scan
    times with their symbol counts (and the same for fetches), the scan and fetch totals, and
    the average scan time and throughput `GetMetrics` reports. The process memory reading and
    the clock are parameters; the mutex is left out. */
module ScannerMetrics {
  import opened Seqs
  import GoMetrics

  const WindowSize: nat := 100

  /** `Metrics`. */
  datatype Metrics = Metrics(avgScanTime: real, symbolsPerSecond: real, totalScans: int,
                             memoryUsage: real, cpuUsage: real)

  function SumInts(s: seq<int>): int {
    if |s| == 0 then 0 else SumInts(s[..|s| - 1]) + s[|s| - 1]
  }

  /** Total symbols over total time across the window, and 0 for an empty window or a zero
      total time. */
  function Rate(counts: seq<int>, times: seq<real>): (r: real)
    ensures |times| == 0 || |counts| == 0 || SumOf(times) == 0.0 ==> r == 0.0
    ensures |times| > 0 && |counts| > 0 && SumOf(times) != 0.0 ==>
              r * SumOf(times) == SumInts(counts) as real
  {
    if |times| == 0 || |counts| == 0 || SumOf(times) == 0.0 then 0.0
    else SumInts(counts) as real / SumOf(times)
  }

  /** With non-negative counts and times the throughput is never negative. */
  lemma {:induction false} RateNonnegative(counts: seq<int>, times: seq<real>)
    requires forall i :: 0 <= i < |counts| ==> counts[i] >= 0
    requires forall i :: 0 <= i < |times| ==> times[i] >= 0.0
    ensures Rate(counts, times) >= 0.0
  {
    SumIntsNonnegative(counts);
    SumBounds(times, 0.0, if |times| == 0 then 0.0 else MaxOf(times));
  }

  lemma {:induction false} SumIntsNonnegative(s: seq<int>)
    requires forall i :: 0 <= i < |s| ==> s[i] >= 0
    ensures SumInts(s) >= 0
  {
    if |s| > 0 {
      SumIntsNonnegative(s[..|s| - 1]);
    }
  }

  class MetricTracker {
    var scanTimes: seq<real>
    var symbolsCounts: seq<int>
    var fetchTimes: seq<real>
    var fetchedSymbols: seq<int>
    var totalScans: nat
    var totalFetches: nat
    var lastUpdate: int
    /** Every scan (symbol count, time) and fetch ever recorded, oldest first. */
    ghost var scans: seq<(int, real)>
    ghost var fetches: seq<(int, real)>

    /** The parallel windows have equal lengths of at most 100 and hold the most recent
        samples in order, and the totals count every record, trimmed or not. */
    ghost predicate Valid()
      reads this
    {
      |scanTimes| == |symbolsCounts| <= WindowSize
      && |fetchTimes| == |fetchedSymbols| <= WindowSize
      && scanTimes == Window(Times(scans), WindowSize)
      && symbolsCounts == Window(Counts(scans), WindowSize)
      && fetchTimes == Window(Times(fetches), WindowSize)
      && fetchedSymbols == Window(Counts(fetches), WindowSize)
      && totalScans == |scans| && totalFetches == |fetches|
    }

    /** `NewMetricTracker`, at clock reading `now`. */
    constructor(now: int)
      ensures Valid() && scans == [] && fetches == [] && lastUpdate == now
    {
      scanTimes, symbolsCounts, fetchTimes, fetchedSymbols := [], [], [], [];
      totalScans, totalFetches := 0, 0;
      lastUpdate := now;
      scans, fetches := [], [];
    }

    /** `RecordScan`: the time and the count join their windows together, the oldest pair
        leaving when there are more than 100, and the scan is counted. */
    method RecordScan(symbolsCount: int, scanTime: real)
      requires Valid()
      modifies this`scanTimes, this`symbolsCounts, this`totalScans, this`scans
      ensures Valid()
      ensures scans == old(scans) + [(symbolsCount, scanTime)]
      ensures totalScans == old(totalScans) + 1
      ensures scanTimes[|scanTimes| - 1] == scanTime
      ensures symbolsCounts[|symbolsCounts| - 1] == symbolsCount
    {
      TimesSnoc(scans, symbolsCount, scanTime);
      scanTimes, symbolsCounts := Slide(scanTimes, symbolsCounts, scanTime, symbolsCount, Times(scans), Counts(scans));
      totalScans := totalScans + 1;
      scans := scans + [(symbolsCount, scanTime)];
    }

    /** `RecordFetch`: the same for fetches. */
    method RecordFetch(symbolsCount: int, fetchTime: real)
      requires Valid()
      modifies this`fetchTimes, this`fetchedSymbols, this`totalFetches, this`fetches
      ensures Valid()
      ensures fetches == old(fetches) + [(symbolsCount, fetchTime)]
      ensures totalFetches == old(totalFetches) + 1
      ensures fetchTimes[|fetchTimes| - 1] == fetchTime
      ensures fetchedSymbols[|fetchedSymbols| - 1] == symbolsCount
    {
      TimesSnoc(fetches, symbolsCount, fetchTime);
      fetchTimes, fetchedSymbols := Slide(fetchTimes, fetchedSymbols, fetchTime, symbolsCount, Times(fetches), Counts(fetches));
      totalFetches := totalFetches + 1;
      fetches := fetches + [(symbolsCount, fetchTime)];
    }

    /** `calculateAvgScanTime`: the mean of the scan window, 0 when it is empty. */
    method CalculateAvgScanTime() returns (avg: real)
      ensures avg == GoMetrics.Mean(scanTimes)
      ensures |scanTimes| > 0 ==> MinOf(scanTimes) <= avg <= MaxOf(scanTimes)
    {
      if |scanTimes| == 0 {
        return 0.0;
      }
      var sum := 0.0;
      var i := 0;
      while i < |scanTimes|
        invariant 0 <= i <= |scanTimes|
        invariant sum == SumOf(scanTimes[..i])
      {
        assert scanTimes[..i + 1][..i] == scanTimes[..i];
        sum := sum + scanTimes[i];
        i := i + 1;
      }
      assert scanTimes[..i] == scanTimes;
      return sum / |scanTimes| as real;
    }

    /** `calculateSymbolsPerSecond`: all symbols in the window over all its time. */
    method CalculateSymbolsPerSecond() returns (rate: real)
      requires Valid()
      ensures rate == Rate(symbolsCounts, scanTimes)
    {
      if |scanTimes| == 0 || |symbolsCounts| == 0 {
        return 0.0;
      }
      var totalSymbols := 0;
      var totalTime := 0.0;
      var i := 0;
      while i < |scanTimes|
        invariant 0 <= i <= |scanTimes|
        invariant totalSymbols == SumInts(symbolsCounts[..i])
        invariant totalTime == SumOf(scanTimes[..i])
      {
        assert symbolsCounts[..i + 1][..i] == symbolsCounts[..i];
        assert scanTimes[..i + 1][..i] == scanTimes[..i];
        totalSymbols := totalSymbols + symbolsCounts[i];
        totalTime := totalTime + scanTimes[i];
        i := i + 1;
      }
      assert scanTimes[..i] == scanTimes && symbolsCounts[..i] == symbolsCounts;
      if totalTime == 0.0 {
        return 0.0;
      }
      return totalSymbols as real / totalTime;
    }

    /** `GetMetrics` at clock reading `now` with `memoryUsage` megabytes allocated: the
        window figures and the scan total; the CPU figure is always 0 and the update time
        becomes `now`. */
    method GetMetrics(now: int, memoryUsage: real) returns (m: Metrics)
      requires Valid()
      modifies this`lastUpdate
      ensures m == Metrics(GoMetrics.Mean(scanTimes), Rate(symbolsCounts, scanTimes),
                           totalScans, memoryUsage, 0.0)
      ensures lastUpdate == now
    {
      var avg := CalculateAvgScanTime();
      var rate := CalculateSymbolsPerSecond();
      m := Metrics(avg, rate, totalScans, memoryUsage, 0.0);
      lastUpdate := now;
    }
  }

  /** Appends a sample to a pair of parallel windows and drops their oldest entries when they
      exceed the cap, as both `Record` methods do. */
  method Slide<A, B>(times: seq<A>, counts: seq<B>, x: A, c: B, ghost ts: seq<A>,
                     ghost cs: seq<B>)
    returns (times': seq<A>, counts': seq<B>)
    requires times == Window(ts, WindowSize) && counts == Window(cs, WindowSize)
    requires |ts| == |cs|
    ensures times' == Window(ts + [x], WindowSize) && counts' == Window(cs + [c], WindowSize)
  {
    WindowSnoc(ts, x, WindowSize);
    WindowSnoc(cs, c, WindowSize);
    times' := times + [x];
    counts' := counts + [c];
    if |times'| > WindowSize {
      times' := times'[1..];
      counts' := counts'[1..];
    }
  }

  /** The times and the counts of a history of (count, time) records. */
  function Times(h: seq<(int, real)>): (r: seq<real>)
    ensures |r| == |h|
  {
    if |h| == 0 then [] else Times(h[..|h| - 1]) + [h[|h| - 1].1]
  }

  function Counts(h: seq<(int, real)>): (r: seq<int>)
    ensures |r| == |h|
  {
    if |h| == 0 then [] else Counts(h[..|h| - 1]) + [h[|h| - 1].0]
  }

  /** Entry `i` of the times and of the counts belongs to record `i`: the windows pair each
      scan time with the symbol count recorded with it. */
  lemma {:induction false} TimesAt(h: seq<(int, real)>, i: nat)
    requires i < |h|
    ensures Times(h)[i] == h[i].1 && Counts(h)[i] == h[i].0
  {
    if i < |h| - 1 {
      TimesAt(h[..|h| - 1], i);
    }
  }

  lemma TimesSnoc(h: seq<(int, real)>, count: int, time: real)
    ensures Times(h + [(count, time)]) == Times(h) + [time]
    ensures Counts(h + [(count, time)]) == Counts(h) + [count]
  {
    assert (h + [(count, time)])[..|h|] == h;
  }
}
