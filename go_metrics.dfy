/** `MetricTracker` of `go/src/metrics/metrics.go`: the scanner service's counters, the
    windows of the last 100 scan and fetch times, the cache hit counts and the figures
    `GetMetrics` derives from them. The Prometheus collectors, the mutex and the CPU sampling
    are left out; the last CPU percentage is a field that nothing here updates. */
module GoMetrics {
  import opened Wrappers
  import opened Seqs

  /** The capacity of the scan and fetch windows. */
  const WindowSize: nat := 100

  /** `MetricsData`. */
  datatype MetricsData = MetricsData(
    avgScanTime: real, symbolsPerSecond: real, totalScans: int, totalFetches: int,
    cpuUsage: real, errorCount: int, cacheHitRate: real)

  /** The mean of a window, and 0 for an empty one. */
  function Mean(s: seq<real>): (r: real)
    ensures |s| > 0 ==> MinOf(s) <= r <= MaxOf(s)
    ensures |s| == 0 ==> r == 0.0
  {
    if |s| == 0 then 0.0
    else
      AverageWithinRange(s, MinOf(s), MaxOf(s));
      SumOf(s) / |s| as real
  }

  /** The cache hit rate in percent, 0 before any request. */
  function HitRate(hits: nat, requests: nat): (r: real)
    requires hits <= requests
    ensures 0.0 <= r <= 100.0
    ensures requests == 0 ==> r == 0.0
    ensures requests > 0 && hits == requests ==> r == 100.0
    ensures requests > 0 ==> r * requests as real == 100.0 * hits as real
  {
    if requests == 0 then 0.0
    else
      DivideBounds(0.0, hits as real, 1.0, requests as real);
      hits as real / requests as real * 100.0
  }

  /** Symbols per second as `GetMetrics` derives it: symbols per scan over the mean scan
      time, and 0 without a scan or without a positive mean. */
  function Throughput(totalSymbols: int, totalScans: nat, avgScanTime: real): (r: real)
    ensures totalScans > 0 && avgScanTime > 0.0 ==>
              r * avgScanTime * totalScans as real == totalSymbols as real
    ensures !(totalScans > 0 && avgScanTime > 0.0) ==> r == 0.0
    ensures totalSymbols >= 0 ==> r >= 0.0
  {
    if totalScans > 0 && avgScanTime > 0.0 then
      var perScan := totalSymbols as real / totalScans as real;
      assert perScan * totalScans as real == totalSymbols as real;
      var r := perScan / avgScanTime;
      assert r * avgScanTime == perScan;
      r
    else 0.0
  }

  class MetricTracker {
    var scanTimes: seq<real>
    var fetchTimes: seq<real>
    var totalSymbols: int
    var totalScans: nat
    var totalFetches: nat
    var errorCount: nat
    var cacheHits: nat
    var cacheRequests: nat
    var lastCpuPercentage: real
    /** Every scan and fetch time ever recorded, oldest first. */
    ghost var scanHistory: seq<real>
    ghost var fetchHistory: seq<real>

    /** The windows hold the most recent 100 samples in order, every recorded scan and fetch
        is counted, and no more hits than requests are counted. */
    ghost predicate Valid()
      reads this
    {
      scanTimes == Window(scanHistory, WindowSize)
      && fetchTimes == Window(fetchHistory, WindowSize)
      && totalScans == |scanHistory| && totalFetches == |fetchHistory|
      && cacheHits <= cacheRequests
    }

    /** `NewMetricTracker`. */
    constructor()
      ensures Valid()
      ensures scanTimes == [] && fetchTimes == [] && scanHistory == [] && fetchHistory == []
      ensures totalSymbols == 0 && totalScans == 0 && totalFetches == 0 && errorCount == 0
      ensures cacheHits == 0 && cacheRequests == 0 && lastCpuPercentage == 0.0
    {
      scanTimes, fetchTimes := [], [];
      totalSymbols, totalScans, totalFetches, errorCount := 0, 0, 0, 0;
      cacheHits, cacheRequests, lastCpuPercentage := 0, 0, 0.0;
      scanHistory, fetchHistory := [], [];
    }

    /** `RecordScan`: the scan time joins the window (the oldest leaves a full window), the
        scan is counted and its symbols are added to the total. */
    method RecordScan(symbolCount: int, scanTime: real)
      requires Valid()
      modifies this`scanTimes, this`totalSymbols, this`totalScans, this`scanHistory
      ensures Valid()
      ensures scanHistory == old(scanHistory) + [scanTime]
      ensures scanTimes == Window(old(scanHistory) + [scanTime], WindowSize)
      ensures |scanTimes| <= WindowSize && scanTimes[|scanTimes| - 1] == scanTime
      ensures totalScans == old(totalScans) + 1
      ensures totalSymbols == old(totalSymbols) + symbolCount
    {
      WindowSnoc(scanHistory, scanTime, WindowSize);
      var window := scanTimes;
      if |window| >= WindowSize {
        window := window[1..];
      }
      scanTimes := window + [scanTime];
      assert scanTimes == Window(scanHistory + [scanTime], WindowSize);
      totalSymbols := totalSymbols + symbolCount;
      totalScans := totalScans + 1;
      scanHistory := scanHistory + [scanTime];
    }

    /** `RecordFetch`: the fetch time joins its window and the fetch is counted; the symbol
        count is not used. */
    method RecordFetch(symbolCount: int, fetchTime: real)
      requires Valid()
      modifies this`fetchTimes, this`totalFetches, this`fetchHistory
      ensures Valid()
      ensures fetchHistory == old(fetchHistory) + [fetchTime]
      ensures fetchTimes == Window(old(fetchHistory) + [fetchTime], WindowSize)
      ensures |fetchTimes| <= WindowSize && fetchTimes[|fetchTimes| - 1] == fetchTime
      ensures totalFetches == old(totalFetches) + 1
    {
      WindowSnoc(fetchHistory, fetchTime, WindowSize);
      var window := fetchTimes;
      if |window| >= WindowSize {
        window := window[1..];
      }
      fetchTimes := window + [fetchTime];
      assert fetchTimes == Window(fetchHistory + [fetchTime], WindowSize);
      totalFetches := totalFetches + 1;
      fetchHistory := fetchHistory + [fetchTime];
    }

    /** `RecordCacheHit`: one more hit and one more request. */
    method RecordCacheHit()
      requires Valid()
      modifies this`cacheHits, this`cacheRequests
      ensures Valid()
      ensures cacheHits == old(cacheHits) + 1 && cacheRequests == old(cacheRequests) + 1
    {
      cacheHits := cacheHits + 1;
      cacheRequests := cacheRequests + 1;
    }

    /** `RecordCacheMiss`: one more request only. */
    method RecordCacheMiss()
      requires Valid()
      modifies this`cacheRequests
      ensures Valid()
      ensures cacheRequests == old(cacheRequests) + 1
    {
      cacheRequests := cacheRequests + 1;
    }

    /** `IncrementErrorCount`. */
    method IncrementErrorCount()
      requires Valid()
      modifies this`errorCount
      ensures Valid()
      ensures errorCount == old(errorCount) + 1
    {
      errorCount := errorCount + 1;
    }

    /** `GetMetrics`, which changes nothing: the mean of the scan window (0 when it is
        empty), the average symbols per scan divided by that mean (0 when there is no scan or
        the mean is not positive), the counters, and the hit rate in percent (0 before any
        request). */
    method GetMetrics() returns (d: MetricsData)
      requires Valid()
      ensures d.avgScanTime == Mean(scanTimes)
      ensures |scanTimes| > 0 ==> MinOf(scanTimes) <= d.avgScanTime <= MaxOf(scanTimes)
      ensures d.symbolsPerSecond == Throughput(totalSymbols, totalScans, d.avgScanTime)
      ensures d.totalScans == totalScans && d.totalFetches == totalFetches
      ensures d.errorCount == errorCount && d.cpuUsage == lastCpuPercentage
      ensures d.cacheHitRate == HitRate(cacheHits, cacheRequests)
      ensures 0.0 <= d.cacheHitRate <= 100.0
      ensures cacheRequests == 0 ==> d.cacheHitRate == 0.0
    {
      var avgScanTime := 0.0;
      if |scanTimes| > 0 {
        var sum := 0.0;
        var i := 0;
        while i < |scanTimes|
          invariant 0 <= i <= |scanTimes|
          invariant sum == SumOf(scanTimes[..i])
        {
          assert scanTimes[..i + 1][..i] == scanTimes[..i];
          sum := sum + scanTimes[i];
          i := i + 1;
        }
        assert scanTimes[..i] == scanTimes;
        avgScanTime := sum / |scanTimes| as real;
      }
      var symbolsPerSecond := 0.0;
      if totalScans > 0 && avgScanTime > 0.0 {
        symbolsPerSecond := totalSymbols as real / totalScans as real / avgScanTime;
      }
      var cacheHitRate := 0.0;
      if cacheRequests > 0 {
        cacheHitRate := cacheHits as real / cacheRequests as real * 100.0;
      }
      d := MetricsData(avgScanTime, symbolsPerSecond, totalScans, totalFetches,
                       lastCpuPercentage, errorCount, cacheHitRate);
    }
  }
}
