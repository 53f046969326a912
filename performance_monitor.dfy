/** `PerformanceMonitor` of `utils/performance_monitor.py`: operation timers, the threshold
    check on every recorded operation time, scanner throughput, and the statistics of
    `get_metrics_summary` with its interpolated percentile. Both clocks (`time.time()` for
    timers, `datetime.now()` for sample timestamps, in seconds) are parameters, and the alert a
    call would send through the alert system is returned to the caller. */
module PerformanceMonitor {
  import opened Wrappers
  import opened Text
  import opened Seqs
  import StableSort

  /** Threshold category to threshold name to limit, as `_get_thresholds` builds it. */
  type Thresholds = map<string, map<string, real>>

  /** The thresholds when the configuration sets none. The `system` category only carries
      resource limits, so no operation time is ever checked against it. */
  const DefaultThresholds: Thresholds := map[
    "api_request" := map["warning" := 1.0, "critical" := 5.0],
    "option_selection" := map["warning" := 2.0, "critical" := 10.0],
    "order_execution" := map["warning" := 2.0, "critical" := 5.0],
    "data_processing" := map["warning" := 1.0, "critical" := 5.0],
    "scanning" := map["warning" := 5.0, "critical" := 20.0],
    "system" := map["cpu_warning" := 80.0, "cpu_critical" := 95.0,
                    "memory_warning" := 80.0, "memory_critical" := 95.0]]

  /** `MIN_SYMBOLS_PER_SECOND` when the configuration sets none. */
  const DefaultMinSymbolsPerSecond: real := 50.0

  /** The components and operations that have a threshold category of their own. */
  predicate Categorised(component: string, operation: string) {
    (component == "api" && operation in {"get_market_data", "get_option_chain"})
    || component == "option_selector"
    || (component == "trade_executor" && operation in {"execute_trade", "place_order"})
    || (component == "data" && operation in {"process", "transform"})
    || (component == "scanner" && operation == "scan")
  }

  /** The threshold category of an operation; every other operation is checked under its
      component's own name. */
  function ThresholdCategory(component: string, operation: string): (c: string)
    ensures component == "api" && operation in {"get_market_data", "get_option_chain"} ==>
              c == "api_request"
    ensures component == "option_selector" ==> c == "option_selection"
    ensures component == "trade_executor" && operation in {"execute_trade", "place_order"} ==>
              c == "order_execution"
    ensures component == "data" && operation in {"process", "transform"} ==>
              c == "data_processing"
    ensures component == "scanner" && operation == "scan" ==> c == "scanning"
    ensures !Categorised(component, operation) ==> c == component
  {
    if component == "api" && operation in {"get_market_data", "get_option_chain"} then "api_request"
    else if component == "option_selector" then "option_selection"
    else if component == "trade_executor" && operation in {"execute_trade", "place_order"} then
      "order_execution"
    else if component == "data" && operation in {"process", "transform"} then "data_processing"
    else if component == "scanner" && operation == "scan" then "scanning"
    else component
  }

  datatype Level = Warning | Critical

  /** Why a performance alert is raised. */
  datatype Cause = Slow(level: Level) | LowThroughput(symbolsCount: int, scanTime: real)

  /** One `send_performance_alert` call: metric name, measured value and the limit crossed. */
  datatype PerfAlert = PerfAlert(metric: string, value: real, threshold: real, cause: Cause)

  /** The details text of a slow-operation alert. */
  function SlowDetails(level: Level): string {
    match level
    case Critical => "Critical performance degradation detected"
    case Warning => "Performance degradation detected"
  }

  /** The category has the named limit and the time reaches it (`>=`). */
  predicate Crosses(thresholds: Thresholds, category: string, name: string, time: real) {
    category in thresholds && name in thresholds[category] && time >= thresholds[category][name]
  }

  /** `_check_execution_threshold`: at most one alert, critical before warning, nothing for a
      category without thresholds or without these two limits. */
  function ExecutionAlert(thresholds: Thresholds, component: string, operation: string,
                          time: real): (r: Option<PerfAlert>)
    ensures var cat := ThresholdCategory(component, operation);
            r.Some? <==> Crosses(thresholds, cat, "critical", time)
                         || Crosses(thresholds, cat, "warning", time)
    ensures var cat := ThresholdCategory(component, operation);
            Crosses(thresholds, cat, "critical", time) ==>
              r == Some(PerfAlert(Capitalize(component) + " " + operation + " Time", time,
                                  thresholds[cat]["critical"], Slow(Critical)))
    ensures var cat := ThresholdCategory(component, operation);
            !Crosses(thresholds, cat, "critical", time) && Crosses(thresholds, cat, "warning", time)
            ==> r == Some(PerfAlert(Capitalize(component) + " " + operation + " Time", time,
                                    thresholds[cat]["warning"], Slow(Warning)))
  {
    var cat := ThresholdCategory(component, operation);
    var metric := Capitalize(component) + " " + operation + " Time";
    if cat !in thresholds then None
    else if "critical" in thresholds[cat] && time >= thresholds[cat]["critical"] then
      Some(PerfAlert(metric, time, thresholds[cat]["critical"], Slow(Critical)))
    else if "warning" in thresholds[cat] && time >= thresholds[cat]["warning"] then
      Some(PerfAlert(metric, time, thresholds[cat]["warning"], Slow(Warning)))
    else None
  }

  /** A slower run of the same operation never gets a milder answer: an alert stays an alert
      and a critical alert stays critical. */
  lemma AlertMonotone(thresholds: Thresholds, component: string, operation: string,
                      t1: real, t2: real)
    requires t1 <= t2
    ensures ExecutionAlert(thresholds, component, operation, t1).Some? ==>
              ExecutionAlert(thresholds, component, operation, t2).Some?
    ensures ExecutionAlert(thresholds, component, operation, t1).Some?
            && ExecutionAlert(thresholds, component, operation, t1).value.cause == Slow(Critical)
            ==> ExecutionAlert(thresholds, component, operation, t2).value.cause == Slow(Critical)
  {
  }

  /** With the default thresholds, timings of the `system` component never alert: its
      category has only CPU and memory limits. */
  lemma SystemTimingsNeverAlert(operation: string, time: real)
    ensures ExecutionAlert(DefaultThresholds, "system", operation, time).None?
  {
  }

  /** A timer id as `start_timer` forms it: component, operation and the start stamp. */
  function TimerId(component: string, operation: string, stamp: string): string {
    component + ":" + operation + ":" + stamp
  }

  /** `stop_timer`'s `split(':', 2)` recovers the component and the operation of a timer
      started by `start_timer`, as long as neither contains a colon. */
  lemma TimerIdParts(component: string, operation: string, stamp: string)
    requires ':' !in component && ':' !in operation
    ensures var parts := Split(TimerId(component, operation, stamp), ':');
            |parts| >= 2 && parts[0] == component && parts[1] == operation
  {
    SplitCons(operation, stamp, ':');
    assert TimerId(component, operation, stamp)
           == component + [':'] + (operation + [':'] + stamp);
    SplitCons(component, operation + [':'] + stamp, ':');
  }

  /** `symbols_count / scan_time`, or 0 for a scan time that is not positive. */
  function SymbolsPerSecond(symbolsCount: int, scanTime: real): (r: real)
    ensures scanTime > 0.0 ==> r * scanTime == symbolsCount as real
    ensures scanTime <= 0.0 ==> r == 0.0
    ensures scanTime > 0.0 && symbolsCount >= 0 ==> r >= 0.0
  {
    if scanTime > 0.0 then symbolsCount as real / scanTime else 0.0
  }

  /** One recorded sample: an operation time or a custom metric value. */
  datatype Sample = Timing(timestamp: int, executionTime: real) | Reading(timestamp: int, value: real)

  /** The number a sample carries. */
  function Number(s: Sample): real {
    if s.Timing? then s.executionTime else s.value
  }

  function Numbers(samples: seq<Sample>): (r: seq<real>)
    ensures |r| == |samples|
    ensures forall i :: 0 <= i < |samples| ==> r[i] == Number(samples[i])
  {
    if |samples| == 0 then [] else [Number(samples[0])] + Numbers(samples[1..])
  }

  /** `self.metrics[key].append(sample)` on the `defaultdict(list)`. */
  function Appended(metrics: map<string, seq<Sample>>, key: string, s: Sample)
    : (r: map<string, seq<Sample>>)
    ensures r.Keys == metrics.Keys + {key}
    ensures r[key] == (if key in metrics then metrics[key] else []) + [s]
    ensures forall k :: k in metrics && k != key ==> r[k] == metrics[k]
  {
    metrics[key := (if key in metrics then metrics[key] else []) + [s]]
  }

  /** The samples recorded at or after `threshold`, in their order. */
  function Recent(samples: seq<Sample>, threshold: int): (r: seq<Sample>)
    ensures forall s :: s in r <==> s in samples && s.timestamp >= threshold
  {
    FilterKeepsPassing(samples, (s: Sample) => s.timestamp >= threshold);
    Filter(samples, (s: Sample) => s.timestamp >= threshold)
  }

  /** The ascending arrangement of `s`. */
  function SortedOf(s: seq<real>): (r: seq<real>)
    ensures |r| == |s|
  {
    StableSort.SortAsc(s, x => x)
  }

  lemma SortedOfMeaning(s: seq<real>)
    ensures Sorted(SortedOf(s)) && multiset(SortedOf(s)) == multiset(s)
  {
    StableSort.SortAscSorted(s, x => x);
    StableSort.SortAscPermutes(s, x => x);
  }

  /** There is only one ascending arrangement of a multiset of numbers. */
  lemma {:induction false} SortedUnique(a: seq<real>, b: seq<real>)
    requires Sorted(a) && Sorted(b) && multiset(a) == multiset(b)
    ensures a == b
  {
    assert |a| == |multiset(a)| == |multiset(b)| == |b|;
    if |a| > 0 {
      SortedHeadIsLeast(a, b);
      SortedHeadIsLeast(b, a);
      assert a[0] == b[0];
      assert a == [a[0]] + a[1..] && b == [b[0]] + b[1..];
      assert multiset(a) == multiset{a[0]} + multiset(a[1..]);
      assert multiset(b) == multiset{a[0]} + multiset(b[1..]);
      assert multiset(a[1..]) == multiset(a) - multiset{a[0]} == multiset(b[1..]);
      SortedUnique(a[1..], b[1..]);
    }
  }

  /** The head of a sorted arrangement is at most every element of the same multiset. */
  lemma SortedHeadIsLeast(a: seq<real>, b: seq<real>)
    requires Sorted(a) && multiset(a) == multiset(b) && |a| > 0 && |b| > 0
    ensures a[0] <= b[0]
  {
    assert b[0] in multiset(a);
    var j :| 0 <= j < |a| && a[j] == b[0];
  }

  /** The ends of the ascending arrangement are the minimum and the maximum. */
  lemma SortedEnds(s: seq<real>, t: seq<real>)
    requires Sorted(s) && multiset(s) == multiset(t) && |t| > 0
    ensures |s| == |t| && s[0] == MinOf(t) && s[|s| - 1] == MaxOf(t)
  {
    assert |s| == |multiset(s)| == |multiset(t)| == |t|;
    var lo, hi := MinOf(t), MaxOf(t);
    assert s[0] in multiset(t) && s[|s| - 1] in multiset(t);
    assert s[0] in t && s[|s| - 1] in t;
    var p :| 0 <= p < |t| && t[p] == s[0];
    var q :| 0 <= q < |t| && t[q] == s[|s| - 1];
    assert lo in multiset(s) && hi in multiset(s);
    var i :| 0 <= i < |s| && s[i] == lo;
    var j :| 0 <= j < |s| && s[j] == hi;
    assert s[0] <= s[i] && s[j] <= s[|s| - 1];
  }

  /** `statistics.median` on the ascending arrangement: the middle element, or the mean of
      the two middle ones. */
  function Median(s: seq<real>): real
    requires |s| > 0
  {
    if |s| % 2 == 1 then s[|s| / 2] else (s[|s| / 2 - 1] + s[|s| / 2]) / 2.0
  }

  /** Python's `math.ceil` on a non-negative number. */
  function Ceil(k: real): (c: int)
    requires k >= 0.0
    ensures k <= c as real < k + 1.0
    ensures c == k.Floor <==> k == k.Floor as real
  {
    if k == k.Floor as real then k.Floor else k.Floor + 1
  }

  /** The rank `(n - 1) * p / 100` of the p-th percentile among `n` values. */
  function Rank(n: nat, percentile: int): (k: real)
    requires n > 0 && 0 <= percentile <= 100
    ensures 0.0 <= k <= (n - 1) as real
    ensures percentile == 0 ==> k == 0.0
    ensures percentile == 100 ==> k == (n - 1) as real
  {
    MulAtMost(n - 1, percentile, 100);
    ((n - 1) * percentile) as real / 100.0
  }

  lemma {:induction false} MulAtMost(a: nat, b: nat, c: nat)
    requires b <= c
    ensures 0 <= a * b <= a * c
  {
    if a > 0 {
      MulAtMost(a - 1, b, c);
    }
  }

  /** The value at rank `k` of the sorted values: the element itself at a whole rank, else the
      linear interpolation between the neighbours `int(k)` and `ceil(k)`. */
  function Interpolate(s: seq<real>, k: real): real
    requires 0.0 <= k <= (|s| - 1) as real
  {
    var f := Trunc(k);
    var c := Ceil(k);
    if f == c then s[Trunc(k)] else s[f] * (c as real - k) + s[c] * (k - f as real)
  }

  /** `_percentile` on the sorted values. */
  function PercentileOf(s: seq<real>, percentile: int): real
    requires |s| > 0 && 0 <= percentile <= 100
  {
    Interpolate(s, Rank(|s|, percentile))
  }

  /** On sorted values an interpolation lies between its two neighbours, hence between the
      ends. */
  lemma InterpolateWithinRange(s: seq<real>, k: real)
    requires 0.0 <= k <= (|s| - 1) as real && Sorted(s)
    ensures s[0] <= Interpolate(s, k) <= s[|s| - 1]
    ensures k == 0.0 ==> Interpolate(s, k) == s[0]
    ensures k == (|s| - 1) as real ==> Interpolate(s, k) == s[|s| - 1]
  {
    var f := Trunc(k);
    var c := Ceil(k);
    var n := |s|;
    assert 0 <= f <= c <= n - 1;
    assert s[0] <= s[f] && s[c] <= s[n - 1];
    if f != c {
      var w := k - f as real;
      assert c == f + 1 && c as real - k == 1.0 - w && 0.0 <= w <= 1.0;
      assert s[f] <= s[c];
      Between(s[f], s[c], w);
    }
  }

  /** A weighted mean of `a <= b` with weight `w` in [0, 1] lies between them. */
  lemma Between(a: real, b: real, w: real)
    requires a <= b && 0.0 <= w <= 1.0
    ensures a <= a * (1.0 - w) + b * w <= b
  {
    assert a * (1.0 - w) + b * w == a + (b - a) * w;
    MulNonneg(b - a, w);
    MulNonneg(b - a, 1.0 - w);
  }

  /** On sorted values the percentile lies between the minimum and the maximum; the 0th is the
      minimum and the 100th the maximum. */
  lemma PercentileWithinRange(s: seq<real>, percentile: int)
    requires |s| > 0 && 0 <= percentile <= 100 && Sorted(s)
    ensures s[0] <= PercentileOf(s, percentile) <= s[|s| - 1]
    ensures percentile == 0 ==> PercentileOf(s, percentile) == s[0]
    ensures percentile == 100 ==> PercentileOf(s, percentile) == s[|s| - 1]
  {
    InterpolateWithinRange(s, Rank(|s|, percentile));
  }

  /** The median is the 50th percentile of `_percentile`. */
  lemma MedianIsPercentile50(s: seq<real>)
    requires |s| > 0
    ensures Median(s) == PercentileOf(s, 50)
  {
    var n := |s|;
    var k := Rank(n, 50);
    if n % 2 == 1 {
      assert k == ((n - 1) / 2) as real;
    } else {
      assert k == (n / 2 - 1) as real + 0.5;
      assert Trunc(k) == n / 2 - 1 && Ceil(k) == n / 2;
    }
  }

  /** The statistics of one operation's recent times. */
  function OperationStatsOf(times: seq<real>): (st: Stats)
    requires |times| > 0
    ensures st.OperationStats? && st.count == |times|
    ensures st.min == MinOf(times) && st.max == MaxOf(times)
    ensures st.min <= st.avg <= st.max && st.min <= st.median <= st.max
    ensures st.p95.Some? <==> |times| >= 20
    ensures st.p95.Some? ==> st.min <= st.p95.value <= st.max
  {
    var sorted := SortedOf(times);
    SortedOfMeaning(times);
    SortedEnds(sorted, times);
    AverageWithinRange(times, MinOf(times), MaxOf(times));
    MedianIsPercentile50(sorted);
    PercentileWithinRange(sorted, 50);
    PercentileWithinRange(sorted, 95);
    OperationStats(|times|, MinOf(times), MaxOf(times), SumOf(times) / |times| as real,
                   Median(sorted), if |times| >= 20 then Some(PercentileOf(sorted, 95)) else None)
  }

  /** The statistics of one custom metric's recent values. */
  function ComponentStatsOf(values: seq<real>): (st: Stats)
    requires |values| > 0
    ensures st.ComponentStats? && st.count == |values| && st.last == values[|values| - 1]
    ensures st.min == MinOf(values) && st.max == MaxOf(values)
    ensures st.min <= st.last <= st.max && st.min <= st.avg <= st.max
  {
    AverageWithinRange(values, MinOf(values), MaxOf(values));
    assert values[|values| - 1] in values;
    ComponentStats(|values|, values[|values| - 1], MinOf(values), MaxOf(values),
                   SumOf(values) / |values| as real)
  }

  datatype Stats =
    | OperationStats(count: nat, min: real, max: real, avg: real, median: real,
                     p95: Option<real>)
    | ComponentStats(count: nat, last: real, min: real, max: real, avg: real)

  /** The categories `get_metrics_summary` reports as operations. */
  const OperationCategories: set<string> :=
    {"api", "option_selector", "trade_executor", "data", "scanner"}

  /** `get_metrics_summary` as written for one key: an operation category reads every
      sample's `execution_time` and any other category its `value`, so one sample of the other
      kind raises `KeyError` and the whole summary fails. */
  function KeyStatsAsWritten(category: string, recent: seq<Sample>): (r: Result<Stats>)
    requires |recent| > 0
  {
    if category in OperationCategories then
      if forall s :: s in recent ==> s.Timing? then Ok(OperationStatsOf(Numbers(recent)))
      else Err("KeyError: 'execution_time'")
    else if forall s :: s in recent ==> s.Reading? then Ok(ComponentStatsOf(Numbers(recent)))
    else Err("KeyError: 'value'")
  }

  /** `record_scan_performance` stores the scan time as a custom metric under `scanner`, an
      operation category: from then on the summary as written fails. */
  lemma ScanMetricsBreakSummary(timestamp: int, scanTime: real)
    ensures KeyStatsAsWritten("scanner", [Reading(timestamp, scanTime)]).Err?
  {
    assert Reading(timestamp, scanTime) in [Reading(timestamp, scanTime)];
  }

  /** The summary of one key as intended: the category decides where it is reported and each
      sample contributes its own number. */
  function KeyStats(category: string, recent: seq<Sample>): (st: Stats)
    requires |recent| > 0
    ensures st.count == |recent|
    ensures st.OperationStats? <==> category in OperationCategories
  {
    if category in OperationCategories then OperationStatsOf(Numbers(recent))
    else ComponentStatsOf(Numbers(recent))
  }

  /** Wherever the summary as written succeeds, the intended one agrees with it. */
  lemma KeyStatsAgrees(category: string, recent: seq<Sample>)
    requires |recent| > 0
    ensures KeyStatsAsWritten(category, recent).Ok? ==>
              KeyStatsAsWritten(category, recent).value == KeyStats(category, recent)
    ensures KeyStatsAsWritten(category, recent).Ok? <==>
              (category in OperationCategories ==> forall s :: s in recent ==> s.Timing?)
              && (category !in OperationCategories ==> forall s :: s in recent ==> s.Reading?)
  {
  }

  /** A key's `split(':', 1)`: the category before the first colon and the name after it. */
  function KeyParts(key: string): (p: (string, string))
    requires ':' in key
    ensures ':' !in p.0 && key == p.0 + ":" + p.1
  {
    var i := IndexOf(key, ':');
    assert key == key[..i] + [key[i]] + key[i + 1..];
    (key[..i], key[i + 1..])
  }

  /** Different keys are reported under different category and name pairs. */
  lemma KeyPartsInjective(k1: string, k2: string)
    requires ':' in k1 && ':' in k2 && KeyParts(k1) == KeyParts(k2)
    ensures k1 == k2
  {
  }

  /** A key `get_metrics_summary` reports: it has a colon and recent samples. */
  predicate Reported(metrics: map<string, seq<Sample>>, key: string, threshold: int) {
    key in metrics && ':' in key && |Recent(metrics[key], threshold)| > 0
  }

  /** The summary holds exactly the reported keys among `done`, each with its statistics. */
  ghost predicate Summarises(metrics: map<string, seq<Sample>>, done: set<string>,
                             threshold: int, summary: map<(string, string), Stats>)
  {
    Covers(metrics, done, threshold, summary) && OnlyReported(metrics, done, threshold, summary)
  }

  /** Every reported key among `done` has its statistics in the summary. */
  ghost predicate Covers(metrics: map<string, seq<Sample>>, done: set<string>,
                         threshold: int, summary: map<(string, string), Stats>)
  {
    forall key :: key in done && Reported(metrics, key, threshold) ==>
      KeyParts(key) in summary
      && summary[KeyParts(key)] == KeyStats(KeyParts(key).0, Recent(metrics[key], threshold))
  }

  /** Every entry of the summary comes from a reported key among `done`. */
  ghost predicate OnlyReported(metrics: map<string, seq<Sample>>, done: set<string>,
                               threshold: int, summary: map<(string, string), Stats>)
  {
    forall p :: p in summary ==> p.0 + ":" + p.1 in done
                                 && Reported(metrics, p.0 + ":" + p.1, threshold)
  }

  /** The statistics `get_metrics_summary` computes for one key, with the percentile taken on
      an array sorted in place. */
  method SummarizeKey(category: string, recent: seq<Sample>) returns (st: Stats)
    requires |recent| > 0
    ensures st == KeyStats(category, recent)
  {
    var xs := Numbers(recent);
    if category !in OperationCategories {
      return ComponentStats(|xs|, xs[|xs| - 1], MinOf(xs), MaxOf(xs), SumOf(xs) / |xs| as real);
    }
    var p95: Option<real> := None;
    if |xs| >= 20 {
      var a := new real[|xs|](i requires 0 <= i < |xs| => xs[i]);
      assert a[..] == xs;
      var p := Percentile(a, 95);
      SortedOfMeaning(xs);
      SortedUnique(a[..], SortedOf(xs));
      p95 := Some(p);
    }
    st := OperationStats(|xs|, MinOf(xs), MaxOf(xs), SumOf(xs) / |xs| as real,
                         Median(SortedOf(xs)), p95);
  }

  /** `_percentile`: sorts `values` in place and interpolates at the requested rank, which
      lies between the smallest and the largest value and is one of them at 0 and at 100. */
  method Percentile(values: array<real>, percentile: int) returns (r: real)
    requires values.Length > 0 && 0 <= percentile <= 100
    modifies values
    ensures Sorted(values[..]) && multiset(values[..]) == multiset(old(values[..]))
    ensures r == PercentileOf(values[..], percentile)
    ensures MinOf(old(values[..])) <= r <= MaxOf(old(values[..]))
    ensures percentile == 0 ==> r == MinOf(old(values[..]))
    ensures percentile == 100 ==> r == MaxOf(old(values[..]))
  {
    ghost var before := values[..];
    SortInPlace(values);
    r := SortedPercentile(values, percentile);
    PercentileOfArrangement(values[..], before, percentile);
  }

  /** The interpolation step of `_calculate_percentile`, on values already in ascending
      order: it reads the two neighbours of the fractional rank. */
  method SortedPercentile(values: array<real>, percentile: int) returns (r: real)
    requires values.Length > 0 && 0 <= percentile <= 100
    ensures r == PercentileOf(values[..], percentile)
  {
    var k := Rank(values.Length, percentile);
    var f := Trunc(k);
    var c := Ceil(k);
    ghost var sorted := values[..];
    assert PercentileOf(sorted, percentile) == Interpolate(sorted, k);
    if f == c {
      r := values[f];
      assert r == Interpolate(sorted, k);
    } else {
      var lo := values[f];
      var hi := values[c];
      assert lo == sorted[f] && hi == sorted[c];
      r := lo * (c as real - k) + hi * (k - f as real);
      assert r == Interpolate(sorted, k);
    }
  }

  /** The percentile of the ascending arrangement of `t` lies between `t`'s minimum and
      maximum, and is one of them at 0 and at 100. */
  lemma PercentileOfArrangement(s: seq<real>, t: seq<real>, percentile: int)
    requires Sorted(s) && multiset(s) == multiset(t) && |t| > 0 && 0 <= percentile <= 100
    ensures |s| == |t|
    ensures MinOf(t) <= PercentileOf(s, percentile) <= MaxOf(t)
    ensures percentile == 0 ==> PercentileOf(s, percentile) == MinOf(t)
    ensures percentile == 100 ==> PercentileOf(s, percentile) == MaxOf(t)
  {
    SortedEnds(s, t);
    PercentileWithinRange(s, percentile);
  }

  class Monitor {
    /** `component_timers`: start instant of every running timer. */
    var componentTimers: map<string, real>
    /** `metrics`: the samples recorded under each `category:name` key. */
    var metrics: map<string, seq<Sample>>
    const thresholds: Thresholds
    const minSymbolsPerSecond: real

    constructor(thresholds: Thresholds, minSymbolsPerSecond: real)
      ensures componentTimers == map[] && metrics == map[]
      ensures this.thresholds == thresholds && this.minSymbolsPerSecond == minSymbolsPerSecond
    {
      componentTimers := map[];
      metrics := map[];
      this.thresholds := thresholds;
      this.minSymbolsPerSecond := minSymbolsPerSecond;
    }

    /** `start_timer`: remembers the start instant under a fresh id. */
    method StartTimer(component: string, operation: string, stamp: string, now: real)
      returns (timerId: string)
      modifies this`componentTimers
      ensures timerId == TimerId(component, operation, stamp)
      ensures componentTimers == old(componentTimers)[timerId := now]
    {
      timerId := component + ":" + operation + ":" + stamp;
      componentTimers := componentTimers[timerId := now];
    }

    /** `stop_timer`: an unknown id gives 0.0 and changes nothing; a known one is removed and
        its elapsed time recorded under `component:operation` from the id (see
        `TimerIdParts`), with the threshold check's alert. */
    method StopTimer(timerId: string, now: real, timestamp: int)
      returns (elapsed: real, alert: Option<PerfAlert>)
      modifies this`componentTimers, this`metrics
      ensures timerId !in old(componentTimers) ==>
                elapsed == 0.0 && alert.None? && componentTimers == old(componentTimers)
                && metrics == old(metrics)
      ensures timerId in old(componentTimers) ==>
                elapsed == now - old(componentTimers)[timerId]
                && componentTimers == old(componentTimers) - {timerId}
      ensures var parts := Split(timerId, ':');
              timerId in old(componentTimers) && |parts| >= 2 ==>
                metrics == Appended(old(metrics), parts[0] + ":" + parts[1],
                                    Timing(timestamp, elapsed))
                && alert == ExecutionAlert(thresholds, parts[0], parts[1], elapsed)
      ensures timerId in old(componentTimers) && |Split(timerId, ':')| < 2 ==>
                metrics == old(metrics) && alert.None?
    {
      if timerId !in componentTimers {
        return 0.0, None;
      }
      var start := componentTimers[timerId];
      componentTimers := componentTimers - {timerId};
      elapsed := now - start;
      var parts := Split(timerId, ':');
      alert := None;
      if |parts| >= 2 {
        alert := RecordOperationTime(parts[0], parts[1], elapsed, timestamp);
      }
    }

    /** `record_operation_time`: appends the time and answers with the threshold check. */
    method RecordOperationTime(component: string, operation: string, executionTime: real,
                               timestamp: int)
      returns (alert: Option<PerfAlert>)
      modifies this`metrics
      ensures metrics == Appended(old(metrics), component + ":" + operation,
                                  Timing(timestamp, executionTime))
      ensures alert == ExecutionAlert(thresholds, component, operation, executionTime)
    {
      metrics := Appended(metrics, component + ":" + operation, Timing(timestamp, executionTime));
      alert := ExecutionAlert(thresholds, component, operation, executionTime);
    }

    /** `record_metric`: appends a custom value under `category:name`. */
    method RecordMetric(category: string, name: string, value: real, timestamp: int)
      modifies this`metrics
      ensures metrics == Appended(old(metrics), category + ":" + name, Reading(timestamp, value))
    {
      metrics := Appended(metrics, category + ":" + name, Reading(timestamp, value));
    }

    /** `record_scan_performance`: records the scan time, the count and the throughput, and
        alerts when the throughput is below the minimum (always, for a scan time that is not
        positive, when the minimum is positive). */
    method RecordScanPerformance(symbolsCount: int, scanTime: real, timestamp: int)
      returns (alert: Option<PerfAlert>)
      modifies this`metrics
      ensures var sps := SymbolsPerSecond(symbolsCount, scanTime);
              metrics == Appended(Appended(Appended(old(metrics),
                                    "scanner:scan_time", Reading(timestamp, scanTime)),
                                    "scanner:symbols_count", Reading(timestamp, symbolsCount as real)),
                                    "scanner:symbols_per_second", Reading(timestamp, sps))
      ensures var sps := SymbolsPerSecond(symbolsCount, scanTime);
              (alert.Some? <==> sps < minSymbolsPerSecond)
              && (alert.Some? ==> alert.value == PerfAlert("Scanner Throughput", sps,
                                                           minSymbolsPerSecond,
                                                           LowThroughput(symbolsCount, scanTime)))
    {
      var sps := if scanTime > 0.0 then symbolsCount as real / scanTime else 0.0;
      assert "scanner" + ":" + "scan_time" == "scanner:scan_time";
      assert "scanner" + ":" + "symbols_count" == "scanner:symbols_count";
      assert "scanner" + ":" + "symbols_per_second" == "scanner:symbols_per_second";
      RecordMetric("scanner", "scan_time", scanTime, timestamp);
      RecordMetric("scanner", "symbols_count", symbolsCount as real, timestamp);
      RecordMetric("scanner", "symbols_per_second", sps, timestamp);
      alert := None;
      if sps < minSymbolsPerSecond {
        alert := Some(PerfAlert("Scanner Throughput", sps, minSymbolsPerSecond,
                                LowThroughput(symbolsCount, scanTime)));
      }
    }

    /** The `operations` and `components` parts of `get_metrics_summary`, keyed by category
        and name, as intended (see `KeyStats`): every key with a colon and with samples at or
        after `threshold` is reported with the statistics of those samples, and nothing else. */
    method GetMetricsSummary(threshold: int) returns (summary: map<(string, string), Stats>)
      ensures forall key :: Reported(metrics, key, threshold) ==>
                KeyParts(key) in summary
                && summary[KeyParts(key)]
                   == KeyStats(KeyParts(key).0, Recent(metrics[key], threshold))
      ensures forall p :: p in summary ==> Reported(metrics, p.0 + ":" + p.1, threshold)
    {
      summary := map[];
      var rest := metrics.Keys;
      while rest != {}
        invariant rest <= metrics.Keys
        invariant Summarises(metrics, metrics.Keys - rest, threshold, summary)
        decreases rest
      {
        var key :| key in rest;
        summary := SummarizeStep(metrics, metrics.Keys - rest, key, threshold, summary);
        assert metrics.Keys - (rest - {key}) == (metrics.Keys - rest) + {key};
        rest := rest - {key};
      }
    }
  }

  /** One pass of `get_metrics_summary`'s loop, on the key `key` not yet visited. */
  method SummarizeStep(metrics: map<string, seq<Sample>>, done: set<string>, key: string,
                       threshold: int, summary: map<(string, string), Stats>)
    returns (summary': map<(string, string), Stats>)
    requires key in metrics && key !in done
    requires Summarises(metrics, done, threshold, summary)
    ensures Summarises(metrics, done + {key}, threshold, summary')
  {
    summary' := summary;
    var recent := Recent(metrics[key], threshold);
    if |recent| > 0 && ':' in key {
      var (category, name) := KeyParts(key);
      var st := SummarizeKey(category, recent);
      summary' := summary[(category, name) := st];
      SummarisesInsert(metrics, done, key, threshold, summary);
    }
  }

  /** A reported key adds its own entry and disturbs no other. */
  lemma SummarisesInsert(metrics: map<string, seq<Sample>>, done: set<string>, key: string,
                         threshold: int, summary: map<(string, string), Stats>)
    requires key !in done && Reported(metrics, key, threshold)
    requires Summarises(metrics, done, threshold, summary)
    ensures Summarises(metrics, done + {key}, threshold,
                       summary[KeyParts(key) := KeyStats(KeyParts(key).0, Recent(metrics[key], threshold))])
  {
    var s' := summary[KeyParts(key) := KeyStats(KeyParts(key).0, Recent(metrics[key], threshold))];
    CoversInsert(metrics, done, key, threshold, summary);
    assert OnlyReported(metrics, done + {key}, threshold, s') by {
      forall p | p in s'
        ensures p.0 + ":" + p.1 in done + {key} && Reported(metrics, p.0 + ":" + p.1, threshold)
      {
        if p != KeyParts(key) {
          assert p in summary;
        }
      }
    }
  }

  lemma CoversInsert(metrics: map<string, seq<Sample>>, done: set<string>, key: string,
                     threshold: int, summary: map<(string, string), Stats>)
    requires key !in done && Reported(metrics, key, threshold)
    requires Covers(metrics, done, threshold, summary)
    ensures Covers(metrics, done + {key}, threshold,
                   summary[KeyParts(key) := KeyStats(KeyParts(key).0, Recent(metrics[key], threshold))])
  {
    var pk := KeyParts(key);
    var s' := summary[pk := KeyStats(pk.0, Recent(metrics[key], threshold))];
    forall k | k in done + {key} && Reported(metrics, k, threshold)
      ensures KeyParts(k) in s' && s'[KeyParts(k)] == KeyStats(KeyParts(k).0, Recent(metrics[k], threshold))
    {
      if k != key {
        if KeyParts(k) == pk {
          KeyPartsInjective(k, key);
        }
        assert s'[KeyParts(k)] == summary[KeyParts(k)];
      }
    }
  }
}
