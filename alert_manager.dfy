/** `AlertManager` of `app/alerts.py`: threshold checks on the metrics, and an alert history
    trimmed to the most recent 100 entries. What the e-mail and Slack senders report is an
    oracle, and the clock is a parameter. */
module AlertManager {
  import opened Wrappers

  const MaxHistory: nat := 100

  /** The `alerts` section of the configuration; `None` is a missing key. */
  datatype AlertsConfig = AlertsConfig(
    enableEmail: bool, emailTo: string, enableSlack: bool, slackWebhookUrl: string,
    maxLatencyMs: Option<real>, minDailyPnl: Option<real>, maxErrors: Option<int>)

  /** The metrics `check_metrics` looks at; `None` is a missing key (read as 0). */
  datatype Metrics = Metrics(maxLatencyMs: Option<real>, dailyPnl: Option<real>,
                             errorCount: Option<int>)

  datatype Alert = Alert(title: string, level: string, timestamp: int)

  function GetOr<T>(o: Option<T>, default: T): T {
    if o.Some? then o.value else default
  }

  /** The history after appending to `h`: its last `MaxHistory` entries. */
  function Trim(h: seq<Alert>): (r: seq<Alert>)
    ensures |r| == MinI(|h|, MaxHistory)
    ensures r == h[|h| - |r|..]
  {
    if |h| > MaxHistory then h[|h| - MaxHistory..] else h
  }

  /** Trimming after every append keeps the same entries as trimming once at the end. */
  lemma TrimAppend(h: seq<Alert>, a: Alert)
    ensures Trim(Trim(h) + [a]) == Trim(h + [a])
  {
    if |h| >= MaxHistory {
      var t := h[|h| - MaxHistory..];
      assert Trim(h) == t;
      assert Trim(t + [a]) == (t + [a])[1..];
      assert Trim(h + [a]) == (h + [a])[|h| + 1 - MaxHistory..];
      assert (t + [a])[1..] == h[|h| + 1 - MaxHistory..] + [a];
    }
  }

  /** What `check_metrics` raises: the alerts sent, in order, and whether it stopped with a
      `KeyError`. */
  datatype MetricCheck = MetricCheck(alerts: seq<(string, string)>, keyError: bool)

  /** Each check compares the metric, read as 0 when missing, strictly with its configured
      threshold (500 ms, -1000 and 5 errors by default). */
  predicate LatencyHigh(m: Metrics, c: AlertsConfig) {
    GetOr(m.maxLatencyMs, 0.0) > GetOr(c.maxLatencyMs, 500.0)
  }

  predicate PnlLow(m: Metrics, c: AlertsConfig) {
    GetOr(m.dailyPnl, 0.0) < GetOr(c.minDailyPnl, -1000.0)
  }

  predicate ErrorsHigh(m: Metrics, c: AlertsConfig) {
    GetOr(m.errorCount, 0) > GetOr(c.maxErrors, 5)
  }

  /** The alerts `check_metrics` raises, in its order. A check that fires on a missing metric
      (a threshold below the default 0) fails while formatting its message, which indexes
      the metric directly: the alerts before it stand and the later checks do not run. */
  function MetricAlerts(m: Metrics, c: AlertsConfig): (r: MetricCheck)
    ensures r.keyError <==>
              (LatencyHigh(m, c) && m.maxLatencyMs.None?)
              || (PnlLow(m, c) && m.dailyPnl.None?)
              || (ErrorsHigh(m, c) && m.errorCount.None?)
    ensures ("High Latency", "warning") in r.alerts
            <==> LatencyHigh(m, c) && m.maxLatencyMs.Some?
    ensures ("Daily P&L Alert", "danger") in r.alerts
            <==> PnlLow(m, c) && m.dailyPnl.Some?
                 && !(LatencyHigh(m, c) && m.maxLatencyMs.None?)
    ensures ("High Error Rate", "danger") in r.alerts
            <==> ErrorsHigh(m, c) && m.errorCount.Some?
                 && !(LatencyHigh(m, c) && m.maxLatencyMs.None?)
                 && !(PnlLow(m, c) && m.dailyPnl.None?)
    ensures m.maxLatencyMs.Some? && m.dailyPnl.Some? && m.errorCount.Some? ==> !r.keyError
    ensures |r.alerts| <= 3
  {
    if LatencyHigh(m, c) && m.maxLatencyMs.None? then MetricCheck([], true)
    else
      var first := When(LatencyHigh(m, c), ("High Latency", "warning"));
      if PnlLow(m, c) && m.dailyPnl.None? then MetricCheck(first, true)
      else
        var second := first + When(PnlLow(m, c), ("Daily P&L Alert", "danger"));
        if ErrorsHigh(m, c) && m.errorCount.None? then MetricCheck(second, true)
        else MetricCheck(second + When(ErrorsHigh(m, c), ("High Error Rate", "danger")), false)
  }

  function When<T>(b: bool, x: T): seq<T> {
    if b then [x] else []
  }

  /** Appends alerts to a history one by one, trimming after each. */
  function AppendAll(h: seq<Alert>, alerts: seq<(string, string)>, timestamp: int)
    : seq<Alert>
  {
    if |alerts| == 0 then h
    else AppendAll(h, alerts[..|alerts| - 1], timestamp)
         + [Alert(alerts[|alerts| - 1].0, alerts[|alerts| - 1].1, timestamp)]
  }

  class AlertManager {
    var config: AlertsConfig
    var history: seq<Alert>

    ghost predicate Valid()
      reads this
    {
      |history| <= MaxHistory
    }

    constructor(config: AlertsConfig)
      ensures Valid() && this.config == config && history == []
    {
      this.config := config;
      history := [];
    }

    /** `reload_config`. */
    method ReloadConfig(config: AlertsConfig)
      modifies this`config
      ensures this.config == config
    {
      this.config := config;
    }

    /** `send_alert`: the alert becomes the newest history entry and the history keeps only
        the most recent 100; the answer is whether an enabled channel with its target set
        reported delivery (`emailSent`, `slackSent`). */
    method SendAlert(title: string, level: string, timestamp: int, emailSent: bool,
                     slackSent: bool)
      returns (sent: bool)
      requires Valid()
      modifies this`history
      ensures Valid()
      ensures history == Trim(old(history) + [Alert(title, level, timestamp)])
      ensures history[|history| - 1] == Alert(title, level, timestamp)
      ensures sent <==> (config.enableEmail && config.emailTo != "" && emailSent)
                        || (config.enableSlack && config.slackWebhookUrl != "" && slackSent)
    {
      history := history + [Alert(title, level, timestamp)];
      if |history| > MaxHistory {
        history := history[|history| - MaxHistory..];
      }
      var channelsSent := 0;
      if config.enableEmail && config.emailTo != "" {
        if emailSent {
          channelsSent := channelsSent + 1;
        }
      }
      if config.enableSlack && config.slackWebhookUrl != "" {
        if slackSent {
          channelsSent := channelsSent + 1;
        }
      }
      return channelsSent > 0;
    }

    /** `check_metrics`: one alert per threshold crossed, appended in order, until a check
        fires on a missing metric and raises `KeyError` (`keyError`). Its delivery result is
        discarded. */
    method CheckMetrics(m: Metrics, timestamp: int) returns (keyError: bool)
      requires Valid()
      modifies this`history
      ensures Valid()
      ensures history == Trim(AppendAll(old(history), MetricAlerts(m, config).alerts, timestamp))
      ensures keyError == MetricAlerts(m, config).keyError
    {
      ghost var h0 := history;
      ghost var alerts: seq<(string, string)> := [];
      var high := GetOr(m.maxLatencyMs, 0.0) > GetOr(config.maxLatencyMs, 500.0);
      if high {
        if m.maxLatencyMs.None? {
          assert MetricAlerts(m, config) == MetricCheck([], true);
          return true;
        }
        RaiseAlert(h0, alerts, "High Latency", "warning", timestamp);
      }
      alerts := When(high, ("High Latency", "warning"));
      var low := GetOr(m.dailyPnl, 0.0) < GetOr(config.minDailyPnl, -1000.0);
      if low {
        if m.dailyPnl.None? {
          assert MetricAlerts(m, config) == MetricCheck(alerts, true);
          return true;
        }
        RaiseAlert(h0, alerts, "Daily P&L Alert", "danger", timestamp);
      } else {
        assert alerts + When(low, ("Daily P&L Alert", "danger")) == alerts;
      }
      alerts := alerts + When(low, ("Daily P&L Alert", "danger"));
      var errors := GetOr(m.errorCount, 0) > GetOr(config.maxErrors, 5);
      if errors {
        if m.errorCount.None? {
          assert MetricAlerts(m, config) == MetricCheck(alerts, true);
          return true;
        }
        RaiseAlert(h0, alerts, "High Error Rate", "danger", timestamp);
      } else {
        assert alerts + When(errors, ("High Error Rate", "danger")) == alerts;
      }
      alerts := alerts + When(errors, ("High Error Rate", "danger"));
      assert MetricAlerts(m, config) == MetricCheck(alerts, false);
      return false;
    }

    /** One `send_alert` of `check_metrics`, after `alerts` were raised on history `h0`. */
    method RaiseAlert(ghost h0: seq<Alert>, ghost alerts: seq<(string, string)>, title: string,
                      level: string, timestamp: int)
      requires Valid() && history == Trim(AppendAll(h0, alerts, timestamp))
      modifies this`history
      ensures Valid() && history == Trim(AppendAll(h0, alerts + [(title, level)], timestamp))
    {
      TrimAppend(AppendAll(h0, alerts, timestamp), Alert(title, level, timestamp));
      assert (alerts + [(title, level)])[..|alerts|] == alerts;
      var _ := SendAlert(title, level, timestamp, false, false);
    }

    /** `get_alert_history`: everything when no count is given or it covers the history,
        otherwise the last `count` entries (Python's slice makes a count of zero return
        everything too). */
    function GetAlertHistory(count: Option<int>): (r: seq<Alert>)
      reads this`history
      ensures count.None? || count.value >= |history| ==> r == history
      ensures count.Some? && 1 <= count.value < |history| ==>
                r == history[|history| - count.value..] && |r| == count.value
      ensures count == Some(0) ==> r == history
    {
      if count.None? || count.value >= |history| then history else PyTail(history, count.value)
    }
  }
}
