/** `AlertSystem` of `utils/alert_system.py`: severity normalisation and mapping, the alert
    text, delivery over the configured channels and the unbounded alert history. Delivery
    itself (SMTP, SMS, Slack) is an oracle: what each notifier's `send` returns. */
module SystemAlerts {
  import opened Wrappers
  import opened Text

  const Severities: set<string> := {"INFO", "WARNING", "HIGH", "CRITICAL"}

  /** An unknown severity becomes INFO. */
  function NormalizeSeverity(severity: string): (r: string)
    ensures r in Severities
    ensures severity in Severities ==> r == severity
    ensures severity !in Severities ==> r == "INFO"
  {
    if severity in Severities then severity else "INFO"
  }

  /** The channels used when the caller names none: the configured ones for the severity,
      or e-mail. */
  function DefaultChannels(severityChannels: map<string, seq<string>>, severity: string)
    : (r: seq<string>)
    ensures severity in severityChannels ==> r == severityChannels[severity]
    ensures severity !in severityChannels ==> r == ["email"]
  {
    if severity in severityChannels then severityChannels[severity] else ["email"]
  }

  /** `format_alert`: "[SEVERITY] timestamp - message", followed by a details line only
      when there are details (None and "" are both falsy). */
  function FormatAlert(message: string, details: Option<string>, severity: string,
                       timestamp: string): (r: string)
    ensures IsPrefix("[" + severity + "] " + timestamp + " - " + message, r)
    ensures details.Some? && details.value != "" ==> IsSuffix("\nDetails: " + details.value, r)
    ensures details.None? || details.value == "" ==>
              r == "[" + severity + "] " + timestamp + " - " + message
  {
    var head := "[" + severity + "] " + timestamp + " - " + message;
    if details.Some? && details.value != "" then head + "\nDetails: " + details.value else head
  }

  /** `send_trade_alert`'s severity: ERROR is HIGH, CLOSED and STOPPED are WARNING, the rest
      INFO. */
  function TradeSeverity(action: string): (r: string)
    ensures r in Severities && NormalizeSeverity(r) == r
    ensures r == "HIGH" <==> action == "ERROR"
    ensures r == "WARNING" <==> action in {"CLOSED", "STOPPED"}
  {
    if action == "ERROR" then "HIGH"
    else if action in {"CLOSED", "STOPPED"} then "WARNING"
    else "INFO"
  }

  /** `send_system_alert`'s severity: ERROR, FAILED and CRASHED are CRITICAL, WARNING is
      WARNING, the rest INFO. */
  function SystemSeverity(status: string): (r: string)
    ensures r in Severities && NormalizeSeverity(r) == r
    ensures r == "CRITICAL" <==> status in {"ERROR", "FAILED", "CRASHED"}
    ensures r == "WARNING" <==> status == "WARNING"
  {
    if status in {"ERROR", "FAILED", "CRASHED"} then "CRITICAL"
    else if status == "WARNING" then "WARNING"
    else "INFO"
  }

  /** Performance alerts are always WARNING and risk alerts always HIGH. */
  const PerformanceSeverity: string := "WARNING"
  const RiskSeverity: string := "HIGH"

  /** One entry of `alert_history`. */
  datatype AlertRecord = AlertRecord(timestamp: int, message: string, details: Option<string>,
                                     severity: string, channels: seq<string>, success: bool)

  /** The success flag as written: `send` is called on every configured requested channel and
      counts as success whether or not it reports delivery, since every notifier catches its
      own errors and only an exception would count as failure. */
  predicate DeliveredAsWritten(channels: seq<string>, configured: set<string>) {
    exists i :: 0 <= i < |channels| && channels[i] in configured
  }

  /** As documented: some configured requested channel reports that it delivered. */
  predicate Delivered(channels: seq<string>, configured: set<string>, sent: string -> bool) {
    exists i :: 0 <= i < |channels| && channels[i] in configured && sent(channels[i])
  }

  /** An SMTP failure is reported as success: with e-mail configured and its notifier
      returning False, the flag as written is true though nothing was delivered. */
  lemma FailedEmailCountsAsSent()
    ensures DeliveredAsWritten(["email"], {"email"})
    ensures !Delivered(["email"], {"email"}, _ => false)
  {
    assert ["email"][0] in {"email"};
  }

  class AlertSystem {
    /** `notification_channels`: the channels enabled in the configuration. */
    const configured: set<string>
    /** `SEVERITY_CHANNELS` (empty when the configuration has none). */
    const severityChannels: map<string, seq<string>>
    var history: seq<AlertRecord>

    /** `__init__` with `setup_channels`: e-mail, SMS and Slack as enabled. */
    constructor(useEmail: bool, useSms: bool, useSlack: bool,
                severityChannels: map<string, seq<string>>)
      ensures configured <= {"email", "sms", "slack"}
      ensures "email" in configured <==> useEmail
      ensures "sms" in configured <==> useSms
      ensures "slack" in configured <==> useSlack
      ensures this.severityChannels == severityChannels && history == []
    {
      configured := (if useEmail then {"email"} else {}) + (if useSms then {"sms"} else {})
                    + (if useSlack then {"slack"} else {});
      this.severityChannels := severityChannels;
      history := [];
    }

    /** `send_alert`: normalises the severity, picks the channels, sends through each
        configured one (`sent` is what that notifier's `send` returns) and appends exactly one
        record to the history, delivered or not. */
    method SendAlert(message: string, details: Option<string>, severity: string,
                     channels: Option<seq<string>>, sent: string -> bool, timestamp: int)
      returns (success: bool)
      modifies this`history
      ensures var sev := NormalizeSeverity(severity);
              var chans := if channels.Some? then channels.value
                           else DefaultChannels(severityChannels, sev);
              success == Delivered(chans, configured, sent)
              && history == old(history) + [AlertRecord(timestamp, message, details, sev, chans,
                                                        success)]
    {
      var sev := NormalizeSeverity(severity);
      var chans := if channels.Some? then channels.value else DefaultChannels(severityChannels, sev);
      success := false;
      var i := 0;
      while i < |chans|
        invariant 0 <= i <= |chans|
        invariant success == Delivered(chans[..i], configured, sent)
      {
        assert forall k :: 0 <= k < i ==> chans[..i + 1][k] == chans[..i][k];
        if chans[i] in configured && sent(chans[i]) {
          assert chans[..i + 1][i] == chans[i];
          success := true;
        }
        i := i + 1;
      }
      assert chans[..i] == chans;
      history := history + [AlertRecord(timestamp, message, details, sev, chans, success)];
    }

    /** `get_recent_alerts`: the last `count` alerts in order (all of them when there are
        fewer); Python's slice also makes a count of zero return everything. */
    function GetRecentAlerts(count: int): (r: seq<AlertRecord>)
      reads this`history
      ensures 1 <= count ==> r == history[|history| - MinI(count, |history|)..]
      ensures count == 0 ==> r == history
    {
      if |history| == 0 then [] else PyTail(history, count)
    }
  }
}
