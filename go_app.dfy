/** The trading-hours check and the test-alert channel validation of the Go `App` in
    `app.go`. The clock is a parameter: the weekday (Sunday is 0, Saturday 6) and the hour
    and minute of the local time. */
module GoApp {
  import opened Wrappers
  import opened Text
  import opened Numerals

  /** The `Schedule` settings the check reads. */
  datatype Schedule = Schedule(weekendTrading: bool, tradingStartTime: string,
                               tradingEndTime: string)

  /** A "H:M" setting as the check values it: H * 60 + M, where a number `%d` cannot read
      stays 0. */
  function Minutes(s: string): (r: int)
    ensures ScanInt(s).None? ==> r == 0
  {
    var p := ScanPair(s);
    p.0 * 60 + p.1
  }

  /** "H:M" written in decimal is valued at its minute of the day. */
  lemma MinutesOfString(h: nat, m: nat)
    ensures Minutes(IntToString(h) + ":" + IntToString(m)) == h * 60 + m
  {
    ScanPairOfString(h, m);
  }

  /** `isTradingHours`: false on Saturday and Sunday unless weekend trading is on, and
      otherwise whether the current minute lies between the start and end minutes, both
      included. */
  function IsTradingHours(schedule: Schedule, weekday: int, hour: int, minute: int)
    : (r: bool)
    ensures (weekday == 0 || weekday == 6) && !schedule.weekendTrading ==> !r
    ensures !((weekday == 0 || weekday == 6) && !schedule.weekendTrading) ==>
              (r <==> Minutes(schedule.tradingStartTime) <= hour * 60 + minute
                      <= Minutes(schedule.tradingEndTime))
  {
    if (weekday == 6 || weekday == 0) && !schedule.weekendTrading then false
    else
      var current := hour * 60 + minute;
      current >= Minutes(schedule.tradingStartTime)
      && current <= Minutes(schedule.tradingEndTime)
  }

  /** An end time `%d` cannot read counts as minute 0, so on such a schedule only midnight
      (or a negative start) can be trading hours. */
  lemma UnreadableEndClosesDay(schedule: Schedule, weekday: int, hour: nat, minute: nat)
    requires ScanInt(schedule.tradingEndTime).None?
    requires IsTradingHours(schedule, weekday, hour, minute)
    ensures hour == 0 && minute == 0
  {
  }

  /** The notification settings `TestAlertNotification` reads. */
  datatype Notifications = Notifications(emailEnabled: bool, emailRecipients: seq<string>,
                                         slackEnabled: bool, slackWebhookUrl: string)

  /** `TestAlertNotification`: the error for a channel that cannot be used, `None` when the
      (simulated) notification goes out. */
  function TestAlertNotification(n: Notifications, channelType: string): (r: Option<string>)
    ensures r.None? <==> (channelType == "email" && n.emailEnabled && |n.emailRecipients| > 0)
                         || (channelType == "slack" && n.slackEnabled && n.slackWebhookUrl != "")
    ensures channelType == "email" && !n.emailEnabled ==>
              r == Some("email notifications are not enabled")
    ensures channelType == "email" && n.emailEnabled && |n.emailRecipients| == 0 ==>
              r == Some("no email recipients configured")
    ensures channelType == "slack" && !n.slackEnabled ==>
              r == Some("slack notifications are not enabled")
    ensures channelType == "slack" && n.slackEnabled && n.slackWebhookUrl == "" ==>
              r == Some("slack webhook URL not configured")
    ensures channelType != "email" && channelType != "slack" ==>
              r == Some("unsupported notification channel: " + channelType)
  {
    if channelType == "email" then
      if !n.emailEnabled then Some("email notifications are not enabled")
      else if |n.emailRecipients| == 0 then Some("no email recipients configured")
      else None
    else if channelType == "slack" then
      if !n.slackEnabled then Some("slack notifications are not enabled")
      else if n.slackWebhookUrl == "" then Some("slack webhook URL not configured")
      else None
    else Some("unsupported notification channel: " + channelType)
  }
}
