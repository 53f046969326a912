/** `TradingScheduler.is_trading_time` of `python/src/app/scheduler.py`: the trading days and
    the start and end times of the `scheduling` settings, compared with the current time of
    the configured time zone as "HH:MM:SS" strings. Reading the clock in a time zone is an
    oracle (`localNow`); the registration of timed jobs with the `schedule` library is left
    out. */
module TradingScheduler {
  import opened Wrappers
  import opened Text

  const DefaultTradingDays: seq<string> := ["Monday", "Tuesday", "Wednesday", "Thursday", "Friday"]
  const DefaultStartTime: string := "09:30:00"
  const DefaultEndTime: string := "16:00:00"
  const DefaultTimezone: string := "America/New_York"

  /** The `scheduling` section; `None` is a missing key. */
  datatype SchedulingConfig = SchedulingConfig(
    tradingDays: Option<seq<string>>, tradingStartTime: Option<string>,
    tradingEndTime: Option<string>, timezone: Option<string>)

  /** The local day name (`%A`) and time of day in a time zone. */
  datatype LocalTime = LocalTime(dayName: string, hour: nat, minute: nat, second: nat)

  function GetOr<T>(o: Option<T>, default: T): T {
    if o.Some? then o.value else default
  }

  /** The zone the clock is read in: the configured one if the time zone database knows it,
      New York otherwise. */
  function ResolveZone(timezone: string, knownZones: set<string>): (z: string)
    ensures timezone in knownZones ==> z == timezone
    ensures timezone !in knownZones ==> z == DefaultTimezone
  {
    if timezone in knownZones then timezone else DefaultTimezone
  }

  /** Python's `a <= b` on strings: code point by code point, a proper prefix first. */
  predicate StrLe(a: string, b: string) {
    |a| == 0 || (|b| > 0 && (a[0] < b[0] || (a[0] == b[0] && StrLe(a[1..], b[1..]))))
  }

  /** Two decimal digits, as `%H`, `%M` and `%S` render numbers below 100. */
  function Two(n: int): (r: string)
    ensures |r| == 2
  {
    [DigitChar((n / 10) % 10), DigitChar(n % 10)]
  }

  /** `strftime("%H:%M:%S")`. */
  function Clock(t: LocalTime): (r: string)
    ensures |r| == 8
  {
    Two(t.hour) + ":" + Two(t.minute) + ":" + Two(t.second)
  }

  /** `is_trading_time` with the scheduling section `config` (`None` when it is missing) and
      `localNow(zone)` the current day and time in `zone`: false on a day not listed, and
      otherwise whether start <= "HH:MM:SS" <= end as strings, both ends included. */
  function IsTradingTime(config: Option<SchedulingConfig>, knownZones: set<string>,
                         localNow: string -> LocalTime): (r: bool)
    ensures var c := GetOr(config, SchedulingConfig(None, None, None, None));
            var now := localNow(ResolveZone(GetOr(c.timezone, DefaultTimezone), knownZones));
            var days := GetOr(c.tradingDays, DefaultTradingDays);
            (now.dayName !in days ==> !r)
            && (now.dayName in days ==>
                  (r <==> StrLe(GetOr(c.tradingStartTime, DefaultStartTime), Clock(now))
                          && StrLe(Clock(now), GetOr(c.tradingEndTime, DefaultEndTime))))
  {
    var c := GetOr(config, SchedulingConfig(None, None, None, None));
    var tradingDays := GetOr(c.tradingDays, DefaultTradingDays);
    var startTime := GetOr(c.tradingStartTime, DefaultStartTime);
    var endTime := GetOr(c.tradingEndTime, DefaultEndTime);
    var zone := ResolveZone(GetOr(c.timezone, DefaultTimezone), knownZones);
    var now := localNow(zone);
    if now.dayName !in tradingDays then false
    else
      var currentTime := Clock(now);
      StrLe(startTime, currentTime) && StrLe(currentTime, endTime)
  }

  predicate InRange(t: LocalTime) {
    t.hour < 24 && t.minute < 60 && t.second < 60
  }

  function Seconds(t: LocalTime): nat {
    t.hour * 3600 + t.minute * 60 + t.second
  }

  /** Zero-padded "HH:MM:SS" strings compare as the times they name. */
  lemma ClockOrder(a: LocalTime, b: LocalTime)
    requires InRange(a) && InRange(b)
    ensures StrLe(Clock(a), Clock(b)) <==> Seconds(a) <= Seconds(b)
  {
    var ta := ":" + Two(a.minute) + ":" + Two(a.second);
    var tb := ":" + Two(b.minute) + ":" + Two(b.second);
    assert Clock(a) == Two(a.hour) + ta && Clock(b) == Two(b.hour) + tb;
    TwoDigitOrder(a.hour, b.hour, ta, tb);
    var ua, ub := ":" + Two(a.second), ":" + Two(b.second);
    assert ta == [':'] + (Two(a.minute) + ua) && tb == [':'] + (Two(b.minute) + ub);
    assert StrLe(ta, tb) <==> StrLe(Two(a.minute) + ua, Two(b.minute) + ub);
    TwoDigitOrder(a.minute, b.minute, ua, ub);
    assert ua == [':'] + (Two(a.second) + "") && ub == [':'] + (Two(b.second) + "");
    assert StrLe(ua, ub) <==> StrLe(Two(a.second) + "", Two(b.second) + "");
    TwoDigitOrder(a.second, b.second, "", "");
  }

  /** Two-digit numbers followed by anything compare by the number first. */
  lemma TwoDigitOrder(a: nat, b: nat, x: string, y: string)
    requires a < 100 && b < 100
    ensures StrLe(Two(a) + x, Two(b) + y) <==> a < b || (a == b && StrLe(x, y))
  {
    var s, t := Two(a) + x, Two(b) + y;
    assert s[0] == DigitChar(a / 10) && t[0] == DigitChar(b / 10);
    assert s[1..][0] == DigitChar(a % 10) && t[1..][0] == DigitChar(b % 10);
    assert s[1..][1..] == x && t[1..][1..] == y;
  }

  /** With the defaults, a listed weekday trades exactly from 09:30:00 to 16:00:00 inclusive,
      and Saturday and Sunday never trade. */
  lemma DefaultSchedule(knownZones: set<string>, localNow: string -> LocalTime)
    requires InRange(localNow(DefaultTimezone))
    ensures var now := localNow(DefaultTimezone);
            IsTradingTime(None, knownZones, localNow)
            <==> now.dayName in DefaultTradingDays
                 && Seconds(LocalTime("", 9, 30, 0)) <= Seconds(now)
                 && Seconds(now) <= Seconds(LocalTime("", 16, 0, 0))
  {
    var now := localNow(DefaultTimezone);
    assert Clock(LocalTime("", 9, 30, 0)) == DefaultStartTime;
    assert Clock(LocalTime("", 16, 0, 0)) == DefaultEndTime;
    ClockOrder(LocalTime("", 9, 30, 0), now);
    ClockOrder(now, LocalTime("", 16, 0, 0));
  }
}
