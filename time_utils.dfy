/** The market-session helpers of `utils/time_utils.py`, stated on the Eastern-time fields of
    an instant (the conversion to US/Eastern is done by the caller). */
module TimeUtils {
  import opened Wrappers
  import opened Text

  /** An instant in US/Eastern time: a day number, its weekday (0 = Monday … 6 = Sunday)
      and the wall-clock time of day. */
  datatype EtTime = EtTime(day: int, weekday: int, hour: int, minute: int, second: int)

  predicate WellFormed(t: EtTime) {
    0 <= t.weekday < 7 && 0 <= t.hour < 24 && 0 <= t.minute < 60 && 0 <= t.second < 60
  }

  /** Seconds since midnight. */
  function ClockSeconds(t: EtTime): int {
    t.hour * 3600 + t.minute * 60 + t.second
  }

  function At(hour: int, minute: int): int {
    hour * 3600 + minute * 60
  }

  predicate IsWeekend(t: EtTime) {
    t.weekday >= 5
  }

  /** `is_market_open`: a weekday, from 09:30 inclusive to 16:00 exclusive. */
  function IsMarketOpen(t: EtTime): (r: bool)
    ensures WellFormed(t) ==>
              (r <==> t.weekday < 5 && (t.hour > 9 || (t.hour == 9 && t.minute >= 30))
                      && t.hour < 16)
  {
    !IsWeekend(t) && At(9, 30) <= ClockSeconds(t) < At(16, 0)
  }

  /** `is_premarket_open`: a weekday, from 04:00 inclusive to 09:30 exclusive. */
  function IsPremarketOpen(t: EtTime): (r: bool)
    ensures WellFormed(t) ==>
              (r <==> t.weekday < 5 && t.hour >= 4 && (t.hour < 9 || (t.hour == 9 && t.minute < 30)))
  {
    !IsWeekend(t) && At(4, 0) <= ClockSeconds(t) < At(9, 30)
  }

  /** `is_afterhours_open`: a weekday, from 16:00 inclusive to 20:00 exclusive. */
  function IsAfterhoursOpen(t: EtTime): (r: bool)
    ensures WellFormed(t) ==> (r <==> t.weekday < 5 && 16 <= t.hour < 20)
  {
    !IsWeekend(t) && At(16, 0) <= ClockSeconds(t) < At(20, 0)
  }

  /** No instant lies in two sessions, and none is in any session at the weekend. */
  lemma SessionsDisjoint(t: EtTime)
    ensures !(IsMarketOpen(t) && IsPremarketOpen(t))
    ensures !(IsMarketOpen(t) && IsAfterhoursOpen(t))
    ensures !(IsPremarketOpen(t) && IsAfterhoursOpen(t))
    ensures IsWeekend(t) ==> !IsMarketOpen(t) && !IsPremarketOpen(t) && !IsAfterhoursOpen(t)
  {
  }

  /** The days `get_next_market_open` and `get_next_market_close` add to today: to Monday at
      the weekend or on Friday from 16:00, to tomorrow on other days from 16:00, else none. */
  function DaysToNextSession(t: EtTime): (d: int)
    requires WellFormed(t)
    ensures 0 <= d <= 3
    ensures (t.weekday + d) % 7 < 5
    ensures t.weekday < 5 && t.hour < 16 ==> d == 0
    ensures d >= 2 ==> (t.weekday + 1) % 7 >= 5
    ensures d == 3 ==> (t.weekday + 2) % 7 >= 5
  {
    if t.weekday >= 5 || (t.weekday == 4 && ClockSeconds(t) >= At(16, 0)) then
      if t.weekday >= 5 then 7 - t.weekday else 3
    else if ClockSeconds(t) >= At(16, 0) then 1
    else 0
  }

  /** `get_next_market_open`: 09:30 on the day chosen by `DaysToNextSession`, always a
      weekday. On a weekday before 16:00 that is today's open, even once it has passed. */
  function NextMarketOpen(t: EtTime): (r: EtTime)
    requires WellFormed(t)
    ensures WellFormed(r) && r.weekday < 5
    ensures r.hour == 9 && r.minute == 30 && r.second == 0
    ensures t.day <= r.day <= t.day + 3
    ensures IsMarketOpen(r)
    ensures ClockSeconds(t) < At(16, 0) && t.weekday < 5 ==> r.day == t.day
  {
    var d := DaysToNextSession(t);
    EtTime(t.day + d, (t.weekday + d) % 7, 9, 30, 0)
  }

  /** `get_next_market_close`: 16:00 on the same day as `NextMarketOpen`. */
  function NextMarketClose(t: EtTime): (r: EtTime)
    requires WellFormed(t)
    ensures WellFormed(r) && r.weekday < 5
    ensures r.hour == 16 && r.minute == 0 && r.second == 0
    ensures r.day == NextMarketOpen(t).day && r.weekday == NextMarketOpen(t).weekday
    ensures !IsMarketOpen(r) && IsAfterhoursOpen(r)
  {
    var d := DaysToNextSession(t);
    EtTime(t.day + d, (t.weekday + d) % 7, 16, 0, 0)
  }

  /** The hours, minutes and seconds of `format_time_remaining`, by Python's floor `divmod`. */
  function TimeParts(totalSeconds: int): (p: (int, int, int))
    ensures p.0 * 3600 + p.1 * 60 + p.2 == totalSeconds
    ensures 0 <= p.1 < 60 && 0 <= p.2 < 60
    ensures totalSeconds >= 0 ==> p.0 >= 0
  {
    var hours := totalSeconds / 3600;
    var remainder := totalSeconds % 3600;
    (hours, remainder / 60, remainder % 60)
  }

  /** `format_time_remaining`: "<h>h <m>m <s>s" of the truncated total seconds. */
  function FormatTimeRemaining(totalSeconds: real): string
  {
    var p := TimeParts(Trunc(totalSeconds));
    IntToString(p.0) + "h " + IntToString(p.1) + "m " + IntToString(p.2) + "s"
  }

  /** The parts are unique: any decomposition with minutes and seconds below 60 is the one
      `TimeParts` computes. */
  lemma {:induction false} TimePartsUnique(totalSeconds: int, h: int, m: int, s: int)
    requires h * 3600 + m * 60 + s == totalSeconds && 0 <= m < 60 && 0 <= s < 60
    ensures TimeParts(totalSeconds) == (h, m, s)
  {
    var p := TimeParts(totalSeconds);
    assert (h - p.0) * 3600 == (p.1 * 60 + p.2) - (m * 60 + s);
  }
}
