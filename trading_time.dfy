/** The schedule check and the scheduler loop of `python/src/app/main.py`: whether the time
    of day lies within the configured start and stop times, and the start and stop signals
    the scheduler thread gives as that answer changes. The clock is a parameter (the time of
    day in microseconds since midnight), and so are the answers the loop observes. */
module TradingTime {
  import opened Wrappers
  import opened Text
  import opened Numerals
  import opened Seqs

  const MicrosPerMinute: int := 60_000_000

  /** `datetime.time(h, m)` of `map(int, s.split(":"))`: exactly two fields, each an integer
      for `int()`, hour 0-23 and minute 0-59. The answer is the minute of the day; anything
      else raises `ValueError` (`None`). */
  function ParseClock(s: string): (r: Option<int>)
    ensures r.Some? ==> 0 <= r.value < 24 * 60
  {
    var parts := Split(s, ':');
    if |parts| != 2 then None
    else
      ClockOf(PyInt(parts[0]), PyInt(parts[1]))
  }

  /** The minute of the day of an hour and a minute that `int()` read, if both are in
      range. */
  function ClockOf(h: Option<int>, m: Option<int>): (r: Option<int>)
    ensures r.Some? ==> 0 <= r.value < 24 * 60
  {
    if h.Some? && m.Some? && 0 <= h.value < 24 && 0 <= m.value < 60
    then Some(h.value * 60 + m.value)
    else None
  }

  /** "H:M" with H and M written in decimal parses as that minute of the day. */
  lemma ParseClockOfString(h: nat, m: nat)
    requires h < 24 && m < 60
    ensures ParseClock(IntToString(h) + ":" + IntToString(m)) == Some(h * 60 + m)
  {
    var sh, sm := IntToString(h), IntToString(m);
    SplitClock(h, m);
    PyIntOfString(h);
    PyIntOfString(m);
    ClockOfParts(sh + ":" + sm, sh, sm, h, m);
  }

  lemma SplitClock(h: nat, m: nat)
    ensures Split(IntToString(h) + ":" + IntToString(m), ':') == [IntToString(h), IntToString(m)]
  {
    var sh, sm := IntToString(h), IntToString(m);
    NoColonInNumber(h);
    NoColonInNumber(m);
    SplitCons(sh, sm, ':');
    assert sh + ":" + sm == sh + [':'] + sm;
    assert Split(sm, ':') == [sm];
  }

  lemma NoColonInNumber(n: nat)
    ensures ':' !in IntToString(n)
  {
    NaturalString(n);
    var s := IntToString(n);
    assert forall i :: 0 <= i < |s| ==> IsDigit(s[i]);
  }

  lemma ClockOfParts(s: string, a: string, b: string, h: nat, m: nat)
    requires h < 24 && m < 60
    requires Split(s, ':') == [a, b] && PyInt(a) == Some(h) && PyInt(b) == Some(m)
    ensures ParseClock(s) == Some(h * 60 + m)
  {
    var parts := Split(s, ':');
    assert |parts| == 2 && parts[0] == a && parts[1] == b;
    assert ParseClock(s) == ClockOf(Some(h), Some(m));
  }

  /** `is_trading_time`. With neither automatic start nor automatic stop it always trades;
      a start or stop time that does not parse also means trading; otherwise `now` must be
      at or after the start (when automatic start is on) and at or before the stop (when
      automatic stop is on), both times taken at second 0 of their minute. */
  function IsTradingTime(startEnabled: bool, stopEnabled: bool, startTime: string,
                         stopTime: string, now: int): (r: bool)
    ensures !startEnabled && !stopEnabled ==> r
    ensures ParseClock(startTime).None? || ParseClock(stopTime).None? ==> r
    ensures ParseClock(startTime).Some? && ParseClock(stopTime).Some? ==>
              (r <==> (startEnabled ==> ParseClock(startTime).value * MicrosPerMinute <= now)
                      && (stopEnabled ==> now <= ParseClock(stopTime).value * MicrosPerMinute))
  {
    if !startEnabled && !stopEnabled then true
    else
      match (ParseClock(startTime), ParseClock(stopTime))
      case (Some(start), Some(stop)) =>
        var startAt, stopAt := start * MicrosPerMinute, stop * MicrosPerMinute;
        if startEnabled && stopEnabled then startAt <= now <= stopAt
        else if startEnabled then startAt <= now
        else now <= stopAt
      case _ => true
  }

  /** The trading times of a day form one interval: whatever lies between two trading times
      trades too. */
  lemma TradingWindowIsInterval(startEnabled: bool, stopEnabled: bool, startTime: string,
                                stopTime: string, a: int, b: int, c: int)
    requires a <= b <= c
    requires IsTradingTime(startEnabled, stopEnabled, startTime, stopTime, a)
    requires IsTradingTime(startEnabled, stopEnabled, startTime, stopTime, c)
    ensures IsTradingTime(startEnabled, stopEnabled, startTime, stopTime, b)
  {
  }

  /** The stop minute is closed at its first microsecond: with automatic stop on, one
      microsecond after "H:M" no longer trades. */
  lemma StopIsInclusiveOnlyAtSecondZero(startEnabled: bool, startTime: string, h: nat, m: nat)
    requires h < 24 && m < 60 && ParseClock(startTime).Some?
    ensures IsTradingTime(startEnabled, true, startTime, IntToString(h) + ":" + IntToString(m),
                          (h * 60 + m) * MicrosPerMinute + 1) == false
  {
    ParseClockOfString(h, m);
  }

  /** What one pass of the scheduler loop does to the trading event. */
  datatype Signal = Start | Stop | Keep

  /** The status after a sequence of observed answers: true at first, then the last
      answer. */
  function StatusAfter(answers: seq<bool>): bool {
    if |answers| == 0 then true else answers[|answers| - 1]
  }

  /** The signals for a sequence of answers of `is_trading_time`: a start when the answer
      turns true, a stop when it turns false, nothing otherwise. */
  function Signals(answers: seq<bool>): (r: seq<Signal>)
    ensures |r| == |answers|
  {
    if |answers| == 0 then []
    else
      var before := answers[..|answers| - 1];
      var now := answers[|answers| - 1];
      Signals(before)
      + [if now && !StatusAfter(before) then Start
         else if !now && StatusAfter(before) then Stop
         else Keep]
  }

  /** `scheduler_thread`, over the answers `is_trading_time` gives on successive passes: the
      event is set exactly when the answer goes from false to true and cleared exactly when
      it goes from true to false. */
  method SchedulerThread(answers: seq<bool>) returns (signals: seq<Signal>, status: bool)
    ensures signals == Signals(answers) && status == StatusAfter(answers)
    ensures forall i :: 0 <= i < |answers| ==>
              (signals[i] == Start <==> answers[i] && !StatusAfter(answers[..i]))
    ensures forall i :: 0 <= i < |answers| ==>
              (signals[i] == Stop <==> !answers[i] && StatusAfter(answers[..i]))
  {
    var tradingStatus := true;
    signals := [];
    var i := 0;
    while i < |answers|
      invariant 0 <= i <= |answers|
      invariant signals == Signals(answers[..i]) && tradingStatus == StatusAfter(answers[..i])
    {
      assert answers[..i + 1][..i] == answers[..i];
      var shouldTrade := answers[i];
      if shouldTrade && !tradingStatus {
        signals := signals + [Start];
        tradingStatus := true;
      } else if !shouldTrade && tradingStatus {
        signals := signals + [Stop];
        tradingStatus := false;
      } else {
        signals := signals + [Keep];
      }
      i := i + 1;
    }
    assert answers[..i] == answers;
    status := tradingStatus;
    SignalsMeaning(answers);
  }

  /** Each signal compares its answer with the status the answers before it left. */
  lemma {:induction false} SignalsMeaning(answers: seq<bool>)
    ensures forall i :: 0 <= i < |answers| ==>
              (Signals(answers)[i] == Start <==> answers[i] && !StatusAfter(answers[..i]))
              && (Signals(answers)[i] == Stop <==> !answers[i] && StatusAfter(answers[..i]))
  {
    if |answers| > 0 {
      var n := |answers| - 1;
      var before := answers[..n];
      SignalsMeaning(before);
      forall i | 0 <= i < n
        ensures Signals(answers)[i] == Signals(before)[i] && answers[..i] == before[..i]
      {
      }
    }
  }

  function Changes(signals: seq<Signal>): seq<Signal> {
    Filter(signals, (s: Signal) => s != Keep)
  }

  /** The event is never set twice or cleared twice in a row: the changes alternate, the
      first one being a stop (trading starts as on), and the status is on exactly after an
      even number of changes. */
  lemma {:induction false} SignalsAlternate(answers: seq<bool>)
    ensures var c := Changes(Signals(answers));
            (forall i :: 0 <= i < |c| ==> c[i] == (if i % 2 == 0 then Stop else Start))
            && (StatusAfter(answers) <==> |c| % 2 == 0)
  {
    if |answers| > 0 {
      var before := answers[..|answers| - 1];
      SignalsAlternate(before);
      var s := Signals(before);
      var x := Signals(answers)[|answers| - 1];
      assert Signals(answers) == s + [x];
      FilterSnoc(s, x, (s: Signal) => s != Keep);
    }
  }
}
