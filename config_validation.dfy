/** `validateConfig` and `ValidationError` of `app_test.go`: three guarded checks on a
    configuration, the first failing one reported. */
module ConfigValidation {
  import opened Wrappers
  import opened Text
  import opened Numerals

  /** The fields of `Configuration` the checks read. */
  datatype Configuration = Configuration(
    minDte: int, maxDte: int,
    useIvRankFilter: bool, minIvRank: real, maxIvRank: real,
    scheduleEnabled: bool, startTimeUtc: string, stopTimeUtc: string)

  datatype ValidationError = ValidationError(field: string, message: string)

  /** `Error()`. */
  function ErrorText(e: ValidationError): (r: string)
    ensures IsPrefix("Validation error in " + e.field, r)
    ensures IsSuffix(": " + e.message, r)
    ensures |r| == 22 + |e.field| + |e.message|
  {
    "Validation error in " + e.field + ": " + e.message
  }

  const DteError := ValidationError("TradeTiming.MinDTE/MaxDTE",
                                    "MinDTE cannot be greater than MaxDTE")
  const IvRankError := ValidationError("OptionsFilters.MinIVRank/MaxIVRank",
                                       "MinIVRank cannot be greater than MaxIVRank")
  const StartError := ValidationError("TradingSchedule.StartTimeUTC",
                                      "Invalid time format, should be HH:MM")
  const StopError := ValidationError("TradingSchedule.StopTimeUTC",
                                     "Invalid time format, should be HH:MM")

  /** `validateConfig`: the DTE range first, then the IV-rank range when that filter is on,
      then the schedule times as "15:04" when the schedule is enabled; `None` when all
      pass. */
  function ValidateConfig(c: Configuration): (r: Option<ValidationError>)
    ensures r.None? <==> c.minDte <= c.maxDte
                         && (c.useIvRankFilter ==> c.minIvRank <= c.maxIvRank)
                         && (c.scheduleEnabled ==> ParseHourMinute(c.startTimeUtc).Some?
                                                   && ParseHourMinute(c.stopTimeUtc).Some?)
    ensures c.minDte > c.maxDte ==> r == Some(DteError)
    ensures c.minDte <= c.maxDte && c.useIvRankFilter && c.minIvRank > c.maxIvRank ==>
              r == Some(IvRankError)
    ensures !c.useIvRankFilter && !c.scheduleEnabled ==>
              (r.None? <==> c.minDte <= c.maxDte)
  {
    if c.minDte > c.maxDte then Some(DteError)
    else if c.useIvRankFilter && c.minIvRank > c.maxIvRank then Some(IvRankError)
    else if c.scheduleEnabled && ParseHourMinute(c.startTimeUtc).None? then Some(StartError)
    else if c.scheduleEnabled && ParseHourMinute(c.stopTimeUtc).None? then Some(StopError)
    else None
  }

  /** The fully populated sample configuration of the test validates. */
  lemma SampleConfigurationIsValid()
    ensures ValidateConfig(Configuration(0, 0, true, 25.0, 75.0, true, "13:30", "20:00")).None?
  {
    ParseFullHourMinute("13:30");
    ParseFullHourMinute("20:00");
  }

  /** The three failing cases of the test: an inverted DTE range, an inverted IV-rank range
      with the filter on, and the start time "25:30". */
  lemma FailingCasesAreRejected()
    ensures ValidateConfig(Configuration(90, 30, false, 0.0, 0.0, false, "", "")) == Some(DteError)
    ensures ValidateConfig(Configuration(0, 0, true, 80.0, 30.0, false, "", "")) == Some(IvRankError)
    ensures ValidateConfig(Configuration(0, 0, false, 0.0, 0.0, true, "25:30", "20:00"))
            == Some(StartError)
  {
    ParseFullHourMinute("25:30");
  }

  /** An hour below 24 and a two-digit minute below 60, written "H:MM", are accepted. */
  lemma ParseHourMinuteAccepts(h: nat, m: nat)
    requires h < 24 && m < 60
    ensures ParseHourMinute(IntToString(h) + ":" + [DigitChar(m / 10), DigitChar(m % 10)])
            == Some((h as int, m as int))
  {
    var sh := IntToString(h);
    NaturalString(h);
    var s := sh + ":" + [DigitChar(m / 10), DigitChar(m % 10)];
    var n := if h < 10 then 1 else 2;
    assert sh == (if h < 10 then [DigitChar(h)] else IntToString(h / 10) + [DigitChar(h % 10)]);
    assert s[..n] == sh && s[n..] == ":" + [DigitChar(m / 10), DigitChar(m % 10)];
    assert DigitsValue(s[n..][1..]) == m;
  }

  /** A time written "HH:MM" in full is read digit by digit. */
  lemma ParseFullHourMinute(s: string)
    requires |s| == 5 && s[2] == ':'
    requires IsDigit(s[0]) && IsDigit(s[1]) && IsDigit(s[3]) && IsDigit(s[4])
    ensures var h := 10 * DigitValue(s[0]) + DigitValue(s[1]);
            var m := 10 * DigitValue(s[3]) + DigitValue(s[4]);
            ParseHourMinute(s) == if h < 24 && m < 60 then Some((h, m)) else None
  {
    assert s[..2] == [s[0], s[1]] && s[2..][1..] == [s[3], s[4]];
    DigitPair(s[0], s[1]);
    DigitPair(s[3], s[4]);
  }

  lemma DigitPair(a: char, b: char)
    requires IsDigit(a) && IsDigit(b)
    ensures DigitsValue([a, b]) == 10 * DigitValue(a) + DigitValue(b)
  {
    assert [a, b][..1] == [a] && [a][..0] == [];
    assert DigitsValue([a]) == DigitValue(a);
  }
}
