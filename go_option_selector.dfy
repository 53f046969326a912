/** The Go option selector of `TraderAdmin/go_examples/option_selector.go`: option and spread
    filters, event avoidance around an expiry, the dynamic target DTE, the choice of the
    expiry and the put vertical built around the middle strike. Instants are whole seconds
    (`time.Time`'s zero value is `None`); the clock and `math.Sqrt` are parameters. */
module GoOptionSelector {
  import opened Wrappers
  import opened Seqs

  /** `math.MaxFloat64`, the spread percentage of an option whose mid price is zero. */
  const MaxFloat64: real := 179769313486231570814527423731704356798070567525844996598917476803157260780028538760589558632766878171540458953514382464234321326889464182768467546703537516986049910576551282076245490090389328944075868508455133942304583236903222948165808559332123348274797826204144723168738177180919299881250404026184124858368.0

  /** `math.MaxInt32`, the starting distance of `FindBestExpiration`. */
  const MaxInt32: int := 2147483647

  const SecondsPerDay: int := 86400

  datatype OptionFilter = OptionFilter(
    minOpenInterest: int, maxBidAskSpreadPct: real, minIvRank: real, maxIvRank: real,
    minCallPutSkewPct: real, maxThetaPerDay: real, maxVegaExposure: real,
    maxGammaExposure: real, minPop: real, maxWidthVsMovePct: real, skipEarningsDays: int,
    skipExDivDays: int, useDynamicDte: bool, dteCoefficient: real)

  datatype GoOption = GoOption(
    symbol: string, expiry: int, strike: real, optType: string, bid: real, ask: real,
    iv: real, ivPercentile: real, delta: real, gamma: real, theta: real, vega: real,
    openInterest: int, volume: int)

  datatype GoSpread = GoSpread(
    symbol: string, spreadType: string, legs: seq<GoOption>, totalDelta: real,
    totalGamma: real, totalTheta: real, totalVega: real, thetaPerDay: real, width: real,
    maxProfit: real, maxLoss: real, modelPop: real)

  /** `GetBidAskSpreadPct`: the bid-ask spread as a percentage of the mid price, and the
      largest float when the mid price is zero. */
  function BidAskSpreadPct(o: GoOption): (r: real)
    ensures o.bid + o.ask == 0.0 ==> r == MaxFloat64
    ensures o.bid + o.ask != 0.0 ==> r * (o.bid + o.ask) == 200.0 * (o.ask - o.bid)
  {
    var mid := (o.bid + o.ask) / 2.0;
    if mid == 0.0 then MaxFloat64 else 100.0 * (o.ask - o.bid) / mid
  }

  /** `FilterOption`: the liquidity, spread, IV-rank and single-option greek checks, in
      order; an option passes exactly when it passes all of them. */
  function FilterOption(o: GoOption, f: OptionFilter): (r: bool)
    ensures r <==> o.openInterest >= f.minOpenInterest
                   && BidAskSpreadPct(o) <= f.maxBidAskSpreadPct
                   && f.minIvRank <= o.ivPercentile <= f.maxIvRank
                   && Abs(o.theta) <= f.maxThetaPerDay && Abs(o.vega) <= f.maxVegaExposure
                   && Abs(o.gamma) <= f.maxGammaExposure
  {
    if o.openInterest < f.minOpenInterest then false
    else if BidAskSpreadPct(o) > f.maxBidAskSpreadPct then false
    else if o.ivPercentile < f.minIvRank || o.ivPercentile > f.maxIvRank then false
    else if Abs(o.theta) > f.maxThetaPerDay then false
    else if Abs(o.vega) > f.maxVegaExposure then false
    else if Abs(o.gamma) > f.maxGammaExposure then false
    else true
  }

  /** `f2` asks at least as much as `f1` of every option and spread. */
  predicate AtLeastAsStrict(f2: OptionFilter, f1: OptionFilter) {
    f2.minOpenInterest >= f1.minOpenInterest && f2.maxBidAskSpreadPct <= f1.maxBidAskSpreadPct
    && f2.minIvRank >= f1.minIvRank && f2.maxIvRank <= f1.maxIvRank
    && f2.maxThetaPerDay <= f1.maxThetaPerDay && f2.maxVegaExposure <= f1.maxVegaExposure
    && f2.maxGammaExposure <= f1.maxGammaExposure && f2.minPop >= f1.minPop
    && f2.maxWidthVsMovePct <= f1.maxWidthVsMovePct
  }

  /** `100 * width / expectedMove > MaxWidthVsMovePct` in float arithmetic: a zero move
      makes a positive width +Inf (rejected) and a zero or negative width NaN or -Inf (not
      rejected). */
  predicate WidthWithinMove(width: real, expectedMove: real, maxPct: real) {
    if expectedMove == 0.0 then width <= 0.0 else 100.0 * width / expectedMove <= maxPct
  }

  /** `FilterSpread`: probability of profit, width against the expected move and the
      aggregate greeks, in order; a spread passes exactly when it passes all of them. */
  function FilterSpread(s: GoSpread, f: OptionFilter, expectedMove: real): (r: bool)
    ensures r <==> s.modelPop >= f.minPop
                   && WidthWithinMove(s.width, expectedMove, f.maxWidthVsMovePct)
                   && Abs(s.thetaPerDay) <= f.maxThetaPerDay
                   && Abs(s.totalVega) <= f.maxVegaExposure
                   && Abs(s.totalGamma) <= f.maxGammaExposure
  {
    if s.modelPop < f.minPop then false
    else if !WidthWithinMove(s.width, expectedMove, f.maxWidthVsMovePct) then false
    else if Abs(s.thetaPerDay) > f.maxThetaPerDay then false
    else if Abs(s.totalVega) > f.maxVegaExposure then false
    else if Abs(s.totalGamma) > f.maxGammaExposure then false
    else true
  }

  /** Tightening the filter never lets more options or spreads through. */
  lemma StricterFilterAdmitsLess(o: GoOption, s: GoSpread, f2: OptionFilter, f1: OptionFilter,
                                 expectedMove: real)
    requires AtLeastAsStrict(f2, f1)
    ensures FilterOption(o, f2) ==> FilterOption(o, f1)
    ensures FilterSpread(s, f2, expectedMove) ==> FilterSpread(s, f1, expectedMove)
  {
    if expectedMove != 0.0 && FilterSpread(s, f2, expectedMove) {
      assert 100.0 * s.width / expectedMove <= f1.maxWidthVsMovePct;
    }
  }

  /** Whole days between two instants, either way round (`int(|Δ|.Hours() / 24)`). */
  function DaysApart(a: int, b: int): nat {
    if a >= b then (a - b) / SecondsPerDay else (b - a) / SecondsPerDay
  }

  /** `SkipExpirationForEvents`: an expiry is skipped exactly when a set earnings date, or a
      set ex-dividend date, lies within the configured number of whole days of it. */
  function SkipExpirationForEvents(expiry: int, earnings: Option<int>, exDiv: Option<int>,
                                   f: OptionFilter): (r: bool)
    ensures r <==> (earnings.Some? && DaysApart(earnings.value, expiry) <= f.skipEarningsDays)
                   || (exDiv.Some? && DaysApart(exDiv.value, expiry) <= f.skipExDivDays)
  {
    if earnings.Some? && DaysApart(earnings.value, expiry) <= f.skipEarningsDays then true
    else if exDiv.Some? && DaysApart(exDiv.value, expiry) <= f.skipExDivDays then true
    else false
  }

  /** An event the same number of seconds before or after an expiry skips it alike. */
  lemma SkipIsSymmetric(expiry: int, d: int, f: OptionFilter)
    ensures SkipExpirationForEvents(expiry, Some(expiry + d), None, f)
            == SkipExpirationForEvents(expiry, Some(expiry - d), None, f)
    ensures SkipExpirationForEvents(expiry, None, Some(expiry + d), f)
            == SkipExpirationForEvents(expiry, None, Some(expiry - d), f)
  {
  }

  /** `GetTargetDTE`: zero when dynamic DTE is off, otherwise ATR times the coefficient
      truncated toward zero. */
  function GetTargetDte(atr: real, f: OptionFilter): (r: int)
    ensures !f.useDynamicDte ==> r == 0
    ensures f.useDynamicDte ==>
              Abs(r as real) <= Abs(atr * f.dteCoefficient) < Abs(r as real) + 1.0
              && (r != 0 ==> (r > 0 <==> atr * f.dteCoefficient > 0.0))
  {
    if !f.useDynamicDte then 0 else Trunc(atr * f.dteCoefficient)
  }

  /** How far an expiry's DTE (`int(Δ.Hours() / 24)`, truncated toward zero) is from the
      target, as compared by `FindBestExpiration`: distances of `MaxInt32` or more never beat
      its starting value. */
  function CappedDistance(expiry: int, now: int, targetDte: int): (d: int)
    ensures 0 <= d <= MaxInt32
  {
    var dte := Trunc((expiry - now) as real / SecondsPerDay as real);
    var diff := if dte >= targetDte then dte - targetDte else targetDte - dte;
    MinI(diff, MaxInt32)
  }

  /** `FindBestExpiration`: nothing (the zero time) for no expirations; otherwise the first
      expiration, in the order given, whose DTE is closest to the target. */
  method FindBestExpiration(expirations: seq<int>, targetDte: int, now: int)
    returns (best: Option<int>, ghost index: nat)
    ensures expirations == [] <==> best.None?
    ensures best.Some? ==>
              index < |expirations| && best.value == expirations[index]
              && (forall j :: 0 <= j < |expirations| ==>
                    CappedDistance(best.value, now, targetDte)
                    <= CappedDistance(expirations[j], now, targetDte))
              && (forall j :: 0 <= j < index ==>
                    CappedDistance(expirations[j], now, targetDte)
                    > CappedDistance(best.value, now, targetDte))
  {
    index := 0;
    if |expirations| == 0 {
      return None, index;
    }
    var closest := expirations[0];
    var minDiff := MaxInt32;
    var i := 0;
    while i < |expirations|
      invariant 0 <= i <= |expirations| && index < |expirations|
      invariant closest == expirations[index]
      invariant i == 0 ==> index == 0 && minDiff == MaxInt32
      invariant i > 0 ==> index < i && minDiff == CappedDistance(closest, now, targetDte)
      invariant forall j :: 0 <= j < i ==> minDiff <= CappedDistance(expirations[j], now, targetDte)
      invariant forall j :: 0 <= j < index ==> CappedDistance(expirations[j], now, targetDte) > minDiff
    {
      var exp := expirations[i];
      var dte := Trunc((exp - now) as real / SecondsPerDay as real);
      var diff := if dte >= targetDte then dte - targetDte else targetDte - dte;
      if diff < minDiff {
        minDiff := diff;
        closest := exp;
        index := i;
      }
      i := i + 1;
    }
    return Some(closest), index;
  }

  /** The distinct expiries of a chain. */
  function Expiries(options: seq<GoOption>): set<int> {
    set o | o in options :: o.expiry
  }

  /** The expiries of the chain that no event rules out, each once, in the (unspecified)
      iteration order of Go's map. */
  method UnskippedExpirations(options: seq<GoOption>, earnings: Option<int>, exDiv: Option<int>,
                              f: OptionFilter)
    returns (dates: seq<int>)
    ensures forall e :: e in dates <==>
              e in Expiries(options) && !SkipExpirationForEvents(e, earnings, exDiv, f)
  {
    var expirations: set<int> := {};
    var i := 0;
    while i < |options|
      invariant 0 <= i <= |options|
      invariant expirations == Expiries(options[..i])
    {
      assert options[..i + 1] == options[..i] + [options[i]];
      expirations := expirations + {options[i].expiry};
      i := i + 1;
    }
    assert options[..i] == options;
    dates := [];
    var rest := expirations;
    while rest != {}
      invariant rest <= expirations
      invariant forall e :: e in dates <==>
                  e in expirations - rest && !SkipExpirationForEvents(e, earnings, exDiv, f)
      decreases rest
    {
      var exp :| exp in rest;
      if !SkipExpirationForEvents(exp, earnings, exDiv, f) {
        dates := dates + [exp];
      }
      rest := rest - {exp};
    }
  }

  /** An option that may form the put spread: a put (any type other than "call") at the chosen
      expiry that passes the option filter. */
  predicate EligiblePut(o: GoOption, f: OptionFilter, expiry: int) {
    o.expiry == expiry && FilterOption(o, f) && o.optType != "call"
  }

  /** The strikes of the eligible puts of a chain. */
  function PutStrikes(options: seq<GoOption>, f: OptionFilter, expiry: int): set<real> {
    set o | o in options && EligiblePut(o, f, expiry) :: o.strike
  }

  /** The options at the chosen expiry that pass the option filter, in chain order. */
  function Filtered(options: seq<GoOption>, f: OptionFilter, expiry: int): seq<GoOption> {
    if |options| == 0 then []
    else
      var o := options[|options| - 1];
      Filtered(options[..|options| - 1], f, expiry)
      + (if o.expiry == expiry && FilterOption(o, f) then [o] else [])
  }

  /** The Go map `puts` after assigning each non-call option of `valid` at its strike. */
  function PutsOf(valid: seq<GoOption>): map<real, GoOption> {
    if |valid| == 0 then map[]
    else
      var o := valid[|valid| - 1];
      var m := PutsOf(valid[..|valid| - 1]);
      if o.optType != "call" then m[o.strike := o] else m
  }

  /** One more option of the chain updates the grouped puts exactly when it is an eligible
      put. */
  lemma GroupSnoc(options: seq<GoOption>, o: GoOption, f: OptionFilter, expiry: int)
    ensures PutsOf(Filtered(options + [o], f, expiry))
            == if EligiblePut(o, f, expiry) then PutsOf(Filtered(options, f, expiry))[o.strike := o]
               else PutsOf(Filtered(options, f, expiry))
  {
    assert (options + [o])[..|options|] == options;
    var v := Filtered(options, f, expiry);
    if o.expiry == expiry && FilterOption(o, f) {
      assert (v + [o])[..|v|] == v;
    } else {
      assert v + [] == v;
    }
  }

  /** The grouped puts have exactly the strikes of the chain's eligible puts. */
  lemma {:induction false} PutsKeys(options: seq<GoOption>, f: OptionFilter, expiry: int)
    ensures PutsOf(Filtered(options, f, expiry)).Keys == PutStrikes(options, f, expiry)
  {
    if |options| > 0 {
      var n := |options| - 1;
      var xs, x := options[..n], options[n];
      assert options == xs + [x];
      PutsKeys(xs, f, expiry);
      GroupSnoc(xs, x, f, expiry);
      StrikesSnoc(xs, x, f, expiry);
    }
  }

  /** One more option adds its strike to the eligible strikes exactly when it is an eligible
      put. */
  lemma StrikesSnoc(xs: seq<GoOption>, x: GoOption, f: OptionFilter, expiry: int)
    ensures PutStrikes(xs + [x], f, expiry)
            == PutStrikes(xs, f, expiry) + (if EligiblePut(x, f, expiry) then {x.strike} else {})
  {
    var options := xs + [x];
    var extra: set<real> := if EligiblePut(x, f, expiry) then {x.strike} else {};
    forall k | k in PutStrikes(options, f, expiry)
      ensures k in PutStrikes(xs, f, expiry) + extra
    {
      var o :| o in options && EligiblePut(o, f, expiry) && o.strike == k;
      if o != x {
        assert o in xs;
      }
    }
    forall k | k in PutStrikes(xs, f, expiry)
      ensures k in PutStrikes(options, f, expiry)
    {
      var o :| o in xs && EligiblePut(o, f, expiry) && o.strike == k;
      assert o in options;
    }
    assert PutStrikes(options, f, expiry) == PutStrikes(xs, f, expiry) + extra;
  }

  /** Each strike of the grouped puts holds the last eligible put of the chain at that
      strike: a Go map assignment replaces the earlier one. */
  lemma {:induction false} PutsAreLast(options: seq<GoOption>, f: OptionFilter, expiry: int)
    ensures var m := PutsOf(Filtered(options, f, expiry));
            forall k :: k in m ==>
              exists i :: 0 <= i < |options| && options[i] == m[k] && EligiblePut(m[k], f, expiry)
                          && m[k].strike == k
                          && forall j :: i < j < |options| && EligiblePut(options[j], f, expiry) ==>
                                          options[j].strike != k
  {
    if |options| > 0 {
      var n := |options| - 1;
      var xs, x := options[..n], options[n];
      assert options == xs + [x];
      PutsAreLast(xs, f, expiry);
      GroupSnoc(xs, x, f, expiry);
      var before := PutsOf(Filtered(xs, f, expiry));
      var m := PutsOf(Filtered(options, f, expiry));
      forall k | k in m
        ensures exists i :: 0 <= i < |options| && options[i] == m[k] && EligiblePut(m[k], f, expiry)
                            && m[k].strike == k
                            && forall j :: i < j < |options| && EligiblePut(options[j], f, expiry) ==>
                                            options[j].strike != k
      {
        if EligiblePut(x, f, expiry) && k == x.strike {
          assert options[n] == m[k];
        } else {
          assert k in before && m[k] == before[k];
          var i :| 0 <= i < |xs| && xs[i] == before[k] && EligiblePut(before[k], f, expiry)
                   && before[k].strike == k
                   && forall j :: i < j < |xs| && EligiblePut(xs[j], f, expiry) ==> xs[j].strike != k;
          assert options[i] == xs[i];
          assert forall j :: i < j < |options| && EligiblePut(options[j], f, expiry) ==>
                   options[j].strike != k by {
            forall j | i < j < |options| && EligiblePut(options[j], f, expiry)
              ensures options[j].strike != k
            {
              if j < n {
                assert options[j] == xs[j];
              }
            }
          }
        }
      }
    }
  }

  /** The options at the chosen expiry that pass the option filter, in chain order, then the
      puts among them by strike (a later put replaces an earlier one of the same strike). */
  method GroupPuts(options: seq<GoOption>, f: OptionFilter, expiry: int)
    returns (puts: map<real, GoOption>)
    ensures puts.Keys == PutStrikes(options, f, expiry)
    ensures forall k :: k in puts ==>
              exists i :: 0 <= i < |options| && options[i] == puts[k] && EligiblePut(puts[k], f, expiry)
                          && puts[k].strike == k
                          && forall j :: i < j < |options| && EligiblePut(options[j], f, expiry) ==>
                                          options[j].strike != k
  {
    var valid: seq<GoOption> := [];
    var i := 0;
    while i < |options|
      invariant 0 <= i <= |options|
      invariant valid == Filtered(options[..i], f, expiry)
    {
      assert options[..i + 1][..i] == options[..i];
      if options[i].expiry == expiry && FilterOption(options[i], f) {
        valid := valid + [options[i]];
      }
      i := i + 1;
    }
    assert options[..i] == options;
    puts := map[];
    var j := 0;
    while j < |valid|
      invariant 0 <= j <= |valid|
      invariant puts == PutsOf(valid[..j])
    {
      assert valid[..j + 1][..j] == valid[..j];
      if valid[j].optType != "call" {
        puts := puts[valid[j].strike := valid[j]];
      }
      j := j + 1;
    }
    assert valid[..j] == valid;
    PutsAreLast(options, f, expiry);
    PutsKeys(options, f, expiry);
  }

  /** The exchange sort of the strikes: ascending, and a permutation of what it was given. */
  method SortStrikes(a: array<real>)
    modifies a
    ensures Sorted(a[..])
    ensures multiset(a[..]) == multiset(old(a[..]))
  {
    var i := 0;
    while i < a.Length
      invariant 0 <= i <= a.Length
      invariant forall p, q :: 0 <= p < i && p < q < a.Length ==> a[p] <= a[q]
      invariant multiset(a[..]) == multiset(old(a[..]))
    {
      var j := i + 1;
      while j < a.Length
        invariant i < j <= a.Length
        invariant forall p, q :: 0 <= p < i && p < q < a.Length ==> a[p] <= a[q]
        invariant forall q :: i < q < j ==> a[i] <= a[q]
        invariant multiset(a[..]) == multiset(old(a[..]))
      {
        if a[i] > a[j] {
          a[i], a[j] := a[j], a[i];
        }
        j := j + 1;
      }
      i := i + 1;
    }
  }

  /** A sorted arrangement of a set has no repeats, so it ascends strictly. */
  lemma SortedSetAscends(s: seq<real>, keys: set<real>)
    requires Sorted(s) && multiset(s) == multiset(keys)
    ensures forall p, q :: 0 <= p < q < |s| ==> s[p] < s[q]
  {
    forall p, q | 0 <= p < q < |s|
      ensures s[p] < s[q]
    {
      RepeatCountsTwice(s, p, q);
    }
  }

  /** An element at two positions occurs at least twice in the multiset. */
  lemma RepeatCountsTwice(s: seq<real>, p: nat, q: nat)
    requires p < q < |s|
    ensures s[p] == s[q] ==> multiset(s)[s[p]] >= 2
  {
    assert s == s[..q] + s[q..];
    assert s[p] in s[..q] && s[q] in s[q..];
  }

  /** The keys of a map of strikes in Go's (unspecified) iteration order. */
  method KeysInSomeOrder<K>(keys: set<K>) returns (s: seq<K>)
    ensures multiset(s) == multiset(keys)
  {
    s := [];
    var rest := keys;
    while rest != {}
      invariant rest <= keys
      invariant multiset(s) == multiset(keys - rest)
      decreases rest
    {
      var k :| k in rest;
      s := s + [k];
      rest := rest - {k};
    }
  }

  /** The put credit spread sold at `shortPut` and bought at `longPut`. */
  function PutVertical(symbol: string, shortPut: GoOption, longPut: GoOption): (s: GoSpread)
    ensures s.legs == [shortPut, longPut] && s.spreadType == "put_vertical"
    ensures s.width == shortPut.strike - longPut.strike
    ensures s.maxProfit + s.maxLoss == 100.0 * s.width
    ensures s.maxProfit == 100.0 * (shortPut.bid - longPut.ask)
    ensures s.modelPop == 100.0 * (1.0 - Abs(shortPut.delta))
    ensures Abs(shortPut.delta) <= 1.0 ==> 0.0 <= s.modelPop <= 100.0
  {
    var width := shortPut.strike - longPut.strike;
    var credit := shortPut.bid - longPut.ask;
    var theta := shortPut.theta + longPut.theta;
    GoSpread(symbol, "put_vertical", [shortPut, longPut], shortPut.delta + longPut.delta,
             shortPut.gamma + longPut.gamma, theta, shortPut.vega + longPut.vega, theta, width,
             credit * 100.0, (width - credit) * 100.0, 100.0 * (1.0 - Abs(shortPut.delta)))
  }

  /** `SelectOptionSpreads`: the expiry closest to the target DTE among those no event rules
      out, then at most one put vertical, sold at the middle of the ascending eligible put
      strikes and bought one strike below, kept only when it passes the spread filter.
      `sqrt` stands for `math.Sqrt`. */
  method SelectOptionSpreads(symbol: string, options: seq<GoOption>, f: OptionFilter, atr: real,
                             earnings: Option<int>, exDiv: Option<int>, now: int,
                             sqrt: real -> real)
    returns (result: seq<GoSpread>, best: Option<int>, strikes: seq<real>,
             candidate: Option<GoSpread>)
    ensures best.None? <==>
              forall e :: e in Expiries(options) ==> SkipExpirationForEvents(e, earnings, exDiv, f)
    ensures best.Some? ==>
              best.value in Expiries(options)
              && !SkipExpirationForEvents(best.value, earnings, exDiv, f)
              && forall e :: e in Expiries(options) && !SkipExpirationForEvents(e, earnings, exDiv, f)
                   ==> CappedDistance(best.value, now, GetTargetDte(atr, f))
                       <= CappedDistance(e, now, GetTargetDte(atr, f))
    ensures best.Some? ==>
              Sorted(strikes) && multiset(strikes) == multiset(PutStrikes(options, f, best.value))
    ensures candidate.Some? <==> best.Some? && |strikes| >= 3
    ensures candidate.Some? ==>
              var legs := candidate.value.legs;
              var mid := |strikes| / 2;
              |legs| == 2 && candidate.value == PutVertical(symbol, legs[0], legs[1])
              && legs[0] in options && EligiblePut(legs[0], f, best.value)
              && legs[1] in options && EligiblePut(legs[1], f, best.value)
              && legs[0].strike == strikes[mid] && legs[1].strike == strikes[mid - 1]
              && candidate.value.width > 0.0
    ensures result == if candidate.Some? && FilterSpread(candidate.value, f,
                           ExpectedMove(atr, sqrt, best.value, now))
                      then [candidate.value] else []
  {
    result, strikes, candidate := [], [], None;
    var dates := UnskippedExpirations(options, earnings, exDiv, f);
    var targetDte := GetTargetDte(atr, f);
    ghost var index;
    best, index := FindBestExpiration(dates, targetDte, now);
    if best.None? {
      return;
    }
    forall e | e in Expiries(options) && !SkipExpirationForEvents(e, earnings, exDiv, f)
      ensures CappedDistance(best.value, now, targetDte) <= CappedDistance(e, now, targetDte)
    {
      var j :| 0 <= j < |dates| && dates[j] == e;
    }
    var puts := GroupPuts(options, f, best.value);
    var move := ExpectedMove(atr, sqrt, best.value, now);
    strikes, candidate := MiddlePutSpread(symbol, puts);
    if candidate.Some? && FilterSpread(candidate.value, f, move) {
      result := [candidate.value];
    }
  }

  /** The put-spread step of `SelectOptionSpreads` on the puts grouped by strike: with at
      least two strikes they are sorted ascending, and the spread is built when the middle
      index has a strike after it, that is from three strikes on. */
  method MiddlePutSpread(symbol: string, puts: map<real, GoOption>)
    returns (strikes: seq<real>, candidate: Option<GoSpread>)
    ensures Sorted(strikes) && multiset(strikes) == multiset(puts.Keys)
    ensures candidate.Some? <==> |strikes| >= 3
    ensures candidate.Some? ==>
              var mid := |strikes| / 2;
              strikes[mid] in puts && strikes[mid - 1] in puts
              && candidate.value == PutVertical(symbol, puts[strikes[mid]], puts[strikes[mid - 1]])
              && strikes[mid - 1] < strikes[mid]
  {
    var keys := KeysInSomeOrder(puts.Keys);
    var a := new real[|keys|](k requires 0 <= k < |keys| => keys[k]);
    assert a[..] == keys;
    SortStrikes(a);
    strikes := a[..];
    assert |strikes| == |multiset(puts.Keys)| == |puts.Keys|;
    SortedSetAscends(strikes, puts.Keys);
    candidate := None;
    if |puts| >= 2 {
      var midIdx := a.Length / 2;
      if midIdx + 1 < a.Length {
        var shortStrike := a[midIdx];
        var longStrike := a[midIdx - 1];
        assert shortStrike in multiset(strikes) && longStrike in multiset(strikes);
        candidate := Some(PutVertical(symbol, puts[shortStrike], puts[longStrike]));
      }
    }
  }

  /** The expected move to an expiry: ATR times the square root of a fifth of its whole days
      left. */
  function ExpectedMove(atr: real, sqrt: real -> real, expiry: int, now: int): real {
    atr * sqrt(Trunc((expiry - now) as real / SecondsPerDay as real) as real / 5.0)
  }
}
