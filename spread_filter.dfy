/** `OptionSpreadFilter` of `options/spread_filter.py`: the filter predicates applied to a
    candidate spread, the filtering loop, and strike selection from an option chain by an
    at-the-money anchor, a strike offset and a spread width.
    Dictionaries read with `.get(key, 0)` are records whose absent keys hold 0. */
module SpreadFilter {
  import opened Wrappers
  import opened Text
  import Seqs
  import StableSort

  /** The settings `__init__` reads from the `options` configuration section. */
  datatype FilterConfig = FilterConfig(
    minDte: int, maxDte: int, minDelta: real, maxDelta: real, maxSpreadCost: real,
    minRewardRisk: real, minOpenInterest: int, maxBidAskSpreadPct: real,
    minIvRank: real, maxIvRank: real, minCallPutSkewPct: real,
    maxThetaPerDay: real, maxVegaExposure: real, maxGammaExposure: real,
    minProbOfProfit: real, maxWidthVsMovePct: real,
    daysBeforeEarnings: int, daysBeforeExDiv: int, dteFromAtr: bool, atrCoefficient: real,
    strikeOffset: int, spreadWidth: nat)

  /** The defaults applied when a setting is absent. */
  const DefaultConfig := FilterConfig(
    30, 45, 0.30, 0.45, 500.0, 1.5, 1000, 0.5, 0.0, 100.0, 0.0, 10.0, 0.4, 0.4,
    65.0, 150.0, 5, 3, false, 2.0, 1, 1)

  /** One entry of the chain's "calls" or "puts" list. */
  datatype ChainOption = ChainOption(
    strike: real, dte: int, delta: real, gamma: real, theta: real, vega: real,
    bid: real, ask: real, openInterest: int)

  /** The option chain dictionary; a missing "calls" or "puts" key is an empty list. */
  datatype Chain = Chain(calls: seq<ChainOption>, puts: seq<ChainOption>)

  /** The underlying-data dictionary. Calendar dates are day numbers; `None` stands for an
      absent or empty date string and for one that `strptime` rejects. */
  datatype Underlying = Underlying(
    price: real, ivRank: real, callPutSkew: real, expectedMove: real,
    earningsDate: Option<int>, exDividendDate: Option<int>)

  /** The two values of a spread's "type" key: "BULL_PUT_SPREAD" and "BEAR_CALL_SPREAD". */
  datatype SpreadKind = BullPutSpread | BearCallSpread

  /** A candidate spread dictionary; leg1 is the short leg and leg2 the long leg.
      `atr` is a key `select_strikes` never writes (so it reads as 0), and `strategy`
      is the key `rank_spreads` adds. */
  datatype Spread = Spread(
    kind: SpreadKind, shortLeg: ChainOption, longLeg: ChainOption,
    leg1Strike: real, leg2Strike: real, dte: int,
    delta: real, gamma: real, theta: real, vega: real,
    cost: real, maxProfit: real, maxLoss: real,
    leg1Bid: real, leg1Ask: real, leg2Bid: real, leg2Ask: real,
    leg1OpenInterest: int, leg2OpenInterest: int,
    rewardRisk: real, probabilityOfProfit: real, atr: real, strategy: Option<string>)

  // ---------------------------------------------------------------- the checks

  /** The accepted DTE range, widened by the ATR when `dte_from_atr` is set. */
  function DteBounds(c: FilterConfig, atr: real): (b: (int, int))
    ensures !c.dteFromAtr ==> b == (c.minDte, c.maxDte)
    ensures c.dteFromAtr ==>
              b.0 == MaxI(c.minDte, Trunc(atr * c.atrCoefficient))
              && b.1 == MaxI(c.maxDte, Trunc(atr * c.atrCoefficient * 1.5))
    ensures b.0 >= c.minDte && b.1 >= c.maxDte
  {
    if c.dteFromAtr then
      (MaxI(c.minDte, Trunc(atr * c.atrCoefficient)),
       MaxI(c.maxDte, Trunc(atr * c.atrCoefficient * 1.5)))
    else (c.minDte, c.maxDte)
  }

  /** `_check_basic_criteria`: DTE, |delta|, cost in dollars and reward/risk. */
  function CheckBasicCriteria(c: FilterConfig, s: Spread): (ok: bool)
    ensures ok <==> DteBounds(c, s.atr).0 <= s.dte <= DteBounds(c, s.atr).1
                    && c.minDelta <= Abs(s.delta) <= c.maxDelta
                    && s.cost * 100.0 <= c.maxSpreadCost
                    && s.rewardRisk >= c.minRewardRisk
  {
    var (lo, hi) := DteBounds(c, s.atr);
    if s.dte < lo || s.dte > hi then false
    else if Abs(s.delta) < c.minDelta || Abs(s.delta) > c.maxDelta then false
    else if s.cost * 100.0 > c.maxSpreadCost then false
    else if s.rewardRisk < c.minRewardRisk then false
    else true
  }

  /** `_check_liquidity`: open interest of both legs, a non-zero ask on both legs, and the
      wider of the two bid/ask spreads (as a percentage of the ask) within the limit. */
  function CheckLiquidity(c: FilterConfig, s: Spread): (ok: bool)
    ensures ok ==> s.leg1Ask != 0.0 && s.leg2Ask != 0.0
    ensures ok <==> s.leg1OpenInterest >= c.minOpenInterest
                    && s.leg2OpenInterest >= c.minOpenInterest
                    && s.leg1Ask != 0.0 && s.leg2Ask != 0.0
                    && (s.leg1Ask - s.leg1Bid) / s.leg1Ask * 100.0 <= c.maxBidAskSpreadPct
                    && (s.leg2Ask - s.leg2Bid) / s.leg2Ask * 100.0 <= c.maxBidAskSpreadPct
  {
    if MinI(s.leg1OpenInterest, s.leg2OpenInterest) < c.minOpenInterest then false
    else if s.leg1Ask == 0.0 || s.leg2Ask == 0.0 then false
    else
      var pct1 := (s.leg1Ask - s.leg1Bid) / s.leg1Ask * 100.0;
      var pct2 := (s.leg2Ask - s.leg2Bid) / s.leg2Ask * 100.0;
      !(MaxR(pct1, pct2) > c.maxBidAskSpreadPct)
  }

  /** `_check_iv_regime`: IV rank (as a percentage) in range, call/put skew above minimum. */
  function CheckIvRegime(c: FilterConfig, u: Underlying): (ok: bool)
    ensures ok <==> c.minIvRank <= u.ivRank * 100.0 <= c.maxIvRank
                    && u.callPutSkew * 100.0 >= c.minCallPutSkewPct
  {
    var ivRank := u.ivRank * 100.0;
    if ivRank < c.minIvRank || ivRank > c.maxIvRank then false
    else !(u.callPutSkew * 100.0 < c.minCallPutSkewPct)
  }

  /** `_check_greek_risks`: |theta| in dollars per day, |vega| and |gamma| within limits. */
  function CheckGreekRisks(c: FilterConfig, s: Spread): (ok: bool)
    ensures ok <==> Abs(s.theta) * 100.0 <= c.maxThetaPerDay
                    && Abs(s.vega) <= c.maxVegaExposure && Abs(s.gamma) <= c.maxGammaExposure
  {
    if Abs(s.theta) * 100.0 > c.maxThetaPerDay then false
    else if Abs(s.vega) > c.maxVegaExposure then false
    else !(Abs(s.gamma) > c.maxGammaExposure)
  }

  /** `_check_probability_metrics`: probability of profit, and the strike width against the
      expected move, a test that is skipped when the expected move is 0. */
  function CheckProbabilityMetrics(c: FilterConfig, s: Spread, u: Underlying): (ok: bool)
    ensures u.expectedMove == 0.0 ==> (ok <==> s.probabilityOfProfit * 100.0 >= c.minProbOfProfit)
    ensures u.expectedMove != 0.0 ==>
              (ok <==> s.probabilityOfProfit * 100.0 >= c.minProbOfProfit
                       && Abs(s.leg1Strike - s.leg2Strike) / u.expectedMove * 100.0
                          <= c.maxWidthVsMovePct)
  {
    if s.probabilityOfProfit * 100.0 < c.minProbOfProfit then false
    else if u.expectedMove == 0.0 then true
    else
      var widthVsMove := Abs(s.leg1Strike - s.leg2Strike) / u.expectedMove * 100.0;
      !(widthVsMove > c.maxWidthVsMovePct)
  }

  /** True when a known event date lies between today and `window` days ahead. */
  predicate EventWithin(date: Option<int>, today: int, window: int) {
    date.Some? && 0 <= date.value - today <= window
  }

  /** `_check_calendar_events`: no earnings date within `days_before_earnings` days and
      no ex-dividend date within `days_before_ex_div` days; unknown dates are ignored. */
  function CheckCalendarEvents(c: FilterConfig, u: Underlying, today: int): (ok: bool)
    ensures ok <==> !EventWithin(u.earningsDate, today, c.daysBeforeEarnings)
                    && !EventWithin(u.exDividendDate, today, c.daysBeforeExDiv)
    ensures u.earningsDate.None? && u.exDividendDate.None? ==> ok
  {
    if u.earningsDate.Some? && 0 <= u.earningsDate.value - today <= c.daysBeforeEarnings then false
    else if u.exDividendDate.Some? && 0 <= u.exDividendDate.value - today <= c.daysBeforeExDiv
    then false
    else true
  }

  /** `_passes_all_filters`: the checks in order; the first failing one rejects. */
  predicate PassesAllFilters(c: FilterConfig, s: Spread, u: Underlying, today: int) {
    CheckBasicCriteria(c, s) && CheckLiquidity(c, s) && CheckIvRegime(c, u)
    && CheckGreekRisks(c, s) && CheckProbabilityMetrics(c, s, u)
    && CheckCalendarEvents(c, u, today)
  }

  /** Each single criterion is enough to reject a spread. */
  lemma SingleCriterionRejects(c: FilterConfig, s: Spread, u: Underlying, today: int)
    ensures s.dte < DteBounds(c, s.atr).0 || s.dte > DteBounds(c, s.atr).1
            ==> !PassesAllFilters(c, s, u, today)
    ensures Abs(s.delta) < c.minDelta || Abs(s.delta) > c.maxDelta
            ==> !PassesAllFilters(c, s, u, today)
    ensures s.cost * 100.0 > c.maxSpreadCost ==> !PassesAllFilters(c, s, u, today)
    ensures s.rewardRisk < c.minRewardRisk ==> !PassesAllFilters(c, s, u, today)
    ensures MinI(s.leg1OpenInterest, s.leg2OpenInterest) < c.minOpenInterest
            ==> !PassesAllFilters(c, s, u, today)
    ensures s.leg1Ask == 0.0 || s.leg2Ask == 0.0 ==> !PassesAllFilters(c, s, u, today)
    ensures EventWithin(u.earningsDate, today, c.daysBeforeEarnings)
            ==> !PassesAllFilters(c, s, u, today)
    ensures EventWithin(u.exDividendDate, today, c.daysBeforeExDiv)
            ==> !PassesAllFilters(c, s, u, today)
  {
  }

  // ---------------------------------------------------------------- filter_spreads

  /** `filter_spreads`: keeps exactly the spreads that pass every check, in input order. */
  method FilterSpreads(c: FilterConfig, spreads: seq<Spread>, u: Underlying, today: int)
    returns (filtered: seq<Spread>)
    ensures filtered == Seqs.Filter(spreads, s => PassesAllFilters(c, s, u, today))
    ensures forall s :: s in filtered <==> s in spreads && PassesAllFilters(c, s, u, today)
    ensures Seqs.IsSubsequence(filtered, spreads)
  {
    filtered := [];
    var i := 0;
    while i < |spreads|
      invariant 0 <= i <= |spreads|
      invariant filtered == Seqs.Filter(spreads[..i], s => PassesAllFilters(c, s, u, today))
    {
      assert spreads[..i + 1] == spreads[..i] + [spreads[i]];
      Seqs.FilterSnoc(spreads[..i], spreads[i], s => PassesAllFilters(c, s, u, today));
      if PassesAllFilters(c, spreads[i], u, today) {
        filtered := filtered + [spreads[i]];
      }
      i := i + 1;
    }
    assert spreads[..i] == spreads;
    Seqs.FilterKeepsPassing(spreads, s => PassesAllFilters(c, s, u, today));
    Seqs.FilterIsSubsequence(spreads, s => PassesAllFilters(c, s, u, today));
  }

  // ---------------------------------------------------------------- select_strikes

  function StrikeKey(o: ChainOption): real {
    o.strike
  }

  /** The at-the-money index: the first index whose strike is closest to the price
      (0 for an empty list). */
  function AtmIndex(options: seq<ChainOption>, price: real): (k: nat)
    ensures |options| == 0 ==> k == 0
    ensures |options| > 0 ==> k < |options|
  {
    if |options| <= 1 then 0
    else
      var k := AtmIndex(options[..|options| - 1], price);
      var last := |options| - 1;
      if Abs(options[last].strike - price) < Abs(options[k].strike - price) then last else k
  }

  /** The ATM index is closest to the price, and strictly closer than every earlier one:
      ties go to the first. */
  lemma {:induction false} AtmIndexIsFirstClosest(options: seq<ChainOption>, price: real)
    ensures var k := AtmIndex(options, price);
            (forall j :: 0 <= j < |options| ==>
               Abs(options[k].strike - price) <= Abs(options[j].strike - price))
            && (forall j :: 0 <= j < k ==>
                  Abs(options[j].strike - price) > Abs(options[k].strike - price))
  {
    if |options| > 1 {
      var last := |options| - 1;
      var init := options[..last];
      AtmIndexIsFirstClosest(init, price);
      assert forall j :: 0 <= j < last ==> init[j] == options[j];
    }
  }

  /** The ATM search loop of `select_strikes` with its running minimum (`None` plays
      `float("inf")`). */
  method FindAtm(options: seq<ChainOption>, price: real) returns (atm: nat)
    ensures atm == AtmIndex(options, price)
  {
    atm := 0;
    var minDiff: Option<real> := None;
    var i := 0;
    while i < |options|
      invariant 0 <= i <= |options|
      invariant i == 0 <==> minDiff.None?
      invariant i > 0 ==>
                  atm == AtmIndex(options[..i], price)
                  && minDiff == Some(Abs(options[atm].strike - price))
      invariant i == 0 ==> atm == 0
    {
      var diff := Abs(options[i].strike - price);
      assert options[..i + 1][..i] == options[..i];
      if minDiff.None? || diff < minDiff.value {
        minDiff := Some(diff);
        atm := i;
      }
      i := i + 1;
    }
    assert options[..i] == options;
  }

  /** The first index of the spread loop: below the ATM index for bull spreads (not below
      0), above it for bear spreads (not above the last index). */
  function StartIndex(c: FilterConfig, atm: int, count: int, bull: bool): (start: int)
    ensures bull ==> start == MaxI(0, atm - c.strikeOffset) && start >= 0
    ensures !bull ==> start == MinI(count - 1, atm + c.strikeOffset)
                                              && start <= count - 1
  {
    if bull then MaxI(0, atm - c.strikeOffset)
    else MinI(count - 1, atm + c.strikeOffset)
  }

  /** The spread dictionary built from a short and a long leg; `bullPut` selects the
      max-loss formula (short above long for bull puts, long above short for bear calls). */
  function MakeCandidate(shortLeg: ChainOption, longLeg: ChainOption, bullPut: bool): (s: Spread)
    ensures s.shortLeg == shortLeg && s.longLeg == longLeg
    ensures s.leg1Strike == shortLeg.strike && s.leg2Strike == longLeg.strike
    ensures s.cost == s.maxProfit == shortLeg.bid - longLeg.ask
    ensures s.maxLoss == (if bullPut then shortLeg.strike - longLeg.strike
                          else longLeg.strike - shortLeg.strike) - s.cost
    ensures s.probabilityOfProfit == 1.0 - Abs(shortLeg.delta)
    ensures s.maxLoss > 0.0 ==> Consistent(s)
    ensures s.kind == (if bullPut then BullPutSpread else BearCallSpread)
    ensures s.dte == shortLeg.dte && s.delta == shortLeg.delta && s.atr == 0.0
    ensures s.strategy.None?
  {
    var credit := shortLeg.bid - longLeg.ask;
    var maxLoss := (if bullPut then shortLeg.strike - longLeg.strike
                    else longLeg.strike - shortLeg.strike) - credit;
    Spread(if bullPut then BullPutSpread else BearCallSpread,
           shortLeg, longLeg, shortLeg.strike, longLeg.strike, shortLeg.dte,
           shortLeg.delta, shortLeg.gamma, shortLeg.theta, shortLeg.vega,
           credit, credit, maxLoss,
           shortLeg.bid, shortLeg.ask, longLeg.bid, longLeg.ask,
           shortLeg.openInterest, longLeg.openInterest,
           if maxLoss > 0.0 then credit / maxLoss else 0.0,
           1.0 - Abs(shortLeg.delta), 0.0, None)
  }

  /** What every spread `select_strikes` returns satisfies: a positive max loss, the
      reward/risk ratio equal to max profit over max loss, and probability of profit
      1 - |short delta|. */
  predicate Consistent(s: Spread) {
    s.maxLoss > 0.0 && s.rewardRisk * s.maxLoss == s.maxProfit
    && s.probabilityOfProfit == 1.0 - Abs(s.shortLeg.delta)
  }

  /** The candidate at loop index `i`: bull puts sell `options[i + w]` and buy `options[i]`,
      bear calls sell `options[i]` and buy `options[i + w]`. */
  function CandidateAt(options: seq<ChainOption>, i: nat, w: nat, bullPut: bool): (s: Spread)
    requires i + w < |options|
    ensures bullPut ==> s.shortLeg == options[i + w] && s.longLeg == options[i]
    ensures !bullPut ==> s.shortLeg == options[i] && s.longLeg == options[i + w]
    ensures s.kind == (if bullPut then BullPutSpread else BearCallSpread)
    ensures s.maxLoss > 0.0 ==> Consistent(s)
  {
    if bullPut then MakeCandidate(options[i + w], options[i], true)
    else MakeCandidate(options[i], options[i + w], false)
  }

  /** The spreads the loop over `range(lo, hi)` appends: those with a positive max loss. */
  function CandidatesIn(options: seq<ChainOption>, lo: int, hi: int, w: nat, bullPut: bool)
    : (r: seq<Spread>)
    requires 0 <= lo && hi + w <= |options|
    ensures |r| <= MaxI(0, hi - lo)
    decreases hi - lo
  {
    if hi <= lo then []
    else
      var s := CandidateAt(options, hi - 1, w, bullPut);
      CandidatesIn(options, lo, hi - 1, w, bullPut) + (if s.maxLoss > 0.0 then [s] else [])
  }

  /** The calls (when the spread type names CALL) or else the puts, sorted by strike. */
  function SideOptions(chain: Chain, call: bool): (options: seq<ChainOption>)
    ensures StableSort.SortedAsc(options, StrikeKey)
  {
    StableSort.SortAscSorted(
      if call then chain.calls else chain.puts, StrikeKey);
    StableSort.SortAsc(if call then chain.calls else chain.puts, StrikeKey)
  }

  /** The substring tests `select_strikes` makes on its spread-type argument. */
  datatype TypeFlags = TypeFlags(call: bool, put: bool, bull: bool, bear: bool)

  function FlagsOf(spreadType: string): TypeFlags {
    TypeFlags(Contains(spreadType, "CALL"), Contains(spreadType, "PUT"),
              Contains(spreadType, "BULL"), Contains(spreadType, "BEAR"))
  }

  predicate IsBullPut(f: TypeFlags) {
    f.bull && f.put
  }

  predicate IsBearCall(f: TypeFlags) {
    f.bear && f.call
  }

  /** The bounds of the `range` the spread loop runs over: five indices up from the start
      for bull puts, five indices below it for bear calls, never past `len - width`. */
  function LoopRange(count: int, start: int, w: nat, bullPut: bool): (r: (int, int))
    ensures r.1 + w <= count
    ensures bullPut ==> r.0 == start && r.1 <= start + 5
    ensures !bullPut ==> r.0 == MaxI(0, start - 5) && r.1 <= start
    ensures bullPut && start >= 0 ==> r.0 >= 0
  {
    if bullPut then (start, MinI(count - w, start + 5))
    else (MaxI(0, start - 5), MinI(count - w, start))
  }

  /** `select_strikes` as a value: anchor at the ATM index of the sorted side, and collect
      the candidates of the bull-put or bear-call range. */
  function SelectedSpreads(c: FilterConfig, chain: Chain, price: real, f: TypeFlags)
    : seq<Spread>
  {
    var options := SideOptions(chain, f.call);
    var start := StartIndex(c, AtmIndex(options, price), |options|, f.bull);
    if IsBullPut(f) || IsBearCall(f) then
      var bullPut := IsBullPut(f);
      var (lo, hi) := LoopRange(|options|, start, c.spreadWidth, bullPut);
      CandidatesIn(options, lo, hi, c.spreadWidth, bullPut)
    else []
  }

  /** The two range loops of `select_strikes`. */
  method CollectCandidates(options: seq<ChainOption>, lo: int, hi: int, w: nat, bullPut: bool)
    returns (selected: seq<Spread>)
    requires 0 <= lo && hi + w <= |options|
    ensures selected == CandidatesIn(options, lo, hi, w, bullPut)
  {
    selected := [];
    if hi <= lo {
      return;
    }
    var i := lo;
    while i < hi
      invariant lo <= i <= hi
      invariant selected == CandidatesIn(options, lo, i, w, bullPut)
    {
      var s := CandidateAt(options, i, w, bullPut);
      if s.maxLoss > 0.0 {
        selected := selected + [s];
      }
      i := i + 1;
    }
  }

  /** `select_strikes`. The in-place sort of the caller's chain list is not modelled. */
  method SelectStrikes(c: FilterConfig, chain: Chain, price: real, spreadType: string)
    returns (selected: seq<Spread>)
    ensures selected == SelectedSpreads(c, chain, price, FlagsOf(spreadType))
  {
    var f := FlagsOf(spreadType);
    var options := SideOptions(chain, f.call);
    var atm := FindAtm(options, price);
    var start := StartIndex(c, atm, |options|, f.bull);
    if IsBullPut(f) {
      var (lo, hi) := LoopRange(|options|, start, c.spreadWidth, true);
      selected := CollectCandidates(options, lo, hi, c.spreadWidth, true);
    } else if IsBearCall(f) {
      var (lo, hi) := LoopRange(|options|, start, c.spreadWidth, false);
      selected := CollectCandidates(options, lo, hi, c.spreadWidth, false);
    } else {
      selected := [];
    }
  }

  /** `s` is the candidate of some loop index `i` in `[lo, hi)`: a bull put sells
      `options[i + w]` and buys `options[i]`, a bear call sells `options[i]` and buys
      `options[i + w]`; its "type" names the kind of spread. */
  ghost predicate LegsAt(s: Spread, options: seq<ChainOption>, lo: int, hi: int, w: nat,
                         bullPut: bool) {
    s.kind == (if bullPut then BullPutSpread else BearCallSpread)
    && exists i :: lo <= i < hi && 0 <= i && i + w < |options|
                && (bullPut ==> s.shortLeg == options[i + w] && s.longLeg == options[i])
                && (!bullPut ==> s.shortLeg == options[i] && s.longLeg == options[i + w])
  }

  /** Every candidate the range loop keeps is consistent and built at an index of the range
      (which may be stated with any larger upper bound). */
  lemma {:induction false} CandidatesInShape(options: seq<ChainOption>, lo: int, hi: int,
                                             hi2: int, w: nat, bullPut: bool)
    requires 0 <= lo && hi + w <= |options| && hi <= hi2
    ensures forall s :: s in CandidatesIn(options, lo, hi, w, bullPut) ==>
              Consistent(s) && LegsAt(s, options, lo, hi2, w, bullPut)
    decreases hi - lo
  {
    if hi > lo {
      CandidatesInShape(options, lo, hi - 1, hi2, w, bullPut);
      var last := CandidateAt(options, hi - 1, w, bullPut);
      if last.maxLoss > 0.0 {
        assert LegsAt(last, options, lo, hi2, w, bullPut);
      }
    }
  }

  /** Bull-put generation (a spread type naming BULL and PUT but not CALL, such as
      "BULL_PUT_SPREAD") yields at most
      five spreads from the puts sorted by strike, each built at one of the five loop
      indices from the start index up, and each consistent. */
  lemma BullPutCandidates(c: FilterConfig, chain: Chain, price: real, t: TypeFlags,
                          puts: seq<ChainOption>, start: int)
    requires IsBullPut(t) && !t.call
    requires puts == StableSort.SortAsc(chain.puts, StrikeKey)
    requires start == MaxI(0, AtmIndex(puts, price) - c.strikeOffset)
    ensures |SelectedSpreads(c, chain, price, t)| <= 5
    ensures forall s :: s in SelectedSpreads(c, chain, price, t) ==>
              Consistent(s) && LegsAt(s, puts, start, start + 5, c.spreadWidth, true)
  {
    assert puts == SideOptions(chain, t.call);
    assert start == StartIndex(c, AtmIndex(puts, price), |puts|, t.bull);
    var (lo, hi) := LoopRange(|puts|, start, c.spreadWidth, true);
    var r := CandidatesIn(puts, lo, hi, c.spreadWidth, true);
    assert SelectedSpreads(c, chain, price, t) == r;
    CandidatesInShape(puts, lo, hi, start + 5, c.spreadWidth, true);
    assert |r| <= MaxI(0, hi - lo);
  }

  /** Bear-call generation (a spread type naming BEAR and CALL but not BULL, such as
      "BEAR_CALL_SPREAD") yields at most
      five spreads from the calls sorted by strike, each built at one of the five loop
      indices below the start index, and each consistent. */
  lemma BearCallCandidates(c: FilterConfig, chain: Chain, price: real, t: TypeFlags,
                           calls: seq<ChainOption>, start: int)
    requires IsBearCall(t) && !t.bull
    requires calls == StableSort.SortAsc(chain.calls, StrikeKey)
    requires start == MinI(|calls| - 1, AtmIndex(calls, price) + c.strikeOffset)
    ensures |SelectedSpreads(c, chain, price, t)| <= 5
    ensures forall s :: s in SelectedSpreads(c, chain, price, t) ==>
              Consistent(s) && LegsAt(s, calls, MaxI(0, start - 5), start, c.spreadWidth, false)
  {
    assert calls == SideOptions(chain, t.call);
    assert start == StartIndex(c, AtmIndex(calls, price), |calls|, t.bull);
    var (lo, hi) := LoopRange(|calls|, start, c.spreadWidth, false);
    var r := CandidatesIn(calls, lo, hi, c.spreadWidth, false);
    assert !IsBullPut(t) && IsBearCall(t);
    assert SelectedSpreads(c, chain, price, t) == r;
    CandidatesInShape(calls, lo, hi, start, c.spreadWidth, false);
    assert |r| <= MaxI(0, hi - lo);
  }

  /** Which substrings the spread-type name "BULL_PUT_SPREAD" contains. */
  lemma BullPutFlags()
    ensures IsBullPut(FlagsOf("BULL_PUT_SPREAD")) && !FlagsOf("BULL_PUT_SPREAD").call
  {
    ContainsAt("BULL_PUT_SPREAD", "BULL", 0);
    ContainsAt("BULL_PUT_SPREAD", "PUT", 5);
    assert 'C' !in "BULL_PUT_SPREAD";
    NotContainsFirst("BULL_PUT_SPREAD", "CALL");
  }

  /** Which substrings the spread-type name "BEAR_CALL_SPREAD" contains. */
  lemma BearCallFlags()
    ensures IsBearCall(FlagsOf("BEAR_CALL_SPREAD")) && !FlagsOf("BEAR_CALL_SPREAD").bull
  {
    var s := "BEAR_CALL_SPREAD";
    ContainsAt(s, "BEAR", 0);
    ContainsAt(s, "CALL", 5);
    assert s[1..] == "EAR_CALL_SPREAD";
    assert s[..4] == "BEAR";
    NotContainsUnlessPrefix(s, "BULL");
  }
}
