/** `OptionSelector` of `trading/option_selector.py`: groups a chain by expiration inside the
    DTE window, builds vertical spreads from adjacent strikes of each expiration, filters them
    and ranks them by reward/risk. The selector's only state is its configuration, which no
    operation changes, so it is a parameter here. The chain (fetched by a stub in the source)
    and the current day are parameters too. */
module OptionSelector {
  import opened Wrappers
  import Seqs
  import StableSort
  import opened OptionModel

  /** The option selection parameters of the application configuration. */
  datatype SelectorConfig = SelectorConfig(
    minDte: int, maxDte: int, minDelta: real, maxDelta: real, maxSpreadCost: real,
    minRewardRisk: real)

  const DefaultSelectorConfig := SelectorConfig(30, 45, 0.30, 0.50, 500.0, 1.5)

  /** `filter_by_dte`'s dictionary: expiration day to options, in insertion order. */
  type Groups = seq<(int, seq<OptionContract>)>

  predicate InDteWindow(c: SelectorConfig, o: OptionContract, today: int) {
    c.minDte <= DaysToExpiration(o, today) <= c.maxDte
  }

  /** The options of `chain` inside the DTE window that expire on `e`, in chain order. */
  function AtExpiry(c: SelectorConfig, chain: seq<OptionContract>, today: int, e: int)
    : seq<OptionContract>
  {
    if |chain| == 0 then []
    else
      var o := chain[|chain| - 1];
      AtExpiry(c, chain[..|chain| - 1], today, e)
      + (if InDteWindow(c, o, today) && o.expiration == e then [o] else [])
  }

  /** The expirations of the options inside the DTE window, each once, in order of first
      appearance. */
  function Expiries(c: SelectorConfig, chain: seq<OptionContract>, today: int): seq<int> {
    if |chain| == 0 then []
    else
      var o := chain[|chain| - 1];
      var init := Expiries(c, chain[..|chain| - 1], today);
      if InDteWindow(c, o, today) && o.expiration !in init then init + [o.expiration] else init
  }

  /** The dictionary `filter_by_dte` builds. */
  function Grouped(c: SelectorConfig, chain: seq<OptionContract>, today: int): Groups {
    var keys := Expiries(c, chain, today);
    seq(|keys|, k requires 0 <= k < |keys| => (keys[k], AtExpiry(c, chain, today, keys[k])))
  }

  /** The dictionary lookup `e in filtered`: the position of key `e`, if any. */
  function Find(g: Groups, e: int): (r: Option<nat>)
    ensures r.Some? ==> r.value < |g| && g[r.value].0 == e
    ensures r.None? <==> forall k :: 0 <= k < |g| ==> g[k].0 != e
  {
    if |g| == 0 then None
    else if g[0].0 == e then Some(0)
    else match Find(g[1..], e)
      case None => None
      case Some(k) => Some(k + 1)
  }

  ghost predicate Distinct(s: seq<int>) {
    forall i, j :: 0 <= i < j < |s| ==> s[i] != s[j]
  }

  lemma {:induction false} ExpiriesDistinct(c: SelectorConfig, chain: seq<OptionContract>,
                                            today: int)
    ensures Distinct(Expiries(c, chain, today))
  {
    if |chain| > 0 {
      ExpiriesDistinct(c, chain[..|chain| - 1], today);
    }
  }

  /** An expiration is a key iff some option inside the window expires then, and exactly
      those options are listed under it. */
  lemma {:induction false} ExpiriesExact(c: SelectorConfig, chain: seq<OptionContract>,
                                         today: int, e: int)
    ensures e in Expiries(c, chain, today) <==> AtExpiry(c, chain, today, e) != []
    ensures forall o :: o in AtExpiry(c, chain, today, e) <==>
              o in chain && InDteWindow(c, o, today) && o.expiration == e
  {
    if |chain| > 0 {
      var n := |chain| - 1;
      ExpiriesExact(c, chain[..n], today, e);
      assert chain == chain[..n] + [chain[n]];
    }
  }

  /** One option appended to the chain: outside the window it changes nothing; otherwise it
      is appended to the list of its expiration, which is added at the end when new. */
  lemma GroupedStep(c: SelectorConfig, chain: seq<OptionContract>, o: OptionContract,
                    today: int)
    ensures !InDteWindow(c, o, today) ==> Grouped(c, chain + [o], today) == Grouped(c, chain, today)
    ensures InDteWindow(c, o, today) ==>
              var g := Grouped(c, chain, today);
              match Find(g, o.expiration)
              case None => Grouped(c, chain + [o], today) == g + [(o.expiration, [o])]
              case Some(j) =>
                Grouped(c, chain + [o], today) == g[j := (o.expiration, g[j].1 + [o])]
  {
    var g := Grouped(c, chain, today);
    if !InDteWindow(c, o, today) {
      GroupedStepOutside(c, chain, o, today);
    } else {
      match Find(g, o.expiration)
      case None => GroupedStepNew(c, chain, o, today);
      case Some(j) => GroupedStepExisting(c, chain, o, today, j);
    }
  }

  lemma GroupedStepOutside(c: SelectorConfig, chain: seq<OptionContract>, o: OptionContract,
                           today: int)
    requires !InDteWindow(c, o, today)
    ensures Grouped(c, chain + [o], today) == Grouped(c, chain, today)
  {
    var s := chain + [o];
    assert s[..|s| - 1] == chain;
    var g := Grouped(c, chain, today);
    var g2 := Grouped(c, s, today);
    GroupedAt(c, chain, today);
    GroupedAt(c, s, today);
    assert Expiries(c, s, today) == Expiries(c, chain, today);
    forall k | 0 <= k < |g| ensures g2[k] == g[k] {
      AtExpirySnoc(c, chain, o, today, g[k].0);
    }
  }

  lemma GroupedStepNew(c: SelectorConfig, chain: seq<OptionContract>, o: OptionContract,
                       today: int)
    requires InDteWindow(c, o, today) && Find(Grouped(c, chain, today), o.expiration).None?
    ensures Grouped(c, chain + [o], today)
            == Grouped(c, chain, today) + [(o.expiration, [o])]
  {
    var s := chain + [o];
    assert s[..|s| - 1] == chain;
    var e := o.expiration;
    var keys := Expiries(c, chain, today);
    var g := Grouped(c, chain, today);
    var g2 := Grouped(c, s, today);
    GroupedAt(c, chain, today);
    GroupedAt(c, s, today);
    ExpiriesExact(c, chain, today, e);
    assert Expiries(c, s, today) == keys + [e];
    forall k | 0 <= k < |g| ensures g2[k] == g[k] {
      AtExpirySnoc(c, chain, o, today, g[k].0);
    }
    AtExpirySnoc(c, chain, o, today, e);
    assert AtExpiry(c, chain, today, e) == [];
    assert AtExpiry(c, s, today, e) == [o];
    assert g2[|g|] == (e, [o]);
  }

  lemma GroupedStepExisting(c: SelectorConfig, chain: seq<OptionContract>, o: OptionContract,
                            today: int, j: nat)
    requires InDteWindow(c, o, today) && Find(Grouped(c, chain, today), o.expiration) == Some(j)
    ensures Grouped(c, chain + [o], today)
            == Grouped(c, chain, today)[j := (o.expiration, Grouped(c, chain, today)[j].1 + [o])]
  {
    var s := chain + [o];
    assert s[..|s| - 1] == chain;
    var e := o.expiration;
    var keys := Expiries(c, chain, today);
    var g := Grouped(c, chain, today);
    var g2 := Grouped(c, s, today);
    GroupedAt(c, chain, today);
    GroupedAt(c, s, today);
    ExpiriesDistinct(c, chain, today);
    assert Expiries(c, s, today) == keys;
    forall k | 0 <= k < |g| && k != j ensures g2[k] == g[k] {
      AtExpirySnoc(c, chain, o, today, g[k].0);
    }
    AtExpirySnoc(c, chain, o, today, e);
    assert g2[j] == (e, g[j].1 + [o]);
  }

  lemma GroupedAt(c: SelectorConfig, chain: seq<OptionContract>, today: int)
    ensures |Grouped(c, chain, today)| == |Expiries(c, chain, today)|
    ensures forall k :: 0 <= k < |Expiries(c, chain, today)| ==>
              Grouped(c, chain, today)[k]
              == (Expiries(c, chain, today)[k], AtExpiry(c, chain, today, Expiries(c, chain, today)[k]))
  {
  }

  lemma AtExpirySnoc(c: SelectorConfig, chain: seq<OptionContract>, o: OptionContract,
                     today: int, e: int)
    ensures !(InDteWindow(c, o, today) && o.expiration == e) ==>
              AtExpiry(c, chain + [o], today, e) == AtExpiry(c, chain, today, e)
    ensures InDteWindow(c, o, today) && o.expiration == e ==>
              AtExpiry(c, chain + [o], today, e) == AtExpiry(c, chain, today, e) + [o]
  {
    assert (chain + [o])[..|chain|] == chain;
  }

  /** `filter_by_dte`: the options inside the DTE window, grouped by expiration. */
  method FilterByDte(c: SelectorConfig, chain: seq<OptionContract>, today: int)
    returns (filtered: Groups)
    ensures filtered == Grouped(c, chain, today)
  {
    filtered := [];
    var i := 0;
    while i < |chain|
      invariant 0 <= i <= |chain|
      invariant filtered == Grouped(c, chain[..i], today)
    {
      var o := chain[i];
      GroupedStep(c, chain[..i], o, today);
      assert chain[..i + 1] == chain[..i] + [o];
      if InDteWindow(c, o, today) {
        var j := Find(filtered, o.expiration);
        if j.None? {
          filtered := filtered + [(o.expiration, [])];
          j := Some(|filtered| - 1);
        }
        filtered := filtered[j.value := (o.expiration, filtered[j.value].1 + [o])];
      }
      i := i + 1;
    }
    assert chain[..i] == chain;
  }

  /** The grouping keeps exactly the options inside the DTE window, each under its own
      expiration, each expiration once. */
  lemma GroupedExact(c: SelectorConfig, chain: seq<OptionContract>, today: int)
    ensures Distinct(seq(|Grouped(c, chain, today)|, k requires 0 <= k < |Grouped(c, chain, today)|
                           => Grouped(c, chain, today)[k].0))
    ensures forall k, o :: 0 <= k < |Grouped(c, chain, today)| ==>
              (o in Grouped(c, chain, today)[k].1 <==>
                 o in chain && InDteWindow(c, o, today)
                 && o.expiration == Grouped(c, chain, today)[k].0)
    ensures forall o :: o in chain && InDteWindow(c, o, today) ==>
              exists k :: 0 <= k < |Grouped(c, chain, today)|
                          && Grouped(c, chain, today)[k].0 == o.expiration
  {
    var g := Grouped(c, chain, today);
    var keys := Expiries(c, chain, today);
    ExpiriesDistinct(c, chain, today);
    assert seq(|g|, k requires 0 <= k < |g| => g[k].0) == keys;
    forall k | 0 <= k < |g| {
      ExpiriesExact(c, chain, today, keys[k]);
    }
    forall o | o in chain && InDteWindow(c, o, today)
      ensures exists k :: 0 <= k < |g| && g[k].0 == o.expiration
    {
      ExpiriesExact(c, chain, today, o.expiration);
      var k :| 0 <= k < |keys| && keys[k] == o.expiration;
      assert g[k].0 == o.expiration;
    }
  }

  predicate IsCall(o: OptionContract) {
    o.optionType == Call
  }

  predicate IsPut(o: OptionContract) {
    o.optionType == Put
  }

  function Strike(o: OptionContract): real {
    o.strike
  }

  /** The options of one side of an expiration, sorted by strike. */
  function SideLegs(options: seq<OptionContract>, call: bool): seq<OptionContract> {
    StableSort.SortAsc(Seqs.Filter(options, if call then IsCall else IsPut), Strike)
  }

  /** The spread on two adjacent strikes: for calls long the lower strike and short the
      higher one (a bull call), for puts short the lower and long the higher (a bear put).
      `None` when the maximum profit is not positive. */
  function VerticalSpread(lower: OptionContract, higher: OptionContract, expiry: int, call: bool)
    : (r: Option<OptionSpread>)
    ensures var (long, short) := if call then (lower, higher) else (higher, lower);
            r.Some? <==> (higher.strike - lower.strike) - (long.ask - short.bid) > 0.0
  {
    var (long, short) := if call then (lower, higher) else (higher, lower);
    var cost := long.ask - short.bid;
    var maxProfit := (higher.strike - lower.strike) - cost;
    if maxProfit <= 0.0 then None
    else
      var ratio := if cost > 0.0 then maxProfit / cost else 0.0;
      Some(MakeSpread(long.underlying, expiry, if call then BullCall else BearPut, long, short,
                      cost * 100.0, maxProfit * 100.0, cost * 100.0, long.delta - short.delta,
                      ratio))
  }

  /** A built spread stores its cost, maximum profit and maximum loss in dollars per contract
      (times 100), with the maximum loss equal to the cost, a positive maximum profit, the
      net delta long less short, and a reward/risk ratio of profit over cost when the cost is
      positive and 0 otherwise. */
  lemma VerticalSpreadValues(lower: OptionContract, higher: OptionContract, expiry: int,
                             call: bool)
    requires VerticalSpread(lower, higher, expiry, call).Some?
    ensures var s := VerticalSpread(lower, higher, expiry, call).value;
            var (long, short) := if call then (lower, higher) else (higher, lower);
            var cost := long.ask - short.bid;
            var maxProfit := (higher.strike - lower.strike) - cost;
            s.longLeg == long && s.shortLeg == short
            && s.spreadType == (if call then BullCall else BearPut)
            && s.expiration == expiry && s.symbol == long.underlying
            && s.cost == cost * 100.0 && s.maxLoss == s.cost
            && s.maxProfit == maxProfit * 100.0 && s.maxProfit > 0.0
            && s.delta == long.delta - short.delta
            && (cost > 0.0 ==> s.rewardRiskRatio * cost == maxProfit)
            && (cost <= 0.0 ==> s.rewardRiskRatio == 0.0)
  {
  }

  /** The spreads on the first `n` adjacent pairs of `legs`, in order. */
  function PairSpreads(legs: seq<OptionContract>, n: nat, expiry: int, call: bool)
    : seq<OptionSpread>
    requires n < |legs| || n == 0
  {
    if n == 0 then []
    else
      PairSpreads(legs, n - 1, expiry, call)
      + match VerticalSpread(legs[n - 1], legs[n], expiry, call)
        case None => []
        case Some(s) => [s]
  }

  /** The spreads of one expiration: one per adjacent pair of strikes whose maximum profit is
      positive, and none with fewer than two legs. */
  function ExpirySpreads(options: seq<OptionContract>, expiry: int, call: bool)
    : seq<OptionSpread>
  {
    var legs := SideLegs(options, call);
    if |legs| < 2 then [] else PairSpreads(legs, |legs| - 1, expiry, call)
  }

  /** The spreads of every expiration, in dictionary order. */
  function AllSpreads(g: Groups, call: bool): seq<OptionSpread> {
    if |g| == 0 then []
    else
      var (e, options) := g[|g| - 1];
      AllSpreads(g[..|g| - 1], call) + ExpirySpreads(options, e, call)
  }

  /** Appending one expiration appends its spreads. */
  lemma AllSpreadsSnoc(g: Groups, entry: (int, seq<OptionContract>), call: bool)
    ensures AllSpreads(g + [entry], call) == AllSpreads(g, call) + ExpirySpreads(entry.1, entry.0, call)
  {
    assert (g + [entry])[..|g|] == g;
  }

  lemma AllSpreadsStep(g: Groups, k: nat, call: bool)
    requires k < |g|
    ensures AllSpreads(g[..k + 1], call) == AllSpreads(g[..k], call) + ExpirySpreads(g[k].1, g[k].0, call)
  {
    AllSpreadsSnoc(g[..k], g[k], call);
    assert g[..k + 1] == g[..k] + [g[k]];
  }

  /** The body of both spread builders' outer loop: the legs of one side in strike order,
      and their adjacent spreads when there are at least two. */
  method ExpirySpreadsOf(chain: seq<OptionContract>, expiry: int, call: bool)
    returns (spreads: seq<OptionSpread>)
    ensures spreads == ExpirySpreads(chain, expiry, call)
  {
    var legs := SideLegs(chain, call);
    spreads := [];
    if |legs| >= 2 {
      spreads := AdjacentSpreads(legs, expiry, call);
    }
  }

  /** The inner loop of both spread builders: one spread per adjacent pair of `legs` whose
      maximum profit is positive, in strike order. */
  method AdjacentSpreads(legs: seq<OptionContract>, expiry: int, call: bool)
    returns (spreads: seq<OptionSpread>)
    requires |legs| >= 2
    ensures spreads == PairSpreads(legs, |legs| - 1, expiry, call)
  {
    spreads := [];
    var i := 0;
    while i < |legs| - 1
      invariant 0 <= i <= |legs| - 1
      invariant spreads == PairSpreads(legs, i, expiry, call)
    {
      var spread := VerticalSpread(legs[i], legs[i + 1], expiry, call);
      if spread.Some? {
        spreads := spreads + [spread.value];
      }
      i := i + 1;
    }
  }

  /** `create_call_vertical_spreads`: for each expiration in dictionary order, the bull call
      spreads on adjacent call strikes. */
  method CreateCallVerticalSpreads(g: Groups) returns (spreads: seq<OptionSpread>)
    ensures spreads == AllSpreads(g, true)
  {
    spreads := [];
    var k := 0;
    while k < |g|
      invariant 0 <= k <= |g|
      invariant spreads == AllSpreads(g[..k], true)
    {
      var (expiry, chain) := g[k];
      AllSpreadsStep(g, k, true);
      var more := ExpirySpreadsOf(chain, expiry, true);
      spreads := spreads + more;
      k := k + 1;
    }
    assert g[..k] == g;
  }

  /** `create_put_vertical_spreads`: for each expiration in dictionary order, the bear put
      spreads on adjacent put strikes. */
  method CreatePutVerticalSpreads(g: Groups) returns (spreads: seq<OptionSpread>)
    ensures spreads == AllSpreads(g, false)
  {
    spreads := [];
    var k := 0;
    while k < |g|
      invariant 0 <= k <= |g|
      invariant spreads == AllSpreads(g[..k], false)
    {
      var (expiry, chain) := g[k];
      AllSpreadsStep(g, k, false);
      var more := ExpirySpreadsOf(chain, expiry, false);
      spreads := spreads + more;
      k := k + 1;
    }
    assert g[..k] == g;
  }

  /** Every spread built from the first `n` pairs of `legs` sits on an adjacent pair
      `legs[i]`, `legs[i + 1]` and has a positive maximum profit equal to its width less its
      cost, with the maximum loss equal to the cost. */
  lemma {:induction false} PairSpreadsShape(legs: seq<OptionContract>, n: nat, expiry: int,
                                            call: bool)
    requires n < |legs| || n == 0
    ensures forall s :: s in PairSpreads(legs, n, expiry, call) ==>
              s.expiration == expiry && AdjacentPair(s, legs, n, call)
  {
    if n > 0 {
      PairSpreadsShape(legs, n - 1, expiry, call);
      forall s | s in PairSpreads(legs, n, expiry, call)
        ensures s.expiration == expiry && AdjacentPair(s, legs, n, call)
      {
        if s !in PairSpreads(legs, n - 1, expiry, call) {
          var r := VerticalSpread(legs[n - 1], legs[n], expiry, call);
          assert r.Some? && s == r.value;
          VerticalSpreadValues(legs[n - 1], legs[n], expiry, call);
          assert PairAt(s, legs, n - 1, call);
        }
      }
    }
  }

  /** `s` is the spread on `legs[i]` (lower strike) and `legs[i + 1]`. */
  predicate PairAt(s: OptionSpread, legs: seq<OptionContract>, i: nat, call: bool)
    requires i + 1 < |legs|
  {
    var (lower, higher) := (legs[i], legs[i + 1]);
    (if call then s.longLeg == lower && s.shortLeg == higher
     else s.shortLeg == lower && s.longLeg == higher)
    && s.spreadType == (if call then BullCall else BearPut)
    && s.maxProfit > 0.0 && s.maxLoss == s.cost
    && s.maxProfit == (higher.strike - lower.strike) * 100.0 - s.cost
  }

  ghost predicate AdjacentPair(s: OptionSpread, legs: seq<OptionContract>, n: nat, call: bool) {
    exists i: nat :: i < n && i + 1 < |legs| && PairAt(s, legs, i, call)
  }

  /** Every spread of an expiration sits on two adjacent strikes of that expiration's legs of
      its side, the lower one first in strike order; an expiration with fewer than two legs
      of the side contributes nothing. */
  lemma ExpirySpreadsShape(options: seq<OptionContract>, expiry: int, call: bool)
    ensures |SideLegs(options, call)| < 2 ==> ExpirySpreads(options, expiry, call) == []
    ensures StableSort.SortedAsc(SideLegs(options, call), Strike)
    ensures forall s :: s in ExpirySpreads(options, expiry, call) ==>
              s.expiration == expiry
              && AdjacentPair(s, SideLegs(options, call), |SideLegs(options, call)|, call)
  {
    var legs := SideLegs(options, call);
    StableSort.SortAscSorted(Seqs.Filter(options, if call then IsCall else IsPut), Strike);
    if |legs| >= 2 {
      PairSpreadsShape(legs, |legs| - 1, expiry, call);
      forall s | s in ExpirySpreads(options, expiry, call)
        ensures AdjacentPair(s, legs, |legs|, call)
      {
        var i: nat :| i < |legs| - 1 && i + 1 < |legs| && PairAt(s, legs, i, call);
      }
    }
  }

  /** The criteria of `filter_spreads`. */
  predicate MeetsCriteria(c: SelectorConfig, s: OptionSpread) {
    c.minDelta <= Abs(s.delta) <= c.maxDelta
    && s.cost <= c.maxSpreadCost
    && s.rewardRiskRatio >= c.minRewardRisk
    && s.cost > 0.0
  }

  /** `filter_spreads`: exactly the spreads meeting every criterion, in input order. */
  function FilterSpreads(c: SelectorConfig, spreads: seq<OptionSpread>): (r: seq<OptionSpread>)
    ensures forall s :: s in r <==> s in spreads && MeetsCriteria(c, s)
    ensures Seqs.IsSubsequence(r, spreads)
  {
    Seqs.FilterKeepsPassing(spreads, s => MeetsCriteria(c, s));
    Seqs.FilterIsSubsequence(spreads, s => MeetsCriteria(c, s));
    Seqs.Filter(spreads, s => MeetsCriteria(c, s))
  }

  function RewardRiskRatio(s: OptionSpread): real {
    s.rewardRiskRatio
  }

  /** `rank_by_reward_risk`: `sorted(spreads, key=reward_risk_ratio, reverse=True)`, a
      permutation of its input by non-increasing reward/risk ratio, with equal ratios in
      input order. */
  function RankByRewardRisk(spreads: seq<OptionSpread>): (r: seq<OptionSpread>)
    ensures |r| == |spreads|
    ensures multiset(r) == multiset(spreads)
    ensures StableSort.SortedDesc(r, RewardRiskRatio)
    ensures forall v :: StableSort.WithKey(r, RewardRiskRatio, v)
                        == StableSort.WithKey(spreads, RewardRiskRatio, v)
  {
    StableSort.SortDescPermutes(spreads, RewardRiskRatio);
    StableSort.SortDescSorted(spreads, RewardRiskRatio);
    assert forall v :: StableSort.WithKey(StableSort.SortDesc(spreads, RewardRiskRatio), RewardRiskRatio, v)
                       == StableSort.WithKey(spreads, RewardRiskRatio, v) by {
      forall v {
        StableSort.SortDescStable(spreads, RewardRiskRatio, v);
      }
    }
    StableSort.SortDesc(spreads, RewardRiskRatio)
  }

  /** `select_vertical_spread`'s stages in order: the grouping, the spreads of the direction's
      side (calls for "LONG", puts otherwise) and the filter. */
  function Selection(c: SelectorConfig, chain: seq<OptionContract>, direction: string, today: int)
    : Option<OptionSpread>
  {
    if |chain| == 0 then None
    else
      var g := Grouped(c, chain, today);
      if |g| == 0 then None
      else
        var spreads := AllSpreads(g, direction == "LONG");
        if |spreads| == 0 then None
        else
          var filtered := FilterSpreads(c, spreads);
          if |filtered| == 0 then None else Some(RankByRewardRisk(filtered)[0])
  }

  /** `select_vertical_spread`: `None` as soon as a stage comes out empty, otherwise the best
      ranked spread. */
  method SelectVerticalSpread(c: SelectorConfig, chain: seq<OptionContract>, direction: string,
                              today: int)
    returns (selected: Option<OptionSpread>)
    ensures selected == Selection(c, chain, direction, today)
  {
    if |chain| == 0 {
      return None;
    }
    var validExpirations := FilterByDte(c, chain, today);
    if |validExpirations| == 0 {
      return None;
    }
    var spreads;
    if direction == "LONG" {
      spreads := CreateCallVerticalSpreads(validExpirations);
    } else {
      spreads := CreatePutVerticalSpreads(validExpirations);
    }
    if |spreads| == 0 {
      return None;
    }
    var filtered := FilterSpreads(c, spreads);
    if |filtered| == 0 {
      return None;
    }
    var ranked := RankByRewardRisk(filtered);
    selected := Some(ranked[0]);
  }

  /** A selected spread was built for the direction, meets every criterion and has the
      largest reward/risk ratio of all spreads that do; no selection means that no spread of
      the direction's side meets the criteria. */
  lemma SelectionIsBest(c: SelectorConfig, chain: seq<OptionContract>, direction: string,
                        today: int)
    ensures var spreads := AllSpreads(Grouped(c, chain, today), direction == "LONG");
            match Selection(c, chain, direction, today)
            case None => forall s :: s in spreads ==> !MeetsCriteria(c, s)
            case Some(best) =>
              best in spreads && MeetsCriteria(c, best)
              && forall s :: s in spreads && MeetsCriteria(c, s) ==>
                   best.rewardRiskRatio >= s.rewardRiskRatio
  {
    var g := Grouped(c, chain, today);
    var spreads := AllSpreads(g, direction == "LONG");
    if |chain| == 0 {
      assert chain[..0] == chain;
      assert |g| == 0;
    }
    var filtered := FilterSpreads(c, spreads);
    if |filtered| > 0 {
      StableSort.SortDescHeadIsMax(filtered, RewardRiskRatio);
      StableSort.SortDescPermutes(filtered, RewardRiskRatio);
      assert RankByRewardRisk(filtered)[0] in multiset(filtered);
    }
  }

  /** `get_chain_by_expiration`: the entries whose day count lies in [daysMin, daysMax].
      Each entry's expiration is given as its day count from today, or `None` when
      `strptime` cannot read it as "%Y-%m-%d"; that raises `ValueError` (here `None`). */
  function ChainByExpiration<T(!new)>(chain: seq<(Option<int>, T)>, daysMin: int, daysMax: int)
    : (r: Option<seq<(Option<int>, T)>>)
    ensures r.None? <==> exists i :: 0 <= i < |chain| && chain[i].0.None?
    ensures r.Some? ==>
              (forall e :: e in r.value <==> e in chain && daysMin <= e.0.value <= daysMax)
              && Seqs.IsSubsequence(r.value, chain)
  {
    if exists i :: 0 <= i < |chain| && chain[i].0.None? then None
    else
      var keep := (e: (Option<int>, T)) => e.0.Some? && daysMin <= e.0.value <= daysMax;
      Seqs.FilterKeepsPassing(chain, keep);
      Seqs.FilterIsSubsequence(chain, keep);
      Some(Seqs.Filter(chain, keep))
  }
}
