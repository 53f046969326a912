/** `SpreadManager` of `options/spread_manager.py`: candidate generation for the two credit
    spread types, ranking across types by reward/risk, and the best spread. The current
    day (read by the calendar check) is a parameter. */
module SpreadManager {
  import opened Wrappers
  import Seqs
  import StableSort
  import opened SpreadFilter

  /** The spread types generated, in the order they are added to the result. */
  const SpreadTypes: seq<string> := ["BULL_PUT_SPREAD", "BEAR_CALL_SPREAD"]

  /** The result dictionary of `get_spread_candidates`: spread type to filtered spreads,
      in insertion order. */
  type Candidates = seq<(string, seq<Spread>)>

  /** `filter_spreads(select_strikes(...))` for one spread type. */
  function FilteredFor(c: FilterConfig, chain: Chain, u: Underlying, today: int, t: string)
    : (r: seq<Spread>)
    ensures forall s :: s in r ==>
              s in SelectedSpreads(c, chain, u.price, FlagsOf(t)) && PassesAllFilters(c, s, u, today)
  {
    Seqs.Filter(SelectedSpreads(c, chain, u.price, FlagsOf(t)),
                s => PassesAllFilters(c, s, u, today))
  }

  /** The candidates `get_spread_candidates` returns. */
  function CandidatesOf(c: FilterConfig, chain: Chain, u: Underlying, today: int): Candidates {
    if u.price <= 0.0 then []
    else seq(|SpreadTypes|, k requires 0 <= k < |SpreadTypes| =>
               (SpreadTypes[k], FilteredFor(c, chain, u, today, SpreadTypes[k])))
  }

  /** `spread["strategy"] = strategy_type`. */
  function WithStrategy(s: Spread, strategy: string): (r: Spread)
    ensures r.strategy == Some(strategy)
    ensures r.(strategy := s.strategy) == s
  {
    s.(strategy := Some(strategy))
  }

  /** The spreads of one list with their "strategy" key set to the list's type. */
  function Tag(spreads: seq<Spread>, strategy: string): (r: seq<Spread>)
    ensures |r| == |spreads|
    ensures forall i :: 0 <= i < |r| ==> r[i] == WithStrategy(spreads[i], strategy)
  {
    seq(|spreads|, i requires 0 <= i < |spreads| => WithStrategy(spreads[i], strategy))
  }

  /** All spreads of all lists, tagged with their list's type, in dictionary order. */
  function Tagged(groups: Candidates): seq<Spread> {
    if |groups| == 0 then []
    else
      var last := groups[|groups| - 1];
      Tagged(groups[..|groups| - 1]) + Tag(last.1, last.0)
  }

  /** The ranking key: `x.get("reward_risk", 0)`. */
  function RewardRisk(s: Spread): real {
    s.rewardRisk
  }

  /** The manager holds the `options` configuration section and the filter built from it. */
  class Manager {
    var filterConfig: FilterConfig

    constructor(config: FilterConfig)
      ensures filterConfig == config
    {
      filterConfig := config;
    }

    /** `reload_config`: replaces the filter configuration with the current one. */
    method ReloadConfig(config: FilterConfig)
      modifies this
      ensures filterConfig == config
    {
      filterConfig := config;
    }

    /** `get_spread_candidates`: nothing for a non-positive price; otherwise, for each spread
        type in turn, the selected strikes that pass every filter. */
    method GetSpreadCandidates(chain: Chain, u: Underlying, today: int)
      returns (results: Candidates)
      ensures results == CandidatesOf(filterConfig, chain, u, today)
    {
      results := [];
      if u.price <= 0.0 {
        return;
      }
      var k := 0;
      while k < |SpreadTypes|
        invariant 0 <= k <= |SpreadTypes|
        invariant |results| == k
        invariant forall j :: 0 <= j < k ==>
                    results[j] == (SpreadTypes[j],
                                   FilteredFor(filterConfig, chain, u, today, SpreadTypes[j]))
      {
        var spreads := SelectStrikes(filterConfig, chain, u.price, SpreadTypes[k]);
        var filtered := FilterSpreads(filterConfig, spreads, u, today);
        results := results + [(SpreadTypes[k], filtered)];
        k := k + 1;
      }
    }

    /** `get_best_spread`: the head of the ranking, or `None` when there is no candidate. */
    method GetBestSpread(chain: Chain, u: Underlying, today: int) returns (best: Option<Spread>)
      ensures var all := Tagged(CandidatesOf(filterConfig, chain, u, today));
              (best.None? <==> |all| == 0)
              && (best.Some? ==> best.value == StableSort.SortDesc(all, RewardRisk)[0])
    {
      var candidates := GetSpreadCandidates(chain, u, today);
      var ranked := RankSpreads(candidates);
      if |ranked| > 0 {
        best := Some(ranked[0]);
      } else {
        best := None;
      }
    }
  }

  /** `rank_spreads`: every spread of every list, tagged with its list's type, then sorted by
      reward/risk, largest first, ties in input order. The tags are set on copies: the
      caller's dictionaries are not updated in place. */
  method RankSpreads(groups: Candidates) returns (ranked: seq<Spread>)
    ensures ranked == StableSort.SortDesc(Tagged(groups), RewardRisk)
  {
    var all: seq<Spread> := [];
    var g := 0;
    while g < |groups|
      invariant 0 <= g <= |groups|
      invariant all == Tagged(groups[..g])
    {
      var (strategy, spreads) := groups[g];
      var j := 0;
      while j < |spreads|
        invariant 0 <= j <= |spreads|
        invariant all == Tagged(groups[..g]) + Tag(spreads[..j], strategy)
      {
        all := all + [WithStrategy(spreads[j], strategy)];
        j := j + 1;
      }
      assert spreads[..j] == spreads;
      assert groups[..g + 1][..g] == groups[..g];
      g := g + 1;
    }
    assert groups[..g] == groups;
    ranked := StableSort.SortDesc(all, RewardRisk);
  }

  /** A spread is among the tagged spreads iff it is a spread of some list with that list's
      type as its strategy. */
  lemma {:induction false} TaggedMembers(groups: Candidates, x: Spread)
    ensures x in Tagged(groups) <==>
              exists k, y :: 0 <= k < |groups| && y in groups[k].1
                             && x == WithStrategy(y, groups[k].0)
  {
    if |groups| > 0 {
      var n := |groups| - 1;
      var init := groups[..n];
      TaggedMembers(init, x);
      assert forall k :: 0 <= k < n ==> init[k] == groups[k];
      var tagged := Tag(groups[n].1, groups[n].0);
      if x in tagged {
        var i :| 0 <= i < |tagged| && tagged[i] == x;
        assert groups[n].1[i] in groups[n].1;
      }
      if exists k, y :: 0 <= k < |groups| && y in groups[k].1
                         && x == WithStrategy(y, groups[k].0) {
        var k, y :| 0 <= k < |groups| && y in groups[k].1
                    && x == WithStrategy(y, groups[k].0);
        if k == n {
          var i :| 0 <= i < |groups[n].1| && groups[n].1[i] == y;
          assert tagged[i] == x;
        }
      }
    }
  }

  /** The ranking is a permutation of the tagged spreads, in non-increasing reward/risk
      order, with equal reward/risk keeping input order; each ranked spread carries the type
      of the list it came from. */
  lemma RankingProperties(groups: Candidates)
    ensures var ranked := StableSort.SortDesc(Tagged(groups), RewardRisk);
            multiset(ranked) == multiset(Tagged(groups))
            && StableSort.SortedDesc(ranked, RewardRisk)
            && (forall v :: StableSort.WithKey(ranked, RewardRisk, v)
                            == StableSort.WithKey(Tagged(groups), RewardRisk, v))
            && (forall x :: x in ranked ==>
                  exists k, y :: 0 <= k < |groups| && y in groups[k].1
                                 && x == WithStrategy(y, groups[k].0))
  {
    var all := Tagged(groups);
    StableSort.SortDescPermutes(all, RewardRisk);
    StableSort.SortDescSorted(all, RewardRisk);
    forall v ensures StableSort.WithKey(StableSort.SortDesc(all, RewardRisk), RewardRisk, v)
                     == StableSort.WithKey(all, RewardRisk, v) {
      StableSort.SortDescStable(all, RewardRisk, v);
    }
    forall x | x in StableSort.SortDesc(all, RewardRisk)
      ensures exists k, y :: 0 <= k < |groups| && y in groups[k].1
                             && x == WithStrategy(y, groups[k].0)
    {
      assert x in multiset(all);
      TaggedMembers(groups, x);
    }
  }

  /** The best spread has the largest reward/risk of all candidates. */
  lemma BestIsMaximal(groups: Candidates)
    requires |Tagged(groups)| > 0
    ensures forall x :: x in Tagged(groups) ==>
              StableSort.SortDesc(Tagged(groups), RewardRisk)[0].rewardRisk >= x.rewardRisk
  {
    StableSort.SortDescHeadIsMax(Tagged(groups), RewardRisk);
  }

  /** `spreads` holds exactly the generated spreads of type `t` that pass every filter, and
      holds them in generation order. */
  ghost predicate ExactlyPassing(spreads: seq<Spread>, c: FilterConfig, chain: Chain,
                                 u: Underlying, today: int, t: string)
  {
    (forall s :: s in spreads <==>
       s in SelectedSpreads(c, chain, u.price, FlagsOf(t)) && PassesAllFilters(c, s, u, today))
    && Seqs.IsSubsequence(spreads, SelectedSpreads(c, chain, u.price, FlagsOf(t)))
  }

  lemma FilteredForExact(c: FilterConfig, chain: Chain, u: Underlying, today: int, t: string)
    ensures ExactlyPassing(FilteredFor(c, chain, u, today, t), c, chain, u, today, t)
  {
    var all := SelectedSpreads(c, chain, u.price, FlagsOf(t));
    Seqs.FilterKeepsPassing(all, s => PassesAllFilters(c, s, u, today));
    Seqs.FilterIsSubsequence(all, s => PassesAllFilters(c, s, u, today));
  }

  /** A non-positive price yields no candidates; otherwise the bull-put list comes first and
      the bear-call list second, each holding exactly the generated spreads of that type that
      pass every filter, in generation order. */
  lemma CandidatesShape(c: FilterConfig, chain: Chain, u: Underlying, today: int)
    ensures u.price <= 0.0 ==> CandidatesOf(c, chain, u, today) == []
    ensures u.price > 0.0 ==>
              var r := CandidatesOf(c, chain, u, today);
              |r| == 2 && r[0].0 == "BULL_PUT_SPREAD" && r[1].0 == "BEAR_CALL_SPREAD"
              && ExactlyPassing(r[0].1, c, chain, u, today, "BULL_PUT_SPREAD")
              && ExactlyPassing(r[1].1, c, chain, u, today, "BEAR_CALL_SPREAD")
  {
    FilteredForExact(c, chain, u, today, "BULL_PUT_SPREAD");
    FilteredForExact(c, chain, u, today, "BEAR_CALL_SPREAD");
  }

  /** The filtered list of a bull-put type holds consistent bull-put spreads only. */
  lemma BullPutListSound(c: FilterConfig, chain: Chain, u: Underlying, today: int, t: string)
    requires IsBullPut(FlagsOf(t)) && !FlagsOf(t).call
    ensures forall s :: s in FilteredFor(c, chain, u, today, t) ==>
              Consistent(s) && s.kind == BullPutSpread && PassesAllFilters(c, s, u, today)
  {
    var puts := StableSort.SortAsc(chain.puts, StrikeKey);
    BullPutCandidates(c, chain, u.price, FlagsOf(t), puts,
                      MaxI(0, AtmIndex(puts, u.price) - c.strikeOffset));
  }

  /** The filtered list of a bear-call type holds consistent bear-call spreads only. */
  lemma BearCallListSound(c: FilterConfig, chain: Chain, u: Underlying, today: int, t: string)
    requires IsBearCall(FlagsOf(t)) && !FlagsOf(t).bull
    ensures forall s :: s in FilteredFor(c, chain, u, today, t) ==>
              Consistent(s) && s.kind == BearCallSpread && PassesAllFilters(c, s, u, today)
  {
    var calls := StableSort.SortAsc(chain.calls, StrikeKey);
    BearCallCandidates(c, chain, u.price, FlagsOf(t), calls,
                       MinI(|calls| - 1, AtmIndex(calls, u.price) + c.strikeOffset));
  }

  /** Every candidate listed under "BULL_PUT_SPREAD" is a consistent bull-put spread that
      passes every filter, and likewise for "BEAR_CALL_SPREAD". */
  lemma CandidatesAreConsistent(c: FilterConfig, chain: Chain, u: Underlying, today: int)
    requires u.price > 0.0
    ensures var r := CandidatesOf(c, chain, u, today);
            (forall s :: s in r[0].1 ==>
               Consistent(s) && s.kind == BullPutSpread && PassesAllFilters(c, s, u, today))
            && (forall s :: s in r[1].1 ==>
                  Consistent(s) && s.kind == BearCallSpread && PassesAllFilters(c, s, u, today))
  {
    BullPutFlags();
    BearCallFlags();
    BullPutListSound(c, chain, u, today, SpreadTypes[0]);
    BearCallListSound(c, chain, u, today, SpreadTypes[1]);
  }
}
