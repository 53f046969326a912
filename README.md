# IBKR options trading system: a verified model of its core

The system scans a universe of stocks for signals, builds vertical option spreads around them,
filters and ranks the spreads, gates each trade through a risk manager, and places it through
Interactive Brokers (a simulated order book or the `ib_insync` client). Open positions are
watched by exit rules. An error handler with circuit breakers, alerting, a performance monitor,
an expiring data cache and metric trackers support the pipeline. Around it sit small tools:
configuration lookup and validation, trading-hours checks, a Docker admin console, text
normalisers for line endings, a configuration checker and a Windows firewall diagnostic.

This Dafny project models that core, one module per source file:

- Spread generation, filtering and ranking: `OptionModel`, `SpreadFilter`, `SpreadManager`,
  `OptionSelector`, `GoOptionSelector`, with the stable descending sort in `StableSort`.
- Risk gate, trade executor, exit rules and trading-session times: `RiskManager`,
  `TradeExecutor`, `ExitStrategy`, `TimeUtils`.
- Error handling and circuit breakers: `ErrorHandler`, `CircuitBreakers`, `KeyedCounts`.
- Glue and brokers: `Trader` (signal pipeline with its collaborators as parameters),
  `SimulatedBroker` (the in-memory order book of `ibkr_api.py`), `IbInsyncBroker`.
- Bounded state: `SystemAlerts`, `AlertManager`, `PerformanceMonitor`, `DataManager`,
  `GoMetrics`, `ScannerMetrics`.
- Parsers and validators: `Config`, `TradingTime`, `TradingScheduler`, `GoApp`,
  `ConfigValidation`, `TraderAdmin`, `FixFileEnding`, `FixFileEndings`, `FixEndings`,
  `FileTree`, `VerifyApiConfig`, `TwsConnectivityFix`.
- Shared helpers: `Wrappers` (Option and Result), `Text`, `Seqs`, `Numerals`.

Objects whose methods update fields in place are classes with `modifies` clauses: the risk
manager, executor, error handler, brokers, alert stores, monitors, cache and metric trackers.
Loops in the source are methods with loop invariants. Each method is proved against a
specification function, and the properties the code promises are lemmas about those functions.
Prices and ratios are `real`. The clock, the broker's answers, socket probes, `netsh` output and
notifier outcomes are parameters.

## Model

| member | source | states |
|---|---|---|
| OptionModel.MidAndSpreadRecoverQuotes | python/src/models/option.py:26-34 | the mid price minus (plus) half the spread is the bid (the ask); for bid <= ask the mid lies between them and the spread is non-negative |
| OptionModel.SpreadPercentage | python/src/models/option.py:36-41 | infinite exactly when bid + ask is 0; otherwise the value times the mid price is 100 times the spread, and it is non-negative for 0 <= bid <= ask |
| OptionModel.MakeSpread | python/src/models/option.py:54-70 | every supplied field is kept; a non-zero supplied ratio is kept, and a zero ratio stays 0 when max_loss <= 0 |
| OptionModel.PostInitRatio | python/src/models/option.py:68-70 | with a zero supplied ratio and max_loss > 0 the stored ratio times max_loss is max_profit |
| OptionModel.PostInitIdempotent | python/src/models/option.py:68-70 | rebuilding a spread from its own fields changes nothing |
| OptionModel.Width | python/src/models/option.py:72-75 | the width is non-negative and is 0 exactly when the two strikes are equal |
| OptionModel.WidthSymmetric | python/src/models/option.py:72-75 | swapping the long and the short leg leaves the width unchanged |
| OptionModel.SpreadDaysToExpiration | python/src/models/option.py:77-80 | the spread's days to expiration are the long leg's |
| SpreadFilter.DteBounds | python/src/options/spread_filter.py:129-142 | the fixed [min_dte, max_dte] range, or with `dte_from_atr` the bounds max(min_dte, int(atr·coef)) and max(max_dte, int(atr·coef·1.5)); the bounds never fall below the fixed ones |
| SpreadFilter.CheckBasicCriteria | python/src/options/spread_filter.py:127-159 | passes exactly when the DTE lies within the bounds (inclusive), min_delta <= abs(delta) <= max_delta, cost·100 <= max_spread_cost and reward_risk >= min_reward_risk |
| SpreadFilter.CheckLiquidity | python/src/options/spread_filter.py:161-188 | passes exactly when both legs' open interest reaches the minimum, neither ask is 0, and both legs' (ask - bid)/ask·100 stay within max_bid_ask_spread_pct |
| SpreadFilter.CheckIvRegime | python/src/options/spread_filter.py:190-204 | passes exactly when iv_rank·100 lies in [min_iv_rank, max_iv_rank] and call_put_skew·100 >= min_call_put_skew_pct |
| SpreadFilter.CheckGreekRisks | python/src/options/spread_filter.py:206-223 | passes exactly when abs(theta)·100, abs(vega) and abs(gamma) are within their limits |
| SpreadFilter.CheckProbabilityMetrics | python/src/options/spread_filter.py:225-245 | with expected_move 0 only probability_of_profit·100 >= min_prob_of_profit is required; otherwise width/expected_move·100 <= max_width_vs_move_pct is required too |
| SpreadFilter.CheckCalendarEvents | python/src/options/spread_filter.py:247-279 | fails exactly when a known earnings (ex-dividend) date lies 0..days_before_earnings (days_before_ex_div) days ahead; unknown or unparseable dates never reject |
| SpreadFilter.SingleCriterionRejects | python/src/options/spread_filter.py:89-159 | each of: DTE out of bounds, abs(delta) out of range, cost too high, reward/risk too low, too little open interest, a zero ask, an earnings or an ex-dividend date in its window, rejects the spread on its own |
| SpreadFilter.FilterSpreads | python/src/options/spread_filter.py:69-87 | the result is the input filtered by all the checks: a spread is kept exactly when it is in the input and passes, in input order (a subsequence) |
| SpreadFilter.AtmIndex | python/src/options/spread_filter.py:306-316 | the ATM index is 0 for an empty chain and a valid index otherwise |
| SpreadFilter.AtmIndexIsFirstClosest | python/src/options/spread_filter.py:306-316 | the ATM option minimises abs(strike - price), and every earlier option is strictly farther: ties go to the first |
| SpreadFilter.FindAtm | python/src/options/spread_filter.py:306-316 | the running-minimum loop returns the ATM index |
| SpreadFilter.StartIndex | python/src/options/spread_filter.py:318-324 | bull spreads start at max(0, atm - offset), bear spreads at min(len - 1, atm + offset) |
| SpreadFilter.MakeCandidate | python/src/options/spread_filter.py:335-363 | legs, strikes, DTE and delta come from the short leg as written; cost = max_profit = short bid - long ask; max_loss is the strike difference minus the credit; probability of profit is 1 - abs(short delta); a positive max loss makes the spread consistent |
| SpreadFilter.CandidateAt | python/src/options/spread_filter.py:332-333 | bull puts sell options[i + width] and buy options[i]; bear calls sell options[i] and buy options[i + width] |
| SpreadFilter.CandidatesIn | python/src/options/spread_filter.py:329-365 | a loop over range(lo, hi) appends at most hi - lo spreads |
| SpreadFilter.SideOptions | python/src/options/spread_filter.py:297-304 | the options chosen by the spread type are sorted by strike |
| SpreadFilter.LoopRange | python/src/options/spread_filter.py:329-331 | the range never reaches past len - width; bull puts run five indices up from the start, bear calls the five below it |
| SpreadFilter.CollectCandidates | python/src/options/spread_filter.py:329-406 | the loop appends exactly the candidates with a positive max loss, in index order |
| SpreadFilter.SelectStrikes | python/src/options/spread_filter.py:281-408 | the result is the value model `SelectedSpreads` of the chain, the price and the spread type's substring flags |
| SpreadFilter.CandidatesInShape | python/src/options/spread_filter.py:358-365 | every kept candidate is consistent and built at an index of the loop range |
| SpreadFilter.BullPutCandidates | python/src/options/spread_filter.py:327-365 | bull-put generation yields at most 5 spreads; each sells puts[i + width] and buys puts[i] for i in the five indices from the start, with max_loss > 0, reward_risk = max_profit/max_loss and probability of profit 1 - abs(short delta) |
| SpreadFilter.BearCallCandidates | python/src/options/spread_filter.py:367-406 | bear-call generation yields at most 5 spreads; each sells calls[i] and buys calls[i + width] for i in the five indices below the start, and is consistent |
| SpreadFilter.BullPutFlags | python/src/options/spread_filter.py:298-327 | "BULL_PUT_SPREAD" selects the puts and the bull-put loop |
| SpreadFilter.BearCallFlags | python/src/options/spread_filter.py:298-367 | "BEAR_CALL_SPREAD" selects the calls and the bear-call loop |
| SpreadManager.FilteredFor | python/src/options/spread_manager.py:61-69 | every spread kept for a type was selected for that type and passes every filter |
| SpreadManager.WithStrategy | python/src/options/spread_manager.py:92 | the copy carries the list's type as its strategy and differs from the spread in nothing else |
| SpreadManager.Tag | python/src/options/spread_manager.py:91-93 | one tagged copy per spread of the list, position by position |
| SpreadManager.Manager.constructor | python/src/options/spread_manager.py:25-28 | the manager starts with the given options configuration |
| SpreadManager.Manager.ReloadConfig | python/src/options/spread_manager.py:30-33 | the configuration is replaced by the current one |
| SpreadManager.Manager.GetSpreadCandidates | python/src/options/spread_manager.py:36-76 | the loop result is the candidates value: empty for a non-positive price, else one filtered list per spread type in order |
| SpreadManager.Manager.GetBestSpread | python/src/options/spread_manager.py:102-125 | None exactly when there is no candidate at all; otherwise the head of the stable descending ranking of all tagged candidates |
| SpreadManager.RankSpreads | python/src/options/spread_manager.py:78-100 | the result is the stable descending sort, by reward/risk, of all spreads of all lists tagged with their list's type, in dictionary order |
| SpreadManager.TaggedMembers | python/src/options/spread_manager.py:88-93 | a spread is among the tagged spreads exactly when it is some list's spread tagged with that list's type |
| SpreadManager.RankingProperties | python/src/options/spread_manager.py:88-100 | the ranking is a permutation of the tagged spreads, in non-increasing reward/risk, with equal reward/risk in input order, and each ranked spread carries the type of the list it came from |
| SpreadManager.BestIsMaximal | python/src/options/spread_manager.py:122-125 | the best spread's reward/risk is at least that of every candidate |
| SpreadManager.FilteredForExact | python/src/options/spread_manager.py:61-74 | a type's list holds exactly the selected spreads of that type that pass every filter, in generation order |
| SpreadManager.CandidatesShape | python/src/options/spread_manager.py:50-76 | a non-positive price gives an empty result; otherwise exactly the keys BULL_PUT_SPREAD then BEAR_CALL_SPREAD, each mapped to its selected spreads that pass every filter |
| SpreadManager.BullPutListSound | python/src/options/spread_manager.py:59-74 | every spread listed for a bull-put type is a consistent bull-put spread that passes every filter |
| SpreadManager.BearCallListSound | python/src/options/spread_manager.py:59-74 | every spread listed for a bear-call type is a consistent bear-call spread that passes every filter |
| SpreadManager.CandidatesAreConsistent | python/src/options/spread_manager.py:58-76 | for a positive price, the BULL_PUT_SPREAD list holds only consistent bull-put spreads and the BEAR_CALL_SPREAD list only consistent bear-call spreads, all passing every filter |
| OptionSelector.Find | python/src/trading/option_selector.py:175 | the lookup finds a position holding the expiration, and finds none exactly when no key equals it |
| OptionSelector.ExpiriesDistinct | python/src/trading/option_selector.py:172-177 | each expiration is a key of the grouping at most once |
| OptionSelector.ExpiriesExact | python/src/trading/option_selector.py:172-177 | an expiration is a key exactly when some option in the DTE window expires then, and exactly those options are listed under it |
| OptionSelector.GroupedStep | python/src/trading/option_selector.py:172-177 | one more option: outside the window nothing changes; otherwise it is appended to its expiration's list, and a new expiration is added at the end |
| OptionSelector.FilterByDte | python/src/trading/option_selector.py:160-179 | the loop builds the grouping of the options inside the DTE window by expiration, in insertion order |
| OptionSelector.GroupedExact | python/src/trading/option_selector.py:160-179 | the keys are distinct; the list under a key holds exactly the chain's options inside MIN_DTE..MAX_DTE with that expiration; every such option has its key |
| OptionSelector.VerticalSpread | python/src/trading/option_selector.py:229-240 | a spread is built exactly when the maximum profit (strike width less long ask plus short bid) is positive |
| OptionSelector.VerticalSpreadValues | python/src/trading/option_selector.py:226-256 | calls are long the lower and short the higher strike, puts short the lower and long the higher; cost, max profit and max loss are stored times 100 with max_loss = cost and max_profit > 0; the delta is long less short; the ratio is max_profit/cost for a positive cost and 0 otherwise |
| OptionSelector.AllSpreadsSnoc | python/src/trading/option_selector.py:213 | one more expiration appends exactly its own spreads |
| OptionSelector.ExpirySpreadsOf | python/src/trading/option_selector.py:214-228 | the body of the expiration loop yields that expiration's spreads |
| OptionSelector.AdjacentSpreads | python/src/trading/option_selector.py:225-258 | the pair loop yields one spread per adjacent pair with a positive max profit, in strike order |
| OptionSelector.CreateCallVerticalSpreads | python/src/trading/option_selector.py:199-262 | the result is the bull-call spreads of every expiration, in dictionary order |
| OptionSelector.CreatePutVerticalSpreads | python/src/trading/option_selector.py:264-327 | the result is the bear-put spreads of every expiration, in dictionary order |
| OptionSelector.PairSpreadsShape | python/src/trading/option_selector.py:225-256 | every spread built from the pairs sits on one adjacent pair of strikes, lower first for calls (long) and for puts (short), with a positive max profit and max_loss = cost |
| OptionSelector.ExpirySpreadsShape | python/src/trading/option_selector.py:213-258 | an expiration with fewer than two legs of the side yields nothing; the legs are sorted by strike; every spread sits on two adjacent legs of its expiration |
| OptionSelector.FilterSpreads | python/src/trading/option_selector.py:181-197 | a spread is kept exactly when it is in the input, MIN_DELTA <= abs(delta) <= MAX_DELTA, cost <= MAX_SPREAD_COST, ratio >= MIN_REWARD_RISK and cost > 0; the result keeps input order |
| OptionSelector.RankByRewardRisk | python/src/trading/option_selector.py:329-338 | the ranking is a permutation of the input in non-increasing reward/risk ratio, equal ratios keeping their input order (Python's sort is stable) |
| OptionSelector.SelectVerticalSpread | python/src/trading/option_selector.py:21-79 | None when the chain, the grouping, the spreads or the filtered spreads are empty, else the head of the ranking |
| OptionSelector.SelectionIsBest | python/src/trading/option_selector.py:34-76 | a selected spread was built for the direction's side, meets every criterion and has the largest ratio among those that do; None means that no spread of that side meets the criteria |
| OptionSelector.ChainByExpiration | python/src/trading/option_selector.py:340-363 | ValueError exactly when some expiration date does not parse; otherwise exactly the entries whose day count lies in [days_min, days_max] are kept, in input order |
| GoOptionSelector.BidAskSpreadPct | TraderAdmin/go_examples/option_selector.go:73-79 | the largest float when the mid price is zero; otherwise the percentage times the mid price is 100 times the bid-ask spread |
| GoOptionSelector.FilterOption | TraderAdmin/go_examples/option_selector.go:82-124 | an option passes exactly when its open interest, bid-ask spread, IV rank and absolute theta, vega and gamma are all within the filter's limits |
| GoOptionSelector.FilterSpread | TraderAdmin/go_examples/option_selector.go:127-163 | a spread passes exactly when its probability of profit, its width against the expected move and its absolute daily theta, vega and gamma are all within the limits |
| GoOptionSelector.StricterFilterAdmitsLess | TraderAdmin/go_examples/option_selector.go:82-163 | an option or spread that passes a filter at least as strict as another also passes the other |
| GoOptionSelector.SkipExpirationForEvents | TraderAdmin/go_examples/option_selector.go:166-188 | an expiry is skipped exactly when a set earnings date or a set ex-dividend date lies within the configured number of whole days of it |
| GoOptionSelector.SkipIsSymmetric | TraderAdmin/go_examples/option_selector.go:168-184 | an event the same time before or after an expiry skips it alike |
| GoOptionSelector.GetTargetDte | TraderAdmin/go_examples/option_selector.go:191-201 | 0 when dynamic DTE is off; otherwise ATR times the coefficient truncated toward zero |
| GoOptionSelector.CappedDistance | TraderAdmin/go_examples/option_selector.go:213-216 | the distance compared in the search lies in [0, MaxInt32] |
| GoOptionSelector.FindBestExpiration | TraderAdmin/go_examples/option_selector.go:204-224 | nothing exactly for no expirations; otherwise an expiration no farther from the target DTE than any other and strictly nearer than every one before it |
| GoOptionSelector.UnskippedExpirations | TraderAdmin/go_examples/option_selector.go:236-250 | the dates kept are exactly the chain's expiries that no event rules out |
| GoOptionSelector.GroupSnoc | TraderAdmin/go_examples/option_selector.go:264-282 | one more option of the chain is assigned in the puts map at its strike exactly when it is an eligible put |
| GoOptionSelector.StrikesSnoc | TraderAdmin/go_examples/option_selector.go:264-282 | one more option adds its strike to the eligible strikes exactly when it is an eligible put |
| GoOptionSelector.PutsKeys | TraderAdmin/go_examples/option_selector.go:264-282 | the grouped puts have exactly the strikes of the chain's eligible puts |
| GoOptionSelector.PutsAreLast | TraderAdmin/go_examples/option_selector.go:264-282 | each strike of the grouped puts holds an eligible put of the chain at that strike after which no eligible put has that strike: the last one wins the map assignment |
| GoOptionSelector.GroupPuts | TraderAdmin/go_examples/option_selector.go:264-282 | the puts map has exactly the strikes of the chain's eligible puts at the expiry, each mapped to the last eligible put of the chain at that strike |
| GoOptionSelector.SortStrikes | TraderAdmin/go_examples/option_selector.go:300-307 | the exchange sort leaves the strikes ascending and a permutation of what they were |
| GoOptionSelector.SortedSetAscends | TraderAdmin/go_examples/option_selector.go:295-307 | sorted distinct strikes ascend strictly |
| GoOptionSelector.RepeatCountsTwice | TraderAdmin/go_examples/option_selector.go:295-298 | a value at two positions occurs at least twice |
| GoOptionSelector.KeysInSomeOrder | TraderAdmin/go_examples/option_selector.go:295-298 | the strikes listed are the map's keys, each once |
| GoOptionSelector.PutVertical | TraderAdmin/go_examples/option_selector.go:318-337 | the spread sells the short put and buys the long put; its width is the strike difference; max profit is 100 times the credit and max profit plus max loss is 100 times the width; its probability of profit is 100·(1 - abs delta of the short put), within [0, 100] when that delta is |
| GoOptionSelector.SelectOptionSpreads | TraderAdmin/go_examples/option_selector.go:227-348 | no expiry exactly when every expiry of the chain is ruled out by an event; otherwise the expiry is an allowed one nearest the target DTE; a candidate exists exactly with at least three eligible put strikes, sold at the middle strike and bought one strike below, with positive width; the result holds the candidate exactly when it passes the spread filter |
| GoOptionSelector.MiddlePutSpread | TraderAdmin/go_examples/option_selector.go:294-343 | the strikes are the puts' strikes in ascending order; a spread is built exactly from three strikes on, selling the middle strike and buying the next lower one |
| RiskManager.PositionSize | python/src/trading/risk_manager.py:25-56 | the size lies in [0, MAX_CONTRACTS_PER_TRADE]; it is 0 when cost <= 0; otherwise it is min(MAX_CONTRACTS_PER_TRADE, floor(account·RISK_PER_TRADE/cost)) when that is positive and 0 otherwise; a positive size never costs more than the risk budget |
| RiskManager.SizeWithinBudget | python/src/trading/risk_manager.py:36-41 | at most floor(budget/cost) contracts cost at most the budget |
| RiskManager.Admission | python/src/trading/risk_manager.py:75-101 | admitted exactly when today's trades and the open positions are below their limits, no same-direction position is held in the symbol and a broker reports at least 5000 of funds; the reason of the first failing check is its exact message |
| RiskManager.StopPrice | python/src/trading/risk_manager.py:201-220 | the stop is max(cost·0.5, 0.05): at least 0.05 and at least half the cost, and equal to one of them |
| RiskManager.AccountValue | python/src/trading/risk_manager.py:185-199 | the broker's net liquidation value when reported, 100000 otherwise (no broker, a failing call or a missing value) |
| RiskManager.Reconciled | python/src/trading/risk_manager.py:165-180 | only tracked positions remain, unchanged; a tracked symbol stays exactly when the broker reports it with a non-zero quantity |
| RiskManager.RiskManager.constructor | python/src/trading/risk_manager.py:10-23 | the trade and position books start empty |
| RiskManager.RiskManager.CanEnterTrade | python/src/trading/risk_manager.py:58-101 | the answer is the admission rule on the book before the call; its only effect is today's (empty) trade list, created when missing |
| RiskManager.RiskManager.RecordTrade | python/src/trading/risk_manager.py:103-136 | exactly one record is appended to today's list, and the symbol's position is set with entry price spread.cost; other days and symbols are unchanged |
| RiskManager.RiskManager.ClosePosition | python/src/trading/risk_manager.py:142-151 | only that symbol's position is removed; an unknown symbol changes nothing |
| RiskManager.RiskManager.UpdatePositionsFromBroker | python/src/trading/risk_manager.py:153-183 | with a broker answer the positions become the reconciled ones (tracked symbols are only removed, never added); without a broker or on a failing call nothing changes |
| RiskManager.RiskManager.GetMetrics | python/src/trading/risk_manager.py:222-238 | the counts are today's trades and the open positions; the remaining counts are never negative and add up with the counts to the limits while below them |
| RiskManager.AdmittedTradeKeepsLimits | python/src/trading/risk_manager.py:75-136 | recording an admitted trade keeps today's trades and the open positions within their limits |
| RiskManager.OppositeDirectionAdmitted | python/src/trading/risk_manager.py:82-89 | an opposite-direction position in the symbol does not block a trade that passes the other checks |
| TradeExecutor.PaperPrice | python/src/trading/trade_executor.py:117-134 | LONG pays long ask - short bid (the combination's ask); any other direction receives long bid - short ask (its bid) |
| TradeExecutor.LivePrice | python/src/trading/trade_executor.py:158-184 | with 0 <= f <= 1 and ordered quotes the limit price lies between the combination's bid and ask; with f <= 0.5 LONG stays at or below the midpoint and the other direction at or above it |
| TradeExecutor.BetweenBounds | python/src/trading/trade_executor.py:177 | bid + (ask - bid)·factor stays within [bid, ask] for a factor in [0, 1], and on the bid's (ask's) side of the midpoint for a factor at most (at least) one half |
| TradeExecutor.WithinEnds | python/src/trading/trade_executor.py:177 | a factor in [0, 1] keeps the point between bid and ask |
| TradeExecutor.BelowMid | python/src/trading/trade_executor.py:177 | a factor of at most one half keeps the point at or below the midpoint |
| TradeExecutor.AboveMid | python/src/trading/trade_executor.py:184 | a factor of at least one half keeps the point at or above the midpoint |
| TradeExecutor.BetweenComplement | python/src/trading/trade_executor.py:177-184 | the points at f and at 1 - f add up to bid + ask |
| TradeExecutor.LiveImprovesOnPaper | python/src/trading/trade_executor.py:128-184 | the live LONG limit never exceeds the paper LONG price, the live SHORT limit is never below the paper SHORT price, and the two live limits add up to bid + ask |
| TradeExecutor.PaperRoundTripCost | python/src/trading/trade_executor.py:129-134 | the paper LONG price exceeds the paper SHORT price by the two legs' bid-ask spreads, so it is never lower with ordered quotes |
| TradeExecutor.ValidExecutionTime | python/src/trading/trade_executor.py:208-235 | false whenever the market is closed; true at ET hour >= 15 when it is open; at 14:45-14:59 exactly when late-day entry is allowed; false otherwise |
| TradeExecutor.MeanSnoc | python/src/trading/trade_executor.py:278-283 | folding one sample into the running average of n samples gives the mean of n + 1 samples |
| TradeExecutor.RemoveFirstAt | python/src/trading/trade_executor.py:259 | `list.remove` of an element not in the part before it removes exactly that occurrence |
| TradeExecutor.RemoveFirstPast | python/src/trading/trade_executor.py:259 | `list.remove` passes over a head that differs from the element |
| TradeExecutor.OutcomeOf | python/src/trading/trade_executor.py:47-115 | a queued entry executes exactly when its turn finds the window open and the attempt goes through, and is queued again exactly when the window is closed |
| TradeExecutor.Outcomes | python/src/trading/trade_executor.py:251-256 | one outcome per turn, each the outcome of that turn |
| TradeExecutor.Kept | python/src/trading/trade_executor.py:251-260 | the kept entries and the executed ones together account for the whole queue, and every kept entry was queued |
| TradeExecutor.Requeued | python/src/trading/trade_executor.py:50-57 | one copy is appended for each turn that finds the window closed, so the copies and the turns inside the window account for the whole queue |
| TradeExecutor.Executions | python/src/trading/trade_executor.py:258-260 | the number of executed entries lies between 0 and the number of turns inside the window |
| TradeExecutor.Attempted | python/src/trading/trade_executor.py:47-50 | the number of turns inside the window lies between 0 and the number of turns |
| TradeExecutor.DrainDistinct | python/src/trading/trade_executor.py:251-267 | with distinct queue entries, draining keeps exactly the entries that were not executed, in order, followed by one fresh copy of each entry whose turn found the window closed |
| TradeExecutor.DrainPrefix | python/src/trading/trade_executor.py:251-260 | after the first k entries of the copy, the queue is the entries among them not executed, then the untouched rest, then the copies queued again |
| TradeExecutor.DrainStepExecuted | python/src/trading/trade_executor.py:258-259 | an executed entry is removed from its own place |
| TradeExecutor.DrainStepNotExecuted | python/src/trading/trade_executor.py:47-69 | an entry whose execution raised stays in its place, and one that finds the window closed also stays while its copy joins the end |
| TradeExecutor.PrefixSteps | python/src/trading/trade_executor.py:251-260 | one more entry of the copy removes it when it executed and appends its copy when the window was closed; the kept entries grow by it unless it executed |
| TradeExecutor.NotInEarlier | python/src/trading/trade_executor.py:251-259 | an entry of a distinct queue is not among the entries kept before it |
| TradeExecutor.Executor.constructor | python/src/trading/trade_executor.py:15-33 | an empty queue, zero counters and average, and the trading mode defaulting to "PAPER" |
| TradeExecutor.Executor.UpdateAvgExecutionTime | python/src/trading/trade_executor.py:269-283 | after the update the average is the mean of all successful execution times; the counters and the queue are unchanged |
| TradeExecutor.Executor.ExecuteTrade | python/src/trading/trade_executor.py:35-115 | outside the window exactly one entry is appended to the queue, the metrics are unchanged and "QUEUED" is returned; inside it a success counts in total and successful and folds its time into the average, a raised exception counts in total and failed; total = successful + failed is kept |
| TradeExecutor.Executor.ProcessQueuedTrades | python/src/trading/trade_executor.py:237-267 | outside the window 0 and nothing changes; inside it every entry of a copy of the queue goes through execute_trade once at its own instant: the executed ones are removed with `list.remove` and counted, those finding the window closed are queued again, and the total, success and failure counters grow by the turns inside the window, the executions and the rest |
| TradeExecutor.Executor.ExecuteQueued | python/src/trading/trade_executor.py:252-260 | one queued entry goes through execute_trade: removed exactly when it executes, a copy appended when the window is closed, and counted as a failure when it raised inside the window |
| TradeExecutor.Executor.GetMetrics | python/src/trading/trade_executor.py:285-301 | the counters as kept; the success rate is 0 without trades and successful/total, in [0, 1], otherwise; the queue length |
| TimeUtils.IsMarketOpen | python/src/utils/time_utils.py:29-56 | open exactly on a weekday from 09:30 inclusive to 16:00 exclusive, Eastern time |
| TimeUtils.IsPremarketOpen | python/src/utils/time_utils.py:93-120 | open exactly on a weekday from 04:00 inclusive to 09:30 exclusive |
| TimeUtils.IsAfterhoursOpen | python/src/utils/time_utils.py:123-150 | open exactly on a weekday from 16:00 inclusive to 20:00 exclusive |
| TimeUtils.SessionsDisjoint | python/src/utils/time_utils.py:45-150 | no instant lies in two of the three sessions, and no session is open on Saturday or Sunday |
| TimeUtils.DaysToNextSession | python/src/utils/time_utils.py:165-172 | between 0 and 3 days are added and the day reached is a weekday; none on a weekday before 16:00; two or more only when tomorrow is a weekend day, three only when the day after is too |
| TimeUtils.NextMarketOpen | python/src/utils/time_utils.py:153-177 | the next open is 09:30:00 on a weekday at most three days ahead, at which the market is open; on a weekday before 16:00 it is today |
| TimeUtils.NextMarketClose | python/src/utils/time_utils.py:180-204 | the next close is 16:00:00 on the same weekday as the next open, when the regular session is closed and after-hours trading is open |
| TimeUtils.TimeParts | python/src/utils/time_utils.py:228-230 | hours·3600 + minutes·60 + seconds is the total, with minutes and seconds in [0, 60) and hours non-negative for a non-negative total |
| TimeUtils.TimePartsUnique | python/src/utils/time_utils.py:228-232 | any split of the total with minutes and seconds in [0, 60) is the one computed |
| ExitStrategy.StopLoss | python/src/trading/exit_strategy.py:85-108 | the stop is the larger of 0.05 and the entry scaled by (1 - STOP_LOSS_PERCENTAGE) for LONG or (1 + STOP_LOSS_PERCENTAGE) otherwise: at least both, and equal to one; with a non-negative percentage a LONG stop is at or below the entry and a short stop at or above it |
| ExitStrategy.ShortProfitTarget | python/src/trading/exit_strategy.py:138-156 | the short-side target is the larger of 0.05 and the entry less min(entry, entry·TARGET_REWARD_RISK): at least both and equal to one; never above the entry, and exactly 0.05 with a reward/risk target of at least 1 |
| ExitStrategy.ProfitTarget | python/src/trading/exit_strategy.py:110-158 | a LONG target lies above the entry by the smaller of the maximum profit (strike width less the entry, by spread type) and entry·TARGET_REWARD_RISK; any other direction takes the short-side target |
| ExitStrategy.RMultipleExit | python/src/trading/exit_strategy.py:160-185 | a LONG target lies R_MULTIPLE_TARGET times the entry-to-stop distance above the entry; a short one is the larger of 0.05 and the entry less that much (at least both, equal to one), and not above the entry |
| ExitStrategy.AtrExitAsWritten | python/src/trading/exit_strategy.py:187-216 | the ATR exit as written fails exactly when the ATR is absent or zero, in either direction (the fallback reads the type of a missing spread); otherwise a LONG exit lies ATR·ATR_TARGET_MULTIPLE above the entry and a short one is the larger of 0.05 and the entry less that much |
| ExitStrategy.AtrExit | python/src/trading/exit_strategy.py:187-216 | without a usable ATR the exit is the position's profit target; otherwise a LONG exit lies ATR·ATR_TARGET_MULTIPLE above the entry and a short one is the larger of 0.05 and the entry less that much (at least both, equal to one) |
| ExitStrategy.AtrFallbackFails | python/src/trading/exit_strategy.py:202-205 | with no ATR or a zero ATR the code as written has no result, for LONG and SHORT alike |
| ExitStrategy.AtrExitAgrees | python/src/trading/exit_strategy.py:202-216 | the code as written yields a level exactly when the ATR is usable, and then the corrected ATR exit yields the same level; otherwise the corrected exit is the position's profit target |
| ExitStrategy.FibonacciExit | python/src/trading/exit_strategy.py:218-257 | a LONG exit lies FIBONACCI_TARGET_LEVEL times the maximum profit above the entry; a short exit is the larger of 0.05 and the entry less entry·FIBONACCI_TARGET_LEVEL (at least both, equal to one), so exactly 0.05 when the level is at least 1 |
| ExitStrategy.CalculateExits | python/src/trading/exit_strategy.py:36-83 | the stop and the profit target are always present; the R-multiple level is present exactly when enabled and is computed from the floored stop; the ATR level exactly when enabled and data are given; the Fibonacci level exactly when enabled |
| ExitStrategy.NewExtreme | python/src/trading/exit_strategy.py:352-369 | the new extreme is the old one or the current price: the larger of the two for LONG, the smaller otherwise |
| ExitStrategy.Decide | python/src/trading/exit_strategy.py:278-327 | the checks fire in order stop, target, expiry, R-multiple, trailing: each reason is returned exactly when its test holds and every earlier one fails; no exit exactly when all tests fail |
| ExitStrategy.PositionRecord.constructor | python/src/trading/exit_strategy.py:278-282 | a position holds its direction, entry, spread, stop and target and no recorded high, low, trailing stop or ATR level |
| ExitStrategy.PositionRecord.CheckTrailingStop | python/src/trading/exit_strategy.py:329-379 | reports a hit exactly when the price lies the trailing percentage below the new high (LONG) or above the new low; records only the new extreme of its direction and changes nothing else |
| ExitStrategy.PositionRecord.ShouldExitPosition | python/src/trading/exit_strategy.py:259-327 | the reason is the decision on the position as it was and an exit is signalled exactly when a reason is given; the recorded extreme moves only when the trailing check is reached; stop, target, trailing stop and ATR level never change |
| ExitStrategy.PositionRecord.StopDistance | python/src/trading/exit_strategy.py:381-400 | 0 when the current price or the stop is 0; otherwise the distance times the current price is (current - stop) for LONG and (stop - current) otherwise; for a positive LONG price the distance is positive exactly when the price is above the stop |
| ExitStrategy.PositionRecord.UpdateExitsForPosition | python/src/trading/exit_strategy.py:402-454 | with trailing stops on, a new high (LONG) or low records itself and a trailing stop at the trailing percentage from it, otherwise both stay; the LONG high never falls and the short low never rises; with adaptive ATR on and data given the ATR level is refreshed, otherwise it stays |
| ExitStrategy.ExtremeMonotone | python/src/trading/exit_strategy.py:352-369 | after any sequence of prices the LONG extreme is at least the start and every price seen, and the short extreme at most them |
| ErrorHandler.IsCriticalError | python/src/utils/error_handler.py:149-168 | an error type is critical exactly when it is one of the seven listed types |
| ErrorHandler.StrategyFor | python/src/utils/error_handler.py:191-204 | the generic recovery is chosen exactly for the components without a breaker of their own |
| ErrorHandler.Trip | python/src/utils/error_handler.py:454-473 | tripping a guarded component sets it tripped from now until CIRCUIT_BREAKER_MINUTES later; an unguarded component changes nothing; no other breaker changes |
| ErrorHandler.TripLastsCooldown | python/src/utils/error_handler.py:465-473 | a breaker tripped at t counts as expired exactly from t plus the configured minutes on |
| ErrorHandler.Route | python/src/utils/error_handler.py:98-147 | an active breaker wins; otherwise a critical error at CIRCUIT_BREAKER_THRESHOLD trips the breaker; otherwise recovery runs only while attempts stay under MAX_RECOVERY_ATTEMPTS; otherwise the attempts are exhausted |
| ErrorHandler.Reply | python/src/utils/error_handler.py:112-147 | success is only ever reported by a component's own recovery strategy, and then its reply is passed on unchanged; exhausted attempts report the maximum in their message |
| ErrorHandler.AttemptsAfter | python/src/utils/error_handler.py:133-136 | recovery adds one attempt under the key; exhausted attempts leave the key present with its count; a breaker step leaves the attempts alone; other keys never change |
| ErrorHandler.Handler.constructor | python/src/utils/error_handler.py:33-66 | a new handler has no counts, attempts or error times and a closed breaker for each of the five guarded components |
| ErrorHandler.Handler.CanUseComponent | python/src/utils/error_handler.py:509-522 | a component without a breaker is always usable; a guarded one exactly while its breaker is not tripped |
| ErrorHandler.Handler.TripCircuitBreaker | python/src/utils/error_handler.py:454-480 | the breakers become `Trip` of the old ones; counts, attempts and error times stay; the bookkeeping invariant is kept |
| ErrorHandler.Handler.AttemptRecovery | python/src/utils/error_handler.py:170-204 | the key's attempts grow by one; the reply is that of the component's strategy (the generic one always fails); nothing else changes |
| ErrorHandler.Handler.CountError | python/src/utils/error_handler.py:93-96 | the key's count grows by one and its last-error time becomes now; nothing else changes |
| ErrorHandler.Handler.HandleError | python/src/utils/error_handler.py:68-147 | counts the error, then replies as `Route` decides from the old breaker, the error type, the new count and the old attempts; the breaker trips exactly on the trip step and the attempts follow `AttemptsAfter`; the bookkeeping invariant is kept |
| ErrorHandler.Handler.CheckCircuitBreakers | python/src/utils/error_handler.py:482-507 | closes exactly the breakers whose reset time has come, leaves the rest, and lists the closed components in registration order |
| ErrorHandler.Handler.ClearErrorCounts | python/src/utils/error_handler.py:524-550 | removes from counts, times and attempts exactly the keys whose last error is older than the threshold and returns how many there were |
| ErrorHandler.Handler.ErrorTotals | python/src/utils/error_handler.py:575-577 | the totals are the sums of all error counts and of all recovery attempts; the error total is at least the number of counted keys |
| ErrorHandler.Handler.BreakerStatuses | python/src/utils/error_handler.py:566-573 | every guarded component has a status, and it reads tripped exactly when its breaker is tripped |
| CircuitBreakers.ExpiredIn | python/src/utils/error_handler.py:489-500 | the listed components are exactly those of the order whose breaker has expired |
| CircuitBreakers.CloseExpired | python/src/utils/error_handler.py:489-507 | the loop lists exactly the expired components in order and closes exactly their breakers |
| CircuitBreakers.ClosingSnoc | python/src/utils/error_handler.py:492-500 | visiting one more breaker closes and lists it exactly when its reset time has come, and changes nothing else |
| KeyedCounts.SumOverRemove | python/src/utils/error_handler.py:576-577 | a sum over the keys is one key's value plus the sum over the rest, whatever key is taken first |
| KeyedCounts.ClearStale | python/src/utils/error_handler.py:534-550 | the loop drops exactly the stale keys from counts, times and attempts and counts them |
| KeyedCounts.SumValues | python/src/utils/error_handler.py:576-577 | the loop's total is the sum of the map's values |
| KeyedCounts.CountsAtLeastOne | python/src/utils/error_handler.py:93-96 | when every count is at least one, their sum is at least the number of keys |
| Trader.CurrentPrice | python/src/app/trader.py:143-149 | a quote without a last price counts as 100.0; otherwise the last price is used |
| Trader.PlanFor | python/src/app/trader.py:137-169 | a signal is refused by risk exactly when the risk gate refuses it; when it reaches execution the size is positive and within the per-trade maximum and the spread is the one the selector picks for the chain |
| Trader.Expand | python/src/app/trader.py:106-113 | one queued signal per signal type of a symbol, in order, each for that symbol |
| Trader.FlattenExact | python/src/app/trader.py:104-116 | the queued signals number one per (symbol, signal type) pair, and a signal is queued exactly when its symbol and type appear together in the scanner's answer |
| Trader.Trader.constructor | python/src/app/trader.py:45-54 | a new trader holds its risk manager, executor and selector and an empty signal queue |
| Trader.Trader.ScanForSignals | python/src/app/trader.py:83-120 | appends to the queue exactly the flattened scanner answer, in order, and returns that answer; when the scanner raises nothing is queued and the answer is empty |
| Trader.Trader.ProcessSignal | python/src/app/trader.py:122-182 | a risk refusal, a missing spread or a zero size answers REJECTED with the source's reasons and leaves the executor's queue and counters alone; otherwise the status is EXECUTED exactly when the time is valid and the order call succeeds, and only then is the trade appended to today's trade list (which the next daily-limit check reads) and recorded as the symbol's position with the same direction, size and spread; any other answer leaves the positions alone and today's list as it was |
| Trader.Trader.Gate | python/src/app/trader.py:136-169 | the risk gate, spread selection and sizing give exactly the plan of the state before the call, and change only whether today has a trade list |
| Trader.Trader.ExecuteAndRecord | python/src/app/trader.py:171-182 | the trade is EXECUTED exactly when the time is valid and the order call succeeds, and then it is appended to today's list and becomes the symbol's position; otherwise the risk book is unchanged |
| SimulatedBroker.AfterFill | python/src/brokers/ibkr_api.py:201-232 | a fill adds the contracts to the quantity for LONG and subtracts them otherwise, appends exactly that one trade, and sets the average price to the fill price unless the position is flat |
| SimulatedBroker.FillAsWrittenRevivesCancelled | python/src/brokers/ibkr_api.py:173-199 | the fill as written turns a CANCELLED order into a FILLED one |
| SimulatedBroker.Fill | python/src/brokers/ibkr_api.py:164-232 | an unknown id or an order that is not SUBMITTED leaves orders and positions as they are; a SUBMITTED order fills as written |
| SimulatedBroker.FillMovesOnePosition | python/src/brokers/ibkr_api.py:201-232 | filling a submitted order marks it FILLED, moves its symbol's quantity by its contracts with the direction's sign, appends one trade, and leaves every other symbol's position unchanged |
| SimulatedBroker.IbkrApi.constructor | python/src/brokers/ibkr_api.py:20-31 | a new broker is disconnected, starts its order ids at 1 and has no orders or positions |
| SimulatedBroker.IbkrApi.Connect | python/src/brokers/ibkr_api.py:44-63 | the simulated connection always succeeds and changes nothing else |
| SimulatedBroker.IbkrApi.Disconnect | python/src/brokers/ibkr_api.py:69-78 | afterwards the broker is disconnected, and nothing else changes |
| SimulatedBroker.IbkrApi.GetNextOrderId | python/src/brokers/ibkr_api.py:80-89 | returns the counter, at least 1, and advances it by exactly one, so successive ids are consecutive and increasing |
| SimulatedBroker.IbkrApi.PlaceOrder | python/src/brokers/ibkr_api.py:91-159 | fails with the source's messages, recording nothing and keeping the counter, when disconnected, for a non-positive size, or for a LIMIT order without a price; it succeeds exactly otherwise, returning the next id and recording the order under it as SUBMITTED with no fill |
| SimulatedBroker.IbkrApi.SimulateOrderFill | python/src/brokers/ibkr_api.py:164-232 | orders and positions become the intended `Fill` of the old ones; the connection and counter stay |
| SimulatedBroker.IbkrApi.GetOrderStatus | python/src/brokers/ibkr_api.py:236-246 | an unknown id yields nothing; a known one yields its record |
| SimulatedBroker.IbkrApi.CancelOrder | python/src/brokers/ibkr_api.py:274-308 | succeeds exactly when connected and the order is known and neither FILLED nor CANCELLED, and then marks only that order CANCELLED; otherwise nothing changes |
| SimulatedBroker.CancelledStaysCancelled | python/src/brokers/ibkr_api.py:164-199 | with the intended fill, a cancelled order is never filled and the book stays as it is |
| IbInsyncBroker.PlanOrder | python/src/brokers/ibkr_ib_insync.py:539-629 | raises ValueError, with the source's messages and in this order, when disconnected, for a non-positive size, or for LIMIT without a price; an unsupported spread type surfaces as RuntimeError; otherwise the legs are calls for BULL_CALL and puts for BEAR_PUT, one leg buys and the other sells, the first leg and the order buy exactly for LONG, and the order is a limit order exactly for LIMIT |
| IbInsyncBroker.ShortMirrorsLong | python/src/brokers/ibkr_ib_insync.py:604-629 | a SHORT order for a spread flips every action of the LONG order and keeps the option right |
| IbInsyncBroker.LastIndex | python/src/brokers/ibkr_ib_insync.py:881-906 | finds the last position element about a symbol, or none when no element is about it |
| IbInsyncBroker.AggregateMeaning | python/src/brokers/ibkr_ib_insync.py:878-906 | a symbol has an entry exactly when some element is about it; the entry's quantity is the sum of its elements' positions and its average price is that of its last element; an absent symbol has nothing held |
| IbInsyncBroker.FieldValueUnset | python/src/brokers/ibkr_ib_insync.py:822-824 | a summary key that no USD value sets stays None |
| IbInsyncBroker.FieldValueLast | python/src/brokers/ibkr_ib_insync.py:826-840 | a summary key holds the converted value of the last USD entry whose tag maps to it |
| IbInsyncBroker.MapAccountValues | python/src/brokers/ibkr_ib_insync.py:791-840 | the summary has exactly the mapped keys, each holding the value of the last USD entry that sets it (a number when it parses, else its text) or None |
| IbInsyncBroker.IbInsyncApi.constructor | python/src/brokers/ibkr_ib_insync.py:20-42 | a new broker is disconnected, starts its order ids at 1 and has no orders or positions |
| IbInsyncBroker.IbInsyncApi.OnError | python/src/brokers/ibkr_ib_insync.py:161-175 | the connection is dropped exactly for codes 502, 504, 1100 and 1300 and otherwise left as it was |
| IbInsyncBroker.IbInsyncApi.GetNextOrderId | python/src/brokers/ibkr_ib_insync.py:502-511 | returns the counter and advances it by exactly one |
| IbInsyncBroker.IbInsyncApi.CancelOrder | python/src/brokers/ibkr_ib_insync.py:707-757 | answers true exactly when connected and the order is known, has a trade and is not Filled, Cancelled or ApiCancelled; then the stored status takes a confirmed cancellation; a refusal changes nothing |
| IbInsyncBroker.IbInsyncApi.GetAccountSummary | python/src/brokers/ibkr_ib_insync.py:759-859 | the error dictionary exactly when disconnected or when net liquidation, equity with loan or buying power is left None or holds text (the closing log line formats those three as numbers and its exception becomes the error dictionary); otherwise every mapped key with the value of the last USD entry that sets it, the three logged ones being numbers |
| IbInsyncBroker.IbInsyncApi.GetPositions | python/src/brokers/ibkr_ib_insync.py:861-909 | empty when disconnected; a copy of the cache when it is non-empty; otherwise the per-symbol aggregation of the library's positions, which also becomes the cache |
| SystemAlerts.NormalizeSeverity | python/src/utils/alert_system.py:74-76 | the severity is one of INFO, WARNING, HIGH, CRITICAL: a known one is kept and any other becomes INFO |
| SystemAlerts.DefaultChannels | python/src/utils/alert_system.py:78-82 | without requested channels, the configured channels of the severity are used, or e-mail when the severity has none |
| SystemAlerts.FormatAlert | python/src/utils/alert_system.py:112-127 | the text starts "[SEVERITY] timestamp - message" and ends with "\nDetails: …" exactly when the details are non-empty; otherwise it is just that head |
| SystemAlerts.TradeSeverity | python/src/utils/alert_system.py:157-162 | a trade alert is HIGH exactly for ERROR, WARNING exactly for CLOSED or STOPPED, and INFO otherwise; each is a known severity |
| SystemAlerts.SystemSeverity | python/src/utils/alert_system.py:181-186 | a system alert is CRITICAL exactly for ERROR, FAILED or CRASHED, WARNING exactly for WARNING, and INFO otherwise |
| SystemAlerts.FailedEmailCountsAsSent | python/src/utils/alert_system.py:87-96 | with e-mail configured and its notifier reporting failure, the success flag as written is still true although nothing was delivered |
| SystemAlerts.AlertSystem.constructor | python/src/utils/alert_system.py:20-54 | the configured channels are exactly those of e-mail, SMS and Slack that are enabled; the history starts empty |
| SystemAlerts.AlertSystem.SendAlert | python/src/utils/alert_system.py:56-110 | succeeds exactly when some requested (or default) channel is configured and reports delivery; appends exactly one record, with the normalised severity and the channels used, whether or not delivery succeeded |
| SystemAlerts.AlertSystem.GetRecentAlerts | python/src/utils/alert_system.py:228-237 | for a count of at least 1, the last min(count, length) alerts in order; a count of 0 returns the whole history, as Python's slice does |
| AlertManager.Trim | python/src/app/alerts.py:104-106 | the trimmed history is the last min(length, 100) entries |
| AlertManager.TrimAppend | python/src/app/alerts.py:102-106 | trimming after every append keeps the same entries as trimming once at the end |
| AlertManager.MetricAlerts | python/src/app/alerts.py:44-78 | at most three alerts, in order: High Latency exactly when the latency exceeds its threshold (500 ms by default), Daily P&L exactly when the P&L is below its minimum (-1000), High Error Rate exactly when the errors exceed their maximum (5), a missing metric reading as 0; a check that fires on a missing metric raises KeyError while building its message, which keeps the alerts before it and skips the later checks; with all three metrics present nothing is raised |
| AlertManager.AlertManager.constructor | python/src/app/alerts.py:23-32 | a new manager keeps its configuration and has an empty history |
| AlertManager.AlertManager.ReloadConfig | python/src/app/alerts.py:34-42 | the configuration is replaced |
| AlertManager.AlertManager.SendAlert | python/src/app/alerts.py:80-127 | the alert becomes the newest entry and the history keeps at most the last 100; the answer is true exactly when an enabled channel with its target set reports delivery |
| AlertManager.AlertManager.CheckMetrics | python/src/app/alerts.py:44-78 | the history becomes the old one with the alerts raised before any KeyError appended in order, trimmed to the last 100, and the method reports the KeyError exactly when a check fires on a missing metric |
| AlertManager.AlertManager.RaiseAlert | python/src/app/alerts.py:56-78 | one alert of the check appended keeps the history equal to the trimmed history of all alerts raised so far |
| AlertManager.AlertManager.GetAlertHistory | python/src/app/alerts.py:222-235 | the whole history when no count is given or the count covers it; otherwise the last count entries; a count of 0 returns everything, as Python's slice does |
| PerformanceMonitor.ThresholdCategory | python/src/utils/performance_monitor.py:236-247 | the five named operations map to api_request, option_selection, order_execution, data_processing and scanning; every other operation is checked under its component's own name |
| PerformanceMonitor.ExecutionAlert | python/src/utils/performance_monitor.py:249-280 | an alert is raised exactly when the category has a critical or a warning limit the time reaches; critical wins over warning and the alert names "<Component> <operation> Time", the time and the limit crossed |
| PerformanceMonitor.AlertMonotone | python/src/utils/performance_monitor.py:253-280 | a slower run of the same operation never gets a milder answer: an alert stays an alert and a critical alert stays critical |
| PerformanceMonitor.SystemTimingsNeverAlert | python/src/utils/performance_monitor.py:79-84 | with the default thresholds the system category holds only CPU and memory limits, so timings of the system component never alert |
| PerformanceMonitor.TimerIdParts | python/src/utils/performance_monitor.py:176 | splitting a timer id at its colons gives back the component and the operation it was started with, when neither contains a colon |
| PerformanceMonitor.SymbolsPerSecond | python/src/utils/performance_monitor.py:306 | the throughput times the scan time is the symbol count for a positive scan time, it is 0 otherwise, and it is never negative for a non-negative count |
| PerformanceMonitor.Numbers | python/src/utils/performance_monitor.py:380 | the numbers read from the samples, one per sample in the same order |
| PerformanceMonitor.Appended | python/src/utils/performance_monitor.py:214-218 | appending a sample adds it at the end of its key's list, creating the list if absent, and leaves every other key alone |
| PerformanceMonitor.Recent | python/src/utils/performance_monitor.py:366 | the recent samples are exactly those stamped at or after the window start |
| PerformanceMonitor.SortedOf | python/src/utils/performance_monitor.py:417 | the ascending arrangement has as many values as the input |
| PerformanceMonitor.SortedOfMeaning | python/src/utils/performance_monitor.py:417 | the ascending arrangement is sorted and a permutation of the input |
| PerformanceMonitor.SortedUnique | python/src/utils/performance_monitor.py:417 | two sorted permutations of the same values are equal, so the in-place sort and the specification arrangement agree |
| PerformanceMonitor.SortedHeadIsLeast | python/src/utils/performance_monitor.py:417 | the head of a sorted sequence is at most the head of any permutation of it |
| PerformanceMonitor.SortedEnds | python/src/utils/performance_monitor.py:383-384 | the first and last of the sorted values are the minimum and the maximum |
| PerformanceMonitor.Ceil | python/src/utils/performance_monitor.py:420 | math.ceil: the least integer at or above k, equal to the floor exactly when k is whole |
| PerformanceMonitor.Rank | python/src/utils/performance_monitor.py:418 | the rank (n - 1) * p / 100 lies in [0, n - 1], is 0 at p = 0 and n - 1 at p = 100 |
| PerformanceMonitor.MulAtMost | python/src/utils/performance_monitor.py:418 | (n - 1) * p is at most (n - 1) * 100 for p at most 100 |
| PerformanceMonitor.InterpolateWithinRange | python/src/utils/performance_monitor.py:419-427 | on sorted values the interpolated value lies between the first and the last, and is the first at rank 0 and the last at rank n - 1 |
| PerformanceMonitor.Between | python/src/utils/performance_monitor.py:425-427 | the weighted mean of two neighbours lies between them |
| PerformanceMonitor.PercentileWithinRange | python/src/utils/performance_monitor.py:406-427 | on sorted values every percentile lies between the minimum and the maximum; the 0th is the minimum and the 100th the maximum |
| PerformanceMonitor.MedianIsPercentile50 | python/src/utils/performance_monitor.py:383-386 | statistics.median of the sorted values equals the interpolated 50th percentile |
| PerformanceMonitor.OperationStatsOf | python/src/utils/performance_monitor.py:380-388 | operation statistics count the times, report their minimum and maximum, an average and a median between them, and a p95 exactly when there are at least 20 times, also between the minimum and the maximum |
| PerformanceMonitor.ComponentStatsOf | python/src/utils/performance_monitor.py:395-402 | component statistics count the values and report the last one, the minimum, the maximum and an average between them |
| PerformanceMonitor.ScanMetricsBreakSummary | python/src/utils/performance_monitor.py:375-380 | a scan recorded by record_scan_performance stores a value under the scanner operation category, and the summary as written then fails with a KeyError |
| PerformanceMonitor.KeyStats | python/src/utils/performance_monitor.py:375-402 | a key's statistics count its recent samples and are operation statistics exactly for the five operation categories |
| PerformanceMonitor.KeyStatsAgrees | python/src/utils/performance_monitor.py:375-402 | the summary as written succeeds exactly when every sample has the field its category reads, and then agrees with the intended statistics |
| PerformanceMonitor.KeyParts | python/src/utils/performance_monitor.py:372 | split(':', 1): a category without a colon and the name after the first colon, which joined give back the key |
| PerformanceMonitor.KeyPartsInjective | python/src/utils/performance_monitor.py:372 | different keys are reported under different category and name pairs, so no entry of the summary overwrites another |
| PerformanceMonitor.SummarizeKey | python/src/utils/performance_monitor.py:375-402 | the statistics computed for one key, with p95 taken on an array sorted in place, are the intended statistics of the key |
| PerformanceMonitor.Percentile | python/src/utils/performance_monitor.py:406-427 | sorts the values in place (sorted and a permutation) and returns the interpolated percentile, which lies between the minimum and the maximum and is one of them at 0 and at 100 |
| PerformanceMonitor.SortedPercentile | python/src/utils/performance_monitor.py:418-427 | on the sorted array the returned value is the interpolated percentile at rank (n - 1) * p / 100 |
| PerformanceMonitor.PercentileOfArrangement | python/src/utils/performance_monitor.py:406-427 | the percentile of the sorted arrangement of any values lies between their minimum and maximum and is one of them at 0 and at 100 |
| PerformanceMonitor.SummarizeStep | python/src/utils/performance_monitor.py:364-402 | one pass of the summary loop keeps the invariant that the summary holds exactly the reported keys visited so far, each with its statistics |
| PerformanceMonitor.SummarisesInsert | python/src/utils/performance_monitor.py:371-402 | adding the entry of a newly visited reported key keeps the summary exact for the visited keys |
| PerformanceMonitor.CoversInsert | python/src/utils/performance_monitor.py:371-402 | adding the entry of a newly visited reported key keeps every visited reported key's entry in place |
| PerformanceMonitor.Monitor.constructor | python/src/utils/performance_monitor.py:29-42 | a new monitor has no timers and no samples, and keeps the given thresholds and throughput minimum |
| PerformanceMonitor.Monitor.StartTimer | python/src/utils/performance_monitor.py:165-178 | the timer id is component:operation:stamp and the start instant is stored under it |
| PerformanceMonitor.Monitor.StopTimer | python/src/utils/performance_monitor.py:180-203 | an unknown id gives 0.0 and changes nothing; a known one is removed, its elapsed time returned, recorded under component:operation from the id with the threshold check's alert, and nothing is recorded when the id has no colon |
| PerformanceMonitor.Monitor.RecordOperationTime | python/src/utils/performance_monitor.py:205-221 | appends the time under component:operation and returns the threshold check's alert |
| PerformanceMonitor.Monitor.RecordMetric | python/src/utils/performance_monitor.py:282-295 | appends the value under category:name |
| PerformanceMonitor.Monitor.RecordScanPerformance | python/src/utils/performance_monitor.py:297-326 | records scan time, symbol count and throughput in that order, and alerts exactly when the throughput is below the minimum, with the throughput, the minimum and the scan's figures |
| PerformanceMonitor.Monitor.GetMetricsSummary | python/src/utils/performance_monitor.py:344-404 | every key with a colon and recent samples is reported under its category and name with its statistics, and nothing else is reported |
| DataManager.Weekday | python/src/data/data_manager.py:513 | the weekday of a day number is one of the seven, Monday being 0 as datetime.weekday() counts |
| DataManager.NextMarketClose | python/src/data/data_manager.py:494-516 | the result is a 16:00 close on a Monday to Friday strictly after now, and no earlier weekday from today on has a close after now |
| DataManager.FreshExpiry | python/src/data/data_manager.py:199-208 | fresh daily bars expire at the next market close, hourly and minute bars after the configured intraday lifetime, and anything else after one hour |
| DataManager.ExpiredKeys | python/src/data/data_manager.py:482-484 | the expired keys are exactly those whose expiry lies strictly before now |
| DataManager.TypePattern | python/src/data/data_manager.py:550-559 | exactly universe, minute and options have a key pattern; any other type is unknown |
| DataManager.RemoveKeys | python/src/data/data_manager.py:486-489 | deleting the keys one by one leaves both maps without exactly those keys |
| DataManager.Cache.constructor | python/src/data/data_manager.py:40-60 | a new cache holds no values and no expiries and keeps the intraday lifetime |
| DataManager.Cache.GetData | python/src/data/data_manager.py:124-213 | a memory hit (caching wanted, key in both maps, now before its expiry) is served unchanged; else an unexpired cache file is served and copied into memory; else the fetched data is cached with its fresh expiry, and a failed fetch answers nothing and changes nothing |
| DataManager.Cache.ClearExpiredCache | python/src/data/data_manager.py:474-492 | removes exactly the entries whose expiry is strictly before now, keeping those expiring at now, and answers their number |
| DataManager.Cache.ClearCache | python/src/data/data_manager.py:518-584 | "all" empties both maps and answers the previous size; a known type removes exactly the keys containing its pattern and answers how many; an unknown type answers 0 and changes nothing |
| DataManager.Matching | python/src/data/data_manager.py:561-565 | the matched keys are exactly the cached keys containing the pattern |
| DataManager.FindMatching | python/src/data/data_manager.py:561-565 | the loop collects exactly the cached keys that contain the pattern |
| DataManager.NextCloseOf | python/src/data/data_manager.py:501-516 | the next close is a weekday 16:00 strictly after now |
| DataManager.NextCloseUnique | python/src/data/data_manager.py:501-516 | a weekday close after now with no weekday close in between is the next close, so the loop and the closed form agree |
| DataManager.NoCloseBefore | python/src/data/data_manager.py:508-514 | every day between now and the next close whose 16:00 lies after now is a weekend day |
| GoMetrics.Mean | go/src/metrics/metrics.go:209-217 | the mean of a non-empty window lies between its minimum and maximum, and an empty window gives 0 |
| GoMetrics.HitRate | go/src/metrics/metrics.go:225-229 | the hit rate is a percentage in [0, 100], 0 before any request, 100 when every request hit, and rate times requests is 100 times hits |
| GoMetrics.Throughput | go/src/metrics/metrics.go:219-223 | with a scan and a positive mean, throughput times mean times scans is the symbol total; otherwise 0; never negative for a non-negative total |
| GoMetrics.MetricTracker.constructor | go/src/metrics/metrics.go:51-120 | a new tracker has empty windows, zero counters and no history, and keeps its invariant |
| GoMetrics.MetricTracker.RecordScan | go/src/metrics/metrics.go:122-134 | the scan time ends the window, which holds the last 100 scan times in order; the scan is counted and its symbols added |
| GoMetrics.MetricTracker.RecordFetch | go/src/metrics/metrics.go:152-163 | the fetch time ends the window, which holds the last 100 fetch times in order; the fetch is counted |
| GoMetrics.MetricTracker.RecordCacheHit | go/src/metrics/metrics.go:170-176 | one more hit and one more request, so hits never exceed requests |
| GoMetrics.MetricTracker.RecordCacheMiss | go/src/metrics/metrics.go:183-188 | one more request only, so hits never exceed requests |
| GoMetrics.MetricTracker.IncrementErrorCount | go/src/metrics/metrics.go:195-200 | the error count grows by one |
| GoMetrics.MetricTracker.GetMetrics | go/src/metrics/metrics.go:204-240 | changes nothing and reports the window mean (0 when empty, else between its minimum and maximum), the throughput, the counters and a hit rate in [0, 100] that is 0 without requests |
| ScannerMetrics.Rate | go/pkg/scanner/metrics.go:116-135 | throughput times total window time is the window's symbol total; 0 for an empty window or zero total time |
| ScannerMetrics.RateNonnegative | go/pkg/scanner/metrics.go:116-135 | non-negative counts and times give a non-negative throughput |
| ScannerMetrics.SumIntsNonnegative | go/pkg/scanner/metrics.go:122-127 | a sum of non-negative symbol counts is non-negative |
| ScannerMetrics.MetricTracker.constructor | go/pkg/scanner/metrics.go:36-45 | a new tracker has empty windows, zero totals, the given update time, and keeps its invariant |
| ScannerMetrics.MetricTracker.RecordScan | go/pkg/scanner/metrics.go:47-64 | the time and count end their windows, which keep equal lengths of at most 100 and hold the latest scans in order; every call is counted, trimmed or not |
| ScannerMetrics.MetricTracker.RecordFetch | go/pkg/scanner/metrics.go:66-83 | the same for fetches: paired windows of at most 100 latest fetches, and every call counted |
| ScannerMetrics.MetricTracker.CalculateAvgScanTime | go/pkg/scanner/metrics.go:102-114 | the loop computes the window mean, 0 when empty, between the window's minimum and maximum |
| ScannerMetrics.MetricTracker.CalculateSymbolsPerSecond | go/pkg/scanner/metrics.go:116-135 | the loop computes the window's symbols over its total time |
| ScannerMetrics.MetricTracker.GetMetrics | go/pkg/scanner/metrics.go:85-100 | reports the window mean, the throughput, the scan total, the given memory reading and CPU 0, and sets the update time |
| ScannerMetrics.Slide | go/pkg/scanner/metrics.go:52-60 | appending to the parallel windows and trimming past 100 keeps each the window of its history |
| ScannerMetrics.Times | go/pkg/scanner/metrics.go:23-24 | the times of a history, one per record |
| ScannerMetrics.Counts | go/pkg/scanner/metrics.go:23-24 | the symbol counts of a history, one per record |
| ScannerMetrics.TimesAt | go/pkg/scanner/metrics.go:52-60 | entry i of the times and of the counts belong to the same record, so the windows pair each time with its count |
| ScannerMetrics.TimesSnoc | go/pkg/scanner/metrics.go:53-54 | recording one more scan appends its time and its count |
| Config.EnvKey | python/src/config/config.py:60 | the variable name has the key's length and no dot: each character is upper-cased, and each dot becomes an underscore |
| Config.LookupAppend | python/src/config/config.py:66-75 | following a path in two parts reaches what the whole path reaches, and a part that fails makes the whole fail |
| Config.LookupNest | python/src/config/config.py:66-75 | a value stored under every segment of a dotted path is found by that path |
| Config.EnvOverrides | python/src/config/config.py:59-63 | a set environment variable wins over the document and the default |
| Config.DocumentLookup | python/src/config/config.py:65-75 | without the variable, a path found in the nested mappings gives its value; a document that is not a mapping, or a missing first segment, gives the default |
| Config.Config.constructor | python/src/config/config.py:20-46 | the settings are the parsed document, or an empty mapping when the file is missing or does not load |
| Config.Config.Get | python/src/config/config.py:48-75 | the environment first, then the dotted path segment by segment, and the default at the first segment not found in a mapping |
| Config.Config.GetAttr | python/src/config/config.py:77-79 | attribute access is get with no default |
| TradingTime.ParseClock | python/src/app/main.py:88-92 | a schedule time that parses is a minute of the day in [0, 1440) |
| TradingTime.ClockOf | python/src/app/main.py:91-92 | datetime.time accepts only hour 0-23 and minute 0-59, giving a minute of the day in [0, 1440) |
| TradingTime.ParseClockOfString | python/src/app/main.py:88-92 | "H:M" with H below 24 and M below 60 written in decimal parses as minute H * 60 + M |
| TradingTime.SplitClock | python/src/app/main.py:88 | splitting "H:M" at colons gives exactly the two numerals |
| TradingTime.NoColonInNumber | python/src/app/main.py:88 | a decimal numeral holds no colon |
| TradingTime.ClockOfParts | python/src/app/main.py:88-92 | two colon-separated fields that int() reads as an in-range hour and minute give that minute of the day |
| TradingTime.IsTradingTime | python/src/app/main.py:69-108 | always trades with neither automatic start nor stop, or when a time does not parse; otherwise now is at or after the start when automatic start is on and at or before the stop when automatic stop is on |
| TradingTime.TradingWindowIsInterval | python/src/app/main.py:94-100 | whatever lies between two trading instants also trades |
| TradingTime.StopIsInclusiveOnlyAtSecondZero | python/src/app/main.py:92-96 | with automatic stop on, one microsecond after the stop minute no longer trades |
| TradingTime.Signals | python/src/app/main.py:118-130 | one signal per observed answer |
| TradingTime.SchedulerThread | python/src/app/main.py:111-130 | the event is set exactly when the answer turns from false to true and cleared exactly when it turns from true to false, starting from trading on |
| TradingTime.SignalsMeaning | python/src/app/main.py:118-130 | each signal compares its answer with the status the answers before it left: a start exactly for false to true, a stop exactly for true to false |
| TradingTime.SignalsAlternate | python/src/app/main.py:116-130 | the event is never set twice or cleared twice in a row: changes alternate starting with a stop, and trading is on exactly after an even number of them |
| TradingScheduler.ResolveZone | python/src/app/scheduler.py:152-155 | a zone the time zone database knows is used as configured; any other falls back to America/New_York |
| TradingScheduler.Two | python/src/app/scheduler.py:163 | a two-digit field of strftime is two characters long |
| TradingScheduler.Clock | python/src/app/scheduler.py:163 | "%H:%M:%S" is eight characters long |
| TradingScheduler.IsTradingTime | python/src/app/scheduler.py:137-164 | false on a day name not among the trading days (default Monday to Friday); otherwise whether start <= "HH:MM:SS" <= end as strings, both ends included, with defaults 09:30:00, 16:00:00 and America/New_York |
| TradingScheduler.ClockOrder | python/src/app/scheduler.py:163-164 | zero-padded "HH:MM:SS" strings compare as the times of day they name |
| TradingScheduler.TwoDigitOrder | python/src/app/scheduler.py:163-164 | two-digit fields followed by anything compare by the number first, then by what follows |
| TradingScheduler.DefaultSchedule | python/src/app/scheduler.py:144-164 | with the defaults a listed weekday trades exactly from 09:30:00 to 16:00:00 inclusive, and other days never |
| GoApp.Minutes | app.go:297-305 | a setting whose hour %d cannot read is valued at minute 0 |
| GoApp.MinutesOfString | app.go:297-305 | "H:M" written in decimal is valued at H * 60 + M |
| GoApp.IsTradingHours | app.go:281-308 | false on Saturday and Sunday unless weekend trading is on; otherwise whether the current minute lies between the start and end minutes, both ends included |
| GoApp.UnreadableEndClosesDay | app.go:303-307 | an end time %d cannot read counts as minute 0, so only midnight can be trading hours |
| GoApp.TestAlertNotification | app.go:844-885 | succeeds exactly for an enabled e-mail channel with recipients or an enabled Slack channel with a webhook; each other case returns its own error, and an unknown channel is named in its error |
| Numerals.ScanPair | app.go:299-304 | Sscanf "%d:%d" leaves both fields 0 when the first number cannot be read |
| Numerals.ScanPairOfString | app.go:299-304 | "H:M" written in decimal scans back as (H, M) |
| ConfigValidation.ErrorText | app_test.go:161-163 | the message starts "Validation error in <field>", ends ": <message>", and holds nothing else |
| ConfigValidation.ValidateConfig | app_test.go:125-153 | no error exactly when MinDTE <= MaxDTE, the IV-rank range is ordered when its filter is on, and both schedule times parse as "15:04" when the schedule is on; the DTE check runs first and the IV-rank check next |
| ConfigValidation.SampleConfigurationIsValid | app_test.go:14-53 | the fully populated sample configuration validates |
| ConfigValidation.FailingCasesAreRejected | app_test.go:54-106 | an inverted DTE range, an inverted IV-rank range with the filter on, and the start time "25:30" are each rejected with their own error |
| ConfigValidation.ParseHourMinuteAccepts | app_test.go:141 | an hour below 24 and a two-digit minute below 60, written "H:MM", are accepted by the "15:04" layout |
| ConfigValidation.ParseFullHourMinute | app_test.go:141-146 | a full "HH:MM" is read digit by digit and accepted exactly when the hour is below 24 and the minute below 60 |
| ConfigValidation.DigitPair | app_test.go:141 | two digits read as a decimal number are ten times the first plus the second |
| Numerals.ParseHourMinute | app_test.go:141-146 | a time the "15:04" layout accepts is an hour in [0, 24) and a minute in [0, 60) |
| TraderAdmin.TrimPrefix | trader-admin/TraderAdmin/app.go:367 | strings.TrimPrefix: a string with the prefix loses exactly that prefix; any other string is unchanged |
| TraderAdmin.KubernetesName | trader-admin/TraderAdmin/app.go:385-391 | a name with more than two "_"-separated parts becomes its second part; any other name is kept |
| TraderAdmin.KubernetesStatus | trader-admin/TraderAdmin/app.go:393-400 | an "Up" status becomes "Running", otherwise an "Exited" status becomes "Stopped", and any other status is kept |
| TraderAdmin.Describe | trader-admin/TraderAdmin/app.go:364-423 | the reported entry has the 12-character short ID and creation time; a name-matched Kubernetes container gets the cleaned-up name and status, any other keeps its name without the leading "/" and its status |
| TraderAdmin.Described | trader-admin/TraderAdmin/app.go:364-424 | at most one entry per listed container |
| TraderAdmin.DescribedExactly | trader-admin/TraderAdmin/app.go:366-423 | every trader container (by label, name keyword or image keyword) is reported |
| TraderAdmin.DescribedOnlyTraders | trader-admin/TraderAdmin/app.go:366-423 | every reported entry describes a listed trader container |
| TraderAdmin.GetContainers | trader-admin/TraderAdmin/app.go:335-435 | without a Docker client or when listing fails, the matching error; otherwise the trader containers described in list order |
| TraderAdmin.KubernetesPodMakesStackPartial | trader-admin/TraderAdmin/app.go:861-877 | a running Kubernetes pod is reported with status "Running", which lacks "Up", so the status as written calls a stack of it "Partial" |
| TraderAdmin.ScannerPodIsRenamed | trader-admin/TraderAdmin/app.go:377-395 | a pod named "k8s_scanner_pod_ns_uid_0" that is up is such a renamed Kubernetes pod |
| TraderAdmin.StackStatus | trader-admin/TraderAdmin/app.go:852-877 | "No Containers" exactly for an empty list, "Running" exactly when every container runs, "Partial" exactly when one does not |
| TraderAdmin.AllUpIsRunning | trader-admin/TraderAdmin/app.go:852-877 | when every trader container is up, every reported entry counts as running, renamed pods included |
| TraderAdmin.Status | trader-admin/TraderAdmin/app.go:838-878 | without a Docker client or when listing fails, the error; otherwise the status of the reported containers |
| TraderAdmin.EligibleIds | trader-admin/TraderAdmin/app.go:602-619 | at most one target per reported container |
| TraderAdmin.EligibleIdsAppend | trader-admin/TraderAdmin/app.go:602-619 | the targets of two lists joined are the targets of each, joined |
| TraderAdmin.EligibleIdsExactly | trader-admin/TraderAdmin/app.go:602-619 | an ID is targeted exactly when a non-Kubernetes container with it qualifies: up and not paused to pause, paused to unpause, up to reload |
| TraderAdmin.FirstError | trader-admin/TraderAdmin/app.go:621-625 | acting target by target and stopping at the first error processes at most all targets, fewer when one fails |
| TraderAdmin.FirstErrorIsTheRun | trader-admin/TraderAdmin/app.go:621-625 | a run that processes a prefix of the targets that all succeed, and stops at the failing one or at the end, is exactly the computed one |
| TraderAdmin.StopsAt | trader-admin/TraderAdmin/app.go:621-625 | a failure at an eligible container stops the run there with that error, after the earlier targets succeeded |
| TraderAdmin.ActOnEligible | trader-admin/TraderAdmin/app.go:602-628 | acts on exactly the eligible containers in list order and returns the first error, acting on none after it |
| TraderAdmin.StackRun | trader-admin/TraderAdmin/app.go:589-732 | a stack action fails without a Docker client or a listing; otherwise it acts on the eligible containers until the first error |
| TraderAdmin.RunStackAction | trader-admin/TraderAdmin/app.go:589-732 | PauseStack, UnpauseStack and ReloadConfig list the containers and act as the stack run says |
| TraderAdmin.PathJoin | trader-admin/TraderAdmin/app.go:973-977 | the joined path starts with the directory and ends with "/" and the entry name |
| TraderAdmin.CacheDir | trader-admin/TraderAdmin/app.go:969-980 | exactly all, universe, minute and options have a directory: the cache directory itself for all and its sub-directory of that name otherwise |
| TraderAdmin.Backups | trader-admin/TraderAdmin/app.go:1136-1140 | at most one backup per directory entry |
| TraderAdmin.BackupsExactly | trader-admin/TraderAdmin/app.go:1136-1140 | a path is listed exactly when a non-directory entry ending in ".toml" joins to it |
| TraderAdmin.Steps | trader-admin/TraderAdmin/app.go:771-820 | one step of the action per container acted on, in order |
| TraderAdmin.StepsPhase | trader-admin/TraderAdmin/app.go:771-820 | every step of one action belongs to that action's phase |
| TraderAdmin.Signalled | trader-admin/TraderAdmin/app.go:797-820 | only containers that accepted the reload signal are counted as signalled |
| TraderAdmin.NoRunningNoSignal | trader-admin/TraderAdmin/app.go:797-820 | without a running Docker container nothing is signalled |
| TraderAdmin.PhaseBlocks | trader-admin/TraderAdmin/app.go:771-820 | steps of a later phase appended after earlier ones keep the phase order |
| TraderAdmin.AdminApp.constructor | trader-admin/TraderAdmin/app.go:197-221 | the app keeps whether Docker is connected and the configuration file and its backup |
| TraderAdmin.AdminApp.SaveConfig | trader-admin/TraderAdmin/app.go:293-323 | an existing file is copied to the backup first; a file that cannot be created gives an error and stays as it was; otherwise it loads back as the saved configuration |
| TraderAdmin.AdminApp.ConfigureSchedule | trader-admin/TraderAdmin/app.go:1014-1042 | an invalid "HH:MM" start or stop time is rejected before anything is loaded or saved; otherwise a configuration that loads is saved with only its schedule changed, each failure giving its own error |
| TraderAdmin.AdminApp.ClearCache | trader-admin/TraderAdmin/app.go:951-1011 | after the configuration loads and its cache directory exists, the directory of a known type is emptied entry by entry until the first failure; an unknown type deletes nothing and is an error |
| TraderAdmin.AdminApp.ListBackups | trader-admin/TraderAdmin/app.go:1113-1144 | the ".toml" files of the backup directory, none when it does not exist, and the read error when it cannot be listed |
| TraderAdmin.AdminApp.SaveAndRestart | trader-admin/TraderAdmin/app.go:735-835 | the save happens first and a failed save touches no container; then pausing, unpausing and signalling follow in phase order, each failure reported with its own prefix |
| TraderAdmin.Restart | trader-admin/TraderAdmin/app.go:757-835 | the trace starts with the save, and without a running Docker container nothing else happens |
| TraderAdmin.RestartInPhaseOrder | trader-admin/TraderAdmin/app.go:771-820 | the save comes first, pausing before unpausing and unpausing before signalling, and a failed pause or unpause sends no signal |
| TraderAdmin.AnyRunningDocker | trader-admin/TraderAdmin/app.go:757-766 | the loop finds whether a running non-Kubernetes container is listed |
| TraderAdmin.SignalRunning | trader-admin/TraderAdmin/app.go:797-820 | every running Docker container is sent the reload signal, failures are ignored, and the accepted ones are returned |
| TraderAdmin.RestartStack | trader-admin/TraderAdmin/app.go:771-820 | the restart phase performs exactly the steps the restart specification lists |
| TraderAdmin.Paths | trader-admin/TraderAdmin/app.go:998-999 | one path per directory entry, each the entry joined to the directory |
| FixFileEnding.BlankRun | python/scripts/fix_file_endings.py:37 | the run of spaces and tabs at the start of a text: all blanks, and followed by a character that is not one |
| FixFileEnding.StripLineBlanks | python/scripts/fix_file_endings.py:37 | removing blanks at line ends never lengthens the text, adds no character, and keeps a non-blank first character |
| FixFileEnding.StripLineBlanksClean | python/scripts/fix_file_endings.py:37 | after the substitution no "\n"-separated line ends in a space or a tab |
| FixFileEnding.CleanCons | python/scripts/fix_file_endings.py:37 | a non-blank character in front of text without line-end blanks keeps it so |
| FixFileEnding.CleanBlanksThen | python/scripts/fix_file_endings.py:37 | blanks in front of such text that starts with neither a blank nor "\n" keep it so |
| FixFileEnding.CleanSuffix | python/scripts/fix_file_endings.py:37 | every suffix of text without line-end blanks is without them too |
| FixFileEnding.StripLineBlanksKeepsClean | python/scripts/fix_file_endings.py:37 | text without line-end blanks is left as it is by the substitution |
| FixFileEnding.ReplaceCrLfWithoutCr | python/scripts/fix_file_endings.py:40 | replacing "\r\n" changes nothing in text without "\r" |
| FixFileEnding.OneFinalNewline | python/scripts/fix_file_endings.py:43 | rstrip("\n") + "\n" ends in exactly one "\n" |
| FixFileEnding.OneFinalNewlineClean | python/scripts/fix_file_endings.py:43 | trimming the final newlines puts no blank at the end of a line |
| FixFileEnding.OneFinalNewlineKeeps | python/scripts/fix_file_endings.py:43 | text ending in exactly one "\n" comes back unchanged |
| FixFileEnding.FixEndingAsWritten | python/scripts/fix_file_endings.py:36-43 | the transform as written ends in exactly one "\n" |
| FixFileEnding.BlankBeforeCrLfSurvives | python/scripts/fix_file_endings.py:37-40 | blanks are stripped before "\r\n" becomes "\n", so "a \r\n" becomes "a \n", whose line still ends in a blank |
| FixFileEnding.FixEnding | python/scripts/fix_file_endings.py:36-43 | the transform with line endings normalised first ends in exactly one "\n" and leaves no blank at any line end |
| FixFileEnding.AsWrittenAgreesWithoutCr | python/scripts/fix_file_endings.py:36-43 | on text without "\r" the transform as written and as intended agree |
| FixFileEnding.CleanTextUnchanged | python/scripts/fix_file_endings.py:36-46 | LF-only text with no line-end blanks and exactly one final newline is a fixed point |
| FixFileEnding.FixEndingStableWithoutCr | python/scripts/fix_file_endings.py:36-46 | on text without "\r" the output has no "\r" and a second pass changes nothing |
| FixFileEnding.PrintableCount | python/scripts/fix_file_endings.py:157 | no more printable bytes than bytes |
| FixFileEnding.IsTextFile | python/scripts/fix_file_endings.py:80-160 | a binary extension is never text and a text extension always is; any other file is text exactly when its first kilobyte reads, holds no NUL, and decodes as UTF-8 or is empty or more than 80% printable ASCII |
| FixFileEnding.WhitespaceLines | python/scripts/fix_file_endings.py:54-65 | at most one reported line per compared line |
| FixFileEnding.WhitespaceLinesExactly | python/scripts/fix_file_endings.py:58-65 | a line number is reported exactly when that original line differs from its fixed line and right-strips to it |
| FixFileEnding.WhitespaceLinesIncreasing | python/scripts/fix_file_endings.py:58-65 | the reported line numbers are 1-based, increasing and within the compared lines |
| FixFileEnding.DiffLines | python/scripts/fix_file_endings.py:54-65 | the loop over the shorter of the two line lists reports exactly the lines that lost only trailing whitespace |
| FixFileEnding.FixFileEnding | python/scripts/fix_file_endings.py:12-77 | a non-text file is reported correct and untouched; an unreadable one neither fixed nor correct; otherwise the file is rewritten with the text the transform as written (blanks stripped before "\r\n" is replaced) makes of it, exactly when that differs; "correct" is the negation of "modified", "CRLF -> LF" is noted exactly for a modified file that held "\r\n", and a modified file reports (1-based, up to the shorter text's line count) the lines that changed and whose old version with trailing whitespace stripped is the new one; without "\r" report and write agree with the corrected hook |
| FixFileEnding.FixFileEndingCorrected | python/scripts/fix_file_endings.py:12-77 | the hook with the intended transform of Findings: a file is rewritten exactly when that transform changes it, and the written text has no blank at a line end and exactly one final "\n" |
| FileTree.Suffix | fix_file_endings.py:63 | Path.suffix: empty, or the part from the last dot, at least two characters, not the whole name and with no other dot |
| FileTree.LastIndexOf | fix_file_endings.py:63 | the position of the last occurrence of a character |
| FileTree.DotFileHasNoSuffix | fix_file_endings.py:63 | a name whose only dot is its first character has an empty suffix |
| FileTree.WalkStaysOutOfExcluded | fix_file_endings.py:120-125 | os.walk with excluded directories pruned visits only files below the root that lie in no excluded directory below it |
| FileTree.FilesBelow | fix_file_endings.py:124-125 | the files of a directory lie directly below it |
| FileTree.SubWalksBelow | fix_file_endings.py:120-122 | the files under the kept sub-directories lie below the directory and cross no excluded directory |
| FixFileEndings.ShouldProcessFile | fix_file_endings.py:60-72 | a file is processed exactly when its lower-cased suffix is a text extension and no path component is an excluded directory |
| FixFileEndings.FixFile | fix_file_endings.py:75-108 | an unreadable file is unmodified; otherwise modified exactly when the transform as written changes the text; the fixed text, ending in exactly one "\n", is written exactly when modified and not a dry run; without "\r" in the file no line of it ends in a blank |
| FixFileEndings.AgreeWithoutCr | fix_file_endings.py:89-95 | on text without "\r" the script's transform and the intended one agree |
| FixFileEndings.BlankBeforeCrLfWritten | fix_file_endings.py:89-95 | the file "a \r\n" is modified and rewritten as "a \n", whose line still ends in a blank |
| FixFileEndings.FixFileCorrected | fix_file_endings.py:75-108 | with line endings normalised before blanks are stripped, the written text has no blank at a line end and ends in exactly one "\n"; on files without "\r" it is the script's result |
| FixFileEndings.SecondRunModifiesNothing | fix_file_endings.py:75-105 | a file rewritten from text without "\r" is reported unmodified on a second run |
| FixFileEndings.Examined | fix_file_endings.py:127-128 | at most one examined path per visited file |
| FixFileEndings.Modified | fix_file_endings.py:129-131 | at most one modified path per visited file |
| FixFileEndings.Rewrites | fix_file_endings.py:100-103 | at most one rewrite per visited file |
| FixFileEndings.ModifiedAreExamined | fix_file_endings.py:127-131 | every modified path was examined and every examined path passes the file filter |
| FixFileEndings.RewritesMatchModified | fix_file_endings.py:100-131 | the rewritten texts go, in order, to exactly the modified paths, and each ends in exactly one "\n" |
| FixFileEndings.ExaminedStayOutOfExcluded | fix_file_endings.py:111-133 | every examined path lies below the given directory, in no excluded directory, and passes the filter |
| FixFileEndings.ExaminedAreWalked | fix_file_endings.py:124-128 | every examined path is a visited file |
| FixFileEndings.Step | fix_file_endings.py:124-131 | one more visited file extends each list by at most that file |
| FixFileEndings.ProcessDirectory | fix_file_endings.py:111-133 | returns the examined and modified files of the pruned walk in visiting order, and, unless it is a dry run, writes to each modified file the text the transform as written makes of it |
| FixEndings.DotFileNeverProcessedAsWritten | fix_endings.py:54-74 | a name whose only dot is its first character has an empty suffix and is not a plain name, so the filter as written refuses it |
| FixEndings.GitignoreNeverProcessed | fix_endings.py:64-74 | ".gitignore" is listed as an extension, yet a file of that name is never processed |
| FixEndings.DotFileProcessed | fix_endings.py:54-74 | the intended filter accepts a listed dot-file outside the excluded directories |
| FixEndings.GitignoreProcessed | fix_endings.py:33 | the intended filter processes ".gitignore" |
| FixEndings.GitattributesProcessed | fix_endings.py:34 | the intended filter processes ".gitattributes" |
| FixEndings.ProcessedOnlyListed | fix_endings.py:54-74 | the intended filter refuses excluded directories and takes an extension-less name only among the plain names and the listed dot-files |
| FixEndings.ShouldProcessFile | fix_endings.py:54-74 | the component scan and the name tests accept exactly the files of the filter as written, which refuses ".gitignore" and ".gitattributes" |
| FixEndings.Normalize | fix_endings.py:97 | replacing "\r\n" and then "\r" by "\n" leaves no "\r", and text without "\r" is unchanged |
| FixEndings.RstripLines | fix_endings.py:100 | one right-stripped line per line, each a prefix of the original |
| FixEndings.Transform | fix_endings.py:97-101 | the output ends in "\n", and is "\n" alone or has a non-whitespace character before its final "\n" |
| FixEndings.SplitPartsAvoid | fix_endings.py:100 | the parts of a text without a character lack it too |
| FixEndings.JoinAvoids | fix_endings.py:101 | joining parts without a character, by another one, does not introduce it |
| FixEndings.TransformHasNoCr | fix_endings.py:97-101 | the output holds no "\r" |
| FixEndings.JoinClean | fix_endings.py:101 | joining stripped lines that hold no "\n" leaves no line ending in whitespace |
| FixEndings.CleanPrefix | fix_endings.py:101 | a prefix of text with clean lines has clean lines |
| FixEndings.TransformClean | fix_endings.py:97-101 | no line of the output ends in whitespace |
| FixEndings.StrippedLinesClean | fix_endings.py:100-101 | the right-stripped lines joined by "\n" have clean lines |
| FixEndings.CleanNewlined | fix_endings.py:101 | one "\n" after clean text that does not end in whitespace keeps it clean |
| FixEndings.SplitSnoc | fix_endings.py:100 | splitting text with one more "\n" at the end gives one more empty line |
| FixEndings.JoinSnoc | fix_endings.py:101 | joining one more empty line adds one "\n" |
| FixEndings.RstripStripped | fix_endings.py:100 | a line not ending in whitespace is its own rstrip |
| FixEndings.SplitStripped | fix_endings.py:100 | every line of clean text that does not end in whitespace is already stripped |
| FixEndings.TransformIdempotent | fix_endings.py:97-101 | applying the transform twice gives what applying it once does |
| FixEndings.CleanTextIsFixed | fix_endings.py:97-101 | clean text without "\r" and not ending in whitespace is a fixed point once one "\n" is added |
| FixEndings.NewlinedLines | fix_endings.py:97-100 | the lines of text without "\r" plus a final "\n" are its lines and one empty line |
| FixEndings.StrippedLinesKept | fix_endings.py:100 | stripped lines and a final empty one are kept by the right-strip |
| FixEndings.RejoinNewlined | fix_endings.py:101 | joining the lines of a text and one empty line gives the text with a final "\n" |
| FixEndings.RstripNewlined | fix_endings.py:101 | rstrip removes the final "\n" from text that otherwise does not end in whitespace |
| FixEndings.FixFile | fix_endings.py:77-114 | unreadable files, files with a NUL byte and non-UTF-8 files are skipped; otherwise the file is rewritten with the transform exactly when it changes the text |
| FixEndings.RewrittenFileIsStable | fix_endings.py:77-110 | a file the script rewrote is left alone by a second run |
| FixEndings.Counts | fix_endings.py:126-131 | under either filter, the modified count is at most the examined count, which is at most the number of visited files |
| FixEndings.NothingReadableNothingRewritten | fix_endings.py:77-134 | a tree whose files are all unreadable has nothing rewritten, under either filter |
| FixEndings.CountsStep | fix_endings.py:126-131 | one more visited file adds one to the examined count exactly when the filter takes it, and one to the modified count exactly when it is also rewritten |
| FixEndings.CountFiles | fix_endings.py:117-134 | the loop counts exactly the files the filter as written takes and those of them rewritten |
| FixEndings.CorrectedCountsCover | fix_endings.py:117-134 | the intended filter examines and rewrites at least as many files as the filter as written |
| FixEndings.CountsAgreeWithoutDotFiles | fix_endings.py:117-134 | on a tree with no file that only the intended filter takes, both filters give the same counts |
| FixEndings.GitignoreCountedOnlyWhenCorrected | fix_endings.py:33-74 | a tree holding only a ".gitignore" that would be rewritten is counted (0, 0) by `main` as written and (1, 1) with the intended filter |
| VerifyApiConfig.AsNumber | tools/verify_api_config.py:138-141 | a YAML value compares with an integer exactly when it is an integer or a boolean |
| VerifyApiConfig.CheckIbkrConfig | tools/verify_api_config.py:73-197 | no configuration or no `ibkr` section gives False; a string section raises exactly when it contains one of the keys the check then indexes, and otherwise gives False; any other non-mapping section raises; for a mapping a comparison raises exactly on a non-numeric client id or timeout or a truthy non-string account; otherwise True exactly when the section is sound: required keys present, local host, a standard port that answers, a positive client id, a non-empty account starting with U or DU, a timeout in [10, 60] when given, and a truthy `auto_reconnect` |
| VerifyApiConfig.CheckTextSection | tools/verify_api_config.py:89-197 | on a string section `in` is a substring test: an error exactly when the string contains host, port, client_id, account, timeout, auto_reconnect or read_only, otherwise False |
| VerifyApiConfig.ConnectionIssues | tools/verify_api_config.py:89-133 | an issue is found exactly when a required key is missing, the host is not local, or a standard port does not answer the probe |
| VerifyApiConfig.EachIssueFails | tools/verify_api_config.py:90-185 | a missing host, port or client id, a missing or false `auto_reconnect`, a client id at most 0, an account not starting with U or DU, or a timeout outside [10, 60] each make the check fail |
| VerifyApiConfig.NonStandardPortIrrelevant | tools/verify_api_config.py:106-110 | two non-standard ports give the same verdict: a non-standard port only warns and is never probed |
| VerifyApiConfig.ReadOnlyIrrelevant | tools/verify_api_config.py:187-192 | setting `read_only` to any value, or leaving it out, changes neither the verdict nor whether the check raises |
| VerifyApiConfig.MissingTimeoutOnlyWarns | tools/verify_api_config.py:162-174 | a section that passes with a timeout of 30 also passes with no timeout |
| VerifyApiConfig.SuggestImprovements | tools/verify_api_config.py:223-271 | nothing for a missing configuration or section; a string section raises exactly when it contains read_only, timeout or auto_reconnect and otherwise gets the first three suggestions, plus the rate one unless it contains max_rate; any other non-mapping section raises; for a mapping an error exactly when the timeout does not compare with an integer, otherwise exactly the wanted suggestions (read-only off, timeout missing or below 20, reconnect off, no rate limit), each once, in the source's order |
| VerifyApiConfig.SuggestForText | tools/verify_api_config.py:233-262 | on a string section each suggestion whose key is not a substring is made, in order, and `.get` on a string raises once read_only, timeout or auto_reconnect is found; the rate suggestion is made exactly when max_rate is not a substring |
| VerifyApiConfig.PassingSectionNeedsNoReconnectTip | tools/verify_api_config.py:223-255 | a section that passes the check is never told to enable reconnection, and is told to raise its timeout only when it is missing or below 20 |
| TwsConnectivityFix.ProfileLines | tools/tws_connectivity_fix.py:116-129 | one reading per output line |
| TwsConnectivityFix.BeforeFirstAt | tools/tws_connectivity_fix.py:121 | `split(" Profile")[0]` of a line starting with a word and " Profile" is that word |
| TwsConnectivityFix.HeaderName | tools/tws_connectivity_fix.py:120-122 | a header line always names the domain, private or public profile |
| TwsConnectivityFix.HeaderWord | tools/tws_connectivity_fix.py:120-121 | a "Domain", "Private" or "Public" header gives the lower-case profile name |
| TwsConnectivityFix.ProfileKeys | tools/tws_connectivity_fix.py:113-129 | only the domain, private and public profiles are ever recorded |
| TwsConnectivityFix.HeaderThenState | tools/tws_connectivity_fix.py:120-129 | a header line followed by a state line records the upper-cased last word of the state line as that profile's state |
| TwsConnectivityFix.FirewallStatus | tools/tws_connectivity_fix.py:101-139 | an error off Windows and when `netsh` fails; otherwise the profiles the line loop records, and "enabled" exactly when some profile's state is "ON" |
| TwsConnectivityFix.LabelColon | tools/tws_connectivity_fix.py:167-183 | on a line starting with a label, `split(":", 1)[1].strip()` is the stripped text after the label |
| TwsConnectivityFix.Fields | tools/tws_connectivity_fix.py:157-183 | one field reading per stripped output line |
| TwsConnectivityFix.Records | tools/tws_connectivity_fix.py:157-189 | every record a rule loop considers is non-empty |
| TwsConnectivityFix.RecordsNonEmpty | tools/tws_connectivity_fix.py:161-167 | each record closed at a "Rule Name:" line is non-empty |
| TwsConnectivityFix.AppendNewExactly | tools/tws_connectivity_fix.py:217-220 | adding only records not yet listed keeps the name-matched list as a prefix, lists exactly the records of both, and lists none twice |
| TwsConnectivityFix.RulesExactly | tools/tws_connectivity_fix.py:141-222 | the intended list holds exactly the records matched by name or by port, the name-matched ones first, none twice when `netsh` lists no rule twice |
| TwsConnectivityFix.FilterExactly | tools/tws_connectivity_fix.py:162-165 | a selection keeps exactly the records that pass its test |
| TwsConnectivityFix.FilterDistinct | tools/tws_connectivity_fix.py:162-165 | a selection from records without repeats has none |
| TwsConnectivityFix.ReadFieldWithAt | tools/tws_connectivity_fix.py:161-183 | a line starting with a label, and with no earlier label, gives that label's field and the stripped text after it |
| TwsConnectivityFix.TwsRuleRecords | tools/tws_connectivity_fix.py:157-215 | a "TWS API" rule on port 7497 is recorded with its direction by the first loop and without it by the second |
| TwsConnectivityFix.TwsRuleListedTwice | tools/tws_connectivity_fix.py:194-220 | as written, that one rule is listed twice, because the second loop's record lacks the direction field and so differs from the first |
| TwsConnectivityFix.TwsRuleSelected | tools/tws_connectivity_fix.py:162-200 | the full record is matched by name and both records by port |
| TwsConnectivityFix.TwsRuleListedOnce | tools/tws_connectivity_fix.py:141-222 | with both selections over the same records the rule is listed once |
| TwsConnectivityFix.ExistingFirewallRules | tools/tws_connectivity_fix.py:141-229 | nothing off Windows or when `netsh` fails; otherwise exactly the intended rule list of its output |
| TwsConnectivityFix.ScanRecords | tools/tws_connectivity_fix.py:157-189 | the rule loop collects exactly the records of the output, closing one at each "Rule Name:" line and at the end |
| TwsConnectivityFix.SelectRules | tools/tws_connectivity_fix.py:162-165 | the records that pass the test, in order |
| TwsConnectivityFix.CreatedRuleIsFound | tools/tws_connectivity_fix.py:237 | a rule the tool creates, "IBKR TWS API Port <port>", is matched by name on the next run |
| TwsConnectivityFix.CheckTwsPorts | tools/tws_connectivity_fix.py:81-99 | exactly the TWS and Gateway ports that answer the probe, in the order 7497, 7496, 4001, 4002 |
| TwsConnectivityFix.SelectPorts | tools/tws_connectivity_fix.py:425-455 | the ports needing a rule are exactly the TWS ports not open, in order; the test script targets the first open port, or 7497 when none is open |
| TwsConnectivityFix.PortsNotOpen | tools/tws_connectivity_fix.py:428-430 | the loop keeps exactly the ports not found open, in order |
| TwsConnectivityFix.PortsFilterExactly | tools/tws_connectivity_fix.py:425-430 | a port needs a rule exactly when it is a TWS port that is not open, and all four need one when none is open |
| TwsConnectivityFix.TargetIsTwsPort | tools/tws_connectivity_fix.py:425-455 | the test script always targets a TWS port, which is open exactly when some port is; each TWS port needs a rule exactly when the probe finds it closed |
| TwsConnectivityFix.RulesToCreate | tools/tws_connectivity_fix.py:436-443 | rules are created only on Windows with the firewall on and `--apply` given, and then one for every port needing a rule |

## Left out

- File, network and process I/O: YAML, TOML and pickle loading and saving, Docker and Kubernetes calls, `netsh`, `tasklist` and `ps`, sockets, SMTP, Slack and SMS. Their results are parameters where the logic depends on them.
- Floating point: prices and ratios are `real`, so NaN, rounding and overflow are not modelled; the infinite sentinels are explicit values.
- Threads, sleeps and background loops: `_process_signals_thread`, `run_scan_cycle`, `start`, `stop` and `get_status` of `python/src/app/trader.py`; the resource thread, `get_system_status`, `_check_resource_thresholds` and `run_health_check` of `performance_monitor.py`; the `main()` loop of `python/src/app/main.py` with its 15-minute trading cycle. Of `scheduler_thread` only the thread itself and its 60-second sleep are left out: its loop is TradingTime.SchedulerThread, over the answers observed on successive passes. Mutexes of the Go trackers are not needed in a sequential model.
- Wall clock and time zones: `convert_to_eastern` is not modelled, so callers supply Eastern-time fields. `get_next_market_close_timestamp` and `time_to_next_market_open` only read the clock and are not modelled.
- Recovery strategy bodies in `error_handler.py` are an oracle: their outcome is a parameter. Only the dispatch and the attempt counting are modelled.
- Alert delivery from the executor and the error handler, and all logging, are not modelled.
- ErrorHandler.Handler.ErrorTotals: the `errors_by_component` grouping of `get_error_summary` is not modelled.
- SpreadManager.RankSpreads: the source tags each caller's dict with a strategy; the model tags copies, so the caller's dicts are unchanged.
- SpreadFilter.SelectStrikes: the source sorts the caller's chain in place; the model sorts a copy.
- TradeExecutor.Executor.ExecuteTrade: one instant serves both the window check and the order id, which the source reads from the clock separately.
- SimulatedBroker: the fill thread and its random fill price are not modelled; the fill is a method that takes the price. The `get_positions`, `get_account_summary`, `get_option_chain` and `get_market_data` stubs return fixed data and are not modelled.
- IbInsyncBroker: `connect`, `qualifyContracts`, `placeOrder`, market-data polling and event wiring are foreign library calls and are not modelled. The wait loop of `cancel_order` is collapsed into one step. The `portfolio_value` entry of `get_account_summary` is not modelled.
- Trader.Trader.ProcessSignal: the generic exception path of `process_signal` is not modelled, and the price argument the selector ignores is dropped.
- AlertManager: the history entries omit the message text, and `test_alert` is not modelled.
- PerformanceMonitor: the psutil readings are not modelled.
- DataManager: the pickle file cache, the file part of `clear_cache`, the Interactive Brokers fetch (an oracle) and the universe and options helpers are not modelled.
- GoMetrics: the Prometheus collectors and the CPU update are not modelled.
- ScannerMetrics: memory usage is a parameter.
- TradingScheduler: the job registration of the `schedule` library is not modelled.
- TradingTime.SchedulerThread: the `clear_expired_cache` call inside the scheduler loop is not modelled.
- TraderAdmin.Status: the source returns ("Docker Not Connected", err) and ("Error", err); the model returns only the error. `PauseContainer`, `UnpauseContainer` and `SendSignal` are oracles. `DeployStack`, `CreateBackup`, `RestoreBackup`, `TestIBKRConnection` and the version getters are Docker and file I/O and are not modelled.
- TraderAdmin.AdminApp.SaveConfig: a failed backup copy and a failed TOML encode are file I/O and are not modelled; the model assumes the copy succeeds and the encode never fails, so "failed to encode config" is never returned.
- Config.EnvKey: upper-cases ASCII letters only; Python's `str.upper()` also maps letters of other scripts and can lengthen the text (ß becomes SS), which the model does not capture.
- FixFileEnding.FixFileEnding: the UTF-8 and Latin-1 decoding and re-encoding are not modelled, nor is the grouping of results in `main`. The file holds text once it is read.
- FixEndings.FixFile: the rewrite test compares the new text with the decoded text, which for valid UTF-8 is the same as comparing encoded bytes.
- FixFileEndings.FixFile: does not promise that no line of the written text ends in a blank, because `fix_file_endings.py` strips blanks before it turns "\r\n" into "\n" (see Findings); FixFileEndings.FixFileCorrected carries that promise.
- FixFileEndings.RewritesMatchModified: for the same reason promises only the single final newline of each written text, not the absence of line-end blanks.
- FixFileEndings: the file is read as bytes and decoded with `errors="replace"`, so invalid UTF-8 comes back as U+FFFD in the rewritten file; the model starts from the decoded text and does not capture that replacement.
- VerifyApiConfig: `load_config`, `check_config_files` and `main` are file I/O and are not modelled.
- TwsConnectivityFix: `is_admin`, `check_port`, `check_tws_process`, the `netsh` call of `create_firewall_rule` and the test script that `create_port_connectivity_test` writes are process and file I/O. They are not modelled beyond the rule name and the choice of rules to create.
- The backtest engines, strategies, gRPC scanner service, configuration watchers, UI and mock data generators lie outside the core and are not modelled.

## Findings

| source | as written | input that shows it | evidently intended | confidence | as-written member | corrected member |
|---|---|---|---|---|---|---|
| python/src/trading/exit_strategy.py:202-205 | without an ATR, the ATR exit falls back to the profit target with no spread, which reads the spread's type and fails in either direction | direction "LONG" or "SHORT" with `atr` missing or 0 | fall back to the position's own profit target | not executed | ExitStrategy.AtrFallbackFails | ExitStrategy.AtrExitAgrees |
| python/src/brokers/ibkr_api.py:173-199 | the simulated fill does not check the order's status, so a cancelled order later fills | place an order, cancel it, then let its fill run | only a SUBMITTED order fills | not executed | SimulatedBroker.FillAsWrittenRevivesCancelled | SimulatedBroker.Fill |
| python/src/utils/alert_system.py:87-96 | the e-mail notifier returns False on SMTP failure without raising, so the alert counts as sent | channels ["email"], e-mail configured, SMTP failing | an alert counts as sent only when a notifier reports success | not executed | SystemAlerts.FailedEmailCountsAsSent | SystemAlerts.AlertSystem.SendAlert |
| python/src/utils/performance_monitor.py:309-380 | scan metrics are stored under "scanner", an operation category, and the summary reads their missing `execution_time` | one `record_scan_performance`, then `get_metrics_summary` | each sample contributes its own value | not executed | PerformanceMonitor.ScanMetricsBreakSummary | PerformanceMonitor.KeyStatsAgrees |
| trader-admin/TraderAdmin/app.go:861-877 | `GetContainers` (lines 393-395) rewrites a running Kubernetes pod's status to "Running", which lacks "Up", so the stack is reported "Partial" | one pod "/k8s_scanner_pod_ns_uid_0" with status "Up 5 minutes" | a running pod counts as up | not executed | TraderAdmin.KubernetesPodMakesStackPartial | TraderAdmin.Status |
| python/scripts/fix_file_endings.py:37-43 | trailing blanks are stripped before "\r\n" becomes "\n", so blanks before "\r\n" survive, and the hook writes them back | the text "a \r\n" becomes "a \n" | no line of the output ends in a blank | not executed | FixFileEnding.BlankBeforeCrLfSurvives | FixFileEnding.FixFileEndingCorrected |
| fix_file_endings.py:89-95 | the root copy of the script also strips trailing blanks before "\r\n" becomes "\n", so a file's blanks before "\r\n" are written back | a file holding "a \r\n" is rewritten as "a \n" | no line of the rewritten file ends in a blank | not executed | FixFileEndings.BlankBeforeCrLfWritten | FixFileEndings.FixFileCorrected |
| fix_endings.py:33-74 | ".gitignore" is listed as an extension, but its `Path.suffix` is empty, so the file is never processed, examined or counted by `main` | a file named ".gitignore" holding "\r\n" | the listed dot-files are processed | not executed | FixEndings.GitignoreNeverProcessed | FixEndings.GitignoreProcessed |
| tools/tws_connectivity_fix.py:194-220 | the port loop records fewer fields than the name loop, so a rule matched by both is listed twice | rule "TWS API", enabled, direction In, local port 7497 | each rule is listed once | not executed | TwsConnectivityFix.TwsRuleListedTwice | TwsConnectivityFix.TwsRuleListedOnce |
