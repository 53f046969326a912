/** `Trader` of `app/trader.py`: the order of the pipeline in `process_signal` (risk gate,
    price, spread selection, sizing, execution, recording) over the risk manager and trade
    executor of this model, and the queueing of scanner signals. The broker's and the
    scanner's answers and the clock are parameters. */
module Trader {
  import opened Wrappers
  import opened OptionModel
  import opened TimeUtils
  import Risk = RiskManager
  import opened TradeExecutor
  import OptionSelector

  /** What the broker answers during one `process_signal`: available funds, the quote's
      `last` field, the option chain the selector fetches and the account summary (`None`
      when that call raises, `Some(None)` when it lacks `net_liquidation`). */
  datatype BrokerView = BrokerView(
    availableFunds: real, last: Option<real>, chain: seq<OptionContract>,
    accountSummary: Option<Option<real>>)

  /** The clock during one `process_signal`, and how the execution attempt goes. */
  datatype Moment = Moment(today: Risk.Day, now: EtTime, nowStamp: int, recordedAt: int,
                           attempt: Attempt)

  /** `market_data.get("last", 100.0)`. */
  function CurrentPrice(last: Option<real>): (p: real)
    ensures last.None? ==> p == 100.0
    ensures last.Some? ==> p == last.value
  {
    if last.Some? then last.value else 100.0
  }

  function StatusText(s: Status): string {
    match s
    case Executed => "EXECUTED"
    case Queued => "QUEUED"
    case Failed => "FAILED"
  }

  /** How far a signal gets through `process_signal` before the executor is called. */
  datatype Plan = RejectedByRisk(reason: string) | NoSpread | ZeroSize
                | Execute(spread: OptionSpread, size: int)

  /** The stages of `process_signal` in order, on the state before the call: the risk gate,
      the spread selection, then the size on the account value. */
  function PlanFor(risk: Risk.RiskConfig, hasBroker: bool, todays: seq<Risk.TradeRecord>,
                   positions: map<string, Risk.Position>, selector: OptionSelector.SelectorConfig,
                   signal: TradeSignal, view: BrokerView, today: int): (p: Plan)
    ensures p.RejectedByRisk? <==>
              !Risk.Admission(risk, todays, positions, signal.symbol, signal.direction,
                              if hasBroker then Some(view.availableFunds) else None).0
    ensures p.Execute? ==> p.size > 0 && p.size <= risk.maxContractsPerTrade
    ensures p.Execute? ==>
              OptionSelector.Selection(selector, view.chain, signal.direction, today)
              == Some(p.spread)
  {
    var admission := Risk.Admission(risk, todays, positions, signal.symbol, signal.direction,
                                    if hasBroker then Some(view.availableFunds) else None);
    if !admission.0 then RejectedByRisk(admission.1)
    else
      match OptionSelector.Selection(selector, view.chain, signal.direction, today)
      case None => NoSpread
      case Some(spread) =>
        var size := Risk.PositionSize(risk, Risk.AccountValue(if hasBroker then view.accountSummary
                                                              else None), spread.cost);
        if size <= 0 then ZeroSize else Execute(spread, size)
  }

  /** The signals `scan_for_signals` queues for one symbol, one per signal type. */
  function Expand(symbol: string, types: seq<string>): (r: seq<TradeSignal>)
    ensures |r| == |types|
    ensures forall k :: 0 <= k < |r| ==> r[k] == TradeSignal(symbol, types[k])
  {
    if |types| == 0 then [] else Expand(symbol, types[..|types| - 1])
                                 + [TradeSignal(symbol, types[|types| - 1])]
  }

  /** The signals queued for a whole scan, symbol by symbol in iteration order. */
  function Flatten(signals: seq<(string, seq<string>)>): seq<TradeSignal> {
    if |signals| == 0 then []
    else Flatten(signals[..|signals| - 1])
         + Expand(signals[|signals| - 1].0, signals[|signals| - 1].1)
  }

  function PairCount(signals: seq<(string, seq<string>)>): nat {
    if |signals| == 0 then 0
    else PairCount(signals[..|signals| - 1]) + |signals[|signals| - 1].1|
  }

  /** One queued signal per (symbol, signal type) pair, and nothing else. */
  lemma {:induction false} FlattenExact(signals: seq<(string, seq<string>)>, s: TradeSignal)
    ensures |Flatten(signals)| == PairCount(signals)
    ensures s in Flatten(signals) <==>
              exists i :: 0 <= i < |signals| && signals[i].0 == s.symbol
                          && s.direction in signals[i].1
  {
    if |signals| > 0 {
      var init := signals[..|signals| - 1];
      var last := signals[|signals| - 1];
      FlattenExact(init, s);
      assert Flatten(signals) == Flatten(init) + Expand(last.0, last.1);
      if s in Expand(last.0, last.1) {
        var k :| 0 <= k < |last.1| && Expand(last.0, last.1)[k] == s;
        assert signals[|signals| - 1].0 == s.symbol && s.direction in signals[|signals| - 1].1;
      }
      if s.symbol == last.0 && s.direction in last.1 {
        var k :| 0 <= k < |last.1| && last.1[k] == s.direction;
        assert Expand(last.0, last.1)[k] == s;
      }
      forall i | 0 <= i < |signals| - 1
        ensures signals[i] == init[i]
      {
      }
    }
  }

  class Trader {
    const risk: Risk.RiskManager
    const executor: Executor
    const selector: OptionSelector.SelectorConfig
    var signalQueue: seq<TradeSignal>

    ghost predicate Valid()
      reads this, executor
    {
      executor.Valid()
    }

    constructor(risk: Risk.RiskManager, executor: Executor,
                selector: OptionSelector.SelectorConfig)
      requires executor.Valid()
      ensures Valid() && signalQueue == []
      ensures this.risk == risk && this.executor == executor && this.selector == selector
    {
      this.risk := risk;
      this.executor := executor;
      this.selector := selector;
      signalQueue := [];
    }

    /** `scan_for_signals`: queues one signal per (symbol, signal type) of the scanner's
        answer, in order, and returns that answer; when the scanner raises (`None`) it queues
        nothing and returns an empty answer. */
    method ScanForSignals(scanned: Option<seq<(string, seq<string>)>>)
      returns (signals: seq<(string, seq<string>)>)
      modifies this
      ensures scanned.None? ==> signals == [] && signalQueue == old(signalQueue)
      ensures scanned.Some? ==>
                signals == scanned.value && signalQueue == old(signalQueue) + Flatten(signals)
    {
      if scanned.None? {
        return [];
      }
      signals := scanned.value;
      var i := 0;
      while i < |signals|
        invariant 0 <= i <= |signals|
        invariant signalQueue == old(signalQueue) + Flatten(signals[..i])
      {
        var symbol := signals[i].0;
        var types := signals[i].1;
        var j := 0;
        while j < |types|
          invariant 0 <= j <= |types|
          invariant signalQueue == old(signalQueue) + Flatten(signals[..i]) + Expand(symbol, types[..j])
        {
          assert types[..j + 1][..j] == types[..j];
          signalQueue := signalQueue + [TradeSignal(symbol, types[j])];
          j := j + 1;
        }
        assert types[..j] == types;
        assert signals[..i + 1][..i] == signals[..i];
        i := i + 1;
      }
      assert signals[..i] == signals;
    }

    /** `process_signal`: a risk rejection, a missing spread or a zero size answers
        "REJECTED" before the executor is reached, and then nothing but today's (empty) trade
        list changes; otherwise the executor runs and, exactly when it executed, the trade is
        appended to today's list and becomes the symbol's position. */
    method ProcessSignal(signal: TradeSignal, view: BrokerView, m: Moment)
      returns (status: string, result: string)
      requires Valid()
      modifies risk, executor
      ensures Valid()
      ensures var plan := PlanFor(risk.config, risk.hasBroker, old(risk.TradesOn(m.today)),
                                  old(risk.activePositions), selector, signal, view, m.today);
              (plan.RejectedByRisk? ==> (status, result) == ("REJECTED", plan.reason))
              && (plan.NoSpread? ==>
                    (status, result) == ("REJECTED", "No suitable option spread found"))
              && (plan.ZeroSize? ==>
                    (status, result)
                    == ("REJECTED", "Position size calculation resulted in zero contracts"))
              && (!plan.Execute? ==>
                    executor.queuedTrades == old(executor.queuedTrades)
                    && executor.totalTrades == old(executor.totalTrades)
                    && executor.successfulTrades == old(executor.successfulTrades))
              && (plan.Execute? ==>
                    status in {"EXECUTED", "QUEUED", "FAILED"}
                    && (status == "EXECUTED"
                        <==> ValidExecutionTime(m.now, executor.config.allowLateDayEntry)
                             && m.attempt.raised.None?)
                    && (status == "EXECUTED" ==>
                          risk.activePositions
                          == old(risk.activePositions)[signal.symbol
                               := Risk.Position(signal.direction, plan.size, plan.spread,
                                                m.today, plan.spread.cost)]
                          && risk.dailyTrades
                             == old(risk.dailyTrades)[m.today
                                  := old(risk.TradesOn(m.today))
                                     + [Risk.TradeRecord(signal.symbol, signal.direction, plan.size,
                                                         plan.spread.spreadType,
                                                         plan.spread.expiration, plan.spread.cost,
                                                         m.recordedAt)]]))
      ensures status != "EXECUTED" ==>
                risk.activePositions == old(risk.activePositions)
                && risk.dailyTrades == old(risk.dailyTrades)[m.today := old(risk.TradesOn(m.today))]
    {
      var plan := Gate(signal, view, m);
      match plan
      case RejectedByRisk(reason) =>
        return "REJECTED", reason;
      case NoSpread =>
        return "REJECTED", "No suitable option spread found";
      case ZeroSize =>
        return "REJECTED", "Position size calculation resulted in zero contracts";
      case Execute(spread, size) =>
        status, result := ExecuteAndRecord(signal, spread, size, m);
    }

    /** The stages of `process_signal` before the executor: `can_enter_trade` (which makes
        sure today has a trade list), the spread selection and the position size. */
    method Gate(signal: TradeSignal, view: BrokerView, m: Moment) returns (plan: Plan)
      modifies risk
      ensures plan == PlanFor(risk.config, risk.hasBroker, old(risk.TradesOn(m.today)),
                              old(risk.activePositions), selector, signal, view, m.today)
      ensures risk.activePositions == old(risk.activePositions)
      ensures risk.dailyTrades == old(risk.dailyTrades)[m.today := old(risk.TradesOn(m.today))]
    {
      var allowed, reason := risk.CanEnterTrade(signal.symbol, signal.direction, m.today,
                                                view.availableFunds);
      if !allowed {
        return RejectedByRisk(reason);
      }
      // The price is handed to the selector, whose spread construction does not use it.
      var currentPrice := CurrentPrice(view.last);
      var spread := OptionSelector.SelectVerticalSpread(selector, view.chain, signal.direction,
                                                        m.today);
      if spread.None? {
        return NoSpread;
      }
      var accountValue := Risk.AccountValue(if risk.hasBroker then view.accountSummary else None);
      var size := Risk.PositionSize(risk.config, accountValue, spread.value.cost);
      if size <= 0 {
        return ZeroSize;
      }
      return Execute(spread.value, size);
    }

    /** The end of `process_signal`: `execute_trade`, then `record_trade` exactly when the
        trade executed, which appends it to today's list and makes it the symbol's
        position. */
    method ExecuteAndRecord(signal: TradeSignal, spread: OptionSpread, size: int, m: Moment)
      returns (status: string, result: string)
      requires Valid()
      modifies risk, executor
      ensures Valid()
      ensures status in {"EXECUTED", "QUEUED", "FAILED"}
      ensures status == "EXECUTED"
              <==> ValidExecutionTime(m.now, executor.config.allowLateDayEntry)
                   && m.attempt.raised.None?
      ensures status == "EXECUTED" ==>
                risk.activePositions
                == old(risk.activePositions)[signal.symbol
                     := Risk.Position(signal.direction, size, spread, m.today, spread.cost)]
                && risk.dailyTrades
                   == old(risk.dailyTrades)[m.today
                        := old(risk.TradesOn(m.today))
                           + [Risk.TradeRecord(signal.symbol, signal.direction, size,
                                               spread.spreadType, spread.expiration, spread.cost,
                                               m.recordedAt)]]
      ensures status != "EXECUTED" ==>
                risk.activePositions == old(risk.activePositions)
                && risk.dailyTrades == old(risk.dailyTrades)
    {
      var st, res := executor.ExecuteTrade(signal, spread, size, m.now, m.nowStamp, m.attempt);
      if st == Executed {
        risk.RecordTrade(signal.symbol, signal.direction, size, spread, m.today, m.recordedAt);
      }
      return StatusText(st), res;
    }
  }
}
