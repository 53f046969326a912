/** `RiskManager` of `trading/risk_manager.py`: position sizing, the ordered admission check,
    and the book of today's trades and open positions. The clock (today's date and the
    current timestamp) and the broker's answers are parameters. */
module RiskManager {
  import opened Wrappers
  import opened Text
  import opened OptionModel

  /** The risk parameters of the application configuration. */
  datatype RiskConfig = RiskConfig(
    maxPositions: int, maxDailyTrades: int, riskPerTrade: real, maxContractsPerTrade: int)

  const DefaultRiskConfig := RiskConfig(5, 3, 0.02, 10)

  /** The buying power the broker must report, hard-coded in the admission check. */
  const MinAvailableFunds: real := 5000.0

  /** A calendar day, standing for the "%Y-%m-%d" key of `daily_trades`. */
  type Day = int

  /** One entry of a day's trade list. */
  datatype TradeRecord = TradeRecord(
    symbol: string, direction: string, contracts: int, spreadType: SpreadType,
    expiration: int, cost: real, timestamp: int)

  /** One entry of `active_positions`. */
  datatype Position = Position(
    direction: string, contracts: int, spread: OptionSpread, entryDate: Day, entryPrice: real)

  /** The dictionary `get_metrics` returns. */
  datatype RiskMetrics = RiskMetrics(
    dailyTrades: int, maxDailyTrades: int, activePositions: int, maxPositions: int,
    remainingTradesToday: int, remainingPositions: int)

  /** `calculate_position_size`: the contracts whose total cost stays within the risk budget,
      capped at the per-trade maximum, never negative. */
  function PositionSize(c: RiskConfig, accountValue: real, spreadCost: real): (n: int)
    ensures n >= 0
    ensures n <= MaxI(0, c.maxContractsPerTrade)
    ensures spreadCost <= 0.0 ==> n == 0
    ensures spreadCost > 0.0 ==>
              var budget := Floor(accountValue * c.riskPerTrade / spreadCost);
              n == (if MinI(budget, c.maxContractsPerTrade) > 0
                    then MinI(budget, c.maxContractsPerTrade) else 0)
    ensures n > 0 ==> (n as real) * spreadCost <= accountValue * c.riskPerTrade
  {
    var contracts := if spreadCost > 0.0 then Floor(accountValue * c.riskPerTrade / spreadCost)
                     else 0;
    var capped := MinI(contracts, c.maxContractsPerTrade);
    var n := if capped > 0 then MaxI(capped, 1) else 0;
    if n > 0 then
      SizeWithinBudget(accountValue * c.riskPerTrade, spreadCost, contracts, n);
      n
    else n
  }

  /** At most floor(budget / cost) contracts cost at most the budget. */
  lemma SizeWithinBudget(budget: real, cost: real, contracts: int, n: int)
    requires cost > 0.0 && contracts == Floor(budget / cost) && 0 < n <= contracts
    ensures (n as real) * cost <= budget
  {
    assert (n as real) <= budget / cost;
    assert (n as real) * cost <= (budget / cost) * cost;
  }

  /** A position in `symbol` in the same direction is already open. */
  predicate HoldsSameDirection(positions: map<string, Position>, symbol: string,
                               direction: string)
  {
    symbol in positions && positions[symbol].direction == direction
  }

  /** The admission rule of `can_enter_trade`: the daily limit, then the position limit, then
      a same-direction position in the symbol, then (with a broker) the buying power. The
      first failing check gives the reason. `funds` is the broker's available funds (0 when
      it does not report them), `None` without a broker. */
  function Admission(c: RiskConfig, todays: seq<TradeRecord>, positions: map<string, Position>,
                     symbol: string, direction: string, funds: Option<real>)
    : (r: (bool, string))
    ensures r.0 <==> |todays| < c.maxDailyTrades && |positions| < c.maxPositions
                     && !HoldsSameDirection(positions, symbol, direction)
                     && !(funds.Some? && funds.value < MinAvailableFunds)
    ensures |todays| >= c.maxDailyTrades ==>
              r.1 == "Maximum daily trades limit (" + IntToString(c.maxDailyTrades) + ") reached"
    ensures |todays| < c.maxDailyTrades && |positions| >= c.maxPositions ==>
              r.1 == "Maximum positions limit (" + IntToString(c.maxPositions) + ") reached"
    ensures |todays| < c.maxDailyTrades && |positions| < c.maxPositions
            && HoldsSameDirection(positions, symbol, direction) ==>
              r.1 == "Already have a " + direction + " position in " + symbol
    ensures |todays| < c.maxDailyTrades && |positions| < c.maxPositions
            && !HoldsSameDirection(positions, symbol, direction)
            && funds.Some? && funds.value < MinAvailableFunds ==>
              r.1 == "Insufficient buying power"
    ensures r.0 ==> r.1 == "Trade allowed"
  {
    if |todays| >= c.maxDailyTrades then
      (false, "Maximum daily trades limit (" + IntToString(c.maxDailyTrades) + ") reached")
    else if |positions| >= c.maxPositions then
      (false, "Maximum positions limit (" + IntToString(c.maxPositions) + ") reached")
    else if symbol in positions && positions[symbol].direction == direction then
      (false, "Already have a " + direction + " position in " + symbol)
    else if funds.Some? && funds.value < MinAvailableFunds then
      (false, "Insufficient buying power")
    else
      (true, "Trade allowed")
  }

  /** `calculate_stop_price`: half the spread's cost, but never below 0.05. */
  function StopPrice(spread: OptionSpread): (p: real)
    ensures p >= 0.05
    ensures p >= spread.cost * 0.5
    ensures p == spread.cost * 0.5 || p == 0.05
  {
    MaxR(spread.cost * (1.0 - 0.5), 0.05)
  }

  /** `get_account_value`: the broker's net liquidation value, 100000 when the broker does
      not report it, and 100000 without a broker or when the broker call fails (`None`). */
  function AccountValue(summary: Option<Option<real>>): (v: real)
    ensures summary.Some? && summary.value.Some? ==> v == summary.value.value
    ensures !(summary.Some? && summary.value.Some?) ==> v == 100000.0
  {
    match summary
    case Some(Some(netLiquidation)) => netLiquidation
    case _ => 100000.0
  }

  /** The positions `update_positions_from_broker` keeps: those the broker reports with a
      non-zero quantity. */
  function Reconciled(positions: map<string, Position>, broker: map<string, int>)
    : (r: map<string, Position>)
    ensures r.Keys <= positions.Keys
    ensures forall s :: s in r ==> r[s] == positions[s]
    ensures forall s :: s in positions ==> (s in r <==> s in broker && broker[s] != 0)
  {
    map s | s in positions && s in broker && broker[s] != 0 :: positions[s]
  }

  class RiskManager {
    const config: RiskConfig
    /** Whether a broker connection was supplied. */
    const hasBroker: bool
    var dailyTrades: map<Day, seq<TradeRecord>>
    var activePositions: map<string, Position>

    constructor(config: RiskConfig, hasBroker: bool)
      ensures this.config == config && this.hasBroker == hasBroker
      ensures dailyTrades == map[] && activePositions == map[]
    {
      this.config := config;
      this.hasBroker := hasBroker;
      dailyTrades := map[];
      activePositions := map[];
    }

    function TradesOn(day: Day): seq<TradeRecord>
      reads this
    {
      if day in dailyTrades then dailyTrades[day] else []
    }

    /** `can_enter_trade`: the admission rule on the current book. Its only effect is to
        create today's (empty) trade list when missing. `availableFunds` is the broker's
        answer, read only when there is a broker. */
    method CanEnterTrade(symbol: string, direction: string, today: Day, availableFunds: real)
      returns (allowed: bool, reason: string)
      modifies this
      ensures (allowed, reason)
              == Admission(config, old(TradesOn(today)), old(activePositions), symbol, direction,
                           if hasBroker then Some(availableFunds) else None)
      ensures dailyTrades == old(dailyTrades)[today := old(TradesOn(today))]
      ensures activePositions == old(activePositions)
    {
      if today !in dailyTrades {
        dailyTrades := dailyTrades[today := []];
      }
      if |dailyTrades[today]| >= config.maxDailyTrades {
        return false,
          "Maximum daily trades limit (" + IntToString(config.maxDailyTrades) + ") reached";
      }
      if |activePositions| >= config.maxPositions {
        return false, "Maximum positions limit (" + IntToString(config.maxPositions) + ") reached";
      }
      if symbol in activePositions {
        var existingDirection := activePositions[symbol].direction;
        if existingDirection == direction {
          return false, "Already have a " + direction + " position in " + symbol;
        }
      }
      if hasBroker {
        if availableFunds < MinAvailableFunds {
          return false, "Insufficient buying power";
        }
      }
      return true, "Trade allowed";
    }

    /** `record_trade`: appends one record to today's list and opens (or replaces) the
        position in `symbol` at the spread's cost. */
    method RecordTrade(symbol: string, direction: string, contracts: int, spread: OptionSpread,
                       today: Day, now: int)
      modifies this
      ensures dailyTrades
              == old(dailyTrades)[today := old(TradesOn(today))
                                     + [TradeRecord(symbol, direction, contracts,
                                                    spread.spreadType, spread.expiration,
                                                    spread.cost, now)]]
      ensures activePositions
              == old(activePositions)[symbol := Position(direction, contracts, spread, today,
                                                         spread.cost)]
    {
      if today !in dailyTrades {
        dailyTrades := dailyTrades[today := []];
      }
      dailyTrades := dailyTrades[today := dailyTrades[today]
                                 + [TradeRecord(symbol, direction, contracts, spread.spreadType,
                                                spread.expiration, spread.cost, now)]];
      activePositions := activePositions[symbol := Position(direction, contracts, spread, today,
                                                            spread.cost)];
    }

    /** `close_position`: forgets the position in `symbol`, if any. */
    method ClosePosition(symbol: string)
      modifies this
      ensures activePositions == old(activePositions) - {symbol}
      ensures symbol !in old(activePositions) ==> activePositions == old(activePositions)
      ensures dailyTrades == old(dailyTrades)
    {
      if symbol in activePositions {
        activePositions := activePositions - {symbol};
      }
    }

    /** `update_positions_from_broker`: drops the positions the broker reports closed
        (quantity 0) and those it does not report at all. `broker` is the broker's
        symbol-to-quantity answer, `None` when the call fails. Nothing happens without a
        broker or when the call fails. */
    method UpdatePositionsFromBroker(broker: Option<map<string, int>>)
      modifies this
      ensures hasBroker && broker.Some? ==>
                activePositions == Reconciled(old(activePositions), broker.value)
      ensures !(hasBroker && broker.Some?) ==> activePositions == old(activePositions)
      ensures dailyTrades == old(dailyTrades)
    {
      if !hasBroker || broker.None? {
        return;
      }
      var brokerPositions := broker.value;
      var pending := brokerPositions.Keys;
      while pending != {}
        invariant pending <= brokerPositions.Keys
        invariant activePositions.Keys <= old(activePositions).Keys
        invariant forall s :: s in activePositions ==> activePositions[s] == old(activePositions)[s]
        invariant forall s :: s in old(activePositions) ==>
                    (s in activePositions
                     <==> !(s in brokerPositions && s !in pending && brokerPositions[s] == 0))
        invariant dailyTrades == old(dailyTrades)
        decreases pending
      {
        var symbol :| symbol in pending;
        if brokerPositions[symbol] == 0 {
          if symbol in activePositions {
            activePositions := activePositions - {symbol};
          }
        }
        pending := pending - {symbol};
      }
      var tracked := activePositions.Keys;
      while tracked != {}
        invariant tracked <= activePositions.Keys
        invariant activePositions.Keys <= old(activePositions).Keys
        invariant forall s :: s in activePositions ==> activePositions[s] == old(activePositions)[s]
        invariant forall s :: s in old(activePositions) ==>
                    (s in activePositions
                     <==> (s in tracked
                           || (s in brokerPositions && brokerPositions[s] != 0)))
        invariant dailyTrades == old(dailyTrades)
        decreases tracked
      {
        var symbol :| symbol in tracked;
        if symbol !in brokerPositions {
          activePositions := activePositions - {symbol};
        }
        tracked := tracked - {symbol};
      }
    }

    /** `get_metrics` for the given day. */
    function GetMetrics(today: Day): (m: RiskMetrics)
      reads this
      ensures m.dailyTrades == |TradesOn(today)| && m.activePositions == |activePositions|
      ensures m.remainingTradesToday >= 0 && m.remainingPositions >= 0
      ensures m.dailyTrades <= config.maxDailyTrades ==>
                m.dailyTrades + m.remainingTradesToday == config.maxDailyTrades
      ensures m.dailyTrades >= config.maxDailyTrades ==> m.remainingTradesToday == 0
      ensures m.activePositions <= config.maxPositions ==>
                m.activePositions + m.remainingPositions == config.maxPositions
      ensures m.activePositions >= config.maxPositions ==> m.remainingPositions == 0
    {
      var trades := |TradesOn(today)|;
      RiskMetrics(trades, config.maxDailyTrades, |activePositions|, config.maxPositions,
                  MaxI(0, config.maxDailyTrades - trades),
                  MaxI(0, config.maxPositions - |activePositions|))
    }
  }

  /** Recording an admitted trade keeps today's trade count and the number of open
      positions within their limits. */
  lemma {:induction false} AdmittedTradeKeepsLimits(
    c: RiskConfig, todays: seq<TradeRecord>, positions: map<string, Position>, symbol: string,
    direction: string, funds: Option<real>, record: TradeRecord, position: Position)
    requires Admission(c, todays, positions, symbol, direction, funds).0
    ensures |todays + [record]| <= c.maxDailyTrades
    ensures |positions[symbol := position]| <= c.maxPositions
  {
    if symbol in positions {
      assert positions[symbol := position].Keys == positions.Keys;
    } else {
      assert positions[symbol := position].Keys == positions.Keys + {symbol};
    }
  }

  /** A position in the opposite direction does not block a trade: with the limits and the
      buying power satisfied, the trade is admitted whether or not the symbol is held the
      other way. */
  lemma OppositeDirectionAdmitted(
    c: RiskConfig, todays: seq<TradeRecord>, positions: map<string, Position>, symbol: string,
    direction: string, funds: Option<real>)
    requires |todays| < c.maxDailyTrades && |positions| < c.maxPositions
    requires !(funds.Some? && funds.value < MinAvailableFunds)
    requires symbol in positions && positions[symbol].direction != direction
    ensures Admission(c, todays, positions, symbol, direction, funds) == (true, "Trade allowed")
  {
  }
}
