/** The option contract and option spread records of `models/option.py`, with their
    computed properties. Dates are day numbers; "today" is a parameter. */
module OptionModel {
  import opened Wrappers

  datatype OptionType = Call | Put

  /** One option contract (the `Option` dataclass). */
  datatype OptionContract = OptionContract(
    symbol: string,
    underlying: string,
    optionType: OptionType,
    strike: real,
    expiration: int,
    bid: real,
    ask: real,
    last: real,
    volume: int,
    openInterest: int,
    impliedVolatility: real,
    delta: real,
    gamma: real,
    theta: real,
    vega: real,
    rho: real)

  datatype SpreadType = BullCall | BearPut

  /** An option spread (the `OptionSpread` dataclass) after `__post_init__` has run. */
  datatype OptionSpread = OptionSpread(
    symbol: string,
    expiration: int,
    spreadType: SpreadType,
    longLeg: OptionContract,
    shortLeg: OptionContract,
    cost: real,
    maxProfit: real,
    maxLoss: real,
    delta: real,
    rewardRiskRatio: real)

  /** A float that may be Python's `float('inf')`. */
  datatype Extended = Finite(value: real) | Infinity

  function MidPrice(o: OptionContract): real {
    (o.bid + o.ask) / 2.0
  }

  function BidAskSpread(o: OptionContract): real {
    o.ask - o.bid
  }

  /** The mid price and the bid/ask spread together determine bid and ask again. */
  lemma MidAndSpreadRecoverQuotes(o: OptionContract)
    ensures MidPrice(o) - BidAskSpread(o) / 2.0 == o.bid
    ensures MidPrice(o) + BidAskSpread(o) / 2.0 == o.ask
    ensures o.bid <= o.ask ==> o.bid <= MidPrice(o) <= o.ask && BidAskSpread(o) >= 0.0
  {
  }

  /** `spread_percentage`: infinite for a zero mid price, otherwise the spread as a
      percentage of the mid. */
  function SpreadPercentage(o: OptionContract): (r: Extended)
    ensures r == Infinity <==> o.bid + o.ask == 0.0
    ensures r.Finite? ==> r.value * MidPrice(o) == BidAskSpread(o) * 100.0
    ensures r.Finite? && 0.0 <= o.bid <= o.ask ==> r.value >= 0.0
  {
    if MidPrice(o) == 0.0 then Infinity else Finite(BidAskSpread(o) / MidPrice(o) * 100.0)
  }

  function DaysToExpiration(o: OptionContract, today: int): int {
    o.expiration - today
  }

  /** The `OptionSpread` constructor followed by `__post_init__`: a zero reward/risk ratio
      is replaced by max_profit / max_loss when max_loss is positive. */
  function MakeSpread(symbol: string, expiration: int, spreadType: SpreadType,
                      longLeg: OptionContract, shortLeg: OptionContract, cost: real,
                      maxProfit: real, maxLoss: real, delta: real, rewardRisk: real)
    : (r: OptionSpread)
    ensures r.cost == cost && r.maxProfit == maxProfit && r.maxLoss == maxLoss
    ensures r.longLeg == longLeg && r.shortLeg == shortLeg && r.delta == delta
    ensures r.symbol == symbol && r.expiration == expiration && r.spreadType == spreadType
    ensures rewardRisk != 0.0 ==> r.rewardRiskRatio == rewardRisk
    ensures rewardRisk == 0.0 && maxLoss <= 0.0 ==> r.rewardRiskRatio == 0.0
  {
    var ratio := if rewardRisk == 0.0 && maxLoss > 0.0 then maxProfit / maxLoss else rewardRisk;
    OptionSpread(symbol, expiration, spreadType, longLeg, shortLeg, cost, maxProfit,
                 maxLoss, delta, ratio)
  }

  /** A zero ratio with a positive maximum loss becomes profit over loss. */
  lemma PostInitRatio(symbol: string, expiration: int, spreadType: SpreadType,
                      longLeg: OptionContract, shortLeg: OptionContract, cost: real,
                      maxProfit: real, maxLoss: real, delta: real)
    requires maxLoss > 0.0
    ensures MakeSpread(symbol, expiration, spreadType, longLeg, shortLeg, cost, maxProfit,
                       maxLoss, delta, 0.0).rewardRiskRatio * maxLoss == maxProfit
  {
  }

  /** Running `__post_init__` a second time on its own result changes nothing. */
  lemma PostInitIdempotent(symbol: string, expiration: int, spreadType: SpreadType,
                           longLeg: OptionContract, shortLeg: OptionContract, cost: real,
                           maxProfit: real, maxLoss: real, delta: real, rewardRisk: real)
    ensures var r := MakeSpread(symbol, expiration, spreadType, longLeg, shortLeg, cost,
                                maxProfit, maxLoss, delta, rewardRisk);
            MakeSpread(r.symbol, r.expiration, r.spreadType, r.longLeg, r.shortLeg, r.cost,
                       r.maxProfit, r.maxLoss, r.delta, r.rewardRiskRatio) == r
  {
  }

  function Width(s: OptionSpread): (w: real)
    ensures w >= 0.0
    ensures w == 0.0 <==> s.longLeg.strike == s.shortLeg.strike
  {
    Abs(s.longLeg.strike - s.shortLeg.strike)
  }

  /** The width does not depend on which leg is called long. */
  lemma WidthSymmetric(s: OptionSpread)
    ensures Width(s) == Width(s.(longLeg := s.shortLeg, shortLeg := s.longLeg))
  {
  }

  function SpreadDaysToExpiration(s: OptionSpread, today: int): (d: int)
    ensures d == DaysToExpiration(s.longLeg, today)
  {
    s.longLeg.expiration - today
  }
}
