/** `ExitStrategyManager` of `trading/exit_strategy.py`: the exit-level calculators, the
    ordered exit decision, and the trailing-stop bookkeeping written into a position record. */
module ExitStrategy {
  import opened Wrappers
  import opened OptionModel

  /** The exit settings, read with `getattr` defaults. */
  datatype ExitConfig = ExitConfig(
    stopLossPercentage: real, targetRewardRisk: real,
    useRMultipleExit: bool, rMultipleTarget: real,
    useAtrExit: bool, atrTargetMultiple: real,
    useFibonacciExit: bool, fibonacciTargetLevel: real,
    minDaysToExpiry: int,
    useTrailingStop: bool, trailingStopPercentage: real,
    useAdaptiveAtrExit: bool)

  const DefaultExitConfig :=
    ExitConfig(0.5, 1.5, false, 2.0, false, 3.0, false, 1.618, 5, false, 0.2, false)

  /** The floor under every short-side target and every stop. */
  const MinPrice: real := 0.05

  /** `_calculate_stop_loss`: a percentage below the entry for LONG, above it otherwise,
      never under 0.05. */
  function StopLoss(c: ExitConfig, entry: real, direction: string): (r: real)
    ensures r >= MinPrice
    ensures r >= entry * (if direction == "LONG" then 1.0 - c.stopLossPercentage
                          else 1.0 + c.stopLossPercentage)
    ensures r == MinPrice
            || r == entry * (if direction == "LONG" then 1.0 - c.stopLossPercentage
                             else 1.0 + c.stopLossPercentage)
    ensures direction == "LONG" && c.stopLossPercentage >= 0.0 && entry >= MinPrice ==>
              r <= entry
    ensures direction != "LONG" && c.stopLossPercentage >= 0.0 && entry >= 0.0 ==> r >= entry
  {
    var stop := if direction == "LONG" then entry * (1.0 - c.stopLossPercentage)
                else entry * (1.0 + c.stopLossPercentage);
    MulNonneg(entry, c.stopLossPercentage);
    MaxR(stop, MinPrice)
  }

  /** The maximum profit `_calculate_profit_target` assumes: strike width less the entry for
      LONG (by spread type), the entry itself otherwise. */
  function MaxProfit(entry: real, direction: string, spread: OptionSpread): real {
    if direction == "LONG" then
      if spread.spreadType == BullCall then (spread.shortLeg.strike - spread.longLeg.strike) - entry
      else (spread.longLeg.strike - spread.shortLeg.strike) - entry
    else entry
  }

  /** The short side of `_calculate_profit_target`: the maximum profit is the entry for
      either short spread type, so the level does not depend on the spread. */
  function ShortProfitTarget(c: ExitConfig, entry: real): (r: real)
    ensures r >= MinPrice
    ensures r >= entry - MinR(entry, entry * c.targetRewardRisk)
    ensures r == MinPrice || r == entry - MinR(entry, entry * c.targetRewardRisk)
    ensures entry >= 0.0 && c.targetRewardRisk >= 1.0 ==> r == MinPrice
    ensures entry >= MinPrice && c.targetRewardRisk >= 0.0 ==> r <= entry
  {
    MulNonneg(entry, c.targetRewardRisk);
    MulNonneg(entry, c.targetRewardRisk - 1.0);
    MaxR(entry - MinR(entry, entry * c.targetRewardRisk), MinPrice)
  }

  /** `_calculate_profit_target`: LONG aims at the smaller of the maximum profit and the entry
      times the reward/risk target above the entry; otherwise `ShortProfitTarget`. */
  function ProfitTarget(c: ExitConfig, entry: real, direction: string, spread: OptionSpread)
    : (r: real)
    ensures direction == "LONG" ==>
              r - entry <= MaxProfit(entry, direction, spread)
              && r - entry <= entry * c.targetRewardRisk
              && (r - entry == MaxProfit(entry, direction, spread)
                  || r - entry == entry * c.targetRewardRisk)
    ensures direction != "LONG" ==> r == ShortProfitTarget(c, entry)
  {
    if direction == "LONG" then
      entry + MinR(MaxProfit(entry, direction, spread), entry * c.targetRewardRisk)
    else ShortProfitTarget(c, entry)
  }

  /** `_calculate_r_multiple_exit`: R times the entry-to-stop distance beyond the entry,
      floored at 0.05 on the short side. */
  function RMultipleExit(c: ExitConfig, entry: real, direction: string, stop: real): (r: real)
    ensures direction == "LONG" ==> r - entry == Abs(entry - stop) * c.rMultipleTarget
    ensures direction == "LONG" && c.rMultipleTarget >= 0.0 ==> r >= entry
    ensures direction != "LONG" ==>
              r >= MinPrice && r >= entry - Abs(entry - stop) * c.rMultipleTarget
              && (r == MinPrice || r == entry - Abs(entry - stop) * c.rMultipleTarget)
    ensures direction != "LONG" && c.rMultipleTarget >= 0.0 && entry >= MinPrice ==> r <= entry
  {
    var rValue := Abs(entry - stop);
    MulNonneg(rValue, c.rMultipleTarget);
    if direction == "LONG" then entry + rValue * c.rMultipleTarget
    else MaxR(entry - rValue * c.rMultipleTarget, MinPrice)
  }

  /** Python truthiness of an optional number: present and non-zero. */
  predicate Truthy(x: Option<real>) {
    x.Some? && x.value != 0.0
  }

  /** `_calculate_atr_exit` as written: without a usable ATR it falls back to
      `_calculate_profit_target(entry, direction, None)`, which raises in either direction
      when it reads the missing spread's type (`None` here). */
  function AtrExitAsWritten(c: ExitConfig, entry: real, direction: string, atr: Option<real>)
    : (r: Option<real>)
    ensures r.None? <==> !Truthy(atr)
    ensures r.Some? && direction == "LONG" ==> r.value - entry == atr.value * c.atrTargetMultiple
    ensures r.Some? && direction != "LONG" ==>
              r.value >= MinPrice && r.value >= entry - atr.value * c.atrTargetMultiple
              && (r.value == MinPrice || r.value == entry - atr.value * c.atrTargetMultiple)
  {
    if !Truthy(atr) then None
    else if direction == "LONG" then Some(entry + atr.value * c.atrTargetMultiple)
    else Some(MaxR(entry - atr.value * c.atrTargetMultiple, MinPrice))
  }

  /** `_calculate_atr_exit` with the fallback given the position's spread: the profit target
      without a usable ATR, otherwise ATR times the multiple beyond the entry. */
  function AtrExit(c: ExitConfig, entry: real, direction: string, spread: OptionSpread,
                   atr: Option<real>): (r: real)
    ensures !Truthy(atr) ==> r == ProfitTarget(c, entry, direction, spread)
    ensures Truthy(atr) && direction == "LONG" ==> r - entry == atr.value * c.atrTargetMultiple
    ensures Truthy(atr) && direction != "LONG" ==>
              r >= MinPrice && r >= entry - atr.value * c.atrTargetMultiple
              && (r == MinPrice || r == entry - atr.value * c.atrTargetMultiple)
    ensures !Truthy(atr) && direction != "LONG" ==> r >= MinPrice
  {
    if !Truthy(atr) then ProfitTarget(c, entry, direction, spread)
    else if direction == "LONG" then entry + atr.value * c.atrTargetMultiple
    else MaxR(entry - atr.value * c.atrTargetMultiple, MinPrice)
  }

  /** The fallback of the ATR exit fails as written, for LONG and SHORT alike. */
  lemma AtrFallbackFails(c: ExitConfig, entry: real, direction: string)
    ensures AtrExitAsWritten(c, entry, direction, None).None?
    ensures AtrExitAsWritten(c, entry, direction, Some(0.0)).None?
  {
  }

  /** The corrected ATR exit is defined everywhere; it agrees with the code as written
      exactly where that does not fail (a usable ATR), and elsewhere it is the position's
      profit target. */
  lemma AtrExitAgrees(c: ExitConfig, entry: real, direction: string, spread: OptionSpread,
                      atr: Option<real>)
    ensures AtrExitAsWritten(c, entry, direction, atr).Some? <==> Truthy(atr)
    ensures Truthy(atr) ==>
              AtrExitAsWritten(c, entry, direction, atr).value
              == AtrExit(c, entry, direction, spread, atr)
    ensures !Truthy(atr) ==>
              AtrExit(c, entry, direction, spread, atr) == ProfitTarget(c, entry, direction, spread)
  {
  }

  /** `_calculate_fibonacci_exit`: the Fibonacci level times the price range beyond the
      entry; the short range is the entry itself, floored at 0.05. */
  function FibonacciExit(c: ExitConfig, entry: real, direction: string, spread: OptionSpread)
    : (r: real)
    ensures direction == "LONG" ==>
              r - entry == MaxProfit(entry, direction, spread) * c.fibonacciTargetLevel
    ensures direction != "LONG" ==>
              r >= MinPrice && r >= entry - entry * c.fibonacciTargetLevel
              && (r == MinPrice || r == entry - entry * c.fibonacciTargetLevel)
    ensures direction != "LONG" && entry >= 0.0 && c.fibonacciTargetLevel >= 1.0 ==>
              r == MinPrice
  {
    var priceRange := if direction == "LONG" then MaxProfit(entry, direction, spread) else entry;
    MulNonneg(entry, c.fibonacciTargetLevel - 1.0);
    if direction == "LONG" then entry + priceRange * c.fibonacciTargetLevel
    else MaxR(entry - priceRange * c.fibonacciTargetLevel, MinPrice)
  }

  /** The dictionary `calculate_exits` returns; an absent key is `None`. */
  datatype Exits = Exits(
    stopLoss: real, profitTarget: real, rMultiple: Option<real>, atrExit: Option<real>,
    fibonacciExit: Option<real>)

  /** `calculate_exits`: stop and target always; the R-multiple, ATR and Fibonacci levels
      only when enabled (the ATR one also needs underlying data, `None` when absent or
      empty). The ATR level is the corrected `AtrExit`. */
  function CalculateExits(c: ExitConfig, entry: real, direction: string, spread: OptionSpread,
                          underlying: Option<Option<real>>): (e: Exits)
    ensures e.stopLoss == StopLoss(c, entry, direction) && e.stopLoss >= MinPrice
    ensures e.profitTarget == ProfitTarget(c, entry, direction, spread)
    ensures e.rMultiple.Some? <==> c.useRMultipleExit
    ensures e.rMultiple.Some? ==> e.rMultiple.value == RMultipleExit(c, entry, direction, e.stopLoss)
    ensures e.atrExit.Some? <==> c.useAtrExit && underlying.Some?
    ensures e.atrExit.Some? ==>
              e.atrExit.value == AtrExit(c, entry, direction, spread, underlying.value)
    ensures e.fibonacciExit.Some? <==> c.useFibonacciExit
  {
    var stop := StopLoss(c, entry, direction);
    Exits(stop, ProfitTarget(c, entry, direction, spread),
          if c.useRMultipleExit then Some(RMultipleExit(c, entry, direction, stop)) else None,
          if c.useAtrExit && underlying.Some?
          then Some(AtrExit(c, entry, direction, spread, underlying.value)) else None,
          if c.useFibonacciExit then Some(FibonacciExit(c, entry, direction, spread)) else None)
  }

  /** Why `should_exit_position` says to exit; the float-formatted parts of the R-multiple and
      trailing messages are kept as numbers. */
  datatype ExitReason =
    | StopLossTriggered
    | ProfitTargetReached
    | CloseToExpiry(days: int)
    | RMultipleReached(multiple: real)
    | TrailingFromHigh(percentage: real, high: real)
    | TrailingFromLow(percentage: real, low: real)
    | NoExit

  predicate StopHit(direction: string, stop: Option<real>, current: real) {
    Truthy(stop)
    && ((direction == "LONG" && current <= stop.value)
        || (direction == "SHORT" && current >= stop.value))
  }

  predicate TargetHit(direction: string, target: Option<real>, current: real) {
    Truthy(target)
    && ((direction == "LONG" && current >= target.value)
        || (direction == "SHORT" && current <= target.value))
  }

  /** The R-multiple test of `should_exit_position`: the stored stop (or the computed one
      when the key is absent), without the 0.05 floor on the short side. */
  predicate RMultipleHit(c: ExitConfig, direction: string, entry: real, stop: Option<real>,
                         current: real)
  {
    var s := if stop.Some? then stop.value else StopLoss(c, entry, direction);
    var rValue := Abs(entry - s);
    if direction == "LONG" then current >= entry + rValue * c.rMultipleTarget
    else current <= entry - rValue * c.rMultipleTarget
  }

  /** The extreme after seeing `current`: the new high for LONG, the new low otherwise. */
  function NewExtreme(direction: string, extreme: real, current: real): (r: real)
    ensures direction == "LONG" ==> r >= extreme && r >= current
    ensures direction != "LONG" ==> r <= extreme && r <= current
    ensures r == extreme || r == current
  {
    if direction == "LONG" then (if current > extreme then current else extreme)
    else if current < extreme then current else extreme
  }

  /** The trailing test: `percentage` below the high for LONG, above the low otherwise. */
  predicate TrailingHit(c: ExitConfig, direction: string, extreme: real, current: real) {
    var e := NewExtreme(direction, extreme, current);
    if direction == "LONG" then current <= e * (1.0 - c.trailingStopPercentage)
    else current >= e * (1.0 + c.trailingStopPercentage)
  }

  function TrailingReason(c: ExitConfig, direction: string, extreme: real, current: real)
    : ExitReason
  {
    var e := NewExtreme(direction, extreme, current);
    if direction == "LONG" then TrailingFromHigh(c.trailingStopPercentage, e)
    else TrailingFromLow(c.trailingStopPercentage, e)
  }

  /** The decision of `should_exit_position` on a position with the given direction, entry,
      stored stop and target and trailing extreme: stop, then target, then expiry, then the
      R-multiple, then the trailing stop; the first that fires wins. */
  function Decide(c: ExitConfig, direction: string, entry: real, stop: Option<real>,
                  target: Option<real>, extreme: real, current: real, days: int)
    : (r: ExitReason)
    ensures r == StopLossTriggered <==> StopHit(direction, stop, current)
    ensures r == ProfitTargetReached <==>
              !StopHit(direction, stop, current) && TargetHit(direction, target, current)
    ensures r.CloseToExpiry? <==>
              !StopHit(direction, stop, current) && !TargetHit(direction, target, current)
              && days <= c.minDaysToExpiry
    ensures r.CloseToExpiry? ==> r.days == days
    ensures r.RMultipleReached? ==>
              days > c.minDaysToExpiry && c.useRMultipleExit
              && RMultipleHit(c, direction, entry, stop, current)
    ensures r.TrailingFromHigh? || r.TrailingFromLow? ==>
              c.useTrailingStop && TrailingHit(c, direction, extreme, current)
              && !(c.useRMultipleExit && RMultipleHit(c, direction, entry, stop, current))
    ensures r == NoExit <==>
              !StopHit(direction, stop, current) && !TargetHit(direction, target, current)
              && days > c.minDaysToExpiry
              && !(c.useRMultipleExit && RMultipleHit(c, direction, entry, stop, current))
              && !(c.useTrailingStop && TrailingHit(c, direction, extreme, current))
  {
    var early := EarlyExit(c, direction, entry, stop, target, current, days);
    if early != NoExit then early
    else if c.useTrailingStop && TrailingHit(c, direction, extreme, current) then
      TrailingReason(c, direction, extreme, current)
    else NoExit
  }

  /** The checks of `should_exit_position` that read the position without changing it: stop,
      target, expiry and R-multiple, in that order. */
  function EarlyExit(c: ExitConfig, direction: string, entry: real, stop: Option<real>,
                     target: Option<real>, current: real, days: int): ExitReason
  {
    if StopHit(direction, stop, current) then StopLossTriggered
    else if TargetHit(direction, target, current) then ProfitTargetReached
    else if days <= c.minDaysToExpiry then CloseToExpiry(days)
    else if c.useRMultipleExit && RMultipleHit(c, direction, entry, stop, current) then
      RMultipleReached(c.rMultipleTarget)
    else NoExit
  }

  /** Whether `should_exit_position` reaches the trailing-stop check (and its update). */
  predicate ReachesTrailing(c: ExitConfig, direction: string, entry: real, stop: Option<real>,
                            target: Option<real>, current: real, days: int)
  {
    EarlyExit(c, direction, entry, stop, target, current, days) == NoExit && c.useTrailingStop
  }

  /** A position dictionary the exit manager reads and writes; an absent key is `None`. */
  class PositionRecord {
    const direction: string
    const entryPrice: real
    const spread: OptionSpread
    var stopPrice: Option<real>
    var targetPrice: Option<real>
    var currentPrice: Option<real>
    var highestPrice: Option<real>
    var lowestPrice: Option<real>
    var trailingStop: Option<real>
    var atrExit: Option<real>

    constructor(direction: string, entryPrice: real, spread: OptionSpread,
                stopPrice: Option<real>, targetPrice: Option<real>)
      ensures this.direction == direction && this.entryPrice == entryPrice
      ensures this.spread == spread
      ensures this.stopPrice == stopPrice && this.targetPrice == targetPrice
      ensures currentPrice == None && highestPrice == None && lowestPrice == None
      ensures trailingStop == None && atrExit == None
    {
      this.direction := direction;
      this.entryPrice := entryPrice;
      this.spread := spread;
      this.stopPrice := stopPrice;
      this.targetPrice := targetPrice;
      currentPrice := None;
      highestPrice := None;
      lowestPrice := None;
      trailingStop := None;
      atrExit := None;
    }

    /** `position.get("highest_price", entry_price)`. */
    function High(): real
      reads this
    {
      if highestPrice.Some? then highestPrice.value else entryPrice
    }

    /** `position.get("lowest_price", entry_price)`. */
    function Low(): real
      reads this
    {
      if lowestPrice.Some? then lowestPrice.value else entryPrice
    }

    /** The extreme the trailing stop of this position's direction follows. */
    function Extreme(): real
      reads this
    {
      if direction == "LONG" then High() else Low()
    }

    /** `_check_trailing_stop`: records a new high (LONG) or low (otherwise) and reports
        whether the price has retreated from it by the trailing percentage. */
    method CheckTrailingStop(c: ExitConfig, current: real) returns (hit: bool, reason: ExitReason)
      modifies this
      ensures hit <==> TrailingHit(c, direction, old(Extreme()), current)
      ensures hit ==> reason == TrailingReason(c, direction, old(Extreme()), current)
      ensures Extreme() == NewExtreme(direction, old(Extreme()), current)
      ensures direction == "LONG" ==>
                High() >= old(High()) && lowestPrice == old(lowestPrice)
                && highestPrice == (if current > old(High()) then Some(current)
                                    else old(highestPrice))
      ensures direction != "LONG" ==>
                Low() <= old(Low()) && highestPrice == old(highestPrice)
                && lowestPrice == (if current < old(Low()) then Some(current)
                                   else old(lowestPrice))
      ensures stopPrice == old(stopPrice) && targetPrice == old(targetPrice)
      ensures currentPrice == old(currentPrice) && trailingStop == old(trailingStop)
      ensures atrExit == old(atrExit)
    {
      var highest := High();
      var lowest := Low();
      var percentage := c.trailingStopPercentage;
      if direction == "LONG" {
        if current > highest {
          highestPrice := Some(current);
          highest := current;
        }
        var stop := highest * (1.0 - percentage);
        if current <= stop {
          return true, TrailingFromHigh(percentage, highest);
        }
      } else {
        if current < lowest {
          lowestPrice := Some(current);
          lowest := current;
        }
        var stop := lowest * (1.0 + percentage);
        if current >= stop {
          return true, TrailingFromLow(percentage, lowest);
        }
      }
      return false, NoExit;
    }

    /** `should_exit_position`: the decision `Decide` on the record as it was; the record
        changes only when the trailing check is reached. */
    method ShouldExitPosition(c: ExitConfig, current: real, days: int)
      returns (exit: bool, reason: ExitReason)
      modifies this
      ensures reason == Decide(c, direction, entryPrice, old(stopPrice), old(targetPrice),
                               old(Extreme()), current, days)
      ensures exit <==> reason != NoExit
      ensures ReachesTrailing(c, direction, entryPrice, old(stopPrice), old(targetPrice),
                              current, days) ==>
                Extreme() == NewExtreme(direction, old(Extreme()), current)
      ensures !ReachesTrailing(c, direction, entryPrice, old(stopPrice), old(targetPrice),
                               current, days) ==>
                highestPrice == old(highestPrice) && lowestPrice == old(lowestPrice)
      ensures stopPrice == old(stopPrice) && targetPrice == old(targetPrice)
      ensures trailingStop == old(trailingStop) && atrExit == old(atrExit)
    {
      var early := EarlyExit(c, direction, entryPrice, stopPrice, targetPrice, current, days);
      if early != NoExit {
        return true, early;
      }
      if c.useTrailingStop {
        var hit, trailing := CheckTrailingStop(c, current);
        if hit {
          return true, trailing;
        }
      }
      return false, NoExit;
    }

    /** `get_stop_distance`: the fraction of the current price (the entry when absent) that
        lies between it and the stop, 0 when either is 0 (an absent stop counts as 0). */
    function StopDistance(): (d: real)
      reads this
      ensures var current := if currentPrice.Some? then currentPrice.value else entryPrice;
              var stop := if stopPrice.Some? then stopPrice.value else 0.0;
              (current == 0.0 || stop == 0.0 ==> d == 0.0)
              && (current != 0.0 && stop != 0.0 ==>
                    d * current == (if direction == "LONG" then current - stop else stop - current))
              && (current > 0.0 && stop != 0.0 && direction == "LONG" ==> (d > 0.0 <==> current > stop))
    {
      var current := if currentPrice.Some? then currentPrice.value else entryPrice;
      var stop := if stopPrice.Some? then stopPrice.value else 0.0;
      if current == 0.0 || stop == 0.0 then 0.0
      else if direction == "LONG" then (current - stop) / current
      else (stop - current) / current
    }

    /** `update_exits_for_position`: with trailing stops on, a new high (LONG) or low
        (otherwise) is recorded together with a trailing stop at the trailing percentage from
        it; with adaptive ATR exits on and underlying data given, the ATR level is refreshed
        (the corrected `AtrExit`, given the position's spread). */
    method UpdateExitsForPosition(c: ExitConfig, current: real, underlying: Option<Option<real>>)
      modifies this
      ensures c.useTrailingStop && direction == "LONG" && current > old(High()) ==>
                highestPrice == Some(current)
                && trailingStop == Some(current * (1.0 - c.trailingStopPercentage))
      ensures c.useTrailingStop && direction != "LONG" && current < old(Low()) ==>
                lowestPrice == Some(current)
                && trailingStop == Some(current * (1.0 + c.trailingStopPercentage))
      ensures !(c.useTrailingStop && (if direction == "LONG" then current > old(High())
                                      else current < old(Low()))) ==>
                trailingStop == old(trailingStop) && highestPrice == old(highestPrice)
                && lowestPrice == old(lowestPrice)
      ensures direction == "LONG" ==> lowestPrice == old(lowestPrice) && High() >= old(High())
      ensures direction != "LONG" ==> highestPrice == old(highestPrice) && Low() <= old(Low())
      ensures c.useAdaptiveAtrExit && underlying.Some? ==>
                atrExit == Some(AtrExit(c, entryPrice, direction, spread, underlying.value))
      ensures !(c.useAdaptiveAtrExit && underlying.Some?) ==> atrExit == old(atrExit)
      ensures stopPrice == old(stopPrice) && targetPrice == old(targetPrice)
      ensures currentPrice == old(currentPrice)
    {
      if c.useTrailingStop {
        if direction == "LONG" {
          var highest := High();
          if current > highest {
            highestPrice := Some(current);
            trailingStop := Some(current * (1.0 - c.trailingStopPercentage));
          }
        } else {
          var lowest := Low();
          if current < lowest {
            lowestPrice := Some(current);
            trailingStop := Some(current * (1.0 + c.trailingStopPercentage));
          }
        }
      }
      if c.useAdaptiveAtrExit && underlying.Some? {
        atrExit := Some(AtrExit(c, entryPrice, direction, spread, underlying.value));
      }
    }
  }

  /** Across any number of updates the LONG high never falls and the short-side low never
      rises: each update moves the extreme only towards the new price. */
  lemma {:induction false} ExtremeMonotone(direction: string, extreme: real, prices: seq<real>)
    ensures direction == "LONG" ==> Follow(direction, extreme, prices) >= extreme
    ensures direction != "LONG" ==> Follow(direction, extreme, prices) <= extreme
    ensures forall i :: 0 <= i < |prices| ==>
              (direction == "LONG" ==> Follow(direction, extreme, prices) >= prices[i])
              && (direction != "LONG" ==> Follow(direction, extreme, prices) <= prices[i])
  {
    if |prices| > 0 {
      var init := prices[..|prices| - 1];
      ExtremeMonotone(direction, extreme, init);
      assert forall i :: 0 <= i < |init| ==> prices[i] == init[i];
    }
  }

  /** The extreme after a sequence of trailing checks, starting from `extreme`. */
  function Follow(direction: string, extreme: real, prices: seq<real>): real {
    if |prices| == 0 then extreme
    else NewExtreme(direction, Follow(direction, extreme, prices[..|prices| - 1]),
                    prices[|prices| - 1])
  }
}
