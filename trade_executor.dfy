/** `TradeExecutor` of `trading/trade_executor.py`: the execution-window rule, paper and
    live pricing, the FIFO queue of trades waiting for the window, and the execution metrics.
    The clock, the order-id timestamp and the outcome of each execution are parameters. */
module TradeExecutor {
  import opened Wrappers
  import opened OptionModel
  import opened TimeUtils

  /** The two keys of a trade-signal dictionary the executor reads. */
  datatype TradeSignal = TradeSignal(symbol: string, direction: string)

  /** One entry of `queued_trades`. */
  datatype QueuedTrade = QueuedTrade(
    signal: TradeSignal, spread: OptionSpread, size: int, queuedAt: int)

  datatype Status = Executed | Queued | Failed

  /** What one execution attempt meets: an exception message (`None` when the order goes
      through), the elapsed wall time, and the "%Y%m%d%H%M%S" stamp of the order id. */
  datatype Attempt = Attempt(raised: Option<string>, elapsed: real, stamp: string)

  /** The configuration the executor reads; `getattr` defaults are 0.4 and `True`. */
  datatype ExecutorConfig = ExecutorConfig(
    tradingMode: Option<string>, priceImprovementFactor: real, allowLateDayEntry: bool)

  const QueuedMessage := "Trade queued for execution after 3PM ET"

  /** The combination's bid: sell the long leg at its bid, buy the short leg at its ask. */
  function SpreadBid(s: OptionSpread): real {
    s.longLeg.bid - s.shortLeg.ask
  }

  /** The combination's ask: buy the long leg at its ask, sell the short leg at its bid. */
  function SpreadAsk(s: OptionSpread): real {
    s.longLeg.ask - s.shortLeg.bid
  }

  predicate QuotesOrdered(s: OptionSpread) {
    s.longLeg.bid <= s.longLeg.ask && s.shortLeg.bid <= s.shortLeg.ask
  }

  /** `_execute_paper_trade`: a LONG trade pays the combination's ask, any other direction
      receives its bid. */
  function PaperPrice(direction: string, s: OptionSpread): (p: real)
    ensures p == (if direction == "LONG" then SpreadAsk(s) else SpreadBid(s))
  {
    if direction == "LONG" then s.longLeg.ask - s.shortLeg.bid
    else s.longLeg.bid - s.shortLeg.ask
  }

  /** `_execute_live_trade`: a limit price the fraction `f` of the way from the combination's
      bid to its ask for LONG, `1 - f` for any other direction. */
  function LivePrice(direction: string, s: OptionSpread, f: real): (p: real)
    ensures 0.0 <= f <= 1.0 && QuotesOrdered(s) ==> SpreadBid(s) <= p <= SpreadAsk(s)
    ensures direction == "LONG" && f <= 0.5 && QuotesOrdered(s) ==>
              2.0 * p <= SpreadBid(s) + SpreadAsk(s)
    ensures direction != "LONG" && f <= 0.5 && QuotesOrdered(s) ==>
              2.0 * p >= SpreadBid(s) + SpreadAsk(s)
  {
    var factor := if direction == "LONG" then f else 1.0 - f;
    BetweenBounds(SpreadBid(s), SpreadAsk(s), factor);
    Between(SpreadBid(s), SpreadAsk(s), factor)
  }

  /** `bid + (ask - bid) * factor`: the point the fraction `factor` of the way from `bid`
      to `ask`. */
  function Between(bid: real, ask: real, factor: real): real {
    bid + (ask - bid) * factor
  }

  /** A fraction between 0 and 1 stays between the ends; one at most (at least) a half stays
      at or below (at or above) the midpoint. */
  lemma BetweenBounds(bid: real, ask: real, factor: real)
    ensures 0.0 <= factor <= 1.0 && bid <= ask ==> bid <= Between(bid, ask, factor) <= ask
    ensures factor <= 0.5 && bid <= ask ==> 2.0 * Between(bid, ask, factor) <= bid + ask
    ensures factor >= 0.5 && bid <= ask ==> 2.0 * Between(bid, ask, factor) >= bid + ask
  {
    if bid <= ask {
      if 0.0 <= factor <= 1.0 {
        WithinEnds(bid, ask, factor);
      }
      if factor <= 0.5 {
        BelowMid(bid, ask, factor);
      } else {
        AboveMid(bid, ask, factor);
      }
    }
  }

  lemma WithinEnds(bid: real, ask: real, factor: real)
    requires 0.0 <= factor <= 1.0 && bid <= ask
    ensures bid <= Between(bid, ask, factor) <= ask
  {
    var w := ask - bid;
    MulNonneg(w, factor);
    MulNonneg(w, 1.0 - factor);
    assert w * (1.0 - factor) == w - w * factor;
  }

  lemma BelowMid(bid: real, ask: real, factor: real)
    requires factor <= 0.5 && bid <= ask
    ensures 2.0 * Between(bid, ask, factor) <= bid + ask
  {
    var w := ask - bid;
    MulNonneg(w, 0.5 - factor);
    assert w * (0.5 - factor) == w * 0.5 - w * factor;
  }

  lemma AboveMid(bid: real, ask: real, factor: real)
    requires factor >= 0.5 && bid <= ask
    ensures 2.0 * Between(bid, ask, factor) >= bid + ask
  {
    var w := ask - bid;
    MulNonneg(w, factor - 0.5);
    assert w * (factor - 0.5) == w * factor - w * 0.5;
  }

  /** The fractions `f` and `1 - f` land symmetrically about the midpoint. */
  lemma BetweenComplement(bid: real, ask: real, f: real)
    ensures Between(bid, ask, f) + Between(bid, ask, 1.0 - f) == bid + ask
  {
    var w := ask - bid;
    assert w * (1.0 - f) == w - w * f;
  }

  /** The live limit price never pays more than the paper price for LONG nor receives less
      for the other direction, and the two directions' limit prices add up to bid + ask. */
  lemma LiveImprovesOnPaper(s: OptionSpread, f: real)
    requires 0.0 <= f <= 1.0 && QuotesOrdered(s)
    ensures LivePrice("LONG", s, f) <= PaperPrice("LONG", s)
    ensures LivePrice("SHORT", s, f) >= PaperPrice("SHORT", s)
    ensures LivePrice("LONG", s, f) + LivePrice("SHORT", s, f) == SpreadBid(s) + SpreadAsk(s)
  {
    BetweenComplement(SpreadBid(s), SpreadAsk(s), f);
  }

  /** Paper LONG pays the other side's spread: the two paper prices differ by the legs'
      bid-ask spreads. */
  lemma PaperRoundTripCost(s: OptionSpread)
    ensures PaperPrice("LONG", s) - PaperPrice("SHORT", s)
            == (s.longLeg.ask - s.longLeg.bid) + (s.shortLeg.ask - s.shortLeg.bid)
    ensures QuotesOrdered(s) ==> PaperPrice("LONG", s) >= PaperPrice("SHORT", s)
  {
  }

  /** `is_valid_execution_time`: the market must be open; from 15:00 ET it is valid, and from
      14:45 when late-day entry is allowed. */
  function ValidExecutionTime(t: EtTime, allowLateDayEntry: bool): (r: bool)
    ensures !IsMarketOpen(t) ==> !r
    ensures IsMarketOpen(t) && t.hour >= 15 ==> r
    ensures IsMarketOpen(t) && t.hour == 14 && t.minute >= 45 ==> (r <==> allowLateDayEntry)
    ensures r ==> t.hour >= 15 || (t.hour == 14 && t.minute >= 45 && allowLateDayEntry)
  {
    if !IsMarketOpen(t) then false
    else if t.hour >= 15 then true
    else t.hour == 14 && t.minute >= 45 && allowLateDayEntry
  }

  /** Sum of a sequence of durations. */
  function Sum(s: seq<real>): real {
    if |s| == 0 then 0.0 else Sum(s[..|s| - 1]) + s[|s| - 1]
  }

  function Mean(s: seq<real>): real
    requires |s| > 0
  {
    Sum(s) / (|s| as real)
  }

  /** The running average `_update_avg_execution_time` computes is the mean of all samples. */
  lemma {:induction false} MeanSnoc(s: seq<real>, x: real)
    requires |s| > 0
    ensures Mean(s + [x]) == (Mean(s) * (|s| as real) + x) / ((|s| + 1) as real)
  {
    assert (s + [x])[..|s|] == s;
    assert Sum(s + [x]) == Sum(s) + x;
    var n := |s| as real;
    assert Mean(s) * n == Sum(s);
  }

  /** `list.remove`: drops the first element equal to `x`, if any. */
  function RemoveFirst<T(==)>(s: seq<T>, x: T): seq<T> {
    if |s| == 0 then []
    else if s[0] == x then s[1..]
    else [s[0]] + RemoveFirst(s[1..], x)
  }

  lemma {:induction false} RemoveFirstAt<T>(a: seq<T>, x: T, b: seq<T>)
    requires x !in a
    ensures RemoveFirst(a + [x] + b, x) == a + b
  {
    if |a| == 0 {
      assert a + [x] + b == [x] + b;
    } else {
      var t := a[1..] + [x] + b;
      RemoveFirstAt(a[1..], x, b);
      assert a + [x] + b == [a[0]] + t;
      RemoveFirstPast(a[0], t, x);
      assert a + b == [a[0]] + (a[1..] + b);
    }
  }

  lemma RemoveFirstPast<T>(h: T, t: seq<T>, x: T)
    requires h != x
    ensures RemoveFirst([h] + t, x) == [h] + RemoveFirst(t, x)
  {
    assert ([h] + t)[1..] == t;
  }

  /** What one turn of `process_queued_trades` meets: the instant `execute_trade` reads
      again for that entry, the `queued_at` stamp of a copy queued again, and the attempt. */
  datatype Turn = Turn(now: EtTime, stamp: int, attempt: Attempt)

  /** How `execute_trade` ends for a queued entry: executed, raised inside the window, or
      queued again (with a fresh stamp) because the window has closed. */
  datatype Outcome = Done | Raised | Closed(stamp: int)

  function OutcomeOf(t: Turn, late: bool): (o: Outcome)
    ensures o.Done? <==> ValidExecutionTime(t.now, late) && t.attempt.raised.None?
    ensures o.Closed? <==> !ValidExecutionTime(t.now, late)
  {
    if !ValidExecutionTime(t.now, late) then Closed(t.stamp)
    else if t.attempt.raised.None? then Done
    else Raised
  }

  function Outcomes(turns: seq<Turn>, late: bool): (r: seq<Outcome>)
    ensures |r| == |turns| && forall i :: 0 <= i < |turns| ==> r[i] == OutcomeOf(turns[i], late)
  {
    seq(|turns|, i requires 0 <= i < |turns| => OutcomeOf(turns[i], late))
  }

  /** The copy of an entry that `execute_trade` appends when the window has closed. */
  function Requeue(q: QueuedTrade, stamp: int): QueuedTrade {
    QueuedTrade(q.signal, q.spread, q.size, stamp)
  }

  /** The queue after `process_queued_trades` has gone through the first `|items|` entries
      of its copy `items`: an executed entry is removed with `list.remove`, an entry that
      finds the window closed stays and a copy is appended, and one that raised stays. */
  function Drain(queue: seq<QueuedTrade>, items: seq<QueuedTrade>, outcomes: seq<Outcome>)
    : seq<QueuedTrade>
    requires |items| == |outcomes|
  {
    if |items| == 0 then queue
    else
      var n := |items| - 1;
      var before := Drain(queue, items[..n], outcomes[..n]);
      match outcomes[n]
      case Done => RemoveFirst(before, items[n])
      case Closed(stamp) => before + [Requeue(items[n], stamp)]
      case Raised => before
  }

  /** The entries that were not executed, in queue order. */
  function Kept(queue: seq<QueuedTrade>, outcomes: seq<Outcome>): (r: seq<QueuedTrade>)
    requires |queue| == |outcomes|
    ensures |r| + Executions(outcomes) == |queue|
    ensures forall x :: x in r ==> x in queue
  {
    if |queue| == 0 then []
    else
      var n := |queue| - 1;
      Kept(queue[..n], outcomes[..n]) + (if outcomes[n].Done? then [] else [queue[n]])
  }

  /** The copies appended again, one per turn that found the window closed, in order. */
  function Requeued(queue: seq<QueuedTrade>, outcomes: seq<Outcome>): (r: seq<QueuedTrade>)
    requires |queue| == |outcomes|
    ensures |r| + Attempted(outcomes) == |queue|
  {
    if |queue| == 0 then []
    else
      var n := |queue| - 1;
      Requeued(queue[..n], outcomes[..n])
      + (if outcomes[n].Closed? then [Requeue(queue[n], outcomes[n].stamp)] else [])
  }

  /** The number of entries executed. */
  function Executions(outcomes: seq<Outcome>): (n: int)
    ensures 0 <= n <= Attempted(outcomes)
  {
    if |outcomes| == 0 then 0
    else Executions(outcomes[..|outcomes| - 1]) + (if outcomes[|outcomes| - 1].Done? then 1 else 0)
  }

  /** The number of turns that find the window open, each counted in `total_trades`. */
  function Attempted(outcomes: seq<Outcome>): (n: int)
    ensures 0 <= n <= |outcomes|
  {
    if |outcomes| == 0 then 0
    else Attempted(outcomes[..|outcomes| - 1]) + (if outcomes[|outcomes| - 1].Closed? then 0 else 1)
  }

  lemma CountsSnoc(outcomes: seq<Outcome>)
    requires |outcomes| > 0
    ensures var n := |outcomes| - 1;
            Executions(outcomes) == Executions(outcomes[..n]) + (if outcomes[n].Done? then 1 else 0)
            && Attempted(outcomes) == Attempted(outcomes[..n]) + (if outcomes[n].Closed? then 0 else 1)
  {
  }

  predicate Distinct<T(==)>(s: seq<T>) {
    forall i, j :: 0 <= i < j < |s| ==> s[i] != s[j]
  }

  /** With distinct queue entries (their `queued_at` stamps differ), draining the queue
      keeps exactly the entries that were not executed, in their order, followed by the
      copies queued again while the window was closed. */
  lemma DrainDistinct(queue: seq<QueuedTrade>, outcomes: seq<Outcome>)
    requires |queue| == |outcomes| && Distinct(queue)
    ensures Drain(queue, queue, outcomes) == Kept(queue, outcomes) + Requeued(queue, outcomes)
  {
    DrainPrefix(queue, outcomes, |queue|);
    assert queue[..|queue|] == queue && outcomes[..|queue|] == outcomes;
    assert queue[|queue|..] == [];
  }

  lemma {:induction false} DrainPrefix(queue: seq<QueuedTrade>, outcomes: seq<Outcome>, k: nat)
    requires |queue| == |outcomes| && Distinct(queue) && k <= |queue|
    ensures Drain(queue, queue[..k], outcomes[..k])
            == Kept(queue[..k], outcomes[..k]) + queue[k..] + Requeued(queue[..k], outcomes[..k])
  {
    if k == 0 {
      assert queue[..0] == [] && queue[0..] == queue;
    } else {
      DrainPrefix(queue, outcomes, k - 1);
      if outcomes[k - 1].Done? {
        NotInEarlier(queue, outcomes, k);
        DrainStepExecuted(queue, outcomes, k);
      } else {
        DrainStepNotExecuted(queue, outcomes, k);
      }
    }
  }

  lemma DrainStepExecuted(queue: seq<QueuedTrade>, outcomes: seq<Outcome>, k: nat)
    requires |queue| == |outcomes| && 0 < k <= |queue|
    requires outcomes[k - 1].Done? && queue[k - 1] !in Kept(queue[..k - 1], outcomes[..k - 1])
    requires Drain(queue, queue[..k - 1], outcomes[..k - 1])
             == Kept(queue[..k - 1], outcomes[..k - 1]) + queue[k - 1..]
                + Requeued(queue[..k - 1], outcomes[..k - 1])
    ensures Drain(queue, queue[..k], outcomes[..k])
            == Kept(queue[..k], outcomes[..k]) + queue[k..] + Requeued(queue[..k], outcomes[..k])
  {
    var kept := Kept(queue[..k - 1], outcomes[..k - 1]);
    var again := Requeued(queue[..k - 1], outcomes[..k - 1]);
    var before := Drain(queue, queue[..k - 1], outcomes[..k - 1]);
    var after := Drain(queue, queue[..k], outcomes[..k]);
    var x := queue[k - 1];
    assert after == RemoveFirst(before, x)
           && Kept(queue[..k], outcomes[..k]) == kept
           && Requeued(queue[..k], outcomes[..k]) == again by {
      PrefixSteps(queue, outcomes, k);
    }
    SplitAt(before, kept, queue, k, again);
    ExecutedStep(kept, x, queue[k..], again, after);
  }

  lemma DrainStepNotExecuted(queue: seq<QueuedTrade>, outcomes: seq<Outcome>, k: nat)
    requires |queue| == |outcomes| && 0 < k <= |queue|
    requires !outcomes[k - 1].Done?
    requires Drain(queue, queue[..k - 1], outcomes[..k - 1])
             == Kept(queue[..k - 1], outcomes[..k - 1]) + queue[k - 1..]
                + Requeued(queue[..k - 1], outcomes[..k - 1])
    ensures Drain(queue, queue[..k], outcomes[..k])
            == Kept(queue[..k], outcomes[..k]) + queue[k..] + Requeued(queue[..k], outcomes[..k])
  {
    PrefixSteps(queue, outcomes, k);
    var kept := Kept(queue[..k - 1], outcomes[..k - 1]);
    var again := Requeued(queue[..k - 1], outcomes[..k - 1]);
    var x := queue[k - 1];
    var extra := if outcomes[k - 1].Closed? then [Requeue(x, outcomes[k - 1].stamp)] else [];
    SplitAt(Drain(queue, queue[..k - 1], outcomes[..k - 1]), kept, queue, k, again);
    Regroup(kept, [x], queue[k..], again, extra);
  }

  /** Removing the first `x` from kept entries without it, then `x`, the rest and the
      copies queued again, leaves all but `x`. */
  lemma ExecutedStep<T>(kept: seq<T>, x: T, rest: seq<T>, again: seq<T>, drained: seq<T>)
    requires x !in kept
    requires drained == RemoveFirst(kept + ([x] + rest) + again, x)
    ensures drained == kept + rest + again
  {
    Reassociate(kept, [x], rest, again);
    RemoveFirstAt(kept, x, rest + again);
    assert kept + (rest + again) == kept + rest + again;
  }

  /** One more turn of the loop, stated at the index of its entry. */
  lemma TurnStep(queue: seq<QueuedTrade>, outcomes: seq<Outcome>, i: nat)
    requires |queue| == |outcomes| && i < |queue|
    ensures var before := Drain(queue, queue[..i], outcomes[..i]);
            Drain(queue, queue[..i + 1], outcomes[..i + 1])
            == match outcomes[i]
               case Done => RemoveFirst(before, queue[i])
               case Closed(stamp) => before + [Requeue(queue[i], stamp)]
               case Raised => before
    ensures Executions(outcomes[..i + 1])
            == Executions(outcomes[..i]) + (if outcomes[i].Done? then 1 else 0)
    ensures Attempted(outcomes[..i + 1])
            == Attempted(outcomes[..i]) + (if outcomes[i].Closed? then 0 else 1)
  {
    PrefixSteps(queue, outcomes, i + 1);
    assert outcomes[..i + 1][..i] == outcomes[..i];
    CountsSnoc(outcomes[..i + 1]);
  }

  /** A concatenation around the suffix from `k - 1` is one around that entry and the rest. */
  lemma SplitAt<T>(s: seq<T>, a: seq<T>, q: seq<T>, k: nat, b: seq<T>)
    requires 0 < k <= |q| && s == a + q[k - 1..] + b
    ensures s == a + ([q[k - 1]] + q[k..]) + b
  {
    assert q[k - 1..] == [q[k - 1]] + q[k..];
  }

  /** Regrouping a concatenation of four parts. */
  lemma Reassociate<T>(a: seq<T>, b: seq<T>, c: seq<T>, d: seq<T>)
    ensures a + (b + c) + d == a + b + (c + d)
  {
  }

  /** Regrouping a concatenation of five parts. */
  lemma Regroup<T>(a: seq<T>, b: seq<T>, c: seq<T>, d: seq<T>, e: seq<T>)
    ensures a + (b + c) + d + e == (a + b) + c + (d + e)
  {
  }

  /** One more entry of the copy: what it does to the queue, to the kept entries and to
      the copies queued again. */
  lemma PrefixSteps(queue: seq<QueuedTrade>, outcomes: seq<Outcome>, k: nat)
    requires |queue| == |outcomes| && 0 < k <= |queue|
    ensures var before := Drain(queue, queue[..k - 1], outcomes[..k - 1]);
            Drain(queue, queue[..k], outcomes[..k])
            == match outcomes[k - 1]
               case Done => RemoveFirst(before, queue[k - 1])
               case Closed(stamp) => before + [Requeue(queue[k - 1], stamp)]
               case Raised => before
    ensures Kept(queue[..k], outcomes[..k])
            == Kept(queue[..k - 1], outcomes[..k - 1])
               + (if outcomes[k - 1].Done? then [] else [queue[k - 1]])
    ensures Requeued(queue[..k], outcomes[..k])
            == Requeued(queue[..k - 1], outcomes[..k - 1])
               + (if outcomes[k - 1].Closed? then [Requeue(queue[k - 1], outcomes[k - 1].stamp)] else [])
  {
    assert queue[..k][..k - 1] == queue[..k - 1];
    assert outcomes[..k][..k - 1] == outcomes[..k - 1];
  }

  /** An entry of a distinct queue is not among the entries kept before it. */
  lemma NotInEarlier(queue: seq<QueuedTrade>, outcomes: seq<Outcome>, k: nat)
    requires |queue| == |outcomes| && Distinct(queue) && 0 < k <= |queue|
    ensures queue[k - 1] !in Kept(queue[..k - 1], outcomes[..k - 1])
  {
  }

  class Executor {
    const config: ExecutorConfig
    /** `config.TRADING_MODE or "PAPER"`. */
    const tradingMode: string
    var queuedTrades: seq<QueuedTrade>
    var totalTrades: int
    var successfulTrades: int
    var failedTrades: int
    var avgExecutionTime: real
    /** The execution times of the successful trades so far. */
    ghost var executionTimes: seq<real>

    /** The metrics invariant: every trade is counted once, as a success or a failure, and
        the average is the mean of the successful executions' times. */
    ghost predicate Valid()
      reads this
    {
      totalTrades == successfulTrades + failedTrades && failedTrades >= 0
      && successfulTrades == |executionTimes|
      && (successfulTrades > 0 ==> avgExecutionTime == Mean(executionTimes))
    }

    constructor(config: ExecutorConfig)
      ensures Valid()
      ensures this.config == config
      ensures tradingMode == (if config.tradingMode.Some? && config.tradingMode.value != ""
                              then config.tradingMode.value else "PAPER")
      ensures queuedTrades == [] && totalTrades == 0 && avgExecutionTime == 0.0
    {
      this.config := config;
      tradingMode := if config.tradingMode.Some? && config.tradingMode.value != ""
                     then config.tradingMode.value else "PAPER";
      queuedTrades := [];
      totalTrades := 0;
      successfulTrades := 0;
      failedTrades := 0;
      avgExecutionTime := 0.0;
      executionTimes := [];
    }

    /** `_update_avg_execution_time`, called once `successful_trades` counts the new one. */
    method UpdateAvgExecutionTime(newTime: real)
      requires successfulTrades == |executionTimes| + 1
      requires |executionTimes| > 0 ==> avgExecutionTime == Mean(executionTimes)
      modifies this
      ensures executionTimes == old(executionTimes) + [newTime]
      ensures avgExecutionTime == Mean(executionTimes)
      ensures queuedTrades == old(queuedTrades) && totalTrades == old(totalTrades)
      ensures successfulTrades == old(successfulTrades) && failedTrades == old(failedTrades)
    {
      if successfulTrades == 1 {
        avgExecutionTime := newTime;
        assert Sum([newTime]) == Sum([]) + newTime;
      } else {
        var n := successfulTrades;
        MeanSnoc(executionTimes, newTime);
        avgExecutionTime := (avgExecutionTime * ((n - 1) as real) + newTime) / (n as real);
      }
      executionTimes := executionTimes + [newTime];
    }

    /** `execute_trade`: outside the execution window the trade is queued and the metrics are
        untouched; inside it the trade executes (counted as a success, with its time folded
        into the average) unless the attempt raises (counted as a failure). */
    method ExecuteTrade(signal: TradeSignal, spread: OptionSpread, size: int, now: EtTime,
                        nowStamp: int, attempt: Attempt)
      returns (status: Status, result: string)
      requires Valid()
      modifies this
      ensures Valid()
      ensures !ValidExecutionTime(now, config.allowLateDayEntry) ==>
                status == Queued && result == QueuedMessage
                && queuedTrades == old(queuedTrades) + [QueuedTrade(signal, spread, size, nowStamp)]
                && totalTrades == old(totalTrades) && successfulTrades == old(successfulTrades)
                && failedTrades == old(failedTrades)
                && avgExecutionTime == old(avgExecutionTime)
      ensures ValidExecutionTime(now, config.allowLateDayEntry) ==>
                queuedTrades == old(queuedTrades) && totalTrades == old(totalTrades) + 1
      ensures ValidExecutionTime(now, config.allowLateDayEntry) && attempt.raised.None? ==>
                status == Executed
                && result == (if tradingMode == "PAPER" then "PAPER-" else "LIVE-") + attempt.stamp
                && successfulTrades == old(successfulTrades) + 1
                && failedTrades == old(failedTrades)
                && executionTimes == old(executionTimes) + [attempt.elapsed]
      ensures ValidExecutionTime(now, config.allowLateDayEntry) && attempt.raised.Some? ==>
                status == Failed && result == attempt.raised.value
                && successfulTrades == old(successfulTrades)
                && failedTrades == old(failedTrades) + 1
                && avgExecutionTime == old(avgExecutionTime)
    {
      if !ValidExecutionTime(now, config.allowLateDayEntry) {
        queuedTrades := queuedTrades + [QueuedTrade(signal, spread, size, nowStamp)];
        return Queued, QueuedMessage;
      }
      if attempt.raised.Some? {
        totalTrades := totalTrades + 1;
        failedTrades := failedTrades + 1;
        return Failed, attempt.raised.value;
      }
      var orderId := if tradingMode == "PAPER" then "PAPER-" + attempt.stamp
                     else "LIVE-" + attempt.stamp;
      totalTrades := totalTrades + 1;
      successfulTrades := successfulTrades + 1;
      UpdateAvgExecutionTime(attempt.elapsed);
      return Executed, orderId;
    }

    /** `process_queued_trades`: outside the window nothing happens; inside it, every entry
        of a copy of the queue goes through `execute_trade` once, in queue order, which reads
        the clock again (`turns`): an executed entry is removed, an entry that finds the
        window closed stays and a copy is appended, and one whose execution raised stays. */
    method ProcessQueuedTrades(now: EtTime, turns: seq<Turn>) returns (processed: int)
      requires Valid() && |turns| == |queuedTrades|
      modifies this
      ensures Valid()
      ensures !ValidExecutionTime(now, config.allowLateDayEntry) ==>
                processed == 0 && queuedTrades == old(queuedTrades)
                && totalTrades == old(totalTrades) && successfulTrades == old(successfulTrades)
                && failedTrades == old(failedTrades) && avgExecutionTime == old(avgExecutionTime)
      ensures ValidExecutionTime(now, config.allowLateDayEntry) ==>
                var outcomes := Outcomes(turns, config.allowLateDayEntry);
                queuedTrades == Drain(old(queuedTrades), old(queuedTrades), outcomes)
                && processed == Executions(outcomes)
                && totalTrades == old(totalTrades) + Attempted(outcomes)
                && successfulTrades == old(successfulTrades) + processed
                && failedTrades == old(failedTrades) + Attempted(outcomes) - processed
    {
      if !ValidExecutionTime(now, config.allowLateDayEntry) {
        return 0;
      }
      var outcomes := Outcomes(turns, config.allowLateDayEntry);
      var items := queuedTrades;
      processed := 0;
      var i := 0;
      while i < |items|
        invariant 0 <= i <= |items| && Valid()
        invariant queuedTrades == Drain(items, items[..i], outcomes[..i])
        invariant processed == Executions(outcomes[..i])
        invariant totalTrades == old(totalTrades) + Attempted(outcomes[..i])
        invariant successfulTrades == old(successfulTrades) + processed
        invariant failedTrades == old(failedTrades) + Attempted(outcomes[..i]) - processed
      {
        TurnStep(items, outcomes, i);
        assert outcomes[i] == OutcomeOf(turns[i], config.allowLateDayEntry);
        var executed := ExecuteQueued(items[i], turns[i]);
        if executed {
          processed := processed + 1;
        }
        i := i + 1;
      }
      assert items[..i] == items && outcomes[..i] == outcomes;
    }

    /** One turn of the `process_queued_trades` loop: `execute_trade` on the entry at the
        turn's instant, and the entry's removal when it executed. */
    method ExecuteQueued(item: QueuedTrade, turn: Turn) returns (executed: bool)
      requires Valid()
      modifies this
      ensures Valid()
      ensures executed <==> OutcomeOf(turn, config.allowLateDayEntry).Done?
      ensures queuedTrades == match OutcomeOf(turn, config.allowLateDayEntry)
                              case Done => RemoveFirst(old(queuedTrades), item)
                              case Closed(stamp) => old(queuedTrades) + [Requeue(item, stamp)]
                              case Raised => old(queuedTrades)
      ensures totalTrades == old(totalTrades)
                             + (if OutcomeOf(turn, config.allowLateDayEntry).Closed? then 0 else 1)
      ensures successfulTrades == old(successfulTrades) + (if executed then 1 else 0)
      ensures failedTrades == old(failedTrades)
                              + (if OutcomeOf(turn, config.allowLateDayEntry).Raised? then 1 else 0)
    {
      ghost var outcome := OutcomeOf(turn, config.allowLateDayEntry);
      var status, _ := ExecuteTrade(item.signal, item.spread, item.size, turn.now, turn.stamp,
                                    turn.attempt);
      assert outcome.Closed? ==> status == Queued;
      assert outcome.Done? ==> status == Executed;
      assert outcome.Raised? ==> status == Failed;
      executed := status == Executed;
      if executed {
        queuedTrades := RemoveFirst(queuedTrades, item);
      }
    }

    /** `get_metrics`. */
    function GetMetrics(): (m: (int, int, int, real, real, int))
      reads this
      requires Valid()
      ensures m.0 == totalTrades && m.1 == successfulTrades && m.2 == failedTrades
      ensures m.3 == avgExecutionTime && m.5 == |queuedTrades|
      ensures 0.0 <= m.4 <= 1.0
      ensures m.0 == 0 ==> m.4 == 0.0
      ensures m.0 > 0 ==> m.4 * (m.0 as real) == m.1 as real
    {
      var rate := if totalTrades > 0 then (successfulTrades as real) / (totalTrades as real)
                  else 0.0;
      (totalTrades, successfulTrades, failedTrades, avgExecutionTime, rate, |queuedTrades|)
    }
  }
}
