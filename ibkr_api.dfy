/** `IBKRApi` of `brokers/ibkr_api.py`: the in-memory simulated broker with its order-id
    counter, order book and positions. The clock and the fill price of the simulated fill are
    parameters; the fill itself is a method instead of a thread. */
module SimulatedBroker {
  import opened Wrappers
  import opened Text
  import opened OptionModel

  /** One entry of `orders`. */
  datatype OrderRecord = OrderRecord(
    id: string, symbol: string, direction: string, contracts: int, spreadType: SpreadType,
    priceType: string, limitPrice: Option<real>, status: string, filledPrice: Option<real>,
    submitTime: int, fillTime: Option<int>)

  /** One fill recorded under a position. */
  datatype FillRecord = FillRecord(orderId: string, direction: string, contracts: int,
                                   price: real, time: int)

  /** One entry of `positions`. */
  datatype BrokerPosition = BrokerPosition(quantity: int, avgPrice: real, trades: seq<FillRecord>)

  const EmptyPosition := BrokerPosition(0, 0.0, [])

  /** The position after one fill of `order`: the contracts are added for LONG and
      subtracted otherwise, the fill is appended, and the average price becomes the fill
      price unless the position is flat. */
  function AfterFill(pos: BrokerPosition, order: OrderRecord, orderId: string, price: real,
                     time: int): (r: BrokerPosition)
    ensures r.quantity == pos.quantity + (if order.direction == "LONG" then order.contracts
                                          else -order.contracts)
    ensures r.trades == pos.trades + [FillRecord(orderId, order.direction, order.contracts,
                                                 price, time)]
    ensures r.avgPrice == (if r.quantity != 0 then price else pos.avgPrice)
  {
    var quantity := if order.direction == "LONG" then pos.quantity + order.contracts
                    else pos.quantity - order.contracts;
    BrokerPosition(quantity, if quantity != 0 then price else pos.avgPrice,
                   pos.trades + [FillRecord(orderId, order.direction, order.contracts, price, time)])
  }

  /** The book after `_simulate_order_fill` as written: any recorded order, whatever its
      status, becomes FILLED and moves its symbol's position. */
  function FillAsWritten(orders: map<string, OrderRecord>, positions: map<string, BrokerPosition>,
                         orderId: string, price: real, time: int)
    : (map<string, OrderRecord>, map<string, BrokerPosition>)
  {
    if orderId !in orders then (orders, positions)
    else
      var order := orders[orderId];
      var pos := if order.symbol in positions then positions[order.symbol] else EmptyPosition;
      (orders[orderId := order.(status := "FILLED", filledPrice := Some(price),
                                fillTime := Some(time))],
       positions[order.symbol := AfterFill(pos, order, orderId, price, time)])
  }

  /** A cancelled order is revived by the simulated fill as written: it ends FILLED. */
  lemma FillAsWrittenRevivesCancelled(orders: map<string, OrderRecord>,
                                      positions: map<string, BrokerPosition>, orderId: string,
                                      price: real, time: int)
    requires orderId in orders && orders[orderId].status == "CANCELLED"
    ensures var (orders', _) := FillAsWritten(orders, positions, orderId, price, time);
            orderId in orders' && orders'[orderId].status == "FILLED"
  {
  }

  /** The simulated fill as intended: only a SUBMITTED order fills; a cancelled or already
      filled order leaves the book as it is. */
  function Fill(orders: map<string, OrderRecord>, positions: map<string, BrokerPosition>,
                orderId: string, price: real, time: int)
    : (r: (map<string, OrderRecord>, map<string, BrokerPosition>))
    ensures orderId !in orders || orders[orderId].status != "SUBMITTED" ==>
              r == (orders, positions)
    ensures orderId in orders && orders[orderId].status == "SUBMITTED" ==>
              r == FillAsWritten(orders, positions, orderId, price, time)
  {
    if orderId !in orders || orders[orderId].status != "SUBMITTED" then (orders, positions)
    else FillAsWritten(orders, positions, orderId, price, time)
  }

  /** A fill of a submitted order moves exactly its symbol's quantity by its contracts and
      appends exactly one trade; every other symbol's position is unchanged. */
  lemma FillMovesOnePosition(orders: map<string, OrderRecord>,
                             positions: map<string, BrokerPosition>, orderId: string,
                             price: real, time: int)
    requires orderId in orders && orders[orderId].status == "SUBMITTED"
    ensures var (orders', positions') := Fill(orders, positions, orderId, price, time);
            var o := orders[orderId];
            var before := if o.symbol in positions then positions[o.symbol] else EmptyPosition;
            o.symbol in positions'
            && positions'[o.symbol].quantity
               == before.quantity + (if o.direction == "LONG" then o.contracts else -o.contracts)
            && |positions'[o.symbol].trades| == |before.trades| + 1
            && orders'[orderId].status == "FILLED"
            && (forall s :: s in positions && s != o.symbol ==>
                               s in positions' && positions'[s] == positions[s])
  {
  }

  class IbkrApi {
    var connected: bool
    var nextOrderId: int
    var orders: map<string, OrderRecord>
    var positions: map<string, BrokerPosition>

    /** The order-id counter is positive: ids start at 1. */
    ghost predicate Valid()
      reads this
    {
      nextOrderId >= 1
    }

    constructor()
      ensures Valid() && !connected && nextOrderId == 1 && orders == map[] && positions == map[]
    {
      connected := false;
      nextOrderId := 1;
      orders := map[];
      positions := map[];
    }

    /** `connect`: the simulated connection always succeeds. */
    method Connect() returns (ok: bool)
      modifies this
      ensures ok && connected
      ensures nextOrderId == old(nextOrderId) && orders == old(orders)
      ensures positions == old(positions)
    {
      connected := true;
      return true;
    }

    method Disconnect()
      modifies this
      ensures !connected
      ensures nextOrderId == old(nextOrderId) && orders == old(orders)
      ensures positions == old(positions)
    {
      if connected {
        connected := false;
      }
    }

    /** `get_next_order_id`: hands out the counter and advances it by one, so successive ids
        are consecutive and strictly increasing. */
    method GetNextOrderId() returns (id: int)
      requires Valid()
      modifies this
      ensures Valid()
      ensures id == old(nextOrderId) && nextOrderId == id + 1 && id >= 1
      ensures connected == old(connected) && orders == old(orders)
      ensures positions == old(positions)
    {
      id := nextOrderId;
      nextOrderId := nextOrderId + 1;
    }

    /** `place_order`: refuses (recording nothing) when disconnected, for a non-positive
        size, or for a LIMIT order without a price; otherwise records the order as SUBMITTED
        under the next id and returns that id. */
    method PlaceOrder(symbol: string, direction: string, contracts: int, spread: OptionSpread,
                      priceType: string, limitPrice: Option<real>, now: int)
      returns (r: Result<string>)
      requires Valid()
      modifies this
      ensures Valid()
      ensures !old(connected) ==> r == Err("Not connected to IBKR")
      ensures old(connected) && contracts <= 0 ==>
                r == Err("Invalid number of contracts: " + IntToString(contracts))
      ensures old(connected) && contracts > 0 && priceType == "LIMIT" && limitPrice.None? ==>
                r == Err("Limit price required for LIMIT orders")
      ensures r.Err? ==> nextOrderId == old(nextOrderId) && orders == old(orders)
      ensures r.Ok? <==> old(connected) && contracts > 0
                         && !(priceType == "LIMIT" && limitPrice.None?)
      ensures r.Ok? ==>
                r.value == IntToString(old(nextOrderId)) && nextOrderId == old(nextOrderId) + 1
                && orders == old(orders)[r.value := OrderRecord(
                               r.value, symbol, direction, contracts, spread.spreadType,
                               priceType, limitPrice, "SUBMITTED", None, now, None)]
      ensures connected == old(connected) && positions == old(positions)
    {
      if !connected {
        return Err("Not connected to IBKR");
      }
      if contracts <= 0 {
        return Err("Invalid number of contracts: " + IntToString(contracts));
      }
      if priceType == "LIMIT" && limitPrice.None? {
        return Err("Limit price required for LIMIT orders");
      }
      var orderId := GetNextOrderId();
      var id := IntToString(orderId);
      orders := orders[id := OrderRecord(id, symbol, direction, contracts, spread.spreadType,
                                         priceType, limitPrice, "SUBMITTED", None, now, None)];
      return Ok(id);
    }

    /** `_simulate_order_fill` with its fill price and time given, as intended (see `Fill`). */
    method SimulateOrderFill(orderId: string, filledPrice: real, now: int)
      modifies this
      ensures (orders, positions) == Fill(old(orders), old(positions), orderId, filledPrice, now)
      ensures connected == old(connected) && nextOrderId == old(nextOrderId)
    {
      if orderId !in orders || orders[orderId].status != "SUBMITTED" {
        return;
      }
      var order := orders[orderId];
      order := order.(status := "FILLED", filledPrice := Some(filledPrice), fillTime := Some(now));
      orders := orders[orderId := order];
      ghost var before := positions;
      if order.symbol !in positions {
        positions := positions[order.symbol := EmptyPosition];
      }
      var position := positions[order.symbol];
      assert position == if order.symbol in before then before[order.symbol] else EmptyPosition;
      var newQuantity := if order.direction == "LONG" then position.quantity + order.contracts
                         else position.quantity - order.contracts;
      var trades := position.trades + [FillRecord(orderId, order.direction, order.contracts,
                                                  filledPrice, now)];
      var avgPrice := if newQuantity != 0 then filledPrice else position.avgPrice;
      positions := positions[order.symbol := BrokerPosition(newQuantity, avgPrice, trades)];
      assert positions == before[order.symbol := BrokerPosition(newQuantity, avgPrice, trades)];
    }

    /** `get_order_status`: the record, or nothing (`{}`) for an unknown id. */
    function GetOrderStatus(orderId: string): (r: Option<OrderRecord>)
      reads this
      ensures r.None? <==> orderId !in orders
      ensures r.Some? ==> r.value == orders[orderId]
    {
      if orderId in orders then Some(orders[orderId]) else None
    }

    /** `cancel_order`: refuses when disconnected, for an unknown id, or for a FILLED or
        CANCELLED order, changing nothing; otherwise marks the order CANCELLED. */
    method CancelOrder(orderId: string) returns (ok: bool)
      modifies this
      ensures ok <==> old(connected) && orderId in old(orders)
                      && old(orders)[orderId].status !in {"FILLED", "CANCELLED"}
      ensures ok ==> orders == old(orders)[orderId := old(orders)[orderId].(status := "CANCELLED")]
      ensures !ok ==> orders == old(orders)
      ensures connected == old(connected) && nextOrderId == old(nextOrderId)
      ensures positions == old(positions)
    {
      if !connected {
        return false;
      }
      if orderId !in orders {
        return false;
      }
      var order := orders[orderId];
      if order.status in {"FILLED", "CANCELLED"} {
        return false;
      }
      orders := orders[orderId := order.(status := "CANCELLED")];
      return true;
    }
  }

  /** With the intended fill, a successfully cancelled order is never filled afterwards. */
  lemma CancelledStaysCancelled(orders: map<string, OrderRecord>,
                                positions: map<string, BrokerPosition>, orderId: string,
                                price: real, time: int)
    requires orderId in orders && orders[orderId].status == "CANCELLED"
    ensures Fill(orders, positions, orderId, price, time) == (orders, positions)
  {
  }
}
