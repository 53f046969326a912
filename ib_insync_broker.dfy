/** The pure parts of `IBKRInsyncAPI` in `brokers/ibkr_ib_insync.py`: the error-code
    handler, the order-id counter, the checks and leg actions of `place_order`, the status
    guard of `cancel_order`, the tag mapping of `get_account_summary` and the aggregation of
    `get_positions`. Every answer of the ib_insync library is a parameter. */
module IbInsyncBroker {
  import opened Wrappers
  import opened Text

  /** Error codes after which the connection counts as lost: 502/504 (cannot connect),
      1100 (connectivity lost) and 1300 (TWS or Gateway not running). */
  const ConnectionErrorCodes: set<int> := {502, 504, 1100, 1300}

  /** The two exception types `place_order` raises. */
  datatype PlaceError = ValueError(message: string) | RuntimeError(message: string)

  /** The outcome of `place_order` before the broker call: the order to send, or the
      exception raised. */
  datatype Planned = Send(shape: OrderShape) | Raise(error: PlaceError)

  /** What `place_order` sends for a spread: the option right of the two legs, the action of
      each leg and of the order, and whether it is a limit order. */
  datatype OrderShape = OrderShape(right: char, leg1Action: string, leg2Action: string,
                                   orderAction: string, isLimit: bool)

  /** `place_order` up to the broker call: the three checks in their order, then the legs.
      A spread type other than BULL_CALL or BEAR_PUT raises inside the `try`, so it surfaces
      as a RuntimeError. */
  function PlanOrder(connected: bool, direction: string, contracts: int, spreadType: string,
                     priceType: string, limitPrice: Option<real>): (r: Planned)
    ensures !connected ==> r == Raise(ValueError("Not connected to IBKR"))
    ensures connected && contracts <= 0 ==>
              r == Raise(ValueError("Invalid number of contracts: " + IntToString(contracts)))
    ensures connected && contracts > 0 && priceType == "LIMIT" && limitPrice.None? ==>
              r == Raise(ValueError("Limit price required for LIMIT orders"))
    ensures r.Raise? && r.error.RuntimeError? <==>
              connected && contracts > 0 && !(priceType == "LIMIT" && limitPrice.None?)
              && spreadType !in {"BULL_CALL", "BEAR_PUT"}
    ensures r.Send? ==>
              (r.shape.right == 'C' <==> spreadType == "BULL_CALL")
              && (r.shape.right == 'P' <==> spreadType == "BEAR_PUT")
              && r.shape.isLimit == (priceType == "LIMIT")
              && r.shape.orderAction == r.shape.leg1Action
              && {r.shape.leg1Action, r.shape.leg2Action} == {"BUY", "SELL"}
              && (r.shape.leg1Action == "BUY" <==> direction == "LONG")
  {
    if !connected then Raise(ValueError("Not connected to IBKR"))
    else if contracts <= 0 then Raise(ValueError("Invalid number of contracts: " + IntToString(contracts)))
    else if priceType == "LIMIT" && limitPrice.None? then
      Raise(ValueError("Limit price required for LIMIT orders"))
    else if spreadType != "BULL_CALL" && spreadType != "BEAR_PUT" then
      Raise(RuntimeError("Order placement failed: Unsupported spread type: " + spreadType))
    else
      var buy := if direction == "LONG" then "BUY" else "SELL";
      var sell := if direction == "LONG" then "SELL" else "BUY";
      Send(OrderShape(if spreadType == "BULL_CALL" then 'C' else 'P', buy, sell, buy,
                    priceType == "LIMIT"))
  }

  /** A LONG and a SHORT order for the same spread are mirror images: every action flips. */
  lemma ShortMirrorsLong(contracts: int, spreadType: string, priceType: string,
                         limitPrice: Option<real>)
    requires PlanOrder(true, "LONG", contracts, spreadType, priceType, limitPrice).Send?
    ensures var long := PlanOrder(true, "LONG", contracts, spreadType, priceType, limitPrice);
            var short := PlanOrder(true, "SHORT", contracts, spreadType, priceType, limitPrice);
            short.Send? && short.shape.right == long.shape.right
            && short.shape.leg1Action == long.shape.leg2Action
            && short.shape.leg2Action == long.shape.leg1Action
            && short.shape.orderAction != long.shape.orderAction
  {
  }

  /** Order statuses that can no longer be cancelled. */
  const FinalStatuses: set<string> := {"Filled", "Cancelled", "ApiCancelled"}

  /** One entry of `orders`: the status stored when placed, and the live status of its trade
      object (`None` when there is none). */
  datatype OrderEntry = OrderEntry(status: string, tradeStatus: Option<string>)

  /** One element of `ib.positions()`; a missing or NaN market price or value is `None`. */
  datatype IbPosition = IbPosition(symbol: string, account: string, position: real,
                                   avgCost: real, marketPrice: Option<real>,
                                   marketValue: Option<real>)

  /** One entry of the positions dictionary. */
  datatype PositionEntry = PositionEntry(quantity: real, avgPrice: real, marketPrice: real,
                                         marketValue: real, account: string)

  /** The dictionary `get_positions` builds from `ib.positions()`, element by element: the
      first element of a symbol opens its entry, every element adds its quantity and
      overwrites the average cost, and a present market price or value overwrites it. */
  function Aggregate(ps: seq<IbPosition>): map<string, PositionEntry> {
    if |ps| == 0 then map[]
    else
      var acc := Aggregate(ps[..|ps| - 1]);
      var p := ps[|ps| - 1];
      var e := if p.symbol in acc then acc[p.symbol] else PositionEntry(0.0, 0.0, 0.0, 0.0, p.account);
      acc[p.symbol := PositionEntry(
        e.quantity + p.position, p.avgCost,
        if p.marketPrice.Some? then p.marketPrice.value else e.marketPrice,
        if p.marketValue.Some? then p.marketValue.value else e.marketValue,
        e.account)]
  }

  /** The total position held in `symbol`, summed over the elements independently. */
  function TotalQuantity(ps: seq<IbPosition>, symbol: string): real {
    if |ps| == 0 then 0.0
    else TotalQuantity(ps[..|ps| - 1], symbol)
         + (if ps[|ps| - 1].symbol == symbol then ps[|ps| - 1].position else 0.0)
  }

  /** The index of the last element about `symbol`, if any. */
  function LastIndex(ps: seq<IbPosition>, symbol: string): (r: Option<nat>)
    ensures r.None? <==> forall k :: 0 <= k < |ps| ==> ps[k].symbol != symbol
    ensures r.Some? ==> r.value < |ps| && ps[r.value].symbol == symbol
                        && forall k :: r.value < k < |ps| ==> ps[k].symbol != symbol
  {
    if |ps| == 0 then None
    else if ps[|ps| - 1].symbol == symbol then Some(|ps| - 1)
    else LastIndex(ps[..|ps| - 1], symbol)
  }

  /** The aggregated dictionary has one entry per symbol present, holding the summed quantity,
      and the average cost of the symbol's last element; an absent symbol has none held. */
  lemma {:induction false} AggregateMeaning(ps: seq<IbPosition>, symbol: string)
    ensures symbol in Aggregate(ps) <==> LastIndex(ps, symbol).Some?
    ensures symbol !in Aggregate(ps) ==> TotalQuantity(ps, symbol) == 0.0
    ensures symbol in Aggregate(ps) ==>
              Aggregate(ps)[symbol].quantity == TotalQuantity(ps, symbol)
              && Aggregate(ps)[symbol].avgPrice == ps[LastIndex(ps, symbol).value].avgCost
  {
    if |ps| > 0 {
      AggregateMeaning(ps[..|ps| - 1], symbol);
      var init := ps[..|ps| - 1];
      if ps[|ps| - 1].symbol != symbol {
        assert LastIndex(ps, symbol) == LastIndex(init, symbol);
        if LastIndex(init, symbol).Some? {
          assert ps[LastIndex(init, symbol).value] == init[LastIndex(init, symbol).value];
        }
      }
    }
  }

  /** A USD entry of `ib.accountValues()`. */
  datatype AccountValue = AccountValue(tag: string, value: string, currency: string)

  /** A summary field: never reported (`None`), a number, or a value kept as text. */
  datatype Field = Unset | Number(x: real) | Text(s: string)

  /** The summary keys the closing log line of `get_account_summary` formats as numbers. */
  const LoggedFields: set<string> := {"net_liquidation", "equity_with_loan", "buying_power"}

  /** Every logged field is a summary key. */
  lemma LoggedFieldsMapped()
    ensures LoggedFields <= AccountFields.Values
  {
    assert AccountFields["NetLiquidation"] == "net_liquidation";
    assert AccountFields["EquityWithLoanValue"] == "equity_with_loan";
    assert AccountFields["BuyingPower"] == "buying_power";
  }

  /** The tag of TWS to the summary key. */
  const AccountFields: map<string, string> := map[
    "NetLiquidation" := "net_liquidation", "CashBalance" := "cash_balance",
    "EquityWithLoanValue" := "equity_with_loan", "InitMarginReq" := "initial_margin_req",
    "MaintMarginReq" := "maintenance_margin_req", "AvailableFunds" := "available_funds",
    "ExcessLiquidity" := "excess_liquidity", "BuyingPower" := "buying_power",
    "DayTradesRemaining" := "day_trades_remaining",
    "GrossPositionValue" := "gross_position_value", "TotalCashValue" := "total_cash_value",
    "TotalCashBalance" := "total_cash_balance", "AccruedCash" := "accrued_cash",
    "FullAvailableFunds" := "full_available_funds",
    "FullExcessLiquidity" := "full_excess_liquidity",
    "FullInitMarginReq" := "full_init_margin_req",
    "FullMaintMarginReq" := "full_maint_margin_req", "FuturesPNL" := "futures_pnl",
    "LookAheadAvailableFunds" := "look_ahead_available_funds",
    "LookAheadExcessLiquidity" := "look_ahead_excess_liquidity",
    "LookAheadInitMarginReq" := "look_ahead_init_margin_req",
    "LookAheadMaintMarginReq" := "look_ahead_maint_margin_req",
    "OptionMarketValue" := "option_market_value", "StockMarketValue" := "stock_market_value",
    "UnrealizedPnL" := "unrealized_pnl", "RealizedPnL" := "realized_pnl"]

  /** Does this entry of `ib.accountValues()` set summary key `key`? Only USD values count. */
  predicate Sets(fields: map<string, string>, v: AccountValue, key: string) {
    v.currency == "USD" && v.tag in fields && fields[v.tag] == key
  }

  /** `float(value)` when it parses (`parse` stands for Python's float conversion), else the
      text itself. */
  function Convert(parse: string -> Option<real>, s: string): Field {
    if parse(s).Some? then Number(parse(s).value) else Text(s)
  }

  /** The summary value of `key`: from the last entry that sets it, or Unset. */
  function FieldValue(fields: map<string, string>, parse: string -> Option<real>,
                      values: seq<AccountValue>, key: string): Field {
    if |values| == 0 then Unset
    else if Sets(fields, values[|values| - 1], key) then Convert(parse, values[|values| - 1].value)
    else FieldValue(fields, parse, values[..|values| - 1], key)
  }

  /** A key that no USD entry sets stays Unset. */
  lemma {:induction false} FieldValueUnset(fields: map<string, string>,
                                           parse: string -> Option<real>,
                                           values: seq<AccountValue>, key: string)
    requires forall k :: 0 <= k < |values| ==> !Sets(fields, values[k], key)
    ensures FieldValue(fields, parse, values, key) == Unset
  {
    if |values| > 0 {
      FieldValueUnset(fields, parse, values[..|values| - 1], key);
    }
  }

  /** A key that entry `k` sets, and no later entry, holds the converted value of entry `k`:
      the last USD value reported wins. */
  lemma {:induction false} FieldValueLast(fields: map<string, string>,
                                          parse: string -> Option<real>,
                                          values: seq<AccountValue>, key: string, k: nat)
    requires k < |values| && Sets(fields, values[k], key)
    requires forall j :: k < j < |values| ==> !Sets(fields, values[j], key)
    ensures FieldValue(fields, parse, values, key) == Convert(parse, values[k].value)
  {
    if k < |values| - 1 {
      var init := values[..|values| - 1];
      assert init[k] == values[k];
      FieldValueLast(fields, parse, init, key, k);
    }
  }

  /** The field loop of `get_account_summary`: every key starts Unset, then each USD entry
      with a mapped tag overwrites its key, converted. */
  method MapAccountValues(fields: map<string, string>, parse: string -> Option<real>,
                          values: seq<AccountValue>)
    returns (summary: map<string, Field>)
    ensures summary.Keys == fields.Values
    ensures forall key :: key in summary ==>
              summary[key] == FieldValue(fields, parse, values, key)
  {
    summary := map key | key in fields.Values :: Unset;
    var i := 0;
    while i < |values|
      invariant 0 <= i <= |values|
      invariant summary.Keys == fields.Values
      invariant forall key :: key in summary ==>
                  summary[key] == FieldValue(fields, parse, values[..i], key)
    {
      var v := values[i];
      assert values[..i + 1][..i] == values[..i];
      if v.currency == "USD" && v.tag in fields {
        summary := summary[fields[v.tag] := Convert(parse, v.value)];
      }
      i := i + 1;
    }
    assert values[..i] == values;
  }

  class IbInsyncApi {
    var connected: bool
    var nextOrderId: int
    var orders: map<string, OrderEntry>
    var positions: map<string, PositionEntry>

    constructor()
      ensures !connected && nextOrderId == 1 && orders == map[] && positions == map[]
    {
      connected := false;
      nextOrderId := 1;
      orders := map[];
      positions := map[];
    }

    /** `_on_error`: a connection error code drops the connection; any other code (market
        data farm warnings included) leaves it as it is. */
    method OnError(errorCode: int)
      modifies this`connected
      ensures connected == (old(connected) && errorCode !in ConnectionErrorCodes)
    {
      if errorCode == 502 || errorCode == 504 {
        connected := false;
      } else if errorCode == 2104 || errorCode == 2106 {
      } else if errorCode == 1100 {
        connected := false;
      } else if errorCode == 1300 {
        connected := false;
      }
    }

    /** `get_next_order_id`: hands out the counter and advances it by one. */
    method GetNextOrderId() returns (id: int)
      modifies this`nextOrderId
      ensures id == old(nextOrderId) && nextOrderId == id + 1
    {
      id := nextOrderId;
      nextOrderId := nextOrderId + 1;
    }

    /** `cancel_order`: refuses when disconnected, for an unknown order, for one without a
        trade object and for one whose live status is final. Otherwise the request is sent
        and the answer is true, confirmed or not; `confirmed` is the live status the broker
        reports within the wait, and the stored status takes it only when it is a
        cancellation. */
    method CancelOrder(orderId: string, confirmed: string) returns (ok: bool)
      modifies this`orders
      ensures ok <==> connected && orderId in old(orders) && old(orders)[orderId].tradeStatus.Some?
                      && old(orders)[orderId].tradeStatus.value !in FinalStatuses
      ensures ok && confirmed in {"Cancelled", "ApiCancelled"} ==>
                orders == old(orders)[orderId := old(orders)[orderId].(status := confirmed,
                                                                      tradeStatus := Some(confirmed))]
      ensures ok && confirmed !in {"Cancelled", "ApiCancelled"} ==>
                orders == old(orders)[orderId := old(orders)[orderId].(tradeStatus := Some(confirmed))]
      ensures !ok ==> orders == old(orders)
    {
      if !connected {
        return false;
      }
      if orderId !in orders {
        return false;
      }
      var entry := orders[orderId];
      if entry.tradeStatus.None? {
        return false;
      }
      if entry.tradeStatus.value in FinalStatuses {
        return false;
      }
      if confirmed in {"Cancelled", "ApiCancelled"} {
        orders := orders[orderId := entry.(status := confirmed, tradeStatus := Some(confirmed))];
      } else {
        orders := orders[orderId := entry.(tradeStatus := Some(confirmed))];
      }
      return true;
    }

    /** `get_account_summary` on the library's `accountValues()`: `None` (the error
        dictionary) when disconnected, or when one of the three logged fields is None or
        text, since the closing log line formats each of them as a number and the
        exception becomes the error dictionary; else the mapped fields. */
    method GetAccountSummary(parse: string -> Option<real>, values: seq<AccountValue>)
      returns (summary: Option<map<string, Field>>)
      ensures summary.None? <==>
                !connected
                || exists key :: key in LoggedFields && !FieldValue(AccountFields, parse, values, key).Number?
      ensures summary.Some? ==>
                summary.value.Keys == AccountFields.Values
                && (forall key :: key in summary.value ==>
                      summary.value[key] == FieldValue(AccountFields, parse, values, key))
                && (forall key :: key in LoggedFields ==> key in summary.value && summary.value[key].Number?)
    {
      if !connected {
        return None;
      }
      var fields := MapAccountValues(AccountFields, parse, values);
      LoggedFieldsMapped();
      if !fields["net_liquidation"].Number? || !fields["equity_with_loan"].Number?
         || !fields["buying_power"].Number? {
        return None;
      }
      return Some(fields);
    }

    /** `get_positions`: empty when disconnected, the cached dictionary when it is non-empty,
        and otherwise the aggregation of `ib.positions()`, which becomes the cache. */
    method GetPositions(ibPositions: seq<IbPosition>) returns (r: map<string, PositionEntry>)
      modifies this`positions
      ensures !connected ==> r == map[] && positions == old(positions)
      ensures connected && old(positions) != map[] ==>
                r == old(positions) && positions == old(positions)
      ensures connected && old(positions) == map[] ==>
                r == Aggregate(ibPositions) && positions == r
    {
      if !connected {
        return map[];
      }
      if positions != map[] {
        return positions;
      }
      var acc: map<string, PositionEntry> := map[];
      var i := 0;
      while i < |ibPositions|
        invariant 0 <= i <= |ibPositions|
        invariant acc == Aggregate(ibPositions[..i])
      {
        var p := ibPositions[i];
        assert ibPositions[..i + 1][..i] == ibPositions[..i];
        if p.symbol !in acc {
          acc := acc[p.symbol := PositionEntry(0.0, 0.0, 0.0, 0.0, p.account)];
        }
        var e := acc[p.symbol];
        acc := acc[p.symbol := PositionEntry(
          e.quantity + p.position, p.avgCost,
          if p.marketPrice.Some? then p.marketPrice.value else e.marketPrice,
          if p.marketValue.Some? then p.marketValue.value else e.marketValue,
          e.account)];
        i := i + 1;
      }
      assert ibPositions[..i] == ibPositions;
      positions := acc;
      return acc;
    }
  }
}
