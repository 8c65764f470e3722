/** The paper broker as it runs (platforms/paper_broker.py): an object whose cash, share book, live legs
    and orders are changed in place. Every method is proved against the broker functions. */
module BrokerSim {
  import opened Models
  import opened PaperBrokers

  datatype BrokerError = OrderRejected | UnknownOrder | NotFillable | NotMultiLeg | NoOpenLeg

  datatype Outcome<+T> = Done(value: T) | Failed(error: BrokerError)

  /** The package a multi-leg submission stores: a close only if every leg closes. */
  function PackageOf(symbol: string, legs: seq<Leg>, quantity: int, limitPrice: Option<real>, clientId: Option<string>,
                     strategy: Option<string>, now: int): Order
  {
    Order(symbol, strategy, if ClosesAll(legs) then MultiLegClose else MultiLegOpen, None, legs, quantity, limitPrice,
          None, Pending, now, None, clientId, None, None, None, false)
  }

  predicate ClosesAll(legs: seq<Leg>) {
    forall i :: 0 <= i < |legs| ==> legs[i].action.SellToClose? || legs[i].action.BuyToClose?
  }

  class PaperBroker {
    var cash: real
    var stock: map<string, (int, real)>
    var options: map<Contract, Order>
    var orders: seq<Order>

    ghost function View(): BrokerState
      reads this
    {
      BrokerState(cash, stock, options, orders)
    }

    constructor (openingCash: real)
      ensures View() == BrokerState(openingCash, map[], map[], [])
    {
      cash, stock, options, orders := openingCash, map[], map[], [];
    }

    // ---- Orders ----

    method FindClient(cid: string) returns (at: Option<nat>)
      ensures at == FindBrokerClient(orders, cid)
    {
      at := None;
      for n := 0 to |orders|
        invariant at == FindBrokerClient(orders[..n], cid)
      {
        assert orders[..n + 1][..n] == orders[..n];
        if at.None? && orders[n].clientId == Some(cid) { at := Some(n); }
      }
      assert orders[..|orders|] == orders;
    }

    method PlaceOrder(o: Order) returns (r: Outcome<Order>)
      modifies this
      ensures View() == Place(old(View()), o).0
      ensures r == match Place(old(View()), o).1 case Some(stored) => Done(stored) case None => Failed(OrderRejected)
    {
      if o.clientId.Some? {
        var prior := FindClient(o.clientId.value);
        FoundInside(orders, o.clientId.value);
        if prior.Some? { return Done(orders[prior.value]); }
      }
      if o.quantity <= 0 { return Failed(OrderRejected); }
      var stored := o.(brokerId := Some(|orders|), status := Pending);
      orders := orders + [stored];
      r := Done(stored);
    }

    method PlaceMultiLegOrder(symbol: string, legs: seq<Leg>, quantity: int, limitPrice: Option<real>,
                              clientId: Option<string>, strategy: Option<string>, now: int)
      returns (r: Outcome<Order>)
      modifies this
      ensures (|legs| == 0 || quantity <= 0) ==> View() == old(View()) && r == Failed(OrderRejected)
      ensures |legs| > 0 && quantity > 0 ==>
                var (b, stored) := Place(old(View()),
                                         PackageOf(symbol, legs, quantity, limitPrice, clientId, strategy, now));
                View() == b && stored.Some? && r == Done(stored.value)
    {
      if |legs| == 0 || quantity <= 0 { return Failed(OrderRejected); }
      if clientId.Some? {
        var prior := FindClient(clientId.value);
        FoundInside(orders, clientId.value);
        if prior.Some? { return Done(orders[prior.value]); }
      }
      var allClose := true;
      for n := 0 to |legs|
        invariant allClose == ClosesAll(legs[..n])
      {
        assert legs[..n + 1][..n] == legs[..n] && legs[..n + 1][n] == legs[n];
        assert ClosesAll(legs[..n + 1]) ==> forall i :: 0 <= i < n ==> legs[..n][i] == legs[..n + 1][i];
        allClose := allClose && (legs[n].action.SellToClose? || legs[n].action.BuyToClose?);
      }
      assert legs[..|legs|] == legs;
      var stored := Order(symbol, strategy, if allClose then MultiLegClose else MultiLegOpen, None, legs, quantity,
                          limitPrice, None, Pending, now, None, clientId, Some(|orders|), None, None, false);
      orders := orders + [stored];
      r := Done(stored);
    }

    method CancelOrder(id: nat)
      modifies this`orders
      ensures View() == Cancel(old(View()), id)
    {
      if id < |orders| && Working(orders[id].status) {
        orders := orders[id := orders[id].(status := Cancelled)];
      }
    }

    method GetOrdersSince(since: int) returns (views: seq<Order>)
      ensures views == OrdersSince(orders, since)
    {
      views := [];
      for n := 0 to |orders|
        invariant views == OrdersSince(orders[..n], since)
      {
        assert orders[..n + 1][..n] == orders[..n];
        if Stamp(orders[n]) >= since { views := views + [orders[n]]; }
      }
      assert orders[..|orders|] == orders;
    }

    // ---- Share book ----

    method BookShares(symbol: string, shares: int, price: real)
      modifies this`stock
      ensures View() == AddShares(old(View()), symbol, shares, price)
    {
      var (have, basis) := if symbol in stock then stock[symbol] else (0, 0.0);
      var total := have + shares;
      if total == 0 {
        stock := stock - {symbol};
      } else {
        stock := stock[symbol := (total, Blended(have, basis, shares, price))];
      }
    }

    method UnbookShares(symbol: string, shares: int)
      modifies this`stock
      ensures View() == RemoveShares(old(View()), symbol, shares)
    {
      var (have, basis) := if symbol in stock then stock[symbol] else (0, 0.0);
      if have - shares <= 0 {
        stock := stock - {symbol};
      } else {
        stock := stock[symbol := (have - shares, basis)];
      }
    }

    // ---- Fills ----

    method BookFill(o: Order, price: real)
      modifies this`cash, this`stock, this`options
      ensures View() == ApplyFill(old(View()), o, price)
    {
      var shares := 100 * o.quantity;
      match o.orderType {
        case SellToOpen =>
          if o.contract.Some? {
            cash := cash + price * shares as real;
            options := options[o.contract.value := o];
          }
        case BuyToClose =>
          if o.contract.Some? {
            cash := cash - price * shares as real;
            options := options - {o.contract.value};
          }
        case BuyToOpen =>
          cash := cash - price * o.quantity as real;
          if o.contract.Some? {
            options := options[o.contract.value := o];
          } else {
            BookShares(o.symbol, o.quantity, price);
          }
        case SellToClose =>
          cash := cash + price * o.quantity as real;
          if o.contract.Some? { options := options - {o.contract.value}; } else { UnbookShares(o.symbol, o.quantity); }
        case _ =>
      }
    }

    /** fill_order: on a package it only marks the row, its legs and cash are fill_multi_leg's business. */
    method FillOrder(id: nat, price: real, now: int) returns (r: Outcome<Order>)
      modifies this
      ensures id >= |old(orders)| ==> r == Failed(UnknownOrder) && View() == old(View())
      ensures id < |old(orders)| && !Working(old(orders)[id].status) ==>
              r == Failed(NotFillable)
              && View() == old(View())
      ensures id < |old(orders)| && Working(old(orders)[id].status) ==>
                && View() == (if IsMultiLeg(old(orders)[id].orderType) then MarkFilled(old(View()), id, price, now)
                              else Fill(old(View()), id, price, now))
                && r.Done? && id < |orders| && r.value == orders[id]
    {
      if id >= |orders| { return Failed(UnknownOrder); }
      var o := orders[id];
      if !Working(o.status) { return Failed(NotFillable); }
      BookFill(o, price);
      var filled := o.(status := Filled, fillPrice := Some(price), filledAt := Some(now));
      orders := orders[id := filled];
      r := Done(filled);
    }

    method FillMultiLeg(id: nat, price: real, now: int) returns (r: Outcome<Order>)
      modifies this
      ensures id >= |old(orders)| ==> r == Failed(UnknownOrder) && View() == old(View())
      ensures id < |old(orders)| && !IsMultiLeg(old(orders)[id].orderType) ==>
              r == Failed(NotMultiLeg)
              && View() == old(View())
      ensures id < |old(orders)| && IsMultiLeg(old(orders)[id].orderType) && !Working(old(orders)[id].status) ==>
                r == Failed(NotFillable) && View() == old(View())
      ensures id < |old(orders)| && IsMultiLeg(old(orders)[id].orderType) && Working(old(orders)[id].status) ==>
                View() == Fill(old(View()), id, price, now) && r.Done? && id < |orders| && r.value == orders[id]
    {
      if id >= |orders| { return Failed(UnknownOrder); }
      var o := orders[id];
      if !IsMultiLeg(o.orderType) { return Failed(NotMultiLeg); }
      if !Working(o.status) { return Failed(NotFillable); }
      cash := cash + price * (100 * o.quantity) as real;
      for n := 0 to |o.legs|
        invariant options == ApplyLegs(old(options), o, o.legs[..n])
        invariant stock == old(stock) && orders == old(orders) && cash == old(cash) + price * (100 * o.quantity) as real
      {
        assert o.legs[..n + 1][..n] == o.legs[..n];
        var leg := o.legs[n];
        if leg.action.SellToOpen? || leg.action.BuyToOpen? {
          options := options[leg.contract := LegOrder(o, leg)];
        } else if leg.action.SellToClose? || leg.action.BuyToClose? {
          options := options - {leg.contract};
        }
      }
      assert o.legs[..|o.legs|] == o.legs;
      var filled := o.(status := Filled, fillPrice := Some(price), filledAt := Some(now));
      orders := orders[id := filled];
      r := Done(filled);
    }

    // ---- Corporate actions ----

    method AssignLeg(c: Contract) returns (r: Outcome<()>)
      modifies this
      ensures c in old(options) ==> r == Done(()) && View() == Assign(old(View()), c)
      ensures c !in old(options) ==> r == Failed(NoOpenLeg) && View() == old(View())
    {
      hide AtStrike;
      if c !in options { return Failed(NoOpenLeg); }
      var opener := options[c];
      var shares := 100 * opener.quantity;
      if c.optionType.Put? {
        cash := cash - AtStrike(c, shares);
        BookShares(opener.symbol, shares, c.strike);
      } else {
        cash := cash + AtStrike(c, shares);
        UnbookShares(opener.symbol, shares);
      }
      options := options - {c};
      r := Done(());
    }

    method ExpireLeg(c: Contract)
      modifies this`options
      ensures View() == Expire(old(View()), c)
    {
      options := options - {c};
    }

    // ---- Reported positions ----

    /** Also returns the order in which the two dictionaries were walked. */
    method GetPositions() returns (rows: seq<BrokerRow>, ks: seq<string>, cs: seq<Contract>)
      ensures Enumerates(ks, stock.Keys) && Enumerates(cs, options.Keys)
      ensures rows == PositionRows(View(), ks, cs)
    {
      ks := ListOf(stock.Keys);
      cs := ListOf(options.Keys);
      rows := [];
      for n := 0 to |ks|
        invariant rows == StockRows(View(), ks[..n])
      {
        var shares := stock[ks[n]].0;
        rows := rows + [BrokerRow(ks[n], if shares != 0 then SharesHeld else Idle, shares)];
      }
      assert ks[..|ks|] == ks;
      for n := 0 to |cs|
        invariant rows == StockRows(View(), ks) + OptionRows(View(), cs[..n])
      {
        rows := rows + [BrokerRow(options[cs[n]].symbol, if cs[n].optionType.Put? then CspOpen else CcOpen, 0)];
      }
      assert cs[..|cs|] == cs;
    }
  }

  lemma {:induction false} FoundInside(orders: seq<Order>, cid: string)
    ensures FindBrokerClient(orders, cid).Some? ==> FindBrokerClient(orders, cid).value < |orders|
  {
    if |orders| > 0 { FoundInside(orders[..|orders| - 1], cid); }
  }

  /** A finite set as a list, in whatever order its elements come. */
  method ListOf<T(==, !new)>(all: set<T>) returns (keys: seq<T>)
    ensures Enumerates(keys, all)
  {
    keys := [];
    var left := all;
    while left != {}
      invariant left <= all
      invariant Enumerates(keys, all - left)
      decreases |left|
    {
      var x :| x in left;
      assert forall y :: y in all - (left - {x}) <==> y == x || y in all - left;
      keys := keys + [x];
      left := left - {x};
    }
    assert all - left == all;
  }
}
