/** What the tables' queries pick out of the rows (db/repo.py, execution/reconciler.py:1942-2064). */
module Queries {
  import opened Models
  import opened PaperBrokers
  import opened Repos
  import opened Reconciler

  predicate SoldFilled(r: Order, kind: OptionType) {
    r.orderType == SellToOpen && r.status == Filled && r.contract.Some? && r.contract.value.optionType == kind
  }

  /** Row i is the earliest placed filled short put, the first of those placed together. */
  predicate EarliestPut(rows: seq<Order>, i: nat) {
    i < |rows| && SoldFilled(rows[i], Put)
    && forall j :: 0 <= j < |rows| && SoldFilled(rows[j], Put) ==>
         rows[i].placedAt < rows[j].placedAt || (rows[i].placedAt == rows[j].placedAt && i <= j)
  }

  /** Row i is the latest placed filled short call, the first of those placed together. */
  predicate LatestShortCall(rows: seq<Order>, i: nat) {
    i < |rows| && SoldFilled(rows[i], Call)
    && forall j :: 0 <= j < |rows| && SoldFilled(rows[j], Call) ==>
         rows[i].placedAt > rows[j].placedAt || (rows[i].placedAt == rows[j].placedAt && i <= j)
  }

  lemma {:induction false} FirstCspExactly(rows: seq<Order>) returns (i: nat)
    ensures FirstCsp(rows).Some? ==> EarliestPut(rows, i) && FirstCsp(rows).value == rows[i]
    ensures FirstCsp(rows).None? ==> forall j :: 0 <= j < |rows| ==> !SoldFilled(rows[j], Put)
  {
    i := 0;
    if |rows| > 0 {
      var n := |rows| - 1;
      i := FirstCspExactly(rows[..n]);
      assert forall j :: 0 <= j < n ==> rows[..n][j] == rows[j];
      var earlier := FirstCsp(rows[..n]);
      if IsCsp(rows[n]) && !(earlier.Some? && earlier.value.placedAt <= rows[n].placedAt) { i := n; }
    }
  }

  lemma {:induction false} LastCallExactly(rows: seq<Order>) returns (i: nat)
    ensures LastCall(rows).Some? ==> LatestShortCall(rows, i) && LastCall(rows).value == rows[i]
    ensures LastCall(rows).None? ==> forall j :: 0 <= j < |rows| ==> !SoldFilled(rows[j], Call)
  {
    i := 0;
    if |rows| > 0 {
      var n := |rows| - 1;
      i := LastCallExactly(rows[..n]);
      assert forall j :: 0 <= j < n ==> rows[..n][j] == rows[j];
      var earlier := LastCall(rows[..n]);
      if IsCall(rows[n]) && !(earlier.Some? && earlier.value.placedAt >= rows[n].placedAt) { i := n; }
    }
  }

  /** The placement the order query reaches back to: the earliest among working rows. */
  lemma {:induction false} OldestExactly(rows: seq<Order>)
    ensures match OldestPending(rows)
            case None => forall j :: 0 <= j < |rows| ==> rows[j].status !in {Pending, Partial}
            case Some(at) =>
              && (exists j :: 0 <= j < |rows| && rows[j].status in {Pending, Partial} && rows[j].placedAt == at)
              && (forall j :: 0 <= j < |rows| && rows[j].status in {Pending, Partial} ==> at <= rows[j].placedAt)
  {
    if |rows| > 0 {
      var n := |rows| - 1;
      OldestExactly(rows[..n]);
      assert forall j :: 0 <= j < n ==> rows[..n][j] == rows[j];
      var at := OldestPending(rows);
      if at.Some? && at == OldestPending(rows[..n]) {
        var j :| 0 <= j < n && rows[..n][j].status in {Pending, Partial} && rows[..n][j].placedAt == at.value;
        assert rows[j].placedAt == at.value;
      }
    }
  }

  predicate OfPairAndType(r: Order, symbol: string, strategy: string, ty: OrderType) {
    r.symbol == symbol && r.strategy == Some(strategy) && r.orderType == ty
    && r.contract.Some? && r.contract.value.optionType == Call
  }

  /** The latest placed call order of that type for the pair, the first of those placed together, whatever became of
      it. */
  lemma {:induction false} LatestCallExactly(rows: seq<Order>, symbol: string, strategy: string, ty: OrderType)
    ensures match LatestCallOrder(rows, symbol, strategy, ty)
            case None => forall j :: 0 <= j < |rows| ==> !OfPairAndType(rows[j], symbol, strategy, ty)
            case Some(i) =>
              && i < |rows| && OfPairAndType(rows[i], symbol, strategy, ty)
              && forall j :: 0 <= j < |rows| && OfPairAndType(rows[j], symbol, strategy, ty) ==>
                   rows[i].placedAt > rows[j].placedAt || (rows[i].placedAt == rows[j].placedAt && i <= j)
  {
    if |rows| > 0 {
      var n := |rows| - 1;
      LatestCallExactly(rows[..n], symbol, strategy, ty);
      assert forall j :: 0 <= j < n ==> rows[..n][j] == rows[j];
    }
  }

  /** The signed dollars of a filled row: what it sold for or, as a negative amount, what it was bought for, at a
      hundred units a contract and one a share. A row that is not filled, or has no price, is worth nothing. */
  lemma FlowExactly(r: Order)
    ensures r.status != Filled || r.fillPrice == None ==> Flow(r) == 0.0
    ensures r.status == Filled && r.fillPrice.Some? ==>
              var units := if r.contract == None && r.orderType in {BuyToOpen, SellToClose} then r.quantity
                           else 100 * r.quantity;
              Flow(r) == Worth(r.fillPrice.value, if r.orderType in {BuyToOpen, BuyToClose} then -units else units)
  {
  }

  function Worth(price: real, units: int): real {
    price * units as real
  }

  /** Where the query starts: at the cursor, or at the epoch without one; but five seconds before the oldest working
      row, if that was placed earlier. */
  lemma SinceExactly(rows: seq<Order>, cursor: Option<int>)
    ensures var from := if cursor == None then 0 else cursor.value;
            && ((forall j :: 0 <= j < |rows| && rows[j].status in {Pending, Partial} ==> rows[j].placedAt >= from)
                  ==> Since(rows, cursor) == from)
            && (forall j :: 0 <= j < |rows| && rows[j].status in {Pending, Partial} && rows[j].placedAt < from
                  ==> Since(rows, cursor) <= rows[j].placedAt - 5)
            && (Since(rows, cursor) != from ==>
                  exists j :: 0 <= j < |rows| && rows[j].status in {Pending, Partial}
                              && Since(rows, cursor) == rows[j].placedAt - 5)
  {
    OldestExactly(rows);
  }

  /** The broker's answer to it: the orders filled at or after the instant, or placed then if they have not filled. */
  lemma {:induction false} OrdersSinceExactly(orders: seq<Order>, since: int, o: Order)
    ensures o in OrdersSince(orders, since)
            <==> o in orders && match o.filledAt
                                case Some(at) => at >= since
                                case None => o.placedAt >= since
  {
    if |orders| > 0 {
      var n := |orders| - 1;
      OrdersSinceExactly(orders[..n], since, o);
      assert orders == orders[..n] + [orders[n]];
    }
  }
}
