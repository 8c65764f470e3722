/** The repositories as they run (db/repo.py): tables updated row by row, and the queries the router
    and the reconciler put to them, each a scan of one table. */
module Tables {
  import opened Models
  import opened Repos
  import Reconciler

  class Repositories {
    var orders: seq<Order>
    var positions: seq<Position>
    var cycles: seq<Cycle>
    var log: seq<StateLog>

    ghost function View(): Db
      reads this
    {
      Db(orders, positions, cycles, log)
    }

    constructor ()
      ensures View() == EmptyDb
    {
      orders, positions, cycles, log := [], [], [], [];
    }

    // ---- Orders ----

    method GetByClientId(cid: string) returns (at: Option<nat>)
      ensures at == FindClient(orders, cid)
      ensures at.Some? ==> at.value < |orders|
    {
      at := None;
      for n := 0 to |orders|
        invariant at == FindClient(orders[..n], cid)
        invariant at.Some? ==> at.value < n
      {
        assert orders[..n + 1][..n] == orders[..n];
        if at.None? && orders[n].clientId == Some(cid) { at := Some(n); }
      }
      assert orders[..|orders|] == orders;
    }

    method GetByBrokerId(bid: nat) returns (at: Option<nat>)
      ensures at == FindBroker(orders, bid)
      ensures at.Some? ==> at.value < |orders|
    {
      at := None;
      for n := 0 to |orders|
        invariant at == FindBroker(orders[..n], bid)
        invariant at.Some? ==> at.value < n
      {
        assert orders[..n + 1][..n] == orders[..n];
        if at.None? && orders[n].brokerId == Some(bid) { at := Some(n); }
      }
      assert orders[..|orders|] == orders;
    }

    method OldestPendingPlacedAt() returns (oldest: Option<int>)
      ensures oldest == OldestPending(orders)
    {
      oldest := None;
      for n := 0 to |orders|
        invariant oldest == OldestPending(orders[..n])
      {
        assert orders[..n + 1][..n] == orders[..n];
        if Working(orders[n].status) && (oldest.None? || orders[n].placedAt < oldest.value) {
          oldest := Some(orders[n].placedAt);
        }
      }
      assert orders[..|orders|] == orders;
    }

    method HasInflightOrder(symbol: string) returns (found: bool)
      ensures found == HasInflight(orders, symbol)
    {
      found := false;
      for n := 0 to |orders|
        invariant found == HasInflight(orders[..n], symbol)
      {
        assert orders[..n + 1] == orders[..n] + [orders[n]];
        found := found || (orders[n].symbol == symbol && Working(orders[n].status));
        InflightAppend(orders[..n], orders[n], symbol);
      }
      assert orders[..|orders|] == orders;
    }

    method InsertOrderRow(r: Order)
      modifies this`orders
      ensures View() == InsertOrder(old(View()), r)
    {
      orders := orders + [r];
    }

    method UpdateOrderRow(j: nat, r: Order)
      requires j < |orders|
      modifies this`orders
      ensures View() == SetOrder(old(View()), j, r)
    {
      orders := orders[j := r];
    }

    // ---- Positions ----

    method GetBySymbol(symbol: string, strategy: Option<string>) returns (at: Option<nat>)
      ensures at == FindPosition(positions, symbol, strategy)
      ensures at.Some? ==> at.value < |positions|
    {
      at := None;
      for n := 0 to |positions|
        invariant at == FindPosition(positions[..n], symbol, strategy)
        invariant at.Some? ==> at.value < n
      {
        assert positions[..n + 1][..n] == positions[..n];
        if at.None? && Matches(positions[n], symbol, strategy) { at := Some(n); }
      }
      assert positions[..|positions|] == positions;
    }

    method SharesClaimed(symbol: string, k: nat) returns (claimed: bool)
      ensures claimed == SharesClaimedByOther(positions, symbol, k)
    {
      claimed := false;
      for n := 0 to |positions|
        invariant claimed <==> exists j :: 0 <= j < n && j != k && !positions[j].state.Idle?
                                           && positions[j].symbol == symbol && ClaimsShares(positions[j])
      {
        claimed := claimed || (n != k && !positions[n].state.Idle? && positions[n].symbol == symbol
                               && ClaimsShares(positions[n]));
      }
    }

    method CountLive() returns (live: nat)
      ensures live == LiveCount(positions)
    {
      live := 0;
      for n := 0 to |positions|
        invariant live == LiveCount(positions[..n])
      {
        assert positions[..n + 1][..n] == positions[..n];
        if Live(positions[n]) { live := live + 1; }
      }
      assert positions[..|positions|] == positions;
    }

    method InsertPositionRow(p: Position)
      modifies this`positions
      ensures View() == InsertPosition(old(View()), p)
    {
      positions := positions + [p];
    }

    method UpdatePositionRow(k: nat, p: Position)
      requires k < |positions|
      modifies this`positions
      ensures View() == SetPosition(old(View()), k, p)
    {
      positions := positions[k := p];
    }

    method AppendLog(k: nat, was: Option<PositionState>, now: PositionState, at: int)
      modifies this`log
      ensures View() == Log(old(View()), k, was, now, at)
    {
      log := log + [StateLog(k, was, now, ByReconciler, at)];
    }

    // ---- Cycles ----

    method InsertCycleRow(c: Cycle)
      modifies this`cycles
      ensures View() == old(View()).(cycles := old(cycles) + [c])
    {
      cycles := cycles + [c];
    }

    method UpdateCycleRow(cy: nat, c: Cycle)
      requires cy < |cycles|
      modifies this`cycles
      ensures View() == old(View()).(cycles := old(cycles)[cy := c])
    {
      cycles := cycles[cy := c];
    }

    /** _compute_cycle_pnl: one pass over the orders, adding the tagged, filled, priced ones. */
    method ComputeCyclePnl(cy: nat) returns (pnl: real)
      ensures pnl == CyclePnl(View(), cy)
    {
      pnl := 0.0;
      for n := 0 to |orders|
        invariant pnl == FlowSum(Tagged(orders[..n], cy))
      {
        assert orders[..n + 1][..n] == orders[..n];
        var r := orders[n];
        if r.cycle == Some(cy) {
          assert (Tagged(orders[..n], cy) + [r])[..|Tagged(orders[..n], cy)|] == Tagged(orders[..n], cy);
          if r.status.Filled? && r.fillPrice.Some? {
            var flow := CashFlow(r);
            pnl := pnl + flow;
          }
        } else {
          assert Tagged(orders[..n], cy) + [] == Tagged(orders[..n], cy);
        }
      }
      assert orders[..|orders|] == orders;
    }

    /** The quantity of the cycle's earliest filled short put. */
    method CycleCspQuantity(cycle: Option<nat>) returns (quantity: Option<int>)
      ensures quantity == CspQuantity(View(), cycle)
    {
      if cycle.None? { return None; }
      var first: Option<Order> := None;
      for n := 0 to |orders|
        invariant first == FirstCsp(Tagged(orders[..n], cycle.value))
      {
        assert orders[..n + 1][..n] == orders[..n];
        var r, before := orders[n], Tagged(orders[..n], cycle.value);
        assert (before + [r])[..|before|] == before && before + [] == before;
        if r.cycle == cycle && IsCsp(r) && (first.None? || r.placedAt < first.value.placedAt) { first := Some(r); }
      }
      assert orders[..|orders|] == orders;
      quantity := if first.None? then None else Some(first.value.quantity);
    }

    /** The strike of the cycle's most recently placed filled short call. */
    method CycleCcStrike(cycle: Option<nat>) returns (strike: Option<real>)
      ensures strike == CcStrike(View(), cycle)
    {
      if cycle.None? { return None; }
      var last: Option<Order> := None;
      for n := 0 to |orders|
        invariant last == LastCall(Tagged(orders[..n], cycle.value))
      {
        assert orders[..n + 1][..n] == orders[..n];
        var r, before := orders[n], Tagged(orders[..n], cycle.value);
        assert (before + [r])[..|before|] == before && before + [] == before;
        if r.cycle == cycle && IsCall(r) && (last.None? || r.placedAt > last.value.placedAt) { last := Some(r); }
      }
      assert orders[..|orders|] == orders;
      strike := if last.None? || last.value.contract.None? then None else Some(last.value.contract.value.strike);
    }

    method LatestCall(symbol: string, strategy: string, ty: OrderType) returns (at: Option<nat>)
      ensures at == Reconciler.LatestCallOrder(orders, symbol, strategy, ty)
      ensures at.Some? ==> at.value < |orders|
    {
      at := None;
      for n := 0 to |orders|
        invariant at == Reconciler.LatestCallOrder(orders[..n], symbol, strategy, ty)
        invariant at.Some? ==> at.value < n
      {
        assert orders[..n + 1][..n] == orders[..n];
        var r := orders[n];
        if r.symbol == symbol && r.strategy == Some(strategy) && r.orderType == ty && OptionTypeOf(r) == Some(Call)
           && (at.None? || orders[at.value].placedAt < r.placedAt) {
          at := Some(n);
        }
      }
      assert orders[..|orders|] == orders;
    }
  }

  /** One row's contribution: packages carry their own sign, other sales credit and purchases debit;
      100 units a contract, one a share. */
  method CashFlow(r: Order) returns (flow: real)
    requires r.status.Filled? && r.fillPrice.Some?
    ensures flow == Flow(r)
  {
    var sign, units := 1, 100;
    match r.orderType {
      case MultiLegOpen | MultiLegClose =>
      case SellToOpen =>
      case BuyToClose => sign := -1;
      case BuyToOpen =>
        sign := -1;
        if r.contract.None? { units := 1; }
      case SellToClose =>
        if r.contract.None? { units := 1; }
    }
    assert sign == Sign(r.orderType) && units == Multiplier(r);
    flow := r.fillPrice.value * (sign * units * r.quantity) as real;
  }

  lemma InflightAppend(rows: seq<Order>, r: Order, symbol: string)
    ensures HasInflight(rows + [r], symbol) <==> HasInflight(rows, symbol) || (r.symbol == symbol && Working(r.status))
  {
    if HasInflight(rows, symbol) {
      var j :| 0 <= j < |rows| && rows[j].symbol == symbol && Working(rows[j].status);
      assert (rows + [r])[j] == rows[j];
    }
    assert (rows + [r])[|rows|] == r;
  }
}
