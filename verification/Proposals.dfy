/** What the router does with a proposal before and after the broker sees it: the stale check, the slot gate, and a
    swing trade from its first order to its last fill (execution/router.py:129-283, execution/reconciler.py:846-983). */
module Proposals {
  import opened Models
  import opened PaperBrokers
  import opened Repos
  import opened Reconciler
  import opened LedgerTables
  import opened ParityAudit
  import opened Handovers
  import opened CycleRecords
  import Router

  // ---- The stale check ----

  /** Row j is the first with this client id. */
  predicate Holds(rows: seq<Order>, cid: string, j: nat) {
    j < |rows| && rows[j].clientId == Some(cid) && forall i :: 0 <= i < j ==> rows[i].clientId != Some(cid)
  }

  lemma HoldsFound(rows: seq<Order>, cid: string)
    ensures forall j: nat :: Holds(rows, cid, j) <==> FindClient(rows, cid) == Some(j)
    ensures FindClient(rows, cid).None? <==> forall i :: 0 <= i < |rows| ==> rows[i].clientId != Some(cid)
  {
    ClientFirst(rows, cid);
  }

  /** The broker can still cancel it. */
  predicate StillWorks(b: BrokerState, id: nat) {
    id < |b.orders| && b.orders[id].status in {Pending, Partial}
  }

  /** A proposal whose day's id is unused goes out under it. If a row holds the id: a settled row makes way for another
      id and nothing is touched; a working row younger than the limit keeps the proposal back; an older one is
      cancelled, at the broker and in its row, unless the broker no longer works it, and then the proposal is kept
      back and nothing is touched. */
  lemma ReplaceExactly(b: BrokerState, d: Db, base: string, now: int, staleAfter: int)
    ensures var (action, b', d') := Router.ReplaceStale(b, d, base, now, staleAfter);
            && (action.Proceed? <==> forall i :: 0 <= i < |d.orders| ==> d.orders[i].clientId != Some(base))
            && (action.Proceed? ==> b' == b && d' == d)
            && forall j: nat :: Holds(d.orders, base, j) ==>
                 var r := d.orders[j];
                 if r.status in {Filled, Cancelled, Rejected} then action.Replace? && b' == b && d' == d
                 else if r.placedAt > now - staleAfter then action.Skip? && b' == b && d' == d
                 else if r.brokerId.Some? && !StillWorks(b, r.brokerId.value) then action.Skip? && b' == b && d' == d
                 else
                   && action.Replace? && d' == d.(orders := d.orders[j := r.(status := Cancelled)])
                   && b' == if r.brokerId == None then b
                            else var id := r.brokerId.value;
                                 b.(orders := b.orders[id := b.orders[id].(status := Cancelled)])
  {
    hide Holds, FindClient;
    HoldsFound(d.orders, base);
    var at := FindClient(d.orders, base);
    if at.Some? && at.value < |d.orders| {
      var r := d.orders[at.value];
      if Working(r.status) { assert d.orders[at.value := r.(status := Cancelled)][at.value] != r; }
    }
    forall j: nat | Holds(d.orders, base, j) ensures at == Some(j) && j < |d.orders| { HoldsWithin(d.orders, base, j); }
  }

  lemma HoldsWithin(rows: seq<Order>, cid: string, j: nat)
    requires Holds(rows, cid, j)
    ensures j < |rows|
  {
  }

  // ---- The slot gate ----

  /** The rows that take up a slot. */
  function Taken(ps: seq<Position>): set<int> {
    set k | 0 <= k < |ps| && ps[k].state !in {Idle, SpreadClosed}
  }

  lemma {:induction false} LiveIsTaken(ps: seq<Position>)
    ensures LiveCount(ps) == |Taken(ps)|
  {
    if |ps| > 0 {
      var n := |ps| - 1;
      LiveIsTaken(ps[..n]);
      if ps[n].state in {Idle, SpreadClosed} {
        assert Taken(ps) == Taken(ps[..n]);
      } else {
        assert Taken(ps) == Taken(ps[..n]) + {n};
      }
    }
  }

  /** A proposal is let through exactly if there is no cap, or its pair already takes up a slot, or fewer are taken
      than the cap allows. */
  lemma GateExactly(cfg: Config, ps: seq<Position>, symbol: string, strategy: string)
    ensures Router.SlotFree(cfg, ps, symbol, strategy)
            <==> forall cap :: cfg.maxConcurrentTotal == Some(cap) ==>
                   (exists k :: k in Taken(ps) && ps[k].symbol == symbol && ps[k].strategy == strategy)
                   || |Taken(ps)| < cap
  {
    LiveIsTaken(ps);
  }

  // ---- A swing trade ----

  /** A pair of the book that a swing strategy keeps at row k, and an order of it never sent before. */
  predicate SwingOrder(cfg: Config, d: Db, k: nat, o: Order) {
    && k < |d.positions| && d.positions[k].strategy in cfg.swing && d.positions[k].strategy != "pmcc"
    && FirstRow(d.positions, d.positions[k].symbol, Some(d.positions[k].strategy), k)
    && o.symbol == d.positions[k].symbol && o.strategy == Some(d.positions[k].strategy)
    && o.contract.Some? && o.cycle == None && o.status == Pending
    && o.clientId.Some? && forall i :: 0 <= i < |d.orders| ==> d.orders[i].clientId != o.clientId
  }

  /** The tables once an accepted order is recorded. */
  lemma SwingRecorded(cfg: Config, d: Db, k: nat, o: Order, strategy: string)
    requires SwingOrder(cfg, d, k, o) && strategy == d.positions[k].strategy
    requires o.orderType in {BuyToOpen, SellToClose}
    ensures var state := if o.orderType == BuyToOpen then SwingPending else SwingOpen;
            Router.Recorded(cfg, d, o, strategy)
            == d.(orders := d.orders + [o], positions := d.positions[k := d.positions[k].(state := state)])
  {
    hide FindPosition, FindClient, FirstRow;
    ClientFirst(d.orders, o.clientId.value);
    FirstWithin(d.positions, o.symbol, Some(strategy), k);
  }

  /** What was paid, whatever the sign the broker reports it with. */
  function Paid(price: real): real {
    if price < 0.0 then -price else price
  }

  /** The broker's view of the order filled at a price. */
  function FilledView(o: Order, price: real, at: int): Order {
    o.(status := Filled, fillPrice := Some(price), filledAt := Some(at))
  }

  lemma NewAnswers(d: Db, o: Order, rows: seq<Order>, price: real, at: int)
    requires o.clientId.Some? && (forall i :: 0 <= i < |d.orders| ==> d.orders[i].clientId != o.clientId)
    requires rows == d.orders + [o]
    ensures Locate(rows, FilledView(o, price, at)) == Some(|d.orders|)
  {
    ClientFirst(rows, o.clientId.value);
    assert rows[|d.orders|] == o;
  }

  /** Bought and filled: the row reads SWING_OPEN and points at a new cycle, whose one row is the order's. */
  lemma SwingBought(cfg: Config, d: Db, k: nat, o: Order, price: real, at: int, now: int) returns (log: seq<StateLog>)
    requires SwingOrder(cfg, d, k, o) && o.orderType == BuyToOpen && o.quantity > 0
    ensures var cy := |d.cycles|;
            var sent := Router.Recorded(cfg, d, o, d.positions[k].strategy);
            ProcessOrder(cfg, Tick(sent, ZeroSummary), FilledView(o, price, at), now).db
            == Db(d.orders + [FilledView(o, price, at).(cycle := Some(cy))],
                  d.positions[k := d.positions[k].(state := SwingOpen, cycle := Some(cy))],
                  d.cycles + [Cycle(o.symbol, o.strategy, now, None, Some(o.contract.value.strike),
                                    Some(-Dollars(Paid(price), o.quantity)), None, None)],
                  log)
  {
    hide FindPosition, Locate, FirstRow, Notional, Dollars;
    var strategy, n := d.positions[k].strategy, |d.orders|;
    SwingRecorded(cfg, d, k, o, strategy);
    var sent := Router.Recorded(cfg, d, o, strategy);
    NewAnswers(d, o, sent.orders, price, at);
    SameKeysFirst(d.positions, sent.positions, o.symbol, o.strategy, k);
    FirstWithin(sent.positions, o.symbol, o.strategy, k);
    Scale(Abs(price), o.quantity);
    var r := ProcessOrder(cfg, Tick(sent, ZeroSummary), FilledView(o, price, at), now);
    log := r.db.log;
    assert r.db.orders == d.orders + [FilledView(o, price, at).(cycle := Some(|d.cycles|))];
    assert r.db.positions == d.positions[k := d.positions[k].(state := SwingOpen, cycle := Some(|d.cycles|))];
  }

  /** Sold and filled: the cycle closes at the flows of its rows, and the pair is flat. */
  lemma SwingSold(cfg: Config, d: Db, k: nat, cy: nat, o: Order, price: real, at: int, now: int)
    returns (log: seq<StateLog>)
    requires SwingOrder(cfg, d, k, o) && o.orderType == SellToClose
    requires d.positions[k].cycle == Some(cy) && cy < |d.cycles| && d.cycles[cy].endedAt == None
    ensures var orders := d.orders + [FilledView(o, price, at).(cycle := Some(cy))];
            var pnl := FlowSum(Tagged(orders, cy));
            var sent := Router.Recorded(cfg, d, o, d.positions[k].strategy);
            ProcessOrder(cfg, Tick(sent, ZeroSummary), FilledView(o, price, at), now).db
            == Db(orders, d.positions[k := d.positions[k].(state := Idle, cycle := None)],
                  d.cycles[cy := d.cycles[cy].(endedAt := Some(now), finalPnl := Some(pnl),
                                               outcome := Some(SwingClosed))],
                  log)
  {
    hide FindPosition, Locate, FirstRow, Tagged, FlowSum;
    var strategy, n := d.positions[k].strategy, |d.orders|;
    SwingRecorded(cfg, d, k, o, strategy);
    var sent := Router.Recorded(cfg, d, o, strategy);
    NewAnswers(d, o, sent.orders, price, at);
    SameKeysFirst(d.positions, sent.positions, o.symbol, o.strategy, k);
    FirstWithin(sent.positions, o.symbol, o.strategy, k);
    var r := ProcessOrder(cfg, Tick(sent, ZeroSummary), FilledView(o, price, at), now);
    log := r.db.log;
    var orders := d.orders + [FilledView(o, price, at).(cycle := Some(cy))];
    assert r.db.orders == orders;
    assert r.db.positions == d.positions[k := d.positions[k].(state := Idle, cycle := None)];
  }

  /** A swing from the first order to the last fill: the pair reads SWING_PENDING while the purchase works, SWING_OPEN
      while it is held and while the sale works, and IDLE again at the end; its cycle, opened at what was paid, closes
      at a hundred times the contracts times the price gained. */
  lemma SwingTrip(cfg: Config, d: Db, k: nat, bought: Order, sold: Order, paid: real, got: real, at: int, until: int)
    requires SwingOrder(cfg, d, k, bought) && bought.orderType == BuyToOpen && bought.quantity > 0
    requires SwingOrder(cfg, d, k, sold) && sold.orderType == SellToClose && sold.quantity == bought.quantity
    requires sold.clientId != bought.clientId
    requires forall i :: 0 <= i < |d.orders| ==> d.orders[i].cycle != Some(|d.cycles|)
    ensures var strategy, cy := d.positions[k].strategy, |d.cycles|;
            var sent := Router.Recorded(cfg, d, bought, strategy);
            var held := ProcessOrder(cfg, Tick(sent, ZeroSummary), FilledView(bought, paid, at), at).db;
            var closing := Router.Recorded(cfg, held, sold, strategy);
            var after := ProcessOrder(cfg, Tick(closing, ZeroSummary), FilledView(sold, got, until), until).db;
            && sent.positions == d.positions[k := d.positions[k].(state := SwingPending)]
            && held.positions == d.positions[k := d.positions[k].(state := SwingOpen, cycle := Some(cy))]
            && closing.positions == held.positions
            && after.positions == d.positions[k := d.positions[k].(state := Idle, cycle := None)]
            && after.cycles == d.cycles + [Cycle(bought.symbol, bought.strategy, at, Some(until),
                                                 Some(bought.contract.value.strike),
                                                 Some(-Dollars(Paid(paid), bought.quantity)),
                                                 Some(Dollars(got - paid, bought.quantity)), Some(SwingClosed))]
  {
    hide FindPosition, FirstRow, ProcessOrder, Dollars, Tagged, FlowSum, Router.Recorded;
    var strategy, cy := d.positions[k].strategy, |d.cycles|;
    SwingRecorded(cfg, d, k, bought, strategy);
    var log := SwingBought(cfg, d, k, bought, paid, at, at);
    var sent := Router.Recorded(cfg, d, bought, strategy);
    var held := ProcessOrder(cfg, Tick(sent, ZeroSummary), FilledView(bought, paid, at), at).db;
    var first := FilledView(bought, paid, at).(cycle := Some(cy));
    SameKeysFirst(d.positions, held.positions, sold.symbol, sold.strategy, k);
    assert held.orders[|d.orders|] == first;
    assert SwingOrder(cfg, held, k, sold);
    SwingRecorded(cfg, held, k, sold, strategy);
    var log2 := SwingSold(cfg, held, k, cy, sold, got, until, until);
    var last := FilledView(sold, got, until).(cycle := Some(cy));
    TripFlows(d.orders, first, last, cy, paid, got);
    assert held.positions[k := held.positions[k].(state := SwingOpen)] == held.positions;
    var gain := Some(Dollars(got - paid, bought.quantity));
    assert held.cycles[cy := held.cycles[cy].(endedAt := Some(until), finalPnl := gain, outcome := Some(SwingClosed))]
           == d.cycles + [Cycle(bought.symbol, bought.strategy, at, Some(until), Some(bought.contract.value.strike),
                                Some(-Dollars(Paid(paid), bought.quantity)), gain, Some(SwingClosed))];
  }

  lemma TripFlows(rows: seq<Order>, first: Order, last: Order, cy: nat, paid: real, got: real)
    requires forall i :: 0 <= i < |rows| ==> rows[i].cycle != Some(cy)
    requires first.cycle == Some(cy) && first.orderType == BuyToOpen && first.contract.Some? && first.status == Filled
    requires last.cycle == Some(cy) && last.orderType == SellToClose && last.contract.Some? && last.status == Filled
    requires first.fillPrice == Some(paid) && last.fillPrice == Some(got) && first.quantity == last.quantity
    ensures FlowSum(Tagged(rows + [first] + [last], cy)) == Dollars(got - paid, first.quantity)
  {
    hide Flow, FlowSum, Dollars, Tagged;
    TaggedNone(rows, cy);
    TaggedAppend(rows, first, cy);
    TaggedAppend(rows + [first], last, cy);
    assert Tagged(rows + [first] + [last], cy) == [first, last];
    TwoFlows(first, last);
    LegFlows(first, last, paid, got);
    Gained(paid, got, first.quantity);
  }

  lemma TwoFlows(a: Order, b: Order)
    ensures FlowSum([a, b]) == Flow(a) + Flow(b)
  {
    hide Flow;
    assert [a, b][..1] == [a] && [a][..0] == [];
    assert FlowSum([a]) == FlowSum([]) + Flow(a);
  }

  lemma LegFlows(first: Order, last: Order, paid: real, got: real)
    requires first.orderType == BuyToOpen && first.contract.Some? && first.status == Filled
    requires last.orderType == SellToClose && last.contract.Some? && last.status == Filled
    requires first.fillPrice == Some(paid) && last.fillPrice == Some(got)
    ensures Flow(first) == paid * (-1 * 100 * first.quantity) as real
    ensures Flow(last) == got * (1 * 100 * last.quantity) as real
  {
  }

  lemma Gained(paid: real, got: real, n: int)
    ensures paid * (-1 * 100 * n) as real + got * (1 * 100 * n) as real == Dollars(got - paid, n)
  {
    var m := n as real;
    assert (-1 * 100 * n) as real == -100.0 * m && (1 * 100 * n) as real == 100.0 * m;
    Distributes(paid, got, m);
  }

  lemma Distributes(paid: real, got: real, m: real)
    ensures paid * (-100.0 * m) + got * (100.0 * m) == 100.0 * (got - paid) * m
  {
  }
}
