/** One legal run, step by step: a put sold, assigned, a call sold against the shares, called away. It shows
    that legal runs of the interesting kind exist, and what the reconciler makes of this one. */
module LedgerWitness {
  import opened Models
  import opened PaperBrokers
  import opened Repos
  import opened Router
  import opened Reconciler
  import opened QuietTick
  import opened Ledger

  const Cfg := Config({}, {}, true, 0, Some(1))
  const ShortPut := Contract("SPY", 30, Put, 100.0)
  const ShortCall := Contract("SPY", 60, Call, 110.0)

  const PutOrder := Order("SPY", Some("wheel"), SellToOpen, Some(ShortPut), [], 1, Some(1.5), None, Pending,
                          1, None, Some("p"), None, None, None, false)
  const PutStored := PutOrder.(brokerId := Some(0))
  const PutFilled := PutStored.(status := Filled, fillPrice := Some(2.0), filledAt := Some(2))
  const PutTagged := PutFilled.(cycle := Some(0))

  const CallOrder := Order("SPY", Some("wheel"), SellToOpen, Some(ShortCall), [], 1, Some(0.9), None, Pending,
                           6, None, Some("c"), None, None, None, false)
  const CallStored := CallOrder.(brokerId := Some(1))
  const CallFilled := CallStored.(status := Filled, fillPrice := Some(1.0), filledAt := Some(7))
  const CallTagged := CallFilled.(cycle := Some(0))

  const Bought := StockLeg("SPY", 0, BuyToOpen, 100, 100.0, 5)
  const Sold := StockLeg("SPY", 0, SellToClose, 100, 110.0, 10)

  const OpenOne := Cycle("SPY", Some("wheel"), 3, None, Some(100.0), Some(200.0), None, None)

  function Row(state: PositionState, shares: int, basis: Option<real>, cycle: Option<nat>): Position {
    Position("SPY", "wheel", state, shares, basis, cycle)
  }

  function Moved(was: PositionState, now: PositionState, at: int): StateLog {
    StateLog(0, Some(was), now, ByReconciler, at)
  }

  // ---- The worlds ----

  const W0 := World(BrokerState(50000.0, map[], map[], []), EmptyDb, None, 0)
  const W1 := World(BrokerState(50000.0, map[], map[], [PutStored]),
                    Db([PutStored], [Row(CspPending, 0, None, None)], [], []), None, 1)
  const W2 := W1.(broker := BrokerState(50200.0, map[], map[ShortPut := PutStored], [PutFilled]), clock := 2)
  const W3 := W2.(db := Db([PutTagged], [Row(CspOpen, 0, None, Some(0))], [OpenOne], [Moved(CspPending, CspOpen, 3)]),
                  cursor := Some(3), clock := 3)
  const W4 := W3.(broker := BrokerState(40200.0, map["SPY" := (100, 100.0)], map[], [PutFilled]), clock := 4)

  const W5 := W4.(db := Db([PutTagged, Bought], [Row(SharesHeld, 100, Some(98.0), Some(0))], [OpenOne],
                           [Moved(CspPending, CspOpen, 3), Moved(CspOpen, SharesHeld, 5)]),
                  cursor := Some(5), clock := 5)
  const W6 := W5.(broker := W5.broker.(orders := [PutFilled, CallStored]),
                  db := W5.db.(orders := [PutTagged, Bought, CallStored],
                               positions := [Row(CcPending, 100, Some(98.0), Some(0))]),
                  clock := 6)
  const W7 := W6.(broker := BrokerState(40300.0, map["SPY" := (100, 100.0)], map[ShortCall := CallStored],
                                        [PutFilled, CallFilled]),
                  clock := 7)
  const W8 := W7.(db := Db([PutTagged, Bought, CallTagged], [Row(CcOpen, 100, Some(98.0), Some(0))], [OpenOne],
                           [Moved(CspPending, CspOpen, 3), Moved(CspOpen, SharesHeld, 5), Moved(CcPending, CcOpen, 8)]),
                  cursor := Some(8), clock := 8)
  const W9 := W8.(broker := BrokerState(51300.0, map[], map[], [PutFilled, CallFilled]), clock := 9)
  const ClosedOne := OpenOne.(endedAt := Some(10), finalPnl := Some(1300.0), outcome := Some(CcCalledAway))
  const W10 := W9.(db := Db([PutTagged, Bought, CallTagged, Sold], [Row(Idle, 0, None, None)], [ClosedOne],
                            [Moved(CspPending, CspOpen, 3), Moved(CspOpen, SharesHeld, 5), Moved(CcPending, CcOpen, 8),
                             Moved(CcOpen, Idle, 10)]),
                   cursor := Some(10), clock := 10)

  lemma PutPlaced()
    ensures Legal(Cfg, W0, Timed(1, PlaceOne(PutOrder))) && Step(Cfg, W0, Timed(1, PlaceOne(PutOrder))) == W1
  {
  }

  lemma PutSold()
    ensures Legal(Cfg, W1, Timed(2, FillOne(0, 2.0))) && Step(Cfg, W1, Timed(2, FillOne(0, 2.0))) == W2
  {
  }

  // ---- One position, one symbol ----

  lemma OneView(t: Tick, v: Order, now: int)
    ensures ProcessOrders(Cfg, t, [v], now) == ProcessOrder(Cfg, t, v, now)
  {
    hide ProcessOrder;
    assert [v][..0] == [];
    assert ProcessOrders(Cfg, t, [], now) == t;
  }

  lemma OneRow(t: Tick, p: Position, rows: seq<BrokerRow>, now: int)
    requires t.db.positions == [p] && forall i :: 0 <= i < |rows| ==> rows[i].symbol == p.symbol
    ensures ReconcilePositions(t, rows, now) == DiffOne(t, 0, p, ShapeOf(rows, p.symbol), now)
  {
    hide DiffOne, ShapeOf;
    var locals := t.db.positions;
    assert KnownSymbol(locals, p.symbol) by { assert locals[0].symbol == p.symbol; }
    assert DiffAll(t, locals, 0, rows, now) == t;
    NoUnknown(DiffAll(t, locals, 1, rows, now), locals, rows, |rows|, now);
  }

  lemma OneCycle(t: Tick, p: Position, c: Cycle, rows: seq<BrokerRow>, now: int)
    requires t.db.positions == [p] && t.db.cycles == [c]
    requires !Orphaned(Cfg, t.db, c, now) && (p.shares != 0 ==> HoldsShares(p.state))
    ensures Audit(Cfg, t, rows, [], now) == t
  {
    hide Orphaned, HoldsShares;
    assert AuditCycles(Cfg, t, t.db.cycles, 0, now) == t;
    assert AuditRows(t, t.db.positions, 0, now) == t;
  }

  /** A tick, phase by phase. */
  lemma TickPhases(w: World, at: int, ks: seq<string>, cs: seq<Contract>, symbols: seq<string>, views: seq<Order>,
                   rows: seq<BrokerRow>, t1: Tick, t2: Tick, t3: Tick)
    requires at > w.clock && Enumerates(ks, w.broker.stock.Keys) && Enumerates(cs, w.broker.options.Keys)
    requires PositionRows(w.broker, ks, cs) == rows
    requires OrdersSince(w.broker.orders, Since(w.db.orders, w.cursor)) == views
    requires ProcessOrders(Cfg, Tick(w.db, ZeroSummary), views, at) == t1
    requires ReconcilePositions(t1, rows, at) == t2
    requires Audit(Cfg, t2, rows, symbols, at) == t3
    ensures Legal(Cfg, w, Timed(at, TickNow(ks, cs, symbols)))
    ensures Step(Cfg, w, Timed(at, TickNow(ks, cs, symbols))) == w.(db := t3.db, cursor := Some(at), clock := at)
  {
    hide PositionRows, OrdersSince, Since, ProcessOrders, ReconcilePositions, Audit, Enumerates;
  }

  lemma PutSeen()
    ensures Legal(Cfg, W2, Timed(3, TickNow([], [ShortPut], [])))
    ensures Step(Cfg, W2, Timed(3, TickNow([], [ShortPut], []))) == W3
  {
    hide ProcessOrders, ReconcilePositions, Audit, PositionRows, Since, OrdersSince, Step, Legal;
    var t := Tick(W3.db, ZeroSummary.(fills := [0], cyclesOpened := 1));
    var rows := [BrokerRow("SPY", CspOpen, 0)];
    assert PositionRows(W2.broker, [], [ShortPut]) == rows by { PutRows(); }
    PutViews();
    PutProcessed();
    PutSwept();
    PutAudited();
    TickPhases(W2, 3, [], [ShortPut], [], [PutFilled], rows, t, t, t);
  }

  lemma PutRows()
    ensures PositionRows(W2.broker, [], [ShortPut]) == [BrokerRow("SPY", CspOpen, 0)]
  {
  }

  lemma PutViews()
    ensures OrdersSince(W2.broker.orders, Since(W2.db.orders, W2.cursor)) == [PutFilled]
  {
  }

  lemma PutProcessed()
    ensures ProcessOrders(Cfg, Tick(W2.db, ZeroSummary), [PutFilled], 3)
            == Tick(W3.db, ZeroSummary.(fills := [0], cyclesOpened := 1))
  {
    var t := Tick(W2.db, ZeroSummary);
    OneView(t, PutFilled, 3);
    assert FindClient([PutStored], "p") == Some(0) by { assert [PutStored][..0] == []; }
    assert Refresh(PutStored, PutFilled) == PutFilled;
    assert FindPosition(W2.db.positions, "SPY", Some("wheel")) == Some(0) by { assert W2.db.positions[..0] == []; }
    var t1 := t.(db := SetOrder(t.db, 0, PutFilled));
    assert t1.db.orders == [PutFilled];
    assert ProcessOrder(Cfg, t, PutFilled, 3) == OnFill(Cfg, t1, 0, PutStored, PutFilled, 3);
    assert Notional(2.0, 1) == 200.0;
    var t2 := OnFill(Cfg, t1, 0, PutStored, PutFilled, 3);
    assert t2.db.orders == W3.db.orders;
    assert t2.db.positions == W3.db.positions;
    assert t2.db.cycles == W3.db.cycles;
    assert t2.db.log == W3.db.log;
  }

  lemma PutSwept()
    ensures var t := Tick(W3.db, ZeroSummary.(fills := [0], cyclesOpened := 1));
            ReconcilePositions(t, [BrokerRow("SPY", CspOpen, 0)], 3) == t
  {
    var rows := [BrokerRow("SPY", CspOpen, 0)];
    OneRow(Tick(W3.db, ZeroSummary.(fills := [0], cyclesOpened := 1)), W3.db.positions[0], rows, 3);
    assert rows[0].symbol == "SPY" && AnyRow(rows, "SPY", CspOpen);
  }

  lemma PutAudited()
    ensures var t := Tick(W3.db, ZeroSummary.(fills := [0], cyclesOpened := 1));
            Audit(Cfg, t, [BrokerRow("SPY", CspOpen, 0)], [], 3) == t
  {
    OneCycle(Tick(W3.db, ZeroSummary.(fills := [0], cyclesOpened := 1)), W3.db.positions[0], OpenOne,
             [BrokerRow("SPY", CspOpen, 0)], 3);
  }

  lemma PutAssigned()
    ensures Legal(Cfg, W3, Timed(4, AssignLeg(ShortPut))) && Step(Cfg, W3, Timed(4, AssignLeg(ShortPut))) == W4
  {
  }

  // ---- Assignment seen ----

  const Shares := [BrokerRow("SPY", SharesHeld, 100)]
  const Assigned5 := Tick(W5.db, ZeroSummary.(assignments := 1))

  lemma SharesRows()
    ensures PositionRows(W4.broker, ["SPY"], []) == Shares
  {
  }

  lemma NothingNew()
    ensures OrdersSince(W4.broker.orders, Since(W4.db.orders, W4.cursor)) == []
  {
    assert [PutTagged][..0] == [] && [PutFilled][..0] == [];
    assert OldestPending([PutTagged]) == None;
    assert Since(W4.db.orders, W4.cursor) == 3;
  }

  lemma SharesSwept()
    ensures ReconcilePositions(Tick(W4.db, ZeroSummary), Shares, 5) == Assigned5
  {
    var t := Tick(W4.db, ZeroSummary);
    var p := W4.db.positions[0];
    OneRow(t, p, Shares, 5);
    assert Shares[..0] == [];
    assert SharesIn(Shares, "SPY") == 100;
    assert Tagged([PutTagged], 0) == [PutTagged] by { assert [PutTagged][..0] == []; }
    assert FirstCsp([PutTagged]) == Some(PutTagged) by { assert [PutTagged][..0] == []; }
    assert CspQuantity(t.db, Some(0)) == Some(1);
    var t' := OnAssignment(t, 0, p, 5);
    assert t'.db.orders == W5.db.orders;
    assert t'.db.positions == W5.db.positions;
    assert t'.db.log == W5.db.log;
  }

  lemma AssignmentSeen()
    ensures Legal(Cfg, W4, Timed(5, TickNow(["SPY"], [], [])))
    ensures Step(Cfg, W4, Timed(5, TickNow(["SPY"], [], []))) == W5
  {
    hide ProcessOrders, ReconcilePositions, Audit, PositionRows, Since, OrdersSince, Step, Legal;
    SharesRows();
    NothingNew();
    assert ProcessOrders(Cfg, Tick(W4.db, ZeroSummary), [], 5) == Tick(W4.db, ZeroSummary)
           by { NoViews(Tick(W4.db, ZeroSummary), 5); }
    SharesSwept();
    OneCycle(Assigned5, W5.db.positions[0], OpenOne, Shares, 5);
    TickPhases(W4, 5, ["SPY"], [], [], [], Shares, Tick(W4.db, ZeroSummary), Assigned5, Assigned5);
  }

  lemma NoViews(t: Tick, now: int)
    ensures ProcessOrders(Cfg, t, [], now) == t
  {
  }

  // ---- The call ----

  lemma CallPlaced()
    ensures Legal(Cfg, W5, Timed(6, PlaceOne(CallOrder))) && Step(Cfg, W5, Timed(6, PlaceOne(CallOrder))) == W6
  {
    assert W5.db.positions[..0] == [] && FindPosition(W5.db.positions, "SPY", Some("wheel")) == Some(0);
    NoCallYet();
    assert Live(W5.db.positions[0]);
    assert W5.db.positions[0 := W6.db.positions[0]] == W6.db.positions;
  }

  lemma NoCallYet()
    ensures FindClient(W5.db.orders, "c") == None && FindBrokerClient(W5.broker.orders, "c") == None
  {
    assert W5.db.orders[..1] == [PutTagged] && [PutTagged][..0] == [] && W5.broker.orders[..0] == [];
    assert FindClient([PutTagged], "c") == None && Bought.clientId == None;
  }

  lemma CallSold()
    ensures Legal(Cfg, W6, Timed(7, FillOne(1, 1.0))) && Step(Cfg, W6, Timed(7, FillOne(1, 1.0))) == W7
  {
  }

  const Covered := [BrokerRow("SPY", SharesHeld, 100), BrokerRow("SPY", CcOpen, 0)]
  const Sold8 := Tick(W8.db, ZeroSummary.(fills := [2]))

  lemma CoveredRows()
    ensures PositionRows(W7.broker, ["SPY"], [ShortCall]) == Covered
  {
  }

  lemma CallViews()
    ensures OrdersSince(W7.broker.orders, Since(W7.db.orders, W7.cursor)) == [CallFilled]
  {
    var rows := W7.db.orders;
    assert rows[..2] == [PutTagged, Bought] && [PutTagged, Bought][..1] == [PutTagged] && [PutTagged][..0] == [];
    assert OldestPending([PutTagged]) == None;
    assert Bought.status == OrderStatus.Filled;
    assert OldestPending([PutTagged, Bought]) == None;
    assert rows[2] == CallStored && OldestPending(rows) == Some(6);
    assert Since(rows, W7.cursor) == 5;
    assert W7.broker.orders[..1] == [PutFilled] && [PutFilled][..0] == [];
    assert OrdersSince([PutFilled], 5) == [];
  }

  lemma CallProcessed()
    ensures ProcessOrders(Cfg, Tick(W7.db, ZeroSummary), [CallFilled], 8) == Sold8
  {
    var t, rows := Tick(W7.db, ZeroSummary), W7.db.orders;
    OneView(t, CallFilled, 8);
    assert rows[..2] == [PutTagged, Bought] && [PutTagged, Bought][..1] == [PutTagged] && [PutTagged][..0] == [];
    assert FindClient([PutTagged], "c") == None && FindClient([PutTagged, Bought], "c") == None;
    assert FindClient(rows, "c") == Some(2);
    assert Refresh(CallStored, CallFilled) == CallFilled;
    assert FindPosition(W7.db.positions, "SPY", Some("wheel")) == Some(0) by { assert W7.db.positions[..0] == []; }
    var t1 := t.(db := SetOrder(t.db, 2, CallFilled));
    assert t1.db.orders == [PutTagged, Bought, CallFilled];
    assert ProcessOrder(Cfg, t, CallFilled, 8) == OnFill(Cfg, t1, 2, CallStored, CallFilled, 8);
    var t2 := OnFill(Cfg, t1, 2, CallStored, CallFilled, 8);
    assert t2.db.orders == W8.db.orders;
    assert t2.db.positions == W8.db.positions;
    assert t2.db.log == W8.db.log;
  }

  lemma CallSwept()
    ensures ReconcilePositions(Sold8, Covered, 8) == Sold8
  {
    OneRow(Sold8, W8.db.positions[0], Covered, 8);
    assert AnyRow(Covered, "SPY", CcOpen) by { assert Covered[1].state.CcOpen? && Covered[1].symbol == "SPY"; }
  }

  lemma CallSeen()
    ensures Legal(Cfg, W7, Timed(8, TickNow(["SPY"], [ShortCall], [])))
    ensures Step(Cfg, W7, Timed(8, TickNow(["SPY"], [ShortCall], []))) == W8
  {
    hide ProcessOrders, ReconcilePositions, Audit, PositionRows, Since, OrdersSince, Step, Legal;
    CoveredRows();
    CallViews();
    CallProcessed();
    CallSwept();
    OneCycle(Sold8, W8.db.positions[0], OpenOne, Covered, 8);
    TickPhases(W7, 8, ["SPY"], [ShortCall], [], [CallFilled], Covered, Sold8, Sold8, Sold8);
  }

  lemma CallAssigned()
    ensures Legal(Cfg, W8, Timed(9, AssignLeg(ShortCall))) && Step(Cfg, W8, Timed(9, AssignLeg(ShortCall))) == W9
  {
  }

  // ---- Called away ----

  const Done10 := Tick(W10.db, ZeroSummary.(calledAways := 1, cyclesClosed := 1))

  lemma NothingLater()
    ensures OrdersSince(W9.broker.orders, Since(W9.db.orders, W9.cursor)) == []
  {
    var rows := W9.db.orders;
    assert rows[..2] == [PutTagged, Bought] && [PutTagged, Bought][..1] == [PutTagged] && [PutTagged][..0] == [];
    assert OldestPending([PutTagged]) == None;
    assert Bought.status == OrderStatus.Filled;
    assert OldestPending([PutTagged, Bought]) == None;
    assert rows[2] == CallTagged && OldestPending(rows) == None;
    assert W9.broker.orders[..1] == [PutFilled] && [PutFilled][..0] == [];
    assert OrdersSince([PutFilled], 8) == [];
  }

  lemma RowsOfCycle()
    ensures Tagged(W9.db.orders, 0) == W9.db.orders && Tagged(W10.db.orders, 0) == W10.db.orders
  {
    var rows := W10.db.orders;
    assert rows[..3] == W9.db.orders && W9.db.orders[..2] == [PutTagged, Bought];
    assert [PutTagged, Bought][..1] == [PutTagged] && [PutTagged][..0] == [];
    assert Tagged([], 0) == [];
    assert Tagged([PutTagged], 0) == [PutTagged];
    assert Tagged([PutTagged, Bought], 0) == [PutTagged, Bought];
    assert Tagged(W9.db.orders, 0) == [PutTagged, Bought] + [CallTagged];
  }

  lemma CycleReads()
    ensures CspQuantity(W9.db, Some(0)) == Some(1) && CcStrike(W9.db, Some(0)) == Some(110.0)
  {
    RowsOfCycle();
    var rows := W9.db.orders;
    assert rows[..2] == [PutTagged, Bought] && [PutTagged, Bought][..1] == [PutTagged] && [PutTagged][..0] == [];
    assert FirstCsp([PutTagged]) == Some(PutTagged);
    assert !IsCsp(Bought);
    assert FirstCsp([PutTagged, Bought]) == Some(PutTagged);
    assert rows[2] == CallTagged && IsCall(CallTagged) && !IsCsp(CallTagged);
    assert LastCall([PutTagged]) == None;
    assert !IsCall(Bought);
    assert LastCall([PutTagged, Bought]) == None;
  }

  lemma CyclePays()
    ensures FlowSum(W10.db.orders) == 1300.0
  {
    var rows := W10.db.orders;
    assert rows[..3] == [PutTagged, Bought, CallTagged] && [PutTagged, Bought, CallTagged][..2] == [PutTagged, Bought];
    assert [PutTagged, Bought][..1] == [PutTagged] && [PutTagged][..0] == [];
    assert Flow(PutTagged) == 200.0 && Flow(Bought) == -10000.0 && Flow(CallTagged) == 100.0 && Flow(Sold) == 11000.0;
    assert FlowSum([]) == 0.0;
    assert FlowSum([PutTagged]) == 200.0;
    assert FlowSum([PutTagged, Bought]) == -9800.0;
    assert FlowSum([PutTagged, Bought, CallTagged]) == -9700.0;
  }

  lemma CalledSwept()
    ensures ReconcilePositions(Tick(W9.db, ZeroSummary), [], 10) == Done10
  {
    hide CspQuantity, CcStrike, Tagged, FlowSum;
    var t := Tick(W9.db, ZeroSummary);
    var p := W9.db.positions[0];
    OneRow(t, p, [], 10);
    CycleReads();
    RowsOfCycle();
    CyclePays();
    var t' := OnCalledAway(t, 0, p, 10);
    assert t'.db.orders == W10.db.orders;
    assert t'.db.cycles == W10.db.cycles;
    assert t'.db.positions == W10.db.positions;
    assert t'.db.log == W10.db.log;
  }

  lemma CalledSeen()
    ensures Legal(Cfg, W9, Timed(10, TickNow([], [], []))) && Step(Cfg, W9, Timed(10, TickNow([], [], []))) == W10
  {
    hide ProcessOrders, ReconcilePositions, Audit, PositionRows, Since, OrdersSince, Step, Legal;
    assert PositionRows(W9.broker, [], []) == [] by { NoRows(); }
    NothingLater();
    NoViews(Tick(W9.db, ZeroSummary), 10);
    CalledSwept();
    OneCycle(Done10, W10.db.positions[0], ClosedOne, [], 10);
    TickPhases(W9, 10, [], [], [], [], [], Tick(W9.db, ZeroSummary), Done10, Done10);
  }

  lemma NoRows()
    ensures PositionRows(W9.broker, [], []) == []
  {
  }

  // ---- The run ----

  const Wheel := [Timed(1, PlaceOne(PutOrder)), Timed(2, FillOne(0, 2.0)), Timed(3, TickNow([], [ShortPut], [])),
                  Timed(4, AssignLeg(ShortPut)), Timed(5, TickNow(["SPY"], [], [])), Timed(6, PlaceOne(CallOrder)),
                  Timed(7, FillOne(1, 1.0)), Timed(8, TickNow(["SPY"], [ShortCall], [])),
                    Timed(9, AssignLeg(ShortCall)),
                  Timed(10, TickNow([], [], []))]

  /** One more event of the run. */
  lemma Extend(n: nat, w: World, w': World)
    requires n < |Wheel| && LegalRun(Cfg, W0, Wheel[..n]) && After(Cfg, W0, Wheel[..n]) == w
    requires Legal(Cfg, w, Wheel[n]) && Step(Cfg, w, Wheel[n]) == w'
    ensures LegalRun(Cfg, W0, Wheel[..n + 1]) && After(Cfg, W0, Wheel[..n + 1]) == w'
  {
    hide Legal, Step;
    assert Wheel[..n + 1][..n] == Wheel[..n];
  }

  /** The run is legal, and it ends with the cycle closed as called away at 1300: 200 and 100 of premium, and
      10 a share on 100 shares. */
  lemma WheelRuns()
    ensures Fresh(W0) && LegalRun(Cfg, W0, Wheel) && After(Cfg, W0, Wheel) == W10
    ensures W10.db.cycles[0].finalPnl == Some(1300.0) && W10.broker.cash - W0.broker.cash == 1300.0
  {
    hide Legal, Step, LegalRun, After;
    Empty();
    PutPlaced();
    Extend(0, W0, W1);
    PutSold();
    Extend(1, W1, W2);
    PutSeen();
    Extend(2, W2, W3);
    PutAssigned();
    Extend(3, W3, W4);
    AssignmentSeen();
    Extend(4, W4, W5);
    CallPlaced();
    Extend(5, W5, W6);
    CallSold();
    Extend(6, W6, W7);
    CallSeen();
    Extend(7, W7, W8);
    CallAssigned();
    Extend(8, W8, W9);
    CalledSeen();
    Extend(9, W9, W10);
    assert Wheel[..10] == Wheel;
  }

  lemma Empty()
    ensures LegalRun(Cfg, W0, Wheel[..0]) && After(Cfg, W0, Wheel[..0]) == W0
  {
  }
}
