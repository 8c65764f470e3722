/** Placing an order, having the broker cancel it and running one whole tick puts every position back. */
module RoundTrip {
  import opened Models
  import opened PaperBrokers
  import opened Repos
  import opened Router
  import opened Reconciler
  import opened Pmcc
  import opened LedgerTables
  import opened OrderStream
  import opened QuietTick

  datatype Family = Wheel | Spread | Swing | Diagonal

  function FamilyOf(cfg: Config, o: Order, strategy: string): Family {
    if IsMultiLeg(o.orderType) then Spread
    else if strategy in cfg.swing then Swing
    else if strategy == "pmcc" then Diagonal
    else Wheel
  }

  /** The resting states each order is proposed from. */
  predicate RestsIn(cfg: Config, o: Order, strategy: string, state: PositionState) {
    match FamilyOf(cfg, o, strategy)
    case Spread => if o.orderType.MultiLegOpen? then state.Idle? || state.SpreadClosed? else state.SpreadOpen?
    case Swing =>
      (o.orderType.BuyToOpen? && state.Idle?) || (o.orderType.SellToClose? && state.SwingOpen?)
    case Diagonal =>
      (o.orderType.BuyToOpen? && state.Idle?) || (o.orderType.SellToOpen? && state.PmccLongOpen?)
      || (o.orderType.BuyToClose? && state.PmccBothOpen?) || (o.orderType.SellToClose? && state.PmccLongOpen?)
    case Wheel =>
      if o.orderType.SellToOpen? then state == (if IsPut(o) then Idle else SharesHeld)
      else o.orderType.BuyToClose? && state == (if IsPut(o) then CspOpen else CcOpen)
  }

  predicate NewOrder(b: BrokerState, d: Db, o: Order) {
    && o.clientId.Some? && FindClient(d.orders, o.clientId.value).None?
    && FindBrokerClient(b.orders, o.clientId.value).None?
    && o.quantity > 0 && o.status.Pending? && o.brokerId.None? && o.filledQty.None? && o.filledAt.None?
    && (o.contract.Some? <==> !IsMultiLeg(o.orderType))
    && (forall j :: 0 <= j < |d.orders| ==> d.orders[j].placedAt < o.placedAt)
    && !HasInflight(d.orders, o.symbol)
  }

  /** The state the position ends in: its own, except that a spread entry always lands in IDLE. */
  function Landing(o: Order, state: PositionState): PositionState {
    if o.orderType.MultiLegOpen? then Idle else state
  }

  function Stored(b: BrokerState, o: Order): Order {
    o.(brokerId := Some(|b.orders|))
  }

  /** After the placement: one new PENDING row, and only the state of row k has moved. */
  lemma Placed(cfg: Config, b: BrokerState, d: Db, o: Order, strategy: string, k: nat)
    requires NewOrder(b, d, o) && o.strategy == Some(strategy)
    requires FindPosition(d.positions, o.symbol, Some(strategy)) == Some(k) && k < |d.positions|
    ensures var (b1, d1) := PlaceOrder(cfg, b, d, o, strategy);
            var state := if KeepsPosition(o, strategy) then d.positions[k].state
                else TargetState(cfg, o, strategy, true);
            && b1 == b.(orders := b.orders + [Stored(b, o)])
            && d1 == d.(orders := d.orders + [Stored(b, o)],
                        positions := d.positions[k := d.positions[k].(state := state)])
  {
    assert Stored(b, o).(status := Pending) == Stored(b, o);
    if KeepsPosition(o, strategy) { assert d.positions[k := d.positions[k]] == d.positions; }
  }

  /** The cancelled view reaches its row and nothing but the cancel handler runs. */
  lemma CancelSeen(cfg: Config, t: Tick, j: nat, o: Order, now: int)
    requires j == |t.db.orders| - 1 && t.db.orders[j] == o && o.status.Pending? && o.filledQty.None? && o.brokerId.Some?
    requires o.clientId.Some? && FindClient(t.db.orders[..j], o.clientId.value).None?
    ensures ProcessOrder(cfg, t, o.(status := Cancelled), now)
         == OnCancel(t.(db := SetOrder(t.db, j, o.(status := Cancelled))), o, now)
  {
    hide OnCancel, OnFill, FlagManual;
    assert FindClient(t.db.orders, o.clientId.value) == Some(j);
    assert Refresh(o, o.(status := Cancelled)) == o.(status := Cancelled);
  }

  lemma NothingWorks(rows: seq<Order>, o: Order, x: string)
    requires !HasInflight(rows, x) && !Working(o.status)
    ensures !HasInflight(rows + [o], x)
  {
  }

  /** The placement moved the row and the cancel moves it back. */
  predicate Undone(cfg: Config, o: Order, strategy: string) {
    match FamilyOf(cfg, o, strategy)
    case Spread => o.orderType.MultiLegOpen?
    case Swing => o.orderType.BuyToOpen?
    case Diagonal => o.orderType.BuyToOpen? || o.orderType.SellToClose?
    case Wheel => o.orderType.SellToOpen?
  }

  /** A short against a long call has no cancel handler: the sweep heals its row. */
  predicate Healed(cfg: Config, o: Order, strategy: string) {
    FamilyOf(cfg, o, strategy).Diagonal? && o.orderType.SellToOpen?
  }

  /** What the cancel handler leaves in row k: the landing state, or, for a short against a long call,
      the pending state that the sweep then heals. */
  lemma CancelledRow(cfg: Config, t: Tick, k: nat, o: Order, strategy: string, p: Position, held: bool, now: int)
    requires o.strategy == Some(strategy) && FindPosition(t.db.positions, o.symbol, Some(strategy)) == Some(k)
    requires k < |t.db.positions| && RestsIn(cfg, o, strategy, p.state)
    requires o.contract.Some? <==> !IsMultiLeg(o.orderType)
    requires var state := if KeepsPosition(o, strategy) then p.state else TargetState(cfg, o, strategy, held);
             t.db.positions[k] == p.(state := state)
    ensures var t' := OnCancel(t, o, now);
            && t'.db.orders == t.db.orders && t'.db.cycles == t.db.cycles
            && t'.sum == t.sum.(cancellations := t.sum.cancellations + if Undone(cfg, o, strategy) then 1 else 0)
            && t'.db.positions
               == t.db.positions[k := p.(state := if Healed(cfg, o, strategy) then PmccShortPending
                                         else Landing(o, p.state))]
  {
    var t' := OnCancel(t, o, now);
    assert t.db.positions[k := t.db.positions[k]] == t.db.positions;
  }

  predicate RestingState(s: PositionState) {
    s.Idle? || s.SharesHeld? || s.CspOpen? || s.CcOpen? || s.SpreadOpen? || s.SwingOpen? || s.PmccLongOpen?
      || s.PmccBothOpen?
    || s.SpreadClosed?
  }

  /** Row k's turn: the healed short returns to the long alone, and every other landing state stays. */
  lemma TurnLands(t: Tick, k: nat, p: Position, healed: bool, shape: Shape, now: int)
    requires k < |t.db.positions| && !HasInflight(t.db.orders, p.symbol)
    requires AtRest(t.db.orders, p, shape)
    requires healed ==> p.state.PmccLongOpen? && LatestUnfilled(t.db.orders, p.symbol, p.strategy)
    requires t.db.positions[k] == if healed then p.(state := PmccShortPending) else p
    ensures var t' := DiffOne(t, k, t.db.positions[k], shape, now);
            && t'.db.orders == t.db.orders && t'.db.cycles == t.db.cycles
            && t'.db.positions == t.db.positions[k := p]
            && t'.sum == t.sum.(heals := t.sum.heals + if healed then 1 else 0)
  {
    hide HasInflight;
    if !healed {
      RestStays(t, k, p, shape, now);
      assert t.db.positions[k := p] == t.db.positions;
    }
  }

  predicate LatestUnfilled(rows: seq<Order>, x: string, strategy: string) {
    var j := LatestCallOrder(rows, x, strategy, SellToOpen);
    j.Some? && j.value < |rows| && !rows[j.value].status.Filled?
  }

  lemma LatestIsNew(rows: seq<Order>, o: Order, strategy: string)
    requires o.strategy == Some(strategy) && o.orderType.SellToOpen? && OptionTypeOf(o) == Some(Call)
    requires !o.status.Filled?
    requires forall j :: 0 <= j < |rows| ==> rows[j].placedAt < o.placedAt
    ensures LatestUnfilled(rows + [o], o.symbol, strategy)
  {
    assert (rows + [o])[..|rows|] == rows;
  }

  // ---- The order stream after the cancel ----

  /** Whatever the cursor, the tick's window holds the cancelled order, last, and the other views are old news. */
  lemma StreamIsCancel(cfg: Config, b: BrokerState, d: Db, d1: Db, o: Order, cursor: Option<int>, now: int)
    requires o.clientId.Some? && o.brokerId.Some? && o.status.Pending? && o.filledAt.None? && o.filledQty.None?
    requires FindClient(d.orders, o.clientId.value).None? && d1.orders == d.orders + [o]
    requires forall i :: 0 <= i < |b.orders| ==> Absorbed(d.orders, b.orders[i])
    ensures var c := o.(status := Cancelled);
            ProcessOrders(cfg, Tick(d1, ZeroSummary), OrdersSince(b.orders + [c], Since(d1.orders, cursor)), now)
            == OnCancel(Tick(SetOrder(d1, |d.orders|, c), ZeroSummary), o, now)
  {
    hide Absorbed, ProcessOrder, OnCancel, FindClient, Since;
    var c, n, since := o.(status := Cancelled), |d.orders|, Since(d1.orders, cursor);
    SinceCovers(d1.orders, cursor, n);
    assert (b.orders + [c])[..|b.orders|] == b.orders;
    var views := OrdersSince(b.orders, since);
    SinceMembers(b.orders, since);
    forall a | 0 <= a < |views| ensures Absorbed(d1.orders, views[a]) {
      assert views[a] in views;
      AbsorbedMore(d.orders, [o], views[a]);
    }
    var t := Tick(d1, ZeroSummary);
    AllNoop(cfg, t, views, now);
    assert OrdersSince(b.orders + [c], since) == views + [c];
    assert (views + [c])[..|views|] == views;
    assert d1.orders[..n] == d.orders;
    CancelSeen(cfg, t, n, o, now);
  }

  // ---- The round trip ----

  /** What get_positions reports: the paper broker's rows or Alpaca's. */
  datatype Feed = PaperFeed | AlpacaFeed

  function Reports(f: Feed, b: BrokerState, ks: seq<string>, cs: seq<Contract>): seq<BrokerRow> {
    match f
    case PaperFeed => PositionRows(b, ks, cs)
    case AlpacaFeed => AlpacaRows(b, ks, cs)
  }

  /** Orders are not reported as positions. */
  lemma SameReports(f: Feed, b: BrokerState, orders: seq<Order>, ks: seq<string>, cs: seq<Contract>)
    ensures Reports(f, b.(orders := orders), ks, cs) == Reports(f, b, ks, cs)
  {
    var b' := b.(orders := orders);
    forall i | 0 <= i < |ks| ensures StockRow(b', ks[i]) == StockRow(b, ks[i]) {}
    forall i | 0 <= i < |cs|
      ensures OptionRow(b', cs[i]) == OptionRow(b, cs[i]) && AlpacaRow(b', cs[i]) == AlpacaRow(b, cs[i]) {}
    assert StockRows(b', ks) == StockRows(b, ks);
    assert OptionRows(b', cs) == OptionRows(b, cs);
    assert AlpacaRows(b', ks, cs) == AlpacaRows(b, ks, cs);
  }

  /** Nothing is outstanding: every broker order's fate is in the tables, every row shows what the broker
      reports, every reported symbol has a row, and the books would pass the audit. */
  ghost predicate InOrder(cfg: Config, b: BrokerState, d: Db, rows: seq<BrokerRow>, symbols: seq<string>, now: int) {
    && (forall i :: 0 <= i < |b.orders| ==> Absorbed(d.orders, b.orders[i]))
    && RowsRest(d, rows)
    && (forall i :: 0 <= i < |rows| ==> KnownSymbol(d.positions, rows[i].symbol))
    && AuditSilent(cfg, d, rows, symbols, now)
  }

  /** The table with the pair's row set to `p`, or `p` appended if there was none. */
  function WithRow(d: Db, x: string, strategy: string, p: Position): seq<Position> {
    var k := FindPosition(d.positions, x, Some(strategy));
    if k.Some? && k.value < |d.positions| then d.positions[k.value := p] else d.positions + [p]
  }

  function RowIndex(d: Db, x: string, strategy: string): nat {
    var k := FindPosition(d.positions, x, Some(strategy));
    if k.Some? then k.value else |d.positions|
  }

  /** After the placement: one new PENDING row, and the pair's row in its pending state. */
  lemma PairPlaced(cfg: Config, b: BrokerState, d: Db, o: Order, strategy: string)
    requires NewOrder(b, d, o) && o.strategy == Some(strategy)
    requires RestsIn(cfg, o, strategy, PairRow(d, o.symbol, strategy).state)
    ensures var (b1, d1) := PlaceOrder(cfg, b, d, o, strategy);
            var p, k := PairRow(d, o.symbol, strategy), RowIndex(d, o.symbol, strategy);
            var held := FindPosition(d.positions, o.symbol, Some(strategy)).Some?;
            var state := if KeepsPosition(o, strategy) then p.state else TargetState(cfg, o, strategy, held);
            && b1 == b.(orders := b.orders + [Stored(b, o)])
            && d1.orders == d.orders + [Stored(b, o)] && d1.cycles == d.cycles
            && d1.positions == WithRow(d, o.symbol, strategy, p.(state := state))
            && k < |d1.positions| && d1.positions[k] == p.(state := state)
            && p.symbol == o.symbol && p.strategy == strategy
            && FindPosition(d1.positions, o.symbol, Some(strategy)) == Some(k)
  {
    hide PlaceOrder, FindPosition, FindClient, FindBrokerClient, HasInflight, TargetState;
    FindPositionSound(d.positions, o.symbol, Some(strategy));
    var k := FindPosition(d.positions, o.symbol, Some(strategy));
    if k.Some? {
      Placed(cfg, b, d, o, strategy, k.value);
      FindPositionKeys(d.positions, PlaceOrder(cfg, b, d, o, strategy).1.positions, o.symbol, Some(strategy));
    } else {
      FirstPlaced(cfg, b, d, o, strategy);
    }
  }

  lemma FirstPlaced(cfg: Config, b: BrokerState, d: Db, o: Order, strategy: string)
    requires NewOrder(b, d, o) && o.strategy == Some(strategy) && IsOpening(o.orderType)
    requires FindPosition(d.positions, o.symbol, Some(strategy)).None?
    ensures var (b1, d1) := PlaceOrder(cfg, b, d, o, strategy);
            && b1 == b.(orders := b.orders + [Stored(b, o)])
            && d1.orders == d.orders + [Stored(b, o)] && d1.cycles == d.cycles
            && d1.positions == d.positions + [Position(o.symbol, strategy, TargetState(cfg, o, strategy, false), 0,
                                                       None, None)]
            && FindPosition(d1.positions, o.symbol, Some(strategy)) == Some(|d.positions|)
  {
    hide PendingState, RestsIn;
    assert Stored(b, o).(status := Pending) == Stored(b, o);
    var p := Position(o.symbol, strategy, TargetState(cfg, o, strategy, false), 0, None, None);
    assert (d.positions + [p])[..|d.positions|] == d.positions;
  }

  lemma NobodyElse(orders: seq<Order>, c: Order, p: Position, shape: Shape)
    requires AtRest(orders, p, shape) && !Working(c.status)
    ensures AtRest(orders + [c], p, shape)
  {
    var more := orders + [c];
    if HasInflight(orders, p.symbol) {
      var j :| 0 <= j < |orders| && orders[j].symbol == p.symbol && Working(orders[j].status);
      assert more[j] == orders[j];
    }
  }

  lemma {:induction false} SameLocalShares(ps: seq<Position>, qs: seq<Position>, x: string)
    requires |ps| == |qs| && forall m :: 0 <= m < |ps| ==> ps[m].symbol == qs[m].symbol && ps[m].shares == qs[m].shares
    ensures LocalShares(ps, x) == LocalShares(qs, x)
  {
    if |ps| > 0 { SameLocalShares(ps[..|ps| - 1], qs[..|qs| - 1], x); }
  }

  lemma {:induction false} NoStockIn(rows: seq<BrokerRow>, x: string)
    requires forall i :: 0 <= i < |rows| && rows[i].symbol == x ==> rows[i].shares == 0
    ensures StockIn(rows, x) == 0
  {
    if |rows| > 0 { NoStockIn(rows[..|rows| - 1], x); }
  }

  lemma {:induction false} NoLocalShares(ps: seq<Position>, x: string)
    requires !KnownSymbol(ps, x)
    ensures LocalShares(ps, x) == 0
  {
    if |ps| > 0 {
      assert forall k :: 0 <= k < |ps| - 1 ==> ps[..|ps| - 1][k] == ps[k];
      NoLocalShares(ps[..|ps| - 1], x);
    }
  }

  /** The audit cannot tell the landing state from the state before. */
  lemma MovedRowPasses(cfg: Config, d: Db, d': Db, k: nat, p: Position, rows: seq<BrokerRow>, symbols: seq<string>,
                       now: int)
    requires AuditSilent(cfg, d, rows, symbols, now) && k < |d.positions|
    requires d'.cycles == d.cycles && d'.positions == d.positions[k := p]
    requires p == d.positions[k].(state := p.state)
    requires p.state == d.positions[k].state || (d.positions[k].state.SpreadClosed? && p.state.Idle?)
    ensures AuditSilent(cfg, d', rows, symbols, now)
  {
    hide FindPosition, LocalShares, StockIn;
    forall cy | 0 <= cy < |d.cycles| && !Orphaned(cfg, d, d.cycles[cy], now)
      ensures !Orphaned(cfg, d', d'.cycles[cy], now)
    {
      FindPositionKeys(d.positions, d'.positions, d.cycles[cy].symbol, d.cycles[cy].strategy);
    }
    forall x | KnownSymbol(d'.positions, x)
      ensures KnownSymbol(d.positions, x) && LocalShares(d'.positions, x) == LocalShares(d.positions, x)
    {
      SameLocalShares(d.positions, d'.positions, x);
    }
  }

  lemma NewRowPasses(cfg: Config, d: Db, d': Db, p: Position, rows: seq<BrokerRow>, symbols: seq<string>, now: int)
    requires AuditSilent(cfg, d, rows, symbols, now) && p.shares == 0
    requires !KnownSymbol(d.positions, p.symbol) ==> StockIn(rows, p.symbol) == 0
    requires d'.cycles == d.cycles && d'.positions == d.positions + [p]
    ensures AuditSilent(cfg, d', rows, symbols, now)
  {
    assert d'.positions[..|d.positions|] == d.positions;
    forall x | x in symbols && KnownSymbol(d'.positions, x) && cfg.parityEnabled
      ensures LocalShares(d'.positions, x) == StockIn(rows, x)
    {
      if !KnownSymbol(d.positions, x) { NoLocalShares(d.positions, x); }
    }
  }

  /** After the trip nothing is outstanding either, bar the cancelled order's own row. */
  lemma LandedQuiet(cfg: Config, d: Db, d': Db, x: string, strategy: string, p: Position, rows: seq<BrokerRow>,
                    symbols: seq<string>, now: int)
    requires AuditSilent(cfg, d, rows, symbols, now)
    requires forall i :: 0 <= i < |rows| ==> KnownSymbol(d.positions, rows[i].symbol)
    requires d'.cycles == d.cycles && d'.positions == WithRow(d, x, strategy, p)
    requires var q := PairRow(d, x, strategy);
             p == q.(state := p.state) && (p.state == q.state || (q.state.SpreadClosed? && p.state.Idle?))
    ensures AuditSilent(cfg, d', rows, symbols, now)
    ensures forall i :: 0 <= i < |rows| ==> KnownSymbol(d'.positions, rows[i].symbol)
  {
    hide AuditSilent, FindPosition;
    var k := FindPosition(d.positions, x, Some(strategy));
    if k.Some? && k.value < |d.positions| {
      MovedRowPasses(cfg, d, d', k.value, p, rows, symbols, now);
    } else {
      if !KnownSymbol(d.positions, x) { NoStockIn(rows, x); }
      NewRowPasses(cfg, d, d', p, rows, symbols, now);
    }
    forall i | 0 <= i < |rows| ensures KnownSymbol(d'.positions, rows[i].symbol) {
      var m :| 0 <= m < |d.positions| && d.positions[m].symbol == rows[i].symbol;
      assert d'.positions[m].symbol == rows[i].symbol;
    }
  }

  lemma RestsLands(cfg: Config, o: Order, strategy: string, state: PositionState)
    requires RestsIn(cfg, o, strategy, state)
    ensures RestingState(state) && (Healed(cfg, o, strategy) ==> state.PmccLongOpen? && Landing(o, state) == state)
    ensures Landing(o, state) == state || (state.SpreadClosed? && Landing(o, state).Idle?)
  {
  }

  /** The tables once the cancel has been seen and row k not yet swept. */
  predicate CancelledAt(cfg: Config, d: Db, t: Tick, o: Order, strategy: string, c: Order) {
    var p := PairRow(d, o.symbol, strategy);
    && t.db.orders == d.orders + [c] && t.db.cycles == d.cycles
    && t.db.positions == WithRow(d, o.symbol, strategy,
                                 p.(state := if Healed(cfg, o, strategy) then PmccShortPending
                                    else Landing(o, p.state)))
  }

  lemma TripTurn(cfg: Config, d: Db, t: Tick, o: Order, strategy: string, c: Order, rows: seq<BrokerRow>, now: int)
    requires CancelledAt(cfg, d, t, o, strategy, c) && !HasInflight(d.orders, o.symbol) && RowsRest(d, rows)
    requires RestsIn(cfg, o, strategy, PairRow(d, o.symbol, strategy).state)
    requires c == o.(brokerId := c.brokerId, status := Cancelled) && o.strategy == Some(strategy)
    requires FamilyOf(cfg, o, strategy).Diagonal? ==> OptionTypeOf(o) == Some(Call)
    requires forall j :: 0 <= j < |d.orders| ==> d.orders[j].placedAt < o.placedAt
    ensures var p, k := PairRow(d, o.symbol, strategy), RowIndex(d, o.symbol, strategy);
            && k < |t.db.positions|
            && var t' := DiffOne(t, k, t.db.positions[k], ShapeOf(rows, o.symbol), now);
               && t'.db.orders == t.db.orders && t'.db.cycles == d.cycles
               && t'.db.positions == WithRow(d, o.symbol, strategy, p.(state := Landing(o, p.state)))
               && t'.sum == t.sum.(heals := t.sum.heals + if Healed(cfg, o, strategy) then 1 else 0)
  {
    hide DiffOne, HasInflight, FindPosition, LatestCallOrder, AtRest, ShapeOf, RestsIn, Landing;
    var p, k, shape := PairRow(d, o.symbol, strategy), RowIndex(d, o.symbol, strategy), ShapeOf(rows, o.symbol);
    FindPositionSound(d.positions, o.symbol, Some(strategy));
    RestsLands(cfg, o, strategy, p.state);
    var landed := p.(state := Landing(o, p.state));
    NothingWorks(d.orders, c, o.symbol);
    LandsAtRest(d, o, strategy, c, rows);
    if Healed(cfg, o, strategy) { LatestIsNew(d.orders, c, strategy); }
    TurnLands(t, k, landed, Healed(cfg, o, strategy), shape, now);
  }

  lemma LandsAtRest(d: Db, o: Order, strategy: string, c: Order, rows: seq<BrokerRow>)
    requires RowsRest(d, rows) && !Working(c.status)
    ensures var p := PairRow(d, o.symbol, strategy);
            AtRest(d.orders + [c], p.(state := Landing(o, p.state)), ShapeOf(rows, o.symbol))
  {
    hide HasInflight, FindPosition, ShapeOf;
    FindPositionSound(d.positions, o.symbol, Some(strategy));
    var k := FindPosition(d.positions, o.symbol, Some(strategy));
    if k.Some? && k.value < |d.positions| && !o.orderType.MultiLegOpen? {
      NobodyElse(d.orders, c, d.positions[k.value], ShapeOf(rows, o.symbol));
    }
  }

  lemma TripRest(cfg: Config, d: Db, t: Tick, o: Order, strategy: string, c: Order, rows: seq<BrokerRow>)
    requires CancelledAt(cfg, d, t, o, strategy, c) && RowsRest(d, rows) && !Working(c.status)
    requires forall i :: 0 <= i < |rows| ==> KnownSymbol(d.positions, rows[i].symbol)
    ensures forall m :: 0 <= m < |t.db.positions| && m != RowIndex(d, o.symbol, strategy)
              ==> AtRest(t.db.orders, t.db.positions[m], ShapeOf(rows, t.db.positions[m].symbol))
    ensures forall i :: 0 <= i < |rows| ==> KnownSymbol(t.db.positions, rows[i].symbol)
  {
    hide AtRest, ShapeOf, FindPosition, Healed, Landing;
    FindPositionSound(d.positions, o.symbol, Some(strategy));
    forall m | 0 <= m < |t.db.positions| && m != RowIndex(d, o.symbol, strategy)
      ensures AtRest(t.db.orders, t.db.positions[m], ShapeOf(rows, t.db.positions[m].symbol))
    {
      NobodyElse(d.orders, c, d.positions[m], ShapeOf(rows, d.positions[m].symbol));
    }
    forall i | 0 <= i < |rows| ensures KnownSymbol(t.db.positions, rows[i].symbol) {
      var m :| 0 <= m < |d.positions| && d.positions[m].symbol == rows[i].symbol;
      assert t.db.positions[m].symbol == rows[i].symbol;
    }
  }

  /** The broker id changes nothing the router or the reconciler decides by. */
  lemma StoredSame(cfg: Config, b: BrokerState, o: Order, strategy: string, state: PositionState, held: bool)
    ensures var s := Stored(b, o);
            && RestsIn(cfg, s, strategy, state) == RestsIn(cfg, o, strategy, state)
            && KeepsPosition(s, strategy) == KeepsPosition(o, strategy)
            && TargetState(cfg, s, strategy, held) == TargetState(cfg, o, strategy, held)
            && Healed(cfg, s, strategy) == Healed(cfg, o, strategy)
            && Undone(cfg, s, strategy) == Undone(cfg, o, strategy)
            && Landing(s, state) == Landing(o, state)
  {
  }

  /** Submit any order at rest, let the broker cancel it, and run one whole reconcile_once with any cursor,
      over any broker rows that leave nothing outstanding: the broker has gained the cancelled order and
      nothing else; so has the order table; every position is what it was (a spread entry lands in IDLE, and
      a pair's first entry leaves a flat IDLE row); every cycle is what it was; and the tick's counters show
      one cancel where the cancel handler ran, one heal for a diagonal's short, and nothing else. */
  lemma PlaceCancelRestores(cfg: Config, b: BrokerState, d: Db, o: Order, strategy: string, feed: Feed, ks: seq<string>,
                            cs: seq<Contract>, cursor: Option<int>, symbols: seq<string>, now: int)
    requires NewOrder(b, d, o) && o.strategy == Some(strategy)
    requires RestsIn(cfg, o, strategy, PairRow(d, o.symbol, strategy).state)
    requires FamilyOf(cfg, o, strategy).Diagonal? ==> OptionTypeOf(o) == Some(Call)
    requires InOrder(cfg, b, d, Reports(feed, b, ks, cs), symbols, now)
    ensures var (b1, d1) := PlaceOrder(cfg, b, d, o, strategy);
            var b2 := Cancel(b1, |b.orders|);
            var t := ReconcileOnce(cfg, b2, d1, cursor, Reports(feed, b2, ks, cs), symbols, now);
            var p, cancelled := PairRow(d, o.symbol, strategy), Stored(b, o).(status := Cancelled);
            && b2 == b.(orders := b.orders + [cancelled])
            && t.db.orders == d.orders + [cancelled]
            && t.db.positions == WithRow(d, o.symbol, strategy, p.(state := Landing(o, p.state)))
            && t.db.cycles == d.cycles
            && t.sum == ZeroSummary.(cancellations := if Undone(cfg, o, strategy) then 1 else 0,
                                     heals := if Healed(cfg, o, strategy) then 1 else 0)
  {
    hide PlaceOrder, ProcessOrders, OnCancel, DiffOne, HasInflight, FindClient, FindBrokerClient, FindPosition,
         LatestCallOrder, AtRest, AuditSilent, ShapeOf, KnownSymbol, Reports, Absorbed, Since, OrdersSince, RestsIn,
         TargetState, Healed, Undone, Landing, ReconcileRows, Audit;
    var rows := Reports(feed, b, ks, cs);
    var p, k := PairRow(d, o.symbol, strategy), RowIndex(d, o.symbol, strategy);
    var stored, cancelled := Stored(b, o), Stored(b, o).(status := Cancelled);
    PairPlaced(cfg, b, d, o, strategy);
    var (b1, d1) := PlaceOrder(cfg, b, d, o, strategy);
    var b2 := Cancel(b1, |b.orders|);
    assert b2.orders == b.orders + [cancelled];
    SameReports(feed, b, b2.orders, ks, cs);
    StreamIsCancel(cfg, b, d, d1, stored, cursor, now);
    var views := OrdersSince(b2.orders, Since(d1.orders, cursor));
    var t0 := Tick(SetOrder(d1, |d.orders|, cancelled), ZeroSummary);
    assert t0.db.orders == d.orders + [cancelled];
    RestsLands(cfg, o, strategy, p.state);
    var held := FindPosition(d.positions, o.symbol, Some(strategy)).Some?;
    StoredSame(cfg, b, o, strategy, p.state, held);
    CancelledRow(cfg, t0, k, stored, strategy, p, held, now);
    var t1 := OnCancel(t0, stored, now);
    TripTurn(cfg, d, t1, o, strategy, cancelled, rows, now);
    var t2 := DiffOne(t1, k, t1.db.positions[k], ShapeOf(rows, o.symbol), now);
    TripRest(cfg, d, t1, o, strategy, cancelled, rows);
    assert ProcessOrders(cfg, Tick(d1, ZeroSummary), views, now) == t1;
    TickIsTurn(cfg, d1, views, k, rows, symbols, now);
    LandedQuiet(cfg, d, t2.db, o.symbol, strategy, p.(state := Landing(o, p.state)), rows, symbols, now);
    AuditQuiet(cfg, t2, rows, symbols, now);
  }

  /** A cancel or rejection with no partial fill never moves an operator-owned position, nor adds or
      removes one; at most it takes one position from the pending state that its order put it in. */
  lemma CancelSpares(cfg: Config, t: Tick, v: Order, j: nat, m: nat, now: int)
    requires (v.clientId.Some? || v.brokerId.Some?) && Locate(t.db.orders, v) == Some(j) && j < |t.db.orders|
    requires v.status.Cancelled? || v.status.Rejected?
    requires !ObservedPartial(t.db.orders[j], v)
    requires m < |t.db.positions|
    ensures var t', p := ProcessOrder(cfg, t, v, now), t.db.positions[m];
            && |t'.db.positions| == |t.db.positions| && t'.db.cycles == t.db.cycles
            && (OperatorOwned(p.state) ==> t'.db.positions[m] == p)
            && (t'.db.positions[m] != p ==>
                  && Working(t.db.orders[j].status)
                  && (p.state.SpreadPending? || p.state.CspPending? || p.state.CcPending? || p.state.SwingPending?
                      || p.state.PmccLongPending? || p.state.PmccClosing?)
                  && t'.db.positions[m] == p.(state := t'.db.positions[m].state)
                  && FindPosition(t.db.positions, t.db.orders[j].symbol, t.db.orders[j].strategy) == Some(m))
  {
    hide Locate, FindPosition;
  }
}
