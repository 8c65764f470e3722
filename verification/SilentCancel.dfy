/** The router's stale replacement against the paper broker, whose cancel returns silently on an order that
    is no longer working: what becomes of the fill it then overwrites. */
module SilentCancel {
  import opened Models
  import opened PaperBrokers
  import opened Repos
  import opened Router
  import opened Reconciler
  import opened LedgerTables
  import opened OrderStream

  /** _replace_stale_pending, replace branch, with that cancel: the row is marked CANCELLED in any case. */
  function SilentCancelStale(b: BrokerState, d: Db, j: nat): (BrokerState, Db)
    requires j < |d.orders|
  {
    var b' := if d.orders[j].brokerId.Some? then Cancel(b, d.orders[j].brokerId.value) else b;
    (b', SetOrder(d, j, d.orders[j].(status := Cancelled)))
  }

  /** The row then tells the truth exactly if the order had not filled or been rejected. */
  lemma SilentCancelExact(b: BrokerState, d: Db, j: nat)
    requires j < |d.orders| && d.orders[j].brokerId.Some? && d.orders[j].brokerId.value < |b.orders|
    ensures var i := d.orders[j].brokerId.value;
            var (b', d') := SilentCancelStale(b, d, j);
            d'.orders[j].status == b'.orders[i].status <==> !b.orders[i].status.Filled? && !b.orders[i].status.Rejected?
  {
  }

  const SampleClose := Order("SPY", Some("monthly_wheel"), BuyToClose, Some(Contract("SPY", 0, Put, 50.0)), [], 1,
                             Some(0.5), None, Pending, 0, None, Some("c"), Some(0), None, None, false)

  /** A buyback that filled between two ticks: the row reads CANCELLED, the broker FILLED. */
  lemma SilentCancelMisleads()
    ensures var b := BrokerState(0.0, map[], map[],
                                 [SampleClose.(status := Filled, fillPrice := Some(0.5), filledAt := Some(1))]);
            var (b', d') := SilentCancelStale(b, Db([SampleClose], [], [], []), 0);
            d'.orders[0].status.Cancelled? && b'.orders[0].status.Filled? && b' == b
  {
  }

  // ---- A settled row of a closing order ----

  /** A row that is not working, carries no cycle and did not buy to open: the closing orders that a
      re-proposal can meet (execution/router.py:341-343). */
  predicate LostRow(rows: seq<Order>, j: nat) {
    j < |rows| && !Working(rows[j].status) && rows[j].cycle.None? && !rows[j].orderType.BuyToOpen?
  }

  /** The view names the order, by either id. */
  predicate Names(v: Order, r: Order) {
    (v.clientId.Some? && v.clientId == r.clientId) || (v.brokerId.Some? && v.brokerId == r.brokerId)
  }

  /** Views of the order show it settled, under its broker id. */
  predicate ShowsSettled(v: Order, r: Order) {
    Names(v, r) ==> !Working(v.status) && v.brokerId == r.brokerId
  }

  /** Row j is no fill of this step, and is as settled and untagged after it as before. */
  predicate Spared(t: Tick, t': Tick, j: nat) {
    && LostRow(t'.db.orders, j) && |t.db.orders| <= |t'.db.orders|
    && j < |t.db.orders| && SameIds(t.db.orders[j], t'.db.orders[j])
    && (j in t'.sum.fills ==> j in t.sum.fills)
  }

  predicate SameIds(r: Order, r': Order) {
    r'.clientId == r.clientId && r'.brokerId == r.brokerId
  }

  lemma LocatesNamed(rows: seq<Order>, v: Order, j: nat)
    requires Locate(rows, v) == Some(j)
    ensures j < |rows| && Names(v, rows[j])
  {
    if v.clientId.Some? { FindClientSound(rows, v.clientId.value); }
    if v.brokerId.Some? { FindBrokerSound(rows, v.brokerId.value); }
  }

  // ---- Handlers list no fill but their own ----

  lemma EndFills(t: Tick, at: Option<nat>, j: nat, o: Order, state: PositionState, outcome: CycleOutcome, now: int)
    ensures EndOnFill(t, at, j, o, state, outcome, now).sum.fills == t.sum.fills
  {
    hide CyclePnl;
  }

  lemma FlagFills(t: Tick, symbol: string, strategy: Option<string>, now: int)
    ensures FlagManual(t, symbol, strategy, now).sum.fills == t.sum.fills
  {
    hide FindPosition;
  }

  lemma WheelFills(t: Tick, at: Option<nat>, j: nat, o: Order, price: real, now: int)
    ensures OnWheelFill(t, at, j, o, price, now).sum.fills == t.sum.fills
  {
    hide CyclePnl, Notional, EndOnFill, FlagManual;
    EndFills(t, at, j, o, SpreadClosed, SpreadCloseOutcome(o.strategy), now);
    FlagFills(t, o.symbol, o.strategy, now);
  }

  lemma LongFills(t: Tick, at: Option<nat>, j: nat, o: Order, price: real, now: int)
    ensures OnPmccFill(t, at, j, o, price, now).sum.fills == t.sum.fills
    ensures OnSwingFill(t, at, j, o, price, now).sum.fills == t.sum.fills
  {
    hide Notional, EndOnFill, FlagManual;
    EndFills(t, at, j, o, Idle, if o.rollTrigger then PmccLongRolled else PmccFullClosed, now);
    EndFills(t, at, j, o, Idle, SwingClosed, now);
    FlagFills(t, o.symbol, o.strategy, now);
  }

  lemma FillListsOne(cfg: Config, t: Tick, j: nat, o: Order, v: Order, now: int)
    ensures OnFill(cfg, t, j, o, v, now).sum.fills == t.sum.fills + [j]
  {
    hide OnWheelFill, OnPmccFill, OnSwingFill, FindPosition;
    var t0 := t.(sum := t.sum.(fills := t.sum.fills + [j]));
    var at := FindPosition(t.db.positions, o.symbol, o.strategy);
    var price := PriceOf(o, v);
    WheelFills(t0, at, j, o, price, now);
    LongFills(t0, at, j, o, price, now);
  }

  lemma DispatchFills(cfg: Config, t: Tick, j: nat, o: Order, v: Order, now: int)
    ensures Dispatch(cfg, t, j, o, v, now).sum.fills == if Working(o.status) && v.status.Filled? then t.sum.fills + [j]
            else t.sum.fills
  {
    hide OnFill, FlagManual, ObservedPartial, FindPosition, RestoredState;
    FillListsOne(cfg, t, j, o, v, now);
    FlagFills(t, o.symbol, o.strategy, now);
  }

  // ---- A view ----

  lemma ViewSpares(cfg: Config, t: Tick, v: Order, j: nat, now: int)
    requires LostRow(t.db.orders, j) && ShowsSettled(v, t.db.orders[j])
    ensures Spared(t, ProcessOrder(cfg, t, v, now), j)
  {
    hide Locate, Dispatch, FlagManual, Names;
    if v.clientId.Some? || v.brokerId.Some? {
      var at := Locate(t.db.orders, v);
      if at.Some? && at.value < |t.db.orders| {
        var i, o := at.value, t.db.orders[at.value];
        LocatesNamed(t.db.orders, v, i);
        var t1 := t.(db := SetOrder(t.db, i, Refresh(o, v)));
        DispatchTags(cfg, t1, i, o, v, now);
        DispatchFills(cfg, t1, i, o, v, now);
        if i == j { SettledDispatch(cfg, t1, i, o, v, now); }
      } else {
        FlagFills(t, v.symbol, None, now);
        FlagTags(t, v.symbol, None, now);
      }
    }
  }

  lemma SettledDispatch(cfg: Config, t: Tick, j: nat, o: Order, v: Order, now: int)
    requires !Working(o.status)
    ensures Dispatch(cfg, t, j, o, v, now) == t
  {
  }

  lemma {:induction false} ViewsSpare(cfg: Config, t: Tick, views: seq<Order>, j: nat, now: int)
    requires LostRow(t.db.orders, j) && forall v :: v in views ==> ShowsSettled(v, t.db.orders[j])
    ensures Spared(t, ProcessOrders(cfg, t, views, now), j)
  {
    hide ProcessOrder;
    if |views| > 0 {
      var n := |views| - 1;
      assert views[n] in views && forall v :: v in views[..n] ==> v in views;
      ViewsSpare(cfg, t, views[..n], j, now);
      ViewSpares(cfg, ProcessOrders(cfg, t, views[..n], now), views[n], j, now);
    }
  }

  // ---- The sweep and the audit ----

  lemma {:induction false} LatestIsOfType(rows: seq<Order>, x: string, strategy: string, ty: OrderType)
    ensures var j := LatestCallOrder(rows, x, strategy, ty); j.Some? ==>
            j.value < |rows|
            && rows[j.value].orderType == ty
  {
    if |rows| > 0 { LatestIsOfType(rows[..|rows| - 1], x, strategy, ty); }
  }

  /** No fill, and row j as it was. */
  predicate RowKept(t: Tick, t': Tick, j: nat) {
    j < |t.db.orders| <= |t'.db.orders| && t'.db.orders[j] == t.db.orders[j] && t'.sum.fills == t.sum.fills
  }

  lemma FlagKeepsRow(t: Tick, symbol: string, strategy: Option<string>, j: nat, now: int)
    requires j < |t.db.orders|
    ensures RowKept(t, FlagManual(t, symbol, strategy, now), j)
  {
    hide FlagManual;
    FlagFills(t, symbol, strategy, now);
    FlagTags(t, symbol, strategy, now);
  }

  lemma GoneKeepsRow(t: Tick, k: nat, p: Position, outcome: CycleOutcome, j: nat, now: int)
    requires j < |t.db.orders| && k < |t.db.positions|
    ensures RowKept(t, OnAssignment(t, k, p, now), j)
    ensures RowKept(t, OnExpiry(t, k, p, outcome, now), j)
    ensures RowKept(t, OnCcExpiry(t, k, p, now), j)
  {
    hide CspQuantity, CyclePnl;
  }

  lemma CalledKeepsRow(t: Tick, k: nat, p: Position, j: nat, now: int)
    requires j < |t.db.orders| && k < |t.db.positions|
    ensures RowKept(t, OnCalledAway(t, k, p, now), j)
  {
    hide CspQuantity, CcStrike, CyclePnl, FlagManual;
    FlagKeepsRow(t, p.symbol, Some(p.strategy), j, now);
  }

  lemma HealKeepsRow(t: Tick, k: nat, p: Position, state: PositionState, cycle: Option<nat>, j: nat, now: int)
    requires j < |t.db.orders|
    ensures RowKept(t, Heal(t, k, p, state, cycle, now), j)
  {
  }

  /** The heal of a diagonal's entry tags its latest bought call if that is filled, and no other row. */
  lemma HealPmccTags(t: Tick, k: nat, p: Position, j: nat, now: int)
    requires j < |t.db.orders|
    ensures var t' := HealPmcc(t, k, p, now);
            if p.state.PmccLongPending? && LatestCallOrder(t.db.orders, p.symbol, p.strategy, BuyToOpen) == Some(j)
               && t.db.orders[j].status.Filled?
            then j < |t'.db.orders| && t'.db.orders[j] == t.db.orders[j].(cycle := Some(|t.db.cycles|))
                 && |t'.db.cycles| == |t.db.cycles| + 1 && t'.sum.fills == t.sum.fills
            else RowKept(t, t', j)
  {
    hide LatestCallOrder, Notional;
  }

  /** The sweep books a row: it is the filled latest bought call of a diagonal's entry with nothing in flight. */
  predicate SweepBooks(rows: seq<Order>, p: Position, j: nat) {
    && p.state.PmccLongPending? && !HasInflight(rows, p.symbol)
    && LatestCallOrder(rows, p.symbol, p.strategy, BuyToOpen) == Some(j)
    && j < |rows| && rows[j].status.Filled?
  }

  /** A position's turn tags such a row, and leaves every other as it was. */
  lemma TurnTags(t: Tick, k: nat, p: Position, shape: Shape, j: nat, now: int)
    requires j < |t.db.orders| && k < |t.db.positions|
    ensures var t' := DiffOne(t, k, p, shape, now);
            if SweepBooks(t.db.orders, p, j)
            then t' == HealPmcc(t, k, p, now) && j < |t'.db.orders| && t'.db.orders[j].cycle == Some(|t.db.cycles|)
            else RowKept(t, t', j)
  {
    hide FlagManual, Heal, HealPmcc, OnAssignment, OnExpiry, OnCcExpiry, OnCalledAway, HasInflight,
         SharesClaimedByOther, LatestCallOrder;
    FlagKeepsRow(t, p.symbol, Some(p.strategy), j, now);
    GoneKeepsRow(t, k, p, if p.state.CspOpen? then CspExpired else SpreadExpiredOutcome(p.strategy), j, now);
    CalledKeepsRow(t, k, p, j, now);
    HealPmccTags(t, k, p, j, now);
    HealKeepsRow(t, k, p, Idle, None, j, now);
    HealKeepsRow(t, k, p, SharesHeld, None, j, now);
    HealKeepsRow(t, k, p, CspOpen, p.cycle, j, now);
    HealKeepsRow(t, k, p, CcOpen, p.cycle, j, now);
    HealKeepsRow(t, k, p, SpreadOpen, p.cycle, j, now);
  }

  lemma FlagSpares(t: Tick, symbol: string, strategy: Option<string>, j: nat, now: int)
    requires LostRow(t.db.orders, j)
    ensures Spared(t, FlagManual(t, symbol, strategy, now), j)
  {
    hide FlagManual;
    FlagKeepsRow(t, symbol, strategy, j, now);
  }

  lemma TurnSpares(t: Tick, k: nat, p: Position, shape: Shape, j: nat, now: int)
    requires LostRow(t.db.orders, j) && k < |t.db.positions|
    ensures Spared(t, DiffOne(t, k, p, shape, now), j)
  {
    hide DiffOne, HasInflight, LatestCallOrder;
    LatestIsOfType(t.db.orders, p.symbol, p.strategy, BuyToOpen);
    TurnTags(t, k, p, shape, j, now);
  }

  lemma {:induction false} SweepSpares(t: Tick, locals: seq<Position>, n: nat, rows: seq<BrokerRow>, j: nat, now: int)
    requires LostRow(t.db.orders, j) && n <= |locals| <= |t.db.positions|
    ensures Spared(t, DiffAll(t, locals, n, rows, now), j)
  {
    hide DiffOne, ShapeOf;
    if n > 0 {
      SweepSpares(t, locals, n - 1, rows, j, now);
      var before := DiffAll(t, locals, n - 1, rows, now);
      TurnSpares(before, n - 1, locals[n - 1], ShapeOf(rows, locals[n - 1].symbol), j, now);
    }
  }

  lemma {:induction false} UnknownSpares(t: Tick, locals: seq<Position>, rows: seq<BrokerRow>, n: nat, j: nat, now: int)
    requires LostRow(t.db.orders, j) && n <= |rows|
    ensures Spared(t, FlagUnknown(t, locals, rows, n, now), j)
  {
    hide FlagManual, KnownSymbol, Present;
    if n > 0 {
      UnknownSpares(t, locals, rows, n - 1, j, now);
      FlagSpares(FlagUnknown(t, locals, rows, n - 1, now), rows[n - 1].symbol, None, j, now);
    }
  }

  lemma ParitySpares(t: Tick, symbol: string, strategy: Option<string>, j: nat, now: int)
    requires LostRow(t.db.orders, j)
    ensures Spared(t, ParityFlag(t, symbol, strategy, now), j)
  {
    hide FlagManual;
    FlagSpares(t.(sum := t.sum.(parityFlags := t.sum.parityFlags + 1)), symbol, strategy, j, now);
  }

  lemma {:induction false} AuditCyclesSpares(cfg: Config, t: Tick, cycles: seq<Cycle>, n: nat, j: nat, now: int)
    requires LostRow(t.db.orders, j) && n <= |cycles|
    ensures Spared(t, AuditCycles(cfg, t, cycles, n, now), j)
  {
    hide ParityFlag, Orphaned;
    if n > 0 {
      AuditCyclesSpares(cfg, t, cycles, n - 1, j, now);
      ParitySpares(AuditCycles(cfg, t, cycles, n - 1, now), cycles[n - 1].symbol, cycles[n - 1].strategy, j, now);
    }
  }

  lemma {:induction false} AuditRowsSpares(t: Tick, ps: seq<Position>, n: nat, j: nat, now: int)
    requires LostRow(t.db.orders, j) && n <= |ps|
    ensures Spared(t, AuditRows(t, ps, n, now), j)
  {
    hide ParityFlag;
    if n > 0 {
      AuditRowsSpares(t, ps, n - 1, j, now);
      ParitySpares(AuditRows(t, ps, n - 1, now), ps[n - 1].symbol, Some(ps[n - 1].strategy), j, now);
    }
  }

  lemma {:induction false} AuditTotalsSpares(t: Tick, ps: seq<Position>, rows: seq<BrokerRow>, symbols: seq<string>,
                                             j: nat, now: int)
    requires LostRow(t.db.orders, j)
    ensures Spared(t, AuditTotals(t, ps, rows, symbols, now), j)
  {
    hide ParityFlag, KnownSymbol, LocalShares, StockIn;
    if |symbols| > 0 {
      var n := |symbols| - 1;
      AuditTotalsSpares(t, ps, rows, symbols[..n], j, now);
      ParitySpares(AuditTotals(t, ps, rows, symbols[..n], now), symbols[n], None, j, now);
    }
  }

  /** One whole tick. */
  lemma TickSpares(cfg: Config, d: Db, views: seq<Order>, rows: seq<BrokerRow>, symbols: seq<string>, j: nat, now: int)
    requires LostRow(d.orders, j) && forall v :: v in views ==> ShowsSettled(v, d.orders[j])
    ensures var t := ReconcileRows(cfg, d, views, rows, symbols, now);
            LostRow(t.db.orders, j) && SameIds(d.orders[j], t.db.orders[j]) && j !in t.sum.fills
  {
    hide ProcessOrders, DiffAll, FlagUnknown, AuditCycles, AuditRows, AuditTotals, LostRow, ShowsSettled;
    var t0 := Tick(d, ZeroSummary);
    ViewsSpare(cfg, t0, views, j, now);
    var t1 := ProcessOrders(cfg, t0, views, now);
    SweepSpares(t1, t1.db.positions, |t1.db.positions|, rows, j, now);
    var t2 := DiffAll(t1, t1.db.positions, |t1.db.positions|, rows, now);
    UnknownSpares(t2, t1.db.positions, rows, |rows|, j, now);
    var t3 := FlagUnknown(t2, t1.db.positions, rows, |rows|, now);
    AuditCyclesSpares(cfg, t3, t3.db.cycles, |t3.db.cycles|, j, now);
    var t4 := AuditCycles(cfg, t3, t3.db.cycles, |t3.db.cycles|, now);
    AuditRowsSpares(t4, t4.db.positions, |t4.db.positions|, j, now);
    AuditTotalsSpares(AuditRows(t4, t4.db.positions, |t4.db.positions|, now), t4.db.positions, rows, symbols, j, now);
  }

  // ---- Every later tick ----

  /** A tick and the tables it starts from. */
  datatype Later = Later(start: Db, views: seq<Order>, rows: seq<BrokerRow>, symbols: seq<string>, now: int)

  function Ticked(cfg: Config, l: Later): Tick {
    ReconcileRows(cfg, l.start, l.views, l.rows, l.symbols, l.now)
  }

  /** Ticks after the tables `d`: whatever else is written between them, row j is as the last one left it, and
      each shows the order of row j settled. */
  predicate Follow(cfg: Config, d: Db, j: nat, later: seq<Later>) {
    |later| == 0
    || (Follow(cfg, d, j, later[..|later| - 1])
        && var l, before := later[|later| - 1], LastTables(cfg, d, later[..|later| - 1]);
           && j < |before.orders| && j < |l.start.orders| && l.start.orders[j] == before.orders[j]
           && forall v :: v in l.views ==> ShowsSettled(v, l.start.orders[j]))
  }

  function LastTables(cfg: Config, d: Db, later: seq<Later>): Db {
    if |later| == 0 then d else Ticked(cfg, later[|later| - 1]).db
  }

  lemma {:induction false} NeverBooked(cfg: Config, d: Db, j: nat, later: seq<Later>)
    requires LostRow(d.orders, j) && Follow(cfg, d, j, later)
    ensures LostRow(LastTables(cfg, d, later).orders, j)
    ensures forall n :: 0 <= n < |later| ==>
            j !in Ticked(cfg, later[n]).sum.fills
            && LostRow(Ticked(cfg, later[n]).db.orders, j)
  {
    hide LostRow, ShowsSettled, ReconcileRows;
    if |later| > 0 {
      var n := |later| - 1;
      NeverBooked(cfg, d, j, later[..n]);
      var l := later[n];
      SameLost(LastTables(cfg, d, later[..n]).orders, l.start.orders, j);
      TickSpares(cfg, l.start, l.views, l.rows, l.symbols, j, l.now);
      forall m | 0 <= m < n
        ensures j !in Ticked(cfg, later[m]).sum.fills && LostRow(Ticked(cfg, later[m]).db.orders, j)
      {
        assert later[..n][m] == later[m];
      }
    }
  }

  lemma SameLost(rows: seq<Order>, more: seq<Order>, j: nat)
    requires LostRow(rows, j) && j < |more| && more[j] == rows[j]
    ensures LostRow(more, j)
  {
  }

  /** A closing order that had filled before the silent cancel: over any number of later ticks, whatever else
      they see and whatever is written between them, no tick hands its row to the fill handler and none tags it,
      so its cash is in no cycle. */
  lemma SilentCancelLosesFill(cfg: Config, b: BrokerState, d: Db, j: nat, later: seq<Later>)
    requires j < |d.orders| && d.orders[j].cycle.None?
    requires var r := d.orders[j]; r.orderType.BuyToClose? || r.orderType.SellToClose? || r.orderType.MultiLegClose?
    requires Follow(cfg, SilentCancelStale(b, d, j).1, j, later)
    ensures forall n :: 0 <= n < |later| ==>
              var t := Ticked(cfg, later[n]);
              j !in t.sum.fills && j < |t.db.orders| && t.db.orders[j].cycle.None?
  {
    hide ReconcileRows, Follow;
    var d' := SilentCancelStale(b, d, j).1;
    NeverBooked(cfg, d', j, later);
    forall n | 0 <= n < |later|
      ensures j < |Ticked(cfg, later[n]).db.orders| && Ticked(cfg, later[n]).db.orders[j].cycle.None?
    {
      assert LostRow(Ticked(cfg, later[n]).db.orders, j);
    }
  }

  // ---- The fill that does come back ----

  /** A position's turn tags an untagged row exactly if it is such a row. */
  lemma SweepBooksExactly(t: Tick, k: nat, p: Position, shape: Shape, j: nat, now: int)
    requires k < |t.db.positions| && j < |t.db.orders| && t.db.orders[j].cycle.None?
    ensures j < |DiffOne(t, k, p, shape, now).db.orders|
    ensures DiffOne(t, k, p, shape, now).db.orders[j].cycle.Some? <==> SweepBooks(t.db.orders, p, j)
  {
    hide DiffOne, SweepBooks, HealPmcc;
    TurnTags(t, k, p, shape, j, now);
    HealPmccTags(t, k, p, j, now);
  }

  lemma {:induction false} SameLatest(a: seq<Order>, b: seq<Order>, x: string, strategy: string, ty: OrderType)
    requires |a| == |b|
    requires forall i :: 0 <= i < |a| ==>
               b[i] == a[i].(brokerId := b[i].brokerId, status := b[i].status, fillPrice := b[i].fillPrice,
                             filledAt := b[i].filledAt)
    ensures LatestCallOrder(a, x, strategy, ty) == LatestCallOrder(b, x, strategy, ty)
  {
    if |a| > 0 { SameLatest(a[..|a| - 1], b[..|b| - 1], x, strategy, ty); }
  }

  /** An entry that the operator's or the broker's cancel left CANCELLED while it had in fact filled: the next
      view refreshes its row, and the position's turn books it after all, opening the cycle on that order. */
  lemma EntryHeals(cfg: Config, t: Tick, k: nat, p: Position, v: Order, j: nat, shape: Shape, now: int)
    requires k < |t.db.positions| && t.db.positions[k] == p && p.state.PmccLongPending?
    requires (v.clientId.Some? || v.brokerId.Some?) && Locate(t.db.orders, v) == Some(j) && j < |t.db.orders|
    requires t.db.orders[j].status.Cancelled? && t.db.orders[j].cycle.None? && v.status.Filled?
    requires !HasInflight(t.db.orders, p.symbol)
    requires LatestCallOrder(t.db.orders, p.symbol, p.strategy, BuyToOpen) == Some(j)
    ensures var t1 := ProcessOrder(cfg, t, v, now);
            && k < |t1.db.positions| && t1.db.positions[k] == p
            && var t2 := DiffOne(t1, k, p, shape, now);
               && j < |t2.db.orders| && t2.db.orders[j].cycle == Some(|t.db.cycles|)
               && |t2.db.cycles| == |t.db.cycles| + 1
               && k < |t2.db.positions| && t2.db.positions[k] == p.(state := PmccLongOpen, cycle := Some(|t.db.cycles|))
               && t2.sum == t.sum.(cyclesOpened := t.sum.cyclesOpened + 1, heals := t.sum.heals + 1)
  {
    hide Locate, OnFill, OnCancel, FlagManual, HasInflight, LatestCallOrder, DiffOne, Notional;
    var o := t.db.orders[j];
    var t1 := t.(db := SetOrder(t.db, j, Refresh(o, v)));
    assert ProcessOrder(cfg, t, v, now) == t1;
    SameLatest(t.db.orders, t1.db.orders, p.symbol, p.strategy, BuyToOpen);
    StillIdle(t.db.orders, j, Refresh(o, v), p.symbol);
    TurnTags(t1, k, p, shape, j, now);
    HealPmccTags(t1, k, p, j, now);
  }

  lemma StillIdle(rows: seq<Order>, j: nat, r: Order, x: string)
    requires !HasInflight(rows, x) && j < |rows| && !Working(r.status)
    ensures !HasInflight(rows[j := r], x)
  {
  }
}
