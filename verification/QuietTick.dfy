/** The parts of a tick that find nothing to do: a row at rest keeps its state, known symbols raise no flag,
    and books in order pass the audit. */
module QuietTick {
  import opened Models
  import opened PaperBrokers
  import opened Repos
  import opened Reconciler

  // ---- The sweep ----

  /** The broker still shows what the row's state stands for; a pending row's order is in flight. */
  predicate AtRest(orders: seq<Order>, p: Position, shape: Shape) {
    match p.state
    case CspOpen => shape.shortPut
    case CcOpen => shape.shortCall
    case CspPending | CcPending | SpreadPending | PmccLongPending | PmccShortPending => HasInflight(orders, p.symbol)
    case SpreadOpen =>
      if p.strategy == "calendar" then shape.shortCall || shape.shares else shape.present && !shape.shares
    case PmccLongOpen => !shape.shares
    case PmccBothOpen => shape.shortCall && !shape.shares
    case _ => true
  }

  /** Every row shows what the broker reports. */
  predicate RowsRest(d: Db, rows: seq<BrokerRow>) {
    forall m :: 0 <= m < |d.positions| ==> AtRest(d.orders, d.positions[m], ShapeOf(rows, d.positions[m].symbol))
  }

  lemma RestStays(t: Tick, k: nat, p: Position, shape: Shape, now: int)
    requires k < |t.db.positions| && AtRest(t.db.orders, p, shape)
    ensures DiffOne(t, k, p, shape, now) == t
  {
    hide HasInflight;
  }

  /** With every other row at rest, the sweep is row k's own turn. */
  lemma {:induction false} SweepIsTurn(t: Tick, locals: seq<Position>, k: nat, n: nat, rows: seq<BrokerRow>, now: int)
    requires k < |locals| && n <= |locals| <= |t.db.positions|
    requires forall m :: 0 <= m < |locals| && m != k ==> AtRest(t.db.orders, locals[m], ShapeOf(rows, locals[m].symbol))
    requires DiffOne(t, k, locals[k], ShapeOf(rows, locals[k].symbol), now).db.orders == t.db.orders
    ensures DiffAll(t, locals, n, rows, now)
         == if n <= k then t else DiffOne(t, k, locals[k], ShapeOf(rows, locals[k].symbol), now)
  {
    hide DiffOne, AtRest, ShapeOf;
    if n > 0 {
      SweepIsTurn(t, locals, k, n - 1, rows, now);
      if n - 1 != k {
        RestStays(DiffAll(t, locals, n - 1, rows, now), n - 1, locals[n - 1], ShapeOf(rows, locals[n - 1].symbol), now);
      }
    }
  }

  lemma {:induction false} SweepStays(t: Tick, locals: seq<Position>, n: nat, rows: seq<BrokerRow>, now: int)
    requires n <= |locals| && locals == t.db.positions && RowsRest(t.db, rows)
    ensures DiffAll(t, locals, n, rows, now) == t
  {
    hide DiffOne, AtRest, ShapeOf;
    if n > 0 {
      SweepStays(t, locals, n - 1, rows, now);
      RestStays(t, n - 1, locals[n - 1], ShapeOf(rows, locals[n - 1].symbol), now);
    }
  }

  // ---- Broker symbols without a row ----

  lemma {:induction false} NoUnknown(t: Tick, locals: seq<Position>, rows: seq<BrokerRow>, n: nat, now: int)
    requires n <= |rows| && forall i :: 0 <= i < |rows| ==> KnownSymbol(locals, rows[i].symbol)
    ensures FlagUnknown(t, locals, rows, n, now) == t
  {
    if n > 0 { NoUnknown(t, locals, rows, n - 1, now); }
  }

  // ---- The audit ----

  /** Every open cycle old enough has its position, shares sit in rows that hold shares, and the totals are
      the broker's. */
  predicate AuditSilent(cfg: Config, d: Db, rows: seq<BrokerRow>, symbols: seq<string>, now: int) {
    cfg.parityEnabled ==>
    && (forall cy :: 0 <= cy < |d.cycles| ==> !Orphaned(cfg, d, d.cycles[cy], now))
    && (forall m :: 0 <= m < |d.positions| && d.positions[m].shares != 0
          ==> HoldsShares(d.positions[m].state) || OperatorOwned(d.positions[m].state))
    && (forall x :: x in symbols && KnownSymbol(d.positions, x) ==> LocalShares(d.positions, x) == StockIn(rows, x))
  }

  lemma {:induction false} CyclesPass(cfg: Config, t: Tick, n: nat, now: int)
    requires n <= |t.db.cycles| && forall cy :: 0 <= cy < n ==> !Orphaned(cfg, t.db, t.db.cycles[cy], now)
    ensures AuditCycles(cfg, t, t.db.cycles, n, now) == t
  {
    hide Orphaned;
    if n > 0 { CyclesPass(cfg, t, n - 1, now); }
  }

  lemma {:induction false} RowsPass(t: Tick, ps: seq<Position>, n: nat, now: int)
    requires n <= |ps|
    requires forall m :: 0 <= m < n && ps[m].shares != 0 ==> HoldsShares(ps[m].state) || OperatorOwned(ps[m].state)
    ensures AuditRows(t, ps, n, now) == t
  {
    if n > 0 { RowsPass(t, ps, n - 1, now); }
  }

  lemma {:induction false} TotalsPass(t: Tick, ps: seq<Position>, rows: seq<BrokerRow>, symbols: seq<string>, now: int)
    requires forall x :: x in symbols && KnownSymbol(ps, x) ==> LocalShares(ps, x) == StockIn(rows, x)
    ensures AuditTotals(t, ps, rows, symbols, now) == t
  {
    hide KnownSymbol;
    if |symbols| > 0 {
      var n := |symbols| - 1;
      assert symbols[n] in symbols && forall x :: x in symbols[..n] ==> x in symbols;
      TotalsPass(t, ps, rows, symbols[..n], now);
    }
  }

  lemma AuditQuiet(cfg: Config, t: Tick, rows: seq<BrokerRow>, symbols: seq<string>, now: int)
    requires AuditSilent(cfg, t.db, rows, symbols, now)
    ensures Audit(cfg, t, rows, symbols, now) == t
  {
    hide Orphaned, KnownSymbol;
    if cfg.parityEnabled {
      CyclesPass(cfg, t, |t.db.cycles|, now);
      RowsPass(t, t.db.positions, |t.db.positions|, now);
      TotalsPass(t, t.db.positions, rows, symbols, now);
    }
  }

  /** With every other row at rest and every broker symbol known, a whole tick is the order stream, row k's
      turn and the audit. */
  lemma TickIsTurn(cfg: Config, d: Db, views: seq<Order>, k: nat, rows: seq<BrokerRow>, symbols: seq<string>, now: int)
    requires var t1 := ProcessOrders(cfg, Tick(d, ZeroSummary), views, now);
             && k < |t1.db.positions|
             && (forall m :: 0 <= m < |t1.db.positions| && m != k
                   ==> AtRest(t1.db.orders, t1.db.positions[m], ShapeOf(rows, t1.db.positions[m].symbol)))
             && DiffOne(t1, k, t1.db.positions[k], ShapeOf(rows, t1.db.positions[k].symbol), now).db.orders
                == t1.db.orders
             && (forall i :: 0 <= i < |rows| ==> KnownSymbol(t1.db.positions, rows[i].symbol))
    ensures var t1 := ProcessOrders(cfg, Tick(d, ZeroSummary), views, now);
            var t2 := DiffOne(t1, k, t1.db.positions[k], ShapeOf(rows, t1.db.positions[k].symbol), now);
            ReconcileRows(cfg, d, views, rows, symbols, now) == Audit(cfg, t2, rows, symbols, now)
  {
    hide ProcessOrders, DiffOne, AtRest, ShapeOf, KnownSymbol, Audit;
    var t1 := ProcessOrders(cfg, Tick(d, ZeroSummary), views, now);
    SweepIsTurn(t1, t1.db.positions, k, |t1.db.positions|, rows, now);
    NoUnknown(DiffAll(t1, t1.db.positions, |t1.db.positions|, rows, now), t1.db.positions, rows, |rows|, now);
  }

  /** With every row at rest, a tick is its order stream and the audit. */
  lemma TickIsStream(cfg: Config, d: Db, views: seq<Order>, rows: seq<BrokerRow>, symbols: seq<string>, now: int)
    requires var t1 := ProcessOrders(cfg, Tick(d, ZeroSummary), views, now);
             RowsRest(t1.db, rows) && (forall i :: 0 <= i < |rows| ==> KnownSymbol(t1.db.positions, rows[i].symbol))
    ensures ReconcileRows(cfg, d, views, rows, symbols, now)
         == Audit(cfg, ProcessOrders(cfg, Tick(d, ZeroSummary), views, now), rows, symbols, now)
  {
    hide ProcessOrders, AtRest, ShapeOf, KnownSymbol, Audit;
    var t1 := ProcessOrders(cfg, Tick(d, ZeroSummary), views, now);
    SweepStays(t1, t1.db.positions, |t1.db.positions|, rows, now);
    NoUnknown(t1, t1.db.positions, rows, |rows|, now);
  }
}
