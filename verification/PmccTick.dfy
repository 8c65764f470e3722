/** Whole ticks over a diagonal: beside books with nothing outstanding, reconcile_once is one look, and the
    look leaves the pair a mirror of the broker's legs. */
module PmccTick {
  import opened Models
  import opened PaperBrokers
  import opened Repos
  import opened Router
  import opened Reconciler
  import opened LedgerTables
  import opened OrderStream
  import opened QuietTick
  import opened RoundTrip
  import opened Pmcc
  import opened PmccSpan

  /** Beside the diagonal nothing is outstanding: the fate of every older broker order is in the tables, every
      other row shows what the broker reports, every other reported symbol has a row, and those books would
      pass the audit. */
  ghost predicate OthersInOrder(cfg: Config, w0: Desk, x: string, rows: seq<BrokerRow>, symbols: seq<string>, at: int) {
    && (forall i :: 0 <= i < |w0.b.orders| ==> Absorbed(w0.d.orders, w0.b.orders[i]))
    && (forall m :: 0 <= m < |w0.d.positions| && Some(m) != FindPosition(w0.d.positions, x, Some(PMCC))
          ==> AtRest(w0.d.orders, w0.d.positions[m], ShapeOf(rows, w0.d.positions[m].symbol)))
    && (forall i :: 0 <= i < |rows| ==> rows[i].symbol == x || KnownSymbol(w0.d.positions, rows[i].symbol))
    && AuditSilent(cfg, w0.d, rows, symbols, at)
  }

  // ---- Older broker orders stand still ----

  lemma WritesOld(cfg: Config, b: BrokerState, d: Db, o: Order, j: nat)
    ensures b.orders <= PlaceOrder(cfg, b, d, o, PMCC).0.orders
    ensures j < |d.orders| ==>
              var b' := CancelStale(b, d, j).0;
              |b'.orders| == |b.orders| && forall i :: 0 <= i < |b.orders| && Some(i) != d.orders[j].brokerId ==>
                b'.orders[i] == b.orders[i]
  {
    hide FindBrokerClient, UpsertPending, PersistOrder;
  }

  lemma MoveOld(cfg: Config, w0: Desk, w: Desk, x: string, k: nat, m: TimedMove)
    requires Tracked(w0, w, x, k, false) && LegalMove(w0, w, x, m) && w0.b.orders <= w.b.orders
    ensures w0.b.orders <= Moved(cfg, w0, w, x, m).b.orders
  {
    hide Tracked, Look1, Enumerates, AlpacaRows, Fill, LegalSubmit, PlaceOrder, CancelStale, IsOpener, PmccShape,
         AllLinked, LegsKnown, Accounts, Framed, Expire, Cancel;
    match m.move {
      case Submit(o) => WritesOld(cfg, w.b, w.d, o, 0);
      case ReplaceBuyback => ReplaceOld(cfg, w0, w, x, k);
      case FillWorking(price) =>
        PlacedBefore(w0, w, x, k);
        FillOrder(w.b, |w.b.orders| - 1, price, m.at);
      case DropWorking => DropOld(w0, w);
      case ShortExpires(c) => ExpireOld(w.b, c);
      case Look(_, _, _) =>
    }
  }

  lemma ExpireOld(b: BrokerState, c: Contract)
    ensures Expire(b, c).orders == b.orders
  {
  }

  lemma DropOld(w0: Desk, w: Desk)
    requires w0.b.orders <= w.b.orders && |w.b.orders| > |w0.b.orders|
    ensures w0.b.orders <= Cancel(w.b, |w.b.orders| - 1).orders
  {
  }

  lemma ReplaceOld(cfg: Config, w0: Desk, w: Desk, x: string, k: nat)
    requires Tracked(w0, w, x, k, false) && w0.b.orders <= w.b.orders && |w.d.orders| > |w0.d.orders|
    requires Working(w.d.orders[|w.d.orders| - 1].status)
    ensures w0.b.orders <= CancelStale(w.b, w.d, |w.d.orders| - 1).0.orders
  {
    hide Tracked, CancelStale, PlaceOrder, AllLinked, LegsKnown, Accounts;
    TrackedParts(w0, w, x, k, false);
    BuybackRow(w0, w, x, k);
    WritesOld(cfg, w.b, w.d, w.d.orders[|w.d.orders| - 1], |w.d.orders| - 1);
  }

  lemma {:induction false} RunOld(cfg: Config, w0: Desk, x: string, moves: seq<TimedMove>, k: nat)
    requires FlatStart(cfg, w0, x) && FindPosition(w0.d.positions, x, Some(PMCC)) == Some(k)
             && LegalMoves(cfg, w0, x, moves)
    ensures w0.b.orders <= AfterMoves(cfg, w0, x, moves).b.orders
    decreases |moves|
  {
    hide Tracked, LegalMove, Moved, FlatStart;
    if |moves| > 0 {
      var n := |moves| - 1;
      RunOld(cfg, w0, x, moves[..n], k);
      RunTracked(cfg, w0, x, moves[..n], k);
      MoveOld(cfg, w0, AfterMoves(cfg, w0, x, moves[..n]), x, k, moves[n]);
    }
  }

  // ---- The order query ----

  /** The run's own orders among the views a tick fetches. */
  function OwnViews(w0: Desk, w: Desk, cursor: Option<int>): seq<Order> {
    if |w0.b.orders| <= |w.b.orders| then OrdersSince(w.b.orders[|w0.b.orders|..], Since(w.d.orders, cursor)) else []
  }

  lemma OwnViewsAreOwn(w0: Desk, w: Desk, cursor: Option<int>)
    ensures forall v :: v in OwnViews(w0, w, cursor) ==> exists i ::
            |w0.b.orders| <= i < |w.b.orders|
            && w.b.orders[i] == v
  {
    if |w0.b.orders| <= |w.b.orders| {
      SinceMembers(w.b.orders[|w0.b.orders|..], Since(w.d.orders, cursor));
    }
  }

  /** The other views are old news. */
  lemma StreamIsOwn(cfg: Config, w0: Desk, w: Desk, cursor: Option<int>, at: int)
    requires w0.b.orders <= w.b.orders && w0.d.orders <= w.d.orders
    requires forall i :: 0 <= i < |w0.b.orders| ==> Absorbed(w0.d.orders, w0.b.orders[i])
    ensures ProcessOrders(cfg, Tick(w.d, ZeroSummary), OrdersSince(w.b.orders, Since(w.d.orders, cursor)), at)
         == ProcessOrders(cfg, Tick(w.d, ZeroSummary), OwnViews(w0, w, cursor), at)
  {
    hide ProcessOrders, Absorbed, Since;
    var n, since, t := |w0.b.orders|, Since(w.d.orders, cursor), Tick(w.d, ZeroSummary);
    var past := OrdersSince(w0.b.orders, since);
    assert w.b.orders == w0.b.orders + w.b.orders[n..];
    SinceConcat(w0.b.orders, w.b.orders[n..], since);
    SinceMembers(w0.b.orders, since);
    assert w.d.orders == w0.d.orders + w.d.orders[|w0.d.orders|..];
    forall a | 0 <= a < |past| ensures Absorbed(w.d.orders, past[a]) {
      assert past[a] in past;
      AbsorbedMore(w0.d.orders, w.d.orders[|w0.d.orders|..], past[a]);
    }
    AllNoop(cfg, t, past, at);
    StreamConcat(cfg, t, past, OwnViews(w0, w, cursor), at);
  }

  /** An ended order that the tables still call working is fetched, whatever the cursor. */
  lemma LatestFetched(w0: Desk, w: Desk, x: string, k: nat, cursor: Option<int>)
    requires Framed(w0, w, x, k) && AllLinked(w0, w, x) && Work(w0, w).Some?
    ensures w.b.orders[|w.b.orders| - 1] in OwnViews(w0, w, cursor)
  {
    hide Since, PmccShape, FindClient, FindPosition, HasInflight;
    var n := |w.b.orders| - 1;
    assert Linked(w0, w, x, n);
    SinceCovers(w.d.orders, cursor, |w.d.orders| - 1);
    SinceMembers(w.b.orders[|w0.b.orders|..], Since(w.d.orders, cursor));
    assert w.b.orders[|w0.b.orders|..][n - |w0.b.orders|] == w.b.orders[n];
  }

  // ---- The rest of the tick ----

  lemma MoreOrders(orders: seq<Order>, more: seq<Order>, p: Position, shape: Shape)
    requires orders <= more && AtRest(orders, p, shape)
    ensures AtRest(more, p, shape)
  {
    if HasInflight(orders, p.symbol) {
      var j :| 0 <= j < |orders| && orders[j].symbol == p.symbol && Working(orders[j].status);
      assert more[j] == orders[j];
    }
  }

  lemma OthersRest(cfg: Config, w0: Desk, w: Desk, x: string, k: nat, rows: seq<BrokerRow>, symbols: seq<string>,
                   at: int)
    requires OthersInOrder(cfg, w0, x, rows, symbols, at) && Framed(w0, w, x, k)
    requires FindPosition(w0.d.positions, x, Some(PMCC)) == Some(k)
    ensures forall m :: 0 <= m < |w.d.positions| && m != k
              ==> AtRest(w.d.orders, w.d.positions[m], ShapeOf(rows, w.d.positions[m].symbol))
    ensures forall i :: 0 <= i < |rows| ==> KnownSymbol(w.d.positions, rows[i].symbol)
  {
    hide AtRest, ShapeOf, FindPosition, HasInflight, AuditSilent, Absorbed;
    forall m | 0 <= m < |w.d.positions| && m != k
      ensures AtRest(w.d.orders, w.d.positions[m], ShapeOf(rows, w.d.positions[m].symbol))
    {
      MoreOrders(w0.d.orders, w.d.orders, w.d.positions[m], ShapeOf(rows, w.d.positions[m].symbol));
    }
    forall i | 0 <= i < |rows| ensures KnownSymbol(w.d.positions, rows[i].symbol) {
      if rows[i].symbol != x {
        var m :| 0 <= m < |w0.d.positions| && w0.d.positions[m].symbol == rows[i].symbol;
        FindPositionSound(w0.d.positions, x, Some(PMCC));
        assert w.d.positions[m].symbol == rows[i].symbol;
      }
    }
  }

  /** An older cycle is carried, or ended, or young, as it was when the run began. */
  lemma OldCyclePasses(cfg: Config, w0: Desk, w: Desk, x: string, k: nat, cy: nat, at: int)
    requires Framed(w0, w, x, k) && cy < |w0.d.cycles| && FindPosition(w0.d.positions, x, Some(PMCC)) == Some(k)
    requires w0.d.positions[k].state.Idle? && w0.d.positions[k].symbol == x && w0.d.positions[k].strategy == PMCC
    requires !Orphaned(cfg, w0.d, w0.d.cycles[cy], at)
    ensures !Orphaned(cfg, w.d, w.d.cycles[cy], at)
  {
    hide FindPosition, HasInflight;
    var c := w0.d.cycles[cy];
    assert w.d.cycles[cy] == c;
    FindPositionKeys(w0.d.positions, w.d.positions, c.symbol, c.strategy);
  }

  /** A cycle of the run is ended, or it is the latest and the pair carries it. */
  lemma OwnCyclePasses(cfg: Config, w0: Desk, w: Desk, x: string, k: nat, cy: nat, at: int)
    requires Tracked(w0, w, x, k, false) && |w0.d.cycles| <= cy < |w.d.cycles|
    ensures !Orphaned(cfg, w.d, w.d.cycles[cy], at)
  {
    hide FindPosition, HasInflight, AllLinked, LegsKnown, Dated, StateFits, Replay, CyclePnl;
    TrackedParts(w0, w, x, k, false);
    var spans, m := Replay(Seen(w0, w)), cy - |w0.d.cycles|;
    assert CycleFits(w.d, |w0.d.cycles| + m, x, spans[m]);
    OpenStates(EyeOf(w0, w, x, k));
  }

  lemma AuditPasses(cfg: Config, w0: Desk, w: Desk, x: string, k: nat, rows: seq<BrokerRow>, symbols: seq<string>,
                    at: int)
    requires FlatStart(cfg, w0, x) && Tracked(w0, w, x, k, false)
             && FindPosition(w0.d.positions, x, Some(PMCC)) == Some(k)
    requires AuditSilent(cfg, w0.d, rows, symbols, at)
    ensures AuditSilent(cfg, w.d, rows, symbols, at)
  {
    hide FindPosition, HasInflight, Tracked, Orphaned, LocalShares, StockIn;
    TrackedParts(w0, w, x, k, false);
    FindPositionSound(w0.d.positions, x, Some(PMCC));
    if cfg.parityEnabled {
      forall cy | 0 <= cy < |w.d.cycles| ensures !Orphaned(cfg, w.d, w.d.cycles[cy], at) {
        if cy < |w0.d.cycles| {
          OldCyclePasses(cfg, w0, w, x, k, cy, at);
        } else {
          OwnCyclePasses(cfg, w0, w, x, k, cy, at);
        }
      }
      forall y | y in symbols && KnownSymbol(w.d.positions, y)
        ensures LocalShares(w.d.positions, y) == StockIn(rows, y)
      {
        var m :| 0 <= m < |w.d.positions| && w.d.positions[m].symbol == y;
        assert w0.d.positions[m].symbol == y;
        SameLocalShares(w0.d.positions, w.d.positions, y);
      }
    }
  }

  /** With a row for the pair, the tick is the look. */
  lemma TrackedTick(cfg: Config, w0: Desk, w: Desk, x: string, k: nat, cursor: Option<int>, ks: seq<string>,
                    cs: seq<Contract>, symbols: seq<string>, at: int)
    requires FlatStart(cfg, w0, x) && Tracked(w0, w, x, k, false)
             && FindPosition(w0.d.positions, x, Some(PMCC)) == Some(k)
    requires w0.b.orders <= w.b.orders && at >= w.clock
    requires Enumerates(ks, w.b.stock.Keys) && Enumerates(cs, w.b.options.Keys)
    requires OthersInOrder(cfg, w0, x, AlpacaRows(w.b, ks, cs), symbols, at)
    ensures var rows := AlpacaRows(w.b, ks, cs);
            ReconcileOnce(cfg, w.b, w.d, cursor, rows, symbols, at)
            == Look1(cfg, w, x, OwnViews(w0, w, cursor), rows, at)
  {
    hide FlatStart, Tracked, ProcessOrders, DiffOne, AlpacaRows, Enumerates, ShapeOf, AtRest, KnownSymbol, AuditSilent,
         Absorbed, FindPosition, HasInflight, OwnViews, OrdersSince, Since, ReconcileRows, Audit, AllLinked;
    var rows, own := AlpacaRows(w.b, ks, cs), OwnViews(w0, w, cursor);
    TrackedParts(w0, w, x, k, false);
    assert w0.d.orders <= w.d.orders;
    StreamIsOwn(cfg, w0, w, cursor, at);
    OwnViewsAreOwn(w0, w, cursor);
    Loosened(w0, w, x, k);
    var t0 := Tick(w.d, ZeroSummary);
    ViewsTracked(cfg, w0, w, x, k, t0, own, at);
    var t1 := ProcessOrders(cfg, t0, own, at);
    var w1 := w.(d := t1.db);
    TrackedParts(w0, w1, x, k, true);
    AlpacaShape(w.b, x, ks, cs);
    SweepTracked(w0, w1, x, k, t1, ShapeOf(rows, x), at);
    OthersRest(cfg, w0, w1, x, k, rows, symbols, at);
    TickIsTurn(cfg, w.d, OrdersSince(w.b.orders, Since(w.d.orders, cursor)), k, rows, symbols, at);
    var t2 := DiffOne(t1, k, t1.db.positions[k], ShapeOf(rows, x), at);
    AuditPasses(cfg, w0, w.(d := t2.db), x, k, rows, symbols, at);
    AuditQuiet(cfg, t2, rows, symbols, at);
  }

  /** Before the first submission a tick finds nothing to do. */
  lemma UnstartedTick(cfg: Config, w0: Desk, w: Desk, x: string, cursor: Option<int>, rows: seq<BrokerRow>,
                      symbols: seq<string>, at: int)
    requires FlatStart(cfg, w0, x) && w == w0.(clock := w.clock) && w.clock >= w0.clock
    requires FindPosition(w0.d.positions, x, Some(PMCC)).None?
    requires OthersInOrder(cfg, w0, x, rows, symbols, at) && forall i :: 0 <= i < |rows| ==> rows[i].symbol != x
    ensures ReconcileOnce(cfg, w.b, w.d, cursor, rows, symbols, at)
         == Look1(cfg, w, x, OwnViews(w0, w, cursor), rows, at)
  {
    hide FlatStart, ProcessOrders, ShapeOf, AtRest, KnownSymbol, AuditSilent, Absorbed, FindPosition, HasInflight,
         Since, ReconcileRows, Audit;
    StreamIsOwn(cfg, w0, w, cursor, at);
    assert OwnViews(w0, w, cursor) == [];
    LaterFlat(cfg, w0, x, w.clock);
    NothingYet(cfg, w, x, rows, at);
    NoStream(cfg, w.d, at);
    TickIsStream(cfg, w.d, OrdersSince(w.b.orders, Since(w.d.orders, cursor)), rows, symbols, at);
    AuditQuiet(cfg, Tick(w.d, ZeroSummary), rows, symbols, at);
  }

  lemma NoStream(cfg: Config, d: Db, at: int)
    ensures ProcessOrders(cfg, Tick(d, ZeroSummary), [], at) == Tick(d, ZeroSummary)
  {
  }

  // ---- What a tick leaves ----

  /** The broker is still working the latest order of the run. */
  predicate StillWorking(w0: Desk, w: Desk) {
    |w.b.orders| > |w0.b.orders| && Working(w.b.orders[|w.b.orders| - 1].status)
  }

  lemma TrackedTickMirrors(cfg: Config, w0: Desk, w: Desk, x: string, k: nat, cursor: Option<int>, ks: seq<string>,
                           cs: seq<Contract>, at: int)
    requires Tracked(w0, w, x, k, false) && at >= w.clock
    requires Enumerates(ks, w.b.stock.Keys) && Enumerates(cs, w.b.options.Keys)
    ensures var t := Look1(cfg, w, x, OwnViews(w0, w, cursor), AlpacaRows(w.b, ks, cs), at);
            && t.sum.manual == 0
            && (HasInflight(t.db.orders, x) <==> StillWorking(w0, w))
            && (!StillWorking(w0, w) ==> MirrorsLegs(Desk(w.b, t.db, at), x))
  {
    hide Tracked, Look1, Enumerates, AlpacaRows, HasInflight, FindPosition, MirrorsLegs, OwnViews, AllLinked, LegsKnown,
         Accounts;
    OwnViewsAreOwn(w0, w, cursor);
    var views := OwnViews(w0, w, cursor);
    TrackedMirror(cfg, w0, w, x, k, views, ks, cs, at);
    LookTracked(cfg, w0, w, x, k, views, ks, cs, at);
    var t := Look1(cfg, w, x, views, AlpacaRows(w.b, ks, cs), at);
    var w' := Desk(w.b, t.db, at);
    TrackedParts(w0, w, x, k, false);
    TrackedParts(w0, w', x, k, false);
    InflightIsWork(w0, w', x, k);
    if Work(w0, w).Some? { LatestFetched(w0, w, x, k, cursor); }
    if StillWorking(w0, w) { WorkingIsWork(w0, w', x, k); }
    assert Work(w0, Desk(w.b, t.db, at)) == Work(w0, w.(d := t.db));
  }

  /** An order the broker is working is still PENDING in the tables. */
  lemma WorkingIsWork(w0: Desk, w: Desk, x: string, k: nat)
    requires Framed(w0, w, x, k) && AllLinked(w0, w, x) && StillWorking(w0, w)
    ensures Work(w0, w).Some?
  {
    hide FindPosition, HasInflight, FindClient, PmccShape;
    assert Linked(w0, w, x, |w.b.orders| - 1);
  }

  lemma NoSuchRow(b: BrokerState, x: string, ks: seq<string>, cs: seq<Contract>)
    requires x !in b.stock && Enumerates(ks, b.stock.Keys) && Enumerates(cs, b.options.Keys)
    ensures StockIn(AlpacaRows(b, ks, cs), x) == 0
    ensures (forall c :: c in b.options ==> c.underlying != x)
            ==> forall i :: 0 <= i < |AlpacaRows(b, ks, cs)| ==> AlpacaRows(b, ks, cs)[i].symbol != x
  {
    var rows := AlpacaRows(b, ks, cs);
    forall i | 0 <= i < |rows|
      ensures if i < |ks| then rows[i].symbol != x
              else rows[i] == AlpacaRow(b, cs[i - |ks|]) && cs[i - |ks|] in b.options
    {
      if i < |ks| { assert rows[i] == StockRow(b, ks[i]); }
    }
    NoStockIn(rows, x);
  }

  lemma SeededOthers(cfg: Config, w0: Desk, x: string, rows: seq<BrokerRow>, symbols: seq<string>, at: int)
    requires OthersInOrder(cfg, w0, x, rows, symbols, at) && StockIn(rows, x) == 0
    ensures OthersInOrder(cfg, Seeded(w0, x), x, rows, symbols, at)
  {
    hide FindPosition, AtRest, ShapeOf, AuditSilent, Absorbed, StockIn;
    var s0 := Seeded(w0, x);
    SeedFound(w0, x);
    if s0 != w0 {
      NewRowPasses(cfg, w0.d, s0.d, Position(x, PMCC, Idle, 0, None, None), rows, symbols, at);
      forall i | 0 <= i < |rows| && KnownSymbol(w0.d.positions, rows[i].symbol)
        ensures KnownSymbol(s0.d.positions, rows[i].symbol)
      {
        var m :| 0 <= m < |w0.d.positions| && w0.d.positions[m].symbol == rows[i].symbol;
        assert s0.d.positions[m] == w0.d.positions[m];
      }
    }
  }

  /** After any legal moves, one whole reconcile_once with any cursor, over Alpaca's rows and beside books with
      nothing outstanding, is one look at the run's own orders: it flags nothing and the audit is silent.
      Afterwards the symbol has an order in flight exactly if the broker is still working the latest one, and
      otherwise the pair mirrors the broker's legs: both open exactly when a short lives beside the long, the
      long alone exactly when only it lives, and idle exactly when neither does. */
  lemma TicksMirror(cfg: Config, w0: Desk, x: string, moves: seq<TimedMove>, at: int, cursor: Option<int>,
                    ks: seq<string>, cs: seq<Contract>, symbols: seq<string>)
    requires FlatStart(cfg, w0, x) && LegalMoves(cfg, w0, x, moves)
    requires var w := AfterMoves(cfg, w0, x, moves);
             && at > w.clock && Enumerates(ks, w.b.stock.Keys) && Enumerates(cs, w.b.options.Keys)
             && OthersInOrder(cfg, w0, x, AlpacaRows(w.b, ks, cs), symbols, at)
    ensures var w := AfterMoves(cfg, w0, x, moves);
            var own := OwnViews(w0, w, cursor);
            var t := ReconcileOnce(cfg, w.b, w.d, cursor, AlpacaRows(w.b, ks, cs), symbols, at);
            && LegalMove(w0, w, x, TimedMove(at, Look(own, ks, cs)))
            && t == Look1(cfg, w, x, own, AlpacaRows(w.b, ks, cs), at)
            && t.sum.manual == 0
            && (HasInflight(t.db.orders, x) <==> StillWorking(w0, w))
            && (!StillWorking(w0, w) ==> MirrorsLegs(Desk(w.b, t.db, at), x))
  {
    hide LegalMoves, AfterMoves, Look1, AlpacaRows, FlatStart, Tracked, Enumerates, HasInflight, FindPosition,
         OthersInOrder, ReconcileOnce, MirrorsLegs, OwnViews, StockIn;
    var k, v := SeededTracked(cfg, w0, x, moves);
    var w, s0 := AfterMoves(cfg, w0, x, moves), Seeded(w0, x);
    SeedFlat(cfg, w0, x);
    OwnViewsAreOwn(w0, w, cursor);
    var rows := AlpacaRows(w.b, ks, cs);
    if v == w {
      TrackedStock(s0, w, x, k);
      NoSuchRow(w.b, x, ks, cs);
      SeededOthers(cfg, w0, x, rows, symbols, at);
      RunOld(cfg, s0, x, moves, k);
      TrackedTick(cfg, s0, w, x, k, cursor, ks, cs, symbols, at);
      TrackedTickMirrors(cfg, s0, w, x, k, cursor, ks, cs, at);
      SameOwn(w0, s0, w, cursor);
    } else {
      FlatStock(cfg, w0, x);
      NoSuchRow(w.b, x, ks, cs);
      UnstartedTick(cfg, w0, w, x, cursor, rows, symbols, at);
      NoneOwn(w0, w, cursor);
      UnstartedMirror(cfg, w0, w, x, rows, at);
    }
  }

  lemma TrackedStock(w0: Desk, w: Desk, x: string, k: nat)
    requires Tracked(w0, w, x, k, false)
    ensures x !in w.b.stock
  {
    TrackedParts(w0, w, x, k, false);
  }

  lemma FlatStock(cfg: Config, w: Desk, x: string)
    requires FlatStart(cfg, w, x)
    ensures x !in w.b.stock && !HasInflight(w.d.orders, x) && forall c :: c in w.b.options ==> c.underlying != x
  {
  }

  lemma SameOwn(w0: Desk, s0: Desk, w: Desk, cursor: Option<int>)
    requires s0.b == w0.b
    ensures OwnViews(s0, w, cursor) == OwnViews(w0, w, cursor)
  {
  }

  lemma NoneOwn(w0: Desk, w: Desk, cursor: Option<int>)
    requires w.b == w0.b
    ensures OwnViews(w0, w, cursor) == []
  {
  }

  // ---- The long call expires ----

  /** With nothing in flight, every order of the run is old news. */
  lemma OwnAbsorbed(w0: Desk, w: Desk, x: string, k: nat, i: nat)
    requires Framed(w0, w, x, k) && AllLinked(w0, w, x) && Work(w0, w).None? && |w0.b.orders| <= i < |w.b.orders|
    ensures Absorbed(w.d.orders, w.b.orders[i])
  {
    hide FindPosition, HasInflight, FindClient, PmccShape;
    assert Linked(w0, w, x, i);
    var j := RowIx(w0, i);
    if i == |w.b.orders| - 1 { assert w.d.orders[j] == w.d.orders[|w.d.orders| - 1]; }
    assert Refresh(w.d.orders[j], w.b.orders[i]) == w.d.orders[j];
  }

  /** One look of the reconciler: some of the run's orders, and the broker's rows. */
  datatype Glance = Glance(at: int, views: seq<Order>, stocks: seq<string>, legs: seq<Contract>)

  ghost predicate LegalGlance(w0: Desk, b: BrokerState, g: Glance) {
    && (forall v :: v in g.views ==> exists i :: |w0.b.orders| <= i < |b.orders| && b.orders[i] == v)
    && Enumerates(g.stocks, b.stock.Keys) && Enumerates(g.legs, b.options.Keys)
  }

  function AfterGlances(cfg: Config, b: BrokerState, d: Db, x: string, gs: seq<Glance>): Db {
    if |gs| == 0 then d
    else
      var g := gs[|gs| - 1];
      var w := Desk(b, AfterGlances(cfg, b, d, x, gs[..|gs| - 1]), g.at);
      Look1(cfg, w, x, g.views, AlpacaRows(b, g.stocks, g.legs), g.at).db
  }

  /** The tables of w with row k in another state, whatever the log. */
  predicate Restated(d: Db, d': Db, k: nat, state: PositionState) {
    && d'.orders == d.orders && d'.cycles == d.cycles
    && k < |d.positions| && d'.positions == d.positions[k := d.positions[k].(state := state)]
  }

  /** What the pair reads once its long is gone: both open while a short lives, the long otherwise. */
  function StrandedState(b: BrokerState, x: string): PositionState {
    if LegsBy(b, x, SellToOpen) != {} then PmccBothOpen else PmccLongOpen
  }

  lemma StrandedGlance(cfg: Config, w0: Desk, w: Desk, x: string, k: nat, b: BrokerState, d: Db, state: PositionState,
                       g: Glance)
    requires Framed(w0, w, x, k) && AllLinked(w0, w, x) && Work(w0, w).None?
    requires b.orders == w.b.orders && LegsKnown(b, x) && LegalGlance(w0, b, g)
    requires Restated(w.d, d, k, state) && (state == StrandedState(b, x) || state.PmccBothOpen?)
    ensures Restated(w.d, Look1(cfg, Desk(b, d, g.at), x, g.views, AlpacaRows(b, g.stocks, g.legs), g.at).db, k,
                     StrandedState(b, x))
    ensures Look1(cfg, Desk(b, d, g.at), x, g.views, AlpacaRows(b, g.stocks, g.legs), g.at).sum.manual == 0
  {
    hide AlpacaRows, ShapeOf, Absorbed, AllLinked, LegsKnown, ProcessOrders, HasInflight, FindPosition, Enumerates;
    var t := Tick(d, ZeroSummary);
    forall a | 0 <= a < |g.views| ensures Absorbed(d.orders, g.views[a]) {
      assert g.views[a] in g.views;
      var i :| |w0.b.orders| <= i < |b.orders| && b.orders[i] == g.views[a];
      OwnAbsorbed(w0, w, x, k, i);
    }
    AllNoop(cfg, t, g.views, g.at);
    FindPositionKeys(w.d.positions, d.positions, x, Some(PMCC));
    AlpacaShape(b, x, g.stocks, g.legs);
  }

  lemma {:induction false} StrandedGlances(cfg: Config, w0: Desk, w: Desk, x: string, k: nat, b: BrokerState,
                                           gs: seq<Glance>)
    requires Framed(w0, w, x, k) && AllLinked(w0, w, x) && Work(w0, w).None?
    requires b.orders == w.b.orders && LegsKnown(b, x) && forall g :: g in gs ==> LegalGlance(w0, b, g)
    requires w.d.positions[k].state == StrandedState(b, x) || w.d.positions[k].state.PmccBothOpen?
    ensures Restated(w.d, AfterGlances(cfg, b, w.d, x, gs), k,
                     if gs == [] then w.d.positions[k].state else StrandedState(b, x))
  {
    hide Look1, AlpacaRows, FindPosition, HasInflight, AllLinked, LegsKnown, LegalGlance;
    var ps, p := w.d.positions, w.d.positions[k];
    if |gs| == 0 {
      assert ps[k := p.(state := p.state)] == ps;
    } else {
      var n := |gs| - 1;
      assert gs[n] in gs && forall g :: g in gs[..n] ==> g in gs;
      StrandedGlances(cfg, w0, w, x, k, b, gs[..n]);
      StrandedGlance(cfg, w0, w, x, k, b, AfterGlances(cfg, b, w.d, x, gs[..n]),
                     if gs[..n] == [] then p.state else StrandedState(b, x), gs[n]);
    }
  }

  /** No branch of the sweep looks for the long. Once it is gone at the broker with nothing in flight, then after
      any number of looks, however many: the pair reads both open while a short lives and the long otherwise, its
      cycle is still open and still pointed at, no order and no other row has moved, and it mirrors the legs no
      more. */
  lemma LongExpiryStrands(cfg: Config, w0: Desk, w: Desk, x: string, k: nat, c: Contract, gs: seq<Glance>)
    requires Tracked(w0, w, x, k, false) && !HasInflight(w.d.orders, x) && c in LegsBy(w.b, x, BuyToOpen)
    requires gs != [] && forall g :: g in gs ==> LegalGlance(w0, Expire(w.b, c), g)
    ensures var b := Expire(w.b, c);
            var d := AfterGlances(cfg, b, w.d, x, gs);
            && Restated(w.d, d, k, StrandedState(b, x))
            && |d.cycles| > 0 && d.positions[k].cycle == Some(|d.cycles| - 1) && d.cycles[|d.cycles| - 1].endedAt.None?
            && forall at :: !MirrorsLegs(Desk(b, d, at), x)
  {
    hide Tracked, AllLinked, LegsKnown, Accounts, HasInflight, AfterGlances, LegalGlance, FindPosition, Replay,
         StateFits;
    var b := Expire(w.b, c);
    TrackedParts(w0, w, x, k, false);
    InflightIsWork(w0, w, x, k);
    var v := EyeOf(w0, w, x, k);
    ExpiredLegs(w.b, x, c);
    LongLives(v, c);
    StrandedGlances(cfg, w0, w, x, k, b, gs);
    LatestCycle(w.d, |w0.d.cycles|, x, Replay(Seen(w0, w)));
    var d := AfterGlances(cfg, b, w.d, x, gs);
    FindPositionKeys(w.d.positions, d.positions, x, Some(PMCC));
    assert v.longs - {c} == {} by { OnlyMember(v.longs, c); }
    forall at ensures !MirrorsLegs(Desk(b, d, at), x) { NoMirror(Desk(b, d, at), x); }
  }

  lemma ExpiredLegs(b: BrokerState, x: string, c: Contract)
    requires LegsKnown(b, x) && c in LegsBy(b, x, BuyToOpen)
    ensures var b' := Expire(b, c);
            && LegsKnown(b', x) && b'.orders == b.orders
            && LegsBy(b', x, BuyToOpen) == LegsBy(b, x, BuyToOpen) - {c}
            && LegsBy(b', x, SellToOpen) == LegsBy(b, x, SellToOpen)
  {
  }

  lemma LongLives(v: Eye, c: Contract)
    requires StateFits(v, false) && v.work.None? && c in v.longs
    ensures v.open && |v.longs| == 1 && (v.state.PmccBothOpen? || (v.state.PmccLongOpen? && v.shorts == {}))
  {
  }

  lemma NoMirror(w: Desk, x: string)
    requires LegsBy(w.b, x, BuyToOpen) == {} && StateOf(w, x) == StrandedState(w.b, x)
    ensures !MirrorsLegs(w, x)
  {
    hide LegsBy, StateOf;
    var shorts := LegsBy(w.b, x, SellToOpen);
    if shorts != {} {
      var c :| c in shorts;
      assert |shorts| > |shorts - {c}|;
    }
  }
}
