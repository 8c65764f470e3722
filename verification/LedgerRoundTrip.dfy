/** The round trip from any reachable ledger, with nothing assumed of the other rows. */
module LedgerRoundTrip {
  import opened Models
  import opened PaperBrokers
  import opened Repos
  import opened Router
  import opened Reconciler
  import opened Ledger
  import opened LedgerTables
  import opened LedgerInvariant
  import opened LedgerRouter
  import opened LedgerStream
  import opened LedgerShape
  import opened LedgerSweep
  import opened LedgerTick
  import opened LedgerRuns
  import opened LedgerTheorems
  import opened OrderStream
  import opened QuietTick
  import opened RoundTrip

  /** A caught-up broker order is already in the tables. */
  lemma OrderAbsorbed(s: Scene, i: nat)
    requires Inv(s) && Sized(s) && AllCaughtUp(s) && i < |s.b.orders|
    ensures Absorbed(s.d.orders, s.b.orders[i])
  {
    hide Inv, OrderShape, FindClient;
    InvOrder(s, i);
    assert CaughtUp(s, i);
    var r := s.d.orders[s.g.row[i]];
    assert Refresh(r, s.b.orders[i]) == r;
  }

  /** A synced position is at rest. */
  lemma LaneRests(s: Scene, k: nat)
    requires Inv(s) && Sized(s) && AllCaughtUp(s) && AllSynced(s) && k < |s.d.positions|
    ensures AtRest(s.d.orders, s.d.positions[k], TrueShape(s.b, s.d.positions[k].symbol))
  {
    hide Inv, AllCaughtUp, AllSynced, DigestOf, LegsOK, HasInflight, FindPosition, SharesClaimedByOther;
    SyncedAt(s, k);
    assert Turn(s, k);
    TurnFacts(s, k);
    var l := s.g.lanes[k];
    ShapeInState(s.cfg, l, ViewOf(s.b, s.d, l, k));
  }

  lemma SceneInOrder(s: Scene, ks: seq<string>, cs: seq<Contract>, symbols: seq<string>, now: int)
    requires Inv(s) && Sized(s) && AllCaughtUp(s) && AllSynced(s)
    requires Enumerates(ks, s.b.stock.Keys) && Enumerates(cs, s.b.options.Keys)
    ensures InOrder(s.cfg, s.b, s.d, PositionRows(s.b, ks, cs), symbols, now)
  {
    hide Inv, AllCaughtUp, AllSynced, Enumerates, AtRest, Absorbed, ShapeOf, TrueShape, Reported, AuditSilent,
         KnownSymbol, PositionRows;
    var rows := PositionRows(s.b, ks, cs);
    RowsReported(s, ks, cs);
    RowsKnown(s, rows, ks, cs);
    AuditPasses(s, rows, ks, cs, symbols, now);
    forall i | 0 <= i < |s.b.orders| ensures Absorbed(s.d.orders, s.b.orders[i]) { OrderAbsorbed(s, i); }
    forall k | 0 <= k < |s.d.positions|
      ensures AtRest(s.d.orders, s.d.positions[k], ShapeOf(rows, s.d.positions[k].symbol))
    {
      LaneRests(s, k);
      ReportedShape(s.b, rows, ks, cs, s.d.positions[k].symbol);
    }
  }

  /** A legal placement is a new order proposed from a resting state. */
  lemma LegalIsNew(s: Scene, w: World, o: Order, at: int)
    requires Inv(s) && Sized(s) && Shows(s, s.cfg, w, s.cash0) && LegalPlace(s.cfg, w, o, at) && at > w.clock
    ensures o.strategy.Some? && NewOrder(s.b, s.d, o)
    ensures RestsIn(s.cfg, o, o.strategy.value, PairRow(s.d, o.symbol, o.strategy.value).state)
    ensures !FamilyOf(s.cfg, o, o.strategy.value).Diagonal?
  {
    hide Inv, HasInflight, FindClient, FindBrokerClient, SlotFree, FindPosition, CycleRows;
    FreshAtBroker(s, o.clientId.value);
    forall j | 0 <= j < |s.d.orders| ensures s.d.orders[j].placedAt < o.placedAt { InvRow(s, j); }
  }

  /** From a scene with nothing unseen: place, cancel and tick put every position, cycle and counter back. */
  lemma SceneTrip(s: Scene, w: World, o: Order, at: int, cursor: Option<int>, ks: seq<string>, cs: seq<Contract>,
                  symbols: seq<string>, now: int)
    requires Inv(s) && Sized(s) && AllCaughtUp(s) && AllSynced(s)
    requires Shows(s, s.cfg, w, s.cash0) && LegalPlace(s.cfg, w, o, at) && at > w.clock && o.strategy.Some?
    requires Enumerates(ks, s.b.stock.Keys) && Enumerates(cs, s.b.options.Keys)
    ensures var (b1, d1) := PlaceOrder(s.cfg, s.b, s.d, o, o.strategy.value);
            var b2 := Cancel(b1, |s.b.orders|);
            var t := ReconcileOnce(s.cfg, b2, d1, cursor, PositionRows(b2, ks, cs), symbols, now);
            TripDone(s.cfg, s.b, s.d, b2, t, o)
  {
    hide Inv, AllCaughtUp, AllSynced, Enumerates, LegalPlace, PlaceOrder, ReconcileOnce, PositionRows, NewOrder,
         InOrder, RestsIn, Shows;
    ShowsFields(s, s.cfg, w, s.cash0);
    LegalIsNew(s, w, o, at);
    SceneInOrder(s, ks, cs, symbols, now);
    PlaceCancelRestores(s.cfg, s.b, s.d, o, o.strategy.value, PaperFeed, ks, cs, cursor, symbols, now);
  }

  /** What the trip leaves: the cancelled order on both sides and nothing else moved (a spread entry lands in
      IDLE, a pair's first entry leaves a flat IDLE row). */
  predicate TripDone(cfg: Config, b: BrokerState, d: Db, b': BrokerState, t: Tick, o: Order)
    requires o.strategy.Some?
  {
    var p, cancelled := PairRow(d, o.symbol, o.strategy.value), Stored(b, o).(status := Cancelled);
    && b' == b.(orders := b.orders + [cancelled])
    && t.db.orders == d.orders + [cancelled]
    && t.db.positions == WithRow(d, o.symbol, o.strategy.value, p.(state := Landing(o, p.state)))
    && t.db.cycles == d.cycles
    && t.sum == ZeroSummary.(cancellations := if Undone(cfg, o, o.strategy.value) then 1 else 0)
  }

  /** After any run that ends in a tick: any legal placement, its cancel at the broker and one more tick leave
      every position, every cycle and every counter as they were, bar the cancelled order's own rows. */
  lemma RoundTripFromAnyRun(cfg: Config, w0: World, run: seq<Timed>, tick: Timed, place: Timed, drop: Timed,
                            again: Timed)
    requires Fresh(w0) && LegalRun(cfg, w0, run)
    requires tick.event.TickNow? && Legal(cfg, After(cfg, w0, run), tick)
    requires place.event.PlaceOne? && Legal(cfg, Step(cfg, After(cfg, w0, run), tick), place)
    requires var w := Step(cfg, After(cfg, w0, run), tick);
             && drop.event == Drop(|w.broker.orders|) && Legal(cfg, Step(cfg, w, place), drop)
             && again.event.TickNow? && Legal(cfg, Step(cfg, Step(cfg, w, place), drop), again)
    ensures place.event.order.strategy.Some?
    ensures var w := Step(cfg, After(cfg, w0, run), tick);
            var w2 := Step(cfg, Step(cfg, w, place), drop);
            var t := TickOf(cfg, w2, again.event.stocks, again.event.legs, again.event.symbols, again.at);
            TripDone(cfg, w.broker, w.db, w2.broker, t, place.event.order) && Step(cfg, w2, again).db == t.db
  {
    hide After, LegalRun, Sound, Inv, AllSynced, AllCaughtUp, PlaceOrder, ReconcileOnce, PositionRows, TripDone,
         FreshOrder, Proposable;
    FreshSound(cfg, w0);
    RunSound(cfg, w0, run, w0.broker.cash);
    var w := Step(cfg, After(cfg, w0, run), tick);
    var s := TickScene(cfg, After(cfg, w0, run), tick, w0.broker.cash);
    var o := place.event.order;
    var w2 := Step(cfg, Step(cfg, w, place), drop);
    LegalIsNew(s, w, o, place.at);
    PairPlaced(cfg, s.b, s.d, o, o.strategy.value);
    SceneTrip(s, w, o, place.at, w2.cursor, again.event.stocks, again.event.legs, again.event.symbols, again.at);
  }
}
