/** The router's writes keep the ledger invariant. */
module LedgerRouter {
  import opened Models
  import opened PaperBrokers
  import opened Repos
  import opened Router
  import opened Reconciler
  import opened Ledger
  import opened LedgerTables
  import opened LedgerInvariant
  import opened LedgerBroker
  import opened LedgerFills

  // ---- Facts about the state an order is proposed in ----

  /** A fresh client id is fresh at the broker too. */
  lemma FreshAtBroker(s: Scene, cid: string)
    requires Inv(s) && FindClient(s.d.orders, cid).None?
    ensures FindBrokerClient(s.b.orders, cid).None?
  {
    InvSized(s);
    forall i | 0 <= i < |s.b.orders| ensures s.b.orders[i].clientId != Some(cid) {
      InvOrder(s, i);
    }
    FindBrokerClientNone(s.b.orders, cid);
  }

  /** No working row of the symbol: its lane waits for nothing. */
  lemma Unoccupied(s: Scene, k: nat)
    requires Inv(s) && Sized(s) && k < |s.d.positions| && !HasInflight(s.d.orders, s.d.positions[k].symbol)
    ensures s.g.lanes[k].work.None?
  {
    InvLane(s, k);
    var w := s.g.lanes[k].work;
    if w.Some? { InvOrder(s, w.value); }
  }

  lemma {:induction false} LastCallIn(rows: seq<Order>)
    requires LastCall(rows).Some?
    ensures LastCall(rows).value in rows
  {
    var n := |rows| - 1;
    if LastCall(rows) != Some(rows[n]) { LastCallIn(rows[..n]); }
  }

  lemma LastCallEarlier(s: Scene, cy: Option<nat>, at: int)
    requires Inv(s) && at > s.clock
    ensures var last := LastCall(RowsAt(s.d, cy)); last.Some? ==> last.value.placedAt < at
  {
    InvSized(s);
    var rows := RowsAt(s.d, cy);
    if LastCall(rows).Some? {
      LastCallIn(rows);
      var i :| 0 <= i < |rows| && rows[i] == LastCall(rows).value;
      TaggedFrom(s.d.orders, cy.value, i);
      var j :| 0 <= j < |s.d.orders| && s.d.orders[j] == rows[i];
      InvRow(s, j);
    }
  }

  // ---- The lane after a placement ----

  function PlacedLane(l: Lane, o: Order, id: nat): Lane {
    match o.orderType
    case SellToOpen =>
      if o.contract.Some? then Lane(Some(id), o.contract.value, {o.contract.value}, o.quantity, Resting, 0.0)
      else l
    case MultiLegOpen => Lane(Some(id), l.leg, LegContracts(o), o.quantity, Resting, 0.0)
    case _ => l.(work := Some(id))
  }

  /** The position's state right after the placement. */
  function PlacedState(cfg: Config, o: Order, p: Position): PositionState {
    if KeepsPosition(o, p.strategy) then p.state else TargetState(cfg, o, p.strategy, true)
  }

  predicate ProposableView(v: View, o: Order) {
    match o.orderType
    case SellToOpen =>
      if IsPut(o) then v.p.state.Idle?
      else v.p.state.SharesHeld? && 100 * o.quantity == v.p.shares
           && (v.dg.last.Some? ==> v.dg.last.value.placedAt < o.placedAt)
    case BuyToClose =>
      if IsPut(o) then v.p.state.CspOpen? && v.dg.first.Some? && o.contract == v.dg.first.value.contract
      else v.p.state.CcOpen? && v.dg.last.Some? && o.contract == v.dg.last.value.contract
    case MultiLegOpen => v.p.state.Idle? || v.p.state.SpreadClosed?
    case MultiLegClose =>
      v.p.state.SpreadOpen? && v.dg.package.Some? && LegContracts(o) == LegContracts(v.dg.package.value)
    case _ => false
  }

  lemma LanePlaced(cfg: Config, l: Lane, v: View, o: Order, id: nat)
    requires StateOK(cfg, l, v) && LegsOK(cfg, l, v) && v.work.None?
    requires OrderShape(cfg, o) && o.status.Pending? && o.strategy == Some(v.p.strategy) && ProposableView(v, o)
    ensures var v' := v.(p := v.p.(state := PlacedState(cfg, o, v.p)), work := Some(o));
            var l' := PlacedLane(l, o, id);
            StateOK(cfg, l', v') && LegsOK(cfg, l', v') && l'.due == l.due && l'.work == Some(id)
  {
  }

  // ---- Appending the order to both books ----

  /** The order joins the broker and the table as its next row; lane k waits for it. */
  function Placed(s: Scene, o: Order, k: nat, l: Lane, state: PositionState): Scene
    requires k < |s.d.positions| && |s.g.lanes| == |s.d.positions|
  {
    s.(b := s.b.(orders := s.b.orders + [o]),
       d := s.d.(orders := s.d.orders + [o], positions := s.d.positions[k := s.d.positions[k].(state := state)]),
       g := s.g.(lanes := s.g.lanes[k := l], row := s.g.row + [|s.d.orders|], lane := s.g.lane + [k]),
       clock := o.placedAt)
  }

  lemma ClientAppended(rows: seq<Order>, o: Order)
    requires o.clientId.Some? && FindClient(rows, o.clientId.value).None?
    ensures FindClient(rows + [o], o.clientId.value) == Some(|rows|)
    ensures forall cid :: cid != o.clientId.value ==> FindClient(rows + [o], cid) == FindClient(rows, cid)
  {
    assert (rows + [o])[..|rows|] == rows;
  }

  /** An untagged row changes nothing any cycle shows. */
  lemma UntaggedAppended(rows: seq<Order>, o: Order)
    requires o.cycle.None?
    ensures forall cy: nat :: Tagged(rows + [o], cy) == Tagged(rows, cy)
    ensures Booked(rows + [o]) == Booked(rows)
  {
    forall cy: nat ensures Tagged(rows + [o], cy) == Tagged(rows, cy) { TaggedAppend(rows, o, cy); }
    BookedAppend(rows, o);
  }

  lemma PlacedLanes(s: Scene, o: Order, k: nat, l: Lane, state: PositionState)
    requires Inv(s) && Sized(s) && k < |s.d.positions| && o.cycle.None? && o.symbol == s.d.positions[k].symbol
    requires var s' := Placed(s, o, k, l, state); LaneOK(s.cfg, s'.b, s'.d, l, k)
    ensures Lanes(Placed(s, o, k, l, state))
  {
    hide Inv, StateOK, LegsOK, DigestOf, Managed;
    var s' := Placed(s, o, k, l, state);
    UntaggedAppended(s.d.orders, o);
    forall m | 0 <= m < |s'.d.positions| ensures LaneHolds(s', m) {
      if m != k {
        InvLane(s, m);
        assert ViewOf(s'.b, s'.d, s.g.lanes[m], m) == ViewOf(s.b, s.d, s.g.lanes[m], m);
      }
    }
  }

  lemma PlacedOrders(s: Scene, o: Order, k: nat, l: Lane, state: PositionState)
    requires Inv(s) && Sized(s) && k < |s.d.positions|
    requires BrokerOrderOK(s.cfg, o, |s.b.orders|) && o.status.Pending?
    requires FindClient(s.d.orders, o.clientId.value).None?
    requires o.symbol == s.d.positions[k].symbol && o.strategy == Some(s.d.positions[k].strategy)
    requires s.g.lanes[k].work.None? && l.work == Some(|s.b.orders|) && o.placedAt > s.clock
    ensures var s' := Placed(s, o, k, l, state); Sized(s') && Links(s') && Rows(s') && Works(s')
  {
    hide Inv, OrderShape, LaneOK, Telescopes, DigestOf;
    var s' := Placed(s, o, k, l, state);
    OrderUntagged(s.cfg, o, |s.b.orders|);
    ClientAppended(s.d.orders, o);
    forall i | 0 <= i < |s'.b.orders| ensures LinkOK(s', i) {
      if i < |s.b.orders| { InvOrder(s, i); assert s'.d.orders[s.g.row[i]] == s.d.orders[s.g.row[i]]; }
    }
    forall j | 0 <= j < |s'.d.orders| ensures RowOK(s', j) { if j < |s.d.orders| { InvRow(s, j); } }
    forall m | 0 <= m < |s'.d.positions| ensures WorkOK(s', m) { InvLane(s, m); }
  }

  lemma PlacedInv(s: Scene, o: Order, k: nat, l: Lane, state: PositionState)
    requires Inv(s) && Sized(s) && k < |s.d.positions|
    requires BrokerOrderOK(s.cfg, o, |s.b.orders|) && o.status.Pending?
    requires FindClient(s.d.orders, o.clientId.value).None?
    requires o.symbol == s.d.positions[k].symbol && o.strategy == Some(s.d.positions[k].strategy)
    requires s.g.lanes[k].work.None? && l.work == Some(|s.b.orders|) && l.due == s.g.lanes[k].due
    requires Exposed(s.d.positions[k].state) ==> Exposed(state)
    requires o.placedAt > s.clock
    requires var s' := Placed(s, o, k, l, state); LaneOK(s.cfg, s'.b, s'.d, l, k)
    ensures Inv(Placed(s, o, k, l, state))
  {
    hide LaneOK, Telescopes, DigestOf, Exposed, StockOf, Links, Rows, Works, Lanes, BrokerOrderOK;
    var s' := Placed(s, o, k, l, state);
    OrderUntagged(s.cfg, o, |s.b.orders|);
    PlacedLanes(s, o, k, l, state);
    PlacedOrders(s, o, k, l, state);
    UntaggedAppended(s.d.orders, o);
    SumDueSet(s.g.lanes, k, l);
    forall cy | 0 <= cy < |s'.d.cycles| ensures CycleOK(s', cy) { assert CycleOK(s, cy); }
    forall m | 0 <= m < |s'.d.positions| ensures PointerOK(s', m) { assert PointerOK(s, m); }
    forall x | KnownSymbol(s.d.positions, x) ensures KnownSymbol(s'.d.positions, x) {
      var m :| 0 <= m < |s.d.positions| && s.d.positions[m].symbol == x;
      assert s'.d.positions[m].symbol == x;
    }
  }

  lemma OrderUntagged(cfg: Config, o: Order, i: nat)
    requires BrokerOrderOK(cfg, o, i)
    ensures o.cycle.None? && o.clientId.Some?
  {
  }

  // ---- A first order on a symbol inserts its position ----

  const NoContract := Contract("", 0, Put, 0.0)

  /** A new flat position at the end of the table. */
  function Opened(s: Scene, symbol: string, strategy: string): Scene {
    s.(d := s.d.(positions := s.d.positions + [Position(symbol, strategy, Idle, 0, None, None)]),
       g := s.g.(lanes := s.g.lanes + [Lane(None, NoContract, {}, 0, Resting, 0.0)]))
  }

  lemma OpenedInv(s: Scene, symbol: string, strategy: string)
    requires Inv(s) && !KnownSymbol(s.d.positions, symbol)
    requires strategy !in s.cfg.swing && strategy != "pmcc" && strategy != "calendar"
    ensures Inv(Opened(s, symbol, strategy))
  {
    hide Telescopes, DigestOf, OrderShape, Exposed;
    var s' := Opened(s, symbol, strategy);
    var n := |s.d.positions|;
    SumDueAppend(s.g.lanes, s'.g.lanes[n]);
    assert Sized(s');
    forall m | 0 <= m < |s'.d.positions| ensures LaneHolds(s', m) {
      if m < n {
        assert LaneHolds(s, m);
        assert ViewOf(s'.b, s'.d, s'.g.lanes[m], m) == ViewOf(s.b, s.d, s.g.lanes[m], m);
      } else {
        assert LegMap(s.b, symbol) == map[];
        assert StockOf(s.b, symbol).0 == 0;
      }
    }
    forall i | 0 <= i < |s'.b.orders| ensures LinkOK(s', i) { assert LinkOK(s, i); }
    forall j | 0 <= j < |s'.d.orders| ensures RowOK(s', j) { assert RowOK(s, j); }
    forall m | 0 <= m < |s'.d.positions| ensures WorkOK(s', m) { if m < n { assert WorkOK(s, m); } }
    forall cy | 0 <= cy < |s'.d.cycles| ensures CycleOK(s', cy) { assert CycleOK(s, cy); }
    forall m | 0 <= m < |s'.d.positions| ensures PointerOK(s', m) { if m < n { assert PointerOK(s, m); } }
    forall x | KnownSymbol(s.d.positions, x) ensures KnownSymbol(s'.d.positions, x) {
      var m :| 0 <= m < n && s.d.positions[m].symbol == x;
      assert s'.d.positions[m].symbol == x;
    }
  }

  // ---- place / place_multi_leg ----

  function StoredOrder(s: Scene, o: Order): Order {
    o.(brokerId := Some(|s.b.orders|), status := Pending)
  }

  /** The order as stored passes every check a linked order has to pass. */
  lemma StoredOK(s: Scene, o: Order, at: int)
    requires FreshOrder(s.cfg, o, at)
    ensures var stored := StoredOrder(s, o);
            && BrokerOrderOK(s.cfg, stored, |s.b.orders|) && OrderShape(s.cfg, stored)
            && stored.cycle.None? && o.quantity > 0 && o.strategy.Some?
  {
  }

  lemma ProposableInView(s: Scene, o: Order, k: nat)
    requires Inv(s) && Sized(s) && k < |s.d.positions|
    requires o.symbol == s.d.positions[k].symbol && o.strategy == Some(s.d.positions[k].strategy)
    requires Proposable(s.d, o, o.strategy.value) && o.placedAt > s.clock
    ensures ProposableView(ViewOf(s.b, s.d, s.g.lanes[k], k), StoredOrder(s, o))
  {
    hide Inv;
    FindPositionAt(s.d.positions, k, o.strategy);
    LastCallEarlier(s, s.d.positions[k].cycle, o.placedAt);
  }

  /** The scene after placing `o` for position k. */
  function PlacedScene(s: Scene, o: Order, k: nat): Scene
    requires k < |s.d.positions| && |s.g.lanes| == |s.d.positions|
  {
    var stored := StoredOrder(s, o);
    Placed(s, stored, k, PlacedLane(s.g.lanes[k], stored, |s.b.orders|), PlacedState(s.cfg, stored, s.d.positions[k]))
  }

  /** The router's writes are exactly those of PlacedScene. */
  lemma PlaceWrites(s: Scene, o: Order, k: nat)
    requires Inv(s) && Sized(s) && k < |s.d.positions|
    requires o.clientId.Some? && FindClient(s.d.orders, o.clientId.value).None? && o.quantity > 0
    requires o.symbol == s.d.positions[k].symbol && o.strategy == Some(s.d.positions[k].strategy)
    ensures (PlacedScene(s, o, k).b, PlacedScene(s, o, k).d) == PlaceOrder(s.cfg, s.b, s.d, o, o.strategy.value)
  {
    hide Inv, TargetState;
    FindPositionAt(s.d.positions, k, Some(s.d.positions[k].strategy));
    FreshAtBroker(s, o.clientId.value);
    var stored := StoredOrder(s, o);
    assert Place(s.b, o) == (s.b.(orders := s.b.orders + [stored]), Some(stored));
    assert PersistOrder(s.d, stored) == s.d.(orders := s.d.orders + [stored]);
    if KeepsPosition(stored, s.d.positions[k].strategy) {
      assert s.d.positions[k := s.d.positions[k].(state := s.d.positions[k].state)] == s.d.positions;
    }
  }

  lemma PlacedExposure(cfg: Config, p: Position, o: Order, v: View)
    requires ProposableView(v, o) && v.p == p && OrderShape(cfg, o) && o.strategy == Some(p.strategy)
    ensures Exposed(p.state) ==> Exposed(PlacedState(cfg, o, p))
  {
  }

  lemma PlaceOnPosition(s: Scene, o: Order, at: int, k: nat)
    requires Inv(s) && Sized(s) && k < |s.d.positions| && at > s.clock
    requires FreshOrder(s.cfg, o, at) && FindClient(s.d.orders, o.clientId.value).None?
    requires o.symbol == s.d.positions[k].symbol && o.strategy == Some(s.d.positions[k].strategy)
    requires !HasInflight(s.d.orders, o.symbol) && Proposable(s.d, o, o.strategy.value)
    ensures Inv(PlacedScene(s, o, k))
  {
    hide Inv, StateOK, LegsOK, OrderShape, DigestOf, BrokerOrderOK, ProposableView, PlacedState, Exposed;
    var l, p, stored := s.g.lanes[k], s.d.positions[k], StoredOrder(s, o);
    var id := |s.b.orders|;
    var l', state := PlacedLane(l, stored, id), PlacedState(s.cfg, stored, p);
    Unoccupied(s, k);
    InvLane(s, k);
    StoredOK(s, o, at);
    ProposableInView(s, o, k);
    var v := ViewOf(s.b, s.d, l, k);
    LanePlaced(s.cfg, l, v, stored, id);
    PlacedExposure(s.cfg, p, stored, v);
    var s' := Placed(s, stored, k, l', state);
    UntaggedAppended(s.d.orders, stored);
    assert ViewOf(s'.b, s'.d, l', k) == v.(p := p.(state := state), work := Some(stored));
    PlacedInv(s, stored, k, l', state);
  }

  lemma PlaceKeeps(s: Scene, w: World, o: Order, at: int) returns (s': Scene)
    requires Inv(s) && w.broker == s.b && w.db == s.d && w.clock == s.clock && at > w.clock
    requires LegalPlace(s.cfg, w, o, at)
    ensures Inv(s') && s'.cfg == s.cfg && s'.cash0 == s.cash0 && s'.clock == at
    ensures (s'.b, s'.d) == PlaceOrder(s.cfg, s.b, s.d, o, o.strategy.value)
  {
    hide Inv, OrderShape, Proposable;
    InvSized(s);
    StoredOK(s, o, at);
    var strategy := o.strategy.value;
    FindPositionSound(s.d.positions, o.symbol, Some(strategy));
    var at0 := FindPosition(s.d.positions, o.symbol, Some(strategy));
    if at0.Some? {
      PlaceOnPosition(s, o, at, at0.value);
      PlaceWrites(s, o, at0.value);
      s' := PlacedScene(s, o, at0.value);
    } else {
      var s1 := OpenFirst(s, o, at);
      var k := |s.d.positions|;
      PlaceOnPosition(s1, o, at, k);
      PlaceWrites(s1, o, k);
      s' := PlacedScene(s1, o, k);
      OpenedWrites(s, s1, o, strategy);
    }
  }

  lemma {:induction false} FindPositionAppended(ps: seq<Position>, p: Position, symbol: string, strat: Option<string>)
    requires FindPosition(ps, symbol, strat).None?
    ensures FindPosition(ps + [p], symbol, strat) == if Matches(p, symbol, strat) then Some(|ps|) else None
  {
    assert (ps + [p])[..|ps|] == ps;
  }

  lemma OpenFirst(s: Scene, o: Order, at: int) returns (s1: Scene)
    requires Inv(s) && FreshOrder(s.cfg, o, at)
    requires forall k :: 0 <= k < |s.d.positions| && s.d.positions[k].symbol == o.symbol
               ==> s.d.positions[k].strategy == o.strategy.value
    requires FindPosition(s.d.positions, o.symbol, o.strategy).None? && Proposable(s.d, o, o.strategy.value)
    ensures s1 == Opened(s, o.symbol, o.strategy.value) && Inv(s1) && Sized(s1)
    ensures Proposable(s1.d, o, o.strategy.value) && !KeepsPosition(o, o.strategy.value)
  {
    hide Inv, Proposable, KeepsPosition, OrderShape;
    ManagedStrategy(s.cfg, o);
    s1 := Opened(s, o.symbol, o.strategy.value);
    FindPositionSound(s.d.positions, o.symbol, o.strategy);
    assert forall k :: 0 <= k < |s.d.positions| ==> !Matches(s.d.positions[k], o.symbol, o.strategy);
    assert !KnownSymbol(s.d.positions, o.symbol);
    OpenedInv(s, o.symbol, o.strategy.value);
    InvSized(s1);
    FindPositionAppended(s.d.positions, s1.d.positions[|s.d.positions|], o.symbol, o.strategy);
    StillProposable(s.d, s1.d, o);
  }

  lemma ManagedStrategy(cfg: Config, o: Order)
    requires OrderShape(cfg, o)
    ensures o.strategy.Some? && o.strategy.value !in cfg.swing && o.strategy.value != "pmcc"
    ensures o.strategy.value != "calendar"
  {
  }

  /** A pair without a row reads flat, as does one whose row was just added idle. */
  lemma StillProposable(d: Db, d1: Db, o: Order)
    requires o.strategy.Some? && FindPosition(d.positions, o.symbol, o.strategy).None? && |d1.positions| > 0
    requires d1 == d.(positions := d.positions + [Position(o.symbol, o.strategy.value, Idle, 0, None, None)])
    requires FindPosition(d1.positions, o.symbol, o.strategy) == Some(|d.positions|)
    requires Proposable(d, o, o.strategy.value)
    ensures Proposable(d1, o, o.strategy.value) && !KeepsPosition(o, o.strategy.value)
  {
    hide FindPosition, FirstCsp, LastCall, Package, LegContracts, Tagged;
  }

  /** Inserting the pending position at once, or inserting it idle and moving it, is the same. */
  lemma OpenedWrites(s: Scene, s1: Scene, o: Order, strategy: string)
    requires s1 == Opened(s, o.symbol, strategy) && o.strategy == Some(strategy) && strategy !in s.cfg.swing
    requires FindPosition(s.d.positions, o.symbol, Some(strategy)).None?
    requires o.clientId.Some? && FindClient(s.d.orders, o.clientId.value).None?
    requires !KeepsPosition(o, strategy) && Place(s.b, o).1.Some?
    requires Place(s.b, o).1.value == StoredOrder(s, o)
    ensures PlaceOrder(s1.cfg, s1.b, s1.d, o, strategy) == PlaceOrder(s.cfg, s.b, s.d, o, strategy)
  {
    var n := |s.d.positions|;
    FindPositionAppended(s.d.positions, s1.d.positions[n], o.symbol, Some(strategy));
    var stored := StoredOrder(s, o);
    var d, d1 := PersistOrder(s.d, stored), PersistOrder(s1.d, stored);
    assert d1.positions == d.positions + [Position(o.symbol, strategy, Idle, 0, None, None)];
    var u, u1 := UpsertPending(s.cfg, d, stored, strategy), UpsertPending(s1.cfg, d1, stored, strategy);
    assert u1.positions == u.positions;
  }

  // ---- _replace_stale_pending on a close ----

  /** The stale close is cancelled in both books; its lane waits for nothing. */
  function Replaced(s: Scene, i: nat, j: nat, k: nat): Scene
    requires i < |s.b.orders| && j < |s.d.orders| && k < |s.g.lanes|
  {
    s.(b := s.b.(orders := s.b.orders[i := s.b.orders[i].(status := Cancelled)]),
       d := s.d.(orders := s.d.orders[j := s.d.orders[j].(status := Cancelled)]),
       g := s.g.(lanes := s.g.lanes[k := s.g.lanes[k].(work := None)]))
  }

  lemma LaneReleased(cfg: Config, l: Lane, v: View)
    requires StateOK(cfg, l, v) && LegsOK(cfg, l, v)
    requires v.work.Some? && !v.work.value.status.Filled?
    requires v.work.value.orderType.BuyToClose? || v.work.value.orderType.MultiLegClose?
    ensures StateOK(cfg, l.(work := None), v.(work := None)) && LegsOK(cfg, l.(work := None), v.(work := None))
  {
  }

  /** Rewriting an untagged row as another untagged row changes nothing any cycle shows. */
  lemma UntaggedRewritten(rows: seq<Order>, j: nat, r: Order)
    requires j < |rows| && rows[j].cycle.None? && r.cycle.None?
    ensures forall cy: nat :: Tagged(rows[j := r], cy) == Tagged(rows, cy)
    ensures Booked(rows[j := r]) == Booked(rows)
  {
    forall cy: nat ensures Tagged(rows[j := r], cy) == Tagged(rows, cy) { TaggedRewrite(rows, j, r, cy); }
    BookedRewrite(rows, j, r);
  }

  lemma ClientRewritten(rows: seq<Order>, j: nat, r: Order)
    requires j < |rows| && rows[j].clientId == r.clientId
    ensures forall cid :: FindClient(rows[j := r], cid) == FindClient(rows, cid)
  {
    forall cid ensures FindClient(rows[j := r], cid) == FindClient(rows, cid) {
      FindClientStable(rows, rows[j := r], cid);
    }
  }

  lemma ReplacedLanes(s: Scene, i: nat, j: nat, k: nat)
    requires Inv(s) && Sized(s) && i < |s.b.orders| && j == s.g.row[i] && k == s.g.lane[i]
    requires j < |s.d.orders| && k < |s.d.positions| && s.d.orders[j].cycle.None?
    requires var s' := Replaced(s, i, j, k); LaneOK(s.cfg, s'.b, s'.d, s'.g.lanes[k], k)
    ensures Lanes(Replaced(s, i, j, k))
  {
    hide Inv, StateOK, LegsOK, DigestOf, Managed;
    var s' := Replaced(s, i, j, k);
    UntaggedRewritten(s.d.orders, j, s'.d.orders[j]);
    forall m | 0 <= m < |s'.d.positions| ensures LaneHolds(s', m) {
      if m != k {
        InvLane(s, m);
        assert ViewOf(s'.b, s'.d, s.g.lanes[m], m) == ViewOf(s.b, s.d, s.g.lanes[m], m);
      }
    }
  }

  lemma ReplacedOrders(s: Scene, i: nat, j: nat, k: nat)
    requires Inv(s) && Sized(s) && i < |s.b.orders| && j == s.g.row[i] && k == s.g.lane[i]
    requires j < |s.d.orders| && k < |s.d.positions| && s.g.lanes[k].work == Some(i)
    requires Working(s.d.orders[j].status) && Working(s.b.orders[i].status)
    ensures var s' := Replaced(s, i, j, k); Sized(s') && Links(s') && Rows(s') && Works(s')
  {
    hide Inv, LaneOK, OrderShape, Telescopes, DigestOf;
    var s' := Replaced(s, i, j, k);
    InvOrder(s, i);
    ClientRewritten(s.d.orders, j, s'.d.orders[j]);
    ShapeKept(s.cfg, s.b.orders[i], s'.b.orders[i]);
    forall m | 0 <= m < |s'.b.orders| ensures LinkOK(s', m) { InvOrder(s, m); }
    forall m | 0 <= m < |s'.d.orders| ensures RowOK(s', m) { InvRow(s, m); }
    forall m | 0 <= m < |s'.d.positions| ensures WorkOK(s', m) {
      InvLane(s, m);
      if m != k && s.g.lanes[m].work.Some? { InvOrder(s, s.g.lanes[m].work.value); }
    }
  }

  lemma ReplacedInv(s: Scene, i: nat, j: nat, k: nat)
    requires Inv(s) && Sized(s) && i < |s.b.orders| && j == s.g.row[i] && k == s.g.lane[i]
    requires j < |s.d.orders| && k < |s.d.positions| && s.g.lanes[k].work == Some(i)
    requires Working(s.d.orders[j].status) && Working(s.b.orders[i].status)
    requires var s' := Replaced(s, i, j, k); LaneOK(s.cfg, s'.b, s'.d, s'.g.lanes[k], k)
    ensures Inv(Replaced(s, i, j, k))
  {
    hide LaneOK, OrderShape, Telescopes, DigestOf, Exposed, StockOf, Links, Rows, Works, Lanes;
    var s' := Replaced(s, i, j, k);
    RowUntagged(s, i, j);
    ReplacedLanes(s, i, j, k);
    ReplacedOrders(s, i, j, k);
    UntaggedRewritten(s.d.orders, j, s'.d.orders[j]);
    SumDueSet(s.g.lanes, k, s'.g.lanes[k]);
    forall cy | 0 <= cy < |s'.d.cycles| ensures CycleOK(s', cy) { assert CycleOK(s, cy); }
    forall m | 0 <= m < |s'.d.positions| ensures PointerOK(s', m) { assert PointerOK(s, m); }
  }

  /** A row still working carries no cycle. */
  lemma RowUntagged(s: Scene, i: nat, j: nat)
    requires Inv(s) && Sized(s) && i < |s.b.orders| && j == s.g.row[i] && j < |s.d.orders|
             && Working(s.d.orders[j].status)
    ensures s.d.orders[j].cycle.None?
  {
    hide Inv, OrderShape;
    InvOrder(s, i);
  }

  lemma ReplaceKeeps(s: Scene, j: nat) returns (s': Scene)
    requires Inv(s) && j < |s.d.orders| && Working(s.d.orders[j].status)
    requires s.d.orders[j].orderType.BuyToClose? || s.d.orders[j].orderType.MultiLegClose?
    ensures Inv(s') && s'.cfg == s.cfg && s'.cash0 == s.cash0 && s'.clock == s.clock
    ensures (s'.b, s'.d) == CancelStale(s.b, s.d, j)
  {
    hide Inv, StateOK, LegsOK, OrderShape, DigestOf;
    InvSized(s);
    InvRow(s, j);
    var i := s.d.orders[j].brokerId.value;
    InvOrder(s, i);
    if !Working(s.b.orders[i].status) { return s; }
    var k := s.g.lane[i];
    InvLane(s, k);
    s' := Replaced(s, i, j, k);
    var l := s.g.lanes[k];
    var v := ViewOf(s.b, s.d, l, k);
    LaneReleased(s.cfg, l, v);
    UntaggedRewritten(s.d.orders, j, s'.d.orders[j]);
    assert ViewOf(s'.b, s'.d, s'.g.lanes[k], k) == v.(work := None);
    ReplacedInv(s, i, j, k);
  }

  /** Time passes. */
  lemma LaterKeeps(s: Scene, now: int)
    requires Inv(s) && now >= s.clock
    ensures Inv(s.(clock := now))
  {
    hide LaneOK, BrokerOrderOK, SameOrder, Settled, Telescopes, DigestOf;
    var s' := s.(clock := now);
    forall m | 0 <= m < |s'.b.orders| ensures LinkOK(s', m) { assert LinkOK(s, m); }
    forall m | 0 <= m < |s'.d.orders| ensures RowOK(s', m) { assert RowOK(s, m); }
    forall m | 0 <= m < |s'.d.positions| ensures WorkOK(s', m) { assert WorkOK(s, m); }
    forall m | 0 <= m < |s'.d.positions| ensures LaneHolds(s', m) { assert LaneHolds(s, m); }
    forall cy | 0 <= cy < |s'.d.cycles| ensures CycleOK(s', cy) { assert CycleOK(s, cy); }
    forall m | 0 <= m < |s'.d.positions| ensures PointerOK(s', m) { assert PointerOK(s, m); }
  }
}
