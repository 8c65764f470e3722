/** Processing a filled order view: opening, continuing and ending cycles. */
module LedgerOrderFills {
  import opened Models
  import opened PaperBrokers
  import opened Repos
  import opened Router
  import opened Reconciler
  import opened Ledger
  import opened LedgerTables
  import opened LedgerInvariant
  import opened LedgerBroker
  import opened LedgerRouter
  import opened LedgerStep
  import opened LedgerOrders

  /** The lane once the books show its order's fill. */
  function SettledLane(l: Lane, o: Order): Lane {
    l.(work := None, fate := if l.fate.BoughtBack? then Resting else l.fate, due := l.due - Flow(o))
  }

  // ---- Fills that open a cycle: a short put, a package ----

  predicate OpensCycle(o: Order) {
    o.orderType.MultiLegOpen? || (o.orderType.SellToOpen? && IsPut(o))
  }

  function OpenState(o: Order): PositionState {
    if o.orderType.MultiLegOpen? then SpreadOpen else CspOpen
  }

  function OpenStrike(o: Order): Option<real> {
    if o.orderType.MultiLegOpen? then None else StrikeOf(o)
  }

  lemma LaneOpened(cfg: Config, l: Lane, v: View, o: Order, c: Cycle, dg: Digest, cy: nat)
    requires StateOK(cfg, l, v) && LegsOK(cfg, l, v) && v.work == Some(o)
    requires OrderShape(cfg, o) && o.status.Filled? && o.strategy == Some(v.p.strategy) && OpensCycle(o)
    requires c.endedAt.None? && c.strike == OpenStrike(o)
    requires dg == DigestOf([o.(cycle := Some(cy))])
    ensures var v' := v.(work := None, p := v.p.(state := OpenState(o), cycle := Some(cy)), cyc := Some(c), dg := dg);
            StateOK(cfg, SettledLane(l, o), v') && LegsOK(cfg, SettledLane(l, o), v')
    ensures !Exposed(v.p.state) && Live(v.p)
  {
    DigestOne(o.(cycle := Some(cy)));
  }

  function OpenedCycle(s: Scene, o: Order, price: real, now: int): Cycle {
    Cycle(o.symbol, o.strategy, now, None, OpenStrike(o), Some(Notional(price, o.quantity)), None, None)
  }

  function OpenScene(s: Scene, i: nat, j: nat, k: nat, c: Cycle, log: seq<StateLog>): Scene
    requires i < |s.b.orders| && j < |s.d.orders| && k < |s.d.positions| && |s.g.lanes| == |s.d.positions|
  {
    var o, cy := s.b.orders[i], |s.d.cycles|;
    s.(d := Db(s.d.orders[j := o.(cycle := Some(cy))],
               s.d.positions[k := s.d.positions[k].(state := OpenState(o), cycle := Some(cy))],
               s.d.cycles + [c], log),
       g := s.g.(lanes := s.g.lanes[k := SettledLane(s.g.lanes[k], o)], owner := s.g.owner + [k]))
  }

  /** The opened lane: its view shows the new cycle with the one row. */
  lemma OpenLane(s: Scene, i: nat, j: nat, k: nat, c: Cycle, log: seq<StateLog>)
    requires Awaited(s, i, j, k) && s.b.orders[i].status.Filled? && OpensCycle(s.b.orders[i])
    requires c.endedAt.None? && c.strike == OpenStrike(s.b.orders[i]) && c.premium == Some(Brought(s.b.orders[i]))
    ensures var s' := OpenScene(s, i, j, k, c, log);
            && PremiumOK(c, DigestOf(Tagged(s'.d.orders, |s.d.cycles|)))
            && LaneOK(s.cfg, s'.b, s'.d, s'.g.lanes[k], k) && !Exposed(s.d.positions[k].state)
            && (forall cy: nat :: cy != |s.d.cycles| ==> Tagged(s'.d.orders, cy) == Tagged(s.d.orders, cy))
            && Booked(s'.d.orders) == Booked(s.d.orders) + Flow(s.b.orders[i])
  {
    hide Inv, StateOK, LegsOK, OrderShape, Flow, OpensCycle, OpenStrike, DigestOf, OpenState, SettledLane;
    AwaitedFacts(s, i, j, k);
    var s' := OpenScene(s, i, j, k, c, log);
    var l, o, p := s.g.lanes[k], s.b.orders[i], s.d.positions[k];
    var cy := |s.d.cycles|;
    var v := ViewOf(s.b, s.d, l, k);
    var r' := o.(cycle := Some(cy));
    var a, b := TagEffect(s.d.orders, j, r', cy);
    NewCycleUntagged(s);
    assert a == [] && b == [];
    assert Tagged(s'.d.orders, cy) == [r'];
    var dg := DigestOf([r']);
    LaneOpened(s.cfg, l, v, o, c, dg, cy);
    NoWork(l, o);
    assert ViewOf(s'.b, s'.d, s'.g.lanes[k], k)
        == v.(work := None, p := p.(state := OpenState(o), cycle := Some(cy)), cyc := Some(c), dg := dg);
    FlowUntouched(o, Some(cy));
    OpenPremium(s.cfg, o, cy, c);
  }

  /** The one row of a new cycle is the one its premium comes from. */
  lemma OpenPremium(cfg: Config, o: Order, cy: nat, c: Cycle)
    requires OrderShape(cfg, o) && o.status.Filled? && o.fillPrice.Some? && OpensCycle(o)
    requires c.premium == Some(Brought(o))
    ensures PremiumOK(c, DigestOf([o.(cycle := Some(cy))]))
  {
    hide Brought, DigestOf;
    var r := o.(cycle := Some(cy));
    DigestOne(r);
    assert IsCsp(r) || r.orderType.MultiLegOpen?;
    BroughtSame(o, cy);
  }

  lemma BroughtSame(o: Order, cy: nat)
    ensures Brought(o.(cycle := Some(cy))) == Brought(o)
  {
    var price, n := if o.fillPrice.Some? then o.fillPrice.value else 0.0, 100 * o.quantity;
    assert o.(cycle := Some(cy)).fillPrice == o.fillPrice;
  }

  lemma NoWork(l: Lane, o: Order)
    ensures SettledLane(l, o).work.None?
  {
  }

  lemma OpenInv(s: Scene, i: nat, j: nat, k: nat, c: Cycle, log: seq<StateLog>)
    requires Awaited(s, i, j, k) && s.b.orders[i].status.Filled? && OpensCycle(s.b.orders[i])
    requires c.endedAt.None? && c.strike == OpenStrike(s.b.orders[i]) && c.premium == Some(Brought(s.b.orders[i]))
    requires c.symbol == s.b.orders[i].symbol && c.strategy == s.b.orders[i].strategy
    ensures Inv(OpenScene(s, i, j, k, c, log))
  {
    hide Inv, LaneOK, OrderShape, Flow, OpensCycle, OpenStrike, DigestOf, Tagged, Booked, StateOK, LegsOK;
    AwaitedFacts(s, i, j, k);
    var s' := OpenScene(s, i, j, k, c, log);
    OpenLane(s, i, j, k, c, log);
    OnlyActiveOpen(s, k);
    var act := Some(|s.d.cycles|);
    assert NothingOpenElse(s, k, act);
    SettledLinks(s, s', i, k, act);
    SettledRows(s, s', i, k, act);
    StepInv(s, s', k, act);
  }

  lemma FlowUntouched(o: Order, cycle: Option<nat>)
    ensures Flow(o.(cycle := cycle)) == Flow(o)
  {
  }

  lemma BroughtIs(o: Order)
    requires o.fillPrice.Some?
    ensures Brought(o) == Notional(o.fillPrice.value, o.quantity)
  {
  }

  lemma OpenSpec(s: Scene, t: Tick, i: nat, j: nat, k: nat, now: int) returns (c: Cycle, log: seq<StateLog>)
    requires Awaited(s, i, j, k) && s.b.orders[i].status.Filled? && OpensCycle(s.b.orders[i]) && t.db == s.d
    ensures c.endedAt.None? && c.strike == OpenStrike(s.b.orders[i]) && c.premium == Some(Brought(s.b.orders[i]))
    ensures c.symbol == s.b.orders[i].symbol && c.strategy == s.b.orders[i].strategy
    ensures var t' := ProcessOrder(s.cfg, t, s.b.orders[i], now);
            t'.db == OpenScene(s, i, j, k, c, log).d && Quiet(t, t') && t'.sum.fills == t.sum.fills + [j]
  {
    hide Inv, StateOK, LegsOK, DigestOf, OrderShape;
    AwaitedFacts(s, i, j, k);
    var o, r := s.b.orders[i], s.d.orders[j];
    c := OpenedCycle(s, o, o.fillPrice.value, now);
    BroughtIs(o);
    var d1 := SetOrder(t.db, j, o);
    var t1 := t.(db := d1);
    assert ProcessOrder(s.cfg, t, o, now) == OnFill(s.cfg, t1, j, r, o, now);
    var t0 := t1.(sum := t1.sum.(fills := t1.sum.fills + [j]));
    var strategy := if o.orderType.MultiLegOpen? then o.strategy else None;
    assert OnFill(s.cfg, t1, j, r, o, now)
        == OpenOnFill(t0, Some(k), j, r, OpenStrike(o), c.premium.value, OpenState(o), strategy, now);
    var t' := OpenOnFill(t0, Some(k), j, r, OpenStrike(o), c.premium.value, OpenState(o), strategy, now);
    log := t'.db.log;
    assert t'.db.orders == s.d.orders[j := o.(cycle := Some(|s.d.cycles|))];
  }

  // ---- Fills inside a cycle: a covered call, its buyback ----

  predicate ContinuesCycle(o: Order) {
    !IsPut(o) && (o.orderType.SellToOpen? || o.orderType.BuyToClose?)
  }

  function ContinueState(o: Order): PositionState {
    if o.orderType.SellToOpen? then CcOpen else SharesHeld
  }

  lemma LaneContinued(cfg: Config, l: Lane, v: View, o: Order, a: seq<Order>, b: seq<Order>, cy: nat)
    requires StateOK(cfg, l, v) && LegsOK(cfg, l, v) && v.work == Some(o)
    requires OrderShape(cfg, o) && o.status.Filled? && o.strategy == Some(v.p.strategy) && ContinuesCycle(o)
    requires v.dg == DigestOf(a + b)
    ensures Exposed(v.p.state) && OpenCycleOf(v)
    ensures var dg := DigestOf(a + [o.(cycle := Some(cy))] + b); dg.first == v.dg.first && dg.package == v.dg.package
    ensures var r := o.(cycle := Some(cy));
            var v' := v.(work := None, p := v.p.(state := ContinueState(o)), dg := DigestOf(a + [r] + b));
            StateOK(cfg, SettledLane(l, o), v') && LegsOK(cfg, SettledLane(l, o), v')
  {
    var r := o.(cycle := Some(cy));
    if o.orderType.SellToOpen? { DigestCall(a, r, b); } else { DigestSkip(a, r, b); }
  }

  function ContinueScene(s: Scene, i: nat, j: nat, k: nat, cy: nat, log: seq<StateLog>): Scene
    requires i < |s.b.orders| && j < |s.d.orders| && k < |s.d.positions| && |s.g.lanes| == |s.d.positions|
  {
    var o := s.b.orders[i];
    s.(d := Db(s.d.orders[j := o.(cycle := Some(cy))],
               s.d.positions[k := s.d.positions[k].(state := ContinueState(o))], s.d.cycles, log),
       g := s.g.(lanes := s.g.lanes[k := SettledLane(s.g.lanes[k], o)]))
  }

  /** An awaited fill inside a cycle: the position points at that open cycle. */
  lemma ContinueCycle(s: Scene, i: nat, j: nat, k: nat) returns (cy: nat)
    requires Awaited(s, i, j, k) && s.b.orders[i].status.Filled? && ContinuesCycle(s.b.orders[i])
    ensures s.d.positions[k].cycle == Some(cy) && cy < |s.d.cycles| && Exposed(s.d.positions[k].state)
    ensures s.g.owner[cy] == k && s.d.cycles[cy].endedAt.None?
  {
    hide Inv, DigestOf, LegsOK;
    AwaitedFacts(s, i, j, k);
    InvLane(s, k);
    cy := s.d.positions[k].cycle.value;
  }

  lemma ContinueInv(s: Scene, i: nat, j: nat, k: nat, cy: nat, log: seq<StateLog>)
    requires Awaited(s, i, j, k) && s.b.orders[i].status.Filled? && ContinuesCycle(s.b.orders[i])
    requires s.d.positions[k].cycle == Some(cy) && cy < |s.d.cycles| && Exposed(s.d.positions[k].state)
    requires s.g.owner[cy] == k && s.d.cycles[cy].endedAt.None?
    ensures Inv(ContinueScene(s, i, j, k, cy, log))
  {
    hide Inv, StateOK, LegsOK, OrderShape, Flow, ContinuesCycle, DigestOf;
    AwaitedFacts(s, i, j, k);
    var s' := ContinueScene(s, i, j, k, cy, log);
    var l, o, p := s.g.lanes[k], s.b.orders[i], s.d.positions[k];
    var v := ViewOf(s.b, s.d, l, k);
    var r' := o.(cycle := Some(cy));
    var a, b := TagEffect(s.d.orders, j, r', cy);
    LaneContinued(s.cfg, l, v, o, a, b, cy);
    assert ViewOf(s'.b, s'.d, s'.g.lanes[k], k)
        == v.(work := None, p := p.(state := ContinueState(o)), dg := DigestOf(a + [r'] + b));
    OnlyActiveOpen(s, k);
    var act := Some(cy);
    InvCycle(s, cy);
    InvLane(s, k);
    FlowUntouched(o, Some(cy));
    SettledLinks(s, s', i, k, act);
    SettledRows(s, s', i, k, act);
    StepInv(s, s', k, act);
  }

  lemma ContinueSpec(s: Scene, t: Tick, i: nat, j: nat, k: nat, cy: nat, now: int) returns (log: seq<StateLog>)
    requires Awaited(s, i, j, k) && s.b.orders[i].status.Filled? && ContinuesCycle(s.b.orders[i]) && t.db == s.d
    requires s.d.positions[k].cycle == Some(cy)
    ensures var t' := ProcessOrder(s.cfg, t, s.b.orders[i], now);
            t'.db == ContinueScene(s, i, j, k, cy, log).d && Quiet(t, t') && t'.sum.fills == t.sum.fills + [j]
  {
    hide Inv, StateOK, LegsOK, DigestOf, OrderShape;
    AwaitedFacts(s, i, j, k);
    var o, r := s.b.orders[i], s.d.orders[j];
    var d1 := SetOrder(t.db, j, o);
    var t1 := t.(db := d1);
    assert ProcessOrder(s.cfg, t, o, now) == OnFill(s.cfg, t1, j, r, o, now);
    var t' := OnFill(s.cfg, t1, j, r, o, now);
    log := t'.db.log;
    assert t'.db.orders == s.d.orders[j := o.(cycle := Some(cy))];
  }

  // ---- Fills that end a cycle: a put bought back, a package closed ----

  predicate EndsCycle(o: Order) {
    o.orderType.MultiLegClose? || (o.orderType.BuyToClose? && IsPut(o))
  }

  function EndState(o: Order): PositionState {
    if o.orderType.MultiLegClose? then SpreadClosed else Idle
  }

  /** A closed package clears the pointer; a bought-back put leaves it on the closed cycle. */
  function EndPointer(o: Order, cy: nat): Option<nat> {
    if o.orderType.MultiLegClose? then None else Some(cy)
  }

  function EndOutcome(o: Order): CycleOutcome {
    if o.orderType.MultiLegClose? then SpreadCloseOutcome(o.strategy) else CspClosedProfit
  }

  lemma LaneEnded(cfg: Config, l: Lane, v: View, o: Order, v': View)
    requires StateOK(cfg, l, v) && LegsOK(cfg, l, v) && v.work == Some(o)
    requires OrderShape(cfg, o) && o.status.Filled? && o.strategy == Some(v.p.strategy) && EndsCycle(o)
    requires v'.p == v.p.(state := EndState(o), cycle := v'.p.cycle)
    requires v'.work.None? && v'.shares == v.shares && v'.legs == v.legs
    ensures Exposed(v.p.state) && OpenCycleOf(v)
    ensures StateOK(cfg, SettledLane(l, o), v') && LegsOK(cfg, SettledLane(l, o), v')
  {
  }

  function EndScene(s: Scene, i: nat, j: nat, k: nat, cy: nat, c: Cycle, log: seq<StateLog>): Scene
    requires i < |s.b.orders| && j < |s.d.orders| && k < |s.d.positions| && |s.g.lanes| == |s.d.positions|
    requires cy < |s.d.cycles|
  {
    var o := s.b.orders[i];
    s.(d := Db(s.d.orders[j := o.(cycle := Some(cy))],
               s.d.positions[k := s.d.positions[k].(state := EndState(o), cycle := EndPointer(o, cy))],
               s.d.cycles[cy := c], log),
       g := s.g.(lanes := s.g.lanes[k := SettledLane(s.g.lanes[k], o)]))
  }

  lemma EndCycle(s: Scene, i: nat, j: nat, k: nat) returns (cy: nat)
    requires Awaited(s, i, j, k) && s.b.orders[i].status.Filled? && EndsCycle(s.b.orders[i])
    ensures s.d.positions[k].cycle == Some(cy) && cy < |s.d.cycles| && Exposed(s.d.positions[k].state)
    ensures s.g.owner[cy] == k && s.d.cycles[cy].endedAt.None?
  {
    hide Inv, DigestOf, LegsOK;
    AwaitedFacts(s, i, j, k);
    InvLane(s, k);
    cy := s.d.positions[k].cycle.value;
  }

  /** Closing rows leave the opening row and its premium as they were. */
  lemma EndPremium(s: Scene, i: nat, j: nat, k: nat, cy: nat, c: Cycle)
    requires Awaited(s, i, j, k) && s.b.orders[i].status.Filled? && EndsCycle(s.b.orders[i])
    requires cy < |s.d.cycles| && c.premium == s.d.cycles[cy].premium
    ensures PremiumOK(c, DigestOf(Tagged(s.d.orders[j := s.b.orders[i].(cycle := Some(cy))], cy)))
  {
    hide Inv, StateOK, LegsOK, OrderShape, Flow, DigestOf, Brought;
    AwaitedFacts(s, i, j, k);
    var r := s.b.orders[i].(cycle := Some(cy));
    var a, b := TagEffect(s.d.orders, j, r, cy);
    DigestSkip(a, r, b);
    InvCycle(s, cy);
  }

  /** The lane and the cycle of an ended position. */
  lemma EndParts(s: Scene, i: nat, j: nat, k: nat, cy: nat, c: Cycle, log: seq<StateLog>)
    requires Awaited(s, i, j, k) && s.b.orders[i].status.Filled? && EndsCycle(s.b.orders[i])
    requires s.d.positions[k].cycle == Some(cy) && cy < |s.d.cycles|
    requires s.g.owner[cy] == k && c.endedAt.Some? && c.outcome != Some(CcCalledAway)
    requires c.premium == s.d.cycles[cy].premium
    requires c.symbol == s.d.cycles[cy].symbol && c.strategy == s.d.cycles[cy].strategy
    requires c.finalPnl == Some(FlowSum(Tagged(s.d.orders[j := s.b.orders[i].(cycle := Some(cy))], cy)))
    ensures var s' := EndScene(s, i, j, k, cy, c, log);
            Sized(s') && LaneHolds(s', k) && PointerOK(s', k) && CycleOK(s', cy)
  {
    hide Inv, StateOK, LegsOK, OrderShape, Flow, EndsCycle, DigestOf, Telescopes, PremiumOK;
    AwaitedFacts(s, i, j, k);
    EndPremium(s, i, j, k, cy, c);
    var s' := EndScene(s, i, j, k, cy, c, log);
    var l, o := s.g.lanes[k], s.b.orders[i];
    LaneEnded(s.cfg, l, ViewOf(s.b, s.d, l, k), o, ViewOf(s'.b, s'.d, s'.g.lanes[k], k));
    InvCycle(s, cy);
    InvLane(s, k);
  }

  lemma EndInv(s: Scene, i: nat, j: nat, k: nat, cy: nat, c: Cycle, log: seq<StateLog>)
    requires Awaited(s, i, j, k) && s.b.orders[i].status.Filled? && EndsCycle(s.b.orders[i])
    requires s.d.positions[k].cycle == Some(cy) && cy < |s.d.cycles| && Exposed(s.d.positions[k].state)
    requires s.g.owner[cy] == k && s.d.cycles[cy].endedAt.None?
    requires c.symbol == s.d.cycles[cy].symbol && c.strategy == s.d.cycles[cy].strategy && c.endedAt.Some?
    requires c.outcome != Some(CcCalledAway) && c.premium == s.d.cycles[cy].premium
    requires c.finalPnl == Some(FlowSum(Tagged(s.d.orders[j := s.b.orders[i].(cycle := Some(cy))], cy)))
    ensures Inv(EndScene(s, i, j, k, cy, c, log))
  {
    hide Inv, LaneHolds, PointerOK, CycleOK, PremiumOK, OrderShape, Flow, EndsCycle, DigestOf, StateOK, LegsOK;
    AwaitedFacts(s, i, j, k);
    EndParts(s, i, j, k, cy, c, log);
    var s' := EndScene(s, i, j, k, cy, c, log);
    var o, act := s.b.orders[i], Some(cy);
    var a, b := TagEffect(s.d.orders, j, o.(cycle := Some(cy)), cy);
    OnlyActiveOpen(s, k);
    FlowUntouched(o, Some(cy));
    SettledLinks(s, s', i, k, act);
    SettledRows(s, s', i, k, act);
    StepInv(s, s', k, act);
  }

  lemma EndSpec(s: Scene, t: Tick, i: nat, j: nat, k: nat, cy: nat, now: int) returns (c: Cycle, log: seq<StateLog>)
    requires Awaited(s, i, j, k) && s.b.orders[i].status.Filled? && EndsCycle(s.b.orders[i]) && t.db == s.d
    requires s.d.positions[k].cycle == Some(cy) && cy < |s.d.cycles| && s.d.cycles[cy].endedAt.None?
    ensures c.symbol == s.d.cycles[cy].symbol && c.strategy == s.d.cycles[cy].strategy && c.endedAt == Some(now)
    ensures c.premium == s.d.cycles[cy].premium
    ensures c.finalPnl == Some(FlowSum(Tagged(s.d.orders[j := s.b.orders[i].(cycle := Some(cy))], cy)))
    ensures c.outcome == Some(Honest(EndOutcome(s.b.orders[i]), c.finalPnl.value)) && c.outcome != Some(CcCalledAway)
    ensures var t' := ProcessOrder(s.cfg, t, s.b.orders[i], now);
            t'.db == EndScene(s, i, j, k, cy, c, log).d && Quiet(t, t') && t'.sum.fills == t.sum.fills + [j]
  {
    hide Inv, StateOK, LegsOK, DigestOf, OrderShape, Tagged, FlowSum;
    AwaitedFacts(s, i, j, k);
    var o, r := s.b.orders[i], s.d.orders[j];
    var r' := o.(cycle := Some(cy));
    var pnl := FlowSum(Tagged(s.d.orders[j := r'], cy));
    c := s.d.cycles[cy].(endedAt := Some(now), finalPnl := Some(pnl), outcome := Some(Honest(EndOutcome(o), pnl)));
    var d1 := SetOrder(t.db, j, o);
    var t1 := t.(db := d1);
    assert ProcessOrder(s.cfg, t, o, now) == OnFill(s.cfg, t1, j, r, o, now);
    var t' := OnFill(s.cfg, t1, j, r, o, now);
    assert SetOrder(d1, j, r') == s.d.(orders := s.d.orders[j := r']);
    log := t'.db.log;
    assert t'.db.orders == s.d.orders[j := r'];
    assert t'.db.cycles == s.d.cycles[cy := c];
    assert t'.db.positions == EndScene(s, i, j, k, cy, c, log).d.positions;
  }
}
