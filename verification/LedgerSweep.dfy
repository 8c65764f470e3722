/** The position phase of a tick: each row's inferred transition keeps the ledger invariant. */
module LedgerSweep {
  import opened Models
  import opened PaperBrokers
  import opened Repos
  import opened Router
  import opened Reconciler
  import opened Ledger
  import opened LedgerTables
  import opened LedgerInvariant
  import opened LedgerBroker
  import opened LedgerRouter
  import opened LedgerStep
  import opened LedgerOrders
  import opened LedgerStream
  import opened LedgerShape

  /** The position shows all the broker did: no leg has gone, no order is finished, unseen. */
  predicate Synced(l: Lane, v: View) {
    && l.fate.Resting? && l.due == 0.0
    && (v.work.Some? ==> Working(v.work.value.status))
    && (v.p.state.CspOpen? || v.p.state.CcOpen? || v.p.state.SpreadOpen? ==> v.legs != map[])
  }

  predicate LaneSynced(s: Scene, k: nat)
    requires k < |s.d.positions| && |s.g.lanes| == |s.d.positions|
  {
    Synced(s.g.lanes[k], ViewOf(s.b, s.d, s.g.lanes[k], k))
  }

  ghost predicate AllCaughtUp(s: Scene)
    requires Sized(s)
  {
    forall i :: 0 <= i < |s.b.orders| ==> CaughtUp(s, i)
  }

  /** Position k is up for its turn: nothing the broker did to any order is unseen. */
  ghost predicate Turn(s: Scene, k: nat) {
    Inv(s) && Sized(s) && k < |s.d.positions| && AllCaughtUp(s)
  }

  lemma TurnFacts(s: Scene, k: nat)
    requires Turn(s, k)
    ensures var l := s.g.lanes[k]; var v := ViewOf(s.b, s.d, l, k);
            && StateOK(s.cfg, l, v) && LegsOK(s.cfg, l, v) && Managed(s.cfg, v.p)
            && (v.work.Some? ==> Working(v.work.value.status) && HasInflight(s.d.orders, v.p.symbol))
            && !SharesClaimedByOther(s.d.positions, v.p.symbol, k)
            && FindPosition(s.d.positions, v.p.symbol, Some(v.p.strategy)) == Some(k)
            && (v.p.cycle.Some? ==> v.p.cycle.value < |s.d.cycles| && s.g.owner[v.p.cycle.value] == k)
  {
    hide Inv, StateOK, LegsOK, DigestOf, OrderShape;
    InvLane(s, k);
    var w := s.g.lanes[k].work;
    if w.Some? {
      InvOrder(s, w.value);
      assert CaughtUp(s, w.value);
      assert s.d.orders[s.g.row[w.value]].symbol == s.d.positions[k].symbol;
    }
    FindPositionAt(s.d.positions, k, Some(s.d.positions[k].strategy));
  }

  /** The five turns a position can take. */
  datatype Verdict = Stay | TookShares | LegExpired | CallExpired | GaveShares

  predicate VerdictOf(l: Lane, v: View, d: Verdict) {
    match d
    case Stay => Synced(l, v)
    case TookShares => v.p.state.CspOpen? && l.fate.Delivered?
    case LegExpired => (v.p.state.CspOpen? || v.p.state.SpreadOpen?) && l.fate.Resting? && v.legs == map[]
    case CallExpired => v.p.state.CcOpen? && l.fate.Resting? && v.legs == map[]
    case GaveShares => v.p.state.CcOpen? && l.fate.Delivered?
  }

  function Decide(l: Lane, v: View): Verdict {
    if v.p.state.CspOpen? && l.fate.Delivered? then TookShares
    else if v.p.state.CcOpen? && l.fate.Delivered? then GaveShares
    else if v.p.state.CcOpen? && v.legs == map[] then CallExpired
    else if (v.p.state.CspOpen? || v.p.state.SpreadOpen?) && v.legs == map[] then LegExpired
    else Stay
  }

  lemma DecideRight(cfg: Config, l: Lane, v: View)
    requires StateOK(cfg, l, v) && (v.work.Some? ==> Working(v.work.value.status))
    ensures VerdictOf(l, v, Decide(l, v))
  {
  }

  /** Given the true shape, _diff_one takes the branch the lane calls for. */
  lemma BranchTaken(s: Scene, t: Tick, k: nat, now: int)
    requires Turn(s, k) && t.db == s.d
    ensures var l := s.g.lanes[k]; var v := ViewOf(s.b, s.d, l, k); var p := v.p;
            var r := DiffOne(t, k, p, TrueShape(s.b, p.symbol), now);
            match Decide(l, v)
            case Stay => r == t
            case TookShares => r == OnAssignment(t, k, p, now)
            case LegExpired =>
              r == OnExpiry(t, k, p, if p.state.CspOpen? then CspExpired else SpreadExpiredOutcome(p.strategy), now)
            case CallExpired => r == OnCcExpiry(t, k, p, now)
            case GaveShares => r == OnCalledAway(t, k, p, now)
  {
    hide Inv, AllCaughtUp, DigestOf, OnAssignment, OnExpiry, OnCcExpiry, OnCalledAway, FlagManual, Heal, HealPmcc;
    TurnFacts(s, k);
    var l := s.g.lanes[k];
    var v := ViewOf(s.b, s.d, l, k);
    ShapeInState(s.cfg, l, v);
  }

  /** Legs are puts or calls as the state says. */
  lemma ShapeInState(cfg: Config, l: Lane, v: View)
    requires StateOK(cfg, l, v)
    ensures v.p.state.CspOpen? ==> (HasLeg(v.legs, Put) <==> v.legs != map[])
    ensures v.p.state.CcOpen? ==> (HasLeg(v.legs, Call) <==> v.legs != map[])
  {
    if (v.p.state.CspOpen? || v.p.state.CcOpen?) && v.legs != map[] {
      var c :| c in v.legs;
      assert c == l.leg;
    }
  }

  // ---- Assignment ----

  function AssignedLeg(s: Scene, k: nat, cy: nat, now: int): Order
    requires k < |s.d.positions| && |s.g.lanes| == |s.d.positions|
  {
    StockLeg(s.d.positions[k].symbol, cy, BuyToOpen, 100 * s.g.lanes[k].qty, s.g.lanes[k].leg.strike, now)
  }

  /** The lane once the books show its delivery. */
  function Received(l: Lane): Lane {
    l.(fate := Resting, due := 0.0)
  }

  function AssignedScene(s: Scene, k: nat, cy: nat, cost: Option<real>, now: int, log: seq<StateLog>): Scene
    requires k < |s.d.positions| && |s.g.lanes| == |s.d.positions|
  {
    var p := s.d.positions[k];
    s.(d := Db(s.d.orders + [AssignedLeg(s, k, cy, now)],
               s.d.positions[k := p.(state := SharesHeld, shares := 100 * s.g.lanes[k].qty, costBasis := cost)],
               s.d.cycles, log), g := s.g.(lanes := s.g.lanes[k := Received(s.g.lanes[k])]))
  }

  lemma LaneReceived(cfg: Config, l: Lane, v: View, rows: seq<Order>, r: Order, cost: Option<real>)
    requires StateOK(cfg, l, v) && LegsOK(cfg, l, v) && v.p.state.CspOpen? && l.fate.Delivered?
    requires v.dg == DigestOf(rows) && r.orderType.BuyToOpen? && r.contract.None? && r.status.Filled?
    requires r.quantity == 100 * l.qty && r.fillPrice == Some(l.leg.strike)
    requires v.work.Some? ==> Working(v.work.value.status)
    requires v.dg.first.Some? && v.dg.first.value.contract.Some? && cost == Some(BasisOf(v.dg.first.value))
    ensures DigestOf(rows + [r]).first == v.dg.first && DigestOf(rows + [r]).package == v.dg.package
    ensures Flow(r) == PutDelivery(l) && l.due == PutDelivery(l)
    ensures var v' := v.(p := v.p.(state := SharesHeld, shares := 100 * l.qty, costBasis := cost),
                         dg := DigestOf(rows + [r]));
            StateOK(cfg, Received(l), v') && LegsOK(cfg, Received(l), v') && Synced(Received(l), v')
  {
    DigestStock(rows, r);
  }

  /** The basis the books give the shares: that of the cycle's own filled put row. */
  predicate CostIs(s: Scene, k: nat, cy: nat, cost: Option<real>) {
    var first := FirstCsp(Tagged(s.d.orders, cy));
    first.Some? && first.value.contract.Some? && first.value.fillPrice.Some? && cost == Some(BasisOf(first.value))
  }

  lemma CostOf(s: Scene, k: nat, cy: nat, cost: Option<real>, dg: Digest)
    requires CostIs(s, k, cy, cost) && dg == DigestOf(Tagged(s.d.orders, cy))
    ensures dg.first.Some? && dg.first.value.contract.Some? && cost == Some(BasisOf(dg.first.value))
  {
  }

  /** A premium stays right while the opening row does. */
  lemma SamePremium(c: Cycle, c': Cycle, dg: Digest, dg': Digest)
    requires PremiumOK(c, dg) && c'.premium == c.premium && dg'.first == dg.first && dg'.package == dg.package
    ensures PremiumOK(c', dg')
  {
    hide Brought;
  }

  lemma AssignedInv(s: Scene, k: nat, cy: nat, cost: Option<real>, now: int, log: seq<StateLog>)
    requires Turn(s, k) && s.d.positions[k].state.CspOpen? && s.g.lanes[k].fate.Delivered?
    requires s.d.positions[k].cycle == Some(cy) && now == s.clock
    requires CostIs(s, k, cy, cost)
    ensures Inv(AssignedScene(s, k, cy, cost, now, log)) && LaneSynced(AssignedScene(s, k, cy, cost, now, log), k)
  {
    hide Inv, StateOK, LegsOK, DigestOf, Flow, AllCaughtUp, PutDelivery, Synced, Telescopes, PremiumOK, CostIs, BasisOf;
    TurnFacts(s, k);
    var s' := AssignedScene(s, k, cy, cost, now, log);
    var l, p, r := s.g.lanes[k], s.d.positions[k], AssignedLeg(s, k, cy, now);
    var v := ViewOf(s.b, s.d, l, k);
    var rows := Tagged(s.d.orders, cy);
    CostOf(s, k, cy, cost, v.dg);
    LaneReceived(s.cfg, l, v, rows, r, cost);
    LegAppended(s.d.orders, r, cy);
    assert ViewOf(s'.b, s'.d, s'.g.lanes[k], k) == v.(p := s'.d.positions[k], dg := DigestOf(rows + [r]));
    var act := Some(cy);
    OnlyActiveOpen(s, k);
    InvCycle(s, cy);
    InvLane(s, k);
    CspCycleOpen(s, k, cy);
    SamePremium(s.d.cycles[cy], s.d.cycles[cy], v.dg, DigestOf(rows + [r]));
    AppendedLinks(s, s', k, act, r);
    StepInv(s, s', k, act);
  }

  /** The open cycle an exposed position points at. */
  lemma CspCycleOpen(s: Scene, k: nat, cy: nat)
    requires Turn(s, k) && s.d.positions[k].cycle == Some(cy)
    requires s.d.positions[k].state.CspOpen? || s.d.positions[k].state.CcOpen? || s.d.positions[k].state.SpreadOpen?
    ensures cy < |s.d.cycles| && s.g.owner[cy] == k && s.d.cycles[cy].endedAt.None?
  {
    hide Inv, AllCaughtUp, LegsOK, DigestOf;
    TurnFacts(s, k);
  }

  lemma LegAppended(rows: seq<Order>, r: Order, cy: nat)
    requires r.cycle == Some(cy)
    ensures forall c: nat :: c != cy ==> Tagged(rows + [r], c) == Tagged(rows, c)
    ensures Tagged(rows + [r], cy) == Tagged(rows, cy) + [r]
    ensures Booked(rows + [r]) == Booked(rows) + Flow(r)
  {
    forall c: nat | c != cy ensures Tagged(rows + [r], c) == Tagged(rows, c) { TaggedAppend(rows, r, c); }
    TaggedAppend(rows, r, cy);
    BookedAppend(rows, r);
  }

  lemma AssignedSpec(s: Scene, t: Tick, k: nat, now: int) returns (cy: nat, cost: Option<real>, log: seq<StateLog>)
    requires Turn(s, k) && t.db == s.d && s.d.positions[k].state.CspOpen?
    ensures s.d.positions[k].cycle == Some(cy) && CostIs(s, k, cy, cost)
    ensures var t' := OnAssignment(t, k, s.d.positions[k], now);
            t'.db == AssignedScene(s, k, cy, cost, now, log).d && Quiet(t, t') && t'.sum.fills == t.sum.fills
  {
    hide Inv, AllCaughtUp, LegsOK, FirstCsp, LastCall, Package, Units, StockCash, Tagged;
    TurnFacts(s, k);
    var p := s.d.positions[k];
    cy := p.cycle.value;
    InvCycle(s, cy);
    var t' := OnAssignment(t, k, p, now);
    cost, log := t'.db.positions[k].costBasis, t'.db.log;
    assert t'.db.positions == AssignedScene(s, k, cy, cost, now, log).d.positions;
  }

  // ---- Worthless expiry of a put or of a package ----

  function FlatPosition(p: Position): Position {
    p.(state := Idle, shares := 0, costBasis := None, cycle := None)
  }

  function ExpiredScene(s: Scene, k: nat, cy: nat, c: Cycle, log: seq<StateLog>): Scene
    requires k < |s.d.positions| && cy < |s.d.cycles|
  {
    s.(d := Db(s.d.orders, s.d.positions[k := FlatPosition(s.d.positions[k])], s.d.cycles[cy := c], log))
  }

  lemma LaneExpired(cfg: Config, l: Lane, v: View, v': View)
    requires StateOK(cfg, l, v) && LegsOK(cfg, l, v) && VerdictOf(l, v, LegExpired)
    requires v'.p == FlatPosition(v.p) && v'.work == v.work && v'.shares == v.shares && v'.legs == v.legs
    requires v.work.Some? ==> Working(v.work.value.status)
    ensures OpenCycleOf(v)
    ensures StateOK(cfg, l, v') && LegsOK(cfg, l, v') && Synced(l, v')
  {
  }

  lemma ExpiredInv(s: Scene, k: nat, cy: nat, c: Cycle, log: seq<StateLog>)
    requires Turn(s, k) && VerdictOf(s.g.lanes[k], ViewOf(s.b, s.d, s.g.lanes[k], k), LegExpired)
    requires s.d.positions[k].cycle == Some(cy) && cy < |s.d.cycles|
    requires c.symbol == s.d.cycles[cy].symbol && c.strategy == s.d.cycles[cy].strategy && c.endedAt.Some?
    requires c.premium == s.d.cycles[cy].premium
    requires c.finalPnl == Some(CyclePnl(s.d, cy)) && c.outcome != Some(CcCalledAway)
    ensures Inv(ExpiredScene(s, k, cy, c, log)) && LaneSynced(ExpiredScene(s, k, cy, c, log), k)
  {
    hide Inv, StateOK, LegsOK, DigestOf, AllCaughtUp, Synced, Telescopes, Tagged;
    TurnFacts(s, k);
    var s' := ExpiredScene(s, k, cy, c, log);
    var l := s.g.lanes[k];
    var v := ViewOf(s.b, s.d, l, k);
    LaneExpired(s.cfg, l, v, ViewOf(s'.b, s'.d, l, k));
    var act := Some(cy);
    OnlyActiveOpen(s, k);
    InvCycle(s, cy);
    UntouchedLinks(s, s', k, act);
    StepInv(s, s', k, act);
  }

  lemma ExpiredSpec(s: Scene, t: Tick, k: nat, outcome: CycleOutcome, now: int)
    returns (cy: nat, c: Cycle, log: seq<StateLog>)
    requires Turn(s, k) && t.db == s.d && VerdictOf(s.g.lanes[k], ViewOf(s.b, s.d, s.g.lanes[k], k), LegExpired)
    requires !outcome.CcCalledAway?
    ensures s.d.positions[k].cycle == Some(cy) && cy < |s.d.cycles|
    ensures c.symbol == s.d.cycles[cy].symbol && c.strategy == s.d.cycles[cy].strategy && c.endedAt.Some?
    ensures c.premium == s.d.cycles[cy].premium
    ensures c.finalPnl == Some(CyclePnl(s.d, cy)) && c.outcome != Some(CcCalledAway)
    ensures var t' := OnExpiry(t, k, s.d.positions[k], outcome, now);
            t'.db == ExpiredScene(s, k, cy, c, log).d && Quiet(t, t') && t'.sum.fills == t.sum.fills
  {
    hide Inv, AllCaughtUp, LegsOK, FirstCsp, LastCall, Package, Units, StockCash, Tagged, FlowSum;
    TurnFacts(s, k);
    var p := s.d.positions[k];
    cy := p.cycle.value;
    var t' := OnExpiry(t, k, p, outcome, now);
    c, log := t'.db.cycles[cy], t'.db.log;
    assert t'.db.positions == ExpiredScene(s, k, cy, c, log).d.positions;
    assert t'.db.cycles == s.d.cycles[cy := c];
  }

  // ---- Worthless expiry of a covered call ----

  function CallExpiredScene(s: Scene, k: nat, log: seq<StateLog>): Scene
    requires k < |s.d.positions|
  {
    s.(d := s.d.(positions := s.d.positions[k := s.d.positions[k].(state := SharesHeld)], log := log))
  }

  lemma LaneCallExpired(cfg: Config, l: Lane, v: View)
    requires StateOK(cfg, l, v) && LegsOK(cfg, l, v) && VerdictOf(l, v, CallExpired)
    requires v.work.Some? ==> Working(v.work.value.status)
    ensures var v' := v.(p := v.p.(state := SharesHeld));
            StateOK(cfg, l, v') && LegsOK(cfg, l, v') && Synced(l, v')
  {
  }

  lemma CallExpiredInv(s: Scene, k: nat, log: seq<StateLog>)
    requires Turn(s, k) && VerdictOf(s.g.lanes[k], ViewOf(s.b, s.d, s.g.lanes[k], k), CallExpired)
    ensures Inv(CallExpiredScene(s, k, log)) && LaneSynced(CallExpiredScene(s, k, log), k)
  {
    hide Inv, StateOK, LegsOK, DigestOf, AllCaughtUp, Synced, Telescopes, Tagged;
    TurnFacts(s, k);
    var s' := CallExpiredScene(s, k, log);
    var l, p := s.g.lanes[k], s.d.positions[k];
    var v := ViewOf(s.b, s.d, l, k);
    LaneCallExpired(s.cfg, l, v);
    assert ViewOf(s'.b, s'.d, l, k) == v.(p := p.(state := SharesHeld));
    var act := p.cycle;
    OnlyActiveOpen(s, k);
    InvLane(s, k);
    if act.Some? { InvCycle(s, act.value); }
    UntouchedLinks(s, s', k, act);
    StepInv(s, s', k, act);
  }

  // ---- Called away ----

  function SoldLeg(s: Scene, k: nat, cy: nat, now: int): Order
    requires k < |s.d.positions| && |s.g.lanes| == |s.d.positions|
  {
    StockLeg(s.d.positions[k].symbol, cy, SellToClose, 100 * s.g.lanes[k].qty, s.g.lanes[k].leg.strike, now)
  }

  function CalledScene(s: Scene, k: nat, cy: nat, c: Cycle, now: int, log: seq<StateLog>): Scene
    requires k < |s.d.positions| && |s.g.lanes| == |s.d.positions| && cy < |s.d.cycles|
  {
    s.(d := Db(s.d.orders + [SoldLeg(s, k, cy, now)], s.d.positions[k := FlatPosition(s.d.positions[k])],
               s.d.cycles[cy := c], log),
       g := s.g.(lanes := s.g.lanes[k := Received(s.g.lanes[k])]))
  }

  lemma SpreadOfStrikes(bought: real, sold: real, n: int)
    ensures bought * (-n) as real + sold * n as real == (sold - bought) * n as real
  {
  }

  lemma LaneCalled(cfg: Config, l: Lane, v: View, rows: seq<Order>, r: Order, v': View)
    requires StateOK(cfg, l, v) && LegsOK(cfg, l, v) && v.p.state.CcOpen? && l.fate.Delivered?
    requires v.dg == DigestOf(rows) && r.orderType.SellToClose? && r.contract.None? && r.status.Filled?
    requires r.quantity == 100 * l.qty && r.fillPrice == Some(l.leg.strike)
    requires v.work.Some? ==> Working(v.work.value.status)
    requires v'.p == FlatPosition(v.p) && v'.work == v.work && v'.shares == v.shares && v'.legs == v.legs
    ensures Flow(r) == CallDelivery(l) && l.due == CallDelivery(l) && OpenCycleOf(v)
    ensures Telescopes(DigestOf(rows + [r]))
    ensures DigestOf(rows + [r]).first == v.dg.first && DigestOf(rows + [r]).package == v.dg.package
    ensures StateOK(cfg, Received(l), v') && LegsOK(cfg, Received(l), v') && Synced(Received(l), v')
  {
    hide Brought, BasisOf;
    DigestStock(rows, r);
    SpreadOfStrikes(v.dg.first.value.contract.value.strike, l.leg.strike, 100 * l.qty);
  }

  lemma CalledInv(s: Scene, k: nat, cy: nat, c: Cycle, now: int, log: seq<StateLog>)
    requires Turn(s, k) && s.d.positions[k].state.CcOpen? && s.g.lanes[k].fate.Delivered?
    requires s.d.positions[k].cycle == Some(cy) && cy < |s.d.cycles| && now == s.clock
    requires c.symbol == s.d.cycles[cy].symbol && c.strategy == s.d.cycles[cy].strategy && c.endedAt.Some?
    requires c.premium == s.d.cycles[cy].premium
    requires c.finalPnl == Some(FlowSum(Tagged(s.d.orders + [SoldLeg(s, k, cy, now)], cy)))
    ensures Inv(CalledScene(s, k, cy, c, now, log)) && LaneSynced(CalledScene(s, k, cy, c, now, log), k)
  {
    hide Inv, StateOK, LegsOK, DigestOf, Flow, AllCaughtUp, CallDelivery, Synced, Telescopes, FlowSum, PremiumOK;
    TurnFacts(s, k);
    var s' := CalledScene(s, k, cy, c, now, log);
    var l, r := s.g.lanes[k], SoldLeg(s, k, cy, now);
    var v := ViewOf(s.b, s.d, l, k);
    var rows := Tagged(s.d.orders, cy);
    LaneCalled(s.cfg, l, v, rows, r, ViewOf(s'.b, s'.d, s'.g.lanes[k], k));
    LegAppended(s.d.orders, r, cy);
    var act := Some(cy);
    OnlyActiveOpen(s, k);
    InvCycle(s, cy);
    SamePremium(s.d.cycles[cy], c, v.dg, DigestOf(rows + [r]));
    AppendedLinks(s, s', k, act, r);
    StepInv(s, s', k, act);
  }

  lemma CalledSpec(s: Scene, t: Tick, k: nat, now: int) returns (cy: nat, c: Cycle, log: seq<StateLog>)
    requires Turn(s, k) && t.db == s.d && s.d.positions[k].state.CcOpen? && s.g.lanes[k].fate.Delivered?
    ensures s.d.positions[k].cycle == Some(cy) && cy < |s.d.cycles|
    ensures c.symbol == s.d.cycles[cy].symbol && c.strategy == s.d.cycles[cy].strategy && c.endedAt.Some?
    ensures c.premium == s.d.cycles[cy].premium
    ensures c.finalPnl == Some(FlowSum(Tagged(s.d.orders + [SoldLeg(s, k, cy, now)], cy)))
    ensures c.outcome == Some(CcCalledAway)
    ensures var t' := OnCalledAway(t, k, s.d.positions[k], now);
            t'.db == CalledScene(s, k, cy, c, now, log).d && Quiet(t, t') && t'.sum.fills == t.sum.fills
  {
    hide Inv, AllCaughtUp, LegsOK, FirstCsp, LastCall, Package, Units, StockCash, Tagged, FlowSum;
    TurnFacts(s, k);
    var p := s.d.positions[k];
    cy := p.cycle.value;
    var t' := OnCalledAway(t, k, p, now);
    c, log := t'.db.cycles[cy], t'.db.log;
    assert t'.db.positions == CalledScene(s, k, cy, c, now, log).d.positions;
    assert t'.db.cycles == s.d.cycles[cy := c];
  }
}
