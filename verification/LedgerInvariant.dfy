/** The invariant of every run: per position, what the broker may have done since the
    reconciler last looked; across positions, how orders, rows and cycles are linked and
    where every dollar is booked. */
module LedgerInvariant {
  import opened Models
  import opened PaperBrokers
  import opened Repos
  import opened Router
  import opened Reconciler
  import opened Ledger
  import opened LedgerTables

  /** What became of the position's option leg: nothing decisive, assigned, or bought back. */
  datatype Fate = Resting | Delivered | BoughtBack

  /** Bookkeeping for one position: the broker id of the order it waits for, its option leg
      (or the legs of its package), contracts per leg, and the cash the broker has moved for
      it that no cycle shows yet. */
  datatype Lane = Lane(work: Option<nat>, leg: Contract, contracts: set<Contract>, qty: int, fate: Fate, due: real)

  /** Lanes by position; for each broker order its row and its position; for each cycle its position. */
  datatype Ghost = Ghost(lanes: seq<Lane>, row: seq<nat>, lane: seq<nat>, owner: seq<nat>)

  // ---- One position's window on the world ----

  datatype View = View(
    p: Position,
    work: Option<Order>,
    shares: int,
    legs: map<Contract, Order>,
    cyc: Option<Cycle>,
    dg: Digest)

  function LegMap(b: BrokerState, s: string): map<Contract, Order> {
    map c | c in b.options && c.underlying == s :: b.options[c]
  }

  function WorkOrder(b: BrokerState, l: Lane): Option<Order> {
    if l.work.Some? && l.work.value < |b.orders| then Some(b.orders[l.work.value]) else None
  }

  function CycleAt(d: Db, cy: Option<nat>): Option<Cycle> {
    if cy.Some? && cy.value < |d.cycles| then Some(d.cycles[cy.value]) else None
  }

  function RowsAt(d: Db, cy: Option<nat>): seq<Order> {
    if cy.Some? then Tagged(d.orders, cy.value) else []
  }

  function ViewOf(b: BrokerState, d: Db, l: Lane, k: nat): View
    requires k < |d.positions|
  {
    var p := d.positions[k];
    View(p, WorkOrder(b, l), StockOf(b, p.symbol).0, LegMap(b, p.symbol), CycleAt(d, p.cycle),
         DigestOf(RowsAt(d, p.cycle)))
  }

  /** The working order, if any, is a close that has not filled. */
  predicate UnfilledClose(w: Option<Order>) {
    w.Some? ==> (w.value.orderType.BuyToClose? || w.value.orderType.MultiLegClose?) && !w.value.status.Filled?
  }

  predicate Flat(l: Lane, v: View) {
    l.fate.Resting? && l.due == 0.0 && v.shares == 0 && v.legs == map[] && v.p.shares == 0
  }

  predicate OpenCycleOf(v: View) {
    v.cyc.Some? && v.cyc.value.endedAt.None?
  }

  function PutDelivery(l: Lane): real {
    l.leg.strike * (-(100 * l.qty)) as real
  }

  function CallDelivery(l: Lane): real {
    l.leg.strike * (100 * l.qty) as real
  }

  /** What a filled opening row brought in: its fill price over a hundred units a contract. */
  function Brought(r: Order): real {
    if r.fillPrice.Some? then r.fillPrice.value * (100 * r.quantity) as real else 0.0
  }

  /** The put's strike less what it brought in, divided by a hundred. */
  function BasisOf(put: Order): real
    requires put.contract.Some?
  {
    put.contract.value.strike - Brought(put) / 100.0
  }

  /** The cycle's first put, the share leg its assignment wrote, and the basis of the shares. */
  predicate Holding(l: Lane, v: View) {
    && OpenCycleOf(v)
    && l.qty > 0 && v.p.shares == 100 * l.qty
    && v.dg.first.Some? && v.dg.first.value.contract.Some? && v.dg.first.value.quantity == l.qty
    && v.dg.units == 100 * l.qty
    && v.dg.stock == v.dg.first.value.contract.value.strike * (-(100 * l.qty)) as real
    && v.p.costBasis == Some(BasisOf(v.dg.first.value))
  }

  predicate SingleLeg(l: Lane, t: OptionType) {
    l.contracts == {l.leg} && l.leg.optionType == t && l.qty > 0
  }

  predicate LegsWithin(l: Lane, v: View) {
    v.legs.Keys <= l.contracts
  }

  predicate CspPendingOK(l: Lane, v: View) {
    && v.work.Some?
    && var o := v.work.value;
       && o.orderType.SellToOpen? && o.contract == Some(l.leg) && o.quantity == l.qty
       && SingleLeg(l, Put) && v.p.shares == 0
       && if !o.status.Filled? then l.fate.Resting? && l.due == 0.0 && v.shares == 0 && v.legs == map[]
          else match l.fate
               case Resting => v.shares == 0 && LegsWithin(l, v) && l.due == Flow(o)
               case Delivered => v.shares == 100 * l.qty && v.legs == map[] && l.due == Flow(o) + PutDelivery(l)
               case BoughtBack => false
  }

  /** A buyback of the lane's own leg. */
  predicate Buyback(l: Lane, w: Option<Order>) {
    w.Some? ==> w.value.orderType.BuyToClose? && w.value.contract == Some(l.leg)
  }

  predicate CspOpenOK(l: Lane, v: View) {
    && OpenCycleOf(v) && v.cyc.value.strike == Some(l.leg.strike)
    && SingleLeg(l, Put) && v.p.shares == 0
    && v.dg.first.Some? && v.dg.first.value.contract == Some(l.leg) && v.dg.first.value.quantity == l.qty
    && v.dg.last.None? && v.dg.units == 0 && v.dg.stock == 0.0
    && Buyback(l, v.work)
    && match l.fate
       case Resting => UnfilledClose(v.work) && v.shares == 0 && LegsWithin(l, v) && l.due == 0.0
       case Delivered =>
         UnfilledClose(v.work) && v.shares == 100 * l.qty && v.legs == map[] && l.due == PutDelivery(l)
       case BoughtBack =>
         v.work.Some? && v.work.value.status.Filled? && v.shares == 0 && v.legs == map[] && l.due == Flow(v.work.value)
  }

  predicate SharesHeldOK(l: Lane, v: View) {
    && Holding(l, v) && UnfilledClose(v.work)
    && l.fate.Resting? && l.due == 0.0 && v.shares == 100 * l.qty && v.legs == map[]
  }

  predicate CcPendingOK(l: Lane, v: View) {
    && Holding(l, v) && v.work.Some?
    && var o := v.work.value;
       && o.orderType.SellToOpen? && o.contract == Some(l.leg) && o.quantity == l.qty && SingleLeg(l, Call)
       && (v.dg.last.Some? ==> v.dg.last.value.placedAt < o.placedAt)
       && if !o.status.Filled? then l.fate.Resting? && l.due == 0.0 && v.shares == 100 * l.qty && v.legs == map[]
          else match l.fate
               case Resting => v.shares == 100 * l.qty && LegsWithin(l, v) && l.due == Flow(o)
               case Delivered => v.shares == 0 && v.legs == map[] && l.due == Flow(o) + CallDelivery(l)
               case BoughtBack => false
  }

  predicate CcOpenOK(l: Lane, v: View) {
    && Holding(l, v) && SingleLeg(l, Call)
    && v.dg.last.Some? && v.dg.last.value.contract == Some(l.leg)
    && Buyback(l, v.work)
    && match l.fate
       case Resting => UnfilledClose(v.work) && v.shares == 100 * l.qty && LegsWithin(l, v) && l.due == 0.0
       case Delivered => UnfilledClose(v.work) && v.shares == 0 && v.legs == map[] && l.due == CallDelivery(l)
       case BoughtBack =>
         && v.work.Some? && v.work.value.status.Filled?
         && v.shares == 100 * l.qty && v.legs == map[] && l.due == Flow(v.work.value)
  }

  predicate SpreadPendingOK(l: Lane, v: View) {
    && v.work.Some? && v.p.shares == 0 && v.shares == 0 && l.fate.Resting?
    && var o := v.work.value;
       && o.orderType.MultiLegOpen? && l.contracts == LegContracts(o)
       && if !o.status.Filled? then l.due == 0.0 && v.legs == map[]
          else LegsWithin(l, v) && l.due == Flow(o)
  }

  predicate SpreadOpenOK(l: Lane, v: View) {
    && OpenCycleOf(v) && v.p.shares == 0 && v.shares == 0
    && v.dg.package.Some? && LegContracts(v.dg.package.value) == l.contracts
    && v.dg.units == 0 && v.dg.stock == 0.0
    && (v.work.Some? ==> v.work.value.orderType.MultiLegClose? && LegContracts(v.work.value) == l.contracts)
    && match l.fate
       case Resting => UnfilledClose(v.work) && LegsWithin(l, v) && l.due == 0.0
       case Delivered => false
       case BoughtBack =>
         v.work.Some? && v.work.value.status.Filled? && v.legs == map[] && l.due == Flow(v.work.value)
  }

  predicate StateOK(cfg: Config, l: Lane, v: View) {
    match v.p.state
    case Idle => Flat(l, v) && UnfilledClose(v.work)
    case SpreadClosed => Flat(l, v) && UnfilledClose(v.work) && v.p.strategy in cfg.spreads
    case CspPending => v.p.strategy !in cfg.spreads && CspPendingOK(l, v)
    case CspOpen => v.p.strategy !in cfg.spreads && CspOpenOK(l, v)
    case SharesHeld => v.p.strategy !in cfg.spreads && SharesHeldOK(l, v)
    case CcPending => v.p.strategy !in cfg.spreads && CcPendingOK(l, v)
    case CcOpen => v.p.strategy !in cfg.spreads && CcOpenOK(l, v)
    case SpreadPending => v.p.strategy in cfg.spreads && SpreadPendingOK(l, v)
    case SpreadOpen => v.p.strategy in cfg.spreads && SpreadOpenOK(l, v)
    case _ => false
  }

  /** The broker's legs on the symbol belong to this strategy, at the lane's size. */
  predicate LegsOK(cfg: Config, l: Lane, v: View) {
    forall c :: c in v.legs ==>
      v.legs[c].symbol == v.p.symbol && v.legs[c].strategy == Some(v.p.strategy)
      && (v.p.strategy !in cfg.spreads ==> v.legs[c].quantity == l.qty)
  }

  predicate Managed(cfg: Config, p: Position) {
    p.strategy !in cfg.swing && p.strategy != "pmcc" && p.strategy != "calendar"
  }

  predicate LaneOK(cfg: Config, b: BrokerState, d: Db, l: Lane, k: nat)
    requires k < |d.positions|
  {
    var v := ViewOf(b, d, l, k);
    StateOK(cfg, l, v) && LegsOK(cfg, l, v) && Managed(cfg, v.p)
  }

  // ---- Links ----

  predicate Settled(r: Order, o: Order) {
    r.status == o.status && !Working(o.status) && r.fillPrice == o.fillPrice && r.filledAt == o.filledAt
  }

  /** Same order apart from what fills and cycles write. */
  predicate SameOrder(r: Order, o: Order) {
    r == o.(status := r.status, fillPrice := r.fillPrice, filledAt := r.filledAt, cycle := r.cycle)
  }

  predicate BrokerOrderOK(cfg: Config, o: Order, i: nat) {
    && OrderShape(cfg, o)
    && o.clientId.Some? && o.brokerId == Some(i)
    && (o.status.Pending? || o.status.Cancelled? || o.status.Filled?)
    && (o.status.Filled? <==> o.fillPrice.Some?) && (o.status.Filled? <==> o.filledAt.Some?)
    && (o.filledAt.Some? ==> o.filledAt.value >= o.placedAt)
  }

  /** A world with its bookkeeping; `cash0` is the broker's cash when the run began. */
  datatype Scene = Scene(cfg: Config, b: BrokerState, d: Db, g: Ghost, clock: int, cash0: real)

  ghost predicate Sized(s: Scene) {
    && |s.g.lanes| == |s.d.positions| && |s.g.row| == |s.g.lane| == |s.b.orders| && |s.g.owner| == |s.d.cycles|
    && DistinctSymbols(s.d.positions)
  }

  ghost predicate LinkOK(s: Scene, i: nat)
    requires Sized(s) && i < |s.b.orders|
  {
    var o := s.b.orders[i];
    && BrokerOrderOK(s.cfg, o, i)
    && s.g.row[i] < |s.d.orders| && s.g.lane[i] < |s.d.positions|
    && var r := s.d.orders[s.g.row[i]];
       && SameOrder(r, o)
       && FindClient(s.d.orders, o.clientId.value) == Some(s.g.row[i])
       && o.symbol == s.d.positions[s.g.lane[i]].symbol && o.strategy == Some(s.d.positions[s.g.lane[i]].strategy)
       && if Working(r.status)
          then r.status.Pending? && r.fillPrice.None? && r.filledAt.None? && r.cycle.None?
               && s.g.lanes[s.g.lane[i]].work == Some(i)
          else Settled(r, o)
  }

  ghost predicate RowOK(s: Scene, j: nat)
    requires Sized(s) && j < |s.d.orders|
  {
    var r := s.d.orders[j];
    && r.placedAt <= s.clock
    && (r.cycle.Some? ==> r.cycle.value < |s.d.cycles| && r.status.Filled?)
    && (Working(r.status) ==> r.brokerId.Some? && r.brokerId.value < |s.b.orders| && s.g.row[r.brokerId.value] == j)
  }

  /** The order a lane waits for is its own and still working locally. */
  ghost predicate WorkOK(s: Scene, k: nat)
    requires Sized(s) && k < |s.d.positions|
  {
    var l := s.g.lanes[k];
    l.work.Some? ==>
      && l.work.value < |s.b.orders| && s.g.lane[l.work.value] == k
      && s.g.row[l.work.value] < |s.d.orders| && s.d.orders[s.g.row[l.work.value]].status.Pending?
  }

  ghost predicate LaneHolds(s: Scene, k: nat)
    requires Sized(s) && k < |s.d.positions|
  {
    LaneOK(s.cfg, s.b, s.d, s.g.lanes[k], k)
  }

  // ---- Cycles ----

  /** The states that carry the exposure of an open cycle. */
  predicate Exposed(s: PositionState) {
    s.CspOpen? || s.SharesHeld? || s.CcPending? || s.CcOpen? || s.SpreadOpen?
  }

  /** Dollars earned on the shares between the put's strike and the last call's. */
  function StrikeGain(first: Order, last: Order): real
    requires first.contract.Some? && last.contract.Some?
  {
    (last.contract.value.strike - first.contract.value.strike) * (100 * first.quantity) as real
  }

  /** A called-away cycle sold the shares it bought; its stock legs earned the strike difference. */
  predicate Telescopes(dg: Digest) {
    && dg.first.Some? && dg.first.value.contract.Some?
    && dg.last.Some? && dg.last.value.contract.Some?
    && dg.units == 0
    && dg.stock == StrikeGain(dg.first.value, dg.last.value)
  }

  /** The cycle's own opening row, a put or a package, is filled, and the premium is what it brought in. */
  predicate PremiumOK(c: Cycle, dg: Digest) {
    && (dg.first.Some? || dg.package.Some?)
    && (dg.first.Some? ==> dg.first.value.fillPrice.Some? && c.premium == Some(Brought(dg.first.value)))
    && (dg.package.Some? ==> dg.package.value.fillPrice.Some? && c.premium == Some(Brought(dg.package.value)))
  }

  ghost predicate CycleOK(s: Scene, cy: nat)
    requires Sized(s) && cy < |s.d.cycles|
  {
    var c := s.d.cycles[cy];
    && s.g.owner[cy] < |s.d.positions|
    && var p := s.d.positions[s.g.owner[cy]];
       && c.symbol == p.symbol && c.strategy == Some(p.strategy)
       && PremiumOK(c, DigestOf(Tagged(s.d.orders, cy)))
       && (c.endedAt.None? ==> p.cycle == Some(cy) && Exposed(p.state))
       && (c.endedAt.Some? ==> c.finalPnl == Some(CyclePnl(s.d, cy)))
       && (c.endedAt.Some? && c.outcome == Some(CcCalledAway) ==> Telescopes(DigestOf(Tagged(s.d.orders, cy))))
  }

  ghost predicate PointerOK(s: Scene, k: nat)
    requires Sized(s) && k < |s.d.positions|
  {
    var cy := s.d.positions[k].cycle;
    cy.Some? ==> cy.value < |s.d.cycles| && s.g.owner[cy.value] == k
  }

  // ---- Cash ----

  function SumDue(lanes: seq<Lane>): real {
    if |lanes| == 0 then 0.0 else SumDue(lanes[..|lanes| - 1]) + lanes[|lanes| - 1].due
  }

  ghost predicate CashOK(s: Scene) {
    s.b.cash == s.cash0 + Booked(s.d.orders) + SumDue(s.g.lanes)
  }

  // ---- All of it ----

  ghost predicate Links(s: Scene) requires Sized(s) {
    forall i :: 0 <= i < |s.b.orders| ==> LinkOK(s, i)
  }

  ghost predicate Rows(s: Scene) requires Sized(s) {
    forall j :: 0 <= j < |s.d.orders| ==> RowOK(s, j)
  }

  ghost predicate Works(s: Scene) requires Sized(s) {
    forall k :: 0 <= k < |s.d.positions| ==> WorkOK(s, k)
  }

  ghost predicate Lanes(s: Scene) requires Sized(s) {
    forall k :: 0 <= k < |s.d.positions| ==> LaneHolds(s, k)
  }

  ghost predicate Cycles(s: Scene) requires Sized(s) {
    forall cy :: 0 <= cy < |s.d.cycles| ==> CycleOK(s, cy)
  }

  ghost predicate Pointers(s: Scene) requires Sized(s) {
    forall k :: 0 <= k < |s.d.positions| ==> PointerOK(s, k)
  }

  ghost predicate BrokerKnown(s: Scene) {
    && (forall c :: c in s.b.options ==> KnownSymbol(s.d.positions, c.underlying))
    && (forall c :: c in s.b.options ==> s.b.options[c].symbol == c.underlying)
    && (forall x :: x in s.b.stock ==> KnownSymbol(s.d.positions, x) && s.b.stock[x].0 > 0)
  }

  ghost predicate Inv(s: Scene) {
    Sized(s) && Links(s) && Rows(s) && Works(s) && Lanes(s) && Cycles(s) && Pointers(s) && BrokerKnown(s) && CashOK(s)
  }

  // ---- Taking the invariant apart ----

  lemma InvSized(s: Scene)
    requires Inv(s)
    ensures Sized(s)
  {
  }

  lemma InvOrder(s: Scene, i: nat)
    requires Inv(s) && Sized(s) && i < |s.b.orders|
    ensures LinkOK(s, i)
  {
  }

  lemma InvRow(s: Scene, j: nat)
    requires Inv(s) && Sized(s) && j < |s.d.orders|
    ensures RowOK(s, j)
  {
  }

  lemma InvLane(s: Scene, k: nat)
    requires Inv(s) && Sized(s) && k < |s.d.positions|
    ensures LaneHolds(s, k) && WorkOK(s, k) && PointerOK(s, k)
  {
  }

  lemma InvCycle(s: Scene, cy: nat)
    requires Inv(s) && Sized(s) && cy < |s.d.cycles|
    ensures CycleOK(s, cy)
  {
  }

  // ---- Sums of dues ----

  lemma {:induction false} SumDueSet(lanes: seq<Lane>, k: nat, l: Lane)
    requires k < |lanes|
    ensures SumDue(lanes[k := l]) == SumDue(lanes) - lanes[k].due + l.due
  {
    var n := |lanes| - 1;
    if k == n {
      assert lanes[k := l][..n] == lanes[..n];
    } else {
      assert lanes[k := l][..n] == lanes[..n][k := l];
      SumDueSet(lanes[..n], k, l);
    }
  }

  lemma SumDueAppend(lanes: seq<Lane>, l: Lane)
    ensures SumDue(lanes + [l]) == SumDue(lanes) + l.due
  {
    assert (lanes + [l])[..|lanes|] == lanes;
  }

  /** Every order's symbol has its own lane: other positions carry other symbols. */
  lemma OtherSymbol(ps: seq<Position>, j: nat, k: nat)
    requires DistinctSymbols(ps) && j < |ps| && k < |ps| && j != k
    ensures ps[j].symbol != ps[k].symbol
  {
  }
}
