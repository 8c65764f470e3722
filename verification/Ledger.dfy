/** Runs of the whole ledger: router, broker and reconciler taking turns in any order. */
module Ledger {
  import opened Models
  import opened PaperBrokers
  import opened Repos
  import opened Router
  import opened Reconciler

  datatype World = World(broker: BrokerState, db: Db, cursor: Option<int>, clock: int)

  /** What can happen next. Place is the router; Replace cancels a stale close before it is
      re-priced; Fill, Drop (a cancel that took effect), Assign and Expire are the broker's;
      TickNow is reconcile_once, with the iteration orders of the dicts and the set it walks;
      Restart is a process restart, which forgets the cursor. */
  datatype Event =
    | PlaceOne(order: Order)
    | Replace(row: nat)
    | FillOne(id: nat, price: real)
    | Drop(id: nat)
    | AssignLeg(contract: Contract)
    | ExpireLeg(contract: Contract)
    | TickNow(stocks: seq<string>, legs: seq<Contract>, symbols: seq<string>)
    | Restart

  datatype Timed = Timed(at: int, event: Event)

  function StateAt(ps: seq<Position>, symbol: string, strategy: string): PositionState {
    var k := FindPosition(ps, symbol, Some(strategy));
    if k.Some? && k.value < |ps| then ps[k.value].state else Idle
  }

  function PositionAt(ps: seq<Position>, symbol: string, strategy: string): Option<Position> {
    var k := FindPosition(ps, symbol, Some(strategy));
    if k.Some? && k.value < |ps| then Some(ps[k.value]) else None
  }

  function LegContracts(o: Order): set<Contract> {
    set l | l in o.legs :: l.contract
  }

  /** The package that opened a spread cycle. */
  function Package(rows: seq<Order>): Option<Order> {
    if |rows| == 0 then None
    else
      var earlier := Package(rows[..|rows| - 1]);
      if earlier.Some? then earlier
      else if rows[|rows| - 1].orderType.MultiLegOpen? then Some(rows[|rows| - 1])
      else None
  }

  function CycleRows(d: Db, p: Position): seq<Order> {
    if p.cycle.Some? then Tagged(d.orders, p.cycle.value) else []
  }

  /** A well-formed wheel or vertical-spread order, as the router builds it. */
  predicate OrderShape(cfg: Config, o: Order) {
    && o.strategy.Some?
    && o.strategy.value !in cfg.swing && o.strategy.value != "pmcc" && o.strategy.value != "calendar"
    && (IsMultiLeg(o.orderType) <==> o.strategy.value in cfg.spreads)
    && o.quantity > 0
    && o.cycle.None? && o.filledQty.None?
    && match o.orderType
       case SellToOpen | BuyToClose =>
         o.contract.Some? && o.contract.value.underlying == o.symbol && o.legs == []
       case MultiLegOpen =>
         o.contract.None? && |o.legs| > 0
         && forall l :: l in o.legs ==>
              l.contract.underlying == o.symbol && (l.action.SellToOpen? || l.action.BuyToOpen?)
       case MultiLegClose =>
         o.contract.None? && |o.legs| > 0
         && forall l :: l in o.legs ==>
              l.contract.underlying == o.symbol && (l.action.SellToClose? || l.action.BuyToClose?)
       case _ => false
  }

  /** The resting states an order may be proposed from. */
  predicate Proposable(d: Db, o: Order, strategy: string) {
    var state := StateAt(d.positions, o.symbol, strategy);
    var p := PositionAt(d.positions, o.symbol, strategy);
    var rows := if p.Some? then CycleRows(d, p.value) else [];
    match o.orderType
    case SellToOpen =>
      if IsPut(o) then state.Idle?
      else state.SharesHeld? && p.Some? && 100 * o.quantity == p.value.shares
    case BuyToClose =>
      if IsPut(o) then state.CspOpen? && FirstCsp(rows).Some? && o.contract == FirstCsp(rows).value.contract
      else state.CcOpen? && LastCall(rows).Some? && o.contract == LastCall(rows).value.contract
    case MultiLegOpen => state.Idle? || state.SpreadClosed?
    case MultiLegClose =>
      state.SpreadOpen? && Package(rows).Some? && LegContracts(o) == LegContracts(Package(rows).value)
    case _ => false
  }

  /** An order about to be submitted at time `at`. */
  predicate FreshOrder(cfg: Config, o: Order, at: int) {
    && OrderShape(cfg, o)
    && o.status.Pending? && o.fillPrice.None? && o.filledAt.None? && o.brokerId.None? && o.placedAt == at
    && o.clientId.Some?
  }

  predicate LegalPlace(cfg: Config, w: World, o: Order, at: int) {
    && FreshOrder(cfg, o, at)
    && FindClient(w.db.orders, o.clientId.value).None?
    && (forall k :: 0 <= k < |w.db.positions| && w.db.positions[k].symbol == o.symbol
          ==> w.db.positions[k].strategy == o.strategy.value)
    && !HasInflight(w.db.orders, o.symbol)
    && Proposable(w.db, o, o.strategy.value)
    && SlotFree(cfg, w.db.positions, o.symbol, o.strategy.value)
  }

  /** A buyback cannot fill once its leg is gone. */
  predicate Fillable(b: BrokerState, i: nat) {
    && i < |b.orders|
    && Working(b.orders[i].status)
    && (b.orders[i].orderType.BuyToClose? && b.orders[i].contract.Some? ==> b.orders[i].contract.value in b.options)
    && (b.orders[i].orderType.MultiLegClose? ==> LegContracts(b.orders[i]) <= b.options.Keys)
  }

  ghost predicate Legal(cfg: Config, w: World, e: Timed) {
    && e.at > w.clock
    && match e.event
       case PlaceOne(o) => LegalPlace(cfg, w, o, e.at)
       case Replace(j) =>
         j < |w.db.orders| && Working(w.db.orders[j].status)
         && (w.db.orders[j].orderType.BuyToClose? || w.db.orders[j].orderType.MultiLegClose?)
       case FillOne(i, _) => Fillable(w.broker, i)
       case Drop(i) => true
       case AssignLeg(c) =>
         c in w.broker.options
         && w.broker.options[c].strategy.Some? && w.broker.options[c].strategy.value !in cfg.spreads
       case ExpireLeg(_) => true
       case TickNow(ks, cs, _) => Enumerates(ks, w.broker.stock.Keys) && Enumerates(cs, w.broker.options.Keys)
       case Restart => true
  }

  function TickOf(cfg: Config, w: World, ks: seq<string>, cs: seq<Contract>, symbols: seq<string>, at: int): Tick {
    ReconcileOnce(cfg, w.broker, w.db, w.cursor, PositionRows(w.broker, ks, cs), symbols, at)
  }

  ghost function Step(cfg: Config, w: World, e: Timed): World
    requires Legal(cfg, w, e)
  {
    var w' := w.(clock := e.at);
    match e.event
    case PlaceOne(o) =>
      var (b, d) := PlaceOrder(cfg, w.broker, w.db, o, o.strategy.value);
      w'.(broker := b, db := d)
    case Replace(j) =>
      var (b, d) := CancelStale(w.broker, w.db, j);
      w'.(broker := b, db := d)
    case FillOne(i, price) => w'.(broker := Fill(w.broker, i, price, e.at))
    case Drop(i) => w'.(broker := Cancel(w.broker, i))
    case AssignLeg(c) => w'.(broker := Assign(w.broker, c))
    case ExpireLeg(c) => w'.(broker := Expire(w.broker, c))
    case TickNow(ks, cs, symbols) => w'.(db := TickOf(cfg, w, ks, cs, symbols, e.at).db, cursor := Some(e.at))
    case Restart => w'.(cursor := None)
  }

  ghost predicate LegalRun(cfg: Config, w: World, run: seq<Timed>)
    decreases |run|, 0
  {
    |run| == 0
    || (LegalRun(cfg, w, run[..|run| - 1]) && Legal(cfg, After(cfg, w, run[..|run| - 1]), run[|run| - 1]))
  }

  ghost function After(cfg: Config, w: World, run: seq<Timed>): World
    requires LegalRun(cfg, w, run)
    decreases |run|, 1
  {
    if |run| == 0 then w
    else Step(cfg, After(cfg, w, run[..|run| - 1]), run[|run| - 1])
  }

  /** A fresh ledger on any cash balance. */
  predicate Fresh(w: World) {
    w.broker.stock == map[] && w.broker.options == map[] && w.broker.orders == [] && w.db == EmptyDb
  }
}
