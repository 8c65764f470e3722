/** One reconciliation tick as functions on the tables (execution/reconciler.py).
    Each handler takes and returns a Tick: the tables plus the tick's counters. */
module Reconciler {
  import opened Models
  import opened PaperBrokers
  import opened Repos

  /** ReconcileSummary. `fills` lists the rows handed to OnFill, in order; `heals` counts
      the reconcile_selfheal_pending checkpoints. */
  datatype Summary = Summary(
    fills: seq<nat>, cancellations: nat, expirations: nat, assignments: nat, calledAways: nat,
    manual: nat, cyclesClosed: nat, cyclesOpened: nat, heals: nat, parityFlags: nat)

  const ZeroSummary := Summary([], 0, 0, 0, 0, 0, 0, 0, 0, 0)

  datatype Tick = Tick(db: Db, sum: Summary)

  // ---- Shared writes ----

  function SetState(t: Tick, at: Option<nat>, symbol: string, state: PositionState,
                    cycle: Option<nat>, strategy: Option<string>, now: int): Tick
  {
    if at.Some? && at.value < |t.db.positions| then
      var p := t.db.positions[at.value];
      var p' := p.(state := state, cycle := if cycle.Some? then cycle else p.cycle);
      t.(db := Log(SetPosition(t.db, at.value, p'), at.value, Some(p.state), state, now))
    else
      var strat := if strategy.Some? then strategy.value else "monthly_wheel";
      t.(db := Log(InsertPosition(t.db, Position(symbol, strat, state, 0, None, cycle)),
                   |t.db.positions|, None, state, now))
  }

  function FlagManual(t: Tick, symbol: string, strategy: Option<string>, now: int): Tick {
    var at := FindPosition(t.db.positions, symbol, strategy);
    if at.Some? && at.value < |t.db.positions| then
      if t.db.positions[at.value].state.ManualIntervention? then t
      else
        var t' := SetState(t, at, symbol, ManualIntervention, None, strategy, now);
        t'.(sum := t'.sum.(manual := t'.sum.manual + 1))
    else
      var t' := SetState(t, None, symbol, ManualIntervention, None, strategy, now);
      t'.(sum := t'.sum.(manual := t'.sum.manual + 1))
  }

  function TagOrder(t: Tick, j: nat, cy: nat): Tick {
    if j < |t.db.orders| then t.(db := SetOrder(t.db, j, t.db.orders[j].(cycle := Some(cy)))) else t
  }

  function ClearCycle(t: Tick, at: Option<nat>): Tick {
    if at.Some? && at.value < |t.db.positions|
    then t.(db := SetPosition(t.db, at.value, t.db.positions[at.value].(cycle := None)))
    else t
  }

  /** A profit label on a negative P&L becomes the matching loss label. */
  function Honest(o: CycleOutcome, pnl: real): CycleOutcome {
    if pnl >= 0.0 then o
    else
      match o
      case CspClosedProfit => CspClosedLoss
      case CcClosedProfit => CcClosedLoss
      case SpreadClosedProfit => SpreadClosedLoss
      case IronCondorClosedProfit => IronCondorClosedLoss
      case CalendarClosedProfit => CalendarClosedLoss
      case _ => o
  }

  function CloseCycle(t: Tick, cy: nat, outcome: CycleOutcome, now: int): Tick {
    if cy >= |t.db.cycles| || t.db.cycles[cy].endedAt.Some? then t
    else
      var pnl := CyclePnl(t.db, cy);
      var c := t.db.cycles[cy].(endedAt := Some(now), finalPnl := Some(pnl), outcome := Some(Honest(outcome, pnl)));
      t.(db := t.db.(cycles := t.db.cycles[cy := c]), sum := t.sum.(cyclesClosed := t.sum.cyclesClosed + 1))
  }

  /** The new cycle's id is the old length of the table. */
  function OpenCycle(t: Tick, o: Order, strike: Option<real>, premium: real, now: int): Tick {
    var c := Cycle(o.symbol, o.strategy, now, None, strike, Some(premium), None, None);
    t.(db := t.db.(cycles := t.db.cycles + [c]), sum := t.sum.(cyclesOpened := t.sum.cyclesOpened + 1))
  }

  function StrikeOf(o: Order): Option<real> {
    if o.contract.Some? then Some(o.contract.value.strike) else None
  }

  function PointerOf(t: Tick, at: Option<nat>): Option<nat> {
    if at.Some? && at.value < |t.db.positions| then t.db.positions[at.value].cycle else None
  }

  /** Dollars for a per-share price on that many contracts. */
  function Notional(price: real, contracts: int): real {
    price * (100 * contracts) as real
  }

  function Abs(x: real): real {
    if x < 0.0 then -x else x
  }

  // ---- Fills ----

  function SpreadCloseOutcome(strategy: Option<string>): CycleOutcome {
    if strategy == Some("iron_condor") then IronCondorClosedProfit
    else if strategy == Some("calendar") then CalendarClosedProfit
    else SpreadClosedProfit
  }

  function SpreadExpiredOutcome(strategy: string): CycleOutcome {
    if strategy == "iron_condor" then IronCondorExpiredProfit
    else if strategy == "calendar" then CalendarExpired
    else SpreadExpiredProfit
  }

  /** A fill that opens a cycle: insert it, point the position at it, tag the order. */
  function OpenOnFill(t: Tick, at: Option<nat>, j: nat, o: Order, strike: Option<real>, premium: real,
                      state: PositionState, strategy: Option<string>, now: int): Tick
  {
    var cy := |t.db.cycles|;
    var t1 := OpenCycle(t, o, strike, premium, now);
    var t2 := SetState(t1, at, o.symbol, state, Some(cy), strategy, now);
    TagOrder(t2, j, cy)
  }

  /** Tag a closing fill with the position's cycle unless it already carries one. */
  function TagClose(t: Tick, j: nat, o: Order, cycle: Option<nat>): Tick {
    if cycle.Some? && o.cycle.None? then TagOrder(t, j, cycle.value) else t
  }

  /** A fill that ends the position's cycle and clears the pointer. */
  function EndOnFill(t: Tick, at: Option<nat>, j: nat, o: Order, state: PositionState,
                     outcome: CycleOutcome, now: int): Tick
  {
    var cycle := PointerOf(t, at);
    var t1 := TagClose(t, j, o, cycle);
    var t2 := SetState(t1, at, o.symbol, state, None, o.strategy, now);
    if cycle.Some? then ClearCycle(CloseCycle(t2, cycle.value, outcome, now), at) else t2
  }

  function OnWheelFill(t: Tick, at: Option<nat>, j: nat, o: Order, price: real, now: int): Tick {
    var cycle := PointerOf(t, at);
    match o.orderType
    case SellToOpen =>
      if IsPut(o) then
        OpenOnFill(t, at, j, o, StrikeOf(o), Notional(price, o.quantity), CspOpen, None, now)
      else
        var t1 := SetState(t, at, o.symbol, CcOpen, cycle, None, now);
        if cycle.Some? then TagOrder(t1, j, cycle.value) else t1
    case BuyToClose =>
      var t1 := TagClose(t, j, o, cycle);
      var t2 := SetState(t1, at, o.symbol, if IsPut(o) then Idle else SharesHeld, None, None, now);
      if IsPut(o) && cycle.Some? then CloseCycle(t2, cycle.value, CspClosedProfit, now) else t2
    case MultiLegOpen =>
      OpenOnFill(t, at, j, o, None, Notional(price, o.quantity), SpreadOpen, o.strategy, now)
    case MultiLegClose =>
      EndOnFill(t, at, j, o, SpreadClosed, SpreadCloseOutcome(o.strategy), now)
    case _ => FlagManual(t, o.symbol, o.strategy, now)
  }

  function OnPmccFill(t: Tick, at: Option<nat>, j: nat, o: Order, price: real, now: int): Tick {
    var cycle := PointerOf(t, at);
    if OptionTypeOf(o) != Some(Call) then FlagManual(t, o.symbol, o.strategy, now)
    else
      match o.orderType
      case BuyToOpen =>
        OpenOnFill(t, at, j, o, StrikeOf(o), -Notional(Abs(price), PackageSize(o)),
                   PmccLongOpen, o.strategy, now)
      case SellToOpen =>
        var t1 := SetState(t, at, o.symbol, PmccBothOpen, cycle, o.strategy, now);
        if cycle.Some? then TagOrder(t1, j, cycle.value) else t1
      case BuyToClose =>
        SetState(TagClose(t, j, o, cycle), at, o.symbol, PmccLongOpen, cycle, o.strategy, now)
      case SellToClose =>
        EndOnFill(t, at, j, o, Idle, if o.rollTrigger then PmccLongRolled else PmccFullClosed, now)
      case _ => FlagManual(t, o.symbol, o.strategy, now)
  }

  /** `order.quantity or 1` */
  function PackageSize(o: Order): int {
    if o.quantity == 0 then 1 else o.quantity
  }

  function OnSwingFill(t: Tick, at: Option<nat>, j: nat, o: Order, price: real, now: int): Tick {
    if o.contract.None? then FlagManual(t, o.symbol, o.strategy, now)
    else
      match o.orderType
      case BuyToOpen =>
        OpenOnFill(t, at, j, o, StrikeOf(o), -Notional(Abs(price), PackageSize(o)),
                   SwingOpen, o.strategy, now)
      case SellToClose => EndOnFill(t, at, j, o, Idle, SwingClosed, now)
      case _ => FlagManual(t, o.symbol, o.strategy, now)
  }

  /** The fill's price, or failing that the order's limit. */
  function PriceOf(o: Order, v: Order): real {
    if v.fillPrice.Some? then v.fillPrice.value else if o.limitPrice.Some? then o.limitPrice.value else 0.0
  }

  function OnFill(cfg: Config, t: Tick, j: nat, o: Order, v: Order, now: int): Tick {
    var t0 := t.(sum := t.sum.(fills := t.sum.fills + [j]));
    var at := FindPosition(t.db.positions, o.symbol, o.strategy);
    var price := PriceOf(o, v);
    if o.strategy == Some("pmcc") then OnPmccFill(t0, at, j, o, price, now)
    else if o.strategy.Some? && o.strategy.value in cfg.swing then OnSwingFill(t0, at, j, o, price, now)
    else OnWheelFill(t0, at, j, o, price, now)
  }

  // ---- Cancels ----

  /** The state a cancelled order's position returns to, if it is in the matching pending state. */
  function RestoredState(o: Order, state: PositionState): Option<PositionState> {
    match o.orderType
    case MultiLegOpen => if state.SpreadPending? then Some(Idle) else None
    case MultiLegClose => if state.SpreadPending? then Some(SpreadOpen) else None
    case SellToOpen =>
      if IsPut(o) && state.CspPending? then Some(Idle)
      else if !IsPut(o) && state.CcPending? then Some(SharesHeld)
      else None
    case BuyToOpen => if state.SwingPending? || state.PmccLongPending? then Some(Idle) else None
    case SellToClose => if state.PmccClosing? then Some(PmccLongOpen) else None
    case BuyToClose => None
  }

  function OnCancel(t: Tick, o: Order, now: int): Tick {
    var at := FindPosition(t.db.positions, o.symbol, o.strategy);
    if at.None? || at.value >= |t.db.positions| then t
    else
      var target := RestoredState(o, t.db.positions[at.value].state);
      if target.None? then t
      else
        var t' := SetState(t, at, o.symbol, target.value, None, o.strategy, now);
        t'.(sum := t'.sum.(cancellations := t'.sum.cancellations + 1))
  }

  predicate ObservedPartial(o: Order, v: Order) {
    o.status.Partial?
    || (v.filledQty.Some? && 0.0 < v.filledQty.value
        && v.filledQty.value < (if v.quantity != 0 then v.quantity else o.quantity) as real)
  }

  // ---- Order stream ----

  /** What the broker's view writes over the local row. */
  function Refresh(o: Order, v: Order): Order {
    o.(brokerId := if v.brokerId.Some? then v.brokerId else o.brokerId,
       status := v.status,
       fillPrice := if v.fillPrice.Some? then v.fillPrice else o.fillPrice,
       filledAt := if v.filledAt.Some? then v.filledAt else o.filledAt)
  }

  function Locate(rows: seq<Order>, v: Order): Option<nat> {
    var byClient := if v.clientId.Some? then FindClient(rows, v.clientId.value) else None;
    if byClient.Some? then byClient
    else if v.brokerId.Some? then FindBroker(rows, v.brokerId.value)
    else None
  }

  function Dispatch(cfg: Config, t: Tick, j: nat, o: Order, v: Order, now: int): Tick {
    if Working(o.status) && v.status.Filled? then OnFill(cfg, t, j, o, v, now)
    else if Working(o.status) && (v.status.Cancelled? || v.status.Rejected?) then
      if ObservedPartial(o, v) then FlagManual(t, o.symbol, o.strategy, now) else OnCancel(t, o, now)
    else t
  }

  function ProcessOrder(cfg: Config, t: Tick, v: Order, now: int): Tick {
    if v.clientId.None? && v.brokerId.None? then t
    else
      var at := Locate(t.db.orders, v);
      if at.None? || at.value >= |t.db.orders| then FlagManual(t, v.symbol, None, now)
      else
        var j := at.value;
        var o := t.db.orders[j];
        Dispatch(cfg, t.(db := SetOrder(t.db, j, Refresh(o, v))), j, o, v, now)
  }

  function ProcessOrders(cfg: Config, t: Tick, views: seq<Order>, now: int): Tick {
    if |views| == 0 then t
    else ProcessOrder(cfg, ProcessOrders(cfg, t, views[..|views| - 1], now), views[|views| - 1], now)
  }

  // ---- Broker shape of one symbol ----

  predicate AnyRow(rows: seq<BrokerRow>, s: string, state: PositionState) {
    exists i :: 0 <= i < |rows| && rows[i].symbol == s && rows[i].state == state
  }

  predicate Present(rows: seq<BrokerRow>, s: string) {
    exists i :: 0 <= i < |rows| && rows[i].symbol == s
  }

  function SharesIn(rows: seq<BrokerRow>, s: string): int {
    if |rows| == 0 then 0
    else SharesIn(rows[..|rows| - 1], s) + if rows[|rows| - 1].symbol == s then rows[|rows| - 1].shares else 0
  }

  datatype Shape = Shape(shortPut: bool, shortCall: bool, shares: bool, present: bool)

  function ShapeOf(rows: seq<BrokerRow>, s: string): Shape {
    Shape(AnyRow(rows, s, CspOpen), AnyRow(rows, s, CcOpen),
          SharesIn(rows, s) > 0 || AnyRow(rows, s, SharesHeld), Present(rows, s))
  }

  // ---- Transitions inferred from the shape ----

  /** A stock leg standing in for a corporate action. */
  function StockLeg(symbol: string, cy: nat, orderType: OrderType, shares: int, price: real, now: int): Order {
    Order(symbol, None, orderType, None, [], shares, None, Some(price), Filled, now, Some(now),
          None, None, Some(cy), None, false)
  }

  function OnAssignment(t: Tick, k: nat, p: Position, now: int): Tick
    requires k < |t.db.positions|
  {
    var cyc := if p.cycle.Some? && p.cycle.value < |t.db.cycles| then Some(t.db.cycles[p.cycle.value]) else None;
    var strike := if cyc.Some? && cyc.value.strike.Some? then cyc.value.strike.value else 0.0;
    var premium := if cyc.Some? && cyc.value.premium.Some? then cyc.value.premium.value / 100.0 else 0.0;
    var n := CspQuantity(t.db, p.cycle);
    var shares := 100 * if n.Some? && n.value != 0 then n.value else 1;
    var row := t.db.positions[k].(state := SharesHeld, shares := shares, costBasis := Some(strike - premium));
    var d1 := Log(SetPosition(t.db, k, row), k, Some(p.state), SharesHeld, now);
    var d2 := if p.cycle.Some?
              then InsertOrder(d1, StockLeg(p.symbol, p.cycle.value, BuyToOpen, shares, strike, now)) else d1;
    Tick(d2, t.sum.(assignments := t.sum.assignments + 1))
  }

  /** The position goes flat: IDLE, no shares, no cycle. */
  function GoFlat(t: Tick, k: nat, p: Position, now: int): Tick
    requires k < |t.db.positions|
  {
    var row := t.db.positions[k].(state := Idle, shares := 0, costBasis := None, cycle := None);
    t.(db := Log(SetPosition(t.db, k, row), k, Some(p.state), Idle, now))
  }

  /** Worthless expiry of a cycle's only leg or legs. */
  function OnExpiry(t: Tick, k: nat, p: Position, outcome: CycleOutcome, now: int): Tick
    requires k < |t.db.positions|
  {
    var t1 := t.(sum := t.sum.(expirations := t.sum.expirations + 1));
    var t2 := if p.cycle.Some? then CloseCycle(t1, p.cycle.value, outcome, now) else t1;
    GoFlat(t2, k, p, now)
  }

  function OnCcExpiry(t: Tick, k: nat, p: Position, now: int): Tick
    requires k < |t.db.positions|
  {
    var row := t.db.positions[k].(state := SharesHeld);
    Tick(Log(SetPosition(t.db, k, row), k, Some(p.state), SharesHeld, now),
         t.sum.(expirations := t.sum.expirations + 1))
  }

  function OnCalledAway(t: Tick, k: nat, p: Position, now: int): Tick
    requires k < |t.db.positions|
  {
    var strike := CcStrike(t.db, p.cycle);
    var n := CspQuantity(t.db, p.cycle);
    var sold := if n.Some? && n.value != 0 then 100 * n.value else p.shares;
    if sold > 0 && strike.None? then FlagManual(t, p.symbol, Some(p.strategy), now)
    else
      var t1 := t.(sum := t.sum.(calledAways := t.sum.calledAways + 1));
      var t2 := if p.cycle.Some? && sold > 0 && strike.Some?
                then t1.(db := InsertOrder(t1.db,
                                           StockLeg(p.symbol, p.cycle.value, SellToClose, sold, strike.value, now)))
                else t1;
      var t3 := if p.cycle.Some? then CloseCycle(t2, p.cycle.value, CcCalledAway, now) else t2;
      GoFlat(t3, k, p, now)
  }

  function Heal(t: Tick, k: nat, p: Position, state: PositionState, cycle: Option<nat>, now: int): Tick {
    var t' := SetState(t, Some(k), p.symbol, state, cycle, Some(p.strategy), now);
    t'.(sum := t'.sum.(heals := t'.sum.heals + 1))
  }

  /** The latest placed call order of a type for this (symbol, strategy), whatever its status. */
  function LatestCallOrder(rows: seq<Order>, symbol: string, strategy: string, ty: OrderType): Option<nat> {
    if |rows| == 0 then None
    else
      var n := |rows| - 1;
      var earlier := LatestCallOrder(rows[..n], symbol, strategy, ty);
      var r := rows[n];
      if r.symbol == symbol && r.strategy == Some(strategy) && r.orderType == ty && OptionTypeOf(r) == Some(Call)
         && !(earlier.Some? && earlier.value < n && rows[earlier.value].placedAt >= r.placedAt)
      then Some(n) else earlier
  }

  function HealPmcc(t: Tick, k: nat, p: Position, now: int): Tick {
    var want := if p.state.PmccLongPending? then BuyToOpen else SellToOpen;
    var j := LatestCallOrder(t.db.orders, p.symbol, p.strategy, want);
    var filled := j.Some? && j.value < |t.db.orders| && t.db.orders[j.value].status.Filled?;
    if p.state.PmccLongPending? then
      if filled then
        var o := t.db.orders[j.value];
        var price := if o.fillPrice.Some? && o.fillPrice.value != 0.0 then o.fillPrice.value
                     else if o.limitPrice.Some? then o.limitPrice.value else 0.0;
        var cy := |t.db.cycles|;
        var t1 := OpenCycle(t, o, StrikeOf(o), -Notional(Abs(price), PackageSize(o)), now);
        Heal(TagOrder(t1, j.value, cy), k, p, PmccLongOpen, Some(cy), now)
      else Heal(t, k, p, Idle, None, now)
    else Heal(t, k, p, if filled then PmccBothOpen else PmccLongOpen, p.cycle, now)
  }

  // ---- Position sweep ----

  /** _diff_one for row k, read as `p` before the sweep began. */
  function DiffOne(t: Tick, k: nat, p: Position, shape: Shape, now: int): (r: Tick)
    requires k < |t.db.positions|
    ensures |r.db.positions| >= |t.db.positions|
  {
    match p.state
    case CspOpen =>
      if shape.shortPut then t
      else if shape.shares then
        if SharesClaimedByOther(t.db.positions, p.symbol, k) then FlagManual(t, p.symbol, Some(p.strategy), now)
        else OnAssignment(t, k, p, now)
      else OnExpiry(t, k, p, CspExpired, now)
    case CcOpen =>
      if shape.shortCall then t
      else if shape.shares then OnCcExpiry(t, k, p, now)
      else OnCalledAway(t, k, p, now)
    case CspPending =>
      if HasInflight(t.db.orders, p.symbol) then t
      else if shape.shortPut then Heal(t, k, p, CspOpen, p.cycle, now)
      else if !shape.present then Heal(t, k, p, Idle, None, now)
      else t
    case CcPending =>
      if HasInflight(t.db.orders, p.symbol) then t
      else if shape.shortCall then Heal(t, k, p, CcOpen, p.cycle, now)
      else if shape.shares then Heal(t, k, p, SharesHeld, None, now)
      else t
    case SpreadOpen =>
      if p.strategy == "calendar" then
        if !shape.shortCall && !shape.shares then FlagManual(t, p.symbol, Some(p.strategy), now) else t
      else if !shape.present then OnExpiry(t, k, p, SpreadExpiredOutcome(p.strategy), now)
      else if shape.shares then FlagManual(t, p.symbol, Some(p.strategy), now)
      else t
    case SpreadPending =>
      if HasInflight(t.db.orders, p.symbol) then t
      else if shape.present then Heal(t, k, p, SpreadOpen, p.cycle, now)
      else FlagManual(t, p.symbol, Some(p.strategy), now)
    case PmccLongOpen =>
      if shape.shares then FlagManual(t, p.symbol, Some(p.strategy), now) else t
    case PmccBothOpen =>
      if shape.shares then FlagManual(t, p.symbol, Some(p.strategy), now)
      else if shape.shortCall then t
      else
        var t1 := t.(sum := t.sum.(expirations := t.sum.expirations + 1));
        SetState(t1, Some(k), p.symbol, PmccLongOpen, None, Some(p.strategy), now)
    case PmccLongPending | PmccShortPending =>
      if HasInflight(t.db.orders, p.symbol) then t else HealPmcc(t, k, p, now)
    case _ => t
  }

  /** Rows 0..n of the snapshot `locals`, each against its symbol's broker rows. */
  function DiffAll(t: Tick, locals: seq<Position>, n: nat, rows: seq<BrokerRow>, now: int): (r: Tick)
    requires n <= |locals| <= |t.db.positions|
    ensures |r.db.positions| >= |t.db.positions|
  {
    if n == 0 then t
    else
      var before := DiffAll(t, locals, n - 1, rows, now);
      DiffOne(before, n - 1, locals[n - 1], ShapeOf(rows, locals[n - 1].symbol), now)
  }

  predicate KnownSymbol(ps: seq<Position>, s: string) {
    exists k :: 0 <= k < |ps| && ps[k].symbol == s
  }

  /** Broker symbols without any local row, flagged once each. */
  function FlagUnknown(t: Tick, locals: seq<Position>, rows: seq<BrokerRow>, n: nat, now: int): Tick
    requires n <= |rows|
  {
    if n == 0 then t
    else
      var before := FlagUnknown(t, locals, rows, n - 1, now);
      var s := rows[n - 1].symbol;
      if KnownSymbol(locals, s) || Present(rows[..n - 1], s) then before
      else FlagManual(before, s, None, now)
  }

  function ReconcilePositions(t: Tick, rows: seq<BrokerRow>, now: int): Tick {
    var locals := t.db.positions;
    FlagUnknown(DiffAll(t, locals, |locals|, rows, now), locals, rows, |rows|, now)
  }

  // ---- Parity audit ----

  predicate Abandoned(s: PositionState) {
    s.Idle? || s.Scanning? || s.CspClosed? || s.CcClosed? || s.CalledAway? || s.SpreadClosed? || s.SpreadAssigned?
  }

  predicate HoldsShares(s: PositionState) {
    s.Assigned? || s.SharesHeld? || s.CcPending? || s.CcOpen?
  }

  predicate OperatorOwned(s: PositionState) {
    s.ManualIntervention? || s.BrokerDown? || s.Killed?
  }

  function ParityFlag(t: Tick, symbol: string, strategy: Option<string>, now: int): Tick {
    FlagManual(t.(sum := t.sum.(parityFlags := t.sum.parityFlags + 1)), symbol, strategy, now)
  }

  /** (a) an open cycle past the minimum age needs a position that carries its exposure. */
  predicate Orphaned(cfg: Config, d: Db, c: Cycle, now: int) {
    && c.endedAt.None?
    && now - c.startedAt >= cfg.parityMinAge
    && var at := FindPosition(d.positions, c.symbol, c.strategy);
       at.None? || at.value >= |d.positions| || Abandoned(d.positions[at.value].state)
  }

  function AuditCycles(cfg: Config, t: Tick, cycles: seq<Cycle>, n: nat, now: int): Tick
    requires n <= |cycles|
  {
    if n == 0 then t
    else
      var before := AuditCycles(cfg, t, cycles, n - 1, now);
      var c := cycles[n - 1];
      if Orphaned(cfg, before.db, c, now) then ParityFlag(before, c.symbol, c.strategy, now) else before
  }

  function LocalShares(ps: seq<Position>, s: string): int {
    if |ps| == 0 then 0
    else LocalShares(ps[..|ps| - 1], s) + if ps[|ps| - 1].symbol == s then ps[|ps| - 1].shares else 0
  }

  function StockIn(rows: seq<BrokerRow>, s: string): int {
    if |rows| == 0 then 0
    else
      var r := rows[|rows| - 1];
      StockIn(rows[..|rows| - 1], s) + if r.symbol == s && r.state.SharesHeld? then r.shares else 0
  }

  /** (b) rows carrying shares sit in share-holding states ... */
  function AuditRows(t: Tick, ps: seq<Position>, n: nat, now: int): Tick
    requires n <= |ps|
  {
    if n == 0 then t
    else
      var before := AuditRows(t, ps, n - 1, now);
      var p := ps[n - 1];
      if p.shares != 0 && !HoldsShares(p.state) && !OperatorOwned(p.state)
      then ParityFlag(before, p.symbol, Some(p.strategy), now) else before
  }

  /** ... and per-symbol totals agree with the broker; `symbols` is the order a set is walked in. */
  function AuditTotals(t: Tick, ps: seq<Position>, rows: seq<BrokerRow>, symbols: seq<string>, now: int): Tick {
    if |symbols| == 0 then t
    else
      var before := AuditTotals(t, ps, rows, symbols[..|symbols| - 1], now);
      var s := symbols[|symbols| - 1];
      if KnownSymbol(ps, s) && LocalShares(ps, s) != StockIn(rows, s)
      then ParityFlag(before, s, None, now) else before
  }

  function Audit(cfg: Config, t: Tick, rows: seq<BrokerRow>, symbols: seq<string>, now: int): Tick {
    if !cfg.parityEnabled then t
    else
      var t1 := AuditCycles(cfg, t, t.db.cycles, |t.db.cycles|, now);
      var ps := t1.db.positions;
      AuditTotals(AuditRows(t1, ps, |ps|, now), ps, rows, symbols, now)
  }

  // ---- The tick ----

  const EPOCH := 0
  const LOOKBACK_MARGIN := 5

  /** Where the order query starts: the cursor, pulled back to cover the oldest working order. */
  function Since(rows: seq<Order>, cursor: Option<int>): int {
    var since := if cursor.Some? then cursor.value else EPOCH;
    var oldest := OldestPending(rows);
    if oldest.Some? && oldest.value < since then oldest.value - LOOKBACK_MARGIN else since
  }

  function ReconcileRows(cfg: Config, d: Db, views: seq<Order>, rows: seq<BrokerRow>,
                         symbols: seq<string>, now: int): Tick
  {
    var t1 := ProcessOrders(cfg, Tick(d, ZeroSummary), views, now);
    var t2 := ReconcilePositions(t1, rows, now);
    Audit(cfg, t2, rows, symbols, now)
  }

  /** reconcile_once; afterwards the cursor is `now`. */
  function ReconcileOnce(cfg: Config, b: BrokerState, d: Db, cursor: Option<int>, rows: seq<BrokerRow>,
                         symbols: seq<string>, now: int): Tick
  {
    ReconcileRows(cfg, d, OrdersSince(b.orders, Since(d.orders, cursor)), rows, symbols, now)
  }
}
