/** The order router's writes (execution/router.py): submit, persist the order PENDING,
    move the position to its pending state. */
module Router {
  import opened Models
  import opened PaperBrokers
  import opened Repos

  /** _pending_state_for */
  function PendingState(cfg: Config, t: OrderType, isPut: bool, strategy: string): PositionState {
    if strategy in cfg.swing then (if t.BuyToOpen? then SwingPending else SwingOpen)
    else if strategy == "pmcc" then
      match t
      case BuyToOpen => PmccLongPending
      case SellToOpen => PmccShortPending
      case SellToClose => PmccClosing
      case _ => PmccBothOpen
    else if t.SellToOpen? then (if isPut then CspPending else CcPending)
    else if t.SellToClose? then SharesHeld
    else if isPut then CspOpen else CcOpen
  }

  /** _persist_order: a known client id updates its row, a new one inserts. */
  function PersistOrder(d: Db, o: Order): Db {
    var prior := if o.clientId.Some? then FindClient(d.orders, o.clientId.value) else None;
    if prior.Some? && prior.value < |d.orders| then
      var r := d.orders[prior.value];
      SetOrder(d, prior.value,
               r.(brokerId := if o.brokerId.Some? then o.brokerId else r.brokerId, status := o.status))
    else InsertOrder(d, o)
  }

  /** Placing this order leaves the position row alone. */
  predicate KeepsPosition(o: Order, strategy: string) {
    o.orderType.MultiLegClose? || (strategy == "pmcc" && o.orderType.BuyToClose?)
  }

  /** `held`: the pair already has a row. A call sold against held shares pends as CC_PENDING. */
  function TargetState(cfg: Config, o: Order, strategy: string, held: bool): PositionState {
    if IsMultiLeg(o.orderType) then SpreadPending
    else if held && strategy != "pmcc" && o.orderType.SellToOpen? && !IsPut(o) then CcPending
    else PendingState(cfg, o.orderType, IsPut(o), strategy)
  }

  /** _upsert_position_pending and _upsert_position_spread_pending */
  function UpsertPending(cfg: Config, d: Db, o: Order, strategy: string): Db {
    if KeepsPosition(o, strategy) then d
    else
      var at := FindPosition(d.positions, o.symbol, Some(strategy));
      var state := TargetState(cfg, o, strategy, at.Some?);
      if at.Some? && at.value < |d.positions| then SetPosition(d, at.value, d.positions[at.value].(state := state))
      else InsertPosition(d, Position(o.symbol, strategy, state, 0, None, None))
  }

  /** What an accepted submission writes: the order row, then the pair's pending state. */
  function Recorded(cfg: Config, d: Db, placed: Order, strategy: string): Db {
    UpsertPending(cfg, PersistOrder(d, placed), placed, strategy)
  }

  /** place / place_multi_leg after the gates: a rejected submission writes nothing. */
  function PlaceOrder(cfg: Config, b: BrokerState, d: Db, o: Order, strategy: string): (BrokerState, Db) {
    var (b', placed) := Place(b, o);
    if placed.None? then (b', d)
    else (b', Recorded(cfg, d, placed.value, strategy))
  }

  /** _replace_stale_pending, replace branch, up to the new submission: the working
      order is cancelled at the broker and marked CANCELLED locally. The broker's
      cancel raises on an order that is no longer working (core/broker.py), and then
      nothing is written. */
  function CancelStale(b: BrokerState, d: Db, j: nat): (BrokerState, Db)
    requires j < |d.orders|
  {
    var r := d.orders[j];
    if r.brokerId.None? then (b, SetOrder(d, j, r.(status := Cancelled)))
    else
      var i := r.brokerId.value;
      if i < |b.orders| && Working(b.orders[i].status)
      then (Cancel(b, i), SetOrder(d, j, r.(status := Cancelled)))
      else (b, d)
  }

  datatype StaleAction = Proceed | Skip | Replace

  /** _replace_stale_pending: an unknown base id proceeds under it, a settled row makes way for a fresh id, a
      young working row is left to work, and an old one is cancelled, or left if the broker refuses. */
  function ReplaceStale(b: BrokerState, d: Db, base: string, now: int, staleAfter: int):
      (StaleAction, BrokerState, Db)
  {
    var at := FindClient(d.orders, base);
    if at.None? || at.value >= |d.orders| then (Proceed, b, d)
    else
      var r := d.orders[at.value];
      if !Working(r.status) then (Replace, b, d)
      else if now - r.placedAt < staleAfter then (Skip, b, d)
      else
        var (b', d') := CancelStale(b, d, at.value);
        (if d'.orders == d.orders then Skip else Replace, b', d')
  }

  /** place / place_multi_leg under a day's base id: the order goes out under it, or under `other` in place of
      the row that holds it, or not at all. */
  function Resubmit(cfg: Config, b: BrokerState, d: Db, o: Order, base: string, other: string, strategy: string,
                    staleAfter: int): (BrokerState, Db)
  {
    var (action, b', d') := ReplaceStale(b, d, base, o.placedAt, staleAfter);
    match action
    case Skip => (b', d')
    case Proceed => PlaceOrder(cfg, b', d', o.(clientId := Some(base)), strategy)
    case Replace => PlaceOrder(cfg, b', d', o.(clientId := Some(other)), strategy)
  }

  /** _rule_concurrent_total: a pair already live is managed freely, a new slot must fit the cap. */
  predicate SlotFree(cfg: Config, ps: seq<Position>, symbol: string, strategy: string) {
    cfg.maxConcurrentTotal.None?
    || (exists j :: 0 <= j < |ps| && Live(ps[j]) && ps[j].symbol == symbol && ps[j].strategy == strategy)
    || LiveCount(ps) + 1 <= cfg.maxConcurrentTotal.value
  }
}
