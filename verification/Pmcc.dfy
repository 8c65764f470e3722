/** One diagonal (PMCC) position against a broker that reports legs as Alpaca does: what may
    happen to it, in any order, and the broker-side account its cycles are measured by. */
module Pmcc {
  import opened Models
  import opened PaperBrokers
  import opened Repos
  import opened Router
  import opened Reconciler

  const PMCC := "pmcc"

  /** A short option is a CSP_OPEN or CC_OPEN row, a long one carries no flag
      (platforms/alpaca_broker.py:225-246). */
  function AlpacaRow(b: BrokerState, c: Contract): BrokerRow {
    var short := c in b.options && b.options[c].orderType.SellToOpen?;
    BrokerRow(c.underlying, if !short then ManualIntervention else if c.optionType.Put? then CspOpen else CcOpen, 0)
  }

  function AlpacaRows(b: BrokerState, ks: seq<string>, cs: seq<Contract>): seq<BrokerRow> {
    StockRows(b, ks) + seq(|cs|, i requires 0 <= i < |cs| => AlpacaRow(b, cs[i]))
  }

  datatype Desk = Desk(b: BrokerState, d: Db, clock: int)

  /** What can happen to the position: an order is submitted, the working order fills or is
      cancelled at the broker, the router cancels a stale buyback before re-pricing it, a short
      call expires, or the reconciler looks. A look sees any of the position's broker orders, in
      any order and any number of times. */
  datatype Move =
    | Submit(order: Order)
    | FillWorking(price: real)
    | DropWorking
    | ReplaceBuyback
    | ShortExpires(contract: Contract)
    | Look(views: seq<Order>, stocks: seq<string>, legs: seq<Contract>)

  datatype TimedMove = TimedMove(at: int, move: Move)

  predicate IsOpener(b: BrokerState, c: Contract, t: OrderType) {
    c in b.options && b.options[c].orderType == t
  }

  /** The live legs on the symbol that were bought (or sold) to open. */
  function LegsBy(b: BrokerState, x: string, t: OrderType): set<Contract> {
    set c | c in b.options && c.underlying == x && b.options[c].orderType == t
  }

  predicate PmccShape(o: Order, x: string) {
    && o.symbol == x && o.strategy == Some(PMCC)
    && o.contract.Some? && o.contract.value.underlying == x && o.contract.value.optionType.Call?
    && o.quantity > 0 && o.legs == []
    && !IsMultiLeg(o.orderType)
  }

  function StateOf(w: Desk, x: string): PositionState {
    PairRow(w.d, x, PMCC).state
  }

  /** What the strategy may propose in each resting state (strategies/pmcc.py, strategies/pmcc_close.py:1-33). */
  predicate Proposed(w: Desk, o: Order, x: string)
    requires o.contract.Some?
  {
    var state, c := StateOf(w, x), o.contract.value;
    match o.orderType
    case BuyToOpen => state.Idle?
    case SellToOpen => state.PmccLongOpen? && c !in w.b.options
    case BuyToClose => state.PmccBothOpen? && !IsOpener(w.b, c, BuyToOpen)
    case SellToClose => state.PmccLongOpen? && IsOpener(w.b, c, BuyToOpen)
    case _ => false
  }

  predicate LegalSubmit(w: Desk, o: Order, x: string, at: int) {
    && PmccShape(o, x)
    && o.status.Pending? && o.fillPrice.None? && o.filledAt.None? && o.brokerId.None?
    && o.cycle.None? && o.filledQty.None? && o.placedAt == at
    && o.clientId.Some?
    && FindClient(w.d.orders, o.clientId.value).None? && FindBrokerClient(w.b.orders, o.clientId.value).None?
    && !HasInflight(w.d.orders, x)
    && Proposed(w, o, x)
  }

  /** A closing order cannot fill once its leg is gone. */
  predicate CanFill(b: BrokerState, o: Order) {
    && Working(o.status)
    && (o.orderType.BuyToClose? || o.orderType.SellToClose? ==> o.contract.Some? && o.contract.value in b.options)
  }

  ghost predicate LegalMove(w0: Desk, w: Desk, x: string, m: TimedMove) {
    && m.at > w.clock
    && match m.move
       case Submit(o) => LegalSubmit(w, o, x, m.at)
       case FillWorking(_) => |w.b.orders| > |w0.b.orders| && CanFill(w.b, w.b.orders[|w.b.orders| - 1])
       case DropWorking => |w.b.orders| > |w0.b.orders|
       case ReplaceBuyback =>
         |w.d.orders| > |w0.d.orders|
         && var r := w.d.orders[|w.d.orders| - 1]; r.orderType.BuyToClose? && Working(r.status)
       case ShortExpires(c) => c.underlying == x && IsOpener(w.b, c, SellToOpen)
       case Look(views, ks, cs) =>
         && (forall v :: v in views ==> exists i :: |w0.b.orders| <= i < |w.b.orders| && w.b.orders[i] == v)
         && Enumerates(ks, w.b.stock.Keys) && Enumerates(cs, w.b.options.Keys)
  }

  /** The reconciler's turn on this position: its order views, then its row k against the broker's shape. */
  function Look1(cfg: Config, w: Desk, x: string, views: seq<Order>, rows: seq<BrokerRow>, at: int): Tick {
    var t := ProcessOrders(cfg, Tick(w.d, ZeroSummary), views, at);
    var k := FindPosition(t.db.positions, x, Some(PMCC));
    if k.Some? && k.value < |t.db.positions|
    then DiffOne(t, k.value, t.db.positions[k.value], ShapeOf(rows, x), at) else t
  }

  ghost function Moved(cfg: Config, w0: Desk, w: Desk, x: string, m: TimedMove): Desk
    requires LegalMove(w0, w, x, m)
  {
    var w' := w.(clock := m.at);
    match m.move
    case Submit(o) =>
      var (b, d) := PlaceOrder(cfg, w.b, w.d, o, PMCC);
      w'.(b := b, d := d)
    case FillWorking(price) => w'.(b := Fill(w.b, |w.b.orders| - 1, price, m.at))
    case DropWorking => w'.(b := Cancel(w.b, |w.b.orders| - 1))
    case ReplaceBuyback =>
      var (b, d) := CancelStale(w.b, w.d, |w.d.orders| - 1);
      w'.(b := b, d := d)
    case ShortExpires(c) => w'.(b := Expire(w.b, c))
    case Look(views, ks, cs) => w'.(d := Look1(cfg, w, x, views, AlpacaRows(w.b, ks, cs), m.at).db)
  }

  ghost predicate LegalMoves(cfg: Config, w0: Desk, x: string, moves: seq<TimedMove>)
    decreases |moves|, 0
  {
    |moves| == 0
    || (LegalMoves(cfg, w0, x, moves[..|moves| - 1])
        && LegalMove(w0, AfterMoves(cfg, w0, x, moves[..|moves| - 1]), x, moves[|moves| - 1]))
  }

  ghost function AfterMoves(cfg: Config, w0: Desk, x: string, moves: seq<TimedMove>): Desk
    requires LegalMoves(cfg, w0, x, moves)
    decreases |moves|, 1
  {
    if |moves| == 0 then w0
    else Moved(cfg, w0, AfterMoves(cfg, w0, x, moves[..|moves| - 1]), x, moves[|moves| - 1])
  }

  /** A flat PMCC position, or a pair without a row yet, among arbitrary other rows, orders and cycles. */
  predicate FlatStart(cfg: Config, w: Desk, x: string) {
    && PMCC !in cfg.swing
    && StateOf(w, x).Idle? && PairRow(w.d, x, PMCC).cycle.None?
    && !HasInflight(w.d.orders, x)
    && x !in w.b.stock
    && (forall c :: c in w.b.options ==> c.underlying != x)
    && (forall j :: 0 <= j < |w.d.orders| ==> w.d.orders[j].placedAt <= w.clock)
    && (forall j :: 0 <= j < |w.d.orders| && w.d.orders[j].cycle.Some? ==> w.d.orders[j].cycle.value < |w.d.cycles|)
  }

  // ---- The broker-side account ----

  /** One holding of a long call: what its fills earned, and whether the long has been sold. */
  datatype Span = Span(pnl: real, sold: bool)

  /** 100 shares a contract; sales bring the price in, purchases pay it out. */
  function Dollars(o: Order): real {
    var price := if o.fillPrice.Some? then o.fillPrice.value else 0.0;
    var n := 100 * o.quantity;
    if o.orderType.SellToOpen? || o.orderType.SellToClose? then price * n as real else -(price * n as real)
  }

  /** How a fill changes the account: a bought call starts a span, any other fill belongs to the latest
      span, and selling the long ends it. */
  function Booking(spans: seq<Span>, o: Order): seq<Span>
    requires !o.orderType.BuyToOpen? ==> |spans| > 0
  {
    if o.orderType.BuyToOpen? then spans + [Span(Dollars(o), false)]
    else
      var last := spans[|spans| - 1];
      spans[|spans| - 1 := Span(last.pnl + Dollars(o), last.sold || o.orderType.SellToClose?)]
  }

  /** Replays a broker's filled orders; a fill before any bought call belongs to no span. */
  function Replay(orders: seq<Order>): seq<Span> {
    if |orders| == 0 then []
    else
      var before, o := Replay(orders[..|orders| - 1]), orders[|orders| - 1];
      if o.status.Filled? && (o.orderType.BuyToOpen? || before != []) then Booking(before, o) else before
  }
}
