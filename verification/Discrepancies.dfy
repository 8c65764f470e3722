/** Where the code does less than its documentation says: for each case a concrete input and the
    exact condition under which the documented property holds. */
module Discrepancies {
  import opened Models
  import opened PaperBrokers
  import opened Repos
  import opened Router
  import opened Reconciler
  import opened LedgerTables
  import opened Pmcc

  // ---- Cash of a fill ----

  /** Fills the paper broker prices unlike the P&L books: long options (booked per contract instead of
      per share) and short options without a contract symbol (not booked at all). */
  predicate MispricedByBroker(o: Order) {
    match o.orderType
    case BuyToOpen | SellToClose => o.contract.Some?
    case SellToOpen | BuyToClose => o.contract.None?
    case _ => false
  }

  lemma Scaled(price: real, n: int)
    ensures price * (1 * 100 * n) as real == price * (100 * n) as real == 100.0 * (price * n as real)
    ensures price * (-1 * 100 * n) as real == -(price * (100 * n) as real)
    ensures price * (1 * 1 * n) as real == price * n as real
    ensures price * (-1 * 1 * n) as real == -(price * n as real)
  {
    assert (100 * n) as real == 100.0 * n as real;
  }

  /** What a fill adds to the paper broker's cash. */
  function CashMoved(o: Order, price: real): real {
    match o.orderType
    case SellToOpen => if o.contract.None? then 0.0 else price * (100 * o.quantity) as real
    case BuyToClose => if o.contract.None? then 0.0 else -(price * (100 * o.quantity) as real)
    case BuyToOpen => -(price * o.quantity as real)
    case SellToClose => price * o.quantity as real
    case _ => price * (100 * o.quantity) as real
  }

  lemma FillCash(b: BrokerState, i: nat, price: real, now: int)
    requires i < |b.orders| && Working(b.orders[i].status)
    ensures Fill(b, i, price, now).cash - b.cash == CashMoved(b.orders[i], price)
  {
    hide ApplyLegs;
  }

  lemma MovedIsFlow(o: Order, price: real)
    ensures CashMoved(o, price) == Flow(o.(status := Filled, fillPrice := Some(price)))
            <==> !MispricedByBroker(o) || price * o.quantity as real == 0.0
  {
    Scaled(price, o.quantity);
  }

  /** A fill moves the broker's cash by the flow P&L books for it, exactly unless it is mispriced and
      price times quantity is not zero. */
  lemma FillCashExact(b: BrokerState, i: nat, price: real, now: int)
    requires i < |b.orders| && Working(b.orders[i].status)
    ensures i < |Fill(b, i, price, now).orders|
    ensures var b', o := Fill(b, i, price, now), b.orders[i];
            b'.cash - b.cash == Flow(b'.orders[i]) <==> !MispricedByBroker(o) || price * o.quantity as real == 0.0
  {
    hide ApplyLegs, ApplyFill, CashMoved, MispricedByBroker;
    FillCash(b, i, price, now);
    FilledRow(b, i, price, now);
    MovedIsFlow(b.orders[i], price);
  }

  lemma FilledRow(b: BrokerState, i: nat, price: real, now: int)
    requires i < |b.orders| && Working(b.orders[i].status)
    ensures var b' := Fill(b, i, price, now);
            |b'.orders| == |b.orders|
              && b'.orders[i] == b.orders[i].(status := Filled, fillPrice := Some(price), filledAt := Some(now))
  {
    hide ApplyLegs;
  }

  const SampleCall := Contract("SPY", 0, Call, 500.0)

  const SampleBuy := Order("SPY", Some("pmcc"), BuyToOpen, Some(SampleCall), [], 1, Some(60.0), None, Pending,
                           0, None, Some("c-1"), Some(0), None, None, false)

  /** One long call at 60.00: the broker pays 60, the books record 6000. */
  lemma LongOptionCashDiffers()
    ensures var b := BrokerState(10000.0, map[], map[], [SampleBuy]);
            var b' := Fill(b, 0, 60.0, 1);
            b'.cash - b.cash == -60.0 && Flow(b'.orders[0]) == -6000.0
  {
  }

  // ---- Cost basis ----

  /** The assigned shares' cost basis is the strike less the premium collected per share exactly when
      one contract was sold, or the premium was zero. */
  lemma CostBasisExact(t: Tick, k: nat, p: Position, cy: nat, strike: real, price: real, n: int, now: int)
    requires k < |t.db.positions| && p.cycle == Some(cy) && cy < |t.db.cycles|
    requires t.db.cycles[cy].strike == Some(strike) && t.db.cycles[cy].premium == Some(Notional(price, n))
    ensures OnAssignment(t, k, p, now).db.positions[k].costBasis == Some(strike - price) <==> n == 1 || price == 0.0
  {
    hide CspQuantity;
    Scaled(price, n);
    var basis := strike - Notional(price, n) / 100.0;
    assert basis == strike - price * n as real;
    assert price * n as real - price == price * (n as real - 1.0);
  }

  const SamplePut := Contract("SPY", 0, Put, 50.0)

  function SampleOrder(t: OrderType, c: Contract, n: int, price: real, cycle: Option<nat>): Order {
    Order("SPY", Some("monthly_wheel"), t, Some(c), [], n, Some(price), Some(price), Filled, 0, Some(0), Some("c"),
          Some(0), cycle, None, false)
  }

  /** One short put, `n` contracts sold at 1.50 a share, in its open cycle. */
  function SampleBooks(n: int): Db {
    Db([SampleOrder(SellToOpen, SamplePut, n, 1.5, Some(0))],
       [Position("SPY", "monthly_wheel", CspOpen, 0, None, Some(0))],
       [Cycle("SPY", Some("monthly_wheel"), 0, None, Some(50.0), Some(Notional(1.5, n)), None, None)], [])
  }

  lemma SampleQuantity(n: int)
    ensures CspQuantity(SampleBooks(n), Some(0)) == Some(n)
  {
    var d := SampleBooks(n);
    TaggedOne(d.orders[0], 0);
    assert [d.orders[0]][..0] == [];
    assert FirstCsp([d.orders[0]]) == Some(d.orders[0]);
  }

  /** Two contracts at 1.50: the shares cost 48.50 each, and the recorded basis is 47.00. */
  lemma TwoContractBasis()
    ensures var d := SampleBooks(2);
            var row := OnAssignment(Tick(d, ZeroSummary), 0, d.positions[0], 1).db.positions[0];
            row.costBasis == Some(47.0) && row.shares == 200
  {
    hide CspQuantity;
    SampleQuantity(2);
  }

  // ---- The pointer of an idle position ----

  /** The fills that leave a position IDLE: a bought-back short put, and a long option sold by a
      diagonal or a swing. */
  predicate GoesIdle(cfg: Config, o: Order) {
    if o.strategy == Some("pmcc") then o.orderType.SellToClose? && OptionTypeOf(o) == Some(Call)
    else if o.strategy.Some? && o.strategy.value in cfg.swing then o.orderType.SellToClose? && o.contract.Some?
    else o.orderType.BuyToClose? && IsPut(o)
  }

  /** Row k after a fill: idle or not, and if idle its cycle is closed and its pointer cleared or kept. */
  predicate Outcome(t: Tick, k: nat, cy: nat, idle: bool, kept: bool) {
    && k < |t.db.positions| && (t.db.positions[k].state.Idle? <==> idle)
    && (idle ==>
          && cy < |t.db.cycles| && t.db.cycles[cy].endedAt.Some?
          && t.db.positions[k].cycle == if kept then Some(cy) else None)
  }

  predicate Carrying(t: Tick, k: nat, cy: nat) {
    && k < |t.db.positions| && t.db.positions[k].cycle == Some(cy) && cy < |t.db.cycles|
    && !t.db.positions[k].state.Idle?
  }

  lemma FlagOutcome(t: Tick, symbol: string, strategy: Option<string>, k: nat, cy: nat, now: int)
    requires Carrying(t, k, cy) && FindPosition(t.db.positions, symbol, strategy) == Some(k)
    ensures Outcome(FlagManual(t, symbol, strategy, now), k, cy, false, false)
  {
  }

  lemma EndOutcome(t: Tick, k: nat, j: nat, o: Order, state: PositionState, outcome: CycleOutcome, cy: nat, now: int)
    requires Carrying(t, k, cy)
    ensures Outcome(EndOnFill(t, Some(k), j, o, state, outcome, now), k, cy, state.Idle?, false)
  {
    hide CyclePnl;
  }

  lemma OpenOutcome(t: Tick, k: nat, j: nat, o: Order, strike: Option<real>, premium: real, state: PositionState,
                    strategy: Option<string>, cy: nat, now: int)
    requires Carrying(t, k, cy) && !state.Idle?
    ensures Outcome(OpenOnFill(t, Some(k), j, o, strike, premium, state, strategy, now), k, cy, false, false)
  {
  }

  lemma WheelOutcome(t: Tick, k: nat, j: nat, o: Order, price: real, cy: nat, now: int)
    requires Carrying(t, k, cy) && FindPosition(t.db.positions, o.symbol, o.strategy) == Some(k)
    ensures Outcome(OnWheelFill(t, Some(k), j, o, price, now), k, cy, o.orderType.BuyToClose? && IsPut(o), true)
  {
    hide CyclePnl, Notional, FlagManual, EndOnFill, OpenOnFill;
    match o.orderType {
      case MultiLegOpen => OpenOutcome(t, k, j, o, None, Notional(price, o.quantity), SpreadOpen, o.strategy, cy, now);
      case MultiLegClose => EndOutcome(t, k, j, o, SpreadClosed, SpreadCloseOutcome(o.strategy), cy, now);
      case SellToOpen =>
        if IsPut(o) { OpenOutcome(t, k, j, o, StrikeOf(o), Notional(price, o.quantity), CspOpen, None, cy, now); }
      case BuyToClose =>
      case _ => FlagOutcome(t, o.symbol, o.strategy, k, cy, now);
    }
  }

  lemma PmccOutcome(t: Tick, k: nat, j: nat, o: Order, price: real, cy: nat, now: int)
    requires Carrying(t, k, cy) && FindPosition(t.db.positions, o.symbol, o.strategy) == Some(k)
    ensures Outcome(OnPmccFill(t, Some(k), j, o, price, now), k, cy,
                    o.orderType.SellToClose? && OptionTypeOf(o) == Some(Call), false)
  {
    hide Notional, FlagManual, EndOnFill, OpenOnFill;
    FlagOutcome(t, o.symbol, o.strategy, k, cy, now);
    OpenOutcome(t, k, j, o, StrikeOf(o), -Notional(Abs(price), PackageSize(o)), PmccLongOpen, o.strategy, cy, now);
    EndOutcome(t, k, j, o, Idle, if o.rollTrigger then PmccLongRolled else PmccFullClosed, cy, now);
  }

  lemma SwingOutcome(t: Tick, k: nat, j: nat, o: Order, price: real, cy: nat, now: int)
    requires Carrying(t, k, cy) && FindPosition(t.db.positions, o.symbol, o.strategy) == Some(k)
    ensures Outcome(OnSwingFill(t, Some(k), j, o, price, now), k, cy,
                    o.orderType.SellToClose? && o.contract.Some?, false)
  {
    hide Notional, FlagManual, EndOnFill, OpenOnFill;
    FlagOutcome(t, o.symbol, o.strategy, k, cy, now);
    OpenOutcome(t, k, j, o, StrikeOf(o), -Notional(Abs(price), PackageSize(o)), SwingOpen, o.strategy, cy, now);
    EndOutcome(t, k, j, o, Idle, SwingClosed, cy, now);
  }

  /** A fill leaves its position IDLE exactly if it is one of those; it closes the cycle; and it clears the
      cycle pointer unless it bought back a short put, which leaves the pointer on the closed cycle. */
  lemma IdlePointer(cfg: Config, t: Tick, j: nat, o: Order, v: Order, k: nat, cy: nat, now: int)
    requires FindPosition(t.db.positions, o.symbol, o.strategy) == Some(k) && Carrying(t, k, cy)
    ensures var t' := OnFill(cfg, t, j, o, v, now);
            && k < |t'.db.positions|
            && (t'.db.positions[k].state.Idle? <==> GoesIdle(cfg, o))
            && (GoesIdle(cfg, o) ==>
                  && cy < |t'.db.cycles| && t'.db.cycles[cy].endedAt.Some?
                  && t'.db.positions[k].cycle == if o.orderType.BuyToClose? then Some(cy) else None)
  {
    hide OnWheelFill, OnPmccFill, OnSwingFill, FindPosition;
    var t0 := t.(sum := t.sum.(fills := t.sum.fills + [j]));
    var price := PriceOf(o, v);
    WheelOutcome(t0, k, j, o, price, cy, now);
    PmccOutcome(t0, k, j, o, price, cy, now);
    SwingOutcome(t0, k, j, o, price, cy, now);
  }

  /** A bought-back put at 0.50: the position is IDLE and still points at the cycle it just closed. */
  lemma BuybackKeepsPointer()
    ensures var d, o := SampleBooks(1), SampleOrder(BuyToClose, SamplePut, 1, 0.5, None).(status := Pending);
            var t := OnFill(Config({}, {}, true, 0, None), Tick(d.(orders := d.orders + [o]), ZeroSummary), 1, o, o, 1);
            && t.db.positions == [Position("SPY", "monthly_wheel", Idle, 0, None, Some(0))]
            && |t.db.cycles| == 1 && t.db.cycles[0].endedAt == Some(1)
  {
    hide CyclePnl;
    var d := SampleBooks(1);
    assert d.positions[..0] == [];
  }

  // ---- Long and short legs in the paper broker's rows ----

  /** The paper broker's row for a live leg reads as Alpaca's exactly when the leg was sold to open. */
  lemma PaperRowExact(b: BrokerState, c: Contract)
    requires c in b.options && b.options[c].symbol == c.underlying
    ensures OptionRow(b, c) == AlpacaRow(b, c) <==> b.options[c].orderType.SellToOpen?
  {
  }

  /** A bought call: the paper broker reports the row of a covered call, Alpaca no flag at all. */
  lemma BoughtCallReadsShort()
    ensures var b := BrokerState(0.0, map[], map[SampleCall := SampleBuy], []);
            OptionRow(b, SampleCall) == BrokerRow("SPY", CcOpen, 0)
            && AlpacaRow(b, SampleCall) == BrokerRow("SPY", ManualIntervention, 0)
  {
  }

  /** A live call on the symbol, bought or sold. */
  predicate CallAlive(b: BrokerState, x: string) {
    exists c :: c in b.options && c.underlying == x && c.optionType.Call?
  }

  /** The paper broker shows a short call exactly if any call is alive. */
  lemma ShownByAnyCall(b: BrokerState, x: string, ks: seq<string>, cs: seq<Contract>)
    requires (forall c :: c in b.options ==> b.options[c].symbol == c.underlying) && Enumerates(cs, b.options.Keys)
    ensures ShapeOf(PositionRows(b, ks, cs), x).shortCall <==> CallAlive(b, x)
  {
    var rows := PositionRows(b, ks, cs);
    if CallAlive(b, x) {
      var c :| c in b.options && c.underlying == x && c.optionType.Call?;
      var m :| 0 <= m < |cs| && cs[m] == c;
      assert rows[|ks| + m] == OptionRow(b, c);
    }
    forall m | 0 <= m < |ks| ensures !rows[m].state.CcOpen? { assert rows[m] == StockRow(b, ks[m]); }
    if i :| 0 <= i < |rows| && rows[i].symbol == x && rows[i].state.CcOpen? {
      assert rows[i] == OptionRow(b, cs[i - |ks|]);
    }
  }

  /** So the paper broker lets a diagonal's expired short be noticed exactly if no call at all is alive on the
      symbol, the long included; noticed, the pair falls back to the long and one expiry is counted. */
  lemma PaperHidesExpiry(t: Tick, k: nat, p: Position, b: BrokerState, ks: seq<string>, cs: seq<Contract>, now: int)
    requires k < |t.db.positions| && t.db.positions[k] == p && p.state.PmccBothOpen?
    requires (forall c :: c in b.options ==> b.options[c].symbol == c.underlying) && Enumerates(cs, b.options.Keys)
    requires LegsBy(b, p.symbol, SellToOpen) == {}
    requires !ShapeOf(PositionRows(b, ks, cs), p.symbol).shares
    ensures var t' := DiffOne(t, k, p, ShapeOf(PositionRows(b, ks, cs), p.symbol), now);
            if CallAlive(b, p.symbol) then t' == t
            else t'.sum == t.sum.(expirations := t.sum.expirations + 1)
                 && t'.db.positions == t.db.positions[k := p.(state := PmccLongOpen)]
  {
    hide ShapeOf, PositionRows, Enumerates;
    ShownByAnyCall(b, p.symbol, ks, cs);
  }
}
