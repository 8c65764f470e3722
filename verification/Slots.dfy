/** The concurrent-position caps in front of the router (risk/limits.py:239-354), over any interleaving of
    gated submissions, local cancels and ticks, whatever the broker reports. */
module Slots {
  import opened Models
  import opened PaperBrokers
  import opened Repos
  import opened Router
  import opened Reconciler
  import opened LedgerTables
  import opened OrderStream
  import opened RoundTrip

  // ---- Counting ----

  /** A live position of one strategy, or of any. */
  predicate Counts(p: Position, who: Option<string>) {
    Live(p) && (who.Some? ==> p.strategy == who.value)
  }

  function LiveIn(ps: seq<Position>, who: Option<string>): nat {
    if |ps| == 0 then 0 else LiveIn(ps[..|ps| - 1], who) + if Counts(ps[|ps| - 1], who) then 1 else 0
  }

  lemma {:induction false} LiveInAll(ps: seq<Position>)
    ensures LiveIn(ps, None) == LiveCount(ps)
  {
    if |ps| > 0 { LiveInAll(ps[..|ps| - 1]); }
  }

  /** _rule_concurrent_cap for one strategy's cap, _rule_concurrent_total for all: managing a live pair is
      free, a new slot must fit. */
  predicate Gate(cap: int, who: Option<string>, ps: seq<Position>, symbol: string, strategy: string) {
    (exists j :: 0 <= j < |ps| && Live(ps[j]) && ps[j].symbol == symbol && ps[j].strategy == strategy)
    || LiveIn(ps, who) + 1 <= cap
  }

  function Max(a: int, b: int): int {
    if a > b then a else b
  }

  lemma {:induction false} LiveSet(ps: seq<Position>, k: nat, p: Position, who: Option<string>)
    requires k < |ps| && p.strategy == ps[k].strategy
    ensures LiveIn(ps[k := p], who)
         == LiveIn(ps, who) - (if Counts(ps[k], who) then 1 else 0) + (if Counts(p, who) then 1 else 0)
  {
    var n := |ps| - 1;
    if k == n {
      assert ps[k := p][..n] == ps[..n];
    } else {
      assert ps[k := p][..n] == ps[..n][k := p];
      LiveSet(ps[..n], k, p, who);
    }
  }

  lemma LiveMore(ps: seq<Position>, p: Position, who: Option<string>)
    ensures LiveIn(ps + [p], who) == LiveIn(ps, who) + if Counts(p, who) then 1 else 0
  {
    assert (ps + [p])[..|ps|] == ps;
  }

  // ---- The invariant ----

  /** One row per (symbol, strategy). */
  predicate OnePerPair(ps: seq<Position>) {
    forall a, b :: 0 <= a < b < |ps| ==> ps[a].symbol != ps[b].symbol || ps[a].strategy != ps[b].strategy
  }

  predicate OfPair(p: Position, o: Order) {
    p.symbol == o.symbol && o.strategy == Some(p.strategy)
  }

  /** A working entry keeps its pair pending, a diagonal's working buyback keeps its long, unless an operator
      has been called. */
  predicate Waits(cfg: Config, o: Order, strategy: string, state: PositionState) {
    state.ManualIntervention?
    || if IsOpening(o.orderType) then state == TargetState(cfg, o, strategy, true) && Pends(state)
       else if strategy == "pmcc" && o.orderType.BuyToClose? then state.PmccBothOpen? || state.PmccLongOpen?
       else true
  }

  predicate Pends(state: PositionState) {
    state.CspPending? || state.CcPending? || state.SpreadPending? || state.SwingPending? || state.PmccLongPending?
    || state.PmccShortPending?
  }

  predicate Awaited(cfg: Config, ps: seq<Position>, o: Order) {
    && o.strategy.Some?
    && (exists k :: 0 <= k < |ps| && OfPair(ps[k], o))
    && (forall k :: 0 <= k < |ps| && OfPair(ps[k], o) ==> Waits(cfg, o, o.strategy.value, ps[k].state))
  }

  predicate AllAwaited(cfg: Config, rows: seq<Order>, ps: seq<Position>) {
    forall j :: 0 <= j < |rows| && Working(rows[j].status) ==> Awaited(cfg, ps, rows[j])
  }

  /** Closing orders of one type, which a pair may have several of (re-proposed closes pile up). */
  predicate Alike(o: Order, r: Order) {
    o.orderType == r.orderType && !IsOpening(o.orderType)
  }

  predicate SamePair(o: Order, r: Order) {
    o.symbol == r.symbol && o.strategy == r.strategy
  }

  /** No two orders work on a pair at once, closes of one type apart. */
  predicate OneWorking(rows: seq<Order>) {
    forall i, j :: 0 <= i < j < |rows| && Working(rows[i].status) && Working(rows[j].status)
      && SamePair(rows[i], rows[j])
      ==> Alike(rows[i], rows[j])
  }

  /** The working orders of o's pair are closes of its own type. */
  predicate OnlyAlike(rows: seq<Order>, o: Order) {
    forall j :: 0 <= j < |rows| && Working(rows[j].status) && SamePair(rows[j], o) ==> Alike(rows[j], o)
  }

  predicate Slotted(cfg: Config, d: Db) {
    OnePerPair(d.positions) && AllAwaited(cfg, d.orders, d.positions) && OneWorking(d.orders)
  }

  /** The invariant survives and every live slot gained is a flag raised. */
  predicate Kept(cfg: Config, t: Tick, t': Tick, who: Option<string>) {
    && Slotted(cfg, t'.db)
    && t'.sum.manual >= t.sum.manual
    && LiveIn(t'.db.positions, who) <= LiveIn(t.db.positions, who) + t'.sum.manual - t.sum.manual
  }

  // ---- Elementary writes ----

  /** Row k moved to `state`, and nothing else a slot depends on changed. */
  predicate RowMoved(ps: seq<Position>, qs: seq<Position>, k: nat, state: PositionState) {
    && k < |ps| == |qs|
    && qs[k].symbol == ps[k].symbol && qs[k].strategy == ps[k].strategy && qs[k].state == state
    && (forall m :: 0 <= m < |ps| && m != k ==> qs[m] == ps[m])
  }

  /** The same rows bar tags, then rows that do not work. */
  predicate NoneStart(a: seq<Order>, b: seq<Order>) {
    && |a| <= |b|
    && (forall j :: 0 <= j < |a| ==> b[j] == a[j].(cycle := b[j].cycle))
    && (forall j :: |a| <= j < |b| ==> !Working(b[j].status))
  }

  lemma MovedLive(ps: seq<Position>, qs: seq<Position>, k: nat, state: PositionState, who: Option<string>)
    requires RowMoved(ps, qs, k, state)
    ensures LiveIn(qs, who) <= LiveIn(ps, who) + if Live(qs[k]) && !Live(ps[k]) then 1 else 0
    ensures OnePerPair(ps) ==> OnePerPair(qs)
  {
    assert qs == ps[k := qs[k]];
    LiveSet(ps, k, qs[k], who);
  }

  /** A move of row k suits every working order whose pair is another row, or which the new state still suits. */
  lemma MovedAwaited(cfg: Config, rows: seq<Order>, more: seq<Order>, ps: seq<Position>, qs: seq<Position>, k: nat,
                     state: PositionState)
    requires AllAwaited(cfg, rows, ps) && OneWorking(rows) && RowMoved(ps, qs, k, state) && NoneStart(rows, more)
    requires forall j :: 0 <= j < |rows| && Working(rows[j].status) && rows[j].strategy.Some? && OfPair(ps[k], rows[j])
               ==> Waits(cfg, rows[j], rows[j].strategy.value, state)
    ensures AllAwaited(cfg, more, qs) && OneWorking(more)
  {
    hide Waits;
    forall j | 0 <= j < |more| && Working(more[j].status) ensures Awaited(cfg, qs, more[j]) {
      assert Awaited(cfg, ps, rows[j]);
      var m :| 0 <= m < |ps| && OfPair(ps[m], rows[j]);
      assert OfPair(qs[m], more[j]);
      SameWaits(cfg, rows[j], more[j]);
    }
  }

  lemma SameWaits(cfg: Config, r: Order, r': Order)
    requires r' == r.(cycle := r'.cycle)
    ensures forall strategy, state :: Waits(cfg, r', strategy, state) == Waits(cfg, r, strategy, state)
  {
  }

  // ---- A flag ----

  lemma FlagKeeps(cfg: Config, t: Tick, symbol: string, strategy: Option<string>, who: Option<string>, now: int)
    requires Slotted(cfg, t.db)
    ensures Kept(cfg, t, FlagManual(t, symbol, strategy, now), who)
    ensures forall m :: 0 <= m < |t.db.positions| && !Matches(t.db.positions[m], symbol, strategy)
              ==> m < |FlagManual(t, symbol, strategy, now).db.positions|
                  && FlagManual(t, symbol, strategy, now).db.positions[m] == t.db.positions[m]
  {
    hide FindPosition, Waits;
    FindPositionSound(t.db.positions, symbol, strategy);
    var at, ps := FindPosition(t.db.positions, symbol, strategy), t.db.positions;
    var t' := FlagManual(t, symbol, strategy, now);
    if at.Some? {
      if !ps[at.value].state.ManualIntervention? {
        var k := at.value;
        assert RowMoved(ps, t'.db.positions, k, ManualIntervention);
        MovedLive(ps, t'.db.positions, k, ManualIntervention, who);
        ManualWaits(cfg);
        MovedAwaited(cfg, t.db.orders, t'.db.orders, ps, t'.db.positions, k, ManualIntervention);
      }
    } else {
      var p := t'.db.positions[|ps|];
      assert t'.db.positions == ps + [p];
      LiveMore(ps, p, who);
      NewRowAwaited(cfg, t.db.orders, ps, p);
    }
  }

  lemma ManualWaits(cfg: Config)
    ensures forall o, strategy :: Waits(cfg, o, strategy, ManualIntervention)
  {
  }

  lemma NewRowAwaited(cfg: Config, rows: seq<Order>, ps: seq<Position>, p: Position)
    requires AllAwaited(cfg, rows, ps) && OnePerPair(ps + [p])
    ensures AllAwaited(cfg, rows, ps + [p])
  {
    hide Waits;
    forall j | 0 <= j < |rows| && Working(rows[j].status) ensures Awaited(cfg, ps + [p], rows[j]) {
      assert Awaited(cfg, ps, rows[j]);
      var m :| 0 <= m < |ps| && OfPair(ps[m], rows[j]);
      assert (ps + [p])[m] == ps[m];
    }
  }

  // ---- Fills ----

  /** The state a fill leaves its pair in; None where it calls the operator. */
  function FillState(cfg: Config, o: Order): Option<PositionState> {
    if o.strategy == Some("pmcc") then
      if OptionTypeOf(o) != Some(Call) then None
      else
        match o.orderType
        case BuyToOpen => Some(PmccLongOpen)
        case SellToOpen => Some(PmccBothOpen)
        case BuyToClose => Some(PmccLongOpen)
        case SellToClose => Some(Idle)
        case _ => None
    else if o.strategy.Some? && o.strategy.value in cfg.swing then
      if o.contract.None? then None
      else if o.orderType.BuyToOpen? then Some(SwingOpen)
      else if o.orderType.SellToClose? then Some(Idle)
      else None
    else
      match o.orderType
      case SellToOpen => Some(if IsPut(o) then CspOpen else CcOpen)
      case BuyToClose => Some(if IsPut(o) then Idle else SharesHeld)
      case MultiLegOpen => Some(SpreadOpen)
      case MultiLegClose => Some(SpreadClosed)
      case _ => None
  }

  /** No flag, and row k moved. */
  predicate Restates(t: Tick, t': Tick, k: nat, state: PositionState) {
    t'.sum.manual == t.sum.manual && RowMoved(t.db.positions, t'.db.positions, k, state)
  }

  lemma OpenMoves(t: Tick, k: nat, j: nat, o: Order, strike: Option<real>, premium: real, state: PositionState,
                  strategy: Option<string>, now: int)
    requires k < |t.db.positions|
    ensures Restates(t, OpenOnFill(t, Some(k), j, o, strike, premium, state, strategy, now), k, state)
  {
  }

  lemma EndMoves(t: Tick, k: nat, j: nat, o: Order, state: PositionState, outcome: CycleOutcome, now: int)
    requires k < |t.db.positions|
    ensures Restates(t, EndOnFill(t, Some(k), j, o, state, outcome, now), k, state)
  {
    hide CloseCycle, TagOrder;
    var cycle := PointerOf(t, Some(k));
    if cycle.Some? {
      TagStays(t, j, cycle.value);
      CloseStays(SetState(TagClose(t, j, o, cycle), Some(k), o.symbol, state, None, o.strategy, now), cycle.value,
                 outcome, now);
    }
  }

  lemma TagStays(t: Tick, j: nat, cy: nat)
    ensures TagOrder(t, j, cy).db.positions == t.db.positions && TagOrder(t, j, cy).sum == t.sum
  {
  }

  lemma CloseStays(t: Tick, cy: nat, outcome: CycleOutcome, now: int)
    ensures var t' := CloseCycle(t, cy, outcome, now);
            t'.db.positions == t.db.positions
            && t'.sum.manual == t.sum.manual
  {
    hide CyclePnl;
  }

  lemma WheelMoves(t: Tick, k: nat, j: nat, o: Order, price: real, now: int)
    requires k < |t.db.positions| && !o.orderType.BuyToOpen? && !o.orderType.SellToClose?
    ensures Restates(t, OnWheelFill(t, Some(k), j, o, price, now), k,
                     match o.orderType
                     case SellToOpen => if IsPut(o) then CspOpen else CcOpen
                     case BuyToClose => if IsPut(o) then Idle else SharesHeld
                     case MultiLegOpen => SpreadOpen
                     case _ => SpreadClosed)
  {
    hide CyclePnl, Notional, EndOnFill, OpenOnFill;
    match o.orderType {
      case MultiLegOpen => OpenMoves(t, k, j, o, None, Notional(price, o.quantity), SpreadOpen, o.strategy, now);
      case MultiLegClose => EndMoves(t, k, j, o, SpreadClosed, SpreadCloseOutcome(o.strategy), now);
      case SellToOpen =>
        if IsPut(o) { OpenMoves(t, k, j, o, StrikeOf(o), Notional(price, o.quantity), CspOpen, None, now); }
      case BuyToClose =>
    }
  }

  lemma PmccMoves(cfg: Config, t: Tick, k: nat, j: nat, o: Order, price: real, now: int)
    requires k < |t.db.positions| && o.strategy == Some("pmcc") && FillState(cfg, o).Some?
    ensures Restates(t, OnPmccFill(t, Some(k), j, o, price, now), k, FillState(cfg, o).value)
  {
    hide Notional, EndOnFill, OpenOnFill;
    OpenMoves(t, k, j, o, StrikeOf(o), -Notional(Abs(price), PackageSize(o)), PmccLongOpen, o.strategy, now);
    EndMoves(t, k, j, o, Idle, if o.rollTrigger then PmccLongRolled else PmccFullClosed, now);
  }

  lemma SwingMoves(t: Tick, k: nat, j: nat, o: Order, price: real, now: int)
    requires k < |t.db.positions| && o.contract.Some? && (o.orderType.BuyToOpen? || o.orderType.SellToClose?)
    ensures Restates(t, OnSwingFill(t, Some(k), j, o, price, now), k,
                     if o.orderType.BuyToOpen? then SwingOpen else Idle)
  {
    hide Notional, EndOnFill, OpenOnFill;
    OpenMoves(t, k, j, o, StrikeOf(o), -Notional(Abs(price), PackageSize(o)), SwingOpen, o.strategy, now);
    EndMoves(t, k, j, o, Idle, SwingClosed, now);
  }

  /** A fill either moves its pair's row to its state or is a flag. */
  lemma FillMoves(cfg: Config, t: Tick, j: nat, o: Order, v: Order, k: nat, now: int)
    requires FindPosition(t.db.positions, o.symbol, o.strategy) == Some(k) && k < |t.db.positions|
    ensures var t' := OnFill(cfg, t, j, o, v, now);
            if FillState(cfg, o).Some? then Restates(t, t', k, FillState(cfg, o).value)
            else t' == FlagManual(t.(sum := t.sum.(fills := t.sum.fills + [j])), o.symbol, o.strategy, now)
  {
    hide FindPosition, FlagManual;
    var t0 := t.(sum := t.sum.(fills := t.sum.fills + [j]));
    var price := PriceOf(o, v);
    if FillState(cfg, o).Some? {
      hide OnWheelFill, OnPmccFill, OnSwingFill;
      if o.strategy == Some("pmcc") {
        PmccMoves(cfg, t0, k, j, o, price, now);
      } else if o.strategy.Some? && o.strategy.value in cfg.swing {
        SwingMoves(t0, k, j, o, price, now);
      } else {
        WheelMoves(t0, k, j, o, price, now);
      }
    } else {
      hide OpenOnFill, EndOnFill, SetState;
    }
  }

  // ---- A view ----

  /** What is asked of a view: it never puts a settled order back to work, and it never shows a bought-back
      short call filled once the pair has gone flat. */
  predicate LegalView(cfg: Config, d: Db, v: Order) {
    var at := Locate(d.orders, v);
    (v.clientId.Some? || v.brokerId.Some?) && at.Some? && at.value < |d.orders| ==>
      var o := d.orders[at.value];
      && (Working(v.status) ==> Working(o.status))
      && (Working(o.status) && v.status.Filled? && BuysCallBack(cfg, o) && o.strategy.Some? ==>
            Live(PairRow(d, o.symbol, o.strategy.value)))
  }

  predicate BuysCallBack(cfg: Config, o: Order) {
    FillState(cfg, o) == Some(SharesHeld)
  }

  /** The view settles row j, whose pair is row k: the other working orders' pairs are other rows. */
  lemma SettledRow(cfg: Config, rows: seq<Order>, ps: seq<Position>, j: nat, r: Order)
    requires AllAwaited(cfg, rows, ps) && OneWorking(rows) && j < |rows|
    requires r == rows[j].(brokerId := r.brokerId, status := r.status, fillPrice := r.fillPrice, filledAt := r.filledAt)
    requires Working(r.status) ==> Working(rows[j].status)
    ensures AllAwaited(cfg, rows[j := r], ps) && OneWorking(rows[j := r])
  {
    hide Waits;
    var more := rows[j := r];
    forall i | 0 <= i < |more| && Working(more[i].status) ensures Awaited(cfg, ps, more[i]) {
      assert Awaited(cfg, ps, rows[i]);
      if i == j { SameWaitsRefreshed(cfg, rows[j], r); }
    }
  }

  lemma SameWaitsRefreshed(cfg: Config, o: Order, r: Order)
    requires r == o.(brokerId := r.brokerId, status := r.status, fillPrice := r.fillPrice, filledAt := r.filledAt)
    ensures forall strategy, state :: Waits(cfg, r, strategy, state) == Waits(cfg, o, strategy, state)
    ensures forall p :: OfPair(p, r) == OfPair(p, o)
  {
  }

  /** The fill of a working order never brings its pair to life, bar a call bought back. */
  lemma FillLives(cfg: Config, o: Order, strategy: string, state: PositionState)
    requires o.strategy == Some(strategy) && Waits(cfg, o, strategy, state) && FillState(cfg, o).Some?
    ensures Live(Position(o.symbol, strategy, FillState(cfg, o).value, 0, None, None))
            ==> BuysCallBack(cfg, o) || Live(Position(o.symbol, strategy, state, 0, None, None))
  {
  }

  lemma PairIndex(cfg: Config, ps: seq<Position>, o: Order)
    requires OnePerPair(ps) && Awaited(cfg, ps, o)
    ensures var k := FindPosition(ps, o.symbol, o.strategy);
            && k.Some? && k.value < |ps| && OfPair(ps[k.value], o)
            && (forall m :: 0 <= m < |ps| && m != k.value ==> !OfPair(ps[m], o))
            && Waits(cfg, o, o.strategy.value, ps[k.value].state)
  {
    hide Waits;
    FindPositionSound(ps, o.symbol, o.strategy);
  }

  /** The fill of a close suits the other working closes of its type on the pair. */
  lemma AlikeWaits(cfg: Config, rows: seq<Order>, p: Position, o: Order, state: PositionState)
    requires OnlyAlike(rows, o) && OfPair(p, o) && FillState(cfg, o) == Some(state)
    ensures forall j :: 0 <= j < |rows| && Working(rows[j].status) && rows[j].strategy.Some? && OfPair(p, rows[j])
              ==> Waits(cfg, rows[j], rows[j].strategy.value, state)
  {
    hide TargetState;
    forall j | 0 <= j < |rows| && Working(rows[j].status) && rows[j].strategy.Some? && OfPair(p, rows[j])
      ensures Waits(cfg, rows[j], rows[j].strategy.value, state)
    {
      assert SamePair(rows[j], o);
    }
  }

  lemma AlikeRestored(cfg: Config, rows: seq<Order>, p: Position, o: Order, state: PositionState)
    requires OnlyAlike(rows, o) && OfPair(p, o) && RestoredState(o, p.state) == Some(state)
    ensures forall j :: 0 <= j < |rows| && Working(rows[j].status) && rows[j].strategy.Some? && OfPair(p, rows[j])
              ==> Waits(cfg, rows[j], rows[j].strategy.value, state)
  {
    hide TargetState;
    forall j | 0 <= j < |rows| && Working(rows[j].status) && rows[j].strategy.Some? && OfPair(p, rows[j])
      ensures Waits(cfg, rows[j], rows[j].strategy.value, state)
    {
      assert SamePair(rows[j], o);
    }
  }

  lemma FillKeeps(cfg: Config, t: Tick, j: nat, o: Order, v: Order, who: Option<string>, now: int)
    requires Slotted(cfg, t.db) && j < |t.db.orders| && !Working(t.db.orders[j].status)
    requires Awaited(cfg, t.db.positions, o)
    requires OnlyAlike(t.db.orders, o)
    requires BuysCallBack(cfg, o) && o.strategy.Some? ==> Live(PairRow(t.db, o.symbol, o.strategy.value))
    ensures Kept(cfg, t, OnFill(cfg, t, j, o, v, now), who)
  {
    hide OnFill, FillState, Waits, FindPosition;
    var ps := t.db.positions;
    PairIndex(cfg, ps, o);
    var k := FindPosition(ps, o.symbol, o.strategy).value;
    FillMoves(cfg, t, j, o, v, k, now);
    var t' := OnFill(cfg, t, j, o, v, now);
    if FillState(cfg, o).Some? {
      var state := FillState(cfg, o).value;
      MovedLive(ps, t'.db.positions, k, state, who);
      FillLives(cfg, o, o.strategy.value, ps[k].state);
      FillTags(cfg, t, j, o, v, now);
      AlikeWaits(cfg, t.db.orders, ps[k], o, state);
      MovedAwaited(cfg, t.db.orders, t'.db.orders, ps, t'.db.positions, k, state);
    } else {
      FlagKeeps(cfg, t.(sum := t.sum.(fills := t.sum.fills + [j])), o.symbol, o.strategy, who, now);
    }
  }

  /** Cancelling takes a pending pair back to rest; no pair comes alive. */
  lemma CancelKeeps(cfg: Config, t: Tick, o: Order, who: Option<string>, now: int)
    requires Slotted(cfg, t.db) && Awaited(cfg, t.db.positions, o)
    requires OnlyAlike(t.db.orders, o)
    ensures Kept(cfg, t, OnCancel(t, o, now), who)
  {
    hide Waits, FindPosition;
    var ps, t' := t.db.positions, OnCancel(t, o, now);
    PairIndex(cfg, ps, o);
    var k := FindPosition(ps, o.symbol, o.strategy).value;
    var target := RestoredState(o, ps[k].state);
    if target.Some? {
      assert RowMoved(ps, t'.db.positions, k, target.value);
      MovedLive(ps, t'.db.positions, k, target.value, who);
      AlikeRestored(cfg, t.db.orders, ps[k], o, target.value);
      MovedAwaited(cfg, t.db.orders, t'.db.orders, ps, t'.db.positions, k, target.value);
    }
  }

  lemma ViewKeeps(cfg: Config, t: Tick, v: Order, who: Option<string>, now: int)
    requires Slotted(cfg, t.db) && LegalView(cfg, t.db, v)
    ensures Kept(cfg, t, ProcessOrder(cfg, t, v, now), who)
  {
    hide Locate, OnFill, OnCancel, FlagManual, Waits, FindPosition, FillState, ObservedPartial, LiveIn, Refresh;
    if v.clientId.Some? || v.brokerId.Some? {
      var at := Locate(t.db.orders, v);
      if at.Some? && at.value < |t.db.orders| {
        var j, o := at.value, t.db.orders[at.value];
        RefreshShape(o, v);
        var t1 := t.(db := SetOrder(t.db, j, Refresh(o, v)));
        SettledRow(cfg, t.db.orders, t.db.positions, j, Refresh(o, v));
        if Working(o.status) {
          assert Awaited(cfg, t.db.positions, o);
          if v.status.Filled? {
            FillKeeps(cfg, t1, j, o, v, who, now);
          } else if v.status.Cancelled? || v.status.Rejected? {
            FlagKeeps(cfg, t1, o.symbol, o.strategy, who, now);
            CancelKeeps(cfg, t1, o, who, now);
          }
        }
      } else {
        FlagKeeps(cfg, t, v.symbol, None, who, now);
      }
    }
  }

  lemma RefreshShape(o: Order, v: Order)
    ensures var r := Refresh(o, v);
            r.status == v.status
            && r == o.(brokerId := r.brokerId, status := r.status, fillPrice := r.fillPrice, filledAt := r.filledAt)
  {
  }

  predicate LegalViews(cfg: Config, t: Tick, views: seq<Order>, now: int) {
    |views| == 0
    || (LegalViews(cfg, t, views[..|views| - 1], now)
        && LegalView(cfg, ProcessOrders(cfg, t, views[..|views| - 1], now).db, views[|views| - 1]))
  }

  lemma {:induction false} ViewsKeep(cfg: Config, t: Tick, views: seq<Order>, who: Option<string>, now: int)
    requires Slotted(cfg, t.db) && LegalViews(cfg, t, views, now)
    ensures Kept(cfg, t, ProcessOrders(cfg, t, views, now), who)
  {
    hide Slotted, ProcessOrder, LegalView, LiveIn;
    if |views| > 0 {
      var n := |views| - 1;
      ViewsKeep(cfg, t, views[..n], who, now);
      ViewKeeps(cfg, ProcessOrders(cfg, t, views[..n], now), views[n], who, now);
    }
  }

  /** The second demand is exact: a filled view of a working call buyback keeps the count within the flags raised
      if and only if its pair is still live. */
  lemma LateBuybackExact(cfg: Config, t: Tick, v: Order, j: nat, now: int)
    requires Slotted(cfg, t.db) && (v.clientId.Some? || v.brokerId.Some?)
    requires Locate(t.db.orders, v) == Some(j) && j < |t.db.orders| && Working(t.db.orders[j].status)
    requires BuysCallBack(cfg, t.db.orders[j]) && v.status.Filled?
    ensures t.db.orders[j].strategy.Some?
    ensures Kept(cfg, t, ProcessOrder(cfg, t, v, now), None)
            <==> Live(PairRow(t.db, t.db.orders[j].symbol, t.db.orders[j].strategy.value))
  {
    hide Locate, OnFill, Waits, FindPosition, FillState, LiveIn, Refresh;
    var o, ps := t.db.orders[j], t.db.positions;
    assert Awaited(cfg, ps, o);
    if Live(PairRow(t.db, o.symbol, o.strategy.value)) {
      ViewKeeps(cfg, t, v, None, now);
    } else {
      PairIndex(cfg, ps, o);
      var k := FindPosition(ps, o.symbol, o.strategy).value;
      var t1 := t.(db := SetOrder(t.db, j, Refresh(o, v)));
      FillMoves(cfg, t1, j, o, v, k, now);
      var qs := OnFill(cfg, t1, j, o, v, now).db.positions;
      assert qs == ps[k := qs[k]];
      LiveSet(ps, k, qs[k], None);
    }
  }

  const NoCaps := Config({}, {}, false, 0, None)

  const CancelledPut := Order("SPY", Some("monthly_wheel"), SellToOpen, Some(Contract("SPY", 0, Put, 50.0)), [], 1,
                              Some(1.5), None, Cancelled, 0, None, Some("c"), Some(0), None, None, false)

  /** So is the first needed: a cancelled entry that a view puts back to work and the next shows filled opens a
      slot that no gate saw and no flag counts. */
  lemma RevivedEntryGainsSlot()
    ensures var d := Db([CancelledPut], [Position("SPY", "monthly_wheel", Idle, 0, None, None)], [], []);
            var views := [CancelledPut.(status := Pending), CancelledPut.(status := Filled, fillPrice := Some(1.5))];
            var t := ProcessOrders(NoCaps, Tick(d, ZeroSummary), views, 1);
            Slotted(NoCaps, d) && LiveCount(d.positions) == 0 && LiveCount(t.db.positions) == 1 && t.sum.manual == 0
  {
    hide Notional;
    var d := Db([CancelledPut], [Position("SPY", "monthly_wheel", Idle, 0, None, None)], [], []);
    var pending, filled := CancelledPut.(status := Pending), CancelledPut.(status := Filled, fillPrice := Some(1.5));
    var t0 := Tick(d, ZeroSummary);
    assert d.orders[..0] == [] && d.positions[..0] == [];
    var t1 := ProcessOrder(NoCaps, t0, pending, 1);
    assert Refresh(CancelledPut, pending) == pending && d.orders[0 := pending] == [pending];
    assert FindClient(d.orders, "c") == Some(0) && Locate(d.orders, pending) == Some(0);
    assert t1 == t0.(db := d.(orders := [pending]));
    assert t1.db.orders[..0] == [];
    assert FindClient(t1.db.orders, "c") == Some(0);
    var t2 := ProcessOrder(NoCaps, t1, filled, 1);
    assert t2.db.positions == [Position("SPY", "monthly_wheel", CspOpen, 0, None, Some(0))];
    assert [pending, filled][..1] == [pending] && [pending][..0] == [];
    assert t2.db.positions[..0] == [];
    assert ProcessOrders(NoCaps, t0, [pending], 1) == t1 by { assert ProcessOrders(NoCaps, t0, [], 1) == t0; }
  }

  // ---- The sweep ----

  /** Row k may have moved, no order started working, and no flag was withdrawn. */
  predicate TurnDone(t: Tick, t': Tick, k: nat) {
    && k < |t.db.positions| == |t'.db.positions|
    && RowMoved(t.db.positions, t'.db.positions, k, t'.db.positions[k].state)
    && NoneStart(t.db.orders, t'.db.orders)
    && t'.sum.manual >= t.sum.manual
  }

  lemma FlagTurn(t: Tick, k: nat, p: Position, now: int)
    requires k < |t.db.positions| && FindPosition(t.db.positions, p.symbol, Some(p.strategy)) == Some(k)
    ensures var t' := FlagManual(t, p.symbol, Some(p.strategy), now);
            TurnDone(t, t', k) && k < |t'.db.positions| && t'.db.positions[k].state.ManualIntervention?
  {
    hide FindPosition;
  }

  lemma HealTurn(t: Tick, k: nat, p: Position, state: PositionState, cycle: Option<nat>, now: int)
    requires k < |t.db.positions|
    ensures var t' := Heal(t, k, p, state, cycle, now); TurnDone(t, t', k) && t'.db.positions[k].state == state
  {
  }

  lemma StayTurn(t: Tick, k: nat, p: Position, now: int)
    requires k < |t.db.positions|
    ensures TurnDone(t, t, k)
    ensures var t1 := t.(sum := t.sum.(expirations := t.sum.expirations + 1));
            var t' := SetState(t1, Some(k), p.symbol, PmccLongOpen, None, Some(p.strategy), now);
            TurnDone(t, t', k) && t'.db.positions[k].state.PmccLongOpen?
  {
  }

  lemma HealPmccTurn(t: Tick, k: nat, p: Position, now: int)
    requires k < |t.db.positions|
    ensures TurnDone(t, HealPmcc(t, k, p, now), k)
  {
    hide LatestCallOrder, Notional;
  }

  lemma GoneTurns(t: Tick, k: nat, p: Position, outcome: CycleOutcome, now: int)
    requires k < |t.db.positions|
    ensures TurnDone(t, OnAssignment(t, k, p, now), k)
    ensures TurnDone(t, OnExpiry(t, k, p, outcome, now), k)
    ensures TurnDone(t, OnCcExpiry(t, k, p, now), k)
  {
    hide CspQuantity, CloseCycle;
    if p.cycle.Some? {
      ClosedSame(t.(sum := t.sum.(expirations := t.sum.expirations + 1)), p.cycle.value, outcome, now);
    }
  }

  lemma ClosedSame(t: Tick, cy: nat, outcome: CycleOutcome, now: int)
    ensures var t' := CloseCycle(t, cy, outcome, now);
            t'.db.positions == t.db.positions && t'.db.orders == t.db.orders && t'.sum.manual == t.sum.manual
  {
    hide CyclePnl;
  }

  lemma CalledTurn(t: Tick, k: nat, p: Position, now: int)
    requires k < |t.db.positions| && FindPosition(t.db.positions, p.symbol, Some(p.strategy)) == Some(k)
    ensures TurnDone(t, OnCalledAway(t, k, p, now), k)
  {
    hide FindPosition, CspQuantity, CcStrike, CloseCycle, FlagManual;
    FlagTurn(t, k, p, now);
    var n, strike := CspQuantity(t.db, p.cycle), CcStrike(t.db, p.cycle);
    var sold := if n.Some? && n.value != 0 then 100 * n.value else p.shares;
    var t1 := t.(sum := t.sum.(calledAways := t.sum.calledAways + 1));
    var t2 := if p.cycle.Some? && sold > 0 && strike.Some?
              then t1.(db := InsertOrder(t1.db,
                                         StockLeg(p.symbol, p.cycle.value, SellToClose, sold, strike.value, now)))
                                           else t1;
    if p.cycle.Some? { ClosedSame(t2, p.cycle.value, CcCalledAway, now); }
  }

  /** A turn moves only a live row; a pending row whose order is in flight, and a row an operator owns, stay; a
      diagonal's open pair keeps its long. */
  predicate TurnFits(t: Tick, t': Tick, k: nat, p: Position) {
    && TurnDone(t, t', k) && k < |t'.db.positions|
    && (t'.db.positions[k] != p ==> Live(p))
    && (p.state.ManualIntervention? || (Pends(p.state) && HasInflight(t.db.orders, p.symbol)) ==> t' == t)
    && (p.state.PmccBothOpen? || p.state.PmccLongOpen? ==>
          var s := t'.db.positions[k].state; s.PmccBothOpen? || s.PmccLongOpen? || s.ManualIntervention?)
  }

  lemma OpenLegTurn(t: Tick, k: nat, p: Position, shape: Shape, now: int)
    requires k < |t.db.positions| && t.db.positions[k] == p && (p.state.CspOpen? || p.state.CcOpen?)
    requires FindPosition(t.db.positions, p.symbol, Some(p.strategy)) == Some(k)
    ensures TurnFits(t, DiffOne(t, k, p, shape, now), k, p)
  {
    hide FlagManual, OnAssignment, OnExpiry, OnCcExpiry, OnCalledAway, SharesClaimedByOther, FindPosition, HasInflight,
         TurnDone;
    StayTurn(t, k, p, now);
    FlagTurn(t, k, p, now);
    GoneTurns(t, k, p, CspExpired, now);
    CalledTurn(t, k, p, now);
  }

  lemma PendingTurn(t: Tick, k: nat, p: Position, shape: Shape, now: int)
    requires k < |t.db.positions| && t.db.positions[k] == p
    requires p.state.CspPending? || p.state.CcPending? || p.state.PmccLongPending? || p.state.PmccShortPending?
    ensures TurnFits(t, DiffOne(t, k, p, shape, now), k, p)
  {
    hide Heal, HealPmcc, HasInflight, TurnDone;
    StayTurn(t, k, p, now);
    HealPmccTurn(t, k, p, now);
    HealTurn(t, k, p, Idle, None, now);
    HealTurn(t, k, p, SharesHeld, None, now);
    HealTurn(t, k, p, CspOpen, p.cycle, now);
    HealTurn(t, k, p, CcOpen, p.cycle, now);
  }

  lemma SpreadTurn(t: Tick, k: nat, p: Position, shape: Shape, now: int)
    requires k < |t.db.positions| && t.db.positions[k] == p && (p.state.SpreadOpen? || p.state.SpreadPending?)
    requires FindPosition(t.db.positions, p.symbol, Some(p.strategy)) == Some(k)
    ensures TurnFits(t, DiffOne(t, k, p, shape, now), k, p)
  {
    hide FlagManual, OnExpiry, Heal, HasInflight, FindPosition, TurnDone;
    StayTurn(t, k, p, now);
    FlagTurn(t, k, p, now);
    GoneTurns(t, k, p, SpreadExpiredOutcome(p.strategy), now);
    HealTurn(t, k, p, SpreadOpen, p.cycle, now);
  }

  lemma TurnMoves(t: Tick, k: nat, p: Position, shape: Shape, now: int)
    requires k < |t.db.positions| && t.db.positions[k] == p
    requires FindPosition(t.db.positions, p.symbol, Some(p.strategy)) == Some(k)
    ensures TurnFits(t, DiffOne(t, k, p, shape, now), k, p)
  {
    hide FlagManual, HasInflight, FindPosition, TurnDone, SetState;
    match p.state {
      case CspOpen | CcOpen => OpenLegTurn(t, k, p, shape, now);
      case CspPending | CcPending | PmccLongPending | PmccShortPending => PendingTurn(t, k, p, shape, now);
      case SpreadOpen | SpreadPending => SpreadTurn(t, k, p, shape, now);
      case _ =>
        StayTurn(t, k, p, now);
        FlagTurn(t, k, p, now);
    }
  }

  lemma TurnKeeps(cfg: Config, t: Tick, k: nat, p: Position, shape: Shape, who: Option<string>, now: int)
    requires Slotted(cfg, t.db) && k < |t.db.positions| && t.db.positions[k] == p
    ensures var t' := DiffOne(t, k, p, shape, now);
            && Kept(cfg, t, t', who) && |t'.db.positions| == |t.db.positions|
            && (forall m :: 0 <= m < |t.db.positions| && m != k ==> t'.db.positions[m] == t.db.positions[m])
  {
    hide DiffOne, FindPosition, HasInflight, Waits;
    var ps, t' := t.db.positions, DiffOne(t, k, p, shape, now);
    FindPositionSound(ps, p.symbol, Some(p.strategy));
    TurnMoves(t, k, p, shape, now);
    var state := t'.db.positions[k].state;
    MovedLive(ps, t'.db.positions, k, state, who);
    forall j | 0 <= j < |t.db.orders| && Working(t.db.orders[j].status) && t.db.orders[j].strategy.Some?
      && OfPair(p, t.db.orders[j])
      ensures Waits(cfg, t.db.orders[j], t.db.orders[j].strategy.value, state)
    {
      var o := t.db.orders[j];
      assert Awaited(cfg, ps, o);
      InflightOf(t.db.orders, j);
      StillWaits(cfg, o, o.strategy.value, p.state, state);
    }
    MovedAwaited(cfg, t.db.orders, t'.db.orders, ps, t'.db.positions, k, state);
  }

  lemma InflightOf(rows: seq<Order>, j: nat)
    requires j < |rows| && Working(rows[j].status)
    ensures HasInflight(rows, rows[j].symbol)
  {
  }

  lemma StillWaits(cfg: Config, o: Order, strategy: string, s: PositionState, s': PositionState)
    requires Waits(cfg, o, strategy, s)
    requires s.ManualIntervention? || Pends(s) ==> s' == s
    requires s.PmccBothOpen? || s.PmccLongOpen? ==> s'.PmccBothOpen? || s'.PmccLongOpen? || s'.ManualIntervention?
    ensures Waits(cfg, o, strategy, s')
  {
  }

  lemma {:induction false} SweepKeeps(cfg: Config, t: Tick, n: nat, rows: seq<BrokerRow>, who: Option<string>, now: int)
    requires Slotted(cfg, t.db) && n <= |t.db.positions|
    ensures var t' := DiffAll(t, t.db.positions, n, rows, now);
            && Kept(cfg, t, t', who) && |t'.db.positions| == |t.db.positions|
            && (forall m :: n <= m < |t.db.positions| ==> t'.db.positions[m] == t.db.positions[m])
  {
    hide Slotted, DiffOne, ShapeOf, LiveIn;
    if n > 0 {
      SweepKeeps(cfg, t, n - 1, rows, who, now);
      var p := t.db.positions[n - 1];
      TurnKeeps(cfg, DiffAll(t, t.db.positions, n - 1, rows, now), n - 1, p, ShapeOf(rows, p.symbol), who, now);
    }
  }

  lemma {:induction false} UnknownKeeps(cfg: Config, t: Tick, locals: seq<Position>, rows: seq<BrokerRow>, n: nat,
                                        who: Option<string>, now: int)
    requires Slotted(cfg, t.db) && n <= |rows|
    ensures Kept(cfg, t, FlagUnknown(t, locals, rows, n, now), who)
  {
    hide Slotted, FlagManual, KnownSymbol, Present, LiveIn;
    if n > 0 {
      UnknownKeeps(cfg, t, locals, rows, n - 1, who, now);
      FlagKeeps(cfg, FlagUnknown(t, locals, rows, n - 1, now), rows[n - 1].symbol, None, who, now);
    }
  }

  // ---- The audit ----

  lemma ParityKeeps(cfg: Config, t: Tick, symbol: string, strategy: Option<string>, who: Option<string>, now: int)
    requires Slotted(cfg, t.db)
    ensures Kept(cfg, t, ParityFlag(t, symbol, strategy, now), who)
  {
    hide Slotted, FlagManual, LiveIn;
    FlagKeeps(cfg, t.(sum := t.sum.(parityFlags := t.sum.parityFlags + 1)), symbol, strategy, who, now);
  }

  lemma {:induction false} CyclesKeep(cfg: Config, t: Tick, cycles: seq<Cycle>, n: nat, who: Option<string>, now: int)
    requires Slotted(cfg, t.db) && n <= |cycles|
    ensures Kept(cfg, t, AuditCycles(cfg, t, cycles, n, now), who)
  {
    hide Slotted, ParityFlag, Orphaned, LiveIn;
    if n > 0 {
      CyclesKeep(cfg, t, cycles, n - 1, who, now);
      ParityKeeps(cfg, AuditCycles(cfg, t, cycles, n - 1, now), cycles[n - 1].symbol, cycles[n - 1].strategy, who, now);
    }
  }

  lemma {:induction false} RowsKeep(cfg: Config, t: Tick, ps: seq<Position>, n: nat, who: Option<string>, now: int)
    requires Slotted(cfg, t.db) && n <= |ps|
    ensures Kept(cfg, t, AuditRows(t, ps, n, now), who)
  {
    hide Slotted, ParityFlag, LiveIn;
    if n > 0 {
      RowsKeep(cfg, t, ps, n - 1, who, now);
      ParityKeeps(cfg, AuditRows(t, ps, n - 1, now), ps[n - 1].symbol, Some(ps[n - 1].strategy), who, now);
    }
  }

  lemma {:induction false} TotalsKeep(cfg: Config, t: Tick, ps: seq<Position>, rows: seq<BrokerRow>,
                                      symbols: seq<string>,
                                      who: Option<string>, now: int)
    requires Slotted(cfg, t.db)
    ensures Kept(cfg, t, AuditTotals(t, ps, rows, symbols, now), who)
  {
    hide Slotted, ParityFlag, KnownSymbol, LocalShares, StockIn, LiveIn;
    if |symbols| > 0 {
      var n := |symbols| - 1;
      TotalsKeep(cfg, t, ps, rows, symbols[..n], who, now);
      ParityKeeps(cfg, AuditTotals(t, ps, rows, symbols[..n], now), symbols[n], None, who, now);
    }
  }

  /** A whole tick, whatever its views and rows: the invariant survives, and each live slot gained is a flag raised. */
  lemma TickKeepsSlots(cfg: Config, d: Db, views: seq<Order>, rows: seq<BrokerRow>, symbols: seq<string>,
                       who: Option<string>, now: int)
    requires Slotted(cfg, d) && LegalViews(cfg, Tick(d, ZeroSummary), views, now)
    ensures Kept(cfg, Tick(d, ZeroSummary), ReconcileRows(cfg, d, views, rows, symbols, now), who)
  {
    hide Slotted, ProcessOrders, DiffAll, FlagUnknown, AuditCycles, AuditRows, AuditTotals, LiveIn, LegalViews;
    var t0 := Tick(d, ZeroSummary);
    ViewsKeep(cfg, t0, views, who, now);
    var t1 := ProcessOrders(cfg, t0, views, now);
    SweepKeeps(cfg, t1, |t1.db.positions|, rows, who, now);
    var t2 := DiffAll(t1, t1.db.positions, |t1.db.positions|, rows, now);
    UnknownKeeps(cfg, t2, t1.db.positions, rows, |rows|, who, now);
    var t3 := FlagUnknown(t2, t1.db.positions, rows, |rows|, now);
    CyclesKeep(cfg, t3, t3.db.cycles, |t3.db.cycles|, who, now);
    var t4 := AuditCycles(cfg, t3, t3.db.cycles, |t3.db.cycles|, now);
    var ps := t4.db.positions;
    RowsKeep(cfg, t4, ps, |ps|, who, now);
    TotalsKeep(cfg, AuditRows(t4, ps, |ps|, now), ps, rows, symbols, who, now);
  }

  // ---- Placing ----

  predicate LegalSubmission(cfg: Config, d: Db, o: Order) {
    && o.strategy.Some? && o.status.Pending?
    && (o.clientId.Some? ==> FindClient(d.orders, o.clientId.value).None?)
    && RestsIn(cfg, o, o.strategy.value, PairRow(d, o.symbol, o.strategy.value).state)
    && OnlyAlike(d.orders, o)
  }

  /** The new order waits in the state its submission put the pair in. */
  lemma SubmittedWaits(cfg: Config, o: Order, strategy: string, state: PositionState, held: bool)
    requires RestsIn(cfg, o, strategy, state) && (!held ==> state.Idle?)
    ensures Waits(cfg, o, strategy, if KeepsPosition(o, strategy) then state else TargetState(cfg, o, strategy, held))
    ensures !held ==> !KeepsPosition(o, strategy)
  {
  }

  /** The state a close leaves its pair in suits the working closes of its type. */
  lemma SubmitSuits(cfg: Config, rows: seq<Order>, ps: seq<Position>, k: nat, o: Order, strategy: string)
    requires AllAwaited(cfg, rows, ps) && OnlyAlike(rows, o) && k < |ps| && OfPair(ps[k], o)
             && o.strategy == Some(strategy)
    ensures var state := if KeepsPosition(o, strategy) then ps[k].state else TargetState(cfg, o, strategy, true);
            forall j :: 0 <= j < |rows| && Working(rows[j].status) && rows[j].strategy.Some? && OfPair(ps[k], rows[j])
              ==> Waits(cfg, rows[j], rows[j].strategy.value, state)
  {
    hide TargetState;
    forall j | 0 <= j < |rows| && Working(rows[j].status) && rows[j].strategy.Some? && OfPair(ps[k], rows[j])
      ensures Waits(cfg, rows[j], rows[j].strategy.value,
                    if KeepsPosition(o, strategy) then ps[k].state else TargetState(cfg, o, strategy, true))
    {
      assert Awaited(cfg, ps, rows[j]);
      assert SamePair(rows[j], o);
    }
  }

  lemma SubmitKeeps(cfg: Config, d: Db, o: Order, who: Option<string>, cap: int)
    requires Slotted(cfg, d) && LegalSubmission(cfg, d, o)
    requires (who.None? || who == o.strategy) ==> Gate(cap, who, d.positions, o.symbol, o.strategy.value)
    ensures var d' := Recorded(cfg, d, o, o.strategy.value);
            Slotted(cfg, d') && LiveIn(d'.positions, who) <= Max(cap, LiveIn(d.positions, who))
  {
    hide FindPosition, FindClient, RestsIn, Waits, TargetState, LiveIn, KeepsPosition;
    var strategy, ps := o.strategy.value, d.positions;
    FindPositionSound(ps, o.symbol, Some(strategy));
    var at := FindPosition(ps, o.symbol, Some(strategy));
    var d' := Recorded(cfg, d, o, strategy);
    assert d'.orders == d.orders + [o];
    SubmittedWaits(cfg, o, strategy, PairRow(d, o.symbol, strategy).state, at.Some?);
    if at.Some? {
      var k, state := at.value, if KeepsPosition(o, strategy) then ps[at.value].state
          else TargetState(cfg, o, strategy, true);
      assert RowMoved(ps, d'.positions, k, state);
      MovedLive(ps, d'.positions, k, state, who);
      SubmitSuits(cfg, d.orders, ps, k, o, strategy);
      MovedAwaited(cfg, d.orders, d.orders, ps, d'.positions, k, state);
      SlotSpare(ps, d'.positions, k, state, who, cap, o.symbol, strategy);
    } else {
      var p := d'.positions[|ps|];
      assert d'.positions == ps + [p];
      LiveMore(ps, p, who);
      NewRowAwaited(cfg, d.orders, ps, p);
    }
    NewOrderAwaited(cfg, d.orders, d'.positions, o);
  }

  lemma NewOrderAwaited(cfg: Config, rows: seq<Order>, ps: seq<Position>, o: Order)
    requires AllAwaited(cfg, rows, ps) && Awaited(cfg, ps, o) && OneWorking(rows)
    requires OnlyAlike(rows, o)
    ensures AllAwaited(cfg, rows + [o], ps) && OneWorking(rows + [o])
  {
    hide Waits;
  }

  lemma SlotSpare(ps: seq<Position>, qs: seq<Position>, k: nat, state: PositionState, who: Option<string>, cap: int,
                  symbol: string, strategy: string)
    requires OnePerPair(ps) && RowMoved(ps, qs, k, state) && ps[k].symbol == symbol && ps[k].strategy == strategy
    requires (who.None? || who == Some(strategy)) ==> Gate(cap, who, ps, symbol, strategy)
    ensures LiveIn(qs, who) <= Max(cap, LiveIn(ps, who))
  {
    assert qs == ps[k := qs[k]];
    LiveSet(ps, k, qs[k], who);
  }

  /** While an entry works, no order of its pair is proposed: so the router's stale replacement, which runs
      before a new submission, never meets a working entry. */
  lemma EntryNotReproposed(cfg: Config, d: Db, j: nat, o: Order)
    requires Slotted(cfg, d) && j < |d.orders| && Working(d.orders[j].status) && IsOpening(d.orders[j].orderType)
    requires o.strategy.Some? && SamePair(d.orders[j], o)
    ensures !RestsIn(cfg, o, o.strategy.value, PairRow(d, o.symbol, o.strategy.value).state)
  {
    hide TargetState, FindPosition;
    assert Awaited(cfg, d.positions, d.orders[j]);
    PairIndex(cfg, d.positions, d.orders[j]);
  }

  // ---- Runs ----

  /** A submission that passed the gates, the router's local half of a replaced order, or a tick. */
  datatype Act =
    | Submit(order: Order)
    | CancelRow(row: nat)
    | Reconcile(views: seq<Order>, rows: seq<BrokerRow>, symbols: seq<string>, now: int)

  predicate LegalAct(cfg: Config, d: Db, a: Act, who: Option<string>, cap: int) {
    match a
    case Submit(o) =>
      LegalSubmission(cfg, d, o)
      && (who.None? || who == o.strategy ==> Gate(cap, who, d.positions, o.symbol, o.strategy.value))
    case CancelRow(j) => j < |d.orders|
    case Reconcile(views, _, _, now) => LegalViews(cfg, Tick(d, ZeroSummary), views, now)
  }

  /** The tables after an act, and the manual flags it raised. */
  function Acted(cfg: Config, d: Db, a: Act): (Db, nat) {
    match a
    case Submit(o) => (if o.strategy.Some? then Recorded(cfg, d, o, o.strategy.value) else d, 0)
    case CancelRow(j) => (if j < |d.orders| then SetOrder(d, j, d.orders[j].(status := Cancelled)) else d, 0)
    case Reconcile(views, rows, symbols, now) =>
      var t := ReconcileRows(cfg, d, views, rows, symbols, now);
      (t.db, t.sum.manual)
  }

  function AfterActs(cfg: Config, d: Db, acts: seq<Act>): (Db, nat) {
    if |acts| == 0 then (d, 0)
    else
      var (d1, flags) := AfterActs(cfg, d, acts[..|acts| - 1]);
      var (d2, more) := Acted(cfg, d1, acts[|acts| - 1]);
      (d2, flags + more)
  }

  predicate LegalActs(cfg: Config, d: Db, acts: seq<Act>, who: Option<string>, cap: int) {
    |acts| == 0
    || (LegalActs(cfg, d, acts[..|acts| - 1], who, cap)
        && LegalAct(cfg, AfterActs(cfg, d, acts[..|acts| - 1]).0, acts[|acts| - 1], who, cap))
  }

  lemma ActKeeps(cfg: Config, d: Db, a: Act, who: Option<string>, cap: int)
    requires Slotted(cfg, d) && LegalAct(cfg, d, a, who, cap)
    ensures var (d', flags) := Acted(cfg, d, a);
            Slotted(cfg, d') && LiveIn(d'.positions, who) <= Max(cap, LiveIn(d.positions, who)) + flags
  {
    hide ReconcileRows, Recorded, LegalSubmission, Gate, LegalViews, LiveIn;
    match a {
      case Submit(o) =>
        SubmissionNamed(cfg, d, o);
        SubmitKeeps(cfg, d, o, who, cap);
      case CancelRow(j) => SettledRow(cfg, d.orders, d.positions, j, d.orders[j].(status := Cancelled));
      case Reconcile(views, rows, symbols, now) => TickKeepsSlots(cfg, d, views, rows, symbols, who, now);
    }
  }

  lemma SubmissionNamed(cfg: Config, d: Db, o: Order)
    requires LegalSubmission(cfg, d, o)
    ensures o.strategy.Some?
  {
  }

  /** Over any interleaving of submissions that pass a cap (one strategy's, or the global one), router cancels
      and ticks, for any mix of strategies on any symbols and whatever the broker reports: the live positions
      the cap counts never outnumber the larger of the cap and what the run started from, plus the manual flags
      raised on the way. */
  lemma {:induction false} SlotsBounded(cfg: Config, d: Db, acts: seq<Act>, who: Option<string>, cap: int)
    requires Slotted(cfg, d) && LegalActs(cfg, d, acts, who, cap)
    ensures var (d', flags) := AfterActs(cfg, d, acts);
            Slotted(cfg, d') && LiveIn(d'.positions, who) <= Max(cap, LiveIn(d.positions, who)) + flags
    decreases |acts|
  {
    hide Slotted, LegalAct, Acted, LiveIn;
    if |acts| > 0 {
      var n := |acts| - 1;
      SlotsBounded(cfg, d, acts[..n], who, cap);
      ActKeeps(cfg, AfterActs(cfg, d, acts[..n]).0, acts[n], who, cap);
    }
  }

  /** The global count the source compares with its cap. */
  lemma LiveBounded(cfg: Config, d: Db, acts: seq<Act>, cap: int)
    requires Slotted(cfg, d) && LegalActs(cfg, d, acts, None, cap)
    ensures var (d', flags) := AfterActs(cfg, d, acts);
            LiveCount(d'.positions) <= Max(cap, LiveCount(d.positions)) + flags
  {
    hide Slotted, LegalActs, AfterActs, LiveIn, LiveCount;
    SlotsBounded(cfg, d, acts, None, cap);
    LiveInAll(d.positions);
    LiveInAll(AfterActs(cfg, d, acts).0.positions);
  }
}
