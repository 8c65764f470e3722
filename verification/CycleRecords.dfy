/** What a fill writes into a new cycle, and what happens to a cycle's record afterwards, on any tables
    (execution/reconciler.py:444-983, 1397-1560). */
module CycleRecords {
  import opened Models
  import opened PaperBrokers
  import opened Repos
  import opened Reconciler
  import opened ParityAudit
  import opened Handovers
  import opened Router
  import opened Slots
  import SilentCancel

  // ---- Opening a cycle ----

  predicate IsSwing(cfg: Config, o: Order) {
    o.strategy != Some("pmcc") && exists id :: id in cfg.swing && o.strategy == Some(id)
  }

  predicate IsOption(o: Order, kind: OptionType) {
    o.contract.Some? && o.contract.value.optionType == kind
  }

  /** A filled order that starts a cycle: a diagonal's bought call, a swing's bought option, and otherwise a sold put
      or an opening package. */
  predicate Starts(cfg: Config, o: Order) {
    if o.strategy == Some("pmcc") then o.orderType == BuyToOpen && IsOption(o, Call)
    else if IsSwing(cfg, o) then o.orderType == BuyToOpen && o.contract.Some?
    else (o.orderType == SellToOpen && IsOption(o, Put))
         || o.orderType == MultiLegOpen
  }

  /** What the view was filled at a share; the row's limit if the view has no price; nothing if there is no limit. */
  predicate FilledAt(o: Order, v: Order, price: real) {
    match v.fillPrice
    case Some(p) => price == p
    case None =>
      match o.limitPrice
      case Some(p) => price == p
      case None => price == 0.0
  }

  /** The dollars a price a share comes to over the order's contracts. */
  function Dollars(price: real, contracts: int): real {
    100.0 * price * contracts as real
  }

  /** A sold put or package records what it brought in; a bought option what it cost, as a negative amount whatever
      the sign of the price, and a quantity of zero reads as one. */
  predicate Records(o: Order, price: real, premium: real) {
    if o.orderType != BuyToOpen then premium == Dollars(price, o.quantity)
    else premium == -Dollars(if price < 0.0 then -price else price, if o.quantity == 0 then 1 else o.quantity)
  }

  /** A package has no strike of its own. */
  function StrikeFor(o: Order): Option<real> {
    if o.orderType == MultiLegOpen || o.contract == None then None else Some(o.contract.value.strike)
  }

  function OpenState(cfg: Config, o: Order): PositionState {
    if o.strategy == Some("pmcc") then PmccLongOpen
    else if IsSwing(cfg, o) then SwingOpen
    else if o.orderType == MultiLegOpen then SpreadOpen
    else CspOpen
  }

  predicate Fresh(c: Cycle, o: Order, price: real, now: int) {
    && c.symbol == o.symbol && c.strategy == o.strategy && c.startedAt == now && c.strike == StrikeFor(o)
    && c.premium.Some? && Records(o, price, c.premium.value)
    && c.endedAt == None && c.finalPnl == None && c.outcome == None
  }

  /** From t to r order j started a cycle: one more, open since now, with the order's strike and the dollars of that
      price; the row is tagged with it and its pair points at it. */
  predicate Started(cfg: Config, t: Tick, r: Tick, j: nat, price: real, now: int)
    requires j < |t.db.orders|
  {
    var o, cy := t.db.orders[j], |t.db.cycles|;
    && |r.db.cycles| == cy + 1 && r.db.cycles[..cy] == t.db.cycles && Fresh(r.db.cycles[cy], o, price, now)
    && j < |r.db.orders| && r.db.orders[j].cycle == Some(cy)
    && forall k: nat :: k < |t.db.positions| && FirstRow(t.db.positions, o.symbol, o.strategy, k) ==>
         k < |r.db.positions|
         && r.db.positions[k] == t.db.positions[k].(state := OpenState(cfg, o), cycle := Some(cy))
  }

  lemma SwingIs(cfg: Config, o: Order)
    requires o.strategy != Some("pmcc")
    ensures IsSwing(cfg, o) <==> o.strategy.Some? && o.strategy.value in cfg.swing
  {
  }

  lemma PriceIs(o: Order, v: Order, price: real)
    ensures FilledAt(o, v, price) <==> price == PriceOf(o, v)
  {
  }

  lemma RecordsNotional(o: Order, price: real)
    ensures o.orderType != BuyToOpen ==> Records(o, price, Notional(price, o.quantity))
    ensures o.orderType == BuyToOpen ==> Records(o, price, -Notional(Abs(price), PackageSize(o)))
  {
    Scale(price, o.quantity);
    Scale(Abs(price), PackageSize(o));
  }

  lemma Scale(price: real, contracts: int)
    ensures Notional(price, contracts) == Dollars(price, contracts)
  {
  }

  /** OpenOnFill writes all of that. */
  lemma OpenStarts(t: Tick, at: Option<nat>, j: nat, o: Order, strike: Option<real>, premium: real,
                   state: PositionState, strategy: Option<string>, now: int)
    requires j < |t.db.orders| && (at.Some? ==> at.value < |t.db.positions|)
    ensures var r, cy := OpenOnFill(t, at, j, o, strike, premium, state, strategy, now), |t.db.cycles|;
            && r.db.cycles == t.db.cycles + [Cycle(o.symbol, o.strategy, now, None, strike, Some(premium), None, None)]
            && j < |r.db.orders| && r.db.orders[j].cycle == Some(cy)
            && (at.Some? ==> at.value < |r.db.positions|
                             && r.db.positions[at.value]
                                == t.db.positions[at.value].(state := state, cycle := Some(cy)))
  {
  }

  lemma StartedBy(cfg: Config, t: Tick, j: nat, o: Order, price: real, premium: real, r: Tick, now: int)
    requires j < |t.db.orders| && o == t.db.orders[j] && Records(o, price, premium)
    requires r.db.cycles
             == t.db.cycles + [Cycle(o.symbol, o.strategy, now, None, StrikeFor(o), Some(premium), None, None)]
    requires j < |r.db.orders| && r.db.orders[j].cycle == Some(|t.db.cycles|)
    requires var at := FindPosition(t.db.positions, o.symbol, o.strategy);
             at.Some? ==> at.value < |t.db.positions| && at.value < |r.db.positions|
                          && r.db.positions[at.value]
                             == t.db.positions[at.value].(state := OpenState(cfg, o), cycle := Some(|t.db.cycles|))
    ensures Started(cfg, t, r, j, price, now)
  {
    hide FindPosition, FirstRow, Records, IsSwing;
    FindsFirst(t.db.positions, o.symbol, o.strategy);
  }

  /** An order seen filled while its row is working: if it is one that starts a cycle, the cycle carries the view's
      fill price times a hundred times the contracts, whatever the limit; any other order starts none. */
  lemma FillStarts(cfg: Config, t: Tick, j: nat, v: Order, now: int) returns (price: real)
    requires Answers(t.db.orders, v, j) && t.db.orders[j].status in {Pending, Partial} && v.status == Filled
    ensures FilledAt(t.db.orders[j], v, price)
    ensures var o, r := t.db.orders[j], ProcessOrder(cfg, t, v, now);
            && (Starts(cfg, o) ==> Started(cfg, t, r, j, price, now))
            && (!Starts(cfg, o) ==> |r.db.cycles| == |t.db.cycles|)
  {
    hide FindPosition, Locate, Answers, FirstRow, Started, IsSwing, Records, Notional, FilledAt, PriceOf, OnWheelFill,
         OnPmccFill, OnSwingFill;
    LocateAnswers(t.db.orders, v);
    AnswersWithin(t.db.orders, v, j);
    var o := t.db.orders[j];
    price := PriceOf(o, v);
    PriceIs(o, v, price);
    FoundWithin(t.db.positions, o.symbol, o.strategy);
    var at := FindPosition(t.db.positions, o.symbol, o.strategy);
    var t0 := t.(db := SetOrder(t.db, j, Refresh(o, v)), sum := t.sum.(fills := t.sum.fills + [j]));
    if o.strategy == Some("pmcc") {
      PmccStarts(cfg, t, t0, at, j, o, price, now);
    } else {
      SwingIs(cfg, o);
      if IsSwing(cfg, o) {
        SwingStarts(cfg, t, t0, at, j, o, price, now);
      } else {
        WheelStarts(cfg, t, t0, at, j, o, price, now);
      }
    }
  }

  lemma PmccStarts(cfg: Config, t: Tick, t0: Tick, at: Option<nat>, j: nat, o: Order, price: real, now: int)
    requires j < |t.db.orders| && o == t.db.orders[j] && o.strategy == Some("pmcc")
    requires t0.db == t.db.(orders := t0.db.orders) && |t0.db.orders| == |t.db.orders|
    requires at == FindPosition(t.db.positions, o.symbol, o.strategy)
    requires at.Some? ==> at.value < |t.db.positions|
    ensures var r := OnPmccFill(t0, at, j, o, price, now);
            if Starts(cfg, o) then Started(cfg, t, r, j, price, now) else |r.db.cycles| == |t.db.cycles|
  {
    hide FindPosition, FirstRow, Records, Notional, Started, OpenOnFill, CyclePnl, FlagManual;
    RecordsNotional(o, price);
    if Starts(cfg, o) {
      var premium := -Notional(Abs(price), PackageSize(o));
      OpenStarts(t0, at, j, o, StrikeOf(o), premium, PmccLongOpen, o.strategy, now);
      StartedBy(cfg, t, j, o, price, premium, OnPmccFill(t0, at, j, o, price, now), now);
    } else {
      FlagHandsOver(t0, o.symbol, o.strategy, now);
    }
  }

  lemma SwingStarts(cfg: Config, t: Tick, t0: Tick, at: Option<nat>, j: nat, o: Order, price: real, now: int)
    requires j < |t.db.orders| && o == t.db.orders[j] && IsSwing(cfg, o)
    requires t0.db == t.db.(orders := t0.db.orders) && |t0.db.orders| == |t.db.orders|
    requires at == FindPosition(t.db.positions, o.symbol, o.strategy)
    requires at.Some? ==> at.value < |t.db.positions|
    ensures var r := OnSwingFill(t0, at, j, o, price, now);
            if Starts(cfg, o) then Started(cfg, t, r, j, price, now) else |r.db.cycles| == |t.db.cycles|
  {
    hide FindPosition, FirstRow, Records, Notional, Started, OpenOnFill, CyclePnl, FlagManual, IsSwing;
    assert o.strategy != Some("pmcc") by { NotPmcc(cfg, o); }
    RecordsNotional(o, price);
    if Starts(cfg, o) {
      var premium := -Notional(Abs(price), PackageSize(o));
      OpenStarts(t0, at, j, o, StrikeOf(o), premium, SwingOpen, o.strategy, now);
      StartedBy(cfg, t, j, o, price, premium, OnSwingFill(t0, at, j, o, price, now), now);
    } else {
      FlagHandsOver(t0, o.symbol, o.strategy, now);
    }
  }

  lemma NotPmcc(cfg: Config, o: Order)
    requires IsSwing(cfg, o)
    ensures o.strategy != Some("pmcc")
  {
  }

  lemma WheelStarts(cfg: Config, t: Tick, t0: Tick, at: Option<nat>, j: nat, o: Order, price: real, now: int)
    requires j < |t.db.orders| && o == t.db.orders[j] && o.strategy != Some("pmcc") && !IsSwing(cfg, o)
    requires t0.db == t.db.(orders := t0.db.orders) && |t0.db.orders| == |t.db.orders|
    requires at == FindPosition(t.db.positions, o.symbol, o.strategy)
    requires at.Some? ==> at.value < |t.db.positions|
    ensures var r := OnWheelFill(t0, at, j, o, price, now);
            if Starts(cfg, o) then Started(cfg, t, r, j, price, now) else |r.db.cycles| == |t.db.cycles|
  {
    hide FindPosition, FirstRow, Records, Notional, Started, OpenOnFill, CyclePnl, FlagManual, IsSwing;
    RecordsNotional(o, price);
    FlagHandsOver(t0, o.symbol, o.strategy, now);
    if Starts(cfg, o) {
      var premium := Notional(price, o.quantity);
      if o.orderType.MultiLegOpen? {
        OpenStarts(t0, at, j, o, None, premium, SpreadOpen, o.strategy, now);
      } else {
        OpenStarts(t0, at, j, o, StrikeOf(o), premium, CspOpen, None, now);
      }
      StartedBy(cfg, t, j, o, price, premium, OnWheelFill(t0, at, j, o, price, now), now);
    }
  }

  /** The self-heal of a diagonal's entry records the same of the filled row it finds, but takes a fill price of zero
      for none. */
  lemma HealStarts(t: Tick, k: nat, p: Position, now: int, j: nat)
    requires p.state.PmccLongPending? && LatestCallOrder(t.db.orders, p.symbol, p.strategy, BuyToOpen) == Some(j)
    requires j < |t.db.orders| && t.db.orders[j].status == Filled
    ensures var o, r, cy := t.db.orders[j], HealPmcc(t, k, p, now), |t.db.cycles|;
            && |r.db.cycles| == cy + 1 && r.db.cycles[..cy] == t.db.cycles && r.db.orders[j].cycle == Some(cy)
            && Fresh(r.db.cycles[cy], o,
                     if o.fillPrice.Some? && o.fillPrice.value != 0.0 then o.fillPrice.value
                     else if o.limitPrice.Some? then o.limitPrice.value else 0.0, now)
  {
    hide LatestCallOrder, Notional, Records;
    SilentCancel.LatestIsOfType(t.db.orders, p.symbol, p.strategy, BuyToOpen);
    var o := t.db.orders[j];
    RecordsNotional(o, if o.fillPrice.Some? && o.fillPrice.value != 0.0 then o.fillPrice.value
                    else if o.limitPrice.Some? then o.limitPrice.value else 0.0);
  }

  // ---- Ending a cycle ----

  /** A filled order that ends its pair's cycle: a diagonal's long call sold, a swing's option sold, and otherwise a
      put bought back or a package closed. */
  predicate Ends(cfg: Config, o: Order) {
    if o.strategy == Some("pmcc") then o.orderType == SellToClose && IsOption(o, Call)
    else if IsSwing(cfg, o) then o.orderType == SellToClose && o.contract.Some?
    else (o.orderType == BuyToClose && IsOption(o, Put))
         || o.orderType == MultiLegClose
  }

  function LabelFor(cfg: Config, o: Order, pnl: real): CycleOutcome {
    if o.strategy == Some("pmcc") then (if o.rollTrigger then PmccLongRolled else PmccFullClosed)
    else if IsSwing(cfg, o) then SwingClosed
    else if o.orderType == BuyToClose then (if pnl < 0.0 then CspClosedLoss else CspClosedProfit)
    else if o.strategy == Some("iron_condor") then (if pnl < 0.0 then IronCondorClosedLoss else IronCondorClosedProfit)
    else if o.strategy == Some("calendar") then (if pnl < 0.0 then CalendarClosedLoss else CalendarClosedProfit)
    else (if pnl < 0.0 then SpreadClosedLoss else SpreadClosedProfit)
  }

  /** From t to r order j ended cycle cy, which row k pointed at: the cycle closes now at the flows of its rows, the
      closing one among them, under its label; the row goes flat, and forgets the cycle unless a put was bought
      back. */
  predicate EndedBy(cfg: Config, t: Tick, r: Tick, j: nat, k: nat, cy: nat, now: int)
    requires j < |t.db.orders| && k < |t.db.positions| && cy < |t.db.cycles|
  {
    var o := t.db.orders[j];
    && j < |r.db.orders| && r.db.orders[j].cycle == (if o.cycle == None then Some(cy) else o.cycle)
    && r.db.cycles == t.db.cycles[cy := t.db.cycles[cy].(endedAt := Some(now), finalPnl := Some(CyclePnl(r.db, cy)),
                                                         outcome := Some(LabelFor(cfg, o, CyclePnl(r.db, cy))))]
    && |r.db.positions| == |t.db.positions|
    && r.db.positions[k] == t.db.positions[k].(state := if o.orderType == MultiLegClose then SpreadClosed else Idle,
                                               cycle := if o.orderType == BuyToClose then Some(cy) else None)
  }

  /** An order that ends a cycle, seen filled while its row is working. */
  lemma FillEnds(cfg: Config, t: Tick, j: nat, k: nat, cy: nat, v: Order, now: int)
    requires Answers(t.db.orders, v, j) && t.db.orders[j].status in {Pending, Partial} && v.status == Filled
    requires Ends(cfg, t.db.orders[j])
    requires FirstRow(t.db.positions, t.db.orders[j].symbol, t.db.orders[j].strategy, k)
    requires t.db.positions[k].cycle == Some(cy) && cy < |t.db.cycles| && t.db.cycles[cy].endedAt == None
    ensures EndedBy(cfg, t, ProcessOrder(cfg, t, v, now), j, k, cy, now)
  {
    hide FindPosition, Locate, Answers, FirstRow, EndedBy, IsSwing, OnWheelFill, OnPmccFill, OnSwingFill, PriceOf;
    LocateAnswers(t.db.orders, v);
    AnswersWithin(t.db.orders, v, j);
    var o := t.db.orders[j];
    FirstWithin(t.db.positions, o.symbol, o.strategy, k);
    var t0 := t.(db := SetOrder(t.db, j, Refresh(o, v)), sum := t.sum.(fills := t.sum.fills + [j]));
    var price := PriceOf(o, v);
    if o.strategy == Some("pmcc") {
      PmccEnds(cfg, t, t0, j, o, k, cy, price, now);
    } else {
      SwingIs(cfg, o);
      if IsSwing(cfg, o) {
        SwingEnds(cfg, t, t0, j, o, k, cy, price, now);
      } else {
        WheelEnds(cfg, t, t0, j, o, k, cy, price, now);
      }
    }
  }

  lemma FirstWithin(ps: seq<Position>, symbol: string, strategy: Option<string>, k: nat)
    requires FirstRow(ps, symbol, strategy, k)
    ensures k < |ps| && FindPosition(ps, symbol, strategy) == Some(k)
  {
    FindsFirst(ps, symbol, strategy);
  }

  /** The tables of a fill before its handler writes: the row refreshed, nothing else. */
  predicate Refreshed(t: Tick, t0: Tick, j: nat) {
    j < |t.db.orders| == |t0.db.orders| && t0.db == t.db.(orders := t0.db.orders)
    && t0.db.orders[j].cycle == t.db.orders[j].cycle
  }

  /** EndOnFill does so, under the label it is given, honestly. */
  lemma EndOnFillEnds(t: Tick, t0: Tick, j: nat, o: Order, k: nat, cy: nat, state: PositionState, outcome: CycleOutcome,
                      now: int)
    requires Refreshed(t, t0, j) && o == t.db.orders[j] && k < |t.db.positions|
    requires t.db.positions[k].cycle == Some(cy) && cy < |t.db.cycles| && t.db.cycles[cy].endedAt == None
    ensures var r := EndOnFill(t0, Some(k), j, o, state, outcome, now);
            && j < |r.db.orders| && r.db.orders[j].cycle == (if o.cycle == None then Some(cy) else o.cycle)
            && r.db.cycles
               == t.db.cycles[cy := t.db.cycles[cy].(endedAt := Some(now), finalPnl := Some(CyclePnl(r.db, cy)),
                                                     outcome := Some(Honest(outcome, CyclePnl(r.db, cy))))]
            && |r.db.positions| == |t.db.positions|
            && r.db.positions[k] == t.db.positions[k].(state := state, cycle := None)
  {
    hide Honest, CyclePnl, SetState, CloseCycle, TagClose;
    var t1 := TagClose(t0, j, o, Some(cy));
    TagCloses(t0, j, o, cy);
    var t2 := SetState(t1, Some(k), o.symbol, state, None, o.strategy, now);
    SetAt(t1, k, o.symbol, state, o.strategy, now);
    CloseAt(t2, cy, outcome, now);
    SamePnl(t2, CloseCycle(t2, cy, outcome, now), cy);
    SamePnl(t2, EndOnFill(t0, Some(k), j, o, state, outcome, now), cy);
  }

  lemma SamePnl(t: Tick, r: Tick, cy: nat)
    requires r.db.orders == t.db.orders
    ensures CyclePnl(r.db, cy) == CyclePnl(t.db, cy)
  {
  }

  lemma TagCloses(t: Tick, j: nat, o: Order, cy: nat)
    requires j < |t.db.orders| && t.db.orders[j].cycle == o.cycle
    ensures var r := TagClose(t, j, o, Some(cy));
            && r.db == t.db.(orders := r.db.orders) && |r.db.orders| == |t.db.orders|
            && r.db.orders[j].cycle == if o.cycle == None then Some(cy) else o.cycle
  {
  }

  lemma SetAt(t: Tick, k: nat, symbol: string, state: PositionState, strategy: Option<string>, now: int)
    requires k < |t.db.positions|
    ensures var r := SetState(t, Some(k), symbol, state, None, strategy, now);
            && r.db.orders == t.db.orders && r.db.cycles == t.db.cycles
            && r.db.positions == t.db.positions[k := t.db.positions[k].(state := state)]
  {
  }

  lemma CloseAt(t: Tick, cy: nat, outcome: CycleOutcome, now: int)
    requires cy < |t.db.cycles| && t.db.cycles[cy].endedAt == None
    ensures var r, pnl := CloseCycle(t, cy, outcome, now), CyclePnl(t.db, cy);
            && r.db.orders == t.db.orders && r.db.positions == t.db.positions
            && r.db.cycles == t.db.cycles[cy := t.db.cycles[cy].(endedAt := Some(now), finalPnl := Some(pnl),
                                                                 outcome := Some(Honest(outcome, pnl)))]
  {
    hide Honest, CyclePnl;
  }

  lemma PmccEnds(cfg: Config, t: Tick, t0: Tick, j: nat, o: Order, k: nat, cy: nat, price: real, now: int)
    requires Refreshed(t, t0, j) && o == t.db.orders[j] && k < |t.db.positions|
    requires t.db.positions[k].cycle == Some(cy) && cy < |t.db.cycles| && t.db.cycles[cy].endedAt == None
    requires o.strategy == Some("pmcc") && Ends(cfg, o)
    ensures EndedBy(cfg, t, OnPmccFill(t0, Some(k), j, o, price, now), j, k, cy, now)
  {
    hide CyclePnl, EndOnFill;
    EndOnFillEnds(t, t0, j, o, k, cy, Idle, if o.rollTrigger then PmccLongRolled else PmccFullClosed, now);
  }

  lemma SwingEnds(cfg: Config, t: Tick, t0: Tick, j: nat, o: Order, k: nat, cy: nat, price: real, now: int)
    requires Refreshed(t, t0, j) && o == t.db.orders[j] && k < |t.db.positions|
    requires t.db.positions[k].cycle == Some(cy) && cy < |t.db.cycles| && t.db.cycles[cy].endedAt == None
    requires IsSwing(cfg, o) && Ends(cfg, o)
    ensures EndedBy(cfg, t, OnSwingFill(t0, Some(k), j, o, price, now), j, k, cy, now)
  {
    hide CyclePnl, EndOnFill, IsSwing;
    NotPmcc(cfg, o);
    EndOnFillEnds(t, t0, j, o, k, cy, Idle, SwingClosed, now);
  }

  lemma WheelEnds(cfg: Config, t: Tick, t0: Tick, j: nat, o: Order, k: nat, cy: nat, price: real, now: int)
    requires Refreshed(t, t0, j) && o == t.db.orders[j] && k < |t.db.positions|
    requires t.db.positions[k].cycle == Some(cy) && cy < |t.db.cycles| && t.db.cycles[cy].endedAt == None
    requires o.strategy != Some("pmcc") && !IsSwing(cfg, o) && Ends(cfg, o)
    ensures EndedBy(cfg, t, OnWheelFill(t0, Some(k), j, o, price, now), j, k, cy, now)
  {
    if o.orderType == MultiLegClose {
      PackageEnds(cfg, t, t0, j, o, k, cy, price, now);
    } else {
      hide Tagged, FlowSum, IsSwing;
    }
  }

  lemma PackageEnds(cfg: Config, t: Tick, t0: Tick, j: nat, o: Order, k: nat, cy: nat, price: real, now: int)
    requires Refreshed(t, t0, j) && o == t.db.orders[j] && k < |t.db.positions|
    requires t.db.positions[k].cycle == Some(cy) && cy < |t.db.cycles| && t.db.cycles[cy].endedAt == None
    requires o.strategy != Some("pmcc") && !IsSwing(cfg, o) && o.orderType == MultiLegClose
    ensures EndedBy(cfg, t, OnWheelFill(t0, Some(k), j, o, price, now), j, k, cy, now)
  {
    hide CyclePnl, EndOnFill, IsSwing;
    EndOnFillEnds(t, t0, j, o, k, cy, SpreadClosed, SpreadCloseOutcome(o.strategy), now);
  }

  // ---- Inside a cycle, and none of these ----

  /** A filled order that moves its pair within its cycle: a call sold or bought back, of a wheel or a diagonal. */
  predicate Continues(cfg: Config, o: Order) {
    o.orderType in {SellToOpen, BuyToClose} && !IsSwing(cfg, o)
    && if o.strategy == Some("pmcc") then IsOption(o, Call) else !IsOption(o, Put)
  }

  function MidState(o: Order): PositionState {
    if o.strategy == Some("pmcc") then (if o.orderType == SellToOpen then PmccBothOpen else PmccLongOpen)
    else if o.orderType == SellToOpen then CcOpen
    else SharesHeld
  }

  /** From t to r order j moved its pair's row k and nothing else but its own tag: a call sold takes the pair's cycle,
      one bought back takes it unless it has one. */
  predicate Moved(t: Tick, r: Tick, j: nat, k: nat)
    requires j < |t.db.orders| && k < |t.db.positions|
  {
    var o, p := t.db.orders[j], t.db.positions[k];
    && r.db.cycles == t.db.cycles && r.db.positions == t.db.positions[k := p.(state := MidState(o))]
    && j < |r.db.orders|
    && r.db.orders[j].cycle == if p.cycle.Some? && (o.orderType == SellToOpen || o.cycle == None) then p.cycle
                               else o.cycle
  }

  /** Every other order seen filled while its row is working: one inside a cycle moves its pair on; one of a type its
      strategy has no place for hands the pair over. */
  lemma FillMoves(cfg: Config, t: Tick, j: nat, k: nat, v: Order, now: int)
    requires Answers(t.db.orders, v, j) && t.db.orders[j].status in {Pending, Partial} && v.status == Filled
    requires FirstRow(t.db.positions, t.db.orders[j].symbol, t.db.orders[j].strategy, k) && k < |t.db.positions|
    ensures var o, r := t.db.orders[j], ProcessOrder(cfg, t, v, now);
            && (Continues(cfg, o) ==> Moved(t, r, j, k))
            && (!Continues(cfg, o) && !Starts(cfg, o) && !Ends(cfg, o) ==>
                  WithOperator(r.db.positions, o.symbol, o.strategy) && r.db.cycles == t.db.cycles)
  {
    hide FindPosition, Locate, Answers, FirstRow, Moved, IsSwing, OnWheelFill, OnPmccFill, OnSwingFill, PriceOf,
         WithOperator;
    LocateAnswers(t.db.orders, v);
    AnswersWithin(t.db.orders, v, j);
    var o := t.db.orders[j];
    FirstWithin(t.db.positions, o.symbol, o.strategy, k);
    var t0 := t.(db := SetOrder(t.db, j, Refresh(o, v)), sum := t.sum.(fills := t.sum.fills + [j]));
    var price := PriceOf(o, v);
    if o.strategy == Some("pmcc") {
      PmccMoves(cfg, t, t0, j, o, k, price, now);
    } else {
      SwingIs(cfg, o);
      if IsSwing(cfg, o) {
        SwingMoves(cfg, t, t0, j, o, k, price, now);
      } else {
        WheelMoves(cfg, t, t0, j, o, k, price, now);
      }
    }
  }

  lemma PmccMoves(cfg: Config, t: Tick, t0: Tick, j: nat, o: Order, k: nat, price: real, now: int)
    requires Refreshed(t, t0, j) && o == t.db.orders[j] && k < |t.db.positions| && o.strategy == Some("pmcc")
    ensures var r := OnPmccFill(t0, Some(k), j, o, price, now);
            && (Continues(cfg, o) ==> Moved(t, r, j, k))
            && (!Continues(cfg, o) && !Starts(cfg, o) && !Ends(cfg, o) ==>
                  WithOperator(r.db.positions, o.symbol, o.strategy) && r.db.cycles == t.db.cycles)
  {
    hide FlagManual, OpenOnFill, EndOnFill, Notional, WithOperator, HandedOver;
    FlagHandsOver(t0, o.symbol, o.strategy, now);
  }

  lemma SwingMoves(cfg: Config, t: Tick, t0: Tick, j: nat, o: Order, k: nat, price: real, now: int)
    requires Refreshed(t, t0, j) && o == t.db.orders[j] && k < |t.db.positions| && IsSwing(cfg, o)
    ensures var r := OnSwingFill(t0, Some(k), j, o, price, now);
            && (Continues(cfg, o) ==> Moved(t, r, j, k))
            && (!Continues(cfg, o) && !Starts(cfg, o) && !Ends(cfg, o) ==>
                  WithOperator(r.db.positions, o.symbol, o.strategy) && r.db.cycles == t.db.cycles)
  {
    hide FlagManual, OpenOnFill, EndOnFill, Notional, WithOperator, HandedOver, IsSwing, Moved;
    NotPmcc(cfg, o);
    FlagHandsOver(t0, o.symbol, o.strategy, now);
  }

  lemma WheelMoves(cfg: Config, t: Tick, t0: Tick, j: nat, o: Order, k: nat, price: real, now: int)
    requires Refreshed(t, t0, j) && o == t.db.orders[j] && k < |t.db.positions|
    requires o.strategy != Some("pmcc") && !IsSwing(cfg, o)
    ensures var r := OnWheelFill(t0, Some(k), j, o, price, now);
            && (Continues(cfg, o) ==> Moved(t, r, j, k))
            && (!Continues(cfg, o) && !Starts(cfg, o) && !Ends(cfg, o) ==>
                  WithOperator(r.db.positions, o.symbol, o.strategy) && r.db.cycles == t.db.cycles)
  {
    hide FlagManual, OpenOnFill, EndOnFill, Notional, WithOperator, HandedOver, IsSwing;
    FlagHandsOver(t0, o.symbol, o.strategy, now);
  }

  /** A put or a package that is gone with nothing in its place: the cycle closes at its flows as expired, and the row
      goes flat. */
  lemma ExpiryEnds(t: Tick, k: nat, p: Position, rows: seq<BrokerRow>, cy: nat, now: int)
    requires k < |t.db.positions| && p.cycle == Some(cy) && cy < |t.db.cycles| && t.db.cycles[cy].endedAt == None
    requires p.state == CspOpen || (p.state == SpreadOpen && p.strategy != "calendar")
    requires forall i :: 0 <= i < |rows| ==> rows[i].symbol != p.symbol
    ensures var r := DiffOne(t, k, p, ShapeOf(rows, p.symbol), now);
            && r.db.orders == t.db.orders
            && r.db.cycles == t.db.cycles[cy := t.db.cycles[cy].(
                 endedAt := Some(now), finalPnl := Some(CyclePnl(t.db, cy)),
                 outcome := Some(if p.state == CspOpen then CspExpired
                                 else if p.strategy == "iron_condor" then IronCondorExpiredProfit
                                 else SpreadExpiredProfit))]
            && r.db.positions
               == t.db.positions[k := t.db.positions[k].(state := Idle, shares := 0, costBasis := None, cycle := None)]
            && r.sum.expirations == t.sum.expirations + 1 && r.sum.cyclesClosed == t.sum.cyclesClosed + 1
  {
    hide Tagged, FlowSum, FlagManual;
    NothingShown(rows, p.symbol);
  }

  /** The shares a called-away cycle has to sell: a hundred a contract of its first put, or what the row holds. */
  function SharesDue(d: Db, p: Position): int {
    match CspQuantity(d, p.cycle)
    case Some(n) => if n == 0 then p.shares else 100 * n
    case None => p.shares
  }

  /** Shares gone with their call: sold at the latest filled short call's strike; the cycle closes at its flows, the
      sale among them, and the row goes flat. */
  lemma CalledEnds(t: Tick, k: nat, p: Position, rows: seq<BrokerRow>, cy: nat, strike: real, now: int)
    requires k < |t.db.positions| && p.cycle == Some(cy) && cy < |t.db.cycles| && t.db.cycles[cy].endedAt == None
    requires p.state == CcOpen && CcStrike(t.db, p.cycle) == Some(strike)
    requires forall i :: 0 <= i < |rows| ==> rows[i].symbol != p.symbol
    requires SharesDue(t.db, p) > 0
    ensures var r := DiffOne(t, k, p, ShapeOf(rows, p.symbol), now);
            && r.db.orders == t.db.orders + [Order(p.symbol, None, SellToClose, None, [],
                                                   SharesDue(t.db, p), None, Some(strike), Filled,
                                                   now, Some(now), None, None, Some(cy), None, false)]
            && r.db.cycles == t.db.cycles[cy := t.db.cycles[cy].(
                 endedAt := Some(now), finalPnl := Some(CyclePnl(r.db, cy)), outcome := Some(CcCalledAway))]
            && r.db.positions
               == t.db.positions[k := t.db.positions[k].(state := Idle, shares := 0, costBasis := None, cycle := None)]
            && r.sum.calledAways == t.sum.calledAways + 1
  {
    hide Tagged, FlowSum, FlagManual, CcStrike, CspQuantity, ShapeOf;
    NothingShown(rows, p.symbol);
  }

  lemma {:induction false} NothingShown(rows: seq<BrokerRow>, s: string)
    requires forall i :: 0 <= i < |rows| ==> rows[i].symbol != s
    ensures ShapeOf(rows, s) == Shape(false, false, false, false)
  {
    if |rows| > 0 { NothingShown(rows[..|rows| - 1], s); }
  }

  // ---- What becomes of a cycle ----

  /** A label that has a loss counterpart goes with no loss, and a loss label with nothing else. */
  predicate FairlyLabelled(c: Cycle) {
    c.outcome.Some? ==>
      && c.finalPnl.Some?
      && (c.finalPnl.value < 0.0 ==>
            c.outcome.value !in {CspClosedProfit, CcClosedProfit, SpreadClosedProfit, IronCondorClosedProfit,
                                 CalendarClosedProfit})
      && (c.finalPnl.value >= 0.0 ==>
            c.outcome.value !in {CspClosedLoss, CcClosedLoss, SpreadClosedLoss, IronCondorClosedLoss,
                                 CalendarClosedLoss})
  }

  /** An open cycle's end, with its P&L and label; nothing else of its record moves. */
  predicate Ended(c: Cycle, c': Cycle) {
    && c.endedAt == None && c'.endedAt.Some? && c'.finalPnl.Some? && c'.outcome.Some? && FairlyLabelled(c')
    && c' == c.(endedAt := c'.endedAt, finalPnl := c'.finalPnl, outcome := c'.outcome)
  }

  /** Cycles only end or are added: what a cycle recorded when it opened never changes, and once it has ended nothing
      of it does. */
  predicate Carried(a: seq<Cycle>, b: seq<Cycle>) {
    && |a| <= |b|
    && (forall i :: 0 <= i < |a| ==> b[i] == a[i] || Ended(a[i], b[i]))
    && (forall i :: |a| <= i < |b| ==> FairlyLabelled(b[i]))
  }

  lemma SameCarried(a: seq<Cycle>)
    ensures Carried(a, a)
  {
  }

  lemma ThenCarried(a: seq<Cycle>, b: seq<Cycle>, c: seq<Cycle>)
    requires Carried(a, b) && Carried(b, c)
    ensures Carried(a, c)
  {
  }

  /** How many cycles have ended. */
  function EndedCount(cycles: seq<Cycle>): int {
    |set i | 0 <= i < |cycles| && cycles[i].endedAt.Some?|
  }

  /** From t to r cycles only ended or were added, and the summary counted each. */
  predicate Follows(t: Tick, r: Tick) {
    && Carried(t.db.cycles, r.db.cycles)
    && |r.db.cycles| - |t.db.cycles| == r.sum.cyclesOpened - t.sum.cyclesOpened
    && EndedCount(r.db.cycles) - EndedCount(t.db.cycles) == r.sum.cyclesClosed - t.sum.cyclesClosed
  }

  predicate SameCycles(t: Tick, r: Tick) {
    r.db.cycles == t.db.cycles && r.sum.cyclesOpened == t.sum.cyclesOpened && r.sum.cyclesClosed == t.sum.cyclesClosed
  }

  lemma SameFollows(t: Tick, r: Tick)
    requires SameCycles(t, r)
    ensures Follows(t, r)
  {
    hide EndedCount;
    SameCarried(t.db.cycles);
  }

  /** A step that touches no cycle, before or after one that may. */
  lemma FollowsAcross(a: Tick, b: Tick, c: Tick, e: Tick)
    requires SameCycles(a, b) && Follows(b, c) && SameCycles(c, e)
    ensures Follows(a, e)
  {
    hide EndedCount, Carried;
  }

  lemma ThenFollows(a: Tick, b: Tick, c: Tick)
    requires Follows(a, b) && Follows(b, c)
    ensures Follows(a, c)
  {
    hide EndedCount, Carried;
    ThenCarried(a.db.cycles, b.db.cycles, c.db.cycles);
  }

  lemma OneMoreEnded(cycles: seq<Cycle>, cy: nat, c: Cycle)
    requires cy < |cycles| && cycles[cy].endedAt == None && c.endedAt.Some?
    ensures EndedCount(cycles[cy := c]) == EndedCount(cycles) + 1
  {
    var after := cycles[cy := c];
    assert (set i | 0 <= i < |after| && after[i].endedAt.Some?)
           == (set i | 0 <= i < |cycles| && cycles[i].endedAt.Some?) + {cy};
  }

  lemma OneMoreOpen(cycles: seq<Cycle>, c: Cycle)
    requires c.endedAt == None
    ensures EndedCount(cycles + [c]) == EndedCount(cycles)
  {
    assert (set i | 0 <= i < |cycles + [c]| && (cycles + [c])[i].endedAt.Some?)
           == (set i | 0 <= i < |cycles| && cycles[i].endedAt.Some?);
  }

  predicate ProfitOrNeutral(o: CycleOutcome) {
    o !in {CspClosedLoss, CcClosedLoss, SpreadClosedLoss, IronCondorClosedLoss, CalendarClosedLoss}
  }

  lemma CloseCarries(t: Tick, cy: nat, outcome: CycleOutcome, now: int)
    requires ProfitOrNeutral(outcome)
    ensures Follows(t, CloseCycle(t, cy, outcome, now))
  {
    hide CyclePnl, EndedCount;
    var r := CloseCycle(t, cy, outcome, now);
    if cy < |t.db.cycles| && t.db.cycles[cy].endedAt.None? { OneMoreEnded(t.db.cycles, cy, r.db.cycles[cy]); }
  }

  lemma OpenCarries(t: Tick, o: Order, strike: Option<real>, premium: real, now: int)
    ensures Follows(t, OpenCycle(t, o, strike, premium, now))
  {
    hide EndedCount;
    OneMoreOpen(t.db.cycles, OpenCycle(t, o, strike, premium, now).db.cycles[|t.db.cycles|]);
  }

  lemma SetStateCycles(t: Tick, at: Option<nat>, symbol: string, state: PositionState, cycle: Option<nat>,
                       strategy: Option<string>, now: int)
    ensures SameCycles(t, SetState(t, at, symbol, state, cycle, strategy, now))
  {
  }

  lemma FlagCycles(t: Tick, symbol: string, strategy: Option<string>, now: int)
    ensures SameCycles(t, FlagManual(t, symbol, strategy, now)) && Follows(t, FlagManual(t, symbol, strategy, now))
  {
    hide FindPosition, Follows;
    SameFollows(t, FlagManual(t, symbol, strategy, now));
  }

  lemma OpenFillCarries(t: Tick, at: Option<nat>, j: nat, o: Order, strike: Option<real>, premium: real,
                        state: PositionState, strategy: Option<string>, now: int)
    ensures Follows(t, OpenOnFill(t, at, j, o, strike, premium, state, strategy, now))
  {
    hide SetState, Follows;
    var t1 := OpenCycle(t, o, strike, premium, now);
    OpenCarries(t, o, strike, premium, now);
    SetStateCycles(t1, at, o.symbol, state, Some(|t.db.cycles|), strategy, now);
    FollowsAcross(t, t, t1, OpenOnFill(t, at, j, o, strike, premium, state, strategy, now));
  }

  lemma EndFillCarries(t: Tick, at: Option<nat>, j: nat, o: Order, state: PositionState, outcome: CycleOutcome,
                       now: int)
    requires ProfitOrNeutral(outcome)
    ensures Follows(t, EndOnFill(t, at, j, o, state, outcome, now))
  {
    hide SetState, Follows, CloseCycle;
    var cycle := PointerOf(t, at);
    var t1 := TagClose(t, j, o, cycle);
    var t2 := SetState(t1, at, o.symbol, state, None, o.strategy, now);
    SetStateCycles(t1, at, o.symbol, state, None, o.strategy, now);
    var r := EndOnFill(t, at, j, o, state, outcome, now);
    if cycle.Some? {
      CloseCarries(t2, cycle.value, outcome, now);
      FollowsAcross(t, t2, CloseCycle(t2, cycle.value, outcome, now), r);
    } else {
      SameFollows(t, r);
    }
  }

  lemma WheelCarries(t: Tick, at: Option<nat>, j: nat, o: Order, price: real, now: int)
    ensures Follows(t, OnWheelFill(t, at, j, o, price, now))
  {
    hide SetState, Follows, CloseCycle, OpenOnFill, EndOnFill, FlagManual, Notional;
    FlagCycles(t, o.symbol, o.strategy, now);
    var cycle, r := PointerOf(t, at), OnWheelFill(t, at, j, o, price, now);
    match o.orderType {
      case SellToOpen =>
        if IsPut(o) {
          OpenFillCarries(t, at, j, o, StrikeOf(o), Notional(price, o.quantity), CspOpen, None, now);
        } else {
          SetStateCycles(t, at, o.symbol, CcOpen, cycle, None, now);
          SameFollows(t, r);
        }
      case BuyToClose =>
        var t1 := TagClose(t, j, o, cycle);
        var t2 := SetState(t1, at, o.symbol, if IsPut(o) then Idle else SharesHeld, None, None, now);
        SetStateCycles(t1, at, o.symbol, if IsPut(o) then Idle else SharesHeld, None, None, now);
        if IsPut(o) && cycle.Some? {
          CloseCarries(t2, cycle.value, CspClosedProfit, now);
          FollowsAcross(t, t2, r, r);
        } else {
          SameFollows(t, r);
        }
      case MultiLegOpen => OpenFillCarries(t, at, j, o, None, Notional(price, o.quantity), SpreadOpen, o.strategy, now);
      case MultiLegClose => EndFillCarries(t, at, j, o, SpreadClosed, SpreadCloseOutcome(o.strategy), now);
      case _ =>
    }
  }

  lemma PmccCarries(t: Tick, at: Option<nat>, j: nat, o: Order, price: real, now: int)
    ensures Follows(t, OnPmccFill(t, at, j, o, price, now))
  {
    hide SetState, Follows, OpenOnFill, EndOnFill, FlagManual, Notional;
    FlagCycles(t, o.symbol, o.strategy, now);
    var cycle, r := PointerOf(t, at), OnPmccFill(t, at, j, o, price, now);
    if OptionTypeOf(o) == Some(Call) {
      match o.orderType {
        case BuyToOpen =>
          OpenFillCarries(t, at, j, o, StrikeOf(o), -Notional(Abs(price), PackageSize(o)), PmccLongOpen, o.strategy,
                          now);
        case SellToOpen =>
          SetStateCycles(t, at, o.symbol, PmccBothOpen, cycle, o.strategy, now);
          SameFollows(t, r);
        case BuyToClose =>
          SetStateCycles(TagClose(t, j, o, cycle), at, o.symbol, PmccLongOpen, cycle, o.strategy, now);
          SameFollows(t, r);
        case SellToClose =>
          EndFillCarries(t, at, j, o, Idle, if o.rollTrigger then PmccLongRolled else PmccFullClosed, now);
        case _ =>
      }
    }
  }

  lemma SwingCarries(t: Tick, at: Option<nat>, j: nat, o: Order, price: real, now: int)
    ensures Follows(t, OnSwingFill(t, at, j, o, price, now))
  {
    hide SetState, Follows, OpenOnFill, EndOnFill, FlagManual, Notional;
    FlagCycles(t, o.symbol, o.strategy, now);
    OpenFillCarries(t, at, j, o, StrikeOf(o), -Notional(Abs(price), PackageSize(o)), SwingOpen, o.strategy, now);
    EndFillCarries(t, at, j, o, Idle, SwingClosed, now);
  }

  lemma OrderCarries(cfg: Config, t: Tick, v: Order, now: int)
    ensures Follows(t, ProcessOrder(cfg, t, v, now))
  {
    hide Locate, OnWheelFill, OnPmccFill, OnSwingFill, FlagManual, FindPosition, ObservedPartial, RestoredState,
         Follows, SetState, OnCancel;
    SameFollows(t, t);
    FlagCycles(t, v.symbol, None, now);
    var at := Locate(t.db.orders, v);
    if at.Some? && at.value < |t.db.orders| {
      var j, o := at.value, t.db.orders[at.value];
      var t0 := t.(db := SetOrder(t.db, j, Refresh(o, v)));
      var t1 := t0.(sum := t0.sum.(fills := t0.sum.fills + [j]));
      var pos := FindPosition(t0.db.positions, o.symbol, o.strategy);
      FlagCycles(t0, o.symbol, o.strategy, now);
      WheelCarries(t1, pos, j, o, PriceOf(o, v), now);
      PmccCarries(t1, pos, j, o, PriceOf(o, v), now);
      SwingCarries(t1, pos, j, o, PriceOf(o, v), now);
      CancelCycles(t0, o, now);
      SameFollows(t0, t0);
      Dispatched(cfg, t, t0, j, o, v, now);
    }
  }

  lemma Dispatched(cfg: Config, t: Tick, t0: Tick, j: nat, o: Order, v: Order, now: int)
    requires SameCycles(t, t0) && Follows(t0, t0)
    requires Follows(t0, FlagManual(t0, o.symbol, o.strategy, now)) && Follows(t0, OnCancel(t0, o, now))
    requires var t1 := t0.(sum := t0.sum.(fills := t0.sum.fills + [j]));
             var pos := FindPosition(t0.db.positions, o.symbol, o.strategy);
             && Follows(t1, OnWheelFill(t1, pos, j, o, PriceOf(o, v), now))
             && Follows(t1, OnPmccFill(t1, pos, j, o, PriceOf(o, v), now))
             && Follows(t1, OnSwingFill(t1, pos, j, o, PriceOf(o, v), now))
    ensures Follows(t, Dispatch(cfg, t0, j, o, v, now))
  {
    hide OnWheelFill, OnPmccFill, OnSwingFill, FlagManual, FindPosition, ObservedPartial, OnCancel, PriceOf, Carried,
         EndedCount;
  }

  lemma CancelCycles(t: Tick, o: Order, now: int)
    ensures Follows(t, OnCancel(t, o, now))
  {
    hide FindPosition, RestoredState, Follows;
    SameFollows(t, OnCancel(t, o, now));
  }

  lemma {:induction false} OrdersCarry(cfg: Config, t: Tick, views: seq<Order>, now: int)
    ensures Follows(t, ProcessOrders(cfg, t, views, now))
  {
    hide ProcessOrder, Follows;
    if |views| == 0 {
      SameFollows(t, t);
    } else {
      var before := ProcessOrders(cfg, t, views[..|views| - 1], now);
      OrdersCarry(cfg, t, views[..|views| - 1], now);
      OrderCarries(cfg, before, views[|views| - 1], now);
      ThenFollows(t, before, ProcessOrders(cfg, t, views, now));
    }
  }

  lemma CalledCarries(t: Tick, k: nat, p: Position, now: int)
    requires k < |t.db.positions|
    ensures Follows(t, OnCalledAway(t, k, p, now))
  {
    hide CcStrike, CspQuantity, FlagManual, CloseCycle, Follows;
    FlagCycles(t, p.symbol, Some(p.strategy), now);
    var strike, n, r := CcStrike(t.db, p.cycle), CspQuantity(t.db, p.cycle), OnCalledAway(t, k, p, now);
    var sold := if n.Some? && n.value != 0 then 100 * n.value else p.shares;
    if !(sold > 0 && strike.None?) {
      if p.cycle.Some? {
        var t1 := t.(sum := t.sum.(calledAways := t.sum.calledAways + 1));
        var t2 := if sold > 0 && strike.Some?
                  then t1.(db := InsertOrder(t1.db,
                                             StockLeg(p.symbol, p.cycle.value, SellToClose, sold, strike.value, now)))
                  else t1;
        CloseCarries(t2, p.cycle.value, CcCalledAway, now);
        FollowsAcross(t, t2, CloseCycle(t2, p.cycle.value, CcCalledAway, now), r);
      } else {
        SameFollows(t, r);
      }
    }
  }

  lemma ExpiryCarries(t: Tick, k: nat, p: Position, outcome: CycleOutcome, now: int)
    requires k < |t.db.positions| && ProfitOrNeutral(outcome)
    ensures Follows(t, OnExpiry(t, k, p, outcome, now))
  {
    hide CloseCycle, Follows;
    var t1 := t.(sum := t.sum.(expirations := t.sum.expirations + 1));
    var r := OnExpiry(t, k, p, outcome, now);
    if p.cycle.Some? {
      CloseCarries(t1, p.cycle.value, outcome, now);
      FollowsAcross(t, t1, CloseCycle(t1, p.cycle.value, outcome, now), r);
    } else {
      SameFollows(t, r);
    }
  }

  lemma HealsCycles(t: Tick, k: nat, p: Position, state: PositionState, cycle: Option<nat>, now: int)
    ensures SameCycles(t, Heal(t, k, p, state, cycle, now)) && Follows(t, Heal(t, k, p, state, cycle, now))
  {
    hide SetState, Follows;
    SetStateCycles(t, Some(k), p.symbol, state, cycle, Some(p.strategy), now);
    SameFollows(t, Heal(t, k, p, state, cycle, now));
  }

  lemma HealCarries(t: Tick, k: nat, p: Position, now: int)
    ensures Follows(t, HealPmcc(t, k, p, now))
  {
    hide LatestCallOrder, Notional, Heal, Follows;
    HealsCycles(t, k, p, Idle, None, now);
    HealsCycles(t, k, p, PmccBothOpen, p.cycle, now);
    HealsCycles(t, k, p, PmccLongOpen, p.cycle, now);
    var j := LatestCallOrder(t.db.orders, p.symbol, p.strategy, BuyToOpen);
    if p.state.PmccLongPending? && j.Some? && j.value < |t.db.orders| && t.db.orders[j.value].status.Filled? {
      var o := t.db.orders[j.value];
      var price := if o.fillPrice.Some? && o.fillPrice.value != 0.0 then o.fillPrice.value
                   else if o.limitPrice.Some? then o.limitPrice.value else 0.0;
      var cy, premium := |t.db.cycles|, -Notional(Abs(price), PackageSize(o));
      var t1 := OpenCycle(t, o, StrikeOf(o), premium, now);
      OpenCarries(t, o, StrikeOf(o), premium, now);
      HealsCycles(TagOrder(t1, j.value, cy), k, p, PmccLongOpen, Some(cy), now);
      FollowsAcross(t, t, t1, HealPmcc(t, k, p, now));
    }
  }

  lemma TurnCarries(t: Tick, k: nat, p: Position, shape: Shape, now: int)
    requires k < |t.db.positions|
    ensures Follows(t, DiffOne(t, k, p, shape, now))
  {
    hide FlagManual, OnCalledAway, OnExpiry, OnAssignment, OnCcExpiry, Heal, HealPmcc, HasInflight,
         SharesClaimedByOther, SetState, Follows;
    SameFollows(t, t);
    FlagCycles(t, p.symbol, Some(p.strategy), now);
    HealsCycles(t, k, p, Idle, None, now);
    match p.state {
      case CspOpen =>
        ExpiryCarries(t, k, p, CspExpired, now);
        AssignedCycles(t, k, p, now);
      case CcOpen =>
        CalledCarries(t, k, p, now);
        AssignedCycles(t, k, p, now);
      case CspPending => HealsCycles(t, k, p, CspOpen, p.cycle, now);
      case CcPending =>
        HealsCycles(t, k, p, CcOpen, p.cycle, now);
        HealsCycles(t, k, p, SharesHeld, None, now);
      case SpreadOpen => ExpiryCarries(t, k, p, SpreadExpiredOutcome(p.strategy), now);
      case SpreadPending => HealsCycles(t, k, p, SpreadOpen, p.cycle, now);
      case PmccBothOpen =>
        var t1 := t.(sum := t.sum.(expirations := t.sum.expirations + 1));
        SetStateCycles(t1, Some(k), p.symbol, PmccLongOpen, None, Some(p.strategy), now);
        SameFollows(t, SetState(t1, Some(k), p.symbol, PmccLongOpen, None, Some(p.strategy), now));
      case PmccLongPending | PmccShortPending => HealCarries(t, k, p, now);
      case _ =>
    }
  }

  lemma AssignedCycles(t: Tick, k: nat, p: Position, now: int)
    requires k < |t.db.positions|
    ensures Follows(t, OnAssignment(t, k, p, now)) && Follows(t, OnCcExpiry(t, k, p, now))
  {
    hide Follows, CspQuantity;
    SameFollows(t, OnAssignment(t, k, p, now));
    SameFollows(t, OnCcExpiry(t, k, p, now));
  }

  lemma {:induction false} SweepCarries(t: Tick, locals: seq<Position>, n: nat, rows: seq<BrokerRow>, now: int)
    requires n <= |locals| <= |t.db.positions|
    ensures Follows(t, DiffAll(t, locals, n, rows, now))
  {
    hide DiffOne, ShapeOf, Follows;
    if n == 0 {
      SameFollows(t, t);
    } else {
      var before := DiffAll(t, locals, n - 1, rows, now);
      SweepCarries(t, locals, n - 1, rows, now);
      TurnCarries(before, n - 1, locals[n - 1], ShapeOf(rows, locals[n - 1].symbol), now);
      ThenFollows(t, before, DiffAll(t, locals, n, rows, now));
    }
  }

  lemma {:induction false} UnknownCycles(t: Tick, locals: seq<Position>, rows: seq<BrokerRow>, n: nat, now: int)
    requires n <= |rows|
    ensures SameCycles(t, FlagUnknown(t, locals, rows, n, now))
  {
    hide FlagManual, KnownSymbol, Present, Follows;
    if n > 0 {
      UnknownCycles(t, locals, rows, n - 1, now);
      FlagCycles(FlagUnknown(t, locals, rows, n - 1, now), rows[n - 1].symbol, None, now);
    }
  }

  lemma AuditCycleRows(cfg: Config, t: Tick, rows: seq<BrokerRow>, symbols: seq<string>, now: int)
    ensures SameCycles(t, Audit(cfg, t, rows, symbols, now))
  {
    hide HandedOver, Uncarried, Stray, Mismatched, AuditCycles, AuditRows, AuditTotals;
    if cfg.parityEnabled {
      CyclesSpeak(cfg, t, t.db.cycles, |t.db.cycles|, now);
      var t1 := AuditCycles(cfg, t, t.db.cycles, |t.db.cycles|, now);
      var ps := t1.db.positions;
      RowsSpeak(t1, ps, |ps|, now);
      TotalsSpeak(AuditRows(t1, ps, |ps|, now), ps, rows, symbols, now);
    }
  }

  /** Any tick, on any tables and any broker rows: cycles only end or are added, and the summary counts each. */
  lemma TickCarries(cfg: Config, d: Db, views: seq<Order>, rows: seq<BrokerRow>, symbols: seq<string>, now: int)
    ensures var r := ReconcileRows(cfg, d, views, rows, symbols, now);
            && Carried(d.cycles, r.db.cycles)
            && r.sum.cyclesOpened == |r.db.cycles| - |d.cycles|
            && r.sum.cyclesClosed == EndedCount(r.db.cycles) - EndedCount(d.cycles)
  {
    hide ProcessOrders, DiffAll, FlagUnknown, Audit, Carried, EndedCount;
    var t0 := Tick(d, ZeroSummary);
    var t1 := ProcessOrders(cfg, t0, views, now);
    OrdersCarry(cfg, t0, views, now);
    SweepCarries(t1, t1.db.positions, |t1.db.positions|, rows, now);
    var t2 := DiffAll(t1, t1.db.positions, |t1.db.positions|, rows, now);
    ThenFollows(t0, t1, t2);
    UnknownCycles(t2, t1.db.positions, rows, |rows|, now);
    AuditCycleRows(cfg, FlagUnknown(t2, t1.db.positions, rows, |rows|, now), rows, symbols, now);
  }

  /** Over any submissions, replacements and ticks, legal or not. */
  lemma {:induction false} ActsCarry(cfg: Config, d: Db, acts: seq<Act>)
    ensures Carried(d.cycles, AfterActs(cfg, d, acts).0.cycles)
  {
    hide ReconcileRows, Recorded, Carried;
    if |acts| == 0 {
      SameCarried(d.cycles);
    } else {
      var n := |acts| - 1;
      var before := AfterActs(cfg, d, acts[..n]).0;
      ActsCarry(cfg, d, acts[..n]);
      SameCarried(before.cycles);
      match acts[n] {
        case Submit(o) => if o.strategy.Some? { RecordedCycles(cfg, before, o, o.strategy.value); }
        case CancelRow(_) =>
        case Reconcile(views, rows, symbols, now) => TickCarries(cfg, before, views, rows, symbols, now);
      }
      ThenCarried(d.cycles, before.cycles, AfterActs(cfg, d, acts).0.cycles);
    }
  }

  lemma RecordedCycles(cfg: Config, d: Db, o: Order, strategy: string)
    ensures Recorded(cfg, d, o, strategy).cycles == d.cycles
  {
    hide FindPosition, FindClient, TargetState;
  }

  /** So the premium a fill recorded is still there after any acts that follow, whether the cycle has ended or not. */
  lemma PremiumStays(cfg: Config, t: Tick, j: nat, v: Order, now: int, acts: seq<Act>) returns (price: real)
    requires Answers(t.db.orders, v, j) && t.db.orders[j].status in {Pending, Partial} && v.status == Filled
    requires Starts(cfg, t.db.orders[j])
    ensures FilledAt(t.db.orders[j], v, price)
    ensures var later, cy := AfterActs(cfg, ProcessOrder(cfg, t, v, now).db, acts).0, |t.db.cycles|;
            && cy < |later.cycles| && later.cycles[cy].premium.Some? && later.cycles[cy].startedAt == now
            && Records(t.db.orders[j], price, later.cycles[cy].premium.value)
            && later.cycles[cy].strike == StrikeFor(t.db.orders[j])
            && FairlyLabelled(later.cycles[cy])
  {
    hide Answers, Starts, FilledAt, Records, ProcessOrder, AfterActs;
    price := FillStarts(cfg, t, j, v, now);
    ActsCarry(cfg, ProcessOrder(cfg, t, v, now).db, acts);
  }
}
