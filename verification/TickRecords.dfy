/** What a broker view and a tick leave alone, and what they write down (execution/reconciler.py:309-378, 444-983,
    1221-1560; db/repo.py). */
module TickRecords {
  import opened Models
  import opened PaperBrokers
  import opened Repos
  import opened Reconciler
  import opened ParityAudit
  import opened Handovers

  // ---- A view touches its own rows only ----

  /** Only order row j moves, and only in its cycle. */
  predicate Retagged(a: seq<Order>, b: seq<Order>, j: nat) {
    j < |a| == |b| && b[j] == a[j].(cycle := b[j].cycle) && forall i :: 0 <= i < |a| && i != j ==> b[i] == a[i]
  }

  /** Besides that, only the position row at `at` moves, or one is added, and only the cycle it points at, or one is
      added. */
  predicate OwnOnly(t: Tick, r: Tick, j: nat, at: Option<nat>) {
    && Retagged(t.db.orders, r.db.orders, j)
    && |t.db.positions| <= |r.db.positions| <= |t.db.positions| + 1
    && (forall k: nat :: k < |t.db.positions| && at != Some(k) ==> r.db.positions[k] == t.db.positions[k])
    && |t.db.cycles| <= |r.db.cycles| <= |t.db.cycles| + 1
    && (forall cy: nat :: cy < |t.db.cycles| && PointerOf(t, at) != Some(cy) ==> r.db.cycles[cy] == t.db.cycles[cy])
  }

  lemma OpenOwn(t: Tick, at: Option<nat>, j: nat, o: Order, strike: Option<real>, premium: real, state: PositionState,
                strategy: Option<string>, now: int)
    requires j < |t.db.orders|
    ensures OwnOnly(t, OpenOnFill(t, at, j, o, strike, premium, state, strategy, now), j, at)
  {
  }

  lemma CloseOwn(t: Tick, cy: nat, outcome: CycleOutcome, now: int)
    ensures var r := CloseCycle(t, cy, outcome, now);
            && r.db.orders == t.db.orders && r.db.positions == t.db.positions && |r.db.cycles| == |t.db.cycles|
            && forall c: nat :: c < |t.db.cycles| && c != cy ==> r.db.cycles[c] == t.db.cycles[c]
  {
    hide CyclePnl;
  }

  lemma SetOwn(t: Tick, at: Option<nat>, symbol: string, state: PositionState, cycle: Option<nat>,
               strategy: Option<string>, now: int)
    ensures var r := SetState(t, at, symbol, state, cycle, strategy, now);
            && r.db.orders == t.db.orders && r.db.cycles == t.db.cycles
            && |t.db.positions| <= |r.db.positions| <= |t.db.positions| + 1
            && forall k: nat :: k < |t.db.positions| && at != Some(k) ==> r.db.positions[k] == t.db.positions[k]
  {
  }

  lemma TagCloseOwn(t: Tick, j: nat, o: Order, tag: Option<nat>)
    requires j < |t.db.orders|
    ensures var r := TagClose(t, j, o, tag);
            Retagged(t.db.orders, r.db.orders, j) && r.db == t.db.(orders := r.db.orders)
  {
  }

  lemma StateOwn(t: Tick, at: Option<nat>, j: nat, o: Order, symbol: string, state: PositionState, cycle: Option<nat>,
                 tag: Option<nat>, strategy: Option<string>, now: int)
    requires j < |t.db.orders|
    ensures OwnOnly(t, SetState(TagClose(t, j, o, tag), at, symbol, state, cycle, strategy, now), j, at)
    ensures OwnOnly(t, SetState(t, at, symbol, state, cycle, strategy, now), j, at)
  {
    hide SetState, TagClose;
    SetOwn(t, at, symbol, state, cycle, strategy, now);
    SetOwn(TagClose(t, j, o, tag), at, symbol, state, cycle, strategy, now);
    TagCloseOwn(t, j, o, tag);
  }

  lemma EndOwn(t: Tick, at: Option<nat>, j: nat, o: Order, state: PositionState, outcome: CycleOutcome, now: int)
    requires j < |t.db.orders|
    ensures OwnOnly(t, EndOnFill(t, at, j, o, state, outcome, now), j, at)
  {
    hide SetState, CloseCycle;
    var cycle := PointerOf(t, at);
    var t2 := SetState(TagClose(t, j, o, cycle), at, o.symbol, state, None, o.strategy, now);
    StateOwn(t, at, j, o, o.symbol, state, None, cycle, o.strategy, now);
    if cycle.Some? { CloseOwn(t2, cycle.value, outcome, now); }
  }

  lemma TagOwn(t: Tick, r: Tick, j: nat, cy: nat, at: Option<nat>)
    requires OwnOnly(t, r, j, at)
    ensures OwnOnly(t, TagOrder(r, j, cy), j, at)
  {
  }

  lemma FlagOwn(t: Tick, j: nat, symbol: string, strategy: Option<string>, now: int)
    requires j < |t.db.orders|
    ensures OwnOnly(t, FlagManual(t, symbol, strategy, now), j, FindPosition(t.db.positions, symbol, strategy))
  {
    hide FindPosition;
  }

  lemma WheelOwn(t: Tick, at: Option<nat>, j: nat, o: Order, price: real, now: int)
    requires j < |t.db.orders| && at == FindPosition(t.db.positions, o.symbol, o.strategy)
    ensures OwnOnly(t, OnWheelFill(t, at, j, o, price, now), j, at)
  {
    hide FindPosition, SetState, CloseCycle, OpenOnFill, EndOnFill, FlagManual, Notional, TagClose, TagOrder, OwnOnly;
    FlagOwn(t, j, o.symbol, o.strategy, now);
    var cycle := PointerOf(t, at);
    match o.orderType {
      case SellToOpen =>
        OpenOwn(t, at, j, o, StrikeOf(o), Notional(price, o.quantity), CspOpen, None, now);
        StateOwn(t, at, j, o, o.symbol, CcOpen, cycle, None, None, now);
        if cycle.Some? { TagOwn(t, SetState(t, at, o.symbol, CcOpen, cycle, None, now), j, cycle.value, at); }
      case BuyToClose =>
        var state := if IsPut(o) then Idle else SharesHeld;
        StateOwn(t, at, j, o, o.symbol, state, None, cycle, None, now);
        if cycle.Some? {
          ThenClosed(t, SetState(TagClose(t, j, o, cycle), at, o.symbol, state, None, None, now), at, j, cycle.value,
                     CspClosedProfit, now);
        }
      case MultiLegOpen => OpenOwn(t, at, j, o, None, Notional(price, o.quantity), SpreadOpen, o.strategy, now);
      case MultiLegClose => EndOwn(t, at, j, o, SpreadClosed, SpreadCloseOutcome(o.strategy), now);
      case _ =>
    }
  }

  lemma ThenClosed(t: Tick, r: Tick, at: Option<nat>, j: nat, cy: nat, outcome: CycleOutcome, now: int)
    requires OwnOnly(t, r, j, at) && PointerOf(t, at) == Some(cy)
    ensures OwnOnly(t, CloseCycle(r, cy, outcome, now), j, at)
  {
    hide CloseCycle;
    CloseOwn(r, cy, outcome, now);
  }

  lemma PmccOwn(t: Tick, at: Option<nat>, j: nat, o: Order, price: real, now: int)
    requires j < |t.db.orders| && at == FindPosition(t.db.positions, o.symbol, o.strategy)
    ensures OwnOnly(t, OnPmccFill(t, at, j, o, price, now), j, at)
  {
    hide FindPosition, SetState, OpenOnFill, EndOnFill, FlagManual, Notional, TagClose, TagOrder, OwnOnly;
    FlagOwn(t, j, o.symbol, o.strategy, now);
    var cycle := PointerOf(t, at);
    match o.orderType {
      case BuyToOpen =>
        OpenOwn(t, at, j, o, StrikeOf(o), -Notional(Abs(price), PackageSize(o)), PmccLongOpen, o.strategy, now);
      case SellToOpen =>
        StateOwn(t, at, j, o, o.symbol, PmccBothOpen, cycle, None, o.strategy, now);
        if cycle.Some? {
          TagOwn(t, SetState(t, at, o.symbol, PmccBothOpen, cycle, o.strategy, now), j, cycle.value, at);
        }
      case BuyToClose => StateOwn(t, at, j, o, o.symbol, PmccLongOpen, cycle, cycle, o.strategy, now);
      case SellToClose => EndOwn(t, at, j, o, Idle, if o.rollTrigger then PmccLongRolled else PmccFullClosed, now);
      case _ =>
    }
  }

  lemma SwingOwn(t: Tick, at: Option<nat>, j: nat, o: Order, price: real, now: int)
    requires j < |t.db.orders| && at == FindPosition(t.db.positions, o.symbol, o.strategy)
    ensures OwnOnly(t, OnSwingFill(t, at, j, o, price, now), j, at)
  {
    hide FindPosition, OpenOnFill, EndOnFill, FlagManual, Notional, OwnOnly;
    FlagOwn(t, j, o.symbol, o.strategy, now);
    OpenOwn(t, at, j, o, StrikeOf(o), -Notional(Abs(price), PackageSize(o)), SwingOpen, o.strategy, now);
    EndOwn(t, at, j, o, Idle, SwingClosed, now);
  }

  lemma CancelOwn(t: Tick, j: nat, o: Order, now: int)
    requires j < |t.db.orders|
    ensures OwnOnly(t, OnCancel(t, o, now), j, FindPosition(t.db.positions, o.symbol, o.strategy))
  {
    hide FindPosition, RestoredState;
  }

  /** What the view says over what the row said: its status always, the rest where the view has it. */
  function Shown(o: Order, v: Order): Order {
    o.(status := v.status, brokerId := if v.brokerId == None then o.brokerId else v.brokerId,
       fillPrice := if v.fillPrice == None then o.fillPrice else v.fillPrice,
       filledAt := if v.filledAt == None then o.filledAt else v.filledAt)
  }

  /** A view shows on the one order row it answers, and whatever follows touches that row's cycle tag, the pair's
      position row and the cycle that row points at, or adds one; every other order, position and cycle stays. */
  lemma ViewTouchesOwn(cfg: Config, t: Tick, j: nat, v: Order, now: int)
    requires Answers(t.db.orders, v, j)
    ensures var o := t.db.orders[j];
            var at, r := FindPosition(t.db.positions, o.symbol, o.strategy), ProcessOrder(cfg, t, v, now);
            OwnOnly(t.(db := SetOrder(t.db, j, Shown(o, v))), r, j, at)
    ensures (t.db.orders[j].status !in {Pending, Partial} || v.status in {Pending, Partial}) ==>
              ProcessOrder(cfg, t, v, now) == t.(db := SetOrder(t.db, j, Shown(t.db.orders[j], v)))
  {
    hide FindPosition, Locate, Answers, OnWheelFill, OnPmccFill, OnSwingFill, FlagManual, OnCancel, ObservedPartial,
         OwnOnly;
    LocateAnswers(t.db.orders, v);
    AnswersWithin(t.db.orders, v, j);
    var o := t.db.orders[j];
    var at, price := FindPosition(t.db.positions, o.symbol, o.strategy), PriceOf(o, v);
    var t0 := t.(db := SetOrder(t.db, j, Refresh(o, v)));
    var t1 := t0.(sum := t0.sum.(fills := t0.sum.fills + [j]));
    NothingOwn(t0, j, at);
    FlagOwn(t0, j, o.symbol, o.strategy, now);
    CancelOwn(t0, j, o, now);
    WheelOwn(t1, at, j, o, price, now);
    PmccOwn(t1, at, j, o, price, now);
    SwingOwn(t1, at, j, o, price, now);
    SameOwn(t0, t1, OnWheelFill(t1, at, j, o, price, now), j, at);
    SameOwn(t0, t1, OnPmccFill(t1, at, j, o, price, now), j, at);
    SameOwn(t0, t1, OnSwingFill(t1, at, j, o, price, now), j, at);
  }

  lemma NothingOwn(t: Tick, j: nat, at: Option<nat>)
    requires j < |t.db.orders|
    ensures OwnOnly(t, t, j, at)
  {
  }

  lemma SameOwn(t: Tick, t': Tick, r: Tick, j: nat, at: Option<nat>)
    requires t'.db == t.db && OwnOnly(t', r, j, at)
    ensures OwnOnly(t, r, j, at)
  {
  }

  // ---- A cancel ----

  /** What placing the order had put the pair in, and where it came from. */
  predicate Undoes(o: Order, was: PositionState, back: PositionState) {
    || (o.orderType == MultiLegOpen && was == SpreadPending && back == Idle)
    || (o.orderType == MultiLegClose && was == SpreadPending && back == SpreadOpen)
    || (o.orderType == SellToOpen && OptionTypeOf(o) == Some(Put) && was == CspPending && back == Idle)
    || (o.orderType == SellToOpen && OptionTypeOf(o) != Some(Put) && was == CcPending && back == SharesHeld)
    || (o.orderType == BuyToOpen && was in {SwingPending, PmccLongPending} && back == Idle)
    || (o.orderType == SellToClose && was == PmccClosing && back == PmccLongOpen)
  }

  /** A working order seen cancelled or rejected with nothing executed: if the pair is still in the pending state of
      that order, it goes back to where it came from, logged and counted once; if not, or if it has no row, only the
      order row changes. */
  lemma CancelExactly(cfg: Config, t: Tick, j: nat, v: Order, now: int)
    requires Answers(t.db.orders, v, j) && t.db.orders[j].status in {Pending, Partial}
    requires v.status in {Cancelled, Rejected} && !Executed(t.db.orders[j], v)
    ensures var o, r := t.db.orders[j], ProcessOrder(cfg, t, v, now);
            var shown := SetOrder(t.db, j, Shown(o, v));
            && (forall k: nat, back ::
                  k < |t.db.positions| && FirstRow(t.db.positions, o.symbol, o.strategy, k)
                  && Undoes(o, t.db.positions[k].state, back) ==>
                    && r.sum == t.sum.(cancellations := t.sum.cancellations + 1)
                    && r.db == shown.(
                         positions := t.db.positions[k := t.db.positions[k].(state := back)],
                         log := t.db.log + [StateLog(k, Some(t.db.positions[k].state), back, ByReconciler, now)]))
            && ((forall k: nat, back :: k < |t.db.positions| && FirstRow(t.db.positions, o.symbol, o.strategy, k) ==>
                   !Undoes(o, t.db.positions[k].state, back)) ==> r == t.(db := shown))
  {
    hide FindPosition, Locate, Answers, FirstRow, Executed, ObservedPartial;
    LocateAnswers(t.db.orders, v);
    AnswersWithin(t.db.orders, v, j);
    var o := t.db.orders[j];
    ExecutedIs(o, v);
    FindsFirst(t.db.positions, o.symbol, o.strategy);
    FoundWithin(t.db.positions, o.symbol, o.strategy);
    var at := FindPosition(t.db.positions, o.symbol, o.strategy);
    forall back | at.Some?
      ensures RestoredState(o, t.db.positions[at.value].state) == Some(back)
              <==> Undoes(o, t.db.positions[at.value].state, back)
    {
      RestoreIs(o, t.db.positions[at.value].state, back);
    }
  }

  lemma RestoreIs(o: Order, was: PositionState, back: PositionState)
    ensures RestoredState(o, was) == Some(back) <==> Undoes(o, was, back)
  {
  }

  // ---- Flagging ----

  /** A flag is raised at most once: a row already with the operator is left alone. Otherwise the row moves, its move is
      logged with where it came from, and the summary counts it; a pair without a row gets one. */
  lemma FlagExactly(t: Tick, symbol: string, strategy: Option<string>, now: int)
    ensures var r := FlagManual(t, symbol, strategy, now);
            && (WithOperator(t.db.positions, symbol, strategy) <==> r == t)
            && (r != t ==> r.sum == t.sum.(manual := t.sum.manual + 1))
            && (forall k: nat :: FirstRow(t.db.positions, symbol, strategy, k) && r != t ==>
                  k < |t.db.positions|
                  && r.db == t.db.(
                       positions := t.db.positions[k := t.db.positions[k].(state := ManualIntervention)],
                       log := t.db.log + [StateLog(k, Some(t.db.positions[k].state), ManualIntervention, ByReconciler,
                                                   now)]))
            && ((forall k: nat :: !FirstRow(t.db.positions, symbol, strategy, k)) ==>
                  r.db == t.db.(
                    positions := t.db.positions
                                 + [Position(symbol, if strategy.Some? then strategy.value else "monthly_wheel",
                                             ManualIntervention, 0, None, None)],
                    log := t.db.log + [StateLog(|t.db.positions|, None, ManualIntervention, ByReconciler, now)]))
  {
    hide FindPosition, FirstRow;
    FindsFirst(t.db.positions, symbol, strategy);
    FoundWithin(t.db.positions, symbol, strategy);
  }

  // ---- The state log ----

  /** No log entry from `from` on is the row's. */
  predicate Unlogged(log: seq<StateLog>, from: nat, k: nat) {
    forall i :: from <= i < |log| ==> log[i].position != k
  }

  /** The row's last log entry, at or after `from`, says the state it is in. */
  predicate Tells(d: Db, from: nat, k: nat)
    requires k < |d.positions|
  {
    exists i :: from <= i < |d.log| && EntryTells(d, i, k) && Unlogged(d.log, i + 1, k)
  }

  predicate EntryTells(d: Db, i: int, k: nat)
    requires 0 <= i < |d.log| && k < |d.positions|
  {
    d.log[i].position == k && d.log[i].toState == d.positions[k].state
  }

  /** From a to b the log only grew, and every row's state is what its last new entry says, or what it was if it has
      none. */
  predicate Logged(a: Db, b: Db) {
    && |a.log| <= |b.log| && b.log[..|a.log|] == a.log && |a.positions| <= |b.positions|
    && forall k: nat :: k < |b.positions| ==>
         Tells(b, |a.log|, k)
         || (k < |a.positions| && b.positions[k].state == a.positions[k].state && Unlogged(b.log, |a.log|, k))
  }

  lemma ThenLogged(a: Db, b: Db, c: Db)
    requires Logged(a, b) && Logged(b, c)
    ensures Logged(a, c)
  {
    assert forall i :: 0 <= i < |b.log| ==> c.log[i] == c.log[..|b.log|][i] == b.log[i];
    assert c.log[..|a.log|] == b.log[..|a.log|];
    forall k: nat | k < |c.positions|
      ensures Tells(c, |a.log|, k)
              || (k < |a.positions| && c.positions[k].state == a.positions[k].state && Unlogged(c.log, |a.log|, k))
    {
      LoggedRow(a, b, c, k);
    }
  }

  lemma LoggedRow(a: Db, b: Db, c: Db, k: nat)
    requires Logged(a, b) && Logged(b, c) && k < |c.positions|
    requires forall i :: 0 <= i < |b.log| ==> c.log[i] == b.log[i]
    ensures Tells(c, |a.log|, k)
            || (k < |a.positions| && c.positions[k].state == a.positions[k].state && Unlogged(c.log, |a.log|, k))
  {
    if Tells(c, |b.log|, k) {
      var i :| |b.log| <= i < |c.log| && EntryTells(c, i, k) && Unlogged(c.log, i + 1, k);
      assert |a.log| <= i;
    } else if Tells(b, |a.log|, k) {
      var i :| |a.log| <= i < |b.log| && EntryTells(b, i, k) && Unlogged(b.log, i + 1, k);
      assert EntryTells(c, i, k) && Unlogged(c.log, i + 1, k);
    }
  }

  /** One row moves, and its move is logged. */
  lemma MoveLogged(a: Db, b: Db, k: nat, entry: StateLog)
    requires k < |b.positions| && b.log == a.log + [entry] && entry.position == k
    requires entry.toState == b.positions[k].state
    requires |b.positions| == |a.positions| || (k == |a.positions| && |b.positions| == |a.positions| + 1)
    requires forall i :: 0 <= i < |a.positions| && i != k ==> b.positions[i].state == a.positions[i].state
    ensures Logged(a, b)
  {
    assert EntryTells(b, |a.log|, k) && Unlogged(b.log, |a.log| + 1, k);
  }

  lemma StillLogged(a: Db, b: Db)
    requires b.log == a.log && |b.positions| == |a.positions|
    requires forall k :: 0 <= k < |a.positions| ==> b.positions[k].state == a.positions[k].state
    ensures Logged(a, b)
  {
  }

  /** Neither the log nor any row's state differs. */
  predicate SameStates(a: Db, b: Db) {
    b.log == a.log && |b.positions| == |a.positions|
    && forall k :: 0 <= k < |a.positions| ==> b.positions[k].state == a.positions[k].state
  }

  lemma LoggedAcross(a: Db, b: Db, c: Db, e: Db)
    requires SameStates(a, b) && Logged(b, c) && SameStates(c, e)
    ensures Logged(a, e)
  {
    hide Logged, Tells, Unlogged;
    StillLogged(a, b);
    StillLogged(c, e);
    ThenLogged(a, b, c);
    ThenLogged(a, c, e);
  }

  lemma SetLogged(t: Tick, at: Option<nat>, symbol: string, state: PositionState, cycle: Option<nat>,
                  strategy: Option<string>, now: int)
    ensures Logged(t.db, SetState(t, at, symbol, state, cycle, strategy, now).db)
  {
    hide Logged;
    var r := SetState(t, at, symbol, state, cycle, strategy, now).db;
    var k := if at.Some? && at.value < |t.db.positions| then at.value else |t.db.positions|;
    MoveLogged(t.db, r, k, r.log[|t.db.log|]);
  }

  lemma FlagLogged(t: Tick, symbol: string, strategy: Option<string>, now: int)
    ensures Logged(t.db, FlagManual(t, symbol, strategy, now).db)
  {
    hide FindPosition, Logged, SetState;
    StillLogged(t.db, t.db);
    SetLogged(t, FindPosition(t.db.positions, symbol, strategy), symbol, ManualIntervention, None, strategy, now);
    SetLogged(t, None, symbol, ManualIntervention, None, strategy, now);
  }

  /** Opening, tagging and closing cycles, and dropping a pointer, write no state. */
  lemma QuietWrites(t: Tick, at: Option<nat>, j: nat, cy: nat, o: Order, strike: Option<real>, premium: real,
                    tag: Option<nat>, outcome: CycleOutcome, now: int)
    ensures SameStates(t.db, OpenCycle(t, o, strike, premium, now).db)
    ensures SameStates(t.db, TagOrder(t, j, cy).db) && SameStates(t.db, TagClose(t, j, o, tag).db)
    ensures SameStates(t.db, CloseCycle(t, cy, outcome, now).db) && SameStates(t.db, ClearCycle(t, at).db)
  {
    hide CyclePnl;
  }

  lemma OpenLogged(t: Tick, at: Option<nat>, j: nat, o: Order, strike: Option<real>, premium: real,
                   state: PositionState, strategy: Option<string>, now: int)
    ensures Logged(t.db, OpenOnFill(t, at, j, o, strike, premium, state, strategy, now).db)
  {
    hide SetState, OpenCycle, TagOrder, Logged, SameStates;
    var cy := |t.db.cycles|;
    var t1 := OpenCycle(t, o, strike, premium, now);
    var t2 := SetState(t1, at, o.symbol, state, Some(cy), strategy, now);
    QuietWrites(t, at, j, cy, o, strike, premium, None, CspExpired, now);
    QuietWrites(t2, at, j, cy, o, strike, premium, None, CspExpired, now);
    SetLogged(t1, at, o.symbol, state, Some(cy), strategy, now);
    LoggedAcross(t.db, t1.db, t2.db, TagOrder(t2, j, cy).db);
  }

  lemma EndLogged(t: Tick, at: Option<nat>, j: nat, o: Order, state: PositionState, outcome: CycleOutcome, now: int)
    ensures Logged(t.db, EndOnFill(t, at, j, o, state, outcome, now).db)
  {
    hide SetState, CloseCycle, ClearCycle, TagClose, Logged;
    var cycle := PointerOf(t, at);
    var t1 := TagClose(t, j, o, cycle);
    var t2 := SetState(t1, at, o.symbol, state, None, o.strategy, now);
    QuietWrites(t, at, j, 0, o, None, 0.0, cycle, outcome, now);
    SetLogged(t1, at, o.symbol, state, None, o.strategy, now);
    if cycle.Some? {
      QuietWrites(t2, at, j, cycle.value, o, None, 0.0, cycle, outcome, now);
      QuietWrites(CloseCycle(t2, cycle.value, outcome, now), at, j, 0, o, None, 0.0, cycle, outcome, now);
    }
    LoggedAcross(t.db, t1.db, t2.db, EndOnFill(t, at, j, o, state, outcome, now).db);
  }

  /** A tag before, a state, and a quiet write after. */
  lemma MovedLogged(t: Tick, at: Option<nat>, j: nat, o: Order, tag: Option<nat>, state: PositionState,
                    cycle: Option<nat>, strategy: Option<string>, r: Tick, now: int)
    requires SameStates(SetState(TagClose(t, j, o, tag), at, o.symbol, state, cycle, strategy, now).db, r.db)
    ensures Logged(t.db, r.db)
  {
    hide SetState, TagClose, Logged, SameStates;
    QuietWrites(t, at, j, 0, o, None, 0.0, tag, CspExpired, now);
    SetLogged(TagClose(t, j, o, tag), at, o.symbol, state, cycle, strategy, now);
    LoggedAcross(t.db, TagClose(t, j, o, tag).db,
                 SetState(TagClose(t, j, o, tag), at, o.symbol, state, cycle, strategy, now).db, r.db);
  }

  lemma WheelLogged(t: Tick, at: Option<nat>, j: nat, o: Order, price: real, now: int)
    ensures Logged(t.db, OnWheelFill(t, at, j, o, price, now).db)
  {
    hide SetState, CloseCycle, OpenOnFill, EndOnFill, FlagManual, Notional, TagOrder, Logged;
    FlagLogged(t, o.symbol, o.strategy, now);
    var cycle, r := PointerOf(t, at), OnWheelFill(t, at, j, o, price, now);
    match o.orderType {
      case SellToOpen =>
        OpenLogged(t, at, j, o, StrikeOf(o), Notional(price, o.quantity), CspOpen, None, now);
        if !IsPut(o) {
          var t1 := SetState(t, at, o.symbol, CcOpen, cycle, None, now);
          if cycle.Some? { QuietWrites(t1, at, j, cycle.value, o, None, 0.0, None, CspExpired, now); }
          MovedLogged(t, at, j, o, None, CcOpen, cycle, None, r, now);
        }
      case BuyToClose =>
        var state := if IsPut(o) then Idle else SharesHeld;
        var t2 := SetState(TagClose(t, j, o, cycle), at, o.symbol, state, None, None, now);
        if cycle.Some? { QuietWrites(t2, at, j, cycle.value, o, None, 0.0, None, CspClosedProfit, now); }
        MovedLogged(t, at, j, o, cycle, state, None, None, r, now);
      case MultiLegOpen => OpenLogged(t, at, j, o, None, Notional(price, o.quantity), SpreadOpen, o.strategy, now);
      case MultiLegClose => EndLogged(t, at, j, o, SpreadClosed, SpreadCloseOutcome(o.strategy), now);
      case _ =>
    }
  }

  lemma PmccLogged(t: Tick, at: Option<nat>, j: nat, o: Order, price: real, now: int)
    ensures Logged(t.db, OnPmccFill(t, at, j, o, price, now).db)
  {
    hide SetState, OpenOnFill, EndOnFill, FlagManual, Notional, TagOrder, Logged;
    FlagLogged(t, o.symbol, o.strategy, now);
    var cycle, r := PointerOf(t, at), OnPmccFill(t, at, j, o, price, now);
    if OptionTypeOf(o) == Some(Call) {
      match o.orderType {
        case BuyToOpen =>
          OpenLogged(t, at, j, o, StrikeOf(o), -Notional(Abs(price), PackageSize(o)), PmccLongOpen, o.strategy, now);
        case SellToOpen =>
          var t1 := SetState(t, at, o.symbol, PmccBothOpen, cycle, o.strategy, now);
          if cycle.Some? { QuietWrites(t1, at, j, cycle.value, o, None, 0.0, None, CspExpired, now); }
          MovedLogged(t, at, j, o, None, PmccBothOpen, cycle, o.strategy, r, now);
        case BuyToClose => MovedLogged(t, at, j, o, cycle, PmccLongOpen, cycle, o.strategy, r, now);
        case SellToClose =>
          EndLogged(t, at, j, o, Idle, if o.rollTrigger then PmccLongRolled else PmccFullClosed, now);
        case _ =>
      }
    }
  }

  lemma SwingLogged(t: Tick, at: Option<nat>, j: nat, o: Order, price: real, now: int)
    ensures Logged(t.db, OnSwingFill(t, at, j, o, price, now).db)
  {
    hide OpenOnFill, EndOnFill, FlagManual, Notional, Logged;
    FlagLogged(t, o.symbol, o.strategy, now);
    OpenLogged(t, at, j, o, StrikeOf(o), -Notional(Abs(price), PackageSize(o)), SwingOpen, o.strategy, now);
    EndLogged(t, at, j, o, Idle, SwingClosed, now);
  }

  lemma CancelLogged(t: Tick, o: Order, now: int)
    ensures Logged(t.db, OnCancel(t, o, now).db)
  {
    hide FindPosition, RestoredState, SetState, Logged;
    StillLogged(t.db, t.db);
    var at := FindPosition(t.db.positions, o.symbol, o.strategy);
    if at.Some? && at.value < |t.db.positions| {
      var target := RestoredState(o, t.db.positions[at.value].state);
      if target.Some? { SetLogged(t, at, o.symbol, target.value, None, o.strategy, now); }
    }
  }

  lemma OrderLogged(cfg: Config, t: Tick, v: Order, now: int)
    ensures Logged(t.db, ProcessOrder(cfg, t, v, now).db)
  {
    hide Locate, OnWheelFill, OnPmccFill, OnSwingFill, FlagManual, FindPosition, ObservedPartial, OnCancel, Logged;
    StillLogged(t.db, t.db);
    FlagLogged(t, v.symbol, None, now);
    var at := Locate(t.db.orders, v);
    if at.Some? && at.value < |t.db.orders| {
      var j, o := at.value, t.db.orders[at.value];
      var t0 := t.(db := SetOrder(t.db, j, Refresh(o, v)));
      var t1 := t0.(sum := t0.sum.(fills := t0.sum.fills + [j]));
      var pos := FindPosition(t0.db.positions, o.symbol, o.strategy);
      StillLogged(t0.db, t0.db);
      FlagLogged(t0, o.symbol, o.strategy, now);
      WheelLogged(t1, pos, j, o, PriceOf(o, v), now);
      PmccLogged(t1, pos, j, o, PriceOf(o, v), now);
      SwingLogged(t1, pos, j, o, PriceOf(o, v), now);
      CancelLogged(t0, o, now);
      var r := Dispatch(cfg, t0, j, o, v, now);
      assert Logged(t0.db, r.db);
      LoggedAcross(t.db, t0.db, r.db, r.db);
    }
  }

  lemma {:induction false} OrdersLogged(cfg: Config, t: Tick, views: seq<Order>, now: int)
    ensures Logged(t.db, ProcessOrders(cfg, t, views, now).db)
  {
    hide ProcessOrder, Logged;
    if |views| == 0 {
      StillLogged(t.db, t.db);
    } else {
      var before := ProcessOrders(cfg, t, views[..|views| - 1], now);
      OrdersLogged(cfg, t, views[..|views| - 1], now);
      OrderLogged(cfg, before, views[|views| - 1], now);
      ThenLogged(t.db, before.db, ProcessOrders(cfg, t, views, now).db);
    }
  }

  /** A turn's own row moves with its entry. */
  lemma TurnMoves(t: Tick, k: nat, p: Position, outcome: CycleOutcome, now: int)
    requires k < |t.db.positions|
    ensures Logged(t.db, OnAssignment(t, k, p, now).db) && Logged(t.db, OnExpiry(t, k, p, outcome, now).db)
    ensures Logged(t.db, OnCcExpiry(t, k, p, now).db)
  {
    hide CyclePnl, CspQuantity, Logged;
    MoveLogged(t.db, OnAssignment(t, k, p, now).db, k, OnAssignment(t, k, p, now).db.log[|t.db.log|]);
    MoveLogged(t.db, OnExpiry(t, k, p, outcome, now).db, k, OnExpiry(t, k, p, outcome, now).db.log[|t.db.log|]);
    MoveLogged(t.db, OnCcExpiry(t, k, p, now).db, k, OnCcExpiry(t, k, p, now).db.log[|t.db.log|]);
  }

  lemma CalledMoves(t: Tick, k: nat, p: Position, now: int)
    requires k < |t.db.positions|
    ensures Logged(t.db, OnCalledAway(t, k, p, now).db)
  {
    hide CyclePnl, CspQuantity, CcStrike, FlagManual, Logged;
    FlagLogged(t, p.symbol, Some(p.strategy), now);
    var r := OnCalledAway(t, k, p, now).db;
    if r != FlagManual(t, p.symbol, Some(p.strategy), now).db { MoveLogged(t.db, r, k, r.log[|t.db.log|]); }
  }

  lemma HealMoves(t: Tick, k: nat, p: Position, now: int)
    ensures Logged(t.db, HealPmcc(t, k, p, now).db)
    ensures forall state, cycle :: Logged(t.db, Heal(t, k, p, state, cycle, now).db)
  {
    hide LatestCallOrder, Notional, SetState, Logged;
    forall t1: Tick, state, cycle ensures Logged(t1.db, Heal(t1, k, p, state, cycle, now).db) {
      SetLogged(t1, Some(k), p.symbol, state, cycle, Some(p.strategy), now);
    }
    var j := LatestCallOrder(t.db.orders, p.symbol, p.strategy, BuyToOpen);
    if p.state.PmccLongPending? && j.Some? && j.value < |t.db.orders| && t.db.orders[j.value].status.Filled? {
      var o := t.db.orders[j.value];
      var price := if o.fillPrice.Some? && o.fillPrice.value != 0.0 then o.fillPrice.value
                   else if o.limitPrice.Some? then o.limitPrice.value else 0.0;
      var cy, premium := |t.db.cycles|, -Notional(Abs(price), PackageSize(o));
      var t1 := TagOrder(OpenCycle(t, o, StrikeOf(o), premium, now), j.value, cy);
      var r := HealPmcc(t, k, p, now).db;
      assert SameStates(t.db, t1.db);
      assert Logged(t1.db, Heal(t1, k, p, PmccLongOpen, Some(cy), now).db);
      LoggedAcross(t.db, t1.db, r, r);
    }
  }

  lemma TurnLogged(t: Tick, k: nat, p: Position, shape: Shape, now: int)
    requires k < |t.db.positions|
    ensures Logged(t.db, DiffOne(t, k, p, shape, now).db)
  {
    hide FlagManual, OnCalledAway, OnExpiry, OnAssignment, OnCcExpiry, Heal, HealPmcc, HasInflight,
         SharesClaimedByOther, SetState, Logged;
    StillLogged(t.db, t.db);
    FlagLogged(t, p.symbol, Some(p.strategy), now);
    TurnMoves(t, k, p, if p.state.CspOpen? then CspExpired else SpreadExpiredOutcome(p.strategy), now);
    CalledMoves(t, k, p, now);
    HealMoves(t, k, p, now);
    var t1 := t.(sum := t.sum.(expirations := t.sum.expirations + 1));
    SetLogged(t1, Some(k), p.symbol, PmccLongOpen, None, Some(p.strategy), now);
  }

  lemma {:induction false} SweepLogged(t: Tick, locals: seq<Position>, n: nat, rows: seq<BrokerRow>, now: int)
    requires n <= |locals| <= |t.db.positions|
    ensures Logged(t.db, DiffAll(t, locals, n, rows, now).db)
  {
    hide DiffOne, ShapeOf, Logged;
    if n == 0 {
      StillLogged(t.db, t.db);
    } else {
      var before := DiffAll(t, locals, n - 1, rows, now);
      SweepLogged(t, locals, n - 1, rows, now);
      TurnLogged(before, n - 1, locals[n - 1], ShapeOf(rows, locals[n - 1].symbol), now);
      ThenLogged(t.db, before.db, DiffAll(t, locals, n, rows, now).db);
    }
  }

  lemma {:induction false} UnknownLogged(t: Tick, locals: seq<Position>, rows: seq<BrokerRow>, n: nat, now: int)
    requires n <= |rows|
    ensures Logged(t.db, FlagUnknown(t, locals, rows, n, now).db)
  {
    hide FlagManual, KnownSymbol, Present, Logged;
    if n == 0 {
      StillLogged(t.db, t.db);
    } else {
      var before := FlagUnknown(t, locals, rows, n - 1, now);
      UnknownLogged(t, locals, rows, n - 1, now);
      FlagLogged(before, rows[n - 1].symbol, None, now);
      StillLogged(before.db, before.db);
      ThenLogged(t.db, before.db, FlagUnknown(t, locals, rows, n, now).db);
    }
  }

  lemma ParityLogged(t: Tick, symbol: string, strategy: Option<string>, now: int)
    ensures Logged(t.db, ParityFlag(t, symbol, strategy, now).db) && Logged(t.db, t.db)
  {
    hide FlagManual, Logged;
    StillLogged(t.db, t.db);
    FlagLogged(t.(sum := t.sum.(parityFlags := t.sum.parityFlags + 1)), symbol, strategy, now);
  }

  lemma {:induction false} AuditCyclesLogged(cfg: Config, t: Tick, cycles: seq<Cycle>, n: nat, now: int)
    requires n <= |cycles|
    ensures Logged(t.db, AuditCycles(cfg, t, cycles, n, now).db)
  {
    hide ParityFlag, Orphaned, Logged;
    if n == 0 {
      StillLogged(t.db, t.db);
    } else {
      var before := AuditCycles(cfg, t, cycles, n - 1, now);
      AuditCyclesLogged(cfg, t, cycles, n - 1, now);
      ParityLogged(before, cycles[n - 1].symbol, cycles[n - 1].strategy, now);
      ThenLogged(t.db, before.db, AuditCycles(cfg, t, cycles, n, now).db);
    }
  }

  lemma {:induction false} AuditRowsLogged(t: Tick, ps: seq<Position>, n: nat, now: int)
    requires n <= |ps|
    ensures Logged(t.db, AuditRows(t, ps, n, now).db)
  {
    hide ParityFlag, Logged;
    if n == 0 {
      StillLogged(t.db, t.db);
    } else {
      var before := AuditRows(t, ps, n - 1, now);
      AuditRowsLogged(t, ps, n - 1, now);
      ParityLogged(before, ps[n - 1].symbol, Some(ps[n - 1].strategy), now);
      ThenLogged(t.db, before.db, AuditRows(t, ps, n, now).db);
    }
  }

  lemma {:induction false} AuditTotalsLogged(t: Tick, ps: seq<Position>, rows: seq<BrokerRow>, symbols: seq<string>,
                                             now: int)
    ensures Logged(t.db, AuditTotals(t, ps, rows, symbols, now).db)
  {
    hide ParityFlag, KnownSymbol, LocalShares, StockIn, Logged;
    if |symbols| == 0 {
      StillLogged(t.db, t.db);
    } else {
      var n := |symbols| - 1;
      var before := AuditTotals(t, ps, rows, symbols[..n], now);
      AuditTotalsLogged(t, ps, rows, symbols[..n], now);
      ParityLogged(before, symbols[n], None, now);
      ThenLogged(t.db, before.db, AuditTotals(t, ps, rows, symbols, now).db);
    }
  }

  /** Any tick, on any tables and broker rows: no state changes without a log entry, and every row is in the state its
      last entry says. */
  lemma TickLogged(cfg: Config, d: Db, views: seq<Order>, rows: seq<BrokerRow>, symbols: seq<string>, now: int)
    ensures Logged(d, ReconcileRows(cfg, d, views, rows, symbols, now).db)
  {
    hide ProcessOrders, DiffAll, FlagUnknown, AuditCycles, AuditRows, AuditTotals, Logged;
    var t0 := Tick(d, ZeroSummary);
    var t1 := ProcessOrders(cfg, t0, views, now);
    OrdersLogged(cfg, t0, views, now);
    var locals := t1.db.positions;
    var t2 := DiffAll(t1, locals, |locals|, rows, now);
    SweepLogged(t1, locals, |locals|, rows, now);
    ThenLogged(d, t1.db, t2.db);
    var t3 := FlagUnknown(t2, locals, rows, |rows|, now);
    UnknownLogged(t2, locals, rows, |rows|, now);
    ThenLogged(d, t2.db, t3.db);
    if cfg.parityEnabled {
      var t4 := AuditCycles(cfg, t3, t3.db.cycles, |t3.db.cycles|, now);
      AuditCyclesLogged(cfg, t3, t3.db.cycles, |t3.db.cycles|, now);
      ThenLogged(d, t3.db, t4.db);
      var ps := t4.db.positions;
      var t5 := AuditRows(t4, ps, |ps|, now);
      AuditRowsLogged(t4, ps, |ps|, now);
      ThenLogged(d, t4.db, t5.db);
      AuditTotalsLogged(t5, ps, rows, symbols, now);
      ThenLogged(d, t5.db, AuditTotals(t5, ps, rows, symbols, now).db);
    }
  }

  // ---- A row left pending ----

  predicate Shows(rows: seq<BrokerRow>, s: string, state: PositionState) {
    exists i :: 0 <= i < |rows| && rows[i].symbol == s && rows[i].state == state
  }

  predicate ShowsAny(rows: seq<BrokerRow>, s: string) {
    exists i :: 0 <= i < |rows| && rows[i].symbol == s
  }

  /** The state the broker's rows put a pending row in, if they settle it. */
  function SettledState(p: Position, rows: seq<BrokerRow>): Option<PositionState> {
    match p.state
    case CspPending =>
      if Shows(rows, p.symbol, CspOpen) then Some(CspOpen) else if !ShowsAny(rows, p.symbol) then Some(Idle) else None
    case CcPending =>
      if Shows(rows, p.symbol, CcOpen) then Some(CcOpen)
      else if StockShown(rows, p.symbol) then Some(SharesHeld) else None
    case SpreadPending => if ShowsAny(rows, p.symbol) then Some(SpreadOpen) else Some(ManualIntervention)
    case _ => None
  }

  /** A row that pends is left alone while an order of its symbol works. With none, the broker's rows settle it: its leg
      is there, or nothing is; a package gone without a trace is the operator's. */
  lemma PendingExactly(t: Tick, k: nat, p: Position, rows: seq<BrokerRow>, now: int)
    requires k < |t.db.positions| && p.state in {CspPending, CcPending, SpreadPending}
    ensures var r := DiffOne(t, k, p, ShapeOf(rows, p.symbol), now);
            if (exists j :: 0 <= j < |t.db.orders| && t.db.orders[j].symbol == p.symbol
                            && t.db.orders[j].status in {Pending, Partial})
               || SettledState(p, rows) == None
            then r == t
            else if SettledState(p, rows) == Some(ManualIntervention)
            then WithOperator(r.db.positions, p.symbol, Some(p.strategy))
            else |r.db.positions| == |t.db.positions|
                 && r.db.positions[k].state == SettledState(p, rows).value && r.sum.heals == t.sum.heals + 1
                 && forall i :: 0 <= i < |t.db.positions| && i != k ==> r.db.positions[i] == t.db.positions[i]
  {
    hide WithOperator, FlagManual, StockShown;
    StockShownShape(rows, p.symbol);
    FlagHandsOver(t, p.symbol, Some(p.strategy), now);
    assert HasInflight(t.db.orders, p.symbol)
      <==> exists j :: 0 <= j < |t.db.orders| && t.db.orders[j].symbol == p.symbol
                       && t.db.orders[j].status in {Pending, Partial};
    assert AnyRow(rows, p.symbol, CspOpen) <==> Shows(rows, p.symbol, CspOpen);
    assert AnyRow(rows, p.symbol, CcOpen) <==> Shows(rows, p.symbol, CcOpen);
  }

  // ---- A package's legs ----

  /** Leg i is the last of the package to name its contract. */
  predicate LastOn(legs: seq<Leg>, i: nat) {
    i < |legs| && forall j :: i < j < |legs| ==> legs[j].contract != legs[i].contract
  }

  /** After a package fills, each contract's last leg decides: opened, it is live on that side at its ratio times the
      packages, for the order's strategy; closed, it is gone. */
  lemma {:induction false} LegExactly(options: map<Contract, Order>, o: Order, legs: seq<Leg>, i: nat)
    requires LastOn(legs, i)
    ensures var c, after := legs[i].contract, ApplyLegs(options, o, legs);
            && (legs[i].action in {SellToOpen, BuyToOpen} ==>
                  && c in after && after[c].orderType == legs[i].action
                  && after[c].quantity == legs[i].ratio * o.quantity
                  && after[c].symbol == c.underlying && after[c].strategy == o.strategy)
            && (legs[i].action in {SellToClose, BuyToClose} ==> c !in after)
  {
    var n := |legs| - 1;
    if i < n {
      assert legs[..n][i] == legs[i] && legs[n].contract != legs[i].contract;
      LegExactly(options, o, legs[..n], i);
    }
  }

  /** No contract the package does not name moves. */
  lemma {:induction false} OthersExactly(options: map<Contract, Order>, o: Order, legs: seq<Leg>, c: Contract)
    requires forall i :: 0 <= i < |legs| ==> legs[i].contract != c
    ensures var after := ApplyLegs(options, o, legs);
            (c in after <==> c in options) && (c in after ==> after[c] == options[c])
  {
    if |legs| > 0 { OthersExactly(options, o, legs[..|legs| - 1], c); }
  }
}
