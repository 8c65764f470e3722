/** The reconciler's hand-overs to the operator: a cancelled order with executed contracts, an assigned spread or
    diagonal, a broker symbol nobody knows (execution/reconciler.py:379-444, 984-1057, 1221-1395). */
module Handovers {
  import opened Models
  import opened PaperBrokers
  import opened Repos
  import opened Reconciler
  import opened ParityAudit

  // ---- Which row a broker order answers ----

  /** Row j is the first with the view's client id or, no row having that, the first with its broker id. */
  predicate Answers(rows: seq<Order>, v: Order, j: nat) {
    j < |rows|
    && if v.clientId != None && exists i :: 0 <= i < |rows| && rows[i].clientId == v.clientId then
         rows[j].clientId == v.clientId && forall i :: 0 <= i < j ==> rows[i].clientId != v.clientId
       else
         v.brokerId != None && rows[j].brokerId == v.brokerId
         && forall i :: 0 <= i < j ==> rows[i].brokerId != v.brokerId
  }

  lemma {:induction false} ClientFirst(rows: seq<Order>, cid: string)
    ensures var at := FindClient(rows, cid);
            && (at.Some? ==>
                  && at.value < |rows| && rows[at.value].clientId == Some(cid)
                  && forall i :: 0 <= i < at.value ==> rows[i].clientId != Some(cid))
            && (at.None? ==> forall i :: 0 <= i < |rows| ==> rows[i].clientId != Some(cid))
  {
    if |rows| > 0 {
      ClientFirst(rows[..|rows| - 1], cid);
      assert forall i :: 0 <= i < |rows| - 1 ==> rows[..|rows| - 1][i] == rows[i];
    }
  }

  lemma {:induction false} BrokerFirst(rows: seq<Order>, bid: nat)
    ensures var at := FindBroker(rows, bid);
            && (at.Some? ==>
                  && at.value < |rows| && rows[at.value].brokerId == Some(bid)
                  && forall i :: 0 <= i < at.value ==> rows[i].brokerId != Some(bid))
            && (at.None? ==> forall i :: 0 <= i < |rows| ==> rows[i].brokerId != Some(bid))
  {
    if |rows| > 0 {
      BrokerFirst(rows[..|rows| - 1], bid);
      assert forall i :: 0 <= i < |rows| - 1 ==> rows[..|rows| - 1][i] == rows[i];
    }
  }

  /** The look-up finds it, and finds nothing exactly if there is none. */
  lemma LocateAnswers(rows: seq<Order>, v: Order)
    ensures forall j: nat :: Answers(rows, v, j) <==> Locate(rows, v) == Some(j)
    ensures Locate(rows, v).None? <==> forall j: nat :: !Answers(rows, v, j)
  {
    if v.clientId.Some? { ClientFirst(rows, v.clientId.value); }
    if v.brokerId.Some? { BrokerFirst(rows, v.brokerId.value); }
  }

  // ---- A cancelled order ----

  /** Some contracts had executed: the row already read partly filled, or the broker counts some but not all of the
      order's (of the row's, when the view has no quantity). */
  ghost predicate Executed(o: Order, v: Order) {
    o.status == Partial
    || exists n :: v.filledQty == Some(n) && n > 0.0 && n < (if v.quantity == 0 then o.quantity else v.quantity) as real
  }

  lemma ExecutedIs(o: Order, v: Order)
    ensures ObservedPartial(o, v) <==> Executed(o, v)
  {
  }

  lemma RestoredAutomatic(o: Order, state: PositionState)
    ensures RestoredState(o, state).Some? ==> RestoredState(o, state).value != ManualIntervention
    ensures RestoredState(o, ManualIntervention) == None
  {
  }

  /** A working order seen cancelled or rejected leaves its pair with the operator exactly if contracts had executed,
      or the pair was there before. */
  lemma CancelHandsOver(cfg: Config, t: Tick, j: nat, v: Order, now: int)
    requires Answers(t.db.orders, v, j) && t.db.orders[j].status in {Pending, Partial}
    requires v.status in {Cancelled, Rejected}
    ensures var o, r := t.db.orders[j], ProcessOrder(cfg, t, v, now);
            WithOperator(r.db.positions, o.symbol, o.strategy)
            <==> Executed(o, v) || WithOperator(t.db.positions, o.symbol, o.strategy)
  {
    hide FindPosition, Locate, Answers, RestoredState, Executed, ObservedPartial, FirstRow, WithOperator, FlagManual,
         OnCancel;
    LocateAnswers(t.db.orders, v);
    AnswersWithin(t.db.orders, v, j);
    var o := t.db.orders[j];
    ExecutedIs(o, v);
    var t0 := t.(db := SetOrder(t.db, j, Refresh(o, v)));
    if ObservedPartial(o, v) {
      FlagHandsOver(t0, o.symbol, o.strategy, now);
    } else {
      RestoreKeeps(t0, o, now);
    }
  }

  lemma AnswersWithin(rows: seq<Order>, v: Order, j: nat)
    requires Answers(rows, v, j)
    ensures j < |rows| && (v.clientId != None || v.brokerId != None)
  {
  }

  lemma RestoreKeeps(t: Tick, o: Order, now: int)
    ensures WithOperator(OnCancel(t, o, now).db.positions, o.symbol, o.strategy)
            <==> WithOperator(t.db.positions, o.symbol, o.strategy)
  {
    hide FindPosition, RestoredState, FirstRow;
    var ps := t.db.positions;
    FindsFirst(ps, o.symbol, o.strategy);
    FoundWithin(ps, o.symbol, o.strategy);
    var at := FindPosition(ps, o.symbol, o.strategy);
    if at.Some? {
      var k := at.value;
      RestoredAutomatic(o, ps[k].state);
      var r := OnCancel(t, o, now).db.positions;
      assert |r| == |ps| && forall i :: 0 <= i < |ps| && i != k ==> r[i] == ps[i];
      forall i: nat | i < |ps| ensures FirstRow(r, o.symbol, o.strategy, i) <==> FirstRow(ps, o.symbol, o.strategy, i) {
        SameKeysFirst(ps, r, o.symbol, o.strategy, i);
      }
    }
  }

  predicate SameKeys(a: seq<Position>, b: seq<Position>) {
    |a| == |b| && forall i :: 0 <= i < |a| ==> b[i].symbol == a[i].symbol && b[i].strategy == a[i].strategy
  }

  lemma SameKeysFirst(a: seq<Position>, b: seq<Position>, symbol: string, strategy: Option<string>, i: nat)
    requires SameKeys(a, b)
    ensures FirstRow(a, symbol, strategy, i) <==> FirstRow(b, symbol, strategy, i)
  {
  }

  /** An order no row answers to hands its symbol over. */
  lemma StrangerHandsOver(cfg: Config, t: Tick, v: Order, now: int)
    requires v.clientId != None || v.brokerId != None
    requires forall j: nat :: !Answers(t.db.orders, v, j)
    ensures WithOperator(ProcessOrder(cfg, t, v, now).db.positions, v.symbol, None)
  {
    hide Locate, Answers, FirstRow, WithOperator, FlagManual;
    LocateAnswers(t.db.orders, v);
    FlagHandsOver(t, v.symbol, None, now);
  }

  // ---- The sweep ----

  /** The broker counts stock on the symbol: a row in SHARES_HELD, or rows that add up to more than nothing. */
  predicate StockShown(rows: seq<BrokerRow>, s: string) {
    (exists i :: 0 <= i < |rows| && rows[i].symbol == s && rows[i].state == SharesHeld)
    || Sum(seq(|rows|, i requires 0 <= i < |rows| => if rows[i].symbol == s then rows[i].shares else 0)) > 0
  }

  lemma {:induction false} SharesInSum(rows: seq<BrokerRow>, s: string)
    ensures SharesIn(rows, s)
            == Sum(seq(|rows|, i requires 0 <= i < |rows| => if rows[i].symbol == s then rows[i].shares else 0))
  {
    if |rows| > 0 {
      var n := |rows| - 1;
      SharesInSum(rows[..n], s);
      assert seq(|rows|, i requires 0 <= i < |rows| => if rows[i].symbol == s then rows[i].shares else 0)[..n]
             == seq(n, i requires 0 <= i < n => if rows[..n][i].symbol == s then rows[..n][i].shares else 0);
    }
  }

  /** A spread, a condor or a diagonal whose symbol shows stock, so that some short leg was assigned; or a calendar
      whose symbol shows neither stock nor a short call. */
  predicate LegAssigned(p: Position, rows: seq<BrokerRow>) {
    var shown := exists i :: 0 <= i < |rows| && rows[i].symbol == p.symbol;
    if p.state == SpreadOpen && p.strategy == "calendar" then
      !StockShown(rows, p.symbol)
      && forall i :: 0 <= i < |rows| && rows[i].symbol == p.symbol ==> rows[i].state != CcOpen
    else p.state in {SpreadOpen, PmccLongOpen, PmccBothOpen} && StockShown(rows, p.symbol) && shown
  }

  lemma StockShownShape(rows: seq<BrokerRow>, s: string)
    ensures ShapeOf(rows, s).shares <==> StockShown(rows, s)
    ensures ShapeOf(rows, s).present <==> exists i :: 0 <= i < |rows| && rows[i].symbol == s
    ensures ShapeOf(rows, s).shortCall
            <==> exists i :: 0 <= i < |rows| && rows[i].symbol == s && rows[i].state == CcOpen
  {
    SharesInSum(rows, s);
  }

  /** Every turn of the sweep touches its own row, and hands others over at most. */
  predicate Touches(a: seq<Position>, b: seq<Position>, k: nat) {
    SameKeys(a, b) && forall i :: 0 <= i < |a| && i != k ==> b[i] == a[i] || b[i] == a[i].(state := ManualIntervention)
  }

  lemma FlagTouches(t: Tick, k: nat, p: Position, now: int)
    requires k < |t.db.positions| && t.db.positions[k].symbol == p.symbol && t.db.positions[k].strategy == p.strategy
    ensures Touches(t.db.positions, FlagManual(t, p.symbol, Some(p.strategy), now).db.positions, k)
  {
    hide FindPosition, FirstRow;
    FindsFirst(t.db.positions, p.symbol, Some(p.strategy));
    FoundWithin(t.db.positions, p.symbol, Some(p.strategy));
    if FindPosition(t.db.positions, p.symbol, Some(p.strategy)).None? {
      NoneEarlier(t.db.positions, p.symbol, Some(p.strategy), k);
    }
  }

  lemma CalledTouches(t: Tick, k: nat, p: Position, now: int)
    requires k < |t.db.positions| && t.db.positions[k].symbol == p.symbol && t.db.positions[k].strategy == p.strategy
    ensures Touches(t.db.positions, OnCalledAway(t, k, p, now).db.positions, k)
  {
    hide FlagManual, CcStrike, CspQuantity, CyclePnl;
    FlagTouches(t, k, p, now);
  }

  lemma HealTouches(t: Tick, k: nat, p: Position, now: int)
    requires k < |t.db.positions| && t.db.positions[k].symbol == p.symbol && t.db.positions[k].strategy == p.strategy
    ensures Touches(t.db.positions, HealPmcc(t, k, p, now).db.positions, k)
  {
    hide LatestCallOrder, Notional;
  }

  lemma FlatTouches(t: Tick, k: nat, p: Position, outcome: CycleOutcome, now: int)
    requires k < |t.db.positions| && t.db.positions[k].symbol == p.symbol && t.db.positions[k].strategy == p.strategy
    ensures Touches(t.db.positions, OnExpiry(t, k, p, outcome, now).db.positions, k)
    ensures Touches(t.db.positions, OnAssignment(t, k, p, now).db.positions, k)
    ensures Touches(t.db.positions, OnCcExpiry(t, k, p, now).db.positions, k)
  {
    hide CyclePnl, CspQuantity;
  }

  lemma SetTouches(t: Tick, k: nat, p: Position, state: PositionState, cycle: Option<nat>, now: int)
    requires k < |t.db.positions| && t.db.positions[k].symbol == p.symbol && t.db.positions[k].strategy == p.strategy
    ensures Touches(t.db.positions, Heal(t, k, p, state, cycle, now).db.positions, k)
    ensures Touches(t.db.positions,
                    SetState(t, Some(k), p.symbol, state, cycle, Some(p.strategy), now).db.positions, k)
  {
  }

  lemma NothingTouched(ps: seq<Position>, k: nat)
    ensures Touches(ps, ps, k)
  {
  }

  lemma DiffTouches(t: Tick, k: nat, p: Position, shape: Shape, now: int)
    requires k < |t.db.positions| && t.db.positions[k].symbol == p.symbol && t.db.positions[k].strategy == p.strategy
    ensures Touches(t.db.positions, DiffOne(t, k, p, shape, now).db.positions, k)
    ensures p.state.ManualIntervention? ==> DiffOne(t, k, p, shape, now) == t
  {
    hide FlagManual, OnCalledAway, OnExpiry, OnAssignment, OnCcExpiry, Heal, SetState, HealPmcc, HasInflight,
         SharesClaimedByOther, Touches;
    NothingTouched(t.db.positions, k);
    FlagTouches(t, k, p, now);
    match p.state {
      case CspOpen => FlatTouches(t, k, p, CspExpired, now);
      case CcOpen =>
        FlatTouches(t, k, p, CspExpired, now);
        CalledTouches(t, k, p, now);
      case CspPending =>
        SetTouches(t, k, p, CspOpen, p.cycle, now);
        SetTouches(t, k, p, Idle, None, now);
      case CcPending =>
        SetTouches(t, k, p, CcOpen, p.cycle, now);
        SetTouches(t, k, p, SharesHeld, None, now);
      case SpreadOpen => FlatTouches(t, k, p, SpreadExpiredOutcome(p.strategy), now);
      case SpreadPending => SetTouches(t, k, p, SpreadOpen, p.cycle, now);
      case PmccBothOpen =>
        var t1 := t.(sum := t.sum.(expirations := t.sum.expirations + 1));
        SetTouches(t1, k, p, PmccLongOpen, None, now);
      case PmccLongPending | PmccShortPending => HealTouches(t, k, p, now);
      case _ =>
    }
  }

  lemma AssignedHandsOver(t: Tick, k: nat, p: Position, rows: seq<BrokerRow>, now: int)
    requires k < |t.db.positions| && LegAssigned(p, rows)
    ensures WithOperator(DiffOne(t, k, p, ShapeOf(rows, p.symbol), now).db.positions, p.symbol, Some(p.strategy))
  {
    hide WithOperator, FlagManual, ShapeOf, StockShown;
    StockShownShape(rows, p.symbol);
    FlagHandsOver(t, p.symbol, Some(p.strategy), now);
  }

  /** Another row of the symbol in use holds or awaits its shares. */
  predicate SharesSpokenFor(ps: seq<Position>, symbol: string, k: nat) {
    exists j :: 0 <= j < |ps| && j != k && ps[j].symbol == symbol && ps[j].state != Idle
                && (ps[j].shares > 0 || ps[j].state in {SharesHeld, CcOpen, CcPending, Assigned})
  }

  /** A put gone while its symbol shows stock: an assignment, unless the shares may be another row's; then the operator
      decides. */
  lemma PutGone(t: Tick, k: nat, p: Position, rows: seq<BrokerRow>, now: int)
    requires k < |t.db.positions| && p.state == CspOpen && StockShown(rows, p.symbol)
    requires forall i :: 0 <= i < |rows| && rows[i].symbol == p.symbol ==> rows[i].state != CspOpen
    ensures var r := DiffOne(t, k, p, ShapeOf(rows, p.symbol), now);
            if SharesSpokenFor(t.db.positions, p.symbol, k)
            then WithOperator(r.db.positions, p.symbol, Some(p.strategy)) && r.db.orders == t.db.orders
            else |r.db.positions| == |t.db.positions| && r.db.positions[k].state == SharesHeld
                 && r.sum.assignments == t.sum.assignments + 1
  {
    hide WithOperator, FlagManual, StockShown, CspQuantity;
    StockShownShape(rows, p.symbol);
    FlagHandsOver(t, p.symbol, Some(p.strategy), now);
  }

  /** With the operator at a row before n, where the rest of the sweep does not write. */
  predicate HeldBefore(ps: seq<Position>, symbol: string, strategy: Option<string>, n: nat) {
    exists i: nat :: i < n && i < |ps| && FirstRow(ps, symbol, strategy, i) && ps[i].state == ManualIntervention
  }

  lemma HeldThrough(a: seq<Position>, b: seq<Position>, k: nat, symbol: string, strategy: Option<string>)
    requires Touches(a, b, k) && HeldBefore(a, symbol, strategy, k)
    ensures HeldBefore(b, symbol, strategy, k + 1)
  {
    hide FirstRow;
    var i: nat :| i < k && i < |a| && FirstRow(a, symbol, strategy, i) && a[i].state == ManualIntervention;
    SameKeysFirst(a, b, symbol, strategy, i);
  }

  lemma HeldNow(ps: seq<Position>, p: Position, k: nat)
    requires k < |ps| && ps[k].symbol == p.symbol && ps[k].strategy == p.strategy
    requires WithOperator(ps, p.symbol, Some(p.strategy))
    ensures HeldBefore(ps, p.symbol, Some(p.strategy), k + 1)
  {
    var i: nat :| i < |ps| && FirstRow(ps, p.symbol, Some(p.strategy), i) && ps[i].state == ManualIntervention;
  }

  /** Rows that read MANUAL_INTERVENTION before the sweep still do. */
  predicate StillHeld(locals: seq<Position>, ps: seq<Position>) {
    SameKeys(locals, ps) && forall i :: 0 <= i < |locals| && locals[i].state.ManualIntervention? ==>
      ps[i].state.ManualIntervention?
  }

  lemma {:induction false} SweepHandsOver(t: Tick, locals: seq<Position>, n: nat, rows: seq<BrokerRow>, now: int)
    requires locals == t.db.positions && n <= |locals|
    ensures var ps := DiffAll(t, locals, n, rows, now).db.positions;
            && StillHeld(locals, ps)
            && forall k :: 0 <= k < n && LegAssigned(locals[k], rows) ==>
                 HeldBefore(ps, locals[k].symbol, Some(locals[k].strategy), n)
  {
    hide DiffOne, LegAssigned, ShapeOf, HeldBefore, WithOperator, FirstRow;
    if n > 0 {
      SweepHandsOver(t, locals, n - 1, rows, now);
      var before, p := DiffAll(t, locals, n - 1, rows, now), locals[n - 1];
      var shape := ShapeOf(rows, p.symbol);
      var after := DiffOne(before, n - 1, p, shape, now);
      DiffTouches(before, n - 1, p, shape, now);
      forall k | 0 <= k < n && LegAssigned(locals[k], rows)
        ensures HeldBefore(after.db.positions, locals[k].symbol, Some(locals[k].strategy), n)
      {
        if k < n - 1 {
          HeldThrough(before.db.positions, after.db.positions, n - 1, locals[k].symbol, Some(locals[k].strategy));
        } else {
          AssignedHandsOver(before, n - 1, p, rows, now);
          HeldNow(after.db.positions, p, n - 1);
        }
      }
    }
  }

  // ---- Unknown symbols ----

  lemma {:induction false} UnknownHandsOver(t: Tick, locals: seq<Position>, rows: seq<BrokerRow>, n: nat, now: int)
    requires n <= |rows|
    ensures var r := FlagUnknown(t, locals, rows, n, now);
            && HandedOver(t.db.positions, r.db.positions)
            && forall i :: 0 <= i < n && (forall k :: 0 <= k < |locals| ==> locals[k].symbol != rows[i].symbol) ==>
                 WithOperator(r.db.positions, rows[i].symbol, None)
  {
    hide FlagManual, HandedOver, WithOperator;
    if n == 0 {
      NothingHandedOver(t.db.positions);
    } else {
      UnknownHandsOver(t, locals, rows, n - 1, now);
      var before, s := FlagUnknown(t, locals, rows, n - 1, now), rows[n - 1].symbol;
      if !KnownSymbol(locals, s) && !Present(rows[..n - 1], s) {
        var r := FlagManual(before, s, None, now);
        FlagHandsOver(before, s, None, now);
        ThenHandedOver(t.db.positions, before.db.positions, r.db.positions);
        forall i | 0 <= i < n - 1 && (forall k :: 0 <= k < |locals| ==> locals[k].symbol != rows[i].symbol)
          ensures WithOperator(r.db.positions, rows[i].symbol, None)
        {
          StaysWithOperator(before.db.positions, r.db.positions, rows[i].symbol, None);
        }
      } else if !KnownSymbol(locals, s) {
        var i :| 0 <= i < n - 1 && rows[..n - 1][i].symbol == s;
        assert rows[i].symbol == s;
      }
    }
  }

  // ---- The whole tick ----

  lemma AuditOnlyHandsOver(cfg: Config, t: Tick, rows: seq<BrokerRow>, symbols: seq<string>, now: int)
    ensures HandedOver(t.db.positions, Audit(cfg, t, rows, symbols, now).db.positions)
  {
    hide HandedOver, Uncarried, Stray, Mismatched, AuditCycles, AuditRows, AuditTotals;
    NothingHandedOver(t.db.positions);
    if cfg.parityEnabled {
      CyclesSpeak(cfg, t, t.db.cycles, |t.db.cycles|, now);
      var t1 := AuditCycles(cfg, t, t.db.cycles, |t.db.cycles|, now);
      var ps := t1.db.positions;
      RowsSpeak(t1, ps, |ps|, now);
      var t2 := AuditRows(t1, ps, |ps|, now);
      TotalsSpeak(t2, ps, rows, symbols, now);
      ThenHandedOver(t.db.positions, ps, t2.db.positions);
      ThenHandedOver(t.db.positions, t2.db.positions, AuditTotals(t2, ps, rows, symbols, now).db.positions);
    }
  }

  lemma HeldIsWithOperator(ps: seq<Position>, symbol: string, strategy: Option<string>, n: nat)
    requires HeldBefore(ps, symbol, strategy, n)
    ensures WithOperator(ps, symbol, strategy)
  {
    hide FirstRow;
  }

  lemma StillWithOperator(locals: seq<Position>, ps: seq<Position>, symbol: string, strategy: Option<string>)
    requires StillHeld(locals, ps) && WithOperator(locals, symbol, strategy)
    ensures WithOperator(ps, symbol, strategy)
  {
    hide FirstRow;
    var k: nat :| k < |locals| && FirstRow(locals, symbol, strategy, k) && locals[k].state == ManualIntervention;
    SameKeysFirst(locals, ps, symbol, strategy, k);
  }

  /** Any tick: what the order stream handed over stays with the operator; every spread, condor or diagonal that then
      reads open while its symbol shows stock ends with the operator; and so does every broker symbol without a row. */
  lemma TickHandsOver(cfg: Config, d: Db, views: seq<Order>, rows: seq<BrokerRow>, symbols: seq<string>, now: int)
    ensures var locals := ProcessOrders(cfg, Tick(d, ZeroSummary), views, now).db.positions;
            var ps := ReconcileRows(cfg, d, views, rows, symbols, now).db.positions;
            && (forall symbol, strategy ::
                  WithOperator(locals, symbol, strategy) ==> WithOperator(ps, symbol, strategy))
            && (forall k :: 0 <= k < |locals| && LegAssigned(locals[k], rows) ==>
                  WithOperator(ps, locals[k].symbol, Some(locals[k].strategy)))
            && (forall i :: 0 <= i < |rows| && (forall k :: 0 <= k < |locals| ==> locals[k].symbol != rows[i].symbol)
                  ==> WithOperator(ps, rows[i].symbol, None))
  {
    hide ProcessOrders, DiffAll, FlagUnknown, Audit, LegAssigned, HandedOver, WithOperator, HeldBefore, StillHeld;
    var t1 := ProcessOrders(cfg, Tick(d, ZeroSummary), views, now);
    var locals := t1.db.positions;
    SweepHandsOver(t1, locals, |locals|, rows, now);
    var t2 := DiffAll(t1, locals, |locals|, rows, now);
    UnknownHandsOver(t2, locals, rows, |rows|, now);
    var t3 := FlagUnknown(t2, locals, rows, |rows|, now);
    AuditOnlyHandsOver(cfg, t3, rows, symbols, now);
    var ps := Audit(cfg, t3, rows, symbols, now).db.positions;
    ThenHandedOver(t2.db.positions, t3.db.positions, ps);
    forall symbol, strategy | WithOperator(locals, symbol, strategy) ensures WithOperator(ps, symbol, strategy) {
      StillWithOperator(locals, t2.db.positions, symbol, strategy);
      StaysWithOperator(t2.db.positions, ps, symbol, strategy);
    }
    forall k | 0 <= k < |locals| && LegAssigned(locals[k], rows)
      ensures WithOperator(ps, locals[k].symbol, Some(locals[k].strategy))
    {
      HeldIsWithOperator(t2.db.positions, locals[k].symbol, Some(locals[k].strategy), |locals|);
      StaysWithOperator(t2.db.positions, ps, locals[k].symbol, Some(locals[k].strategy));
    }
    forall i | 0 <= i < |rows| && (forall k :: 0 <= k < |locals| ==> locals[k].symbol != rows[i].symbol)
      ensures WithOperator(ps, rows[i].symbol, None)
    {
      StaysWithOperator(t3.db.positions, ps, rows[i].symbol, None);
    }
  }
}
