/** One cycle spans one long call: the invariant of every PMCC run. */
module PmccSpan {
  import opened Models
  import opened PaperBrokers
  import opened Repos
  import opened Router
  import opened Reconciler
  import opened LedgerTables
  import opened Pmcc

  // ---- The invariant ----

  /** Only the position's own row has moved; older orders and cycles are as they were; every
      broker order of the run has its row, in the same order. */
  predicate Framed(w0: Desk, w: Desk, x: string, k: nat) {
    && k < |w0.d.positions| == |w.d.positions|
    && FindPosition(w.d.positions, x, Some(PMCC)) == Some(k)
    && (forall m :: 0 <= m < |w.d.positions| && m != k ==> w.d.positions[m] == w0.d.positions[m])
    && w.d.positions[k].symbol == x && w.d.positions[k].strategy == PMCC
    && w.d.positions[k].shares == w0.d.positions[k].shares
    && |w.b.orders| >= |w0.b.orders|
    && |w.d.orders| - |w0.d.orders| == |w.b.orders| - |w0.b.orders|
    && w.d.orders[..|w0.d.orders|] == w0.d.orders
    && |w.d.cycles| >= |w0.d.cycles| && w.d.cycles[..|w0.d.cycles|] == w0.d.cycles
    && !HasInflight(w0.d.orders, x)
  }

  function RowIx(w0: Desk, i: nat): int {
    |w0.d.orders| + i - |w0.b.orders|
  }

  /** The broker's view of the run's order the tables still call working: always the latest. */
  function Work(w0: Desk, w: Desk): Option<Order> {
    if |w.b.orders| > |w0.b.orders| && |w.d.orders| > 0 && Working(w.d.orders[|w.d.orders| - 1].status)
    then Some(w.b.orders[|w.b.orders| - 1]) else None
  }

  /** The run's broker orders whose fate the tables know. */
  function Seen(w0: Desk, w: Desk): seq<Order>
    requires |w.b.orders| >= |w0.b.orders|
  {
    if Work(w0, w).Some? then w.b.orders[|w0.b.orders|..|w.b.orders| - 1] else w.b.orders[|w0.b.orders|..]
  }

  predicate OrderFits(o: Order, i: nat, x: string) {
    && PmccShape(o, x) && o.clientId.Some? && o.brokerId == Some(i)
    && (o.status.Pending? || o.status.Cancelled? || o.status.Filled?)
    && (o.status.Filled? <==> o.fillPrice.Some?) && (o.status.Filled? <==> o.filledAt.Some?)
    && (o.filledAt.Some? ==> o.filledAt.value >= o.placedAt)
    && o.filledQty.None? && o.cycle.None?
  }

  predicate RowFits(r: Order, o: Order, latest: bool) {
    && r == o.(status := r.status, fillPrice := r.fillPrice, filledAt := r.filledAt, cycle := r.cycle)
    && if Working(r.status) then latest && r.status.Pending? && r.fillPrice.None? && r.filledAt.None? && r.cycle.None?
       else r.status == o.status && r.fillPrice == o.fillPrice && r.filledAt == o.filledAt
  }

  predicate Linked(w0: Desk, w: Desk, x: string, i: nat)
    requires |w0.b.orders| <= i < |w.b.orders| && |w.d.orders| - |w0.d.orders| == |w.b.orders| - |w0.b.orders|
  {
    var o, j := w.b.orders[i], RowIx(w0, i);
    && OrderFits(o, i, x)
    && RowFits(w.d.orders[j], o, i == |w.b.orders| - 1)
    && FindClient(w.d.orders, o.clientId.value) == Some(j)
  }

  predicate AllLinked(w0: Desk, w: Desk, x: string)
    requires |w.d.orders| - |w0.d.orders| == |w.b.orders| - |w0.b.orders|
  {
    forall i :: |w0.b.orders| <= i < |w.b.orders| ==> Linked(w0, w, x, i)
  }

  /** Cycle `cy` records exactly what the broker's account says of one span. */
  predicate CycleFits(d: Db, cy: nat, x: string, s: Span) {
    && cy < |d.cycles|
    && d.cycles[cy].symbol == x && d.cycles[cy].strategy == Some(PMCC)
    && CyclePnl(d, cy) == s.pnl
    && (d.cycles[cy].endedAt.Some? <==> s.sold)
    && d.cycles[cy].finalPnl == (if s.sold then Some(s.pnl) else None)
    && (s.sold ==> d.cycles[cy].outcome == Some(PmccFullClosed) || d.cycles[cy].outcome == Some(PmccLongRolled))
  }

  predicate Accounts(c0: nat, d: Db, x: string, spans: seq<Span>) {
    && |d.cycles| == c0 + |spans|
    && (forall m :: 0 <= m < |spans| ==> CycleFits(d, c0 + m, x, spans[m]))
    && (forall m :: 0 <= m < |spans| - 1 ==> spans[m].sold)
    && (forall j :: 0 <= j < |d.orders| && d.orders[j].cycle.Some? ==> d.orders[j].cycle.value < |d.cycles|)
  }

  predicate Open(spans: seq<Span>) {
    |spans| > 0 && !spans[|spans| - 1].sold
  }

  datatype Eye = Eye(state: PositionState, open: bool, work: Option<Order>, longs: set<Contract>, shorts: set<Contract>)

  function EyeOf(w0: Desk, w: Desk, x: string, k: nat): Eye
    requires Framed(w0, w, x, k)
  {
    Eye(w.d.positions[k].state, Open(Replay(Seen(w0, w))), Work(w0, w), LegsBy(w.b, x, BuyToOpen),
        LegsBy(w.b, x, SellToOpen))
  }

  predicate Doing(w: Option<Order>, t: OrderType) {
    w.Some? && w.value.orderType == t && w.value.contract.Some?
  }

  /** `healing`: a cancelled short order has been seen but the row not yet swept. */
  predicate StateFits(v: Eye, healing: bool) {
    var filled := v.work.Some? && v.work.value.status.Filled?;
    match v.state
    case Idle => !v.open && v.work.None? && v.longs == {} && v.shorts == {}
    case PmccLongPending =>
      !v.open && Doing(v.work, BuyToOpen) && v.shorts == {}
      && v.longs == if filled then {v.work.value.contract.value} else {}
    case PmccLongOpen =>
      v.open && (v.work.None? || (Doing(v.work, BuyToClose) && v.work.value.contract.value !in v.longs))
      && |v.longs| == 1 && v.shorts == {}
    case PmccShortPending =>
      v.open && |v.longs| == 1
      && if v.work.None? then healing && v.shorts == {}
         else Doing(v.work, SellToOpen) && v.work.value.contract.value !in v.longs
              && v.shorts <= if filled then {v.work.value.contract.value} else {}
    case PmccBothOpen =>
      v.open && |v.longs| == 1 && |v.shorts| <= 1
      && (v.work.None? || (Doing(v.work, BuyToClose) && v.work.value.contract.value !in v.longs
                           && (filled ==> v.shorts == {})))
    case PmccClosing =>
      v.open && Doing(v.work, SellToClose) && v.shorts == {}
      && v.longs == if filled then {} else {v.work.value.contract.value}
    case _ => false
  }

  /** Every live leg on the symbol is a call that this strategy bought or sold to open. */
  predicate LegsKnown(b: BrokerState, x: string) {
    && x !in b.stock
    && (forall c :: c in b.options && c.underlying == x ==>
          c.optionType.Call? && (b.options[c].orderType.BuyToOpen? || b.options[c].orderType.SellToOpen?))
  }

  /** The latest row is younger than every other. */
  predicate Dated(d: Db, began: bool, clock: int) {
    && (forall j :: 0 <= j < |d.orders| ==> d.orders[j].placedAt <= clock)
    && (began ==> |d.orders| > 0 && forall j :: 0 <= j < |d.orders| - 1 ==>
        d.orders[j].placedAt < d.orders[|d.orders| - 1].placedAt)
  }

  predicate Healable(w0: Desk, w: Desk) {
    |w.d.orders| > |w0.d.orders|
    && w.d.orders[|w.d.orders| - 1].orderType.SellToOpen? && !w.d.orders[|w.d.orders| - 1].status.Filled?
  }

  predicate Pointed(w0: Desk, w: Desk, k: nat)
    requires k < |w.d.positions| && |w.b.orders| >= |w0.b.orders|
  {
    w.d.positions[k].cycle
    == if Open(Replay(Seen(w0, w))) && |w.d.cycles| > 0 then Some(|w.d.cycles| - 1) else None
  }

  predicate Tracked(w0: Desk, w: Desk, x: string, k: nat, healing: bool) {
    && Framed(w0, w, x, k)
    && AllLinked(w0, w, x)
    && Accounts(|w0.d.cycles|, w.d, x, Replay(Seen(w0, w)))
    && Pointed(w0, w, k)
    && StateFits(EyeOf(w0, w, x, k), healing)
    && (w.d.positions[k].state.PmccShortPending? && Work(w0, w).None? ==> Healable(w0, w))
    && LegsKnown(w.b, x)
    && Dated(w.d, |w.b.orders| > |w0.b.orders|, w.clock)
  }

  // ---- Start ----

  lemma StartTracked(cfg: Config, w0: Desk, x: string)
    requires FlatStart(cfg, w0, x) && FindPosition(w0.d.positions, x, Some(PMCC)).Some?
    ensures Tracked(w0, w0, x, FindPosition(w0.d.positions, x, Some(PMCC)).value, false)
  {
    FindPositionSound(w0.d.positions, x, Some(PMCC));
    assert w0.d.orders[..|w0.d.orders|] == w0.d.orders;
    assert w0.d.cycles[..|w0.d.cycles|] == w0.d.cycles;
    assert LegsBy(w0.b, x, BuyToOpen) == {} && LegsBy(w0.b, x, SellToOpen) == {};
    assert Seen(w0, w0) == [];
  }

  // ---- Look-ups ----

  lemma OldRow(w0: Desk, w: Desk, j: nat)
    requires |w0.d.orders| <= |w.d.orders| && w.d.orders[..|w0.d.orders|] == w0.d.orders && j < |w0.d.orders|
    ensures w.d.orders[j] == w0.d.orders[j]
  {
    assert w.d.orders[j] == w.d.orders[..|w0.d.orders|][j];
  }

  /** Nothing of the symbol is in flight exactly when the latest order is settled. */
  lemma InflightIsWork(w0: Desk, w: Desk, x: string, k: nat)
    requires Framed(w0, w, x, k) && AllLinked(w0, w, x)
    ensures HasInflight(w.d.orders, x) <==> Work(w0, w).Some?
  {
    var n0, j0 := |w0.b.orders|, |w0.d.orders|;
    if HasInflight(w.d.orders, x) {
      var j :| 0 <= j < |w.d.orders| && w.d.orders[j].symbol == x && Working(w.d.orders[j].status);
      if j < j0 {
        OldRow(w0, w, j);
        assert false;
      }
      assert Linked(w0, w, x, n0 + j - j0);
    }
    if Work(w0, w).Some? {
      assert Linked(w0, w, x, |w.b.orders| - 1);
    }
  }

  // ---- Submitting ----

  lemma ReplayIgnores(orders: seq<Order>, o: Order)
    requires !o.status.Filled?
    ensures Replay(orders + [o]) == Replay(orders)
  {
    assert (orders + [o])[..|orders|] == orders;
  }

  predicate SubmitState(o: Order, s: PositionState, s': PositionState) {
    match o.orderType
    case BuyToOpen => s.Idle? && s'.PmccLongPending?
    case SellToOpen => s.PmccLongOpen? && s'.PmccShortPending?
    case BuyToClose => s.PmccBothOpen? && s'.PmccBothOpen?
    case SellToClose => s.PmccLongOpen? && s'.PmccClosing?
    case _ => false
  }

  lemma SubmitWrites(cfg: Config, w0: Desk, w: Desk, x: string, k: nat, o: Order, at: int)
    requires Framed(w0, w, x, k) && PMCC !in cfg.swing && LegalSubmit(w, o, x, at)
    ensures var stored := o.(brokerId := Some(|w.b.orders|));
            var (b, d) := PlaceOrder(cfg, w.b, w.d, o, PMCC);
            && b == w.b.(orders := w.b.orders + [stored])
            && d == w.d.(orders := w.d.orders + [stored], positions := d.positions)
            && |d.positions| == |w.d.positions|
            && d.positions[k] == w.d.positions[k].(state := d.positions[k].state)
            && (forall m :: 0 <= m < |w.d.positions| && m != k ==> d.positions[m] == w.d.positions[m])
            && SubmitState(o, w.d.positions[k].state, d.positions[k].state)
  {
    assert o.(brokerId := Some(|w.b.orders|)) == o.(brokerId := Some(|w.b.orders|), status := Pending);
  }

  /** An untagged row changes no cycle. */
  lemma UntaggedRow(d: Db, d': Db, r: Order, c0: nat, x: string, spans: seq<Span>)
    requires Accounts(c0, d, x, spans) && d'.cycles == d.cycles && d'.orders == d.orders + [r] && r.cycle.None?
    ensures Accounts(c0, d', x, spans)
  {
    forall m | 0 <= m < |spans| ensures CycleFits(d', c0 + m, x, spans[m]) {
      assert CycleFits(d, c0 + m, x, spans[m]);
      TaggedAppend(d.orders, r, c0 + m);
      assert Tagged(d.orders, c0 + m) + [] == Tagged(d.orders, c0 + m);
    }
  }

  lemma SubmitLinks(w0: Desk, w: Desk, w': Desk, x: string, k: nat, o: Order, at: int)
    requires Framed(w0, w, x, k) && AllLinked(w0, w, x) && Work(w0, w).None? && LegalSubmit(w, o, x, at)
    requires w'.b.orders == w.b.orders + [o.(brokerId := Some(|w.b.orders|))]
    requires w'.d.orders == w.d.orders + [o.(brokerId := Some(|w.b.orders|))]
    ensures AllLinked(w0, w', x)
  {
    hide FindPosition, HasInflight, Proposed;
    FindClientSound(w.d.orders, o.clientId.value);
    forall i | |w0.b.orders| <= i < |w'.b.orders| ensures Linked(w0, w', x, i) {
      if i < |w.b.orders| {
        assert Linked(w0, w, x, i);
        var cid := w.b.orders[i].clientId.value;
        FindClientSound(w.d.orders, cid);
        FindClientStable(w.d.orders, w'.d.orders, cid);
        if i == |w.b.orders| - 1 { assert w.d.orders[RowIx(w0, i)] == w.d.orders[|w.d.orders| - 1]; }
      } else {
        assert w'.d.orders[..|w.d.orders|] == w.d.orders;
      }
    }
  }

  lemma SubmitTracked(cfg: Config, w0: Desk, w: Desk, x: string, k: nat, o: Order, at: int)
    requires Tracked(w0, w, x, k, false) && PMCC !in cfg.swing && LegalSubmit(w, o, x, at) && at > w.clock
    ensures var (b, d) := PlaceOrder(cfg, w.b, w.d, o, PMCC); Tracked(w0, Desk(b, d, at), x, k, false)
  {
    hide PlaceOrder, HasInflight, Accounts, Linked, FindPosition, Replay;
    var (b, d) := PlaceOrder(cfg, w.b, w.d, o, PMCC);
    var w' := Desk(b, d, at);
    SubmitWrites(cfg, w0, w, x, k, o, at);
    InflightIsWork(w0, w, x, k);
    FindPositionKeys(w.d.positions, d.positions, x, Some(PMCC));
    var stored := o.(brokerId := Some(|w.b.orders|));
    SubmitLinks(w0, w, w', x, k, o, at);
    assert d.orders[..|w0.d.orders|] == w.d.orders[..|w0.d.orders|];
    assert Seen(w0, w') == Seen(w0, w);
    UntaggedRow(w.d, d, stored, |w0.d.cycles|, x, Replay(Seen(w0, w)));
    SubmitFits(EyeOf(w0, w, x, k), w.b, x, stored, d.positions[k].state);
  }

  lemma SubmitFits(v: Eye, b: BrokerState, x: string, o: Order, state: PositionState)
    requires StateFits(v, false) && v.work.None? && LegsKnown(b, x)
    requires v.longs == LegsBy(b, x, BuyToOpen) && v.shorts == LegsBy(b, x, SellToOpen)
    requires SubmitState(o, v.state, state) && PmccShape(o, x) && o.status.Pending?
    requires match o.orderType
             case BuyToOpen => true
             case SellToOpen => o.contract.value !in b.options
             case BuyToClose => !IsOpener(b, o.contract.value, BuyToOpen)
             case SellToClose => IsOpener(b, o.contract.value, BuyToOpen)
             case _ => false
    ensures StateFits(v.(state := state, work := Some(o)), false)
  {
    if o.orderType.SellToClose? {
      OnlyMember(v.longs, o.contract.value);
    }
  }

  lemma OnlyMember<T>(s: set<T>, c: T)
    requires |s| == 1 && c in s
    ensures s == {c}
  {
    assert |s - {c}| == 0;
  }

  // ---- The broker's moves ----

  /** The latest order ends at the broker: filled or cancelled, not yet seen. */
  predicate Ended(o: Order, o': Order) {
    && Working(o.status) && o' == o.(status := o'.status, fillPrice := o'.fillPrice, filledAt := o'.filledAt)
    && (o'.status.Filled? || (o'.status.Cancelled? && o'.fillPrice == o.fillPrice && o'.filledAt == o.filledAt))
    && (o'.status.Filled? ==> o'.fillPrice.Some? && o'.filledAt.Some? && o'.filledAt.value >= o.placedAt)
  }

  lemma EndedLinks(w0: Desk, w: Desk, b: BrokerState, x: string, k: nat, o': Order)
    requires Framed(w0, w, x, k) && AllLinked(w0, w, x) && |w.b.orders| > |w0.b.orders|
    requires var n := |w.b.orders| - 1; Ended(w.b.orders[n], o') && b.orders == w.b.orders[n := o']
    ensures var w' := w.(b := b);
            && Framed(w0, w', x, k) && AllLinked(w0, w', x)
            && Work(w0, w) == Some(w.b.orders[|w.b.orders| - 1]) && Work(w0, w') == Some(o')
            && Seen(w0, w') == Seen(w0, w)
  {
    hide FindPosition, HasInflight, FindClient;
    var w', n := w.(b := b), |w.b.orders| - 1;
    assert Linked(w0, w, x, n);
    assert w.d.orders[RowIx(w0, n)] == w.d.orders[|w.d.orders| - 1];
    forall i | |w0.b.orders| <= i < |w'.b.orders| ensures Linked(w0, w', x, i) {
      assert Linked(w0, w, x, i);
    }
    assert w'.b.orders[|w0.b.orders|..n] == w.b.orders[|w0.b.orders|..n];
  }

  lemma EndedTracked(w0: Desk, w: Desk, b: BrokerState, x: string, k: nat, o': Order, at: int)
    requires Tracked(w0, w, x, k, false) && |w.b.orders| > |w0.b.orders| && at >= w.clock
    requires var n := |w.b.orders| - 1; Ended(w.b.orders[n], o') && b.orders == w.b.orders[n := o']
    requires StateFits(EyeOf(w0, w, x, k).(work := Some(o'), longs := LegsBy(b, x, BuyToOpen),
                                           shorts := LegsBy(b, x, SellToOpen)), false)
    requires LegsKnown(b, x)
    ensures Tracked(w0, Desk(b, w.d, at), x, k, false)
  {
    hide FindPosition, HasInflight, FindClient, Accounts, StateFits, Replay, Linked, LegsBy, LegsKnown;
    EndedLinks(w0, w, b, x, k, o');
    var w' := Desk(b, w.d, at);
    assert AllLinked(w0, w', x) by {
      forall i | |w0.b.orders| <= i < |w'.b.orders| ensures Linked(w0, w', x, i) { LinkTime(w0, w.(b := b), at, x, i); }
    }
    assert Work(w0, w') == Work(w0, w.(b := b));
    assert Seen(w0, w') == Seen(w0, w);
  }

  lemma LinkTime(w0: Desk, w: Desk, at: int, x: string, i: nat)
    requires |w0.b.orders| <= i < |w.b.orders| && |w.d.orders| - |w0.d.orders| == |w.b.orders| - |w0.b.orders|
    requires Linked(w0, w, x, i)
    ensures Linked(w0, w.(clock := at), x, i)
  {
  }

  lemma DropTracked(w0: Desk, w: Desk, x: string, k: nat, at: int)
    requires Tracked(w0, w, x, k, false) && |w.b.orders| > |w0.b.orders| && at >= w.clock
    ensures Tracked(w0, Desk(Cancel(w.b, |w.b.orders| - 1), w.d, at), x, k, false)
  {
    hide FindPosition, HasInflight, FindClient, Accounts, Replay, Linked;
    var n := |w.b.orders| - 1;
    var b := Cancel(w.b, n);
    if Working(w.b.orders[n].status) {
      EndedLinks(w0, w, b, x, k, b.orders[n]);
      assert LegsBy(b, x, BuyToOpen) == LegsBy(w.b, x, BuyToOpen)
             && LegsBy(b, x, SellToOpen) == LegsBy(w.b, x, SellToOpen);
      EndedTracked(w0, w, b, x, k, b.orders[n], at);
    } else {
      LegsTracked(w0, w, b, x, k, at);
    }
  }

  /** The orders stand still; only legs may go. */
  lemma LegsTracked(w0: Desk, w: Desk, b: BrokerState, x: string, k: nat, at: int)
    requires Tracked(w0, w, x, k, false) && at >= w.clock && b.orders == w.b.orders
    requires StateFits(EyeOf(w0, w, x, k).(longs := LegsBy(b, x, BuyToOpen), shorts := LegsBy(b, x, SellToOpen)), false)
    requires LegsKnown(b, x)
    ensures Tracked(w0, Desk(b, w.d, at), x, k, false)
  {
    hide FindPosition, HasInflight, FindClient, Accounts, StateFits, Replay, LegsBy, LegsKnown;
    var w' := Desk(b, w.d, at);
    forall i | |w0.b.orders| <= i < |w'.b.orders| ensures Linked(w0, w', x, i) { assert Linked(w0, w, x, i); }
    assert Work(w0, w') == Work(w0, w);
    assert Seen(w0, w') == Seen(w0, w);
  }

  lemma ExpireTracked(w0: Desk, w: Desk, x: string, k: nat, c: Contract, at: int)
    requires Tracked(w0, w, x, k, false) && at >= w.clock && c.underlying == x && IsOpener(w.b, c, SellToOpen)
    ensures Tracked(w0, Desk(Expire(w.b, c), w.d, at), x, k, false)
  {
    hide Framed, AllLinked, Accounts, Pointed, Dated;
    var b := Expire(w.b, c);
    var v := EyeOf(w0, w, x, k);
    assert LegsBy(b, x, BuyToOpen) == v.longs;
    assert LegsBy(b, x, SellToOpen) == v.shorts - {c};
    ShortGone(v, c);
    LegsTracked(w0, w, b, x, k, at);
  }

  lemma ShortGone(v: Eye, c: Contract)
    requires StateFits(v, false) && c in v.shorts
    ensures StateFits(v.(shorts := v.shorts - {c}), false)
  {
    if v.state.PmccBothOpen? { OnlyMember(v.shorts, c); }
  }

  function FilledEye(v: Eye, o': Order, c: Contract): Eye {
    v.(work := Some(o'),
       longs := if o'.orderType.BuyToOpen? then v.longs + {c} else v.longs - {c},
       shorts := if o'.orderType.SellToOpen? then v.shorts + {c} else v.shorts - {c})
  }

  lemma EyeFilled(v: Eye, o: Order, o': Order, c: Contract)
    requires StateFits(v, false) && v.work == Some(o) && Ended(o, o') && o'.status.Filled? && o.contract == Some(c)
    requires v.longs !! v.shorts
    requires o.orderType.BuyToClose? || o.orderType.SellToClose? ==> c in v.longs + v.shorts
    ensures StateFits(FilledEye(v, o', c), false)
  {
    if v.state.PmccBothOpen? { OnlyMember(v.shorts, c); }
  }

  lemma FillLegs(b: BrokerState, i: nat, x: string, price: real, now: int)
    requires i < |b.orders| && CanFill(b, b.orders[i]) && PmccShape(b.orders[i], x) && LegsKnown(b, x)
    requires b.orders[i].orderType.BuyToOpen? ==> b.orders[i].contract.value !in LegsBy(b, x, SellToOpen)
    requires b.orders[i].orderType.SellToOpen? ==> b.orders[i].contract.value !in LegsBy(b, x, BuyToOpen)
    ensures var o, b' := b.orders[i], Fill(b, i, price, now);
            var c, longs, shorts := o.contract.value, LegsBy(b, x, BuyToOpen), LegsBy(b, x, SellToOpen);
            && LegsKnown(b', x) && longs !! shorts
            && (o.orderType.BuyToClose? || o.orderType.SellToClose? ==> c in longs + shorts)
            && LegsBy(b', x, BuyToOpen) == (if o.orderType.BuyToOpen? then longs + {c} else longs - {c})
            && LegsBy(b', x, SellToOpen) == (if o.orderType.SellToOpen? then shorts + {c} else shorts - {c})
  {
  }

  lemma FillTracked(w0: Desk, w: Desk, x: string, k: nat, price: real, at: int)
    requires Tracked(w0, w, x, k, false) && |w.b.orders| > |w0.b.orders| && at >= w.clock
    requires CanFill(w.b, w.b.orders[|w.b.orders| - 1])
    ensures Tracked(w0, Desk(Fill(w.b, |w.b.orders| - 1, price, at), w.d, at), x, k, false)
  {
    hide FindPosition, HasInflight, FindClient, Accounts, Replay, Framed, AllLinked, ApplyFill, Dated, Pointed, LegsBy,
         LegsKnown;
    var n := |w.b.orders| - 1;
    PlacedBefore(w0, w, x, k);
    FillOrder(w.b, n, price, at);
    var o, b := w.b.orders[n], Fill(w.b, n, price, at);
    var o' := b.orders[n];
    EndedLinks(w0, w, b, x, k, o');
    LastFits(w0, w, x, k);
    FillLegs(w.b, n, x, price, at);
    EyeFilled(EyeOf(w0, w, x, k), o, o', o.contract.value);
    EndedTracked(w0, w, b, x, k, o', at);
  }

  lemma FillOrder(b: BrokerState, i: nat, price: real, now: int)
    requires i < |b.orders| && Working(b.orders[i].status) && now >= b.orders[i].placedAt
    ensures var b', o := Fill(b, i, price, now), b.orders[i];
            |b'.orders| == |b.orders| && b'.orders == b.orders[i := b'.orders[i]] && Ended(o, b'.orders[i])
              && b'.orders[i].status.Filled?
  {
    hide ApplyLegs;
  }

  lemma PlacedBefore(w0: Desk, w: Desk, x: string, k: nat)
    requires Tracked(w0, w, x, k, false) && |w.b.orders| > |w0.b.orders|
    ensures w.b.orders[|w.b.orders| - 1].placedAt <= w.clock
  {
    hide FindPosition, HasInflight, FindClient, Accounts, StateFits, Replay, LegsBy, LegsKnown, PmccShape;
    assert Linked(w0, w, x, |w.b.orders| - 1);
  }

  lemma LastFits(w0: Desk, w: Desk, x: string, k: nat)
    requires Framed(w0, w, x, k) && AllLinked(w0, w, x) && |w.b.orders| > |w0.b.orders|
    ensures OrderFits(w.b.orders[|w.b.orders| - 1], |w.b.orders| - 1, x)
  {
    assert Linked(w0, w, x, |w.b.orders| - 1);
  }

  // ---- What the tables do with a view ----

  /** Rewriting the untagged row j into r, tagged `cy`: that cycle gains r's flow, no other cycle moves. */
  lemma TagPnl(rows: seq<Order>, j: nat, r: Order, cy: nat)
    requires j < |rows| && rows[j].cycle.None? && r.cycle == Some(cy)
    ensures FlowSum(Tagged(rows[j := r], cy)) == FlowSum(Tagged(rows, cy)) + Flow(r)
    ensures forall c: nat :: c != cy ==> Tagged(rows[j := r], c) == Tagged(rows, c)
  {
    var a, b := rows[..j], rows[j + 1..];
    TaggedRewrite(rows, j, r, cy);
    FlowSumConcat(Tagged(a, cy), Tagged(b, cy));
    FlowSumConcat(Tagged(a, cy) + [r], Tagged(b, cy));
    FlowSumConcat(Tagged(a, cy), [r]);
    FlowSumOne(r);
    forall c: nat | c != cy ensures Tagged(rows[j := r], c) == Tagged(rows, c) {
      TaggedRewrite(rows, j, r, c);
      assert Tagged(a, c) + [] == Tagged(a, c);
    }
  }

  /** Rewriting an untagged row without tagging it changes no cycle. */
  lemma UntagPnl(rows: seq<Order>, j: nat, r: Order, c: nat)
    requires j < |rows| && rows[j].cycle.None? && r.cycle.None?
    ensures Tagged(rows[j := r], c) == Tagged(rows, c)
  {
    TaggedRewrite(rows, j, r, c);
    assert Tagged(rows[..j], c) + [] == Tagged(rows[..j], c);
  }

  lemma FlowIsDollars(r: Order, o: Order, x: string)
    requires PmccShape(o, x) && o.status.Filled? && o.fillPrice.Some?
    requires r == o.(cycle := r.cycle)
    ensures Flow(r) == Dollars(o)
  {
    var price, n := o.fillPrice.value, 100 * o.quantity;
    assert price * (-1 * 100 * o.quantity) as real == -(price * n as real);
  }

  lemma ReplayBooks(orders: seq<Order>, o: Order)
    requires o.status.Filled? && (!o.orderType.BuyToOpen? ==> |Replay(orders)| > 0)
    ensures Replay(orders + [o]) == Booking(Replay(orders), o)
  {
    hide Booking;
    assert (orders + [o])[..|orders|] == orders;
  }

  lemma OpenBooked(d: Db, d': Db, j: nat, r: Order, c: Cycle, c0: nat, x: string, spans: seq<Span>, o: Order)
    requires Accounts(c0, d, x, spans) && !Open(spans)
    requires j < |d.orders| && d.orders[j].cycle.None? && r.cycle == Some(|d.cycles|) && Flow(r) == Dollars(o)
    requires d'.orders == d.orders[j := r] && d'.cycles == d.cycles + [c]
    requires c.symbol == x && c.strategy == Some(PMCC) && c.endedAt.None? && c.finalPnl.None?
    requires o.orderType.BuyToOpen?
    ensures Accounts(c0, d', x, Booking(spans, o))
  {
    hide Flow, Dollars, Tagged;
    var cy := |d.cycles|;
    TagPnl(d.orders, j, r, cy);
    TaggedNone(d.orders, cy);
    assert FlowSum([]) == 0.0;
    forall m | 0 <= m <= |spans| ensures CycleFits(d', c0 + m, x, Booking(spans, o)[m]) {
      if m < |spans| { assert CycleFits(d, c0 + m, x, spans[m]); }
    }
  }

  lemma MoreBooked(d: Db, d': Db, j: nat, r: Order, c: Cycle, c0: nat, x: string, spans: seq<Span>, o: Order)
    requires Accounts(c0, d, x, spans) && Open(spans)
    requires var cy := |d.cycles| - 1;
             && j < |d.orders| && d.orders[j].cycle.None? && r.cycle == Some(cy) && Flow(r) == Dollars(o)
             && d'.orders == d.orders[j := r] && d'.cycles == d.cycles[cy := c]
             && c.symbol == x && c.strategy == Some(PMCC)
             && (if o.orderType.SellToClose?
                 then c.endedAt.Some? && c.finalPnl == Some(CyclePnl(d', cy))
                      && (c.outcome == Some(PmccFullClosed) || c.outcome == Some(PmccLongRolled))
                 else c.endedAt.None? && c.finalPnl.None?)
    requires !o.orderType.BuyToOpen?
    ensures Accounts(c0, d', x, Booking(spans, o))
  {
    hide Flow, Dollars, Tagged, FlowSum;
    var cy := |d.cycles| - 1;
    TagPnl(d.orders, j, r, cy);
    assert CycleFits(d, cy, x, spans[|spans| - 1]);
    forall m | 0 <= m < |spans| ensures CycleFits(d', c0 + m, x, Booking(spans, o)[m]) {
      assert CycleFits(d, c0 + m, x, spans[m]);
    }
  }

  lemma RestBooked(d: Db, d': Db, j: nat, r: Order, c0: nat, x: string, spans: seq<Span>)
    requires Accounts(c0, d, x, spans)
    requires j < |d.orders| && d.orders[j].cycle.None? && r.cycle.None?
    requires d'.orders == d.orders[j := r] && d'.cycles == d.cycles
    ensures Accounts(c0, d', x, spans)
  {
    forall m | 0 <= m < |spans| ensures CycleFits(d', c0 + m, x, spans[m]) {
      assert CycleFits(d, c0 + m, x, spans[m]);
      UntagPnl(d.orders, j, r, c0 + m);
    }
  }

  /** Same positions except row k's state and cycle pointer. */
  predicate OnlyRow(ps: seq<Position>, qs: seq<Position>, k: nat, state: PositionState, cycle: Option<nat>) {
    && k < |ps| == |qs|
    && qs[k] == ps[k].(state := state, cycle := cycle)
    && (forall m :: 0 <= m < |ps| && m != k ==> qs[m] == ps[m])
  }

  function StateAfter(t: OrderType): PositionState {
    match t
    case SellToOpen => PmccBothOpen
    case SellToClose => Idle
    case _ => PmccLongOpen
  }

  /** What OnPmccFill writes for a fill of the latest order. */
  lemma OpeningFillWrites(t: Tick, k: nat, j: nat, r: Order, o: Order, x: string, price: real,
                          now: int) returns (c: Cycle)
    requires PmccShape(r, x) && o.orderType == r.orderType && r.orderType.BuyToOpen? && r.cycle.None?
    requires k < |t.db.positions| && j < |t.db.orders| && t.db.orders[j] == o
    ensures var t', cy := OnPmccFill(t, Some(k), j, r, price, now), |t.db.cycles|;
            && t'.db.orders == t.db.orders[j := o.(cycle := Some(cy))]
            && OnlyRow(t.db.positions, t'.db.positions, k, PmccLongOpen, Some(cy))
            && t'.db.cycles == t.db.cycles + [c]
            && t'.sum.manual == t.sum.manual
    ensures c.symbol == x && c.strategy == Some(PMCC) && c.endedAt.None? && c.finalPnl.None?
  {
    var t' := OnPmccFill(t, Some(k), j, r, price, now);
    c := t'.db.cycles[|t.db.cycles|];
  }

  lemma LaterFillWrites(t: Tick, k: nat, j: nat, r: Order, o: Order, x: string, price: real,
                        now: int) returns (c: Cycle)
    requires PmccShape(r, x) && o.orderType == r.orderType && !r.orderType.BuyToOpen? && r.cycle.None?
    requires k < |t.db.positions| && j < |t.db.orders| && t.db.orders[j] == o
    requires |t.db.cycles| > 0 && t.db.positions[k].cycle == Some(|t.db.cycles| - 1)
    requires t.db.cycles[|t.db.cycles| - 1].endedAt.None?
    ensures var t', cy := OnPmccFill(t, Some(k), j, r, price, now), |t.db.cycles| - 1;
            && t'.db.orders == t.db.orders[j := o.(cycle := Some(cy))]
            && OnlyRow(t.db.positions, t'.db.positions, k, StateAfter(r.orderType),
                       if r.orderType.SellToClose? then None else Some(cy))
            && t'.db.cycles == t.db.cycles[cy := c]
            && t'.sum.manual == t.sum.manual
            && (r.orderType.SellToClose? ==> c.finalPnl == Some(CyclePnl(t'.db, cy)))
    ensures var c0 := t.db.cycles[|t.db.cycles| - 1];
            && c.symbol == c0.symbol && c.strategy == c0.strategy
            && if r.orderType.SellToClose?
               then c.endedAt.Some? && (c.outcome == Some(PmccFullClosed) || c.outcome == Some(PmccLongRolled))
               else c == c0
  {
    hide Tagged, FlowSum;
    var t' := OnPmccFill(t, Some(k), j, r, price, now);
    c := t'.db.cycles[|t.db.cycles| - 1];
    if !r.orderType.SellToClose? { assert t.db.cycles[|t.db.cycles| - 1 := c] == t.db.cycles; }
  }

  lemma CancelWrites(t: Tick, k: nat, r: Order, x: string, now: int)
    requires PmccShape(r, x) && FindPosition(t.db.positions, x, Some(PMCC)) == Some(k) && k < |t.db.positions|
    ensures var t', s := OnCancel(t, r, now), t.db.positions[k].state;
            && t'.db.orders == t.db.orders && t'.db.cycles == t.db.cycles && t'.sum.manual == t.sum.manual
            && OnlyRow(t.db.positions, t'.db.positions, k,
                       if RestoredState(r, s).Some? then RestoredState(r, s).value else s, t.db.positions[k].cycle)
  {
  }

  lemma SettleLinks(w0: Desk, w: Desk, d: Db, x: string, k: nat, r: Order)
    requires Framed(w0, w, x, k) && AllLinked(w0, w, x) && Work(w0, w).Some?
    requires d.orders == w.d.orders[|w.d.orders| - 1 := r] && !Working(r.status)
    requires RowFits(r, w.b.orders[|w.b.orders| - 1], true)
    ensures |d.orders| - |w0.d.orders| == |w.b.orders| - |w0.b.orders|
    ensures AllLinked(w0, w.(d := d), x)
    ensures Work(w0, w.(d := d)).None?
    ensures Seen(w0, w.(d := d)) == Seen(w0, w) + [w.b.orders[|w.b.orders| - 1]]
    ensures d.orders[..|w0.d.orders|] == w0.d.orders
  {
    hide FindPosition, HasInflight, PmccShape;
    var w' := w.(d := d);
    assert Linked(w0, w, x, |w.b.orders| - 1);
    forall i | |w0.b.orders| <= i < |w.b.orders| ensures Linked(w0, w', x, i) {
      assert Linked(w0, w, x, i);
      FindClientStable(w.d.orders, d.orders, w.b.orders[i].clientId.value);
    }
    assert d.orders[..|w0.d.orders|] == w.d.orders[..|w0.d.orders|];
  }

  lemma SettleTracked(w0: Desk, w: Desk, d: Db, x: string, k: nat, r: Order, state: PositionState, cycle: Option<nat>)
    requires Tracked(w0, w, x, k, true) && Work(w0, w).Some?
    requires d.orders == w.d.orders[|w.d.orders| - 1 := r] && !Working(r.status)
    requires RowFits(r, w.b.orders[|w.b.orders| - 1], true)
    requires OnlyRow(w.d.positions, d.positions, k, state, cycle)
    requires var spans := Replay(Seen(w0, w) + [w.b.orders[|w.b.orders| - 1]]);
             && Accounts(|w0.d.cycles|, d, x, spans)
             && cycle == (if Open(spans) && |d.cycles| > 0 then Some(|d.cycles| - 1) else None)
             && StateFits(EyeOf(w0, w, x, k).(state := state, open := Open(spans), work := None), true)
    requires state.PmccShortPending? ==> r.orderType.SellToOpen? && !r.status.Filled?
    requires |d.cycles| >= |w0.d.cycles| && d.cycles[..|w0.d.cycles|] == w0.d.cycles
    ensures Tracked(w0, w.(d := d), x, k, true) && Work(w0, w.(d := d)).None?
  {
    hide HasInflight, Accounts, StateFits, Replay, Linked, LegsBy, LegsKnown, FindPosition, FindClient, RowFits;
    SettleLinks(w0, w, d, x, k, r);
    FindPositionKeys(w.d.positions, d.positions, x, Some(PMCC));
    assert r.placedAt == w.b.orders[|w.b.orders| - 1].placedAt == w.d.orders[|w.d.orders| - 1].placedAt
           by { LastRow(w0, w, x, k, r); }
  }

  lemma LastRow(w0: Desk, w: Desk, x: string, k: nat, r: Order)
    requires Framed(w0, w, x, k) && AllLinked(w0, w, x) && Work(w0, w).Some?
    requires RowFits(r, w.b.orders[|w.b.orders| - 1], true)
    ensures r.placedAt == w.b.orders[|w.b.orders| - 1].placedAt == w.d.orders[|w.d.orders| - 1].placedAt
  {
    assert Linked(w0, w, x, |w.b.orders| - 1);
  }

  // ---- A view at a time ----

  lemma SeenView(cfg: Config, w0: Desk, w: Desk, x: string, k: nat, t: Tick, i: nat, now: int)
    requires Framed(w0, w, x, k) && AllLinked(w0, w, x) && t.db == w.d && |w0.b.orders| <= i < |w.b.orders|
    requires i == |w.b.orders| - 1 && Work(w0, w).Some? ==> Working(w.b.orders[i].status)
    ensures ProcessOrder(cfg, t, w.b.orders[i], now) == t
  {
    hide FindPosition, HasInflight, FindClient, PmccShape, OnFill, OnCancel, FlagManual;
    assert Linked(w0, w, x, i);
    var j, o := RowIx(w0, i), w.b.orders[i];
    if i == |w.b.orders| - 1 { assert w.d.orders[j] == w.d.orders[|w.d.orders| - 1]; }
    assert Refresh(w.d.orders[j], o) == w.d.orders[j];
    assert w.d.orders[j := w.d.orders[j]] == w.d.orders;
  }

  /** The latest order's view after it ended: its row is rewritten and handed on. */
  lemma EndedView(cfg: Config, w0: Desk, w: Desk, x: string, k: nat, t: Tick, now: int)
    requires Framed(w0, w, x, k) && AllLinked(w0, w, x) && t.db == w.d && Work(w0, w).Some?
    requires !Working(w.b.orders[|w.b.orders| - 1].status)
    ensures var o, j := w.b.orders[|w.b.orders| - 1], |w.d.orders| - 1;
            && OrderFits(o, |w.b.orders| - 1, x)
            && RowFits(o, o, true) && w.d.orders[j] == o.(status := Pending, fillPrice := None, filledAt := None)
            && var t1 := t.(db := SetOrder(t.db, j, o));
               ProcessOrder(cfg, t, o, now)
               == if o.status.Filled? then OnFill(cfg, t1, j, w.d.orders[j], o, now)
                 else OnCancel(t1, w.d.orders[j], now)
  {
    hide FindPosition, HasInflight, FindClient, PmccShape, OnFill, OnCancel, FlagManual;
    var n := |w.b.orders| - 1;
    assert Linked(w0, w, x, n);
    var j, o := RowIx(w0, n), w.b.orders[n];
    assert j == |w.d.orders| - 1;
    assert Refresh(w.d.orders[j], o) == o;
  }

  lemma CancelledTracked(cfg: Config, w0: Desk, w: Desk, x: string, k: nat, t: Tick, now: int)
    requires Tracked(w0, w, x, k, true) && t.db == w.d && Work(w0, w).Some?
    requires w.b.orders[|w.b.orders| - 1].status.Cancelled?
    ensures var t' := ProcessOrder(cfg, t, w.b.orders[|w.b.orders| - 1], now);
            Tracked(w0, w.(d := t'.db), x, k, true) && t'.sum.manual == t.sum.manual && Work(w0, w.(d := t'.db)).None?
  {
    hide HasInflight, Accounts, Replay, Linked, LegsBy, LegsKnown, FindPosition, FindClient, ProcessOrder, OnCancel,
         Dated, Open;
    EndedView(cfg, w0, w, x, k, t, now);
    var o, j := w.b.orders[|w.b.orders| - 1], |w.d.orders| - 1;
    var r := w.d.orders[j];
    var t1 := t.(db := SetOrder(t.db, j, o));
    CancelWrites(t1, k, r, x, now);
    var t' := OnCancel(t1, r, now);
    ReplayIgnores(Seen(w0, w), o);
    RestBooked(w.d, t'.db, j, o, |w0.d.cycles|, x, Replay(Seen(w0, w)));
    EyeCancelled(EyeOf(w0, w, x, k), o);
    SettleTracked(w0, w, t'.db, x, k, o, t'.db.positions[k].state, w.d.positions[k].cycle);
  }

  lemma EyeCancelled(v: Eye, o: Order)
    requires StateFits(v, true) && v.work == Some(o) && o.status.Cancelled? && OptionTypeOf(o) == Some(Call)
    ensures var r := o.(status := Pending, fillPrice := None, filledAt := None);
            var s := if RestoredState(r, v.state).Some? then RestoredState(r, v.state).value else v.state;
            && StateFits(v.(state := s, work := None), true)
            && (s.PmccShortPending? ==> o.orderType.SellToOpen?)
  {
  }

  lemma EyeSettled(v: Eye, o: Order, open: bool)
    requires StateFits(v, true) && v.work == Some(o) && o.status.Filled?
    requires open == !o.orderType.SellToClose?
    ensures v.open == !o.orderType.BuyToOpen?
    ensures o.orderType.BuyToOpen? || o.orderType.SellToOpen? || o.orderType.BuyToClose? || o.orderType.SellToClose?
    ensures StateFits(v.(state := StateAfter(o.orderType), open := open, work := None), true)
  {
    if v.state.PmccShortPending? { OneAtMost(v.shorts, v.work.value.contract.value); }
  }

  lemma OneAtMost<T>(s: set<T>, c: T)
    requires s <= {c}
    ensures |s| <= 1
  {
    if c in s { assert s == {c}; } else { assert s == {}; }
  }

  lemma BookingOpen(spans: seq<Span>, o: Order)
    requires Open(spans) == !o.orderType.BuyToOpen?
    ensures Open(Booking(spans, o)) == !o.orderType.SellToClose? && |Booking(spans, o)| > 0
  {
    hide Dollars;
  }

  lemma LatestCycle(d: Db, c0: nat, x: string, spans: seq<Span>)
    requires Accounts(c0, d, x, spans) && Open(spans)
    ensures |d.cycles| > c0 && d.cycles[|d.cycles| - 1].endedAt.None? && d.cycles[|d.cycles| - 1].finalPnl.None?
    ensures d.cycles[|d.cycles| - 1].symbol == x && d.cycles[|d.cycles| - 1].strategy == Some(PMCC)
  {
    hide CyclePnl;
    assert CycleFits(d, c0 + |spans| - 1, x, spans[|spans| - 1]);
  }

  /** The account after a fill: the cycles again say what the broker's account says. */
  lemma FillBooked(d: Db, t: Tick, k: nat, o: Order, c0: nat, x: string, spans: seq<Span>, now: int)
    requires Accounts(c0, d, x, spans) && o.brokerId.Some? && OrderFits(o, o.brokerId.value, x) && o.status.Filled?
    requires |d.orders| > 0 && k < |d.positions|
    requires t.db == SetOrder(d, |d.orders| - 1, o)
    requires d.orders[|d.orders| - 1] == o.(status := Pending, fillPrice := None, filledAt := None)
    requires d.positions[k].cycle == if Open(spans) && |d.cycles| > 0 then Some(|d.cycles| - 1) else None
    requires Open(spans) == !o.orderType.BuyToOpen?
    requires o.orderType.BuyToOpen? || o.orderType.SellToOpen? || o.orderType.BuyToClose? || o.orderType.SellToClose?
    ensures var t' := OnPmccFill(t, Some(k), |d.orders| - 1, d.orders[|d.orders| - 1], o.fillPrice.value, now);
            && Accounts(c0, t'.db, x, Booking(spans, o))
            && (exists r :: t'.db.orders == d.orders[|d.orders| - 1 := r] && RowFits(r, o, true) && r.status.Filled?)
            && OnlyRow(d.positions, t'.db.positions, k, StateAfter(o.orderType),
                       if Open(Booking(spans, o)) then Some(|t'.db.cycles| - 1) else None)
            && |t'.db.cycles| >= c0 && t'.db.cycles[..c0] == d.cycles[..c0]
            && t'.sum.manual == t.sum.manual
            && Open(Booking(spans, o)) == !o.orderType.SellToClose?
  {
    hide OnPmccFill, Flow, Dollars, CyclePnl, Booking, CycleFits;
    BookingOpen(spans, o);
    var j := |d.orders| - 1;
    var t' := OnPmccFill(t, Some(k), j, d.orders[j], o.fillPrice.value, now);
    if o.orderType.BuyToOpen? {
      var c := OpeningFillWrites(t, k, j, d.orders[j], o, x, o.fillPrice.value, now);
      var r := o.(cycle := Some(|d.cycles|));
      FlowIsDollars(r, o, x);
      assert t'.db.orders == d.orders[j := r];
      OpenBooked(d, t'.db, j, r, c, c0, x, spans, o);
    } else {
      LatestCycle(d, c0, x, spans);
      var c := LaterFillWrites(t, k, j, d.orders[j], o, x, o.fillPrice.value, now);
      var r := o.(cycle := Some(|d.cycles| - 1));
      FlowIsDollars(r, o, x);
      assert t'.db.orders == d.orders[j := r];
      MoreBooked(d, t'.db, j, r, c, c0, x, spans, o);
    }
  }

  lemma FilledTracked(cfg: Config, w0: Desk, w: Desk, x: string, k: nat, t: Tick, now: int)
    requires Tracked(w0, w, x, k, true) && t.db == w.d && Work(w0, w).Some?
    requires w.b.orders[|w.b.orders| - 1].status.Filled?
    ensures var t' := ProcessOrder(cfg, t, w.b.orders[|w.b.orders| - 1], now);
            Tracked(w0, w.(d := t'.db), x, k, true) && t'.sum.manual == t.sum.manual && Work(w0, w.(d := t'.db)).None?
  {
    hide HasInflight, CycleFits, Replay, Linked, LegsBy, LegsKnown, FindPosition, FindClient, ProcessOrder, OnPmccFill,
         Dated, StateFits;
    EndedView(cfg, w0, w, x, k, t, now);
    var o, j := w.b.orders[|w.b.orders| - 1], |w.d.orders| - 1;
    var r, spans := w.d.orders[j], Replay(Seen(w0, w));
    var t1 := t.(db := SetOrder(t.db, j, o), sum := t.sum.(fills := t.sum.fills + [j]));
    var price := o.fillPrice.value;
    var t' := OnPmccFill(t1, Some(k), j, r, price, now);
    assert ProcessOrder(cfg, t, o, now) == t';
    EyeSettled(EyeOf(w0, w, x, k), o, !o.orderType.SellToClose?);
    ReplayBooks(Seen(w0, w), o);
    FillBooked(w.d, t1, k, o, |w0.d.cycles|, x, spans, now);
    assert t'.db.cycles[..|w0.d.cycles|] == w0.d.cycles;
    SettleTracked(w0, w, t'.db, x, k, t'.db.orders[j], t'.db.positions[k].state, t'.db.positions[k].cycle);
  }

  /** Once the latest order has ended at the broker and been viewed, or was settled before, it is settled. */
  predicate Settling(w0: Desk, w: Desk, d: Db, views: seq<Order>) {
    Work(w0, w).None? || (|w.b.orders| > |w0.b.orders| && !Working(w.b.orders[|w.b.orders| - 1].status)
                          && w.b.orders[|w.b.orders| - 1] in views)
    ==> Work(w0, w.(d := d)).None?
  }

  lemma {:induction false} ViewsTracked(cfg: Config, w0: Desk, w: Desk, x: string, k: nat, t: Tick, views: seq<Order>,
                                        now: int)
    requires Tracked(w0, w, x, k, true) && t.db == w.d
    requires forall v :: v in views ==> exists i :: |w0.b.orders| <= i < |w.b.orders| && w.b.orders[i] == v
    ensures var t' := ProcessOrders(cfg, t, views, now);
            Tracked(w0, w.(d := t'.db), x, k, true) && t'.sum.manual == t.sum.manual && Settling(w0, w, t'.db, views)
  {
    hide Tracked, ProcessOrder, Work;
    if |views| > 0 {
      var n := |views| - 1;
      assert forall v :: v in views[..n] ==> v in views;
      ViewsTracked(cfg, w0, w, x, k, t, views[..n], now);
      var t1 := ProcessOrders(cfg, t, views[..n], now);
      assert views[n] in views;
      var i :| |w0.b.orders| <= i < |w.b.orders| && w.b.orders[i] == views[n];
      ViewTracked(cfg, w0, w.(d := t1.db), x, k, t1, i, now);
    }
  }

  lemma OneOrder(w0: Desk, w: Desk, x: string, k: nat, i: nat)
    requires Framed(w0, w, x, k) && AllLinked(w0, w, x) && |w0.b.orders| <= i < |w.b.orders|
    ensures w.b.orders[i] == w.b.orders[|w.b.orders| - 1] ==> i == |w.b.orders| - 1
  {
    hide PmccShape, RowFits, FindClient, FindPosition, HasInflight;
    assert Linked(w0, w, x, i) && Linked(w0, w, x, |w.b.orders| - 1);
  }

  lemma ViewTracked(cfg: Config, w0: Desk, w: Desk, x: string, k: nat, t: Tick, i: nat, now: int)
    requires Tracked(w0, w, x, k, true) && t.db == w.d && |w0.b.orders| <= i < |w.b.orders|
    ensures var t' := ProcessOrder(cfg, t, w.b.orders[i], now);
            Tracked(w0, w.(d := t'.db), x, k, true) && t'.sum.manual == t.sum.manual
              && Settling(w0, w, t'.db, [w.b.orders[i]])
  {
    hide HasInflight, Accounts, Replay, Linked, LegsBy, LegsKnown, FindPosition, FindClient, ProcessOrder, Dated,
         StateFits, Framed;
    if i == |w.b.orders| - 1 && Work(w0, w).Some? && !Working(w.b.orders[i].status) {
      LastFits(w0, w, x, k);
      if w.b.orders[i].status.Filled? {
        FilledTracked(cfg, w0, w, x, k, t, now);
      } else {
        CancelledTracked(cfg, w0, w, x, k, t, now);
      }
    } else {
      SeenView(cfg, w0, w, x, k, t, i, now);
      OneOrder(w0, w, x, k, i);
    }
  }

  // ---- The sweep of the position's row ----

  lemma {:induction false} NoSharesIn(rows: seq<BrokerRow>, x: string)
    requires forall i :: 0 <= i < |rows| && rows[i].symbol == x ==> rows[i].shares == 0
    ensures SharesIn(rows, x) == 0
  {
    if |rows| > 0 { NoSharesIn(rows[..|rows| - 1], x); }
  }

  /** The broker shows a CC_OPEN row exactly when a short call is live; the long raises no flag. */
  lemma AlpacaShape(b: BrokerState, x: string, ks: seq<string>, cs: seq<Contract>)
    requires LegsKnown(b, x) && Enumerates(ks, b.stock.Keys) && Enumerates(cs, b.options.Keys)
    ensures var shape := ShapeOf(AlpacaRows(b, ks, cs), x);
            !shape.shares && !shape.shortPut && (shape.shortCall <==> LegsBy(b, x, SellToOpen) != {})
  {
    var rows := AlpacaRows(b, ks, cs);
    forall i | 0 <= i < |ks| ensures rows[i].symbol != x {
      assert rows[i] == StockRow(b, ks[i]) && ks[i] in b.stock.Keys;
    }
    forall i | 0 <= i < |rows| && rows[i].symbol == x
      ensures rows[i].shares == 0 && !rows[i].state.SharesHeld? && !rows[i].state.CspOpen?
      ensures rows[i].state.CcOpen? ==> LegsBy(b, x, SellToOpen) != {}
    {
      if i >= |ks| {
        var c := cs[i - |ks|];
        assert rows[i] == AlpacaRow(b, c);
        if rows[i].state.CcOpen? { assert c in LegsBy(b, x, SellToOpen); }
      }
    }
    NoSharesIn(rows, x);
    if LegsBy(b, x, SellToOpen) != {} {
      var c :| c in LegsBy(b, x, SellToOpen);
      assert c in cs;
      var m :| 0 <= m < |cs| && cs[m] == c;
      assert rows[|ks| + m] == AlpacaRow(b, c);
    }
  }

  lemma {:induction false} LatestIsLast(rows: seq<Order>, x: string, ty: OrderType)
    requires |rows| > 0
    requires var r := rows[|rows| - 1];
             r.symbol == x && r.strategy == Some(PMCC) && r.orderType == ty
             && OptionTypeOf(r) == Some(Call)
    requires forall j :: 0 <= j < |rows| - 1 ==> rows[j].placedAt < rows[|rows| - 1].placedAt
    ensures LatestCallOrder(rows, x, PMCC, ty) == Some(|rows| - 1)
  {
  }

  lemma SweptEye(v: Eye)
    requires StateFits(v, true)
    ensures (v.state.PmccBothOpen? && v.shorts == {}) || (v.state.PmccShortPending? && v.work.None?)
            ==> StateFits(v.(state := PmccLongOpen), false)
    ensures !(v.state.PmccShortPending? && v.work.None?) ==> StateFits(v, false)
  {
  }

  predicate Restates(d: Db, d': Db, k: nat) {
    && d'.orders == d.orders && d'.cycles == d.cycles && k < |d.positions|
    && OnlyRow(d.positions, d'.positions, k, PmccLongOpen, d.positions[k].cycle)
  }

  lemma RestatedTracked(w0: Desk, w: Desk, d: Db, x: string, k: nat)
    requires Tracked(w0, w, x, k, true) && Restates(w.d, d, k)
    requires StateFits(EyeOf(w0, w, x, k).(state := PmccLongOpen), false)
    ensures Tracked(w0, w.(d := d), x, k, false)
  {
    hide HasInflight, StateFits, Replay, LegsBy, LegsKnown, FindPosition, FindClient, PmccShape;
    var w' := w.(d := d);
    FindPositionKeys(w.d.positions, d.positions, x, Some(PMCC));
    forall i | |w0.b.orders| <= i < |w'.b.orders| ensures Linked(w0, w', x, i) { assert Linked(w0, w, x, i); }
    assert Work(w0, w') == Work(w0, w);
    assert Seen(w0, w') == Seen(w0, w);
    SameAccounts(|w0.d.cycles|, w.d, d, x, Replay(Seen(w0, w)));
  }

  lemma SameAccounts(c0: nat, d: Db, d': Db, x: string, spans: seq<Span>)
    requires Accounts(c0, d, x, spans) && d'.orders == d.orders && d'.cycles == d.cycles
    ensures Accounts(c0, d', x, spans)
  {
    forall m | 0 <= m < |spans| ensures CycleFits(d', c0 + m, x, spans[m]) { assert CycleFits(d, c0 + m, x, spans[m]); }
  }

  lemma SweepTracked(w0: Desk, w: Desk, x: string, k: nat, t: Tick, shape: Shape, now: int)
    requires Tracked(w0, w, x, k, true) && t.db == w.d
    requires !shape.shares && (shape.shortCall <==> LegsBy(w.b, x, SellToOpen) != {})
    ensures k < |t.db.positions|
    ensures var t' := DiffOne(t, k, t.db.positions[k], shape, now);
            && Tracked(w0, w.(d := t'.db), x, k, false) && t'.sum.manual == t.sum.manual
            && t'.db.orders == t.db.orders
            && (t'.db.positions[k].state.PmccBothOpen? ==> LegsBy(w.b, x, SellToOpen) != {})
  {
    hide HasInflight, Accounts, Replay, Linked, LegsBy, LegsKnown, FindPosition, FindClient, StateFits, Pointed,
         AllLinked, Seen, Open;
    var v, p := EyeOf(w0, w, x, k), w.d.positions[k];
    InflightIsWork(w0, w, x, k);
    SweptEye(v);
    StatesPossible(v);
    var t' := DiffOne(t, k, p, shape, now);
    if p.state.PmccShortPending? && v.work.None? {
      HealedShort(w0, w, x, k);
      RestatedTracked(w0, w, t'.db, x, k);
    } else if p.state.PmccBothOpen? && !shape.shortCall {
      RestatedTracked(w0, w, t'.db, x, k);
    } else {
      assert t' == t;
      Swept(w0, w, x, k);
    }
  }

  lemma StatesPossible(v: Eye)
    requires StateFits(v, true)
    ensures v.state.Idle? || v.state.PmccLongPending? || v.state.PmccLongOpen? || v.state.PmccShortPending?
            || v.state.PmccBothOpen? || v.state.PmccClosing?
    ensures v.state.PmccLongPending? ==> v.work.Some?
  {
  }

  lemma Swept(w0: Desk, w: Desk, x: string, k: nat)
    requires Tracked(w0, w, x, k, true) && StateFits(EyeOf(w0, w, x, k), false)
    ensures Tracked(w0, w, x, k, false)
  {
    hide Framed, AllLinked, Accounts, Pointed, StateFits, LegsKnown, Dated;
  }

  lemma HealedShort(w0: Desk, w: Desk, x: string, k: nat)
    requires Tracked(w0, w, x, k, true) && w.d.positions[k].state.PmccShortPending? && Work(w0, w).None?
    ensures LatestCallOrder(w.d.orders, x, PMCC, SellToOpen) == Some(|w.d.orders| - 1)
    ensures !w.d.orders[|w.d.orders| - 1].status.Filled?
  {
    hide HasInflight, Accounts, Replay, LegsBy, LegsKnown, FindPosition, FindClient, StateFits, Pointed;
    assert Linked(w0, w, x, |w.b.orders| - 1);
    LatestIsLast(w.d.orders, x, SellToOpen);
  }

  // ---- A stale buyback ----

  lemma BuybackEye(v: Eye, o: Order)
    requires StateFits(v, true) && v.work == Some(o) && o.orderType.BuyToClose?
    ensures v.state.PmccLongOpen? || v.state.PmccBothOpen?
  {
  }

  lemma BuybackRow(w0: Desk, w: Desk, x: string, k: nat)
    requires Framed(w0, w, x, k) && AllLinked(w0, w, x) && |w.d.orders| > |w0.d.orders|
    requires Working(w.d.orders[|w.d.orders| - 1].status)
    ensures var n, r := |w.b.orders| - 1, w.d.orders[|w.d.orders| - 1];
            && |w.b.orders| > |w0.b.orders| && r.brokerId == Some(n) && Work(w0, w) == Some(w.b.orders[n])
            && r == w.b.orders[n].(status := Pending, fillPrice := None, filledAt := None)
            && (!w.b.orders[n].status.Filled? ==> r.(status := w.b.orders[n].status) == w.b.orders[n])
  {
    hide FindPosition, HasInflight, FindClient, PmccShape;
    assert Linked(w0, w, x, |w.b.orders| - 1);
  }

  /** The router cancels a stale buyback on both sides, or leaves it alone if the broker refuses. */
  lemma ReplaceTracked(cfg: Config, w0: Desk, w: Desk, x: string, k: nat, at: int)
    requires Tracked(w0, w, x, k, false) && at >= w.clock && |w.d.orders| > |w0.d.orders|
    requires var r := w.d.orders[|w.d.orders| - 1]; r.orderType.BuyToClose? && Working(r.status)
    ensures var (b, d) := CancelStale(w.b, w.d, |w.d.orders| - 1); Tracked(w0, Desk(b, d, at), x, k, false)
  {
    hide HasInflight, Accounts, Replay, LegsBy, LegsKnown, FindPosition, FindClient, Dated, StateFits, Pointed,
         PmccShape, AllLinked, Framed, Healable, Tracked;
    var n, j := |w.b.orders| - 1, |w.d.orders| - 1;
    TrackedParts(w0, w, x, k, false);
    BuybackRow(w0, w, x, k);
    if Working(w.b.orders[n].status) {
      var w1 := Desk(Cancel(w.b, n), w.d, at);
      DropTracked(w0, w, x, k, at);
      Loosened(w0, w1, x, k);
      CancelledBuyback(w0, w1, x, k);
    } else {
      TimeTracked(w0, w, x, k, at);
    }
  }

  /** The tables after the cancel are those the reconciler's own view of it would leave. */
  lemma CancelledBuyback(w0: Desk, w: Desk, x: string, k: nat)
    requires Tracked(w0, w, x, k, true) && |w.d.orders| > |w0.d.orders|
    requires var r := w.d.orders[|w.d.orders| - 1]; r.orderType.BuyToClose? && Working(r.status)
    requires |w.b.orders| > 0 && w.b.orders[|w.b.orders| - 1].status.Cancelled?
    ensures var j := |w.d.orders| - 1;
            Tracked(w0, w.(d := SetOrder(w.d, j, w.d.orders[j].(status := Cancelled))), x, k, false)
  {
    hide HasInflight, Accounts, Replay, LegsBy, LegsKnown, FindPosition, FindClient, Dated, StateFits, AllLinked,
         Healable;
    TrackedParts(w0, w, x, k, true);
    BuybackRow(w0, w, x, k);
    LastFits(w0, w, x, k);
    var j, o, p := |w.d.orders| - 1, w.b.orders[|w.b.orders| - 1], w.d.positions[k];
    var d := SetOrder(w.d, j, w.d.orders[j].(status := Cancelled));
    assert d.orders == w.d.orders[j := o];
    var v := EyeOf(w0, w, x, k);
    BuybackEye(v, o);
    EyeCancelled(v, o);
    ReplayIgnores(Seen(w0, w), o);
    RestBooked(w.d, d, j, o, |w0.d.cycles|, x, Replay(Seen(w0, w)));
    SettleTracked(w0, w, d, x, k, o, p.state, p.cycle);
    TrackedParts(w0, w.(d := d), x, k, true);
    SweptEye(EyeOf(w0, w.(d := d), x, k));
    Swept(w0, w.(d := d), x, k);
  }

  // ---- Every run ----

  lemma LookTracked(cfg: Config, w0: Desk, w: Desk, x: string, k: nat, views: seq<Order>, ks: seq<string>,
                    cs: seq<Contract>, at: int)
    requires Tracked(w0, w, x, k, false) && at >= w.clock
    requires forall v :: v in views ==> exists i :: |w0.b.orders| <= i < |w.b.orders| && w.b.orders[i] == v
    requires Enumerates(ks, w.b.stock.Keys) && Enumerates(cs, w.b.options.Keys)
    ensures var t := Look1(cfg, w, x, views, AlpacaRows(w.b, ks, cs), at);
            && Tracked(w0, Desk(w.b, t.db, at), x, k, false) && t.sum.manual == 0
            && t.db.orders == ProcessOrders(cfg, Tick(w.d, ZeroSummary), views, at).db.orders
            && Settling(w0, w, t.db, views)
            && (t.db.positions[k].state.PmccBothOpen? ==> LegsBy(w.b, x, SellToOpen) != {})
  {
    hide Tracked, ProcessOrders, DiffOne, AlpacaRows, Enumerates, ShapeOf;
    Loosened(w0, w, x, k);
    var t0 := Tick(w.d, ZeroSummary);
    ViewsTracked(cfg, w0, w, x, k, t0, views, at);
    var t1 := ProcessOrders(cfg, t0, views, at);
    var w1 := w.(d := t1.db);
    TrackedParts(w0, w1, x, k, true);
    AlpacaShape(w.b, x, ks, cs);
    SweepTracked(w0, w1, x, k, t1, ShapeOf(AlpacaRows(w.b, ks, cs), x), at);
    var t2 := DiffOne(t1, k, t1.db.positions[k], ShapeOf(AlpacaRows(w.b, ks, cs), x), at);
    TimeTracked(w0, w.(d := t2.db), x, k, at);
  }

  lemma Loosened(w0: Desk, w: Desk, x: string, k: nat)
    requires Tracked(w0, w, x, k, false)
    ensures Tracked(w0, w, x, k, true)
  {
    hide Framed, AllLinked, Accounts, Pointed, LegsKnown, Dated, Healable;
  }

  lemma TrackedParts(w0: Desk, w: Desk, x: string, k: nat, healing: bool)
    requires Tracked(w0, w, x, k, healing)
    ensures Framed(w0, w, x, k) && AllLinked(w0, w, x) && LegsKnown(w.b, x)
    ensures k < |w.d.positions| && FindPosition(w.d.positions, x, Some(PMCC)) == Some(k)
    ensures Accounts(|w0.d.cycles|, w.d, x, Replay(Seen(w0, w))) && Pointed(w0, w, k)
    ensures StateFits(EyeOf(w0, w, x, k), healing)
  {
    hide AllLinked, Accounts, Pointed, LegsKnown, Dated, Healable, StateFits, Work;
  }

  lemma TimeTracked(w0: Desk, w: Desk, x: string, k: nat, at: int)
    requires Tracked(w0, w, x, k, false) && at >= w.clock
    ensures Tracked(w0, w.(clock := at), x, k, false)
  {
    hide FindPosition, HasInflight, FindClient, Accounts, StateFits, Replay, LegsBy, LegsKnown;
    var w' := w.(clock := at);
    forall i | |w0.b.orders| <= i < |w'.b.orders| ensures Linked(w0, w', x, i) { assert Linked(w0, w, x, i); }
    assert Work(w0, w') == Work(w0, w);
    assert Seen(w0, w') == Seen(w0, w);
  }

  lemma MoveTracked(cfg: Config, w0: Desk, w: Desk, x: string, k: nat, m: TimedMove)
    requires PMCC !in cfg.swing && Tracked(w0, w, x, k, false) && LegalMove(w0, w, x, m)
    ensures Tracked(w0, Moved(cfg, w0, w, x, m), x, k, false)
  {
    hide Tracked, LegalSubmit, CanFill, PlaceOrder, Fill, Cancel, CancelStale, Expire, Look1, Enumerates, AlpacaRows;
    match m.move {
      case Submit(o) => SubmitTracked(cfg, w0, w, x, k, o, m.at);
      case FillWorking(price) => FillTracked(w0, w, x, k, price, m.at);
      case DropWorking => DropTracked(w0, w, x, k, m.at);
      case ReplaceBuyback => ReplaceTracked(cfg, w0, w, x, k, m.at);
      case ShortExpires(c) => ExpireTracked(w0, w, x, k, c, m.at);
      case Look(views, ks, cs) => LookTracked(cfg, w0, w, x, k, views, ks, cs, m.at);
    }
  }

  lemma {:induction false} RunTracked(cfg: Config, w0: Desk, x: string, moves: seq<TimedMove>, k: nat)
    requires FlatStart(cfg, w0, x) && FindPosition(w0.d.positions, x, Some(PMCC)) == Some(k)
             && LegalMoves(cfg, w0, x, moves)
    ensures Tracked(w0, AfterMoves(cfg, w0, x, moves), x, k, false)
    decreases |moves|
  {
    hide Tracked, LegalMove, Moved;
    if |moves| == 0 {
      StartTracked(cfg, w0, x);
    } else {
      var n := |moves| - 1;
      RunTracked(cfg, w0, x, moves[..n], k);
      MoveTracked(cfg, w0, AfterMoves(cfg, w0, x, moves[..n]), x, k, moves[n]);
    }
  }

  // ---- The first diagonal on a symbol ----

  /** The same desk with a flat row for the pair where there was none. */
  function Seeded(w: Desk, x: string): Desk {
    if FindPosition(w.d.positions, x, Some(PMCC)).Some? then w
    else w.(d := InsertPosition(w.d, Position(x, PMCC, Idle, 0, None, None)))
  }

  /** `v` is the desk `w` of a run from w0, or w with the flat row while nothing has happened yet. */
  predicate Twins(w0: Desk, w: Desk, v: Desk, x: string) {
    w.clock >= w0.clock && (v == w || (w == w0.(clock := w.clock) && v == Seeded(w0, x).(clock := w.clock)))
  }

  lemma SeedFound(w: Desk, x: string)
    ensures var s := Seeded(w, x); var at := FindPosition(s.d.positions, x, Some(PMCC));
            && at == (if FindPosition(w.d.positions, x, Some(PMCC)).Some?
                      then FindPosition(w.d.positions, x, Some(PMCC))
                      else Some(|w.d.positions|))
            && at.Some? && at.value < |s.d.positions| && PairRow(s.d, x, PMCC) == PairRow(w.d, x, PMCC)
  {
    FindPositionSound(w.d.positions, x, Some(PMCC));
    var ps, flat := w.d.positions, Position(x, PMCC, Idle, 0, None, None);
    assert (ps + [flat])[..|ps|] == ps;
  }

  lemma SeedFlat(cfg: Config, w: Desk, x: string)
    requires FlatStart(cfg, w, x)
    ensures FlatStart(cfg, Seeded(w, x), x)
  {
    hide FindPosition, HasInflight;
    SeedFound(w, x);
  }

  /** The first submission inserts the very row that the flat one becomes. */
  lemma FirstSubmit(cfg: Config, w: Desk, x: string, o: Order, at: int)
    requires FlatStart(cfg, w, x) && LegalSubmit(w, o, x, at)
    ensures LegalSubmit(Seeded(w, x), o, x, at)
    ensures PlaceOrder(cfg, w.b, w.d, o, PMCC) == PlaceOrder(cfg, w.b, Seeded(w, x).d, o, PMCC)
  {
    hide FindPosition, HasInflight, FindClient, FindBrokerClient;
    SeedFound(w, x);
    var ps, flat := w.d.positions, Position(x, PMCC, Idle, 0, None, None);
    if FindPosition(ps, x, Some(PMCC)).None? {
      var p := flat.(state := PmccLongPending);
      assert (ps + [flat])[|ps| := p] == ps + [p];
    }
  }

  lemma NothingYet(cfg: Config, w: Desk, x: string, rows: seq<BrokerRow>, at: int)
    requires FlatStart(cfg, w, x)
    ensures Look1(cfg, w, x, [], rows, at) == Tick(w.d, ZeroSummary)
    ensures Look1(cfg, Seeded(w, x), x, [], rows, at) == Tick(Seeded(w, x).d, ZeroSummary)
  {
    hide FindPosition, HasInflight, ShapeOf;
    SeedFound(w, x);
  }

  lemma NoViews(orders: seq<Order>, n: nat, views: seq<Order>)
    requires n >= |orders| && forall v :: v in views ==> exists i :: n <= i < |orders| && orders[i] == v
    ensures views == []
  {
    HeadIn(views);
  }

  lemma HeadIn<T>(s: seq<T>)
    ensures s == [] || exists v :: v in s
  {
    if s != [] { assert s[0] in s; }
  }

  lemma TwinStep(cfg: Config, w0: Desk, w: Desk, v: Desk, x: string, m: TimedMove)
    requires FlatStart(cfg, w0, x) && Twins(w0, w, v, x) && LegalMove(w0, w, x, m)
    ensures LegalMove(Seeded(w0, x), v, x, m)
    ensures Twins(w0, Moved(cfg, w0, w, x, m), Moved(cfg, Seeded(w0, x), v, x, m), x)
  {
    hide Look1, PlaceOrder, FindPosition, HasInflight, LegalSubmit, CanFill, AlpacaRows, Enumerates;
    if v != w {
      match m.move {
        case Submit(o) =>
          var u := w0.(clock := w.clock);
          LaterFlat(cfg, w0, x, w.clock);
          FirstSubmit(cfg, u, x, o, m.at);
        case ShortExpires(c) => assert false;
        case Look(views, ks, cs) =>
          LaterFlat(cfg, w0, x, w.clock);
          NoViews(w.b.orders, |w0.b.orders|, views);
          NothingYet(cfg, w, x, AlpacaRows(w.b, ks, cs), m.at);
        case _ => assert false;
      }
    }
  }

  lemma LaterFlat(cfg: Config, w0: Desk, x: string, clock: int)
    requires FlatStart(cfg, w0, x) && clock >= w0.clock
    ensures FlatStart(cfg, w0.(clock := clock), x)
    ensures Seeded(w0.(clock := clock), x) == Seeded(w0, x).(clock := clock)
  {
    hide FindPosition, HasInflight;
  }

  lemma {:induction false} RunTwins(cfg: Config, w0: Desk, x: string, moves: seq<TimedMove>)
    requires FlatStart(cfg, w0, x) && LegalMoves(cfg, w0, x, moves)
    ensures LegalMoves(cfg, Seeded(w0, x), x, moves)
    ensures Twins(w0, AfterMoves(cfg, w0, x, moves), AfterMoves(cfg, Seeded(w0, x), x, moves), x)
    decreases |moves|
  {
    hide LegalMove, Moved, FlatStart, FindPosition;
    if |moves| > 0 {
      var n := |moves| - 1;
      RunTwins(cfg, w0, x, moves[..n]);
      TwinStep(cfg, w0, AfterMoves(cfg, w0, x, moves[..n]), AfterMoves(cfg, Seeded(w0, x), x, moves[..n]), x, moves[n]);
    }
  }

  /** Every run is tracked, on the desk itself or with the flat row it has not needed yet. */
  lemma SeededTracked(cfg: Config, w0: Desk, x: string, moves: seq<TimedMove>) returns (k: nat, v: Desk)
    requires FlatStart(cfg, w0, x) && LegalMoves(cfg, w0, x, moves)
    ensures FindPosition(Seeded(w0, x).d.positions, x, Some(PMCC)) == Some(k)
    ensures Tracked(Seeded(w0, x), v, x, k, false) && Twins(w0, AfterMoves(cfg, w0, x, moves), v, x)
    ensures LegalMoves(cfg, Seeded(w0, x), x, moves) && v == AfterMoves(cfg, Seeded(w0, x), x, moves)
  {
    hide Tracked, FlatStart, LegalMoves, AfterMoves, FindPosition, Seeded, Twins;
    RunTwins(cfg, w0, x, moves);
    SeedFlat(cfg, w0, x);
    SeedFound(w0, x);
    k := FindPosition(Seeded(w0, x).d.positions, x, Some(PMCC)).value;
    v := AfterMoves(cfg, Seeded(w0, x), x, moves);
    RunTracked(cfg, Seeded(w0, x), x, moves, k);
  }

  // ---- What every run guarantees ----

  /** The pair's row and the cycles opened since w0 agree with the broker-side account `spans`. */
  ghost predicate Agrees(w0: Desk, w: Desk, x: string, spans: seq<Span>) {
    && Accounts(|w0.d.cycles|, w.d, x, spans)
    && var p := PairRow(w.d, x, PMCC);
       && (p.cycle == if Open(spans) then Some(|w.d.cycles| - 1) else None)
       && (Open(spans) <==>
           p.state.PmccLongOpen? || p.state.PmccShortPending? || p.state.PmccBothOpen?
           || p.state.PmccClosing?)
       && (!Open(spans) <==> p.state.Idle? || p.state.PmccLongPending?)
  }

  /** Everything but the pair's own row, and the orders and cycles added since, is as it was. */
  predicate Untouched(w0: Desk, w: Desk, x: string) {
    && |w.b.orders| >= |w0.b.orders|
    && |w0.d.orders| <= |w.d.orders| && w.d.orders[..|w0.d.orders|] == w0.d.orders
    && |w0.d.cycles| <= |w.d.cycles| && w.d.cycles[..|w0.d.cycles|] == w0.d.cycles
    && var at := FindPosition(w0.d.positions, x, Some(PMCC));
       && |w0.d.positions| <= |w.d.positions| <= |w0.d.positions| + (if at.None? then 1 else 0)
       && (forall m :: 0 <= m < |w0.d.positions| && Some(m) != at ==> w.d.positions[m] == w0.d.positions[m])
  }

  /** After any legal moves, however many of the broker's updates were lost, repeated or reordered, and
      whether or not the pair had a row to begin with: the cycles opened are the broker account's spans, one
      each; all but the latest are closed, each at its span's P&L; and the latest is open and pointed at
      exactly while its long is unsold. The account is that of every order once nothing is in flight, and of
      all but the latest order until then. Other positions, and older orders and cycles, are untouched. */
  lemma SpanExact(cfg: Config, w0: Desk, x: string, moves: seq<TimedMove>)
    requires FlatStart(cfg, w0, x) && LegalMoves(cfg, w0, x, moves)
    ensures var w := AfterMoves(cfg, w0, x, moves);
            && Untouched(w0, w, x)
            && var orders := w.b.orders[|w0.b.orders|..];
               if HasInflight(w.d.orders, x)
               then |orders| > 0 && Agrees(w0, w, x, Replay(orders[..|orders| - 1]))
               else Agrees(w0, w, x, Replay(orders))
  {
    hide LegalMoves, AfterMoves, Accounts, Replay, HasInflight, AllLinked, LegsKnown, Dated, FlatStart, Agrees, Tracked,
         StateFits, FindPosition;
    var k, v := SeededTracked(cfg, w0, x, moves);
    var w, s0 := AfterMoves(cfg, w0, x, moves), Seeded(w0, x);
    SeedFound(w0, x);
    TrackedParts(s0, v, x, k, false);
    InflightIsWork(s0, v, x, k);
    var orders := w.b.orders[|w0.b.orders|..];
    if Work(s0, v).Some? { assert Seen(s0, v) == orders[..|orders| - 1]; } else { assert Seen(s0, v) == orders; }
    RowAgrees(w0, w, v, x, k);
    TwinUntouched(w0, w, v, x, k);
  }

  lemma RowAgrees(w0: Desk, w: Desk, v: Desk, x: string, k: nat)
    requires Tracked(Seeded(w0, x), v, x, k, false) && Twins(w0, w, v, x)
    ensures |v.b.orders| >= |Seeded(w0, x).b.orders| && Agrees(w0, w, x, Replay(Seen(Seeded(w0, x), v)))
  {
    hide Accounts, Replay, HasInflight, AllLinked, LegsKnown, Dated, StateFits, FindPosition;
    var s0 := Seeded(w0, x);
    TrackedParts(s0, v, x, k, false);
    var spans := Replay(Seen(s0, v));
    OpenStates(EyeOf(s0, v, x, k));
    OpenHasCycle(s0, v, x);
    SeedFound(w0, x);
    SameAccounts(|w0.d.cycles|, v.d, w.d, x, spans);
  }

  lemma TwinUntouched(w0: Desk, w: Desk, v: Desk, x: string, k: nat)
    requires Framed(Seeded(w0, x), v, x, k) && Twins(w0, w, v, x)
    requires FindPosition(Seeded(w0, x).d.positions, x, Some(PMCC)) == Some(k)
    ensures Untouched(w0, w, x)
  {
    hide FindPosition, HasInflight;
    SeedFound(w0, x);
    if v != w {
      assert w.d.orders[..|w0.d.orders|] == w0.d.orders && w.d.cycles[..|w0.d.cycles|] == w0.d.cycles;
    }
  }

  lemma OpenHasCycle(w0: Desk, w: Desk, x: string)
    requires |w.b.orders| >= |w0.b.orders| && Accounts(|w0.d.cycles|, w.d, x, Replay(Seen(w0, w)))
    ensures Open(Replay(Seen(w0, w))) ==> |w.d.cycles| > 0
  {
  }

  lemma OpenStates(v: Eye)
    requires StateFits(v, false)
    ensures v.open <==>
            v.state.PmccLongOpen? || v.state.PmccShortPending? || v.state.PmccBothOpen?
            || v.state.PmccClosing?
    ensures !v.open <==> v.state.Idle? || v.state.PmccLongPending?
  {
  }

  /** No look ever flags the position, and a look that leaves nothing in flight leaves a mirror of the
      broker's legs: both open exactly when a short lives beside the long, the long alone exactly when
      only it lives, and idle exactly when neither does. */
  lemma LooksMirror(cfg: Config, w0: Desk, x: string, moves: seq<TimedMove>, at: int,
                    views: seq<Order>, ks: seq<string>, cs: seq<Contract>)
    requires FlatStart(cfg, w0, x) && LegalMoves(cfg, w0, x, moves)
    requires LegalMove(w0, AfterMoves(cfg, w0, x, moves), x, TimedMove(at, Look(views, ks, cs)))
    ensures var w := AfterMoves(cfg, w0, x, moves);
            var t := Look1(cfg, w, x, views, AlpacaRows(w.b, ks, cs), at);
            t.sum.manual == 0 && (!HasInflight(t.db.orders, x) ==> MirrorsLegs(Desk(w.b, t.db, at), x))
  {
    hide LegalMoves, AfterMoves, Look1, AlpacaRows, FlatStart, Tracked, Enumerates, HasInflight, FindPosition;
    var k, v := SeededTracked(cfg, w0, x, moves);
    var w := AfterMoves(cfg, w0, x, moves);
    if v == w {
      TrackedMirror(cfg, Seeded(w0, x), w, x, k, views, ks, cs, at);
    } else {
      NoViews(w.b.orders, |w0.b.orders|, views);
      UnstartedMirror(cfg, w0, w, x, AlpacaRows(w.b, ks, cs), at);
    }
  }

  /** The pair's state is the broker's legs. */
  predicate MirrorsLegs(w: Desk, x: string) {
    var longs, shorts := LegsBy(w.b, x, BuyToOpen), LegsBy(w.b, x, SellToOpen);
    && |longs| <= 1 && |shorts| <= |longs|
    && StateOf(w, x) == if shorts != {} then PmccBothOpen else if longs != {} then PmccLongOpen else Idle
  }

  lemma TrackedMirror(cfg: Config, w0: Desk, w: Desk, x: string, k: nat, views: seq<Order>, ks: seq<string>,
                      cs: seq<Contract>, at: int)
    requires Tracked(w0, w, x, k, false) && at >= w.clock
    requires forall v :: v in views ==> exists i :: |w0.b.orders| <= i < |w.b.orders| && w.b.orders[i] == v
    requires Enumerates(ks, w.b.stock.Keys) && Enumerates(cs, w.b.options.Keys)
    ensures var t := Look1(cfg, w, x, views, AlpacaRows(w.b, ks, cs), at);
            t.sum.manual == 0 && (!HasInflight(t.db.orders, x) ==> MirrorsLegs(Desk(w.b, t.db, at), x))
  {
    hide Accounts, Replay, HasInflight, AllLinked, LegsKnown, Dated, Look1, AlpacaRows, ProcessOrders, Framed,
         Enumerates, Tracked, StateFits;
    LookTracked(cfg, w0, w, x, k, views, ks, cs, at);
    var t := Look1(cfg, w, x, views, AlpacaRows(w.b, ks, cs), at);
    var w' := Desk(w.b, t.db, at);
    TrackedParts(w0, w', x, k, false);
    InflightIsWork(w0, w', x, k);
    if !HasInflight(t.db.orders, x) { RestingMirror(EyeOf(w0, w', x, k)); }
  }

  lemma UnstartedMirror(cfg: Config, w0: Desk, w: Desk, x: string, rows: seq<BrokerRow>, at: int)
    requires FlatStart(cfg, w0, x) && w == w0.(clock := w.clock) && w.clock >= w0.clock
    ensures var t := Look1(cfg, w, x, [], rows, at); t == Tick(w.d, ZeroSummary) && MirrorsLegs(Desk(w.b, t.db, at), x)
  {
    hide FindPosition, HasInflight, Look1;
    LaterFlat(cfg, w0, x, w.clock);
    NothingYet(cfg, w, x, rows, at);
    assert LegsBy(w.b, x, BuyToOpen) == {} && LegsBy(w.b, x, SellToOpen) == {};
  }

  lemma RestingMirror(v: Eye)
    requires StateFits(v, false) && v.work.None? && (v.state.PmccBothOpen? ==> v.shorts != {})
    ensures |v.longs| <= 1 && |v.shorts| <= |v.longs|
    ensures v.state == if v.shorts != {} then PmccBothOpen else if v.longs != {} then PmccLongOpen else Idle
  {
  }

  /** A span's P&L: 100 times what the long and the shorts sold for, less what the long and the
      buybacks cost, weighted by contracts, from the bought long to just before the next one. */
  lemma {:induction false} SpanIsSum(orders: seq<Order>, m: nat) returns (lo: nat, hi: nat)
    requires m < |Replay(orders)|
    ensures SpanBounds(orders, m, lo, hi) && Replay(orders)[m].pnl == Earned(orders[lo..hi])
  {
    hide Dollars, Earned, Replay;
    SpansAreLongs(orders);
    SpanStep(orders);
    var n := |orders| - 1;
    var o, before := orders[n], Replay(orders[..n]);
    SpansAreLongs(orders[..n]);
    if m < |before| {
      lo, hi := SpanIsSum(orders[..n], m);
      assert orders[..n][..lo] == orders[..lo] && orders[..n][..hi] == orders[..hi]
             && orders[..n][lo..hi] == orders[lo..hi];
      if hi < n {
        assert orders[..hi + 1][..hi] == orders[..hi];
        LongsGrow(orders, hi + 1, n);
      } else if !IsLong(o) {
        EarnedMore(orders, lo, n);
        assert orders[..n + 1] == orders;
        hi := n + 1;
      }
    } else {
      EarnedMore(orders, n, n);
      assert orders[..n + 1] == orders;
      lo, hi := n, n + 1;
    }
  }

  lemma EarnedMore(orders: seq<Order>, lo: nat, n: nat)
    requires lo <= n < |orders|
    ensures Earned(orders[lo..n + 1]) == Earned(orders[lo..n]) + if orders[n].status.Filled? then Dollars(orders[n])
            else 0.0
    ensures lo == n ==> Earned(orders[lo..n]) == 0.0
  {
    assert orders[lo..n + 1][..n - lo] == orders[lo..n];
  }

  /** What the last order adds to the account. */
  lemma SpanStep(orders: seq<Order>)
    requires |orders| > 0
    ensures var n := |orders| - 1;
            var o, before, after := orders[n], Replay(orders[..n]), Replay(orders);
            && |after| == |before| + (if IsLong(o) then 1 else 0)
            && (IsLong(o) ==> after[|before|].pnl == Dollars(o))
            && (forall m :: 0 <= m < |before| ==>
                  after[m].pnl == before[m].pnl + if o.status.Filled? && !IsLong(o) && m == |before| - 1 then Dollars(o)
                    else 0.0)
  {
    hide Dollars;
  }

  lemma {:induction false} SpansAreLongs(orders: seq<Order>)
    ensures |Replay(orders)| == Longs(orders)
  {
    if |orders| > 0 { SpansAreLongs(orders[..|orders| - 1]); }
  }

  lemma {:induction false} LongsGrow(orders: seq<Order>, a: nat, b: nat)
    requires a <= b <= |orders|
    ensures Longs(orders[..a]) <= Longs(orders[..b])
    decreases b
  {
    if a < b {
      LongsGrow(orders, a, b - 1);
      assert orders[..b][..b - 1] == orders[..b - 1];
    }
  }

  /** Dollars of the filled orders. */
  function Earned(orders: seq<Order>): real {
    if |orders| == 0 then 0.0
    else
      var o := orders[|orders| - 1];
      Earned(orders[..|orders| - 1]) + if o.status.Filled? then Dollars(o) else 0.0
  }

  /** orders[lo..hi] runs from the (m+1)-st bought long to just before the next one, or to the end. */
  predicate SpanBounds(orders: seq<Order>, m: nat, lo: nat, hi: nat) {
    && lo < hi <= |orders|
    && IsLong(orders[lo]) && Longs(orders[..lo]) == m && Longs(orders[..hi]) == m + 1
    && (hi < |orders| ==> IsLong(orders[hi]))
  }

  predicate IsLong(o: Order) {
    o.status.Filled? && o.orderType.BuyToOpen?
  }

  function Longs(orders: seq<Order>): nat {
    if |orders| == 0 then 0 else Longs(orders[..|orders| - 1]) + if IsLong(orders[|orders| - 1]) then 1 else 0
  }
}
