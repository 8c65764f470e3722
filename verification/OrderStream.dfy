/** The order stream on any tables at all: absorbing a list of broker views a second time changes nothing. */
module OrderStream {
  import opened Models
  import opened PaperBrokers
  import opened Repos
  import opened Reconciler
  import opened LedgerTables

  /** The same rows, except that row j may carry another cycle tag. */
  predicate SameButTag(a: seq<Order>, b: seq<Order>, j: nat) {
    |a| == |b| && forall i :: 0 <= i < |a| ==> b[i] == if i == j then a[i].(cycle := b[i].cycle) else a[i]
  }

  // ---- Handlers only tag ----

  lemma SetKeeps(t: Tick, at: Option<nat>, symbol: string, state: PositionState, cycle: Option<nat>,
                 strategy: Option<string>, now: int)
    ensures SetState(t, at, symbol, state, cycle, strategy, now).db.orders == t.db.orders
  {
  }

  lemma CloseKeeps(t: Tick, at: Option<nat>, cy: nat, outcome: CycleOutcome, now: int)
    ensures CloseCycle(t, cy, outcome, now).db.orders == t.db.orders
    ensures ClearCycle(t, at).db.orders == t.db.orders
  {
    hide CyclePnl;
  }

  lemma TagTags(t: Tick, j: nat, cy: nat)
    ensures SameButTag(t.db.orders, TagOrder(t, j, cy).db.orders, j)
  {
  }

  lemma OpenTags(t: Tick, at: Option<nat>, j: nat, o: Order, strike: Option<real>, premium: real,
                 state: PositionState, strategy: Option<string>, now: int)
    ensures SameButTag(t.db.orders, OpenOnFill(t, at, j, o, strike, premium, state, strategy, now).db.orders, j)
  {
    hide SetState, TagOrder, SameButTag;
    var cy := |t.db.cycles|;
    var t1 := OpenCycle(t, o, strike, premium, now);
    SetKeeps(t1, at, o.symbol, state, Some(cy), strategy, now);
    TagTags(SetState(t1, at, o.symbol, state, Some(cy), strategy, now), j, cy);
  }

  lemma EndTags(t: Tick, at: Option<nat>, j: nat, o: Order, state: PositionState, outcome: CycleOutcome, now: int)
    ensures SameButTag(t.db.orders, EndOnFill(t, at, j, o, state, outcome, now).db.orders, j)
  {
    hide SetState, CloseCycle, ClearCycle, TagClose, SameButTag, PointerOf;
    var cycle := PointerOf(t, at);
    TagCloseTags(t, j, o, cycle);
    var t1 := TagClose(t, j, o, cycle);
    SetKeeps(t1, at, o.symbol, state, None, o.strategy, now);
    var t2 := SetState(t1, at, o.symbol, state, None, o.strategy, now);
    if cycle.Some? {
      CloseKeeps(t2, at, cycle.value, outcome, now);
      CloseKeeps(CloseCycle(t2, cycle.value, outcome, now), at, cycle.value, outcome, now);
    }
  }

  lemma TagCloseTags(t: Tick, j: nat, o: Order, cycle: Option<nat>)
    ensures SameButTag(t.db.orders, TagClose(t, j, o, cycle).db.orders, j)
  {
  }

  lemma FlagTags(t: Tick, symbol: string, strategy: Option<string>, now: int)
    ensures FlagManual(t, symbol, strategy, now).db.orders == t.db.orders
  {
    hide FindPosition;
  }

  lemma WheelTags(t: Tick, at: Option<nat>, j: nat, o: Order, price: real, now: int)
    ensures SameButTag(t.db.orders, OnWheelFill(t, at, j, o, price, now).db.orders, j)
  {
    hide OpenOnFill, EndOnFill, FlagManual, CloseCycle, Notional, SetState, TagOrder, TagClose, SameButTag, PointerOf;
    Unchanged(t.db.orders, j);
    var cycle := PointerOf(t, at);
    match o.orderType {
      case SellToOpen =>
        OpenTags(t, at, j, o, StrikeOf(o), Notional(price, o.quantity), CspOpen, None, now);
        SetKeeps(t, at, o.symbol, CcOpen, cycle, None, now);
        if cycle.Some? { TagTags(SetState(t, at, o.symbol, CcOpen, cycle, None, now), j, cycle.value); }
      case BuyToClose =>
        var state := if IsPut(o) then Idle else SharesHeld;
        TagCloseTags(t, j, o, cycle);
        var t1 := TagClose(t, j, o, cycle);
        SetKeeps(t1, at, o.symbol, state, None, None, now);
        if cycle.Some? {
          CloseKeeps(SetState(t1, at, o.symbol, state, None, None, now), at, cycle.value, CspClosedProfit, now);
        }
      case MultiLegOpen => OpenTags(t, at, j, o, None, Notional(price, o.quantity), SpreadOpen, o.strategy, now);
      case MultiLegClose => EndTags(t, at, j, o, SpreadClosed, SpreadCloseOutcome(o.strategy), now);
      case _ => FlagTags(t, o.symbol, o.strategy, now);
    }
  }

  lemma Unchanged(rows: seq<Order>, j: nat)
    ensures SameButTag(rows, rows, j)
  {
  }

  lemma PmccTags(t: Tick, at: Option<nat>, j: nat, o: Order, price: real, now: int)
    ensures SameButTag(t.db.orders, OnPmccFill(t, at, j, o, price, now).db.orders, j)
  {
    hide OpenOnFill, EndOnFill, FlagManual, Notional, SetState, TagOrder, TagClose, SameButTag, PointerOf;
    Unchanged(t.db.orders, j);
    FlagTags(t, o.symbol, o.strategy, now);
    OpenTags(t, at, j, o, StrikeOf(o), -Notional(Abs(price), PackageSize(o)), PmccLongOpen, o.strategy, now);
    EndTags(t, at, j, o, Idle, if o.rollTrigger then PmccLongRolled else PmccFullClosed, now);
    var cycle := PointerOf(t, at);
    SetKeeps(t, at, o.symbol, PmccBothOpen, cycle, o.strategy, now);
    if cycle.Some? { TagTags(SetState(t, at, o.symbol, PmccBothOpen, cycle, o.strategy, now), j, cycle.value); }
    TagCloseTags(t, j, o, cycle);
    SetKeeps(TagClose(t, j, o, cycle), at, o.symbol, PmccLongOpen, cycle, o.strategy, now);
  }

  lemma SwingTags(t: Tick, at: Option<nat>, j: nat, o: Order, price: real, now: int)
    ensures SameButTag(t.db.orders, OnSwingFill(t, at, j, o, price, now).db.orders, j)
  {
    hide OpenOnFill, EndOnFill, FlagManual, Notional, SameButTag;
    Unchanged(t.db.orders, j);
    FlagTags(t, o.symbol, o.strategy, now);
    OpenTags(t, at, j, o, StrikeOf(o), -Notional(Abs(price), PackageSize(o)), SwingOpen, o.strategy, now);
    EndTags(t, at, j, o, Idle, SwingClosed, now);
  }

  lemma FillTags(cfg: Config, t: Tick, j: nat, o: Order, v: Order, now: int)
    ensures SameButTag(t.db.orders, OnFill(cfg, t, j, o, v, now).db.orders, j)
  {
    hide OnWheelFill, OnPmccFill, OnSwingFill, FindPosition;
    var t0 := t.(sum := t.sum.(fills := t.sum.fills + [j]));
    var at := FindPosition(t.db.positions, o.symbol, o.strategy);
    var price := PriceOf(o, v);
    WheelTags(t0, at, j, o, price, now);
    PmccTags(t0, at, j, o, price, now);
    SwingTags(t0, at, j, o, price, now);
  }

  lemma CancelTags(t: Tick, o: Order, now: int)
    ensures OnCancel(t, o, now).db.orders == t.db.orders
  {
    hide FindPosition, RestoredState;
  }

  lemma DispatchTags(cfg: Config, t: Tick, j: nat, o: Order, v: Order, now: int)
    ensures SameButTag(t.db.orders, Dispatch(cfg, t, j, o, v, now).db.orders, j)
  {
    hide OnFill, OnCancel, FlagManual, ObservedPartial;
    FillTags(cfg, t, j, o, v, now);
    CancelTags(t, o, now);
    FlagTags(t, o.symbol, o.strategy, now);
  }

  // ---- Absorbed views ----

  /** The view's row, found by client id, already shows all the view has to tell. */
  predicate Absorbed(rows: seq<Order>, v: Order) {
    && v.clientId.Some?
    && var at := FindClient(rows, v.clientId.value);
       at.Some? && at.value < |rows| && Refresh(rows[at.value], v) == rows[at.value]
  }

  predicate Known(rows: seq<Order>, v: Order) {
    v.clientId.Some? && FindClient(rows, v.clientId.value).Some?
  }

  lemma AbsorbedMore(rows: seq<Order>, more: seq<Order>, v: Order)
    requires Absorbed(rows, v)
    ensures Absorbed(rows + more, v)
  {
    hide FindClient;
    FindClientFirst(rows, more, v.clientId.value);
  }

  lemma AbsorbedNoop(cfg: Config, t: Tick, v: Order, now: int)
    requires Absorbed(t.db.orders, v)
    ensures ProcessOrder(cfg, t, v, now) == t
  {
    hide FindClient, OnFill, OnCancel, FlagManual;
    var j := FindClient(t.db.orders, v.clientId.value).value;
    assert t.db.orders[j := t.db.orders[j]] == t.db.orders;
  }

  /** Tables with the same client ids find the same rows. */
  lemma SameFinds(a: seq<Order>, b: seq<Order>, cid: string)
    requires |a| == |b| && forall j :: 0 <= j < |a| ==> a[j].clientId == b[j].clientId
    ensures FindClient(a, cid) == FindClient(b, cid)
  {
    FindClientStable(a, b, cid);
  }

  /** After its own view a row has absorbed it, and what other rows had absorbed they keep. */
  lemma ViewAbsorbs(cfg: Config, t: Tick, v: Order, now: int)
    requires Known(t.db.orders, v)
    ensures var rows := ProcessOrder(cfg, t, v, now).db.orders;
            && |rows| == |t.db.orders| && (forall j :: 0 <= j < |rows| ==> rows[j].clientId == t.db.orders[j].clientId)
            && Absorbed(rows, v)
            && (forall u :: Absorbed(t.db.orders, u) && u.clientId != v.clientId ==> Absorbed(rows, u))
  {
    hide FindClient, Dispatch;
    var j := FindClient(t.db.orders, v.clientId.value).value;
    FindClientSound(t.db.orders, v.clientId.value);
    var o := t.db.orders[j];
    var t1 := t.(db := SetOrder(t.db, j, Refresh(o, v)));
    DispatchTags(cfg, t1, j, o, v, now);
    var rows := ProcessOrder(cfg, t, v, now).db.orders;
    SameFinds(t.db.orders, rows, v.clientId.value);
    forall u | Absorbed(t.db.orders, u) && u.clientId != v.clientId ensures Absorbed(rows, u) {
      SameFinds(t.db.orders, rows, u.clientId.value);
      FindClientSound(t.db.orders, u.clientId.value);
    }
  }

  predicate DistinctViews(views: seq<Order>) {
    forall a, b :: 0 <= a < b < |views| ==> views[a].clientId != views[b].clientId
  }

  lemma {:induction false} AllAbsorbed(cfg: Config, t: Tick, views: seq<Order>, now: int)
    requires DistinctViews(views) && forall v :: v in views ==> Known(t.db.orders, v)
    ensures var rows := ProcessOrders(cfg, t, views, now).db.orders;
            && |rows| == |t.db.orders| && (forall j :: 0 <= j < |rows| ==> rows[j].clientId == t.db.orders[j].clientId)
            && (forall a :: 0 <= a < |views| ==> Absorbed(rows, views[a]))
  {
    hide Absorbed, ProcessOrder, FindClient;
    if |views| > 0 {
      var n := |views| - 1;
      assert forall v :: v in views[..n] ==> v in views;
      AllAbsorbed(cfg, t, views[..n], now);
      var t1 := ProcessOrders(cfg, t, views[..n], now);
      assert views[n] in views;
      SameFinds(t.db.orders, t1.db.orders, views[n].clientId.value);
      ViewAbsorbs(cfg, t1, views[n], now);
      forall a | 0 <= a < n ensures Absorbed(ProcessOrder(cfg, t1, views[n], now).db.orders, views[a]) {
        assert views[..n][a] == views[a];
      }
    }
  }

  lemma {:induction false} AllNoop(cfg: Config, t: Tick, views: seq<Order>, now: int)
    requires forall a :: 0 <= a < |views| ==> Absorbed(t.db.orders, views[a])
    ensures ProcessOrders(cfg, t, views, now) == t
  {
    hide Absorbed, ProcessOrder;
    if |views| > 0 {
      var n := |views| - 1;
      AllNoop(cfg, t, views[..n], now);
      AbsorbedNoop(cfg, t, views[n], now);
    }
  }

  lemma {:induction false} StreamConcat(cfg: Config, t: Tick, a: seq<Order>, b: seq<Order>, now: int)
    ensures ProcessOrders(cfg, t, a + b, now) == ProcessOrders(cfg, ProcessOrders(cfg, t, a, now), b, now)
  {
    hide ProcessOrder;
    if |b| == 0 {
      assert a + b == a;
    } else {
      var n := |b| - 1;
      assert (a + b)[..|a + b| - 1] == a + b[..n];
      StreamConcat(cfg, t, a, b[..n], now);
    }
  }

  /** On any tables, views of known and pairwise distinct orders, shown again at any later time, leave every
      row, position, cycle, log entry and counter as the first showing did. */
  lemma ProcessedOnce(cfg: Config, t: Tick, views: seq<Order>, now: int, later: int)
    requires DistinctViews(views) && forall v :: v in views ==> Known(t.db.orders, v)
    ensures var t' := ProcessOrders(cfg, t, views, now);
            ProcessOrders(cfg, t', views, later) == t'
  {
    hide Absorbed, ProcessOrder, ProcessOrders, Known, DistinctViews;
    AllAbsorbed(cfg, t, views, now);
    AllNoop(cfg, ProcessOrders(cfg, t, views, now), views, later);
  }
}
