/** What every run of the ledger guarantees, stated on the tables and the broker alone. */
module LedgerTheorems {
  import opened Models
  import opened PaperBrokers
  import opened Repos
  import opened Router
  import opened Reconciler
  import opened Ledger
  import opened LedgerTables
  import opened LedgerInvariant
  import opened LedgerFills
  import opened LedgerRouter
  import opened LedgerStream
  import opened LedgerShape
  import opened LedgerSweep
  import opened LedgerTick
  import opened LedgerRuns

  // ---- Books equal broker ----

  /** Signed cash of the filled orders tagged to cycles 0..n. */
  function BooksTo(d: Db, n: nat): real {
    if n == 0 then 0.0 else BooksTo(d, n - 1) + CyclePnl(d, n - 1)
  }

  /** The sum over all cycles. */
  function Books(d: Db): real {
    BooksTo(d, |d.cycles|)
  }

  lemma {:induction false} BooksAppend(rows: seq<Order>, r: Order, d: Db, d': Db, n: nat)
    requires d.orders == rows && d'.orders == rows + [r]
    ensures BooksTo(d', n) == BooksTo(d, n) + if r.cycle.Some? && r.cycle.value < n then Flow(r) else 0.0
  {
    if n > 0 {
      BooksAppend(rows, r, d, d', n - 1);
      TaggedAppend(rows, r, n - 1);
      FlowSumConcat(Tagged(rows, n - 1), [r]);
      FlowSumOne(r);
      assert Tagged(rows, n - 1) + [] == Tagged(rows, n - 1);
    }
  }

  /** Summing by cycle or by row is the same when every tag names a cycle. */
  lemma {:induction false} BooksByRow(d: Db, n: nat)
    requires forall j :: 0 <= j < |d.orders| && d.orders[j].cycle.Some? ==> d.orders[j].cycle.value < n
    ensures BooksTo(d, n) == Booked(d.orders)
    decreases |d.orders|
  {
    if |d.orders| == 0 {
      EmptyBooks(d, n);
    } else {
      var m := |d.orders| - 1;
      var d0 := d.(orders := d.orders[..m]);
      BooksByRow(d0, n);
      assert d.orders == d0.orders + [d.orders[m]];
      BooksAppend(d0.orders, d.orders[m], d0, d, n);
    }
  }

  lemma {:induction false} EmptyBooks(d: Db, n: nat)
    requires d.orders == []
    ensures BooksTo(d, n) == 0.0
  {
    if n > 0 { EmptyBooks(d, n - 1); }
  }

  lemma {:induction false} NothingDue(lanes: seq<Lane>)
    requires forall k :: 0 <= k < |lanes| ==> lanes[k].due == 0.0
    ensures SumDue(lanes) == 0.0
  {
    if |lanes| > 0 { NothingDue(lanes[..|lanes| - 1]); }
  }

  lemma SceneBooks(s: Scene)
    requires Inv(s) && Sized(s) && AllSynced(s)
    ensures s.b.cash == s.cash0 + Books(s.d)
  {
    hide Links, Works, Lanes, Cycles, Pointers, BrokerKnown;
    forall k | 0 <= k < |s.g.lanes| ensures s.g.lanes[k].due == 0.0 { assert LaneSynced(s, k); }
    NothingDue(s.g.lanes);
    forall j | 0 <= j < |s.d.orders| && s.d.orders[j].cycle.Some?
      ensures s.d.orders[j].cycle.value < |s.d.cycles|
    {
      assert RowOK(s, j);
    }
    BooksByRow(s.d, |s.d.cycles|);
  }

  /** The scene right after a tick. */
  lemma TickScene(cfg: Config, w: World, e: Timed, cash0: real) returns (s: Scene)
    requires Sound(cfg, w, cash0) && Legal(cfg, w, e) && e.event.TickNow?
    ensures Inv(s) && Sized(s) && Shows(s, cfg, Step(cfg, w, e), cash0) && AllSynced(s) && AllCaughtUp(s)
    ensures var t := TickOf(cfg, w, e.event.stocks, e.event.legs, e.event.symbols, e.at);
            t.sum.manual == 0 && t.sum.heals == 0 && t.sum.parityFlags == 0 && NewlyFilled(w.db, s.d, t.sum.fills)
  {
    hide Inv, ReconcileOnce, PositionRows, Enumerates, NewlyFilled, AllSynced, AllCaughtUp;
    var s0 :| Shows(s0, cfg, w, cash0) && Inv(s0);
    LaterKeeps(s0, e.at);
    var s1 := s0.(clock := e.at);
    InvSized(s1);
    s := TickKeeps(s1, w.cursor, e.event.stocks, e.event.legs, e.event.symbols);
  }

  lemma SoundTickBooks(cfg: Config, w: World, e: Timed, cash0: real)
    requires Sound(cfg, w, cash0) && Legal(cfg, w, e) && e.event.TickNow?
    ensures Step(cfg, w, e).broker.cash - cash0 == Books(Step(cfg, w, e).db)
  {
    hide Legal, Step, Sound, Shows, Inv, AllSynced;
    var s := TickScene(cfg, w, e, cash0);
    SceneBooks(s);
    ShowsFields(s, cfg, Step(cfg, w, e), cash0);
  }

  /** After every tick of every run, the cash the broker has moved since the start is exactly
      what the cycles' tagged, filled orders add up to. */
  lemma BooksEqualBroker(cfg: Config, w0: World, run: seq<Timed>, e: Timed)
    requires Fresh(w0) && LegalRun(cfg, w0, run) && Legal(cfg, After(cfg, w0, run), e) && e.event.TickNow?
    ensures var w := Step(cfg, After(cfg, w0, run), e);
            w.broker.cash - w0.broker.cash == Books(w.db)
  {
    hide Legal, Step, After, LegalRun, Sound;
    FreshSound(cfg, w0);
    RunSound(cfg, w0, run, w0.broker.cash);
    SoundTickBooks(cfg, After(cfg, w0, run), e, w0.broker.cash);
  }

  lemma ShowsFields(s: Scene, cfg: Config, w: World, cash0: real)
    requires Shows(s, cfg, w, cash0)
    ensures s.cfg == cfg && s.b == w.broker && s.d == w.db && s.clock == w.clock && s.cash0 == cash0
  {
  }

  // ---- Closed cycles stay right ----

  /** Option and package flows of a cycle: premiums collected less buybacks and debits paid. */
  function OptionCash(rows: seq<Order>): real {
    if |rows| == 0 then 0.0
    else
      var r := rows[|rows| - 1];
      OptionCash(rows[..|rows| - 1]) + if IsStock(r) then 0.0 else Flow(r)
  }

  lemma {:induction false} FlowsSplit(rows: seq<Order>)
    ensures FlowSum(rows) == OptionCash(rows) + StockCash(rows)
  {
    if |rows| > 0 { FlowsSplit(rows[..|rows| - 1]); }
  }

  /** At any moment of any run, a closed cycle's recorded P&L is the sum of its own flows. */
  lemma ClosedCyclesExact(cfg: Config, w0: World, run: seq<Timed>, cy: nat)
    requires Fresh(w0) && LegalRun(cfg, w0, run) && cy < |After(cfg, w0, run).db.cycles|
    ensures var d := After(cfg, w0, run).db;
            d.cycles[cy].endedAt.Some? ==> d.cycles[cy].finalPnl == Some(CyclePnl(d, cy))
  {
    hide Legal, Step, After, LegalRun, Inv;
    FreshSound(cfg, w0);
    RunSound(cfg, w0, run, w0.broker.cash);
    var s :| Shows(s, cfg, After(cfg, w0, run), w0.broker.cash) && Inv(s);
    InvSized(s);
    InvCycle(s, cy);
  }

  // ---- What a cycle was opened for ----

  /** A filled sold put or opening package of the cycle, at a price. */
  predicate Opened(d: Db, cy: nat, j: nat, price: real) {
    j < |d.orders|
    && var r := d.orders[j];
       r.cycle == Some(cy) && r.status == Filled && r.fillPrice == Some(price)
       && ((r.orderType == SellToOpen && r.contract.Some? && r.contract.value.optionType == Put)
           || r.orderType == MultiLegOpen)
  }

  /** The dollars of a price a share over a row's contracts. */
  function Proceeds(price: real, contracts: int): real {
    100.0 * price * contracts as real
  }

  lemma ProceedsAre(r: Order)
    requires r.fillPrice.Some?
    ensures Brought(r) == Proceeds(r.fillPrice.value, r.quantity)
  {
  }

  lemma {:induction false} FirstIn(rows: seq<Order>)
    ensures FirstCsp(rows).Some? ==> FirstCsp(rows).value in rows && IsCsp(FirstCsp(rows).value)
    ensures Package(rows).Some? ==> Package(rows).value in rows && Package(rows).value.orderType.MultiLegOpen?
  {
    if |rows| > 0 {
      FirstIn(rows[..|rows| - 1]);
      assert rows == rows[..|rows| - 1] + [rows[|rows| - 1]];
    }
  }

  lemma {:induction false} TaggedAt(rows: seq<Order>, cy: nat, r: Order) returns (j: nat)
    requires r in Tagged(rows, cy)
    ensures j < |rows| && rows[j] == r && r.cycle == Some(cy)
  {
    if r == rows[|rows| - 1] && r.cycle == Some(cy) {
      j := |rows| - 1;
    } else {
      j := TaggedAt(rows[..|rows| - 1], cy, r);
    }
  }

  /** After any legal run every cycle's premium, open or ended, is the fill price of its own opening row over a hundred
      units a contract, whatever the order's limit was. */
  lemma PremiumsAreFills(cfg: Config, w0: World, run: seq<Timed>, cy: nat)
    requires Fresh(w0) && LegalRun(cfg, w0, run) && cy < |After(cfg, w0, run).db.cycles|
    ensures var d := After(cfg, w0, run).db;
            exists j: nat, price ::
              Opened(d, cy, j, price) && d.cycles[cy].premium == Some(Proceeds(price, d.orders[j].quantity))
  {
    hide Legal, Step, After, LegalRun, Inv, Brought, Proceeds;
    FreshSound(cfg, w0);
    RunSound(cfg, w0, run, w0.broker.cash);
    var s :| Shows(s, cfg, After(cfg, w0, run), w0.broker.cash) && Inv(s);
    InvSized(s);
    InvCycle(s, cy);
    InvSettled(s);
    var rows := Tagged(s.d.orders, cy);
    FirstIn(rows);
    var r := if FirstCsp(rows).Some? then FirstCsp(rows).value else Package(rows).value;
    var j := TaggedAt(s.d.orders, cy, r);
    ProceedsAre(r);
    assert Opened(s.d, cy, j, r.fillPrice.value);
  }

  /** A tagged row is filled. */
  lemma InvSettled(s: Scene)
    requires Inv(s) && Sized(s)
    ensures forall j :: 0 <= j < |s.d.orders| && s.d.orders[j].cycle.Some? ==> s.d.orders[j].status.Filled?
  {
    hide Inv;
    forall j | 0 <= j < |s.d.orders| && s.d.orders[j].cycle.Some? ensures s.d.orders[j].status.Filled? {
      InvRow(s, j);
    }
  }

  /** After any legal run every position that holds assigned shares, with or without a call against them, has as its
      cost basis the strike of its cycle's own filled put less a hundredth of that put's proceeds, and its shares are a
      hundred a contract of it. */
  lemma BasisFromFill(cfg: Config, w0: World, run: seq<Timed>, k: nat)
    requires Fresh(w0) && LegalRun(cfg, w0, run) && k < |After(cfg, w0, run).db.positions|
    requires After(cfg, w0, run).db.positions[k].state in {SharesHeld, CcPending, CcOpen}
    ensures var d := After(cfg, w0, run).db;
            var p := d.positions[k];
            exists j: nat, price ::
              && p.cycle.Some? && Opened(d, p.cycle.value, j, price) && d.orders[j].contract.Some?
              && p.costBasis == Some(d.orders[j].contract.value.strike - Proceeds(price, d.orders[j].quantity) / 100.0)
              && p.shares == 100 * d.orders[j].quantity
  {
    hide Legal, Step, After, LegalRun, Inv, Brought, Proceeds, LegsOK;
    FreshSound(cfg, w0);
    RunSound(cfg, w0, run, w0.broker.cash);
    var s :| Shows(s, cfg, After(cfg, w0, run), w0.broker.cash) && Inv(s);
    InvSized(s);
    InvLane(s, k);
    InvSettled(s);
    var p := s.d.positions[k];
    var cy := p.cycle.value;
    InvCycle(s, cy);
    var rows := Tagged(s.d.orders, cy);
    FirstIn(rows);
    var r := FirstCsp(rows).value;
    var j := TaggedAt(s.d.orders, cy, r);
    ProceedsAre(r);
    assert Opened(s.d, cy, j, r.fillPrice.value);
  }

  /** A called-away cycle has sold as many shares as it bought, and its P&L is the strike difference
      on those shares plus every premium it collected less every buyback it paid, however many calls
      it wrote. */
  lemma CalledAwayTelescopes(cfg: Config, w0: World, run: seq<Timed>, cy: nat)
    requires Fresh(w0) && LegalRun(cfg, w0, run) && cy < |After(cfg, w0, run).db.cycles|
    requires var c := After(cfg, w0, run).db.cycles[cy]; c.endedAt.Some? && c.outcome == Some(CcCalledAway)
    ensures var d := After(cfg, w0, run).db;
            var rows := Tagged(d.orders, cy);
            && Units(rows) == 0
            && FirstCsp(rows).Some? && FirstCsp(rows).value.contract.Some?
            && LastCall(rows).Some? && LastCall(rows).value.contract.Some?
            && d.cycles[cy].finalPnl
               == Some(StrikeGain(FirstCsp(rows).value, LastCall(rows).value) + OptionCash(rows))
  {
    hide Legal, Step, After, LegalRun, Inv, StrikeGain;
    FreshSound(cfg, w0);
    RunSound(cfg, w0, run, w0.broker.cash);
    var s :| Shows(s, cfg, After(cfg, w0, run), w0.broker.cash) && Inv(s);
    InvSized(s);
    InvCycle(s, cy);
    FlowsSplit(Tagged(s.d.orders, cy));
  }

  /** At any moment of any run every open cycle is carried by the one position that points at it, and the
      pointer an idle or closed-spread position may still hold names a closed cycle. */
  lemma OpenCyclesCarried(cfg: Config, w0: World, run: seq<Timed>)
    requires Fresh(w0) && LegalRun(cfg, w0, run)
    ensures var d := After(cfg, w0, run).db;
            && (forall cy :: 0 <= cy < |d.cycles| && d.cycles[cy].endedAt.None? ==>
                  exists k :: 0 <= k < |d.positions| && d.positions[k].cycle == Some(cy)
                    && Exposed(d.positions[k].state)
                              && d.positions[k].symbol == d.cycles[cy].symbol)
            && (forall k :: 0 <= k < |d.positions| && d.positions[k].cycle.Some? && !Live(d.positions[k]) ==>
                  d.positions[k].cycle.value < |d.cycles| && d.cycles[d.positions[k].cycle.value].endedAt.Some?)
  {
    hide Legal, Step, After, LegalRun, Inv;
    FreshSound(cfg, w0);
    RunSound(cfg, w0, run, w0.broker.cash);
    var s :| Shows(s, cfg, After(cfg, w0, run), w0.broker.cash) && Inv(s);
    InvSized(s);
    forall cy | 0 <= cy < |s.d.cycles| && s.d.cycles[cy].endedAt.None?
      ensures exists k ::
              0 <= k < |s.d.positions| && s.d.positions[k].cycle == Some(cy)
              && Exposed(s.d.positions[k].state)
                          && s.d.positions[k].symbol == s.d.cycles[cy].symbol
    {
      InvCycle(s, cy);
      assert s.d.positions[s.g.owner[cy]].cycle == Some(cy);
    }
    forall k | 0 <= k < |s.d.positions| && s.d.positions[k].cycle.Some? && !Live(s.d.positions[k])
      ensures s.d.positions[k].cycle.value < |s.d.cycles| && s.d.cycles[s.d.positions[k].cycle.value].endedAt.Some?
    {
      InvPointer(s, k);
      InvCycle(s, s.d.positions[k].cycle.value);
    }
  }

  lemma InvPointer(s: Scene, k: nat)
    requires Inv(s) && Sized(s) && k < |s.d.positions|
    ensures PointerOK(s, k)
  {
    hide Links, Rows, Works, Lanes, Cycles, BrokerKnown, CashOK;
  }

  // ---- Mirror ----

  datatype Entry = PutEntry | CallEntry | PackageEntry

  predicate IsEntry(o: Order, kind: Entry) {
    match kind
    case PutEntry => o.orderType.SellToOpen? && IsPut(o)
    case CallEntry => o.orderType.SellToOpen? && !IsPut(o)
    case PackageEntry => o.orderType.MultiLegOpen?
  }

  /** The broker is still working an entry order of this kind on the symbol. */
  predicate Waiting(b: BrokerState, symbol: string, kind: Entry) {
    exists i :: 0 <= i < |b.orders| && b.orders[i].symbol == symbol && Working(b.orders[i].status)
      && IsEntry(b.orders[i], kind)
  }

  /** The state a position ought to be in, read off the broker alone. */
  function Abstraction(cfg: Config, b: BrokerState, symbol: string, strategy: string): PositionState {
    var legs := LegMap(b, symbol);
    if strategy in cfg.spreads then
      if legs != map[] then SpreadOpen else if Waiting(b, symbol, PackageEntry) then SpreadPending else Idle
    else if HasLeg(legs, Call) then CcOpen
    else if HasLeg(legs, Put) then CspOpen
    else if Waiting(b, symbol, CallEntry) then CcPending
    else if Waiting(b, symbol, PutEntry) then CspPending
    else if StockOf(b, symbol).0 > 0 then SharesHeld
    else Idle
  }

  predicate EntryOf(w: Option<Order>, kind: Entry) {
    w.Some? && IsEntry(w.value, kind)
  }

  lemma LaneMirrors(cfg: Config, l: Lane, v: View)
    requires StateOK(cfg, l, v) && LegsOK(cfg, l, v) && Synced(l, v)
    requires v.work.Some? ==> OrderShape(cfg, v.work.value) && v.work.value.strategy == Some(v.p.strategy)
    ensures v.p.shares == v.shares
    ensures var state := if v.p.strategy in cfg.spreads then
                           if v.legs != map[] then SpreadOpen else if EntryOf(v.work, PackageEntry) then SpreadPending
                             else Idle
                         else if HasLeg(v.legs, Call) then CcOpen
                         else if HasLeg(v.legs, Put) then CspOpen
                         else if EntryOf(v.work, CallEntry) then CcPending
                         else if EntryOf(v.work, PutEntry) then CspPending
                         else if v.shares > 0 then SharesHeld
                         else Idle;
            v.p.state == state || (v.p.state.SpreadClosed? && state.Idle?)
    ensures v.p.state.CcOpen? ==> v.shares > 0
  {
    if v.legs != map[] && v.p.strategy !in cfg.spreads {
      var c :| c in v.legs;
      assert c == l.leg;
    }
  }

  lemma WaitingInLane(s: Scene, k: nat, kind: Entry)
    requires Inv(s) && Sized(s) && k < |s.d.positions| && LaneSynced(s, k)
    ensures Waiting(s.b, s.d.positions[k].symbol, kind) <==> EntryOf(WorkOrder(s.b, s.g.lanes[k]), kind)
  {
    hide Inv, StateOK, LegsOK, DigestOf, OrderShape;
    InvLane(s, k);
    var x := s.d.positions[k].symbol;
    var w := WorkOrder(s.b, s.g.lanes[k]);
    if EntryOf(w, kind) { InvOrder(s, s.g.lanes[k].work.value); }
    if Waiting(s.b, x, kind) {
      var i :| 0 <= i < |s.b.orders| && s.b.orders[i].symbol == x && Working(s.b.orders[i].status)
          && IsEntry(s.b.orders[i], kind);
      var m := LaneOfOrder(s, i);
      if m != k { OtherSymbol(s.d.positions, m, k); }
    }
  }

  lemma SceneMirrors(s: Scene, k: nat)
    requires Inv(s) && Sized(s) && AllSynced(s) && k < |s.d.positions|
    ensures var p := s.d.positions[k];
            var state := Abstraction(s.cfg, s.b, p.symbol, p.strategy);
            && (p.state == state || (p.state.SpreadClosed? && state.Idle?))
            && p.shares == StockOf(s.b, p.symbol).0 && (p.state.CcOpen? ==> p.shares > 0)
  {
    hide Inv, StateOK, LegsOK, DigestOf, OrderShape, Waiting, Synced;
    assert LaneSynced(s, k);
    InvLane(s, k);
    WaitingInLane(s, k, PutEntry);
    WaitingInLane(s, k, CallEntry);
    WaitingInLane(s, k, PackageEntry);
    var l := s.g.lanes[k];
    if l.work.Some? { InvOrder(s, l.work.value); }
    LaneMirrors(s.cfg, l, ViewOf(s.b, s.d, l, k));
  }

  /** Position k is what the broker says it ought to be (a closed spread may read SPREAD_CLOSED or IDLE),
      with the broker's share count. */
  predicate Mirrors(cfg: Config, w: World, k: nat)
    requires k < |w.db.positions|
  {
    var p := w.db.positions[k];
    var state := Abstraction(cfg, w.broker, p.symbol, p.strategy);
    && (p.state == state || (p.state.SpreadClosed? && state.Idle?))
    && p.shares == StockOf(w.broker, p.symbol).0 && (p.state.CcOpen? ==> p.shares > 0)
  }

  /** After every tick of every run, every position is the abstraction of broker truth. */
  lemma MirrorAfterTick(cfg: Config, w0: World, run: seq<Timed>, e: Timed)
    requires Fresh(w0) && LegalRun(cfg, w0, run) && Legal(cfg, After(cfg, w0, run), e) && e.event.TickNow?
    ensures var w := Step(cfg, After(cfg, w0, run), e);
            forall k :: 0 <= k < |w.db.positions| ==> Mirrors(cfg, w, k)
  {
    hide Legal, Step, After, LegalRun, Sound, Inv, Abstraction, AllSynced;
    FreshSound(cfg, w0);
    RunSound(cfg, w0, run, w0.broker.cash);
    var w := Step(cfg, After(cfg, w0, run), e);
    var s := TickScene(cfg, After(cfg, w0, run), e, w0.broker.cash);
    ShowsFields(s, cfg, w, w0.broker.cash);
    forall k | 0 <= k < |w.db.positions| ensures Mirrors(cfg, w, k) { SceneMirrors(s, k); }
  }

  /** In no run does a tick raise a flag, heal a stuck position or trip the auditor. */
  lemma TicksAreQuiet(cfg: Config, w0: World, run: seq<Timed>, e: Timed)
    requires Fresh(w0) && LegalRun(cfg, w0, run) && Legal(cfg, After(cfg, w0, run), e) && e.event.TickNow?
    ensures var t := TickOf(cfg, After(cfg, w0, run), e.event.stocks, e.event.legs, e.event.symbols, e.at);
            t.sum.manual == 0 && t.sum.heals == 0 && t.sum.parityFlags == 0
  {
    hide Legal, Step, After, LegalRun, Sound, Inv, AllSynced, TickOf;
    FreshSound(cfg, w0);
    RunSound(cfg, w0, run, w0.broker.cash);
    var s := TickScene(cfg, After(cfg, w0, run), e, w0.broker.cash);
  }

  // ---- Incremental equals full scan ----

  /** From scene s, the views since any covering instant and all orders leave the same tick. */
  lemma {:induction false} SameStream(s: Scene, t: Tick, n: nat, since: int, now: int)
    requires Inv(s) && Sized(s) && t.db == s.d && t.sum.fills == [] && n <= |s.b.orders|
    requires forall i :: 0 <= i < n && !CaughtUp(s, i) ==> Stamp(s.b.orders[i]) >= since
    ensures ProcessOrders(s.cfg, t, OrdersSince(s.b.orders[..n], since), now)
            == ProcessOrders(s.cfg, t, s.b.orders[..n], now)
    decreases n
  {
    hide Inv, ProcessOrder, FilledRows, NewlyFilled;
    if n > 0 {
      SameStream(s, t, n - 1, since, now);
      var all, some := s.b.orders[..n - 1], OrdersSince(s.b.orders[..n - 1], since);
      assert s.b.orders[..n][..n - 1] == all;
      var o := s.b.orders[n - 1];
      var t1 := ProcessOrders(s.cfg, t, all, now);
      PrefixViews(s, n - 1);
      var s1 := StreamKeeps(s, t, all, now);
      if Stamp(o) < since {
        assert CaughtUp(s1, n - 1) by { assert CaughtUp(s, n - 1); }
        ViewAbsorbed(s1, t1, n - 1, now);
        assert OrdersSince(s.b.orders[..n], since) == some + [] == some;
      } else {
        assert (some + [o])[..|some|] == some;
        assert OrdersSince(s.b.orders[..n], since) == some + [o];
      }
    }
  }

  lemma PrefixViews(s: Scene, n: nat)
    requires Inv(s) && Sized(s) && n <= |s.b.orders|
    ensures ViewsOf(s.b, s.b.orders[..n])
  {
    hide Inv, OrderShape;
    forall v | v in s.b.orders[..n]
      ensures v.brokerId.Some? && v.brokerId.value < |s.b.orders| && s.b.orders[v.brokerId.value] == v
    {
      var i :| 0 <= i < n && s.b.orders[..n][i] == v;
      InvOrder(s, i);
    }
  }

  lemma SceneFullScan(s: Scene, cursor: Option<int>, rows: seq<BrokerRow>, symbols: seq<string>)
    requires Inv(s)
    ensures ReconcileOnce(s.cfg, s.b, s.d, cursor, rows, symbols, s.clock)
         == ReconcileRows(s.cfg, s.d, s.b.orders, rows, symbols, s.clock)
  {
    hide Inv, ProcessOrders, Since, OrdersSince, ReconcilePositions, Audit;
    InvSized(s);
    var n := |s.b.orders|;
    var since := Since(s.d.orders, cursor);
    forall i | 0 <= i < n && !CaughtUp(s, i) ensures Stamp(s.b.orders[i]) >= since {
      ViewsCover(s, cursor, i);
      SinceMembers(s.b.orders, since);
    }
    assert s.b.orders[..n] == s.b.orders;
    SameStream(s, Tick(s.d, ZeroSummary), n, since, s.clock);
  }

  /** In every reachable world, whatever the cursor (none, stale or current), the incremental tick does
      exactly what a scan of every order ever placed would do: same tables, same counters. */
  lemma IncrementalEqualsFullScan(cfg: Config, w0: World, run: seq<Timed>, cursor: Option<int>,
                                  rows: seq<BrokerRow>, symbols: seq<string>, at: int)
    requires Fresh(w0) && LegalRun(cfg, w0, run) && at > After(cfg, w0, run).clock
    ensures var w := After(cfg, w0, run);
            ReconcileOnce(cfg, w.broker, w.db, cursor, rows, symbols, at)
            == ReconcileRows(cfg, w.db, w.broker.orders, rows, symbols, at)
  {
    hide Legal, Step, After, LegalRun, Inv, ReconcileOnce, ReconcileRows;
    FreshSound(cfg, w0);
    RunSound(cfg, w0, run, w0.broker.cash);
    var s :| Shows(s, cfg, After(cfg, w0, run), w0.broker.cash) && Inv(s);
    LaterKeeps(s, at);
    SceneFullScan(s.(clock := at), cursor, rows, symbols);
  }

  // ---- Exactly-once fills ----

  /** The rows handed to OnFill over a run, in order. */
  ghost function FillLog(cfg: Config, w: World, run: seq<Timed>): seq<nat>
    requires LegalRun(cfg, w, run)
    decreases |run|
  {
    if |run| == 0 then []
    else
      var n := |run| - 1;
      var before := After(cfg, w, run[..n]);
      FillLog(cfg, w, run[..n]) + TickFills(cfg, before, run[n])
  }

  lemma PlaceFills(cfg: Config, w: World, o: Order, at: int, cash0: real)
    requires Sound(cfg, w, cash0) && LegalPlace(cfg, w, o, at)
    ensures FilledRows(PlaceOrder(cfg, w.broker, w.db, o, o.strategy.value).1) == FilledRows(w.db)
  {
    hide Inv, OrderShape, Proposable, SlotFree, TargetState;
    var s :| Shows(s, cfg, w, cash0) && Inv(s);
    FreshAtBroker(s, o.clientId.value);
    StoredOK(s, o, at);
    var stored := StoredOrder(s, o);
    assert PersistOrder(w.db, stored).orders == w.db.orders + [stored];
  }

  lemma QuietStepFills(cfg: Config, w: World, e: Timed, cash0: real)
    requires Sound(cfg, w, cash0) && Legal(cfg, w, e) && !e.event.TickNow?
    ensures FilledRows(Step(cfg, w, e).db) == FilledRows(w.db)
  {
    hide Inv, LegalPlace, PlaceOrder;
    match e.event {
      case PlaceOne(o) => PlaceFills(cfg, w, o, e.at, cash0);
      case _ =>
    }
  }

  /** `log` lists, once each, exactly the filled rows of d. */
  ghost predicate LogOf(log: seq<nat>, d: Db) {
    Distinct(log) && (set j | j in log) == FilledRows(d)
  }

  lemma LogExtends(log: seq<nat>, js: seq<nat>, d: Db, d': Db)
    requires LogOf(log, d) && NewlyFilled(d, d', js)
    ensures LogOf(log + js, d')
  {
    hide FilledRows;
    assert (set j | j in log + js) == (set j | j in log) + (set j | j in js);
    forall a, b | 0 <= a < b < |log + js| ensures (log + js)[a] != (log + js)[b] {
      if a < |log| <= b { assert js[b - |log|] in js && log[a] in set j | j in log; }
    }
  }

  lemma {:induction false} FillLogExact(cfg: Config, w0: World, run: seq<Timed>)
    requires Fresh(w0) && LegalRun(cfg, w0, run)
    ensures LogOf(FillLog(cfg, w0, run), After(cfg, w0, run).db)
    decreases |run|
  {
    hide Legal, Step, Sound, FilledRows, LogOf, NewlyFilled, TickOf, Shows, AllSynced, AllCaughtUp, Inv;
    if |run| == 0 {
      NoRows(w0.db);
    } else {
      var n := |run| - 1;
      FillLogExact(cfg, w0, run[..n]);
      FreshSound(cfg, w0);
      RunSound(cfg, w0, run[..n], w0.broker.cash);
      FillLogStep(cfg, After(cfg, w0, run[..n]), run[n], FillLog(cfg, w0, run[..n]), w0.broker.cash);
    }
  }

  function TickFills(cfg: Config, w: World, e: Timed): seq<nat> {
    match e.event
    case TickNow(ks, cs, symbols) => TickOf(cfg, w, ks, cs, symbols, e.at).sum.fills
    case _ => []
  }

  lemma FillLogStep(cfg: Config, w: World, e: Timed, log: seq<nat>, cash0: real)
    requires Sound(cfg, w, cash0) && Legal(cfg, w, e) && LogOf(log, w.db)
    ensures LogOf(log + TickFills(cfg, w, e), Step(cfg, w, e).db)
  {
    hide Sound, FilledRows, LogOf, NewlyFilled, AllSynced, AllCaughtUp, Inv, Legal, TickOf, Step;
    if e.event.TickNow? {
      var s := TickScene(cfg, w, e, cash0);
      LogExtends(log, TickFills(cfg, w, e), w.db, s.d);
    } else {
      QuietStepFills(cfg, w, e, cash0);
      assert log + [] == log;
      SameLog(log, w.db, Step(cfg, w, e).db);
    }
  }

  lemma SameLog(log: seq<nat>, d: Db, d': Db)
    requires LogOf(log, d) && FilledRows(d') == FilledRows(d)
    ensures LogOf(log, d')
  {
  }

  lemma NoRows(d: Db)
    requires d.orders == []
    ensures LogOf([], d)
  {
  }

  /** Over any run ending in a tick, each order the broker has filled was handed to OnFill exactly
      once, and nothing else was. */
  lemma FillsExactlyOnce(cfg: Config, w0: World, run: seq<Timed>)
    requires Fresh(w0) && LegalRun(cfg, w0, run) && |run| > 0 && run[|run| - 1].event.TickNow?
    ensures var w := After(cfg, w0, run);
            var log := FillLog(cfg, w0, run);
            && Distinct(log)
            && (forall j :: j in log ==>
                j < |w.db.orders| && w.db.orders[j].status.Filled?
                && w.db.orders[j].clientId.Some?)
            && (forall i :: 0 <= i < |w.broker.orders| ==>
                  w.broker.orders[i].clientId.Some?
                  && var j := FindClient(w.db.orders, w.broker.orders[i].clientId.value);
                     j.Some? && (w.broker.orders[i].status.Filled? <==> j.value in log))
  {
    hide Legal, Step, Sound, Inv, OrderShape, AllSynced;
    FillLogExact(cfg, w0, run);
    var n := |run| - 1;
    FreshSound(cfg, w0);
    RunSound(cfg, w0, run[..n], w0.broker.cash);
    var s := TickScene(cfg, After(cfg, w0, run[..n]), run[n], w0.broker.cash);
    var w, log := After(cfg, w0, run), FillLog(cfg, w0, run);
    assert forall j :: j in log <==> j in FilledRows(w.db) by {
      assert forall j :: j in log <==> j in set x | x in log;
    }
    forall i | 0 <= i < |w.broker.orders|
      ensures w.broker.orders[i].clientId.Some?
              && var j := FindClient(w.db.orders, w.broker.orders[i].clientId.value);
                 j.Some? && (w.broker.orders[i].status.Filled? <==> j.value in log)
    {
      InvOrder(s, i);
      assert CaughtUp(s, i);
    }
  }
}
