/** The router's protection against duplicates over repeated proposals of one order (execution/router.py:243-323,
    534-553, 737-747): when it leaves a single order working, when orders pile up, and what the books then miss. */
module Resubmission {
  import opened Models
  import opened PaperBrokers
  import opened Repos
  import opened Router
  import opened Reconciler
  import opened LedgerTables
  import opened OrderStream

  // ---- Counting ----

  predicate WorksOn(r: Order, o: Order) {
    Working(r.status) && r.symbol == o.symbol && r.strategy == o.strategy
  }

  /** The working orders of o's (symbol, strategy). */
  function WorkingOn(rows: seq<Order>, o: Order): nat {
    if |rows| == 0 then 0 else WorkingOn(rows[..|rows| - 1], o) + if WorksOn(rows[|rows| - 1], o) then 1 else 0
  }

  lemma WorkingMore(rows: seq<Order>, r: Order, o: Order)
    ensures WorkingOn(rows + [r], o) == WorkingOn(rows, o) + if WorksOn(r, o) then 1 else 0
  {
    assert (rows + [r])[..|rows|] == rows;
  }

  lemma {:induction false} WorkingSet(rows: seq<Order>, j: nat, r: Order, o: Order)
    requires j < |rows|
    ensures WorkingOn(rows[j := r], o)
         == WorkingOn(rows, o) - (if WorksOn(rows[j], o) then 1 else 0) + if WorksOn(r, o) then 1 else 0
  {
    var n := |rows| - 1;
    if j == n {
      assert rows[j := r][..n] == rows[..n];
    } else {
      assert rows[j := r][..n] == rows[..n][j := r];
      WorkingSet(rows[..n], j, r, o);
    }
  }

  lemma {:induction false} SamePairWorking(rows: seq<Order>, o: Order, r: Order)
    requires o.symbol == r.symbol && o.strategy == r.strategy
    ensures WorkingOn(rows, o) == WorkingOn(rows, r)
  {
    if |rows| > 0 { SamePairWorking(rows[..|rows| - 1], o, r); }
  }

  // ---- One resubmission ----

  /** No order anywhere carries the id. */
  predicate NewId(b: BrokerState, d: Db, id: string) {
    && (forall i :: 0 <= i < |b.orders| ==> b.orders[i].clientId != Some(id))
    && (forall j :: 0 <= j < |d.orders| ==> d.orders[j].clientId != Some(id))
  }

  /** A positive order under a new id is stored on both sides; any other is rejected. */
  lemma PlacedOne(cfg: Config, b: BrokerState, d: Db, o: Order, id: string, strategy: string)
    requires NewId(b, d, id)
    ensures var sent := o.(clientId := Some(id));
            var stored := sent.(brokerId := Some(|b.orders|), status := Pending);
            var (b', d') := PlaceOrder(cfg, b, d, sent, strategy);
            if o.quantity > 0
            then b' == b.(orders := b.orders + [stored]) && d'.orders == d.orders + [stored]
                 && (KeepsPosition(o, strategy) ==> d' == d.(orders := d.orders + [stored]))
            else (b', d') == (b, d)
  {
    hide UpsertPending, FindClient, FindBrokerClient;
    FindBrokerClientNone(b.orders, id);
    FindClientSound(d.orders, id);
    var sent := o.(clientId := Some(id));
    var stored := sent.(brokerId := Some(|b.orders|), status := Pending);
    UpsertKeeps(cfg, PersistOrder(d, stored), stored, strategy);
  }

  lemma UpsertKeeps(cfg: Config, d: Db, o: Order, strategy: string)
    ensures UpsertPending(cfg, d, o, strategy).orders == d.orders
    ensures KeepsPosition(o, strategy) ==> UpsertPending(cfg, d, o, strategy) == d
  {
    hide FindPosition, TargetState, KeepsPosition;
  }

  lemma PlacedCount(cfg: Config, b: BrokerState, d: Db, o: Order, id: string, strategy: string)
    requires NewId(b, d, id)
    ensures var (b', d') := PlaceOrder(cfg, b, d, o.(clientId := Some(id)), strategy);
            var more := if o.quantity > 0 then 1 else 0;
            WorkingOn(d'.orders, o) == WorkingOn(d.orders, o) + more
              && WorkingOn(b'.orders, o) == WorkingOn(b.orders, o) + more
  {
    hide PlaceOrder;
    PlacedOne(cfg, b, d, o, id, strategy);
    var stored := o.(clientId := Some(id), brokerId := Some(|b.orders|), status := Pending);
    WorkingMore(b.orders, stored, o);
    WorkingMore(d.orders, stored, o);
  }

  /** The base id names a row of o's own pair, or nothing at all; the other id is new. */
  predicate OwnIds(b: BrokerState, d: Db, o: Order, base: string, other: string) {
    && NewId(b, d, other)
    && var at := FindClient(d.orders, base);
       if at.None? then NewId(b, d, base)
       else at.value < |d.orders| ==> d.orders[at.value].symbol == o.symbol && d.orders[at.value].strategy == o.strategy
  }

  predicate BaseWorks(d: Db, base: string) {
    var at := FindClient(d.orders, base);
    at.Some? && at.value < |d.orders| && Working(d.orders[at.value].status)
  }

  function ActionOf(b: BrokerState, d: Db, base: string, now: int, staleAfter: int): StaleAction {
    ReplaceStale(b, d, base, now, staleAfter).0
  }

  /** What the replacement check does to the tables: nothing, or its working row is cancelled. */
  lemma StaleEffect(b: BrokerState, d: Db, o: Order, base: string, other: string, now: int, staleAfter: int)
    requires OwnIds(b, d, o, base, other)
    ensures var (action, b', d') := ReplaceStale(b, d, base, now, staleAfter);
            && NewId(b', d', other) && (action.Proceed? ==> NewId(b', d', base))
            && (action.Skip? ==> (b', d') == (b, d))
            && (action.Proceed? ==> !BaseWorks(d, base) && (b', d') == (b, d))
            && WorkingOn(d'.orders, o)
               == WorkingOn(d.orders, o) - (if action.Replace? && BaseWorks(d, base) then 1 else 0)
            && (action.Replace? && !BaseWorks(d, base) ==> (b', d') == (b, d))
  {
    hide FindClient;
    FindClientSound(d.orders, base);
    var at := FindClient(d.orders, base);
    if at.Some? {
      var r := d.orders[at.value];
      WorkingSet(d.orders, at.value, r.(status := Cancelled), o);
      if Working(r.status) { assert d.orders[at.value := r.(status := Cancelled)][at.value] != d.orders[at.value]; }
    }
  }

  /** A resubmission takes its own working row away when it replaces it, and adds an order when it sends one that
      the broker does not reject. */
  lemma ResubmitCount(cfg: Config, b: BrokerState, d: Db, o: Order, base: string, other: string, strategy: string,
                      staleAfter: int)
    requires OwnIds(b, d, o, base, other)
    ensures var (b', d') := Resubmit(cfg, b, d, o, base, other, strategy, staleAfter);
            var skipped := ActionOf(b, d, base, o.placedAt, staleAfter).Skip?;
            WorkingOn(d'.orders, o)
            == WorkingOn(d.orders, o) - (if !skipped && BaseWorks(d, base) then 1 else 0)
               + if !skipped && o.quantity > 0 then 1 else 0
  {
    hide PlaceOrder, ReplaceStale, OwnIds, NewId, BaseWorks;
    StaleEffect(b, d, o, base, other, o.placedAt, staleAfter);
    var (action, b1, d1) := ReplaceStale(b, d, base, o.placedAt, staleAfter);
    match action {
      case Skip =>
      case Proceed => PlacedCount(cfg, b1, d1, o, base, strategy);
      case Replace => PlacedCount(cfg, b1, d1, o, other, strategy);
    }
  }

  /** From tables with at most one working order on the pair, a resubmission leaves at most one if and only if it
      is skipped or rejected, or the base row is the working one, or the pair has no working order. */
  lemma OneLeftExactly(cfg: Config, b: BrokerState, d: Db, o: Order, base: string, other: string, strategy: string,
                       staleAfter: int)
    requires OwnIds(b, d, o, base, other) && WorkingOn(d.orders, o) <= 1
    ensures var (b', d') := Resubmit(cfg, b, d, o, base, other, strategy, staleAfter);
            WorkingOn(d'.orders, o) <= 1
            <==> ActionOf(b, d, base, o.placedAt, staleAfter).Skip? || o.quantity <= 0 || BaseWorks(d, base)
                 || WorkingOn(d.orders, o) == 0
  {
    hide Resubmit, OwnIds, BaseWorks, ActionOf, WorkingOn;
    ResubmitCount(cfg, b, d, o, base, other, strategy, staleAfter);
  }

  /** The premise of the run theorems, that nothing of the pair works when an order goes out, holds of a
      resubmission exactly if the base row is the only working one, or there is none. */
  lemma PremiseExactly(b: BrokerState, d: Db, o: Order, base: string, other: string, now: int, staleAfter: int)
    requires OwnIds(b, d, o, base, other) && !ActionOf(b, d, base, now, staleAfter).Skip?
    ensures WorkingOn(ReplaceStale(b, d, base, now, staleAfter).2.orders, o) == 0
            <==> WorkingOn(d.orders, o) == if BaseWorks(d, base) then 1 else 0
  {
    hide ReplaceStale, OwnIds, BaseWorks, NewId;
    StaleEffect(b, d, o, base, other, now, staleAfter);
  }

  // ---- Every later proposal ----

  /** One more proposal of the same order: when, and the id a replacement would carry. */
  datatype Attempt = Attempt(at: int, other: string)

  function AfterAttempts(cfg: Config, b: BrokerState, d: Db, o: Order, base: string, strategy: string, staleAfter: int,
                         tries: seq<Attempt>): (BrokerState, Db)
  {
    if |tries| == 0 then (b, d)
    else
      var (b', d') := AfterAttempts(cfg, b, d, o, base, strategy, staleAfter, tries[..|tries| - 1]);
      var a := tries[|tries| - 1];
      Resubmit(cfg, b', d', o.(placedAt := a.at), base, a.other, strategy, staleAfter)
  }

  /** Replacement ids are new and distinct (the program suffixes the second of the attempt). */
  predicate NewIds(b: BrokerState, d: Db, tries: seq<Attempt>) {
    && (forall n :: 0 <= n < |tries| ==> NewId(b, d, tries[n].other))
    && (forall m, n :: 0 <= m < n < |tries| ==> tries[m].other != tries[n].other)
  }

  /** The row under the base id, which no later attempt touches. */
  predicate SettledBase(d: Db, base: string, j: nat) {
    FindClient(d.orders, base) == Some(j) && j < |d.orders| && !Working(d.orders[j].status)
  }

  lemma SettledAttempt(cfg: Config, b: BrokerState, d: Db, o: Order, base: string, other: string, strategy: string,
                       staleAfter: int, j: nat)
    requires SettledBase(d, base, j) && NewId(b, d, other) && o.quantity > 0
    ensures var (b', d') := Resubmit(cfg, b, d, o, base, other, strategy, staleAfter);
            && SettledBase(d', base, j)
            && WorkingOn(d'.orders, o) == WorkingOn(d.orders, o) + 1
            && WorkingOn(b'.orders, o) == WorkingOn(b.orders, o) + 1
            && (forall id :: NewId(b, d, id) && id != other ==> NewId(b', d', id))
  {
    hide PlaceOrder, FindClient;
    PlacedOne(cfg, b, d, o, other, strategy);
    PlacedCount(cfg, b, d, o, other, strategy);
    var stored := o.(clientId := Some(other), brokerId := Some(|b.orders|), status := Pending);
    FindClientFirst(d.orders, [stored], base);
  }

  /** Once the base row is settled every further attempt adds one working order to the pair, here and at the
      broker: n attempts, n more. */
  lemma {:induction false} PilesUp(cfg: Config, b: BrokerState, d: Db, o: Order, base: string, strategy: string,
                                   staleAfter: int, tries: seq<Attempt>, j: nat)
    requires SettledBase(d, base, j) && NewIds(b, d, tries) && o.quantity > 0
    ensures var (b', d') := AfterAttempts(cfg, b, d, o, base, strategy, staleAfter, tries);
            && SettledBase(d', base, j)
            && WorkingOn(d'.orders, o) == WorkingOn(d.orders, o) + |tries|
            && WorkingOn(b'.orders, o) == WorkingOn(b.orders, o) + |tries|
            && (forall id :: NewId(b, d, id) && (forall n :: 0 <= n < |tries| ==> tries[n].other != id) ==>
                NewId(b', d', id))
  {
    hide Resubmit, SettledBase, NewId, WorkingOn;
    if |tries| > 0 {
      var n, rest := |tries| - 1, tries[..|tries| - 1];
      assert forall m :: 0 <= m < n ==> rest[m] == tries[m];
      PilesUp(cfg, b, d, o, base, strategy, staleAfter, rest, j);
      var (b1, d1) := AfterAttempts(cfg, b, d, o, base, strategy, staleAfter, rest);
      var a := tries[n];
      var again := o.(placedAt := a.at);
      SettledAttempt(cfg, b1, d1, again, base, a.other, strategy, staleAfter, j);
      var (b2, d2) := Resubmit(cfg, b1, d1, again, base, a.other, strategy, staleAfter);
      SamePairWorking(d1.orders, o, again);
      SamePairWorking(d2.orders, o, again);
      SamePairWorking(b1.orders, o, again);
      SamePairWorking(b2.orders, o, again);
    }
  }

  // ---- A put spread's close, proposed three times ----

  const NoCaps := Config({}, {"put_spread"}, false, 0, None)

  const CloseLegs := [Leg(Contract("SPY", 9, Put, 500.0), BuyToClose, 1),
                      Leg(Contract("SPY", 9, Put, 495.0), SellToClose, 1)]

  function SpreadClose(at: int): Order {
    Order("SPY", Some("put_spread"), MultiLegClose, None, CloseLegs, 1, Some(-0.5), None, Pending, at, None, None, None,
          None, None, false)
  }

  /** The close as stored under an id and a broker id. */
  function Sent(at: int, id: string, i: nat): Order {
    SpreadClose(at).(clientId := Some(id), brokerId := Some(i))
  }

  const OpenSpread := Position("SPY", "put_spread", SpreadOpen, 0, None, Some(0))

  const SpreadCycle := Cycle("SPY", Some("put_spread"), 0, None, None, Some(100.0), None, None)

  const FirstClose := Sent(0, "wb", 0)

  const SecondClose := Sent(20, "wb-r20", 1)

  const ThirdClose := Sent(21, "wb-r21", 2)

  /** A broker and tables that hold the same orders, and the open spread. */
  function Desk(rows: seq<Order>): (BrokerState, Db) {
    (BrokerState(0.0, map[], map[], rows), Db(rows, [OpenSpread], [SpreadCycle], []))
  }

  function Propose(at: int, other: string, rows: seq<Order>): (BrokerState, Db) {
    var (b, d) := Desk(rows);
    Resubmit(NoCaps, b, d, SpreadClose(at), "wb", other, "put_spread", 15)
  }

  lemma ProposedFirst()
    ensures Propose(0, "wb-r0", []) == Desk([FirstClose])
  {
    hide PlaceOrder;
    var (b, d) := Desk([]);
    PlacedOne(NoCaps, b, d, SpreadClose(0), "wb", "put_spread");
    assert [] + [FirstClose] == [FirstClose];
  }

  lemma ProposedAgain()
    ensures Propose(20, "wb-r20", [FirstClose]) == Desk([FirstClose.(status := Cancelled), SecondClose])
  {
    hide PlaceOrder;
    var c := FirstClose.(status := Cancelled);
    var (b, d) := Desk([c]);
    assert [FirstClose][..0] == [] && [FirstClose][0 := c] == [c];
    assert FindClient([FirstClose], "wb") == Some(0);
    var (b0, d0) := Desk([FirstClose]);
    assert CancelStale(b0, d0, 0) == (b, d);
    assert d.orders[0] != d0.orders[0];
    PlacedOne(NoCaps, b, d, SpreadClose(20), "wb-r20", "put_spread");
    assert [c] + [SecondClose] == [c, SecondClose];
  }

  lemma ProposedThird()
    ensures Propose(21, "wb-r21", [FirstClose.(status := Cancelled), SecondClose])
         == Desk([FirstClose.(status := Cancelled), SecondClose, ThirdClose])
  {
    hide PlaceOrder;
    var c := FirstClose.(status := Cancelled);
    var (b, d) := Desk([c, SecondClose]);
    assert [c][..0] == [] && FindClient([c], "wb") == Some(0);
    assert [c, SecondClose][..1] == [c] && FindClient([c, SecondClose], "wb") == Some(0);
    PlacedOne(NoCaps, b, d, SpreadClose(21), "wb-r21", "put_spread");
    assert [c, SecondClose] + [ThirdClose] == [c, SecondClose, ThirdClose];
  }

  lemma OneMore(cfg: Config, b: BrokerState, d: Db, o: Order, base: string, strategy: string, staleAfter: int,
                tries: seq<Attempt>, a: Attempt)
    ensures var (b', d') := AfterAttempts(cfg, b, d, o, base, strategy, staleAfter, tries);
            AfterAttempts(cfg, b, d, o, base, strategy, staleAfter, tries + [a])
            == Resubmit(cfg, b', d', o.(placedAt := a.at), base, a.other, strategy, staleAfter)
  {
    assert (tries + [a])[..|tries|] == tries;
  }

  /** Stale after 15, proposed at 0, 20 and 21: the first is cancelled, the other two work, here and at the broker. */
  lemma TwoClosesWork()
    ensures var (b, d) := Desk([]);
            var tries := [Attempt(0, "wb-r0"), Attempt(20, "wb-r20"), Attempt(21, "wb-r21")];
            var rows := [FirstClose.(status := Cancelled), SecondClose, ThirdClose];
            && AfterAttempts(NoCaps, b, d, SpreadClose(0), "wb", "put_spread", 15, tries) == Desk(rows)
            && WorkingOn(rows, SpreadClose(0)) == 2
  {
    hide Resubmit, AfterAttempts;
    var (b, d) := Desk([]);
    var first, second, third := Attempt(0, "wb-r0"), Attempt(20, "wb-r20"), Attempt(21, "wb-r21");
    NoneYet(b, d);
    OneMore(NoCaps, b, d, SpreadClose(0), "wb", "put_spread", 15, [], first);
    OneMore(NoCaps, b, d, SpreadClose(0), "wb", "put_spread", 15, [first], second);
    OneMore(NoCaps, b, d, SpreadClose(0), "wb", "put_spread", 15, [first, second], third);
    assert [] + [first] == [first] && [first] + [second] == [first, second];
    assert [first, second] + [third] == [first, second, third];
    ProposedFirst();
    ProposedAgain();
    ProposedThird();
    var c := FirstClose.(status := Cancelled);
    assert [c, SecondClose, ThirdClose][..2] == [c, SecondClose] && [c, SecondClose][..1] == [c] && [c][..0] == [];
    assert WorkingOn([c], SpreadClose(0)) == 0 && WorkingOn([c, SecondClose], SpreadClose(0)) == 1;
  }

  lemma NoneYet(b: BrokerState, d: Db)
    ensures AfterAttempts(NoCaps, b, d, SpreadClose(0), "wb", "put_spread", 15, []) == (b, d)
  {
  }

  // ---- What the books miss ----

  /** A package close is booked exactly if its pair still points at a cycle when the fill is seen. */
  lemma CloseBookedExactly(cfg: Config, t: Tick, j: nat, o: Order, v: Order, now: int)
    requires o.orderType.MultiLegClose? && o.cycle.None? && j < |t.db.orders| && t.db.orders[j].cycle.None?
    requires o.strategy != Some("pmcc") && (o.strategy.Some? ==> o.strategy.value !in cfg.swing)
    ensures var t' := OnFill(cfg, t, j, o, v, now);
            && j < |t'.db.orders|
            && (t'.db.orders[j].cycle.Some? <==> PointerOf(t, FindPosition(t.db.positions, o.symbol, o.strategy)).Some?)
  {
    hide FindPosition, SetState, CloseCycle, ClearCycle;
    var t0 := t.(sum := t.sum.(fills := t.sum.fills + [j]));
    var at := FindPosition(t.db.positions, o.symbol, o.strategy);
    var t1 := TagClose(t0, j, o, PointerOf(t0, at));
    SetKeeps(t1, at, o.symbol, SpreadClosed, None, o.strategy, now);
    var t2 := SetState(t1, at, o.symbol, SpreadClosed, None, o.strategy, now);
    if PointerOf(t0, at).Some? {
      var cy := PointerOf(t0, at).value;
      CloseKeeps(t2, at, cy, SpreadCloseOutcome(o.strategy), now);
      CloseKeeps(CloseCycle(t2, cy, SpreadCloseOutcome(o.strategy), now), at, cy, SpreadCloseOutcome(o.strategy), now);
    }
  }

  /** And seeing it clears that pointer: of several closes that fill, only the first seen is booked. */
  lemma OnlyFirstCloseBooked(cfg: Config, t: Tick, j: nat, o: Order, v: Order, k: nat, now: int)
    requires o.orderType.MultiLegClose? && o.strategy != Some("pmcc")
             && (o.strategy.Some? ==> o.strategy.value !in cfg.swing)
    requires FindPosition(t.db.positions, o.symbol, o.strategy) == Some(k) && k < |t.db.positions|
    ensures var t' := OnFill(cfg, t, j, o, v, now);
            && FindPosition(t'.db.positions, o.symbol, o.strategy) == Some(k)
            && k < |t'.db.positions| && t'.db.positions[k].state.SpreadClosed? && t'.db.positions[k].cycle.None?
  {
    hide FindPosition, CyclePnl, TagOrder;
    FindPositionSound(t.db.positions, o.symbol, o.strategy);
    TagStays(t.(sum := t.sum.(fills := t.sum.fills + [j])), j, o);
    FindPositionKeys(t.db.positions, OnFill(cfg, t, j, o, v, now).db.positions, o.symbol, o.strategy);
  }

  lemma TagStays(t: Tick, j: nat, o: Order)
    ensures forall cycle :: TagClose(t, j, o, cycle).db.positions == t.db.positions
                            && TagClose(t, j, o, cycle).db.cycles == t.db.cycles
  {
  }
}
