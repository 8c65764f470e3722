/** The order router as it runs (execution/router.py): broker first, order row second, position last. */
module RouterService {
  import opened Models
  import opened PaperBrokers
  import opened Repos
  import opened BrokerSim
  import opened Tables
  import Router

  /** A row the tick-loop sweep may cancel: a PENDING entry at least `staleAfter` old. */
  predicate StaleOpen(r: Order, now: int, staleAfter: int) {
    r.status.Pending? && IsOpening(r.orderType) && r.brokerId.Some? && now - r.placedAt >= staleAfter
  }

  /** Some stale entry row among the first n names broker order i. */
  predicate SweptUpTo(rows: seq<Order>, n: nat, i: nat, now: int, staleAfter: int)
    requires n <= |rows|
  {
    exists j :: 0 <= j < n && StaleOpen(rows[j], now, staleAfter) && rows[j].brokerId == Some(i)
  }

  /** No row names order i but a young one, a close, or one that is not PENDING. */
  predicate Spared(rows: seq<Order>, i: nat, now: int, staleAfter: int) {
    forall j :: 0 <= j < |rows| && rows[j].brokerId == Some(i) ==>
      now - rows[j].placedAt < staleAfter || rows[j].orderType in {BuyToClose, SellToClose, MultiLegClose}
      || rows[j].status != Pending
  }

  lemma SparedNotSwept(rows: seq<Order>, now: int, staleAfter: int)
    ensures forall i: nat :: Spared(rows, i, now, staleAfter) <==> !SweptUpTo(rows, |rows|, i, now, staleAfter)
  {
  }

  function Changed(a: seq<Order>, b: seq<Order>): set<int>
    requires |a| == |b|
  {
    set i | 0 <= i < |a| && b[i] != a[i]
  }

  lemma NoneChanged(a: seq<Order>)
    ensures Changed(a, a) == {}
  {
  }

  lemma OneMoreChanged(a: seq<Order>, b: seq<Order>, c: seq<Order>, i: nat)
    requires |a| == |b| == |c| && i < |a| && c == b[i := c[i]] && b[i] == a[i] && c[i] != a[i]
    ensures |Changed(a, c)| == |Changed(a, b)| + 1
  {
    assert Changed(a, c) == Changed(a, b) + {i};
  }

  class OrderRouter {
    const cfg: Config
    const broker: PaperBroker
    const db: Repositories
    const staleAfter: int

    constructor (cfg: Config, broker: PaperBroker, db: Repositories, staleAfter: int)
      ensures this.cfg == cfg && this.broker == broker && this.db == db && this.staleAfter == staleAfter
    {
      this.cfg, this.broker, this.db, this.staleAfter := cfg, broker, db, staleAfter;
    }

    /** _rule_concurrent_total */
    method SlotFree(symbol: string, strategy: string) returns (free: bool)
      ensures free == Router.SlotFree(cfg, db.positions, symbol, strategy)
    {
      if cfg.maxConcurrentTotal.None? { return true; }
      var managed := false;
      for n := 0 to |db.positions|
        invariant managed <==> exists j :: 0 <= j < n && Live(db.positions[j]) && db.positions[j].symbol == symbol
                                           && db.positions[j].strategy == strategy
      {
        managed := managed || (Live(db.positions[n]) && db.positions[n].symbol == symbol
                               && db.positions[n].strategy == strategy);
      }
      if managed { return true; }
      var live := db.CountLive();
      free := live + 1 <= cfg.maxConcurrentTotal.value;
    }

    /** The cancel contract of core/broker.py: it raises when the order is no longer working. */
    method CancelAtBroker(id: nat) returns (ok: bool)
      modifies broker
      ensures broker.View() == Cancel(old(broker.View()), id)
      ensures ok <==> id < |old(broker.orders)| && Working(old(broker.orders)[id].status)
    {
      ok := id < |broker.orders| && Working(broker.orders[id].status);
      if ok { broker.CancelOrder(id); }
    }

    /** _replace_stale_pending: only a working order past its age is cancelled, and only a cancel that
        took effect is recorded. */
    method ReplaceStalePending(cid: string, now: int) returns (action: Router.StaleAction, row: Option<nat>)
      modifies broker, db
      ensures row == FindClient(old(db.orders), cid)
      ensures row.Some? ==> row.value < |old(db.orders)|
      ensures (action, broker.View(), db.View())
              == Router.ReplaceStale(old(broker.View()), old(db.View()), cid, now, staleAfter)
    {
      row := db.GetByClientId(cid);
      if row.None? { return Router.Proceed, row; }
      var r := db.orders[row.value];
      if !Working(r.status) { return Router.Replace, row; }
      if now - r.placedAt < staleAfter { return Router.Skip, row; }
      if r.brokerId.Some? {
        var ok := CancelAtBroker(r.brokerId.value);
        if !ok { return Router.Skip, row; }
      }
      db.UpdateOrderRow(row.value, r.(status := Cancelled));
      assert db.orders[row.value] != r;
      action := Router.Replace;
    }

    /** cancel_stale_pending_opens: the broker alone is touched. Every working order named by a PENDING entry row at
        least `staleAfter` old is cancelled; an order all of whose rows are younger, or closes, or not PENDING, or
        name another order, is left as it was. The count is that of the orders cancelled. */
    method CancelStalePendingOpens(now: int) returns (cancelled: nat)
      modifies broker
      ensures broker.cash == old(broker.cash) && broker.stock == old(broker.stock)
      ensures broker.options == old(broker.options)
      ensures |broker.orders| == |old(broker.orders)|
      ensures forall i :: 0 <= i < |broker.orders| ==>
                var was := old(broker.orders)[i];
                broker.orders[i] == was || (Working(was.status) && broker.orders[i] == was.(status := Cancelled))
      ensures forall j, i: nat ::
                (&& 0 <= j < |db.orders| && db.orders[j].brokerId == Some(i) && i < |broker.orders|
                 && db.orders[j].status == Pending && db.orders[j].orderType in {SellToOpen, BuyToOpen, MultiLegOpen}
                 && now - db.orders[j].placedAt >= staleAfter)
                ==> broker.orders[i].status !in {Pending, Partial}
      ensures forall i :: 0 <= i < |broker.orders| && Spared(db.orders, i, now, staleAfter) ==>
                broker.orders[i] == old(broker.orders)[i]
      ensures cancelled == |Changed(old(broker.orders), broker.orders)|
    {
      cancelled := 0;
      ghost var was := broker.orders;
      NoneChanged(was);
      for n := 0 to |db.orders|
        invariant broker.cash == old(broker.cash) && broker.stock == old(broker.stock)
        invariant broker.options == old(broker.options)
        invariant |broker.orders| == |was|
        invariant forall i :: 0 <= i < |was| ==>
                    broker.orders[i] == if Working(was[i].status) && SweptUpTo(db.orders, n, i, now, staleAfter)
                                        then was[i].(status := Cancelled) else was[i]
        invariant cancelled == |Changed(was, broker.orders)|
      {
        var r := db.orders[n];
        ghost var before := broker.orders;
        assert forall i: nat :: SweptUpTo(db.orders, n + 1, i, now, staleAfter)
                 <==>
                   SweptUpTo(db.orders, n, i, now, staleAfter)
                   || (StaleOpen(r, now, staleAfter) && r.brokerId == Some(i));
        if StaleOpen(r, now, staleAfter) {
          var ok := CancelAtBroker(r.brokerId.value);
          if ok {
            OneMoreChanged(was, before, broker.orders, r.brokerId.value);
            cancelled := cancelled + 1;
          }
        }
      }
      SparedNotSwept(db.orders, now, staleAfter);
    }

    /** place, after its gates: a rejection writes nothing. */
    method Place(o: Order, strategy: string) returns (placed: bool)
      requires !IsMultiLeg(o.orderType)
      modifies broker, db
      ensures (broker.View(), db.View()) == Router.PlaceOrder(cfg, old(broker.View()), old(db.View()), o, strategy)
      ensures placed <==> PaperBrokers.Place(old(broker.View()), o).1.Some?
    {
      var r := broker.PlaceOrder(o);
      if r.Failed? { return false; }
      PersistOrder(r.value);
      UpsertPending(r.value, strategy);
      placed := true;
    }

    /** place from the duplicate check on: `base` is the day's id, `other` the one a replacement would carry. */
    method Route(o: Order, base: string, other: string, strategy: string) returns (placed: bool)
      requires !IsMultiLeg(o.orderType)
      modifies broker, db
      ensures (broker.View(), db.View())
           == Router.Resubmit(cfg, old(broker.View()), old(db.View()), o, base, other, strategy, staleAfter)
    {
      hide Router.ReplaceStale, Router.PlaceOrder;
      var action, _ := ReplaceStalePending(base, o.placedAt);
      if action.Skip? { return false; }
      placed := Place(o.(clientId := Some(if action.Proceed? then base else other)), strategy);
    }

    /** place_multi_leg, after its gates. */
    method PlaceMultiLeg(symbol: string, legs: seq<Leg>, quantity: int, limitPrice: Option<real>,
                         clientId: Option<string>,
                         strategy: string, now: int)
      returns (placed: bool)
      modifies broker, db
      ensures placed <==> |legs| > 0 && quantity > 0
      ensures !placed ==> broker.View() == old(broker.View()) && db.View() == old(db.View())
      ensures var package := PackageOf(symbol, legs, quantity, limitPrice, clientId, Some(strategy), now);
              placed ==>
                (broker.View(), db.View())
                  == Router.PlaceOrder(cfg, old(broker.View()), old(db.View()), package, strategy)
    {
      var r := broker.PlaceMultiLegOrder(symbol, legs, quantity, limitPrice, clientId, Some(strategy), now);
      if r.Failed? { return false; }
      PersistOrder(r.value);
      UpsertPending(r.value, strategy);
      placed := true;
    }

    method PersistOrder(o: Order)
      modifies db
      ensures db.View() == Router.PersistOrder(old(db.View()), o)
    {
      var prior: Option<nat> := None;
      if o.clientId.Some? { prior := db.GetByClientId(o.clientId.value); }
      if prior.Some? {
        var r := db.orders[prior.value];
        if o.brokerId.Some? { r := r.(brokerId := o.brokerId); }
        db.UpdateOrderRow(prior.value, r.(status := o.status));
      } else {
        db.InsertOrderRow(o);
      }
    }

    method UpsertPending(o: Order, strategy: string)
      modifies db
      ensures db.View() == Router.UpsertPending(cfg, old(db.View()), o, strategy)
    {
      if Router.KeepsPosition(o, strategy) { return; }
      var at := db.GetBySymbol(o.symbol, Some(strategy));
      var state := Router.TargetState(cfg, o, strategy, at.Some?);
      if at.Some? {
        db.UpdatePositionRow(at.value, db.positions[at.value].(state := state));
      } else {
        db.InsertPositionRow(Position(o.symbol, strategy, state, 0, None, None));
      }
    }
  }
}
