/** Broker, tables, router and reconciler wired together, taking one event at a time. The session
    keeps the run invariant, so every tick it makes leaves the books equal to the broker. */
module TradingSession {
  import opened Models
  import opened PaperBrokers
  import opened Repos
  import opened Ledger
  import opened LedgerRuns
  import opened LedgerTheorems
  import opened BrokerSim
  import opened Tables
  import RouterService
  import ReconcilerService
  import Spec = Reconciler
  import Router

  class Session {
    const cfg: Config
    const broker: PaperBroker
    const db: Repositories
    const router: RouterService.OrderRouter
    const reconciler: ReconcilerService.Reconciler
    const openingCash: real
    var clock: int

    /** The parts share one broker and one set of tables. */
    predicate Wired() {
      && router.cfg == cfg && router.broker == broker && router.db == db
      && reconciler.cfg == cfg && reconciler.broker == broker && reconciler.db == db
    }

    ghost function View(): World
      reads this, broker, db, reconciler
    {
      World(broker.View(), db.View(), reconciler.cursor, clock)
    }

    ghost predicate Valid()
      reads this, broker, db, reconciler
    {
      Wired() && Sound(cfg, View(), openingCash)
    }

    constructor (cfg: Config, openingCash: real, staleAfter: int)
      ensures Valid() && Fresh(View()) && broker.cash == openingCash == this.openingCash && this.cfg == cfg
      ensures fresh(broker) && fresh(db) && fresh(reconciler)
    {
      var b := new PaperBroker(openingCash);
      var d := new Repositories();
      var rt := new RouterService.OrderRouter(cfg, b, d, staleAfter);
      var rc := new ReconcilerService.Reconciler(cfg, b, d);
      this.cfg, this.openingCash, clock := cfg, openingCash, 0;
      broker, db, router, reconciler := b, d, rt, rc;
      new;
      FreshSound(cfg, View());
    }

    method Submit(o: Order, at: int)
      requires Valid() && !IsMultiLeg(o.orderType) && Legal(cfg, View(), Timed(at, PlaceOne(o)))
      modifies this, broker, db
      ensures Valid() && View() == Step(cfg, old(View()), Timed(at, PlaceOne(o)))
    {
      hide Router.PlaceOrder, Sound;
      ghost var w := View();
      var placed := router.Place(o, o.strategy.value);
      clock := at;
      StepSound(cfg, w, Timed(at, PlaceOne(o)), openingCash);
    }

    method SubmitPackage(symbol: string, legs: seq<Leg>, quantity: int, limitPrice: Option<real>,
                         clientId: Option<string>,
                         strategy: string, at: int)
      requires Valid()
      requires Legal(cfg, View(),
                     Timed(at, PlaceOne(PackageOf(symbol, legs, quantity, limitPrice, clientId, Some(strategy), at))))
      modifies this, broker, db
      ensures Valid()
      ensures View() == Step(cfg, old(View()),
                             Timed(at, PlaceOne(PackageOf(symbol, legs, quantity, limitPrice, clientId, Some(strategy),
                                                          at))))
    {
      hide Router.PlaceOrder, Sound;
      ghost var w := View();
      ghost var o := PackageOf(symbol, legs, quantity, limitPrice, clientId, Some(strategy), at);
      var placed := router.PlaceMultiLeg(symbol, legs, quantity, limitPrice, clientId, strategy, at);
      clock := at;
      StepSound(cfg, w, Timed(at, PlaceOne(o)), openingCash);
    }

    /** Re-pricing a close: its working order goes first if it is old enough. */
    method ReplaceClose(cid: string, j: nat, at: int)
      requires Valid() && FindClient(db.orders, cid) == Some(j) && Legal(cfg, View(), Timed(at, Ledger.Replace(j)))
      modifies this, broker, db
      ensures Valid()
      ensures View() == if at - old(db.orders)[j].placedAt >= router.staleAfter
                        then Step(cfg, old(View()), Timed(at, Ledger.Replace(j))) else old(View())
    {
      hide Sound, Router.CancelStale;
      ghost var w := View();
      var stale := at - db.orders[j].placedAt >= router.staleAfter;
      var action, row := router.ReplaceStalePending(cid, at);
      if stale {
        clock := at;
        StepSound(cfg, w, Timed(at, Ledger.Replace(j)), openingCash);
      }
    }

    /** The broker's own moves. */
    method Fill(id: nat, price: real, at: int)
      requires Valid() && Legal(cfg, View(), Timed(at, FillOne(id, price)))
      modifies this, broker
      ensures Valid() && View() == Step(cfg, old(View()), Timed(at, FillOne(id, price)))
    {
      hide Sound, PaperBrokers.Fill;
      ghost var w := View();
      if IsMultiLeg(broker.orders[id].orderType) {
        var r := broker.FillMultiLeg(id, price, at);
      } else {
        var r := broker.FillOrder(id, price, at);
      }
      clock := at;
      StepSound(cfg, w, Timed(at, FillOne(id, price)), openingCash);
    }

    method CancelAtBroker(id: nat, at: int)
      requires Valid() && at > clock
      modifies this, broker
      ensures Valid() && View() == Step(cfg, old(View()), Timed(at, Drop(id)))
    {
      hide Sound;
      ghost var w := View();
      broker.CancelOrder(id);
      clock := at;
      StepSound(cfg, w, Timed(at, Drop(id)), openingCash);
    }

    method Assign(c: Contract, at: int)
      requires Valid() && Legal(cfg, View(), Timed(at, AssignLeg(c)))
      modifies this, broker
      ensures Valid() && View() == Step(cfg, old(View()), Timed(at, AssignLeg(c)))
    {
      hide Sound, PaperBrokers.Assign;
      ghost var w := View();
      var r := broker.AssignLeg(c);
      clock := at;
      StepSound(cfg, w, Timed(at, AssignLeg(c)), openingCash);
    }

    method Expire(c: Contract, at: int)
      requires Valid() && at > clock
      modifies this, broker
      ensures Valid() && View() == Step(cfg, old(View()), Timed(at, ExpireLeg(c)))
    {
      hide Sound;
      ghost var w := View();
      broker.ExpireLeg(c);
      clock := at;
      StepSound(cfg, w, Timed(at, ExpireLeg(c)), openingCash);
    }

    /** A process restart: the cursor lives in memory only. */
    method Restart(at: int)
      requires Valid() && at > clock
      modifies this, reconciler
      ensures Valid() && View() == Step(cfg, old(View()), Timed(at, Ledger.Restart))
    {
      hide Sound;
      ghost var w := View();
      reconciler.cursor := None;
      clock := at;
      StepSound(cfg, w, Timed(at, Ledger.Restart), openingCash);
    }

    /** A tick raises no flag, heals nothing, trips no audit, and leaves the books equal to the broker. */
    method Tick(at: int)
      requires Valid() && at > clock
      modifies this, db, reconciler
      ensures Valid() && clock == at && broker.View() == old(broker.View())
      ensures broker.cash - openingCash == Books(db.View())
      ensures reconciler.sum.manual == 0 && reconciler.sum.heals == 0 && reconciler.sum.parityFlags == 0
    {
      hide Sound, Spec.ReconcileOnce, PositionRows, Enumerates, Books;
      ghost var w := View();
      var stocks, legs, symbols := reconciler.ReconcileOnce(at);
      clock := at;
      ghost var e := Timed(at, TickNow(stocks, legs, symbols));
      StepSound(cfg, w, e, openingCash);
      SoundTickBooks(cfg, w, e, openingCash);
      SoundTickQuiet(cfg, w, e, openingCash);
    }
  }

  lemma SoundTickQuiet(cfg: Config, w: World, e: Timed, cash0: real)
    requires Sound(cfg, w, cash0) && Legal(cfg, w, e) && e.event.TickNow?
    ensures var t := TickOf(cfg, w, e.event.stocks, e.event.legs, e.event.symbols, e.at);
            t.sum.manual == 0 && t.sum.heals == 0 && t.sum.parityFlags == 0
  {
    hide Legal, Sound, TickOf;
    var s := TickScene(cfg, w, e, cash0);
  }
}
