/** The concurrent-position caps over the ledger's own runs, where no tick raises a flag: no surplus at all. */
module LedgerSlots {
  import opened Models
  import opened PaperBrokers
  import opened Repos
  import opened Router
  import opened Reconciler
  import opened Ledger
  import opened LedgerTables
  import opened LedgerInvariant
  import opened LedgerRouter
  import opened LedgerStream
  import opened LedgerTick
  import opened LedgerRuns
  import opened Slots

  lemma {:induction false} LiveFewer(ps: seq<Position>, qs: seq<Position>, who: Option<string>)
    requires |ps| == |qs| && forall k :: 0 <= k < |ps| ==>
             qs[k].strategy == ps[k].strategy
             && (Live(qs[k]) ==> Live(ps[k]))
    ensures LiveIn(qs, who) <= LiveIn(ps, who)
  {
    if |ps| > 0 { LiveFewer(ps[..|ps| - 1], qs[..|ps| - 1], who); }
  }

  /** A placement moves its pair's row, or adds it. */
  lemma PlacedPositions(cfg: Config, w: World, o: Order, at: int, cash0: real)
    requires Sound(cfg, w, cash0) && LegalPlace(cfg, w, o, at)
    ensures var ps, qs := w.db.positions, PlaceOrder(cfg, w.broker, w.db, o, o.strategy.value).1.positions;
            qs == ps
            || (exists p :: qs == ps + [p] && p.symbol == o.symbol && p.strategy == o.strategy.value)
            || (exists k, p :: 0 <= k < |ps| && qs == ps[k := p] && ps[k].symbol == p.symbol == o.symbol
                               && ps[k].strategy == p.strategy == o.strategy.value)
  {
    hide Inv, OrderShape, Proposable, TargetState, SlotFree;
    var s :| Shows(s, cfg, w, cash0) && Inv(s);
    InvSized(s);
    FreshAtBroker(s, o.clientId.value);
    StoredOK(s, o, at);
    FindPositionSound(w.db.positions, o.symbol, o.strategy);
  }

  lemma Named(cfg: Config, w: World, o: Order, at: int)
    requires LegalPlace(cfg, w, o, at)
    ensures o.strategy.Some?
  {
    hide Proposable, SlotFree;
  }

  lemma PlaceSlots(cfg: Config, w: World, o: Order, at: int, who: Option<string>, cap: int, cash0: real)
    requires Sound(cfg, w, cash0) && LegalPlace(cfg, w, o, at)
    requires (who.None? || who == o.strategy) ==> Gate(cap, who, w.db.positions, o.symbol, o.strategy.value)
    ensures LiveIn(PlaceOrder(cfg, w.broker, w.db, o, o.strategy.value).1.positions, who)
            <= Max(cap, LiveIn(w.db.positions, who))
  {
    hide Sound, LegalPlace, PlaceOrder;
    Named(cfg, w, o, at);
    PlacedPositions(cfg, w, o, at, cash0);
    var ps, qs := w.db.positions, PlaceOrder(cfg, w.broker, w.db, o, o.strategy.value).1.positions;
    if p :| qs == ps + [p] && p.symbol == o.symbol && p.strategy == o.strategy.value {
      assert (ps + [p])[..|ps|] == ps;
      NoPairYet(cfg, w, o, at, cash0, p);
    } else if k, p :| 0 <= k < |ps| && qs == ps[k := p] && ps[k].symbol == p.symbol == o.symbol
                      && ps[k].strategy == p.strategy == o.strategy.value {
      LiveSet(ps, k, p, who);
      OnlyPair(cfg, w, o, k, cash0);
    }
  }

  lemma NoPairYet(cfg: Config, w: World, o: Order, at: int, cash0: real, p: Position)
    requires Sound(cfg, w, cash0) && LegalPlace(cfg, w, o, at)
    requires PlaceOrder(cfg, w.broker, w.db, o, o.strategy.value).1.positions == w.db.positions + [p]
    ensures forall j :: 0 <= j < |w.db.positions| ==>
              !(w.db.positions[j].symbol == o.symbol && w.db.positions[j].strategy == o.strategy.value)
  {
    hide Inv, OrderShape, Proposable, TargetState, SlotFree;
    var s :| Shows(s, cfg, w, cash0) && Inv(s);
    InvSized(s);
    FreshAtBroker(s, o.clientId.value);
    StoredOK(s, o, at);
    FindPositionSound(w.db.positions, o.symbol, o.strategy);
  }

  lemma OnlyPair(cfg: Config, w: World, o: Order, k: nat, cash0: real)
    requires Sound(cfg, w, cash0) && k < |w.db.positions| && w.db.positions[k].symbol == o.symbol
    ensures forall j :: 0 <= j < |w.db.positions| && w.db.positions[j].symbol == o.symbol ==> j == k
  {
    hide Inv;
    var s :| Shows(s, cfg, w, cash0) && Inv(s);
    InvSized(s);
  }

  lemma TickSlots(cfg: Config, w: World, e: Timed, who: Option<string>, cash0: real)
    requires Sound(cfg, w, cash0) && Legal(cfg, w, e) && e.event.TickNow?
    ensures LiveIn(Step(cfg, w, e).db.positions, who) <= LiveIn(w.db.positions, who)
  {
    hide Inv, Enumerates, ReconcileOnce, PositionRows, AllSynced, NewlyFilled;
    var s :| Shows(s, cfg, w, cash0) && Inv(s);
    LaterKeeps(s, e.at);
    var s1 := s.(clock := e.at);
    InvSized(s1);
    var s' := TickKeeps(s1, w.cursor, e.event.stocks, e.event.legs, e.event.symbols);
    LiveFewer(w.db.positions, s'.d.positions, who);
  }

  lemma StepSlots(cfg: Config, w: World, e: Timed, who: Option<string>, cap: int, cash0: real)
    requires Sound(cfg, w, cash0) && Legal(cfg, w, e) && GatedEvent(w, e, who, cap)
    ensures LiveIn(Step(cfg, w, e).db.positions, who) <= Max(cap, LiveIn(w.db.positions, who))
  {
    hide Inv, LegalPlace, Enumerates, ReconcileOnce, PositionRows, PlaceOrder, AllSynced, NewlyFilled, Sound;
    match e.event {
      case PlaceOne(o) =>
        Named(cfg, w, o, e.at);
        PlaceSlots(cfg, w, o, e.at, who, cap, cash0);
      case TickNow(_, _, _) => TickSlots(cfg, w, e, who, cash0);
      case _ =>
    }
  }

  /** A placement the cap applies to passed the gate. */
  predicate GatedEvent(w: World, e: Timed, who: Option<string>, cap: int) {
    e.event.PlaceOne? && e.event.order.strategy.Some? && (who.None? || who == e.event.order.strategy)
    ==> Gate(cap, who, w.db.positions, e.event.order.symbol, e.event.order.strategy.value)
  }

  ghost predicate GatedRun(cfg: Config, w: World, run: seq<Timed>, who: Option<string>, cap: int)
    requires LegalRun(cfg, w, run)
    decreases |run|
  {
    |run| == 0
    || (GatedRun(cfg, w, run[..|run| - 1], who, cap)
        && GatedEvent(After(cfg, w, run[..|run| - 1]), run[|run| - 1], who, cap))
  }

  /** Over any run whose placements pass a cap (one strategy's, or the global one), the positions it counts never
      outnumber the larger of the cap and what the run started from. */
  lemma {:induction false} CapHolds(cfg: Config, w: World, run: seq<Timed>, who: Option<string>, cap: int, cash0: real)
    requires Sound(cfg, w, cash0) && LegalRun(cfg, w, run) && GatedRun(cfg, w, run, who, cap)
    ensures LiveIn(After(cfg, w, run).db.positions, who) <= Max(cap, LiveIn(w.db.positions, who))
    decreases |run|
  {
    hide Legal, Step, Sound, GatedEvent;
    if |run| > 0 {
      var n := |run| - 1;
      CapHolds(cfg, w, run[..n], who, cap, cash0);
      RunSound(cfg, w, run[..n], cash0);
      StepSlots(cfg, After(cfg, w, run[..n]), run[n], who, cap, cash0);
    }
  }

  lemma {:induction false} LegalIsGated(cfg: Config, w: World, run: seq<Timed>, cap: int)
    requires LegalRun(cfg, w, run) && cfg.maxConcurrentTotal == Some(cap)
    ensures GatedRun(cfg, w, run, None, cap)
    decreases |run|
  {
    hide Step, Proposable, FreshOrder;
    if |run| > 0 {
      var n := |run| - 1;
      LegalIsGated(cfg, w, run[..n], cap);
      LiveInAll(After(cfg, w, run[..n]).db.positions);
    }
  }

  /** Positions that are neither IDLE nor SPREAD_CLOSED never outnumber the larger of the global cap and
      what the run started from (no tick raises a flag, so none adds to it). */
  lemma LegalSlotsBounded(cfg: Config, w: World, run: seq<Timed>, cap: int, cash0: real)
    requires Sound(cfg, w, cash0) && LegalRun(cfg, w, run) && cfg.maxConcurrentTotal == Some(cap)
    ensures LiveCount(After(cfg, w, run).db.positions) <= Max(cap, LiveCount(w.db.positions))
  {
    hide Legal, Step, Sound, LegalRun, After, GatedRun, LiveIn, LiveCount;
    LegalIsGated(cfg, w, run, cap);
    CapHolds(cfg, w, run, None, cap, cash0);
    LiveInAll(w.db.positions);
    LiveInAll(After(cfg, w, run).db.positions);
  }
}
