/** The invariant holds after every legal run; each kind of event is one step of it. */
module LedgerRuns {
  import opened Models
  import opened PaperBrokers
  import opened Repos
  import opened Router
  import opened Reconciler
  import opened Ledger
  import opened LedgerTables
  import opened LedgerInvariant
  import opened LedgerBroker
  import opened LedgerFills
  import opened LedgerRouter
  import opened LedgerStream
  import opened LedgerTick

  /** A scene of this world. */
  ghost predicate Shows(s: Scene, cfg: Config, w: World, cash0: real) {
    s.cfg == cfg && s.b == w.broker && s.d == w.db && s.clock == w.clock && s.cash0 == cash0
  }

  ghost predicate Sound(cfg: Config, w: World, cash0: real) {
    exists s :: Shows(s, cfg, w, cash0) && Inv(s)
  }

  lemma FreshSound(cfg: Config, w: World)
    requires Fresh(w)
    ensures Sound(cfg, w, w.broker.cash)
  {
    var s := Scene(cfg, w.broker, w.db, Ghost([], [], [], []), w.clock, w.broker.cash);
    assert Inv(s);
    assert Shows(s, cfg, w, w.broker.cash);
  }

  lemma BrokerStep(s: Scene, w: World, e: Timed) returns (s': Scene)
    requires Inv(s) && Shows(s, s.cfg, w, s.cash0) && Legal(s.cfg, w, e)
    requires e.event.FillOne? || e.event.Drop? || e.event.AssignLeg? || e.event.ExpireLeg?
    ensures Inv(s') && Shows(s', s.cfg, Step(s.cfg, w, e), s.cash0)
  {
    hide Inv, Fill, Assign, Cancel;
    match e.event
    case FillOne(i, price) =>
      FillKeeps(s, i, price, e.at);
      var k, l :| 0 <= k < |s.g.lanes| && Inv(Moved(s, Fill(s.b, i, price, e.at), k, l));
      LaterKeeps(Moved(s, Fill(s.b, i, price, e.at), k, l), e.at);
      s' := Moved(s, Fill(s.b, i, price, e.at), k, l).(clock := e.at);
    case Drop(i) =>
      DropKeeps(s, i);
      LaterKeeps(s.(b := Cancel(s.b, i)), e.at);
      s' := s.(b := Cancel(s.b, i), clock := e.at);
    case AssignLeg(c) =>
      AssignKeeps(s, c);
      var k, l :| 0 <= k < |s.g.lanes| && Inv(Moved(s, Assign(s.b, c), k, l));
      LaterKeeps(Moved(s, Assign(s.b, c), k, l), e.at);
      s' := Moved(s, Assign(s.b, c), k, l).(clock := e.at);
    case ExpireLeg(c) =>
      ExpireKeeps(s, c);
      LaterKeeps(s.(b := Expire(s.b, c)), e.at);
      s' := s.(b := Expire(s.b, c), clock := e.at);
  }

  lemma StepSound(cfg: Config, w: World, e: Timed, cash0: real)
    requires Sound(cfg, w, cash0) && Legal(cfg, w, e)
    ensures Sound(cfg, Step(cfg, w, e), cash0)
  {
    hide Inv, LegalPlace, Enumerates, ReconcileOnce, PositionRows, PlaceOrder, CancelStale;
    var s :| Shows(s, cfg, w, cash0) && Inv(s);
    var s': Scene;
    match e.event {
      case PlaceOne(o) => s' := PlaceKeeps(s, w, o, e.at);
      case Replace(j) =>
        var s1 := ReplaceKeeps(s, j);
        LaterKeeps(s1, e.at);
        s' := s1.(clock := e.at);
      case TickNow(ks, cs, symbols) =>
        LaterKeeps(s, e.at);
        var s1 := s.(clock := e.at);
        InvSized(s1);
        s' := TickKeeps(s1, w.cursor, ks, cs, symbols);
      case Restart =>
        LaterKeeps(s, e.at);
        s' := s.(clock := e.at);
      case _ => s' := BrokerStep(s, w, e);
    }
    assert Shows(s', cfg, Step(cfg, w, e), cash0);
  }

  /** The invariant holds after every legal run. */
  lemma {:induction false} RunSound(cfg: Config, w: World, run: seq<Timed>, cash0: real)
    requires Sound(cfg, w, cash0) && LegalRun(cfg, w, run)
    ensures Sound(cfg, After(cfg, w, run), cash0)
    decreases |run|
  {
    hide Legal, Step, Sound;
    if |run| > 0 {
      var n := |run| - 1;
      RunSound(cfg, w, run[..n], cash0);
      StepSound(cfg, After(cfg, w, run[..n]), run[n], cash0);
    }
  }
}
