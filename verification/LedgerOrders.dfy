/** Processing one broker order view keeps the ledger invariant and raises no flag. */
module LedgerOrders {
  import opened Models
  import opened PaperBrokers
  import opened Repos
  import opened Router
  import opened Reconciler
  import opened Ledger
  import opened LedgerTables
  import opened LedgerInvariant
  import opened LedgerBroker
  import opened LedgerRouter
  import opened LedgerStep

  /** No manual flag, no self-heal, no parity flag. */
  predicate Quiet(t: Tick, t': Tick) {
    t'.sum.manual == t.sum.manual && t'.sum.heals == t.sum.heals && t'.sum.parityFlags == t.sum.parityFlags
  }

  /** The cycle a position's exposure hangs on. */
  function ActiveCycle(p: Position): Option<nat> {
    if Exposed(p.state) then p.cycle else None
  }

  lemma OnlyActiveOpen(s: Scene, k: nat)
    requires Inv(s) && Sized(s) && k < |s.d.positions|
    ensures NothingOpenElse(s, k, ActiveCycle(s.d.positions[k]))
  {
    hide Inv, Telescopes, DigestOf;
    forall cy | 0 <= cy < |s.d.cycles| && s.g.owner[cy] == k && Some(cy) != ActiveCycle(s.d.positions[k])
      ensures s.d.cycles[cy].endedAt.Some?
    {
      InvCycle(s, cy);
    }
  }

  /** No cycle id at or past the end of the table tags any row. */
  lemma NewCycleUntagged(s: Scene)
    requires Inv(s)
    ensures Tagged(s.d.orders, |s.d.cycles|) == []
  {
    InvSized(s);
    forall j | 0 <= j < |s.d.orders| ensures s.d.orders[j].cycle != Some(|s.d.cycles|) { InvRow(s, j); }
    TaggedNone(s.d.orders, |s.d.cycles|);
  }

  /** Tagging row j with cycle cy. */
  lemma TagEffect(rows: seq<Order>, j: nat, r: Order, cy: nat) returns (a: seq<Order>, b: seq<Order>)
    requires j < |rows| && rows[j].cycle.None? && r.cycle == Some(cy)
    ensures forall c: nat :: c != cy ==> Tagged(rows[j := r], c) == Tagged(rows, c)
    ensures Tagged(rows, cy) == a + b && Tagged(rows[j := r], cy) == a + [r] + b
    ensures Booked(rows[j := r]) == Booked(rows) + Flow(r)
  {
    forall c: nat | c != cy ensures Tagged(rows[j := r], c) == Tagged(rows, c) { TaggedRewrite(rows, j, r, c); }
    TaggedRewrite(rows, j, r, cy);
    a, b := Tagged(rows[..j], cy), Tagged(rows[j + 1..], cy);
    BookedRewrite(rows, j, r);
  }

  // ---- The unsettled order and its lane ----

  /** Order i is still awaited: j is its row, k its position. */
  ghost predicate Awaited(s: Scene, i: nat, j: nat, k: nat) {
    && Inv(s) && Sized(s) && i < |s.b.orders| && j == s.g.row[i] && k == s.g.lane[i]
    && j < |s.d.orders| && k < |s.d.positions| && Working(s.d.orders[j].status)
  }

  /** What is known about an awaited order. */
  lemma AwaitedFacts(s: Scene, i: nat, j: nat, k: nat)
    requires Awaited(s, i, j, k)
    ensures var o, r, p := s.b.orders[i], s.d.orders[j], s.d.positions[k];
            && BrokerOrderOK(s.cfg, o, i) && r.status.Pending? && r.cycle.None? && r.fillPrice.None? && r.filledAt.None?
            && SameOrder(r, o) && Refresh(r, o) == o && o.cycle.None?
            && Locate(s.d.orders, o) == Some(j)
            && s.g.lanes[k].work == Some(i)
            && o.symbol == p.symbol && o.strategy == Some(p.strategy)
            && p.strategy !in s.cfg.swing && p.strategy != "pmcc" && p.strategy != "calendar"
            && FindPosition(s.d.positions, o.symbol, o.strategy) == Some(k)
            && !ObservedPartial(r, o)
    ensures var v := ViewOf(s.b, s.d, s.g.lanes[k], k);
            v.work == Some(s.b.orders[i]) && StateOK(s.cfg, s.g.lanes[k], v) && LegsOK(s.cfg, s.g.lanes[k], v)
  {
    hide Inv, StateOK, LegsOK, DigestOf;
    InvOrder(s, i);
    InvLane(s, k);
    FindPositionAt(s.d.positions, k, Some(s.d.positions[k].strategy));
  }

  // ---- Cancels ----

  function CancelledState(o: Order, state: PositionState): PositionState {
    var r := RestoredState(o, state);
    if r.Some? then r.value else state
  }

  lemma LaneCancelled(cfg: Config, l: Lane, v: View, o: Order)
    requires StateOK(cfg, l, v) && LegsOK(cfg, l, v) && v.work == Some(o) && o.status.Cancelled?
    requires OrderShape(cfg, o) && o.strategy == Some(v.p.strategy)
    ensures var v' := v.(work := None, p := v.p.(state := CancelledState(o, v.p.state)));
            StateOK(cfg, l.(work := None), v') && LegsOK(cfg, l.(work := None), v')
    ensures Exposed(v.p.state) <==> Exposed(CancelledState(o, v.p.state))
    ensures Live(v.p.(state := CancelledState(o, v.p.state))) ==> Live(v.p)
  {
  }

  /** The scene after the cancel of order i is processed. */
  function CancelScene(s: Scene, i: nat, j: nat, k: nat, log: seq<StateLog>): Scene
    requires i < |s.b.orders| && j < |s.d.orders| && k < |s.d.positions| && |s.g.lanes| == |s.d.positions|
  {
    var o, p := s.b.orders[i], s.d.positions[k];
    s.(d := s.d.(orders := s.d.orders[j := o],
                 positions := s.d.positions[k := p.(state := CancelledState(o, p.state))], log := log),
       g := s.g.(lanes := s.g.lanes[k := s.g.lanes[k].(work := None)]))
  }

  lemma CancelInv(s: Scene, i: nat, j: nat, k: nat, log: seq<StateLog>)
    requires Awaited(s, i, j, k) && s.b.orders[i].status.Cancelled?
    ensures Inv(CancelScene(s, i, j, k, log))
  {
    hide Inv, StateOK, LegsOK, DigestOf, OrderShape, Exposed;
    AwaitedFacts(s, i, j, k);
    var s' := CancelScene(s, i, j, k, log);
    var l, o, p := s.g.lanes[k], s.b.orders[i], s.d.positions[k];
    var v := ViewOf(s.b, s.d, l, k);
    LaneCancelled(s.cfg, l, v, o);
    UntaggedRewritten(s.d.orders, j, o);
    assert ViewOf(s'.b, s'.d, s'.g.lanes[k], k) == v.(work := None, p := s'.d.positions[k]);
    var act := ActiveCycle(p);
    OnlyActiveOpen(s, k);
    InvLane(s, k);
    if act.Some? { InvCycle(s, act.value); }
    assert act.Some? ==> CycleOK(s', act.value);
    SettledLinks(s, s', i, k, act);
    SettledRows(s, s', i, k, act);
    StepInv(s, s', k, act);
  }

  lemma CancelSpec(s: Scene, t: Tick, i: nat, j: nat, k: nat, now: int) returns (log: seq<StateLog>)
    requires Awaited(s, i, j, k) && s.b.orders[i].status.Cancelled? && t.db == s.d
    ensures ProcessOrder(s.cfg, t, s.b.orders[i], now).db == CancelScene(s, i, j, k, log).d
    ensures Quiet(t, ProcessOrder(s.cfg, t, s.b.orders[i], now))
    ensures ProcessOrder(s.cfg, t, s.b.orders[i], now).sum.fills == t.sum.fills
  {
    hide Inv, StateOK, LegsOK, DigestOf, OrderShape;
    AwaitedFacts(s, i, j, k);
    log := ProcessOrder(s.cfg, t, s.b.orders[i], now).db.log;
    var o := s.b.orders[i];
    assert SetOrder(t.db, j, Refresh(t.db.orders[j], o)) == s.d.(orders := s.d.orders[j := o]);
    assert RestoredState(s.d.orders[j], s.d.positions[k].state) == RestoredState(o, s.d.positions[k].state);
    assert s.d.positions[k := s.d.positions[k]] == s.d.positions;
  }
}
