/** The order phase of a tick: every view is absorbed, the invariant survives each of them,
    and afterwards no fill or cancel at the broker is still unseen. */
module LedgerStream {
  import opened Models
  import opened PaperBrokers
  import opened Repos
  import opened Router
  import opened Reconciler
  import opened Ledger
  import opened LedgerTables
  import opened LedgerInvariant
  import opened LedgerBroker
  import opened LedgerRouter
  import opened LedgerStep
  import opened LedgerOrders
  import opened LedgerOrderFills

  /** What the broker did to order i is in the books, or it did nothing yet. */
  ghost predicate CaughtUp(s: Scene, i: nat)
    requires Sized(s) && i < |s.b.orders|
  {
    s.g.row[i] < |s.d.orders| && (Working(s.d.orders[s.g.row[i]].status) ==> Working(s.b.orders[i].status))
  }

  /** Same world, later books: rows stop working but never start, positions never come alive. */
  ghost predicate Continues(s: Scene, s': Scene) {
    && Sized(s) && Sized(s')
    && s'.cfg == s.cfg && s'.b == s.b && s'.clock == s.clock && s'.cash0 == s.cash0
    && s'.g.row == s.g.row && s'.g.lane == s.g.lane && |s'.d.orders| >= |s.d.orders|
    && |s'.d.positions| == |s.d.positions|
    && (forall j :: 0 <= j < |s.d.orders| && Working(s'.d.orders[j].status) ==> Working(s.d.orders[j].status))
    && (forall k :: 0 <= k < |s.d.positions| && Live(s'.d.positions[k]) ==> Live(s.d.positions[k]))
    && (forall k :: 0 <= k < |s.d.positions| ==>
          s'.d.positions[k].symbol == s.d.positions[k].symbol
            && s'.d.positions[k].strategy == s.d.positions[k].strategy)
  }

  /** The rows of real orders that are filled. */
  function FilledRows(d: Db): set<nat> {
    set j: nat | j < |d.orders| && d.orders[j].clientId.Some? && d.orders[j].status.Filled?
  }

  ghost predicate Distinct(js: seq<nat>) {
    forall a, b :: 0 <= a < b < |js| ==> js[a] != js[b]
  }

  /** `js` lists, once each, exactly the rows filled in d' and not in d. */
  ghost predicate NewlyFilled(d: Db, d': Db, js: seq<nat>) {
    && Distinct(js)
    && (forall j :: j in js ==> j !in FilledRows(d))
    && FilledRows(d') == FilledRows(d) + (set j | j in js)
  }

  lemma RowFilled(d: Db, d': Db, j: nat, r: Order)
    requires j < |d.orders| && d'.orders == d.orders[j := r] && !d.orders[j].status.Filled?
    requires r.clientId.Some? && r.status.Filled?
    ensures NewlyFilled(d, d', [j])
  {
  }

  lemma FilledAgain(d0: Db, d1: Db, d2: Db, js: seq<nat>, j: nat)
    requires NewlyFilled(d0, d1, js) && NewlyFilled(d1, d2, [j])
    ensures NewlyFilled(d0, d2, js + [j])
  {
    assert j in [j];
    assert (set x | x in js + [j]) == (set x | x in js) + {j};
    assert (set x | x in [j]) == {j};
  }

  /** A settled order's view, or one still working at the broker, changes nothing at all. */
  lemma ViewAbsorbed(s: Scene, t: Tick, i: nat, now: int)
    requires Inv(s) && Sized(s) && i < |s.b.orders| && t.db == s.d && CaughtUp(s, i)
    ensures ProcessOrder(s.cfg, t, s.b.orders[i], now) == t
  {
    hide Inv, OrderShape;
    InvOrder(s, i);
    var j, o := s.g.row[i], s.b.orders[i];
    var r := s.d.orders[j];
    assert Refresh(r, o) == r;
    assert s.d.orders[j := r] == s.d.orders;
  }

  lemma FillClasses(cfg: Config, o: Order)
    requires OrderShape(cfg, o)
    ensures OpensCycle(o) || ContinuesCycle(o) || EndsCycle(o)
  {
  }

  lemma ViewKeeps(s: Scene, t: Tick, i: nat, now: int) returns (s': Scene)
    requires Inv(s) && Sized(s) && i < |s.b.orders| && t.db == s.d
    ensures Inv(s') && Continues(s, s') && CaughtUp(s', i)
    ensures var t' := ProcessOrder(s.cfg, t, s.b.orders[i], now); t'.db == s'.d && Quiet(t, t')
    ensures var t' := ProcessOrder(s.cfg, t, s.b.orders[i], now);
            (t'.sum.fills == t.sum.fills && FilledRows(s'.d) == FilledRows(s.d))
            || (t'.sum.fills == t.sum.fills + [s.g.row[i]] && NewlyFilled(s.d, s'.d, [s.g.row[i]]))
  {
    hide Inv, StateOK, LegsOK, DigestOf, OrderShape, ProcessOrder, OpensCycle, ContinuesCycle, EndsCycle, NewlyFilled;
    InvOrder(s, i);
    var j, k := s.g.row[i], s.g.lane[i];
    if CaughtUp(s, i) {
      ViewAbsorbed(s, t, i, now);
      return s;
    }
    AwaitedFacts(s, i, j, k);
    var o := s.b.orders[i];
    if o.status.Cancelled? {
      var log := CancelSpec(s, t, i, j, k, now);
      CancelInv(s, i, j, k, log);
      s' := CancelScene(s, i, j, k, log);
      LaneCancelled(s.cfg, s.g.lanes[k], ViewOf(s.b, s.d, s.g.lanes[k], k), o);
    } else {
      FillClasses(s.cfg, o);
      s' := FillSeenKeeps(s, t, i, j, k, now);
    }
  }

  /** The order's row is now filled, and its fill was handed on. */
  ghost predicate Handed(s: Scene, s': Scene, t: Tick, t': Tick, i: nat, j: nat)
    requires Sized(s) && i < |s.b.orders|
  {
    && Inv(s') && Continues(s, s') && CaughtUp(s', i)
    && t'.db == s'.d && Quiet(t, t') && t'.sum.fills == t.sum.fills + [j]
    && j < |s.d.orders| && j < |s'.d.orders| && s'.d.orders == s.d.orders[j := s'.d.orders[j]]
    && !s.d.orders[j].status.Filled? && s'.d.orders[j].clientId.Some? && s'.d.orders[j].status.Filled?
  }

  lemma OpenHanded(s: Scene, t: Tick, i: nat, j: nat, k: nat, now: int) returns (s': Scene)
    requires Awaited(s, i, j, k) && s.b.orders[i].status.Filled? && t.db == s.d && OpensCycle(s.b.orders[i])
    ensures Handed(s, s', t, ProcessOrder(s.cfg, t, s.b.orders[i], now), i, j)
  {
    hide Inv, StateOK, LegsOK, DigestOf, OrderShape, ProcessOrder, OpensCycle;
    AwaitedFacts(s, i, j, k);
    var c, log := OpenSpec(s, t, i, j, k, now);
    OpenInv(s, i, j, k, c, log);
    s' := OpenScene(s, i, j, k, c, log);
    OpensLive(s, i, j, k);
  }

  lemma ContinueHanded(s: Scene, t: Tick, i: nat, j: nat, k: nat, now: int) returns (s': Scene)
    requires Awaited(s, i, j, k) && s.b.orders[i].status.Filled? && t.db == s.d && ContinuesCycle(s.b.orders[i])
    ensures Handed(s, s', t, ProcessOrder(s.cfg, t, s.b.orders[i], now), i, j)
  {
    hide Inv, StateOK, LegsOK, DigestOf, OrderShape, ProcessOrder, ContinuesCycle;
    AwaitedFacts(s, i, j, k);
    var cy := ContinueCycle(s, i, j, k);
    var log := ContinueSpec(s, t, i, j, k, cy, now);
    ContinueInv(s, i, j, k, cy, log);
    s' := ContinueScene(s, i, j, k, cy, log);
  }

  lemma EndContinues(s: Scene, i: nat, j: nat, k: nat, cy: nat, c: Cycle, log: seq<StateLog>)
    requires Awaited(s, i, j, k) && s.b.orders[i].status.Filled? && EndsCycle(s.b.orders[i]) && cy < |s.d.cycles|
    requires Inv(EndScene(s, i, j, k, cy, c, log))
    ensures var s' := EndScene(s, i, j, k, cy, c, log); Continues(s, s') && CaughtUp(s', i)
  {
    hide Inv, StateOK, LegsOK, DigestOf, OrderShape, SettledLane, LaneOK, Flow;
    InvSized(EndScene(s, i, j, k, cy, c, log));
    AwaitedFacts(s, i, j, k);
  }

  lemma EndHanded(s: Scene, t: Tick, i: nat, j: nat, k: nat, now: int) returns (s': Scene)
    requires Awaited(s, i, j, k) && s.b.orders[i].status.Filled? && t.db == s.d && EndsCycle(s.b.orders[i])
    ensures Handed(s, s', t, ProcessOrder(s.cfg, t, s.b.orders[i], now), i, j)
  {
    hide Inv, StateOK, LegsOK, DigestOf, OrderShape, ProcessOrder, EndsCycle, Continues, CaughtUp, SettledLane, LaneOK,
         Flow;
    AwaitedFacts(s, i, j, k);
    var cy := EndCycle(s, i, j, k);
    var c, log := EndSpec(s, t, i, j, k, cy, now);
    EndInv(s, i, j, k, cy, c, log);
    EndContinues(s, i, j, k, cy, c, log);
    s' := EndScene(s, i, j, k, cy, c, log);
  }

  lemma FillSeenKeeps(s: Scene, t: Tick, i: nat, j: nat, k: nat, now: int) returns (s': Scene)
    requires Awaited(s, i, j, k) && s.b.orders[i].status.Filled? && t.db == s.d
    requires var o := s.b.orders[i]; OpensCycle(o) || ContinuesCycle(o) || EndsCycle(o)
    ensures Inv(s') && Continues(s, s') && CaughtUp(s', i)
    ensures var t' := ProcessOrder(s.cfg, t, s.b.orders[i], now);
            t'.db == s'.d && Quiet(t, t') && t'.sum.fills == t.sum.fills + [j] && NewlyFilled(s.d, s'.d, [j])
  {
    hide Inv, ProcessOrder, OpensCycle, ContinuesCycle, EndsCycle, NewlyFilled, Continues, CaughtUp, Quiet;
    var o := s.b.orders[i];
    if OpensCycle(o) {
      s' := OpenHanded(s, t, i, j, k, now);
    } else if ContinuesCycle(o) {
      s' := ContinueHanded(s, t, i, j, k, now);
    } else {
      s' := EndHanded(s, t, i, j, k, now);
    }
    RowFilled(s.d, s'.d, j, s'.d.orders[j]);
  }

  lemma OpensLive(s: Scene, i: nat, j: nat, k: nat)
    requires Awaited(s, i, j, k) && s.b.orders[i].status.Filled? && OpensCycle(s.b.orders[i])
    ensures Live(s.d.positions[k])
  {
    hide Inv, DigestOf;
    AwaitedFacts(s, i, j, k);
    var l, o := s.g.lanes[k], s.b.orders[i];
    var c := OpenedCycle(s, o, 0.0, 0);
    LaneOpened(s.cfg, l, ViewOf(s.b, s.d, l, k), o, c, DigestOf([o.(cycle := Some(0))]), 0);
  }

  /** Every view is the broker's current record of one of its orders. */
  ghost predicate ViewsOf(b: BrokerState, views: seq<Order>) {
    forall v :: v in views ==> v.brokerId.Some? && v.brokerId.value < |b.orders| && b.orders[v.brokerId.value] == v
  }

  lemma {:induction false} StreamKeeps(s: Scene, t: Tick, views: seq<Order>, now: int) returns (s': Scene)
    requires Inv(s) && Sized(s) && t.db == s.d && ViewsOf(s.b, views) && t.sum.fills == []
    ensures Inv(s') && Continues(s, s') && NewlyFilled(s.d, s'.d, ProcessOrders(s.cfg, t, views, now).sum.fills)
    ensures var t' := ProcessOrders(s.cfg, t, views, now); t'.db == s'.d && Quiet(t, t')
    ensures forall v :: v in views ==> CaughtUp(s', v.brokerId.value)
    decreases |views|
  {
    hide Inv, ProcessOrder, FilledRows;
    if |views| == 0 { return s; }
    var n := |views| - 1;
    var s1 := StreamKeeps(s, t, views[..n], now);
    var t1 := ProcessOrders(s.cfg, t, views[..n], now);
    assert views[n] in views;
    s' := ViewKeeps(s1, t1, views[n].brokerId.value, now);
    var js := ProcessOrder(s.cfg, t1, views[n], now).sum.fills;
    if js != t1.sum.fills { FilledAgain(s.d, s1.d, s'.d, t1.sum.fills, s.g.row[views[n].brokerId.value]); }
    assert views == views[..n] + [views[n]];
  }

  // ---- The query covers everything in flight ----

  /** Whatever the cursor, the views a tick fetches include every order it has not caught up with. */
  lemma ViewsCover(s: Scene, cursor: Option<int>, i: nat)
    requires Inv(s) && Sized(s) && i < |s.b.orders| && !CaughtUp(s, i)
    ensures s.b.orders[i] in OrdersSince(s.b.orders, Since(s.d.orders, cursor))
  {
    hide Inv, OrderShape, Since, OrdersSince;
    InvOrder(s, i);
    SinceCovers(s.d.orders, cursor, s.g.row[i]);
    SinceMembers(s.b.orders, Since(s.d.orders, cursor));
  }

  lemma SinceViews(s: Scene, since: int)
    requires Inv(s)
    ensures ViewsOf(s.b, OrdersSince(s.b.orders, since))
  {
    hide Inv, OrderShape;
    InvSized(s);
    SinceMembers(s.b.orders, since);
    forall v | v in OrdersSince(s.b.orders, since)
      ensures v.brokerId.Some? && v.brokerId.value < |s.b.orders| && s.b.orders[v.brokerId.value] == v
    {
      var i :| 0 <= i < |s.b.orders| && s.b.orders[i] == v;
      InvOrder(s, i);
    }
  }

  /** After the order phase nothing at the broker is unseen. */
  lemma OrderPhase(s: Scene, cursor: Option<int>, now: int) returns (s': Scene)
    requires Inv(s) && Sized(s)
    ensures Inv(s') && Continues(s, s')
    ensures var t' := ProcessOrders(s.cfg, Tick(s.d, ZeroSummary), OrdersSince(s.b.orders, Since(s.d.orders, cursor)),
                                    now);
            && t'.db == s'.d && Quiet(Tick(s.d, ZeroSummary), t')
            && NewlyFilled(s.d, s'.d, t'.sum.fills)
    ensures forall i :: 0 <= i < |s.b.orders| ==> CaughtUp(s', i)
  {
    hide Inv, ProcessOrders, OrdersSince, Since, NewlyFilled;
    var views := OrdersSince(s.b.orders, Since(s.d.orders, cursor));
    SinceViews(s, Since(s.d.orders, cursor));
    s' := StreamKeeps(s, Tick(s.d, ZeroSummary), views, now);
    forall i | 0 <= i < |s.b.orders| ensures CaughtUp(s', i) {
      InvOrder(s, i);
      if !CaughtUp(s, i) { ViewsCover(s, cursor, i); }
    }
  }
}
