/** A write by the reconciler that concerns one position: what it must leave alone and
    what it must re-establish for the ledger invariant to survive. */
module LedgerStep {
  import opened Models
  import opened PaperBrokers
  import opened Repos
  import opened Router
  import opened Reconciler
  import opened Ledger
  import opened LedgerTables
  import opened LedgerInvariant
  import opened LedgerRouter

  /** From s to s' only position k moves, and of all cycles only `act`, which is k's. */
  ghost predicate LaneStep(s: Scene, s': Scene, k: nat, act: Option<nat>) {
    && Sized(s) && Sized(s') && k < |s.d.positions|
    && s'.cfg == s.cfg && s'.b == s.b && s'.clock == s.clock && s'.cash0 == s.cash0
    && |s'.d.positions| == |s.d.positions|
    && (forall m :: 0 <= m < |s.d.positions| && m != k ==> s'.d.positions[m] == s.d.positions[m])
    && (forall m :: 0 <= m < |s.d.positions| && m != k ==> s'.g.lanes[m] == s.g.lanes[m])
    && s'.d.positions[k].symbol == s.d.positions[k].symbol && s'.d.positions[k].strategy == s.d.positions[k].strategy
    && s'.g.row == s.g.row && s'.g.lane == s.g.lane
    && |s'.d.cycles| >= |s.d.cycles|
    && (forall cy :: 0 <= cy < |s.d.cycles| ==> s'.g.owner[cy] == s.g.owner[cy])
    && (forall cy :: 0 <= cy < |s.d.cycles| && Some(cy) != act ==> s'.d.cycles[cy] == s.d.cycles[cy])
    && (forall cy :: |s.d.cycles| <= cy < |s'.d.cycles| ==> Some(cy) == act)
    && (act.Some? ==> act.value < |s'.d.cycles| && s'.g.owner[act.value] == k)
    && (forall cy: nat :: Some(cy) != act ==> Tagged(s'.d.orders, cy) == Tagged(s.d.orders, cy))
  }

  /** No open cycle of position k is left behind. */
  ghost predicate NothingOpenElse(s: Scene, k: nat, act: Option<nat>)
    requires Sized(s)
  {
    forall cy :: 0 <= cy < |s.d.cycles| && s.g.owner[cy] == k && Some(cy) != act ==> s.d.cycles[cy].endedAt.Some?
  }

  lemma StepLanes(s: Scene, s': Scene, k: nat, act: Option<nat>)
    requires Inv(s) && LaneStep(s, s', k, act) && LaneHolds(s', k)
    ensures Lanes(s')
  {
    hide Inv, LaneOK, DigestOf;
    forall m | 0 <= m < |s'.d.positions| ensures LaneHolds(s', m) {
      if m != k {
        InvLane(s, m);
        assert LaneHolds(s, m);
        assert ViewOf(s'.b, s'.d, s'.g.lanes[m], m) == ViewOf(s.b, s.d, s.g.lanes[m], m);
        LaneAsView(s, s', m);
      }
    }
  }

  lemma LaneAsView(s: Scene, s': Scene, m: nat)
    requires Sized(s) && Sized(s') && m < |s.d.positions| && m < |s'.d.positions| && s.cfg == s'.cfg
    requires LaneHolds(s, m) && s'.g.lanes[m] == s.g.lanes[m]
    requires ViewOf(s'.b, s'.d, s'.g.lanes[m], m) == ViewOf(s.b, s.d, s.g.lanes[m], m)
    ensures LaneHolds(s', m)
  {
    hide StateOK, LegsOK, ViewOf;
  }

  lemma StepCycles(s: Scene, s': Scene, k: nat, act: Option<nat>)
    requires Inv(s) && LaneStep(s, s', k, act) && NothingOpenElse(s, k, act)
    requires act.Some? ==> CycleOK(s', act.value)
    ensures Cycles(s')
  {
    hide Inv, Telescopes, DigestOf;
    forall cy | 0 <= cy < |s'.d.cycles| ensures CycleOK(s', cy) {
      if Some(cy) != act { InvCycle(s, cy); }
    }
  }

  lemma StepRest(s: Scene, s': Scene, k: nat, act: Option<nat>)
    requires Inv(s) && LaneStep(s, s', k, act) && PointerOK(s', k)
    ensures Pointers(s') && BrokerKnown(s')
  {
    hide LaneOK, DigestOf, Links, Rows, Cycles, Works;
    forall m | 0 <= m < |s'.d.positions| ensures PointerOK(s', m) {
      if m != k { assert PointerOK(s, m); }
    }
    forall x | KnownSymbol(s.d.positions, x) ensures KnownSymbol(s'.d.positions, x) {
      var m :| 0 <= m < |s.d.positions| && s.d.positions[m].symbol == x;
      assert s'.d.positions[m].symbol == x;
    }
  }

  lemma {:induction false} DueChange(a: seq<Lane>, b: seq<Lane>, k: nat)
    requires |a| == |b| && k < |a| && forall m :: 0 <= m < |a| && m != k ==> a[m] == b[m]
    ensures SumDue(b) == SumDue(a) - a[k].due + b[k].due
  {
    assert b == a[k := b[k]];
    SumDueSet(a, k, b[k]);
  }

  /** The step keeps the invariant once the links, rows and work pointers are re-established. */
  lemma StepInv(s: Scene, s': Scene, k: nat, act: Option<nat>)
    requires Inv(s) && LaneStep(s, s', k, act) && NothingOpenElse(s, k, act)
    requires LaneHolds(s', k) && PointerOK(s', k) && (act.Some? ==> CycleOK(s', act.value))
    requires Links(s') && Rows(s') && Works(s')
    requires Booked(s'.d.orders) + s'.g.lanes[k].due == Booked(s.d.orders) + s.g.lanes[k].due
    ensures Inv(s')
  {
    hide Lanes, Cycles, Pointers, BrokerKnown, Links, Rows, Works, LaneHolds, PointerOK, CycleOK;
    StepLanes(s, s', k, act);
    StepCycles(s, s', k, act);
    StepRest(s, s', k, act);
    DueChange(s.g.lanes, s'.g.lanes, k);
  }

  // ---- Row i's order settles ----

  /** Order i is no longer awaited: its row now equals the broker's, possibly tagged with a cycle of lane k. */
  ghost predicate Settles(s: Scene, s': Scene, i: nat, k: nat)
    requires Sized(s) && Sized(s')
  {
    && i < |s.b.orders| && s.g.lane[i] == k && k < |s.d.positions|
    && s.g.row[i] < |s.d.orders| && |s'.d.orders| == |s.d.orders|
    && s.g.lanes[k].work == Some(i) && |s'.d.positions| == |s.d.positions| && s'.g.lanes[k].work.None?
    && var r' := s'.d.orders[s.g.row[i]];
       && s'.d.orders == s.d.orders[s.g.row[i] := r']
       && SameOrder(r', s.b.orders[i]) && Settled(r', s.b.orders[i])
       && (r'.cycle.Some? ==> r'.cycle.value < |s'.d.cycles| && r'.status.Filled?)
  }

  lemma SettledLinks(s: Scene, s': Scene, i: nat, k: nat, act: Option<nat>)
    requires Inv(s) && LaneStep(s, s', k, act) && Settles(s, s', i, k)
    ensures Links(s') && Works(s')
  {
    hide Inv, LaneOK, OrderShape, DigestOf;
    InvOrder(s, i);
    ClientRewritten(s.d.orders, s.g.row[i], s'.d.orders[s.g.row[i]]);
    forall m | 0 <= m < |s'.b.orders| ensures LinkOK(s', m) { InvOrder(s, m); }
    forall m | 0 <= m < |s'.d.positions| ensures WorkOK(s', m) {
      InvLane(s, m);
      if m != k && s.g.lanes[m].work.Some? { InvOrder(s, s.g.lanes[m].work.value); }
    }
  }

  lemma SettledRows(s: Scene, s': Scene, i: nat, k: nat, act: Option<nat>)
    requires Inv(s) && LaneStep(s, s', k, act) && Settles(s, s', i, k)
    ensures Rows(s')
  {
    hide Inv, LaneOK, OrderShape, DigestOf, BrokerOrderOK;
    InvOrder(s, i);
    InvRow(s, s.g.row[i]);
    forall m | 0 <= m < |s'.d.orders| ensures RowOK(s', m) { InvRow(s, m); }
  }

  // ---- A synthetic stock leg is appended ----

  ghost predicate AppendsLeg(s: Scene, s': Scene, k: nat, r: Order)
    requires Sized(s) && Sized(s')
  {
    && k < |s.d.positions| && |s'.d.positions| == |s.d.positions|
    && s'.d.orders == s.d.orders + [r]
    && r.clientId.None? && r.brokerId.None? && r.status.Filled? && r.placedAt <= s.clock
    && (r.cycle.Some? ==> r.cycle.value < |s'.d.cycles|)
    && s'.g.lanes[k].work == s.g.lanes[k].work
  }

  lemma AppendedLinks(s: Scene, s': Scene, k: nat, act: Option<nat>, r: Order)
    requires Inv(s) && LaneStep(s, s', k, act) && AppendsLeg(s, s', k, r)
    ensures Links(s') && Works(s') && Rows(s')
  {
    hide Inv, LaneOK, OrderShape, DigestOf;
    forall m | 0 <= m < |s'.b.orders| ensures LinkOK(s', m) {
      InvOrder(s, m);
      FindClientStable(s.d.orders, s'.d.orders, s.b.orders[m].clientId.value);
    }
    forall m | 0 <= m < |s'.d.orders| ensures RowOK(s', m) { if m < |s.d.orders| { InvRow(s, m); } }
    forall m | 0 <= m < |s'.d.positions| ensures WorkOK(s', m) { InvLane(s, m); }
  }

  lemma UntouchedLinks(s: Scene, s': Scene, k: nat, act: Option<nat>)
    requires Inv(s) && LaneStep(s, s', k, act) && s'.d.orders == s.d.orders
    requires s'.g.lanes[k].work == s.g.lanes[k].work
    ensures Links(s') && Works(s') && Rows(s')
  {
    hide Inv, LaneOK, OrderShape, DigestOf;
    forall m | 0 <= m < |s'.b.orders| ensures LinkOK(s', m) { InvOrder(s, m); }
    forall m | 0 <= m < |s'.d.orders| ensures RowOK(s', m) { InvRow(s, m); }
    forall m | 0 <= m < |s'.d.positions| ensures WorkOK(s', m) { InvLane(s, m); }
  }
}
