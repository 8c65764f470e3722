/** A whole tick: the invariant survives, every position ends in sync with the broker, and
    neither a flag, nor a self-heal, nor the auditor fires. */
module LedgerTick {
  import opened Models
  import opened PaperBrokers
  import opened Repos
  import opened Router
  import opened Reconciler
  import opened QuietTick
  import opened Ledger
  import opened LedgerTables
  import opened LedgerInvariant
  import opened LedgerBroker
  import opened LedgerRouter
  import opened LedgerStep
  import opened LedgerOrders
  import opened LedgerStream
  import opened LedgerShape
  import opened LedgerSweep

  // ---- One position's turn ----

  /** No flag and no fill: the same real orders are filled as before. */
  predicate Unnoticed(d: Db, t: Tick, t': Tick) {
    Quiet(t, t') && t'.sum.fills == t.sum.fills && FilledRows(t'.db) == FilledRows(d)
  }

  /** Only position k's turn was taken. */
  ghost predicate TurnTaken(s: Scene, s': Scene, k: nat) {
    && Continues(s, s') && Inv(s') && k < |s.d.positions| && LaneSynced(s', k)
    && (forall m :: 0 <= m < |s.d.positions| && m != k ==> s'.d.positions[m] == s.d.positions[m])
    && (forall m :: 0 <= m < |s.d.positions| && m != k && LaneSynced(s, m) ==> LaneSynced(s', m))
  }

  lemma OthersSynced(s: Scene, s': Scene, k: nat, act: Option<nat>)
    requires Inv(s) && LaneStep(s, s', k, act)
    ensures forall m :: 0 <= m < |s.d.positions| && m != k && LaneSynced(s, m) ==> LaneSynced(s', m)
  {
    hide Inv, Synced, DigestOf;
    forall m | 0 <= m < |s.d.positions| && m != k && LaneSynced(s, m) ensures LaneSynced(s', m) {
      InvLane(s, m);
      assert ViewOf(s'.b, s'.d, s'.g.lanes[m], m) == ViewOf(s.b, s.d, s.g.lanes[m], m);
    }
  }

  lemma TookSharesTurn(s: Scene, t: Tick, k: nat, now: int) returns (s': Scene)
    requires Turn(s, k) && t.db == s.d && now == s.clock
    requires s.d.positions[k].state.CspOpen? && s.g.lanes[k].fate.Delivered?
    ensures TurnTaken(s, s', k)
    ensures var t' := OnAssignment(t, k, s.d.positions[k], now); t'.db == s'.d && Unnoticed(s.d, t, t')
  {
    hide Inv, StateOK, LegsOK, DigestOf, AllCaughtUp, Synced, OnAssignment, Tagged;
    var cy, cost, log := AssignedSpec(s, t, k, now);
    AssignedInv(s, k, cy, cost, now, log);
    s' := AssignedScene(s, k, cy, cost, now, log);
    CspCycleOpen(s, k, cy);
    LegAppended(s.d.orders, AssignedLeg(s, k, cy, now), cy);
    OthersSynced(s, s', k, Some(cy));
  }

  lemma LegExpiredTurn(s: Scene, t: Tick, k: nat, outcome: CycleOutcome, now: int) returns (s': Scene)
    requires Turn(s, k) && t.db == s.d && !outcome.CcCalledAway?
    requires VerdictOf(s.g.lanes[k], ViewOf(s.b, s.d, s.g.lanes[k], k), LegExpired)
    ensures TurnTaken(s, s', k)
    ensures var t' := OnExpiry(t, k, s.d.positions[k], outcome, now); t'.db == s'.d && Unnoticed(s.d, t, t')
  {
    hide Inv, StateOK, LegsOK, DigestOf, AllCaughtUp, Synced, OnExpiry, Tagged;
    var cy, c, log := ExpiredSpec(s, t, k, outcome, now);
    ExpiredInv(s, k, cy, c, log);
    s' := ExpiredScene(s, k, cy, c, log);
    CspCycleOpen(s, k, cy);
    OthersSynced(s, s', k, Some(cy));
  }

  lemma CallExpiredTurn(s: Scene, t: Tick, k: nat, now: int) returns (s': Scene)
    requires Turn(s, k) && t.db == s.d
    requires VerdictOf(s.g.lanes[k], ViewOf(s.b, s.d, s.g.lanes[k], k), CallExpired)
    ensures TurnTaken(s, s', k)
    ensures var t' := OnCcExpiry(t, k, s.d.positions[k], now); t'.db == s'.d && Unnoticed(s.d, t, t')
  {
    hide Inv, StateOK, LegsOK, DigestOf, AllCaughtUp, Synced, Tagged;
    var t' := OnCcExpiry(t, k, s.d.positions[k], now);
    CallExpiredInv(s, k, t'.db.log);
    s' := CallExpiredScene(s, k, t'.db.log);
    InvLane(s, k);
    OthersSynced(s, s', k, s.d.positions[k].cycle);
  }

  lemma GaveSharesTurn(s: Scene, t: Tick, k: nat, now: int) returns (s': Scene)
    requires Turn(s, k) && t.db == s.d && now == s.clock
    requires s.d.positions[k].state.CcOpen? && s.g.lanes[k].fate.Delivered?
    ensures TurnTaken(s, s', k)
    ensures var t' := OnCalledAway(t, k, s.d.positions[k], now); t'.db == s'.d && Unnoticed(s.d, t, t')
  {
    hide Inv, StateOK, LegsOK, DigestOf, AllCaughtUp, Synced, OnCalledAway, Tagged, FlowSum;
    var cy, c, log := CalledSpec(s, t, k, now);
    CalledInv(s, k, cy, c, now, log);
    s' := CalledScene(s, k, cy, c, now, log);
    CspCycleOpen(s, k, cy);
    LegAppended(s.d.orders, SoldLeg(s, k, cy, now), cy);
    OthersSynced(s, s', k, Some(cy));
  }

  lemma CaughtUpStays(s: Scene, s': Scene)
    requires Sized(s) && AllCaughtUp(s) && Continues(s, s')
    ensures AllCaughtUp(s')
  {
    forall i | 0 <= i < |s'.b.orders| ensures CaughtUp(s', i) { assert CaughtUp(s, i); }
  }

  lemma TurnKeeps(s: Scene, t: Tick, k: nat, now: int) returns (s': Scene)
    requires Turn(s, k) && t.db == s.d && now == s.clock
    ensures TurnTaken(s, s', k) && AllCaughtUp(s')
    ensures var t' := DiffOne(t, k, s.d.positions[k], TrueShape(s.b, s.d.positions[k].symbol), now);
            t'.db == s'.d && Unnoticed(s.d, t, t')
  {
    hide Inv, StateOK, LegsOK, DigestOf, Synced, DiffOne, Managed, Decide;
    hide OnAssignment, OnExpiry, OnCcExpiry, OnCalledAway;
    TurnFacts(s, k);
    BranchTaken(s, t, k, now);
    var l := s.g.lanes[k];
    var v := ViewOf(s.b, s.d, l, k);
    DecideRight(s.cfg, l, v);
    match Decide(l, v) {
      case Stay => s' := s;
      case TookShares => s' := TookSharesTurn(s, t, k, now);
      case LegExpired =>
        s' := LegExpiredTurn(s, t, k, if v.p.state.CspOpen? then CspExpired else SpreadExpiredOutcome(v.p.strategy),
                             now);
      case CallExpired => s' := CallExpiredTurn(s, t, k, now);
      case GaveShares => s' := GaveSharesTurn(s, t, k, now);
    }
    CaughtUpStays(s, s');
  }

  // ---- The sweep ----

  lemma RowsReported(s: Scene, ks: seq<string>, cs: seq<Contract>)
    requires Inv(s) && Enumerates(ks, s.b.stock.Keys) && Enumerates(cs, s.b.options.Keys)
    ensures Reported(s.b, PositionRows(s.b, ks, cs), ks, cs)
  {
    hide Sized, Links, Rows, Works, Lanes, Cycles, Pointers, CashOK;
  }

  lemma {:induction false} SweepKeeps(s: Scene, t: Tick, n: nat, rows: seq<BrokerRow>, now: int) returns (s': Scene)
    requires Inv(s) && Sized(s) && AllCaughtUp(s) && t.db == s.d && now == s.clock && n <= |s.d.positions|
    requires forall k :: 0 <= k < n ==>
             ShapeOf(rows, s.d.positions[k].symbol) == TrueShape(s.b, s.d.positions[k].symbol)
    ensures Inv(s') && Continues(s, s') && AllCaughtUp(s')
    ensures forall k :: 0 <= k < n ==> LaneSynced(s', k)
    ensures forall k :: n <= k < |s.d.positions| ==> s'.d.positions[k] == s.d.positions[k]
    ensures var t' := DiffAll(t, s.d.positions, n, rows, now); t'.db == s'.d && Unnoticed(s.d, t, t')
    decreases n
  {
    hide Inv, DiffOne, Synced, ShapeOf, TrueShape, ViewOf;
    if n == 0 { return s; }
    var s1 := SweepKeeps(s, t, n - 1, rows, now);
    var t1 := DiffAll(t, s.d.positions, n - 1, rows, now);
    s' := TurnKeeps(s1, t1, n - 1, now);
  }

  // ---- Broker symbols without a row ----

  lemma RowsKnown(s: Scene, rows: seq<BrokerRow>, ks: seq<string>, cs: seq<Contract>)
    requires Inv(s) && Reported(s.b, rows, ks, cs)
    ensures forall i :: 0 <= i < |rows| ==> KnownSymbol(s.d.positions, rows[i].symbol)
  {
    hide Sized, Links, Rows, Works, Lanes, Cycles, Pointers, CashOK, Reported;
    forall i | 0 <= i < |rows| ensures KnownSymbol(s.d.positions, rows[i].symbol) {
      ReportedSymbol(s.b, rows, ks, cs, i);
    }
  }

  // ---- The audit ----

  ghost predicate AllSynced(s: Scene)
    requires Sized(s)
  {
    forall k :: 0 <= k < |s.d.positions| ==> LaneSynced(s, k)
  }

  lemma NotOrphaned(s: Scene, cy: nat, now: int)
    requires Inv(s) && Sized(s) && cy < |s.d.cycles|
    ensures !Orphaned(s.cfg, s.d, s.d.cycles[cy], now)
  {
    hide Inv, Telescopes, DigestOf;
    InvCycle(s, cy);
    var k := s.g.owner[cy];
    FindPositionAt(s.d.positions, k, Some(s.d.positions[k].strategy));
  }

  /** A synced position's share count is the broker's, and only share-holding states have any. */
  lemma SharesAgree(cfg: Config, l: Lane, v: View)
    requires StateOK(cfg, l, v) && Synced(l, v)
    ensures v.p.shares == v.shares
    ensures v.p.shares != 0 ==> HoldsShares(v.p.state)
  {
  }

  lemma PositionShares(s: Scene, k: nat)
    requires Inv(s) && Sized(s) && k < |s.d.positions| && LaneSynced(s, k)
    ensures var p := s.d.positions[k];
            p.shares == StockOf(s.b, p.symbol).0 && (p.shares != 0 ==> HoldsShares(p.state))
  {
    hide Inv, StateOK, Synced, LegsOK, DigestOf;
    InvLane(s, k);
    SharesAgree(s.cfg, s.g.lanes[k], ViewOf(s.b, s.d, s.g.lanes[k], k));
  }

  lemma {:induction false} LocalSharesOf(ps: seq<Position>, x: string, n: nat)
    requires n <= |ps| && DistinctSymbols(ps)
    ensures LocalShares(ps[..n], x)
         == if exists k :: 0 <= k < n && ps[k].symbol == x
            then ps[var k :| 0 <= k < n && ps[k].symbol == x; k].shares else 0
  {
    if n > 0 {
      assert ps[..n][..n - 1] == ps[..n - 1];
      LocalSharesOf(ps, x, n - 1);
      if ps[n - 1].symbol == x {
        assert !(exists k :: 0 <= k < n - 1 && ps[k].symbol == x);
      }
    }
  }

  lemma TotalsMatch(s: Scene, rows: seq<BrokerRow>, ks: seq<string>, cs: seq<Contract>, x: string)
    requires Inv(s) && Sized(s) && AllSynced(s) && Reported(s.b, rows, ks, cs) && KnownSymbol(s.d.positions, x)
    ensures LocalShares(s.d.positions, x) == StockIn(rows, x)
  {
    hide Inv, LaneSynced;
    var n := |s.d.positions|;
    assert s.d.positions[..n] == s.d.positions;
    LocalSharesOf(s.d.positions, x, n);
    ReportedShares(s.b, rows, ks, cs, x);
    var k :| 0 <= k < n && s.d.positions[k].symbol == x;
    PositionShares(s, k);
  }

  /** The auditor is silent. */
  lemma AuditPasses(s: Scene, rows: seq<BrokerRow>, ks: seq<string>, cs: seq<Contract>, symbols: seq<string>, now: int)
    requires Inv(s) && Sized(s) && AllSynced(s) && Reported(s.b, rows, ks, cs)
    ensures AuditSilent(s.cfg, s.d, rows, symbols, now)
  {
    hide Inv, AllSynced, LaneSynced, Reported, Orphaned;
    forall cy | 0 <= cy < |s.d.cycles| ensures !Orphaned(s.cfg, s.d, s.d.cycles[cy], now) { NotOrphaned(s, cy, now); }
    forall k | 0 <= k < |s.d.positions| && s.d.positions[k].shares != 0 ensures HoldsShares(s.d.positions[k].state) {
      SyncedAt(s, k);
      PositionShares(s, k);
    }
    forall x | x in symbols && KnownSymbol(s.d.positions, x) ensures LocalShares(s.d.positions, x) == StockIn(rows, x) {
      TotalsMatch(s, rows, ks, cs, x);
    }
  }

  lemma SyncedAt(s: Scene, k: nat)
    requires Sized(s) && AllSynced(s) && k < |s.d.positions|
    ensures LaneSynced(s, k)
  {
  }

  // ---- reconcile_once ----

  lemma TickKeeps(s: Scene, cursor: Option<int>, ks: seq<string>, cs: seq<Contract>, symbols: seq<string>)
    returns (s': Scene)
    requires Inv(s) && Sized(s) && Enumerates(ks, s.b.stock.Keys) && Enumerates(cs, s.b.options.Keys)
    ensures Inv(s') && Sized(s') && Continues(s, s') && AllCaughtUp(s') && AllSynced(s')
    ensures var t := ReconcileOnce(s.cfg, s.b, s.d, cursor, PositionRows(s.b, ks, cs), symbols, s.clock);
            && t.db == s'.d && t.sum.manual == 0 && t.sum.heals == 0 && t.sum.parityFlags == 0
            && NewlyFilled(s.d, s'.d, t.sum.fills)
  {
    hide Inv, Since, OrdersSince, ProcessOrders, DiffAll, FlagUnknown, Audit, Enumerates, PositionRows, AllSynced;
    hide LaneSynced, ShapeOf, TrueShape, CaughtUp, Reported;
    var rows := PositionRows(s.b, ks, cs);
    RowsReported(s, ks, cs);
    var s1 := OrderPhase(s, cursor, s.clock);
    var t1 := ProcessOrders(s.cfg, Tick(s.d, ZeroSummary), OrdersSince(s.b.orders, Since(s.d.orders, cursor)), s.clock);
    forall k | 0 <= k < |s1.d.positions|
      ensures ShapeOf(rows, s1.d.positions[k].symbol) == TrueShape(s1.b, s1.d.positions[k].symbol)
    {
      ReportedShape(s1.b, rows, ks, cs, s1.d.positions[k].symbol);
    }
    var n := |s1.d.positions|;
    s' := SweepKeeps(s1, t1, n, rows, s.clock);
    SweptAll(s');
    var t2 := DiffAll(t1, s1.d.positions, n, rows, s.clock);
    RowsKnown(s1, rows, ks, cs);
    NoUnknown(t2, s1.d.positions, rows, |rows|, s.clock);
    AuditPasses(s', rows, ks, cs, symbols, s.clock);
    AuditQuiet(s.cfg, t2, rows, symbols, s.clock);
  }

  lemma SweptAll(s: Scene)
    requires Sized(s) && forall k :: 0 <= k < |s.d.positions| ==> LaneSynced(s, k)
    ensures AllSynced(s)
  {
  }
}
