/** When the parity audit speaks and whom it hands to the operator, read off the rows
    (execution/reconciler.py:1059-1185). */
module ParityAudit {
  import opened Models
  import opened PaperBrokers
  import opened Repos
  import opened Reconciler

  // ---- What is wrong with a row ----

  /** Row k is the first of the symbol, under that strategy if one is given. */
  predicate FirstRow(ps: seq<Position>, symbol: string, strategy: Option<string>, k: nat) {
    k < |ps| && ps[k].symbol == symbol && (strategy == None || strategy == Some(ps[k].strategy))
    && forall j :: 0 <= j < k ==> ps[j].symbol != symbol || (strategy != None && strategy != Some(ps[j].strategy))
  }

  /** An open cycle at least the minimum age old, whose pair has no row, or one in a state that carries nothing. */
  predicate Uncarried(cfg: Config, ps: seq<Position>, c: Cycle, now: int) {
    && c.endedAt == None && now >= c.startedAt + cfg.parityMinAge
    && forall k: nat :: k < |ps| && FirstRow(ps, c.symbol, c.strategy, k) ==>
         ps[k].state in {Idle, Scanning, CspClosed, CcClosed, CalledAway, SpreadClosed, SpreadAssigned}
  }

  /** A row with shares, neither in a share-holding state nor with the operator. */
  predicate Stray(p: Position) {
    p.shares != 0
    && p.state !in {Assigned, SharesHeld, CcPending, CcOpen, ManualIntervention, BrokerDown, Killed}
  }

  function Sum(xs: seq<int>): int {
    if |xs| == 0 then 0 else Sum(xs[..|xs| - 1]) + xs[|xs| - 1]
  }

  function SharesOf(p: Position, s: string): int {
    if p.symbol == s then p.shares else 0
  }

  function StockRowOf(r: BrokerRow, s: string): int {
    if r.symbol == s && r.state == SharesHeld then r.shares else 0
  }

  /** A known symbol whose rows and whose broker stock rows count different numbers of shares. */
  predicate Mismatched(ps: seq<Position>, rows: seq<BrokerRow>, s: string) {
    && (exists k :: 0 <= k < |ps| && ps[k].symbol == s)
    && Sum(seq(|ps|, k requires 0 <= k < |ps| => SharesOf(ps[k], s)))
       != Sum(seq(|rows|, k requires 0 <= k < |rows| => StockRowOf(rows[k], s)))
  }

  /** Handed to the operator: the pair's row reads MANUAL_INTERVENTION. */
  predicate WithOperator(ps: seq<Position>, symbol: string, strategy: Option<string>) {
    exists k: nat :: k < |ps| && FirstRow(ps, symbol, strategy, k) && ps[k].state == ManualIntervention
  }

  // ---- The audit's own terms ----

  lemma {:induction false} FindsFirst(ps: seq<Position>, symbol: string, strategy: Option<string>)
    ensures var at := FindPosition(ps, symbol, strategy);
            && (at.Some? ==> FirstRow(ps, symbol, strategy, at.value))
            && (forall k: nat :: FirstRow(ps, symbol, strategy, k) ==> at == Some(k))
  {
    if |ps| > 0 {
      var n := |ps| - 1;
      FindsFirst(ps[..n], symbol, strategy);
      var at := FindPosition(ps[..n], symbol, strategy);
      if at.Some? {
        assert FirstRow(ps, symbol, strategy, at.value);
      } else {
        forall j: nat | j < n
          ensures ps[j].symbol != symbol || (strategy != None && strategy != Some(ps[j].strategy))
        {
          NoneEarlier(ps[..n], symbol, strategy, j);
        }
      }
      forall k: nat | FirstRow(ps, symbol, strategy, k) ensures FindPosition(ps, symbol, strategy) == Some(k) {
        if k < n { assert FirstRow(ps[..n], symbol, strategy, k); }
      }
    }
  }

  /** A row that is first of anything is first of its own pair. */
  lemma FirstOfPair(ps: seq<Position>, symbol: string, strategy: Option<string>, k: nat)
    requires FirstRow(ps, symbol, strategy, k)
    ensures FirstRow(ps, ps[k].symbol, Some(ps[k].strategy), k)
  {
  }

  lemma UncarriedIsOrphaned(cfg: Config, d: Db, c: Cycle, now: int)
    ensures Orphaned(cfg, d, c, now) <==> Uncarried(cfg, d.positions, c, now)
  {
    hide FirstRow, FindPosition;
    FindsFirst(d.positions, c.symbol, c.strategy);
    FoundWithin(d.positions, c.symbol, c.strategy);
  }

  lemma FoundWithin(ps: seq<Position>, symbol: string, strategy: Option<string>)
    ensures var at := FindPosition(ps, symbol, strategy); at.Some? ==> at.value < |ps|
  {
    FindsFirst(ps, symbol, strategy);
  }

  lemma {:induction false} LocalTotal(ps: seq<Position>, s: string)
    ensures LocalShares(ps, s) == Sum(seq(|ps|, k requires 0 <= k < |ps| => SharesOf(ps[k], s)))
  {
    if |ps| > 0 {
      var n := |ps| - 1;
      LocalTotal(ps[..n], s);
      assert seq(|ps|, k requires 0 <= k < |ps| => SharesOf(ps[k], s))[..n]
             == seq(n, k requires 0 <= k < n => SharesOf(ps[..n][k], s));
    }
  }

  lemma {:induction false} BrokerTotal(rows: seq<BrokerRow>, s: string)
    ensures StockIn(rows, s) == Sum(seq(|rows|, k requires 0 <= k < |rows| => StockRowOf(rows[k], s)))
  {
    if |rows| > 0 {
      var n := |rows| - 1;
      BrokerTotal(rows[..n], s);
      assert seq(|rows|, k requires 0 <= k < |rows| => StockRowOf(rows[k], s))[..n]
             == seq(n, k requires 0 <= k < n => StockRowOf(rows[..n][k], s));
    }
  }

  lemma MismatchIs(ps: seq<Position>, rows: seq<BrokerRow>, s: string)
    ensures Mismatched(ps, rows, s) <==> KnownSymbol(ps, s) && LocalShares(ps, s) != StockIn(rows, s)
  {
    LocalTotal(ps, s);
    BrokerTotal(rows, s);
  }

  // ---- What flagging does to the rows ----

  /** Rows are only handed to the operator, each the first of its pair, or added in the operator's hands without
      shares. */
  predicate HandedOver(a: seq<Position>, b: seq<Position>) {
    && |a| <= |b|
    && (forall k :: 0 <= k < |a| ==> b[k] == a[k] || Taken(a, b, k))
    && (forall k :: |a| <= k < |b| ==> b[k].state == ManualIntervention && b[k].shares == 0)
  }

  predicate Taken(a: seq<Position>, b: seq<Position>, k: nat)
    requires k < |a| <= |b|
  {
    b[k] == a[k].(state := ManualIntervention) && FirstRow(a, a[k].symbol, Some(a[k].strategy), k)
  }

  lemma SameFirst(a: seq<Position>, b: seq<Position>, symbol: string, strategy: Option<string>, k: nat)
    requires HandedOver(a, b) && k < |a|
    ensures FirstRow(a, symbol, strategy, k) <==> FirstRow(b, symbol, strategy, k)
  {
  }

  lemma ThenHandedOver(a: seq<Position>, b: seq<Position>, c: seq<Position>)
    requires HandedOver(a, b) && HandedOver(b, c)
    ensures HandedOver(a, c)
  {
    hide FirstRow;
    forall k: nat | k < |a| ensures c[k] == a[k] || Taken(a, c, k) {
      SameFirst(a, b, a[k].symbol, Some(a[k].strategy), k);
    }
  }

  lemma StaysWithOperator(a: seq<Position>, b: seq<Position>, symbol: string, strategy: Option<string>)
    requires HandedOver(a, b) && WithOperator(a, symbol, strategy)
    ensures WithOperator(b, symbol, strategy)
  {
    hide FirstRow;
    var k: nat :| k < |a| && FirstRow(a, symbol, strategy, k) && a[k].state == ManualIntervention;
    SameFirst(a, b, symbol, strategy, k);
  }

  lemma FlagHandsOver(t: Tick, symbol: string, strategy: Option<string>, now: int)
    ensures var r := FlagManual(t, symbol, strategy, now);
            && HandedOver(t.db.positions, r.db.positions) && WithOperator(r.db.positions, symbol, strategy)
            && r.db.cycles == t.db.cycles && r.db.orders == t.db.orders && r.sum == t.sum.(manual := r.sum.manual)
  {
    hide FirstRow, FindPosition;
    var ps := t.db.positions;
    FindsFirst(ps, symbol, strategy);
    FoundWithin(ps, symbol, strategy);
    var at, r := FindPosition(ps, symbol, strategy), FlagManual(t, symbol, strategy, now).db.positions;
    if at.Some? {
      FirstOfPair(ps, symbol, strategy, at.value);
      assert r == ps[at.value := ps[at.value].(state := ManualIntervention)];
      SameFirst(ps, r, symbol, strategy, at.value);
    } else {
      AddedFirst(ps, r, symbol, strategy);
    }
  }

  lemma AddedFirst(ps: seq<Position>, r: seq<Position>, symbol: string, strategy: Option<string>)
    requires forall k: nat :: !FirstRow(ps, symbol, strategy, k)
    requires |r| == |ps| + 1 && r[..|ps|] == ps && r[|ps|].symbol == symbol
    requires strategy == None || strategy == Some(r[|ps|].strategy)
    ensures FirstRow(r, symbol, strategy, |ps|)
  {
    hide FindPosition;
    forall j: nat | j < |ps|
      ensures !(ps[j].symbol == symbol && (strategy == None || strategy == Some(ps[j].strategy)))
    {
      NoneEarlier(ps, symbol, strategy, j);
    }
    assert forall j :: 0 <= j < |ps| ==> r[j] == r[..|ps|][j] == ps[j];
  }

  lemma {:induction false} NoneEarlier(ps: seq<Position>, symbol: string, strategy: Option<string>, j: nat)
    requires j < |ps| && forall k: nat :: !FirstRow(ps, symbol, strategy, k)
    ensures !(ps[j].symbol == symbol && (strategy == None || strategy == Some(ps[j].strategy)))
  {
    if ps[j].symbol == symbol && (strategy == None || strategy == Some(ps[j].strategy)) {
      forall i: nat | i < j
        ensures !(ps[i].symbol == symbol && (strategy == None || strategy == Some(ps[i].strategy)))
      {
        NoneEarlier(ps, symbol, strategy, i);
      }
      assert FirstRow(ps, symbol, strategy, j);
    }
  }

  lemma ParityHandsOver(t: Tick, symbol: string, strategy: Option<string>, now: int)
    ensures var r := ParityFlag(t, symbol, strategy, now);
            && HandedOver(t.db.positions, r.db.positions) && WithOperator(r.db.positions, symbol, strategy)
            && r.db.cycles == t.db.cycles && r.db.orders == t.db.orders
            && r.sum == t.sum.(manual := r.sum.manual, parityFlags := t.sum.parityFlags + 1)
  {
    hide FlagManual, HandedOver, WithOperator;
    FlagHandsOver(t.(sum := t.sum.(parityFlags := t.sum.parityFlags + 1)), symbol, strategy, now);
  }

  // ---- Phase by phase ----

  /** From t to r the audit flagged exactly if something was wrong, and otherwise did nothing. */
  predicate Spoke(t: Tick, r: Tick, wrong: bool) {
    && HandedOver(t.db.positions, r.db.positions) && r.db.cycles == t.db.cycles && r.db.orders == t.db.orders
    && r.sum == t.sum.(manual := r.sum.manual, parityFlags := r.sum.parityFlags)
    && r.sum.parityFlags >= t.sum.parityFlags
    && (wrong <==> r.sum.parityFlags > t.sum.parityFlags) && (!wrong ==> r == t)
  }

  lemma NothingHandedOver(ps: seq<Position>)
    ensures HandedOver(ps, ps)
  {
  }

  /** One more look: it flags if the rows as they are then call for it. */
  lemma SpokeAgain(t: Tick, b: Tick, before: bool, symbol: string, strategy: Option<string>, now: int)
    requires Spoke(t, b, before)
    ensures Spoke(t, ParityFlag(b, symbol, strategy, now), true)
    ensures WithOperator(ParityFlag(b, symbol, strategy, now).db.positions, symbol, strategy)
  {
    hide ParityFlag, HandedOver, WithOperator;
    ParityHandsOver(b, symbol, strategy, now);
    ThenHandedOver(t.db.positions, b.db.positions, ParityFlag(b, symbol, strategy, now).db.positions);
  }

  /** An uncarried cycle stays one, or its pair is with the operator. */
  lemma UncarriedOrTaken(cfg: Config, a: seq<Position>, b: seq<Position>, c: Cycle, now: int)
    requires HandedOver(a, b) && Uncarried(cfg, a, c, now)
    ensures Uncarried(cfg, b, c, now) || WithOperator(b, c.symbol, c.strategy)
  {
    hide FirstRow;
    if k: nat :| k < |b| && FirstRow(b, c.symbol, c.strategy, k) {
      forall j: nat | j < |b| && FirstRow(b, c.symbol, c.strategy, j) ensures j == k {
        OnlyFirst(b, c.symbol, c.strategy, j, k);
      }
      if k < |a| { SameFirst(a, b, c.symbol, c.strategy, k); }
    }
  }

  lemma OnlyFirst(ps: seq<Position>, symbol: string, strategy: Option<string>, j: nat, k: nat)
    requires FirstRow(ps, symbol, strategy, j) && FirstRow(ps, symbol, strategy, k)
    ensures j == k
  {
  }

  lemma {:induction false} CyclesSpeak(cfg: Config, t: Tick, cycles: seq<Cycle>, n: nat, now: int)
    requires n <= |cycles|
    ensures var r := AuditCycles(cfg, t, cycles, n, now);
            && Spoke(t, r, exists i :: 0 <= i < n && Uncarried(cfg, t.db.positions, cycles[i], now))
            && forall i :: 0 <= i < n && Uncarried(cfg, t.db.positions, cycles[i], now) ==>
                 WithOperator(r.db.positions, cycles[i].symbol, cycles[i].strategy)
  {
    hide Uncarried, WithOperator, HandedOver, ParityFlag, Orphaned;
    if n == 0 {
      NothingHandedOver(t.db.positions);
    } else {
      CyclesSpeak(cfg, t, cycles, n - 1, now);
      var before := AuditCycles(cfg, t, cycles, n - 1, now);
      var c := cycles[n - 1];
      var earlier := exists i :: 0 <= i < n - 1 && Uncarried(cfg, t.db.positions, cycles[i], now);
      UncarriedIsOrphaned(cfg, before.db, c, now);
      if Orphaned(cfg, before.db, c, now) {
        var r := ParityFlag(before, c.symbol, c.strategy, now);
        SpokeAgain(t, before, earlier, c.symbol, c.strategy, now);
        ParityHandsOver(before, c.symbol, c.strategy, now);
        forall i | 0 <= i < n - 1 && Uncarried(cfg, t.db.positions, cycles[i], now)
          ensures WithOperator(r.db.positions, cycles[i].symbol, cycles[i].strategy)
        {
          StaysWithOperator(before.db.positions, r.db.positions, cycles[i].symbol, cycles[i].strategy);
        }
        if !earlier { assert Uncarried(cfg, t.db.positions, cycles[n - 1], now); }
      } else if Uncarried(cfg, t.db.positions, c, now) {
        UncarriedOrTaken(cfg, t.db.positions, before.db.positions, c, now);
      }
    }
  }

  lemma {:induction false} RowsSpeak(t: Tick, ps: seq<Position>, n: nat, now: int)
    requires n <= |ps|
    ensures var r := AuditRows(t, ps, n, now);
            && Spoke(t, r, exists i :: 0 <= i < n && Stray(ps[i]))
            && forall i :: 0 <= i < n && Stray(ps[i]) ==>
                 WithOperator(r.db.positions, ps[i].symbol, Some(ps[i].strategy))
  {
    hide WithOperator, HandedOver, ParityFlag;
    if n == 0 {
      NothingHandedOver(t.db.positions);
    } else {
      RowsSpeak(t, ps, n - 1, now);
      var before := AuditRows(t, ps, n - 1, now);
      var p := ps[n - 1];
      if Stray(p) {
        var r := ParityFlag(before, p.symbol, Some(p.strategy), now);
        SpokeAgain(t, before, exists i :: 0 <= i < n - 1 && Stray(ps[i]), p.symbol, Some(p.strategy), now);
        ParityHandsOver(before, p.symbol, Some(p.strategy), now);
        forall i | 0 <= i < n - 1 && Stray(ps[i])
          ensures WithOperator(r.db.positions, ps[i].symbol, Some(ps[i].strategy))
        {
          StaysWithOperator(before.db.positions, r.db.positions, ps[i].symbol, Some(ps[i].strategy));
        }
      }
    }
  }

  lemma {:induction false} TotalsSpeak(t: Tick, ps: seq<Position>, rows: seq<BrokerRow>, symbols: seq<string>, now: int)
    ensures var r := AuditTotals(t, ps, rows, symbols, now);
            && Spoke(t, r, exists s :: s in symbols && Mismatched(ps, rows, s))
            && forall s :: s in symbols && Mismatched(ps, rows, s) ==> WithOperator(r.db.positions, s, None)
  {
    hide Mismatched, WithOperator, HandedOver, ParityFlag, KnownSymbol, LocalShares, StockIn;
    if |symbols| == 0 {
      NothingHandedOver(t.db.positions);
    } else {
      var rest, s := symbols[..|symbols| - 1], symbols[|symbols| - 1];
      assert symbols == rest + [s];
      TotalsSpeak(t, ps, rows, rest, now);
      var before := AuditTotals(t, ps, rows, rest, now);
      MismatchIs(ps, rows, s);
      if Mismatched(ps, rows, s) {
        var r := ParityFlag(before, s, None, now);
        SpokeAgain(t, before, exists x :: x in rest && Mismatched(ps, rows, x), s, None, now);
        ParityHandsOver(before, s, None, now);
        forall x | x in rest && Mismatched(ps, rows, x) ensures WithOperator(r.db.positions, x, None) {
          StaysWithOperator(before.db.positions, r.db.positions, x, None);
        }
        assert s in symbols;
      }
    }
  }

  // ---- The whole audit ----

  /** Something is wrong with the tables, read before the audit starts. */
  predicate Wrong(cfg: Config, d: Db, rows: seq<BrokerRow>, symbols: seq<string>, now: int) {
    || (exists i :: 0 <= i < |d.cycles| && Uncarried(cfg, d.positions, d.cycles[i], now))
    || (exists i :: 0 <= i < |d.positions| && Stray(d.positions[i]))
    || (exists s :: s in symbols && Mismatched(d.positions, rows, s))
  }

  lemma StrayOrTaken(a: seq<Position>, b: seq<Position>, i: nat)
    requires HandedOver(a, b) && i < |a| && Stray(a[i])
    ensures b[i].symbol == a[i].symbol && b[i].strategy == a[i].strategy
    ensures Stray(b[i]) || WithOperator(b, a[i].symbol, Some(a[i].strategy))
  {
    hide FirstRow;
    if b[i] != a[i] { SameFirst(a, b, a[i].symbol, Some(a[i].strategy), i); }
  }

  lemma SameTotals(a: seq<Position>, b: seq<Position>, rows: seq<BrokerRow>, s: string)
    requires HandedOver(a, b) && Mismatched(a, rows, s)
    ensures Mismatched(b, rows, s)
  {
    hide Sum, FirstRow;
    SameShares(a, b, s, |b|);
    var k :| 0 <= k < |a| && a[k].symbol == s;
    assert b[k].symbol == s;
  }

  lemma {:induction false} SameShares(a: seq<Position>, b: seq<Position>, s: string, n: nat)
    requires HandedOver(a, b) && |a| <= n <= |b|
    ensures Sum(seq(n, k requires 0 <= k < n => SharesOf(b[k], s)))
            == Sum(seq(|a|, k requires 0 <= k < |a| => SharesOf(a[k], s)))
  {
    hide FirstRow;
    if n == |a| {
      assert seq(n, k requires 0 <= k < n => SharesOf(b[k], s))
             == seq(|a|, k requires 0 <= k < |a| => SharesOf(a[k], s));
    } else {
      SameShares(a, b, s, n - 1);
      assert seq(n, k requires 0 <= k < n => SharesOf(b[k], s))[..n - 1]
             == seq(n - 1, k requires 0 <= k < n - 1 => SharesOf(b[k], s));
    }
  }

  /** The audit raises a parity flag if and only if, on the tables as it finds them, an old enough open cycle is
      carried by nothing, a row has shares where it should not, or a known symbol's totals differ; otherwise it
      changes nothing at all. Switched off, it never does. */
  lemma AuditSpeaks(cfg: Config, t: Tick, rows: seq<BrokerRow>, symbols: seq<string>, now: int)
    ensures var r := Audit(cfg, t, rows, symbols, now);
            && (r.sum.parityFlags > t.sum.parityFlags
                <==> cfg.parityEnabled && Wrong(cfg, t.db, rows, symbols, now))
            && (r.sum.parityFlags <= t.sum.parityFlags ==> r == t)
  {
    hide Uncarried, HandedOver, Stray, Mismatched, AuditCycles, AuditRows, AuditTotals;
    if cfg.parityEnabled {
      CyclesSpeak(cfg, t, t.db.cycles, |t.db.cycles|, now);
      var t1 := AuditCycles(cfg, t, t.db.cycles, |t.db.cycles|, now);
      var ps := t1.db.positions;
      RowsSpeak(t1, ps, |ps|, now);
      TotalsSpeak(AuditRows(t1, ps, |ps|, now), ps, rows, symbols, now);
    }
  }

  /** And everything wrong ends with the operator: the pair of each uncarried cycle and of each stray row, and the
      first row of each mismatched symbol. */
  lemma AuditHandsOver(cfg: Config, t: Tick, rows: seq<BrokerRow>, symbols: seq<string>, now: int)
    requires cfg.parityEnabled
    ensures var d, ps := t.db, Audit(cfg, t, rows, symbols, now).db.positions;
            && (forall i :: 0 <= i < |d.cycles| && Uncarried(cfg, d.positions, d.cycles[i], now) ==>
                  WithOperator(ps, d.cycles[i].symbol, d.cycles[i].strategy))
            && (forall i :: 0 <= i < |d.positions| && Stray(d.positions[i]) ==>
                  WithOperator(ps, d.positions[i].symbol, Some(d.positions[i].strategy)))
            && (forall s :: s in symbols && Mismatched(d.positions, rows, s) ==> WithOperator(ps, s, None))
  {
    hide Uncarried, HandedOver, Stray, Mismatched, WithOperator, AuditCycles, AuditRows, AuditTotals;
    var d := t.db;
    CyclesSpeak(cfg, t, d.cycles, |d.cycles|, now);
    var t1 := AuditCycles(cfg, t, d.cycles, |d.cycles|, now);
    var ps := t1.db.positions;
    RowsSpeak(t1, ps, |ps|, now);
    var t2 := AuditRows(t1, ps, |ps|, now);
    TotalsSpeak(t2, ps, rows, symbols, now);
    var last := AuditTotals(t2, ps, rows, symbols, now).db.positions;
    ThenHandedOver(ps, t2.db.positions, last);
    forall i | 0 <= i < |d.cycles| && Uncarried(cfg, d.positions, d.cycles[i], now)
      ensures WithOperator(last, d.cycles[i].symbol, d.cycles[i].strategy)
    {
      StaysWithOperator(ps, last, d.cycles[i].symbol, d.cycles[i].strategy);
    }
    forall i: nat | i < |d.positions| && Stray(d.positions[i])
      ensures WithOperator(last, d.positions[i].symbol, Some(d.positions[i].strategy))
    {
      var p := d.positions[i];
      Within(d.positions, ps);
      StrayOrTaken(d.positions, ps, i);
      if WithOperator(ps, p.symbol, Some(p.strategy)) {
        StaysWithOperator(ps, last, p.symbol, Some(p.strategy));
      } else {
        StaysWithOperator(t2.db.positions, last, p.symbol, Some(p.strategy));
      }
    }
    forall s | s in symbols && Mismatched(d.positions, rows, s) ensures WithOperator(last, s, None) {
      SameTotals(d.positions, ps, rows, s);
    }
  }

  lemma Within(a: seq<Position>, b: seq<Position>)
    requires HandedOver(a, b)
    ensures |a| <= |b|
  {
  }

  /** The walk lists every symbol on which either side can count shares, so nothing is overlooked. */
  lemma NothingOverlooked(ps: seq<Position>, rows: seq<BrokerRow>, symbols: seq<string>, s: string)
    requires forall k :: 0 <= k < |ps| && ps[k].shares != 0 ==> ps[k].symbol in symbols
    requires forall k :: 0 <= k < |rows| ==> rows[k].symbol in symbols
    requires Mismatched(ps, rows, s)
    ensures s in symbols
  {
    if s !in symbols {
      Zeros(seq(|ps|, k requires 0 <= k < |ps| => SharesOf(ps[k], s)));
      Zeros(seq(|rows|, k requires 0 <= k < |rows| => StockRowOf(rows[k], s)));
    }
  }

  lemma {:induction false} Zeros(xs: seq<int>)
    requires forall k :: 0 <= k < |xs| ==> xs[k] == 0
    ensures Sum(xs) == 0
  {
    if |xs| > 0 { Zeros(xs[..|xs| - 1]); }
  }
}
