/** The operator's way out of MANUAL_INTERVENTION (risk/manual_flags.py:45-127). */
module ManualFlags {
  import opened Models
  import opened Repos
  import opened Tables
  import opened Reconciler
  import opened LedgerTables

  datatype Refusal = NoPosition | NotFlagged | UnknownState | NoFlagEntry | TargetIsFlag

  datatype Restore = Restored(state: PositionState) | Refused(why: Refusal)

  /** An explicit target: absent, unparseable, or a state. */
  datatype Target = Default | Unparseable | Explicit(state: PositionState)

  const HISTORY := 100

  function RowsFor(log: seq<StateLog>, k: nat): seq<StateLog> {
    if |log| == 0 then []
    else RowsFor(log[..|log| - 1], k) + if log[|log| - 1].position == k then [log[|log| - 1]] else []
  }

  /** The newest of the position's last `n` log rows that moved it into MANUAL_INTERVENTION. */
  function LatestFlag(rows: seq<StateLog>, n: nat): Option<StateLog> {
    if |rows| == 0 || n == 0 then None
    else if rows[|rows| - 1].toState.ManualIntervention? then Some(rows[|rows| - 1])
    else LatestFlag(rows[..|rows| - 1], n - 1)
  }

  function RestoreTarget(flag: Option<StateLog>, target: Target): Restore {
    match target
    case Unparseable => Refused(UnknownState)
    case Explicit(state) => if state.ManualIntervention? then Refused(TargetIsFlag) else Restored(state)
    case Default =>
      if flag.None? || flag.value.fromState.None? then Refused(NoFlagEntry)
      else if flag.value.fromState.value.ManualIntervention? then Refused(TargetIsFlag)
      else Restored(flag.value.fromState.value)
  }

  function RestoreOf(d: Db, symbol: string, strategy: string, target: Target): Restore {
    var at := FindPosition(d.positions, symbol, Some(strategy));
    if at.None? || at.value >= |d.positions| then Refused(NoPosition)
    else if !d.positions[at.value].state.ManualIntervention? then Refused(NotFlagged)
    else RestoreTarget(LatestFlag(RowsFor(d.log, at.value), HISTORY), target)
  }

  method LatestFlagEntry(db: Repositories, k: nat) returns (flag: Option<StateLog>)
    ensures flag == LatestFlag(RowsFor(db.log, k), HISTORY)
  {
    var rows: seq<StateLog> := [];
    for n := 0 to |db.log|
      invariant rows == RowsFor(db.log[..n], k)
    {
      assert db.log[..n + 1][..n] == db.log[..n];
      if db.log[n].position == k { rows := rows + [db.log[n]]; }
    }
    assert db.log[..|db.log|] == db.log;
    var i := 0;
    assert rows[..|rows|] == rows;
    while i < HISTORY && i < |rows|
      invariant i <= HISTORY && i <= |rows|
      invariant LatestFlag(rows, HISTORY) == LatestFlag(rows[..|rows| - i], HISTORY - i)
    {
      var row := rows[|rows| - 1 - i];
      if row.toState.ManualIntervention? { return Some(row); }
      assert rows[..|rows| - i][..|rows| - i - 1] == rows[..|rows| - i - 1];
      i := i + 1;
    }
    flag := None;
  }

  /** restore_position: a refusal writes nothing; a restore moves the one row and logs the operator's hand. */
  method RestorePosition(db: Repositories, symbol: string, strategy: string, target: Target,
                         now: int) returns (r: Restore)
    modifies db
    ensures r == RestoreOf(old(db.View()), symbol, strategy, target)
    ensures r.Refused? ==> db.View() == old(db.View())
    ensures r.Restored? ==>
              var d := old(db.View());
              var k := FindPosition(d.positions, symbol, Some(strategy)).value;
              k < |d.positions|
              && db.View() == SetPosition(d, k, d.positions[k].(state := r.state))
                                .(log := d.log + [StateLog(k, Some(ManualIntervention), r.state, ByManual, now)])
  {
    hide LatestFlag, RowsFor;
    var at := db.GetBySymbol(symbol, Some(strategy));
    if at.None? { return Refused(NoPosition); }
    var k := at.value;
    if !db.positions[k].state.ManualIntervention? { return Refused(NotFlagged); }
    var flag := LatestFlagEntry(db, k);
    r := RestoreTarget(flag, target);
    if r.Refused? { return; }
    db.UpdatePositionRow(k, db.positions[k].(state := r.state));
    db.log := db.log + [StateLog(k, Some(ManualIntervention), r.state, ByManual, now)];
  }

  /** Flagging a managed position and restoring it puts its row back exactly, cycle and shares included. */
  lemma FlagThenRestore(t: Tick, symbol: string, strategy: string, now: int)
    requires var k := FindPosition(t.db.positions, symbol, Some(strategy));
             k.Some? && k.value < |t.db.positions| && !t.db.positions[k.value].state.ManualIntervention?
    ensures var k := FindPosition(t.db.positions, symbol, Some(strategy)).value;
            var d := FlagManual(t, symbol, Some(strategy), now).db;
            var r := RestoreOf(d, symbol, strategy, Default);
            && r == Restored(t.db.positions[k].state)
            && k < |d.positions| && SetPosition(d, k, d.positions[k].(state := r.state)).positions == t.db.positions
  {
    var k := FindPosition(t.db.positions, symbol, Some(strategy)).value;
    var p := t.db.positions[k];
    var d := FlagManual(t, symbol, Some(strategy), now).db;
    FindPositionKeys(t.db.positions, d.positions, symbol, Some(strategy));
    var row := StateLog(k, Some(p.state), ManualIntervention, ByReconciler, now);
    assert d.log == t.db.log + [row] && d.log[..|t.db.log|] == t.db.log;
    assert RowsFor(d.log, k) == RowsFor(t.db.log, k) + [row];
  }

  // ---- When a restore goes through ----

  /** The position's log rows after row i. */
  function Since(log: seq<StateLog>, k: nat, i: nat): set<int> {
    set x | i < x < |log| && log[x].position == k
  }

  /** Log row i flagged the position, none of it after i did, and fewer than n of its rows are newer. */
  predicate LastFlagged(log: seq<StateLog>, k: nat, i: nat, n: nat) {
    && i < |log| && log[i].position == k && log[i].toState == ManualIntervention
    && (forall x :: i < x < |log| && log[x].position == k ==> log[x].toState != ManualIntervention)
    && |Since(log, k, i)| < n
  }

  lemma SinceShorter(log: seq<StateLog>, k: nat, i: nat)
    requires i < |log| - 1
    ensures var last := |log| - 1;
            && Since(log, k, i) == Since(log[..last], k, i) + (if log[last].position == k then {last} else {})
            && last !in Since(log[..last], k, i)
  {
    var last := |log| - 1;
    forall x | i < x < last ensures x in Since(log, k, i) <==> x in Since(log[..last], k, i) {
      assert log[..last][x] == log[x];
    }
  }

  /** A newest row that is another position's, or that does not flag, leaves the last flag where it was. */
  lemma FlaggedBefore(log: seq<StateLog>, k: nat, x: nat, n: nat)
    requires |log| > 0 && n > 0
    requires log[|log| - 1].position != k || log[|log| - 1].toState != ManualIntervention
    ensures LastFlagged(log, k, x, n)
            <==> LastFlagged(log[..|log| - 1], k, x, if log[|log| - 1].position == k then n - 1 else n)
  {
    var last := |log| - 1;
    if x < last {
      SinceShorter(log, k, x);
      assert forall y :: 0 <= y < last ==> log[..last][y] == log[y];
    }
  }

  lemma {:induction false} LatestFlagExactly(log: seq<StateLog>, k: nat, n: nat) returns (i: nat)
    ensures var flag := LatestFlag(RowsFor(log, k), n);
            && (flag.Some? ==> LastFlagged(log, k, i, n) && flag.value == log[i])
            && (flag.None? ==> forall x: nat :: !LastFlagged(log, k, x, n))
    decreases |log|
  {
    i := 0;
    if |log| > 0 && n > 0 {
      var last := |log| - 1;
      var rest, rows := log[..last], RowsFor(log, k);
      if log[last].position == k && log[last].toState == ManualIntervention {
        i := last;
        assert Since(log, k, last) == {};
        assert rows[|rows| - 1] == log[last];
      } else {
        hide LastFlagged;
        var m := if log[last].position == k then n - 1 else n;
        i := LatestFlagExactly(rest, k, m);
        if log[last].position == k {
          assert rows[|rows| - 1] == log[last] && rows[..|rows| - 1] == RowsFor(rest, k);
        } else {
          assert rows == RowsFor(rest, k);
        }
        assert LatestFlag(rows, n) == LatestFlag(RowsFor(rest, k), m);
        forall x: nat ensures LastFlagged(log, k, x, n) <==> LastFlagged(rest, k, x, m) {
          FlaggedBefore(log, k, x, n);
        }
        FlaggedWithin(log, k, i, n);
      }
    }
  }

  lemma FlaggedWithin(log: seq<StateLog>, k: nat, i: nat, n: nat)
    requires |log| > 0 && n > 0
    requires log[|log| - 1].position != k || log[|log| - 1].toState != ManualIntervention
    ensures LastFlagged(log, k, i, n) ==> i < |log| - 1
  {
  }

  /** A restore to a state goes through exactly if the pair's row is flagged and the state is not the flag itself, and
      it was asked for by name, or by default while the last of the position's hundred newest log rows that flagged it
      left that state. */
  lemma RestoreExactly(d: Db, k: nat, symbol: string, strategy: string, target: Target, state: PositionState)
    requires FindPosition(d.positions, symbol, Some(strategy)) == Some(k) && k < |d.positions|
    ensures RestoreOf(d, symbol, strategy, target) == Restored(state)
            <==> d.positions[k].state == ManualIntervention && state != ManualIntervention
                 && (target == Explicit(state)
                     || (target == Default
                         && exists i: nat :: LastFlagged(d.log, k, i, 100) && d.log[i].fromState == Some(state)))
  {
    hide LatestFlag, RowsFor, LastFlagged;
    var i := LatestFlagExactly(d.log, k, HISTORY);
    forall x: nat | LastFlagged(d.log, k, x, 100) && LatestFlag(RowsFor(d.log, k), HISTORY).Some? ensures x == i {
      OneLastFlag(d.log, k, x, i);
    }
  }

  lemma OneLastFlag(log: seq<StateLog>, k: nat, x: nat, i: nat)
    requires LastFlagged(log, k, x, 100) && LastFlagged(log, k, i, 100)
    ensures x == i
  {
  }
}
