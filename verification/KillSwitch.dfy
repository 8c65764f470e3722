/** The session kill switch (execution/kill_switch.py:53-185) over its daily row (db/repo.py:554-607): what
    latches for the day, and what does not. */
module KillSwitch {
  import opened Models

  datatype DailyState = DailyState(openEquity: Option<real>, losses: nat, armed: bool, reason: Option<string>)

  /** Everything a check reads besides the row: the stop file if present, the account's equity, closed-cycle
      P&L newest first, the limits, and how a percentage is written. */
  datatype Inputs = Inputs(stopFile: Option<string>, equity: real, pnls: seq<real>, lossPctMax: real, maxLosses: int,
                           fmt: real -> string)

  datatype Verdict = DividedByZero | Verdict(reasons: seq<string>)

  predicate Tripped(v: Verdict) {
    v.Verdict? && |v.reasons| > 0
  }

  // ---- Reasons ----

  predicate At(text: string, word: string, i: int) {
    0 <= i <= |text| - |word| && text[i..i + |word|] == word
  }

  predicate Contains(text: string, word: string) {
    exists i :: 0 <= i <= |text| && At(text, word, i)
  }

  /** The stored text names an automatic cause. */
  predicate Automatic(reason: string) {
    Contains(reason, "drawdown") || Contains(reason, "consecutive")
  }

  function Join(reasons: seq<string>): string {
    if |reasons| == 0 then ""
    else if |reasons| == 1 then reasons[0]
    else Join(reasons[..|reasons| - 1]) + "; " + reasons[|reasons| - 1]
  }

  lemma ContainsWithin(a: string, text: string, b: string, word: string)
    requires Contains(text, word)
    ensures Contains(a + text + b, word)
  {
    var i :| 0 <= i <= |text| && At(text, word, i);
    var j := |a| + i;
    assert (a + text + b)[j..j + |word|] == text[i..i + |word|];
    assert At(a + text + b, word, j);
  }

  lemma AutomaticWithin(a: string, text: string, b: string)
    requires Automatic(text)
    ensures Automatic(a + text + b)
  {
    if Contains(text, "drawdown") {
      ContainsWithin(a, text, b, "drawdown");
    } else {
      ContainsWithin(a, text, b, "consecutive");
    }
  }

  lemma {:induction false} JoinAutomatic(reasons: seq<string>, k: nat)
    requires k < |reasons| && Automatic(reasons[k])
    ensures Automatic(Join(reasons))
  {
    hide Automatic;
    var n := |reasons| - 1;
    if n > 0 {
      if k == n {
        AutomaticWithin(Join(reasons[..n]) + "; ", reasons[n], "");
        assert Join(reasons[..n]) + "; " + reasons[n] + "" == Join(reasons);
      } else {
        JoinAutomatic(reasons[..n], k);
        AutomaticWithin("", Join(reasons[..n]), "; " + reasons[n]);
        assert "" + Join(reasons[..n]) + ("; " + reasons[n]) == Join(reasons);
      }
    }
  }

  // ---- The losing streak ----

  function Streak(pnls: seq<real>): nat {
    if |pnls| == 0 || pnls[0] >= 0.0 then 0 else 1 + Streak(pnls[1..])
  }

  function Limit(look: int): nat {
    if look + 1 > 5 then look + 1 else 5
  }

  function Recent(pnls: seq<real>, look: int): seq<real> {
    if |pnls| > Limit(look) then pnls[..Limit(look)] else pnls
  }

  lemma {:induction false} StreakExact(pnls: seq<real>, m: int)
    ensures Streak(pnls) >= m <==> m <= |pnls| && forall i :: 0 <= i < m ==> pnls[i] < 0.0
  {
    if |pnls| > 0 && m > 0 {
      StreakExact(pnls[1..], m - 1);
      if pnls[0] < 0.0 {
        assert forall i :: 0 < i < m && m <= |pnls| ==> pnls[i] == pnls[1..][i - 1];
      }
    }
  }

  /** The rule fires exactly when the last `maxLosses` closed cycles all lost money. */
  lemma LossRuleExact(pnls: seq<real>, maxLosses: int)
    ensures Streak(Recent(pnls, maxLosses)) >= maxLosses
            <==> maxLosses <= |pnls| && forall i :: 0 <= i < maxLosses ==> pnls[i] < 0.0
  {
    StreakExact(Recent(pnls, maxLosses), maxLosses);
  }

  // ---- The row ----

  /** DailyStateRepo.upsert: a known opening equity, an armed flag and a first reason are never overwritten. */
  function Upsert(row: Option<DailyState>, e: DailyState): DailyState {
    if row.None? then e
    else
      var r := row.value;
      DailyState(if e.openEquity.Some? then e.openEquity else r.openEquity, e.losses, r.armed || e.armed,
                 if r.reason.Some? then r.reason else e.reason)
  }

  /** prime_session */
  function PrimeRow(row: Option<DailyState>, equity: real): DailyState {
    if row.Some? && row.value.openEquity.Some? then row.value
    else if row.Some? then Upsert(row, DailyState(Some(equity), row.value.losses, row.value.armed, row.value.reason))
    else Upsert(row, DailyState(Some(equity), 0, false, None))
  }

  function Fresh(row: Option<DailyState>, x: Inputs): seq<string> {
    StopFileReasons(x) + DrawdownReasons(row, x) + LossReasons(x)
  }

  function StopFileReasons(x: Inputs): seq<string> {
    if x.stopFile.Some? then ["manual stop file present: " + x.stopFile.value] else []
  }

  predicate Anchored(row: Option<DailyState>) {
    row.Some? && row.value.openEquity.Some?
  }

  predicate Breached(row: Option<DailyState>, x: Inputs) {
    Anchored(row) && row.value.openEquity.value != 0.0
    && (row.value.openEquity.value - x.equity) / row.value.openEquity.value * 100.0 > x.lossPctMax
  }

  function DrawdownReasons(row: Option<DailyState>, x: Inputs): seq<string> {
    if Breached(row, x) then ["daily drawdown " + x.fmt(x.equity)] else []
  }

  predicate Losing(x: Inputs) {
    Streak(Recent(x.pnls, x.maxLosses)) >= x.maxLosses
  }

  function LossReasons(x: Inputs): seq<string> {
    if Losing(x) then [x.fmt(Streak(Recent(x.pnls, x.maxLosses)) as real) + " consecutive losing cycles"] else []
  }

  /** The row latches: it is armed and its stored reason is automatic. */
  predicate Latched(row: Option<DailyState>) {
    row.Some? && row.value.armed && row.value.reason.Some? && Automatic(row.value.reason.value)
  }

  function Reasons(row: Option<DailyState>, x: Inputs): seq<string> {
    if Fresh(row, x) == [] && Latched(row) then ["latched for the session: " + row.value.reason.value]
      else Fresh(row, x)
  }

  /** check: the row it leaves and the verdict it returns. */
  function CheckRow(row: Option<DailyState>, x: Inputs): (Option<DailyState>, Verdict) {
    if Anchored(row) && row.value.openEquity.value == 0.0 then (row, DividedByZero)
    else
      var reasons := Reasons(row, x);
      var entry := DailyState(if row.Some? then row.value.openEquity else None, Streak(Recent(x.pnls, x.maxLosses)),
                              |reasons| > 0, if |reasons| > 0 then Some(Join(reasons)) else None);
      (if |reasons| > 0 || (row.Some? && row.value.armed) then Some(Upsert(row, entry)) else row, Verdict(reasons))
  }

  // ---- The code ----

  class DailyStateRepo {
    var rows: map<int, DailyState>

    constructor ()
      ensures rows == map[]
    {
      rows := map[];
    }

    function Row(day: int): Option<DailyState>
      reads this
    {
      if day in rows then Some(rows[day]) else None
    }

    method UpsertRow(day: int, e: DailyState)
      modifies this
      ensures rows == old(rows)[day := Upsert(old(Row(day)), e)]
    {
      if day in rows {
        var r := rows[day];
        if e.openEquity.Some? { r := r.(openEquity := e.openEquity); }
        r := r.(losses := e.losses, armed := r.armed || e.armed);
        if r.reason.None? { r := r.(reason := e.reason); }
        rows := rows[day := r];
      } else {
        rows := rows[day := e];
      }
    }

    /** The operator's release: the one write that un-arms. */
    method ClearKillSwitchLatch(day: int)
      modifies this
      ensures day in old(rows) ==> rows == old(rows)[day := old(rows)[day].(armed := false, reason := None)]
      ensures day !in old(rows) ==> rows == old(rows)
    {
      if day in rows { rows := rows[day := rows[day].(armed := false, reason := None)]; }
    }
  }

  class Switch {
    const repo: DailyStateRepo

    constructor (repo: DailyStateRepo)
      ensures this.repo == repo
    {
      this.repo := repo;
    }

    method PrimeSession(day: int, equity: real)
      modifies repo
      ensures repo.rows == old(repo.rows)[day := PrimeRow(old(repo.Row(day)), equity)]
    {
      if day in repo.rows && repo.rows[day].openEquity.Some? { return; }
      if day in repo.rows {
        var r := repo.rows[day];
        repo.UpsertRow(day, DailyState(Some(equity), r.losses, r.armed, r.reason));
      } else {
        repo.UpsertRow(day, DailyState(Some(equity), 0, false, None));
      }
    }

    method ConsecutiveLosses(pnls: seq<real>, look: int) returns (streak: nat)
      ensures streak == Streak(Recent(pnls, look))
    {
      var rows := Recent(pnls, look);
      streak := 0;
      while streak < |rows| && rows[streak] < 0.0
        invariant streak <= |rows| && Streak(rows) == streak + Streak(rows[streak..])
        decreases |rows| - streak
      {
        assert rows[streak..][1..] == rows[streak + 1..];
        streak := streak + 1;
      }
    }

    method Check(day: int, x: Inputs) returns (v: Verdict)
      modifies repo
      ensures (repo.Row(day), v) == CheckRow(old(repo.Row(day)), x)
      ensures forall d :: d != day ==> repo.Row(d) == old(repo.Row(d))
    {
      hide Automatic, Join, Recent, Streak;
      var reasons: seq<string> := [];
      if x.stopFile.Some? { reasons := reasons + ["manual stop file present: " + x.stopFile.value]; }
      var anchor := repo.Row(day);
      if anchor.Some? && anchor.value.openEquity.Some? {
        var open := anchor.value.openEquity.value;
        if open == 0.0 { return DividedByZero; }
        if (open - x.equity) / open * 100.0 > x.lossPctMax {
          reasons := reasons + ["daily drawdown " + x.fmt(x.equity)];
        }
      }
      assert reasons == StopFileReasons(x) + DrawdownReasons(anchor, x);
      var losses := ConsecutiveLosses(x.pnls, x.maxLosses);
      if losses >= x.maxLosses { reasons := reasons + [x.fmt(losses as real) + " consecutive losing cycles"]; }
      assert reasons == Fresh(anchor, x);
      if |reasons| == 0 && Latched(anchor) { reasons := ["latched for the session: " + anchor.value.reason.value]; }
      if |reasons| > 0 || (anchor.Some? && anchor.value.armed) {
        repo.UpsertRow(day, DailyState(if anchor.Some? then anchor.value.openEquity else None, losses, |reasons| > 0,
                                       if |reasons| > 0 then Some(Join(reasons)) else None));
      }
      v := Verdict(reasons);
    }
  }

  // ---- When a check trips ----

  /** The equity lost since the session opened, as a percentage of the opening equity, is above the limit. */
  predicate LostMore(open: real, equity: real, pct: real) {
    if open > 0.0 then 100.0 * (open - equity) > pct * open else 100.0 * (open - equity) < pct * open
  }

  lemma AcrossDivision(open: real, equity: real, pct: real)
    requires open != 0.0
    ensures (open - equity) / open * 100.0 > pct <==> LostMore(open, equity, pct)
  {
    var share := (open - equity) / open;
    var excess := 100.0 * share - pct;
    assert share * open == open - equity;
    assert excess * open == 100.0 * (share * open) - pct * open;
    SameSign(excess, open);
    assert (open - equity) / open * 100.0 > pct <==> excess > 0.0;
    assert open > 0.0 ==> (excess > 0.0 <==> 100.0 * (open - equity) - pct * open > 0.0);
    assert open < 0.0 ==> (excess > 0.0 <==> 100.0 * (open - equity) - pct * open < 0.0);
  }

  lemma SameSign(x: real, y: real)
    requires y != 0.0
    ensures y > 0.0 ==> (x > 0.0 <==> x * y > 0.0)
    ensures y < 0.0 ==> (x > 0.0 <==> x * y < 0.0)
  {
  }

  ghost predicate Says(reason: string, word: string) {
    exists before: string, after: string :: reason == before + word + after
  }

  /** A check fails to complete exactly if the opening equity is recorded as zero. Otherwise it trips exactly if the
      stop file is there, or the account has lost more than the limit of a recorded opening equity, or the last
      maxLosses closed cycles all lost money, or the row is armed with a drawdown or a losing streak as its
      reason. */
  lemma TripsExactly(row: Option<DailyState>, x: Inputs)
    ensures var v, open := CheckRow(row, x).1, if row.Some? then row.value.openEquity else None;
            && (v.DividedByZero? <==> open == Some(0.0))
            && (v.Verdict? ==>
                  (v.reasons != []
                   <==> x.stopFile.Some?
                        || (open.Some? && LostMore(open.value, x.equity, x.lossPctMax))
                        || (x.maxLosses <= |x.pnls| && forall i :: 0 <= i < x.maxLosses ==> x.pnls[i] < 0.0)
                        || (row.Some? && row.value.armed && row.value.reason.Some?
                            && (Says(row.value.reason.value, "drawdown")
                                || Says(row.value.reason.value, "consecutive")))))
  {
    hide LostMore, Join, Streak, Recent;
    LossRuleExact(x.pnls, x.maxLosses);
    if Anchored(row) && row.value.openEquity.value != 0.0 {
      AcrossDivision(row.value.openEquity.value, x.equity, x.lossPctMax);
    }
    if row.Some? && row.value.reason.Some? {
      SaysContains(row.value.reason.value, "drawdown");
      SaysContains(row.value.reason.value, "consecutive");
    }
  }

  lemma SaysContains(reason: string, word: string)
    ensures Contains(reason, word) <==> Says(reason, word)
  {
    if Contains(reason, word) {
      var i :| 0 <= i <= |reason| && At(reason, word, i);
      assert reason == reason[..i] + word + reason[i + |word|..];
    }
    if Says(reason, word) {
      var before: string, after: string :| reason == before + word + after;
      assert At(reason, word, |before|);
    }
  }

  /** The length of the losing streak the newest cycles end with, read no further back than the limit asks, five at
      least. */
  predicate StreakOf(pnls: seq<real>, maxLosses: int, n: nat) {
    var far := if maxLosses >= 4 then maxLosses + 1 else 5;
    && n <= |pnls| && n <= far && (forall i :: 0 <= i < n ==> pnls[i] < 0.0)
    && (n < |pnls| && n < far ==> pnls[n] >= 0.0)
  }

  lemma StreakIs(pnls: seq<real>, maxLosses: int)
    ensures StreakOf(pnls, maxLosses, Streak(Recent(pnls, maxLosses)))
  {
    var recent := Recent(pnls, maxLosses);
    var n := Streak(recent);
    StreakExact(recent, n);
    StreakExact(recent, n + 1);
    assert forall i :: 0 <= i < |recent| ==> recent[i] == pnls[i];
  }

  /** What a completed check leaves: a row if there was one or it tripped, with the opening equity as it was, armed if
      it was or the check tripped, a stored reason never replaced, and the streak as counted whenever it writes. */
  lemma CheckLeaves(row: Option<DailyState>, x: Inputs)
    requires CheckRow(row, x).1.Verdict?
    ensures var row', tripped := CheckRow(row, x).0, CheckRow(row, x).1.reasons != [];
            && (row'.Some? <==> row.Some? || tripped)
            && (row'.Some? ==>
                  && row'.value.openEquity == (if row.Some? then row.value.openEquity else None)
                  && (row'.value.armed <==> tripped || (row.Some? && row.value.armed))
                  && (row.Some? && row.value.reason.Some? ==> row'.value.reason == row.value.reason)
                  && (row.None? || row.value.reason.None? ==> (row'.value.reason.Some? <==> tripped))
                  && (if tripped || (row.Some? && row.value.armed) then StreakOf(x.pnls, x.maxLosses, row'.value.losses)
                      else row' == row))
  {
    hide Join, Streak, Recent, Automatic, Fresh, Breached, StreakOf;
    StreakIs(x.pnls, x.maxLosses);
  }

  /** Priming records an equity only where none is known, and touches nothing else of a row there is. */
  lemma PrimeLeaves(row: Option<DailyState>, equity: real)
    ensures var row' := PrimeRow(row, equity);
            && (row.Some? && row.value.openEquity.Some? ==> row' == row.value)
            && (row.Some? && row.value.openEquity == None ==> row' == row.value.(openEquity := Some(equity)))
            && (row == None ==> row' == DailyState(Some(equity), 0, false, None))
  {
  }

  // ---- The session latch ----

  /** What happens to a day's row short of the operator's release. */
  datatype Act = Prime(equity: real) | Check(inputs: Inputs)

  function After(row: Option<DailyState>, acts: seq<Act>): Option<DailyState> {
    if |acts| == 0 then row
    else
      var before := After(row, acts[..|acts| - 1]);
      match acts[|acts| - 1]
      case Prime(equity) => Some(PrimeRow(before, equity))
      case Check(x) => CheckRow(before, x).0
  }

  lemma LatchKept(row: Option<DailyState>, act: Act)
    requires Latched(row)
    ensures var row' := After(row, [act]);
            Latched(row') && row'.value.reason == row.value.reason
            && (row.value.openEquity.Some? ==> row'.value.openEquity == row.value.openEquity)
  {
    hide Automatic, Join, Recent, Streak;
    assert [act][..0] == [];
  }

  lemma LatchTrips(row: Option<DailyState>, x: Inputs)
    requires Latched(row)
    ensures CheckRow(row, x).1.Verdict? ==> Tripped(CheckRow(row, x).1)
  {
    hide Automatic, Join, Recent, Streak;
  }

  /** Once the day's stored reason names an automatic cause, then through any sequence of primes and checks the
      reason and a known opening equity stay as they are, and every check that completes trips. */
  lemma {:induction false} SessionLatch(row: Option<DailyState>, acts: seq<Act>, x: Inputs)
    requires Latched(row)
    ensures var row' := After(row, acts);
            && Latched(row') && row'.value.reason == row.value.reason
            && (row.value.openEquity.Some? ==> row'.value.openEquity == row.value.openEquity)
            && (CheckRow(row', x).1.Verdict? ==> Tripped(CheckRow(row', x).1))
    decreases |acts|
  {
    hide Latched, CheckRow, PrimeRow;
    if |acts| > 0 {
      var n := |acts| - 1;
      SessionLatch(row, acts[..n], x);
      var mid := After(row, acts[..n]);
      LatchKept(mid, acts[n]);
      assert [acts[n]][..0] == [];
      assert After(mid, [acts[n]]) == After(row, acts);
    }
    LatchTrips(After(row, acts), x);
  }

  // ---- When an automatic trip latches ----

  /** The reasons of this check include an automatic one. */
  predicate AutomaticTrip(row: Option<DailyState>, x: Inputs) {
    Breached(row, x) || Losing(x)
  }

  lemma DrawdownFound()
    ensures Automatic("daily drawdown ")
  {
    assert At("drawdown", "drawdown", 0);
    ContainsWithin("daily ", "drawdown", " ", "drawdown");
    assert "daily " + "drawdown" + " " == "daily drawdown ";
  }

  lemma ConsecutiveFound()
    ensures Automatic(" consecutive losing cycles")
  {
    assert At("consecutive", "consecutive", 0);
    ContainsWithin(" ", "consecutive", " losing cycles", "consecutive");
    assert " " + "consecutive" + " losing cycles" == " consecutive losing cycles";
  }

  lemma FreshAutomatic(row: Option<DailyState>, x: Inputs) returns (k: nat)
    requires AutomaticTrip(row, x)
    ensures k < |Fresh(row, x)| && Automatic(Fresh(row, x)[k])
  {
    hide Automatic, Breached, Losing;
    DrawdownFound();
    ConsecutiveFound();
    var a := |StopFileReasons(x)|;
    if Breached(row, x) {
      k := a;
      var figure := x.fmt(x.equity);
      AutomaticWithin("", "daily drawdown ", figure);
      assert "" + "daily drawdown " + figure == Fresh(row, x)[k];
    } else {
      k := a;
      var figure := x.fmt(Streak(Recent(x.pnls, x.maxLosses)) as real);
      AutomaticWithin(figure, " consecutive losing cycles", "");
      assert figure + " consecutive losing cycles" + "" == Fresh(row, x)[k];
    }
  }

  /** The documentation has every automatic trip hold for the rest of the day. It does exactly when no reason
      was stored yet, or the stored one is itself automatic: the first reason of the day is the one kept. */
  lemma AutomaticTripLatches(row: Option<DailyState>, x: Inputs)
    requires AutomaticTrip(row, x) && CheckRow(row, x).1.Verdict?
    ensures Tripped(CheckRow(row, x).1)
    ensures Latched(CheckRow(row, x).0) <==> row.None? || row.value.reason.None? || Automatic(row.value.reason.value)
  {
    hide Automatic, Breached, Losing, Join, Recent, Streak, Latched;
    var k := FreshAutomatic(row, x);
    JoinAutomatic(Fresh(row, x), k);
    LatchedMeans(CheckRow(row, x).0);
  }

  lemma LatchedMeans(row: Option<DailyState>)
    ensures Latched(row) <==>
            row.Some? && row.value.armed && row.value.reason.Some?
            && Automatic(row.value.reason.value)
  {
    hide Automatic;
  }

  /** A stop file seen first, then a breach while it is present: once the file is gone and equity recovers, the
      switch lets go. */
  lemma StopFileMasksDrawdown(fmt: real -> string)
    ensures var file := Inputs(Some("stop"), 100.0, [], 5.0, 3, fmt);
            var breach := Inputs(Some("stop"), 90.0, [], 5.0, 3, fmt);
            var calm := Inputs(None, 100.0, [], 5.0, 3, fmt);
            var row := After(None, [Prime(100.0), Check(file)]);
            && AutomaticTrip(row, breach) && Tripped(CheckRow(row, breach).1)
            && CheckRow(CheckRow(row, breach).0, calm).1 == Verdict([])
  {
    hide Automatic;
    var file := Inputs(Some("stop"), 100.0, [], 5.0, 3, fmt);
    var breach := Inputs(Some("stop"), 90.0, [], 5.0, 3, fmt);
    var calm := Inputs(None, 100.0, [], 5.0, 3, fmt);
    var primed := Some(DailyState(Some(100.0), 0, false, None));
    var reason := "manual stop file present: stop";
    assert "manual stop file present: " + "stop" == reason;
    assert [Prime(100.0), Check(file)][..1] == [Prime(100.0)] && [Prime(100.0)][..0] == [];
    assert After(None, [Prime(100.0)]) == primed;
    NotAutomatic(reason);
    assert Fresh(primed, file) == [reason];
    var row := After(None, [Prime(100.0), Check(file)]);
    assert row == Some(DailyState(Some(100.0), 0, true, Some(reason)));
    var later := CheckRow(row, breach).0;
    assert later.value.reason == Some(reason) && later.value.openEquity == Some(100.0);
    assert Fresh(later, calm) == [];
  }

  lemma FirstChar(text: string, word: string, i: int)
    requires At(text, word, i) && |word| > 0
    ensures i < |text| && text[i] == word[0]
  {
    assert text[i..i + |word|][0] == text[i];
  }

  lemma NotAutomatic(reason: string)
    requires reason == "manual stop file present: stop"
    ensures !Automatic(reason)
  {
    assert forall j :: 0 <= j < |reason| ==> reason[j] != 'd' && reason[j] != 'c';
    forall i ensures !At(reason, "drawdown", i) && !At(reason, "consecutive", i) {
      if At(reason, "drawdown", i) { FirstChar(reason, "drawdown", i); }
      if At(reason, "consecutive", i) { FirstChar(reason, "consecutive", i); }
    }
  }
}
