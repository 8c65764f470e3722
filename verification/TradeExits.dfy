/** Where a walked trade ends and at what price, read off the bars: the levels a trade carries and the exit each
    later bar gives it (backtest/engine.py:213-282). */
module TradeExits {
  import opened Models
  import opened TradeWalk

  // ---- Levels ----

  /** A bar that is traded: it signals, and its date has an ATR that is positive or not a number. */
  predicate Enters(d: Daily, e: Bar) {
    var date := e.ts / 86400;
    e.signal != 0 && date in d.atr && (d.atr[date].None? || d.atr[date].value > 0.0)
  }

  /** The stop of a long entry is the prior day's low if that is configured and lies below the close, and else the
      ATR multiple below it; of a short entry, the prior day's high above the close, and else the multiple above. */
  predicate StopAt(cfg: EngineConfig, d: Daily, e: Bar, stop: real) {
    var date := e.ts / 86400;
    if e.signal > 0 then
      if cfg.priorDayLevel && date in d.low && d.low[date] < e.close then stop == d.low[date]
      else date in d.atr && d.atr[date].Some? && stop == e.close - cfg.stopAtr * d.atr[date].value
    else
      if cfg.priorDayLevel && date in d.high && d.high[date] > e.close then stop == d.high[date]
      else date in d.atr && d.atr[date].Some? && stop == e.close + cfg.stopAtr * d.atr[date].value
  }

  /** The target lies across the close from the stop, at the reward multiple of its distance. */
  ghost predicate TargetAt(cfg: EngineConfig, d: Daily, e: Bar, target: real) {
    exists stop :: StopAt(cfg, d, e, stop) && target == e.close + cfg.rewardRisk * (e.close - stop)
  }

  // ---- What a later bar does to a trade ----

  /** Held for the minimum, and the bar trades down to a long's stop or up to a short's. */
  ghost predicate TouchesStop(cfg: EngineConfig, d: Daily, e: Bar, b: Bar) {
    (b.ts - e.ts) as real >= 86400.0 * cfg.minHoldDays
    && exists stop :: StopAt(cfg, d, e, stop) && if e.signal > 0 then b.low <= stop else b.high >= stop
  }

  ghost predicate TouchesTarget(cfg: EngineConfig, d: Daily, e: Bar, b: Bar) {
    exists target :: TargetAt(cfg, d, e, target) && if e.signal > 0 then b.high >= target else b.low <= target
  }

  predicate CrossesBack(cfg: EngineConfig, e: Bar, b: Bar) {
    cfg.oppositeCrossExit && b.cross + e.signal == 0
  }

  predicate Flips(cfg: EngineConfig, e: Bar, b: Bar) {
    cfg.exitOnDailyFlip && b.dir1D + e.signal == 0
  }

  predicate RunsOut(cfg: EngineConfig, e: Bar, b: Bar) {
    b.ts - e.ts >= 86400 * cfg.maxHoldDays
  }

  /** Nothing about this bar ends the trade. */
  ghost predicate Holds(cfg: EngineConfig, d: Daily, e: Bar, b: Bar) {
    !TouchesStop(cfg, d, e, b) && !TouchesTarget(cfg, d, e, b) && !CrossesBack(cfg, e, b) && !Flips(cfg, e, b)
    && !RunsOut(cfg, e, b)
  }

  /** The trade entered at bar e and ended by bar b: stop before target before opposite cross before daily flip before
      clock, the first two at their level and the others at the close. */
  ghost predicate EndsAt(cfg: EngineConfig, d: Daily, e: Bar, b: Bar, t: SpyTrade) {
    if TouchesStop(cfg, d, e, b) then t.reason.StopExit? && StopAt(cfg, d, e, t.exitSpot)
    else if TouchesTarget(cfg, d, e, b) then t.reason.TargetExit? && TargetAt(cfg, d, e, t.exitSpot)
    else
      t.exitSpot == b.close
      && if CrossesBack(cfg, e, b) then t.reason.OppositeCross?
         else if Flips(cfg, e, b) then t.reason.DailyFlip?
         else t.reason.TimeStop? && RunsOut(cfg, e, b)
  }

  /** Entered at the close of bar i, held through every bar up to the k-th, and ended there; or by the last bar's
      close, if nothing in the data ends it. */
  ghost predicate Lasts(cfg: EngineConfig, d: Daily, bars: seq<Bar>, t: SpyTrade, i: nat, k: nat)
    requires i < k <= |bars|
  {
    var e, last := bars[i], bars[if k < |bars| then k else |bars| - 1];
    && Enters(d, e) && t.direction == e.signal && t.entryTs == e.ts && t.entrySpot == e.close
    && t.exitTs == last.ts && t.holdDays * 86400.0 == (last.ts - e.ts) as real
    && (forall m :: i < m < k ==> Holds(cfg, d, e, bars[m]))
    && if k < |bars| then !Holds(cfg, d, e, bars[k]) && EndsAt(cfg, d, e, bars[k], t)
       else t.reason.EodData? && t.exitSpot == last.close
  }

  /** The trades from bar i on: the next bar that enters is traded, and the bar after its exit is looked at next. */
  ghost predicate Traded(cfg: EngineConfig, d: Daily, bars: seq<Bar>, i: nat, trades: seq<SpyTrade>)
    decreases |trades|
  {
    if |trades| == 0 then forall m :: i <= m < |bars| ==> !Enters(d, bars[m])
    else
      exists j: nat, k: nat ::
        && i <= j < k <= |bars| && (forall m :: i <= m < j ==> !Enters(d, bars[m]))
        && Lasts(cfg, d, bars, trades[0], j, k) && Traded(cfg, d, bars, k + 1, trades[1..])
  }

  // ---- The walk does this ----

  lemma EntersExactly(d: Daily, e: Bar)
    ensures Admissible(d, e) <==> Enters(d, e)
  {
  }

  /** The stop is the stop distance away from the close. */
  lemma StopIs(cfg: EngineConfig, d: Daily, e: Bar, stop: real)
    requires Admissible(d, e)
    ensures var dist := StopDistance(cfg, d, e);
            StopAt(cfg, d, e, stop)
            <==> dist.Some? && stop == if e.signal > 0 then e.close - dist.value else e.close + dist.value
  {
    var date := DateOf(e.ts);
    if d.atr[date].Some? {
      var away := cfg.stopAtr * d.atr[date].value;
      assert StopDistance(cfg, d, e).Some?;
    }
  }

  /** The plan's levels are these two. */
  lemma PlanStop(cfg: EngineConfig, d: Daily, e: Bar)
    requires Admissible(d, e)
    ensures var p := PlanOf(cfg, d, e);
            && p.sig == e.signal && p.entry == e
            && (forall stop :: StopAt(cfg, d, e, stop) <==> p.stopPx == Some(stop))
  {
    forall stop ensures StopAt(cfg, d, e, stop) <==> PlanOf(cfg, d, e).stopPx == Some(stop) {
      PlanStopAt(cfg, d, e, stop);
    }
  }

  lemma PlanStopAt(cfg: EngineConfig, d: Daily, e: Bar, stop: real)
    requires Admissible(d, e)
    ensures StopAt(cfg, d, e, stop) <==> PlanOf(cfg, d, e).stopPx == Some(stop)
  {
    hide StopAt, StopDistance, Admissible;
    StopIs(cfg, d, e, stop);
  }

  lemma PlanTarget(cfg: EngineConfig, d: Daily, e: Bar)
    requires Admissible(d, e)
    ensures var p := PlanOf(cfg, d, e);
            && p.targetPx.Some? == p.stopPx.Some?
            && (p.stopPx.Some? ==> p.targetPx.value == e.close + cfg.rewardRisk * (e.close - p.stopPx.value))
  {
    hide StopAt, StopDistance, Admissible;
    var dist := StopDistance(cfg, d, e);
    if dist.Some? {
      assert cfg.rewardRisk * (0.0 - dist.value) == -(cfg.rewardRisk * dist.value);
      var p := PlanOf(cfg, d, e);
      assert e.close - p.stopPx.value == if e.signal > 0 then dist.value else 0.0 - dist.value;
    }
  }

  lemma PlanLevels(cfg: EngineConfig, d: Daily, e: Bar)
    requires Admissible(d, e)
    ensures var p := PlanOf(cfg, d, e);
            && p.sig == e.signal && p.entry == e
            && (forall stop :: StopAt(cfg, d, e, stop) <==> p.stopPx == Some(stop))
            && (forall target :: TargetAt(cfg, d, e, target) <==> p.targetPx == Some(target))
  {
    hide StopAt, PlanOf, Admissible;
    PlanStop(cfg, d, e);
    PlanTarget(cfg, d, e);
    var p := PlanOf(cfg, d, e);
    if p.stopPx.Some? { assert StopAt(cfg, d, e, p.stopPx.value); }
  }

  lemma ExitMeans(cfg: EngineConfig, d: Daily, e: Bar, b: Bar)
    requires Admissible(d, e)
    ensures var p := PlanOf(cfg, d, e);
            && (Stopped(cfg, p, b) <==> TouchesStop(cfg, d, e, b))
            && (Reached(p, b) <==> TouchesTarget(cfg, d, e, b))
            && (HeldDays(e, b) >= cfg.maxHoldDays as real <==> RunsOut(cfg, e, b))
  {
    hide StopAt, TargetAt, PlanOf, Admissible;
    PlanLevels(cfg, d, e);
  }

  lemma HoldsExactly(cfg: EngineConfig, d: Daily, e: Bar, b: Bar)
    requires Admissible(d, e)
    ensures ExitOf(cfg, PlanOf(cfg, d, e), b).None? <==> Holds(cfg, d, e, b)
  {
    hide StopAt, TargetAt, PlanOf, Admissible, TouchesStop, TouchesTarget, Stopped, Reached, HeldDays, RunsOut;
    ExitMeans(cfg, d, e, b);
    PlanLevels(cfg, d, e);
  }

  lemma EndsHow(cfg: EngineConfig, d: Daily, bars: seq<Bar>, i: nat, k: nat)
    requires i < k < |bars| && Admissible(d, bars[i])
    requires ExitOf(cfg, PlanOf(cfg, d, bars[i]), bars[k]).Some?
    ensures EndsAt(cfg, d, bars[i], bars[k], TradeOf(cfg, PlanOf(cfg, d, bars[i]), bars, k))
  {
    hide StopAt, TargetAt, PlanOf, Admissible, TouchesStop, TouchesTarget, Stopped, Reached, HeldDays, RunsOut;
    ExitMeans(cfg, d, bars[i], bars[k]);
    PlanLevels(cfg, d, bars[i]);
    var p := PlanOf(cfg, d, bars[i]);
    if Stopped(cfg, p, bars[k]) { HasStop(cfg, p, bars[k]); }
    if Reached(p, bars[k]) { HasTarget(p, bars[k]); }
  }

  lemma HasStop(cfg: EngineConfig, p: Plan, b: Bar)
    requires Stopped(cfg, p, b)
    ensures p.stopPx == Some(p.stopPx.value)
  {
  }

  lemma HasTarget(p: Plan, b: Bar)
    requires Reached(p, b)
    ensures p.targetPx == Some(p.targetPx.value)
  {
  }

  lemma LastsUntil(cfg: EngineConfig, d: Daily, bars: seq<Bar>, i: nat)
    requires i < |bars| && Admissible(d, bars[i])
    ensures var p := PlanOf(cfg, d, bars[i]);
            var k := FirstExit(cfg, p, bars, i + 1);
            Lasts(cfg, d, bars, TradeOf(cfg, p, bars, k), i, k)
  {
    hide StopAt, TargetAt, PlanOf, Admissible, Holds, ExitOf, EndsAt, Enters;
    var p := PlanOf(cfg, d, bars[i]);
    var k := FirstExit(cfg, p, bars, i + 1);
    PlanLevels(cfg, d, bars[i]);
    EntersExactly(d, bars[i]);
    forall m | i < m <= k && m < |bars|
      ensures ExitOf(cfg, p, bars[m]).None? <==> Holds(cfg, d, bars[i], bars[m])
    {
      HoldsExactly(cfg, d, bars[i], bars[m]);
    }
    if k < |bars| { EndsHow(cfg, d, bars, i, k); }
  }

  /** Skipping a bar that does not enter. */
  lemma TradedLater(cfg: EngineConfig, d: Daily, bars: seq<Bar>, i: nat, trades: seq<SpyTrade>)
    requires i < |bars| && !Enters(d, bars[i]) && Traded(cfg, d, bars, i + 1, trades)
    ensures Traded(cfg, d, bars, i, trades)
  {
    hide Enters, Lasts;
    if |trades| > 0 {
      var j: nat, k: nat :| i + 1 <= j < k <= |bars| && (forall m :: i + 1 <= m < j ==> !Enters(d, bars[m]))
        && Lasts(cfg, d, bars, trades[0], j, k) && Traded(cfg, d, bars, k + 1, trades[1..]);
      assert forall m :: i <= m < j ==> !Enters(d, bars[m]);
    }
  }

  lemma TradedFirst(cfg: EngineConfig, d: Daily, bars: seq<Bar>, i: nat, k: nat, t: SpyTrade, rest: seq<SpyTrade>)
    requires i < k <= |bars| && Lasts(cfg, d, bars, t, i, k) && Traded(cfg, d, bars, k + 1, rest)
    ensures Traded(cfg, d, bars, i, [t] + rest)
  {
    hide Enters, Lasts;
    assert ([t] + rest)[0] == t && ([t] + rest)[1..] == rest;
  }

  /** Every walk, over any bars and any daily frame: each trade is entered on the first bar after the last exit that
      enters, carries the stop and target of that bar, and ends as EndsAt says on the first bar that does not let
      it hold. */
  lemma {:induction false} WalkTrades(cfg: EngineConfig, d: Daily, bars: seq<Bar>, i: nat)
    ensures Traded(cfg, d, bars, i, Walk(cfg, d, bars, i))
    decreases |bars| - i
  {
    hide Admissible, PlanOf, ExitOf, TradeOf, Enters, Lasts, Traded;
    if i >= |bars| {
      assert Traded(cfg, d, bars, i, []) by { NothingTraded(cfg, d, bars, i); }
    } else {
      EntersExactly(d, bars[i]);
      if !Admissible(d, bars[i]) {
        WalkTrades(cfg, d, bars, i + 1);
        TradedLater(cfg, d, bars, i, Walk(cfg, d, bars, i + 1));
      } else {
        var p := PlanOf(cfg, d, bars[i]);
        var k := FirstExit(cfg, p, bars, i + 1);
        WalkTrades(cfg, d, bars, k + 1);
        LastsUntil(cfg, d, bars, i);
        TradedFirst(cfg, d, bars, i, k, TradeOf(cfg, p, bars, k), Walk(cfg, d, bars, k + 1));
      }
    }
  }

  lemma NothingTraded(cfg: EngineConfig, d: Daily, bars: seq<Bar>, i: nat)
    requires i >= |bars|
    ensures Traded(cfg, d, bars, i, [])
  {
  }

  // ---- Nothing else does ----

  lemma OneTarget(cfg: EngineConfig, d: Daily, e: Bar, target: real, other: real)
    requires TargetAt(cfg, d, e, target) && TargetAt(cfg, d, e, other)
    ensures target == other
  {
    hide StopAt, TargetAt;
    var stop := StopFor(cfg, d, e, target);
    var stop2 := StopFor(cfg, d, e, other);
    OneStop(cfg, d, e, stop, stop2);
  }

  lemma OneTrade(cfg: EngineConfig, d: Daily, bars: seq<Bar>, t: SpyTrade, u: SpyTrade, i: nat, k: nat, m: nat)
    requires i < k <= |bars| && i < m <= |bars|
    requires Lasts(cfg, d, bars, t, i, k) && Lasts(cfg, d, bars, u, i, m)
    ensures k == m && t == u
  {
    hide StopAt, TargetAt, TouchesStop, TouchesTarget, CrossesBack, Flips, RunsOut, Holds, Enters;
    if t.reason.StopExit? && u.reason.StopExit? {
      OneStop(cfg, d, bars[i], t.exitSpot, u.exitSpot);
    } else if t.reason.TargetExit? && u.reason.TargetExit? {
      OneTarget(cfg, d, bars[i], t.exitSpot, u.exitSpot);
    }
  }

  /** The bars, the frame and the settings leave one list of trades only, so the walk is exactly what Traded says. */
  lemma {:induction false} TradedUnique(cfg: EngineConfig, d: Daily, bars: seq<Bar>, i: nat, ts: seq<SpyTrade>,
                                        us: seq<SpyTrade>)
    requires Traded(cfg, d, bars, i, ts) && Traded(cfg, d, bars, i, us)
    ensures ts == us
    decreases |ts|
  {
    hide Lasts, Enters;
    if |ts| > 0 && |us| > 0 {
      var j: nat, k: nat :| i <= j < k <= |bars| && (forall m :: i <= m < j ==> !Enters(d, bars[m]))
        && Lasts(cfg, d, bars, ts[0], j, k) && Traded(cfg, d, bars, k + 1, ts[1..]);
      var n: nat, m: nat :| i <= n < m <= |bars| && (forall x :: i <= x < n ==> !Enters(d, bars[x]))
        && Lasts(cfg, d, bars, us[0], n, m) && Traded(cfg, d, bars, m + 1, us[1..]);
      LastsEnters(cfg, d, bars, ts[0], j, k);
      LastsEnters(cfg, d, bars, us[0], n, m);
      assert n == j;
      OneTrade(cfg, d, bars, ts[0], us[0], j, k, m);
      TradedUnique(cfg, d, bars, k + 1, ts[1..], us[1..]);
      assert ts == [ts[0]] + ts[1..] && us == [us[0]] + us[1..];
    } else if |ts| > 0 {
      NoneTraded(cfg, d, bars, i, ts);
    } else if |us| > 0 {
      NoneTraded(cfg, d, bars, i, us);
    }
  }

  lemma LastsEnters(cfg: EngineConfig, d: Daily, bars: seq<Bar>, t: SpyTrade, i: nat, k: nat)
    requires i < k <= |bars| && Lasts(cfg, d, bars, t, i, k)
    ensures Enters(d, bars[i])
  {
  }

  lemma NoneTraded(cfg: EngineConfig, d: Daily, bars: seq<Bar>, i: nat, ts: seq<SpyTrade>)
    requires Traded(cfg, d, bars, i, ts) && forall m :: i <= m < |bars| ==> !Enters(d, bars[m])
    ensures ts == []
  {
    hide Lasts, Enters;
    if |ts| > 0 {
      var j: nat, k: nat :| i <= j < k <= |bars| && (forall m :: i <= m < j ==> !Enters(d, bars[m]))
        && Lasts(cfg, d, bars, ts[0], j, k) && Traded(cfg, d, bars, k + 1, ts[1..]);
      LastsEnters(cfg, d, bars, ts[0], j, k);
    }
  }

  // ---- Which side the levels lie on ----

  /** With a positive stop multiple the stop lies strictly on the losing side of the entry, and with a positive reward
      multiple the target strictly on the winning side, at that multiple of the distance. */
  lemma LevelSides(cfg: EngineConfig, d: Daily, e: Bar, stop: real, target: real)
    requires Enters(d, e) && cfg.stopAtr > 0.0 && StopAt(cfg, d, e, stop) && TargetAt(cfg, d, e, target)
    ensures if e.signal > 0 then stop < e.close else stop > e.close
    ensures target - e.close == cfg.rewardRisk * (e.close - stop)
    ensures cfg.rewardRisk > 0.0 ==> if e.signal > 0 then target > e.close else target < e.close
  {
    hide TargetAt;
    StopSide(cfg, d, e, stop);
    var other := StopFor(cfg, d, e, target);
    OneStop(cfg, d, e, stop, other);
    if cfg.rewardRisk > 0.0 { TargetSide(cfg.rewardRisk, e.close, stop, target); }
  }

  lemma TargetSide(reward: real, close: real, stop: real, target: real)
    requires reward > 0.0 && target - close == reward * (close - stop)
    ensures stop < close ==> target > close
    ensures stop > close ==> target < close
  {
    if stop < close {
      Positive(reward, close - stop);
    } else if stop > close {
      Positive(reward, stop - close);
      assert reward * (close - stop) == -(reward * (stop - close));
    }
  }

  lemma StopSide(cfg: EngineConfig, d: Daily, e: Bar, stop: real)
    requires Enters(d, e) && cfg.stopAtr > 0.0 && StopAt(cfg, d, e, stop)
    ensures if e.signal > 0 then stop < e.close else stop > e.close
  {
    var date := e.ts / 86400;
    if d.atr[date].Some? { Positive(cfg.stopAtr, d.atr[date].value); }
  }

  /** A bar has at most one stop. */
  lemma OneStop(cfg: EngineConfig, d: Daily, e: Bar, stop: real, other: real)
    requires StopAt(cfg, d, e, stop) && StopAt(cfg, d, e, other)
    ensures stop == other
  {
  }

  lemma Positive(x: real, y: real)
    requires x > 0.0 && y > 0.0
    ensures x * y > 0.0
  {
  }

  /** What the trade makes per share. */
  function Gain(t: SpyTrade): real {
    if t.direction > 0 then t.exitSpot - t.entrySpot else t.entrySpot - t.exitSpot
  }

  /** Over a whole walk with positive multiples: every stop is a loss, every target a gain, and it is never the other
      way round. */
  lemma {:induction false} StopsLoseTargetsWin(cfg: EngineConfig, d: Daily, bars: seq<Bar>, i: nat)
    requires cfg.stopAtr > 0.0 && cfg.rewardRisk > 0.0
    ensures forall t :: t in Walk(cfg, d, bars, i) ==>
              (t.reason.StopExit? ==> Gain(t) < 0.0) && (t.reason.TargetExit? ==> Gain(t) > 0.0)
    decreases |bars| - i
  {
    hide Admissible, PlanOf, ExitOf, TradeOf, Lasts, Gain;
    if i < |bars| {
      if !Admissible(d, bars[i]) {
        StopsLoseTargetsWin(cfg, d, bars, i + 1);
      } else {
        var p := PlanOf(cfg, d, bars[i]);
        var k := FirstExit(cfg, p, bars, i + 1);
        StopsLoseTargetsWin(cfg, d, bars, k + 1);
        LastsUntil(cfg, d, bars, i);
        GainOf(cfg, d, bars, TradeOf(cfg, p, bars, k), i, k);
      }
    }
  }

  lemma GainOf(cfg: EngineConfig, d: Daily, bars: seq<Bar>, t: SpyTrade, i: nat, k: nat)
    requires cfg.stopAtr > 0.0 && cfg.rewardRisk > 0.0 && i < k <= |bars| && Lasts(cfg, d, bars, t, i, k)
    ensures t.reason.StopExit? ==> Gain(t) < 0.0
    ensures t.reason.TargetExit? ==> Gain(t) > 0.0
  {
    hide StopAt, TargetAt, Enters, Holds;
    var e := bars[i];
    if t.reason.StopExit? {
      StopSide(cfg, d, e, t.exitSpot);
    } else if t.reason.TargetExit? {
      var stop := StopFor(cfg, d, e, t.exitSpot);
      LevelSides(cfg, d, e, stop, t.exitSpot);
    }
  }

  lemma StopFor(cfg: EngineConfig, d: Daily, e: Bar, target: real) returns (stop: real)
    requires TargetAt(cfg, d, e, target)
    ensures StopAt(cfg, d, e, stop) && target == e.close + cfg.rewardRisk * (e.close - stop)
  {
    stop :| StopAt(cfg, d, e, stop) && target == e.close + cfg.rewardRisk * (e.close - stop);
  }
}
