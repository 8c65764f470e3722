/** The market-replay trade walk (backtest/engine.py:108-122, 196-282): one position at a time over a bar
    series, with prior-day look-ups from a daily frame. */
module TradeWalk {
  import opened Models

  const DAY := 86400

  /** One intraday bar; `ts` is in seconds. */
  datatype Bar = Bar(ts: int, close: real, high: real, low: real, signal: int, cross: int, dir1D: int)

  datatype EngineConfig = EngineConfig(stopAtr: real, priorDayLevel: bool, rewardRisk: real, maxHoldDays: int,
                                       minHoldDays: real, oppositeCrossExit: bool, exitOnDailyFlip: bool)

  /** What the daily frame says of each date: the prior-day ATR (None where the frame has the date but the
      average is not a number), and the prior-day low and high where they are numbers. */
  datatype Daily = Daily(atr: map<int, Option<real>>, low: map<int, real>, high: map<int, real>)

  datatype ExitReason = StopExit | TargetExit | OppositeCross | DailyFlip | TimeStop | EodData

  datatype SpyTrade = SpyTrade(direction: int, entryTs: int, entrySpot: real, exitTs: int, exitSpot: real,
                               reason: ExitReason, holdDays: real)

  /** A level that is not a number is never reached. */
  datatype Plan = Plan(sig: int, entry: Bar, stopPx: Option<real>, targetPx: Option<real>)

  datatype Exit = Exit(spot: real, reason: ExitReason)

  function DateOf(ts: int): int {
    ts / DAY
  }

  function HeldDays(entry: Bar, b: Bar): real {
    (b.ts - entry.ts) as real / DAY as real
  }

  // ---- One entry, one exit ----

  /** A signal is admissible when its date has a prior-day ATR that is not zero or less; one that is not a
      number passes. */
  predicate Admissible(d: Daily, b: Bar) {
    b.signal != 0 && DateOf(b.ts) in d.atr && (d.atr[DateOf(b.ts)].Some? ==> d.atr[DateOf(b.ts)].value > 0.0)
  }

  /** Not a number when it would be a multiple of such an ATR. */
  function StopDistance(cfg: EngineConfig, d: Daily, b: Bar): Option<real>
    requires Admissible(d, b)
  {
    var date := DateOf(b.ts);
    var levels := if b.signal > 0 then d.low else d.high;
    var level := if date in levels then (if b.signal > 0 then b.close - levels[date] else levels[date] - b.close)
        else 0.0;
    if cfg.priorDayLevel && level > 0.0 then Some(level)
    else if d.atr[date].Some? then Some(cfg.stopAtr * d.atr[date].value)
    else None
  }

  function PlanOf(cfg: EngineConfig, d: Daily, b: Bar): Plan
    requires Admissible(d, b)
  {
    var dist := StopDistance(cfg, d, b);
    if dist.None? then Plan(b.signal, b, None, None)
    else if b.signal > 0 then Plan(b.signal, b, Some(b.close - dist.value), Some(b.close + cfg.rewardRisk * dist.value))
    else Plan(b.signal, b, Some(b.close + dist.value), Some(b.close - cfg.rewardRisk * dist.value))
  }

  predicate Stopped(cfg: EngineConfig, p: Plan, b: Bar) {
    HeldDays(p.entry, b) >= cfg.minHoldDays && p.stopPx.Some?
    && if p.sig > 0 then b.low <= p.stopPx.value else b.high >= p.stopPx.value
  }

  predicate Reached(p: Plan, b: Bar) {
    p.targetPx.Some? && if p.sig > 0 then b.high >= p.targetPx.value else b.low <= p.targetPx.value
  }

  /** The stop is looked at first, then the target, then the signals, then the clock. */
  function ExitOf(cfg: EngineConfig, p: Plan, b: Bar): Option<Exit> {
    if Stopped(cfg, p, b) then Some(Exit(p.stopPx.value, StopExit))
    else if Reached(p, b) then Some(Exit(p.targetPx.value, TargetExit))
    else if cfg.oppositeCrossExit && b.cross == -p.sig then Some(Exit(b.close, OppositeCross))
    else if cfg.exitOnDailyFlip && b.dir1D == -p.sig then Some(Exit(b.close, DailyFlip))
    else if HeldDays(p.entry, b) >= cfg.maxHoldDays as real then Some(Exit(b.close, TimeStop))
    else None
  }

  /** The first bar from j on that closes the plan; |bars| if none does. */
  function FirstExit(cfg: EngineConfig, p: Plan, bars: seq<Bar>, j: nat): (k: nat)
    requires j <= |bars|
    ensures j <= k <= |bars|
    ensures k < |bars| ==> ExitOf(cfg, p, bars[k]).Some?
    ensures forall m :: j <= m < k ==> ExitOf(cfg, p, bars[m]).None?
    decreases |bars| - j
  {
    if j == |bars| || ExitOf(cfg, p, bars[j]).Some? then j else FirstExit(cfg, p, bars, j + 1)
  }

  function TradeOf(cfg: EngineConfig, p: Plan, bars: seq<Bar>, k: nat): SpyTrade
    requires 0 < |bars| && k <= |bars|
    requires k < |bars| ==> ExitOf(cfg, p, bars[k]).Some?
  {
    var last := bars[if k < |bars| then k else |bars| - 1];
    var exit := if k < |bars| then ExitOf(cfg, p, last).value else Exit(last.close, EodData);
    SpyTrade(p.sig, p.entry.ts, p.entry.close, last.ts, exit.spot, exit.reason, HeldDays(p.entry, last))
  }

  // ---- The walk ----

  function Walk(cfg: EngineConfig, d: Daily, bars: seq<Bar>, i: nat): seq<SpyTrade>
    decreases |bars| - i
  {
    if i >= |bars| then []
    else if !Admissible(d, bars[i]) then Walk(cfg, d, bars, i + 1)
    else
      var p := PlanOf(cfg, d, bars[i]);
      var k := FirstExit(cfg, p, bars, i + 1);
      [TradeOf(cfg, p, bars, k)] + Walk(cfg, d, bars, k + 1)
  }

  /** simulate_spy_trades */
  method SimulateSpyTrades(cfg: EngineConfig, d: Daily, bars: seq<Bar>) returns (trades: seq<SpyTrade>)
    ensures trades == Walk(cfg, d, bars, 0)
  {
    hide ExitOf, PlanOf, Admissible, TradeOf;
    trades := [];
    var i := 0;
    while i < |bars|
      invariant trades + Walk(cfg, d, bars, i) == Walk(cfg, d, bars, 0)
      decreases |bars| - i
    {
      if !Admissible(d, bars[i]) {
        i := i + 1;
        continue;
      }
      var p := PlanOf(cfg, d, bars[i]);
      var j := i + 1;
      while j < |bars| && ExitOf(cfg, p, bars[j]).None?
        invariant i < j <= |bars| && FirstExit(cfg, p, bars, j) == FirstExit(cfg, p, bars, i + 1)
        decreases |bars| - j
      {
        j := j + 1;
      }
      var trade := TradeOf(cfg, p, bars, j);
      assert (trades + [trade]) + Walk(cfg, d, bars, j + 1) == trades + ([trade] + Walk(cfg, d, bars, j + 1));
      trades := trades + [trade];
      i := j + 1;
    }
    assert trades + [] == trades;
  }

  // ---- One position at a time ----

  predicate Chronological(bars: seq<Bar>) {
    forall i, j :: 0 <= i < j < |bars| ==> bars[i].ts < bars[j].ts
  }

  predicate Sequential(trades: seq<SpyTrade>, from: int) {
    && (forall m :: 0 <= m < |trades| ==> from <= trades[m].entryTs <= trades[m].exitTs)
    && (forall m, n :: 0 <= m < n < |trades| ==> trades[m].exitTs < trades[n].entryTs)
  }

  /** Some trade is held, or entered, at this moment. */
  predicate Covered(trades: seq<SpyTrade>, ts: int) {
    exists m :: 0 <= m < |trades| && trades[m].entryTs <= ts <= trades[m].exitTs
  }

  /** Entered on an admissible signal of that bar, at its close. */
  predicate EnteredOn(d: Daily, bars: seq<Bar>, t: SpyTrade) {
    exists i :: 0 <= i < |bars| && Admissible(d, bars[i]) && bars[i].ts == t.entryTs
                && bars[i].close == t.entrySpot && bars[i].signal == t.direction
  }

  lemma {:induction false} WalkSound(cfg: EngineConfig, d: Daily, bars: seq<Bar>, i: nat)
    requires Chronological(bars)
    ensures var trades := Walk(cfg, d, bars, i);
            && (if i < |bars| then Sequential(trades, bars[i].ts) else trades == [])
            && (forall m :: 0 <= m < |trades| ==> EnteredOn(d, bars, trades[m]))
            && (forall j :: i <= j < |bars| && Admissible(d, bars[j]) ==> Covered(trades, bars[j].ts))
    decreases |bars| - i
  {
    hide Admissible, PlanOf, ExitOf, EnteredOn, TradeOf, Covered, Sequential, Stopped, Reached;
    if i < |bars| {
      if !Admissible(d, bars[i]) {
        WalkSound(cfg, d, bars, i + 1);
        StillSequential(Walk(cfg, d, bars, i + 1), bars, i);
      } else {
        var p := PlanOf(cfg, d, bars[i]);
        var k := FirstExit(cfg, p, bars, i + 1);
        WalkSound(cfg, d, bars, k + 1);
        EntryFacts(cfg, d, bars, i, k);
        CoversHeld(TradeOf(cfg, p, bars, k), Walk(cfg, d, bars, k + 1), bars, i, k);
        CoversRest(TradeOf(cfg, p, bars, k), Walk(cfg, d, bars, k + 1));
        ThenSequential(TradeOf(cfg, p, bars, k), Walk(cfg, d, bars, k + 1), bars, i, k);
      }
    }
  }

  lemma StillSequential(trades: seq<SpyTrade>, bars: seq<Bar>, i: nat)
    requires Chronological(bars) && i < |bars|
    requires if i + 1 < |bars| then Sequential(trades, bars[i + 1].ts) else trades == []
    ensures Sequential(trades, bars[i].ts)
  {
  }

  lemma ThenSequential(t: SpyTrade, rest: seq<SpyTrade>, bars: seq<Bar>, i: nat, k: nat)
    requires Chronological(bars) && i < |bars| && i < k <= |bars|
    requires t.entryTs == bars[i].ts && t.exitTs == bars[if k < |bars| then k else |bars| - 1].ts
    requires if k + 1 < |bars| then Sequential(rest, bars[k + 1].ts) else rest == []
    ensures Sequential([t] + rest, bars[i].ts)
  {
  }

  lemma EntryFacts(cfg: EngineConfig, d: Daily, bars: seq<Bar>, i: nat, k: nat)
    requires i < |bars| && Admissible(d, bars[i]) && k == FirstExit(cfg, PlanOf(cfg, d, bars[i]), bars, i + 1)
    ensures var t := TradeOf(cfg, PlanOf(cfg, d, bars[i]), bars, k);
            && EnteredOn(d, bars, t) && t.entryTs == bars[i].ts
            && t.exitTs == bars[if k < |bars| then k else |bars| - 1].ts
  {
  }

  lemma CoversHeld(t: SpyTrade, rest: seq<SpyTrade>, bars: seq<Bar>, i: nat, k: nat)
    requires Chronological(bars) && i < |bars| && i < k <= |bars|
    requires t.entryTs == bars[i].ts && t.exitTs == bars[if k < |bars| then k else |bars| - 1].ts
    ensures forall j :: i <= j <= k && j < |bars| ==> Covered([t] + rest, bars[j].ts)
  {
    forall j | i <= j <= k && j < |bars| ensures Covered([t] + rest, bars[j].ts) {
      assert ([t] + rest)[0] == t;
    }
  }

  lemma CoversRest(t: SpyTrade, rest: seq<SpyTrade>)
    ensures forall ts :: Covered(rest, ts) ==> Covered([t] + rest, ts)
  {
    forall ts | Covered(rest, ts) ensures Covered([t] + rest, ts) {
      var m :| 0 <= m < |rest| && rest[m].entryTs <= ts <= rest[m].exitTs;
      assert ([t] + rest)[m + 1] == rest[m];
    }
  }

  /** Trades never overlap, each is entered on an admissible signal, and every admissible signal is either an
      entry or falls while a trade is held: each trade starts at the first admissible signal after the last. */
  lemma OneAtATime(cfg: EngineConfig, d: Daily, bars: seq<Bar>)
    requires Chronological(bars)
    ensures var trades := Walk(cfg, d, bars, 0);
            && (forall m :: 0 <= m < |trades| ==>
                trades[m].entryTs <= trades[m].exitTs
                && EnteredOn(d, bars, trades[m]))
            && (forall m, n :: 0 <= m < n < |trades| ==> trades[m].exitTs < trades[n].entryTs)
            && (forall j :: 0 <= j < |bars| && Admissible(d, bars[j]) ==> Covered(trades, bars[j].ts))
  {
    hide Admissible, EnteredOn, Covered, Walk;
    WalkSound(cfg, d, bars, 0);
  }

  // ---- No lookahead ----

  /** The trades closed by `ts` for a reason other than the data running out. */
  function ClosedBy(trades: seq<SpyTrade>, ts: int): seq<SpyTrade> {
    if |trades| == 0 then []
    else (if !trades[0].reason.EodData? && trades[0].exitTs <= ts then [trades[0]] else []) + ClosedBy(trades[1..], ts)
  }

  lemma {:induction false} NoneClosed(trades: seq<SpyTrade>, ts: int)
    requires forall m :: 0 <= m < |trades| ==> trades[m].exitTs > ts
    ensures ClosedBy(trades, ts) == []
  {
    if |trades| > 0 { NoneClosed(trades[1..], ts); }
  }

  lemma {:induction false} SharedExit(cfg: EngineConfig, p: Plan, xs: seq<Bar>, ys: seq<Bar>, j: nat, k: nat)
    requires j <= k <= |xs| && k <= |ys| && xs[..k] == ys[..k]
    ensures FirstExit(cfg, p, xs, j) < k || FirstExit(cfg, p, ys, j) < k ==>
            FirstExit(cfg, p, xs, j) == FirstExit(cfg, p, ys, j)
    decreases k - j
  {
    hide ExitOf;
    if j < k {
      assert xs[j] == xs[..k][j] == ys[j];
      SharedExit(cfg, p, xs, ys, j + 1, k);
    }
  }

  /** Past row k nothing can close by the time of row k - 1. */
  lemma LateWalk(cfg: EngineConfig, d: Daily, bars: seq<Bar>, i: nat, k: nat)
    requires Chronological(bars) && 0 < k <= i && k <= |bars|
    ensures ClosedBy(Walk(cfg, d, bars, i), bars[k - 1].ts) == []
  {
    hide Admissible, EnteredOn, Covered, Walk;
    WalkSound(cfg, d, bars, i);
    if i < |bars| { NoneClosed(Walk(cfg, d, bars, i), bars[k - 1].ts); }
  }

  lemma {:induction false} SharedWalk(cfg: EngineConfig, d: Daily, xs: seq<Bar>, ys: seq<Bar>, i: nat, k: nat)
    requires Chronological(xs) && Chronological(ys) && 0 < k <= |xs| && k <= |ys| && xs[..k] == ys[..k]
    ensures xs[k - 1].ts == ys[k - 1].ts
    ensures ClosedBy(Walk(cfg, d, xs, i), xs[k - 1].ts) == ClosedBy(Walk(cfg, d, ys, i), xs[k - 1].ts)
    decreases k - i
  {
    hide Admissible, PlanOf, ExitOf, TradeOf;
    assert xs[k - 1] == xs[..k][k - 1] == ys[k - 1];
    if i >= k {
      LateWalk(cfg, d, xs, i, k);
      LateWalk(cfg, d, ys, i, k);
    } else {
      assert xs[i] == xs[..k][i] == ys[i];
      if !Admissible(d, xs[i]) {
        SharedWalk(cfg, d, xs, ys, i + 1, k);
      } else {
        var p := PlanOf(cfg, d, xs[i]);
        var m, n := FirstExit(cfg, p, xs, i + 1), FirstExit(cfg, p, ys, i + 1);
        SharedExit(cfg, p, xs, ys, i + 1, k);
        if m < k {
          SharedTrade(cfg, p, xs, ys, m, k);
          SharedWalk(cfg, d, xs, ys, m + 1, k);
          FirstTrade(TradeOf(cfg, p, xs, m), Walk(cfg, d, xs, m + 1), Walk(cfg, d, ys, m + 1), xs[k - 1].ts);
        } else {
          LateTrade(cfg, d, xs, i, m, k);
          LateTrade(cfg, d, ys, i, n, k);
        }
      }
    }
  }

  lemma SharedTrade(cfg: EngineConfig, p: Plan, xs: seq<Bar>, ys: seq<Bar>, m: nat, k: nat)
    requires m < k <= |xs| && k <= |ys| && xs[..k] == ys[..k] && ExitOf(cfg, p, xs[m]).Some?
    ensures xs[m] == ys[m] && TradeOf(cfg, p, xs, m) == TradeOf(cfg, p, ys, m)
  {
    assert xs[m] == xs[..k][m] == ys[m];
  }

  lemma FirstTrade(t: SpyTrade, a: seq<SpyTrade>, b: seq<SpyTrade>, ts: int)
    requires ClosedBy(a, ts) == ClosedBy(b, ts)
    ensures ClosedBy([t] + a, ts) == ClosedBy([t] + b, ts)
  {
    assert ([t] + a)[1..] == a && ([t] + b)[1..] == b;
  }

  lemma LateTrade(cfg: EngineConfig, d: Daily, bars: seq<Bar>, i: nat, m: nat, k: nat)
    requires Chronological(bars) && i < k <= |bars| && Admissible(d, bars[i])
    requires m == FirstExit(cfg, PlanOf(cfg, d, bars[i]), bars, i + 1) && m >= k
    ensures ClosedBy(Walk(cfg, d, bars, i), bars[k - 1].ts) == []
  {
    hide Admissible, PlanOf, ExitOf;
    var t, rest := TradeOf(cfg, PlanOf(cfg, d, bars[i]), bars, m), Walk(cfg, d, bars, m + 1);
    LateWalk(cfg, d, bars, m + 1, k);
    assert ([t] + rest)[1..] == rest;
  }

  /** Two bar series that share their first k rows, read with the same daily frame, give the same trades among
      those closed by then for any reason but the end of the data. */
  lemma NoLookahead(cfg: EngineConfig, d: Daily, xs: seq<Bar>, ys: seq<Bar>, k: nat)
    requires Chronological(xs) && Chronological(ys) && 0 < k <= |xs| && k <= |ys| && xs[..k] == ys[..k]
    ensures ClosedBy(Walk(cfg, d, xs, 0), xs[k - 1].ts) == ClosedBy(Walk(cfg, d, ys, 0), xs[k - 1].ts)
  {
    SharedWalk(cfg, d, xs, ys, 0, k);
  }

  // ---- A trade without a stop ----

  /** The prior day's low lies below a long entry's close, or its high above a short entry's. */
  predicate LevelOnSide(d: Daily, b: Bar) {
    var date := DateOf(b.ts);
    if b.signal > 0 then date in d.low && d.low[date] < b.close else date in d.high && d.high[date] > b.close
  }

  /** The date's ATR is a number, or the configured level is there to stand in for it. */
  predicate StopKnown(cfg: EngineConfig, d: Daily, b: Bar) {
    (DateOf(b.ts) in d.atr && d.atr[DateOf(b.ts)].Some?) || (cfg.priorDayLevel && LevelOnSide(d, b))
  }

  /** The plan of an admissible bar has a stop, and a target, exactly then. */
  lemma StopExactly(cfg: EngineConfig, d: Daily, b: Bar)
    requires Admissible(d, b)
    ensures var p := PlanOf(cfg, d, b);
            (p.stopPx.Some? <==> StopKnown(cfg, d, b)) && (p.targetPx.Some? <==> StopKnown(cfg, d, b))
  {
  }

  /** The entry of a trade that ended on a stop or a target knew its stop. */
  predicate LeveledEntry(cfg: EngineConfig, d: Daily, bars: seq<Bar>, t: SpyTrade) {
    t.reason.StopExit? || t.reason.TargetExit? ==>
      exists i :: 0 <= i < |bars| && Admissible(d, bars[i]) && bars[i].ts == t.entryTs && StopKnown(cfg, d, bars[i])
  }

  /** A bar admitted without one is traded all the same, and its trade ends on a signal, on the clock or with the
      data; over a whole walk every stop and every target belongs to an entry that knew its stop. */
  lemma {:induction false} UnknownAtrUnstopped(cfg: EngineConfig, d: Daily, bars: seq<Bar>, i: nat)
    ensures forall t :: t in Walk(cfg, d, bars, i) ==> LeveledEntry(cfg, d, bars, t)
    ensures i < |bars| && Admissible(d, bars[i]) && !StopKnown(cfg, d, bars[i]) ==>
              |Walk(cfg, d, bars, i)| > 0
              && var t := Walk(cfg, d, bars, i)[0];
                 t.entryTs == bars[i].ts && !t.reason.StopExit? && !t.reason.TargetExit?
    decreases |bars| - i
  {
    hide Admissible, PlanOf, StopKnown;
    if i < |bars| {
      if !Admissible(d, bars[i]) {
        UnknownAtrUnstopped(cfg, d, bars, i + 1);
      } else {
        var p := PlanOf(cfg, d, bars[i]);
        var k := FirstExit(cfg, p, bars, i + 1);
        UnknownAtrUnstopped(cfg, d, bars, k + 1);
        StopExactly(cfg, d, bars[i]);
        EntryFacts(cfg, d, bars, i, k);
        assert LeveledEntry(cfg, d, bars, TradeOf(cfg, p, bars, k));
      }
    }
  }

  // ---- Look-ups from the daily frame ----

  /** One row of the daily frame: its date and its trend direction. */
  datatype DailyBar = DailyBar(date: int, dir: int)

  /** Rows in date order, one a date. */
  predicate Dated(daily: seq<DailyBar>) {
    forall i, j :: 0 <= i < j < |daily| ==> daily[i].date < daily[j].date
  }

  predicate HasDate(daily: seq<DailyBar>, date: int) {
    exists k :: 0 <= k < |daily| && daily[k].date == date
  }

  /** The rows before a date. */
  function Earlier(daily: seq<DailyBar>, date: int): seq<DailyBar> {
    if |daily| == 0 then []
    else
      var r := daily[|daily| - 1];
      Earlier(daily[..|daily| - 1], date) + if r.date < date then [r] else []
  }

  /** The direction of the last row before a date; neutral if there is none. */
  function LastDirection(daily: seq<DailyBar>, date: int): int {
    var rows := Earlier(daily, date);
    if rows == [] then 0 else rows[|rows| - 1].dir
  }

  /** What a bar of that date is shown. */
  function AsofDirection(daily: seq<DailyBar>, date: int): int {
    if HasDate(daily, date) then LastDirection(daily, date) else 0
  }

  /** What asof_daily_direction returns. */
  function Directions(daily: seq<DailyBar>, stamps: seq<int>): seq<int> {
    seq(|stamps|, i requires 0 <= i < |stamps| => AsofDirection(daily, DateOf(stamps[i])))
  }

  lemma {:induction false} EarlierAll(daily: seq<DailyBar>, date: int)
    requires forall i :: 0 <= i < |daily| ==> daily[i].date < date
    ensures Earlier(daily, date) == daily
    decreases |daily|
  {
    hide Dated;
    if |daily| > 0 {
      var rest := daily[..|daily| - 1];
      EarlierAll(rest, date);
      assert daily == rest + [daily[|daily| - 1]];
    }
  }

  lemma {:induction false} EarlierPrefix(daily: seq<DailyBar>, k: nat, date: int)
    requires k <= |daily| && (forall i :: 0 <= i < k ==> daily[i].date < date)
    requires forall i :: k <= i < |daily| ==> daily[i].date >= date
    ensures Earlier(daily, date) == daily[..k]
    decreases |daily|
  {
    if k == |daily| {
      EarlierAll(daily, date);
      assert daily[..k] == daily;
    } else {
      EarlierPrefix(daily[..|daily| - 1], k, date);
      assert daily[..|daily| - 1][..k] == daily[..k];
    }
  }

  /** asof_daily_direction: the frame's directions shifted down one row, looked up by calendar date. */
  method AsofDailyDirection(stamps: seq<int>, daily: seq<DailyBar>) returns (dirs: seq<int>)
    requires Dated(daily)
    ensures dirs == Directions(daily, stamps)
  {
    hide Earlier, DateOf;
    var lookup: map<int, int> := map[];
    for k := 0 to |daily|
      invariant forall date :: date in lookup <==> exists m :: 0 <= m < k && daily[m].date == date
      invariant forall m :: 0 <= m < k ==>
                daily[m].date in lookup
                && lookup[daily[m].date] == LastDirection(daily, daily[m].date)
    {
      EarlierPrefix(daily, k, daily[k].date);
      lookup := lookup[daily[k].date := if k > 0 then daily[k - 1].dir else 0];
    }
    dirs := [];
    for i := 0 to |stamps|
      invariant |dirs| == i
      invariant forall m :: 0 <= m < i ==> dirs[m] == AsofDirection(daily, DateOf(stamps[m]))
    {
      var date := DateOf(stamps[i]);
      dirs := dirs + [if date in lookup then lookup[date] else 0];
    }
  }

  /** A bar of a row's date is shown the row before; a bar of the first row's date, or of a date without a row, is
      shown neutral. */
  lemma ShownRowBefore(daily: seq<DailyBar>, stamps: seq<int>, i: nat)
    requires Dated(daily) && i < |stamps|
    ensures |Directions(daily, stamps)| == |stamps|
    ensures forall k :: 0 < k < |daily| && daily[k].date == stamps[i] / 86400 ==>
              Directions(daily, stamps)[i] == daily[k - 1].dir
    ensures (forall k :: 0 < k < |daily| ==> daily[k].date != stamps[i] / 86400) ==> Directions(daily, stamps)[i] == 0
  {
    var date := stamps[i] / 86400;
    if HasDate(daily, date) {
      var k :| 0 <= k < |daily| && daily[k].date == date;
      EarlierPrefix(daily, k, date);
    }
  }

  /** Filtering by the earlier of two dates needs only what the later one lets through. */
  lemma {:induction false} EarlierOfEarlier(daily: seq<DailyBar>, date: int, later: int)
    requires date <= later
    ensures Earlier(Earlier(daily, later), date) == Earlier(daily, date)
  {
    if |daily| > 0 {
      var rest, r := daily[..|daily| - 1], daily[|daily| - 1];
      EarlierOfEarlier(rest, date, later);
      if r.date < later { assert (Earlier(rest, later) + [r])[..|Earlier(rest, later)|] == Earlier(rest, later); }
      else { assert Earlier(rest, later) + [] == Earlier(rest, later); }
    }
  }

  lemma {:induction false} EarlierHas(daily: seq<DailyBar>, date: int, later: int)
    requires date < later
    ensures HasDate(Earlier(daily, later), date) <==> HasDate(daily, date)
  {
    if |daily| > 0 {
      var rest, r := daily[..|daily| - 1], daily[|daily| - 1];
      EarlierHas(rest, date, later);
      LastHas(rest, r, date);
      assert daily == rest + [r];
      if r.date < later {
        LastHas(Earlier(rest, later), r, date);
      } else {
        assert Earlier(rest, later) + [] == Earlier(rest, later);
      }
    }
  }

  lemma LastHas(rest: seq<DailyBar>, r: DailyBar, date: int)
    ensures HasDate(rest + [r], date) <==> HasDate(rest, date) || r.date == date
  {
    var daily := rest + [r];
    if HasDate(rest, date) {
      var k :| 0 <= k < |rest| && rest[k].date == date;
      assert daily[k].date == date;
    }
    if r.date == date { assert daily[|rest|].date == date; }
    if HasDate(daily, date) && r.date != date {
      var k :| 0 <= k < |daily| && daily[k].date == date;
      assert rest[k].date == date;
    }
  }

  /** Up to a date, a bar's direction depends on nothing from that date on. */
  lemma EarlierDirection(xs: seq<DailyBar>, ys: seq<DailyBar>, date: int, later: int)
    requires Earlier(xs, later) == Earlier(ys, later) && date < later
    ensures AsofDirection(xs, date) == AsofDirection(ys, date)
  {
    hide HasDate, Earlier;
    EarlierHas(xs, date, later);
    EarlierHas(ys, date, later);
    EarlierOfEarlier(xs, date, later);
    EarlierOfEarlier(ys, date, later);
  }

  /** Two frames with the same rows before `today`, whatever each holds from then on, give a whole series of bars
      up to today the same directions, exactly if no bar falls on today, or today has a row in both frames or in
      neither, or the last row before today is neutral. */
  lemma DirectionNoLookahead(xs: seq<DailyBar>, ys: seq<DailyBar>, stamps: seq<int>, today: int)
    requires Earlier(xs, today) == Earlier(ys, today)
    requires forall i :: 0 <= i < |stamps| ==> DateOf(stamps[i]) <= today
    ensures Directions(xs, stamps) == Directions(ys, stamps)
            <==> (forall i :: 0 <= i < |stamps| ==> DateOf(stamps[i]) < today)
                 || (HasDate(xs, today) <==> HasDate(ys, today)) || LastDirection(xs, today) == 0
  {
    hide HasDate, Earlier, DateOf;
    forall i | 0 <= i < |stamps| && DateOf(stamps[i]) < today
      ensures AsofDirection(xs, DateOf(stamps[i])) == AsofDirection(ys, DateOf(stamps[i]))
    {
      EarlierDirection(xs, ys, DateOf(stamps[i]), today);
    }
    if i :| 0 <= i < |stamps| && DateOf(stamps[i]) == today {
      assert Directions(xs, stamps)[i] == AsofDirection(xs, today)
             && Directions(ys, stamps)[i] == AsofDirection(ys, today);
    }
  }

  /** atr.shift(1).bfill(): the prior row's ATR or, where that is missing, the next one there is. */
  function AtrFor(atrs: seq<Option<real>>, k: nat): Option<real>
    requires k < |atrs|
    decreases |atrs| - k
  {
    if k > 0 && atrs[k - 1].Some? then atrs[k - 1]
    else if k + 1 < |atrs| then AtrFor(atrs, k + 1)
    else None
  }

  /** It is the first ATR there is from the row before on, the last row's not among them. */
  lemma {:induction false} AtrIsFirstKnown(atrs: seq<Option<real>>, k: nat, x: real)
    requires k < |atrs|
    ensures AtrFor(atrs, k) == Some(x)
            <==> exists m: nat :: k - 1 <= m < |atrs| - 1 && atrs[m] == Some(x)
                                  && forall j: nat :: k - 1 <= j < m ==> atrs[j].None?
    decreases |atrs| - k
  {
    if !(k > 0 && atrs[k - 1].Some?) && k + 1 < |atrs| { AtrIsFirstKnown(atrs, k + 1, x); }
  }

  /** One row of the daily frame as the engine reads it; the ATR is missing while its window fills. */
  datatype DailyRow = DailyRow(date: int, atr: Option<real>, low: real, high: real)

  function AtrColumn(rows: seq<DailyRow>): seq<Option<real>> {
    seq(|rows|, k requires 0 <= k < |rows| => rows[k].atr)
  }

  /** The look-ups of the first n rows: every date with its back-filled ATR, and from the second row on the low and
      high of the row before. */
  function DailyTo(rows: seq<DailyRow>, n: nat): Daily
    requires n <= |rows|
  {
    if n == 0 then Daily(map[], map[], map[])
    else
      var d, date := DailyTo(rows, n - 1), rows[n - 1].date;
      Daily(d.atr[date := AtrFor(AtrColumn(rows), n - 1)],
            if n > 1 then d.low[date := rows[n - 2].low] else d.low,
            if n > 1 then d.high[date := rows[n - 2].high] else d.high)
  }

  function DailyOf(rows: seq<DailyRow>): Daily {
    DailyTo(rows, |rows|)
  }

  predicate DatedRows(rows: seq<DailyRow>) {
    forall i, j :: 0 <= i < j < |rows| ==> rows[i].date < rows[j].date
  }

  /** The frame gives each of its dates the ATR of AtrFor and the low and high of the row before. */
  lemma {:induction false} DailyAt(rows: seq<DailyRow>, n: nat, k: nat)
    requires DatedRows(rows) && k < n <= |rows|
    ensures var d, date := DailyTo(rows, n), rows[k].date;
            && date in d.atr && d.atr[date] == AtrFor(AtrColumn(rows), k)
            && (if k > 0
                then date in d.low && d.low[date] == rows[k - 1].low
                     && date in d.high && d.high[date] == rows[k - 1].high
                else date !in d.low && date !in d.high)
  {
    hide AtrFor;
    if k < n - 1 {
      DailyAt(rows, n - 1, k);
    } else if n > 1 {
      LaterDates(rows, n - 1);
    } else {
      assert DailyTo(rows, 0) == Daily(map[], map[], map[]);
    }
  }

  lemma {:induction false} LaterDates(rows: seq<DailyRow>, n: nat)
    requires n <= |rows|
    ensures forall date :: date in DailyTo(rows, n).low || date in DailyTo(rows, n).high
              ==> exists m :: 0 < m < n && rows[m].date == date
  {
    hide AtrFor;
    if n > 0 { LaterDates(rows, n - 1); }
  }

  /** A date's ATR is not a number exactly if neither the row before it nor any row from it on but the last has one. */
  lemma {:induction false} AtrMissingExactly(atrs: seq<Option<real>>, k: nat)
    requires k < |atrs|
    ensures AtrFor(atrs, k).None?
            <==> (k > 0 ==> atrs[k - 1].None?) && (forall m :: k <= m < |atrs| - 1 ==> atrs[m].None?)
    decreases |atrs| - k
  {
    if !(k > 0 && atrs[k - 1].Some?) && k + 1 < |atrs| { AtrMissingExactly(atrs, k + 1); }
  }

  /** The bar's prior-day level, read off the frame: the low, or high, of the row before its date's. */
  predicate RowLevelOnSide(rows: seq<DailyRow>, k: nat, b: Bar)
    requires 0 < k < |rows|
  {
    if b.signal > 0 then rows[k - 1].low < b.close else rows[k - 1].high > b.close
  }

  /** Read off the frame: an admissible bar on the date of row k is planned with a stop exactly if the row before
      has an ATR, or some row from k on but the last has one, or the prior-day level is configured and the row
      before has it on the right side of the close. */
  lemma FrameStopExactly(cfg: EngineConfig, rows: seq<DailyRow>, k: nat, b: Bar)
    requires DatedRows(rows) && k < |rows| && DateOf(b.ts) == rows[k].date && Admissible(DailyOf(rows), b)
    ensures PlanOf(cfg, DailyOf(rows), b).stopPx.Some?
            <==> (k > 0 && rows[k - 1].atr.Some?) || (exists m :: k <= m < |rows| - 1 && rows[m].atr.Some?)
                 || (cfg.priorDayLevel && k > 0 && RowLevelOnSide(rows, k, b))
  {
    hide DailyTo, AtrFor, PlanOf, DateOf, Admissible;
    StopExactly(cfg, DailyOf(rows), b);
    DailyAt(rows, |rows|, k);
    var atrs := AtrColumn(rows);
    AtrMissingExactly(atrs, k);
    assert forall m :: 0 <= m < |rows| ==> atrs[m] == rows[m].atr;
  }

  const OneRow := [DailyRow(0, Some(2.0), 99.0, 101.0)]

  const PlainStop := EngineConfig(1.0, false, 1.5, 4, 0.0, false, false)

  /** A frame of a single row: its one date has no ATR, a long entered at 100 that day carries no stop, and a fall
      to 1 in the next bar does not close it. */
  lemma OneRowUnstopped()
    ensures var bars := [Bar(300, 100.0, 100.0, 100.0, 1, 1, 0), Bar(600, 1.0, 100.0, 1.0, 0, 0, 0)];
            && DailyOf(OneRow).atr == map[0 := None]
            && Walk(PlainStop, DailyOf(OneRow), bars, 0)
               == [SpyTrade(1, 300, 100.0, 600, 1.0, EodData, 300.0 / 86400.0)]
  {
    var bars := [Bar(300, 100.0, 100.0, 100.0, 1, 1, 0), Bar(600, 1.0, 100.0, 1.0, 0, 0, 0)];
    var d := DailyOf(OneRow);
    assert AtrFor(AtrColumn(OneRow), 0).None?;
    assert d == Daily(map[0 := None], map[], map[]) by { assert DailyTo(OneRow, 0) == Daily(map[], map[], map[]); }
    var p := PlanOf(PlainStop, d, bars[0]);
    assert p == Plan(1, bars[0], None, None);
    assert ExitOf(PlainStop, p, bars[1]).None?;
    assert FirstExit(PlainStop, p, bars, 2) == 2 && FirstExit(PlainStop, p, bars, 1) == 2;
    assert Walk(PlainStop, d, bars, 3) == [];
  }

  /** The ATR look-up sees only earlier rows exactly when the prior row has an ATR; otherwise two frames equal
      up to row k can disagree at row k. */
  lemma AtrLookaheadExact(atrs: seq<Option<real>>, k: nat)
    requires k < |atrs|
    ensures (k > 0 && atrs[k - 1].Some?)
            <==> forall more: seq<Option<real>> ::
                   |more| > k && more[..k] == atrs[..k] ==> AtrFor(more, k) == AtrFor(atrs, k)
  {
    if k > 0 && atrs[k - 1].Some? {
      forall more: seq<Option<real>> | |more| > k && more[..k] == atrs[..k] ensures AtrFor(more, k) == AtrFor(atrs, k) {
        assert more[k - 1] == more[..k][k - 1] == atrs[k - 1];
      }
    } else {
      var value := if AtrFor(atrs, k) == Some(1.0) then 2.0 else 1.0;
      var more := atrs[..k] + [Some(value), None];
      assert more[..k] == atrs[..k];
      assert k > 0 ==> more[k - 1] == atrs[k - 1];
      assert AtrFor(more, k + 1) == Some(value);
      assert AtrFor(more, k) == Some(value);
    }
  }

  /** The first row of a frame is shown the ATR of the row after it. */
  lemma BackfillLooksAhead()
    ensures AtrFor([None, Some(1.0), None], 0) == Some(1.0) && AtrFor([None, Some(2.0), None], 0) == Some(2.0)
  {
    assert AtrFor([None, Some(1.0), None], 2) == Some(1.0) && AtrFor([None, Some(2.0), None], 2) == Some(2.0);
  }
}
