/** Exit-policy comparison on modelled bull put spreads (backtest/spread_policy.py): several exit rules
    walked over one price path, and what that pairing guarantees. */
module SpreadPolicy {
  import opened Models

  /** The Black-Scholes put for positive time and volatility: any function of spot, strike, days and sigma. */
  type PutModel = (real, real, int, real) -> real

  /** One daily close, with the volatility estimate of that day if there is one (None for a NaN). */
  datatype Bar = Bar(day: int, close: real, iv: Option<real>)

  /** A missing stop and a stop of zero both mean no stop; a missing time close rides to expiration. */
  datatype PolicySpec = PolicySpec(name: string, profitClosePct: real, timeCloseDte: Option<int>,
                                   stopLossMult: Option<real>)

  datatype SpreadEntry = SpreadEntry(entryDay: int, expiration: int, entryIv: real, shortStrike: real, longStrike: real,
                                     width: real, credit: real, creditFill: real)

  datatype Reason = Profit | Stop | Time | Expiry

  datatype PolicyOutcome = PolicyOutcome(policy: string, exitDay: int, reason: Reason, exitDebit: real, pnl: real,
                                         daysHeld: int)

  datatype PairedTrade = PairedTrade(entry: SpreadEntry, outcomes: map<string, PolicyOutcome>)

  // ---- Pricing ----

  function Put(px: PutModel, spot: real, strike: real, days: int, iv: real): real {
    if days <= 0 || iv <= 0.0 then (if strike > spot then strike - spot else 0.0) else px(spot, strike, days, iv)
  }

  function SpreadDebit(px: PutModel, spot: real, iv: real, shortK: real, longK: real, dte: int): real {
    Put(px, spot, shortK, dte, iv) - Put(px, spot, longK, dte, iv)
  }

  /** At expiration the spread is worth between nothing and its width. */
  lemma IntrinsicBounded(px: PutModel, spot: real, iv: real, shortK: real, longK: real, dte: int)
    requires dte <= 0 && longK <= shortK
    ensures 0.0 <= SpreadDebit(px, spot, iv, shortK, longK, dte) <= shortK - longK
  {
  }

  // ---- The walk ----

  /** The volatility in force at bar i: the latest positive estimate seen since entry, or the entry's own. */
  function CarriedIv(e: SpreadEntry, bars: seq<Bar>, i: nat): real
    requires i < |bars|
  {
    if bars[i].day <= e.entryDay then e.entryIv
    else if bars[i].iv.Some? && bars[i].iv.value > 0.0 then bars[i].iv.value
    else if i == 0 then e.entryIv
    else CarriedIv(e, bars, i - 1)
  }

  function DebitAt(px: PutModel, e: SpreadEntry, bars: seq<Bar>, i: nat): real
    requires i < |bars|
  {
    var dte := e.expiration - bars[i].day;
    SpreadDebit(px, bars[i].close, CarriedIv(e, bars, i), e.shortStrike, e.longStrike, if dte <= 0 then 0 else dte)
  }

  function StopMult(p: PolicySpec): real {
    if p.stopLossMult.Some? then p.stopLossMult.value else 0.0
  }

  function TargetMaxDebit(p: PolicySpec, credit: real): real {
    (1.0 - p.profitClosePct / 100.0) * credit
  }

  function StopThreshold(p: PolicySpec, credit: real): real {
    StopMult(p) * credit
  }

  predicate ProfitHit(p: PolicySpec, credit: real, debit: real) {
    debit <= TargetMaxDebit(p, credit)
  }

  predicate TimeHit(p: PolicySpec, dte: int) {
    p.timeCloseDte.Some? && dte <= p.timeCloseDte.value
  }

  predicate StopHit(p: PolicySpec, credit: real, debit: real) {
    StopMult(p) > 0.0 && debit >= StopThreshold(p, credit)
  }

  predicate Exits(px: PutModel, e: SpreadEntry, bars: seq<Bar>, p: PolicySpec, i: nat)
    requires i < |bars|
  {
    var dte, debit := e.expiration - bars[i].day, DebitAt(px, e, bars, i);
    bars[i].day > e.entryDay
    && (dte <= 0 || ProfitHit(p, e.creditFill, debit) || TimeHit(p, dte) || StopHit(p, e.creditFill, debit))
  }

  function ReasonAt(px: PutModel, e: SpreadEntry, bars: seq<Bar>, p: PolicySpec, i: nat): Reason
    requires i < |bars|
  {
    var debit := DebitAt(px, e, bars, i);
    if e.expiration - bars[i].day <= 0 then Expiry
    else if ProfitHit(p, e.creditFill, debit) then Profit
    else if StopHit(p, e.creditFill, debit) then Stop
    else Time
  }

  function OutcomeAt(px: PutModel, e: SpreadEntry, bars: seq<Bar>, p: PolicySpec, slip: real, i: nat): PolicyOutcome
    requires i < |bars|
  {
    var reason := ReasonAt(px, e, bars, p, i);
    var exitDebit := DebitAt(px, e, bars, i) + if reason.Expiry? then 0.0 else slip;
    PolicyOutcome(p.name, bars[i].day, reason, exitDebit, (e.creditFill - exitDebit) * 100.0, bars[i].day - e.entryDay)
  }

  /** The outcome at the first exit from bar i on, if there is one. */
  function Walk(px: PutModel, e: SpreadEntry, bars: seq<Bar>, p: PolicySpec, slip: real, i: nat): Option<PolicyOutcome>
    requires i <= |bars|
    decreases |bars| - i
  {
    if i == |bars| then None
    else if Exits(px, e, bars, p, i) then Some(OutcomeAt(px, e, bars, p, slip, i))
    else Walk(px, e, bars, p, slip, i + 1)
  }

  /** walk_policy: None when the data ends first. */
  method WalkPolicy(px: PutModel, e: SpreadEntry, bars: seq<Bar>, p: PolicySpec, slip: real)
    returns (out: Option<PolicyOutcome>)
    requires Chronological(bars)
    ensures out == Walk(px, e, bars, p, slip, 0)
  {
    hide TargetMaxDebit, StopThreshold, SpreadDebit;
    var credit := e.creditFill;
    var targetMaxDebit := TargetMaxDebit(p, credit);
    var stopThreshold := StopThreshold(p, credit);
    var lastIv := e.entryIv;
    for n := 0 to |bars|
      invariant Walk(px, e, bars, p, slip, 0) == Walk(px, e, bars, p, slip, n)
      invariant lastIv == if n == 0 then e.entryIv else CarriedIv(e, bars, n - 1)
    {
      var bar := bars[n];
      if bar.day <= e.entryDay { EarlierBars(e, bars, n); continue; }
      var dte := e.expiration - bar.day;
      if bar.iv.Some? && bar.iv.value > 0.0 { lastIv := bar.iv.value; }
      if dte <= 0 {
        var intrinsic := SpreadDebit(px, bar.close, lastIv, e.shortStrike, e.longStrike, 0);
        return Some(PolicyOutcome(p.name, bar.day, Expiry, intrinsic, (credit - intrinsic) * 100.0,
                                  bar.day - e.entryDay));
      }
      var debit := SpreadDebit(px, bar.close, lastIv, e.shortStrike, e.longStrike, dte);
      var profit := debit <= targetMaxDebit;
      var time := p.timeCloseDte.Some? && dte <= p.timeCloseDte.value;
      var stop := StopMult(p) > 0.0 && debit >= stopThreshold;
      if profit || time || stop {
        var reason := if profit then Profit else if stop then Stop else Time;
        var exitDebit := debit + slip;
        return Some(PolicyOutcome(p.name, bar.day, reason, exitDebit, (credit - exitDebit) * 100.0,
                                  bar.day - e.entryDay));
      }
    }
    out := None;
  }

  predicate Chronological(bars: seq<Bar>) {
    forall i, j :: 0 <= i < j < |bars| ==> bars[i].day < bars[j].day
  }

  lemma EarlierBars(e: SpreadEntry, bars: seq<Bar>, n: nat)
    requires Chronological(bars) && n < |bars| && bars[n].day <= e.entryDay
    ensures CarriedIv(e, bars, n) == e.entryIv && (n > 0 ==> CarriedIv(e, bars, n - 1) == e.entryIv)
  {
  }

  /** The walk stops at the first bar that exits, and fails only if none does. */
  lemma {:induction false} WalkIsFirstExit(px: PutModel, e: SpreadEntry, bars: seq<Bar>, p: PolicySpec, slip: real,
                                           i: nat)
    returns (k: nat)
    requires i <= |bars|
    ensures Walk(px, e, bars, p, slip, i).None? <==> forall j :: i <= j < |bars| ==> !Exits(px, e, bars, p, j)
    ensures Walk(px, e, bars, p, slip, i).Some? ==>
              && i <= k < |bars| && Exits(px, e, bars, p, k) && (forall j :: i <= j < k ==> !Exits(px, e, bars, p, j))
              && Walk(px, e, bars, p, slip, i).value == OutcomeAt(px, e, bars, p, slip, k)
    decreases |bars| - i
  {
    hide Exits, OutcomeAt;
    k := i;
    if i < |bars| && !Exits(px, e, bars, p, i) {
      k := WalkIsFirstExit(px, e, bars, p, slip, i + 1);
    }
  }

  // ---- The stop explains everything ----

  /** Two policies that differ only in the stop, the second having none or a larger multiple. */
  predicate LooserStop(p: PolicySpec, q: PolicySpec) {
    && q.profitClosePct == p.profitClosePct && q.timeCloseDte == p.timeCloseDte
    && StopMult(p) > 0.0 && (StopMult(q) <= 0.0 || StopMult(q) >= StopMult(p))
  }

  lemma LargerStop(a: real, b: real, credit: real)
    requires a <= b && credit > 0.0
    ensures a * credit <= b * credit
  {
  }

  lemma LooserExits(px: PutModel, e: SpreadEntry, bars: seq<Bar>, p: PolicySpec, q: PolicySpec, i: nat)
    requires i < |bars| && LooserStop(p, q) && e.creditFill > 0.0
    ensures Exits(px, e, bars, q, i) ==> Exits(px, e, bars, p, i)
    ensures Exits(px, e, bars, p, i) && !ReasonAt(px, e, bars, p, i).Stop? ==>
              Exits(px, e, bars, q, i) && ReasonAt(px, e, bars, q, i) == ReasonAt(px, e, bars, p, i)
  {
    hide DebitAt;
    if StopMult(q) >= StopMult(p) { LargerStop(StopMult(p), StopMult(q), e.creditFill); }
  }

  /** Unless the first policy was stopped out, the looser one has the very same outcome; it never exits
      earlier; and where it resolves, so does the first. */
  lemma StopExplains(px: PutModel, e: SpreadEntry, bars: seq<Bar>, p: PolicySpec, q: PolicySpec, slip: real)
    requires Chronological(bars) && LooserStop(p, q) && e.creditFill > 0.0
    ensures var a, b := Walk(px, e, bars, p, slip, 0), Walk(px, e, bars, q, slip, 0);
            && (b.Some? ==> a.Some? && a.value.exitDay <= b.value.exitDay)
            && (a.Some? && !a.value.reason.Stop? ==> b.Some? && b.value == a.value.(policy := q.name))
  {
    hide Exits, ReasonAt, DebitAt;
    var k := WalkIsFirstExit(px, e, bars, p, slip, 0);
    var m := WalkIsFirstExit(px, e, bars, q, slip, 0);
    forall i | 0 <= i < |bars|
      ensures Exits(px, e, bars, q, i) ==> Exits(px, e, bars, p, i)
      ensures Exits(px, e, bars, p, i) && !ReasonAt(px, e, bars, p, i).Stop? ==>
                Exits(px, e, bars, q, i) && ReasonAt(px, e, bars, q, i) == ReasonAt(px, e, bars, p, i)
    {
      LooserExits(px, e, bars, p, q, i);
    }
  }

  // ---- Every modelled entry resolves, at defined risk ----

  /** With the expiration inside the data, a walk resolves exactly when some bar follows the entry day. */
  lemma ResolvesExactly(px: PutModel, e: SpreadEntry, bars: seq<Bar>, p: PolicySpec, slip: real)
    requires Chronological(bars) && |bars| > 0 && e.expiration <= bars[|bars| - 1].day
    ensures Walk(px, e, bars, p, slip, 0).Some? <==> bars[|bars| - 1].day > e.entryDay
  {
    var k := WalkIsFirstExit(px, e, bars, p, slip, 0);
    var n := |bars| - 1;
    if bars[n].day > e.entryDay { assert Exits(px, e, bars, p, n); }
  }

  /** Before expiry, the modelled spread costs between nothing and its width to close. */
  ghost predicate DefinedRisk(px: PutModel, shortK: real, longK: real) {
    forall spot: real, days: int, iv: real :: days > 0 && iv > 0.0 ==>
      0.0 <= px(spot, shortK, days, iv) - px(spot, longK, days, iv) <= shortK - longK
  }

  lemma DebitBounded(px: PutModel, e: SpreadEntry, bars: seq<Bar>, i: nat)
    requires i < |bars| && DefinedRisk(px, e.shortStrike, e.longStrike) && e.longStrike <= e.shortStrike
    ensures 0.0 <= DebitAt(px, e, bars, i) <= e.shortStrike - e.longStrike
  {
    hide CarriedIv;
  }

  /** Every P&L lies between the full width lost, plus the closing slippage, and the full credit kept. */
  lemma PnlBounded(px: PutModel, e: SpreadEntry, bars: seq<Bar>, p: PolicySpec, slip: real)
    requires DefinedRisk(px, e.shortStrike, e.longStrike) && 0.0 <= e.width == e.shortStrike - e.longStrike
    requires slip >= 0.0
    ensures var out := Walk(px, e, bars, p, slip, 0);
            out.Some? ==> 100.0 * (e.creditFill - e.width - slip) <= out.value.pnl <= 100.0 * e.creditFill
  {
    hide DebitAt, ReasonAt, Exits;
    var k := WalkIsFirstExit(px, e, bars, p, slip, 0);
    if Walk(px, e, bars, p, slip, 0).Some? { DebitBounded(px, e, bars, k); }
  }

  // ---- run_symbol ----

  /** The strike picker (a strike for a spot and a volatility) and the run's parameters. */
  datatype Setup = Setup(px: PutModel, pick: (real, real) -> real, dteDays: int, width: real, every: nat, start: nat,
                         minCreditPct: real, slip: real)

  /** model_entry and the filters in front of it. */
  function EntryAt(s: Setup, bars: seq<Bar>, i: nat): Option<SpreadEntry>
    requires i < |bars|
  {
    var bar := bars[i];
    if bar.iv.None? || bar.iv.value <= 0.0 || bar.close <= 0.0 then None
    else
      var iv := bar.iv.value;
      var shortK := s.pick(bar.close, iv);
      var longK := shortK - s.width;
      var credit := SpreadDebit(s.px, bar.close, iv, shortK, longK, s.dteDays);
      var fill := credit - s.slip;
      if longK <= 0.0 || credit <= 0.0 || fill <= 0.0 then None
      else if s.minCreditPct > 0.0 && (s.width == 0.0 || credit / s.width * 100.0 < s.minCreditPct) then None
      else Some(SpreadEntry(bar.day, bar.day + s.dteDays, iv, shortK, longK, s.width, credit, fill))
  }

  /** Every policy's outcome, or nothing if one of them cannot resolve. */
  function Outcomes(s: Setup, e: SpreadEntry, bars: seq<Bar>,
                    policies: seq<PolicySpec>): Option<map<string, PolicyOutcome>> {
    if |policies| == 0 then Some(map[])
    else
      var p := policies[|policies| - 1];
      var before := Outcomes(s, e, bars, policies[..|policies| - 1]);
      var out := Walk(s.px, e, bars, p, s.slip, 0);
      if before.None? || out.None? then None else Some(before.value[p.name := out.value])
  }

  function TradeAt(s: Setup, bars: seq<Bar>, policies: seq<PolicySpec>, i: nat): seq<PairedTrade>
    requires i < |bars|
  {
    var e := EntryAt(s, bars, i);
    if e.None? then []
    else
      var outs := Outcomes(s, e.value, bars, policies);
      if outs.Some? && outs.value != map[] then [PairedTrade(e.value, outs.value)] else []
  }

  function Trades(s: Setup, bars: seq<Bar>, policies: seq<PolicySpec>, i: nat): seq<PairedTrade>
    requires s.every > 0
    decreases |bars| - i
  {
    if i >= |bars| || bars[i].day + s.dteDays > bars[|bars| - 1].day then []
    else TradeAt(s, bars, policies, i) + Trades(s, bars, policies, i + s.every)
  }

  /** The inner loop: every policy on the same path, stopping at the first that cannot resolve. */
  method ResolveAll(s: Setup, e: SpreadEntry, bars: seq<Bar>, policies: seq<PolicySpec>)
    returns (outs: Option<map<string, PolicyOutcome>>)
    requires Chronological(bars)
    ensures outs == Outcomes(s, e, bars, policies)
  {
    hide Walk, Chronological;
    var outcomes: map<string, PolicyOutcome> := map[];
    for n := 0 to |policies|
      invariant Outcomes(s, e, bars, policies[..n]) == Some(outcomes)
    {
      assert policies[..n + 1][..n] == policies[..n];
      var out := WalkPolicy(s.px, e, bars, policies[n], s.slip);
      if out.None? {
        UnresolvedStays(s, e, bars, policies, n + 1);
        return None;
      }
      outcomes := outcomes[policies[n].name := out.value];
    }
    assert policies[..|policies|] == policies;
    outs := Some(outcomes);
  }

  method TradeHere(s: Setup, bars: seq<Bar>, policies: seq<PolicySpec>, i: nat) returns (trade: seq<PairedTrade>)
    requires Chronological(bars) && i < |bars|
    ensures trade == TradeAt(s, bars, policies, i)
  {
    hide EntryAt, Outcomes, Chronological;
    var e := EntryAt(s, bars, i);
    if e.None? { return []; }
    var outs := ResolveAll(s, e.value, bars, policies);
    trade := if outs.Some? && outs.value != map[] then [PairedTrade(e.value, outs.value)] else [];
  }

  /** run_symbol: a fixed cadence of entries, stopping where expirations run past the data. */
  method RunSymbol(s: Setup, bars: seq<Bar>, policies: seq<PolicySpec>) returns (trades: seq<PairedTrade>)
    requires s.every > 0 && Chronological(bars)
    ensures trades == Trades(s, bars, policies, s.start)
  {
    hide TradeAt, Chronological;
    trades := [];
    var i := s.start;
    while i < |bars| && bars[i].day + s.dteDays <= bars[|bars| - 1].day
      invariant trades + Trades(s, bars, policies, i) == Trades(s, bars, policies, s.start)
      decreases |bars| - i
    {
      var trade := TradeHere(s, bars, policies, i);
      assert (trades + trade) + Trades(s, bars, policies, i + s.every)
             == trades + (trade + Trades(s, bars, policies, i + s.every));
      trades := trades + trade;
      i := i + s.every;
    }
    assert trades + [] == trades;
  }

  lemma {:induction false} UnresolvedStays(s: Setup, e: SpreadEntry, bars: seq<Bar>, policies: seq<PolicySpec>, n: nat)
    requires n <= |policies|
    ensures Outcomes(s, e, bars, policies[..n]).None? ==> Outcomes(s, e, bars, policies).None?
    decreases |policies|
  {
    if n == |policies| {
      assert policies[..n] == policies;
    } else {
      UnresolvedStays(s, e, bars, policies[..|policies| - 1], n);
      assert policies[..|policies| - 1][..n] == policies[..n];
    }
  }

  /** An entry with its expiration inside the data and a day to run resolves under every policy. */
  lemma {:induction false} AllResolve(s: Setup, e: SpreadEntry, bars: seq<Bar>, policies: seq<PolicySpec>)
    requires Chronological(bars) && |bars| > 0 && e.entryDay < e.expiration <= bars[|bars| - 1].day
    ensures Outcomes(s, e, bars, policies).Some?
    ensures forall name :: name in Outcomes(s, e, bars, policies).value <==> exists p :: p in policies && p.name == name
    ensures Outcomes(s, e, bars, policies).value == map[] <==> |policies| == 0
  {
    if |policies| > 0 {
      var n := |policies| - 1;
      AllResolve(s, e, bars, policies[..n]);
      ResolvesExactly(s.px, e, bars, policies[n], s.slip);
      assert policies == policies[..n] + [policies[n]];
      assert policies[n].name in Outcomes(s, e, bars, policies).value;
    }
  }

  function Entries(trades: seq<PairedTrade>): seq<SpreadEntry> {
    seq(|trades|, i requires 0 <= i < |trades| => trades[i].entry)
  }

  lemma SameTrade(s: Setup, bars: seq<Bar>, policies: seq<PolicySpec>, i: nat)
    requires Chronological(bars) && s.dteDays >= 1 && |policies| > 0
    requires i < |bars| && bars[i].day + s.dteDays <= bars[|bars| - 1].day
    ensures Entries(TradeAt(s, bars, policies, i)) == if EntryAt(s, bars, i).Some? then [EntryAt(s, bars, i).value]
            else []
  {
    hide Outcomes;
    var e := EntryAt(s, bars, i);
    if e.Some? { AllResolve(s, e.value, bars, policies); }
  }

  /** The trade set does not depend on the policies under comparison: with at least a day to expiration, any
      two non-empty policy lists are run on the same entries. */
  lemma {:induction false} SameTradeSet(s: Setup, bars: seq<Bar>, ps: seq<PolicySpec>, qs: seq<PolicySpec>, i: nat)
    requires s.every > 0 && Chronological(bars) && s.dteDays >= 1 && |ps| > 0 && |qs| > 0
    ensures Entries(Trades(s, bars, ps, i)) == Entries(Trades(s, bars, qs, i))
    decreases |bars| - i
  {
    hide EntryAt, TradeAt;
    if i < |bars| && bars[i].day + s.dteDays <= bars[|bars| - 1].day {
      SameTradeSet(s, bars, ps, qs, i + s.every);
      SameTrade(s, bars, ps, i);
      SameTrade(s, bars, qs, i);
      var a, b := TradeAt(s, bars, ps, i), TradeAt(s, bars, qs, i);
      assert Entries(a) == Entries(b);
      assert Entries(a + Trades(s, bars, ps, i + s.every)) == Entries(a) + Entries(Trades(s, bars, ps, i + s.every));
      assert Entries(b + Trades(s, bars, qs, i + s.every)) == Entries(b) + Entries(Trades(s, bars, qs, i + s.every));
    }
  }

  // ---- Aggregates ----

  predicate Has(trades: seq<PairedTrade>, name: string) {
    forall i :: 0 <= i < |trades| ==> name in trades[i].outcomes
  }

  function TotalPnl(trades: seq<PairedTrade>, name: string): real
    requires Has(trades, name)
  {
    if |trades| == 0 then 0.0 else TotalPnl(trades[..|trades| - 1], name) + trades[|trades| - 1].outcomes[name].pnl
  }

  function CountReason(trades: seq<PairedTrade>, name: string, r: Reason): nat
    requires Has(trades, name)
  {
    if |trades| == 0 then 0
    else CountReason(trades[..|trades| - 1], name, r) + if trades[|trades| - 1].outcomes[name].reason == r then 1 else 0
  }

  function CountWins(trades: seq<PairedTrade>, name: string): nat
    requires Has(trades, name)
    ensures CountWins(trades, name) <= |trades|
  {
    if |trades| == 0 then 0
    else CountWins(trades[..|trades| - 1], name) + if trades[|trades| - 1].outcomes[name].pnl > 0.0 then 1 else 0
  }

  function WinSum(trades: seq<PairedTrade>, name: string): real
    requires Has(trades, name)
    ensures WinSum(trades, name) >= 0.0 && WinSum(trades, name) >= TotalPnl(trades, name)
  {
    if |trades| == 0 then 0.0
    else
      var pnl := trades[|trades| - 1].outcomes[name].pnl;
      WinSum(trades[..|trades| - 1], name) + if pnl > 0.0 then pnl else 0.0
  }

  datatype Stats = Stats(n: nat, winRate: real, avgWin: real, avgLoss: real, expectancy: real, totalPnl: real,
                         worst: real, reasons: map<Reason, nat>)

  function Times(x: real, n: int): real {
    x * n as real
  }

  /** The mean of `count` values that sum to `sum`; 0 of none. */
  function Mean(sum: real, count: nat): (r: real)
    ensures count == 0 ==> r == 0.0
    ensures Times(r, count) == if count == 0 then 0.0 else sum
  {
    if count == 0 then 0.0 else sum / count as real
  }

  lemma Weighted(rate: real, win: real, loss: real, mean: real, m: real, w: real, total: real, gained: real)
    requires m > 0.0 && rate * m == w && mean * m == total && win * w == gained && loss * (m - w) == total - gained
    ensures mean == rate * win + (1.0 - rate) * loss
  {
    var both := rate * win + (1.0 - rate) * loss;
    assert (rate * m) * win == w * win;
    assert ((1.0 - rate) * m) * loss == (m - w) * loss;
    assert both * m == (rate * m) * win + ((1.0 - rate) * m) * loss;
    assert both * m == mean * m;
    SameFactor(both, mean, m);
  }

  lemma SameFactor(x: real, y: real, m: real)
    requires m > 0.0 && x * m == y * m
    ensures x == y
  {
    assert (x - y) * m == 0.0;
  }

  lemma RateWithin(n: nat, wins: nat)
    requires 0 < n && wins <= n
    ensures 0.0 <= Mean(wins as real, n) <= 1.0
  {
    var m, w := n as real, wins as real;
    assert w / m <= m / m;
  }

  lemma ExpectancySplits(rate: real, win: real, loss: real, mean: real, n: nat, wins: nat, total: real, gained: real)
    requires 0 < n && wins <= n
    requires Times(rate, n) == wins as real && Times(mean, n) == total
    requires Times(win, wins) == gained && Times(loss, n - wins) == total - gained
    ensures mean == rate * win + (1.0 - rate) * loss
  {
    Weighted(rate, win, loss, mean, n as real, wins as real, total, gained);
  }

  /** The win rate, the two averages and the expectancy of `wins` winners among n, which gained `gained` of the
      total; the expectancy is the rate-weighted mean of the averages. */
  predicate RatesFit(st: Stats, wins: nat, gained: real)
    requires wins <= st.n
  {
    && Times(st.winRate, st.n) == wins as real && 0.0 <= st.winRate <= 1.0
    && Times(st.avgWin, wins) == gained
    && Times(st.avgLoss, st.n - wins) == st.totalPnl - gained
    && Times(st.expectancy, st.n) == st.totalPnl
    && (st.n > 0 ==> st.expectancy == st.winRate * st.avgWin + (1.0 - st.winRate) * st.avgLoss)
    && (st.n == 0 ==> st.winRate == st.expectancy == 0.0)
    && (wins == 0 ==> st.avgWin == 0.0) && (wins == st.n ==> st.avgLoss == 0.0)
  }

  lemma RatesOf(st: Stats, wins: nat, gained: real)
    requires wins <= st.n && (wins == 0 ==> gained == 0.0) && (wins == st.n ==> gained == st.totalPnl)
    requires st.winRate == Mean(wins as real, st.n) && st.avgWin == Mean(gained, wins)
    requires st.avgLoss == Mean(st.totalPnl - gained, st.n - wins) && st.expectancy == Mean(st.totalPnl, st.n)
    requires st.n == 0 ==> st.totalPnl == 0.0
    ensures RatesFit(st, wins, gained)
  {
    hide Times, Mean;
    if st.n > 0 {
      RateWithin(st.n, wins);
      ExpectancySplits(st.winRate, st.avgWin, st.avgLoss, st.expectancy, st.n, wins, st.totalPnl, gained);
    }
  }

  /** The least P&L; 0 of none. */
  predicate IsWorst(trades: seq<PairedTrade>, name: string, worst: real)
    requires Has(trades, name)
  {
    && (trades == [] ==> worst == 0.0)
    && (forall i :: 0 <= i < |trades| ==> worst <= trades[i].outcomes[name].pnl)
    && (trades != [] ==> exists i :: 0 <= i < |trades| && trades[i].outcomes[name].pnl == worst)
  }

  lemma NoneWorst(name: string)
    ensures IsWorst([], name, 0.0)
  {
  }

  lemma WorstStep(trades: seq<PairedTrade>, name: string, n: nat, worst: real)
    requires n < |trades| && Has(trades, name) && Has(trades[..n], name) && Has(trades[..n + 1], name)
    requires IsWorst(trades[..n], name, worst)
    ensures var pnl := trades[n].outcomes[name].pnl;
            IsWorst(trades[..n + 1], name, if n == 0 || pnl < worst then pnl else worst)
  {
    var pnl := trades[n].outcomes[name].pnl;
    if n > 0 && pnl >= worst {
      var i :| 0 <= i < n && trades[..n][i].outcomes[name].pnl == worst;
      assert trades[..n + 1][i] == trades[i];
    } else {
      assert trades[..n + 1][n].outcomes[name].pnl == pnl;
    }
  }

  lemma {:induction false} NoWinsNoGain(trades: seq<PairedTrade>, name: string)
    requires Has(trades, name)
    ensures CountWins(trades, name) == 0 ==> WinSum(trades, name) == 0.0
    ensures CountWins(trades, name) == |trades| ==> WinSum(trades, name) == TotalPnl(trades, name)
  {
    if |trades| > 0 { NoWinsNoGain(trades[..|trades| - 1], name); }
  }

  /** aggregate: the rates and means are those of the winning and the other trades, the worst is the least P&L,
      every trade is counted once under its reason, and the expectancy is the rate-weighted mean of the
      average win and the average loss. */
  method Aggregate(trades: seq<PairedTrade>, name: string) returns (st: Stats)
    requires Has(trades, name)
    ensures st.n == |trades| && st.totalPnl == TotalPnl(trades, name)
    ensures RatesFit(st, CountWins(trades, name), WinSum(trades, name))
    ensures IsWorst(trades, name, st.worst)
    ensures forall r :: (if r in st.reasons then st.reasons[r] else 0) == CountReason(trades, name, r)
  {
    hide RatesFit, Mean, Times, IsWorst;
    var wins, gained, total, worst, reasons: map<Reason, nat> := 0, 0.0, 0.0, 0.0, map[];
    NoneWorst(name);
    for n := 0 to |trades|
      invariant Has(trades[..n], name)
      invariant wins == CountWins(trades[..n], name) && gained == WinSum(trades[..n], name)
                && total == TotalPnl(trades[..n], name)
      invariant IsWorst(trades[..n], name, worst)
      invariant forall r :: (if r in reasons then reasons[r] else 0) == CountReason(trades[..n], name, r)
    {
      assert trades[..n + 1][..n] == trades[..n];
      var out := trades[n].outcomes[name];
      total := total + out.pnl;
      if out.pnl > 0.0 { wins, gained := wins + 1, gained + out.pnl; }
      WorstStep(trades, name, n, worst);
      if n == 0 || out.pnl < worst { worst := out.pnl; }
      reasons := reasons[out.reason := (if out.reason in reasons then reasons[out.reason] else 0) + 1];
    }
    assert trades[..|trades|] == trades;
    var count := |trades|;
    NoWinsNoGain(trades, name);
    st := Stats(count, Mean(wins as real, count), Mean(gained, wins), Mean(total - gained, count - wins),
                Mean(total, count), total, worst, reasons);
    RatesOf(st, wins, gained);
  }

  datatype StopAnalysis = StopAnalysis(stopped: nat, hurt: nat, helped: nat, altMinusStop: real, average: real)

  /** What the alternative earned beyond the stopped policy, on the trades the latter stopped out. */
  function StoppedDelta(trades: seq<PairedTrade>, stop: string, alt: string): real
    requires Has(trades, stop) && Has(trades, alt)
  {
    if |trades| == 0 then 0.0
    else
      var t := trades[|trades| - 1];
      StoppedDelta(trades[..|trades| - 1], stop, alt)
      + if t.outcomes[stop].reason.Stop? then t.outcomes[alt].pnl - t.outcomes[stop].pnl else 0.0
  }

  /** The stopped trades on which the alternative earned more. */
  function Hurt(trades: seq<PairedTrade>, n: nat, stop: string, alt: string): set<int>
    requires n <= |trades| && Has(trades, stop) && Has(trades, alt)
  {
    set i | 0 <= i < n && trades[i].outcomes[stop].reason == Stop
                       && trades[i].outcomes[alt].pnl > trades[i].outcomes[stop].pnl
  }

  lemma HurtNext(trades: seq<PairedTrade>, n: nat, stop: string, alt: string)
    requires n < |trades| && Has(trades, stop) && Has(trades, alt)
    ensures var (a, b) := (trades[n].outcomes[stop], trades[n].outcomes[alt]);
            Hurt(trades, n + 1, stop, alt)
            == Hurt(trades, n, stop, alt) + (if a.reason == Stop && b.pnl > a.pnl then {n} else {})
    ensures n !in Hurt(trades, n, stop, alt)
  {
  }

  lemma NoneHurt(trades: seq<PairedTrade>, stop: string, alt: string)
    requires Has(trades, stop) && Has(trades, alt)
    ensures Hurt(trades, 0, stop, alt) == {}
  {
  }

  /** paired_stop_analysis: what the alternative earned beyond the stop, and on how many of the stopped trades it
      earned more. */
  method PairedStopAnalysis(trades: seq<PairedTrade>, stop: string, alt: string) returns (r: StopAnalysis)
    requires Has(trades, stop) && Has(trades, alt)
    ensures r.altMinusStop == StoppedDelta(trades, stop, alt)
    ensures r.stopped == CountReason(trades, stop, Stop) == r.hurt + r.helped
    ensures r.hurt == |Hurt(trades, |trades|, stop, alt)|
    ensures Times(r.average, r.stopped) == if r.stopped == 0 then 0.0 else r.altMinusStop
  {
    hide Hurt;
    var stopped, hurt, helped, delta := 0, 0, 0, 0.0;
    assert Hurt(trades, 0, stop, alt) == {} by { NoneHurt(trades, stop, alt); }
    for n := 0 to |trades|
      invariant Has(trades[..n], stop) && Has(trades[..n], alt)
      invariant delta == StoppedDelta(trades[..n], stop, alt)
      invariant stopped == CountReason(trades[..n], stop, Stop) == hurt + helped
      invariant hurt == |Hurt(trades, n, stop, alt)|
    {
      assert trades[..n + 1][..n] == trades[..n];
      HurtNext(trades, n, stop, alt);
      var t := trades[n];
      if t.outcomes[stop].reason.Stop? {
        var d := t.outcomes[alt].pnl - t.outcomes[stop].pnl;
        stopped, delta := stopped + 1, delta + d;
        if d > 0.0 { hurt := hurt + 1; } else { helped := helped + 1; }
      }
    }
    assert trades[..|trades|] == trades;
    r := StopAnalysis(stopped, hurt, helped, delta, Mean(delta, stopped));
  }

  /** The trade's outcomes under two policies agree wherever the first was not stopped out. */
  predicate AgreeUnlessStopped(t: PairedTrade, stop: string, alt: string) {
    stop in t.outcomes && alt in t.outcomes
    && (!t.outcomes[stop].reason.Stop? ==> t.outcomes[alt] == t.outcomes[stop].(policy := alt))
    && t.outcomes[stop].exitDay <= t.outcomes[alt].exitDay
  }

  lemma {:induction false} OutcomeOf(s: Setup, e: SpreadEntry, bars: seq<Bar>, policies: seq<PolicySpec>, p: PolicySpec)
    requires p in policies && DistinctNames(policies) && Outcomes(s, e, bars, policies).Some?
    ensures p.name in Outcomes(s, e, bars, policies).value
    ensures Some(Outcomes(s, e, bars, policies).value[p.name]) == Walk(s.px, e, bars, p, s.slip, 0)
  {
    var n := |policies| - 1;
    if policies[n] != p {
      assert p in policies[..n];
      OutcomeOf(s, e, bars, policies[..n], p);
    }
  }

  predicate DistinctNames(policies: seq<PolicySpec>) {
    forall i, j :: 0 <= i < j < |policies| ==> policies[i].name != policies[j].name
  }

  lemma {:induction false} TradesAgree(s: Setup, bars: seq<Bar>, policies: seq<PolicySpec>, p: PolicySpec,
                                       q: PolicySpec, i: nat)
    requires s.every > 0 && Chronological(bars) && DistinctNames(policies) && p in policies && q in policies
    requires LooserStop(p, q)
    ensures forall t :: t in Trades(s, bars, policies, i) ==> AgreeUnlessStopped(t, p.name, q.name)
    decreases |bars| - i
  {
    hide Outcomes, Walk;
    if i < |bars| && bars[i].day + s.dteDays <= bars[|bars| - 1].day {
      TradesAgree(s, bars, policies, p, q, i + s.every);
      var e := EntryAt(s, bars, i);
      if e.Some? && Outcomes(s, e.value, bars, policies).Some? {
        OutcomeOf(s, e.value, bars, policies, p);
        OutcomeOf(s, e.value, bars, policies, q);
        StopExplains(s.px, e.value, bars, p, q, s.slip);
      }
    }
  }

  lemma {:induction false} DeltaIsTotal(trades: seq<PairedTrade>, stop: string, alt: string)
    requires forall t :: t in trades ==> AgreeUnlessStopped(t, stop, alt)
    ensures Has(trades, stop) && Has(trades, alt)
    ensures StoppedDelta(trades, stop, alt) == TotalPnl(trades, alt) - TotalPnl(trades, stop)
  {
    if |trades| > 0 {
      var n := |trades| - 1;
      assert forall t :: t in trades[..n] ==> t in trades;
      DeltaIsTotal(trades[..n], stop, alt);
      assert trades[n] in trades;
      assert forall i :: 0 <= i < n ==> trades[i] == trades[..n][i];
    }
  }

  /** Over a whole run, the difference between the two policies' totals is exactly what the analysis of the
      stopped-out trades reports. */
  lemma StopExplainsEverything(s: Setup, bars: seq<Bar>, policies: seq<PolicySpec>, p: PolicySpec, q: PolicySpec)
    requires s.every > 0 && Chronological(bars) && DistinctNames(policies) && p in policies && q in policies
    requires LooserStop(p, q)
    ensures var trades := Trades(s, bars, policies, s.start);
            && Has(trades, p.name) && Has(trades, q.name)
            && TotalPnl(trades, q.name) - TotalPnl(trades, p.name) == StoppedDelta(trades, p.name, q.name)
  {
    hide Trades, TotalPnl, StoppedDelta;
    TradesAgree(s, bars, policies, p, q, s.start);
    DeltaIsTotal(Trades(s, bars, policies, s.start), p.name, q.name);
  }
}
