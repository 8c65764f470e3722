/** When a walked spread is closed and for how much, read off the debits, the days left and the policy's own fields
    (backtest/spread_policy.py:120-224). */
module SpreadExits {
  import opened Models
  import opened SpreadPolicy

  // ---- What closing costs ----

  /** A usable volatility estimate after the entry day. */
  predicate Estimates(e: SpreadEntry, b: Bar) {
    b.day > e.entryDay && b.iv.Some? && b.iv.value > 0.0
  }

  /** The last usable estimate up to bar k, or the entry's if there is none. */
  predicate InForce(e: SpreadEntry, bars: seq<Bar>, k: nat, iv: real)
    requires k < |bars|
  {
    if exists j :: 0 <= j <= k && Estimates(e, bars[j]) then
      exists j :: 0 <= j <= k && Estimates(e, bars[j]) && bars[j].iv == Some(iv)
                  && forall m :: j < m <= k ==> !Estimates(e, bars[m])
    else iv == e.entryIv
  }

  function Over(spot: real, strike: real): real {
    if strike > spot then strike - spot else 0.0
  }

  /** The modelled price of the short put less that of the long one; what each is in the money by, once there is no
      time or no volatility left. */
  predicate Costs(px: PutModel, e: SpreadEntry, b: Bar, iv: real, debit: real) {
    var left := e.expiration - b.day;
    debit == if left > 0 && iv > 0.0
             then px(b.close, e.shortStrike, left, iv) - px(b.close, e.longStrike, left, iv)
             else Over(b.close, e.shortStrike) - Over(b.close, e.longStrike)
  }

  /** Closing at bar k costs this much a share, before slippage. */
  ghost predicate Priced(px: PutModel, e: SpreadEntry, bars: seq<Bar>, k: nat, debit: real)
    requires k < |bars|
  {
    exists iv :: InForce(e, bars, k, iv) && Costs(px, e, bars[k], iv, debit)
  }

  lemma {:induction false} CarriedIsLast(e: SpreadEntry, bars: seq<Bar>, k: nat, iv: real)
    requires Chronological(bars) && k < |bars|
    ensures InForce(e, bars, k, iv) <==> iv == CarriedIv(e, bars, k)
  {
    if bars[k].day <= e.entryDay {
      assert forall j :: 0 <= j <= k ==> !Estimates(e, bars[j]);
    } else if Estimates(e, bars[k]) {
      if iv == CarriedIv(e, bars, k) { assert bars[k].iv == Some(iv); }
    } else if k > 0 {
      CarriedIsLast(e, bars, k - 1, iv);
      NoneToday(e, bars, k, iv);
    }
  }

  lemma NoneToday(e: SpreadEntry, bars: seq<Bar>, k: nat, iv: real)
    requires 0 < k < |bars| && !Estimates(e, bars[k])
    ensures InForce(e, bars, k, iv) <==> InForce(e, bars, k - 1, iv)
  {
    hide Estimates;
  }

  lemma DebitIsPrice(px: PutModel, e: SpreadEntry, bars: seq<Bar>, k: nat, debit: real)
    requires Chronological(bars) && k < |bars|
    ensures Priced(px, e, bars, k, debit) <==> debit == DebitAt(px, e, bars, k)
  {
    hide InForce, CarriedIv;
    CarriedIsLast(e, bars, k, CarriedIv(e, bars, k));
    if Priced(px, e, bars, k, debit) {
      var iv :| InForce(e, bars, k, iv) && Costs(px, e, bars[k], iv, debit);
      CarriedIsLast(e, bars, k, iv);
    }
  }

  /** Every bar has one such price. */
  lemma OnePrice(px: PutModel, e: SpreadEntry, bars: seq<Bar>, k: nat) returns (debit: real)
    requires Chronological(bars) && k < |bars|
    ensures forall d :: Priced(px, e, bars, k, d) <==> d == debit
  {
    hide Priced, DebitAt;
    debit := DebitAt(px, e, bars, k);
    forall d ensures Priced(px, e, bars, k, d) <==> d == debit { DebitIsPrice(px, e, bars, k, d); }
  }

  // ---- When a bar closes the spread ----

  /** Closing leaves at least the target percentage of the credit. */
  predicate EarnsTarget(p: PolicySpec, credit: real, debit: real) {
    100.0 * (credit - debit) >= p.profitClosePct * credit
  }

  /** Closing costs at least the stop multiple of the credit. */
  predicate LosesMultiple(p: PolicySpec, credit: real, debit: real) {
    p.stopLossMult.Some? && p.stopLossMult.value > 0.0 && debit >= p.stopLossMult.value * credit
  }

  predicate NearExpiry(p: PolicySpec, left: int) {
    p.timeCloseDte.Some? && left <= p.timeCloseDte.value
  }

  /** A bar that leaves the spread open: not after entry, or with time left, the target unearned, the stop unreached
      and no early close due. */
  predicate StaysOpen(p: PolicySpec, e: SpreadEntry, b: Bar, debit: real) {
    b.day <= e.entryDay
    || (e.expiration > b.day && !EarnsTarget(p, e.creditFill, debit) && !LosesMultiple(p, e.creditFill, debit)
        && !NearExpiry(p, e.expiration - b.day))
  }

  /** Closed on bar b at that debit: at expiry for exactly the debit, and otherwise with slippage; a profit before a
      stop before the calendar. */
  predicate ClosedOn(p: PolicySpec, e: SpreadEntry, b: Bar, debit: real, slip: real, out: PolicyOutcome) {
    && out.policy == p.name && out.exitDay == b.day && out.daysHeld == b.day - e.entryDay
    && out.pnl == 100.0 * (e.creditFill - out.exitDebit)
    && (if e.expiration <= b.day then out.reason.Expiry? && out.exitDebit == debit
        else
          out.exitDebit == debit + slip
          && if EarnsTarget(p, e.creditFill, debit) then out.reason.Profit?
             else if LosesMultiple(p, e.creditFill, debit) then out.reason.Stop?
             else out.reason.Time? && NearExpiry(p, e.expiration - b.day))
  }

  lemma ExitsExactly(px: PutModel, e: SpreadEntry, bars: seq<Bar>, p: PolicySpec, k: nat)
    requires k < |bars|
    ensures Exits(px, e, bars, p, k) <==> !StaysOpen(p, e, bars[k], DebitAt(px, e, bars, k))
    ensures var credit, debit := e.creditFill, DebitAt(px, e, bars, k);
            && (ProfitHit(p, credit, debit) <==> EarnsTarget(p, credit, debit))
            && (StopHit(p, credit, debit) <==> LosesMultiple(p, credit, debit))
  {
    hide DebitAt;
    Percentage(p.profitClosePct, e.creditFill);
  }

  lemma Percentage(pct: real, credit: real)
    ensures 100.0 * ((1.0 - pct / 100.0) * credit) == 100.0 * credit - pct * credit
  {
    assert (1.0 - pct / 100.0) * credit == credit - (pct / 100.0) * credit;
    assert 100.0 * ((pct / 100.0) * credit) == (100.0 * (pct / 100.0)) * credit;
  }

  /** Every walk, over any bars in date order: it closes the spread on the first bar that does not leave it open, as
      ClosedOn says, and fails to resolve exactly if every bar leaves it open. */
  lemma WalkCloses(px: PutModel, e: SpreadEntry, bars: seq<Bar>, p: PolicySpec, slip: real)
    returns (k: nat, debit: real)
    requires Chronological(bars)
    ensures Walk(px, e, bars, p, slip, 0).Some? ==>
              && k < |bars| && Priced(px, e, bars, k, debit) && !StaysOpen(p, e, bars[k], debit)
              && ClosedOn(p, e, bars[k], debit, slip, Walk(px, e, bars, p, slip, 0).value)
              && (forall j, d :: 0 <= j < k && Priced(px, e, bars, j, d) ==> StaysOpen(p, e, bars[j], d))
    ensures Walk(px, e, bars, p, slip, 0).None? ==>
              forall j, d :: 0 <= j < |bars| && Priced(px, e, bars, j, d) ==> StaysOpen(p, e, bars[j], d)
  {
    hide Exits, OutcomeAt, Priced, StaysOpen, DebitAt, ClosedOn, Walk;
    debit := 0.0;
    k := WalkIsFirstExit(px, e, bars, p, slip, 0);
    forall j: nat, d | j < |bars| && Priced(px, e, bars, j, d)
      ensures StaysOpen(p, e, bars[j], d) <==> !Exits(px, e, bars, p, j)
    {
      DebitIsPrice(px, e, bars, j, d);
      ExitsExactly(px, e, bars, p, j);
    }
    if Walk(px, e, bars, p, slip, 0).Some? {
      debit := DebitAt(px, e, bars, k);
      DebitIsPrice(px, e, bars, k, debit);
      CloseOf(px, e, bars, p, slip, k);
    }
  }

  lemma CloseOf(px: PutModel, e: SpreadEntry, bars: seq<Bar>, p: PolicySpec, slip: real, k: nat)
    requires k < |bars| && Exits(px, e, bars, p, k)
    ensures ClosedOn(p, e, bars[k], DebitAt(px, e, bars, k), slip, OutcomeAt(px, e, bars, p, slip, k))
  {
    hide DebitAt, ProfitHit, StopHit, EarnsTarget, LosesMultiple;
    ExitsExactly(px, e, bars, p, k);
  }

  /** What each reason is worth: a profit at least its share of the credit less slippage, a stop at least the multiple
      lost, an early close only near expiration, an expiry only at or past it. */
  lemma ReasonsPay(px: PutModel, e: SpreadEntry, bars: seq<Bar>, p: PolicySpec, slip: real)
    requires Chronological(bars) && Walk(px, e, bars, p, slip, 0).Some?
    ensures var out := Walk(px, e, bars, p, slip, 0).value;
            && (out.reason.Profit? ==> out.pnl >= p.profitClosePct * e.creditFill - 100.0 * slip)
            && (out.reason.Stop? ==>
                  && p.stopLossMult.Some? && p.stopLossMult.value > 0.0
                  && out.exitDebit - slip >= p.stopLossMult.value * e.creditFill)
            && (out.reason.Time? ==> p.timeCloseDte.Some? && e.expiration - out.exitDay <= p.timeCloseDte.value)
            && (out.reason.Expiry? <==> e.expiration <= out.exitDay)
  {
    hide Walk, Priced;
    var k, debit := WalkCloses(px, e, bars, p, slip);
  }

  // ---- Which entries are walked ----

  /** A spread may be sold on this bar: an estimate, a price, strikes above zero, and a credit that survives slippage
      and the minimum share of the width. */
  predicate Sells(s: Setup, b: Bar, e: SpreadEntry) {
    && b.close > 0.0 && b.iv == Some(e.entryIv) && e.entryIv > 0.0
    && e.entryDay == b.day && e.expiration == b.day + s.dteDays
    && e.shortStrike == s.pick(b.close, e.entryIv) && e.longStrike == e.shortStrike - s.width > 0.0
    && e.width == s.width && e.credit > 0.0 && e.creditFill == e.credit - s.slip > 0.0
    && Costs(s.px, e, b, e.entryIv, e.credit)
    && (s.minCreditPct > 0.0 ==> s.width != 0.0 && e.credit / s.width * 100.0 >= s.minCreditPct)
  }

  lemma EntryExactly(s: Setup, bars: seq<Bar>, i: nat, e: SpreadEntry)
    requires i < |bars|
    ensures EntryAt(s, bars, i) == Some(e) <==> Sells(s, bars[i], e)
  {
  }

  /** The bars the loop visits from i on. */
  predicate Visited(i: nat, every: nat, j: nat)
    requires every > 0
    decreases j - i
  {
    i == j || (i + every <= j && Visited(i + every, every, j))
  }

  /** Sold on a visited bar whose expiration the data still holds, with each policy's own walk as its outcome. */
  ghost predicate SoldAt(s: Setup, bars: seq<Bar>, policies: seq<PolicySpec>, t: PairedTrade, i: nat, j: nat)
    requires s.every > 0 && j < |bars|
  {
    && Visited(i, s.every, j) && bars[j].day + s.dteDays <= bars[|bars| - 1].day && Sells(s, bars[j], t.entry)
    && (forall p :: p in policies ==>
          p.name in t.outcomes && Some(t.outcomes[p.name]) == Walk(s.px, t.entry, bars, p, s.slip, 0))
    && (forall name :: name in t.outcomes ==> exists p :: p in policies && p.name == name)
  }

  lemma SoldHere(s: Setup, bars: seq<Bar>, policies: seq<PolicySpec>, i: nat)
    requires s.every > 0 && Chronological(bars) && s.dteDays >= 1 && |policies| > 0 && DistinctNames(policies)
    requires i < |bars| && bars[i].day + s.dteDays <= bars[|bars| - 1].day
    ensures forall t :: t in TradeAt(s, bars, policies, i) ==> SoldAt(s, bars, policies, t, i, i)
    ensures forall e :: Sells(s, bars[i], e) ==> exists t :: t in TradeAt(s, bars, policies, i) && t.entry == e
  {
    hide Outcomes, EntryAt, Sells, Walk;
    var found := EntryAt(s, bars, i);
    if found.Some? {
      var e := found.value;
      EntryExactly(s, bars, i, e);
      SoldDay(s, bars[i], e);
      AllResolve(s, e, bars, policies);
      forall p | p in policies
        ensures p.name in Outcomes(s, e, bars, policies).value
        ensures Some(Outcomes(s, e, bars, policies).value[p.name]) == Walk(s.px, e, bars, p, s.slip, 0)
      {
        OutcomeOf(s, e, bars, policies, p);
      }
      assert PairedTrade(e, Outcomes(s, e, bars, policies).value) in TradeAt(s, bars, policies, i);
    }
    forall e | Sells(s, bars[i], e) ensures exists t :: t in TradeAt(s, bars, policies, i) && t.entry == e {
      EntryExactly(s, bars, i, e);
      assert TradeAt(s, bars, policies, i)[0].entry == e;
    }
  }

  lemma SoldDay(s: Setup, b: Bar, e: SpreadEntry)
    requires Sells(s, b, e)
    ensures e.entryDay == b.day && e.expiration == b.day + s.dteDays
  {
  }

  /** Over a whole run: the trades are exactly the spreads that can be sold on the visited bars, each with every
      policy walked over the same path. */
  lemma {:induction false} RunSells(s: Setup, bars: seq<Bar>, policies: seq<PolicySpec>, i: nat)
    requires s.every > 0 && Chronological(bars) && s.dteDays >= 1 && |policies| > 0 && DistinctNames(policies)
    ensures forall t :: t in Trades(s, bars, policies, i) ==>
              exists j :: 0 <= j < |bars| && SoldAt(s, bars, policies, t, i, j)
    ensures forall j, e :: 0 <= j < |bars| && Visited(i, s.every, j) && Sells(s, bars[j], e)
                           && bars[j].day + s.dteDays <= bars[|bars| - 1].day ==>
              exists t :: t in Trades(s, bars, policies, i) && t.entry == e
    decreases |bars| - i
  {
    hide TradeAt, Sells, Walk;
    if i < |bars| && bars[i].day + s.dteDays <= bars[|bars| - 1].day {
      RunSells(s, bars, policies, i + s.every);
      SoldHere(s, bars, policies, i);
      var here, rest := TradeAt(s, bars, policies, i), Trades(s, bars, policies, i + s.every);
      forall t | t in here + rest ensures exists j :: 0 <= j < |bars| && SoldAt(s, bars, policies, t, i, j) {
        if t in here {
          assert SoldAt(s, bars, policies, t, i, i);
        } else {
          var j :| 0 <= j < |bars| && SoldAt(s, bars, policies, t, i + s.every, j);
          VisitedFrom(i, s.every, j);
          assert SoldAt(s, bars, policies, t, i, j);
        }
      }
    }
  }

  lemma VisitedFrom(i: nat, every: nat, j: nat)
    requires every > 0 && Visited(i + every, every, j)
    ensures Visited(i, every, j)
  {
  }

  // ---- What the report adds up ----

  function Added(xs: seq<real>): real {
    if |xs| == 0 then 0.0 else Added(xs[..|xs| - 1]) + xs[|xs| - 1]
  }

  function Pnls(trades: seq<PairedTrade>, name: string): seq<real>
    requires Has(trades, name)
  {
    seq(|trades|, i requires 0 <= i < |trades| => trades[i].outcomes[name].pnl)
  }

  function Gains(xs: seq<real>): seq<real> {
    seq(|xs|, i requires 0 <= i < |xs| => if xs[i] > 0.0 then xs[i] else 0.0)
  }

  lemma {:induction false} SumsAre(trades: seq<PairedTrade>, name: string)
    requires Has(trades, name)
    ensures TotalPnl(trades, name) == Added(Pnls(trades, name))
    ensures WinSum(trades, name) == Added(Gains(Pnls(trades, name)))
  {
    if |trades| > 0 {
      var n := |trades| - 1;
      SumsAre(trades[..n], name);
      assert Pnls(trades, name)[..n] == Pnls(trades[..n], name);
      assert Gains(Pnls(trades, name))[..n] == Gains(Pnls(trades[..n], name));
    }
  }

  function Winners(trades: seq<PairedTrade>, name: string): set<int>
    requires Has(trades, name)
  {
    set i | 0 <= i < |trades| && trades[i].outcomes[name].pnl > 0.0
  }

  function EndedFor(trades: seq<PairedTrade>, name: string, r: Reason): set<int>
    requires Has(trades, name)
  {
    set i | 0 <= i < |trades| && trades[i].outcomes[name].reason == r
  }

  lemma LastEnded(trades: seq<PairedTrade>, name: string, r: Reason)
    requires Has(trades, name) && |trades| > 0
    ensures var n := |trades| - 1;
            && EndedFor(trades, name, r)
               == EndedFor(trades[..n], name, r) + (if trades[n].outcomes[name].reason == r then {n} else {})
            && n !in EndedFor(trades[..n], name, r)
  {
    var n := |trades| - 1;
    assert forall i :: 0 <= i < n ==> trades[..n][i] == trades[i];
  }

  lemma {:induction false} WinsAre(trades: seq<PairedTrade>, name: string)
    requires Has(trades, name)
    ensures CountWins(trades, name) == |Winners(trades, name)|
  {
    if |trades| > 0 {
      var n := |trades| - 1;
      WinsAre(trades[..n], name);
      var wins := Winners(trades[..n], name);
      assert Winners(trades, name) == if trades[n].outcomes[name].pnl > 0.0 then wins + {n} else wins;
    }
  }

  lemma {:induction false} ReasonsAre(trades: seq<PairedTrade>, name: string, r: Reason)
    requires Has(trades, name)
    ensures CountReason(trades, name, r) == |EndedFor(trades, name, r)|
  {
    hide EndedFor;
    if |trades| > 0 {
      var n := |trades| - 1;
      ReasonsAre(trades[..n], name, r);
      LastEnded(trades, name, r);
    } else {
      assert EndedFor(trades, name, r) == {} by { NoneEnded(trades, name, r); }
    }
  }

  lemma NoneEnded(trades: seq<PairedTrade>, name: string, r: Reason)
    requires trades == []
    ensures EndedFor(trades, name, r) == {}
  {
  }

  /** The total is the sum of the P&Ls, the winners are those above zero, and what they gained is the sum of theirs; a
      reason's count is the number of trades that ended for it. */
  lemma TotalsAre(trades: seq<PairedTrade>, name: string, r: Reason)
    requires Has(trades, name)
    ensures TotalPnl(trades, name) == Added(Pnls(trades, name))
    ensures WinSum(trades, name) == Added(Gains(Pnls(trades, name)))
    ensures CountWins(trades, name) == |Winners(trades, name)|
    ensures CountReason(trades, name, r) == |EndedFor(trades, name, r)|
  {
    SumsAre(trades, name);
    WinsAre(trades, name);
    ReasonsAre(trades, name, r);
  }
}
