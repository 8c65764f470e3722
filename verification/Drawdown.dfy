/** One-pass drawdowns against their quadratic definitions (backtest/report.py:47-52, 86-103). */
module Drawdown {
  import opened Models

  // ---- Cumulative P&L ----

  /** The curve after n trades. */
  function Curve(pnls: seq<real>, n: nat): real
    requires n <= |pnls|
  {
    if n == 0 then 0.0 else Curve(pnls, n - 1) + pnls[n - 1]
  }

  /** `dd` is the largest fall from any point of the curve to a later one. */
  predicate IsMaxDrawdown(pnls: seq<real>, dd: real) {
    && (forall i, j :: 0 <= i <= j <= |pnls| ==> Curve(pnls, i) - Curve(pnls, j) <= dd)
    && (exists i, j :: 0 <= i <= j <= |pnls| && Curve(pnls, i) - Curve(pnls, j) == dd)
  }

  /** There is only one such number. */
  lemma DrawdownUnique(pnls: seq<real>, a: real, b: real)
    requires IsMaxDrawdown(pnls, a) && IsMaxDrawdown(pnls, b)
    ensures a == b && a >= 0.0
  {
    var i, j :| 0 <= i <= j <= |pnls| && Curve(pnls, i) - Curve(pnls, j) == a;
    var k, m :| 0 <= k <= m <= |pnls| && Curve(pnls, k) - Curve(pnls, m) == b;
    assert Curve(pnls, 0) - Curve(pnls, 0) <= a;
  }

  predicate PeakSoFar(pnls: seq<real>, n: nat, peak: real)
    requires n <= |pnls|
  {
    forall i :: 0 <= i <= n ==> Curve(pnls, i) <= peak
  }

  predicate BoundSoFar(pnls: seq<real>, n: nat, dd: real)
    requires n <= |pnls|
  {
    forall i, j :: 0 <= i <= j <= n ==> Curve(pnls, i) - Curve(pnls, j) <= dd
  }

  lemma Extended(pnls: seq<real>, n: nat, peak: real, peak': real, dd: real, dd': real)
    requires n < |pnls| && PeakSoFar(pnls, n, peak) && BoundSoFar(pnls, n, dd)
    requires peak' >= peak && peak' >= Curve(pnls, n + 1) && dd' >= dd && dd' >= peak' - Curve(pnls, n + 1)
    ensures PeakSoFar(pnls, n + 1, peak') && BoundSoFar(pnls, n + 1, dd')
  {
    hide Curve;
  }

  /** The loop in summarize. */
  method MaxDrawdown(pnls: seq<real>) returns (maxDd: real)
    ensures IsMaxDrawdown(pnls, maxDd)
  {
    hide PeakSoFar, BoundSoFar;
    var cum, peak := 0.0, 0.0;
    maxDd := 0.0;
    assert PeakSoFar(pnls, 0, 0.0) && BoundSoFar(pnls, 0, 0.0) by { AtStart(pnls); }
    ghost var top, hi, lo := 0, 0, 0;
    for n := 0 to |pnls|
      invariant cum == Curve(pnls, n)
      invariant 0 <= top <= n && peak == Curve(pnls, top) && PeakSoFar(pnls, n, peak)
      invariant 0 <= hi <= lo <= n && maxDd == Curve(pnls, hi) - Curve(pnls, lo)
      invariant BoundSoFar(pnls, n, maxDd)
    {
      cum := cum + pnls[n];
      ghost var was, fell := peak, maxDd;
      if cum > peak { peak, top := cum, n + 1; }
      if peak - cum > maxDd { maxDd, hi, lo := peak - cum, top, n + 1; }
      Extended(pnls, n, was, peak, fell, maxDd);
    }
    Attained(pnls, maxDd, hi, lo);
  }

  lemma AtStart(pnls: seq<real>)
    ensures PeakSoFar(pnls, 0, 0.0) && BoundSoFar(pnls, 0, 0.0)
  {
  }

  lemma Attained(pnls: seq<real>, dd: real, hi: nat, lo: nat)
    requires BoundSoFar(pnls, |pnls|, dd) && hi <= lo <= |pnls| && dd == Curve(pnls, hi) - Curve(pnls, lo)
    ensures IsMaxDrawdown(pnls, dd)
  {
    hide Curve;
  }

  // ---- Compounding ----

  /** One trade, with `fraction` of the capital deployed. */
  function Grow(cap: real, fraction: real, r: real): real {
    cap * (1.0 + fraction * r)
  }

  /** Capital after n trades. */
  function Capital(gains: seq<real>, start: real, fraction: real, n: nat): real
    requires n <= |gains|
  {
    if n == 0 then start else Grow(Capital(gains, start, fraction, n - 1), fraction, gains[n - 1])
  }

  predicate Ruined(gains: seq<real>, start: real, fraction: real) {
    exists n :: 0 < n <= |gains| && Capital(gains, start, fraction, n) <= 0.0
  }

  function Fall(from: real, to: real): real
    requires from != 0.0
  {
    (from - to) / from
  }

  lemma FallGrows(a: real, b: real, c: real)
    requires 0.0 < a <= b && c > 0.0
    ensures Fall(a, c) <= Fall(b, c) && Fall(a, a) == 0.0
  {
    var x, y := c / a, c / b;
    FallIsRest(a, c);
    FallIsRest(b, c);
    FallIsRest(a, a);
    assert x * a == c && y * b == c;
    Smaller(x, a, y, b);
  }

  lemma FallIsRest(a: real, c: real)
    requires a > 0.0
    ensures Fall(a, c) == 1.0 - c / a
  {
    SumIsOne((a - c) / a, c / a, a, c);
  }

  lemma SumIsOne(f: real, x: real, a: real, c: real)
    requires a > 0.0 && f * a == a - c && x * a == c
    ensures f == 1.0 - x
  {
    var u := f + x;
    Distributes(f, x, a, u, a - c, c);
    One(u, a);
  }

  lemma Distributes(f: real, x: real, a: real, u: real, fa: real, xa: real)
    requires u == f + x && f * a == fa && x * a == xa
    ensures u * a == fa + xa
  {
    assert u * a == f * a + x * a;
  }

  lemma One(u: real, a: real)
    requires a > 0.0 && u * a == a
    ensures u == 1.0
  {
    if u > 1.0 { Times(1.0, u, a); } else if u < 1.0 { Times(u, 1.0, a); }
  }

  lemma Times(u: real, v: real, a: real)
    requires u < v && a > 0.0
    ensures u * a < v * a
  {
    assert (v - u) * a > 0.0;
  }

  lemma Smaller(x: real, a: real, y: real, b: real)
    requires 0.0 < a <= b && x * a == y * b > 0.0
    ensures y <= x
  {
    if y > x {
      Times(x, y, b);
      if a < b && x > 0.0 { Times(a, b, x); }
    }
  }

  /** `dd` is the largest relative fall from any positive capital to a later one (zero if there is none). */
  ghost predicate IsMaxFall(gains: seq<real>, start: real, fraction: real, n: nat, dd: real)
    requires n <= |gains|
  {
    && (forall i, j :: 0 <= i <= j <= n && Capital(gains, start, fraction, i) > 0.0 ==>
          Fall(Capital(gains, start, fraction, i), Capital(gains, start, fraction, j)) <= dd)
    && (dd == 0.0
        || exists i, j :: 0 <= i <= j <= n && Capital(gains, start, fraction, i) > 0.0
                          && Fall(Capital(gains, start, fraction, i), Capital(gains, start, fraction, j)) == dd)
  }

  /** compound_equity: ruin exactly when some prefix reaches zero or below, and then nothing is left; otherwise
      the product of the growth factors and the largest relative fall. */
  method CompoundEquity(gains: seq<real>, start: real, fraction: real) returns (final: real, maxDd: real, ruined: bool)
    ensures ruined <==> Ruined(gains, start, fraction)
    ensures ruined ==> final == 0.0 && maxDd == 1.0
    ensures !ruined ==> final == Capital(gains, start, fraction, |gains|)
    ensures !ruined ==> maxDd >= 0.0 && IsMaxFall(gains, start, fraction, |gains|, maxDd)
  {
    hide IsMaxFall, Fall, Grow;
    var cap, peak := start, start;
    maxDd := 0.0;
    StartFall(gains, start, fraction);
    ghost var top := 0;
    for n := 0 to |gains|
      invariant cap == Capital(gains, start, fraction, n)
      invariant forall i :: 0 < i <= n ==> Capital(gains, start, fraction, i) > 0.0
      invariant 0 <= top <= n && peak == Capital(gains, start, fraction, top)
      invariant forall i :: 0 <= i <= n ==> Capital(gains, start, fraction, i) <= peak
      invariant maxDd >= 0.0 && IsMaxFall(gains, start, fraction, n, maxDd)
    {
      cap := Grow(cap, fraction, gains[n]);
      assert cap == Capital(gains, start, fraction, n + 1);
      if cap <= 0.0 { return 0.0, 1.0, true; }
      if cap > peak { peak, top := cap, n + 1; }
      NextFall(gains, start, fraction, n, top, maxDd);
      var fall := Fall(peak, cap);
      if fall > maxDd { maxDd := fall; }
    }
    return cap, maxDd, false;
  }

  lemma StartFall(gains: seq<real>, start: real, fraction: real)
    ensures IsMaxFall(gains, start, fraction, 0, 0.0)
  {
    if start > 0.0 { FallGrows(start, start, start); }
  }

  lemma NextFall(gains: seq<real>, start: real, fraction: real, n: nat, top: nat, dd: real)
    requires n < |gains| && top <= n + 1 && IsMaxFall(gains, start, fraction, n, dd) && dd >= 0.0
    requires Capital(gains, start, fraction, n + 1) > 0.0
    requires forall i :: 0 <= i <= n + 1 ==> Capital(gains, start, fraction, i) <= Capital(gains, start, fraction, top)
    ensures Capital(gains, start, fraction, top) > 0.0
    ensures var fall := Fall(Capital(gains, start, fraction, top), Capital(gains, start, fraction, n + 1));
            IsMaxFall(gains, start, fraction, n + 1, if fall > dd then fall else dd)
  {
    hide Fall, Capital;
    var cap, peak := Capital(gains, start, fraction, n + 1), Capital(gains, start, fraction, top);
    assert cap <= peak;
    forall i, j | 0 <= i <= j <= n + 1 && Capital(gains, start, fraction, i) > 0.0
      ensures Fall(Capital(gains, start, fraction, i), Capital(gains, start, fraction, j))
              <= if Fall(peak, cap) > dd then Fall(peak, cap) else dd
    {
      if j == n + 1 { FallGrows(Capital(gains, start, fraction, i), peak, cap); }
    }
  }
}
