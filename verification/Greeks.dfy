/** The implied-volatility bisection (data/greeks.py:135-167) over any price that does not fall as
    volatility rises within the bracket. (At a volatility of zero or less the program's put price is not
    discounted and may lie above its price just beside zero, so nothing is asked outside the bracket.) */
module Greeks {
  import opened Models

  const LOWEST := 0.0001
  const HIGHEST := 5.0

  /** The last iterate of n halvings of [lo, hi], or the first midpoint priced within the tolerance. */
  function Bisect(price: real -> real, target: real, tol: real, lo: real, hi: real, n: nat): real
    decreases n
  {
    var mid := 0.5 * (lo + hi);
    if n == 0 then mid
    else if Near(price(mid), target, tol) then mid
    else if price(mid) < target then Bisect(price, target, tol, mid, hi, n - 1)
    else Bisect(price, target, tol, lo, mid, n - 1)
  }

  predicate Near(a: real, b: real, tol: real) {
    -tol < a - b < tol
  }

  ghost predicate MonotoneOn(price: real -> real, lo: real, hi: real) {
    forall a: real, b: real :: lo <= a <= b <= hi ==> price(a) <= price(b)
  }

  lemma Rises(price: real -> real, lo: real, hi: real, a: real, b: real)
    requires MonotoneOn(price, lo, hi) && lo <= a <= b <= hi
    ensures price(a) <= price(b) && MonotoneOn(price, a, b)
  {
  }

  /** hi - lo, halved n times. */
  function Halved(width: real, n: nat): real
    decreases n
  {
    if n == 0 then width else Halved(0.5 * width, n - 1)
  }

  function Doubled(n: nat): real {
    if n == 0 then 1.0 else 2.0 * Doubled(n - 1)
  }

  /** The width divided by two to the n. */
  lemma {:induction false} HalvedExactly(width: real, n: nat)
    ensures Halved(width, n) * Doubled(n) == width
    decreases n
  {
    if n > 0 {
      HalvedExactly(0.5 * width, n - 1);
      var h, d := Halved(0.5 * width, n - 1), Doubled(n - 1);
      assert h * (2.0 * d) == 2.0 * (h * d);
    }
  }

  lemma HalvedOnce(width: real, n: nat)
    ensures Halved(width, n) == if n == 0 then width else Halved(0.5 * width, n - 1)
  {
  }

  function Distance(a: real, b: real): real {
    if a < b then b - a else a - b
  }

  /** With a true volatility in the bracket, the answer is priced within the tolerance or lies within the
      halved bracket of a volatility that prices exactly: no further than half its final width. */
  lemma {:induction false} BisectFinds(price: real -> real, target: real, tol: real, lo: real, hi: real, n: nat,
                                       root: real)
    returns (s: real)
    requires MonotoneOn(price, lo, hi) && lo <= root <= hi && price(root) == target
    ensures price(s) == target && lo <= s <= hi
    ensures var r := Bisect(price, target, tol, lo, hi, n);
            lo <= r <= hi && (Near(price(r), target, tol) || Distance(r, s) <= 0.5 * Halved(hi - lo, n))
    decreases n
  {
    hide Near, Halved, MonotoneOn;
    var mid := 0.5 * (lo + hi);
    HalvedOnce(hi - lo, n);
    s := root;
    if n > 0 && !Near(price(mid), target, tol) {
      Rises(price, lo, hi, mid, hi);
      Rises(price, lo, hi, lo, mid);
      if root < mid { Rises(price, lo, hi, root, mid); } else { Rises(price, lo, hi, mid, root); }
      if price(mid) < target {
        assert hi - mid == 0.5 * (hi - lo);
        s := BisectFinds(price, target, tol, mid, hi, n - 1, root);
      } else {
        var inner := if root <= mid then root else mid;
        assert mid - lo == 0.5 * (hi - lo);
        s := BisectFinds(price, target, tol, lo, mid, n - 1, inner);
      }
    }
  }

  /** With no solution in the bracket it still answers: a price above every model price drives it to the top,
      one below every model price to the bottom. */
  lemma {:induction false} BisectSaturates(price: real -> real, target: real, tol: real, lo: real, hi: real, n: nat)
    requires MonotoneOn(price, lo, hi) && lo <= hi
    ensures var r := Bisect(price, target, tol, lo, hi, n);
            && lo <= r <= hi
            && (price(hi) < target && !Near(price(r), target, tol) ==> hi - r <= 0.5 * Halved(hi - lo, n))
            && (price(lo) >= target && !Near(price(r), target, tol) ==> r - lo <= 0.5 * Halved(hi - lo, n))
    decreases n
  {
    hide Near, Halved, MonotoneOn;
    var mid := 0.5 * (lo + hi);
    HalvedOnce(hi - lo, n);
    if n > 0 && !Near(price(mid), target, tol) {
      Rises(price, lo, hi, mid, hi);
      Rises(price, lo, hi, lo, mid);
      assert hi - mid == 0.5 * (hi - lo) && mid - lo == 0.5 * (hi - lo);
      if price(mid) < target {
        BisectSaturates(price, target, tol, mid, hi, n - 1);
      } else {
        BisectSaturates(price, target, tol, lo, mid, n - 1);
      }
    }
  }

  /** Half the width of the bracket after n halvings. */
  function Reach(n: nat): real {
    0.5 * Halved(HIGHEST - LOWEST, n)
  }

  /** An answer in the bracket, priced within the tolerance or else within reach of a volatility that prices
      exactly if there is one, of the top if every price is too low, of the bottom if none is. */
  ghost predicate Solves(price: real -> real, target: real, tol: real, n: nat, r: real) {
    && LOWEST <= r <= HIGHEST
    && (price(r) <= target - tol || price(r) >= target + tol ==>
          && ((exists root :: LOWEST <= root <= HIGHEST && price(root) == target) ==>
                exists s :: LOWEST <= s <= HIGHEST && price(s) == target && Distance(r, s) <= Reach(n))
          && (price(HIGHEST) < target ==> HIGHEST - r <= Reach(n))
          && (price(LOWEST) >= target ==> r - LOWEST <= Reach(n)))
  }

  lemma Solved(price: real -> real, target: real, tol: real, n: nat)
    requires MonotoneOn(price, LOWEST, HIGHEST)
    ensures Solves(price, target, tol, n, Bisect(price, target, tol, LOWEST, HIGHEST, n))
  {
    hide Bisect, Halved, MonotoneOn;
    BisectSaturates(price, target, tol, LOWEST, HIGHEST, n);
    if root :| LOWEST <= root <= HIGHEST && price(root) == target {
      var s := BisectFinds(price, target, tol, LOWEST, HIGHEST, n, root);
    }
  }

  /** `intrinsic` is the discounted exercise value, `live` whether time remains. */
  method ImpliedVolatility(target: real, live: bool, intrinsic: real, price: real -> real, tol: real, maxIter: nat)
    returns (sigma: Option<real>)
    ensures sigma.None? <==> !live || target <= 0.0 || target < intrinsic - tol
    ensures sigma.Some? ==> sigma.value == Bisect(price, target, tol, LOWEST, HIGHEST, maxIter)
    ensures sigma.Some? && MonotoneOn(price, LOWEST, HIGHEST) ==> Solves(price, target, tol, maxIter, sigma.value)
  {
    if MonotoneOn(price, LOWEST, HIGHEST) { Solved(price, target, tol, maxIter); }
    if !live || target <= 0.0 || target < intrinsic - tol { return None; }
    var lo, hi := LOWEST, HIGHEST;
    for n := 0 to maxIter
      invariant Bisect(price, target, tol, LOWEST, HIGHEST, maxIter) == Bisect(price, target, tol, lo, hi, maxIter - n)
    {
      var mid := 0.5 * (lo + hi);
      var p := price(mid);
      if Near(p, target, tol) { return Some(mid); }
      if p < target { lo := mid; } else { hi := mid; }
    }
    sigma := Some(0.5 * (lo + hi));
  }
}
