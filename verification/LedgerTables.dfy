/** How the queries react to appending a row, rewriting a row and tagging a row. */
module LedgerTables {
  import opened Models
  import opened PaperBrokers
  import opened Repos
  import opened Reconciler
  import opened Ledger

  // ---- Look-ups are stable ----

  lemma {:induction false} FindClientStable(rows: seq<Order>, more: seq<Order>, cid: string)
    requires |rows| <= |more|
    requires forall j :: 0 <= j < |rows| ==> rows[j].clientId == more[j].clientId
    requires forall j :: |rows| <= j < |more| ==> more[j].clientId != Some(cid)
    ensures FindClient(more, cid) == FindClient(rows, cid)
    decreases |more|
  {
    if |more| > 0 {
      var n := |more| - 1;
      if |rows| == |more| {
        assert rows[..n] == rows[..|rows| - 1];
        FindClientStable(rows[..n], more[..n], cid);
      } else {
        FindClientStable(rows, more[..n], cid);
      }
    }
  }

  /** The first match stays first however many rows follow. */
  lemma {:induction false} FindClientFirst(rows: seq<Order>, more: seq<Order>, cid: string)
    requires FindClient(rows, cid).Some?
    ensures FindClient(rows + more, cid) == FindClient(rows, cid)
  {
    if |more| == 0 {
      assert rows + more == rows;
    } else {
      var n := |more| - 1;
      assert (rows + more)[..|rows + more| - 1] == rows + more[..n];
      FindClientFirst(rows, more[..n], cid);
    }
  }

  lemma {:induction false} FindClientSound(rows: seq<Order>, cid: string)
    ensures var f := FindClient(rows, cid);
            if f.Some? then f.value < |rows| && rows[f.value].clientId == Some(cid)
            else forall j :: 0 <= j < |rows| ==> rows[j].clientId != Some(cid)
  {
    if |rows| > 0 { FindClientSound(rows[..|rows| - 1], cid); }
  }

  lemma {:induction false} FindBrokerSound(rows: seq<Order>, bid: nat)
    ensures var f := FindBroker(rows, bid); f.Some? ==> f.value < |rows| && rows[f.value].brokerId == Some(bid)
  {
    if |rows| > 0 { FindBrokerSound(rows[..|rows| - 1], bid); }
  }

  lemma {:induction false} FindBrokerClientNone(rows: seq<Order>, cid: string)
    requires forall j :: 0 <= j < |rows| ==> rows[j].clientId != Some(cid)
    ensures FindBrokerClient(rows, cid) == None
  {
    if |rows| > 0 { FindBrokerClientNone(rows[..|rows| - 1], cid); }
  }

  lemma {:induction false} FindPositionSound(ps: seq<Position>, s: string, strat: Option<string>)
    ensures var f := FindPosition(ps, s, strat);
            if f.Some? then f.value < |ps| && Matches(ps[f.value], s, strat)
            else forall j :: 0 <= j < |ps| ==> !Matches(ps[j], s, strat)
  {
    if |ps| > 0 { FindPositionSound(ps[..|ps| - 1], s, strat); }
  }

  /** A look-up by symbol and strategy sees nothing else of the rows. */
  lemma {:induction false} FindPositionKeys(ps: seq<Position>, qs: seq<Position>, x: string, strat: Option<string>)
    requires |ps| == |qs|
    requires forall m :: 0 <= m < |ps| ==> ps[m].symbol == qs[m].symbol && ps[m].strategy == qs[m].strategy
    ensures FindPosition(ps, x, strat) == FindPosition(qs, x, strat)
  {
    if |ps| > 0 { FindPositionKeys(ps[..|ps| - 1], qs[..|qs| - 1], x, strat); }
  }

  ghost predicate DistinctSymbols(ps: seq<Position>) {
    forall j, k :: 0 <= j < k < |ps| ==> ps[j].symbol != ps[k].symbol
  }

  /** One row per symbol: every look-up by symbol finds it. */
  lemma FindPositionAt(ps: seq<Position>, k: nat, strat: Option<string>)
    requires k < |ps| && DistinctSymbols(ps) && (strat.Some? ==> strat.value == ps[k].strategy)
    ensures FindPosition(ps, ps[k].symbol, strat) == Some(k)
  {
    FindPositionSound(ps, ps[k].symbol, strat);
    assert Matches(ps[k], ps[k].symbol, strat);
  }

  // ---- The order query ----

  lemma {:induction false} OldestPendingBound(rows: seq<Order>, j: nat)
    requires j < |rows| && Working(rows[j].status)
    ensures OldestPending(rows).Some? && OldestPending(rows).value <= rows[j].placedAt
  {
    if j < |rows| - 1 { OldestPendingBound(rows[..|rows| - 1], j); }
  }

  lemma {:induction false} SinceMembers(orders: seq<Order>, since: int)
    ensures forall v :: v in OrdersSince(orders, since) <==> v in orders && Stamp(v) >= since
  {
    if |orders| > 0 {
      var n := |orders| - 1;
      SinceMembers(orders[..n], since);
      assert orders == orders[..n] + [orders[n]];
    }
  }

  lemma {:induction false} SinceConcat(a: seq<Order>, b: seq<Order>, since: int)
    ensures OrdersSince(a + b, since) == OrdersSince(a, since) + OrdersSince(b, since)
  {
    if |b| == 0 {
      assert a + b == a;
    } else {
      var n := |b| - 1;
      assert (a + b)[..|a + b| - 1] == a + b[..n];
      SinceConcat(a, b[..n], since);
    }
  }

  /** Whatever the cursor, the query starts no later than any row still working locally. */
  lemma SinceCovers(rows: seq<Order>, cursor: Option<int>, j: nat)
    requires j < |rows| && Working(rows[j].status)
    ensures Since(rows, cursor) <= rows[j].placedAt
  {
    OldestPendingBound(rows, j);
  }

  // ---- Tagged rows ----

  lemma {:induction false} TaggedConcat(a: seq<Order>, b: seq<Order>, cy: nat)
    ensures Tagged(a + b, cy) == Tagged(a, cy) + Tagged(b, cy)
  {
    if |b| == 0 {
      assert a + b == a;
    } else {
      var n := |b| - 1;
      assert (a + b)[..|a + b| - 1] == a + b[..n];
      TaggedConcat(a, b[..n], cy);
    }
  }

  lemma TaggedOne(r: Order, cy: nat)
    ensures Tagged([r], cy) == if r.cycle == Some(cy) then [r] else []
  {
    assert [r][..0] == [];
  }

  lemma TaggedAppend(rows: seq<Order>, r: Order, cy: nat)
    ensures Tagged(rows + [r], cy) == Tagged(rows, cy) + if r.cycle == Some(cy) then [r] else []
  {
    TaggedConcat(rows, [r], cy);
    TaggedOne(r, cy);
  }

  lemma TaggedSplit(rows: seq<Order>, j: nat, cy: nat)
    requires j < |rows|
    ensures Tagged(rows, cy)
         == Tagged(rows[..j], cy) + (if rows[j].cycle == Some(cy) then [rows[j]] else []) + Tagged(rows[j + 1..], cy)
  {
    assert rows == rows[..j] + [rows[j]] + rows[j + 1..];
    TaggedConcat(rows[..j] + [rows[j]], rows[j + 1..], cy);
    TaggedConcat(rows[..j], [rows[j]], cy);
    TaggedOne(rows[j], cy);
  }

  /** Rewriting an untagged row: it appears in cycle `cy` exactly if it is now tagged so. */
  lemma TaggedRewrite(rows: seq<Order>, j: nat, r: Order, cy: nat)
    requires j < |rows| && rows[j].cycle != Some(cy)
    ensures Tagged(rows, cy) == Tagged(rows[..j], cy) + Tagged(rows[j + 1..], cy)
    ensures Tagged(rows[j := r], cy)
         == Tagged(rows[..j], cy) + (if r.cycle == Some(cy) then [r] else []) + Tagged(rows[j + 1..], cy)
  {
    TaggedSplit(rows, j, cy);
    TaggedSplit(rows[j := r], j, cy);
    assert rows[j := r][..j] == rows[..j] && rows[j := r][j + 1..] == rows[j + 1..];
  }

  lemma {:induction false} TaggedFrom(rows: seq<Order>, cy: nat, i: nat)
    requires i < |Tagged(rows, cy)|
    ensures Tagged(rows, cy)[i] in rows && Tagged(rows, cy)[i].cycle == Some(cy)
  {
    var n := |rows| - 1;
    if i < |Tagged(rows[..n], cy)| { TaggedFrom(rows[..n], cy, i); }
  }

  lemma {:induction false} TaggedNone(rows: seq<Order>, cy: nat)
    requires forall j :: 0 <= j < |rows| ==> rows[j].cycle != Some(cy)
    ensures Tagged(rows, cy) == []
  {
    if |rows| > 0 { TaggedNone(rows[..|rows| - 1], cy); }
  }

  // ---- Sums over rows ----

  lemma {:induction false} FlowSumConcat(a: seq<Order>, b: seq<Order>)
    ensures FlowSum(a + b) == FlowSum(a) + FlowSum(b)
  {
    if |b| == 0 {
      assert a + b == a;
    } else {
      var n := |b| - 1;
      assert (a + b)[..|a + b| - 1] == a + b[..n];
      FlowSumConcat(a, b[..n]);
    }
  }

  lemma FlowSumOne(r: Order)
    ensures FlowSum([r]) == Flow(r)
  {
    assert [r][..0] == [];
  }

  /** The flows of all rows that carry a cycle tag. */
  function Booked(rows: seq<Order>): real {
    if |rows| == 0 then 0.0
    else
      var r := rows[|rows| - 1];
      Booked(rows[..|rows| - 1]) + if r.cycle.Some? then Flow(r) else 0.0
  }

  function BookedRow(r: Order): real {
    if r.cycle.Some? then Flow(r) else 0.0
  }

  lemma {:induction false} BookedConcat(a: seq<Order>, b: seq<Order>)
    ensures Booked(a + b) == Booked(a) + Booked(b)
  {
    if |b| == 0 {
      assert a + b == a;
    } else {
      var n := |b| - 1;
      assert (a + b)[..|a + b| - 1] == a + b[..n];
      BookedConcat(a, b[..n]);
    }
  }

  lemma BookedAppend(rows: seq<Order>, r: Order)
    ensures Booked(rows + [r]) == Booked(rows) + BookedRow(r)
  {
    assert (rows + [r])[..|rows|] == rows;
  }

  lemma BookedRewrite(rows: seq<Order>, j: nat, r: Order)
    requires j < |rows|
    ensures Booked(rows[j := r]) == Booked(rows) - BookedRow(rows[j]) + BookedRow(r)
  {
    var a, b := rows[..j], rows[j + 1..];
    assert rows == a + [rows[j]] + b && rows[j := r] == a + [r] + b;
    BookedConcat(a + [rows[j]], b);
    BookedConcat(a + [r], b);
    BookedAppend(a, rows[j]);
    BookedAppend(a, r);
  }

  // ---- What the reconciler reads off one cycle's rows ----

  predicate IsStock(r: Order) {
    r.contract.None? && !IsMultiLeg(r.orderType)
  }

  /** Shares bought minus shares sold by a cycle's stock legs. */
  function Units(rows: seq<Order>): int {
    if |rows| == 0 then 0
    else
      var r := rows[|rows| - 1];
      Units(rows[..|rows| - 1]) - if IsStock(r) then Sign(r.orderType) * r.quantity else 0
  }

  /** Cash flow of a cycle's stock legs. */
  function StockCash(rows: seq<Order>): real {
    if |rows| == 0 then 0.0
    else
      var r := rows[|rows| - 1];
      StockCash(rows[..|rows| - 1]) + if IsStock(r) then Flow(r) else 0.0
  }

  datatype Digest = Digest(first: Option<Order>, last: Option<Order>, package: Option<Order>, units: int, stock: real)

  function DigestOf(rows: seq<Order>): Digest {
    Digest(FirstCsp(rows), LastCall(rows), Package(rows), Units(rows), StockCash(rows))
  }

  /** A row none of the digest's queries looks at. */
  predicate Silent(r: Order) {
    !IsCsp(r) && !IsCall(r) && !r.orderType.MultiLegOpen? && !IsStock(r)
  }

  lemma {:induction false} DigestSkip(a: seq<Order>, r: Order, b: seq<Order>)
    requires Silent(r)
    ensures DigestOf(a + [r] + b) == DigestOf(a + b)
  {
    if |b| == 0 {
      assert (a + [r] + b)[..|a|] == a && a + b == a && a + [r] + b == a + [r];
    } else {
      var n := |b| - 1;
      assert (a + [r] + b)[..|a + [r] + b| - 1] == a + [r] + b[..n];
      assert (a + b)[..|a + b| - 1] == a + b[..n];
      DigestSkip(a, r, b[..n]);
    }
  }

  /** A call placed after every other call of the cycle becomes the last call; nothing else moves. */
  lemma {:induction false} DigestCall(a: seq<Order>, r: Order, b: seq<Order>)
    requires IsCall(r)
    requires LastCall(a + b).None? || LastCall(a + b).value.placedAt < r.placedAt
    ensures DigestOf(a + [r] + b) == DigestOf(a + b).(last := Some(r))
  {
    if |b| == 0 {
      assert (a + [r] + b)[..|a|] == a && a + b == a && a + [r] + b == a + [r];
    } else {
      var n := |b| - 1;
      assert (a + [r] + b)[..|a + [r] + b| - 1] == a + [r] + b[..n];
      assert (a + b)[..|a + b| - 1] == a + b[..n];
      DigestCall(a, r, b[..n]);
    }
  }

  lemma DigestStock(rows: seq<Order>, r: Order)
    requires IsStock(r) && !IsCsp(r) && !IsCall(r)
    ensures DigestOf(rows + [r])
         == DigestOf(rows).(units := Units(rows) - Sign(r.orderType) * r.quantity, stock := StockCash(rows) + Flow(r))
  {
    assert (rows + [r])[..|rows|] == rows;
  }

  lemma DigestOne(r: Order)
    requires !IsStock(r)
    ensures DigestOf([r]) == Digest(if IsCsp(r) then Some(r) else None, if IsCall(r) then Some(r) else None,
                                    if r.orderType.MultiLegOpen? then Some(r) else None, 0, 0.0)
  {
    assert [r][..0] == [];
    assert DigestOf([]) == Digest(None, None, None, 0, 0.0);
  }
}
