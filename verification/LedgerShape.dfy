/** What the broker's reported rows say about a symbol is what its books hold. */
module LedgerShape {
  import opened Models
  import opened PaperBrokers
  import opened Repos
  import opened Reconciler
  import opened Ledger
  import opened LedgerTables
  import opened LedgerInvariant

  predicate HasLeg(legs: map<Contract, Order>, t: OptionType) {
    exists c :: c in legs && c.optionType == t
  }

  /** The shape read straight off the books. */
  function TrueShape(b: BrokerState, x: string): Shape {
    var legs, shares := LegMap(b, x), StockOf(b, x).0;
    Shape(HasLeg(legs, Put), HasLeg(legs, Call), shares > 0, shares > 0 || legs != map[])
  }

  /** The rows of one dict iteration. */
  ghost predicate Reported(b: BrokerState, rows: seq<BrokerRow>, ks: seq<string>, cs: seq<Contract>) {
    && rows == PositionRows(b, ks, cs)
    && Enumerates(ks, b.stock.Keys) && Enumerates(cs, b.options.Keys)
    && (forall c :: c in b.options ==> b.options[c].symbol == c.underlying)
    && (forall y :: y in b.stock ==> b.stock[y].0 > 0)
  }

  lemma LegRow(b: BrokerState, rows: seq<BrokerRow>, ks: seq<string>, cs: seq<Contract>, c: Contract) returns (i: nat)
    requires Reported(b, rows, ks, cs) && c in b.options
    ensures i < |rows|
    ensures rows[i] == BrokerRow(c.underlying, if c.optionType.Put? then CspOpen else CcOpen, 0)
  {
    var m :| 0 <= m < |cs| && cs[m] == c;
    i := |ks| + m;
    assert rows[i] == OptionRows(b, cs)[m];
  }

  lemma LegStates(b: BrokerState, rows: seq<BrokerRow>, ks: seq<string>, cs: seq<Contract>, x: string, t: OptionType)
    requires Reported(b, rows, ks, cs)
    ensures AnyRow(rows, x, if t.Put? then CspOpen else CcOpen) <==> HasLeg(LegMap(b, x), t)
  {
    var state := if t.Put? then CspOpen else CcOpen;
    if HasLeg(LegMap(b, x), t) {
      var c :| c in LegMap(b, x) && c.optionType == t;
      var i := LegRow(b, rows, ks, cs, c);
    }
    if AnyRow(rows, x, state) {
      var i :| 0 <= i < |rows| && rows[i].symbol == x && rows[i].state == state;
      RowOfLeg(b, rows, ks, cs, i);
      assert cs[i - |ks|] in LegMap(b, x);
    }
  }

  /** A short-leg row comes from the live leg at its place. */
  lemma RowOfLeg(b: BrokerState, rows: seq<BrokerRow>, ks: seq<string>, cs: seq<Contract>, i: nat)
    requires Reported(b, rows, ks, cs) && i < |rows| && (rows[i].state.CspOpen? || rows[i].state.CcOpen?)
    ensures |ks| <= i < |ks| + |cs|
    ensures var c := cs[i - |ks|];
            c in b.options && rows[i] == BrokerRow(c.underlying, if c.optionType.Put? then CspOpen else CcOpen, 0)
  {
    forall m | 0 <= m < |ks| ensures rows[m] == StockRow(b, ks[m]) {}
    assert i >= |ks|;
    assert rows[i] == OptionRow(b, cs[i - |ks|]);
  }

  lemma {:induction false} SharesOfOptions(b: BrokerState, cs: seq<Contract>, x: string)
    ensures SharesIn(OptionRows(b, cs), x) == 0 && StockIn(OptionRows(b, cs), x) == 0
  {
    if |cs| > 0 {
      var n := |cs| - 1;
      assert OptionRows(b, cs)[..n] == OptionRows(b, cs[..n]);
      SharesOfOptions(b, cs[..n], x);
    }
  }

  lemma {:induction false} SharesOfStocks(b: BrokerState, ks: seq<string>, x: string)
    requires forall i, j :: 0 <= i < j < |ks| ==> ks[i] != ks[j]
    ensures SharesIn(StockRows(b, ks), x) == (if x in ks then StockOf(b, x).0 else 0)
    ensures StockIn(StockRows(b, ks), x) == (if x in ks then StockOf(b, x).0 else 0)
  {
    if |ks| > 0 {
      var n := |ks| - 1;
      assert StockRows(b, ks)[..n] == StockRows(b, ks[..n]);
      SharesOfStocks(b, ks[..n], x);
      assert ks == ks[..n] + [ks[n]];
    }
  }

  lemma {:induction false} SharesConcat(a: seq<BrokerRow>, b: seq<BrokerRow>, x: string)
    ensures SharesIn(a + b, x) == SharesIn(a, x) + SharesIn(b, x)
    ensures StockIn(a + b, x) == StockIn(a, x) + StockIn(b, x)
  {
    if |b| == 0 {
      assert a + b == a;
    } else {
      var n := |b| - 1;
      assert (a + b)[..|a + b| - 1] == a + b[..n];
      SharesConcat(a, b[..n], x);
    }
  }

  lemma ReportedShares(b: BrokerState, rows: seq<BrokerRow>, ks: seq<string>, cs: seq<Contract>, x: string)
    requires Reported(b, rows, ks, cs)
    ensures SharesIn(rows, x) == StockOf(b, x).0 && StockIn(rows, x) == StockOf(b, x).0
  {
    SharesConcat(StockRows(b, ks), OptionRows(b, cs), x);
    SharesOfOptions(b, cs, x);
    SharesOfStocks(b, ks, x);
  }

  lemma StockStates(b: BrokerState, rows: seq<BrokerRow>, ks: seq<string>, cs: seq<Contract>, x: string)
    requires Reported(b, rows, ks, cs)
    ensures AnyRow(rows, x, SharesHeld) <==> StockOf(b, x).0 > 0
  {
    if AnyRow(rows, x, SharesHeld) {
      var i :| 0 <= i < |rows| && rows[i].symbol == x && rows[i].state == SharesHeld;
      assert i < |ks|;
      assert rows[i] == StockRow(b, ks[i]);
    }
    if StockOf(b, x).0 > 0 {
      var m :| 0 <= m < |ks| && ks[m] == x;
      assert rows[m] == StockRow(b, x);
    }
  }

  lemma PresentStates(b: BrokerState, rows: seq<BrokerRow>, ks: seq<string>, cs: seq<Contract>, x: string)
    requires Reported(b, rows, ks, cs)
    ensures Present(rows, x) <==> StockOf(b, x).0 > 0 || LegMap(b, x) != map[]
  {
    if Present(rows, x) {
      var i :| 0 <= i < |rows| && rows[i].symbol == x;
      if i < |ks| { assert rows[i] == StockRow(b, ks[i]); }
      else { assert rows[i] == OptionRow(b, cs[i - |ks|]); assert cs[i - |ks|] in LegMap(b, x); }
    }
    if StockOf(b, x).0 > 0 {
      var m :| 0 <= m < |ks| && ks[m] == x;
      assert rows[m] == StockRow(b, x);
    }
    if LegMap(b, x) != map[] {
      var c :| c in LegMap(b, x);
      var i := LegRow(b, rows, ks, cs, c);
    }
  }

  /** get_positions reports exactly the shape of every symbol. */
  lemma ReportedShape(b: BrokerState, rows: seq<BrokerRow>, ks: seq<string>, cs: seq<Contract>, x: string)
    requires Reported(b, rows, ks, cs)
    ensures ShapeOf(rows, x) == TrueShape(b, x)
  {
    hide Reported, AnyRow, Present, SharesIn, HasLeg, LegMap, StockOf;
    ReportedShares(b, rows, ks, cs, x);
    LegStates(b, rows, ks, cs, x, Put);
    LegStates(b, rows, ks, cs, x, Call);
    StockStates(b, rows, ks, cs, x);
    PresentStates(b, rows, ks, cs, x);
  }

  /** Every reported row's symbol is one the broker holds something on. */
  lemma ReportedSymbol(b: BrokerState, rows: seq<BrokerRow>, ks: seq<string>, cs: seq<Contract>, i: nat)
    requires Reported(b, rows, ks, cs) && i < |rows|
    ensures rows[i].symbol in b.stock || exists c :: c in b.options && c.underlying == rows[i].symbol
  {
    if i < |ks| { assert rows[i] == StockRow(b, ks[i]); }
    else { assert rows[i] == OptionRow(b, cs[i - |ks|]); assert cs[i - |ks|] in b.options; }
  }
}
