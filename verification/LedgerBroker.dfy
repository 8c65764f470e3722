/** The broker's moves keep the ledger invariant. */
module LedgerBroker {
  import opened Models
  import opened PaperBrokers
  import opened Repos
  import opened Router
  import opened Reconciler
  import opened Ledger
  import opened LedgerTables
  import opened LedgerInvariant

  /** Lane k replaced, the broker's book moved. */
  function Moved(s: Scene, b: BrokerState, k: nat, l: Lane): Scene
    requires k < |s.g.lanes|
  {
    s.(b := b, g := s.g.(lanes := s.g.lanes[k := l]))
  }

  /** A move inside one symbol's book at the broker, order statuses aside. */
  ghost predicate OnlySymbol(b: BrokerState, b': BrokerState, x: string) {
    && |b'.orders| == |b.orders|
    && (forall y :: y != x ==> StockOf(b', y) == StockOf(b, y) && LegMap(b', y) == LegMap(b, y))
    && (forall i :: 0 <= i < |b.orders| && b.orders[i].symbol != x ==> b'.orders[i] == b.orders[i])
  }

  lemma LanesMoved(s: Scene, b': BrokerState, k: nat, l: Lane)
    requires Sized(s) && Lanes(s) && Works(s) && Links(s) && k < |s.d.positions|
    requires OnlySymbol(s.b, b', s.d.positions[k].symbol) && LaneOK(s.cfg, b', s.d, l, k)
    ensures Lanes(Moved(s, b', k, l))
  {
    hide StateOK, LegsOK, StockOf, LegMap, BrokerOrderOK, SameOrder, Settled;
    var s' := Moved(s, b', k, l);
    forall m | 0 <= m < |s.d.positions| ensures LaneHolds(s', m) {
      assert LaneHolds(s, m) && WorkOK(s, m);
      if m != k {
        var lane := s.g.lanes[m];
        OtherSymbol(s.d.positions, m, k);
        if lane.work.Some? { assert LinkOK(s, lane.work.value); }
        assert ViewOf(b', s.d, lane, m) == ViewOf(s.b, s.d, lane, m);
      }
    }
  }

  /** A leg leaves: the other symbols' legs stay. */
  lemma LegRemoved(b: BrokerState, c: Contract)
    ensures forall y :: y != c.underlying ==> LegMap(b.(options := b.options - {c}), y) == LegMap(b, y)
    ensures LegMap(b.(options := b.options - {c}), c.underlying) == LegMap(b, c.underlying) - {c}
  {
  }

  /** Book moves that leave every order as it was. */
  lemma BookMoved(s: Scene, b': BrokerState, k: nat, l: Lane)
    requires Inv(s) && Sized(s) && k < |s.d.positions|
    requires b'.orders == s.b.orders && OnlySymbol(s.b, b', s.d.positions[k].symbol)
    requires LaneOK(s.cfg, b', s.d, l, k) && l.work == s.g.lanes[k].work
    requires b'.cash - s.b.cash == l.due - s.g.lanes[k].due
    requires BrokerKnown(s.(b := b'))
    ensures Inv(Moved(s, b', k, l))
  {
    hide LaneOK, BrokerOrderOK, SameOrder, Settled, Telescopes;
    var s' := Moved(s, b', k, l);
    LanesMoved(s, b', k, l);
    SumDueSet(s.g.lanes, k, l);
    forall i | 0 <= i < |s.b.orders| ensures LinkOK(s', i) { assert LinkOK(s, i); }
    forall j | 0 <= j < |s.d.orders| ensures RowOK(s', j) { assert RowOK(s, j); }
    forall m | 0 <= m < |s.d.positions| ensures WorkOK(s', m) { assert WorkOK(s, m); }
    forall cy | 0 <= cy < |s.d.cycles| ensures CycleOK(s', cy) { assert CycleOK(s, cy); }
    forall m | 0 <= m < |s.d.positions| ensures PointerOK(s', m) { assert PointerOK(s, m); }
  }

  lemma LaneExpires(cfg: Config, l: Lane, v: View, c: Contract)
    requires StateOK(cfg, l, v) && LegsOK(cfg, l, v) && c in v.legs
    ensures l.fate.Resting?
    ensures StateOK(cfg, l, v.(legs := v.legs - {c})) && LegsOK(cfg, l, v.(legs := v.legs - {c}))
  {
  }

  lemma LaneOfLeg(s: Scene, c: Contract) returns (k: nat)
    requires Inv(s) && Sized(s) && c in s.b.options
    ensures k < |s.d.positions| && s.d.positions[k].symbol == c.underlying && s.b.options[c].symbol == c.underlying
    ensures LaneHolds(s, k) && c in ViewOf(s.b, s.d, s.g.lanes[k], k).legs
  {
    k :| 0 <= k < |s.d.positions| && s.d.positions[k].symbol == c.underlying;
  }

  lemma LegGone(s: Scene, c: Contract)
    requires Inv(s)
    ensures BrokerKnown(s.(b := s.b.(options := s.b.options - {c})))
  {
  }

  lemma ExpireKeeps(s: Scene, c: Contract)
    requires Inv(s)
    ensures Inv(s.(b := Expire(s.b, c)))
  {
    hide Inv, StateOK, LegsOK;
    InvSized(s);
    var b' := Expire(s.b, c);
    if c !in s.b.options {
      assert b'.options == s.b.options;
      assert b' == s.b;
    } else {
      var k := LaneOfLeg(s, c);
      var l := s.g.lanes[k];
      var v := ViewOf(s.b, s.d, l, k);
      LegRemoved(s.b, c);
      LaneExpires(s.cfg, l, v, c);
      assert ViewOf(b', s.d, l, k) == v.(legs := v.legs - {c});
      LegGone(s, c);
      BookMoved(s, b', k, l);
      assert s.g.lanes[k := l] == s.g.lanes;
      assert Moved(s, b', k, l) == s.(b := b');
    }
  }

  // ---- Assignment ----

  lemma NegProduct(x: real, n: int)
    ensures x * (-n) as real == -(x * n as real)
  {
  }

  /** The lane after its leg is assigned. */
  function DeliveredLane(l: Lane): Lane {
    l.(fate := Delivered, due := l.due + if l.leg.optionType.Put? then PutDelivery(l) else CallDelivery(l))
  }

  lemma LaneAssigned(cfg: Config, l: Lane, v: View, c: Contract)
    requires StateOK(cfg, l, v) && LegsOK(cfg, l, v) && c in v.legs && v.p.strategy !in cfg.spreads
    ensures c == l.leg && l.qty > 0 && v.legs[c].quantity == l.qty && v.legs - {c} == map[]
    ensures var v' := v.(legs := map[], shares := if c.optionType.Put? then 100 * l.qty else 0);
            StateOK(cfg, DeliveredLane(l), v') && LegsOK(cfg, DeliveredLane(l), v')
    ensures v.shares == if c.optionType.Put? then 0 else 100 * l.qty
  {
  }

  lemma AssignBook(b: BrokerState, c: Contract)
    requires c in b.options && b.options[c].symbol == c.underlying && b.options[c].quantity > 0
    requires StockOf(b, c.underlying).0 == if c.optionType.Put? then 0 else 100 * b.options[c].quantity
    ensures var b' := Assign(b, c);
            && OnlySymbol(b, b', c.underlying) && b'.orders == b.orders && b'.options == b.options - {c}
            && StockOf(b', c.underlying).0 == (if c.optionType.Put? then 100 * b.options[c].quantity else 0)
            && b'.stock.Keys <= b.stock.Keys + {c.underlying}
            && (c.underlying in b'.stock ==> b'.stock[c.underlying].0 > 0)
            && (forall y :: y in b'.stock && y != c.underlying ==> y in b.stock && b'.stock[y] == b.stock[y])
            && b'.cash == b.cash + c.strike * (if c.optionType.Put? then -(100 * b.options[c].quantity)
                                               else 100 * b.options[c].quantity) as real
  {
    LegRemoved(b, c);
    NegProduct(c.strike, 100 * b.options[c].quantity);
    var b' := Assign(b, c);
    forall y | y != c.underlying ensures LegMap(b', y) == LegMap(b, y) {
      assert LegMap(b', y) == LegMap(b.(options := b.options - {c}), y);
    }
  }

  lemma AssignKnown(s: Scene, b': BrokerState, x: string)
    requires BrokerKnown(s) && KnownSymbol(s.d.positions, x)
    requires b'.options.Keys <= s.b.options.Keys && forall c :: c in b'.options ==> b'.options[c] == s.b.options[c]
    requires b'.stock.Keys <= s.b.stock.Keys + {x} && (x in b'.stock ==> b'.stock[x].0 > 0)
    requires forall y :: y in b'.stock && y != x ==> y in s.b.stock && b'.stock[y] == s.b.stock[y]
    ensures BrokerKnown(s.(b := b'))
  {
  }

  lemma AssignKeeps(s: Scene, c: Contract)
    requires Inv(s) && c in s.b.options
    requires s.b.options[c].strategy.Some? && s.b.options[c].strategy.value !in s.cfg.spreads
    ensures exists k, l :: 0 <= k < |s.g.lanes| && Inv(Moved(s, Assign(s.b, c), k, l))
  {
    hide Inv, StateOK, BrokerKnown, Assign;
    InvSized(s);
    var b' := Assign(s.b, c);
    var k := LaneOfLeg(s, c);
    var l := s.g.lanes[k];
    var v := ViewOf(s.b, s.d, l, k);
    LaneAssigned(s.cfg, l, v, c);
    AssignBook(s.b, c);
    LegRemoved(s.b, c);
    var l' := DeliveredLane(l);
    var v' := v.(legs := map[], shares := if c.optionType.Put? then 100 * l.qty else 0);
    assert LegMap(b', c.underlying) == map[];
    assert ViewOf(b', s.d, l', k) == v';
    assert BrokerKnown(s) by { InvParts(s); }
    AssignKnown(s, b', c.underlying);
    BookMoved(s, b', k, l');
  }

  lemma InvParts(s: Scene)
    requires Inv(s)
    ensures Sized(s) && Links(s) && Rows(s) && Works(s) && Lanes(s) && Cycles(s) && Pointers(s) && BrokerKnown(s)
    ensures CashOK(s)
  {
  }
}
