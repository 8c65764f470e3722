/** Fills and cancels at the broker keep the ledger invariant. */
module LedgerFills {
  import opened Models
  import opened PaperBrokers
  import opened Repos
  import opened Router
  import opened Reconciler
  import opened Ledger
  import opened LedgerTables
  import opened LedgerInvariant
  import opened LedgerBroker

  /** The broker finishes order i, for which lane k waits; the rest of its book stays inside the lane's symbol. */
  lemma OrderMoved(s: Scene, b': BrokerState, i: nat, o': Order, k: nat, l: Lane)
    requires Inv(s) && Sized(s) && i < |s.b.orders| && k < |s.d.positions|
    requires s.g.lane[i] == k && s.g.lanes[k].work == Some(i) && l.work == Some(i)
    requires b'.orders == s.b.orders[i := o'] && OnlySymbol(s.b, b', s.d.positions[k].symbol)
    requires o' == s.b.orders[i].(status := o'.status, fillPrice := o'.fillPrice, filledAt := o'.filledAt)
    requires BrokerOrderOK(s.cfg, o', i)
    requires LaneOK(s.cfg, b', s.d, l, k)
    requires b'.cash - s.b.cash == l.due - s.g.lanes[k].due
    requires BrokerKnown(s.(b := b'))
    ensures Inv(Moved(s, b', k, l))
  {
    hide LaneOK, BrokerOrderOK, Settled, Telescopes;
    var s' := Moved(s, b', k, l);
    LanesMoved(s, b', k, l);
    SumDueSet(s.g.lanes, k, l);
    assert WorkOK(s, k);
    forall m | 0 <= m < |s.b.orders| ensures LinkOK(s', m) { assert LinkOK(s, m); }
    forall j | 0 <= j < |s.d.orders| ensures RowOK(s', j) { assert RowOK(s, j); }
    forall m | 0 <= m < |s.d.positions| ensures WorkOK(s', m) { assert WorkOK(s, m); }
    forall cy | 0 <= cy < |s.d.cycles| ensures CycleOK(s', cy) { assert CycleOK(s, cy); }
    forall m | 0 <= m < |s.d.positions| ensures PointerOK(s', m) { assert PointerOK(s, m); }
  }

  /** An order working at the broker is the one its lane waits for. */
  lemma LaneOfOrder(s: Scene, i: nat) returns (k: nat)
    requires Inv(s) && Sized(s) && i < |s.b.orders| && Working(s.b.orders[i].status)
    ensures k == s.g.lane[i] && k < |s.d.positions| && s.g.lanes[k].work == Some(i)
    ensures BrokerOrderOK(s.cfg, s.b.orders[i], i) && s.b.orders[i].status.Pending?
    ensures LaneHolds(s, k) && s.b.orders[i].symbol == s.d.positions[k].symbol
    ensures s.b.orders[i].strategy == Some(s.d.positions[k].strategy)
  {
    assert LinkOK(s, i);
    k := s.g.lane[i];
    assert LaneHolds(s, k);
  }

  // ---- Cancels ----

  lemma LaneDropped(cfg: Config, l: Lane, v: View)
    requires StateOK(cfg, l, v) && LegsOK(cfg, l, v) && v.work.Some? && v.work.value.status.Pending?
    ensures var v' := v.(work := Some(v.work.value.(status := Cancelled)));
            StateOK(cfg, l, v') && LegsOK(cfg, l, v')
  {
  }

  lemma DropKeeps(s: Scene, i: nat)
    requires Inv(s)
    ensures Inv(s.(b := Cancel(s.b, i)))
  {
    hide Inv, StateOK, LegsOK, OrderShape;
    InvSized(s);
    var b' := Cancel(s.b, i);
    if i >= |s.b.orders| || !Working(s.b.orders[i].status) {
      assert s.(b := b') == s;
    } else {
      var k := LaneOfOrder(s, i);
      var l := s.g.lanes[k];
      var o' := s.b.orders[i].(status := Cancelled);
      var v := ViewOf(s.b, s.d, l, k);
      LaneDropped(s.cfg, l, v);
      assert ViewOf(b', s.d, l, k) == v.(work := Some(o'));
      ShapeKept(s.cfg, s.b.orders[i], o');
      assert BrokerKnown(s.(b := b')) by { InvParts(s); }
      OrderMoved(s, b', i, o', k, l);
      assert s.g.lanes[k := l] == s.g.lanes;
      assert Moved(s, b', k, l) == s.(b := b');
    }
  }

  /** The shape of an order does not depend on what broker and reconciler write later. */
  lemma ShapeKept(cfg: Config, o: Order, o': Order)
    requires o' == o.(status := o'.status, fillPrice := o'.fillPrice, filledAt := o'.filledAt)
    ensures OrderShape(cfg, o') == OrderShape(cfg, o)
  {
  }

  // ---- Package legs ----

  lemma {:induction false} LegKeys(options: map<Contract, Order>, o: Order, legs: seq<Leg>)
    requires forall l :: l in legs ==> l.action.SellToOpen? || l.action.BuyToOpen?
    ensures ApplyLegs(options, o, legs).Keys == options.Keys + (set l | l in legs :: l.contract)
  {
    if |legs| > 0 {
      var n := |legs| - 1;
      LegKeys(options, o, legs[..n]);
      assert legs == legs[..n] + [legs[n]];
      assert (set l | l in legs :: l.contract) == (set l | l in legs[..n] :: l.contract) + {legs[n].contract};
    }
  }

  /** After opening legs, each entry is an old one or a leg of this order. */
  lemma {:induction false} LegValues(options: map<Contract, Order>, o: Order, legs: seq<Leg>, c: Contract)
    requires forall l :: l in legs ==> l.action.SellToOpen? || l.action.BuyToOpen?
    requires c in ApplyLegs(options, o, legs)
    ensures var r := ApplyLegs(options, o, legs)[c];
            (c in options && r == options[c]) || (r.symbol == c.underlying && r.strategy == o.strategy)
  {
    if |legs| > 0 {
      var n := |legs| - 1;
      if legs[n].contract != c { LegValues(options, o, legs[..n], c); }
    }
  }

  lemma LegsOpened(options: map<Contract, Order>, o: Order, legs: seq<Leg>)
    requires forall l :: l in legs ==> l.action.SellToOpen? || l.action.BuyToOpen?
    ensures var r := ApplyLegs(options, o, legs);
            && r.Keys == options.Keys + (set l | l in legs :: l.contract)
            && (forall c :: c in r ==>
                  (c in options && r[c] == options[c]) || (r[c].symbol == c.underlying && r[c].strategy == o.strategy))
  {
    LegKeys(options, o, legs);
    forall c | c in ApplyLegs(options, o, legs)
      ensures var r := ApplyLegs(options, o, legs)[c];
              (c in options && r == options[c]) || (r.symbol == c.underlying && r.strategy == o.strategy)
    {
      LegValues(options, o, legs, c);
    }
  }

  lemma {:induction false} LegsClosed(options: map<Contract, Order>, o: Order, legs: seq<Leg>)
    requires forall l :: l in legs ==> l.action.SellToClose? || l.action.BuyToClose?
    ensures ApplyLegs(options, o, legs) == options - (set l | l in legs :: l.contract)
  {
    if |legs| > 0 {
      var n := |legs| - 1;
      LegsClosed(options, o, legs[..n]);
      assert legs == legs[..n] + [legs[n]];
      assert (set l | l in legs :: l.contract) == (set l | l in legs[..n] :: l.contract) + {legs[n].contract};
    }
  }

  // ---- Fills ----

  function FilledOrder(o: Order, price: real, now: int): Order {
    o.(status := Filled, fillPrice := Some(price), filledAt := Some(now))
  }

  /** The lane after its order fills: the fill is owed to the books. */
  function FilledLane(l: Lane, o: Order): Lane {
    var opening := IsOpening(o.orderType);
    l.(fate := if opening then l.fate else BoughtBack, due := l.due + Flow(o))
  }

  /** The symbol's legs after the fill. */
  function FilledLegs(legs: map<Contract, Order>, o: Order): map<Contract, Order> {
    match o.orderType
    case SellToOpen => if o.contract.Some? then legs[o.contract.value := o] else legs
    case BuyToClose => if o.contract.Some? then legs - {o.contract.value} else legs
    case MultiLegOpen => ApplyLegs(legs, o, o.legs)
    case MultiLegClose => ApplyLegs(legs, o, o.legs)
    case _ => legs
  }

  lemma LaneFilled(cfg: Config, l: Lane, v: View, o: Order, price: real, now: int)
    requires StateOK(cfg, l, v) && LegsOK(cfg, l, v)
    requires v.work == Some(o) && o.status.Pending? && OrderShape(cfg, o)
    requires o.symbol == v.p.symbol && o.strategy == Some(v.p.strategy)
    requires o.orderType.BuyToClose? ==> o.contract.value in v.legs
    requires o.orderType.MultiLegClose? ==> LegContracts(o) <= v.legs.Keys
    ensures var v' := v.(work := Some(FilledOrder(o, price, now)), legs := FilledLegs(v.legs, o));
            var l' := FilledLane(l, FilledOrder(o, price, now));
            StateOK(cfg, l', v') && LegsOK(cfg, l', v')
  {
    match o.orderType
    case MultiLegOpen =>
      LegsOpened(v.legs, o, o.legs);
      assert LegContracts(o) == set x | x in o.legs :: x.contract;
    case MultiLegClose =>
      LegsClosed(v.legs, o, o.legs);
      assert LegContracts(o) == set x | x in o.legs :: x.contract;
      assert o.legs[0].contract in LegContracts(o);
    case _ =>
  }

  /** What a fill does to the broker's book, symbol by symbol. */
  lemma {:induction false} LegsInside(b: BrokerState, o: Order, legs: seq<Leg>, x: string)
    requires forall l :: l in legs ==> l.contract.underlying == x
    ensures var b' := b.(options := ApplyLegs(b.options, o, legs));
            && LegMap(b', x) == ApplyLegs(LegMap(b, x), o, legs)
            && forall y :: y != x ==> LegMap(b', y) == LegMap(b, y)
  {
    if |legs| > 0 {
      var n := |legs| - 1;
      LegsInside(b, o, legs[..n], x);
    }
  }

  lemma FillRowCash(cfg: Config, b: BrokerState, i: nat, price: real, now: int)
    requires i < |b.orders| && Working(b.orders[i].status) && OrderShape(cfg, b.orders[i])
    ensures var o, b' := b.orders[i], Fill(b, i, price, now);
            && b'.orders == b.orders[i := FilledOrder(o, price, now)] && b'.stock == b.stock
            && b'.cash == b.cash + Flow(FilledOrder(o, price, now))
            && b'.options == if IsMultiLeg(o.orderType) then ApplyLegs(b.options, o, o.legs)
                             else if o.orderType.SellToOpen? then b.options[o.contract.value := o]
                             else b.options - {o.contract.value}
  {
    hide ApplyLegs;
    NegProduct(price, 100 * b.orders[i].quantity);
  }

  lemma FillBook(cfg: Config, b: BrokerState, i: nat, price: real, now: int)
    requires i < |b.orders| && Working(b.orders[i].status) && OrderShape(cfg, b.orders[i])
    ensures var o := b.orders[i];
            var b' := Fill(b, i, price, now);
            && b'.orders == b.orders[i := FilledOrder(o, price, now)] && b'.stock == b.stock
            && LegMap(b', o.symbol) == FilledLegs(LegMap(b, o.symbol), o)
            && (forall y :: y != o.symbol ==> LegMap(b', y) == LegMap(b, y))
            && b'.cash == b.cash + Flow(FilledOrder(o, price, now))
  {
    hide Fill, Flow, FilledOrder, ApplyLegs;
    var o := b.orders[i];
    var b' := Fill(b, i, price, now);
    FillRowCash(cfg, b, i, price, now);
    if IsMultiLeg(o.orderType) {
      LegsInside(b, o, o.legs, o.symbol);
      var b1 := b.(options := ApplyLegs(b.options, o, o.legs));
      assert forall y :: LegMap(b', y) == LegMap(b1, y);
    } else if o.orderType.SellToOpen? {
      assert LegMap(b', o.symbol) == LegMap(b, o.symbol)[o.contract.value := o];
    } else {
      assert LegMap(b', o.symbol) == LegMap(b, o.symbol) - {o.contract.value};
    }
  }

  lemma FillKnown(s: Scene, i: nat, price: real, now: int)
    requires BrokerKnown(s) && i < |s.b.orders| && Working(s.b.orders[i].status) && OrderShape(s.cfg, s.b.orders[i])
    requires KnownSymbol(s.d.positions, s.b.orders[i].symbol)
    ensures BrokerKnown(s.(b := Fill(s.b, i, price, now)))
  {
    var o := s.b.orders[i];
    if o.orderType.MultiLegOpen? {
      LegsOpened(s.b.options, o, o.legs);
    } else if o.orderType.MultiLegClose? {
      LegsClosed(s.b.options, o, o.legs);
    }
  }

  lemma FillKeeps(s: Scene, i: nat, price: real, now: int)
    requires Inv(s) && Fillable(s.b, i) && now > s.clock
    ensures exists k, l :: 0 <= k < |s.g.lanes| && Inv(Moved(s, Fill(s.b, i, price, now), k, l))
  {
    hide Inv, StateOK, LegsOK, BrokerKnown, Fill, Flow, FilledLegs;
    InvSized(s);
    var o := s.b.orders[i];
    var k := LaneOfOrder(s, i);
    var l := s.g.lanes[k];
    var v := ViewOf(s.b, s.d, l, k);
    var b' := Fill(s.b, i, price, now);
    var o' := FilledOrder(o, price, now);
    FillBook(s.cfg, s.b, i, price, now);
    LaneFilled(s.cfg, l, v, o, price, now);
    var l' := FilledLane(l, o');
    assert ViewOf(b', s.d, l', k) == v.(work := Some(o'), legs := FilledLegs(v.legs, o));
    ShapeKept(s.cfg, o, o');
    assert o.placedAt <= s.clock by {
      InvOrder(s, i);
      InvRow(s, s.g.row[i]);
    }
    assert BrokerKnown(s) by { InvParts(s); }
    FillKnown(s, i, price, now);
    OrderMoved(s, b', i, o', k, l');
  }
}
