/** The in-memory paper broker (platforms/paper_broker.py): a cash balance, a share
    book, the live option legs and every order ever placed. Operations are given as
    functions on BrokerState; the class PaperBroker performs them in place. */
module PaperBrokers {
  import opened Models

  /** An order's broker id is its position in `orders`. */
  datatype BrokerState = BrokerState(
    cash: real,
    stock: map<string, (int, real)>,
    options: map<Contract, Order>,
    orders: seq<Order>)

  /** What get_positions reports: stock rows, then one row per live option leg. */
  datatype BrokerRow = BrokerRow(symbol: string, state: PositionState, shares: int)

  // ---- Orders ----

  function FindBrokerClient(orders: seq<Order>, cid: string): Option<nat> {
    if |orders| == 0 then None
    else
      var earlier := FindBrokerClient(orders[..|orders| - 1], cid);
      if earlier.Some? then earlier
      else if orders[|orders| - 1].clientId == Some(cid) then Some(|orders| - 1)
      else None
  }

  /** Both placement calls are idempotent on the client id and reject a non-positive
      quantity; the result is the stored order, or None for a rejection. */
  function Place(b: BrokerState, o: Order): (BrokerState, Option<Order>) {
    var prior := if o.clientId.Some? then FindBrokerClient(b.orders, o.clientId.value) else None;
    if prior.Some? && prior.value < |b.orders| then (b, Some(b.orders[prior.value]))
    else if o.quantity <= 0 then (b, None)
    else
      var stored := o.(brokerId := Some(|b.orders|), status := Pending);
      (b.(orders := b.orders + [stored]), Some(stored))
  }

  function Cancel(b: BrokerState, i: nat): BrokerState {
    if i < |b.orders| && Working(b.orders[i].status)
    then b.(orders := b.orders[i := b.orders[i].(status := Cancelled)])
    else b
  }

  function Stamp(o: Order): int {
    if o.filledAt.Some? then o.filledAt.value else o.placedAt
  }

  function OrdersSince(orders: seq<Order>, since: int): seq<Order> {
    if |orders| == 0 then []
    else
      var o := orders[|orders| - 1];
      OrdersSince(orders[..|orders| - 1], since) + if Stamp(o) >= since then [o] else []
  }

  // ---- Share book ----

  function StockOf(b: BrokerState, s: string): (int, real) {
    if s in b.stock then b.stock[s] else (0, 0.0)
  }

  /** The share-weighted average price: what the whole lot cost is unchanged. */
  function Blended(have: int, basis: real, shares: int, price: real): (r: real)
    requires have + shares != 0
    ensures r * (have + shares) as real == have as real * basis + shares as real * price
  {
    (have as real * basis + shares as real * price) / (have + shares) as real
  }

  function AddShares(b: BrokerState, s: string, shares: int, price: real): BrokerState {
    var (have, basis) := StockOf(b, s);
    var total := have + shares;
    if total == 0 then b.(stock := b.stock - {s})
    else b.(stock := b.stock[s := (total, Blended(have, basis, shares, price))])
  }

  function RemoveShares(b: BrokerState, s: string, shares: int): BrokerState {
    var (have, basis) := StockOf(b, s);
    if have - shares <= 0 then b.(stock := b.stock - {s})
    else b.(stock := b.stock[s := (have - shares, basis)])
  }

  // ---- Fills ----

  function ApplyFill(b: BrokerState, o: Order, price: real): BrokerState {
    var shares := 100 * o.quantity;
    match o.orderType
    case SellToOpen =>
      if o.contract.None? then b
      else b.(cash := b.cash + price * shares as real, options := b.options[o.contract.value := o])
    case BuyToClose =>
      if o.contract.None? then b
      else b.(cash := b.cash - price * shares as real, options := b.options - {o.contract.value})
    case BuyToOpen =>
      var paid := b.(cash := b.cash - price * o.quantity as real);
      if o.contract.Some? then paid.(options := b.options[o.contract.value := o])
      else AddShares(paid, o.symbol, o.quantity, price)
    case SellToClose =>
      var paid := b.(cash := b.cash + price * o.quantity as real);
      if o.contract.Some? then paid.(options := b.options - {o.contract.value})
      else RemoveShares(paid, o.symbol, o.quantity)
    case _ => b
  }

  /** The option position a filled leg leaves behind. */
  function LegOrder(o: Order, leg: Leg): Order {
    o.(symbol := leg.contract.underlying, orderType := leg.action, contract := Some(leg.contract),
       legs := [], quantity := leg.ratio * o.quantity, limitPrice := None, status := Filled, clientId := None)
  }

  function ApplyLegs(options: map<Contract, Order>, o: Order, legs: seq<Leg>): map<Contract, Order> {
    if |legs| == 0 then options
    else
      var before := ApplyLegs(options, o, legs[..|legs| - 1]);
      var leg := legs[|legs| - 1];
      if leg.action.SellToOpen? || leg.action.BuyToOpen? then before[leg.contract := LegOrder(o, leg)]
      else if leg.action.SellToClose? || leg.action.BuyToClose? then before - {leg.contract}
      else before
  }

  function MarkFilled(b: BrokerState, i: nat, price: real, now: int): BrokerState
    requires i < |b.orders|
  {
    b.(orders := b.orders[i := b.orders[i].(status := Filled, fillPrice := Some(price), filledAt := Some(now))])
  }

  /** fill_order on a single-leg order, fill_multi_leg on a package. */
  function Fill(b: BrokerState, i: nat, price: real, now: int): BrokerState
    requires i < |b.orders| && Working(b.orders[i].status)
  {
    var o := b.orders[i];
    var applied :=
      if IsMultiLeg(o.orderType)
      then b.(cash := b.cash + price * (100 * o.quantity) as real, options := ApplyLegs(b.options, o, o.legs))
      else ApplyFill(b, o, price);
    MarkFilled(applied, i, price, now)
  }

  // ---- Corporate actions ----

  function AtStrike(c: Contract, shares: int): real {
    c.strike * shares as real
  }

  /** Short put: shares delivered at the strike. Short call: shares taken at the strike. */
  function Assign(b: BrokerState, c: Contract): BrokerState
    requires c in b.options
  {
    var opener := b.options[c];
    var shares := 100 * opener.quantity;
    var moved :=
      if c.optionType.Put?
      then AddShares(b.(cash := b.cash - AtStrike(c, shares)), opener.symbol, shares, c.strike)
      else RemoveShares(b.(cash := b.cash + AtStrike(c, shares)), opener.symbol, shares);
    moved.(options := b.options - {c})
  }

  function Expire(b: BrokerState, c: Contract): BrokerState {
    b.(options := b.options - {c})
  }

  // ---- Reported positions ----

  /** `keys` lists a finite set, each element once: the iteration order of a dict. */
  ghost predicate Enumerates<T(!new)>(keys: seq<T>, all: set<T>) {
    && (forall i :: 0 <= i < |keys| ==> keys[i] in all)
    && (forall x :: x in all ==> x in keys)
    && (forall i, j :: 0 <= i < j < |keys| ==> keys[i] != keys[j])
  }

  function StockRow(b: BrokerState, s: string): BrokerRow {
    var shares := StockOf(b, s).0;
    BrokerRow(s, if shares != 0 then SharesHeld else Idle, shares)
  }

  function OptionRow(b: BrokerState, c: Contract): BrokerRow {
    BrokerRow(if c in b.options then b.options[c].symbol else c.underlying,
              if c.optionType.Put? then CspOpen else CcOpen, 0)
  }

  function StockRows(b: BrokerState, ks: seq<string>): seq<BrokerRow> {
    seq(|ks|, i requires 0 <= i < |ks| => StockRow(b, ks[i]))
  }

  function OptionRows(b: BrokerState, cs: seq<Contract>): seq<BrokerRow> {
    seq(|cs|, i requires 0 <= i < |cs| => OptionRow(b, cs[i]))
  }

  function PositionRows(b: BrokerState, ks: seq<string>, cs: seq<Contract>): seq<BrokerRow> {
    StockRows(b, ks) + OptionRows(b, cs)
  }
}
