/** The tables the ledger lives in and the queries run on them (db/repo.py and the
    inline SQL of execution/reconciler.py). A row's id is its position in the table. */
module Repos {
  import opened Models

  datatype Db = Db(
    orders: seq<Order>,
    positions: seq<Position>,
    cycles: seq<Cycle>,
    log: seq<StateLog>)

  const EmptyDb := Db([], [], [], [])

  // ---- Look-ups ----

  function FindClient(rows: seq<Order>, cid: string): Option<nat> {
    if |rows| == 0 then None
    else
      var earlier := FindClient(rows[..|rows| - 1], cid);
      if earlier.Some? then earlier
      else if rows[|rows| - 1].clientId == Some(cid) then Some(|rows| - 1)
      else None
  }

  function FindBroker(rows: seq<Order>, bid: nat): Option<nat> {
    if |rows| == 0 then None
    else
      var earlier := FindBroker(rows[..|rows| - 1], bid);
      if earlier.Some? then earlier
      else if rows[|rows| - 1].brokerId == Some(bid) then Some(|rows| - 1)
      else None
  }

  predicate Matches(p: Position, symbol: string, strategy: Option<string>) {
    p.symbol == symbol && (strategy.Some? ==> p.strategy == strategy.value)
  }

  /** get_by_symbol: the first match; without a strategy any row of the symbol will do. */
  function FindPosition(ps: seq<Position>, symbol: string, strategy: Option<string>): Option<nat> {
    if |ps| == 0 then None
    else
      var earlier := FindPosition(ps[..|ps| - 1], symbol, strategy);
      if earlier.Some? then earlier
      else if Matches(ps[|ps| - 1], symbol, strategy) then Some(|ps| - 1)
      else None
  }

  /** The pair's row; a pair without one is flat. */
  function PairRow(d: Db, symbol: string, strategy: string): Position {
    var k := FindPosition(d.positions, symbol, Some(strategy));
    if k.Some? && k.value < |d.positions| then d.positions[k.value]
    else Position(symbol, strategy, Idle, 0, None, None)
  }

  function OldestPending(rows: seq<Order>): Option<int> {
    if |rows| == 0 then None
    else
      var earlier := OldestPending(rows[..|rows| - 1]);
      var r := rows[|rows| - 1];
      if !Working(r.status) then earlier
      else if earlier.Some? && earlier.value <= r.placedAt then earlier
      else Some(r.placedAt)
  }

  predicate HasInflight(rows: seq<Order>, symbol: string) {
    exists j :: 0 <= j < |rows| && rows[j].symbol == symbol && Working(rows[j].status)
  }

  // ---- Rows of one cycle ----

  /** `WHERE cycle_id = ?` */
  function Tagged(rows: seq<Order>, cy: nat): seq<Order> {
    if |rows| == 0 then []
    else
      var r := rows[|rows| - 1];
      Tagged(rows[..|rows| - 1], cy) + if r.cycle == Some(cy) then [r] else []
  }

  predicate IsCsp(r: Order) {
    r.orderType.SellToOpen? && IsPut(r) && r.status.Filled?
  }

  predicate IsCall(r: Order) {
    r.orderType.SellToOpen? && OptionTypeOf(r) == Some(Call) && r.status.Filled?
  }

  /** The earliest placed filled short put. */
  function FirstCsp(rows: seq<Order>): Option<Order> {
    if |rows| == 0 then None
    else
      var earlier := FirstCsp(rows[..|rows| - 1]);
      var r := rows[|rows| - 1];
      if !IsCsp(r) then earlier
      else if earlier.Some? && earlier.value.placedAt <= r.placedAt then earlier
      else Some(r)
  }

  /** The most recently placed filled short call. */
  function LastCall(rows: seq<Order>): Option<Order> {
    if |rows| == 0 then None
    else
      var earlier := LastCall(rows[..|rows| - 1]);
      var r := rows[|rows| - 1];
      if !IsCall(r) then earlier
      else if earlier.Some? && earlier.value.placedAt >= r.placedAt then earlier
      else Some(r)
  }

  function CspQuantity(d: Db, cy: Option<nat>): Option<int> {
    if cy.None? then None
    else
      var r := FirstCsp(Tagged(d.orders, cy.value));
      if r.None? then None else Some(r.value.quantity)
  }

  function CcStrike(d: Db, cy: Option<nat>): Option<real> {
    if cy.None? then None
    else
      var r := LastCall(Tagged(d.orders, cy.value));
      if r.None? || r.value.contract.None? then None else Some(r.value.contract.value.strike)
  }

  /** Options and packages trade 100 units a contract, stock legs one. */
  function Multiplier(r: Order): int {
    match r.orderType
    case MultiLegOpen | MultiLegClose | SellToOpen | BuyToClose => 100
    case BuyToOpen | SellToClose => if r.contract.Some? then 100 else 1
  }

  function Sign(t: OrderType): int {
    match t
    case BuyToClose | BuyToOpen => -1
    case _ => 1
  }

  /** The signed cash flow P&L books for a filled row. */
  function Flow(r: Order): real {
    if r.status.Filled? && r.fillPrice.Some?
    then r.fillPrice.value * (Sign(r.orderType) * Multiplier(r) * r.quantity) as real
    else 0.0
  }

  function FlowSum(rows: seq<Order>): real {
    if |rows| == 0 then 0.0 else FlowSum(rows[..|rows| - 1]) + Flow(rows[|rows| - 1])
  }

  function CyclePnl(d: Db, cy: nat): real {
    FlowSum(Tagged(d.orders, cy))
  }

  // ---- Active positions ----

  predicate ClaimsShares(p: Position) {
    p.shares > 0 || p.state.SharesHeld? || p.state.CcOpen? || p.state.CcPending? || p.state.Assigned?
  }

  predicate SharesClaimedByOther(ps: seq<Position>, symbol: string, k: nat) {
    exists j :: 0 <= j < |ps| && j != k && !ps[j].state.Idle? && ps[j].symbol == symbol && ClaimsShares(ps[j])
  }

  predicate Live(p: Position) {
    !p.state.Idle? && !p.state.SpreadClosed?
  }

  function LiveCount(ps: seq<Position>): nat {
    if |ps| == 0 then 0 else LiveCount(ps[..|ps| - 1]) + if Live(ps[|ps| - 1]) then 1 else 0
  }

  // ---- Writes ----

  function SetOrder(d: Db, j: nat, r: Order): Db
    requires j < |d.orders|
  {
    d.(orders := d.orders[j := r])
  }

  function InsertOrder(d: Db, r: Order): Db {
    d.(orders := d.orders + [r])
  }

  function SetPosition(d: Db, k: nat, p: Position): Db
    requires k < |d.positions|
  {
    d.(positions := d.positions[k := p])
  }

  function InsertPosition(d: Db, p: Position): Db {
    d.(positions := d.positions + [p])
  }

  function Log(d: Db, k: nat, was: Option<PositionState>, now: PositionState, at: int): Db {
    d.(log := d.log + [StateLog(k, was, now, ByReconciler, at)])
  }
}
