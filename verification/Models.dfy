/** The rows and enumerations shared by the broker, the repositories and the
    reconciler (core/models.py). Times are seconds on one clock; money is exact. */
module Models {

  datatype Option<+T> = None | Some(value: T)

  datatype OptionType = Put | Call

  /** An OCC contract symbol encodes exactly these four fields. */
  datatype Contract = Contract(underlying: string, expiry: int, optionType: OptionType, strike: real)

  datatype OrderType = SellToOpen | BuyToClose | BuyToOpen | SellToClose | MultiLegOpen | MultiLegClose

  datatype OrderStatus = Pending | Partial | Filled | Cancelled | Rejected

  datatype Leg = Leg(contract: Contract, action: OrderType, ratio: int)

  /** One order row. Strike and option type of a single-leg order are those of its
      contract; a stock leg and a multi-leg package have no contract.
      `filledQty` is the broker payload's own count of executed contracts. */
  datatype Order = Order(
    symbol: string,
    strategy: Option<string>,
    orderType: OrderType,
    contract: Option<Contract>,
    legs: seq<Leg>,
    quantity: int,
    limitPrice: Option<real>,
    fillPrice: Option<real>,
    status: OrderStatus,
    placedAt: int,
    filledAt: Option<int>,
    clientId: Option<string>,
    brokerId: Option<nat>,
    cycle: Option<nat>,
    filledQty: Option<real>,
    rollTrigger: bool)

  datatype PositionState =
    | Idle | Scanning
    | CspPending | CspOpen | RollEval | CspClosed | Assigned
    | SharesHeld | CcPending | CcOpen | CcClosed | CalledAway
    | SpreadPending | SpreadOpen | SpreadClosed | SpreadAssigned
    | PmccLongPending | PmccLongOpen | PmccShortPending | PmccBothOpen | PmccClosing
    | SwingPending | SwingOpen
    | BrokerDown | ManualIntervention | Killed

  datatype CycleOutcome =
    | CspExpired | CspClosedProfit | CspClosedLoss
    | CcClosedProfit | CcClosedLoss | CcCalledAway
    | SpreadExpiredProfit | SpreadClosedProfit | SpreadClosedLoss
    | IronCondorExpiredProfit | IronCondorClosedProfit | IronCondorClosedLoss
    | CalendarClosedProfit | CalendarClosedLoss | CalendarExpired
    | PmccLongRolled | PmccFullClosed
    | SwingClosed

  datatype Position = Position(
    symbol: string,
    strategy: string,
    state: PositionState,
    shares: int,
    costBasis: Option<real>,
    cycle: Option<nat>)

  datatype Cycle = Cycle(
    symbol: string,
    strategy: Option<string>,
    startedAt: int,
    endedAt: Option<int>,
    strike: Option<real>,
    premium: Option<real>,
    finalPnl: Option<real>,
    outcome: Option<CycleOutcome>)

  datatype Trigger = ByReconciler | ByManual

  datatype StateLog = StateLog(
    position: nat,
    fromState: Option<PositionState>,
    toState: PositionState,
    trigger: Trigger,
    createdAt: int)

  predicate Working(s: OrderStatus) {
    s.Pending? || s.Partial?
  }

  /** The row's `option_type` column: absent for stock legs and packages. */
  function OptionTypeOf(o: Order): Option<OptionType> {
    if o.contract.Some? then Some(o.contract.value.optionType) else None
  }

  predicate IsPut(o: Order) {
    OptionTypeOf(o) == Some(Put)
  }

  predicate IsMultiLeg(t: OrderType) {
    t.MultiLegOpen? || t.MultiLegClose?
  }

  predicate IsOpening(t: OrderType) {
    t.SellToOpen? || t.BuyToOpen? || t.MultiLegOpen?
  }

  /** Configuration the ledger reads: the ids of swing- and spread-type strategies,
      the parity audit's switch and minimum age, and the global slot cap. */
  datatype Config = Config(
    swing: set<string>,
    spreads: set<string>,
    parityEnabled: bool,
    parityMinAge: int,
    maxConcurrentTotal: Option<int>)
}
