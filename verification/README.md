# WheelBot: the ledger and its companions, verified

WheelBot sells cash-secured puts, covered calls, put spreads and diagonals, and keeps its own record of
what it holds: orders, positions, cycles and a state log. The broker keeps another. This project models
the code that keeps the two in agreement and proves that it does, over every run the system can make;
then it does the same for the watchlist guardrails, the back-test walks, the session kill switch and the
implied-volatility solver.

## How it is laid out

The first layer states what each operation does to values; the second runs it on objects, proved against
the first; the third reasons over whole runs.

- `Models`, `PaperBroker` (module `PaperBrokers`), `Repos`, `Router`, `Reconciler`: rows and enumerations,
  the paper broker, the queries, the router's writes and one reconciliation tick, as functions.
- `BrokerSim`, `Tables`, `RouterService`, `ReconcilerService`, `TradingSession`: the classes PaperBroker,
  Repositories, OrderRouter, Reconciler and a session that wires them. Their methods loop and update fields
  in place as the program does, and each `ensures` equates the new state with the function of the old one.
  The table below lists their loops and the session; the straight-line handlers carry the same contracts.
- `Ledger`: events and legal runs. `LedgerInvariant` and the other `Ledger...` files: the invariant and why
  every event keeps it. `LedgerTheorems`, `LedgerSlots` and `LedgerRoundTrip`: what every run guarantees.
  `LedgerWitness`: one legal run in full, from the first put to the shares called away.
- `Pmcc`, `PmccSpan`, `PmccTick`: the diagonal position against a broker with Alpaca-shaped rows, move by move
  and tick by tick.
- `CycleRecords`, `TickRecords`, `ParityAudit`, `Handovers`, `Queries`, `Proposals`: the same handlers on any tables,
  legal or not, each read off the rows it is given: what a fill writes into a cycle and what becomes of it, what a
  view leaves alone, what a tick logs, when the audit speaks, what ends with the operator, what the queries pick,
  what the router does with a proposal.
- `Slots`: the concurrency caps over any mix of strategies and any broker reports. `Resubmission`: the router's
  duplicate check over repeated proposals.
- `OrderStream`: showing the reconciler the same orders twice. `QuietTick`: what a tick finds nothing to do
  about. `RoundTrip`: placing, cancelling and one whole tick. `ManualFlags`: flagging and restoring.
  `Discrepancies` and `SilentCancel`: where the code does less than its documentation says.
- `Guardrails`, `GuardrailOutcome`, `Watchlists`, `WatchlistPipeline`: from a model's reply to the list a strategy
  trades.
- `SpreadPolicy`, `TradeWalk`, `Drawdown`: the back-test walks and reports. `SpreadExits` and `TradeExits` say what
  the two walks do in terms of debits, bars and levels alone.
- `KillSwitch`, `Greeks`: the session latch and the volatility bisection.

## What the ledger results rest on

A run is any finite sequence of events, at strictly increasing times, in any order: the router places an
order, or cancels a stale close; the broker fills, cancels, assigns or expires; the reconciler ticks; the
process restarts and forgets its cursor. The events are legal under these assumptions:

- one strategy per symbol; wheel and vertical or condor orders only (diagonals have their own development);
- an order is well formed, carries a client id not used before, and is proposed from its resting state; a covered
  call matches the shares held; a buyback or package close names the legs it closes;
- nothing else works on the symbol when an order goes out;
- the global slot cap is checked before placing;
- the broker answers a placement with PENDING, order statuses only move forward, and a closing order cannot
  fill once its legs are gone;
- spread legs are not assigned (the program hands that to a human);
- a tick sees one snapshot of the broker.

The third is an assumption only: the program does not provide it for every order. The pending states keep a second
entry from being proposed while one works (`Slots.EntryNotReproposed`), and `strategies/wheel_close.py:498-512`
looks for working orders. But closes of spreads and diagonals are proposed again on every tick without such a look
(`strategies/spreads.py:604-613`, `strategies/pmcc_close.py:241-266`), the router's duplicate check looks at the
row of the day's base id alone, and a close left over may still work when the next entry goes out.
`Resubmission.OneLeftExactly` says exactly when a resubmission leaves one order working,
`Resubmission.PremiseExactly` when the assumption holds of it, and `Resubmission.TwoClosesWork` gives the input
where it fails.

Within a run the reconciler may tick at any moment or not at all, so fills, assignments and expiries pile up
unseen in every combination. The invariant records, for each position, what the broker may have done since
the last look.

The diagonal development makes weaker demands: it is about one pair among arbitrary other rows, with or
without a row of its own to begin with, and its reconciler may be shown any selection of the pair's broker
orders, repeated or out of order. Where it speaks of whole ticks it asks that the other rows be at rest. It shares
the third assumption: one order of the pair works at a time.

The slot bound makes the weakest: any strategies, several on a symbol, any broker rows at all. Of the order
views it asks that they never put a settled order back to work and never show a bought-back short call filled
once its pair has gone flat; both are needed (`Slots.RevivedEntryGainsSlot`, `Slots.LateBuybackExact`). Orders
are submitted from resting states, and nothing else of the pair works then but closes of the same type, however
many have piled up.

## Findings

Where the code and its documentation part, the code is modelled and the exact condition proved:

- `platforms/paper_broker.py:405-419` books long options per contract, the P&L per share of 100
  (`Discrepancies.FillCashExact`).
- `execution/reconciler.py:1492` documents a per-share cost basis; it is one for single-contract cycles only
  (`Discrepancies.CostBasisExact`, `Discrepancies.TwoContractBasis`).
- A bought-back put leaves the cycle pointer set on an IDLE position (`Discrepancies.IdlePointer`,
  `Discrepancies.BuybackKeepsPointer`); the pointer then names a closed cycle
  (`LedgerTheorems.OpenCyclesCarried`).
- `core/broker.py:117-119` calls cancel a silent best effort while `core/broker.py:48-52` demands an error.
  With the silent one the fill of a closing order that raced the cancel is never booked by any later tick
  (`SilentCancel.SilentCancelLosesFill`). One kind of row does come back: the filled latest bought call of a
  diagonal's pending entry, which the sweep's self-heal finds (`SilentCancel.SweepBooksExactly`,
  `SilentCancel.EntryHeals`); the router's replacement never meets a working entry
  (`Slots.EntryNotReproposed`). The router is modelled with the raising contract.
- The paper broker reports long legs as short ones (`Discrepancies.BoughtCallReadsShort`), so there a diagonal's
  expired short is noticed exactly if no call at all is left on the symbol (`Discrepancies.PaperHidesExpiry`).
- The session latch keeps the day's first reason, so a stop file seen first keeps a later drawdown breach
  from latching (`KillSwitch.AutomaticTripLatches`, `KillSwitch.StopFileMasksDrawdown`).
- The trade engine's ATR look-up is shifted and then back-filled, so on the first daily row it reads the
  same day's value or a later one (`TradeWalk.AtrLookaheadExact`, `TradeWalk.BackfillLooksAhead`); and its
  guard `a is None or a <= 0` lets an ATR that is not a number through, to a trade without a stop: on a frame of
  one row (`TradeWalk.OneRowUnstopped`), and in general exactly as `TradeWalk.FrameStopExactly` says.
- After one stale replacement the base row is CANCELLED, so every later proposal of the same close that day is sent
  at once under another id (`execution/router.py:262-282`): n proposals leave n more orders working
  (`Resubmission.PilesUp`, `Resubmission.TwoClosesWork`). If several fill, only the first seen is booked
  (`Resubmission.CloseBookedExactly`, `Resubmission.OnlyFirstCloseBooked`).
- Nothing in the sweep looks for a diagonal's long call. If it expires, the pair keeps reading PMCC_BOTH_OPEN or
  PMCC_LONG_OPEN with its cycle open (`PmccTick.LongExpiryStrands`).

## Model

| member | source | states |
|---|---|---|
| `LedgerTheorems.BooksEqualBroker` | execution/reconciler.py:435-562 | after every tick of every legal run from an empty ledger, the cash the broker moved since the start equals the sum over all cycles of the signed flows of their tagged filled orders, synthetic stock legs included |
| `LedgerTheorems.ClosedCyclesExact` | execution/reconciler.py:1881-1923 | at any moment of any run a closed cycle's `final_pnl` is the sum of its own rows, however many rows were written since it closed |
| `LedgerTheorems.CalledAwayTelescopes` | execution/reconciler.py:1575-1640 | a called-away cycle bought exactly the shares it sold, and its P&L is (last call strike - put strike) on those shares plus its option premiums less buybacks, whatever calls it wrote, let expire or bought back |
| `LedgerTheorems.OpenCyclesCarried` | execution/reconciler.py:158-174 | every open cycle is pointed at by a position of its symbol in an exposure-bearing state, and a pointer left on an idle or closed-spread position names a closed cycle |
| `LedgerTheorems.MirrorAfterTick` | execution/reconciler.py:1189-1375 | after every tick each position's state and shares are those read off the broker alone (live legs, working entry order, stock), a closed spread possibly still reading SPREAD_CLOSED |
| `LedgerTheorems.TicksAreQuiet` | execution/reconciler.py:1054-1187 | in no legal run does a tick raise a manual flag, take a self-heal branch or trip the parity auditor |
| `LedgerTheorems.IncrementalEqualsFullScan` | execution/reconciler.py:248-264 | in every reachable world a tick with any cursor (none, stale, current) has the same tables and counters as one that is shown every order ever placed |
| `LedgerTheorems.FillLogExact` | execution/reconciler.py:366-433 | at any point of any run the rows handed to `_on_fill` so far are, without repetition, exactly the filled rows of real orders |
| `LedgerTheorems.FillsExactlyOnce` | execution/reconciler.py:330-433 | over any run ending in a tick, an order's row was handed to `_on_fill` exactly once if the broker filled it and never otherwise |
| `LedgerTheorems.SoundTickBooks` | execution/reconciler.py:244-277 | the cash equality for one tick from any state that satisfies the run invariant |
| `LedgerTheorems.BooksByRow` | execution/reconciler.py:1962-2022 | summing flows cycle by cycle or row by row is the same when every tag names a cycle |
| `LedgerTheorems.FlowsSplit` | execution/reconciler.py:1982-2021 | a cycle's P&L is its option and package cash plus its stock cash |
| `LedgerTheorems.PremiumsAreFills` | execution/reconciler.py:448 | after any legal run every cycle's premium, open or ended, is the fill price of its own filled opening row times a hundred times the contracts, whatever the limit was |
| `LedgerTheorems.BasisFromFill` | execution/reconciler.py:1484-1542 | after any legal run a position holding assigned shares has as cost basis the strike of its cycle's own filled put less a hundredth of what that put brought in, and a hundred shares a contract of it |
| `CycleRecords.FillStarts` | execution/reconciler.py:435-590 | on any tables, an order that starts a cycle and is seen filled starts one with its strike and with the dollars of the view's fill price: times a hundred times the contracts, negative and absolute for a bought option; the row's limit counts only when the view has no price, and zero when there is neither; the order is tagged and its pair points at the cycle; any other filled order starts none |
| `CycleRecords.HealStarts` | execution/reconciler.py:1759-1823 | the self-heal of a diagonal's entry records the same of the filled row it finds, a fill price of zero read as none |
| `CycleRecords.FillEnds` | execution/reconciler.py:463-562 | an order that ends a cycle and is seen filled closes the one its pair points at, now, at the flows of its rows, under the label of its family and the sign of that P&L; the pair goes flat and forgets the cycle unless a put was bought back |
| `CycleRecords.FillMoves` | execution/reconciler.py:493-691 | every other filled order: a call sold or bought back, of a wheel or a diagonal, moves its pair on within its cycle and is tagged with it; one of a type its strategy has no place for hands the pair to the operator; no cycle moves |
| `CycleRecords.ExpiryEnds` | execution/reconciler.py:1459-1482 | a put or package gone with nothing on its symbol closes its cycle as expired, by strategy, and leaves its row flat |
| `CycleRecords.CalledEnds` | execution/reconciler.py:1575-1640 | shares gone with their call are sold at the latest filled call's strike, the cycle closes with that sale among its flows, and the row goes flat, basis cleared |
| `CycleRecords.TickCarries` | execution/reconciler.py:1881-1923 | any tick on any tables only ends cycles or adds them: what a cycle recorded at its opening never changes, an ended one never changes at all, no loss carries a profit label that has a loss counterpart and no gain a loss label, and the summary counts each opening and ending |
| `CycleRecords.ActsCarry` | execution/reconciler.py:244-277 | the same over any sequence of submissions, replacements and ticks, legal or not |
| `CycleRecords.PremiumStays` | execution/reconciler.py:693-718 | so the premium a fill recorded, whatever the family, is there after any acts that follow |
| `TickRecords.ViewTouchesOwn` | execution/reconciler.py:330-402 | a broker view shows on the one order row it answers; beyond that row's tag, its pair's position row and the cycle that row points at, or one added, nothing moves; and if the row was settled or the order still works, nothing beyond the row |
| `TickRecords.TickLogged` | execution/reconciler.py:1825-1879 | any tick on any tables: no row changes state without a log entry, and every row is in the state its last entry says |
| `TickRecords.FlagExactly` | execution/reconciler.py:1642-1702 | a row already with the operator is left alone; otherwise its move is logged with where it came from and counted once, and a pair without a row gets one |
| `TickRecords.CancelExactly` | execution/reconciler.py:813-908 | a cancelled order with nothing executed puts its pair back where it came from if it is still in that order's pending state, logged and counted once; otherwise only the order row changes |
| `TickRecords.PendingExactly` | execution/reconciler.py:1251-1378 | a pending wheel or spread row waits while an order of its symbol works; then the broker's rows settle it, and a package gone without a trace is the operator's |
| `TickRecords.LegExactly` | platforms/paper_broker.py:316-341 | after a package fills, a contract's last leg decides: live on that side at ratio times quantity for the order's strategy, or gone |
| `TickRecords.OthersExactly` | platforms/paper_broker.py:316-341 | no contract the package does not name moves |
| `Handovers.CancelHandsOver` | execution/reconciler.py:404-433 | a working order seen cancelled or rejected leaves its pair in MANUAL_INTERVENTION exactly if contracts had executed (the row read PARTIAL, or the broker counts some but not all), or the pair was there before |
| `Handovers.StrangerHandsOver` | execution/reconciler.py:330-353 | a broker order no row answers to hands its symbol over |
| `Handovers.PutGone` | execution/reconciler.py:1208-1234 | a put gone while its symbol shows stock is an assignment, unless another row in use may own the shares; then the operator decides |
| `Handovers.TickHandsOver` | execution/reconciler.py:991-1052 | in any tick, what the order stream handed over stays so, every spread, condor or diagonal reading open while its symbol shows stock ends in MANUAL_INTERVENTION, and so does every broker symbol without a row |
| `ParityAudit.AuditSpeaks` | execution/reconciler.py:1054-1187 | on any tables the audit raises a parity flag if and only if it is enabled and an open cycle of the minimum age has a pair that is missing or in one of the seven abandoned states, or a row with shares is in none of the four holding and three operator states, or a known symbol's share totals differ; otherwise it changes nothing |
| `ParityAudit.AuditHandsOver` | execution/reconciler.py:1092-1187 | and the pair of each such cycle and row, and the first row of each such symbol, ends in MANUAL_INTERVENTION |
| `ParityAudit.NothingOverlooked` | execution/reconciler.py:1166-1180 | the symbols it walks are all those on which the totals could differ |
| `Queries.FirstCspExactly` | execution/reconciler.py:1925-1941 | the cycle's first put is the earliest placed filled short put |
| `Queries.LastCallExactly` | execution/reconciler.py:1943-1960 | its last call is the latest placed filled short call |
| `Queries.LatestCallExactly` | execution/reconciler.py:1740-1757 | the pair's latest call order of a type, whatever became of it |
| `Queries.OldestExactly` | db/repo.py:300-316 | the earliest placement among working rows |
| `Queries.SinceExactly` | execution/reconciler.py:248-264 | the order query starts at the cursor, or five seconds before an older working row |
| `Queries.OrdersSinceExactly` | platforms/paper_broker.py:248-255 | an order is among the answers exactly if it filled at or after the instant, or was placed then and has not filled |
| `Queries.FlowExactly` | execution/reconciler.py:1962-2022 | a filled row counts its price, sales in and purchases out, at a hundred units a contract and one a share; any other row counts nothing |
| `OrderStream.ProcessedOnce` | execution/reconciler.py:330-433 | on any tables, views of known and pairwise distinct orders shown a second time leave every row, position, cycle, log entry and counter as the first showing did |
| `OrderStream.ViewAbsorbs` | execution/reconciler.py:354-372 | after its own view a row has absorbed it, and what other rows had absorbed they keep |
| `LedgerWitness.WheelRuns` | execution/reconciler.py:1484-1640 | a concrete legal run (put sold, assigned, call sold, called away) ends with its cycle closed at 1300, which is also the cash gained |
| `Slots.SlotsBounded` | risk/limits.py:239-354 | over any interleaving of gated submissions (re-proposed closes piling up included), router cancels and ticks, for any mix of strategies on any symbols and whatever the broker reports, the live positions a cap counts (one strategy's, or all) never outnumber the larger of the cap and the starting count, plus the manual flags raised on the way |
| `Slots.LiveBounded` | risk/limits.py:298-354 | the same for the global count, positions neither IDLE nor SPREAD_CLOSED |
| `Slots.TickKeepsSlots` | execution/reconciler.py:244-277 | in one whole tick over any views and rows each live slot gained is a manual flag raised, and the slot invariant survives: one row a pair, no two orders working on a pair but closes of one type, and a working entry's pair still pending or with the operator |
| `Slots.SubmitKeeps` | execution/router.py:880-996 | a gated submission fills at most the slot the gate saw free and keeps that invariant |
| `Slots.LateBuybackExact` | execution/reconciler.py:541-562 | a filled view of a working call buyback keeps the count within the flags if and only if its pair is still live |
| `Slots.RevivedEntryGainsSlot` | execution/reconciler.py:354-372 | concretely, a cancelled entry that a view puts back to work and the next shows filled opens an ungated slot without a flag |
| `Slots.EntryNotReproposed` | execution/router.py:325-348 | while an entry works, no order of its pair rests in a state it is proposed from, so the stale replacement before a new submission never meets a working entry |
| `Resubmission.OneLeftExactly` | execution/router.py:243-323 | from tables with at most one working order on the pair, a resubmission leaves at most one if and only if it is skipped or rejected, or the base row is the working one, or the pair has no working order |
| `Resubmission.ResubmitCount` | execution/router.py:534-571 | how many working orders any resubmission leaves on its pair, from any number |
| `Resubmission.PremiseExactly` | execution/router.py:262-323 | nothing of the pair works when a resubmission goes out exactly if the base row was the only one working, or none was |
| `Resubmission.PilesUp` | execution/router.py:262-282 | once the base row is settled, n further proposals leave n more orders working, in the tables and at the broker |
| `Resubmission.TwoClosesWork` | execution/router.py:737-760 | a put-spread close proposed at 0, 20 and 21 with staleness 15: one cancelled, two working on both sides |
| `Resubmission.CloseBookedExactly` | execution/reconciler.py:463-492 | a filled package close is tagged to a cycle exactly if its pair still points at one |
| `Resubmission.OnlyFirstCloseBooked` | execution/reconciler.py:463-492 | seeing one such fill clears that pointer, so later fills of the same package are booked nowhere |
| `Proposals.ReplaceExactly` | execution/router.py:243-323 | an unused id proceeds; a settled row makes way for another id untouched; a working row younger than the limit holds the proposal back; an older one is cancelled on both sides, unless the broker no longer works it, and then nothing is touched |
| `Proposals.GateExactly` | risk/limits.py:298-354 | the gate opens exactly if there is no cap, or the pair has a live row, or fewer rows than the cap are live |
| `Proposals.SwingTrip` | execution/reconciler.py:720-797 | a swing from its first order to its last fill: SWING_PENDING, SWING_OPEN while held and while the sale works, IDLE; its cycle opens at what was paid and closes at a hundred times the contracts times the price gained |
| `LedgerSlots.CapHolds` | risk/limits.py:239-295 | in the ledger's own legal runs, where no tick flags, the bound has no surplus: never above the larger of the cap and the start |
| `LedgerSlots.LegalSlotsBounded` | risk/limits.py:298-354 | the same for the global cap, which legal placements always pass |
| `LedgerRuns.RunSound` | execution/router.py:392-574 | every legal run keeps the invariant that links orders, rows, positions, cycles and cash |
| `LedgerRuns.StepSound` | execution/reconciler.py:244-277 | each event (place, replace, fill, cancel, assign, expire, tick, restart) keeps that invariant |
| `LedgerTick.TickKeeps` | execution/reconciler.py:244-277 | one tick keeps the invariant, catches up with every broker order, resolves every position against the broker and stays quiet |
| `LedgerStream.ViewKeeps` | execution/reconciler.py:404-433 | absorbing one broker view keeps the invariant and hands on at most that order's row |
| `LedgerStream.ViewAbsorbed` | execution/reconciler.py:354-372 | a view of a settled order, or of one still working at the broker, changes nothing at all |
| `LedgerStream.ViewsCover` | db/repo.py:300-316 | from any cursor the look-back reaches every order whose fill or cancel is still unseen |
| `LedgerSweep.AssignedInv` | execution/reconciler.py:1484-1542 | booking an assignment (share leg, shares, state) keeps the invariant, cash included |
| `LedgerSweep.CalledInv` | execution/reconciler.py:1575-1640 | booking a called-away exit keeps the invariant and makes the closed cycle telescope |
| `LedgerSweep.ExpiredInv` | execution/reconciler.py:1459-1482 | a worthless expiry closes the cycle at its own flows and leaves the position flat |
| `LedgerSweep.CallExpiredInv` | execution/reconciler.py:1562-1573 | an expired covered call returns the position to its shares within the same open cycle |
| `LedgerRouter.PlaceKeeps` | execution/router.py:880-996 | a legal placement, made while nothing else works on its symbol, keeps the invariant |
| `LedgerRouter.ReplaceKeeps` | execution/router.py:295-323 | cancelling a stale close before re-pricing it keeps the invariant, whether or not the broker accepts the cancel |
| `LedgerFills.FillKeeps` | platforms/paper_broker.py:269-351 | a fill at the broker keeps the invariant before anyone has looked at it |
| `LedgerBroker.AssignKeeps` | platforms/paper_broker.py:353-371 | an assignment at the broker keeps the invariant before anyone has looked at it |
| `LedgerBroker.ExpireKeeps` | platforms/paper_broker.py:373-376 | an expiry at the broker keeps the invariant before anyone has looked at it |
| `PmccSpan.SpanExact` | execution/reconciler.py:592-691 | after any legal moves, the pair's first diagonal included, with broker updates lost, repeated or reordered at will, the cycles opened are one per long call bought; all but the latest are closed, each at what the broker's own fills of that holding earned; the latest is open and pointed at exactly until its long is sold; nothing else in the tables has moved |
| `PmccSpan.SpanIsSum` | execution/reconciler.py:603-605 | a holding's P&L is the dollars of the fills from its bought long to just before the next one: 100 x contracts x price, sales in, purchases out |
| `PmccTick.TicksMirror` | execution/reconciler.py:1382-1430 | one whole reconcile_once with any cursor, beside books with nothing outstanding, is one look at the run's own orders with the audit silent: no flag; an order of the symbol in flight exactly if the broker still works the latest; otherwise PMCC_BOTH_OPEN, PMCC_LONG_OPEN or IDLE exactly as the broker holds long and short, long only, or neither |
| `PmccSpan.LooksMirror` | execution/reconciler.py:1189-1206 | no look at any selection of the pair's orders ever flags it, and one that leaves nothing in flight leaves the same mirror |
| `PmccTick.LongExpiryStrands` | execution/reconciler.py:1382-1430 | when the long call itself expires with nothing in flight, any number of looks leave PMCC_BOTH_OPEN while a short lives and PMCC_LONG_OPEN otherwise, the cycle open and pointed at, and the legs not mirrored |
| `PmccSpan.MoveTracked` | execution/reconciler.py:813-908 | every move (submit, fill, cancel, stale buyback replaced, short expiry, look) keeps the PMCC invariant |
| `PmccSpan.ReplaceTracked` | execution/router.py:295-323 | cancelling a stale buyback on both sides, or leaving it when the broker refuses, keeps that invariant |
| `PmccSpan.FirstSubmit` | execution/router.py:900-996 | the first submission of a pair inserts the very row that a flat one would have become |
| `PmccSpan.AlpacaShape` | platforms/alpaca_broker.py:216-246 | with Alpaca-shaped rows the sweep sees a short call exactly when one is live, never shares |
| `PmccSpan.FillBooked` | execution/reconciler.py:693-716 | a PMCC fill adds its dollars to the open cycle, opens one on a bought long, and closes it on a sold one |
| `PmccSpan.HealedShort` | execution/reconciler.py:1740-1823 | after a cancelled short, the self-heal finds that order and not an older fill |
| `RoundTrip.PlaceCancelRestores` | execution/reconciler.py:813-918 | place any order at rest (wheel, spread, swing or PMCC), have the broker cancel it, run one whole reconcile_once with any cursor over paper or Alpaca rows, with nothing else outstanding: every position, cycle and broker holding is what it was (a spread entry lands in IDLE, a first entry leaves a flat row), only the cancelled order is new, and the counters show one cancel or one heal and nothing else |
| `LedgerRoundTrip.RoundTripFromAnyRun` | execution/reconciler.py:244-277 | after any legal run ending in a tick, any legal placement, its cancel and one more tick do the same with nothing assumed of the other rows |
| `QuietTick.TickIsTurn` | execution/reconciler.py:991-1052 | with every other row at rest and every reported symbol known, a whole tick is its order stream, one row's turn and the audit |
| `RoundTrip.CancelSpares` | execution/reconciler.py:830-835 | a cancel moves at most the position its order put in a pending state; operator-owned states never move |
| `Discrepancies.FillCashExact` | platforms/paper_broker.py:394-422 | a paper fill moves cash by what P&L books for it exactly unless it is a long option (or a short one without a contract) with price times quantity not zero |
| `Discrepancies.LongOptionCashDiffers` | platforms/paper_broker.py:405-413 | one long call at 60.00: the broker pays 60, the books record 6000 |
| `Discrepancies.CostBasisExact` | execution/reconciler.py:1492-1504 | the assigned cost basis is strike less premium per share exactly for one contract or a zero premium |
| `Discrepancies.TwoContractBasis` | execution/reconciler.py:1492-1504 | two contracts at 1.50 on strike 50: the basis recorded is 47.00, not 48.50 |
| `Discrepancies.IdlePointer` | execution/reconciler.py:551-562 | a fill leaves its position IDLE exactly for a put buyback or a sold long option; it clears the cycle pointer except for the buyback |
| `Discrepancies.BuybackKeepsPointer` | execution/reconciler.py:551-562 | one put bought back at 0.50: IDLE, still pointing at the cycle it closed |
| `SilentCancel.SilentCancelExact` | platforms/paper_broker.py:236-246 | with a silently returning cancel the local CANCELLED row is right exactly if the order had not filled or been rejected |
| `SilentCancel.SilentCancelMisleads` | platforms/paper_broker.py:236-246 | one buyback filled between two ticks: the row reads CANCELLED, the broker FILLED |
| `SilentCancel.SilentCancelLosesFill` | core/broker.py:48-52 | a closing order that had filled before a silent cancel is handed to the fill handler by no later tick and tagged to no cycle, over any number of ticks whatever else they see and whatever is written between them |
| `SilentCancel.SweepBooksExactly` | execution/reconciler.py:1759-1823 | a position's turn tags an untagged row exactly if it is the filled latest bought call of a PMCC_LONG_PENDING entry with nothing in flight |
| `SilentCancel.EntryHeals` | execution/reconciler.py:1759-1823 | so a diagonal's entry that was cancelled locally after filling does come back: the next view and turn open its cycle on that order |
| `Discrepancies.PaperRowExact` | platforms/paper_broker.py:106-119 | the paper broker's row for a leg matches the live adapter's exactly when the leg was sold to open |
| `Discrepancies.BoughtCallReadsShort` | platforms/paper_broker.py:106-119 | one bought call: the paper broker reports a covered-call row |
| `Discrepancies.PaperHidesExpiry` | execution/reconciler.py:1397-1415 | with its short gone, a diagonal's expiry is noticed (one expiry counted, back to the long) exactly if the paper broker holds no call at all on the symbol; otherwise the tick leaves the pair as it was |
| `BrokerSim.PaperBroker.FindClient` | platforms/paper_broker.py:145-151 | finds the first order with a client id, by a scan |
| `BrokerSim.PaperBroker.GetOrdersSince` | platforms/paper_broker.py:248-255 | returns exactly the orders stamped at or after the instant, in order |
| `BrokerSim.PaperBroker.FillMultiLeg` | platforms/paper_broker.py:287-351 | walks a package's legs in place; refuses a single-leg, unknown or settled order |
| `BrokerSim.PaperBroker.GetPositions` | platforms/paper_broker.py:84-120 | one row per holding, then one per leg, in whatever order the dictionaries yield |
| `PaperBrokers.Blended` | platforms/paper_broker.py:424-431 | the blended basis leaves the total cost of the lot unchanged |
| `Tables.Repositories.GetBySymbol` | db/repo.py:193-212 | the position of a symbol, and of a strategy if one is given |
| `Tables.Repositories.OldestPendingPlacedAt` | db/repo.py:300-316 | the earliest placement among working orders |
| `Tables.Repositories.HasInflightOrder` | execution/reconciler.py:1722-1738 | whether any order on the symbol is still working |
| `Tables.Repositories.SharesClaimed` | execution/reconciler.py:1704-1720 | whether another active position on the symbol holds or expects stock |
| `Tables.Repositories.CountLive` | risk/limits.py:320-324 | positions neither IDLE nor SPREAD_CLOSED |
| `Tables.Repositories.ComputeCyclePnl` | execution/reconciler.py:1962-2022 | one pass over the orders yields the sum of the cycle's flows |
| `Tables.Repositories.CycleCspQuantity` | execution/reconciler.py:1925-1941 | quantity of the cycle's earliest filled short put |
| `Tables.Repositories.CycleCcStrike` | execution/reconciler.py:1943-1960 | strike of the cycle's most recently placed filled short call |
| `Tables.Repositories.LatestCall` | execution/reconciler.py:1740-1757 | the strategy's most recently placed call order of a type |
| `RouterService.OrderRouter.CancelStalePendingOpens` | execution/router.py:325-390 | cancels at the broker every working order named by a PENDING entry row of the given age and counts them; an order named only by younger rows, closes or PARTIAL rows survives, and nothing else is touched |
| `ReconcilerService.Reconciler.ReconcileOnce` | execution/reconciler.py:244-277 | runs order phase, sweep and audit from the pulled-back cursor and leaves exactly the tick the specification describes |
| `ReconcilerService.Reconciler.ProcessOrders` | execution/reconciler.py:330-402 | absorbs the views one by one |
| `ReconcilerService.Reconciler.ReconcilePositions` | execution/reconciler.py:991-1052 | sweeps every row read at the start, then flags each unknown broker symbol once |
| `ReconcilerService.Reconciler.BrokerShape` | execution/reconciler.py:1196-1206 | the short-leg, share and presence flags of a symbol |
| `ReconcilerService.Reconciler.AuditCycleParity` | execution/reconciler.py:1054-1187 | flags orphaned cycles, stock in a non-share state and share totals that differ from the broker's |
| `TradingSession.Session.Tick` | execution/reconciler.py:244-277 | a tick of the wired objects keeps the run invariant, leaves cash moved equal to the books, and raises no flag, heal or audit finding |
| `TradingSession.Session.Submit` | execution/router.py:547-574 | a legal placement is the ledger's Place event and keeps the run invariant |
| `TradingSession.Session.ReplaceClose` | execution/router.py:295-323 | a stale close is cancelled as the ledger's Replace event, a young one left alone |
| `TradingSession.Session.Fill` | platforms/paper_broker.py:269-351 | a broker fill, single-leg or package, is the ledger's Fill event |
| `ManualFlags.RestorePosition` | risk/manual_flags.py:53-127 | a refusal writes nothing; a restore moves the one row to the flag's from-state or the explicit target and logs it |
| `ManualFlags.LatestFlagEntry` | risk/manual_flags.py:45-50 | the newest of the last hundred log rows that flagged the position |
| `ManualFlags.FlagThenRestore` | risk/manual_flags.py:9-13 | flagging a managed position and restoring it puts its row back exactly |
| `ManualFlags.RestoreExactly` | risk/manual_flags.py:53-98 | a restore to a state goes through exactly if the row is flagged, the state is not the flag, and it was asked for by name or is what the last flag among the position's hundred newest log rows came from |
| `Guardrails.EnforceGuardrails` | intelligence/universe_refresh.py:196-309 | for every reply, every known strategy gets a lawful diff: each member once, legitimate adds and drops only, exactly as many as caps and floor allow, ranked by score, kept members with the score the reply gave them |
| `Guardrails.LawfulOutcome` | intelligence/universe_refresh.py:207-211 | no protected member leaves, nothing ineligible enters, membership is old - drops + adds, and it never falls below the floor unless it was there |
| `GuardrailOutcome.BestSurvive` | intelligence/universe_refresh.py:285-306 | of any lawful outcome: a surviving add scored at least what any clamped one did, and an unscored one survives only if no scored one was clamped; a surviving drop scored at most what any clamped or reverted one did, unscored ones being reverted first |
| `GuardrailOutcome.NoMoreThanNeeded` | intelligence/universe_refresh.py:285-306 | an add is clamped only once the cap is used up, a drop held back only if its cap is used up or one more would break the floor, no drop survives below the floor, and every member not dropped is kept |
| `GuardrailOutcome.OnlyAsked` | intelligence/universe_refresh.py:257-283 | adds and drops are the reply's own legitimate rows, each symbol has one entry, and a kept member carries the score the reply gave it |
| `GuardrailOutcome.ProtectedStay` | intelligence/universe_refresh.py:207-211 | in terms of the run's inputs: a protected current member stays, only eligible outsiders enter |
| `GuardrailOutcome.RowMeans` | intelligence/universe_refresh.py:215-241 | each row comes from the last entry that names its symbol: add or drop exactly if its action spells that word in any case, keep otherwise, the score cut to between 0 and 100 |
| `Guardrails.UpperExactly` | intelligence/universe_refresh.py:227 | symbols are compared with the letters a to z raised, one by one |
| `GuardrailOutcome.NamedHasRow` | intelligence/universe_refresh.py:215-241 | and each symbol named has its row |
| `Guardrails.SaidIsLastWord` | intelligence/universe_refresh.py:215-241 | the rows collected from a reply are its last usable mention of each symbol |
| `Guardrails.Judge` | intelligence/universe_refresh.py:244-308 | one strategy's turn yields a lawful diff |
| `Guardrails.ClampDrops` | intelligence/universe_refresh.py:290-297 | drops past the churn cap become keeps |
| `Guardrails.HoldFloor` | intelligence/universe_refresh.py:299-306 | drops are reverted, least confident first, exactly while the floor is breached |
| `Guardrails.FillIn` | intelligence/universe_refresh.py:249-255 | members the reply omitted are kept |
| `Guardrails.Collect` | intelligence/universe_refresh.py:215-241 | rows by known strategy, malformed entries skipped |
| `Guardrails.Sift` | intelligence/universe_refresh.py:257-283 | adds, drops and keeps as classified |
| `Watchlists.WatchlistsRepo.ApplyRun` | db/repo.py:1151-1164 | afterwards this run is the one applied run, whatever was applied before |
| `Watchlists.WatchlistsRepo.AppliedMembership` | db/repo.py:1138-1149 | the applied run's non-drop symbols by strategy |
| `Watchlists.MembershipExact` | db/repo.py:1144-1149 | a strategy is in the map exactly if the run has a non-drop entry for it, with those symbols |
| `Watchlists.AppliedExactly` | db/repo.py:1117-1128 | the applied run looked up is the one created last, the later entered of two created together |
| `Watchlists.OverlayUniverse` | core/watchlists.py:24-72 | retags every listed ticker and synthesizes the unknown ones |
| `Watchlists.OverlayExact` | core/watchlists.py:27-30 | a refreshed strategy trades exactly its watchlist minus banned and tier-3 symbols |
| `Watchlists.TradesExactly` | core/watchlists.py:27-72 | symbol by symbol: traded exactly if its watchlist names it, no banned name is the same and no tier-3 ticker is |
| `Watchlists.OverlayUnmentioned` | core/watchlists.py:44-48 | a strategy the run does not mention keeps its list, in order |
| `Watchlists.UnknownOnce` | core/watchlists.py:50-66 | a symbol the universe file lacks gets a single entry, at tier 2 |
| `WatchlistPipeline.PipelineExact` | core/strategies.py:150-162 | reply to traded list: members - drops + adds - banned for a strategy with entries left, its universe-file list otherwise (not the list of the previously applied run), no protected member lost |
| `WatchlistPipeline.RefreshUniverse` | intelligence/universe_refresh.py:330-511 | the same over the running code, from the effective universe before to the one after |
| `WatchlistPipeline.RunRefresh` | intelligence/universe_refresh.py:471-511 | an unchanged run is closed as rejected, a changed one is stored and applied, older runs keep their status otherwise |
| `WatchlistPipeline.ProtectedExactly` | intelligence/universe_refresh.py:339-351 | a symbol is protected exactly if the strategy has a position in use on it or the operator pinned it |
| `WatchlistPipeline.StoreEntries` | intelligence/universe_refresh.py:488-496 | stores one entry per row and counts the changes |
| `WatchlistPipeline.StoredMembership` | db/repo.py:1138-1149 | the stored run's membership map is the guarded membership |
| `WatchlistPipeline.EffectiveUniverse` | core/watchlists.py:75-92 | the plain universe when nothing is applied, the overlay otherwise |
| `SpreadPolicy.WalkPolicy` | backtest/spread_policy.py:160-215 | the loop returns the outcome at the first exit |
| `SpreadPolicy.WalkIsFirstExit` | backtest/spread_policy.py:168-175 | a walk resolves at the first bar that exits and fails only if none does |
| `SpreadExits.WalkCloses` | backtest/spread_policy.py:155-215 | stated on debits, days left and the policy's fields: the spread is closed on the first bar after entry at or past expiration, or leaving at least the target share of the credit, or costing at least a positive multiple of it, or within the days of the early close, in that precedence, for the debit plus slippage (none at expiry); no such bar, no outcome |
| `SpreadExits.OnePrice` | backtest/spread_policy.py:106-116 | every bar has one closing price: the model's, at the last usable volatility since entry, or intrinsic value once no time is left |
| `SpreadExits.ReasonsPay` | backtest/spread_policy.py:176-214 | a profit exit earns at least its share of the credit less slippage, a stop exit lost at least the multiple, an early close is within its days, and an expiry is exactly at or past expiration |
| `SpreadExits.EntryExactly` | backtest/spread_policy.py:119-152 | a spread is sold exactly at the picked strikes when both are above zero and the credit survives slippage and the minimum share of the width |
| `SpreadExits.RunSells` | backtest/spread_policy.py:218-275 | over a whole run the trades are exactly the spreads that can be sold on the visited bars, each with every policy's own walk as its outcome |
| `SpreadExits.TotalsAre` | backtest/spread_policy.py:281-301 | total, winners' gain, number of winners and count by reason are sums and counts over the trades |
| `SpreadPolicy.StopExplains` | backtest/spread_policy.py:187-214 | for policies that differ only in a looser stop: same outcome unless the first was stopped out, and never an earlier exit |
| `SpreadPolicy.StopExplainsEverything` | backtest/spread_policy.py:304-328 | over a whole run the totals differ by exactly what the stopped-trade analysis reports |
| `SpreadPolicy.ResolvesExactly` | backtest/spread_policy.py:247-252 | with its expiration inside the data a walk resolves exactly when a bar follows the entry day |
| `SpreadPolicy.SameTradeSet` | backtest/spread_policy.py:237-240 | the trade set is the same for any two non-empty policy lists |
| `SpreadPolicy.PnlBounded` | backtest/spread_policy.py:190-214 | every P&L lies between the width lost plus slippage and the credit kept |
| `SpreadPolicy.IntrinsicBounded` | backtest/spread_policy.py:106-116 | expiry value lies between zero and the width |
| `SpreadPolicy.RunSymbol` | backtest/spread_policy.py:218-275 | fixed-cadence entries, each walked under every policy, unresolved trades dropped for all |
| `SpreadPolicy.ResolveAll` | backtest/spread_policy.py:266-272 | every policy's outcome, or none if one cannot resolve |
| `SpreadPolicy.Aggregate` | backtest/spread_policy.py:281-301 | win rate, average win, average loss, expectancy, total and worst are those of the winning and the other trades; the expectancy is the rate-weighted mean of the averages; each trade counts once under its reason |
| `SpreadPolicy.PairedStopAnalysis` | backtest/spread_policy.py:304-328 | the stop hurt exactly where the alternative earned more, helped on the other stopped trades, and the delta and its average are over exactly those |
| `TradeWalk.SimulateSpyTrades` | backtest/engine.py:196-282 | the nested loops compute the walk |
| `TradeExits.WalkTrades` | backtest/engine.py:213-282 | stated on bars: each trade is entered on the first bar after the last exit that enters, its stop at the configured prior-day level or the ATR multiple on the losing side, its target across the close at the reward multiple; it holds through every bar that touches neither, crosses, flips nor runs out, and ends on the first that does, stop (after the minimum hold) before target before cross before flip before clock, at the level or at the close |
| `TradeExits.TradedUnique` | backtest/engine.py:213-282 | bars, frame and settings leave one such list of trades, so the walk is exactly that |
| `TradeExits.LevelSides` | backtest/engine.py:228-238 | with a positive ATR multiple the stop lies strictly on the losing side and, with a positive reward, the target strictly on the winning side at that multiple of the distance |
| `TradeExits.StopsLoseTargetsWin` | backtest/engine.py:240-256 | so over a whole walk every stop exit is a loss and every target exit a gain |
| `TradeWalk.NoLookahead` | backtest/engine.py:3-16 | two bar series sharing their first k rows give the same trades among those closed by then for any reason but data end |
| `TradeWalk.OneAtATime` | backtest/engine.py:197-198 | trades never overlap, and every admissible signal is an entry or falls while a trade is held |
| `TradeWalk.AsofDailyDirection` | backtest/engine.py:108-122 | shifting the daily directions down a row and looking them up by date shows each bar the direction of the last row before its date, neutral if the date has no row |
| `TradeWalk.ShownRowBefore` | backtest/engine.py:108-122 | a bar dated by a row is shown the row before it; the first row's date, and a date without a row, show neutral |
| `TradeWalk.DirectionNoLookahead` | backtest/engine.py:108-122 | frames with the same rows before a day give a whole series of bars up to that day the same directions exactly if no bar falls on it, or it has a row in both or neither, or the last earlier row is neutral |
| `TradeWalk.StopExactly` | backtest/engine.py:220-238 | an admissible bar is planned with a stop, and with a target, exactly if its date's ATR is a number or the configured prior-day level lies on the right side of its close |
| `TradeWalk.FrameStopExactly` | backtest/engine.py:199-238 | read off the daily frame: exactly if the row before has an ATR, or some row from the date on but the last has one, or that configured level is on the right side |
| `TradeWalk.UnknownAtrUnstopped` | backtest/engine.py:213-282 | a bar admitted without a stop is traded, and over a whole walk every stop and target belongs to an entry that had one |
| `TradeWalk.OneRowUnstopped` | backtest/engine.py:199-201 | a frame of one row: its date has no ATR, and a long entered at 100 rides a fall to 1 |
| `TradeWalk.AtrLookaheadExact` | backtest/engine.py:199-201 | the back-filled ATR look-up sees only earlier rows exactly when the prior row has an ATR |
| `TradeWalk.AtrIsFirstKnown` | backtest/engine.py:199-201 | the ATR looked up is the first there is from the row before on, the last row's aside |
| `TradeWalk.BackfillLooksAhead` | backtest/engine.py:199-201 | concretely, two frames that differ in the second row alone give the first row different ATRs |
| `Drawdown.MaxDrawdown` | backtest/report.py:47-52 | the one-pass drawdown is the largest fall between any two points of the curve |
| `Drawdown.DrawdownUnique` | backtest/report.py:47-52 | there is only one such number |
| `Drawdown.CompoundEquity` | backtest/report.py:86-103 | ruin exactly when a prefix reaches zero or below; otherwise the final product and the largest relative fall |
| `KillSwitch.SessionLatch` | execution/kill_switch.py:123-134 | once the stored reason is automatic, every later completed check that day trips, and reason and opening equity never change |
| `KillSwitch.AutomaticTripLatches` | execution/kill_switch.py:123-134 | an automatic trip latches exactly when no reason was stored yet or the stored one is automatic |
| `KillSwitch.StopFileMasksDrawdown` | db/repo.py:582-583 | a stop file seen first keeps a later drawdown breach from latching |
| `KillSwitch.LossRuleExact` | execution/kill_switch.py:117-121 | the streak rule fires exactly when the last N closed cycles all lost |
| `KillSwitch.TripsExactly` | execution/kill_switch.py:86-134 | a check fails to complete exactly if the recorded opening equity is zero; otherwise it trips exactly if the stop file is there, or a hundred times the loss since the open exceeds the limit times the opening equity, or the last N closed cycles all lost, or the row is armed for a drawdown or a losing streak |
| `KillSwitch.CheckLeaves` | execution/kill_switch.py:136-150 | a completed check keeps the opening equity, arms the row if it trips, never replaces a stored reason, and writes down the length of the newest losing streak |
| `KillSwitch.PrimeLeaves` | execution/kill_switch.py:53-84 | priming records an equity only where none is known and touches nothing else |
| `KillSwitch.Switch.Check` | execution/kill_switch.py:86-167 | reads, judges, latches and persists as specified, for that day's row only |
| `KillSwitch.Switch.PrimeSession` | execution/kill_switch.py:53-84 | records the opening equity once |
| `KillSwitch.Switch.ConsecutiveLosses` | execution/kill_switch.py:169-185 | the length of the most recent losing streak within the look-back |
| `KillSwitch.DailyStateRepo.UpsertRow` | db/repo.py:564-593 | never overwrites a known equity with nothing, an armed flag or a first reason |
| `KillSwitch.DailyStateRepo.ClearKillSwitchLatch` | db/repo.py:595-607 | the one write that un-arms |
| `Greeks.ImpliedVolatility` | data/greeks.py:135-167 | refuses expired, non-positive and arbitrage-violating quotes; otherwise, for a price that does not fall on [0.0001, 5], the answer is priced within the tolerance, or lies within half the final bracket of a volatility that prices exactly if there is one, of the top if every price is too low, of the bottom if none is |
| `Greeks.BisectFinds` | data/greeks.py:146-167 | on any bracket where the price does not fall: if a volatility in it prices the target, the answer is within tolerance in price or within half the final bracket of such a volatility |
| `Greeks.HalvedExactly` | data/greeks.py:157-167 | the final bracket is the first divided by two to the number of halvings |
| `Greeks.BisectSaturates` | data/greeks.py:157-167 | if none does, the answer runs to the end of the bracket |

## Left out

- Network brokers, HTTP, SQLite, async scheduling and locks: tables are in-memory sequences, a row's id is its
  place in the table, and each placement or tick is one atomic step.
- Text: log lines, notifications, state-change reasons, rationales, raw requests and responses. Of a raw
  response only the filled quantity is kept.
- Client-id construction and hashing: client ids are inputs, fresh ones where a run demands it.
- LedgerRouter.PlaceKeeps: assumes that nothing else works on the symbol, which a re-proposed spread close need not
  meet; how far it is met, and what several filled closes book, is in Resubmission.
- Cycle columns that nothing here reads: capital at risk, P&L percentage, days held, order count.
- Row order: `ORDER BY symbol` in the sweep is table order here, ties in `placed_at` go to the earlier row (the
  later one nowhere), and dictionaries and sets are walked in an arbitrary order given as input.
- Letter case in the ledger: symbols are taken as upper-case already. The watchlist model upper-cases ASCII.
- The per-item exception isolation of the tick, and the roll-trigger scan, which only reads.
- Entry-window, news, earnings, sizing and regime gates, retries and dry runs in front of the router, and its
  limit prices: a rejected or skipped proposal writes nothing.
- Partial fills, assigned spreads, calendars and several strategies on one symbol beyond the branches that end
  in MANUAL_INTERVENTION; one-shot recovery and backfill scripts; the strategies themselves, whose proposals
  and signals are inputs.
- Floating point: money, prices and scores are exact reals. NaN is an absent value, which in the trade walk
  compares as false.
- Black-Scholes prices, realized volatility, strike selection and the ATR computation: arbitrary functions or
  input columns, with monotonicity or bounds assumed only where a lemma says so.
- The market scan, quantitative gate and prompt around the guardrails (their result is the set of eligible
  adds), guardrail notes, and the alphabetical order of entries and of synthesized tickers.
- Option structures priced along the trade walk, and the averages and tables of the reports.
- Number formatting in kill-switch reasons; the strategy auto-disable table.
- TradingSession.Session.Submit: takes the legality of the order as a precondition, because the gates that
  provide it are outside the model.
- PmccSpan.SpanExact: assumes that the long call does not itself expire (PmccTick.LongExpiryStrands is what happens
  then) and that one order of the pair works at a time.
- Slots.SlotsBounded: the operator's restore of a flagged position is not among its acts.
- LedgerSlots.CapHolds, LedgerSlots.LegalSlotsBounded: stated for the ledger's legal runs only; Slots.SlotsBounded
  is the bound for any mix of strategies.
