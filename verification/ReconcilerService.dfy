/** The reconciler as it runs (execution/reconciler.py): an object that walks the broker's orders and
    positions, rewriting table rows and its tick counters as it goes. Each handler is proved to make
    exactly the step its function in module Reconciler describes. */
module ReconcilerService {
  import opened Models
  import opened PaperBrokers
  import opened Repos
  import opened BrokerSim
  import opened Tables
  import Spec = Reconciler

  class Reconciler {
    const cfg: Config
    const broker: PaperBroker
    const db: Repositories
    var cursor: Option<int>
    var sum: Spec.Summary

    ghost function Now(): Spec.Tick
      reads this, db
    {
      Spec.Tick(db.View(), sum)
    }

    constructor (cfg: Config, broker: PaperBroker, db: Repositories)
      ensures this.cfg == cfg && this.broker == broker && this.db == db && cursor.None? && sum == Spec.ZeroSummary
    {
      this.cfg, this.broker, this.db, cursor, sum := cfg, broker, db, None, Spec.ZeroSummary;
    }

    // ---- Shared writes ----

    method SetPositionState(at: Option<nat>, symbol: string, state: PositionState, cycle: Option<nat>,
                            strategy: Option<string>, now: int)
      modifies db
      ensures Now() == Spec.SetState(old(Now()), at, symbol, state, cycle, strategy, now)
    {
      if at.Some? && at.value < |db.positions| {
        var p := db.positions[at.value];
        MoveRow(at.value, p.(state := state, cycle := if cycle.Some? then cycle else p.cycle), Some(p.state), now);
      } else {
        AddRow(Position(symbol, if strategy.Some? then strategy.value else "monthly_wheel", state, 0, None, cycle),
               now);
      }
    }

    method MoveRow(k: nat, p: Position, was: Option<PositionState>, now: int)
      requires k < |db.positions|
      modifies db
      ensures db.View() == Log(SetPosition(old(db.View()), k, p), k, was, p.state, now)
    {
      db.UpdatePositionRow(k, p);
      db.AppendLog(k, was, p.state, now);
    }

    method AddRow(p: Position, now: int)
      modifies db
      ensures db.View() == Log(InsertPosition(old(db.View()), p), |old(db.positions)|, None, p.state, now)
    {
      var id := |db.positions|;
      db.InsertPositionRow(p);
      db.AppendLog(id, None, p.state, now);
    }

    method FlagManualIntervention(symbol: string, strategy: Option<string>, now: int)
      modifies this`sum, db
      ensures Now() == Spec.FlagManual(old(Now()), symbol, strategy, now)
    {
      var at := db.GetBySymbol(symbol, strategy);
      if at.Some? && db.positions[at.value].state.ManualIntervention? { return; }
      SetPositionState(at, symbol, ManualIntervention, None, strategy, now);
      sum := sum.(manual := sum.manual + 1);
    }

    method TagOrder(j: nat, cy: nat)
      modifies db
      ensures Now() == Spec.TagOrder(old(Now()), j, cy)
    {
      if j < |db.orders| { db.UpdateOrderRow(j, db.orders[j].(cycle := Some(cy))); }
    }

    method TagUnlessTagged(j: nat, o: Order, cycle: Option<nat>)
      modifies db
      ensures Now() == Spec.TagClose(old(Now()), j, o, cycle)
    {
      if cycle.Some? && o.cycle.None? { TagOrder(j, cycle.value); }
    }

    method ClearCycle(at: Option<nat>)
      modifies db
      ensures Now() == Spec.ClearCycle(old(Now()), at)
    {
      if at.Some? && at.value < |db.positions| {
        db.UpdatePositionRow(at.value, db.positions[at.value].(cycle := None));
      }
    }

    /** _close_cycle: idempotent, and a losing cycle never keeps a profit label. */
    method CloseCycle(cy: nat, outcome: CycleOutcome, now: int)
      modifies this`sum, db
      ensures Now() == Spec.CloseCycle(old(Now()), cy, outcome, now)
    {
      if cy >= |db.cycles| || db.cycles[cy].endedAt.Some? { return; }
      var pnl := db.ComputeCyclePnl(cy);
      var c := db.cycles[cy].(endedAt := Some(now), finalPnl := Some(pnl), outcome := Some(Spec.Honest(outcome, pnl)));
      db.UpdateCycleRow(cy, c);
      sum := sum.(cyclesClosed := sum.cyclesClosed + 1);
    }

    method OpenCycle(o: Order, strike: Option<real>, premium: real, now: int) returns (cy: nat)
      modifies this`sum, db
      ensures Now() == Spec.OpenCycle(old(Now()), o, strike, premium, now) && cy == |old(db.cycles)|
    {
      cy := |db.cycles|;
      db.InsertCycleRow(Cycle(o.symbol, o.strategy, now, None, strike, Some(premium), None, None));
      sum := sum.(cyclesOpened := sum.cyclesOpened + 1);
    }

    method OpenOnFill(at: Option<nat>, j: nat, o: Order, strike: Option<real>, premium: real,
                      state: PositionState, strategy: Option<string>, now: int)
      modifies this`sum, db
      ensures Now() == Spec.OpenOnFill(old(Now()), at, j, o, strike, premium, state, strategy, now)
    {
      var cy := OpenCycle(o, strike, premium, now);
      SetPositionState(at, o.symbol, state, Some(cy), strategy, now);
      TagOrder(j, cy);
    }

    method CurrentCycle(at: Option<nat>) returns (cycle: Option<nat>)
      ensures cycle == Spec.PointerOf(Now(), at)
    {
      cycle := if at.Some? && at.value < |db.positions| then db.positions[at.value].cycle else None;
    }

    method EndOnFill(at: Option<nat>, j: nat, o: Order, state: PositionState, outcome: CycleOutcome, now: int)
      modifies this`sum, db
      ensures Now() == Spec.EndOnFill(old(Now()), at, j, o, state, outcome, now)
    {
      var cycle := CurrentCycle(at);
      TagUnlessTagged(j, o, cycle);
      SetPositionState(at, o.symbol, state, None, o.strategy, now);
      if cycle.Some? {
        CloseCycle(cycle.value, outcome, now);
        ClearCycle(at);
      }
    }

    // ---- Fills ----

    method OnFill(j: nat, o: Order, v: Order, now: int)
      modifies this`sum, db
      ensures Now() == Spec.OnFill(cfg, old(Now()), j, o, v, now)
    {
      hide Spec.OnPmccFill, Spec.OnSwingFill, Spec.OnWheelFill;
      sum := sum.(fills := sum.fills + [j]);
      var at := db.GetBySymbol(o.symbol, o.strategy);
      var price := if v.fillPrice.Some? then v.fillPrice.value else if o.limitPrice.Some? then o.limitPrice.value
          else 0.0;
      if o.strategy == Some("pmcc") {
        OnPmccFill(at, j, o, price, now);
      } else if o.strategy.Some? && o.strategy.value in cfg.swing {
        OnSwingFill(at, j, o, price, now);
      } else {
        OnWheelFill(at, j, o, price, now);
      }
    }

    method OnWheelFill(at: Option<nat>, j: nat, o: Order, price: real, now: int)
      modifies this`sum, db
      ensures Now() == Spec.OnWheelFill(old(Now()), at, j, o, price, now)
    {
      hide Spec.SetState, Spec.OpenOnFill, Spec.EndOnFill, Spec.CloseCycle, Spec.FlagManual, Spec.TagOrder;
      var cycle := CurrentCycle(at);
      match o.orderType {
        case SellToOpen =>
          if IsPut(o) {
            OpenOnFill(at, j, o, Spec.StrikeOf(o), Spec.Notional(price, o.quantity), CspOpen, None, now);
          } else {
            SetPositionState(at, o.symbol, CcOpen, cycle, None, now);
            if cycle.Some? { TagOrder(j, cycle.value); }
          }
        case BuyToClose =>
          TagUnlessTagged(j, o, cycle);
          SetPositionState(at, o.symbol, if IsPut(o) then Idle else SharesHeld, None, None, now);
          if IsPut(o) && cycle.Some? { CloseCycle(cycle.value, CspClosedProfit, now); }
        case MultiLegOpen =>
          OpenOnFill(at, j, o, None, Spec.Notional(price, o.quantity), SpreadOpen, o.strategy, now);
        case MultiLegClose =>
          EndOnFill(at, j, o, SpreadClosed, Spec.SpreadCloseOutcome(o.strategy), now);
        case _ =>
          FlagManualIntervention(o.symbol, o.strategy, now);
      }
    }

    method OnPmccFill(at: Option<nat>, j: nat, o: Order, price: real, now: int)
      modifies this`sum, db
      ensures Now() == Spec.OnPmccFill(old(Now()), at, j, o, price, now)
    {
      hide Spec.SetState, Spec.OpenOnFill, Spec.EndOnFill, Spec.FlagManual, Spec.TagOrder;
      var cycle := CurrentCycle(at);
      if OptionTypeOf(o) != Some(Call) {
        FlagManualIntervention(o.symbol, o.strategy, now);
        return;
      }
      match o.orderType {
        case BuyToOpen =>
          OpenOnFill(at, j, o, Spec.StrikeOf(o), -Spec.Notional(Spec.Abs(price), Spec.PackageSize(o)), PmccLongOpen,
                     o.strategy, now);
        case SellToOpen =>
          SetPositionState(at, o.symbol, PmccBothOpen, cycle, o.strategy, now);
          if cycle.Some? { TagOrder(j, cycle.value); }
        case BuyToClose =>
          TagUnlessTagged(j, o, cycle);
          SetPositionState(at, o.symbol, PmccLongOpen, cycle, o.strategy, now);
        case SellToClose =>
          EndOnFill(at, j, o, Idle, if o.rollTrigger then PmccLongRolled else PmccFullClosed, now);
        case _ =>
          FlagManualIntervention(o.symbol, o.strategy, now);
      }
    }

    method OnSwingFill(at: Option<nat>, j: nat, o: Order, price: real, now: int)
      modifies this`sum, db
      ensures Now() == Spec.OnSwingFill(old(Now()), at, j, o, price, now)
    {
      hide Spec.OpenOnFill, Spec.EndOnFill, Spec.FlagManual;
      if o.contract.None? {
        FlagManualIntervention(o.symbol, o.strategy, now);
        return;
      }
      match o.orderType {
        case BuyToOpen =>
          OpenOnFill(at, j, o, Spec.StrikeOf(o), -Spec.Notional(Spec.Abs(price), Spec.PackageSize(o)), SwingOpen,
                     o.strategy, now);
        case SellToClose =>
          EndOnFill(at, j, o, Idle, SwingClosed, now);
        case _ =>
          FlagManualIntervention(o.symbol, o.strategy, now);
      }
    }

    // ---- Cancels ----

    method OnCancel(o: Order, now: int)
      modifies this`sum, db
      ensures Now() == Spec.OnCancel(old(Now()), o, now)
    {
      var at := db.GetBySymbol(o.symbol, o.strategy);
      if at.None? { return; }
      var target := Spec.RestoredState(o, db.positions[at.value].state);
      if target.None? { return; }
      SetPositionState(at, o.symbol, target.value, None, o.strategy, now);
      sum := sum.(cancellations := sum.cancellations + 1);
    }

    // ---- Order stream ----

    method ProcessOrder(v: Order, now: int)
      modifies this`sum, db
      ensures Now() == Spec.ProcessOrder(cfg, old(Now()), v, now)
    {
      hide Spec.OnFill, Spec.OnCancel, Spec.FlagManual;
      if v.clientId.None? && v.brokerId.None? { return; }
      var at: Option<nat> := None;
      if v.clientId.Some? { at := db.GetByClientId(v.clientId.value); }
      if at.None? && v.brokerId.Some? { at := db.GetByBrokerId(v.brokerId.value); }
      if at.None? {
        FlagManualIntervention(v.symbol, None, now);
        return;
      }
      var j := at.value;
      var o := db.orders[j];
      db.UpdateOrderRow(j, Spec.Refresh(o, v));
      if Working(o.status) && v.status.Filled? {
        OnFill(j, o, v, now);
      } else if Working(o.status) && (v.status.Cancelled? || v.status.Rejected?) {
        if Spec.ObservedPartial(o, v) { FlagManualIntervention(o.symbol, o.strategy, now); } else { OnCancel(o, now); }
      }
    }

    method ProcessOrders(views: seq<Order>, now: int)
      modifies this`sum, db
      ensures Now() == Spec.ProcessOrders(cfg, old(Now()), views, now)
    {
      hide Spec.ProcessOrder;
      for n := 0 to |views|
        invariant Now() == Spec.ProcessOrders(cfg, old(Now()), views[..n], now)
      {
        assert views[..n + 1][..n] == views[..n];
        ProcessOrder(views[n], now);
      }
      assert views[..|views|] == views;
    }

    // ---- Transitions inferred from the broker's shape ----

    method BrokerShape(rows: seq<BrokerRow>, symbol: string) returns (shape: Spec.Shape)
      ensures shape == Spec.ShapeOf(rows, symbol)
    {
      var put, call, held, present, shares := false, false, false, false, 0;
      for n := 0 to |rows|
        invariant put <==> Spec.AnyRow(rows[..n], symbol, CspOpen)
        invariant call <==> Spec.AnyRow(rows[..n], symbol, CcOpen)
        invariant held <==> Spec.AnyRow(rows[..n], symbol, SharesHeld)
        invariant present <==> Spec.Present(rows[..n], symbol)
        invariant shares == Spec.SharesIn(rows[..n], symbol)
      {
        var r := rows[n];
        assert rows[..n + 1][..n] == rows[..n] && rows[..n + 1] == rows[..n] + [r];
        AnyRowAppend(rows[..n], r, symbol, CspOpen);
        AnyRowAppend(rows[..n], r, symbol, CcOpen);
        AnyRowAppend(rows[..n], r, symbol, SharesHeld);
        PresentAppend(rows[..n], r, symbol);
        if r.symbol == symbol {
          put, call, held := put || r.state.CspOpen?, call || r.state.CcOpen?, held || r.state.SharesHeld?;
          present := true;
          shares := shares + r.shares;
        }
      }
      assert rows[..|rows|] == rows;
      shape := Spec.Shape(put, call, shares > 0 || held, present);
    }

    method OnAssignment(k: nat, p: Position, now: int)
      requires k < |db.positions|
      modifies this`sum, db
      ensures Now() == Spec.OnAssignment(old(Now()), k, p, now)
    {
      hide CspQuantity;
      sum := sum.(assignments := sum.assignments + 1);
      var strike, premium := 0.0, 0.0;
      if p.cycle.Some? && p.cycle.value < |db.cycles| {
        var c := db.cycles[p.cycle.value];
        if c.strike.Some? { strike := c.strike.value; }
        if c.premium.Some? { premium := c.premium.value / 100.0; }
      }
      var n := db.CycleCspQuantity(p.cycle);
      var shares := 100 * if n.Some? && n.value != 0 then n.value else 1;
      db.UpdatePositionRow(k,
                           db.positions[k].(state := SharesHeld, shares := shares,
                                            costBasis := Some(strike - premium)));
      db.AppendLog(k, Some(p.state), SharesHeld, now);
      if p.cycle.Some? {
        db.InsertOrderRow(Spec.StockLeg(p.symbol, p.cycle.value, BuyToOpen, shares, strike, now));
      }
    }

    method GoFlat(k: nat, p: Position, now: int)
      requires k < |db.positions|
      modifies db
      ensures Now() == Spec.GoFlat(old(Now()), k, p, now)
    {
      db.UpdatePositionRow(k, db.positions[k].(state := Idle, shares := 0, costBasis := None, cycle := None));
      db.AppendLog(k, Some(p.state), Idle, now);
    }

    method OnExpiry(k: nat, p: Position, outcome: CycleOutcome, now: int)
      requires k < |db.positions|
      modifies this`sum, db
      ensures Now() == Spec.OnExpiry(old(Now()), k, p, outcome, now)
    {
      hide CyclePnl;
      sum := sum.(expirations := sum.expirations + 1);
      if p.cycle.Some? { CloseCycle(p.cycle.value, outcome, now); }
      GoFlat(k, p, now);
    }

    method OnCcExpiry(k: nat, p: Position, now: int)
      requires k < |db.positions|
      modifies this`sum, db
      ensures Now() == Spec.OnCcExpiry(old(Now()), k, p, now)
    {
      sum := sum.(expirations := sum.expirations + 1);
      db.UpdatePositionRow(k, db.positions[k].(state := SharesHeld));
      db.AppendLog(k, Some(p.state), SharesHeld, now);
    }

    method OnCalledAway(k: nat, p: Position, now: int)
      requires k < |db.positions|
      modifies this`sum, db
      ensures Now() == Spec.OnCalledAway(old(Now()), k, p, now)
    {
      hide CspQuantity, CcStrike, CyclePnl, Spec.FlagManual;
      var strike := db.CycleCcStrike(p.cycle);
      var n := db.CycleCspQuantity(p.cycle);
      var sold := if n.Some? && n.value != 0 then 100 * n.value else p.shares;
      if sold > 0 && strike.None? {
        FlagManualIntervention(p.symbol, Some(p.strategy), now);
        return;
      }
      sum := sum.(calledAways := sum.calledAways + 1);
      if p.cycle.Some? && sold > 0 {
        db.InsertOrderRow(Spec.StockLeg(p.symbol, p.cycle.value, SellToClose, sold, strike.value, now));
      }
      if p.cycle.Some? { CloseCycle(p.cycle.value, CcCalledAway, now); }
      GoFlat(k, p, now);
    }

    method Heal(k: nat, p: Position, state: PositionState, cycle: Option<nat>, now: int)
      modifies this`sum, db
      ensures Now() == Spec.Heal(old(Now()), k, p, state, cycle, now)
    {
      SetPositionState(Some(k), p.symbol, state, cycle, Some(p.strategy), now);
      sum := sum.(heals := sum.heals + 1);
    }

    /** _selfheal_pmcc_pending: the strategy's own latest order decides. */
    method HealPmcc(k: nat, p: Position, now: int)
      modifies this`sum, db
      ensures Now() == Spec.HealPmcc(old(Now()), k, p, now)
    {
      hide Spec.Heal, Spec.LatestCallOrder;
      var j := db.LatestCall(p.symbol, p.strategy, if p.state.PmccLongPending? then BuyToOpen else SellToOpen);
      var filled := j.Some? && db.orders[j.value].status.Filled?;
      if !p.state.PmccLongPending? {
        Heal(k, p, if filled then PmccBothOpen else PmccLongOpen, p.cycle, now);
      } else if !filled {
        Heal(k, p, Idle, None, now);
      } else {
        var o := db.orders[j.value];
        var price := if o.fillPrice.Some? && o.fillPrice.value != 0.0 then o.fillPrice.value
                     else if o.limitPrice.Some? then o.limitPrice.value else 0.0;
        var cy := OpenCycle(o, Spec.StrikeOf(o), -Spec.Notional(Spec.Abs(price), Spec.PackageSize(o)), now);
        TagOrder(j.value, cy);
        Heal(k, p, PmccLongOpen, Some(cy), now);
      }
    }

    // ---- Position sweep ----

    method DiffOne(k: nat, p: Position, shape: Spec.Shape, now: int)
      requires k < |db.positions|
      modifies this`sum, db
      ensures Now() == Spec.DiffOne(old(Now()), k, p, shape, now)
    {
      hide Spec.SetState, Spec.FlagManual, Spec.OnAssignment, Spec.OnExpiry, Spec.OnCcExpiry, Spec.OnCalledAway,
           Spec.Heal, Spec.HealPmcc, HasInflight, SharesClaimedByOther;
      match p.state {
        case CspOpen =>
          if shape.shortPut { return; }
          if shape.shares {
            var claimed := db.SharesClaimed(p.symbol, k);
            if claimed { FlagManualIntervention(p.symbol, Some(p.strategy), now); } else { OnAssignment(k, p, now); }
          } else {
            OnExpiry(k, p, CspExpired, now);
          }
        case CcOpen =>
          if shape.shortCall { return; }
          if shape.shares { OnCcExpiry(k, p, now); } else { OnCalledAway(k, p, now); }
        case CspPending =>
          var inflight := db.HasInflightOrder(p.symbol);
          if inflight { return; }
          if shape.shortPut {
            Heal(k, p, CspOpen, p.cycle, now);
          } else if !shape.present {
            Heal(k, p, Idle, None, now);
          }
        case CcPending =>
          var inflight := db.HasInflightOrder(p.symbol);
          if inflight { return; }
          if shape.shortCall {
            Heal(k, p, CcOpen, p.cycle, now);
          } else if shape.shares {
            Heal(k, p, SharesHeld, None, now);
          }
        case SpreadOpen =>
          if p.strategy == "calendar" {
            if !shape.shortCall && !shape.shares { FlagManualIntervention(p.symbol, Some(p.strategy), now); }
          } else if !shape.present {
            OnExpiry(k, p, Spec.SpreadExpiredOutcome(p.strategy), now);
          } else if shape.shares {
            FlagManualIntervention(p.symbol, Some(p.strategy), now);
          }
        case SpreadPending =>
          var inflight := db.HasInflightOrder(p.symbol);
          if inflight { return; }
          if shape.present {
            Heal(k, p, SpreadOpen, p.cycle, now);
          } else {
            FlagManualIntervention(p.symbol, Some(p.strategy), now);
          }
        case PmccLongOpen =>
          if shape.shares { FlagManualIntervention(p.symbol, Some(p.strategy), now); }
        case PmccBothOpen =>
          if shape.shares {
            FlagManualIntervention(p.symbol, Some(p.strategy), now);
          } else if !shape.shortCall {
            sum := sum.(expirations := sum.expirations + 1);
            SetPositionState(Some(k), p.symbol, PmccLongOpen, None, Some(p.strategy), now);
          }
        case PmccLongPending | PmccShortPending =>
          var inflight := db.HasInflightOrder(p.symbol);
          if !inflight { HealPmcc(k, p, now); }
        case _ =>
      }
    }

    method ReconcilePositions(rows: seq<BrokerRow>, now: int)
      modifies this`sum, db
      ensures Now() == Spec.ReconcilePositions(old(Now()), rows, now)
    {
      hide Spec.DiffOne, Spec.FlagManual, Spec.ShapeOf, Spec.Present, Spec.KnownSymbol;
      var locals := db.positions;
      for n := 0 to |locals|
        invariant |locals| <= |db.positions|
        invariant Now() == Spec.DiffAll(old(Now()), locals, n, rows, now)
      {
        var shape := BrokerShape(rows, locals[n].symbol);
        DiffOne(n, locals[n], shape, now);
      }
      ghost var swept := Now();
      for n := 0 to |rows|
        invariant Now() == Spec.FlagUnknown(swept, locals, rows, n, now)
      {
        var known := Known(locals, rows[n].symbol);
        var seen := Seen(rows[..n], rows[n].symbol);
        if !known && !seen { FlagManualIntervention(rows[n].symbol, None, now); }
      }
    }

    // ---- Parity audit ----

    method ParityFlag(symbol: string, strategy: Option<string>, now: int)
      modifies this`sum, db
      ensures Now() == Spec.ParityFlag(old(Now()), symbol, strategy, now)
    {
      sum := sum.(parityFlags := sum.parityFlags + 1);
      FlagManualIntervention(symbol, strategy, now);
    }

    method CycleOrphaned(c: Cycle, now: int) returns (orphaned: bool)
      ensures orphaned == Spec.Orphaned(cfg, db.View(), c, now)
    {
      if c.endedAt.Some? || now - c.startedAt < cfg.parityMinAge { return false; }
      var at := db.GetBySymbol(c.symbol, c.strategy);
      orphaned := at.None? || Spec.Abandoned(db.positions[at.value].state);
    }

    method AuditCycleParity(rows: seq<BrokerRow>, now: int) returns (symbols: seq<string>)
      modifies this`sum, db
      ensures Now() == Spec.Audit(cfg, old(Now()), rows, symbols, now)
    {
      hide Spec.ParityFlag, Spec.Orphaned, Spec.KnownSymbol;
      symbols := [];
      if !cfg.parityEnabled { return; }
      var cycles := db.cycles;
      for n := 0 to |cycles|
        invariant Now() == Spec.AuditCycles(cfg, old(Now()), cycles, n, now)
      {
        var orphaned := CycleOrphaned(cycles[n], now);
        if orphaned { ParityFlag(cycles[n].symbol, cycles[n].strategy, now); }
      }
      var ps := db.positions;
      ghost var t1 := Now();
      for n := 0 to |ps|
        invariant Now() == Spec.AuditRows(t1, ps, n, now)
      {
        var p := ps[n];
        if p.shares != 0 && !Spec.HoldsShares(p.state) && !Spec.OperatorOwned(p.state) {
          ParityFlag(p.symbol, Some(p.strategy), now);
        }
      }
      ghost var t2 := Now();
      var all := ListOf((set p | p in ps :: p.symbol) + set r | r in rows :: r.symbol);
      symbols := all;
      for n := 0 to |all|
        invariant Now() == Spec.AuditTotals(t2, ps, rows, all[..n], now)
      {
        assert all[..n + 1][..n] == all[..n];
        var known := Known(ps, all[n]);
        if known {
          var ours := LocalTotal(ps, all[n]);
          var theirs := StockTotal(rows, all[n]);
          if ours != theirs { ParityFlag(all[n], None, now); }
        }
      }
      assert all[..|all|] == all;
    }

    // ---- The tick ----

    /** reconcile_once: also returns the orders in which the dictionaries and the symbol set were walked. */
    method ReconcileOnce(now: int) returns (stocks: seq<string>, legs: seq<Contract>, symbols: seq<string>)
      modifies this, db
      ensures Enumerates(stocks, broker.stock.Keys) && Enumerates(legs, broker.options.Keys)
      ensures var rows := PositionRows(broker.View(), stocks, legs);
              Now() == Spec.ReconcileOnce(cfg, broker.View(), old(db.View()), old(cursor), rows, symbols, now)
      ensures cursor == Some(now)
    {
      hide Spec.ProcessOrders, Spec.ReconcilePositions, Spec.Audit, OrdersSince, PositionRows, Enumerates;
      sum := Spec.ZeroSummary;
      var rows;
      rows, stocks, legs := broker.GetPositions();
      var since := if cursor.Some? then cursor.value else Spec.EPOCH;
      var oldest := db.OldestPendingPlacedAt();
      if oldest.Some? && oldest.value < since { since := oldest.value - Spec.LOOKBACK_MARGIN; }
      var views := broker.GetOrdersSince(since);
      cursor := Some(now);
      ProcessOrders(views, now);
      ReconcilePositions(rows, now);
      symbols := AuditCycleParity(rows, now);
    }
  }

  // ---- Scans ----

  lemma AnyRowAppend(rows: seq<BrokerRow>, r: BrokerRow, s: string, state: PositionState)
    ensures Spec.AnyRow(rows + [r], s, state) <==> Spec.AnyRow(rows, s, state) || (r.symbol == s && r.state == state)
  {
    assert (rows + [r])[|rows|] == r;
    assert forall i :: 0 <= i < |rows| ==> (rows + [r])[i] == rows[i];
  }

  lemma PresentAppend(rows: seq<BrokerRow>, r: BrokerRow, s: string)
    ensures Spec.Present(rows + [r], s) <==> Spec.Present(rows, s) || r.symbol == s
  {
    assert (rows + [r])[|rows|] == r;
    assert forall i :: 0 <= i < |rows| ==> (rows + [r])[i] == rows[i];
  }

  method Known(ps: seq<Position>, s: string) returns (known: bool)
    ensures known == Spec.KnownSymbol(ps, s)
  {
    known := false;
    for n := 0 to |ps|
      invariant known <==> exists k :: 0 <= k < n && ps[k].symbol == s
    {
      known := known || ps[n].symbol == s;
    }
  }

  method Seen(rows: seq<BrokerRow>, s: string) returns (seen: bool)
    ensures seen == Spec.Present(rows, s)
  {
    seen := false;
    for n := 0 to |rows|
      invariant seen <==> exists i :: 0 <= i < n && rows[i].symbol == s
    {
      seen := seen || rows[n].symbol == s;
    }
  }

  method LocalTotal(ps: seq<Position>, s: string) returns (total: int)
    ensures total == Spec.LocalShares(ps, s)
  {
    total := 0;
    for n := 0 to |ps|
      invariant total == Spec.LocalShares(ps[..n], s)
    {
      assert ps[..n + 1][..n] == ps[..n];
      if ps[n].symbol == s { total := total + ps[n].shares; }
    }
    assert ps[..|ps|] == ps;
  }

  method StockTotal(rows: seq<BrokerRow>, s: string) returns (total: int)
    ensures total == Spec.StockIn(rows, s)
  {
    total := 0;
    for n := 0 to |rows|
      invariant total == Spec.StockIn(rows[..n], s)
    {
      assert rows[..n + 1][..n] == rows[..n];
      if rows[n].symbol == s && rows[n].state.SharesHeld? { total := total + rows[n].shares; }
    }
    assert rows[..|rows|] == rows;
  }
}
