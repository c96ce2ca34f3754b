/** The stateful objects of the order pipeline, each proved against the pipeline's specification. */
module OrderClasses {
  import opened Common
  import opened OrderModel
  import opened Selection
  import opened TradingCycle

  class SignalManager {
    var buyStates: map<int, Signal>
    var sellStates: map<int, Signal>
    var lastReset: int

    constructor (today: int)
      ensures View() == Signals(map[], map[], today)
    {
      buyStates, sellStates, lastReset := map[], map[], today;
    }

    function View(): Signals
      reads this
    {
      Signals(buyStates, sellStates, lastReset)
    }

    method CheckDailyReset(today: int)
      modifies this
      ensures View() == old(View()).Refresh(today)
    {
      if today > lastReset {
        buyStates, sellStates := map[], map[];
        lastReset := today;
      }
    }

    method CanTrigger(id: int, side: OrderSide, today: int) returns (ok: bool)
      modifies this
      ensures View() == old(View()).Refresh(today)
      ensures ok <==> View().Get(id, side) == IDLE
    {
      CheckDailyReset(today);
      var states := if side == BUY then buyStates else sellStates;
      ok := id !in states || states[id] == IDLE;
    }

    method Mark(id: int, side: OrderSide, s: Signal)
      modifies this
      ensures View() == old(View()).Set(id, side, s)
    {
      if side == BUY {
        buyStates := buyStates[id := s];
      } else {
        sellStates := sellStates[id := s];
      }
    }
  }

  class LimitChecker {
    const ratio: real
    const maxPositions: int
    var todayExecuted: real
    var lastDate: Option<int>

    constructor (ratio: real, maxPositions: int)
      ensures View() == Limits(ratio, maxPositions, 0.0, None)
    {
      this.ratio, this.maxPositions := ratio, maxPositions;
      todayExecuted, lastDate := 0.0, None;
    }

    function View(): Limits
      reads this
    {
      Limits(ratio, maxPositions, todayExecuted, lastDate)
    }

    method CheckBudget(cash: real, amount: real) returns (ok: bool)
      ensures ok <==> todayExecuted + amount <= cash * ratio
    {
      var maxDaily := cash * ratio;
      ok := !(todayExecuted + amount > maxDaily);
    }

    method CheckMaxPositions(held: int) returns (ok: bool)
      ensures ok <==> held < maxPositions
    {
      ok := !(held >= maxPositions);
    }

    method RecordExecution(amount: real)
      modifies this
      ensures View() == old(View()).Record(amount)
    {
      todayExecuted := todayExecuted + amount;
    }

    method RestoreFromLog(log: LogDB, today: int)
      modifies this
      ensures View() == old(View()).(executed := LoggedAmount(log.rows, today), lastDate := Some(today))
    {
      todayExecuted := log.TodayExecutedAmount(today);
      lastDate := Some(today);
    }

    method CheckDateBoundary(today: int)
      modifies this
      ensures View() == old(View()).AtBoundary(today)
    {
      if lastDate.Some? && lastDate.value != today {
        todayExecuted := 0.0;
      }
      lastDate := Some(today);
    }
  }

  class Safeguard {
    const maxLossPct: real
    const maxOrders: int
    var kill: KillLevel
    var lossLock: bool
    var ordersThisMinute: nat
    var lastMinuteReset: int

    constructor (maxLossPct: real, maxOrders: int, now: int)
      ensures View() == Guard(if maxLossPct == 0.0 then 5.0 else maxLossPct, if maxOrders == 0 then 10 else maxOrders,
                              OFF, false, 0, now)
    {
      this.maxLossPct := if maxLossPct == 0.0 then 5.0 else maxLossPct;
      this.maxOrders := if maxOrders == 0 then 10 else maxOrders;
      kill, lossLock, ordersThisMinute, lastMinuteReset := OFF, false, 0, now;
    }

    function View(): Guard
      reads this
    {
      Guard(maxLossPct, maxOrders, kill, lossLock, ordersThisMinute, lastMinuteReset)
    }

    method IsTradingEnabled() returns (ok: bool)
      ensures ok <==> kill == OFF && !lossLock
    {
      if kill != OFF {
        return false;
      }
      if lossLock {
        return false;
      }
      return true;
    }

    method CheckOrderSpeed(now: int) returns (ok: bool)
      modifies this
      ensures View() == old(View()).Roll(now)
      ensures ok <==> ordersThisMinute < maxOrders
    {
      var elapsed := now - lastMinuteReset;
      if elapsed > MINUTE {
        ordersThisMinute := 0;
        lastMinuteReset := now;
      }
      ok := ordersThisMinute < maxOrders;
    }

    method IncrementOrderCount()
      modifies this
      ensures View() == old(View()).(count := old(View()).count + 1)
    {
      ordersThisMinute := ordersThisMinute + 1;
    }

    method CheckMaxLoss(pnl: real, account: real) returns (ok: bool)
      modifies this
      ensures ok <==> !LossAbove(maxLossPct, pnl, account)
      ensures View() == old(View()).(lossLock := old(lossLock) || !ok)
      ensures View() == old(View()).CheckLoss(pnl, account)
    {
      CheckLossExactly(View(), pnl, account);
      if account <= 0.0 {
        return true;
      }
      if pnl >= 0.0 {
        return true;
      }
      var lossPct := -pnl / account * 100.0;
      if lossPct > maxLossPct {
        lossLock := true;
        return false;
      }
      return true;
    }

    method SetKillSwitch(level: KillLevel)
      modifies this
      ensures View() == old(View()).(kill := level)
    {
      kill := level;
    }

    method UnlockLossLock()
      modifies this
      ensures View() == old(View()).(lossLock := false)
    {
      lossLock := false;
    }
  }

  class LogDB {
    var rows: seq<LogRow>

    constructor ()
      ensures rows == []
    {
      rows := [];
    }

    method Write(row: LogRow)
      modifies this
      ensures rows == old(rows) + [row]
    {
      rows := rows + [row];
    }

    /** The day's amount, summed row by row. */
    method TodayExecutedAmount(today: int) returns (total: real)
      ensures total == LoggedAmount(rows, today)
    {
      total := 0.0;
      for i := 0 to |rows|
        invariant total == LoggedAmount(rows[..i], today)
      {
        var row := rows[i];
        assert rows[..i + 1][..i] == rows[..i];
        if row.kind == ORDER && Day(row.at) >= today {
          if row.price.Some? && row.qty.Some? && row.price.value != 0.0 && row.qty.value != 0 {
            total := total + row.price.value * row.qty.value as real;
          }
        }
      }
      assert rows[..|rows|] == rows;
    }
  }

  class OrderExecutor {
    const signal: SignalManager
    const limit: LimitChecker
    const guard: Safeguard
    const log: LogDB

    constructor (signal: SignalManager, limit: LimitChecker, guard: Safeguard, log: LogDB)
      ensures this.signal == signal && this.limit == limit && this.guard == guard && this.log == log
    {
      this.signal, this.limit, this.guard, this.log := signal, limit, guard, log;
    }

    function View(): Desk
      reads signal, limit, guard, log
    {
      Desk(signal.View(), limit.View(), guard.View(), log.rows)
    }

    method Reject(reason: Reason, now: int) returns (status: Status)
      modifies log
      ensures log.rows == old(log.rows) + [LogRow(ERROR, now, None, None, None)] && status == Rejected(reason)
    {
      log.Write(LogRow(ERROR, now, None, None, None));
      return Rejected(reason);
    }

    /** The gates in order; the signal and rate checks update their objects as they run. */
    method Check(o: Order, bal: Balance, env: Surroundings) returns (stop: Option<Reason>)
      modifies signal, guard
      ensures stop == Gate(old(View()), o, bal, env)
      ensures View() == Checked(old(View()), o, bal, env)
    {
      if o.side == SELL && !bal.Holds(o.symbol) {
        return Some(NotHeld);
      }
      var free := signal.CanTrigger(o.ruleId, o.side, Day(env.now));
      if !free {
        return Some(Duplicate);
      }
      if o.side == BUY {
        var ok := limit.CheckBudget(bal.cash, o.Amount());
        if !ok {
          return Some(Budget);
        }
        ok := limit.CheckMaxPositions(|bal.positions|);
        if !ok {
          return Some(MaxPositions);
        }
      }
      var enabled := guard.IsTradingEnabled();
      if !enabled {
        return Some(TradingOff);
      }
      var speed := guard.CheckOrderSpeed(env.now);
      if !speed {
        return Some(Speed);
      }
      return if PriceOk(o.price, env.quote) then None else Some(PriceMismatch);
    }

    /** What the except branch does. */
    method Fail(o: Order, now: int) returns (status: Status)
      modifies signal, log
      ensures View() == Undo(old(View()), o, now) && status == Failed
    {
      signal.Mark(o.ruleId, o.side, IDLE);
      log.Write(LogRow(ERROR, now, None, None, None));
      return Failed;
    }

    /** The steps after the broker took the order. */
    method Confirm(o: Order, bal: Balance, env: Surroundings) returns (status: Status)
      modifies signal, limit, guard, log
      ensures (View(), status) == Settle(old(View()), o, bal, env)
    {
      guard.IncrementOrderCount();
      signal.Mark(o.ruleId, o.side, FILLED);
      if env.fault == Callback {
        status := Fail(o, env.now);
        return;
      }
      limit.RecordExecution(o.Amount());
      if env.fault == SubmitLog {
        status := Fail(o, env.now);
        return;
      }
      log.Write(LogRow(ORDER, env.now, Some(o.price), Some(o.qty), None));
      if env.fault == FillLog {
        status := Fail(o, env.now);
        return;
      }
      log.Write(LogRow(FILL, env.now, Some(o.price), Some(o.qty), Profit(o, bal)));
      return Succeeded;
    }

    method ExecuteOrder(o: Order, bal: Balance, env: Surroundings) returns (status: Status)
      modifies signal, limit, guard, log
      ensures (View(), status) == Execute(old(View()), o, bal, env)
    {
      var stop := Check(o, bal, env);
      if stop.Some? {
        status := Reject(stop.value, env.now);
        return;
      }
      if env.fault == PrepareLog {
        return Aborted;
      }
      log.Write(LogRow(ORDER, env.now, None, Some(o.qty), None));
      signal.Mark(o.ruleId, o.side, TRIGGERED);
      if env.broker == Refuses {
        status := Fail(o, env.now);
        return;
      }
      status := Confirm(o, bal, env);
    }
  }

  class SystemTrader {
    const maxPositions: int
    const ratio: real

    constructor (maxPositions: int, ratio: real)
      ensures this.maxPositions == maxPositions && this.ratio == ratio
    {
      this.maxPositions, this.ratio := maxPositions, ratio;
    }

    method ProcessCycle(cs: seq<Candidate>, held: set<string>, cash: real, executed: real)
        returns (selected: seq<Candidate>, dropped: seq<(Candidate, BlockReason)>)
      ensures selected == Select(Bounds(held, maxPositions, DailyCap(cash, ratio)), executed, SortDesc(cs)).selected
      ensures dropped == Select(Bounds(held, maxPositions, DailyCap(cash, ratio)), executed, SortDesc(cs)).dropped
    {
      var sorted := SortDesc(cs);
      var b := Bounds(held, maxPositions, DailyCap(cash, ratio));
      var symbols: set<string>, added: nat, budget := {}, 0, executed;
      selected, dropped := [], [];
      for i := 0 to |sorted|
        invariant Tally(selected, dropped, symbols, added, budget) == Select(b, executed, sorted[..i])
      {
        var c := sorted[i];
        assert sorted[..i + 1][..i] == sorted[..i];
        if c.side == BUY {
          var reason := CheckBuy(b, Tally(selected, dropped, symbols, added, budget), c);
          if reason.Some? {
            dropped := dropped + [(c, reason.value)];
          } else {
            selected := selected + [c];
            symbols := symbols + {c.rule.symbol};
            added := added + 1;
            budget := budget + c.Amount();
          }
        } else if c.rule.symbol !in held {
          dropped := dropped + [(c, SELL_NO_HOLDING)];
        } else {
          selected := selected + [c];
        }
      }
      assert sorted[..|sorted|] == sorted;
    }
  }

  class StrategyEngine {
    const executor: OrderExecutor
    const trader: SystemTrader

    constructor (executor: OrderExecutor)
      ensures this.executor == executor && trader.maxPositions == executor.limit.maxPositions
      ensures trader.ratio == executor.limit.ratio
    {
      this.executor := executor;
      trader := new SystemTrader(executor.limit.maxPositions, executor.limit.ratio);
    }

    predicate Configured() {
      trader.maxPositions == executor.limit.maxPositions && trader.ratio == executor.limit.ratio
    }

    /** The checks that open a cycle; whether orders may be selected. */
    method Open(k: Market) returns (enabled: bool)
      modifies executor.limit, executor.guard
      ensures executor.View() == Opened(old(executor.View()), k)
      ensures enabled == (k.Evaluates() && executor.guard.View().Enabled())
    {
      if !k.running {
        return false;
      }
      executor.limit.CheckDateBoundary(Day(k.now));
      var hour, minute := k.now % DAY / HOUR, k.now % HOUR / MINUTE;
      if hour == 9 && minute < 2 {
        return false;
      }
      if hour == 15 && minute >= 30 {
        return false;
      }
      if !k.active || !k.queried {
        return false;
      }
      enabled := executor.guard.IsTradingEnabled();
      if enabled {
        var _ := executor.guard.CheckMaxLoss(k.pnl, k.account);
      }
      enabled := executor.guard.IsTradingEnabled();
    }

    /** The selection of an open cycle. */
    method Choose(k: Market, cs: seq<Candidate>) returns (batch: seq<Candidate>)
      requires Configured()
      ensures batch == Chosen(executor.View(), k.bal, cs)
    {
      var chosen, _ := trader.ProcessCycle(cs, HeldSymbols(k.bal), k.bal.cash, executor.limit.todayExecuted);
      assert executor.View().limits.executed == executor.limit.todayExecuted;
      batch := chosen;
    }

    /** The selected orders in turn, until something outside the executor raises. */
    method RunBatch(batch: seq<Candidate>, bal: Balance, turns: seq<Turn>)
      requires |turns| == |batch|
      modifies executor.signal, executor.limit, executor.guard, executor.log
      ensures var before := old(executor.View());
              executor.View() == DeskBefore(before, batch, bal, Envs(turns), Executed(before, batch, bal, turns, 0))
    {
      ghost var before, envs := executor.View(), Envs(turns);
      var i, running := 0, true;
      while i < |batch| && running
        invariant 0 <= i <= |batch|
        invariant executor.View() == DeskBefore(before, batch, bal, envs, i)
        invariant Executed(before, batch, bal, turns, 0) ==
                  if running then Executed(before, batch, bal, turns, i) else i
        decreases |batch| - i, running
      {
        OneTurn(before, batch, bal, turns, i);
        if !turns[i].announced {
          running := false;
          continue;
        }
        var status := executor.ExecuteOrder(batch[i].Executed(), bal, turns[i].env);
        running := status != Aborted && turns[i].reported;
        i := i + 1;
      }
    }

    /** One cycle; `turns[i]` is what the i-th selected order meets. */
    method EvaluateAll(k: Market, cs: seq<Candidate>, turns: seq<Turn>)
      requires Configured() && |turns| == |Batch(executor.View(), k, cs)|
      modifies executor.signal, executor.limit, executor.guard, executor.log
      ensures executor.View() == Cycle(old(executor.View()), k, cs, turns)
    {
      var enabled := Open(k);
      if enabled && k.prepared {
        var batch := Choose(k, cs);
        RunBatch(batch, k.bal, turns);
      }
    }
  }
}
