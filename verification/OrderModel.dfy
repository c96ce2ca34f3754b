/** The order pipeline as a function on its state: signal states, daily budget, safeguards and log. */
module OrderModel {
  import opened Common

  // ---- time ----

  function Day(now: int): int {
    now / DAY
  }

  // ---- orders ----

  datatype OrderSide = BUY | SELL

  datatype Order = Order(ruleId: int, symbol: string, side: OrderSide, qty: int, price: real) {
    function Amount(): real {
      price * qty as real
    }
  }

  datatype Position = Position(symbol: string, qty: int, avgPrice: real)

  datatype Balance = Balance(cash: real, positions: seq<Position>) {
    predicate Holds(symbol: string) {
      exists p :: p in positions && p.symbol == symbol
    }
  }

  // ---- signal states ----

  datatype Signal = IDLE | TRIGGERED | FILLED

  datatype Signals = Signals(buy: map<int, Signal>, sell: map<int, Signal>, lastReset: int) {
    function Get(id: int, side: OrderSide): Signal {
      var states := if side == BUY then buy else sell;
      if id in states then states[id] else IDLE
    }

    function Set(id: int, side: OrderSide, s: Signal): Signals {
      if side == BUY then this.(buy := buy[id := s]) else this.(sell := sell[id := s])
    }

    /** All states return to idle on a later day. */
    function Refresh(today: int): Signals {
      if today > lastReset then Signals(map[], map[], today) else this
    }
  }

  // ---- limits ----

  datatype Limits = Limits(ratio: real, maxPositions: int, executed: real, lastDate: Option<int>) {
    predicate BudgetOk(cash: real, amount: real) {
      !(executed + amount > cash * ratio)
    }

    predicate PositionsOk(held: int) {
      !(held >= maxPositions)
    }

    function Record(amount: real): Limits {
      this.(executed := executed + amount)
    }

    /** The running total restarts at zero when the date differs from the last one seen. */
    function AtBoundary(today: int): Limits {
      if lastDate.Some? && lastDate.value != today then this.(executed := 0.0, lastDate := Some(today))
      else this.(lastDate := Some(today))
    }
  }

  // ---- safeguards ----

  datatype KillLevel = OFF | STOP_NEW | CANCEL_OPEN

  datatype Guard = Guard(
    maxLossPct: real, maxOrders: int, kill: KillLevel, lossLock: bool, count: nat, windowStart: int)
  {
    predicate Enabled() {
      kill == OFF && !lossLock
    }

    /** The order counter restarts once more than a minute has passed since it last did. */
    function Roll(now: int): Guard {
      if now - windowStart > MINUTE then this.(count := 0, windowStart := now) else this
    }

    predicate SpeedOk() {
      count < maxOrders
    }

    /** A realized loss above the threshold share of the account locks trading. */
    predicate LossOk(pnl: real, account: real) {
      account <= 0.0 || pnl >= 0.0 || !((-pnl) / account * 100.0 > maxLossPct)
    }

    function CheckLoss(pnl: real, account: real): Guard {
      if LossOk(pnl, account) then this else this.(lossLock := true)
    }
  }

  /** A realized loss of more than so many percent of the account. */
  predicate LossAbove(maxLossPct: real, pnl: real, account: real) {
    account > 0.0 && pnl < 0.0 && -pnl * 100.0 > maxLossPct * account
  }

  lemma ShareAbove(loss: real, account: real, pct: real)
    requires account > 0.0
    ensures loss / account * 100.0 > pct <==> loss * 100.0 > pct * account
  {
    var share := loss / account;
    assert share * account == loss;
    if share * 100.0 > pct {
      assert (share * 100.0 - pct) * account > 0.0;
    } else {
      assert (pct - share * 100.0) * account >= 0.0;
    }
  }

  /** A loss check locks trading exactly for a loss above the threshold, and changes nothing else. */
  lemma CheckLossExactly(g: Guard, pnl: real, account: real)
    ensures g.CheckLoss(pnl, account) == g.(lossLock := g.lossLock || LossAbove(g.maxLossPct, pnl, account))
    ensures g.LossOk(pnl, account) <==> !LossAbove(g.maxLossPct, pnl, account)
  {
    if account > 0.0 {
      ShareAbove(-pnl, account, g.maxLossPct);
    }
  }

  // ---- log ----

  datatype LogKind = ORDER | FILL | ERROR

  datatype LogRow = LogRow(kind: LogKind, at: int, price: Option<real>, qty: Option<int>, pnl: Option<real>)

  /** The amount an ORDER row with both a price and a quantity stands for. */
  function RowAmount(row: LogRow, today: int): real {
    if row.kind == ORDER && Day(row.at) >= today && row.price.Some? && row.qty.Some? &&
       row.price.value != 0.0 && row.qty.value != 0
    then row.price.value * row.qty.value as real else 0.0
  }

  /** The executed amount of a day, recomputed from the log. */
  function LoggedAmount(log: seq<LogRow>, today: int): real {
    if log == [] then 0.0
    else LoggedAmount(log[..|log| - 1], today) + RowAmount(log[|log| - 1], today)
  }

  // ---- the pipeline ----

  datatype Desk = Desk(signals: Signals, limits: Limits, guard: Guard, log: seq<LogRow>) {
    function Write(row: LogRow): Desk {
      this.(log := log + [row])
    }

    function WriteError(now: int): Desk {
      Write(LogRow(ERROR, now, None, None, None))
    }
  }

  datatype Broker = Accepts | Refuses

  /** The step at which something other than the broker raises. */
  datatype Fault = NoFault | PrepareLog | Callback | SubmitLog | FillLog

  /** What one execution meets: clock, re-queried price (None if the query failed), broker, fault. */
  datatype Surroundings = Surroundings(now: int, quote: Option<real>, broker: Broker, fault: Fault)

  datatype Reason = NotHeld | Duplicate | Budget | MaxPositions | TradingOff | Speed | PriceMismatch

  datatype Status = Rejected(reason: Reason) | Failed | Succeeded | Aborted

  function Abs(x: real): real {
    if x < 0.0 then -x else x
  }

  /** The re-queried price is within one percent of the expected one. */
  predicate PriceOk(expected: real, quote: Option<real>) {
    expected > 0.0 && quote.Some? && Abs(quote.value - expected) / expected * 100.0 <= 1.0
  }

  /** The first gate that stops an order, gates in the order they are tried. */
  function Gate(d: Desk, o: Order, bal: Balance, env: Surroundings): Option<Reason> {
    if o.side == SELL && !bal.Holds(o.symbol) then Some(NotHeld)
    else if d.signals.Refresh(Day(env.now)).Get(o.ruleId, o.side) != IDLE then Some(Duplicate)
    else if o.side == BUY && !d.limits.BudgetOk(bal.cash, o.Amount()) then Some(Budget)
    else if o.side == BUY && !d.limits.PositionsOk(|bal.positions|) then Some(MaxPositions)
    else if !d.guard.Enabled() then Some(TradingOff)
    else if !d.guard.Roll(env.now).SpeedOk() then Some(Speed)
    else if !PriceOk(o.price, env.quote) then Some(PriceMismatch)
    else None
  }

  /** The state after the gates: the checks themselves reset signals and the order counter when due. */
  function Checked(d: Desk, o: Order, bal: Balance, env: Surroundings): Desk {
    var g := Gate(d, o, bal, env);
    if g == Some(NotHeld) then d
    else
      var d1 := d.(signals := d.signals.Refresh(Day(env.now)));
      if g == Some(Speed) || g == Some(PriceMismatch) || g == None then d1.(guard := d.guard.Roll(env.now)) else d1
  }

  /** The broker took the order. */
  predicate Accepted(d: Desk, o: Order, bal: Balance, env: Surroundings) {
    Gate(d, o, bal, env) == None && env.fault != PrepareLog && env.broker == Accepts
  }

  function Profit(o: Order, bal: Balance): Option<real> {
    if o.side == BUY then None
    else
      var i := FirstHolding(bal.positions, o.symbol);
      if i < |bal.positions| && bal.positions[i].avgPrice != 0.0
      then NonZero(Gain(o.price, bal.positions[i].avgPrice, o.qty)) else None
  }

  function Gain(price: real, average: real, qty: int): real {
    (price - average) * qty as real
  }

  /** A profit of zero is recorded as no profit. */
  function NonZero(x: real): Option<real> {
    if x == 0.0 then None else Some(x)
  }

  function FirstHolding(ps: seq<Position>, symbol: string): (i: nat)
    ensures i <= |ps|
  {
    if ps == [] || ps[0].symbol == symbol then 0 else 1 + FirstHolding(ps[1..], symbol)
  }

  /** The steps after the broker took the order, up to the fault if there is one. */
  function Settle(d: Desk, o: Order, bal: Balance, env: Surroundings): (Desk, Status) {
    var filled := d.(guard := d.guard.(count := d.guard.count + 1), signals := d.signals.Set(o.ruleId, o.side, FILLED));
    if env.fault == Callback then (Undo(filled, o, env.now), Failed)
    else
      var booked := filled.(limits := filled.limits.Record(o.Amount()));
      if env.fault == SubmitLog then (Undo(booked, o, env.now), Failed)
      else
        var submitted := booked.Write(LogRow(ORDER, env.now, Some(o.price), Some(o.qty), None));
        if env.fault == FillLog then (Undo(submitted, o, env.now), Failed)
        else (submitted.Write(LogRow(FILL, env.now, Some(o.price), Some(o.qty), Profit(o, bal))), Succeeded)
  }

  /** An exception after submission makes the rule idle again. */
  function Undo(d: Desk, o: Order, now: int): Desk {
    d.(signals := d.signals.Set(o.ruleId, o.side, IDLE)).WriteError(now)
  }

  function Execute(d: Desk, o: Order, bal: Balance, env: Surroundings): (Desk, Status) {
    var checked := Checked(d, o, bal, env);
    match Gate(d, o, bal, env)
    case Some(reason) => (checked.WriteError(env.now), Rejected(reason))
    case None =>
      if env.fault == PrepareLog then (checked, Aborted)
      else
        var prepared := checked.Write(LogRow(ORDER, env.now, None, Some(o.qty), None));
        var triggered := prepared.(signals := prepared.signals.Set(o.ruleId, o.side, TRIGGERED));
        if env.broker == Refuses then (Undo(triggered, o, env.now), Failed)
        else Settle(triggered, o, bal, env)
  }

  // ---- runs ----

  /** What happens to the desk: a cycle's date check, an order, a kill-switch or unlock command, a loss
      check, a restart of the process (memory is lost, the budget is restored from the log). */
  datatype Event =
    | Boundary(now: int)
    | Place(order: Order, bal: Balance, env: Surroundings)
    | Kill(now: int, level: KillLevel)
    | Unlock(now: int)
    | LossCheck(now: int, pnl: real, account: real)
    | Restart(now: int)
  {
    function Time(): int {
      if Place? then env.now else now
    }
  }

  function Restarted(d: Desk, now: int): Desk {
    Desk(Signals(map[], map[], Day(now)),
         d.limits.(executed := LoggedAmount(d.log, Day(now)), lastDate := Some(Day(now))),
         d.guard.(kill := OFF, lossLock := false, count := 0, windowStart := now),
         d.log)
  }

  function Step(d: Desk, e: Event): Desk {
    match e
    case Boundary(now) => d.(limits := d.limits.AtBoundary(Day(now)))
    case Place(o, bal, env) => Execute(d, o, bal, env).0
    case Kill(_, level) => d.(guard := d.guard.(kill := level))
    case Unlock(_) => d.(guard := d.guard.(lossLock := false))
    case LossCheck(_, pnl, account) => d.(guard := d.guard.CheckLoss(pnl, account))
    case Restart(now) => Restarted(d, now)
  }

  function Run(d: Desk, es: seq<Event>): Desk {
    if es == [] then d else Step(Run(d, es[..|es| - 1]), es[|es| - 1])
  }

  /** Event `i` is an order the broker took. */
  predicate AcceptedAt(d: Desk, es: seq<Event>, i: nat)
    requires i < |es|
  {
    es[i].Place? && Accepted(Run(d, es[..i]), es[i].order, es[i].bal, es[i].env)
  }

  /** The clock never runs backwards. */
  predicate Ordered(start: int, es: seq<Event>) {
    forall i :: 0 <= i < |es| ==> start <= es[i].Time() && forall j :: 0 <= j < i ==> es[j].Time() <= es[i].Time()
  }
}
