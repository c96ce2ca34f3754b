/** Properties of every run of the order pipeline. */
module OrderSafety {
  import opened Common
  import opened OrderModel

  // ---- at most one accepted order per rule, side and day ----

  predicate SameSlot(a: Event, b: Event) {
    a.Place? && b.Place? && a.order.ruleId == b.order.ruleId && a.order.side == b.order.side &&
    Day(a.env.now) == Day(b.env.now)
  }

  lemma DayMonotone(a: int, b: int)
    requires a <= b
    ensures Day(a) <= Day(b)
  {
  }

  lemma StepReset(d: Desk, e: Event)
    ensures var day := Step(d, e).signals.lastReset; day == d.signals.lastReset || day == Day(e.Time())
  {
  }

  /** The signals' day never passes the clock's. */
  lemma {:induction false} ResetDayBound(d: Desk, es: seq<Event>, start: int, n: nat)
    requires Ordered(start, es) && n <= |es| && d.signals.lastReset <= Day(start)
    ensures Run(d, es[..n]).signals.lastReset <= Day(if n == 0 then start else es[n - 1].Time())
  {
    if n > 0 {
      ResetDayBound(d, es, start, n - 1);
      assert es[..n][..n - 1] == es[..n - 1];
      StepReset(Run(d, es[..n - 1]), es[n - 1]);
      DayMonotone(if n == 1 then start else es[n - 2].Time(), es[n - 1].Time());
    }
  }

  /** The state an order leaves its slot in, and that it undoes no fill of another order. */
  lemma SlotAfter(d: Desk, o: Order, bal: Balance, env: Surroundings, id: int, side: OrderSide)
    requires d.signals.lastReset <= Day(env.now)
    ensures var d' := Execute(d, o, bal, env).0;
            var before := d.signals.Refresh(Day(env.now)).Get(id, side);
            && (Accepted(d, o, bal, env) && env.fault == NoFault && o.ruleId == id && o.side == side ==>
                  d'.signals.lastReset == Day(env.now) && d'.signals.Get(id, side) == FILLED)
            && (Gate(d, o, bal, env) != Some(NotHeld) ==> d'.signals.lastReset == Day(env.now))
            && (before == FILLED && Gate(d, o, bal, env) != Some(NotHeld) ==> d'.signals.Get(id, side) == FILLED)
            && (Gate(d, o, bal, env) == Some(NotHeld) ==> d'.signals == d.signals)
  {
  }

  /** The slot of order `e` has been filled on its day, unless the signals have moved to a later day. */
  predicate StillFilled(s: Signals, e: Event)
    requires e.Place?
  {
    s.lastReset >= Day(e.env.now) &&
    (s.lastReset == Day(e.env.now) ==> s.Get(e.order.ruleId, e.order.side) == FILLED)
  }

  lemma AcceptedFills(d: Desk, e: Event)
    requires e.Place? && d.signals.lastReset <= Day(e.env.now)
    requires Accepted(d, e.order, e.bal, e.env) && e.env.fault == NoFault
    ensures StillFilled(Step(d, e).signals, e)
  {
    SlotAfter(d, e.order, e.bal, e.env, e.order.ruleId, e.order.side);
  }

  lemma FillSurvives(d: Desk, e: Event, first: Event)
    requires first.Place? && StillFilled(d.signals, first) && !e.Restart?
    requires d.signals.lastReset <= Day(e.Time()) && Day(first.env.now) <= Day(e.Time())
    ensures StillFilled(Step(d, e).signals, first)
  {
    if e.Place? {
      SlotAfter(d, e.order, e.bal, e.env, first.order.ruleId, first.order.side);
    }
  }

  /** A slot in which an order was accepted and nothing raised afterwards stays filled for the day, whatever
      is executed and commanded, and whatever else raises, as long as the process is not restarted. */
  lemma {:induction false} SlotStaysFilled(d: Desk, es: seq<Event>, start: int, i: nat, n: nat)
    requires Ordered(start, es) && i < n <= |es| && d.signals.lastReset <= Day(start)
    requires AcceptedAt(d, es, i) && es[i].env.fault == NoFault
    requires forall k :: i < k < n ==> !es[k].Restart?
    ensures StillFilled(Run(d, es[..n]).signals, es[i])
    decreases n
  {
    assert es[..n][..n - 1] == es[..n - 1];
    ResetDayBound(d, es, start, n - 1);
    DayMonotone(if n == 1 then start else es[n - 2].Time(), es[n - 1].Time());
    if i < n - 1 {
      SlotStaysFilled(d, es, start, i, n - 1);
      DayMonotone(es[i].Time(), es[n - 1].Time());
      FillSurvives(Run(d, es[..n - 1]), es[n - 1], es[i]);
    } else {
      AcceptedFills(Run(d, es[..i]), es[i]);
    }
  }

  /** Two orders of one rule and side accepted on one day: then something raised after the broker took the
      first one, or the process was restarted between them. Nothing else lets an order through twice. */
  lemma AtMostOncePerDay(d: Desk, es: seq<Event>, start: int, i: nat, j: nat)
    requires Ordered(start, es) && i < j < |es| && d.signals.lastReset <= Day(start)
    requires AcceptedAt(d, es, i) && AcceptedAt(d, es, j) && SameSlot(es[i], es[j])
    ensures es[i].env.fault != NoFault || exists k :: i < k < j && es[k].Restart?
  {
    if es[i].env.fault == NoFault && forall k :: i < k < j ==> !es[k].Restart? {
      SlotStaysFilled(d, es, start, i, j);
      ResetDayBound(d, es, start, j);
      DayMonotone(es[j - 1].Time(), es[j].Time());
      assert false;
    }
  }

  /** A restart between them does let the same order through twice: fills are kept in memory only. */
  lemma RestartAllowsSecondOrder(d: Desk, o: Order, bal: Balance, env: Surroundings, now: int, later: Surroundings)
    requires Accepted(d, o, bal, env) && o.side == SELL && Day(env.now) == Day(now) == Day(later.now)
    requires later.quote == env.quote && later.broker == Accepts && later.fault == NoFault
    ensures var es := [Place(o, bal, env), Restart(now), Place(o, bal, later)];
            AcceptedAt(d, es, 0) && AcceptedAt(d, es, 2) && SameSlot(es[0], es[2])
  {
    var es := [Place(o, bal, env), Restart(now), Place(o, bal, later)];
    assert es[..1] == [es[0]] && es[..2] == [es[0], es[1]];
    assert [es[0]][..0] == [] && [es[0], es[1]][..1] == [es[0]];
    assert Run(d, es[..1]) == Execute(d, o, bal, env).0;
    AcceptedRoom(d, o, bal, env);
    SecondAccepted(Execute(d, o, bal, env).0, o, bal, env, now, later);
  }

  lemma AcceptedRoom(d: Desk, o: Order, bal: Balance, env: Surroundings)
    requires Accepted(d, o, bal, env)
    ensures Execute(d, o, bal, env).0.guard.maxOrders == d.guard.maxOrders > 0
    ensures PriceOk(o.price, env.quote) && (o.side == SELL ==> bal.Holds(o.symbol))
  {
  }

  lemma SecondAccepted(d: Desk, o: Order, bal: Balance, env: Surroundings, now: int, later: Surroundings)
    requires o.side == SELL && bal.Holds(o.symbol) && PriceOk(o.price, env.quote) && d.guard.maxOrders > 0
    requires later.quote == env.quote && later.broker == Accepts && later.fault == NoFault
    ensures Accepted(Restarted(d, now), o, bal, later)
  {
  }

  /** Exactly the executions in which something raises after the broker took the order leave the rule free
      to order again the same day. */
  lemma AcceptanceKept(d: Desk, o: Order, bal: Balance, env: Surroundings)
    requires d.signals.lastReset <= Day(env.now) && Accepted(d, o, bal, env)
    ensures Execute(d, o, bal, env).0.signals.Get(o.ruleId, o.side) == FILLED <==> env.fault == NoFault
    ensures Execute(d, o, bal, env).0.signals.Get(o.ruleId, o.side) == IDLE <==> env.fault != NoFault
    ensures Execute(d, o, bal, env).1 == if env.fault == NoFault then Succeeded else Failed
  {
  }

  /** After a late fault the same order is accepted again exactly if the order counter leaves room and, for a
      buy, the budget does with what the first one booked: nothing else stops it. */
  lemma FaultAllowsSecondOrder(d: Desk, o: Order, bal: Balance, env: Surroundings)
    requires Accepted(d, o, bal, env) && env.fault != NoFault && d.signals.lastReset <= Day(env.now)
    ensures var d' := Execute(d, o, bal, env).0;
            Accepted(d', o, bal, env) <==>
            d.guard.Roll(env.now).count + 1 < d.guard.maxOrders &&
            (o.side == BUY ==>
               (if env.fault == Callback then d.limits else d.limits.Record(o.Amount())).BudgetOk(bal.cash, o.Amount()))
  {
  }

  /** An execution resets the signals when due and writes its own slot at most. */
  lemma ExecuteSignals(d: Desk, o: Order, bal: Balance, env: Surroundings)
    ensures var s, r := Execute(d, o, bal, env).0.signals, d.signals.Refresh(Day(env.now));
            s == d.signals || s == r || s == r.Set(o.ruleId, o.side, IDLE) || s == r.Set(o.ruleId, o.side, FILLED)
  {
    var r := d.signals.Refresh(Day(env.now));
    SetTwice(r, o.ruleId, o.side, TRIGGERED, IDLE);
    SetTwice(r, o.ruleId, o.side, TRIGGERED, FILLED);
    SetTwice(r, o.ruleId, o.side, FILLED, IDLE);
  }

  lemma SetTwice(s: Signals, id: int, side: OrderSide, first: Signal, last: Signal)
    ensures s.Set(id, side, first).Set(id, side, last) == s.Set(id, side, last)
  {
    var states := if side == BUY then s.buy else s.sell;
    assert states[id := first][id := last] == states[id := last];
  }

  /** Orders of one rule and side do not change the state of another slot, except by moving to a new day. */
  lemma SlotsIndependent(d: Desk, o: Order, bal: Balance, env: Surroundings, id: int, side: OrderSide)
    requires id != o.ruleId || side != o.side
    requires d.signals.lastReset >= Day(env.now)
    ensures Execute(d, o, bal, env).0.signals.Get(id, side) == d.signals.Get(id, side)
  {
    ExecuteSignals(d, o, bal, env);
  }

  // ---- when an order is accepted ----

  /** The price found when asking again lies within one percent of the expected one. */
  lemma PriceWithinPercent(expected: real, found: real)
    ensures PriceOk(expected, Some(found)) <==>
            expected > 0.0 && expected * 99.0 <= found * 100.0 <= expected * 101.0
  {
    if expected > 0.0 {
      Percent(Abs(found - expected), expected);
    }
  }

  lemma Percent(gap: real, whole: real)
    requires whole > 0.0
    ensures gap / whole * 100.0 <= 1.0 <==> gap * 100.0 <= whole
  {
    var share := gap / whole;
    assert share * whole == gap;
    if share * 100.0 <= 1.0 {
      Scaled(share * 100.0, 1.0, whole);
    } else {
      ScaledStrictly(1.0, share * 100.0, whole);
    }
  }

  lemma Scaled(x: real, y: real, z: real)
    requires x <= y && z > 0.0
    ensures x * z <= y * z
  {
  }

  lemma ScaledStrictly(x: real, y: real, z: real)
    requires x < y && z > 0.0
    ensures x * z < y * z
  {
  }

  /** Exactly these conditions let the broker take an order, whichever gate is tried first. */
  lemma AcceptedExactly(d: Desk, o: Order, bal: Balance, env: Surroundings)
    ensures Accepted(d, o, bal, env) <==>
            && (o.side == SELL ==> bal.Holds(o.symbol))
            && (d.signals.lastReset < Day(env.now) || d.signals.Get(o.ruleId, o.side) == IDLE)
            && (o.side == BUY ==> d.limits.BudgetOk(bal.cash, o.Amount()) && |bal.positions| < d.limits.maxPositions)
            && d.guard.kill == OFF && !d.guard.lossLock
            && (if env.now - d.guard.windowStart > MINUTE then 0 < d.guard.maxOrders
                else d.guard.count < d.guard.maxOrders)
            && PriceOk(o.price, env.quote)
            && env.fault != PrepareLog && env.broker == Accepts
  {
  }

  /** An order that is not accepted books nothing and fills no slot. */
  lemma RefusedHarmless(d: Desk, o: Order, bal: Balance, env: Surroundings)
    requires !Accepted(d, o, bal, env)
    ensures var d' := Execute(d, o, bal, env).0;
            d'.limits == d.limits && d'.guard.count <= d.guard.count &&
            d'.guard.Enabled() == d.guard.Enabled() &&
            forall id, side :: d'.signals.Get(id, side) == FILLED ==> d.signals.Get(id, side) == FILLED
  {
  }

  /** Why an order is rejected: the first of these conditions that fails. */
  lemma RejectedExactly(d: Desk, o: Order, bal: Balance, env: Surroundings)
    ensures var status := Execute(d, o, bal, env).1;
            var missing := o.side == SELL && forall p :: p in bal.positions ==> p.symbol != o.symbol;
            var taken := d.signals.lastReset >= Day(env.now) && d.signals.Get(o.ruleId, o.side) != IDLE;
            var dear := o.side == BUY && d.limits.executed + o.Amount() > bal.cash * d.limits.ratio;
            var full := o.side == BUY && |bal.positions| >= d.limits.maxPositions;
            var off := d.guard.kill != OFF || d.guard.lossLock;
            var fast := (if env.now - d.guard.windowStart > MINUTE then 0 else d.guard.count) >= d.guard.maxOrders;
            && (status == Rejected(NotHeld) <==> missing)
            && (status == Rejected(Duplicate) <==> !missing && taken)
            && (status == Rejected(Budget) <==> !missing && !taken && dear)
            && (status == Rejected(MaxPositions) <==> !missing && !taken && !dear && full)
            && (status == Rejected(TradingOff) <==> !missing && !taken && !dear && !full && off)
            && (status == Rejected(Speed) <==> !missing && !taken && !dear && !full && !off && fast)
            && (status == Rejected(PriceMismatch) <==>
                  !missing && !taken && !dear && !full && !off && !fast && !PriceOk(o.price, env.quote))
  {
  }

  /** A rejected order leaves an error row, and what the checks did on the way: signals of an earlier day are
      cleared unless the first check failed, and a minute that is over starts a new window if the speed check
      was reached. */
  lemma RejectionLeaves(d: Desk, o: Order, bal: Balance, env: Surroundings)
    requires Execute(d, o, bal, env).1.Rejected?
    ensures var (d', status) := Execute(d, o, bal, env);
            && d'.limits == d.limits && d'.log == d.log + [LogRow(ERROR, env.now, None, None, None)]
            && d'.signals == (if status.reason != NotHeld && d.signals.lastReset < Day(env.now)
                              then Signals(map[], map[], Day(env.now)) else d.signals)
            && d'.guard == (if status.reason in {Speed, PriceMismatch} && env.now > d.guard.windowStart + MINUTE
                            then d.guard.(count := 0, windowStart := env.now) else d.guard)
  {
  }

  // ---- what is logged ----

  function Kinds(log: seq<LogRow>): seq<LogKind> {
    seq(|log|, i requires 0 <= i < |log| => log[i].kind)
  }

  lemma KindsMore(log: seq<LogRow>, row: LogRow)
    ensures Kinds(log + [row]) == Kinds(log) + [row.kind]
  {
  }

  /** The kinds of the rows an execution appends. */
  function RowKinds(d: Desk, o: Order, bal: Balance, env: Surroundings): seq<LogKind> {
    match Execute(d, o, bal, env).1
    case Rejected(_) => [ERROR]
    case Aborted => []
    case Succeeded => [ORDER, ORDER, FILL]
    case Failed => if env.broker == Accepts && env.fault == FillLog then [ORDER, ORDER, ERROR] else [ORDER, ERROR]
  }

  lemma RowsAppended(d: Desk, o: Order, bal: Balance, env: Surroundings)
    ensures Kinds(Execute(d, o, bal, env).0.log) == Kinds(d.log) + RowKinds(d, o, bal, env)
  {
    assert Kinds(d.log) + [] == Kinds(d.log);
  }

  /** The position a sell refers to: the first one of its symbol. */
  predicate FirstOf(ps: seq<Position>, symbol: string, i: nat) {
    i < |ps| && ps[i].symbol == symbol && forall j :: 0 <= j < i ==> ps[j].symbol != symbol
  }

  lemma {:induction false} FirstHoldingIs(ps: seq<Position>, symbol: string)
    ensures var i := FirstHolding(ps, symbol);
            if i < |ps| then FirstOf(ps, symbol, i) else forall p :: p in ps ==> p.symbol != symbol
  {
    if ps != [] && ps[0].symbol != symbol {
      FirstHoldingIs(ps[1..], symbol);
      assert ps == [ps[0]] + ps[1..];
    }
  }

  /** A sell's profit is that over the average price of the symbol's first position, unless that price or the
      profit is zero; a buy has none. */
  lemma ProfitExactly(o: Order, bal: Balance, i: nat)
    ensures o.side == BUY ==> Profit(o, bal) == None
    ensures o.side == SELL && FirstOf(bal.positions, o.symbol, i) ==>
              var average, r := bal.positions[i].avgPrice, Profit(o, bal);
              && (r == None <==> average == 0.0 || (o.price - average) * o.qty as real == 0.0)
              && (r.Some? ==> r.value == (o.price - average) * o.qty as real)
  {
    FirstHoldingIs(bal.positions, o.symbol);
    if FirstOf(bal.positions, o.symbol, i) {
      assert bal.positions[i] in bal.positions;
      assert FirstHolding(bal.positions, o.symbol) == i;
    }
  }

  /** An order without a late fault leaves a fill row with its price, quantity and profit at the end of the log. */
  lemma FillRow(d: Desk, o: Order, bal: Balance, env: Surroundings)
    requires Accepted(d, o, bal, env) && env.fault == NoFault
    ensures var log := Execute(d, o, bal, env).0.log;
            log != [] && log[|log| - 1] == LogRow(FILL, env.now, Some(o.price), Some(o.qty), Profit(o, bal))
  {
  }

  // ---- no order while trading is off ----

  /** While the kill switch is on or the loss lock holds, nothing is accepted, whatever else happens. */
  lemma {:induction false} OffMeansNoOrders(d: Desk, es: seq<Event>, i: nat)
    requires i < |es|
    requires (d.guard.kill != OFF &&
              forall k :: 0 <= k < i ==> !es[k].Restart? && (es[k].Kill? ==> es[k].level != OFF)) ||
             (d.guard.lossLock && forall k :: 0 <= k < i ==> !es[k].Restart? && !es[k].Unlock?)
    ensures !Run(d, es[..i]).guard.Enabled()
    ensures !AcceptedAt(d, es, i)
  {
    GuardStays(d, es, i);
  }

  /** A loss above the threshold stops trading until someone lifts the lock or restarts the process. */
  lemma LossStopsTrading(d: Desk, es: seq<Event>, i: nat, n: nat)
    requires i < n < |es| && es[i].LossCheck? && LossAbove(d.guard.maxLossPct, es[i].pnl, es[i].account)
    requires forall k :: i < k < n ==> !es[k].Restart? && !es[k].Unlock?
    ensures Run(d, es[..n]).guard.lossLock && !AcceptedAt(d, es, n)
  {
    LockStays(d, es, i, n);
  }

  lemma {:induction false} LockStays(d: Desk, es: seq<Event>, i: nat, n: nat)
    requires i < n <= |es| && es[i].LossCheck? && LossAbove(d.guard.maxLossPct, es[i].pnl, es[i].account)
    requires forall k :: i < k < n ==> !es[k].Restart? && !es[k].Unlock?
    ensures Run(d, es[..n]).guard.lossLock
    decreases n
  {
    assert es[..n][..n - 1] == es[..n - 1];
    var before, e := Run(d, es[..n - 1]), es[n - 1];
    if i == n - 1 {
      SameThreshold(d, es, n - 1);
      CheckLossExactly(before.guard, e.pnl, e.account);
    } else {
      LockStays(d, es, i, n - 1);
      GuardStep(before, e);
    }
  }

  lemma {:induction false} SameThreshold(d: Desk, es: seq<Event>, n: nat)
    requires n <= |es|
    ensures Run(d, es[..n]).guard.maxLossPct == d.guard.maxLossPct
  {
    if n > 0 {
      SameThreshold(d, es, n - 1);
      assert es[..n][..n - 1] == es[..n - 1];
      StepThreshold(Run(d, es[..n - 1]), es[n - 1]);
    }
  }

  lemma StepThreshold(d: Desk, e: Event)
    ensures Step(d, e).guard.maxLossPct == d.guard.maxLossPct
  {
  }

  /** A restart forgets fills, switch, lock and the order counter. */
  lemma RestartForgets(d: Desk, now: int)
    ensures var d' := Step(d, Restart(now));
            && (forall id, side :: d'.signals.Get(id, side) == IDLE)
            && d'.guard.kill == OFF && !d'.guard.lossLock && d'.guard.count == 0 && d'.log == d.log
            && d'.guard.windowStart == now && d'.signals.lastReset == Day(now)
            && d'.guard.maxOrders == d.guard.maxOrders && d'.guard.maxLossPct == d.guard.maxLossPct
  {
  }

  /** Commands: the switch takes the level, an unlock lifts the lock, the date check zeroes the total on another
      day than the last one; each changes nothing else. */
  lemma CommandsExactly(d: Desk, now: int, level: KillLevel)
    ensures var d' := Step(d, Kill(now, level));
            (d'.guard.Enabled() <==> level == OFF && !d.guard.lossLock) && d'.guard.kill == level &&
            d' == d.(guard := d.guard.(kill := level))
    ensures var d' := Step(d, Unlock(now));
            (d'.guard.Enabled() <==> d.guard.kill == OFF) && d' == d.(guard := d.guard.(lossLock := false))
    ensures var d' := Step(d, Boundary(now));
            d' == d.(limits := d'.limits) && d'.limits.lastDate == Some(Day(now)) &&
            d'.limits.executed ==
              (if d.limits.lastDate in {None, Some(Day(now))} then d.limits.executed else 0.0) &&
            d'.limits.ratio == d.limits.ratio && d'.limits.maxPositions == d.limits.maxPositions
  {
  }

  /** Only a restart or the switch itself turns trading back on, only a restart or an unlock lifts the lock. */
  lemma GuardStep(d: Desk, e: Event)
    requires !e.Restart?
    ensures d.guard.kill != OFF && (e.Kill? ==> e.level != OFF) ==> Step(d, e).guard.kill != OFF
    ensures d.guard.lossLock && !e.Unlock? ==> Step(d, e).guard.lossLock
  {
  }

  lemma {:induction false} GuardStays(d: Desk, es: seq<Event>, n: nat)
    requires n <= |es|
    ensures d.guard.kill != OFF &&
            (forall k :: 0 <= k < n ==> !es[k].Restart? && (es[k].Kill? ==> es[k].level != OFF)) ==>
            Run(d, es[..n]).guard.kill != OFF
    ensures d.guard.lossLock && (forall k :: 0 <= k < n ==> !es[k].Restart? && !es[k].Unlock?) ==>
            Run(d, es[..n]).guard.lossLock
  {
    if n > 0 {
      GuardStays(d, es, n - 1);
      assert es[..n][..n - 1] == es[..n - 1];
      if !es[n - 1].Restart? {
        GuardStep(Run(d, es[..n - 1]), es[n - 1]);
      }
    }
  }
}
