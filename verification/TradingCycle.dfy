/** One engine cycle: selection against the portfolio limits, then execution of the selected orders. */
module TradingCycle {
  import opened Common
  import opened OrderModel
  import opened Selection
  import opened OrderSafety

  function HeldSymbols(bal: Balance): set<string> {
    set p | p in bal.positions :: p.symbol
  }

  /** The limits the selection works within are those of the desk and the balance. */
  function CycleBounds(d: Desk, bal: Balance): Bounds {
    Bounds(HeldSymbols(bal), d.limits.maxPositions, DailyCap(bal.cash, d.limits.ratio))
  }

  function Chosen(d: Desk, bal: Balance, cs: seq<Candidate>): seq<Candidate> {
    Select(CycleBounds(d, bal), d.limits.executed, SortDesc(cs)).selected
  }

  function Places(batch: seq<Candidate>, bal: Balance, envs: seq<Surroundings>, n: nat): seq<Event>
    requires n <= |batch| == |envs|
  {
    if n == 0 then [] else Places(batch, bal, envs, n - 1) + [Place(batch[n - 1].Executed(), bal, envs[n - 1])]
  }

  /** The desk before the order with index `n`, the earlier ones having been executed in turn. */
  function DeskBefore(d: Desk, batch: seq<Candidate>, bal: Balance, envs: seq<Surroundings>, n: nat): Desk
    requires n <= |batch| == |envs|
  {
    Run(d, Places(batch, bal, envs, n))
  }

  lemma RunSnoc(d: Desk, es: seq<Event>, e: Event)
    ensures Run(d, es + [e]) == Step(Run(d, es), e)
  {
    assert (es + [e])[..|es|] == es;
  }

  lemma DeskAfter(d: Desk, batch: seq<Candidate>, bal: Balance, envs: seq<Surroundings>, n: nat)
    requires n < |batch| == |envs|
    ensures DeskBefore(d, batch, bal, envs, n + 1) ==
            Execute(DeskBefore(d, batch, bal, envs, n), batch[n].Executed(), bal, envs[n]).0
  {
    RunSnoc(d, Places(batch, bal, envs, n), Place(batch[n].Executed(), bal, envs[n]));
  }

  function Outcome(d: Desk, batch: seq<Candidate>, bal: Balance, envs: seq<Surroundings>, n: nat): Status
    requires n < |batch| == |envs|
  {
    Execute(DeskBefore(d, batch, bal, envs, n), batch[n].Executed(), bal, envs[n]).1
  }

  lemma ExecuteSpends(d: Desk, o: Order, bal: Balance, env: Surroundings)
    requires o.Amount() >= 0.0
    ensures Execute(d, o, bal, env).0.limits.(executed := d.limits.executed) == d.limits
    ensures d.limits.executed <= Execute(d, o, bal, env).0.limits.executed <= d.limits.executed + o.Amount()
  {
  }

  /** Compared with `l`, at most `amount` more has been booked. */
  predicate Spent(l: Limits, l': Limits, amount: real) {
    l'.(executed := l.executed) == l && l'.executed <= l.executed + amount
  }

  lemma SpentStep(l: Limits, d: Desk, amount: real, c: Candidate, bal: Balance, env: Surroundings)
    requires Spent(l, d.limits, amount) && Faithful(c) && c.Amount() >= 0.0
    ensures Spent(l, Execute(d, c.Executed(), bal, env).0.limits, amount + c.Amount())
  {
    ExecuteSpends(d, c.Executed(), bal, env);
  }

  /** Earlier orders spend at most their amounts, whether they succeeded or failed. */
  lemma {:induction false} SpentBound(d: Desk, batch: seq<Candidate>, bal: Balance, envs: seq<Surroundings>, n: nat)
    requires n <= |batch| == |envs| && NonNegative(batch) && forall c :: c in batch ==> Faithful(c)
    ensures Spent(d.limits, DeskBefore(d, batch, bal, envs, n).limits, Total(batch[..n]))
  {
    if n > 0 {
      var c := batch[n - 1];
      SpentBound(d, batch, bal, envs, n - 1);
      assert c in batch;
      SpentStep(d.limits, DeskBefore(d, batch, bal, envs, n - 1), Total(batch[..n - 1]), c, bal, envs[n - 1]);
      DeskAfter(d, batch, bal, envs, n - 1);
      BuysAppend(batch[..n - 1], c);
      assert batch[..n] == batch[..n - 1] + [c];
    }
  }

  lemma {:induction false} TotalPrefix(cs: seq<Candidate>, n: nat)
    requires n <= |cs| && NonNegative(cs)
    ensures Total(cs[..n]) <= Total(cs)
    decreases |cs|
  {
    if n < |cs| {
      var init := cs[..|cs| - 1];
      assert init[..n] == cs[..n];
      assert cs[|cs| - 1] in cs;
      TotalPrefix(init, n);
    } else {
      assert cs[..n] == cs;
    }
  }

  lemma {:induction false} AllBuys(cs: seq<Candidate>)
    requires forall c :: c in cs ==> c.side == BUY
    ensures Buys(cs) == cs
  {
    if cs != [] {
      AllBuys(cs[..|cs| - 1]);
      assert cs[|cs| - 1] in cs;
      assert cs == cs[..|cs| - 1] + [cs[|cs| - 1]];
    }
  }

  lemma {:induction false} SelectedMember(b: Bounds, executed: real, cs: seq<Candidate>, c: Candidate)
    requires c in Select(b, executed, cs).selected
    ensures c in cs
  {
    var n := |cs| - 1;
    if c in Select(b, executed, cs[..n]).selected {
      SelectedMember(b, executed, cs[..n], c);
      assert c in cs[..n];
    }
  }

  lemma ChosenMembers(d: Desk, bal: Balance, cs: seq<Candidate>)
    ensures forall c :: c in Chosen(d, bal, cs) ==> c in cs
  {
    forall c | c in Chosen(d, bal, cs)
      ensures c in cs
    {
      SelectedMember(CycleBounds(d, bal), d.limits.executed, SortDesc(cs), c);
      SortMembers(cs, c);
    }
  }

  /** A batch of selected buys fits the daily budget up to each of its orders. */
  lemma BatchFits(b: Bounds, executed: real, cs: seq<Candidate>, n: nat)
    requires NonNegative(Select(b, executed, cs).selected)
    requires var batch := Select(b, executed, cs).selected; n < |batch| && forall c :: c in batch ==> c.side == BUY
    ensures var batch := Select(b, executed, cs).selected;
            executed + Total(batch[..n]) + batch[n].Amount() <= b.maxDaily && |b.held| < b.maxPositions
  {
    var batch := Select(b, executed, cs).selected;
    assert |b.held| + |batch| <= b.maxPositions && executed + Total(batch) <= b.maxDaily by {
      SelectSafe(b, executed, cs);
      AllBuys(batch);
    }
    TotalUpTo(batch, n);
  }

  lemma TotalUpTo(cs: seq<Candidate>, n: nat)
    requires n < |cs| && NonNegative(cs)
    ensures Total(cs[..n]) + cs[n].Amount() <= Total(cs)
  {
    TotalPrefix(cs, n + 1);
    assert cs[..n + 1] == cs[..n] + [cs[n]];
    BuysAppend(cs[..n], cs[n]);
  }

  /** After spending `spent`, the candidate still fits the budget, and there is room for a position. */
  predicate Fits(l: Limits, bal: Balance, spent: real, c: Candidate) {
    l.executed + spent + c.Amount() <= bal.cash * l.ratio && |bal.positions| < l.maxPositions
  }

  lemma ChosenFits(d: Desk, bal: Balance, cs: seq<Candidate>, n: nat)
    requires NonNegative(cs) && |HeldSymbols(bal)| == |bal.positions|
    requires var batch := Chosen(d, bal, cs); n < |batch| && forall c :: c in batch ==> c.side == BUY
    ensures var batch := Chosen(d, bal, cs);
            Fits(d.limits, bal, Total(batch[..n]), batch[n]) && NonNegative(batch)
  {
    ChosenMembers(d, bal, cs);
    BatchFits(CycleBounds(d, bal), d.limits.executed, SortDesc(cs), n);
  }

  /** What fits after the whole earlier batch fits after whatever part of it went through. */
  lemma StillFits(d: Desk, batch: seq<Candidate>, bal: Balance, envs: seq<Surroundings>, n: nat)
    requires n < |batch| == |envs| && NonNegative(batch) && forall c :: c in batch ==> Faithful(c)
    requires Fits(d.limits, bal, Total(batch[..n]), batch[n])
    ensures LimitsAllow(DeskBefore(d, batch, bal, envs, n).limits, batch[n].Executed(), bal)
  {
    var before := DeskBefore(d, batch, bal, envs, n).limits;
    var c, spent := batch[n], Total(batch[..n]);
    assert Spent(d.limits, before, spent) by {
      SpentBound(d, batch, bal, envs, n);
    }
    assert Faithful(c) by { assert c in batch; }
    FitsAfter(d.limits, before, bal, spent, c);
  }

  predicate LimitsAllow(l: Limits, o: Order, bal: Balance) {
    l.BudgetOk(bal.cash, o.Amount()) && l.PositionsOk(|bal.positions|)
  }

  lemma FitsAfter(l: Limits, l': Limits, bal: Balance, spent: real, c: Candidate)
    requires Spent(l, l', spent) && Faithful(c)
    requires Fits(l, bal, spent, c)
    ensures LimitsAllow(l', c.Executed(), bal)
  {
    assert l'.ratio == l.ratio && l'.maxPositions == l.maxPositions;
    assert c.Executed().Amount() == c.Amount();
  }

  lemma LimitsPassed(d: Desk, o: Order, bal: Balance, env: Surroundings)
    requires LimitsAllow(d.limits, o, bal)
    ensures Execute(d, o, bal, env).1 != Rejected(Budget) && Execute(d, o, bal, env).1 != Rejected(MaxPositions)
  {
  }

  /** Selection is conservative: in a cycle that selected no sell, every selected buy passes the executor's
      budget and position-count gates, whichever earlier orders of the batch succeeded or failed. */
  lemma SelectionConservative(d: Desk, bal: Balance, cs: seq<Candidate>, envs: seq<Surroundings>, n: nat)
    requires forall c :: c in cs ==> Faithful(c) && c.Amount() >= 0.0
    requires |HeldSymbols(bal)| == |bal.positions|
    requires var batch := Chosen(d, bal, cs); n < |batch| == |envs| && forall c :: c in batch ==> c.side == BUY
    ensures Outcome(d, Chosen(d, bal, cs), bal, envs, n) != Rejected(Budget)
    ensures Outcome(d, Chosen(d, bal, cs), bal, envs, n) != Rejected(MaxPositions)
  {
    var batch := Chosen(d, bal, cs);
    ChosenMembers(d, bal, cs);
    ChosenFits(d, bal, cs, n);
    StillFits(d, batch, bal, envs, n);
    LimitsPassed(DeskBefore(d, batch, bal, envs, n), batch[n].Executed(), bal, envs[n]);
  }

  // ---- the executor's budget gate in a batch ----

  /** What a run of orders books: the amounts of those the broker took, sells included. */
  function Booked(d: Desk, es: seq<Event>): real {
    if es == [] then 0.0
    else
      var n := |es| - 1;
      Booked(d, es[..n]) +
      if AcceptedAt(d, es, n) && es[n].env.fault != Callback then es[n].order.Amount() else 0.0
  }

  lemma ExecuteBooks(d: Desk, o: Order, bal: Balance, env: Surroundings)
    ensures Execute(d, o, bal, env).0.limits ==
            d.limits.Record(if Accepted(d, o, bal, env) && env.fault != Callback then o.Amount() else 0.0)
  {
  }

  lemma {:induction false} OrdersBook(d: Desk, es: seq<Event>)
    requires forall e :: e in es ==> e.Place?
    ensures Run(d, es).limits == d.limits.Record(Booked(d, es))
  {
    if es != [] {
      var init, e := es[..|es| - 1], es[|es| - 1];
      assert e in es;
      OrdersBook(d, init);
      ExecuteBooks(Run(d, init), e.order, e.bal, e.env);
    }
  }

  /** A slot that is free on `day`. */
  predicate Free(d: Desk, id: int, side: OrderSide, day: int) {
    d.signals.Refresh(day).Get(id, side) == IDLE
  }

  lemma OtherSlotFree(d: Desk, o: Order, bal: Balance, env: Surroundings, id: int, side: OrderSide, day: int)
    requires Free(d, id, side, day) && (o.ruleId != id || o.side != side) && Day(env.now) <= day
    ensures Free(Execute(d, o, bal, env).0, id, side, day)
  {
    ExecuteSignals(d, o, bal, env);
  }

  /** An order of another slot, placed on `day` or before. */
  predicate Elsewhere(e: Event, id: int, side: OrderSide, day: int) {
    e.Place? && (e.order.ruleId != id || e.order.side != side) && Day(e.env.now) <= day
  }

  lemma {:induction false} StaysFree(d: Desk, es: seq<Event>, id: int, side: OrderSide, day: int)
    requires Free(d, id, side, day) && forall e :: e in es ==> Elsewhere(e, id, side, day)
    ensures Free(Run(d, es), id, side, day)
  {
    if es != [] {
      var init, e := es[..|es| - 1], es[|es| - 1];
      assert e in es;
      StaysFree(d, init, id, side, day);
      OtherSlotFree(Run(d, init), e.order, e.bal, e.env, id, side, day);
    }
  }

  lemma {:induction false} PlacesElsewhere(
      batch: seq<Candidate>, bal: Balance, envs: seq<Surroundings>, n: nat, id: int, side: OrderSide, day: int)
    requires n <= |batch| == |envs|
    requires forall j :: 0 <= j < n ==> (batch[j].rule.id != id || batch[j].side != side) && Day(envs[j].now) <= day
    ensures forall e :: e in Places(batch, bal, envs, n) ==> Elsewhere(e, id, side, day)
  {
    if n > 0 {
      PlacesElsewhere(batch, bal, envs, n - 1, id, side, day);
    }
  }

  lemma BudgetGate(d: Desk, o: Order, bal: Balance, env: Surroundings)
    requires o.side == BUY && Free(d, o.ruleId, BUY, Day(env.now))
    ensures Execute(d, o, bal, env).1 == Rejected(Budget) <==> !d.limits.BudgetOk(bal.cash, o.Amount())
  {
  }

  /** In any batch, sells included, the executor rejects a selected buy for the budget exactly if what the
      earlier orders of the batch booked leaves too little: the selection reserves nothing for sells, the
      executor counts them. */
  lemma BudgetRejection(d: Desk, batch: seq<Candidate>, bal: Balance, envs: seq<Surroundings>, n: nat)
    requires n < |batch| == |envs| && batch[n].side == BUY && Free(d, batch[n].rule.id, BUY, Day(envs[n].now))
    requires forall j :: 0 <= j < n ==>
               (batch[j].rule.id != batch[n].rule.id || batch[j].side != BUY) && Day(envs[j].now) <= Day(envs[n].now)
    ensures Outcome(d, batch, bal, envs, n) == Rejected(Budget) <==>
            !d.limits.Record(Booked(d, Places(batch, bal, envs, n))).BudgetOk(bal.cash, batch[n].Executed().Amount())
  {
    var es, day := Places(batch, bal, envs, n), Day(envs[n].now);
    PlacesElsewhere(batch, bal, envs, n, batch[n].rule.id, BUY, day);
    OrdersBook(d, es);
    StaysFree(d, es, batch[n].rule.id, BUY, day);
    BudgetGate(DeskBefore(d, batch, bal, envs, n), batch[n].Executed(), bal, envs[n]);
  }

  /** A cycle selects against the symbols it holds, the maximum of positions, and the share of the cash that
      the day's total leaves. */
  lemma ChoiceExactly(d: Desk, bal: Balance, cs: seq<Candidate>, held: set<string>, cap: real)
    requires forall s :: s in held <==> exists p :: p in bal.positions && p.symbol == s
    requires cap == bal.cash * d.limits.ratio
    ensures Chosen(d, bal, cs) ==
            Select(Bounds(held, d.limits.maxPositions, cap), d.limits.executed, SortDesc(cs)).selected
  {
    assert HeldSymbols(bal) == held;
    assert DailyCap(bal.cash, d.limits.ratio) == cap;
  }

  // ---- a whole cycle ----

  /** The minutes after the market opens and from its close on, in which nothing is evaluated. */
  predicate Suspended(now: int) {
    var hour, minute := now % DAY / HOUR, now % HOUR / MINUTE;
    (hour == 9 && minute < 2) || (hour == 15 && minute >= 30)
  }

  /** What a cycle meets besides its candidates: whether the engine runs and any rule is active, whether the
      queries before the loss check and the steps between it and the first order succeed, the day's realized
      profit, the account's value and the balance. */
  datatype Market = Market(
    now: int, running: bool, active: bool, queried: bool, prepared: bool, pnl: real, account: real, bal: Balance)
  {
    predicate Evaluates() {
      running && !Suspended(now) && active && queried
    }
  }

  /** What a selected order meets: its log entry may raise before it, the recording of its result after it. */
  datatype Turn = Turn(env: Surroundings, announced: bool, reported: bool)

  function Envs(turns: seq<Turn>): seq<Surroundings> {
    seq(|turns|, i requires 0 <= i < |turns| => turns[i].env)
  }

  /** The desk after the date check and, while trading is on, the loss check. */
  function Opened(d: Desk, k: Market): Desk {
    if !k.running then d
    else
      var d1 := d.(limits := d.limits.AtBoundary(Day(k.now)));
      if k.Evaluates() && d1.guard.Enabled() then d1.(guard := d1.guard.CheckLoss(k.pnl, k.account)) else d1
  }

  function Batch(d: Desk, k: Market, cs: seq<Candidate>): seq<Candidate> {
    if k.Evaluates() && k.prepared && Opened(d, k).guard.Enabled() then Chosen(Opened(d, k), k.bal, cs) else []
  }

  /** What the orders of a batch would meet with if all are executed. */
  function Outcomes(d: Desk, batch: seq<Candidate>, bal: Balance, turns: seq<Turn>): (outs: seq<Status>)
    requires |batch| == |turns|
    ensures |outs| == |batch|
  {
    seq(|batch|, j requires 0 <= j < |batch| => Outcome(d, batch, bal, Envs(turns), j))
  }

  /** How many orders are executed, from the `i`-th on: an exception outside the executor's own handler
      ends the cycle. */
  function Until(outs: seq<Status>, turns: seq<Turn>, i: nat): (n: nat)
    requires i <= |outs| == |turns|
    ensures i <= n <= |outs|
    decreases |outs| - i
  {
    if i == |outs| || !turns[i].announced then i
    else if outs[i] == Aborted || !turns[i].reported then i + 1
    else Until(outs, turns, i + 1)
  }

  function Executed(d: Desk, batch: seq<Candidate>, bal: Balance, turns: seq<Turn>, i: nat): (n: nat)
    requires i <= |batch| == |turns|
    ensures i <= n <= |batch|
  {
    Until(Outcomes(d, batch, bal, turns), turns, i)
  }

  /** One order of a batch: its outcome, the desk after it, and how many orders are executed in all. */
  lemma OneTurn(d: Desk, batch: seq<Candidate>, bal: Balance, turns: seq<Turn>, i: nat)
    requires i < |batch| == |turns|
    ensures var envs := Envs(turns);
            var (after, status) := Execute(DeskBefore(d, batch, bal, envs, i), batch[i].Executed(), bal, turns[i].env);
            DeskBefore(d, batch, bal, envs, i + 1) == after &&
            Executed(d, batch, bal, turns, i) ==
            if !turns[i].announced then i
            else if status == Aborted || !turns[i].reported then i + 1 else Executed(d, batch, bal, turns, i + 1)
  {
    DeskAfter(d, batch, bal, Envs(turns), i);
    assert Outcomes(d, batch, bal, turns)[i] == Outcome(d, batch, bal, Envs(turns), i);
  }

  /** The cycle goes on after an order. */
  predicate Goes(out: Status, turn: Turn) {
    turn.reported && out != Aborted
  }

  /** Orders from the `i`-th on are executed up to the first whose announcement raises, or up to and including
      the first that aborts or whose report raises. */
  lemma {:induction false} ExecutedExactly(outs: seq<Status>, turns: seq<Turn>, i: nat)
    requires i <= |outs| == |turns|
    ensures var n := Until(outs, turns, i);
            && (forall j :: i <= j < n ==> turns[j].announced)
            && (forall j :: i <= j < n - 1 ==> Goes(outs[j], turns[j]))
            && (n < |outs| ==> !turns[n].announced || (i < n && !Goes(outs[n - 1], turns[n - 1])))
    decreases |outs| - i
  {
    if i < |outs| && turns[i].announced && Goes(outs[i], turns[i]) {
      ExecutedExactly(outs, turns, i + 1);
    }
  }

  /** Evaluation rests from 9:00 to 9:02 and from 15:30 to 16:00. */
  lemma SuspendedExactly(now: int)
    ensures var t := now % DAY;
            Suspended(now) <==>
            (540 * MINUTE <= t < 542 * MINUTE || 930 * MINUTE <= t < 960 * MINUTE)
  {
    var t := now % DAY;
    assert now == (24 * (now / DAY) + t / HOUR) * HOUR + t % HOUR;
    assert now % HOUR == t % HOUR;
    assert t == t / HOUR * HOUR + t % HOUR;
    assert t % HOUR == t % HOUR / MINUTE * MINUTE + t % HOUR % MINUTE;
  }

  /** What a cycle may select from: nothing unless the engine runs, outside the resting times, with an active
      rule, successful queries and preparation, and with trading neither off nor stopped by today's loss. */
  lemma BatchExactly(d: Desk, k: Market, cs: seq<Candidate>)
    ensures var open := k.running && !Suspended(k.now) && k.active && k.queried && k.prepared &&
                        d.guard.kill == OFF && !d.guard.lossLock && !LossAbove(d.guard.maxLossPct, k.pnl, k.account);
            Batch(d, k, cs) ==
            if open then Chosen(d.(limits := d.limits.AtBoundary(Day(k.now))), k.bal, cs) else []
  {
    CheckLossExactly(d.guard, k.pnl, k.account);
  }

  function Cycle(d: Desk, k: Market, cs: seq<Candidate>, turns: seq<Turn>): Desk
    requires |turns| == |Batch(d, k, cs)|
  {
    var ready, batch := Opened(d, k), Batch(d, k, cs);
    DeskBefore(ready, batch, k.bal, Envs(turns), Executed(ready, batch, k.bal, turns, 0))
  }

  /** A cycle as pipeline events, to which everything proved about runs applies. */
  function CycleEvents(d: Desk, k: Market, cs: seq<Candidate>, turns: seq<Turn>): seq<Event>
    requires |turns| == |Batch(d, k, cs)|
  {
    OpeningEvents(d, k) +
    Places(Batch(d, k, cs), k.bal, Envs(turns), Executed(Opened(d, k), Batch(d, k, cs), k.bal, turns, 0))
  }

  function OpeningEvents(d: Desk, k: Market): seq<Event> {
    if !k.running then []
    else if k.Evaluates() && d.guard.Enabled() then [Boundary(k.now), LossCheck(k.now, k.pnl, k.account)]
    else [Boundary(k.now)]
  }

  lemma Regrouped(a: seq<Event>, b: seq<Event>)
    requires b != []
    ensures var init, e := b[..|b| - 1], b[|b| - 1]; b == init + [e] && a + b == (a + init) + [e]
  {
  }

  lemma {:induction false} RunConcat(d: Desk, a: seq<Event>, b: seq<Event>)
    ensures Run(d, a + b) == Run(Run(d, a), b)
  {
    if b == [] {
      assert a + b == a;
    } else {
      var init, e := b[..|b| - 1], b[|b| - 1];
      RunConcat(d, a, init);
      Regrouped(a, b);
      RunSnoc(d, a + init, e);
      RunSnoc(Run(d, a), init, e);
    }
  }

  lemma OpeningRun(d: Desk, k: Market)
    ensures Run(d, OpeningEvents(d, k)) == Opened(d, k)
  {
    var es := OpeningEvents(d, k);
    assert [Boundary(k.now)][..0] == [];
    assert Run(d, [Boundary(k.now)]) == Step(d, Boundary(k.now));
    assert |es| == 2 ==> es[..1] == [Boundary(k.now)];
  }

  /** A cycle is a run of the pipeline, so everything proved of runs holds across any number of cycles. */
  lemma CycleIsRun(d: Desk, k: Market, cs: seq<Candidate>, turns: seq<Turn>)
    requires |turns| == |Batch(d, k, cs)|
    ensures Cycle(d, k, cs, turns) == Run(d, CycleEvents(d, k, cs, turns))
  {
    var ready, batch := Opened(d, k), Batch(d, k, cs);
    var n := Executed(ready, batch, k.bal, turns, 0);
    OpeningRun(d, k);
    RunConcat(d, OpeningEvents(d, k), Places(batch, k.bal, Envs(turns), n));
  }
}
