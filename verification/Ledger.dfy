/** The day's budget total, the orders accepted that day and the total recomputed from the log agree in
    every run, so a restart changes no later budget decision. */
module Ledger {
  import opened Common
  import opened OrderModel
  import opened OrderSafety

  /** The summed amounts of the orders accepted on `day`, both sides. */
  function AcceptedAmount(d: Desk, es: seq<Event>, day: int): real {
    if es == [] then 0.0
    else
      var n := |es| - 1;
      AcceptedAmount(d, es[..n], day) +
      if AcceptedAt(d, es, n) && Day(es[n].env.now) == day then es[n].order.Amount() else 0.0
  }

  /** Orders are placed on the day of the latest date check, as within one cycle; the confirmation of a
      taken order is booked and logged. */
  predicate BookedAt(d: Desk, es: seq<Event>, i: nat)
    requires i < |es|
  {
    es[i].Place? ==>
      Run(d, es[..i]).limits.lastDate == Some(Day(es[i].env.now)) &&
      es[i].env.fault != Callback && es[i].env.fault != SubmitLog
  }

  /** The desk at the start of a run: total and log agree on the day `start` lies in. */
  predicate Opening(d: Desk, start: int) {
    && d.limits.lastDate == Some(Day(start))
    && d.limits.executed == LoggedAmount(d.log, Day(start))
    && forall r :: r in d.log ==> Day(r.at) <= Day(start)
  }

  lemma {:induction false} NoRowsLater(log: seq<LogRow>, day: int)
    requires forall r :: r in log ==> Day(r.at) < day
    ensures LoggedAmount(log, day) == 0.0
  {
    if log != [] { NoRowsLater(log[..|log| - 1], day); }
  }

  lemma {:induction false} NoOrdersLater(d: Desk, es: seq<Event>, day: int)
    requires forall k :: 0 <= k < |es| && es[k].Place? ==> Day(es[k].env.now) < day
    ensures AcceptedAmount(d, es, day) == 0.0
  {
    if es != [] { NoOrdersLater(d, es[..|es| - 1], day); }
  }

  lemma LoggedAppend(log: seq<LogRow>, row: LogRow, day: int)
    ensures LoggedAmount(log + [row], day) == LoggedAmount(log, day) + RowAmount(row, day)
  {
    assert (log + [row])[..|log|] == log;
  }

  /** The rows one execution writes. */
  function Rows(d: Desk, o: Order, bal: Balance, env: Surroundings): seq<LogRow> {
    var error := LogRow(ERROR, env.now, None, None, None);
    var prepare := LogRow(ORDER, env.now, None, Some(o.qty), None);
    var submit := LogRow(ORDER, env.now, Some(o.price), Some(o.qty), None);
    if Gate(d, o, bal, env).Some? then [error]
    else if env.fault == PrepareLog then []
    else if env.broker == Refuses || env.fault == Callback || env.fault == SubmitLog then [prepare, error]
    else if env.fault == FillLog then [prepare, submit, error]
    else [prepare, submit, LogRow(FILL, env.now, Some(o.price), Some(o.qty), Profit(o, bal))]
  }

  lemma ExecuteRows(d: Desk, o: Order, bal: Balance, env: Surroundings)
    ensures Execute(d, o, bal, env).0.log == d.log + Rows(d, o, bal, env)
    ensures forall r :: r in Rows(d, o, bal, env) ==> r.at == env.now
  {
  }

  lemma {:induction false} LoggedConcat(log: seq<LogRow>, rows: seq<LogRow>, day: int)
    ensures LoggedAmount(log + rows, day) == LoggedAmount(log, day) + LoggedAmount(rows, day)
  {
    if rows == [] {
      assert log + rows == log;
    } else {
      var n := |rows| - 1;
      LoggedConcat(log, rows[..n], day);
      assert log + rows == (log + rows[..n]) + [rows[n]];
      LoggedAppend(log + rows[..n], rows[n], day);
    }
  }

  lemma TwoRows(a: LogRow, b: LogRow, day: int)
    ensures LoggedAmount([a], day) == RowAmount(a, day)
    ensures LoggedAmount([a, b], day) == RowAmount(a, day) + RowAmount(b, day)
  {
    assert [a][..0] == [] && [a, b][..1] == [a];
  }

  lemma ThreeRows(a: LogRow, b: LogRow, c: LogRow, day: int)
    ensures LoggedAmount([a, b, c], day) == RowAmount(a, day) + RowAmount(b, day) + RowAmount(c, day)
  {
    TwoRows(a, b, day);
    assert [a, b, c][..2] == [a, b];
  }

  lemma RowsAmount(d: Desk, o: Order, bal: Balance, env: Surroundings)
    requires env.fault != Callback && env.fault != SubmitLog
    ensures LoggedAmount(Rows(d, o, bal, env), Day(env.now)) == if Accepted(d, o, bal, env) then o.Amount() else 0.0
  {
    var today := Day(env.now);
    var error := LogRow(ERROR, env.now, None, None, None);
    var prepare := LogRow(ORDER, env.now, None, Some(o.qty), None);
    var submit := LogRow(ORDER, env.now, Some(o.price), Some(o.qty), None);
    var fill := LogRow(FILL, env.now, Some(o.price), Some(o.qty), Profit(o, bal));
    assert RowAmount(error, today) == RowAmount(prepare, today) == RowAmount(fill, today) == 0.0;
    if Accepted(d, o, bal, env) {
      SubmitAmount(o, env.now);
      ThreeRows(prepare, submit, if env.fault == FillLog then error else fill, today);
    } else {
      TwoRows(error, error, today);
      TwoRows(prepare, error, today);
    }
  }

  lemma ExecuteLimits(d: Desk, o: Order, bal: Balance, env: Surroundings)
    requires env.fault != Callback
    ensures Execute(d, o, bal, env).0.limits ==
            d.limits.(executed := d.limits.executed + if Accepted(d, o, bal, env) then o.Amount() else 0.0)
  {
  }

  /** What one order adds to the total and to the log: its amount if it was accepted, nothing otherwise. */
  lemma PlaceBooks(d: Desk, o: Order, bal: Balance, env: Surroundings)
    requires env.fault != Callback && env.fault != SubmitLog
    ensures var d' := Execute(d, o, bal, env).0;
            var amount := if Accepted(d, o, bal, env) then o.Amount() else 0.0;
            && d'.limits == d.limits.(executed := d.limits.executed + amount)
            && LoggedAmount(d'.log, Day(env.now)) == LoggedAmount(d.log, Day(env.now)) + amount
            && forall r :: r in d'.log ==> r in d.log || r.at == env.now
  {
    var d', rows, today := Execute(d, o, bal, env).0, Rows(d, o, bal, env), Day(env.now);
    assert d'.limits ==
           d.limits.(executed := d.limits.executed + if Accepted(d, o, bal, env) then o.Amount() else 0.0) by {
      ExecuteLimits(d, o, bal, env);
    }
    assert d'.log == d.log + rows && forall r :: r in rows ==> r.at == env.now by { ExecuteRows(d, o, bal, env); }
    assert LoggedAmount(rows, today) == if Accepted(d, o, bal, env) then o.Amount() else 0.0 by {
      RowsAmount(d, o, bal, env);
    }
    LoggedConcat(d.log, rows, today);
  }

  lemma SubmitAmount(o: Order, now: int)
    ensures RowAmount(LogRow(ORDER, now, Some(o.price), Some(o.qty), None), Day(now)) == o.Amount()
  {
    if o.qty == 0 { assert o.Amount() == 0.0; }
  }

  /** The three ways to compute the day's total agree before event `n`. */
  predicate Agree(d: Desk, es: seq<Event>, start: int, n: nat)
    requires n <= |es|
  {
    var s := Run(d, es[..n]);
    s.limits.lastDate.Some? &&
    var day := s.limits.lastDate.value;
    && day <= Day(if n == 0 then start else es[n - 1].Time())
    && s.limits.executed == LoggedAmount(s.log, day)
    && s.limits.executed ==
       AcceptedAmount(d, es[..n], day) + (if day == Day(start) then d.limits.executed else 0.0)
    && (forall r :: r in s.log ==> Day(r.at) <= day)
    && (forall k :: 0 <= k < n && es[k].Place? ==> Day(es[k].env.now) <= day)
    && Day(start) <= day
  }

  /** What event `n` adds to the run and to the accepted amount. */
  lemma PlaceStep(d: Desk, es: seq<Event>, n: nat)
    requires n < |es| && es[n].Place?
    ensures Run(d, es[..n + 1]) == Execute(Run(d, es[..n]), es[n].order, es[n].bal, es[n].env).0
    ensures var day := Day(es[n].env.now);
            AcceptedAmount(d, es[..n + 1], day) ==
            AcceptedAmount(d, es[..n], day) +
            if Accepted(Run(d, es[..n]), es[n].order, es[n].bal, es[n].env) then es[n].order.Amount() else 0.0
  {
    var prefix := es[..n + 1];
    assert prefix[..n] == es[..n] && prefix[n] == es[n];
  }

  lemma AgreeStepPlace(d: Desk, es: seq<Event>, start: int, n: nat)
    requires n < |es| && Agree(d, es, start, n) && es[n].Place? && BookedAt(d, es, n)
    requires (if n == 0 then start else es[n - 1].Time()) <= es[n].Time()
    ensures Agree(d, es, start, n + 1)
  {
    var e := es[n];
    PlaceStep(d, es, n);
    PlaceBooks(Run(d, es[..n]), e.order, e.bal, e.env);
  }

  /** A date check or a restart on a later day finds nothing logged or accepted on it. */
  lemma AgreeStepDay(d: Desk, es: seq<Event>, start: int, n: nat)
    requires n < |es| && Agree(d, es, start, n) && (es[n].Boundary? || es[n].Restart?)
    requires (if n == 0 then start else es[n - 1].Time()) <= es[n].Time()
    ensures Agree(d, es, start, n + 1)
  {
    var e, prefix, s := es[n], es[..n + 1], Run(d, es[..n]);
    assert prefix[..n] == es[..n] && prefix[n] == e;
    DayMonotone(if n == 0 then start else es[n - 1].Time(), e.Time());
    if s.limits.lastDate.value < Day(e.now) {
      NoRowsLater(s.log, Day(e.now));
      NoOrdersLater(d, es[..n], Day(e.now));
    }
  }

  lemma AgreeStepOther(d: Desk, es: seq<Event>, start: int, n: nat)
    requires n < |es| && Agree(d, es, start, n) && (es[n].Kill? || es[n].Unlock? || es[n].LossCheck?)
    requires (if n == 0 then start else es[n - 1].Time()) <= es[n].Time()
    ensures Agree(d, es, start, n + 1)
  {
    var e, prefix := es[n], es[..n + 1];
    assert prefix[..n] == es[..n] && prefix[n] == e;
    DayMonotone(if n == 0 then start else es[n - 1].Time(), e.Time());
  }

  /** Ledger agreement at every point of every run. */
  lemma {:induction false} LedgerAgrees(d: Desk, es: seq<Event>, start: int, n: nat)
    requires n <= |es| && Opening(d, start) && Ordered(start, es)
    requires forall i :: 0 <= i < n ==> BookedAt(d, es, i)
    ensures Agree(d, es, start, n)
  {
    if n > 0 {
      LedgerAgrees(d, es, start, n - 1);
      var e := es[n - 1];
      assert BookedAt(d, es, n - 1);
      if e.Place? {
        DayMonotone(if n == 1 then start else es[n - 2].Time(), e.Time());
        AgreeStepPlace(d, es, start, n - 1);
      } else if e.Boundary? || e.Restart? {
        AgreeStepDay(d, es, start, n - 1);
      } else {
        AgreeStepOther(d, es, start, n - 1);
      }
    }
  }

  /** Crash recovery: restarting on the same day restores exactly the limits the process had. */
  lemma RestartKeepsBudget(d: Desk, es: seq<Event>, start: int, now: int)
    requires Opening(d, start) && Ordered(start, es)
    requires forall i :: 0 <= i < |es| ==> BookedAt(d, es, i)
    requires Run(d, es).limits.lastDate == Some(Day(now))
    ensures Restarted(Run(d, es), now).limits == Run(d, es).limits
    ensures forall cash, amount {:trigger Restarted(Run(d, es), now).limits.BudgetOk(cash, amount)} ::
              Restarted(Run(d, es), now).limits.BudgetOk(cash, amount) <==> Run(d, es).limits.BudgetOk(cash, amount)
  {
    LedgerAgrees(d, es, start, |es|);
    assert es[..|es|] == es;
  }

  // ---- orders between midnight and the date check ----

  /** Something may raise in an execution, but not between an acceptance and its log row. */
  predicate Confirms(e: Event) {
    e.Place? ==> e.env.fault != Callback && e.env.fault != SubmitLog
  }

  /** The summed amounts of the orders accepted on `day` or later. */
  function AcceptedSince(d: Desk, es: seq<Event>, day: int): real {
    if es == [] then 0.0
    else
      var n := |es| - 1;
      AcceptedSince(d, es[..n], day) +
      if AcceptedAt(d, es, n) && Day(es[n].env.now) >= day then es[n].order.Amount() else 0.0
  }

  /** The amounts accepted on the desk's day before the date check that began it, which that check dropped;
      a restart counts them again. */
  function Dropped(d: Desk, es: seq<Event>): real {
    if es == [] then 0.0
    else
      var init, e := es[..|es| - 1], es[|es| - 1];
      if e.Restart? then 0.0
      else if e.Boundary? && Run(d, init).limits.lastDate != Some(Day(e.now)) then AcceptedSince(d, init, Day(e.now))
      else Dropped(d, init)
  }

  lemma {:induction false} RowsSince(rows: seq<LogRow>, day: int, at: int)
    requires forall r :: r in rows ==> r.at == at
    ensures LoggedAmount(rows, day) == if Day(at) >= day then LoggedAmount(rows, Day(at)) else 0.0
  {
    if rows != [] {
      assert rows[|rows| - 1] in rows;
      RowsSince(rows[..|rows| - 1], day, at);
    }
  }

  /** What one confirmed execution adds to the total and to the log's sum from any day on. */
  lemma PlaceLogged(d: Desk, o: Order, bal: Balance, env: Surroundings, day: int)
    requires env.fault != Callback && env.fault != SubmitLog
    ensures var d' := Execute(d, o, bal, env).0;
            var amount := if Accepted(d, o, bal, env) then o.Amount() else 0.0;
            && d'.limits == d.limits.(executed := d.limits.executed + amount)
            && LoggedAmount(d'.log, day) == LoggedAmount(d.log, day) + if Day(env.now) >= day then amount else 0.0
  {
    ExecuteLimits(d, o, bal, env);
    ExecuteRows(d, o, bal, env);
    RowsAmount(d, o, bal, env);
    RowsSince(Rows(d, o, bal, env), day, env.now);
    LoggedConcat(d.log, Rows(d, o, bal, env), day);
  }

  /** In every run the log's sum from a day on is that of the accepted orders. */
  lemma {:induction false} LogIsAccepted(d: Desk, es: seq<Event>, day: int)
    requires forall e :: e in es ==> Confirms(e)
    ensures LoggedAmount(Run(d, es).log, day) == LoggedAmount(d.log, day) + AcceptedSince(d, es, day)
  {
    if es != [] {
      var init, e := es[..|es| - 1], es[|es| - 1];
      assert e in es;
      LogIsAccepted(d, init, day);
      if e.Place? {
        PlaceLogged(Run(d, init), e.order, e.bal, e.env, day);
      }
    }
  }

  /** The day the total stands for lies between the first day and the clock's. */
  predicate Dated(d: Desk, es: seq<Event>, start: int) {
    var date := Run(d, es).limits.lastDate;
    date.Some? && Day(start) <= date.value <= Day(if es == [] then start else es[|es| - 1].Time())
  }

  lemma {:induction false} RunDated(d: Desk, es: seq<Event>, start: int)
    requires Opening(d, start) && Ordered(start, es)
    ensures Dated(d, es, start)
  {
    if es != [] {
      var init, e := es[..|es| - 1], es[|es| - 1];
      RunDated(d, init, start);
      DayMonotone(if init == [] then start else init[|init| - 1].Time(), e.Time());
      DayMonotone(start, e.Time());
      if e.Place? { ExecuteDate(Run(d, init), e.order, e.bal, e.env); }
    }
  }

  lemma ExecuteDate(d: Desk, o: Order, bal: Balance, env: Surroundings)
    ensures Execute(d, o, bal, env).0.limits.lastDate == d.limits.lastDate
  {
  }

  /** In every run the log's sum of the day exceeds the total by exactly what was accepted before the date
      check of that day; so the two agree, and a restart changes nothing, exactly if that is zero. */
  lemma {:induction false} LedgerExact(d: Desk, es: seq<Event>, start: int)
    requires Opening(d, start) && Ordered(start, es) && forall e :: e in es ==> Confirms(e)
    ensures Run(d, es).limits.lastDate.Some?
    ensures var s := Run(d, es); LoggedAmount(s.log, s.limits.lastDate.value) == s.limits.executed + Dropped(d, es)
  {
    RunDated(d, es, start);
    if es != [] {
      var init, e := es[..|es| - 1], es[|es| - 1];
      var before := Run(d, init);
      assert e in es;
      LedgerExact(d, init, start);
      if e.Place? {
        RunDated(d, init, start);
        DayMonotone(if init == [] then start else init[|init| - 1].Time(), e.Time());
        PlaceLogged(before, e.order, e.bal, e.env, before.limits.lastDate.value);
      } else if e.Boundary? && before.limits.lastDate != Some(Day(e.now)) {
        DateChange(d, init, start, e.now);
      }
    }
  }

  /** So a restart on the day of the total leaves all limits as they were exactly if nothing was dropped. */
  lemma RestartExact(d: Desk, es: seq<Event>, start: int, now: int)
    requires Opening(d, start) && Ordered(start, es) && forall e :: e in es ==> Confirms(e)
    requires Run(d, es).limits.lastDate == Some(Day(now))
    ensures Restarted(Run(d, es), now).limits == Run(d, es).limits <==> Dropped(d, es) == 0.0
  {
    LedgerExact(d, es, start);
  }

  lemma DateChange(d: Desk, es: seq<Event>, start: int, now: int)
    requires Opening(d, start) && Ordered(start, es) && forall e :: e in es ==> Confirms(e)
    requires (if es == [] then start else es[|es| - 1].Time()) <= now
    requires Run(d, es).limits.lastDate != Some(Day(now))
    ensures LoggedAmount(Run(d, es).log, Day(now)) == AcceptedSince(d, es, Day(now))
  {
    RunDated(d, es, start);
    DayMonotone(if es == [] then start else es[|es| - 1].Time(), now);
    NoRowsLater(d.log, Day(now));
    LogIsAccepted(d, es, Day(now));
  }

  lemma {:induction false} RatioStays(d: Desk, es: seq<Event>)
    ensures Run(d, es).limits.ratio == d.limits.ratio
  {
    if es != [] {
      var before, e := Run(d, es[..|es| - 1]), es[|es| - 1];
      RatioStays(d, es[..|es| - 1]);
      if e.Place? { ExecuteRatio(before, e.order, e.bal, e.env); }
    }
  }

  lemma ExecuteRatio(d: Desk, o: Order, bal: Balance, env: Surroundings)
    ensures Execute(d, o, bal, env).0.limits.ratio == d.limits.ratio
  {
  }

  /** An accepted buy's amount, and that of what was booked before, within a budget. */
  predicate Affords(l: Limits, o: Order, budget: real) {
    l.executed + o.Amount() <= budget
  }

  function Budget(cash: real, ratio: real): real {
    cash * ratio
  }

  lemma AcceptedBuyFits(d: Desk, o: Order, bal: Balance, env: Surroundings)
    requires Accepted(d, o, bal, env) && o.side == BUY
    ensures Affords(d.limits, o, Budget(bal.cash, d.limits.ratio))
  {
  }

  /** An accepted order's amount is that day's total with it, less the total before it. */
  lemma AcceptedTotal(d: Desk, es: seq<Event>, start: int, i: nat)
    requires i < |es| && Agree(d, es, start, i) && BookedAt(d, es, i) && AcceptedAt(d, es, i)
    ensures var day := Day(es[i].env.now);
            AcceptedAmount(d, es[..i + 1], day) + (if day == Day(start) then d.limits.executed else 0.0) ==
            Run(d, es[..i]).limits.executed + es[i].order.Amount()
  {
    assert es[..i + 1][..i] == es[..i];
  }

  /** Across cycles, restarts and broker failures, the orders accepted in a day, up to and with an accepted
      buy, stay within the share of the cash that the buy was checked against. */
  lemma BudgetRespected(d: Desk, es: seq<Event>, start: int, i: nat)
    requires i < |es| && Opening(d, start) && Ordered(start, es)
    requires forall k :: 0 <= k <= i ==> BookedAt(d, es, k)
    requires AcceptedAt(d, es, i) && es[i].order.side == BUY
    ensures var day := Day(es[i].env.now);
            AcceptedAmount(d, es[..i + 1], day) + (if day == Day(start) then d.limits.executed else 0.0) <=
            Budget(es[i].bal.cash, d.limits.ratio)
  {
    LedgerAgrees(d, es, start, i);
    assert BookedAt(d, es, i);
    AcceptedTotal(d, es, start, i);
    RatioStays(d, es[..i]);
    AcceptedBuyFits(Run(d, es[..i]), es[i].order, es[i].bal, es[i].env);
  }

  /** An order placed after midnight, before the next date check, is counted on top of the previous day's
      total; that total agrees with the new day's log exactly if the previous day's was zero, and the
      date check then drops the new order's amount. */
  lemma MidnightOrder(d: Desk, o: Order, bal: Balance, env: Surroundings, later: int)
    requires Accepted(d, o, bal, env) && env.fault == NoFault
    requires d.limits.lastDate.Some? && d.limits.lastDate.value < Day(env.now) == Day(later)
    requires forall r :: r in d.log ==> Day(r.at) <= d.limits.lastDate.value
    ensures var d' := Execute(d, o, bal, env).0;
            (d'.limits.executed == LoggedAmount(d'.log, Day(env.now)) <==> d.limits.executed == 0.0) &&
            Step(d', Boundary(later)).limits.executed == 0.0 &&
            LoggedAmount(Step(d', Boundary(later)).log, Day(later)) == o.Amount()
  {
    PlaceBooks(d, o, bal, env);
    NoRowsLater(d.log, Day(env.now));
  }
}
