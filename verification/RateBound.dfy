/** The fixed-window order counter bounds the orders of every sliding minute by twice its limit, and by once
    more for every restart in that minute. */
module RateBound {
  import opened Common
  import opened OrderModel

  /** The number of orders accepted between `lo` and `hi`, both included. */
  function AcceptedWithin(d: Desk, es: seq<Event>, lo: int, hi: int): nat {
    if es == [] then 0
    else
      var n := |es| - 1;
      AcceptedWithin(d, es[..n], lo, hi) + if AcceptedAt(d, es, n) && lo <= es[n].env.now <= hi then 1 else 0
  }

  /** The number of restarts between `lo` and `hi`, both included. */
  function RestartsWithin(es: seq<Event>, lo: int, hi: int): nat {
    if es == [] then 0
    else
      var n := |es| - 1;
      RestartsWithin(es[..n], lo, hi) + if es[n].Restart? && lo <= es[n].now <= hi then 1 else 0
  }

  function LastTime(es: seq<Event>, start: int): int {
    if es == [] then start else es[|es| - 1].Time()
  }

  /** `windows` times the limit. */
  function Full(g: Guard, windows: nat): int {
    g.maxOrders * windows
  }

  lemma OneMoreWindow(g: Guard, windows: nat)
    ensures Full(g, windows + 1) == Full(g, windows) + g.maxOrders
  {
  }

  /** How many orders of the minute from `t` on can have been accepted, given the counter's window: all are in
      it if it began before `t`; otherwise there were earlier windows, one and one per restart; and once the
      clock has left the minute at most two and one per restart. */
  predicate Bounded(g: Guard, taken: nat, restarts: nat, t: int, clock: int) {
    && 0 <= g.count <= g.maxOrders && g.windowStart <= clock
    && (clock < t ==> taken == 0)
    && ((g.windowStart < t && taken <= g.count) ||
        (t <= g.windowStart <= t + MINUTE && taken <= Full(g, 1 + restarts) + g.count) ||
        (clock > t + MINUTE && taken <= Full(g, 2 + restarts)))
  }

  lemma FullGrows(g: Guard, windows: nat, more: nat)
    requires g.maxOrders >= 0 && windows <= more
    ensures 0 <= Full(g, windows) <= Full(g, more)
    decreases more
  {
    if windows < more {
      OneMoreWindow(g, more - 1);
      FullGrows(g, windows, more - 1);
    } else {
      assert g.maxOrders * windows >= 0;
    }
  }

  /** The clock moves on without an order. */
  lemma ClockMoves(g: Guard, taken: nat, restarts: nat, t: int, clock: int, now: int)
    requires Bounded(g, taken, restarts, t, clock) && clock <= now
    ensures Bounded(g, taken, restarts, t, now)
  {
  }

  /** A full window that has ended counts as one window more. */
  lemma WindowEnds(g: Guard, taken: nat, restarts: nat, t: int, clock: int, now: int)
    requires Bounded(g, taken, restarts, t, clock) && clock <= now
    requires now - g.windowStart > MINUTE
    ensures Bounded(g.(count := 0, windowStart := now), taken, restarts, t, now)
  {
    FullGrows(g, 0, 1 + restarts);
    OneMoreWindow(g, 0);
    FullGrows(g, 1, 1 + restarts);
    OneMoreWindow(g, 1 + restarts);
  }

  lemma Rolls(g: Guard, taken: nat, restarts: nat, t: int, clock: int, now: int)
    requires Bounded(g, taken, restarts, t, clock) && clock <= now
    ensures Bounded(g.Roll(now), taken, restarts, t, now)
  {
    if now - g.windowStart > MINUTE {
      WindowEnds(g, taken, restarts, t, clock, now);
    }
  }

  /** An order that passes the counter. */
  lemma Takes(g: Guard, taken: nat, restarts: nat, t: int, now: int)
    requires Bounded(g, taken, restarts, t, now) && g.SpeedOk() && now <= g.windowStart + MINUTE
    ensures Bounded(g.(count := g.count + 1), taken + (if t <= now <= t + MINUTE then 1 else 0), restarts, t, now)
  {
  }

  lemma Restarts(g: Guard, taken: nat, restarts: nat, t: int, clock: int, now: int)
    requires Bounded(g, taken, restarts, t, clock) && clock <= now
    ensures Bounded(g.(kill := OFF, lossLock := false, count := 0, windowStart := now), taken,
                    restarts + (if t <= now <= t + MINUTE then 1 else 0), t, now)
  {
    FullGrows(g, 0, 1 + restarts);
    OneMoreWindow(g, 0);
    FullGrows(g, 1, 2 + restarts);
    OneMoreWindow(g, 1 + restarts);
    OneMoreWindow(g, 2 + restarts);
  }

  /** What an execution does to the counter. */
  lemma ExecuteGuard(d: Desk, o: Order, bal: Balance, env: Surroundings)
    ensures var g := Execute(d, o, bal, env).0.guard;
            if Accepted(d, o, bal, env)
            then
              g == d.guard.Roll(env.now).(count := d.guard.Roll(env.now).count + 1) &&
              d.guard.Roll(env.now).SpeedOk()
            else g == d.guard || g == d.guard.Roll(env.now)
  {
  }

  lemma PlaceBounded(d: Desk, e: Event, taken: nat, restarts: nat, t: int, clock: int)
    requires e.Place? && Bounded(d.guard, taken, restarts, t, clock) && clock <= e.env.now
    ensures var one := if Accepted(d, e.order, e.bal, e.env) && t <= e.env.now <= t + MINUTE then 1 else 0;
            Bounded(Step(d, e).guard, taken + one, restarts, t, e.env.now)
  {
    ExecuteGuard(d, e.order, e.bal, e.env);
    ClockMoves(d.guard, taken, restarts, t, clock, e.env.now);
    Rolls(d.guard, taken, restarts, t, clock, e.env.now);
    if Accepted(d, e.order, e.bal, e.env) {
      Takes(d.guard.Roll(e.env.now), taken, restarts, t, e.env.now);
    }
  }

  lemma OtherBounded(d: Desk, e: Event, taken: nat, restarts: nat, t: int, clock: int)
    requires !e.Place? && Bounded(d.guard, taken, restarts, t, clock) && clock <= e.Time()
    ensures var one := if e.Restart? && t <= e.now <= t + MINUTE then 1 else 0;
            Bounded(Step(d, e).guard, taken, restarts + one, t, e.Time())
  {
    ClockMoves(d.guard, taken, restarts, t, clock, e.Time());
    if e.Restart? {
      Restarts(d.guard, taken, restarts, t, clock, e.now);
    }
  }

  lemma KeepsLimit(d: Desk, e: Event)
    ensures Step(d, e).guard.maxOrders == d.guard.maxOrders
  {
    if e.Place? {
      ExecuteGuard(d, e.order, e.bal, e.env);
    }
  }

  lemma Snoc(d: Desk, es: seq<Event>, e: Event, lo: int, hi: int)
    ensures Run(d, es + [e]) == Step(Run(d, es), e)
    ensures AcceptedWithin(d, es + [e], lo, hi) ==
            AcceptedWithin(d, es, lo, hi) +
            if e.Place? && Accepted(Run(d, es), e.order, e.bal, e.env) && lo <= e.env.now <= hi then 1 else 0
    ensures RestartsWithin(es + [e], lo, hi) ==
            RestartsWithin(es, lo, hi) + if e.Restart? && lo <= e.now <= hi then 1 else 0
  {
    assert (es + [e])[..|es|] == es && (es + [e])[|es|] == e;
  }

  lemma NotBefore(es: seq<Event>, e: Event, start: int)
    requires Ordered(start, es + [e])
    ensures LastTime(es, start) <= e.Time() == LastTime(es + [e], start)
  {
    assert (es + [e])[|es|] == e;
    assert es != [] ==> (es + [e])[|es| - 1] == es[|es| - 1];
  }

  lemma StepBounded(d: Desk, es: seq<Event>, start: int, t: int, e: Event)
    requires Ordered(start, es + [e])
    requires Bounded(Run(d, es).guard, AcceptedWithin(d, es, t, t + MINUTE), RestartsWithin(es, t, t + MINUTE), t,
                     LastTime(es, start))
    ensures var all := es + [e];
            Bounded(Run(d, all).guard, AcceptedWithin(d, all, t, t + MINUTE), RestartsWithin(all, t, t + MINUTE), t,
                    LastTime(all, start))
    ensures Run(d, es + [e]).guard.maxOrders == Run(d, es).guard.maxOrders
  {
    var before := Run(d, es);
    var taken, restarts := AcceptedWithin(d, es, t, t + MINUTE), RestartsWithin(es, t, t + MINUTE);
    Snoc(d, es, e, t, t + MINUTE);
    NotBefore(es, e, start);
    KeepsLimit(before, e);
    if e.Place? {
      PlaceBounded(before, e, taken, restarts, t, LastTime(es, start));
    } else {
      OtherBounded(before, e, taken, restarts, t, LastTime(es, start));
    }
  }

  /** In every run, restarts included, the counter bounds the orders accepted in every minute so far. */
  lemma {:induction false} WindowHolds(d: Desk, es: seq<Event>, start: int, t: int)
    requires Ordered(start, es)
    requires d.guard.windowStart <= start && d.guard.count <= d.guard.maxOrders
    ensures Run(d, es).guard.maxOrders == d.guard.maxOrders
    ensures Bounded(Run(d, es).guard, AcceptedWithin(d, es, t, t + MINUTE), RestartsWithin(es, t, t + MINUTE), t,
                    LastTime(es, start))
  {
    if es == [] {
      FullGrows(d.guard, 0, 1);
      FullGrows(d.guard, 0, 2);
    } else {
      var init, e := es[..|es| - 1], es[|es| - 1];
      assert es == init + [e];
      WindowHolds(d, init, start, t);
      StepBounded(d, init, start, t, e);
    }
  }

  /** No closed minute of any run holds more accepted orders than twice the limit, and once more the limit
      for every restart in it. */
  lemma RateBounded(d: Desk, es: seq<Event>, start: int, t: int)
    requires Ordered(start, es)
    requires d.guard.windowStart <= start && d.guard.count <= d.guard.maxOrders
    ensures AcceptedWithin(d, es, t, t + MINUTE) <= (2 + RestartsWithin(es, t, t + MINUTE)) * d.guard.maxOrders
  {
    var g, restarts := Run(d, es).guard, RestartsWithin(es, t, t + MINUTE);
    WindowHolds(d, es, start, t);
    OneMoreWindow(g, 1 + restarts);
    FullGrows(g, 0, 1 + restarts);
    assert Full(g, 2 + restarts) == (2 + restarts) * d.guard.maxOrders;
  }
}
