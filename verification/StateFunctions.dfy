/** The bounded per-rule memory equals definitions over the full history, in every run of every version 2
    script: what a crossover, counter, streak or divergence reports is a function of the updates its entry
    has had, and with a single place that updates the entry these are the script's own cycles. */
module StateFunctions {
  import opened Common
  import opened Syntax
  import opened Semantics
  import opened Memory
  import opened UpdateLog

  // ---- calls and their updates ----

  predicate UpdatesLast(us: seq<Update>, e: Expr, st: State) {
    us != [] && us[|us| - 1].call == e && us[|us| - 1].st == st
  }

  lemma CrossResult(m: Machine, e: Expr, st: State, top: bool, us: seq<Update>)
    requires e.FuncCall? && (RoleOf(m.reg, e.fn) == CrossAbove || RoleOf(m.reg, e.fn) == CrossBelow)
    ensures var own, p := us + Own(m, e, st, top, SlotOf(m.reg, e)), Prepare(m, e, st, top);
            var out := EvalCross(m, e, st, top, RoleOf(m.reg, e.fn) == CrossAbove);
            if p.Ret? && p.v.Some? then UpdatesLast(own, e, st) && own[|own| - 1].result == out
            else out.Ret? ==> out.v == Null
  {
  }

  lemma DivergenceResult(m: Machine, e: Expr, st: State, top: bool, us: seq<Update>)
    requires e.FuncCall? && (RoleOf(m.reg, e.fn) == BullishDivergence || RoleOf(m.reg, e.fn) == BearishDivergence)
    ensures var own, p := us + Own(m, e, st, top, SlotOf(m.reg, e)), Prepare(m, e, st, top);
            var out := EvalDivergence(m, e, st, top, RoleOf(m.reg, e.fn) == BullishDivergence);
            if p.Ret? && p.v.Some? then UpdatesLast(own, e, st) && own[|own| - 1].result == out
            else out.Ret? ==> out.v == Null || out.v == Bool(false)
  {
  }

  /** A crossover or divergence call returns what its own update returns, or null or false without one. */
  lemma CallResult(m: Machine, e: Expr, st: State, top: bool)
    requires e.FuncCall? && e.fn !in m.cache && e.fn !in m.reg.patterns && Remembers(RoleOf(m.reg, e.fn))
    ensures var us, out := Updates(m, e, st, top, SlotOf(m.reg, e)), Eval(m, e, st, top);
            if Prepare(m, e, st, top).Ret? && Prepare(m, e, st, top).v.Some?
            then UpdatesLast(us, e, st) && us[|us| - 1].result == out
            else out.Ret? ==> out.v == Null || out.v == Bool(false)
  {
    var slot := SlotOf(m.reg, e);
    if RoleOf(m.reg, e.fn) == CrossAbove || RoleOf(m.reg, e.fn) == CrossBelow {
      CrossResult(m, e, st, top, SidesUpdates(m, e.args, st, top, slot));
    } else {
      DivergenceResult(m, e, st, top, ReadingUpdates(m, e.args, st, top, slot));
    }
  }

  /** So does a counter or streak in a rule's condition. */
  lemma WalkResult(m: Machine, e: Expr, st: State)
    requires e.FuncCall? && (RoleOf(m.reg, e.fn) == Count || RoleOf(m.reg, e.fn) == Consecutive)
    ensures var us, out := WalkUpdates(m, e, st, SlotOf(m.reg, e)), Walk(m, e, st);
            if Prepare(m, e, st, true).Ret? && Prepare(m, e, st, true).v.Some?
            then UpdatesLast(us, e, st) && us[|us| - 1].result == out
            else out.Ret? ==> out.v == Null
  {
    if RoleOf(m.reg, e.fn) == Count {
      assert Walk(m, e, st) == EvalCount(m, e, st);
    } else {
      assert Walk(m, e, st) == EvalStreak(m, e, st);
    }
  }

  /** Each update finds what the one before it left. */
  predicate Follows(us: seq<Update>, i: nat, slot: Slot)
    requires i + 1 < |us|
  {
    Look(us[i].result.st, slot) == Look(us[i + 1].before, slot)
  }

  lemma {:induction false} ChainLinks(st: State, us: seq<Update>, end: State, slot: Slot)
    requires Chain(st, us, end, slot)
    ensures us != [] ==> Look(us[0].before, slot) == Look(st, slot)
    ensures forall i :: 0 <= i < |us| - 1 ==> Follows(us, i, slot)
    decreases |us|
  {
    if us != [] {
      ChainLinks(us[0].result.st, us[1..], end, slot);
      forall i | 0 <= i < |us| - 1
        ensures Follows(us, i, slot)
      {
        assert i > 0 ==> Follows(us[1..], i - 1, slot);
      }
    }
  }

  /** Updates of one entry, the first of which finds it as it is in `st`. */
  ghost predicate Sequence(us: seq<Update>, reg: Registry, st: State, slot: Slot) {
    && AllUnder(us, reg, slot)
    && (us != [] ==> Look(us[0].before, slot) == Look(st, slot))
    && forall i :: 0 <= i < |us| - 1 ==> Follows(us, i, slot)
  }

  lemma RunSequence(reg: Registry, s: ScriptV2, ctxs: seq<Context>, st: State, slot: Slot)
    ensures Sequence(RunUpdates(reg, s, ctxs, st, slot), reg, st, slot)
  {
    RunTracked(reg, s, ctxs, st, slot);
    ChainLinks(st, RunUpdates(reg, s, ctxs, st, slot), MemoryAfterV2(reg, s, ctxs, st), slot);
  }

  /** With one place in the script that updates an entry, every cycle updates it at most once. */
  lemma {:induction false} OncePerCycle(reg: Registry, s: ScriptV2, ctxs: seq<Context>, st: State, slot: Slot)
    requires ScriptSites(reg, s)[slot] <= 1
    ensures |RunUpdates(reg, s, ctxs, st, slot)| <= |ctxs|
    ensures forall ctx, now :: |CycleUpdates(reg, s, ctx, now, slot)| <= 1
  {
    if ctxs != [] {
      OncePerCycle(reg, s, ctxs[..|ctxs| - 1], st, slot);
    }
  }

  // ---- crossovers ----

  predicate NumericSides(x: Input) {
    x.Sides? && IsNumeric(x.a) && IsNumeric(x.b)
  }

  /** The sides were strictly on the other side before and have met or crossed now. */
  predicate Crosses(above: bool, last: Input, now: Input)
    requires last.Sides? && now.Sides?
  {
    if above then AsNum(last.a) < AsNum(last.b) && AsNum(now.a) >= AsNum(now.b)
    else AsNum(last.a) > AsNum(last.b) && AsNum(now.a) <= AsNum(now.b)
  }

  predicate CrossKey(reg: Registry, k: Key, above: bool) {
    RoleOf(reg, k.fn) == if above then CrossAbove else CrossBelow
  }

  lemma CrossUpdate(reg: Registry, u: Update, k: Key, above: bool)
    requires Makes(u, CallOf(k)) && u.m.reg == reg && CrossKey(reg, k, above)
    ensures u.input.Sides? && u.input.a != Null && u.input.b != Null
    ensures u.result == CrossStep(u.before, k, above, u.input.a, u.input.b)
    ensures Find(u.result.st.cross, k) == Some((u.input.a, u.input.b))
  {
  }

  /** Before each evaluation the memory of a crossover is the pair of values of the one before, or none. */
  lemma CrossMemory(reg: Registry, s: ScriptV2, ctxs: seq<Context>, st: State, k: Key, above: bool, n: nat)
    requires CrossKey(reg, k, above) && k !in st.cross && n < |RunUpdates(reg, s, ctxs, st, CallOf(k))|
    ensures var us := RunUpdates(reg, s, ctxs, st, CallOf(k));
            (n > 0 ==> us[n - 1].input.Sides?) &&
            Find(us[n].before.cross, k) ==
            if n == 0 then None else Some((us[n - 1].input.a, us[n - 1].input.b))
  {
    var us := RunUpdates(reg, s, ctxs, st, CallOf(k));
    RunSequence(reg, s, ctxs, st, CallOf(k));
    if n == 0 {
      assert Find(us[0].before.cross, k) == Find(st.cross, k);
    } else {
      CrossUpdate(reg, us[n - 1], k, above);
      assert Follows(us, n - 1, CallOf(k));
      assert Find(us[n].before.cross, k) == Find(us[n - 1].result.st.cross, k);
    }
  }

  lemma CrossFirst(reg: Registry, us: seq<Update>, st: State, k: Key, above: bool)
    requires CrossKey(reg, k, above) && k !in st.cross && us != [] && Sequence(us, reg, st, CallOf(k))
    ensures us[0].input.Sides? && us[0].result.Ret? && us[0].result.v == Bool(false)
  {
    CrossUpdate(reg, us[0], k, above);
    assert Find(us[0].before.cross, k) == Find(st.cross, k);
  }

  lemma CrossNext(reg: Registry, us: seq<Update>, st: State, k: Key, above: bool, n: nat)
    requires CrossKey(reg, k, above) && 0 < n < |us| && Sequence(us, reg, st, CallOf(k))
    ensures us[n - 1].input.Sides? && us[n].input.Sides?
    ensures NumericSides(us[n - 1].input) && NumericSides(us[n].input) ==>
              us[n].result.Ret? && us[n].result.v == Bool(Crosses(above, us[n - 1].input, us[n].input))
  {
    CrossUpdate(reg, us[n - 1], k, above);
    CrossUpdate(reg, us[n], k, above);
    assert Follows(us, n - 1, CallOf(k));
    assert Find(us[n].before.cross, k) == Find(us[n - 1].result.st.cross, k);
  }

  /** A crossover compares with the last time both its sides had values: false the first time, and then
      true exactly when the sides were strictly on the other side and have met or crossed now. */
  lemma CrossHistory(
    reg: Registry, s: ScriptV2, ctxs: seq<Context>, st: State, k: Key, above: bool, n: nat)
    requires CrossKey(reg, k, above) && k !in st.cross && n < |RunUpdates(reg, s, ctxs, st, CallOf(k))|
    ensures var us := RunUpdates(reg, s, ctxs, st, CallOf(k));
            && us[n].input.Sides? && (n > 0 ==> us[n - 1].input.Sides?)
            && (n == 0 ==> us[n].result.Ret? && us[n].result.v == Bool(false))
            && (n > 0 && NumericSides(us[n - 1].input) && NumericSides(us[n].input) ==>
                  us[n].result.Ret? && us[n].result.v == Bool(Crosses(above, us[n - 1].input, us[n].input)))
  {
    RunSequence(reg, s, ctxs, st, CallOf(k));
    if n == 0 {
      CrossFirst(reg, RunUpdates(reg, s, ctxs, st, CallOf(k)), st, k, above);
    } else {
      CrossNext(reg, RunUpdates(reg, s, ctxs, st, CallOf(k)), st, k, above, n);
    }
  }

  // ---- windows ----

  /** The last n elements, all if there are fewer. */
  function Latest<T>(s: seq<T>, n: nat): seq<T> {
    if n <= |s| then s[|s| - n..] else s
  }

  /** After an update with period p there is one more outcome, and no more than p if p is positive. */
  function Grow(w: nat, p: int): nat {
    if 0 < p < w + 1 then p else w + 1
  }

  /** How many of the latest outcomes are kept after updates with these periods. */
  function Span(periods: seq<int>): (n: nat)
    ensures n <= |periods|
  {
    if periods == [] then 0 else Grow(Span(periods[..|periods| - 1]), periods[|periods| - 1])
  }

  lemma {:induction false} SpanConstant(periods: seq<int>, p: nat)
    requires p > 0 && forall i :: 0 <= i < |periods| ==> periods[i] == p
    ensures Span(periods) == if |periods| <= p then |periods| else p
  {
    if periods != [] {
      SpanConstant(periods[..|periods| - 1], p);
    }
  }

  /** One update keeps the latest outcomes, as many as the span says. */
  lemma TrimOnce<T>(all: seq<T>, w: nat, x: T, p: int)
    requires w <= |all|
    ensures var hist := Latest(all, w) + [x];
            (if p > 0 && |hist| > p then LastSlice(hist, p) else hist) ==
            Latest(all + [x], Grow(w, p))
  {
  }

  // ---- counters ----

  /** Counting trues is counting the positions that hold. */
  lemma {:induction false} CountTrueIsCardinality(s: seq<bool>)
    ensures CountTrue(s) == |set i | 0 <= i < |s| && s[i]|
  {
    if s != [] {
      var n := |s| - 1;
      CountTrueIsCardinality(s[..n]);
      var before := set i | 0 <= i < n && s[..n][i];
      var all := set i | 0 <= i < |s| && s[i];
      assert all == before + (if s[n] then {n} else {});
    }
  }

  function Outcomes(us: seq<Update>): seq<bool> {
    seq(|us|, i requires 0 <= i < |us| => us[i].input.Condition? && us[i].input.o.holds)
  }

  function Periods(us: seq<Update>): seq<int> {
    seq(|us|, i requires 0 <= i < |us| => if us[i].input.Condition? then us[i].input.o.period else 0)
  }

  lemma CountUpdate(u: Update, k: Printed)
    requires Makes(u, CounterOf(k))
    ensures u.input.Condition? && u.result == CountStep(u.before, k, u.input.o.holds, u.input.o.period)
  {
  }

  function Stored(st: State, k: Printed): seq<bool> {
    if k in st.counts then st.counts[k] else []
  }

  /** One update of a counter. */
  lemma CountOnce(u: Update, k: Printed, before: seq<bool>, w: nat)
    requires Makes(u, CounterOf(k)) && w <= |before| && Stored(u.before, k) == Latest(before, w)
    ensures u.input.Condition?
    ensures var p := u.input.o.period;
            var kept := Latest(before + [u.input.o.holds], Grow(w, p));
            Stored(u.result.st, k) == kept && u.result.Ret? &&
            u.result.v == Num((if p > 0 then CountTrue(kept) else 0) as real)
  {
    CountUpdate(u, k);
    TrimOnce(before, w, u.input.o.holds, u.input.o.period);
  }

  lemma CountSnoc(us: seq<Update>, n: nat)
    requires n < |us| && us[n].input.Condition?
    ensures Outcomes(us[..n + 1]) == Outcomes(us[..n]) + [us[n].input.o.holds]
    ensures Span(Periods(us[..n + 1])) == Grow(Span(Periods(us[..n])), us[n].input.o.period)
  {
    assert Periods(us[..n + 1])[..n] == Periods(us[..n]);
  }

  predicate Keeps(us: seq<Update>, k: Printed, n: nat)
    requires n < |us|
  {
    Stored(us[n].before, k) == Latest(Outcomes(us[..n]), Span(Periods(us[..n])))
  }

  lemma CountNext(us: seq<Update>, k: Printed, n: nat)
    requires n + 1 < |us| && Makes(us[n], CounterOf(k)) && Follows(us, n, CounterOf(k)) && Keeps(us, k, n)
    ensures Keeps(us, k, n + 1)
  {
    CountOnce(us[n], k, Outcomes(us[..n]), Span(Periods(us[..n])));
    CountSnoc(us, n);
    assert Find(us[n + 1].before.counts, k) == Find(us[n].result.st.counts, k);
  }

  /** The outcomes stored before update n. */
  lemma {:induction false} CountMemory(reg: Registry, us: seq<Update>, st: State, k: Printed, n: nat)
    requires k !in st.counts && n < |us| && Sequence(us, reg, st, CounterOf(k))
    ensures Keeps(us, k, n)
  {
    if n == 0 {
      assert Find(us[0].before.counts, k) == Find(st.counts, k);
    } else {
      CountMemory(reg, us, st, k, n - 1);
      CountNext(us, k, n - 1);
    }
  }

  lemma CountReport(reg: Registry, us: seq<Update>, st: State, k: Printed, n: nat)
    requires k !in st.counts && n < |us| && Sequence(us, reg, st, CounterOf(k))
    ensures var kept := Latest(Outcomes(us[..n + 1]), Span(Periods(us[..n + 1])));
            us[n].input.Condition? && Stored(us[n].result.st, k) == kept && us[n].result.Ret? &&
            us[n].result.v == Num((if us[n].input.o.period > 0 then CountTrue(kept) else 0) as real)
  {
    CountMemory(reg, us, st, k, n);
    CountOnce(us[n], k, Outcomes(us[..n]), Span(Periods(us[..n])));
    CountSnoc(us, n);
  }

  /** Whatever counters share a key, and whatever their periods: a counter reports how many of the latest
      outcomes under its key are true, as many of them as the periods up to now have kept. */
  lemma CountLaw(reg: Registry, s: ScriptV2, ctxs: seq<Context>, st: State, k: Printed, n: nat)
    requires k !in st.counts && n < |RunUpdates(reg, s, ctxs, st, CounterOf(k))|
    ensures var us := RunUpdates(reg, s, ctxs, st, CounterOf(k));
            var kept := Latest(Outcomes(us[..n + 1]), Span(Periods(us[..n + 1])));
            us[n].input.Condition? && Stored(us[n].result.st, k) == kept && us[n].result.Ret? &&
            us[n].result.v == Num((if us[n].input.o.period > 0 then CountTrue(kept) else 0) as real)
  {
    RunSequence(reg, s, ctxs, st, CounterOf(k));
    CountReport(reg, RunUpdates(reg, s, ctxs, st, CounterOf(k)), st, k, n);
  }

  // ---- streaks ----

  /** The length of the longest all-true suffix. */
  function Streak(s: seq<bool>): nat {
    if s == [] || !s[|s| - 1] then 0 else Streak(s[..|s| - 1]) + 1
  }

  lemma {:induction false} StreakIsLongestSuffix(s: seq<bool>)
    ensures Streak(s) <= |s|
    ensures forall i :: |s| - Streak(s) <= i < |s| ==> s[i]
    ensures Streak(s) < |s| ==> !s[|s| - Streak(s) - 1]
  {
    if s != [] && s[|s| - 1] { StreakIsLongestSuffix(s[..|s| - 1]); }
  }

  function Hits(us: seq<Update>): seq<bool> {
    seq(|us|, i requires 0 <= i < |us| => us[i].input.Hit? && us[i].input.holds)
  }

  lemma StreakUpdate(u: Update, k: Printed)
    requires Makes(u, StreakOf(k))
    ensures u.input.Hit? && u.result == StreakStep(u.before, k, u.input.holds)
  {
  }

  function Length(st: State, k: Printed): nat {
    if k in st.streaks then st.streaks[k] else 0
  }

  /** One update of a streak. */
  lemma StreakOnce(u: Update, k: Printed, before: seq<bool>)
    requires Makes(u, StreakOf(k)) && Length(u.before, k) == Streak(before)
    ensures u.input.Hit? && u.result.Ret?
    ensures var n := Streak(before + [u.input.holds]); Length(u.result.st, k) == n && u.result.v == Num(n as real)
  {
    StreakUpdate(u, k);
    assert (before + [u.input.holds])[..|before|] == before;
  }

  lemma HitsSnoc(us: seq<Update>, n: nat)
    requires n < |us| && us[n].input.Hit?
    ensures Hits(us[..n + 1]) == Hits(us[..n]) + [us[n].input.holds]
  {
  }

  lemma {:induction false} StreakMemory(reg: Registry, us: seq<Update>, st: State, k: Printed, n: nat)
    requires k !in st.streaks && n < |us| && Sequence(us, reg, st, StreakOf(k))
    ensures Length(us[n].before, k) == Streak(Hits(us[..n]))
  {
    if n == 0 {
      assert Find(us[0].before.streaks, k) == Find(st.streaks, k);
    } else {
      StreakMemory(reg, us, st, k, n - 1);
      StreakOnce(us[n - 1], k, Hits(us[..n - 1]));
      HitsSnoc(us, n - 1);
      assert Follows(us, n - 1, StreakOf(k));
      assert Find(us[n].before.streaks, k) == Find(us[n - 1].result.st.streaks, k);
    }
  }

  lemma StreakReport(reg: Registry, us: seq<Update>, st: State, k: Printed, n: nat)
    requires k !in st.streaks && n < |us| && Sequence(us, reg, st, StreakOf(k))
    ensures us[n].result.Ret? && us[n].result.v == Num(Streak(Hits(us[..n + 1])) as real)
  {
    StreakMemory(reg, us, st, k, n);
    StreakOnce(us[n], k, Hits(us[..n]));
    HitsSnoc(us, n);
  }

  /** A streak reports how many of the latest outcomes under its key are true without a break. */
  lemma StreakLaw(reg: Registry, s: ScriptV2, ctxs: seq<Context>, st: State, k: Printed, n: nat)
    requires k !in st.streaks && n < |RunUpdates(reg, s, ctxs, st, StreakOf(k))|
    ensures var us := RunUpdates(reg, s, ctxs, st, StreakOf(k));
            us[n].result.Ret? && us[n].result.v == Num(Streak(Hits(us[..n + 1])) as real)
  {
    RunSequence(reg, s, ctxs, st, StreakOf(k));
    StreakReport(reg, RunUpdates(reg, s, ctxs, st, StreakOf(k)), st, k, n);
  }

  /** A full window is a long enough streak. */
  lemma CountFullIffStreak(s: seq<bool>, p: nat)
    requires p > 0
    ensures CountTrue(Latest(s, p)) == p <==> Streak(s) >= p
  {
    StreakIsLongestSuffix(s);
    var w := Latest(s, p);
    CountTrueBound(w);
    if Streak(s) >= p {
      assert forall i :: 0 <= i < p ==> w[i] == s[|s| - p + i];
    } else if |s| >= p {
      assert !w[p - Streak(s) - 1];
    }
  }

  lemma {:induction false} CountTrueBound(s: seq<bool>)
    ensures CountTrue(s) <= |s|
    ensures CountTrue(s) == |s| <==> forall i :: 0 <= i < |s| ==> s[i]
  {
    if s != [] { CountTrueBound(s[..|s| - 1]); }
  }

  // ---- divergences ----

  /** A point lower (bullish) or higher (bearish) than both its neighbours. */
  predicate Turns(hist: seq<(real, real)>, bullish: bool, i: nat) {
    0 < i < |hist| - 1 &&
    if bullish then hist[i].0 < hist[i - 1].0 && hist[i].0 < hist[i + 1].0
    else hist[i].0 > hist[i - 1].0 && hist[i].0 > hist[i + 1].0
  }

  predicate Increasing(s: seq<nat>) {
    forall j, k :: 0 <= j < k < |s| ==> s[j] < s[k]
  }

  /** The extrema are exactly the turning points, in order. */
  lemma {:induction false} ExtremaAreTurns(hist: seq<(real, real)>, bullish: bool, n: nat)
    requires n < |hist|
    ensures var ex := Extrema(hist, bullish, n);
            && (forall i: nat :: i in ex <==> i < n && Turns(hist, bullish, i))
            && Increasing(ex)
  {
    if n > 1 {
      var before := Extrema(hist, bullish, n - 1);
      ExtremaAreTurns(hist, bullish, n - 1);
      assert forall i: nat :: i in before + [n - 1] <==> i in before || i == n - 1;
      assert Extrema(hist, bullish, n) == if Turns(hist, bullish, n - 1) then before + [n - 1] else before;
    }
  }

  /** The last two turning points: after the first there is only the second. */
  predicate LastTurns(hist: seq<(real, real)>, bullish: bool, i: nat, j: nat) {
    i < j && Turns(hist, bullish, i) && Turns(hist, bullish, j) &&
    forall n: nat :: i < n < |hist| && Turns(hist, bullish, n) ==> n == j
  }

  /** From one point to the other the price makes a new low (bullish) or high (bearish) and the indicator, the
      second component, moves against it. */
  predicate Opposed(bullish: bool, first: (real, real), second: (real, real)) {
    if bullish then second.0 < first.0 && second.1 > first.1 else second.0 > first.0 && second.1 < first.1
  }

  /** Price and indicator diverge between the last two turning points. */
  predicate Divergent(hist: seq<(real, real)>, bullish: bool) {
    exists i, j :: 0 <= i < j < |hist| && LastTurns(hist, bullish, i, j) && Opposed(bullish, hist[i], hist[j])
  }

  lemma LastTwo(hist: seq<(real, real)>, bullish: bool, ex: seq<nat>, i: nat, j: nat)
    requires forall n: nat :: n in ex <==> Turns(hist, bullish, n)
    requires Increasing(ex)
    ensures LastTurns(hist, bullish, i, j) <==> |ex| >= 2 && ex[|ex| - 2] == i && ex[|ex| - 1] == j
  {
    if LastTurns(hist, bullish, i, j) {
      assert i in ex && j in ex;
      var a :| 0 <= a < |ex| && ex[a] == i;
      var b :| 0 <= b < |ex| && ex[b] == j;
      forall c | a < c < |ex|
        ensures ex[c] == j
      {
        assert ex[c] in ex && Turns(hist, bullish, ex[c]);
      }
    } else if |ex| >= 2 && ex[|ex| - 2] == i && ex[|ex| - 1] == j {
      assert i in ex && j in ex;
      assert forall n: nat :: n in ex ==> n <= i || n == j;
    }
  }

  /** All turning points, in order. */
  ghost predicate ListsTurns(ex: seq<nat>, hist: seq<(real, real)>, bullish: bool) {
    && (forall n: nat :: n in ex <==> Turns(hist, bullish, n))
    && Increasing(ex)
    && forall a :: 0 <= a < |ex| ==> ex[a] < |hist|
  }

  lemma DivergentByTurns(hist: seq<(real, real)>, bullish: bool, ex: seq<nat>)
    requires ListsTurns(ex, hist, bullish)
    ensures Divergent(hist, bullish) <==>
            |ex| >= 2 && Opposed(bullish, hist[ex[|ex| - 2]], hist[ex[|ex| - 1]])
  {
    if |ex| >= 2 {
      LastTwo(hist, bullish, ex, ex[|ex| - 2], ex[|ex| - 1]);
    }
    forall i, j | 0 <= i < j < |hist| && LastTurns(hist, bullish, i, j)
      ensures |ex| >= 2 && ex[|ex| - 2] == i && ex[|ex| - 1] == j
    {
      LastTwo(hist, bullish, ex, i, j);
    }
  }

  lemma DivergesBy(hist: seq<(real, real)>, bullish: bool, ex: seq<nat>)
    requires hist != [] && ex == Extrema(hist, bullish, |hist| - 1)
    ensures Diverges(hist, bullish) <==> |ex| >= 2 && Opposed(bullish, hist[ex[|ex| - 2]], hist[ex[|ex| - 1]])
  {
  }

  lemma FivePoints(hist: seq<(real, real)>, bullish: bool)
    ensures Divergent(hist, bullish) ==> |hist| >= 5
  {
    forall i, j | 0 <= i < j < |hist| && Turns(hist, bullish, i) && Turns(hist, bullish, j)
      ensures |hist| >= 5
    {
      assert j != i + 1;
    }
  }

  lemma AllTurns(hist: seq<(real, real)>, bullish: bool)
    requires hist != []
    ensures ListsTurns(Extrema(hist, bullish, |hist| - 1), hist, bullish)
  {
    var ex := Extrema(hist, bullish, |hist| - 1);
    ExtremaAreTurns(hist, bullish, |hist| - 1);
    forall n: nat
      ensures n in ex <==> Turns(hist, bullish, n)
    {
      assert Turns(hist, bullish, n) ==> n < |hist| - 1;
    }
    assert forall a :: 0 <= a < |ex| ==> ex[a] < |hist|;
  }

  /** What a divergence is: the detection looks at the last two turning points, and there is none without
      five points. */
  lemma DivergesExactly(hist: seq<(real, real)>, bullish: bool)
    requires hist != []
    ensures Diverges(hist, bullish) <==> Divergent(hist, bullish)
    ensures Divergent(hist, bullish) ==> |hist| >= 5
  {
    AllTurns(hist, bullish);
    DivergentByTurns(hist, bullish, Extrema(hist, bullish, |hist| - 1));
    DivergesBy(hist, bullish, Extrema(hist, bullish, |hist| - 1));
    FivePoints(hist, bullish);
  }

  function Points(us: seq<Update>): seq<(real, real)> {
    seq(|us|, i requires 0 <= i < |us| =>
      if us[i].input.Point? then (us[i].input.r.price, us[i].input.r.indicator) else (0.0, 0.0))
  }

  predicate DivergenceKey(reg: Registry, k: Key, bullish: bool) {
    RoleOf(reg, k.fn) == if bullish then BullishDivergence else BearishDivergence
  }

  /** The lookback of a divergence call is 20, or the number written as its second argument. */
  predicate LooksBack(k: Key, p: nat) {
    p > 0 && |k.args| >= 1 &&
    if |k.args| == 1 then p == 20 else k.args[1].NumberLit? && Truncate(k.args[1].value) == p
  }

  lemma DivergenceUpdate(reg: Registry, u: Update, k: Key, bullish: bool, p: nat)
    requires Makes(u, CallOf(k)) && u.m.reg == reg && DivergenceKey(reg, k, bullish) && LooksBack(k, p)
    ensures u.input.Point? && u.input.r.lookback == p
    ensures u.result == DivergenceStep(u.before, k, bullish, p, u.input.r.price, u.input.r.indicator)
    ensures PriceRead(reg, u)
  {
    var st1 := Eval(u.m, u.call.args[0], u.st, u.top).st;
    assert Truncate(20.0) == 20;
    assert EvalLookback(u.m, u.call, st1, u.top) ==
           Ret(Num(if |k.args| == 1 then 20.0 else k.args[1].value), st1);
  }

  /** The point's price is that of the cycle. */
  predicate PriceRead(reg: Registry, u: Update) {
    u.input.Point? && ToFloat(reg, u.m.ctx.Get("현재가")) == Some(u.input.r.price)
  }

  function Remembered(st: State, k: Key): seq<(real, real)> {
    if k in st.history then st.history[k] else []
  }

  lemma LatestTwice<T>(s: seq<T>, x: T, p: nat)
    requires p > 0
    ensures var hist := Latest(s, p) + [x];
            (if |hist| > p then LastSlice(hist, p) else hist) == Latest(s + [x], p)
  {
  }

  lemma DivergenceOnce(reg: Registry, u: Update, k: Key, bullish: bool, p: nat, before: seq<(real, real)>)
    requires Makes(u, CallOf(k)) && u.m.reg == reg && DivergenceKey(reg, k, bullish) && LooksBack(k, p)
    requires Remembered(u.before, k) == Latest(before, p)
    ensures u.input.Point?
    ensures var kept := Latest(before + [(u.input.r.price, u.input.r.indicator)], p);
            kept != [] && Remembered(u.result.st, k) == kept && u.result.Ret? &&
            u.result.v == Bool(|kept| >= 5 && Diverges(kept, bullish))
  {
    DivergenceUpdate(reg, u, k, bullish, p);
    LatestTwice(before, (u.input.r.price, u.input.r.indicator), p);
  }

  lemma PointsSnoc(us: seq<Update>, n: nat)
    requires n < |us| && us[n].input.Point?
    ensures Points(us[..n + 1]) == Points(us[..n]) + [(us[n].input.r.price, us[n].input.r.indicator)]
  {
  }

  lemma {:induction false} DivergenceMemory(
    reg: Registry, us: seq<Update>, st: State, k: Key, bullish: bool, p: nat, n: nat)
    requires DivergenceKey(reg, k, bullish) && LooksBack(k, p) && k !in st.history
    requires n < |us| && Sequence(us, reg, st, CallOf(k))
    ensures Remembered(us[n].before, k) == Latest(Points(us[..n]), p)
  {
    if n == 0 {
      assert Find(us[0].before.history, k) == Find(st.history, k);
    } else {
      DivergenceMemory(reg, us, st, k, bullish, p, n - 1);
      DivergenceOnce(reg, us[n - 1], k, bullish, p, Points(us[..n - 1]));
      PointsSnoc(us, n - 1);
      assert Follows(us, n - 1, CallOf(k));
      assert Find(us[n].before.history, k) == Find(us[n - 1].result.st.history, k);
    }
  }

  /** A divergence is judged on the last p points of the whole history, of which at most p are stored. */
  lemma DivergenceHistory(
    reg: Registry, s: ScriptV2, ctxs: seq<Context>, st: State, k: Key, bullish: bool, p: nat, n: nat)
    requires DivergenceKey(reg, k, bullish) && LooksBack(k, p) && k !in st.history
    requires n < |RunUpdates(reg, s, ctxs, st, CallOf(k))|
    ensures var us := RunUpdates(reg, s, ctxs, st, CallOf(k));
            var kept := Latest(Points(us[..n + 1]), p);
            kept != [] && |kept| <= p && us[n].result.Ret? && Remembered(us[n].result.st, k) == kept &&
            us[n].result.v == Bool(Divergent(kept, bullish))
    ensures forall i :: 0 <= i < |RunUpdates(reg, s, ctxs, st, CallOf(k))| ==>
              PriceRead(reg, RunUpdates(reg, s, ctxs, st, CallOf(k))[i])
  {
    var us := RunUpdates(reg, s, ctxs, st, CallOf(k));
    RunSequence(reg, s, ctxs, st, CallOf(k));
    DivergenceMemory(reg, us, st, k, bullish, p, n);
    DivergenceOnce(reg, us[n], k, bullish, p, Points(us[..n]));
    PointsSnoc(us, n);
    DivergesExactly(Latest(Points(us[..n + 1]), p), bullish);
    forall i | 0 <= i < |us|
      ensures PriceRead(reg, us[i])
    {
      DivergenceUpdate(reg, us[i], k, bullish, p);
    }
  }
}
