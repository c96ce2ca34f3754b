/** The updates of one memory entry that an evaluation makes, in order, and that nothing else changes it. */
module UpdateLog {
  import opened Common
  import opened Syntax
  import opened Semantics
  import opened Memory

  // ---- one update ----

  /** What a call works out from its arguments before it turns to its entry. */
  datatype Input = Sides(a: Value, b: Value) | Point(r: Reading) | Condition(o: Outcome) | Hit(holds: bool)

  /** One update: a call that remembers something and what it is evaluated against, what it works out from
      its arguments, the memory it then finds, and its result with the memory it leaves. */
  datatype Update = Update(
    m: Machine, call: Expr, st: State, top: bool, input: Input, before: State, result: Out<Value>)

  function SidesInput(o: Out<Option<(Value, Value)>>): Out<Option<Input>> {
    match o
    case Raise(st) => Raise(st)
    case Ret(v, st) => Ret(if v == None then None else Some(Sides(v.value.0, v.value.1)), st)
  }

  function PointInput(o: Out<Option<Reading>>): Out<Option<Input>> {
    match o
    case Raise(st) => Raise(st)
    case Ret(v, st) => Ret(if v == None then None else Some(Point(v.value)), st)
  }

  function ConditionInput(o: Out<Option<Outcome>>): Out<Option<Input>> {
    match o
    case Raise(st) => Raise(st)
    case Ret(v, st) => Ret(if v == None then None else Some(Condition(v.value)), st)
  }

  function HitInput(o: Out<Value>): Out<Option<Input>> {
    match o
    case Raise(st) => Raise(st)
    case Ret(v, st) => Ret(Some(Hit(Truthy(v))), st)
  }

  /** None if the call leaves its entry alone. */
  function Prepare(m: Machine, e: Expr, st: State, top: bool): Out<Option<Input>>
    requires e.FuncCall?
  {
    match RoleOf(m.reg, e.fn)
    case CrossAbove | CrossBelow =>
      if |e.args| != 2 then Ret(None, st) else SidesInput(EvalSides(m, e, st, top))
    case BullishDivergence | BearishDivergence =>
      if |e.args| < 1 then Ret(None, st) else PointInput(EvalReading(m, e, st, top))
    case Count => if |e.args| != 2 then Ret(None, st) else ConditionInput(EvalOutcome(m, e, st))
    case Consecutive => if |e.args| != 1 then Ret(None, st) else HitInput(Eval(m, e.args[0], st, true))
    case Plain => Ret(None, st)
  }

  /** The entry a call updates. */
  function SlotOf(reg: Registry, e: Expr): Slot
    requires e.FuncCall?
  {
    match RoleOf(reg, e.fn)
    case Count => CounterOf(if e.args == [] then [] else NodeRepr(e.args[0]))
    case Consecutive => StreakOf(if e.args == [] then [] else NodeRepr(e.args[0]))
    case _ => CallOf(Key(e.fn, e.args))
  }

  function Step(st: State, role: Role, e: Expr, x: Input): Out<Value>
    requires e.FuncCall?
  {
    match x
    case Sides(a, b) => CrossStep(st, Key(e.fn, e.args), role == CrossAbove, a, b)
    case Point(r) => DivergenceStep(st, Key(e.fn, e.args), role == BullishDivergence, r.lookback, r.price, r.indicator)
    case Condition(o) => CountStep(st, if e.args == [] then [] else NodeRepr(e.args[0]), o.holds, o.period)
    case Hit(holds) => StreakStep(st, if e.args == [] then [] else NodeRepr(e.args[0]), holds)
  }

  /** The call gets to its update, and its entry is this one. */
  predicate Makes(u: Update, slot: Slot) {
    && u.call.FuncCall? && SlotOf(u.m.reg, u.call) == slot
    && Prepare(u.m, u.call, u.st, u.top) == Ret(Some(u.input), u.before)
    && u.result == Step(u.before, RoleOf(u.m.reg, u.call.fn), u.call, u.input)
  }

  /** The memory after the call, whether or not it made its update. */
  function After(m: Machine, e: Expr, st: State, top: bool): State
    requires e.FuncCall?
  {
    var p := Prepare(m, e, st, top);
    if p.Ret? && p.v.Some? then Step(p.st, RoleOf(m.reg, e.fn), e, p.v.value).st else p.st
  }

  function Own(m: Machine, e: Expr, st: State, top: bool, slot: Slot): (us: seq<Update>)
    requires e.FuncCall?
    ensures AllMake(us, m, slot) && |us| <= 1 && (SlotOf(m.reg, e) != slot ==> us == [])
  {
    var p := Prepare(m, e, st, top);
    if SlotOf(m.reg, e) == slot && p.Ret? && p.v.Some?
    then [Update(m, e, st, top, p.v.value, p.st, Step(p.st, RoleOf(m.reg, e.fn), e, p.v.value))] else []
  }

  // ---- the updates of an evaluation ----

  ghost predicate AllMake(us: seq<Update>, m: Machine, slot: Slot) {
    forall i :: 0 <= i < |us| ==> us[i].m == m && Makes(us[i], slot)
  }

  ghost predicate AllUnder(us: seq<Update>, reg: Registry, slot: Slot) {
    forall i :: 0 <= i < |us| ==> us[i].m.reg == reg && Makes(us[i], slot)
  }

  /** The updates of one entry while `e` is evaluated, in order. */
  function Updates(m: Machine, e: Expr, st: State, top: bool, slot: Slot): (us: seq<Update>)
    ensures AllMake(us, m, slot) && |us| <= Sites(m.reg, m.cache.Keys, e, top)[slot]
    decreases top, e, 1
  {
    match e
    case FuncCall(_, _, _) => CallUpdates(m, e, st, top, slot)
    case Compare(_, l, r, _) =>
      var p := Eval(m, l, st, top);
      Updates(m, l, st, top, slot) + if p.Ret? then Updates(m, r, p.st, top, slot) else []
    case Binary(_, l, r, _) =>
      var p := Eval(m, l, st, top);
      Updates(m, l, st, top, slot) + if p.Ret? then Updates(m, r, p.st, top, slot) else []
    case Unary(_, o, _) => Updates(m, o, st, top, slot)
    case _ => []
  }

  function CallUpdates(m: Machine, e: Expr, st: State, top: bool, slot: Slot): (us: seq<Update>)
    requires e.FuncCall?
    ensures AllMake(us, m, slot) && |us| <= Sites(m.reg, m.cache.Keys, e, top)[slot]
    decreases top, e, 0
  {
    if e.fn in m.cache then []
    else if e.fn in m.reg.patterns then if top then Updates(m, m.reg.patterns[e.fn], st, false, slot) else []
    else
      CallSites(m.reg, m.cache.Keys, e, top, slot);
      match RoleOf(m.reg, e.fn)
      case CrossAbove | CrossBelow =>
        SidesUpdates(m, e.args, st, top, slot) + Own(m, e, st, top, slot)
      case BullishDivergence | BearishDivergence =>
        ReadingUpdates(m, e.args, st, top, slot) + Own(m, e, st, top, slot)
      case _ => if e.fn in m.ctx.funcs then ArgUpdates(m, e.args, st, top, slot) else []
  }

  function ArgUpdates(m: Machine, args: seq<Expr>, st: State, top: bool, slot: Slot): (us: seq<Update>)
    ensures AllMake(us, m, slot) && |us| <= ArgSites(m.reg, m.cache.Keys, args, top)[slot]
    decreases top, args, 0
  {
    if args == [] then []
    else
      var p := Eval(m, args[0], st, top);
      Updates(m, args[0], st, top, slot) +
      if p.Ret? && p.v != Null then ArgUpdates(m, args[1..], p.st, top, slot) else []
  }

  function SidesUpdates(m: Machine, args: seq<Expr>, st: State, top: bool, slot: Slot): (us: seq<Update>)
    ensures AllMake(us, m, slot) && |us| <= ArgSites(m.reg, m.cache.Keys, args, top)[slot]
    decreases top, args, 0
  {
    if |args| != 2 then []
    else
      var p := Eval(m, args[0], st, top);
      TwoSites(m.reg, m.cache.Keys, args, top, slot);
      Updates(m, args[0], st, top, slot) + if p.Ret? then Updates(m, args[1], p.st, top, slot) else []
  }

  function ReadingUpdates(m: Machine, args: seq<Expr>, st: State, top: bool, slot: Slot): (us: seq<Update>)
    ensures AllMake(us, m, slot) && |us| <= ArgSites(m.reg, m.cache.Keys, args, top)[slot]
    decreases top, args, 0
  {
    if args == [] then []
    else
      var p := Eval(m, args[0], st, top);
      Updates(m, args[0], st, top, slot) +
      if |args| >= 2 && p.Ret? && p.v != Null then
        TwoSites(m.reg, m.cache.Keys, args, top, slot);
        Updates(m, args[1], p.st, top, slot)
      else []
  }

  lemma TwoSites(reg: Registry, names: set<string>, args: seq<Expr>, top: bool, slot: Slot)
    requires |args| >= 2
    ensures Sites(reg, names, args[0], top)[slot] + Sites(reg, names, args[1], top)[slot] <=
            ArgSites(reg, names, args, top)[slot]
  {
    assert args[1..][0] == args[1];
  }

  // ---- nothing else changes the entry ----

  /** From `st` to `end` the entry has been changed by these updates only. */
  predicate Chain(st: State, us: seq<Update>, end: State, slot: Slot)
    decreases |us|
  {
    if us == [] then Look(st, slot) == Look(end, slot)
    else Look(st, slot) == Look(us[0].before, slot) && Chain(us[0].result.st, us[1..], end, slot)
  }

  lemma {:induction false} ChainConcat(st: State, us: seq<Update>, mid: State, vs: seq<Update>, end: State, slot: Slot)
    requires Chain(st, us, mid, slot) && Chain(mid, vs, end, slot)
    ensures Chain(st, us + vs, end, slot)
    decreases |us|
  {
    if us == [] {
      assert us + vs == vs;
    } else {
      ChainConcat(us[0].result.st, us[1..], mid, vs, end, slot);
      assert (us + vs)[1..] == us[1..] + vs && (us + vs)[0] == us[0];
    }
  }

  lemma ChainSame(st: State, slot: Slot)
    ensures Chain(st, [], st, slot)
  {
  }

  predicate Tracked<T>(st: State, us: seq<Update>, out: Out<T>, slot: Slot) {
    Chain(st, us, out.st, slot)
  }

  /** A call's own step changes its own entry only. */
  lemma StepLeaves(m: Machine, e: Expr, st: State, top: bool, slot: Slot)
    requires e.FuncCall? && SlotOf(m.reg, e) != slot
    ensures Look(After(m, e, st, top), slot) == Look(Prepare(m, e, st, top).st, slot)
  {
  }

  lemma OwnChain(m: Machine, e: Expr, st: State, top: bool, slot: Slot)
    requires e.FuncCall?
    ensures Chain(Prepare(m, e, st, top).st, Own(m, e, st, top, slot), After(m, e, st, top), slot)
  {
    var us := Own(m, e, st, top, slot);
    if us != [] {
      assert us[1..] == [];
    } else if SlotOf(m.reg, e) != slot {
      StepLeaves(m, e, st, top, slot);
    }
  }

  /** The remembering calls are their preparation and their step. */
  lemma CallAfter(m: Machine, e: Expr, st: State, top: bool)
    requires e.FuncCall?
    ensures EvalCross(m, e, st, top, true).st == After(m, e, st, top) <== RoleOf(m.reg, e.fn) == CrossAbove
    ensures EvalCross(m, e, st, top, false).st == After(m, e, st, top) <== RoleOf(m.reg, e.fn) == CrossBelow
    ensures EvalDivergence(m, e, st, top, true).st == After(m, e, st, top) <== RoleOf(m.reg, e.fn) == BullishDivergence
    ensures EvalDivergence(m, e, st, top, false).st == After(m, e, st, top) <== RoleOf(m.reg, e.fn) == BearishDivergence
  {
  }

  lemma CrossTracked(m: Machine, e: Expr, st: State, top: bool, slot: Slot)
    requires e.FuncCall? && e.fn !in m.cache && e.fn !in m.reg.patterns
    requires RoleOf(m.reg, e.fn) == CrossAbove || RoleOf(m.reg, e.fn) == CrossBelow
    requires |e.args| == 2 ==> Tracked(st, SidesUpdates(m, e.args, st, top, slot), EvalSides(m, e, st, top), slot)
    ensures Tracked(st, CallUpdates(m, e, st, top, slot), EvalCall(m, e, st, top), slot)
  {
    var mid := Prepare(m, e, st, top).st;
    assert mid == if |e.args| == 2 then EvalSides(m, e, st, top).st else st;
    CallAfter(m, e, st, top);
    OwnChain(m, e, st, top, slot);
    ChainConcat(st, SidesUpdates(m, e.args, st, top, slot), mid, Own(m, e, st, top, slot), After(m, e, st, top), slot);
  }

  lemma DivergenceTracked(m: Machine, e: Expr, st: State, top: bool, slot: Slot)
    requires e.FuncCall? && e.fn !in m.cache && e.fn !in m.reg.patterns
    requires RoleOf(m.reg, e.fn) == BullishDivergence || RoleOf(m.reg, e.fn) == BearishDivergence
    requires |e.args| >= 1 ==> Tracked(st, ReadingUpdates(m, e.args, st, top, slot), EvalReading(m, e, st, top), slot)
    ensures Tracked(st, CallUpdates(m, e, st, top, slot), EvalCall(m, e, st, top), slot)
  {
    var mid := Prepare(m, e, st, top).st;
    assert mid == if |e.args| >= 1 then EvalReading(m, e, st, top).st else st;
    CallAfter(m, e, st, top);
    OwnChain(m, e, st, top, slot);
    var us := ReadingUpdates(m, e.args, st, top, slot);
    ChainConcat(st, us, mid, Own(m, e, st, top, slot), After(m, e, st, top), slot);
  }

  lemma PlainTracked(m: Machine, e: Expr, st: State, top: bool, slot: Slot)
    requires e.FuncCall? && e.fn !in m.cache && e.fn !in m.reg.patterns && !Remembers(RoleOf(m.reg, e.fn))
    requires Tracked(st, ArgUpdates(m, e.args, st, top, slot), EvalArgs(m, e.args, st, top), slot)
    ensures Tracked(st, CallUpdates(m, e, st, top, slot), EvalCall(m, e, st, top), slot)
  {
  }

  lemma {:induction false} EvalTracked(m: Machine, e: Expr, st: State, top: bool, slot: Slot)
    ensures Tracked(st, Updates(m, e, st, top, slot), Eval(m, e, st, top), slot)
    decreases top, e, 1
  {
    if e.FuncCall? {
      CallTracked(m, e, st, top, slot);
    } else if e.Compare? || e.Binary? {
      var p := Eval(m, e.left, st, top);
      EvalTracked(m, e.left, st, top, slot);
      if p.Ret? {
        EvalTracked(m, e.right, p.st, top, slot);
      }
      OperandsTracked(m, e, st, top, slot);
    } else if e.Unary? {
      EvalTracked(m, e.operand, st, top, slot);
    }
  }

  lemma OperandsTracked(m: Machine, e: Expr, st: State, top: bool, slot: Slot)
    requires e.Compare? || e.Binary?
    requires var p := Eval(m, e.left, st, top);
             Tracked(st, Updates(m, e.left, st, top, slot), p, slot) &&
             (p.Ret? ==> Tracked(p.st, Updates(m, e.right, p.st, top, slot), Eval(m, e.right, p.st, top), slot))
    ensures Tracked(st, Updates(m, e, st, top, slot), Eval(m, e, st, top), slot)
  {
    var p, us := Eval(m, e.left, st, top), Updates(m, e.left, st, top, slot);
    if p.Ret? {
      ChainConcat(st, us, p.st, Updates(m, e.right, p.st, top, slot), Eval(m, e.right, p.st, top).st, slot);
    } else {
      assert us + [] == us;
    }
  }

  lemma {:induction false} CallTracked(m: Machine, e: Expr, st: State, top: bool, slot: Slot)
    requires e.FuncCall?
    ensures Tracked(st, CallUpdates(m, e, st, top, slot), EvalCall(m, e, st, top), slot)
    decreases top, e, 0
  {
    if e.fn !in m.cache {
      if e.fn in m.reg.patterns {
        if top { EvalTracked(m, m.reg.patterns[e.fn], st, false, slot); }
      } else {
        var role := RoleOf(m.reg, e.fn);
        if !Remembers(role) {
          ArgsTracked(m, e.args, st, top, slot);
          PlainTracked(m, e, st, top, slot);
        } else if role == CrossAbove || role == CrossBelow {
          SidesTracked(m, e, st, top, slot);
          CrossTracked(m, e, st, top, slot);
        } else {
          ReadingTracked(m, e, st, top, slot);
          DivergenceTracked(m, e, st, top, slot);
        }
      }
    }
  }

  lemma {:induction false} ArgsTracked(m: Machine, args: seq<Expr>, st: State, top: bool, slot: Slot)
    ensures Tracked(st, ArgUpdates(m, args, st, top, slot), EvalArgs(m, args, st, top), slot)
    decreases top, args, 0
  {
    if args != [] {
      var p, us := Eval(m, args[0], st, top), Updates(m, args[0], st, top, slot);
      EvalTracked(m, args[0], st, top, slot);
      if p.Ret? && p.v != Null {
        ArgsTracked(m, args[1..], p.st, top, slot);
        var vs := ArgUpdates(m, args[1..], p.st, top, slot);
        ChainConcat(st, us, p.st, vs, EvalArgs(m, args[1..], p.st, top).st, slot);
      } else {
        assert us + [] == us;
      }
    }
  }

  lemma {:induction false} SidesTracked(m: Machine, e: Expr, st: State, top: bool, slot: Slot)
    requires e.FuncCall?
    ensures |e.args| == 2 ==> Tracked(st, SidesUpdates(m, e.args, st, top, slot), EvalSides(m, e, st, top), slot)
    decreases top, e, 0, 0
  {
    if |e.args| == 2 {
      var p, us := Eval(m, e.args[0], st, top), Updates(m, e.args[0], st, top, slot);
      EvalTracked(m, e.args[0], st, top, slot);
      if p.Ret? {
        EvalTracked(m, e.args[1], p.st, top, slot);
        ChainConcat(st, us, p.st, Updates(m, e.args[1], p.st, top, slot), Eval(m, e.args[1], p.st, top).st, slot);
      } else {
        assert us + [] == us;
      }
    }
  }

  lemma {:induction false} ReadingTracked(m: Machine, e: Expr, st: State, top: bool, slot: Slot)
    requires e.FuncCall?
    ensures |e.args| >= 1 ==> Tracked(st, ReadingUpdates(m, e.args, st, top, slot), EvalReading(m, e, st, top), slot)
    decreases top, e, 0, 0
  {
    if |e.args| >= 1 {
      var p, us := Eval(m, e.args[0], st, top), Updates(m, e.args[0], st, top, slot);
      EvalTracked(m, e.args[0], st, top, slot);
      if |e.args| >= 2 && p.Ret? && p.v != Null {
        EvalTracked(m, e.args[1], p.st, top, slot);
        ChainConcat(st, us, p.st, Updates(m, e.args[1], p.st, top, slot), Eval(m, e.args[1], p.st, top).st, slot);
      } else {
        assert us + [] == us;
      }
    }
  }

  /** An entry that evaluation has no call for stays as it is. */
  lemma EvalLeaves(m: Machine, e: Expr, st: State, top: bool, slot: Slot)
    requires slot !in Sites(m.reg, m.cache.Keys, e, top)
    ensures Look(Eval(m, e, st, top).st, slot) == Look(st, slot)
  {
    EvalTracked(m, e, st, top, slot);
    assert Updates(m, e, st, top, slot) == [];
  }

  /** Expressions do not touch counters and streaks. */
  lemma EvalKeepsCounters(m: Machine, e: Expr, st: State, top: bool)
    ensures Eval(m, e, st, top).st.counts == st.counts && Eval(m, e, st, top).st.streaks == st.streaks
  {
    var st' := Eval(m, e, st, top).st;
    forall k: Printed
      ensures Find(st'.counts, k) == Find(st.counts, k) && Find(st'.streaks, k) == Find(st.streaks, k)
    {
      EvalLeaves(m, e, st, top, CounterOf(k));
      EvalLeaves(m, e, st, top, StreakOf(k));
    }
    SameMaps(st'.counts, st.counts);
    SameMaps(st'.streaks, st.streaks);
  }

  /** An expression that reaches no crossover or divergence leaves the whole memory alone. */
  lemma PureKeeps(m: Machine, e: Expr, st: State, top: bool)
    requires Pure(m.reg, m.cache.Keys, e, top)
    ensures Eval(m, e, st, top).st == st
  {
    forall slot
      ensures Look(Eval(m, e, st, top).st, slot) == Look(st, slot)
    {
      EvalLeaves(m, e, st, top, slot);
    }
    SameEntries(Eval(m, e, st, top).st, st);
  }

  /** And its value does not depend on it. */
  lemma PureValue(m: Machine, e: Expr, st: State, tt: State, top: bool)
    requires Pure(m.reg, m.cache.Keys, e, top)
    ensures Eval(m, e, st, top).Ret? == Eval(m, e, tt, top).Ret?
    ensures Eval(m, e, st, top).Ret? ==> Eval(m, e, st, top).v == Eval(m, e, tt, top).v
  {
    EvalFrame(m, e, st, tt, top, {});
  }

  // ---- conditions ----

  function WalkUpdates(m: Machine, e: Expr, st: State, slot: Slot): (us: seq<Update>)
    ensures AllMake(us, m, slot) && |us| <= WalkSites(m.reg, m.cache.Keys, e)[slot]
    decreases e
  {
    match e
    case FuncCall(fn, args, _) =>
      (match RoleOf(m.reg, fn)
       case Count => if |args| != 2 then [] else OutcomeUpdates(m, args, st, slot) + Own(m, e, st, true, slot)
       case Consecutive => if |args| != 1 then [] else Updates(m, args[0], st, true, slot) + Own(m, e, st, true, slot)
       case _ => Updates(m, e, st, true, slot))
    case Compare(_, l, r, _) =>
      var p := Walk(m, l, st);
      WalkUpdates(m, l, st, slot) + if p.Ret? then WalkUpdates(m, r, p.st, slot) else []
    case Binary(op, l, r, _) =>
      var p := Walk(m, l, st);
      WalkUpdates(m, l, st, slot) + if p.Ret? then BinaryUpdates(m, e, p.v, p.st, slot) else []
    case Unary(_, o, _) => WalkUpdates(m, o, st, slot)
    case _ => []
  }

  function BinaryUpdates(m: Machine, e: Expr, a: Value, st: State, slot: Slot): (us: seq<Update>)
    requires e.Binary?
    ensures AllMake(us, m, slot)
    ensures |us| <= WalkSites(m.reg, m.cache.Keys, e.right)[slot] +
                    if e.op == And || e.op == Or then 0 else Sites(m.reg, m.cache.Keys, e, true)[slot]
    decreases e, 0
  {
    var p := Walk(m, e.right, st);
    WalkUpdates(m, e.right, st, slot) +
    if p.Ret? && a != Null && p.v != Null && e.op != And && e.op != Or then Updates(m, e, p.st, true, slot) else []
  }

  function OutcomeUpdates(m: Machine, args: seq<Expr>, st: State, slot: Slot): (us: seq<Update>)
    requires |args| == 2
    ensures AllMake(us, m, slot)
    ensures |us| <= Sites(m.reg, m.cache.Keys, args[1], true)[slot] + Sites(m.reg, m.cache.Keys, args[0], true)[slot]
  {
    var p := Eval(m, args[1], st, true);
    Updates(m, args[1], st, true, slot) +
    if p.Ret? && p.v != Null && ToInt(m.reg, p.v).Some? then Updates(m, args[0], p.st, true, slot) else []
  }

  lemma {:induction false} WalkTracked(m: Machine, e: Expr, st: State, slot: Slot)
    ensures Tracked(st, WalkUpdates(m, e, st, slot), Walk(m, e, st), slot)
    decreases e
  {
    if e.FuncCall? {
      match RoleOf(m.reg, e.fn)
      case Count => CountTracked(m, e, st, slot);
      case Consecutive => StreakTracked(m, e, st, slot);
      case _ => EvalTracked(m, e, st, true, slot);
    } else if e.Compare? || e.Binary? {
      var p := Walk(m, e.left, st);
      WalkTracked(m, e.left, st, slot);
      if p.Ret? {
        WalkTracked(m, e.right, p.st, slot);
      }
      if e.Compare? {
        CompareTracked(m, e, st, slot);
      } else {
        BinaryTracked(m, e, st, slot);
      }
    } else if e.Unary? {
      WalkTracked(m, e.operand, st, slot);
    }
  }

  lemma CompareTracked(m: Machine, e: Expr, st: State, slot: Slot)
    requires e.Compare? && Tracked(st, WalkUpdates(m, e.left, st, slot), Walk(m, e.left, st), slot)
    requires var p := Walk(m, e.left, st);
             p.Ret? ==> Tracked(p.st, WalkUpdates(m, e.right, p.st, slot), Walk(m, e.right, p.st), slot)
    ensures Tracked(st, WalkUpdates(m, e, st, slot), Walk(m, e, st), slot)
  {
    var p, us := Walk(m, e.left, st), WalkUpdates(m, e.left, st, slot);
    if p.Ret? {
      ChainConcat(st, us, p.st, WalkUpdates(m, e.right, p.st, slot), Walk(m, e.right, p.st).st, slot);
    } else {
      assert us + [] == us;
    }
  }

  lemma BinaryTracked(m: Machine, e: Expr, st: State, slot: Slot)
    requires e.Binary? && Tracked(st, WalkUpdates(m, e.left, st, slot), Walk(m, e.left, st), slot)
    requires var p := Walk(m, e.left, st);
             p.Ret? ==> Tracked(p.st, WalkUpdates(m, e.right, p.st, slot), Walk(m, e.right, p.st), slot)
    ensures Tracked(st, WalkUpdates(m, e, st, slot), Walk(m, e, st), slot)
  {
    var p, us := Walk(m, e.left, st), WalkUpdates(m, e.left, st, slot);
    if p.Ret? {
      var q, vs := Walk(m, e.right, p.st), WalkUpdates(m, e.right, p.st, slot);
      var ws := BinaryUpdates(m, e, p.v, p.st, slot);
      if q.Ret? && p.v != Null && q.v != Null && e.op != And && e.op != Or {
        EvalTracked(m, e, q.st, true, slot);
        ChainConcat(p.st, vs, q.st, Updates(m, e, q.st, true, slot), Eval(m, e, q.st, true).st, slot);
      } else {
        assert ws == vs;
      }
      ChainConcat(st, us, p.st, ws, Walk(m, e, st).st, slot);
    } else {
      assert us + [] == us;
    }
  }

  lemma WalkAfter(m: Machine, e: Expr, st: State)
    requires e.FuncCall? && (RoleOf(m.reg, e.fn) == Count || RoleOf(m.reg, e.fn) == Consecutive)
    ensures Walk(m, e, st).st == After(m, e, st, true)
  {
  }

  lemma CountTracked(m: Machine, e: Expr, st: State, slot: Slot)
    requires e.FuncCall? && RoleOf(m.reg, e.fn) == Count
    ensures Tracked(st, WalkUpdates(m, e, st, slot), Walk(m, e, st), slot)
  {
    if |e.args| == 2 {
      var mid, end := EvalOutcome(m, e, st).st, After(m, e, st, true);
      OutcomeTracked(m, e, st, slot);
      OwnChain(m, e, st, true, slot);
      assert Prepare(m, e, st, true).st == mid;
      ChainConcat(st, OutcomeUpdates(m, e.args, st, slot), mid, Own(m, e, st, true, slot), end, slot);
      WalkAfter(m, e, st);
    }
  }

  lemma OutcomeTracked(m: Machine, e: Expr, st: State, slot: Slot)
    requires e.FuncCall? && |e.args| == 2
    ensures Tracked(st, OutcomeUpdates(m, e.args, st, slot), EvalOutcome(m, e, st), slot)
  {
    var p, us := Eval(m, e.args[1], st, true), Updates(m, e.args[1], st, true, slot);
    EvalTracked(m, e.args[1], st, true, slot);
    if p.Ret? && p.v != Null && ToInt(m.reg, p.v).Some? {
      EvalTracked(m, e.args[0], p.st, true, slot);
      ChainConcat(st, us, p.st, Updates(m, e.args[0], p.st, true, slot), Eval(m, e.args[0], p.st, true).st, slot);
    } else {
      assert us + [] == us;
    }
  }

  lemma StreakTracked(m: Machine, e: Expr, st: State, slot: Slot)
    requires e.FuncCall? && RoleOf(m.reg, e.fn) == Consecutive
    ensures Tracked(st, WalkUpdates(m, e, st, slot), Walk(m, e, st), slot)
  {
    if |e.args| == 1 {
      var mid, end := Eval(m, e.args[0], st, true).st, After(m, e, st, true);
      EvalTracked(m, e.args[0], st, true, slot);
      OwnChain(m, e, st, true, slot);
      ChainConcat(st, Updates(m, e.args[0], st, true, slot), mid, Own(m, e, st, true, slot), end, slot);
      WalkAfter(m, e, st);
    }
  }

  // ---- cycles and runs ----

  function RuleUpdates(m: Machine, rules: seq<Rule>, st: State, slot: Slot): (us: seq<Update>)
    ensures AllMake(us, m, slot) && |us| <= RuleSites(m.reg, m.cache.Keys, rules)[slot]
  {
    if rules == [] then []
    else
      var p := Walk(m, rules[0].condition, st);
      WalkUpdates(m, rules[0].condition, st, slot) + if p.Ret? then RuleUpdates(m, rules[1..], p.st, slot) else []
  }

  function DefUpdates(m: Machine, funcs: seq<FuncDef>, st: State, slot: Slot): (us: seq<Update>)
    ensures AllUnder(us, m.reg, slot) && |us| <= DefSites(m.reg, m.cache.Keys, funcs)[slot]
    decreases |funcs|
  {
    if funcs == [] then []
    else
      var p := Eval(m, funcs[0].body, st, true);
      Updates(m, funcs[0].body, st, true, slot) +
      if p.Ret? then
        var m' := m.(cache := m.cache[funcs[0].name := p.v]);
        assert m'.cache.Keys == m.cache.Keys + {funcs[0].name};
        DefUpdates(m', funcs[1..], p.st, slot)
      else []
  }

  lemma {:induction false} RulesTracked(m: Machine, rules: seq<Rule>, st: State, slot: Slot)
    ensures Tracked(st, RuleUpdates(m, rules, st, slot), WalkRules(m, rules, st), slot)
  {
    if rules != [] {
      var p, us := Walk(m, rules[0].condition, st), WalkUpdates(m, rules[0].condition, st, slot);
      WalkTracked(m, rules[0].condition, st, slot);
      if p.Ret? {
        RulesTracked(m, rules[1..], p.st, slot);
        ChainConcat(st, us, p.st, RuleUpdates(m, rules[1..], p.st, slot), WalkRules(m, rules[1..], p.st).st, slot);
      } else {
        assert us + [] == us;
      }
    }
  }

  lemma {:induction false} DefsTracked(m: Machine, funcs: seq<FuncDef>, st: State, slot: Slot)
    ensures Tracked(st, DefUpdates(m, funcs, st, slot), EvalDefs(m, funcs, st), slot)
    decreases |funcs|
  {
    if funcs != [] {
      var p, us := Eval(m, funcs[0].body, st, true), Updates(m, funcs[0].body, st, true, slot);
      EvalTracked(m, funcs[0].body, st, true, slot);
      if p.Ret? {
        var m' := m.(cache := m.cache[funcs[0].name := p.v]);
        DefsTracked(m', funcs[1..], p.st, slot);
        ChainConcat(st, us, p.st, DefUpdates(m', funcs[1..], p.st, slot), EvalDefs(m', funcs[1..], p.st).st, slot);
      } else {
        assert us + [] == us;
      }
    }
  }

  /** What a cycle's custom functions are evaluated against. */
  function Start(reg: Registry, s: ScriptV2, ctx: Context): Machine {
    Machine(reg, InjectConsts(ctx, s.consts), map[])
  }

  function CycleUpdates(reg: Registry, s: ScriptV2, ctx: Context, st: State, slot: Slot): (us: seq<Update>)
    ensures AllUnder(us, reg, slot) && |us| <= ScriptSites(reg, s)[slot]
  {
    var m := Start(reg, s, ctx);
    var defs := EvalDefs(m, s.funcs, st);
    DefsCached(m, s.funcs, st);
    assert m.cache.Keys == {} && {} + FuncNames(s.funcs) == FuncNames(s.funcs);
    DefUpdates(m, s.funcs, st, slot) + if defs.Ret? then RuleUpdates(defs.v, s.rules, defs.st, slot) else []
  }

  lemma CycleTracked(reg: Registry, s: ScriptV2, ctx: Context, st: State, slot: Slot)
    ensures Tracked(st, CycleUpdates(reg, s, ctx, st, slot), EvaluateV2(reg, s, ctx, st), slot)
  {
    var m := Start(reg, s, ctx);
    var defs, us := EvalDefs(m, s.funcs, st), DefUpdates(m, s.funcs, st, slot);
    DefsTracked(m, s.funcs, st, slot);
    if defs.Ret? {
      var vs := RuleUpdates(defs.v, s.rules, defs.st, slot);
      RulesTracked(defs.v, s.rules, defs.st, slot);
      ChainConcat(st, us, defs.st, vs, WalkRules(defs.v, s.rules, defs.st).st, slot);
    } else {
      assert us + [] == us;
    }
  }

  /** All updates of an entry in a run of a version 2 script, cycle by cycle. */
  function RunUpdates(reg: Registry, s: ScriptV2, ctxs: seq<Context>, st: State, slot: Slot): (us: seq<Update>)
    ensures AllUnder(us, reg, slot)
  {
    if ctxs == [] then []
    else
      var init := ctxs[..|ctxs| - 1];
      RunUpdates(reg, s, init, st, slot) +
      CycleUpdates(reg, s, ctxs[|ctxs| - 1], MemoryAfterV2(reg, s, init, st), slot)
  }

  /** In every run of every script an entry is what its updates leave. */
  lemma {:induction false} RunTracked(reg: Registry, s: ScriptV2, ctxs: seq<Context>, st: State, slot: Slot)
    ensures Chain(st, RunUpdates(reg, s, ctxs, st, slot), MemoryAfterV2(reg, s, ctxs, st), slot)
  {
    if ctxs == [] {
      ChainSame(st, slot);
    } else {
      var init, ctx := ctxs[..|ctxs| - 1], ctxs[|ctxs| - 1];
      var mid := MemoryAfterV2(reg, s, init, st);
      RunTracked(reg, s, init, st, slot);
      CycleTracked(reg, s, ctx, mid, slot);
      ChainConcat(st, RunUpdates(reg, s, init, st, slot), mid, CycleUpdates(reg, s, ctx, mid, slot),
                  MemoryAfterV2(reg, s, ctxs, st), slot);
    }
  }
}
