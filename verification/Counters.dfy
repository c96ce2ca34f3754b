/** Counters and streaks of scripts: what they report if no other counter shares their key, and what happens
    if one does. */
module Counters {
  import opened Common
  import opened Syntax
  import opened Semantics
  import opened Memory
  import opened UpdateLog
  import opened StateFunctions
  import opened Preservation

  // ---- the calls of a script ----

  /** The calls that the walker of a condition gets to. */
  function Walked(e: Expr): set<Expr> {
    match e
    case FuncCall(_, _, _) => {e}
    case Compare(_, l, r, _) => Walked(l) + Walked(r)
    case Binary(_, l, r, _) => Walked(l) + Walked(r)
    case Unary(_, o, _) => Walked(o)
    case _ => {}
  }

  function RuleCalls(rules: seq<Rule>): set<Expr> {
    if rules == [] then {} else Walked(rules[0].condition) + RuleCalls(rules[1..])
  }

  /** A counter or streak call that updates this entry. */
  predicate Writes(reg: Registry, c: Expr, slot: Slot) {
    && c.FuncCall? && !slot.CallOf? && SlotOf(reg, c) == slot
    && |c.args| == if RoleOf(reg, c.fn) == Count then 2 else 1
  }

  /** The only counter or streak call in the script with its key. */
  predicate Sole(reg: Registry, s: ScriptV2, slot: Slot, call: Expr) {
    call in RuleCalls(s.rules) && Writes(reg, call, slot) && ScriptSites(reg, s)[slot] == 1
  }

  lemma {:induction false} CallSite(reg: Registry, names: set<string>, e: Expr, c: Expr, slot: Slot)
    requires c in Walked(e) && Writes(reg, c, slot)
    ensures WalkSites(reg, names, e)[slot] >= 1
  {
    if e.Compare? || e.Binary? {
      if c in Walked(e.left) {
        CallSite(reg, names, e.left, c, slot);
      } else {
        CallSite(reg, names, e.right, c, slot);
      }
    } else if e.Unary? {
      CallSite(reg, names, e.operand, c, slot);
    }
  }

  lemma {:induction false} OneCall(reg: Registry, names: set<string>, e: Expr, c: Expr, d: Expr, slot: Slot)
    requires c in Walked(e) && d in Walked(e) && Writes(reg, c, slot) && Writes(reg, d, slot)
    requires WalkSites(reg, names, e)[slot] <= 1
    ensures c == d
  {
    if e.Compare? || e.Binary? {
      forall x, o | o in {e.left, e.right} && x in {c, d} && x in Walked(o)
        ensures WalkSites(reg, names, o)[slot] >= 1
      {
        CallSite(reg, names, o, x, slot);
      }
      if c in Walked(e.left) && d in Walked(e.left) {
        OneCall(reg, names, e.left, c, d, slot);
      } else {
        OneCall(reg, names, e.right, c, d, slot);
      }
    } else if e.Unary? {
      OneCall(reg, names, e.operand, c, d, slot);
    }
  }

  lemma {:induction false} RuleSite(reg: Registry, names: set<string>, rules: seq<Rule>, c: Expr, slot: Slot)
    requires c in RuleCalls(rules) && Writes(reg, c, slot)
    ensures RuleSites(reg, names, rules)[slot] >= 1
  {
    if c in Walked(rules[0].condition) {
      CallSite(reg, names, rules[0].condition, c, slot);
    } else {
      RuleSite(reg, names, rules[1..], c, slot);
    }
  }

  lemma {:induction false} OneRuleCall(
    reg: Registry, names: set<string>, rules: seq<Rule>, c: Expr, d: Expr, slot: Slot)
    requires c in RuleCalls(rules) && d in RuleCalls(rules) && Writes(reg, c, slot) && Writes(reg, d, slot)
    requires RuleSites(reg, names, rules)[slot] <= 1
    ensures c == d
  {
    var first, rest := rules[0].condition, rules[1..];
    forall x | x in {c, d}
      ensures x in Walked(first) ==> WalkSites(reg, names, first)[slot] >= 1
      ensures x in RuleCalls(rest) ==> RuleSites(reg, names, rest)[slot] >= 1
    {
      if x in Walked(first) { CallSite(reg, names, first, x, slot); }
      if x in RuleCalls(rest) { RuleSite(reg, names, rest, x, slot); }
    }
    if c in Walked(first) && d in Walked(first) {
      OneCall(reg, names, first, c, d, slot);
    } else {
      OneRuleCall(reg, names, rest, c, d, slot);
    }
  }

  // ---- where updates come from ----

  /** The updates of a counter or streak entry are made by calls the walker gets to. */
  predicate Sourced(us: seq<Update>, calls: set<Expr>, reg: Registry, slot: Slot) {
    forall i :: 0 <= i < |us| ==> us[i].call in calls && Writes(reg, us[i].call, slot)
  }

  /** Operands in turn; the second evaluation of arithmetic updates no counter or streak. */
  lemma OperandUpdates(m: Machine, e: Expr, st: State, slot: Slot)
    requires (e.Compare? || e.Binary?) && !slot.CallOf?
    ensures var p := Walk(m, e.left, st);
            WalkUpdates(m, e, st, slot) ==
            WalkUpdates(m, e.left, st, slot) + if p.Ret? then WalkUpdates(m, e.right, p.st, slot) else []
  {
    var p := Walk(m, e.left, st);
    if e.Binary? && p.Ret? {
      var q := Walk(m, e.right, p.st);
      assert Updates(m, e, q.st, true, slot) == [];
      assert BinaryUpdates(m, e, p.v, p.st, slot) == WalkUpdates(m, e.right, p.st, slot) + [];
    }
  }

  lemma {:induction false} WalkSourced(m: Machine, e: Expr, st: State, slot: Slot)
    requires !slot.CallOf?
    ensures Sourced(WalkUpdates(m, e, st, slot), Walked(e), m.reg, slot)
  {
    if e.FuncCall? {
      CallSourced(m, e, st, slot);
    } else if e.Compare? || e.Binary? {
      var p := Walk(m, e.left, st);
      OperandUpdates(m, e, st, slot);
      WalkSourced(m, e.left, st, slot);
      if p.Ret? {
        WalkSourced(m, e.right, p.st, slot);
      }
    } else if e.Unary? {
      WalkSourced(m, e.operand, st, slot);
    }
  }

  lemma CountOwn(m: Machine, e: Expr, st: State, slot: Slot)
    requires e.FuncCall? && !slot.CallOf? && RoleOf(m.reg, e.fn) == Count
    ensures WalkUpdates(m, e, st, slot) == if |e.args| == 2 then Own(m, e, st, true, slot) else []
  {
    if |e.args| == 2 {
      assert OutcomeUpdates(m, e.args, st, slot) == [];
      assert WalkUpdates(m, e, st, slot) == [] + Own(m, e, st, true, slot);
    }
  }

  lemma StreakOwn(m: Machine, e: Expr, st: State, slot: Slot)
    requires e.FuncCall? && !slot.CallOf? && RoleOf(m.reg, e.fn) == Consecutive
    ensures WalkUpdates(m, e, st, slot) == if |e.args| == 1 then Own(m, e, st, true, slot) else []
  {
    if |e.args| == 1 {
      assert Updates(m, e.args[0], st, true, slot) == [];
      assert WalkUpdates(m, e, st, slot) == [] + Own(m, e, st, true, slot);
    }
  }

  /** Arguments update no counter or streak, so that the call's own update is the only one. */
  lemma CallSourced(m: Machine, e: Expr, st: State, slot: Slot)
    requires e.FuncCall? && !slot.CallOf?
    ensures WalkUpdates(m, e, st, slot) == if Writes(m.reg, e, slot) then Own(m, e, st, true, slot) else []
    ensures Sourced(WalkUpdates(m, e, st, slot), Walked(e), m.reg, slot)
  {
    if RoleOf(m.reg, e.fn) == Count {
      CountOwn(m, e, st, slot);
    } else if RoleOf(m.reg, e.fn) == Consecutive {
      StreakOwn(m, e, st, slot);
    } else {
      assert Updates(m, e, st, true, slot) == [];
    }
  }

  lemma {:induction false} RulesSourced(m: Machine, rules: seq<Rule>, st: State, slot: Slot)
    requires !slot.CallOf?
    ensures Sourced(RuleUpdates(m, rules, st, slot), RuleCalls(rules), m.reg, slot)
  {
    if rules != [] {
      var p := Walk(m, rules[0].condition, st);
      WalkSourced(m, rules[0].condition, st, slot);
      if p.Ret? {
        RulesSourced(m, rules[1..], p.st, slot);
      }
    }
  }

  /** A streak always counts its cycle, and a counter with a period written as a number does. */
  predicate Steady(reg: Registry, c: Expr)
    requires c.FuncCall?
  {
    RoleOf(reg, c.fn) == Count ==> |c.args| == 2 && c.args[1].NumberLit?
  }

  predicate AllSteady(reg: Registry, calls: set<Expr>, slot: Slot) {
    forall c :: c in calls && Writes(reg, c, slot) ==> Steady(reg, c)
  }

  lemma SteadyCall(m: Machine, e: Expr, st: State, slot: Slot)
    requires e.FuncCall? && Writes(m.reg, e, slot) && Steady(m.reg, e) && Walk(m, e, st).Ret?
    ensures |WalkUpdates(m, e, st, slot)| == 1
  {
    CallSourced(m, e, st, slot);
    if RoleOf(m.reg, e.fn) == Count {
      assert Eval(m, e.args[1], st, true) == Ret(Num(e.args[1].value), st);
    }
    assert Prepare(m, e, st, true).Ret? && Prepare(m, e, st, true).v.Some?;
  }

  lemma OperandVisits(m: Machine, e: Expr, st: State, slot: Slot)
    requires (e.Compare? || e.Binary?) && !slot.CallOf? && Walk(m, e.left, st).Ret?
    ensures var st1 := Walk(m, e.left, st).st;
            |WalkUpdates(m, e, st, slot)| ==
            |WalkUpdates(m, e.left, st, slot)| + |WalkUpdates(m, e.right, st1, slot)|
    ensures var names := m.cache.Keys;
            WalkSites(m.reg, names, e)[slot] ==
            WalkSites(m.reg, names, e.left)[slot] + WalkSites(m.reg, names, e.right)[slot]
  {
    OperandUpdates(m, e, st, slot);
    assert Sites(m.reg, m.cache.Keys, e, true)[slot] == 0;
  }

  /** A condition that does not raise walks to all of its calls. */
  lemma {:induction false} WalkVisits(m: Machine, e: Expr, st: State, slot: Slot)
    requires !slot.CallOf? && AllSteady(m.reg, Walked(e), slot) && Walk(m, e, st).Ret?
    ensures |WalkUpdates(m, e, st, slot)| == WalkSites(m.reg, m.cache.Keys, e)[slot]
  {
    if e.FuncCall? {
      if Writes(m.reg, e, slot) {
        assert e in Walked(e);
        SteadyCall(m, e, st, slot);
        CallSite(m.reg, m.cache.Keys, e, e, slot);
      } else {
        CallSourced(m, e, st, slot);
      }
    } else if e.Compare? || e.Binary? {
      WalkVisits(m, e.left, st, slot);
      WalkVisits(m, e.right, Walk(m, e.left, st).st, slot);
      OperandVisits(m, e, st, slot);
    } else if e.Unary? {
      WalkVisits(m, e.operand, st, slot);
    }
  }

  lemma {:induction false} RuleVisits(m: Machine, rules: seq<Rule>, st: State, slot: Slot)
    requires !slot.CallOf? && AllSteady(m.reg, RuleCalls(rules), slot) && WalkRules(m, rules, st).Ret?
    ensures |RuleUpdates(m, rules, st, slot)| == RuleSites(m.reg, m.cache.Keys, rules)[slot]
  {
    if rules != [] {
      WalkVisits(m, rules[0].condition, st, slot);
      RuleVisits(m, rules[1..], Walk(m, rules[0].condition, st).st, slot);
    }
  }

  // ---- cycles and runs of a script with a single such call ----

  /** Custom functions have no counters, so that a cycle's updates are those of its rules. */
  lemma CycleRules(reg: Registry, s: ScriptV2, ctx: Context, st: State, slot: Slot)
    requires !slot.CallOf?
    ensures var defs := EvalDefs(Start(reg, s, ctx), s.funcs, st);
            CycleUpdates(reg, s, ctx, st, slot) ==
            if defs.Ret? then RuleUpdates(defs.v, s.rules, defs.st, slot) else []
  {
    var m := Start(reg, s, ctx);
    assert DefUpdates(m, s.funcs, st, slot) == [];
  }

  lemma SoleRuleCall(reg: Registry, s: ScriptV2, slot: Slot, call: Expr, c: Expr)
    requires Sole(reg, s, slot, call) && c in RuleCalls(s.rules) && Writes(reg, c, slot)
    ensures c == call
  {
    assert DefSites(reg, {}, s.funcs)[slot] == 0;
    OneRuleCall(reg, FuncNames(s.funcs), s.rules, c, call, slot);
  }

  lemma CycleSourced(reg: Registry, s: ScriptV2, ctx: Context, st: State, slot: Slot)
    requires !slot.CallOf?
    ensures Sourced(CycleUpdates(reg, s, ctx, st, slot), RuleCalls(s.rules), reg, slot)
  {
    var defs := EvalDefs(Start(reg, s, ctx), s.funcs, st);
    CycleRules(reg, s, ctx, st, slot);
    if defs.Ret? {
      DefsCached(Start(reg, s, ctx), s.funcs, st);
      RulesSourced(defs.v, s.rules, defs.st, slot);
    }
  }

  lemma {:induction false} RunSourced(reg: Registry, s: ScriptV2, ctxs: seq<Context>, st: State, slot: Slot)
    requires !slot.CallOf?
    ensures Sourced(RunUpdates(reg, s, ctxs, st, slot), RuleCalls(s.rules), reg, slot)
  {
    if ctxs != [] {
      var init := ctxs[..|ctxs| - 1];
      RunSourced(reg, s, init, st, slot);
      CycleSourced(reg, s, ctxs[|ctxs| - 1], MemoryAfterV2(reg, s, init, st), slot);
    }
  }

  predicate MadeBy(us: seq<Update>, call: Expr) {
    forall i :: 0 <= i < |us| ==> us[i].call == call
  }

  /** All updates of the entry are made by the one call. */
  lemma SoleUpdates(reg: Registry, s: ScriptV2, ctxs: seq<Context>, st: State, slot: Slot, call: Expr)
    requires Sole(reg, s, slot, call)
    ensures MadeBy(RunUpdates(reg, s, ctxs, st, slot), call)
  {
    var us := RunUpdates(reg, s, ctxs, st, slot);
    RunSourced(reg, s, ctxs, st, slot);
    forall i | 0 <= i < |us|
      ensures us[i].call == call
    {
      SoleRuleCall(reg, s, slot, call, us[i].call);
    }
  }

  /** A condition holds where an update evaluates it. */
  predicate Holds(u: Update, cond: Expr) {
    var v := Eval(u.m, cond, u.st, true);
    v.Ret? && Truthy(v.v)
  }

  /** `횟수(cond, p)` with a positive whole period. */
  predicate CountCall(reg: Registry, e: Expr, p: nat) {
    e.FuncCall? && |e.args| == 2 && RoleOf(reg, e.fn) == Count && p > 0 &&
    e.args[1].NumberLit? && Truncate(e.args[1].value) == p
  }

  predicate StreakCall(reg: Registry, e: Expr) {
    e.FuncCall? && |e.args| == 1 && RoleOf(reg, e.fn) == Consecutive
  }

  lemma CountInput(reg: Registry, u: Update, slot: Slot, p: nat)
    requires u.m.reg == reg && Makes(u, slot) && CountCall(reg, u.call, p)
    ensures u.input == Condition(Outcome(Holds(u, u.call.args[0]), p))
  {
    assert Eval(u.m, u.call.args[1], u.st, true) == Ret(Num(u.call.args[1].value), u.st);
  }

  lemma StreakInput(reg: Registry, u: Update, slot: Slot)
    requires u.m.reg == reg && Makes(u, slot) && StreakCall(reg, u.call)
    ensures u.input == Hit(Holds(u, u.call.args[0]))
  {
  }

  /** Where the condition held. */
  function HeldRun(us: seq<Update>, cond: Expr): seq<bool> {
    seq(|us|, i requires 0 <= i < |us| => Holds(us[i], cond))
  }

  lemma CountInputs(reg: Registry, us: seq<Update>, slot: Slot, call: Expr, p: nat)
    requires AllUnder(us, reg, slot) && CountCall(reg, call, p) && MadeBy(us, call)
    ensures Outcomes(us) == HeldRun(us, call.args[0]) && Span(Periods(us)) == if |us| <= p then |us| else p
  {
    forall i | 0 <= i < |us|
      ensures us[i].input == Condition(Outcome(Holds(us[i], call.args[0]), p))
    {
      CountInput(reg, us[i], slot, p);
    }
    SpanConstant(Periods(us), p);
  }

  lemma StreakInputs(reg: Registry, us: seq<Update>, slot: Slot, call: Expr)
    requires AllUnder(us, reg, slot) && StreakCall(reg, call) && MadeBy(us, call)
    ensures Hits(us) == HeldRun(us, call.args[0])
  {
    forall i | 0 <= i < |us|
      ensures us[i].input == Hit(Holds(us[i], call.args[0]))
    {
      StreakInput(reg, us[i], slot);
    }
  }

  lemma CountWindow(reg: Registry, us: seq<Update>, st: State, k: Printed, call: Expr, p: nat, n: nat)
    requires CountCall(reg, call, p) && MadeBy(us, call) && n < |us|
    requires k !in st.counts && Sequence(us, reg, st, CounterOf(k))
    ensures var window := Latest(HeldRun(us[..n + 1], call.args[0]), p);
            us[n].result.Ret? && us[n].result.v == Num(CountTrue(window) as real) &&
            Stored(us[n].result.st, k) == window && |window| <= p
  {
    CountReport(reg, us, st, k, n);
    CountInputs(reg, us[..n + 1], CounterOf(k), call, p);
    CountInput(reg, us[n], CounterOf(k), p);
  }

  /** If no other counter has its key, a counter reports how often its condition held in the last p cycles
      that got to it, this one included, and at most p outcomes are kept. */
  lemma CountHistory(
    reg: Registry, s: ScriptV2, ctxs: seq<Context>, st: State, call: Expr, p: nat, n: nat)
    requires CountCall(reg, call, p)
    requires var k := NodeRepr(call.args[0]); k !in st.counts && Sole(reg, s, CounterOf(k), call)
    requires n < |RunUpdates(reg, s, ctxs, st, CounterOf(NodeRepr(call.args[0])))|
    ensures var k := NodeRepr(call.args[0]);
            var us := RunUpdates(reg, s, ctxs, st, CounterOf(k));
            MadeBy(us, call) &&
            var window := Latest(HeldRun(us[..n + 1], call.args[0]), p);
            us[n].result.Ret? && us[n].result.v == Num(CountTrue(window) as real) &&
            Stored(us[n].result.st, k) == window && |window| <= p
  {
    var k := NodeRepr(call.args[0]);
    RunSequence(reg, s, ctxs, st, CounterOf(k));
    SoleUpdates(reg, s, ctxs, st, CounterOf(k), call);
    CountWindow(reg, RunUpdates(reg, s, ctxs, st, CounterOf(k)), st, k, call, p, n);
  }

  lemma StreakLength(reg: Registry, us: seq<Update>, st: State, k: Printed, call: Expr, n: nat)
    requires StreakCall(reg, call) && MadeBy(us, call) && n < |us|
    requires k !in st.streaks && Sequence(us, reg, st, StreakOf(k))
    ensures us[n].result.Ret? && us[n].result.v == Num(Streak(HeldRun(us[..n + 1], call.args[0])) as real)
  {
    StreakReport(reg, us, st, k, n);
    StreakInputs(reg, us[..n + 1], StreakOf(k), call);
  }

  /** If no other streak has its key, a streak reports in how many of the latest cycles that got to it its
      condition held without a break. */
  lemma StreakHistory(reg: Registry, s: ScriptV2, ctxs: seq<Context>, st: State, call: Expr, n: nat)
    requires StreakCall(reg, call)
    requires var k := NodeRepr(call.args[0]); k !in st.streaks && Sole(reg, s, StreakOf(k), call)
    requires n < |RunUpdates(reg, s, ctxs, st, StreakOf(NodeRepr(call.args[0])))|
    ensures var us := RunUpdates(reg, s, ctxs, st, StreakOf(NodeRepr(call.args[0])));
            MadeBy(us, call) &&
            us[n].result.Ret? && us[n].result.v == Num(Streak(HeldRun(us[..n + 1], call.args[0])) as real)
  {
    var k := NodeRepr(call.args[0]);
    RunSequence(reg, s, ctxs, st, StreakOf(k));
    SoleUpdates(reg, s, ctxs, st, StreakOf(k), call);
    StreakLength(reg, RunUpdates(reg, s, ctxs, st, StreakOf(k)), st, k, call, n);
  }

  /** A cycle that does not raise updates the entry once, against the machine of its rules. */
  lemma SoleCycle(reg: Registry, s: ScriptV2, ctx: Context, st: State, slot: Slot, call: Expr)
    requires Sole(reg, s, slot, call) && Steady(reg, call) && EvaluateV2(reg, s, ctx, st).Ret?
    ensures var us, defs := CycleUpdates(reg, s, ctx, st, slot), EvalDefs(Start(reg, s, ctx), s.funcs, st);
            |us| == 1 && defs.Ret? && us[0].m == defs.v
  {
    var m := Start(reg, s, ctx);
    var defs := EvalDefs(m, s.funcs, st);
    CycleRules(reg, s, ctx, st, slot);
    DefsCached(m, s.funcs, st);
    forall c | c in RuleCalls(s.rules) && Writes(reg, c, slot)
      ensures Steady(reg, c)
    {
      SoleRuleCall(reg, s, slot, call, c);
    }
    assert m.cache.Keys == {} && {} + FuncNames(s.funcs) == FuncNames(s.funcs);
    assert WalkRules(defs.v, s.rules, defs.st).Ret?;
    RuleVisits(defs.v, s.rules, defs.st, slot);
    assert DefSites(reg, {}, s.funcs)[slot] == 0;
  }

  /** No cycle of the run raises. */
  predicate Completes(reg: Registry, s: ScriptV2, ctxs: seq<Context>, st: State) {
    forall i :: 0 <= i < |ctxs| ==> RunV2(reg, s, ctxs, st)[i].Some?
  }

  lemma CompletesInit(reg: Registry, s: ScriptV2, ctxs: seq<Context>, st: State)
    requires ctxs != [] && Completes(reg, s, ctxs, st)
    ensures var init := ctxs[..|ctxs| - 1];
            Completes(reg, s, init, st) &&
            EvaluateV2(reg, s, ctxs[|ctxs| - 1], MemoryAfterV2(reg, s, init, st)).Ret?
  {
    var init := ctxs[..|ctxs| - 1];
    forall i | 0 <= i < |init|
      ensures RunV2(reg, s, init, st)[i].Some?
    {
      assert RunV2(reg, s, ctxs, st)[i] == RunV2(reg, s, init, st)[i];
    }
    assert RunV2(reg, s, ctxs, st)[|init|].Some?;
  }

  /** What the rules of cycle i are evaluated against. */
  function MachineAt(reg: Registry, s: ScriptV2, ctxs: seq<Context>, st: State, i: nat): Machine
    requires i < |ctxs|
  {
    var m := Start(reg, s, ctxs[i]);
    var defs := EvalDefs(m, s.funcs, MemoryAfterV2(reg, s, ctxs[..i], st));
    if defs.Ret? then defs.v else m
  }

  ghost predicate Against(us: seq<Update>, reg: Registry, s: ScriptV2, ctxs: seq<Context>, st: State) {
    |us| == |ctxs| && forall i :: 0 <= i < |ctxs| ==> us[i].m == MachineAt(reg, s, ctxs, st, i)
  }

  lemma AgainstSnoc(us: seq<Update>, u: Update, reg: Registry, s: ScriptV2, ctxs: seq<Context>, st: State)
    requires ctxs != [] && Against(us, reg, s, ctxs[..|ctxs| - 1], st)
    requires u.m == MachineAt(reg, s, ctxs, st, |ctxs| - 1)
    ensures Against(us + [u], reg, s, ctxs, st)
  {
    var init := ctxs[..|ctxs| - 1];
    forall i | 0 <= i < |ctxs|
      ensures (us + [u])[i].m == MachineAt(reg, s, ctxs, st, i)
    {
      if i < |init| {
        assert init[..i] == ctxs[..i];
        assert us[i].m == MachineAt(reg, s, init, st, i);
      }
    }
  }

  lemma LastCycle(reg: Registry, s: ScriptV2, ctxs: seq<Context>, st: State, slot: Slot, call: Expr)
      returns (u: Update)
    requires Sole(reg, s, slot, call) && Steady(reg, call) && ctxs != []
    requires EvaluateV2(reg, s, ctxs[|ctxs| - 1], MemoryAfterV2(reg, s, ctxs[..|ctxs| - 1], st)).Ret?
    ensures RunUpdates(reg, s, ctxs, st, slot) == RunUpdates(reg, s, ctxs[..|ctxs| - 1], st, slot) + [u]
    ensures u.m == MachineAt(reg, s, ctxs, st, |ctxs| - 1)
  {
    var init, ctx := ctxs[..|ctxs| - 1], ctxs[|ctxs| - 1];
    var mid := MemoryAfterV2(reg, s, init, st);
    SoleCycle(reg, s, ctx, mid, slot, call);
    var now := CycleUpdates(reg, s, ctx, mid, slot);
    u := now[0];
    assert now == [u];
  }

  /** In a run without exceptions the n-th update is that of the n-th cycle. */
  lemma {:induction false} EveryCycle(
    reg: Registry, s: ScriptV2, ctxs: seq<Context>, st: State, slot: Slot, call: Expr)
    requires Sole(reg, s, slot, call) && Steady(reg, call) && Completes(reg, s, ctxs, st)
    ensures Against(RunUpdates(reg, s, ctxs, st, slot), reg, s, ctxs, st)
  {
    if ctxs != [] {
      var init := ctxs[..|ctxs| - 1];
      CompletesInit(reg, s, ctxs, st);
      EveryCycle(reg, s, init, st, slot, call);
      var u := LastCycle(reg, s, ctxs, st, slot, call);
      AgainstSnoc(RunUpdates(reg, s, init, st, slot), u, reg, s, ctxs, st);
    }
  }

  lemma {:induction false} CompletesAt(reg: Registry, s: ScriptV2, ctxs: seq<Context>, st: State, i: nat)
    requires Completes(reg, s, ctxs, st) && i < |ctxs|
    ensures EvaluateV2(reg, s, ctxs[i], MemoryAfterV2(reg, s, ctxs[..i], st)).Ret?
  {
    var init := ctxs[..|ctxs| - 1];
    CompletesInit(reg, s, ctxs, st);
    if i < |init| {
      CompletesAt(reg, s, init, st, i);
      assert init[..i] == ctxs[..i];
    }
  }

  lemma MachineNames(reg: Registry, s: ScriptV2, ctxs: seq<Context>, st: State, i: nat)
    requires Completes(reg, s, ctxs, st) && i < |ctxs|
    ensures var m := MachineAt(reg, s, ctxs, st, i);
            m.reg == reg && m.ctx == InjectConsts(ctxs[i], s.consts) && m.cache.Keys == FuncNames(s.funcs)
  {
    CompletesAt(reg, s, ctxs, st, i);
    var m := Start(reg, s, ctxs[i]);
    DefsCached(m, s.funcs, MemoryAfterV2(reg, s, ctxs[..i], st));
    assert m.cache.Keys == {} && {} + FuncNames(s.funcs) == FuncNames(s.funcs);
  }

  /** A condition that does not touch the memory holds for both of two updates in a cycle or for neither. */
  lemma SameHeld(
    us: seq<Update>, vs: seq<Update>, reg: Registry, s: ScriptV2, ctxs: seq<Context>, st: State, cond: Expr, n: nat)
    requires n <= |ctxs| && Against(us, reg, s, ctxs, st) && Against(vs, reg, s, ctxs, st)
    requires Completes(reg, s, ctxs, st) && Pure(reg, FuncNames(s.funcs), cond, true)
    ensures HeldRun(us[..n], cond) == HeldRun(vs[..n], cond)
  {
    forall i | 0 <= i < n
      ensures Holds(us[i], cond) == Holds(vs[i], cond)
    {
      MachineNames(reg, s, ctxs, st, i);
      PureValue(us[i].m, cond, us[i].st, vs[i].st, true);
    }
  }

  /** In a run without exceptions, a counter over p cycles is full exactly when the streak of the same
      condition has lasted at least p cycles, for conditions that do not touch the memory. */
  lemma FullCounterIffStreak(
    reg: Registry, s: ScriptV2, ctxs: seq<Context>, st: State, count: Expr, streak: Expr, p: nat, n: nat)
    requires CountCall(reg, count, p) && StreakCall(reg, streak) && count.args[0] == streak.args[0]
    requires Pure(reg, FuncNames(s.funcs), count.args[0], true)
    requires var k := NodeRepr(count.args[0]);
             && k !in st.counts && Sole(reg, s, CounterOf(k), count)
             && k !in st.streaks && Sole(reg, s, StreakOf(k), streak)
    requires Completes(reg, s, ctxs, st) && n < |ctxs|
    ensures var k := NodeRepr(count.args[0]);
            var us, vs := RunUpdates(reg, s, ctxs, st, CounterOf(k)), RunUpdates(reg, s, ctxs, st, StreakOf(k));
            && |us| == |vs| == |ctxs| && us[n].result.Ret? && vs[n].result.Ret?
            && us[n].result.v.Num? && vs[n].result.v.Num?
            && (us[n].result.v.n == p as real <==> vs[n].result.v.n >= p as real)
  {
    var k := NodeRepr(count.args[0]);
    var us, vs := RunUpdates(reg, s, ctxs, st, CounterOf(k)), RunUpdates(reg, s, ctxs, st, StreakOf(k));
    EveryCycle(reg, s, ctxs, st, CounterOf(k), count);
    EveryCycle(reg, s, ctxs, st, StreakOf(k), streak);
    CountHistory(reg, s, ctxs, st, count, p, n);
    StreakHistory(reg, s, ctxs, st, streak, n);
    SameHeld(us, vs, reg, s, ctxs, st, count.args[0], n + 1);
    CountFullIffStreak(HeldRun(us[..n + 1], count.args[0]), p);
  }

  // ---- shared keys ----

  /** `횟수(cond, p) >= least`. */
  function AtLeast(f: string, cond: Expr, p: real, least: real, at: Pos): Expr {
    Compare(Ge, FuncCall(f, [cond, NumberLit(p, at)], at), NumberLit(least, at), at)
  }

  /** A counter whose window is not full yet. */
  lemma CounterStep(m: Machine, f: string, cond: Expr, p: real, at: Pos, st: State, before: seq<bool>)
    requires RoleOf(m.reg, f) == Count && Truncate(p) > |before| && Pure(m.reg, m.cache.Keys, cond, true)
    requires Eval(m, cond, st, true).Ret? && Stored(st, NodeRepr(cond)) == before
    ensures var all := before + [Truthy(Eval(m, cond, st, true).v)];
            Walk(m, FuncCall(f, [cond, NumberLit(p, at)], at), st) ==
            Ret(Num(CountTrue(all) as real), st.(counts := st.counts[NodeRepr(cond) := all]))
  {
    var call := FuncCall(f, [cond, NumberLit(p, at)], at);
    var holds := Truthy(Eval(m, cond, st, true).v);
    PureKeeps(m, cond, st, true);
    assert Eval(m, call.args[1], st, true) == Ret(Num(p), st);
    assert EvalOutcome(m, call, st) == Ret(Some(Outcome(holds, Truncate(p))), st);
    assert Walk(m, call, st) == CountStep(st, NodeRepr(cond), holds, Truncate(p));
  }

  lemma AtLeastStep(m: Machine, f: string, cond: Expr, p: real, least: real, at: Pos, st: State, before: seq<bool>)
    requires RoleOf(m.reg, f) == Count && Truncate(p) > |before| && Pure(m.reg, m.cache.Keys, cond, true)
    requires Eval(m, cond, st, true).Ret? && Stored(st, NodeRepr(cond)) == before
    ensures var all := before + [Truthy(Eval(m, cond, st, true).v)];
            Walk(m, AtLeast(f, cond, p, least, at), st) ==
            Ret(Bool(CountTrue(all) as real >= least), st.(counts := st.counts[NodeRepr(cond) := all]))
  {
    var call, bound := FuncCall(f, [cond, NumberLit(p, at)], at), NumberLit(least, at);
    var all := before + [Truthy(Eval(m, cond, st, true).v)];
    var st' := st.(counts := st.counts[NodeRepr(cond) := all]);
    CounterStep(m, f, cond, p, at, st, before);
    assert Walk(m, bound, st') == Ret(Num(least), st');
    AtLeastWalk(m, call, bound, at, st, st', CountTrue(all) as real, least);
  }

  lemma AtLeastWalk(m: Machine, l: Expr, r: Expr, at: Pos, st: State, st': State, n: real, least: real)
    requires Walk(m, l, st) == Ret(Num(n), st') && Walk(m, r, st') == Ret(Num(least), st')
    ensures Walk(m, Compare(Ge, l, r, at), st) == Ret(Bool(n >= least), st')
  {
  }

  /** Two rules with a counter each, over conditions with the same printed form. */
  function TwoCounters(
    f: string, c: Expr, d: Expr, p: real, q: real, first: Action, second: Action, at: Pos): ScriptV2
  {
    ScriptV2([], [], [Rule(AtLeast(f, c, p, 1.0, at), first), Rule(AtLeast(f, d, q, 2.0, at), second)])
  }

  lemma CountTwo(x: bool, y: bool)
    ensures CountTrue([] + [x]) == if x then 1 else 0
    ensures CountTrue([x] + [y]) == (if x then 1 else 0) + if y then 1 else 0
  {
    assert ([] + [x])[..0] == [] && ([x] + [y])[..1] == [] + [x];
  }

  /** The walks of the two conditions, one after the other. */
  lemma TwoWalks(m: Machine, f: string, c: Expr, d: Expr, p: real, q: real, at: Pos)
    requires RoleOf(m.reg, f) == Count && Truncate(p) >= 1 && Truncate(q) >= 2 && NodeRepr(c) == NodeRepr(d)
    requires Pure(m.reg, m.cache.Keys, c, true) && Pure(m.reg, m.cache.Keys, d, true)
    requires Eval(m, c, EMPTY_STATE, true).Ret? && Eval(m, d, EMPTY_STATE, true).Ret?
    ensures var x, y := Truthy(Eval(m, c, EMPTY_STATE, true).v), Truthy(Eval(m, d, EMPTY_STATE, true).v);
            var first := Walk(m, AtLeast(f, c, p, 1.0, at), EMPTY_STATE);
            first == Ret(Bool(x), first.st) &&
            var second := Walk(m, AtLeast(f, d, q, 2.0, at), first.st);
            second == Ret(Bool(x && y), second.st)
  {
    var x, y := Truthy(Eval(m, c, EMPTY_STATE, true).v), Truthy(Eval(m, d, EMPTY_STATE, true).v);
    var st1 := EMPTY_STATE.(counts := EMPTY_STATE.counts[NodeRepr(c) := [] + [x]]);
    AtLeastStep(m, f, c, p, 1.0, at, EMPTY_STATE, []);
    PureValue(m, d, EMPTY_STATE, st1, true);
    AtLeastStep(m, f, d, q, 2.0, at, st1, [] + [x]);
    assert [] + [x] == [x];
    CountTwo(x, y);
  }

  /** In the first cycle the second counter cannot have seen its condition hold twice. It reports two all
      the same, exactly if both conditions hold: the counters have one history. */
  lemma SharedCounters(
    reg: Registry, f: string, c: Expr, d: Expr, p: real, q: real, first: Action, second: Action, at: Pos, ctx: Context)
    requires RoleOf(reg, f) == Count && Truncate(p) >= 1 && Truncate(q) >= 2 && NodeRepr(c) == NodeRepr(d)
    requires Pure(reg, {}, c, true) && Pure(reg, {}, d, true)
    requires var m := Machine(reg, ctx, map[]);
             Eval(m, c, EMPTY_STATE, true).Ret? && Eval(m, d, EMPTY_STATE, true).Ret?
    ensures var m := Machine(reg, ctx, map[]);
            var x, y := Truthy(Eval(m, c, EMPTY_STATE, true).v), Truthy(Eval(m, d, EMPTY_STATE, true).v);
            var r := EvaluateV2(reg, TwoCounters(f, c, d, p, q, first, second, at), ctx, EMPTY_STATE);
            r.Ret? && r.v.snapshots == [Bool(x), Bool(x && y)]
  {
    var m := Machine(reg, ctx, map[]);
    var s := TwoCounters(f, c, d, p, q, first, second, at);
    assert m.cache.Keys == {};
    TwoWalks(m, f, c, d, p, q, at);
    WalkTwo(m, s.rules, EMPTY_STATE);
  }

  predicate Leaf(e: Expr) {
    e.NumberLit? || e.BoolLit? || e.StringLit? || e.FieldRef?
  }

  /** The same up to positions. */
  predicate SameLeaf(a: Expr, b: Expr)
    requires Leaf(a) && Leaf(b)
  {
    match a
    case NumberLit(v, _) => b.NumberLit? && b.value == v
    case BoolLit(t, _) => b.BoolLit? && b.truth == t
    case StringLit(s, _) => b.StringLit? && b.text == s
    case FieldRef(n, _) => b.FieldRef? && b.name == n
  }

  lemma LeafKeys(a: Expr, b: Expr)
    requires Leaf(a) && Leaf(b) && PlainNames(a) && PlainNames(b)
    ensures |NodeRepr(a)| == 1 && (NodeRepr(a) == NodeRepr(b) <==> SameLeaf(a, b))
  {
    assert |"true"| != |"false"|;
    assert NodeRepr(a)[0] == NodeRepr(b)[0] <==> NodeRepr(a) == NodeRepr(b);
  }

  /** No field is called true or false. */
  predicate PlainNames(e: Expr) {
    e.FieldRef? ==> e.name != "true" && e.name != "false"
  }

  /** Counters over simple comparisons share a key exactly if the comparisons agree but for their positions. */
  lemma ComparisonKeys(op: CmpOp, a: Expr, b: Expr, op': CmpOp, c: Expr, d: Expr, at: Pos, at': Pos)
    requires Leaf(a) && Leaf(b) && Leaf(c) && Leaf(d)
    requires PlainNames(a) && PlainNames(b) && PlainNames(c) && PlainNames(d)
    ensures NodeRepr(Compare(op, a, b, at)) == NodeRepr(Compare(op', c, d, at')) <==>
            op == op' && SameLeaf(a, c) && SameLeaf(b, d)
  {
    var e, f := Compare(op, a, b, at), Compare(op', c, d, at');
    LeafKeys(a, c);
    LeafKeys(b, d);
    LeafKeys(c, a);
    LeafKeys(d, b);
    OperatorAtoms(op, op');
    Three(NodeRepr(a), CmpAtom(op), NodeRepr(b), NodeRepr(c), CmpAtom(op'), NodeRepr(d));
    assert NodeRepr(e) == NodeRepr(a) + [CmpAtom(op)] + NodeRepr(b);
    assert NodeRepr(f) == NodeRepr(c) + [CmpAtom(op')] + NodeRepr(d);
  }

  lemma OperatorAtoms(op: CmpOp, op': CmpOp)
    ensures CmpAtom(op) == CmpAtom(op') <==> op == op'
  {
    assert |">"| == 1 && |"<"| == 1 && |">="| == 2 && |"<="| == 2 && |"=="| == 2 && |"!="| == 2;
    assert ">"[0] != "<"[0] && ">="[0] != "<="[0] && ">="[0] != "=="[0] && ">="[0] != "!="[0];
    assert "<="[0] != "=="[0] && "<="[0] != "!="[0] && "=="[0] != "!="[0];
  }

  lemma Three(x: Printed, a: Atom, y: Printed, z: Printed, b: Atom, w: Printed)
    requires |x| == |y| == |z| == |w| == 1
    ensures x + [a] + y == z + [b] + w <==> x == z && a == b && y == w
  {
    assert (x + [a] + y)[0] == x[0] && (x + [a] + y)[1] == a && (x + [a] + y)[2] == y[0];
    assert (z + [b] + w)[0] == z[0] && (z + [b] + w)[1] == b && (z + [b] + w)[2] == w[0];
  }

  /** `(a + b) * c` and `a + b * c` are different trees with one printed form, so that counters over
      comparisons of them share a key. */
  lemma ParenthesesCollide(a: Expr, b: Expr, c: Expr, bound: Expr, at: Pos)
    ensures var l, r := Binary(Times, Binary(Plus, a, b, at), c, at), Binary(Plus, a, Binary(Times, b, c, at), at);
            l != r && NodeRepr(Compare(Gt, l, bound, at)) == NodeRepr(Compare(Gt, r, bound, at))
  {
    var sum, product := Binary(Plus, a, b, at), Binary(Times, b, c, at);
    var l, r := Binary(Times, sum, c, at), Binary(Plus, a, product, at);
    assert l.op != r.op;
    var x, y, z := NodeRepr(a), NodeRepr(b), NodeRepr(c);
    assert NodeRepr(sum) == x + [Mark('+')] + y && NodeRepr(product) == y + [Mark('*')] + z;
    assert NodeRepr(l) == NodeRepr(sum) + [Mark('*')] + z && NodeRepr(r) == x + [Mark('+')] + NodeRepr(product);
    assert x + [Mark('+')] + y + [Mark('*')] + z == x + [Mark('+')] + (y + [Mark('*')] + z);
  }
}
