/** Turning a version 1 script into version 2 rules keeps its decisions and its memory, cycle by cycle. */
module Preservation {
  import opened Common
  import opened Syntax
  import opened Grammar
  import opened ScriptGrammar
  import opened RoundTrip
  import opened ScriptSound
  import opened Semantics
  import opened Memory
  import opened UpdateLog

  // ---- where the two evaluators agree ----

  predicate Counts(r: Role) {
    r == Count || r == Consecutive
  }

  /** Where the version 2 walker looks, no counter or streak is called, and arithmetic, which the walker
      evaluates twice, is pure. */
  predicate Convertible(reg: Registry, names: set<string>, e: Expr) {
    match e
    case FuncCall(fn, _, _) => !Counts(RoleOf(reg, fn))
    case Compare(_, l, r, _) => Convertible(reg, names, l) && Convertible(reg, names, r)
    case Binary(op, l, r, _) =>
      Convertible(reg, names, l) && Convertible(reg, names, r) && (op == And || op == Or || Pure(reg, names, e, true))
    case Unary(_, o, _) => Convertible(reg, names, o)
    case _ => true
  }

  lemma {:induction false} WalkIsEval(m: Machine, e: Expr, st: State)
    requires Convertible(m.reg, m.cache.Keys, e)
    ensures Walk(m, e, st) == Eval(m, e, st, true)
    decreases e
  {
    match e
    case Compare(_, l, r, _) =>
      WalkIsEval(m, l, st);
      WalkIsEval(m, r, Eval(m, l, st, true).st);
    case Binary(op, l, r, _) =>
      var st1 := Eval(m, l, st, true).st;
      WalkIsEval(m, l, st);
      WalkIsEval(m, r, st1);
      if op != And && op != Or {
        PureKeeps(m, l, st, true);
        PureKeeps(m, r, st1, true);
      }
    case Unary(_, o, _) => WalkIsEval(m, o, st);
    case _ =>
  }

  /** A condition on types that makes a well-formed expression convertible: no call has a boolean argument. */
  predicate TypedArgs(env: Env, e: Expr) {
    match e
    case FuncCall(_, args, _) =>
      forall a :: a in args ==> InferType(env.reg, env.customs, a) != Boolean && TypedArgs(env, a)
    case Compare(_, l, r, _) => TypedArgs(env, l) && TypedArgs(env, r)
    case Binary(_, l, r, _) => TypedArgs(env, l) && TypedArgs(env, r)
    case Unary(_, o, _) => TypedArgs(env, o)
    case _ => true
  }

  /** Crossover and divergence functions return booleans, all others numbers. */
  predicate TablesTyped(reg: Registry) {
    forall fn :: fn in reg.funcs ==> reg.funcs[fn].ret == if Remembers(reg.funcs[fn].role) then Boolean else Number
  }

  predicate NoCounters(reg: Registry, e: Expr) {
    match e
    case FuncCall(fn, _, _) => !Counts(RoleOf(reg, fn))
    case Compare(_, l, r, _) => NoCounters(reg, l) && NoCounters(reg, r)
    case Binary(_, l, r, _) => NoCounters(reg, l) && NoCounters(reg, r)
    case Unary(_, o, _) => NoCounters(reg, o)
    case _ => true
  }

  predicate KnownTypes(env: Env) {
    TablesTyped(env.reg) && forall f :: f in env.customs ==> env.customs[f] != Unknown
  }

  lemma {:induction false} TypeKnown(env: Env, e: Expr)
    requires WF(env, e) && KnownTypes(env)
    ensures InferType(env.reg, env.customs, e) != Unknown
  {
    if e.IndexAccess? { TypeKnown(env, e.base); }
  }

  lemma {:induction false} NonBooleanIsPure(env: Env, names: set<string>, e: Expr)
    requires WF(env, e) && KnownTypes(env) && env.customs.Keys <= names
    requires TypedArgs(env, e) && InferType(env.reg, env.customs, e) != Boolean
    ensures Pure(env.reg, names, e, true)
    decreases e
  {
    match e
    case FuncCall(fn, args, _) =>
      forall a | a in args ensures Pure(env.reg, names, a, true) { NonBooleanIsPure(env, names, a); }
      PureArgs(env.reg, names, args, true);
    case Binary(op, l, r, _) =>
      TypeKnown(env, l); TypeKnown(env, r);
      NonBooleanIsPure(env, names, l); NonBooleanIsPure(env, names, r);
    case Unary(op, o, _) =>
      TypeKnown(env, o);
      NonBooleanIsPure(env, names, o);
    case _ =>
  }

  lemma {:induction false} TypedArgsConvert(env: Env, names: set<string>, e: Expr)
    requires WF(env, e) && KnownTypes(env) && env.customs.Keys <= names
    requires TypedArgs(env, e) && NoCounters(env.reg, e)
    ensures Convertible(env.reg, names, e)
    decreases e
  {
    match e
    case Compare(_, l, r, _) => TypedArgsConvert(env, names, l); TypedArgsConvert(env, names, r);
    case Binary(op, l, r, _) =>
      TypedArgsConvert(env, names, l); TypedArgsConvert(env, names, r);
      if op != And && op != Or { NonBooleanIsPure(env, names, e); }
    case Unary(_, o, _) => TypedArgsConvert(env, names, o);
    case _ =>
  }

  // ---- one cycle ----

  predicate ConvertibleScript(reg: Registry, s: Script) {
    Convertible(reg, FuncNames(s.funcs), s.buy) && Convertible(reg, FuncNames(s.funcs), s.sell)
  }

  /** The holding field is present and zero. */
  predicate HoldsNothing(ctx: Context) {
    ctx.Get("보유수량") != Null && SameValue(ctx.Get("보유수량"), Num(0.0))
  }

  /** What the converted script should do when the version 1 decisions are `buy` and `sell`: its rules are in
      the order of the blocks. */
  function Converted(buy: bool, sell: bool, ctx: Context, buyFirst: bool): Option<Decision> {
    if sell then Some(Decision(if buyFirst then 1 else 0, Action(Sell, All)))
    else if buy && HoldsNothing(ctx) then Some(Decision(if buyFirst then 0 else 1, Action(Buy, Percent(100.0))))
    else None
  }

  function BuyFirst(s: Script, at: Pos): ScriptV2 {
    ScriptV2(s.funcs, [], [BuyRule(s.buy, at), SellRule(s.sell)])
  }

  function SellFirst(s: Script, at: Pos): ScriptV2 {
    ScriptV2(s.funcs, [], [SellRule(s.sell), BuyRule(s.buy, at)])
  }

  lemma WalkHeld(m: Machine, at: Pos, st: State)
    ensures var held := Compare(Eq, FieldRef(HOLDING, Pos(0, 0)), NumberLit(0.0, Pos(0, 0)), at);
            Walk(m, held, st) ==
            Ret(if m.ctx.Get(HOLDING) == Null then Null else Bool(HoldsNothing(m.ctx)), st)
  {
    assert Walk(m, FieldRef(HOLDING, Pos(0, 0)), st) == Ret(m.ctx.Get(HOLDING), st);
    assert Walk(m, NumberLit(0.0, Pos(0, 0)), st) == Ret(Num(0.0), st);
  }

  lemma WalkBuyRule(m: Machine, e: Expr, at: Pos, st: State)
    requires Convertible(m.reg, m.cache.Keys, e)
    ensures var r := Walk(m, BuyRule(e, at).condition, st);
            var p := Eval(m, e, st, true);
            r.st == p.st && r.Ret? == p.Ret? &&
            (p.Ret? ==> (r.v == Bool(true) <==> Truthy(p.v) && HoldsNothing(m.ctx)) && (r.v == Null || r.v.Bool?))
  {
    WalkIsEval(m, e, st);
    var p, rule := Eval(m, e, st, true), BuyRule(e, at).condition;
    WalkHeld(m, at, p.st);
    assert Walk(m, rule.left, st) == p && rule.right.Compare? && rule.op == And;
  }

  /** One cycle from equal memories: both raise or neither does, the memories stay equal, and the version 2
      action is the one the version 1 decisions call for. */
  lemma CyclePreserved(reg: Registry, s: Script, at: Pos, ctx: Context, st: State)
    requires ConvertibleScript(reg, s)
    ensures var v1 := Evaluate(reg, s, ctx, st);
            var v2 := EvaluateV2(reg, BuyFirst(s, at), ctx, st);
            v1.st == v2.st && v1.Ret? == v2.Ret? && (v1.Ret? ==> v2.v.action == Converted(v1.v.0, v1.v.1, ctx, true))
  {
    var m0 := Machine(reg, ctx, map[]);
    DefsCached(m0, s.funcs, st);
    var defs := EvalDefs(m0, s.funcs, st);
    if defs.Ret? {
      var m := defs.v;
      var rules := BuyFirst(s, at).rules;
      assert m.cache.Keys == FuncNames(s.funcs);
      WalkBuyRule(m, s.buy, at, defs.st);
      var buy := Eval(m, s.buy, defs.st, true);
      WalkIsEval(m, s.sell, buy.st);
      var sell := Eval(m, s.sell, buy.st, true);
      WalkTwo(m, rules, defs.st);
      if buy.Ret? && sell.Ret? {
        ResolveTwo(rules, WalkRules(m, rules, defs.st).v);
      }
    }
  }

  lemma WalkTwo(m: Machine, rules: seq<Rule>, st: State)
    requires |rules| == 2
    ensures var p := Walk(m, rules[0].condition, st);
            var q := Walk(m, rules[1].condition, p.st);
            WalkRules(m, rules, st) ==
            if p.Raise? then Raise(p.st) else if q.Raise? then Raise(q.st)
            else Ret([Snapshot(p.v), Snapshot(q.v)], q.st)
  {
    var p := Walk(m, rules[0].condition, st);
    assert rules[1..][0] == rules[1];
    WalkOne(m, rules[1..], p.st);
    var q := Walk(m, rules[1].condition, p.st);
    if p.Ret? && q.Ret? {
      assert WalkRules(m, rules[1..], p.st) == Ret([Snapshot(q.v)], q.st);
      assert [Snapshot(p.v)] + [Snapshot(q.v)] == [Snapshot(p.v), Snapshot(q.v)];
    }
  }

  lemma WalkOne(m: Machine, rules: seq<Rule>, st: State)
    requires |rules| == 1
    ensures var p := Walk(m, rules[0].condition, st);
            WalkRules(m, rules, st) == if p.Raise? then Raise(p.st) else Ret([Snapshot(p.v)], p.st)
  {
    var p := Walk(m, rules[0].condition, st);
    assert WalkRules(m, rules[1..], p.st) == Ret([], p.st);
    if p.Ret? { assert [Snapshot(p.v)] + [] == [Snapshot(p.v)]; }
  }

  lemma ResolveTwo(rules: seq<Rule>, results: seq<Value>)
    requires |rules| == |results| == 2
    ensures var first, second := rules[0].action, rules[1].action;
            Resolve(rules, results) ==
            if results[0] == Bool(true) && (results[1] != Bool(true) || Urgency(second) <= Urgency(first))
            then Some(Decision(0, first))
            else if results[1] == Bool(true) then Some(Decision(1, second)) else None
  {
    assert rules[..1][..0] == [] && results[..1][..0] == [];
    assert Resolve(rules[..1], results[..1]) ==
           if results[0] == Bool(true) then Some(Decision(0, rules[0].action)) else None;
  }

  // ---- the other order ----

  /** No entry of the memory can be updated by both. */
  predicate Apart(reg: Registry, names: set<string>, d: Expr, e: Expr) {
    Sites(reg, names, d, true) !! Sites(reg, names, e, true)
  }

  /** The entries that `e` can update are left alone by an expression that updates none of them. */
  lemma ApartAgree(m: Machine, d: Expr, e: Expr, st: State)
    requires Apart(m.reg, m.cache.Keys, d, e)
    ensures var ks := set s | s in Sites(m.reg, m.cache.Keys, e, true);
            AgreeOn(st, Eval(m, d, st, true).st, ks) && Covers(ks, Sites(m.reg, m.cache.Keys, e, true))
  {
    forall s | s in Sites(m.reg, m.cache.Keys, e, true)
      ensures Look(st, s) == Look(Eval(m, d, st, true).st, s)
    {
      EvalLeaves(m, d, st, true, s);
    }
  }

  /** Evaluating another such expression before makes no difference to the outcome and its own entries. */
  lemma ApartAlike(m: Machine, d: Expr, e: Expr, st: State, slot: Slot)
    requires Apart(m.reg, m.cache.Keys, d, e)
    ensures var before, after := Eval(m, e, st, true), Eval(m, e, Eval(m, d, st, true).st, true);
            before.Ret? == after.Ret? && (before.Ret? ==> before.v == after.v) &&
            Look(after.st, slot) ==
            if slot in Sites(m.reg, m.cache.Keys, e, true) then Look(before.st, slot)
            else Look(Eval(m, d, st, true).st, slot)
  {
    var mid := Eval(m, d, st, true).st;
    var ks := set s | s in Sites(m.reg, m.cache.Keys, e, true);
    ApartAgree(m, d, e, st);
    EvalFrame(m, e, st, mid, true, ks);
    if slot !in Sites(m.reg, m.cache.Keys, e, true) {
      EvalLeaves(m, e, mid, true, slot);
    }
  }

  /** Expressions that update no common entry can be evaluated in either order. */
  lemma Commute(m: Machine, d: Expr, e: Expr, st: State)
    requires Apart(m.reg, m.cache.Keys, d, e)
    ensures var d1, e1 := Eval(m, d, st, true), Eval(m, e, st, true);
            var d2, e2 := Eval(m, d, e1.st, true), Eval(m, e, d1.st, true);
            && d1.Ret? == d2.Ret? && (d1.Ret? ==> d1.v == d2.v)
            && e1.Ret? == e2.Ret? && (e1.Ret? ==> e1.v == e2.v)
            && d2.st == e2.st
  {
    var d1, e1 := Eval(m, d, st, true), Eval(m, e, st, true);
    var d2, e2 := Eval(m, d, e1.st, true), Eval(m, e, d1.st, true);
    forall s
      ensures Look(d2.st, s) == Look(e2.st, s)
    {
      ApartAlike(m, d, e, st, s);
      ApartAlike(m, e, d, st, s);
      if s !in Sites(m.reg, m.cache.Keys, d, true) { EvalLeaves(m, d, st, true, s); }
      if s !in Sites(m.reg, m.cache.Keys, e, true) { EvalLeaves(m, e, st, true, s); }
    }
    SameEntries(d2.st, e2.st);
    ApartAlike(m, d, e, st, CounterOf([]));
    ApartAlike(m, e, d, st, CounterOf([]));
  }

  predicate ApartScript(reg: Registry, s: Script) {
    Apart(reg, FuncNames(s.funcs), s.buy, s.sell)
  }

  /** One cycle with the sell block first, and blocks that update no common entry: both raise or neither
      does, and if neither does the memories stay equal and the action is the one called for. */
  lemma CycleSellFirst(reg: Registry, s: Script, at: Pos, ctx: Context, st: State)
    requires ConvertibleScript(reg, s) && ApartScript(reg, s)
    ensures var v1 := Evaluate(reg, s, ctx, st);
            var v2 := EvaluateV2(reg, SellFirst(s, at), ctx, st);
            v1.Ret? == v2.Ret? &&
            (v1.Ret? ==> v1.st == v2.st && v2.v.action == Converted(v1.v.0, v1.v.1, ctx, false))
  {
    var m0 := Machine(reg, ctx, map[]);
    DefsCached(m0, s.funcs, st);
    var defs := EvalDefs(m0, s.funcs, st);
    if defs.Ret? {
      var m := defs.v;
      var rules := SellFirst(s, at).rules;
      assert m.cache.Keys == FuncNames(s.funcs);
      Commute(m, s.buy, s.sell, defs.st);
      var sell := Eval(m, s.sell, defs.st, true);
      WalkIsEval(m, s.sell, defs.st);
      WalkBuyRule(m, s.buy, at, sell.st);
      WalkTwo(m, rules, defs.st);
      if sell.Ret? && Eval(m, s.buy, sell.st, true).Ret? {
        ResolveTwo(rules, WalkRules(m, rules, defs.st).v);
      }
    }
  }

  /** After a cycle that raises, version 1 has evaluated the blocks up to the raising one in the other order:
      the memories are equal exactly if neither block has updated anything where the other one raises. */
  lemma RaisedMemory(m: Machine, buy: Expr, sell: Expr, st: State)
    requires Apart(m.reg, m.cache.Keys, buy, sell)
    requires Eval(m, buy, st, true).Raise? || Eval(m, sell, st, true).Raise?
    ensures var b, c := Eval(m, buy, st, true), Eval(m, sell, st, true);
            var v1 := if b.Raise? then b.st else Eval(m, sell, b.st, true).st;
            var v2 := if c.Raise? then c.st else Eval(m, buy, c.st, true).st;
            v1 == v2 <==> (b.Raise? ==> c.st == st) && (c.Raise? ==> b.st == st)
  {
    var b, c := Eval(m, buy, st, true), Eval(m, sell, st, true);
    Commute(m, buy, sell, st);
    Separate(m, buy, sell, st);
    Separate(m, sell, buy, st);
  }

  /** What one expression leaves agrees with what both leave exactly if the other one updates nothing. */
  lemma Separate(m: Machine, d: Expr, e: Expr, st: State)
    requires Apart(m.reg, m.cache.Keys, d, e)
    ensures var d1, e1 := Eval(m, d, st, true), Eval(m, e, st, true);
            (d1.st == Eval(m, e, d1.st, true).st <==> e1.st == st) && (d1.st == e1.st <==> d1.st == st && e1.st == st)
  {
    var d1, e1 := Eval(m, d, st, true), Eval(m, e, st, true);
    var e2 := Eval(m, e, d1.st, true);
    forall s
      ensures Look(d1.st, s) == Look(e2.st, s) <==> Look(e1.st, s) == Look(st, s)
      ensures Look(d1.st, s) == Look(e1.st, s) <==> Look(d1.st, s) == Look(st, s) && Look(e1.st, s) == Look(st, s)
    {
      ApartAlike(m, d, e, st, s);
      if s !in Sites(m.reg, m.cache.Keys, d, true) { EvalLeaves(m, d, st, true, s); }
      if s !in Sites(m.reg, m.cache.Keys, e, true) { EvalLeaves(m, e, st, true, s); }
    }
    Extensional(d1.st, e2.st);
    Extensional(e1.st, st);
    Extensional(d1.st, e1.st);
    Extensional(d1.st, st);
  }

  lemma Extensional(a: State, b: State)
    ensures a == b <==> forall s :: Look(a, s) == Look(b, s)
  {
    if forall s :: Look(a, s) == Look(b, s) { SameEntries(a, b); }
  }

  // ---- whole runs ----

  /** The version 2 actions that a version 1 run calls for. */
  function ConvertedRun(
    run: seq<Option<(bool, bool)>>, ctxs: seq<Context>, buyFirst: bool): seq<Option<Option<Decision>>>
    requires |run| == |ctxs|
  {
    seq(|run|, i requires 0 <= i < |run| =>
      if run[i] == None then None else Some(Converted(run[i].value.0, run[i].value.1, ctxs[i], buyFirst)))
  }

  lemma ConvertedSnoc(
    run: seq<Option<(bool, bool)>>, ctxs: seq<Context>, last: Option<(bool, bool)>, ctx: Context, buyFirst: bool)
    requires |run| == |ctxs|
    ensures ConvertedRun(run + [last], ctxs + [ctx], buyFirst) ==
            ConvertedRun(run, ctxs, buyFirst) +
            [if last == None then None else Some(Converted(last.value.0, last.value.1, ctx, buyFirst))]
  {
  }

  /** Whole runs: the actions are those called for, and the memories stay equal. */
  lemma {:induction false} RunPreserved(reg: Registry, s: Script, at: Pos, ctxs: seq<Context>, st: State)
    requires ConvertibleScript(reg, s)
    ensures RunV2(reg, BuyFirst(s, at), ctxs, st) == ConvertedRun(Run(reg, s, ctxs, st), ctxs, true)
    ensures MemoryAfterV2(reg, BuyFirst(s, at), ctxs, st) == MemoryAfter(reg, s, ctxs, st)
  {
    if ctxs != [] {
      var init, ctx := ctxs[..|ctxs| - 1], ctxs[|ctxs| - 1];
      RunPreserved(reg, s, at, init, st);
      CyclePreserved(reg, s, at, ctx, MemoryAfter(reg, s, init, st));
      var r := Evaluate(reg, s, ctx, MemoryAfter(reg, s, init, st));
      ConvertedSnoc(Run(reg, s, init, st), init, if r.Ret? then Some(r.v) else None, ctx, true);
      assert ctxs == init + [ctx];
    }
  }

  /** Only the last cycle may raise. */
  predicate Unbroken(run: seq<Option<(bool, bool)>>) {
    forall i :: 0 <= i < |run| - 1 ==> run[i].Some?
  }

  /** The same with the sell block first, up to and including the first cycle that raises. */
  lemma {:induction false} RunSellFirst(reg: Registry, s: Script, at: Pos, ctxs: seq<Context>, st: State)
    requires ConvertibleScript(reg, s) && ApartScript(reg, s) && Unbroken(Run(reg, s, ctxs, st))
    ensures RunV2(reg, SellFirst(s, at), ctxs, st) == ConvertedRun(Run(reg, s, ctxs, st), ctxs, false)
    ensures (forall i :: 0 <= i < |ctxs| ==> Run(reg, s, ctxs, st)[i].Some?) ==>
              MemoryAfterV2(reg, SellFirst(s, at), ctxs, st) == MemoryAfter(reg, s, ctxs, st)
  {
    if ctxs != [] {
      var init, ctx := ctxs[..|ctxs| - 1], ctxs[|ctxs| - 1];
      forall i | 0 <= i < |init|
        ensures Run(reg, s, init, st)[i].Some?
      {
        assert Run(reg, s, init, st)[i] == Run(reg, s, ctxs, st)[i];
      }
      RunSellFirst(reg, s, at, init, st);
      CycleSellFirst(reg, s, at, ctx, MemoryAfter(reg, s, init, st));
      var r := Evaluate(reg, s, ctx, MemoryAfter(reg, s, init, st));
      ConvertedSnoc(Run(reg, s, init, st), init, if r.Ret? then Some(r.v) else None, ctx, false);
      assert ctxs == init + [ctx];
    }
  }

  /** What version 2 makes of a script that version 1 accepts. */
  lemma ConvertedScript(reg: Registry, ts: Stream) returns (at: Pos, buyFirst: bool)
    requires ParseScript(reg, ts).Ok?
    ensures var s := ParseScript(reg, ts).value;
            ParseScriptV2(reg, ts).Ok? &&
            ParseScriptV2(reg, ts).value == if buyFirst then BuyFirst(s, at) else SellFirst(s, at)
  {
    var s := ParseScript(reg, ts).value;
    at, buyFirst := V1Converted(reg, ts);
    assert Desugar(Some(s.buy), Some(s.sell), at, buyFirst) ==
           if buyFirst then [BuyRule(s.buy, at), SellRule(s.sell)] else [SellRule(s.sell), BuyRule(s.buy, at)];
  }

  /** Meaning preservation, from token lists to runs: a script version 1 accepts is accepted by version 2,
      and if it is convertible and its buy block comes first, every run of the converted script takes exactly
      the actions the version 1 run calls for. With the sell block first it does so, up to the first cycle
      that raises, if the blocks update no common entry of the memory. */
  lemma MeaningPreserved(reg: Registry, ts: Stream, ctxs: seq<Context>, st: State)
    requires ParseScript(reg, ts).Ok?
    requires ConvertibleScript(reg, ParseScript(reg, ts).value)
    ensures ParseScriptV2(reg, ts).Ok? && |ParseScriptV2(reg, ts).value.rules| == 2
    ensures var s, v2 := ParseScript(reg, ts).value, ParseScriptV2(reg, ts).value;
            var run, buyFirst := Run(reg, s, ctxs, st), v2.rules[0].action.side == Buy;
            buyFirst || (ApartScript(reg, s) && Unbroken(run)) ==>
              RunV2(reg, v2, ctxs, st) == ConvertedRun(run, ctxs, buyFirst)
  {
    var s := ParseScript(reg, ts).value;
    var at, buyFirst := ConvertedScript(reg, ts);
    if buyFirst {
      RunPreserved(reg, s, at, ctxs, st);
    } else if ApartScript(reg, s) && Unbroken(Run(reg, s, ctxs, st)) {
      RunSellFirst(reg, s, at, ctxs, st);
    }
  }
}
