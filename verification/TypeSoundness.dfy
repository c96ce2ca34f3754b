/** Accepted scripts do not get stuck: over numeric market data every node evaluates to null or to a value
    of the type the parser inferred for it. */
module TypeSoundness {
  import opened Common
  import opened Syntax
  import opened Grammar
  import opened ScriptGrammar
  import opened RoundTrip
  import opened ScriptSound
  import opened Semantics
  import opened Memory
  import opened Preservation

  predicate HasType(v: Value, t: Ty) {
    v == Null ||
    match t
    case Number => v.Num?
    case Boolean => v.Bool?
    case Text => v.Str?
    case Unknown => true
  }

  predicate NumOrNull(v: Value) {
    v == Null || v.Num?
  }

  // ---- assumptions ----

  /** Crossover and divergence arguments and counter periods are numbers. The parser does not check this. */
  predicate NumericCalls(reg: Registry, customs: map<string, Ty>, e: Expr) {
    match e
    case FuncCall(fn, args, _) =>
      && (forall a :: a in args ==> NumericCalls(reg, customs, a))
      && (fn !in customs && Remembers(RoleOf(reg, fn)) ==>
            forall a :: a in args ==> InferType(reg, customs, a) == Number)
      && (RoleOf(reg, fn) == Count && |args| == 2 ==> InferType(reg, customs, args[1]) == Number)
    case Compare(_, l, r, _) => NumericCalls(reg, customs, l) && NumericCalls(reg, customs, r)
    case Binary(_, l, r, _) => NumericCalls(reg, customs, l) && NumericCalls(reg, customs, r)
    case Unary(_, o, _) => NumericCalls(reg, customs, o)
    case _ => true
  }

  /** Pattern definitions are conditions over built-in names. */
  ghost predicate PatternsTyped(reg: Registry) {
    forall p :: p in reg.patterns ==>
      var env := StartEnv(reg, false);
      WF(env, reg.patterns[p]) && InferType(reg, map[], reg.patterns[p]) == Boolean &&
      NumericCalls(reg, map[], reg.patterns[p])
  }

  ghost predicate RegistryOk(reg: Registry) {
    TablesTyped(reg) && PatternsTyped(reg)
  }

  ghost predicate NumericContext(ctx: Context) {
    && (forall n :: n in ctx.vals ==> NumOrNull(ctx.vals[n]))
    && (forall f, vs :: f in ctx.funcs ==> NumOrNull(ctx.funcs[f](vs)))
  }

  ghost predicate NumericState(st: State) {
    forall k :: k in st.cross ==> NumOrNull(st.cross[k].0) && NumOrNull(st.cross[k].1)
  }

  /** Cached results have the inferred types, and no custom name is a built-in function's or pattern's. */
  ghost predicate CacheTyped(env: Env, cache: map<string, Value>) {
    && (forall f :: f in cache ==> f !in env.reg.patterns && f !in env.reg.funcs)
    && (forall f :: f in env.customs ==> f in cache && HasType(cache[f], env.customs[f]) && env.customs[f] != Unknown)
  }

  ghost predicate Ready(env: Env, m: Machine, st: State) {
    RegistryOk(env.reg) && m.reg == env.reg && NumericContext(m.ctx) && CacheTyped(env, m.cache) && NumericState(st)
  }

  /** The evaluation did not raise, its value has type `t`, and the memory is still numeric. */
  ghost predicate Fine(out: Out<Value>, t: Ty) {
    out.Ret? && HasType(out.v, t) && NumericState(out.st)
  }

  // ---- expressions ----

  function TypeOf(env: Env, e: Expr): Ty {
    InferType(env.reg, env.customs, e)
  }

  lemma {:induction false} Typed(env: Env, e: Expr)
    requires WF(env, e) && TablesTyped(env.reg) && forall f :: f in env.customs ==> env.customs[f] != Unknown
    ensures TypeOf(env, e) != Unknown
  {
    if e.IndexAccess? { Typed(env, e.base); }
  }

  /** Well-formed operands have exactly the type the parser asked for. */
  lemma OperandTyped(env: Env, m: Machine, st: State, e: Expr, t: Ty)
    requires Ready(env, m, st) && WF(env, e) && TypeOk(env, e, t)
    ensures TypeOf(env, e) == t
  {
    Typed(env, e);
  }

  lemma {:induction false} EvalTyped(env: Env, m: Machine, e: Expr, st: State, top: bool)
    requires Ready(env, m, st) && WF(env, e) && NumericCalls(env.reg, env.customs, e)
    ensures Fine(Eval(m, e, st, top), TypeOf(env, e))
    decreases top, e, 1
  {
    match e
    case FuncCall(_, _, _) => CallTyped(env, m, e, st, top);
    case Compare(op, l, r, _) =>
      OperandTyped(env, m, st, l, Number); OperandTyped(env, m, st, r, Number);
      EvalTyped(env, m, l, st, top);
      EvalTyped(env, m, r, Eval(m, l, st, top).st, top);
    case Binary(op, l, r, _) =>
      OperandTyped(env, m, st, l, OperandTypeOf(op)); OperandTyped(env, m, st, r, OperandTypeOf(op));
      EvalTyped(env, m, l, st, top);
      EvalTyped(env, m, r, Eval(m, l, st, top).st, top);
    case Unary(op, o, _) =>
      OperandTyped(env, m, st, o, if op == Not then Boolean else Number);
      EvalTyped(env, m, o, st, top);
    case _ =>
  }

  lemma {:induction false} CallTyped(env: Env, m: Machine, e: Expr, st: State, top: bool)
    requires e.FuncCall?
    requires Ready(env, m, st) && WF(env, e) && NumericCalls(env.reg, env.customs, e)
    ensures Fine(EvalCall(m, e, st, top), TypeOf(env, e))
    decreases top, e, 0
  {
    if e.fn !in m.cache {
      if e.fn in m.reg.patterns {
        if top { EvalTyped(StartEnv(env.reg, false), m, m.reg.patterns[e.fn], st, false); }
      } else {
        match RoleOf(m.reg, e.fn)
        case CrossAbove => CrossTyped(env, m, e, st, top, true);
        case CrossBelow => CrossTyped(env, m, e, st, top, false);
        case BullishDivergence => DivergenceTyped(env, m, e, st, top, true);
        case BearishDivergence => DivergenceTyped(env, m, e, st, top, false);
        case _ => ArgsTyped(env, m, e.args, st, top);
      }
    }
  }

  lemma {:induction false} ArgsTyped(env: Env, m: Machine, args: seq<Expr>, st: State, top: bool)
    requires Ready(env, m, st)
    requires forall a :: a in args ==> WF(env, a) && NumericCalls(env.reg, env.customs, a)
    ensures EvalArgs(m, args, st, top).Ret? && NumericState(EvalArgs(m, args, st, top).st)
    decreases top, args, 0
  {
    if args != [] {
      EvalTyped(env, m, args[0], st, top);
      ArgsTyped(env, m, args[1..], Eval(m, args[0], st, top).st, top);
    }
  }

  lemma {:induction false} CrossTyped(env: Env, m: Machine, e: Expr, st: State, top: bool, above: bool)
    requires e.FuncCall? && forall a :: a in e.args ==> TypeOf(env, a) == Number
    requires Ready(env, m, st) && WF(env, e) && NumericCalls(env.reg, env.customs, e)
    ensures Fine(EvalCross(m, e, st, top, above), Boolean)
    decreases top, e, 0, 0
  {
    if |e.args| == 2 {
      EvalTyped(env, m, e.args[0], st, top);
      var a := Eval(m, e.args[0], st, top);
      EvalTyped(env, m, e.args[1], a.st, top);
      var b := Eval(m, e.args[1], a.st, top);
      if a.v != Null && b.v != Null { CrossStepTyped(b.st, Key(e.fn, e.args), above, a.v, b.v); }
    }
  }

  lemma CrossStepTyped(st: State, key: Key, above: bool, a: Value, b: Value)
    requires NumericState(st) && a.Num? && b.Num?
    ensures Fine(CrossStep(st, key, above, a, b), Boolean)
  {
  }

  lemma {:induction false} DivergenceTyped(env: Env, m: Machine, e: Expr, st: State, top: bool, bullish: bool)
    requires e.FuncCall? && forall a :: a in e.args ==> TypeOf(env, a) == Number
    requires Ready(env, m, st) && WF(env, e) && NumericCalls(env.reg, env.customs, e)
    ensures Fine(EvalDivergence(m, e, st, top, bullish), Boolean)
    decreases top, e, 0, 0
  {
    if |e.args| >= 1 {
      var ind := Eval(m, e.args[0], st, top);
      EvalTyped(env, m, e.args[0], st, top);
      if |e.args| >= 2 { EvalTyped(env, m, e.args[1], ind.st, top); }
      assert Fine(EvalLookback(m, e, ind.st, top), Number);
    }
  }

  // ---- rule conditions ----

  lemma {:induction false} WalkTyped(env: Env, m: Machine, e: Expr, st: State)
    requires Ready(env, m, st) && WF(env, e) && NumericCalls(env.reg, env.customs, e)
    ensures Fine(Walk(m, e, st), TypeOf(env, e))
    decreases e
  {
    match e
    case FuncCall(fn, args, _) =>
      if RoleOf(m.reg, fn) == Count { CountTyped(env, m, e, st); }
      else if RoleOf(m.reg, fn) == Consecutive { StreakTyped(env, m, e, st); }
      else { EvalTyped(env, m, e, st, true); }
    case Compare(op, l, r, _) =>
      OperandTyped(env, m, st, l, Number); OperandTyped(env, m, st, r, Number);
      WalkTyped(env, m, l, st);
      WalkTyped(env, m, r, Walk(m, l, st).st);
    case Binary(op, l, r, _) =>
      OperandTyped(env, m, st, l, OperandTypeOf(op)); OperandTyped(env, m, st, r, OperandTypeOf(op));
      WalkTyped(env, m, l, st);
      WalkTyped(env, m, r, Walk(m, l, st).st);
      EvalTyped(env, m, e, Walk(m, r, Walk(m, l, st).st).st, true);
    case Unary(op, o, _) =>
      OperandTyped(env, m, st, o, if op == Not then Boolean else Number);
      WalkTyped(env, m, o, st);
    case _ =>
  }

  lemma CountTyped(env: Env, m: Machine, e: Expr, st: State)
    requires e.FuncCall? && RoleOf(m.reg, e.fn) == Count
    requires Ready(env, m, st) && WF(env, e) && NumericCalls(env.reg, env.customs, e)
    ensures Fine(EvalCount(m, e, st), TypeOf(env, e))
  {
    if |e.args| == 2 {
      EvalTyped(env, m, e.args[1], st, true);
      EvalTyped(env, m, e.args[0], Eval(m, e.args[1], st, true).st, true);
    }
  }

  lemma StreakTyped(env: Env, m: Machine, e: Expr, st: State)
    requires e.FuncCall? && RoleOf(m.reg, e.fn) == Consecutive
    requires Ready(env, m, st) && WF(env, e) && NumericCalls(env.reg, env.customs, e)
    ensures Fine(EvalStreak(m, e, st), TypeOf(env, e))
  {
    if |e.args| == 1 { EvalTyped(env, m, e.args[0], st, true); }
  }

  // ---- scripts ----

  /** No custom function takes the name of a built-in function or pattern. */
  predicate NoShadowing(reg: Registry, funcs: seq<FuncDef>) {
    forall f :: f in funcs ==> f.name !in reg.patterns && f.name !in reg.funcs
  }

  /** `e` calls crossovers, divergences and counters with numbers, given all the custom functions. */
  predicate NumericUses(env: Env, funcs: seq<FuncDef>, e: Expr) {
    NumericCalls(env.reg, NamesAfter(env, funcs).customs, e)
  }

  predicate NoCustoms(env: Env) {
    env.customs == map[]
  }

  /** Later definitions change neither the names nor the types of earlier ones. */
  lemma {:induction false} PrefixTypes(env: Env, funcs: seq<FuncDef>, j: nat, f: string)
    requires j <= |funcs| && FuncsOk(env, funcs)
    requires f in NamesAfter(env, funcs[..j]).customs
    ensures f in NamesAfter(env, funcs).customs &&
            NamesAfter(env, funcs).customs[f] == NamesAfter(env, funcs[..j]).customs[f]
    decreases |funcs|
  {
    if j < |funcs| {
      var n := |funcs| - 1;
      var init := funcs[..n];
      assert forall i :: 0 <= i <= n ==> init[..i] == funcs[..i];
      PrefixTypes(env, init, j, f);
    } else {
      assert funcs[..j] == funcs;
    }
  }

  lemma {:induction false} SameType(reg: Registry, few: map<string, Ty>, all: map<string, Ty>, env: Env, e: Expr)
    requires env.reg == reg && env.customs == few && WF(env, e)
    requires forall f :: f in few ==> f in all && all[f] == few[f]
    requires forall f :: f in all ==> f !in reg.patterns && f !in reg.funcs
    ensures InferType(reg, few, e) == InferType(reg, all, e)
  {
    if e.IndexAccess? { SameType(reg, few, all, env, e.base); }
  }

  lemma {:induction false} NumericPrefix(reg: Registry, few: map<string, Ty>, all: map<string, Ty>, env: Env, e: Expr)
    requires env.reg == reg && env.customs == few && WF(env, e)
    requires forall f :: f in few ==> f in all && all[f] == few[f]
    requires forall f :: f in all ==> f !in reg.patterns && f !in reg.funcs
    requires NumericCalls(reg, all, e)
    ensures NumericCalls(reg, few, e)
    decreases e
  {
    match e
    case FuncCall(fn, args, _) =>
      forall a | a in args
        ensures NumericCalls(reg, few, a) && InferType(reg, few, a) == InferType(reg, all, a)
      {
        NumericPrefix(reg, few, all, env, a);
        SameType(reg, few, all, env, a);
      }
    case Compare(_, l, r, _) => NumericPrefix(reg, few, all, env, l); NumericPrefix(reg, few, all, env, r);
    case Binary(_, l, r, _) => NumericPrefix(reg, few, all, env, l); NumericPrefix(reg, few, all, env, r);
    case Unary(_, o, _) => NumericPrefix(reg, few, all, env, o);
    case _ =>
  }

  /** The assumptions about a script's definitions. */
  ghost predicate Definitions(env: Env, funcs: seq<FuncDef>) {
    && NoCustoms(env) && RegistryOk(env.reg) && FuncsOk(env, funcs) && NoShadowing(env.reg, funcs)
    && forall f :: f in funcs ==> NumericUses(env, funcs, f.body)
  }

  lemma CustomsNamed(env: Env, funcs: seq<FuncDef>)
    requires Definitions(env, funcs)
    ensures forall f :: f in NamesAfter(env, funcs).customs ==> f !in env.reg.patterns && f !in env.reg.funcs
    ensures NamesAfter(env, funcs).reg == env.reg
  {
    VisibleFuncs(env, funcs);
  }

  /** What an expression well-formed under a prefix of the definitions needs for `EvalTyped`. */
  lemma PrefixNumeric(env: Env, funcs: seq<FuncDef>, j: nat, e: Expr)
    requires j <= |funcs| && Definitions(env, funcs) && NumericUses(env, funcs, e)
    requires WF(NamesAfter(env, funcs[..j]), e)
    ensures NumericCalls(env.reg, NamesAfter(env, funcs[..j]).customs, e)
  {
    var few := NamesAfter(env, funcs[..j]);
    VisibleFuncs(env, funcs[..j]);
    CustomsNamed(env, funcs);
    forall f | f in few.customs
      ensures f in NamesAfter(env, funcs).customs && NamesAfter(env, funcs).customs[f] == few.customs[f]
    {
      PrefixTypes(env, funcs, j, f);
    }
    NumericPrefix(env.reg, few.customs, NamesAfter(env, funcs).customs, few, e);
  }

  lemma {:induction false} AnyCurrent(env: Env, name: string, e: Expr)
    requires WF(env.(current := Some(name)), e)
    ensures WF(env.(current := None), e)
    decreases e
  {
    var bound := env.(current := Some(name));
    match e
    case FuncCall(_, args, _) => forall a | a in args ensures WF(env.(current := None), a) { AnyCurrent(env, name, a); }
    case Binary(_, l, r, _) => AnyCurrent(env, name, l); AnyCurrent(env, name, r);
    case Compare(_, l, r, _) => AnyCurrent(env, name, l); AnyCurrent(env, name, r);
    case Unary(_, o, _) => AnyCurrent(env, name, o);
    case IndexAccess(b, _, _) => AnyCurrent(env, name, b);
    case NumberLit(v, _) => var t :| bound.reg.numeral(t) == v; assert env.(current := None).reg.numeral(t) == v;
    case _ =>
  }

  /** A custom function evaluates, and caching its result makes the next definitions ready. */
  lemma DefTyped(env: Env, funcs: seq<FuncDef>, i: nat, m: Machine, st: State)
    requires env.current == None && i < |funcs| && Definitions(env, funcs)
    requires Ready(NamesAfter(env, funcs[..i]), m, st)
    ensures var v := Eval(m, funcs[i].body, st, true);
            v.Ret? && Ready(NamesAfter(env, funcs[..i + 1]), m.(cache := m.cache[funcs[i].name := v.v]), v.st)
  {
    var before := NamesAfter(env, funcs[..i]);
    var f := funcs[i];
    BodyReady(env, funcs, i);
    EvalTyped(before, m, f.body, st, true);
    Typed(before, f.body);
    var v := Eval(m, f.body, st, true).v;
    assert NamesAfter(env, funcs[..i + 1]) == Declare(before, f) by { assert funcs[..i + 1][..i] == funcs[..i]; }
    CacheGrows(before, m.cache, f, v);
  }

  /** A body stands before its own name is visible, so it is well-formed under the names before it. */
  lemma BodyReady(env: Env, funcs: seq<FuncDef>, i: nat)
    requires env.current == None && i < |funcs| && Definitions(env, funcs)
    ensures var before := NamesAfter(env, funcs[..i]);
            WF(before, funcs[i].body) && NumericCalls(before.reg, before.customs, funcs[i].body) &&
            funcs[i].name !in before.reg.patterns && funcs[i].name !in before.reg.funcs
  {
    var before := NamesAfter(env, funcs[..i]);
    VisibleFuncs(env, funcs[..i]);
    assert before.(current := None) == before;
    AnyCurrent(before, funcs[i].name, funcs[i].body);
    PrefixNumeric(env, funcs, i, funcs[i].body);
  }

  lemma CacheGrows(env: Env, cache: map<string, Value>, f: FuncDef, v: Value)
    requires CacheTyped(env, cache) && f.name !in env.reg.patterns && f.name !in env.reg.funcs
    requires HasType(v, TypeOf(env, f.body)) && TypeOf(env, f.body) != Unknown
    ensures CacheTyped(Declare(env, f), cache[f.name := v])
  {
  }

  /** All custom functions evaluate, and their results have the declared types. */
  lemma {:induction false} DefsTyped(env: Env, funcs: seq<FuncDef>, i: nat, m: Machine, st: State)
    requires env.current == None && i <= |funcs| && Definitions(env, funcs)
    requires Ready(NamesAfter(env, funcs[..i]), m, st)
    ensures var r := EvalDefs(m, funcs[i..], st);
            r.Ret? && r.v.ctx == m.ctx && Ready(NamesAfter(env, funcs), r.v, r.st)
    decreases |funcs| - i
  {
    if i == |funcs| {
      assert funcs[..i] == funcs && funcs[i..] == [];
    } else {
      DefTyped(env, funcs, i, m, st);
      var v := Eval(m, funcs[i].body, st, true);
      DefsTyped(env, funcs, i + 1, m.(cache := m.cache[funcs[i].name := v.v]), v.st);
      assert funcs[i..][1..] == funcs[i + 1..] && funcs[i..][0] == funcs[i];
    }
  }

  /** With the definitions evaluated, a condition is ready to be evaluated under its own names. */
  lemma ConditionReady(env: Env, funcs: seq<FuncDef>, e: Expr, m: Machine, st: State) returns (names: Env)
    requires Definitions(env, funcs) && Ready(NamesAfter(env, funcs), m, st)
    requires ConditionOk(env, funcs, e) && NumericUses(env, funcs, e)
    ensures Ready(names, m, st) && WF(names, e) && NumericCalls(names.reg, names.customs, e)
    ensures TypeOf(names, e) == Boolean
  {
    var j :| 0 <= j <= |funcs| && WF(NamesAfter(env, funcs[..j]), e) && TypeOk(NamesAfter(env, funcs[..j]), e, Boolean);
    names := NamesAfter(env, funcs[..j]);
    VisibleFuncs(env, funcs[..j]);
    VisibleFuncs(env, funcs);
    PrefixNumeric(env, funcs, j, e);
    forall f | f in names.customs
      ensures f in m.cache && HasType(m.cache[f], names.customs[f]) && names.customs[f] != Unknown
    {
      PrefixTypes(env, funcs, j, f);
    }
    OperandTyped(names, m, st, e, Boolean);
  }

  lemma DefsReady(env: Env, funcs: seq<FuncDef>, ctx: Context, st: State)
    requires env.current == None && Definitions(env, funcs) && NumericContext(ctx) && NumericState(st)
    ensures var r := EvalDefs(Machine(env.reg, ctx, map[]), funcs, st);
            r.Ret? && r.v.ctx == ctx && Ready(NamesAfter(env, funcs), r.v, r.st)
  {
    var m := Machine(env.reg, ctx, map[]);
    assert funcs[..0] == [] && funcs[0..] == funcs;
    assert Ready(NamesAfter(env, funcs[..0]), m, st);
    DefsTyped(env, funcs, 0, m, st);
  }

  ghost predicate NumericScript(reg: Registry, s: Script) {
    var env := StartEnv(reg, false);
    && RegistryOk(reg) && NoShadowing(reg, s.funcs)
    && (forall f :: f in s.funcs ==> NumericUses(env, s.funcs, f.body))
    && NumericUses(env, s.funcs, s.buy) && NumericUses(env, s.funcs, s.sell)
  }

  /** An accepted version 1 script is evaluated to two decisions, without raising, on any numeric data. */
  lemma AcceptedScriptRuns(reg: Registry, ts: Stream, ctx: Context, st: State)
    requires ParseScript(reg, ts).Ok? && NumericScript(reg, ParseScript(reg, ts).value)
    requires NumericContext(ctx) && NumericState(st)
    ensures var r := Evaluate(reg, ParseScript(reg, ts).value, ctx, st); r.Ret? && NumericState(r.st)
  {
    var s, env := ParseScript(reg, ts).value, StartEnv(reg, false);
    AcceptedScript(reg, ts);
    DefsReady(env, s.funcs, ctx, st);
    var defs := EvalDefs(Machine(reg, ctx, map[]), s.funcs, st);
    var names := ConditionReady(env, s.funcs, s.buy, defs.v, defs.st);
    EvalTyped(names, defs.v, s.buy, defs.st, true);
    var buy := Eval(defs.v, s.buy, defs.st, true);
    names := ConditionReady(env, s.funcs, s.sell, defs.v, buy.st);
    EvalTyped(names, defs.v, s.sell, buy.st, true);
  }

  /** No cycle of any run of an accepted version 1 script raises. */
  lemma {:induction false} AcceptedScriptNeverStuck(reg: Registry, ts: Stream, ctxs: seq<Context>, st: State)
    requires ParseScript(reg, ts).Ok? && NumericScript(reg, ParseScript(reg, ts).value)
    requires (forall c :: c in ctxs ==> NumericContext(c)) && NumericState(st)
    ensures forall r :: r in Run(reg, ParseScript(reg, ts).value, ctxs, st) ==> r.Some?
    ensures NumericState(MemoryAfter(reg, ParseScript(reg, ts).value, ctxs, st))
  {
    if ctxs != [] {
      var init, ctx := ctxs[..|ctxs| - 1], ctxs[|ctxs| - 1];
      assert ctx in ctxs;
      AcceptedScriptNeverStuck(reg, ts, init, st);
      AcceptedScriptRuns(reg, ts, ctx, MemoryAfter(reg, ParseScript(reg, ts).value, init, st));
    }
  }

  /** On numeric data the conversion of an accepted, convertible script keeps its meaning in every run, if its
      buy block comes first or its blocks update no common entry of the memory. */
  lemma NumericMeaningPreserved(reg: Registry, ts: Stream, ctxs: seq<Context>, st: State)
    requires ParseScript(reg, ts).Ok? && NumericScript(reg, ParseScript(reg, ts).value)
    requires ConvertibleScript(reg, ParseScript(reg, ts).value)
    requires (forall c :: c in ctxs ==> NumericContext(c)) && NumericState(st)
    ensures ParseScriptV2(reg, ts).Ok? && |ParseScriptV2(reg, ts).value.rules| == 2
    ensures var s, v2 := ParseScript(reg, ts).value, ParseScriptV2(reg, ts).value;
            var run, buyFirst := Run(reg, s, ctxs, st), v2.rules[0].action.side == Buy;
            (forall r :: r in run ==> r.Some?) &&
            (buyFirst || ApartScript(reg, s) ==> RunV2(reg, v2, ctxs, st) == ConvertedRun(run, ctxs, buyFirst))
  {
    AcceptedScriptNeverStuck(reg, ts, ctxs, st);
    var run := Run(reg, ParseScript(reg, ts).value, ctxs, st);
    assert forall i :: 0 <= i < |run| ==> run[i] in run;
    MeaningPreserved(reg, ts, ctxs, st);
  }

  ghost predicate NumericScriptV2(reg: Registry, s: ScriptV2) {
    var env := BaseEnv(reg, s.consts);
    && RegistryOk(reg) && NoShadowing(reg, s.funcs)
    && (forall f :: f in s.funcs ==> NumericUses(env, s.funcs, f.body))
    && (forall r :: r in s.rules ==> NumericUses(env, s.funcs, r.condition))
    && (forall c :: c in s.consts ==> c.value.NumberLit?)
  }

  lemma {:induction false} InjectNumeric(ctx: Context, consts: seq<ConstDecl>)
    requires NumericContext(ctx) && forall c :: c in consts ==> c.value.NumberLit?
    ensures NumericContext(InjectConsts(ctx, consts))
    decreases |consts|
  {
    if consts != [] {
      var c := consts[0];
      InjectNumeric(Context(ctx.vals[c.name := Num(c.value.value)], ctx.funcs - {c.name}), consts[1..]);
    }
  }

  lemma RuleTyped(env: Env, funcs: seq<FuncDef>, r: Rule, m: Machine, st: State)
    requires Definitions(env, funcs) && Ready(NamesAfter(env, funcs), m, st)
    requires RuleOk(env, funcs, r) && NumericUses(env, funcs, r.condition)
    ensures Fine(Walk(m, r.condition, st), Boolean)
  {
    if ConditionOk(env, funcs, r.condition) {
      var names := ConditionReady(env, funcs, r.condition, m, st);
      WalkTyped(names, m, r.condition, st);
    } else {
      var e, at :| r == BuyRule(e, at) && ConditionOk(env, funcs, e);
      var names := ConditionReady(env, funcs, e, m, st);
      WalkTyped(names, m, e, st);
      WalkHeld(m, at, Walk(m, e, st).st);
    }
  }

  lemma {:induction false} RulesTyped(env: Env, funcs: seq<FuncDef>, rules: seq<Rule>, m: Machine, st: State)
    requires Definitions(env, funcs) && Ready(NamesAfter(env, funcs), m, st)
    requires forall r :: r in rules ==> RuleOk(env, funcs, r) && NumericUses(env, funcs, r.condition)
    ensures WalkRules(m, rules, st).Ret? && NumericState(WalkRules(m, rules, st).st)
    decreases |rules|
  {
    if rules != [] {
      RuleTyped(env, funcs, rules[0], m, st);
      RulesTyped(env, funcs, rules[1..], m, Walk(m, rules[0].condition, st).st);
    }
  }

  /** An accepted version 2 script without string constants is evaluated to a verdict, without raising. */
  lemma AcceptedScriptV2Runs(reg: Registry, ts: Stream, ctx: Context, st: State)
    requires ParseScriptV2(reg, ts).Ok? && NumericScriptV2(reg, ParseScriptV2(reg, ts).value)
    requires NumericContext(ctx) && NumericState(st)
    ensures var r := EvaluateV2(reg, ParseScriptV2(reg, ts).value, ctx, st); r.Ret? && NumericState(r.st)
  {
    var s := ParseScriptV2(reg, ts).value;
    var env := BaseEnv(reg, s.consts);
    AcceptedScriptV2(reg, ts);
    InjectNumeric(ctx, s.consts);
    DefsReady(env, s.funcs, InjectConsts(ctx, s.consts), st);
    var defs := EvalDefs(Machine(reg, InjectConsts(ctx, s.consts), map[]), s.funcs, st);
    RulesTyped(env, s.funcs, s.rules, defs.v, defs.st);
  }
}
