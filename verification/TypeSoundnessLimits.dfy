/** Why type soundness excludes string constants, text arguments of crossovers and names that shadow a
    built-in: with each of them a condition the parser accepts raises when it is evaluated. */
module TypeSoundnessLimits {
  import opened Common
  import opened Syntax
  import opened Grammar
  import opened ScriptGrammar
  import opened RoundTrip
  import opened ScriptSound
  import opened Semantics

  /** A constant counts as a number for the parser even if its value is a string. */
  lemma TextConstantRaises(
    reg: Registry, c: string, text: string, v: real, act: Action, ctx: Context, st: State, at: Pos)
    requires Spellable(BaseEnv(reg, [ConstDecl(c, StringLit(text, at))]), v)
    ensures var k := ConstDecl(c, StringLit(text, at));
            var e := Compare(Gt, FieldRef(c, at), NumberLit(v, at), at);
            ConditionOk(BaseEnv(reg, [k]), [], e) &&
            EvaluateV2(reg, ScriptV2([], [k], [Rule(e, act)]), ctx, st) == Raise(st)
  {
    var k := ConstDecl(c, StringLit(text, at));
    var e := Compare(Gt, FieldRef(c, at), NumberLit(v, at), at);
    var env := BaseEnv(reg, [k]);
    var none: seq<FuncDef>, rules := [], [Rule(e, act)];
    assert NamesAfter(env, none[..0]) == env;
    assert c in env.consts by {
      assert [k][|[k]| - 1] == k && [k][0] == k;
    }
    assert WF(env, e.left) && WF(env, e.right);
    assert WF(env, e) && TypeOk(env, e, Boolean);
    var m := Machine(reg, InjectConsts(ctx, [k]), map[]);
    assert [k][1..] == [];
    assert InjectConsts(ctx, [k]) == Context(ctx.vals[c := Str(text)], ctx.funcs - {c});
    assert Walk(m, e.left, st) == Ret(Str(text), st) && Walk(m, e.right, st) == Ret(Num(v), st);
    assert Walk(m, rules[0].condition, st) == Raise(st);
    assert WalkRules(m, rules, st) == Raise(st) && EvalDefs(m, none, st) == Ret(m, st);
  }

  /** A crossover of a text and a number is accepted; the second cycle compares the two and raises. */
  lemma TextCrossRaises(m: Machine, x: string, text: string, field: string, st: State, at: Pos)
    requires RoleOf(m.reg, x) == CrossAbove && x !in m.cache && x !in m.reg.patterns && m.ctx.Get(field).Num?
    requires Key(x, [StringLit(text, at), FieldRef(field, at)]) !in st.cross
    ensures var call := FuncCall(x, [StringLit(text, at), FieldRef(field, at)], at);
            var first := Eval(m, call, st, true);
            first.Ret? && first.v == Bool(false) && Eval(m, call, first.st, true) == Raise(first.st)
  {
    var args := [StringLit(text, at), FieldRef(field, at)];
    var call, key := FuncCall(x, args, at), Key(x, args);
    var first := CrossStep(st, key, true, Str(text), m.ctx.Get(field));
    TextCrossStep(m, x, text, field, st, at);
    TextCrossStep(m, x, text, field, first.st, at);
    assert first.st.cross[key := (Str(text), m.ctx.Get(field))] == first.st.cross;
  }

  lemma TextCrossStep(m: Machine, x: string, text: string, field: string, st: State, at: Pos)
    requires RoleOf(m.reg, x) == CrossAbove && x !in m.cache && x !in m.reg.patterns && m.ctx.Get(field).Num?
    ensures var args := [StringLit(text, at), FieldRef(field, at)];
            Eval(m, FuncCall(x, args, at), st, true) ==
            CrossStep(st, Key(x, args), true, Str(text), m.ctx.Get(field))
  {
    var call := FuncCall(x, [StringLit(text, at), FieldRef(field, at)], at);
    assert Eval(m, call.args[0], st, true) == Ret(Str(text), st);
    assert Eval(m, call.args[1], st, true) == Ret(m.ctx.Get(field), st);
    assert EvalSides(m, call, st, true) == Ret(Some((Str(text), m.ctx.Get(field))), st);
    assert Eval(m, call, st, true) == EvalCross(m, call, st, true, true);
  }

  /** A condition using a built-in number function is accepted before a definition of the same name that
      is a text; the evaluator looks up the definition first. */
  lemma ShadowingRaises(reg: Registry, fn: string, text: string, v: real, act: Action, ctx: Context, st: State, at: Pos)
    requires fn in reg.funcs && reg.funcs[fn] == FuncSpec(0, 1, Number, Plain) && fn !in reg.patterns
    requires Spellable(StartEnv(reg, true), v)
    ensures var e := Compare(Gt, FuncCall(fn, [], at), NumberLit(v, at), at);
            var defs := [FuncDef(fn, StringLit(text, at), at)];
            ConditionOk(StartEnv(reg, true), defs, e) &&
            EvaluateV2(reg, ScriptV2(defs, [], [Rule(e, act)]), ctx, st) == Raise(st)
  {
    var e := Compare(Gt, FuncCall(fn, [], at), NumberLit(v, at), at);
    var def := FuncDef(fn, StringLit(text, at), at);
    var env := StartEnv(reg, true);
    assert NamesAfter(env, [def][..0]) == env;
    assert WF(env, e.left) && WF(env, e.right) && TypeOk(env, e.left, Number);
    assert WF(env, e) && TypeOk(env, e, Boolean);
    var m := Machine(reg, ctx, map[]);
    var m' := m.(cache := map[fn := Str(text)]);
    assert Eval(m, def.body, st, true) == Ret(Str(text), st);
    assert EvalDefs(m', [def][1..], st) == Ret(m', st);
    assert m.cache[fn := Str(text)] == m'.cache;
    assert EvalDefs(m, [def], st) == Ret(m', st);
    assert Eval(m', e.left, st, true) == EvalCall(m', e.left, st, true);
    assert Walk(m', e.left, st) == Ret(Str(text), st) && Walk(m', e.right, st) == Ret(Num(v), st);
    assert Walk(m', e, st) == Raise(st);
  }
}
