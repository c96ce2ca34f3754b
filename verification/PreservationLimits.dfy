/** Inputs outside the conditions of `MeaningPreserved` on which the converted script acts differently. */
module PreservationLimits {
  import opened Common
  import opened Syntax
  import opened ScriptGrammar
  import opened Semantics
  import opened Memory
  import opened UpdateLog
  import opened Preservation
  import opened Builtins

  /** An upward crossover of two numbers that do not depend on the memory, which were apart when the memory
      was written and have met or crossed now. */
  predicate CrossingNow(m: Machine, e: Expr, top: bool, st: State) {
    && e.FuncCall? && |e.args| == 2 && e.fn !in m.cache && e.fn !in m.reg.patterns && RoleOf(m.reg, e.fn) == CrossAbove
    && Pure(m.reg, m.cache.Keys, e.args[0], top) && Pure(m.reg, m.cache.Keys, e.args[1], top)
    && (var a, b := Eval(m, e.args[0], st, top), Eval(m, e.args[1], st, top);
        a.Ret? && b.Ret? && a.v.Num? && b.v.Num? && a.v.n >= b.v.n)
    && (var key := Key(e.fn, e.args);
        key in st.cross && st.cross[key].0.Num? && st.cross[key].1.Num? && st.cross[key].0.n < st.cross[key].1.n)
  }

  /** Evaluating it a second time in a cycle compares the values with themselves. */
  lemma CrossingOnce(m: Machine, e: Expr, top: bool, st: State)
    requires CrossingNow(m, e, top, st)
    ensures var first := Eval(m, e, st, top);
            first.Ret? && first.v == Bool(true) && Eval(m, e, first.st, top) == Ret(Bool(false), first.st)
  {
    var a, b, key := Eval(m, e.args[0], st, top).v, Eval(m, e.args[1], st, top).v, Key(e.fn, e.args);
    var first := CrossStep(st, key, true, a, b);
    PureCross(m, e, top, st, st);
    PureCross(m, e, top, st, first.st);
    assert first.st.cross[key := (a, b)] == first.st.cross;
  }

  lemma PureCross(m: Machine, e: Expr, top: bool, st: State, tt: State)
    requires CrossingNow(m, e, top, st)
    ensures Eval(m, e, tt, top) ==
            CrossStep(tt, Key(e.fn, e.args), true, Eval(m, e.args[0], st, top).v, Eval(m, e.args[1], st, top).v)
  {
    PureValue(m, e.args[0], st, tt, top);
    PureValue(m, e.args[1], st, tt, top);
    PureKeeps(m, e.args[0], tt, top);
    PureKeeps(m, e.args[1], tt, top);
    var a, b := Eval(m, e.args[0], st, top).v, Eval(m, e.args[1], st, top).v;
    assert EvalSides(m, e, tt, top) == Ret(Some((a, b)), tt);
    assert EvalCross(m, e, tt, top, true) == CrossStep(tt, Key(e.fn, e.args), true, a, b);
  }

  /** With the sell block first and one crossover pattern in both blocks, the cycle in which the sides cross
      makes version 1 buy, while the converted script sells: all uses of a pattern share one entry. */
  lemma SellFirstDiffers(reg: Registry, p: string, ctx: Context, st: State, at: Pos)
    requires p in reg.patterns && !Counts(RoleOf(reg, p)) && HoldsNothing(ctx)
    requires CrossingNow(Machine(reg, ctx, map[]), reg.patterns[p], false, st)
    ensures var call := FuncCall(p, [], at);
            ConvertibleScript(reg, Script([], call, call)) && !ApartScript(reg, Script([], call, call))
    ensures var call := FuncCall(p, [], at);
            var v1 := Evaluate(reg, Script([], call, call), ctx, st);
            var v2 := EvaluateV2(reg, SellFirst(Script([], call, call), at), ctx, st);
            v1.Ret? && v1.v == (true, false) && v2.Ret? && v2.v.action == Some(Decision(0, Action(Sell, All))) &&
            v2.v.action != Converted(true, false, ctx, false)
  {
    var call, m := FuncCall(p, [], at), Machine(reg, ctx, map[]);
    var first := Eval(m, reg.patterns[p], st, false);
    CrossingOnce(m, reg.patterns[p], false, st);
    assert Eval(m, call, st, true) == first;
    assert Eval(m, call, first.st, true) == Ret(Bool(false), first.st);
    var rules := [SellRule(call), BuyRule(call, at)];
    WalkIsEval(m, call, st);
    WalkBuyRule(m, call, at, first.st);
    WalkTwo(m, rules, st);
    ResolveTwo(rules, WalkRules(m, rules, st).v);
    SharedEntry(reg, p, at);
  }

  lemma SharedEntry(reg: Registry, p: string, at: Pos)
    requires p in reg.patterns && reg.patterns[p].FuncCall? && reg.patterns[p].fn !in reg.patterns
    requires Remembers(RoleOf(reg, reg.patterns[p].fn))
    ensures var call := FuncCall(p, [], at); !ApartScript(reg, Script([], call, call))
  {
    var call, body := FuncCall(p, [], at), reg.patterns[p];
    var slot := CallOf(Key(body.fn, body.args));
    assert slot in Sites(reg, {}, body, false);
    assert FuncNames([]) == {};
    assert Sites(reg, {}, call, true) == Sites(reg, {}, body, false);
  }

  lemma GoldenCross(reg: Registry)
    requires reg.funcs == FUNCTIONS && reg.patterns == PATTERNS
    ensures "골든크로스" in PATTERNS && PATTERNS["골든크로스"] == MovingAverages("상향돌파")
    ensures RoleOf(reg, "골든크로스") == Plain
    ensures IsFunction("MA", FuncSpec(1, 2, Number, Plain))
    ensures IsFunction("상향돌파", FuncSpec(2, 2, Boolean, CrossAbove))
  {
    CrossFunctions();
    MovingAverage();
    assert "골든크로스"[0] != "데드크로스"[0] && "골든크로스"[0] != "상향돌파"[0];
  }

  /** A moving average of a written period is a number of the cycle. */
  lemma AverageValue(m: Machine, period: real, at: Pos, inner: Pos, st: State)
    requires m.reg.funcs == FUNCTIONS && m.reg.patterns == PATTERNS && m.cache == map[] && "MA" in m.ctx.funcs
    requires IsFunction("MA", FuncSpec(1, 2, Number, Plain))
    ensures var e := FuncCall("MA", [NumberLit(period, inner)], at);
            Pure(m.reg, m.cache.Keys, e, false) && Eval(m, e, st, false) == Ret(m.ctx.funcs["MA"]([Num(period)]), st)
  {
    var arg := NumberLit(period, inner);
    var e := FuncCall("MA", [arg], at);
    assert Eval(m, arg, st, false) == Ret(Num(period), st);
    CallOnce(m, "MA", arg, at, st, false);
    assert m.cache.Keys == {};
    PureArgs(m.reg, {}, [arg], false);
    assert Sites(m.reg, {}, e, false) == ArgSites(m.reg, {}, [arg], false) + multiset{};
  }

  /** Such a script of the language: 골든크로스 in both blocks, and moving averages that are numbers. */
  lemma GoldenCrossDiffers(
    numeral: string -> real, whole: string -> Option<int>, figure: string -> Option<real>, ctx: Context, st: State,
    at: Pos)
    requires "MA" in ctx.funcs && HoldsNothing(ctx)
    requires var fast, slow := ctx.funcs["MA"]([Num(5.0)]), ctx.funcs["MA"]([Num(20.0)]);
             fast.Num? && slow.Num? && fast.n >= slow.n
    requires var key := Key("상향돌파", MovingAverages("상향돌파").args);
             key in st.cross && st.cross[key].0.Num? && st.cross[key].1.Num? && st.cross[key].0.n < st.cross[key].1.n
    ensures var reg, call := Tables(numeral, whole, figure), FuncCall("골든크로스", [], at);
            var v1 := Evaluate(reg, Script([], call, call), ctx, st);
            var v2 := EvaluateV2(reg, SellFirst(Script([], call, call), at), ctx, st);
            v1.Ret? && v1.v == (true, false) && v2.Ret? && v2.v.action == Some(Decision(0, Action(Sell, All))) &&
            v2.v.action != Converted(true, false, ctx, false)
  {
    var reg := Tables(numeral, whole, figure);
    var m := Machine(reg, ctx, map[]);
    GoldenCross(reg);
    AverageValue(m, 5.0, At(10), At(13), st);
    AverageValue(m, 20.0, At(17), At(20), st);
    SellFirstDiffers(reg, "골든크로스", ctx, st, at);
  }

  /** A streak call is null to version 1, which knows no such function, and a number to version 2. */
  lemma StreakDiffers(m: Machine, f: string, at: Pos, st: State)
    requires f !in m.cache && f !in m.reg.patterns && RoleOf(m.reg, f) == Consecutive && f !in m.ctx.funcs
    requires NodeRepr(BoolLit(true, at)) !in st.streaks
    ensures var e := Compare(Ge, FuncCall(f, [BoolLit(true, at)], at), NumberLit(1.0, at), at);
            Eval(m, e, st, true) == Ret(Null, st) && Walk(m, e, st).Ret? && Walk(m, e, st).v == Bool(true)
  {
    var call, one := FuncCall(f, [BoolLit(true, at)], at), NumberLit(1.0, at);
    assert Eval(m, call, st, true) == Ret(Null, st);
    assert Eval(m, one, st, true) == Ret(Num(1.0), st);
    assert Eval(m, call.args[0], st, true) == Ret(Bool(true), st);
    var streak := EvalStreak(m, call, st);
    assert Walk(m, call, st) == streak && streak.Ret? && streak.v == Num(1.0);
    assert Walk(m, one, streak.st) == Ret(Num(1.0), streak.st);
  }

  /** Arithmetic over a call with a crossover argument is evaluated twice by version 2, and the second
      evaluation no longer sees the crossing. A function that takes true and false for the periods 1 and 0,
      as the backtest's moving average does, makes a difference exactly if its values for them differ. */
  lemma BooleanArgumentDiffers(m: Machine, g: string, cross: Expr, at: Pos, st: State)
    requires g !in m.cache && g !in m.reg.patterns && RoleOf(m.reg, g) == Plain && g in m.ctx.funcs
    requires CrossingNow(m, cross, true, st)
    requires m.ctx.funcs[g]([Bool(true)]).Num?
    requires m.ctx.funcs[g]([Bool(false)]) == Null || m.ctx.funcs[g]([Bool(false)]).Num?
    ensures var yes, no := m.ctx.funcs[g]([Bool(true)]), m.ctx.funcs[g]([Bool(false)]);
            var e := Binary(Plus, FuncCall(g, [cross], at), NumberLit(0.0, at), at);
            Eval(m, e, st, true).Ret? && Eval(m, e, st, true).v == yes &&
            Walk(m, e, st).Ret? && Walk(m, e, st).v == no
  {
    var yes, no := m.ctx.funcs[g]([Bool(true)]), m.ctx.funcs[g]([Bool(false)]);
    var call, zero := FuncCall(g, [cross], at), NumberLit(0.0, at);
    var st1 := Eval(m, cross, st, true).st;
    CrossingOnce(m, cross, true, st);
    CallOnce(m, g, cross, at, st, true);
    CallOnce(m, g, cross, at, st1, true);
    var e := Binary(Plus, call, zero, at);
    assert Eval(m, zero, st1, true) == Ret(Num(0.0), st1);
    assert Eval(m, e, st, true) == Ret(yes, st1);
    assert Walk(m, call, st) == Ret(yes, st1) && Walk(m, zero, st1) == Ret(Num(0.0), st1);
    assert Eval(m, e, st1, true) == Ret(no, st1);
  }

  lemma CallOnce(m: Machine, g: string, arg: Expr, at: Pos, st: State, top: bool)
    requires g !in m.cache && g !in m.reg.patterns && RoleOf(m.reg, g) == Plain && g in m.ctx.funcs
    requires Eval(m, arg, st, top).Ret? && Eval(m, arg, st, top).v != Null
    ensures var p := Eval(m, arg, st, top);
            Eval(m, FuncCall(g, [arg], at), st, top) == Ret(m.ctx.funcs[g]([p.v]), p.st)
  {
    var p := Eval(m, arg, st, top);
    var args := [arg];
    assert args[1..] == [];
    assert EvalArgs(m, args[1..], p.st, top) == Ret(Some([]), p.st);
    assert EvalArgs(m, args, st, top) == Ret(Some([p.v] + []), p.st) && [p.v] + [] == [p.v];
  }
}
