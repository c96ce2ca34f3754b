/** What single calls do, given what their arguments stand for: the functions of the context, and one update of
    a crossover, a divergence, a counter or a streak. */
module CallLaws {
  import opened Common
  import opened Syntax
  import opened Semantics
  import opened StateFunctions

  /** The expression has this value and leaves the memory alone. */
  predicate Stands(m: Machine, e: Expr, st: State, top: bool, v: Value) {
    Eval(m, e, st, top) == Ret(v, st)
  }

  /** Arguments are passed in order, unless one is null. */
  lemma {:induction false} ArgumentsInOrder(m: Machine, args: seq<Expr>, vals: seq<Value>, st: State, top: bool)
    requires |vals| == |args| && forall i :: 0 <= i < |args| ==> Stands(m, args[i], st, top, vals[i])
    ensures EvalArgs(m, args, st, top) == Ret(if Null in vals then None else Some(vals), st)
    decreases |args|
  {
    if args != [] {
      assert Stands(m, args[0], st, top, vals[0]);
      forall i | 0 <= i < |args[1..]|
        ensures Stands(m, args[1..][i], st, top, vals[1..][i])
      {
        assert Stands(m, args[i + 1], st, top, vals[i + 1]);
      }
      ArgumentsInOrder(m, args[1..], vals[1..], st, top);
      assert vals == [vals[0]] + vals[1..];
    }
  }

  /** The call names no custom function and no pattern. */
  predicate BuiltIn(m: Machine, e: Expr, role: Role) {
    e.FuncCall? && e.fn !in m.cache && e.fn !in m.reg.patterns && RoleOf(m.reg, e.fn) == role
  }

  /** An indicator is what the context's function makes of the arguments; null without one. */
  lemma IndicatorCall(m: Machine, e: Expr, vals: seq<Value>, st: State, top: bool)
    requires BuiltIn(m, e, Plain)
    requires |vals| == |e.args| && forall i :: 0 <= i < |e.args| ==> Stands(m, e.args[i], st, top, vals[i])
    ensures Stands(m, e, st, top,
                   if e.fn !in m.ctx.funcs || Null in vals then Null else m.ctx.funcs[e.fn](vals))
  {
    ArgumentsInOrder(m, e.args, vals, st, top);
  }

  /** A custom function is its result in this cycle, even where a pattern has its name; a pattern is its
      definition. */
  lemma NamedCall(m: Machine, e: Expr, st: State)
    requires e.FuncCall?
    ensures e.fn in m.cache ==> Stands(m, e, st, true, m.cache[e.fn])
    ensures e.fn !in m.cache && e.fn in m.reg.patterns ==>
              Eval(m, e, st, true) == Eval(m, m.reg.patterns[e.fn], st, false)
  {
  }

  /** A crossover remembers this evaluation's two numbers, and is true exactly if the first was strictly below
      (above) the second the last time and is not any more. */
  lemma CrossCall(m: Machine, e: Expr, st: State, top: bool, above: bool, a: real, b: real, a0: real, b0: real)
    requires BuiltIn(m, e, if above then CrossAbove else CrossBelow) && |e.args| == 2
    requires Stands(m, e.args[0], st, top, Num(a)) && Stands(m, e.args[1], st, top, Num(b))
    requires Key(e.fn, e.args) in st.cross ==> st.cross[Key(e.fn, e.args)] == (Num(a0), Num(b0))
    ensures var k := Key(e.fn, e.args);
            var crosses := k in st.cross && if above then a0 < b0 && a >= b else a0 > b0 && a <= b;
            Eval(m, e, st, top) == Ret(Bool(crosses), st.(cross := st.cross[k := (Num(a), Num(b))]))
  {
    assert EvalSides(m, e, st, top) == Ret(Some((Num(a), Num(b))), st);
    assert EvalCross(m, e, st, top, above) == CrossStep(st, Key(e.fn, e.args), above, Num(a), Num(b));
    assert Eval(m, e, st, top) == EvalCall(m, e, st, top) == EvalCross(m, e, st, top, above);
  }

  /** What a lookback that is not positive keeps: everything for zero, and for a negative one everything but
      that many of the first points. */
  lemma OtherLookbacks(st: State, key: Key, bullish: bool, n: int, price: real, x: real)
    requires n >= 0
    ensures var hist := (if key in st.history then st.history[key] else []) + [(price, x)];
            var kept := if n <= |hist| then hist[n..] else [];
            var out := DivergenceStep(st, key, bullish, -n, price, x);
            out.Ret? && out.st == st.(history := st.history[key := kept]) && out.v == Bool(Divergent(kept, bullish))
  {
    var hist := (if key in st.history then st.history[key] else []) + [(price, x)];
    var kept := if n <= |hist| then hist[n..] else [];
    assert hist[0..] == hist;
    if kept != [] {
      DivergesExactly(kept, bullish);
    }
  }

  /** The lookback of a divergence call: written out, or twenty. */
  predicate LooksBackTo(m: Machine, e: Expr, st: State, top: bool, p: nat)
    requires e.FuncCall?
  {
    (|e.args| == 1 && p == 20) || (|e.args| == 2 && Stands(m, e.args[1], st, top, Num(p as real)))
  }

  /** The stored points and one more, the latest p of them. */
  function KeptPoints(st: State, k: Key, price: real, x: real, p: nat): seq<(real, real)> {
    Latest((if k in st.history then st.history[k] else []) + [(price, x)], p)
  }

  /** A divergence call adds the cycle's price and its first argument to its history, keeps the latest of them,
      and judges these. */
  lemma DivergenceCall(m: Machine, e: Expr, st: State, top: bool, bullish: bool, p: nat, price: real, x: real)
    requires BuiltIn(m, e, if bullish then BullishDivergence else BearishDivergence) && |e.args| in {1, 2} && p > 0
    requires Stands(m, e.args[0], st, top, Num(x)) && LooksBackTo(m, e, st, top, p)
    requires m.ctx.Get("현재가") == Num(price)
    ensures var k := Key(e.fn, e.args);
            var kept := KeptPoints(st, k, price, x, p);
            Eval(m, e, st, top) == Ret(Bool(Divergent(kept, bullish)), st.(history := st.history[k := kept]))
  {
    DivergenceReads(m, e, st, top, bullish, p, price, x);
    DivergenceOutcome(st, Key(e.fn, e.args), bullish, p, price, x);
  }

  lemma DivergenceReads(m: Machine, e: Expr, st: State, top: bool, bullish: bool, p: nat, price: real, x: real)
    requires BuiltIn(m, e, if bullish then BullishDivergence else BearishDivergence) && |e.args| in {1, 2}
    requires Stands(m, e.args[0], st, top, Num(x)) && LooksBackTo(m, e, st, top, p)
    requires m.ctx.Get("현재가") == Num(price)
    ensures Eval(m, e, st, top) == DivergenceStep(st, Key(e.fn, e.args), bullish, p, price, x)
  {
    var lookback := if |e.args| == 1 then 20.0 else p as real;
    assert EvalLookback(m, e, st, top) == Ret(Num(lookback), st) && Truncate(lookback) == p;
    assert EvalReading(m, e, st, top) == Ret(Some(Reading(p, price, x)), st);
    assert Eval(m, e, st, top) == EvalCall(m, e, st, top) == EvalDivergence(m, e, st, top, bullish);
  }

  lemma DivergenceOutcome(st: State, k: Key, bullish: bool, p: nat, price: real, x: real)
    requires p > 0
    ensures var kept := KeptPoints(st, k, price, x, p);
            DivergenceStep(st, k, bullish, p, price, x) ==
            Ret(Bool(Divergent(kept, bullish)), st.(history := st.history[k := kept]))
  {
    var hist := (if k in st.history then st.history[k] else []) + [(price, x)];
    assert Latest(hist, p) == if |hist| > p then LastSlice(hist, p) else hist;
    DivergesExactly(Latest(hist, p), bullish);
  }

  /** How many are true. */
  function Trues(s: seq<bool>): nat {
    |set i | 0 <= i < |s| && s[i]|
  }

  lemma LatestCount(hist: seq<bool>, p: nat)
    requires p > 0
    ensures var kept := if |hist| > p then LastSlice(hist, p) else hist;
            kept == Latest(hist, p) && LastSlice(kept, p) == kept &&
            CountTrue(kept) == Trues(kept)
  {
    CountTrueIsCardinality(Latest(hist, p));
  }

  /** The stored outcomes and one more, the latest p of them. */
  function Kept(st: State, k: Printed, holds: bool, p: nat): seq<bool> {
    Latest((if k in st.counts then st.counts[k] else []) + [holds], p)
  }

  lemma CountOutcome(st: State, k: Printed, holds: bool, p: nat)
    requires p > 0
    ensures var kept := Kept(st, k, holds, p);
            CountStep(st, k, holds, p) ==
            Ret(Num(Trues(kept) as real), st.(counts := st.counts[k := kept]))
  {
    LatestCount((if k in st.counts then st.counts[k] else []) + [holds], p);
  }

  /** A counter adds whether its first argument is true and reports how many of the latest are; its second
      argument is the period. */
  lemma CountCall(m: Machine, e: Expr, st: State, v: Value, p: nat)
    requires e.FuncCall? && RoleOf(m.reg, e.fn) == Count && |e.args| == 2 && p > 0
    requires Stands(m, e.args[0], st, true, v) && Stands(m, e.args[1], st, true, Num(p as real))
    ensures var k := NodeRepr(e.args[0]);
            var kept := Kept(st, k, Truthy(v), p);
            Walk(m, e, st) ==
            Ret(Num(Trues(kept) as real), st.(counts := st.counts[k := kept]))
  {
    WalkCounts(m, e, st, v, p);
    CountOutcome(st, NodeRepr(e.args[0]), Truthy(v), p);
  }

  lemma WalkCounts(m: Machine, e: Expr, st: State, v: Value, p: nat)
    requires e.FuncCall? && RoleOf(m.reg, e.fn) == Count && |e.args| == 2
    requires Stands(m, e.args[0], st, true, v) && Stands(m, e.args[1], st, true, Num(p as real))
    ensures Walk(m, e, st) == CountStep(st, NodeRepr(e.args[0]), Truthy(v), p)
  {
    assert Truncate(p as real) == p;
    assert EvalOutcome(m, e, st) == Ret(Some(Outcome(Truthy(v), p)), st);
    assert Walk(m, e, st) == EvalCount(m, e, st);
  }

  /** A streak counts on while its argument is true and starts again at zero when it is not. */
  lemma StreakCall(m: Machine, e: Expr, st: State, v: Value)
    requires e.FuncCall? && RoleOf(m.reg, e.fn) == Consecutive && |e.args| == 1
    requires Stands(m, e.args[0], st, true, v)
    ensures var k := NodeRepr(e.args[0]);
            var n := if !Truthy(v) then 0 else if k in st.streaks then st.streaks[k] + 1 else 1;
            Walk(m, e, st) == Ret(Num(n as real), st.(streaks := st.streaks[k := n]))
  {
  }

  /** The custom functions are evaluated in order, each once, with the results of the earlier ones. */
  lemma {:induction false} DefinitionsInOrder(m: Machine, funcs: seq<FuncDef>, f: FuncDef, st: State)
    requires EvalDefs(m, funcs, st).Ret?
    ensures var d := EvalDefs(m, funcs, st);
            EvalDefs(m, funcs + [f], st) ==
            match Eval(d.v, f.body, d.st, true)
            case Raise(st') => Raise(st')
            case Ret(v, st') => Ret(d.v.(cache := d.v.cache[f.name := v]), st')
    decreases |funcs|
  {
    if funcs == [] {
      assert [] + [f] == [f] && [f][1..] == [];
    } else {
      var r := Eval(m, funcs[0].body, st, true);
      DefinitionsInOrder(m.(cache := m.cache[funcs[0].name := r.v]), funcs[1..], f, r.st);
      assert (funcs + [f])[1..] == funcs[1..] + [f];
    }
  }

  /** The memory in which the `i`-th rule is evaluated. */
  function MemoryBefore(m: Machine, rules: seq<Rule>, st: State, i: nat): State
    requires i <= |rules|
  {
    if i == 0 then st else Walk(m, rules[i - 1].condition, MemoryBefore(m, rules, st, i - 1)).st
  }

  /** The rules are evaluated in order, each in the memory the one before it left, and each recorded as true,
      false or, without a value, null. */
  lemma {:induction false} RulesInOrder(m: Machine, rules: seq<Rule>, st: State, i: nat)
    requires WalkRules(m, rules, st).Ret? && i < |rules|
    ensures var v := Walk(m, rules[i].condition, MemoryBefore(m, rules, st, i));
            v.Ret? && WalkRules(m, rules, st).v[i] == if v.v == Null then Null else Bool(Truthy(v.v))
    decreases i
  {
    if i > 0 {
      var st1 := Walk(m, rules[0].condition, st).st;
      RulesInOrder(m, rules[1..], st1, i - 1);
      MemoryShift(m, rules, st, i - 1);
    }
  }

  lemma {:induction false} MemoryShift(m: Machine, rules: seq<Rule>, st: State, i: nat)
    requires i < |rules|
    ensures MemoryBefore(m, rules, st, i + 1) ==
            MemoryBefore(m, rules[1..], Walk(m, rules[0].condition, st).st, i)
  {
    if i > 0 {
      MemoryShift(m, rules, st, i - 1);
    }
  }
}
