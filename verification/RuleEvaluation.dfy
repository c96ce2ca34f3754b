/** The evaluators as objects that update a rule's memory in place, proved against the semantics. */
module RuleEvaluation {
  import opened Common
  import opened Syntax
  import opened Semantics

  /** The memory of one rule, kept from cycle to cycle. */
  class RuleState {
    var crossPrev: map<Key, (Value, Value)>
    var divergenceHist: map<Key, seq<(real, real)>>
    var countHistory: map<Printed, seq<bool>>
    var consecutive: map<Printed, nat>

    constructor ()
      ensures View() == EMPTY_STATE
    {
      crossPrev, divergenceHist, countHistory, consecutive := map[], map[], map[], map[];
    }

    function View(): State
      reads this
    {
      State(crossPrev, divergenceHist, countHistory, consecutive)
    }

    /** Compares with the last remembered pair, after remembering the new one. */
    method Cross(key: Key, above: bool, a: Value, b: Value) returns (r: Option<Value>)
      modifies this
      ensures Finish(r, View()) == CrossStep(old(View()), key, above, a, b)
    {
      var known := key in crossPrev;
      var prev := if known then crossPrev[key] else (Null, Null);
      crossPrev := crossPrev[key := (a, b)];
      if !known || prev.0 == Null || prev.1 == Null {
        return Some(Bool(false));
      }
      var before := if above then Less(prev.0, prev.1) else Less(prev.1, prev.0);
      if before == None {
        return None;
      }
      if !before.value {
        return Some(Bool(false));
      }
      var still := if above then Less(a, b) else Less(b, a);
      return if still == None then None else Some(Bool(!still.value));
    }

    method Divergence(key: Key, bullish: bool, lookback: int, price: real, indicator: real) returns (r: Option<Value>)
      modifies this
      ensures Finish(r, View()) == DivergenceStep(old(View()), key, bullish, lookback, price, indicator)
    {
      var hist := if key in divergenceHist then divergenceHist[key] else [];
      hist := hist + [(price, indicator)];
      if |hist| > lookback {
        hist := LastSlice(hist, lookback);
      }
      DivergenceStored(View(), key, bullish, lookback, price, indicator, hist);
      divergenceHist := divergenceHist[key := hist];
      if |hist| < 5 {
        return Some(Bool(false));
      }
      var found := DetectDivergence(hist, bullish);
      return Some(Bool(found));
    }

    method Count(key: Printed, holds: bool, period: int) returns (r: Option<Value>)
      modifies this
      ensures Finish(r, View()) == CountStep(old(View()), key, holds, period)
    {
      var hist := if key in countHistory then countHistory[key] else [];
      hist := hist + [holds];
      if period > 0 && |hist| > period {
        hist := LastSlice(hist, period);
      }
      countHistory := countHistory[key := hist];
      var window := if period > 0 then LastSlice(hist, period) else [];
      var n := 0;
      for i := 0 to |window|
        invariant n == CountTrue(window[..i])
      {
        assert window[..i + 1][..i] == window[..i];
        if window[i] {
          n := n + 1;
        }
      }
      assert window[..|window|] == window;
      return Some(Num(n as real));
    }

    method Consecutive(key: Printed, holds: bool) returns (r: Option<Value>)
      modifies this
      ensures Finish(r, View()) == StreakStep(old(View()), key, holds)
    {
      if holds {
        consecutive := consecutive[key := (if key in consecutive then consecutive[key] else 0) + 1];
      } else {
        consecutive := consecutive[key := 0];
      }
      return Some(Num(consecutive[key] as real));
    }
  }

  /** The step on a history that has grown by the new point and been cut to the lookback. */
  lemma DivergenceStored(
    st: State, key: Key, bullish: bool, lookback: int, price: real, indicator: real, kept: seq<(real, real)>)
    requires var hist := (if key in st.history then st.history[key] else []) + [(price, indicator)];
             kept == if |hist| > lookback then LastSlice(hist, lookback) else hist
    ensures DivergenceStep(st, key, bullish, lookback, price, indicator) ==
            Ret(Bool(|kept| >= 5 && Diverges(kept, bullish)), st.(history := st.history[key := kept]))
  {
  }

  /** Collects the turning points and compares the last two. */
  method DetectDivergence(hist: seq<(real, real)>, bullish: bool) returns (found: bool)
    requires hist != []
    ensures found == Diverges(hist, bullish)
  {
    var extrema: seq<nat> := [];
    var i := 1;
    while i < |hist| - 1
      invariant 1 <= i && (i <= |hist| - 1 || i == |hist| == 1)
      invariant extrema == Extrema(hist, bullish, if i < |hist| then i else 0)
    {
      if bullish {
        if hist[i].0 < hist[i - 1].0 && hist[i].0 < hist[i + 1].0 {
          extrema := extrema + [i];
        }
      } else {
        if hist[i].0 > hist[i - 1].0 && hist[i].0 > hist[i + 1].0 {
          extrema := extrema + [i];
        }
      }
      i := i + 1;
    }
    assert extrema == Extrema(hist, bullish, |hist| - 1);
    if |extrema| < 2 {
      return false;
    }
    var p, q := hist[extrema[|extrema| - 2]], hist[extrema[|extrema| - 1]];
    return if bullish then q.0 < p.0 && q.1 > p.1 else q.0 > p.0 && q.1 < p.1;
  }

  /** Evaluates expressions against one cycle's context; results of custom functions are cached. */
  class Evaluator {
    const reg: Registry
    const ctx: Context
    const state: RuleState
    var cache: map<string, Value>

    constructor (reg: Registry, ctx: Context, state: RuleState)
      ensures M() == Machine(reg, ctx, map[]) && this.state == state && this.reg == reg
    {
      this.reg, this.ctx, this.state, cache := reg, ctx, state, map[];
    }

    function M(): Machine
      reads this
    {
      Machine(reg, ctx, cache)
    }

    method EvalNode(e: Expr, top: bool) returns (r: Option<Value>)
      modifies state
      ensures Finish(r, state.View()) == Eval(M(), e, old(state.View()), top)
      decreases top, e, 1
    {
      match e
      case NumberLit(v, _) => return Some(Num(v));
      case BoolLit(b, _) => return Some(Bool(b));
      case StringLit(s, _) => return Some(Str(s));
      case FieldRef(n, _) => return Some(ctx.Get(n));
      case FuncCall(_, _, _) => r := EvalFuncCall(e, top);
      case Compare(op, left, right, _) =>
        var a := EvalNode(left, top);
        if a == None {
          return None;
        }
        var b := EvalNode(right, top);
        return if b == None then None else CompareValues(op, a.value, b.value);
      case Binary(op, left, right, _) =>
        var a := EvalNode(left, top);
        if a == None {
          return None;
        }
        var b := EvalNode(right, top);
        return if b == None then None else BinaryValues(op, a.value, b.value);
      case Unary(op, operand, _) =>
        var a := EvalNode(operand, top);
        return if a == None then None else UnaryValue(op, a.value);
      case IndexAccess(_, _, _) => return Some(Null);
    }

    method EvalFuncCall(e: Expr, top: bool) returns (r: Option<Value>)
      requires e.FuncCall?
      modifies state
      ensures Finish(r, state.View()) == EvalCall(M(), e, old(state.View()), top)
      decreases top, e, 0
    {
      if e.fn in cache {
        return Some(cache[e.fn]);
      }
      if e.fn in reg.patterns {
        if top {
          r := EvalNode(reg.patterns[e.fn], false);
        } else {
          r := Some(Null);
        }
        return;
      }
      var role := RoleOf(reg, e.fn);
      if role == CrossAbove || role == CrossBelow {
        r := EvalCrossCall(e, top, role == CrossAbove);
        return;
      }
      if role == BullishDivergence || role == BearishDivergence {
        r := EvalDivergenceCall(e, top, role == BullishDivergence);
        return;
      }
      if e.fn !in ctx.funcs {
        return Some(Null);
      }
      var fails, args := EvalArgList(e.args, top);
      return if fails then None else if args == None then Some(Null) else Some(ctx.funcs[e.fn](args.value));
    }

    /** Argument values until one is null; `fails` if an exception was raised. */
    method EvalArgList(args: seq<Expr>, top: bool) returns (fails: bool, vals: Option<seq<Value>>)
      modifies state
      ensures EvalArgs(M(), args, old(state.View()), top) ==
              if fails then Raise(state.View()) else Ret(vals, state.View())
      decreases top, args, 0
    {
      fails := false;
      if args == [] {
        return false, Some([]);
      }
      var v := EvalNode(args[0], top);
      if v == None {
        return true, None;
      }
      if v.value == Null {
        return false, None;
      }
      fails, vals := EvalArgList(args[1..], top);
      vals := if fails || vals == None then None else Some([v.value] + vals.value);
    }

    method EvalCrossCall(e: Expr, top: bool, above: bool) returns (r: Option<Value>)
      requires e.FuncCall?
      modifies state
      ensures Finish(r, state.View()) == EvalCross(M(), e, old(state.View()), top, above)
      decreases top, e, 0, 0
    {
      if |e.args| != 2 {
        return Some(Null);
      }
      var a := EvalNode(e.args[0], top);
      if a == None {
        return None;
      }
      var b := EvalNode(e.args[1], top);
      if b == None {
        return None;
      }
      if a.value == Null || b.value == Null {
        return Some(Null);
      }
      r := state.Cross(Key(e.fn, e.args), above, a.value, b.value);
    }

    method EvalDivergenceCall(e: Expr, top: bool, bullish: bool) returns (r: Option<Value>)
      requires e.FuncCall?
      modifies state
      ensures Finish(r, state.View()) == EvalDivergence(M(), e, old(state.View()), top, bullish)
      decreases top, e, 0, 0
    {
      if |e.args| < 1 {
        return Some(Null);
      }
      var ind := EvalNode(e.args[0], top);
      if ind == None {
        return None;
      }
      if ind.value == Null {
        return Some(Bool(false));
      }
      ghost var st := state.View();
      var lb := Some(Num(20.0));
      if |e.args| >= 2 {
        lb := EvalNode(e.args[1], top);
      }
      assert EvalLookback(M(), e, st, top) == Finish(lb, state.View());
      if lb == None {
        return None;
      }
      assert EvalReading(M(), e, old(state.View()), top) == TakeReading(M(), ind.value, lb.value, state.View());
      var lookback := if lb.value == Null then Some(20) else ToInt(reg, lb.value);
      if lookback == None {
        return None;
      }
      var price := ctx.Get(PRICE);
      if price == Null {
        return Some(Bool(false));
      }
      var x, y := ToFloat(reg, price), ToFloat(reg, ind.value);
      if x == None || y == None {
        return None;
      }
      r := state.Divergence(Key(e.fn, e.args), bullish, lookback.value, x.value, y.value);
    }

    /** Evaluates the custom functions in order; false if one raises. */
    method EvalCustomDefs(funcs: seq<FuncDef>) returns (ok: bool)
      modifies this, state
      ensures EvalDefs(old(M()), funcs, old(state.View())) == if ok then Ret(M(), state.View()) else Raise(state.View())
    {
      for i := 0 to |funcs|
        invariant EvalDefs(M(), funcs[i..], state.View()) == EvalDefs(old(M()), funcs, old(state.View()))
      {
        var v := EvalNode(funcs[i].body, true);
        if v == None {
          return false;
        }
        cache := cache[funcs[i].name := v.value];
        assert funcs[i..][1..] == funcs[i + 1..];
      }
      return true;
    }
  }

  /** The decisions of a version 1 script; None if an exception is raised. */
  method EvaluateScript(reg: Registry, s: Script, ctx: Context, state: RuleState) returns (r: Option<(bool, bool)>)
    modifies state
    ensures Evaluate(reg, s, ctx, old(state.View())) ==
            if r == None then Raise(state.View()) else Ret(r.value, state.View())
  {
    var ev := new Evaluator(reg, ctx, state);
    var ok := ev.EvalCustomDefs(s.funcs);
    if !ok {
      return None;
    }
    var buy := ev.EvalNode(s.buy, true);
    if buy == None {
      return None;
    }
    var sell := ev.EvalNode(s.sell, true);
    return if sell == None then None else Some((Truthy(buy.value), Truthy(sell.value)));
  }

  predicate InRange(ts: seq<nat>, n: nat) {
    forall i :: 0 <= i < |ts| ==> ts[i] < n
  }

  /** The indices of the triggered rules. */
  function Triggered(results: seq<Value>): (ts: seq<nat>)
    ensures InRange(ts, |results|) && forall i :: 0 <= i < |ts| ==> results[ts[i]] == Bool(true)
  {
    if results == [] then []
    else
      var n := |results| - 1;
      Triggered(results[..n]) + if results[n] == Bool(true) then [n] else []
  }

  /** The first of the highest urgency among the rules with the given indices. */
  function MostUrgent(rules: seq<Rule>, ts: seq<nat>): (d: Option<Decision>)
    requires InRange(ts, |rules|)
  {
    if ts == [] then None
    else
      var best, t := MostUrgent(rules, ts[..|ts| - 1]), ts[|ts| - 1];
      if best == None || Urgency(rules[t].action) > Urgency(best.value.action)
      then Some(Decision(t, rules[t].action)) else best
  }

  lemma {:induction false} MostUrgentPrefix(rules: seq<Rule>, n: nat, ts: seq<nat>)
    requires n <= |rules| && InRange(ts, n)
    ensures MostUrgent(rules[..n], ts) == MostUrgent(rules, ts)
  {
    if ts != [] {
      MostUrgentPrefix(rules, n, ts[..|ts| - 1]);
    }
  }

  /** Resolving over all rules looks at the triggered ones only. */
  lemma {:induction false} ResolveTriggered(rules: seq<Rule>, results: seq<Value>)
    requires |rules| == |results|
    ensures Resolve(rules, results) == MostUrgent(rules, Triggered(results))
  {
    if rules != [] {
      var n := |rules| - 1;
      ResolveTriggered(rules[..n], results[..n]);
      MostUrgentPrefix(rules, n, Triggered(results[..n]));
      var ts := Triggered(results[..n]);
      assert (ts + [n])[..|ts|] == ts && ts + [] == ts;
    }
  }

  /** The first full sell, else the first partial sell, else the first buy. */
  method ResolvePriority(rules: seq<Rule>, triggered: seq<nat>) returns (d: Option<Decision>)
    requires InRange(triggered, |rules|)
    ensures d == MostUrgent(rules, triggered)
  {
    var fullSell: Option<Decision>, partialSell: Option<Decision>, buy: Option<Decision> := None, None, None;
    for i := 0 to |triggered|
      invariant fullSell.Some? ==> Urgency(fullSell.value.action) == 3
      invariant partialSell.Some? ==> Urgency(partialSell.value.action) == 2
      invariant buy.Some? ==> Urgency(buy.value.action) == 1
      invariant MostUrgent(rules, triggered[..i]) ==
                if fullSell.Some? then fullSell else if partialSell.Some? then partialSell else buy
    {
      assert triggered[..i + 1][..i] == triggered[..i];
      var act := rules[triggered[i]].action;
      var result := Some(Decision(triggered[i], act));
      if act.side == Sell && act.qty.All? && fullSell == None {
        fullSell := result;
      } else if act.side == Sell && act.qty.Percent? && partialSell == None {
        partialSell := result;
      } else if act.side == Buy && buy == None {
        buy := result;
      }
    }
    assert triggered[..|triggered|] == triggered;
    return if fullSell.Some? then fullSell else if partialSell.Some? then partialSell else buy;
  }

  /** Evaluates the rules of a version 2 script, handling counters and streaks itself. */
  class EvaluatorV2 {
    const ev: Evaluator
    var snapshots: seq<Value>

    constructor (ev: Evaluator)
      ensures this.ev == ev && snapshots == []
    {
      this.ev, snapshots := ev, [];
    }

    method EvalWithStateFuncs(e: Expr) returns (r: Option<Value>)
      modifies ev.state
      ensures Finish(r, ev.state.View()) == Walk(ev.M(), e, old(ev.state.View()))
      decreases e
    {
      if e.FuncCall? {
        var role := RoleOf(ev.reg, e.fn);
        if role == Count {
          r := EvalCountFunc(e);
        } else if role == Consecutive {
          r := EvalConsecutiveFunc(e);
        } else {
          r := ev.EvalNode(e, true);
        }
      } else if e.Compare? || e.Binary? {
        var a := EvalWithStateFuncs(e.left);
        if a == None {
          return None;
        }
        var b := EvalWithStateFuncs(e.right);
        if b == None {
          return None;
        }
        if e.Compare? {
          return CompareValues(e.cmp, a.value, b.value);
        }
        if a.value == Null || b.value == Null {
          return Some(Null);
        }
        if e.op == And || e.op == Or {
          return BinaryValues(e.op, a.value, b.value);
        }
        r := ev.EvalNode(e, true);
      } else if e.Unary? {
        var a := EvalWithStateFuncs(e.operand);
        return if a == None then None else UnaryValue(e.uop, a.value);
      } else {
        r := ev.EvalNode(e, true);
      }
    }

    method EvalCountFunc(e: Expr) returns (r: Option<Value>)
      requires e.FuncCall?
      modifies ev.state
      ensures Finish(r, ev.state.View()) == EvalCount(ev.M(), e, old(ev.state.View()))
    {
      if |e.args| != 2 {
        return Some(Null);
      }
      var period := ev.EvalNode(e.args[1], true);
      if period == None {
        return None;
      }
      if period.value == Null {
        return Some(Null);
      }
      var p := ToInt(ev.reg, period.value);
      if p == None {
        return None;
      }
      var cond := ev.EvalNode(e.args[0], true);
      if cond == None {
        return None;
      }
      r := ev.state.Count(NodeRepr(e.args[0]), Truthy(cond.value), p.value);
    }

    method EvalConsecutiveFunc(e: Expr) returns (r: Option<Value>)
      requires e.FuncCall?
      modifies ev.state
      ensures Finish(r, ev.state.View()) == EvalStreak(ev.M(), e, old(ev.state.View()))
    {
      if |e.args| != 1 {
        return Some(Null);
      }
      var cond := ev.EvalNode(e.args[0], true);
      if cond == None {
        return None;
      }
      r := ev.state.Consecutive(NodeRepr(e.args[0]), Truthy(cond.value));
    }

    /** Records a snapshot per rule and collects the triggered ones; `ok` is false if a condition raises. */
    method WalkConditions(rules: seq<Rule>) returns (ok: bool, triggered: seq<nat>)
      requires snapshots == []
      modifies this, ev.state
      ensures WalkRules(ev.M(), rules, old(ev.state.View())) ==
              if ok then Ret(snapshots, ev.state.View()) else Raise(ev.state.View())
      ensures ok ==> |snapshots| == |rules| && triggered == Triggered(snapshots)
    {
      triggered := [];
      assert rules[0..] == rules;
      RecordedTwice([], [], WalkRules(ev.M(), rules, ev.state.View()));
      for i := 0 to |rules|
        invariant |snapshots| == i && triggered == Triggered(snapshots)
        invariant Recorded(snapshots, WalkRules(ev.M(), rules[i..], ev.state.View())) ==
                  WalkRules(ev.M(), rules, old(ev.state.View()))
      {
        RulesFrom(ev.M(), rules, i, ev.state.View());
        var v := EvalWithStateFuncs(rules[i].condition);
        if v == None {
          return false, [];
        }
        RecordedTwice(snapshots, [Snapshot(v.value)], WalkRules(ev.M(), rules[i + 1..], ev.state.View()));
        TriggeredMore(snapshots, Snapshot(v.value));
        if Snapshot(v.value) == Bool(true) {
          triggered := triggered + [i];
        }
        snapshots := snapshots + [Snapshot(v.value)];
      }
      assert snapshots + [] == snapshots;
      return true, triggered;
    }
  }

  /** The snapshots taken so far put before those still to come. */
  function Recorded(vs: seq<Value>, r: Out<seq<Value>>): Out<seq<Value>> {
    if r.Raise? then r else Ret(vs + r.v, r.st)
  }

  /** The rules from `i` on are rule `i` and those after it. */
  lemma RulesFrom(m: Machine, rules: seq<Rule>, i: nat, st: State)
    requires i < |rules|
    ensures var p := Walk(m, rules[i].condition, st);
            WalkRules(m, rules[i..], st) ==
            if p.Raise? then Raise(p.st) else Recorded([Snapshot(p.v)], WalkRules(m, rules[i + 1..], p.st))
  {
    assert rules[i..][1..] == rules[i + 1..];
  }

  lemma TriggeredMore(vs: seq<Value>, v: Value)
    ensures Triggered(vs + [v]) == Triggered(vs) + if v == Bool(true) then [|vs|] else []
  {
    assert (vs + [v])[..|vs|] == vs;
  }

  lemma RecordedTwice(vs: seq<Value>, us: seq<Value>, r: Out<seq<Value>>)
    ensures Recorded([], r) == r
    ensures Recorded(vs, Recorded(us, r)) == Recorded(vs + us, r)
  {
    if r.Ret? {
      assert [] + r.v == r.v;
      assert vs + (us + r.v) == vs + us + r.v;
    }
  }

  /** The verdict of a version 2 script; None if an exception is raised. */
  method EvaluateScriptV2(reg: Registry, s: ScriptV2, ctx: Context, state: RuleState) returns (r: Option<Verdict>)
    modifies state
    ensures EvaluateV2(reg, s, ctx, old(state.View())) ==
            if r == None then Raise(state.View()) else Ret(r.value, state.View())
  {
    var ev := new Evaluator(reg, InjectConsts(ctx, s.consts), state);
    var ok := ev.EvalCustomDefs(s.funcs);
    if !ok {
      return None;
    }
    var v2 := new EvaluatorV2(ev);
    var done, triggered := v2.WalkConditions(s.rules);
    if !done {
      return None;
    }
    ResolveTriggered(s.rules, v2.snapshots);
    var action := ResolvePriority(s.rules, triggered);
    return Some(Verdict(action, v2.snapshots));
  }
}
