/** What expressions and scripts evaluate to. The per-rule memory is threaded as a value; an exception
    that leaves the evaluator carries the memory as it was when it was raised. */
module Semantics {
  import opened Common
  import opened Syntax

  // ---- values ----

  datatype Value = Null | Num(n: real) | Bool(b: bool) | Str(s: string)

  function Truthy(v: Value): bool {
    match v
    case Null => false
    case Num(n) => n != 0.0
    case Bool(b) => b
    case Str(s) => s != ""
  }

  predicate IsNumeric(v: Value) {
    v.Num? || v.Bool?
  }

  /** Booleans take part in arithmetic as 1 and 0. */
  function AsNum(v: Value): real {
    match v
    case Num(n) => n
    case Bool(b) => if b then 1.0 else 0.0
    case _ => 0.0
  }

  /** Conversion to an integer; None where it raises. */
  function ToInt(reg: Registry, v: Value): Option<int> {
    match v
    case Null => None
    case Str(s) => reg.whole(s)
    case _ => Some(Truncate(AsNum(v)))
  }

  function ToFloat(reg: Registry, v: Value): Option<real> {
    match v
    case Null => None
    case Str(s) => reg.figure(s)
    case _ => Some(AsNum(v))
  }

  predicate SameValue(a: Value, b: Value) {
    if IsNumeric(a) && IsNumeric(b) then AsNum(a) == AsNum(b) else a == b
  }

  predicate TextLess(a: string, b: string) {
    b != "" && (a == "" || a[0] < b[0] || (a[0] == b[0] && TextLess(a[1..], b[1..])))
  }

  /** `a < b`; None where the comparison raises. */
  function Less(a: Value, b: Value): Option<bool> {
    if IsNumeric(a) && IsNumeric(b) then Some(AsNum(a) < AsNum(b))
    else if a.Str? && b.Str? then Some(TextLess(a.s, b.s))
    else None
  }

  /** A comparison node on two values; null if either is null. */
  function CompareValues(op: CmpOp, a: Value, b: Value): Option<Value> {
    if a == Null || b == Null then Some(Null)
    else if op == Eq then Some(Bool(SameValue(a, b)))
    else if op == Ne then Some(Bool(!SameValue(a, b)))
    else
      var less := if op == Lt || op == Ge then Less(a, b) else Less(b, a);
      if less == None then None
      else Some(Bool(if op == Lt || op == Gt then less.value else !less.value))
  }

  /** A binary node on two values; null if either is null or the divisor is zero. */
  function BinaryValues(op: BinOp, a: Value, b: Value): Option<Value> {
    if a == Null || b == Null then Some(Null)
    else if op == And then Some(Bool(Truthy(a) && Truthy(b)))
    else if op == Or then Some(Bool(Truthy(a) || Truthy(b)))
    else if op == Divide && SameValue(b, Num(0.0)) then Some(Null)
    else if IsNumeric(a) && IsNumeric(b) then Some(Num(Arithmetic(op, AsNum(a), AsNum(b))))
    else if op == Plus && a.Str? && b.Str? then Some(Str(a.s + b.s))
    else None
  }

  function Arithmetic(op: BinOp, x: real, y: real): real {
    match op
    case Plus => x + y
    case Minus => x - y
    case Times => x * y
    case _ => if y == 0.0 then 0.0 else x / y
  }

  function UnaryValue(op: UnOp, v: Value): Option<Value> {
    if v == Null then Some(Null)
    else if op == Not then Some(Bool(!Truthy(v)))
    else if IsNumeric(v) then Some(Num(-AsNum(v)))
    else None
  }

  // ---- context and memory ----

  /** Market data of one cycle: field values, and indicator functions (a raising function returns null). */
  datatype Context = Context(vals: map<string, Value>, funcs: map<string, seq<Value> -> Value>) {
    function Get(name: string): Value {
      if name in vals then vals[name] else Null
    }
  }

  /** Crossover and divergence memory is keyed by the call's name and argument trees. */
  datatype Key = Key(fn: string, args: seq<Expr>)

  datatype Atom = Figure(n: real) | Word(s: string) | Quoted(s: string) | Mark(c: char) | Tree(e: Expr)

  /** The parenthesis-free printed form that keys counters and streaks. */
  type Printed = seq<Atom>

  datatype State = State(
    cross: map<Key, (Value, Value)>,
    history: map<Key, seq<(real, real)>>,
    counts: map<Printed, seq<bool>>,
    streaks: map<Printed, nat>)

  const EMPTY_STATE := State(map[], map[], map[], map[])

  datatype Out<+T> = Ret(v: T, st: State) | Raise(st: State) {
    predicate IsFailure() {
      Raise?
    }

    function PropagateFailure<U>(): Out<U>
      requires Raise?
    {
      Raise(st)
    }

    function Extract(): (T, State)
      requires Ret?
    {
      (v, st)
    }
  }

  /** A value, or the exception None stands for. */
  function Finish(v: Option<Value>, st: State): Out<Value> {
    if v == None then Raise(st) else Ret(v.value, st)
  }

  /** What an expression is evaluated against: tables, market data, results of the custom functions. */
  datatype Machine = Machine(reg: Registry, ctx: Context, cache: map<string, Value>)

  function RoleOf(reg: Registry, fn: string): Role {
    if fn in reg.funcs then reg.funcs[fn].role else Plain
  }

  // ---- stateful functions ----

  /** One evaluation of a crossover call on two non-null values. */
  function CrossStep(st: State, key: Key, above: bool, a: Value, b: Value): Out<Value> {
    var st' := st.(cross := st.cross[key := (a, b)]);
    if key !in st.cross then Ret(Bool(false), st')
    else
      var (a0, b0) := st.cross[key];
      if a0 == Null || b0 == Null then Ret(Bool(false), st')
      else
        var before := if above then Less(a0, b0) else Less(b0, a0);
        if before == None then Raise(st')
        else if !before.value then Ret(Bool(false), st')
        else
          var still := if above then Less(a, b) else Less(b, a);
          if still == None then Raise(st') else Ret(Bool(!still.value), st')
  }

  /** The slice `s[-n:]`, which is all of `s` when n is zero. */
  function LastSlice<T>(s: seq<T>, n: int): seq<T> {
    if n > 0 then (if n < |s| then s[|s| - n..] else s)
    else if -n <= |s| then s[-n..] else []
  }

  function DivergenceStep(st: State, key: Key, bullish: bool, lookback: int, price: real, indicator: real): Out<Value> {
    var hist := (if key in st.history then st.history[key] else []) + [(price, indicator)];
    var kept := if |hist| > lookback then LastSlice(hist, lookback) else hist;
    Ret(Bool(|kept| >= 5 && Diverges(kept, bullish)), st.(history := st.history[key := kept]))
  }

  /** The points 1..n-1 that are lower (bullish) or higher (bearish) than both neighbours. */
  function Extrema(hist: seq<(real, real)>, bullish: bool, n: nat): (r: seq<nat>)
    requires n < |hist|
    ensures forall j :: 0 <= j < |r| ==> 0 < r[j] < n
  {
    if n <= 1 then []
    else
      var i := n - 1;
      var before := Extrema(hist, bullish, i);
      var turns := if bullish then hist[i].0 < hist[i - 1].0 && hist[i].0 < hist[i + 1].0
                   else hist[i].0 > hist[i - 1].0 && hist[i].0 > hist[i + 1].0;
      if turns then before + [i] else before
  }

  /** The last two extrema: price makes a new extreme, the indicator does not. */
  predicate Diverges(hist: seq<(real, real)>, bullish: bool)
    requires hist != []
  {
    var ex := Extrema(hist, bullish, |hist| - 1);
    |ex| >= 2 &&
    var p, q := hist[ex[|ex| - 2]], hist[ex[|ex| - 1]];
    if bullish then q.0 < p.0 && q.1 > p.1 else q.0 > p.0 && q.1 < p.1
  }

  function CountTrue(s: seq<bool>): nat {
    if s == [] then 0 else CountTrue(s[..|s| - 1]) + (if s[|s| - 1] then 1 else 0)
  }

  function CountStep(st: State, key: Printed, holds: bool, period: int): Out<Value> {
    var hist := (if key in st.counts then st.counts[key] else []) + [holds];
    var kept := if period > 0 && |hist| > period then LastSlice(hist, period) else hist;
    var window := if period > 0 then LastSlice(kept, period) else [];
    Ret(Num(CountTrue(window) as real), st.(counts := st.counts[key := kept]))
  }

  function StreakStep(st: State, key: Printed, holds: bool): Out<Value> {
    var n := if holds then (if key in st.streaks then st.streaks[key] else 0) + 1 else 0;
    Ret(Num(n as real), st.(streaks := st.streaks[key := n]))
  }

  // ---- printed forms ----

  function OpAtom(op: BinOp): Atom {
    match op
    case And => Word("AND")
    case Or => Word("OR")
    case Plus => Mark('+')
    case Minus => Mark('-')
    case Times => Mark('*')
    case Divide => Mark('/')
  }

  function CmpAtom(op: CmpOp): Atom {
    match op
    case Gt => Word(">")
    case Ge => Word(">=")
    case Lt => Word("<")
    case Le => Word("<=")
    case Eq => Word("==")
    case Ne => Word("!=")
  }

  function NodeRepr(e: Expr): Printed
    decreases e, 1
  {
    match e
    case NumberLit(v, _) => [Figure(v)]
    case BoolLit(b, _) => [Word(if b then "true" else "false")]
    case StringLit(s, _) => [Quoted(s)]
    case FieldRef(n, _) => [Word(n)]
    case FuncCall(fn, args, _) => [Word(fn), Mark('(')] + ArgsRepr(args) + [Mark(')')]
    case Compare(op, l, r, _) => NodeRepr(l) + [CmpAtom(op)] + NodeRepr(r)
    case Binary(op, l, r, _) => NodeRepr(l) + [OpAtom(op)] + NodeRepr(r)
    case Unary(op, o, _) => [if op == Not then Word("NOT") else Mark('-')] + NodeRepr(o)
    case IndexAccess(_, _, _) => [Tree(e)]
  }

  function ArgsRepr(args: seq<Expr>): Printed
    decreases args, 0
  {
    if args == [] then []
    else if |args| == 1 then NodeRepr(args[0])
    else NodeRepr(args[0]) + [Mark(',')] + ArgsRepr(args[1..])
  }

  // ---- expressions (both versions) ----

  const PRICE: string := "현재가"

  /** `top` is false inside a pattern's definition, where no further pattern occurs. */
  function Eval(m: Machine, e: Expr, st: State, top: bool): Out<Value>
    decreases top, e, 1
  {
    match e
    case NumberLit(v, _) => Ret(Num(v), st)
    case BoolLit(b, _) => Ret(Bool(b), st)
    case StringLit(s, _) => Ret(Str(s), st)
    case FieldRef(n, _) => Ret(m.ctx.Get(n), st)
    case FuncCall(_, _, _) => EvalCall(m, e, st, top)
    case Compare(op, l, r, _) =>
      var (a, st1) :- Eval(m, l, st, top);
      var (b, st2) :- Eval(m, r, st1, top);
      Finish(CompareValues(op, a, b), st2)
    case Binary(op, l, r, _) =>
      var (a, st1) :- Eval(m, l, st, top);
      var (b, st2) :- Eval(m, r, st1, top);
      Finish(BinaryValues(op, a, b), st2)
    case Unary(op, o, _) =>
      var (a, st1) :- Eval(m, o, st, top);
      Finish(UnaryValue(op, a), st1)
    case IndexAccess(_, _, _) => Ret(Null, st)
  }

  /** Custom functions first, then patterns, then built-ins. */
  function EvalCall(m: Machine, e: Expr, st: State, top: bool): Out<Value>
    requires e.FuncCall?
    decreases top, e, 0
  {
    if e.fn in m.cache then Ret(m.cache[e.fn], st)
    else if e.fn in m.reg.patterns then
      if top then Eval(m, m.reg.patterns[e.fn], st, false) else Ret(Null, st)
    else
      match RoleOf(m.reg, e.fn)
      case CrossAbove => EvalCross(m, e, st, top, true)
      case CrossBelow => EvalCross(m, e, st, top, false)
      case BullishDivergence => EvalDivergence(m, e, st, top, true)
      case BearishDivergence => EvalDivergence(m, e, st, top, false)
      case _ =>
        if e.fn !in m.ctx.funcs then Ret(Null, st)
        else
          var (args, st1) :- EvalArgs(m, e.args, st, top);
          Ret(if args == None then Null else m.ctx.funcs[e.fn](args.value), st1)
  }

  /** The arguments left to right, stopping at the first null. */
  function EvalArgs(m: Machine, args: seq<Expr>, st: State, top: bool): Out<Option<seq<Value>>>
    decreases top, args, 0
  {
    if args == [] then Ret(Some([]), st)
    else
      var (v, st1) :- Eval(m, args[0], st, top);
      if v == Null then Ret(None, st1)
      else
        var (vs, st2) :- EvalArgs(m, args[1..], st1, top);
        Ret(if vs == None then None else Some([v] + vs.value), st2)
  }

  /** The two sides of a crossover, unless one is null. */
  function EvalSides(m: Machine, e: Expr, st: State, top: bool): Out<Option<(Value, Value)>>
    requires e.FuncCall? && |e.args| == 2
    decreases top, e, 0, 0, 0
  {
    var (a, st1) :- Eval(m, e.args[0], st, top);
    var (b, st2) :- Eval(m, e.args[1], st1, top);
    Ret(if a == Null || b == Null then None else Some((a, b)), st2)
  }

  function EvalCross(m: Machine, e: Expr, st: State, top: bool, above: bool): Out<Value>
    requires e.FuncCall?
    decreases top, e, 0, 0
  {
    if |e.args| != 2 then Ret(Null, st)
    else
      var (sides, st1) :- EvalSides(m, e, st, top);
      if sides == None then Ret(Null, st1)
      else CrossStep(st1, Key(e.fn, e.args), above, sides.value.0, sides.value.1)
  }

  /** What a divergence call adds to its history: the lookback, the price and the indicator, unless one of
      the two is null. */
  datatype Reading = Reading(lookback: int, price: real, indicator: real)

  function EvalReading(m: Machine, e: Expr, st: State, top: bool): Out<Option<Reading>>
    requires e.FuncCall? && |e.args| >= 1
    decreases top, e, 0, 0, 0
  {
    var (ind, st1) :- Eval(m, e.args[0], st, top);
    if ind == Null then Ret(None, st1)
    else
      var (lb, st2) :- EvalLookback(m, e, st1, top);
      TakeReading(m, ind, lb, st2)
  }

  function EvalLookback(m: Machine, e: Expr, st: State, top: bool): Out<Value>
    requires e.FuncCall? && |e.args| >= 1
    decreases top, e, 0, 0, 0, 0
  {
    if |e.args| >= 2 then Eval(m, e.args[1], st, top) else Ret(Num(20.0), st)
  }

  /** The conversions raise on a text that is not a number. */
  function TakeReading(m: Machine, ind: Value, lb: Value, st: State): (r: Out<Option<Reading>>)
    ensures r.st == st
  {
    var lookback := if lb == Null then Some(20) else ToInt(m.reg, lb);
    var price := m.ctx.Get(PRICE);
    if lookback == None then Raise(st)
    else if price == Null then Ret(None, st)
    else
      var x, y := ToFloat(m.reg, price), ToFloat(m.reg, ind);
      if x == None || y == None then Raise(st) else Ret(Some(Reading(lookback.value, x.value, y.value)), st)
  }

  function EvalDivergence(m: Machine, e: Expr, st: State, top: bool, bullish: bool): Out<Value>
    requires e.FuncCall?
    decreases top, e, 0, 0
  {
    if |e.args| < 1 then Ret(Null, st)
    else
      var (r, st1) :- EvalReading(m, e, st, top);
      if r == None then Ret(Bool(false), st1)
      else DivergenceStep(st1, Key(e.fn, e.args), bullish, r.value.lookback, r.value.price, r.value.indicator)
  }

  // ---- version 1 scripts ----

  /** The custom functions in order, each seeing the results of the earlier ones. */
  function EvalDefs(m: Machine, funcs: seq<FuncDef>, st: State): Out<Machine>
    decreases |funcs|
  {
    if funcs == [] then Ret(m, st)
    else
      var (v, st1) :- Eval(m, funcs[0].body, st, true);
      EvalDefs(m.(cache := m.cache[funcs[0].name := v]), funcs[1..], st1)
  }

  /** The buy and the sell decision; a null block is false. */
  function Evaluate(reg: Registry, s: Script, ctx: Context, st: State): Out<(bool, bool)> {
    var (m, st1) :- EvalDefs(Machine(reg, ctx, map[]), s.funcs, st);
    var (buy, st2) :- Eval(m, s.buy, st1, true);
    var (sell, st3) :- Eval(m, s.sell, st2, true);
    Ret((Truthy(buy), Truthy(sell)), st3)
  }

  // ---- version 2 scripts ----

  /** Rule conditions: counters and streaks are handled here, other calls by `Eval`. */
  function Walk(m: Machine, e: Expr, st: State): Out<Value>
    decreases e
  {
    match e
    case FuncCall(fn, args, _) =>
      (match RoleOf(m.reg, fn)
       case Count => EvalCount(m, e, st)
       case Consecutive => EvalStreak(m, e, st)
       case _ => Eval(m, e, st, true))
    case Compare(op, l, r, _) =>
      var (a, st1) :- Walk(m, l, st);
      var (b, st2) :- Walk(m, r, st1);
      Finish(CompareValues(op, a, b), st2)
    case Binary(op, l, r, _) =>
      var (a, st1) :- Walk(m, l, st);
      var (b, st2) :- Walk(m, r, st1);
      if a == Null || b == Null then Ret(Null, st2)
      else if op == And || op == Or then Finish(BinaryValues(op, a, b), st2)
      else Eval(m, e, st2, true)
    case Unary(op, o, _) =>
      var (a, st1) :- Walk(m, o, st);
      Finish(UnaryValue(op, a), st1)
    case _ => Eval(m, e, st, true)
  }

  /** What a counter adds to its history, and its period, unless that is null. */
  datatype Outcome = Outcome(holds: bool, period: int)

  function EvalOutcome(m: Machine, e: Expr, st: State): Out<Option<Outcome>>
    requires e.FuncCall? && |e.args| == 2
  {
    var (period, st1) :- Eval(m, e.args[1], st, true);
    if period == Null then Ret(None, st1)
    else if ToInt(m.reg, period) == None then Raise(st1)
    else
      var (cond, st2) :- Eval(m, e.args[0], st1, true);
      Ret(Some(Outcome(Truthy(cond), ToInt(m.reg, period).value)), st2)
  }

  function EvalCount(m: Machine, e: Expr, st: State): Out<Value>
    requires e.FuncCall?
  {
    if |e.args| != 2 then Ret(Null, st)
    else
      var (o, st1) :- EvalOutcome(m, e, st);
      if o == None then Ret(Null, st1)
      else CountStep(st1, NodeRepr(e.args[0]), o.value.holds, o.value.period)
  }

  function EvalStreak(m: Machine, e: Expr, st: State): Out<Value>
    requires e.FuncCall?
  {
    if |e.args| != 1 then Ret(Null, st)
    else
      var (cond, st1) :- Eval(m, e.args[0], st, true);
      StreakStep(st1, NodeRepr(e.args[0]), Truthy(cond))
  }

  /** A constant hides whatever the context had under its name. */
  function InjectConsts(ctx: Context, consts: seq<ConstDecl>): Context
    decreases |consts|
  {
    if consts == [] then ctx
    else
      var c := consts[0];
      var v := match c.value case NumberLit(n, _) => Num(n) case StringLit(s, _) => Str(s) case _ => Null;
      InjectConsts(Context(ctx.vals[c.name := v], ctx.funcs - {c.name}), consts[1..])
  }

  /** A condition's recorded result: true, false or null. */
  function Snapshot(v: Value): Value {
    if v == Null then Null else Bool(Truthy(v))
  }

  /** Every rule's condition in order: true, false or null. */
  function WalkRules(m: Machine, rules: seq<Rule>, st: State): (r: Out<seq<Value>>)
    ensures r.Ret? ==> |r.v| == |rules|
  {
    if rules == [] then Ret([], st)
    else
      var (v, st1) :- Walk(m, rules[0].condition, st);
      var (vs, st2) :- WalkRules(m, rules[1..], st1);
      Ret([Snapshot(v)] + vs, st2)
  }

  datatype Decision = Decision(rule: nat, action: Action)

  /** Full sells before partial sells before buys. */
  function Urgency(a: Action): nat {
    if a.side == Buy then 1 else if a.qty.Percent? then 2 else 3
  }

  /** The triggered rule of highest urgency, the first one among equals. */
  function Resolve(rules: seq<Rule>, results: seq<Value>): (d: Option<Decision>)
    requires |rules| == |results|
  {
    if rules == [] then None
    else
      var n := |rules| - 1;
      var best := Resolve(rules[..n], results[..n]);
      if results[n] == Bool(true) && (best == None || Urgency(rules[n].action) > Urgency(best.value.action))
      then Some(Decision(n, rules[n].action)) else best
  }

  datatype Verdict = Verdict(action: Option<Decision>, snapshots: seq<Value>)

  function EvaluateV2(reg: Registry, s: ScriptV2, ctx: Context, st: State): Out<Verdict> {
    var (m, st1) :- EvalDefs(Machine(reg, InjectConsts(ctx, s.consts), map[]), s.funcs, st);
    var (results, st2) :- WalkRules(m, s.rules, st1);
    Ret(Verdict(Resolve(s.rules, results), results), st2)
  }

  // ---- runs ----

  /** The memory a run of version 1 leaves. */
  function MemoryAfter(reg: Registry, s: Script, ctxs: seq<Context>, st: State): State {
    if ctxs == [] then st
    else Evaluate(reg, s, ctxs[|ctxs| - 1], MemoryAfter(reg, s, ctxs[..|ctxs| - 1], st)).st
  }

  /** The decisions over a sequence of cycles; None for a cycle that raised. */
  function Run(reg: Registry, s: Script, ctxs: seq<Context>, st: State): (run: seq<Option<(bool, bool)>>)
    ensures |run| == |ctxs|
  {
    if ctxs == [] then []
    else
      var init := ctxs[..|ctxs| - 1];
      var r := Evaluate(reg, s, ctxs[|ctxs| - 1], MemoryAfter(reg, s, init, st));
      Run(reg, s, init, st) + [if r.Ret? then Some(r.v) else None]
  }

  function MemoryAfterV2(reg: Registry, s: ScriptV2, ctxs: seq<Context>, st: State): State {
    if ctxs == [] then st
    else EvaluateV2(reg, s, ctxs[|ctxs| - 1], MemoryAfterV2(reg, s, ctxs[..|ctxs| - 1], st)).st
  }

  /** The actions over a sequence of cycles. */
  function RunV2(reg: Registry, s: ScriptV2, ctxs: seq<Context>, st: State): (run: seq<Option<Option<Decision>>>)
    ensures |run| == |ctxs|
  {
    if ctxs == [] then []
    else
      var init := ctxs[..|ctxs| - 1];
      var r := EvaluateV2(reg, s, ctxs[|ctxs| - 1], MemoryAfterV2(reg, s, init, st));
      RunV2(reg, s, init, st) + [if r.Ret? then Some(r.v.action) else None]
  }
}
