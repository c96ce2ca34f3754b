/** What the operators mean: comparisons on numbers and texts, ranges, and strict null propagation. */
module OperatorLaws {
  import opened Common
  import opened Syntax
  import opened Grammar
  import opened Semantics
  import opened Memory

  /** Every comparison of two numbers is the mathematical one. */
  lemma NumberComparisons(x: real, y: real)
    ensures CompareValues(Gt, Num(x), Num(y)) == Some(Bool(x > y))
    ensures CompareValues(Ge, Num(x), Num(y)) == Some(Bool(x >= y))
    ensures CompareValues(Lt, Num(x), Num(y)) == Some(Bool(x < y))
    ensures CompareValues(Le, Num(x), Num(y)) == Some(Bool(x <= y))
    ensures CompareValues(Eq, Num(x), Num(y)) == Some(Bool(x == y))
    ensures CompareValues(Ne, Num(x), Num(y)) == Some(Bool(x != y))
  {
  }

  /** Addition and subtraction undo each other, as do multiplication and division by a non-zero number. */
  lemma ArithmeticInverse(x: real, y: real)
    ensures BinaryValues(Plus, Num(x), Num(y)).Some? &&
            BinaryValues(Minus, BinaryValues(Plus, Num(x), Num(y)).value, Num(y)) == Some(Num(x))
    ensures y != 0.0 ==> BinaryValues(Divide, Num(x), Num(y)).Some? &&
                         BinaryValues(Times, BinaryValues(Divide, Num(x), Num(y)).value, Num(y)) == Some(Num(x))
    ensures y == 0.0 ==> BinaryValues(Divide, Num(x), Num(y)) == Some(Null)
    ensures BinaryValues(Minus, Num(0.0), Num(x)) == UnaryValue(Negate, Num(x))
  {
    if y != 0.0 {
      assert Arithmetic(Times, Arithmetic(Divide, x, y), y) == x;
    }
  }

  /** Arithmetic on two numbers is the mathematical one; a division by zero is null. */
  lemma ArithmeticOperators(x: real, y: real)
    ensures BinaryValues(Plus, Num(x), Num(y)) == Some(Num(x + y))
    ensures BinaryValues(Minus, Num(x), Num(y)) == Some(Num(x - y))
    ensures var p := BinaryValues(Times, Num(x), Num(y)); p.Some? && p.value.Num? && p.value.n == x * y
    ensures y == 0.0 ==> BinaryValues(Divide, Num(x), Num(y)) == Some(Null)
    ensures y != 0.0 ==> var q := BinaryValues(Divide, Num(x), Num(y)); q.Some? && q.value.Num? && q.value.n * y == x
    ensures UnaryValue(Negate, Num(x)) == Some(Num(-x))
  {
  }

  /** What counts as true, and that AND, OR and NOT compute with it, null being passed on by every operator. */
  lemma LogicOperators(a: Value, b: Value)
    ensures Truthy(a) <==> (a.Num? && a.n != 0.0) || (a.Bool? && a.b) || (a.Str? && a.s != "")
    ensures a != Null && b != Null ==> BinaryValues(And, a, b) == Some(Bool(Truthy(a) && Truthy(b)))
    ensures a != Null && b != Null ==> BinaryValues(Or, a, b) == Some(Bool(Truthy(a) || Truthy(b)))
    ensures a != Null ==> UnaryValue(Not, a) == Some(Bool(!Truthy(a)))
    ensures forall op :: a == Null || b == Null ==> BinaryValues(op, a, b) == Some(Null)
    ensures forall op :: a == Null || b == Null ==> CompareValues(op, a, b) == Some(Null)
    ensures forall op :: UnaryValue(op, Null) == Some(Null)
  {
  }

  /** Equality: true and false equal 1 and 0, a text equals the same text only. */
  lemma EqualityExactly(a: Value, b: Value, x: real, p: bool)
    requires a != Null && b != Null
    ensures CompareValues(Eq, a, b).Some? && CompareValues(Ne, a, b) == UnaryValue(Not, CompareValues(Eq, a, b).value)
    ensures a == Num(x) && b == Bool(p) ==> CompareValues(Eq, a, b) == Some(Bool(x == if p then 1.0 else 0.0))
    ensures a.Str? && b.Str? ==> CompareValues(Eq, a, b) == Some(Bool(a.s == b.s))
    ensures a.Str? && (b.Num? || b.Bool?) ==> CompareValues(Eq, a, b) == Some(Bool(false))
    ensures a.Bool? && b.Bool? ==> CompareValues(Eq, a, b) == Some(Bool(a.b == b.b))
  {
  }

  /** Conversion to an integer drops the fraction, towards zero; a text is converted by the host. */
  lemma ToIntExactly(reg: Registry, x: real, p: bool, text: string)
    ensures ToInt(reg, Num(x)).Some?
    ensures var n := ToInt(reg, Num(x)).value as real; if x >= 0.0 then n <= x < n + 1.0 else n - 1.0 < x <= n
    ensures ToInt(reg, Bool(p)) == Some(if p then 1 else 0) && ToInt(reg, Str(text)) == reg.whole(text)
    ensures ToFloat(reg, Num(x)) == Some(x) && ToFloat(reg, Str(text)) == reg.figure(text)
    ensures ToFloat(reg, Bool(p)) == Some(if p then 1.0 else 0.0)
  {
    assert Truncate(1.0) == 1 && Truncate(0.0) == 0;
  }

  /** De Morgan's law holds of all values, null included. */
  lemma DeMorgan(a: Value, b: Value)
    ensures BinaryValues(And, a, b).Some? && UnaryValue(Not, a).Some? && UnaryValue(Not, b).Some?
    ensures UnaryValue(Not, BinaryValues(And, a, b).value) ==
            BinaryValues(Or, UnaryValue(Not, a).value, UnaryValue(Not, b).value)
    ensures BinaryValues(And, Bool(true), b) == if b == Null then Some(Null) else Some(Bool(Truthy(b)))
  {
  }

  /** Texts are totally ordered. */
  lemma {:induction false} TextTrichotomy(a: string, b: string)
    ensures a == b ==> !TextLess(a, b) && !TextLess(b, a)
    ensures a != b ==> (TextLess(a, b) <==> !TextLess(b, a))
  {
    if a != "" && b != "" && a[0] == b[0] {
      TextTrichotomy(a[1..], b[1..]);
      assert a == [a[0]] + a[1..] && b == [b[0]] + b[1..];
    }
  }

  /** The first difference decides, and a beginning comes before its continuations. */
  predicate Before(a: string, b: string) {
    exists i :: 0 <= i <= |a| && i < |b| && a[..i] == b[..i] && (i == |a| || a[i] < b[i])
  }

  lemma {:induction false} TextLessIsBefore(a: string, b: string)
    ensures TextLess(a, b) <==> Before(a, b)
  {
    if a == "" {
      assert b != "" ==> a[..0] == b[..0];
    } else if b != "" {
      TextLessIsBefore(a[1..], b[1..]);
      if a[0] == b[0] {
        BeforeTails(a, b);
      } else {
        assert a[..0] == b[..0];
        assert forall i :: 0 < i <= |a| && i < |b| ==> a[..i][0] == a[0] && b[..i][0] == b[0];
      }
    }
  }

  lemma BeforeTails(a: string, b: string)
    requires a != "" && b != "" && a[0] == b[0]
    ensures Before(a, b) <==> Before(a[1..], b[1..])
  {
    forall i | 0 <= i <= |a[1..]| && i < |b[1..]|
      ensures a[..i + 1] == b[..i + 1] <==> a[1..][..i] == b[1..][..i]
    {
      assert a[..i + 1] == [a[0]] + a[1..][..i] && b[..i + 1] == [b[0]] + b[1..][..i];
      assert a[1..][..i] == a[..i + 1][1..] && b[1..][..i] == b[..i + 1][1..];
    }
    if Before(a, b) {
      var i :| 0 <= i <= |a| && i < |b| && a[..i] == b[..i] && (i == |a| || a[i] < b[i]);
      assert i > 0 && a[1..][..i - 1] == b[1..][..i - 1];
    }
    if Before(a[1..], b[1..]) {
      var i :| 0 <= i <= |a[1..]| && i < |b[1..]| && a[1..][..i] == b[1..][..i] &&
               (i == |a[1..]| || a[1..][i] < b[1..][i]);
      assert a[..i + 1] == b[..i + 1];
    }
  }

  /** Comparisons of texts are lexicographic. */
  lemma TextComparisons(a: string, b: string)
    ensures CompareValues(Lt, Str(a), Str(b)) == Some(Bool(Before(a, b)))
    ensures CompareValues(Gt, Str(a), Str(b)) == Some(Bool(Before(b, a)))
    ensures CompareValues(Le, Str(a), Str(b)) == Some(Bool(!Before(b, a)))
    ensures CompareValues(Ge, Str(a), Str(b)) == Some(Bool(!Before(a, b)))
  {
    TextLessIsBefore(a, b);
    TextLessIsBefore(b, a);
  }

  lemma {:induction false} TextTransitive(a: string, b: string, c: string)
    requires TextLess(a, b) && TextLess(b, c)
    ensures TextLess(a, c)
  {
    if a != "" && a[0] == b[0] == c[0] {
      TextTransitive(a[1..], b[1..], c[1..]);
    }
  }

  /** A comparison raises exactly if it orders a text against a number or boolean. */
  lemma ComparisonRaises(op: CmpOp, a: Value, b: Value)
    ensures CompareValues(op, a, b) == None <==>
            op != Eq && op != Ne && ((a.Str? && IsNumeric(b)) || (IsNumeric(a) && b.Str?))
  {
  }

  lemma CompareNumbers(m: Machine, e: Expr, st: State, top: bool, a: real, b: real)
    requires e.Compare?
    requires Eval(m, e.left, st, top) == Ret(Num(a), st) && Eval(m, e.right, st, top) == Ret(Num(b), st)
    ensures Eval(m, e, st, top) == Finish(CompareValues(e.cmp, Num(a), Num(b)), st)
  {
  }

  /** `x BETWEEN low AND high` is true exactly if x lies in the closed range, whatever the operands are, as long
      as they are numbers and leave the memory alone. */
  lemma BetweenMeaning(
    m: Machine, x: Expr, low: Expr, high: Expr, at: Pos, st: State, top: bool, a: real, lo: real, hi: real)
    requires Eval(m, x, st, top) == Ret(Num(a), st)
    requires Eval(m, low, st, top) == Ret(Num(lo), st) && Eval(m, high, st, top) == Ret(Num(hi), st)
    ensures Eval(m, Between(x, low, high, at), st, top) == Ret(Bool(lo <= a <= hi), st)
  {
    var e := Between(x, low, high, at);
    CompareNumbers(m, e.left, st, top, a, lo);
    CompareNumbers(m, e.right, st, top, a, hi);
    NumberComparisons(a, lo);
    NumberComparisons(a, hi);
  }

  // ---- a reference meaning of expressions without calls ----

  function Product(x: real, y: real): real {
    x * y
  }

  function Quotient(x: real, y: real): real
    requires y != 0.0
  {
    x / y
  }

  predicate Arithmetical(e: Expr) {
    match e
    case NumberLit(_, _) => true
    case FieldRef(_, _) => true
    case Binary(op, l, r, _) => op != And && op != Or && Arithmetical(l) && Arithmetical(r)
    case Unary(op, o, _) => op == Negate && Arithmetical(o)
    case _ => false
  }

  predicate Logical(e: Expr) {
    match e
    case BoolLit(_, _) => true
    case Compare(_, l, r, _) => Arithmetical(l) && Arithmetical(r)
    case Binary(op, l, r, _) => (op == And || op == Or) && Logical(l) && Logical(r)
    case Unary(op, o, _) => op == Not && Logical(o)
    case _ => false
  }

  /** The number an expression stands for; None without a value for a field or with a division by zero. */
  function Amount(ctx: Context, e: Expr): Option<real>
    requires Arithmetical(e)
  {
    match e
    case NumberLit(v, _) => Some(v)
    case FieldRef(n, _) => if n in ctx.vals && ctx.vals[n].Num? then Some(ctx.vals[n].n) else None
    case Unary(_, o, _) => var x := Amount(ctx, o); if x == None then None else Some(-x.value)
    case Binary(op, l, r, _) =>
      var x, y := Amount(ctx, l), Amount(ctx, r);
      if x == None || y == None then None else Operated(op, x.value, y.value)
  }

  function Operated(op: BinOp, x: real, y: real): Option<real> {
    match op
    case Plus => Some(x + y)
    case Minus => Some(x - y)
    case Times => Some(Product(x, y))
    case Divide => if y == 0.0 then None else Some(Quotient(x, y))
    case _ => None
  }

  predicate Related(op: CmpOp, x: real, y: real) {
    match op
    case Gt => x > y
    case Ge => x >= y
    case Lt => x < y
    case Le => x <= y
    case Eq => x == y
    case Ne => x != y
  }

  /** What an expression says; None if one of its operands has no value. */
  function Truth(ctx: Context, e: Expr): Option<bool>
    requires Logical(e)
  {
    match e
    case BoolLit(b, _) => Some(b)
    case Compare(op, l, r, _) =>
      var x, y := Amount(ctx, l), Amount(ctx, r);
      if x == None || y == None then None else Some(Related(op, x.value, y.value))
    case Unary(_, o, _) => var p := Truth(ctx, o); if p == None then None else Some(!p.value)
    case Binary(op, l, r, _) =>
      var p, q := Truth(ctx, l), Truth(ctx, r);
      if p == None || q == None then None else Some(if op == And then p.value && q.value else p.value || q.value)
  }

  predicate NumericFields(ctx: Context) {
    forall n :: n in ctx.vals ==> ctx.vals[n].Null? || ctx.vals[n].Num?
  }

  function Lifted(x: Option<real>): Value {
    if x == None then Null else Num(x.value)
  }

  lemma OperationMeaning(op: BinOp, x: Option<real>, y: Option<real>)
    requires op != And && op != Or
    ensures BinaryValues(op, Lifted(x), Lifted(y)) ==
            Some(Lifted(if x == None || y == None then None else Operated(op, x.value, y.value)))
  {
    if x.Some? && y.Some? {
      NumbersOperated(op, x.value, y.value);
    }
  }

  lemma NumbersOperated(op: BinOp, x: real, y: real)
    requires op != And && op != Or
    ensures BinaryValues(op, Num(x), Num(y)) == Some(Lifted(Operated(op, x, y)))
  {
    if op == Times {
      assert Arithmetic(Times, x, y) == Product(x, y);
    } else if op == Divide && y != 0.0 {
      assert Arithmetic(Divide, x, y) == Quotient(x, y);
    }
  }

  /** Over numeric fields an arithmetic expression evaluates to the number it stands for, and the memory stays. */
  lemma {:induction false} ArithmeticMeaning(m: Machine, e: Expr, st: State, top: bool)
    requires Arithmetical(e) && NumericFields(m.ctx)
    ensures Eval(m, e, st, top) == Ret(Lifted(Amount(m.ctx, e)), st)
  {
    match e
    case Binary(op, l, r, _) =>
      ArithmeticMeaning(m, l, st, top);
      ArithmeticMeaning(m, r, st, top);
      OperationMeaning(op, Amount(m.ctx, l), Amount(m.ctx, r));
    case Unary(_, o, _) => ArithmeticMeaning(m, o, st, top);
    case _ =>
  }

  /** A condition without calls evaluates to what it says, or to null if an operand has no value. */
  lemma {:induction false} ConditionMeaning(m: Machine, e: Expr, st: State, top: bool)
    requires Logical(e) && NumericFields(m.ctx)
    ensures Eval(m, e, st, top) ==
            Ret(if Truth(m.ctx, e) == None then Null else Bool(Truth(m.ctx, e).value), st)
  {
    match e
    case Compare(op, l, r, _) =>
      ArithmeticMeaning(m, l, st, top);
      ArithmeticMeaning(m, r, st, top);
      if Amount(m.ctx, l).Some? && Amount(m.ctx, r).Some? {
        NumberComparisons(Amount(m.ctx, l).value, Amount(m.ctx, r).value);
      }
    case Binary(op, l, r, _) =>
      ConditionMeaning(m, l, st, top);
      ConditionMeaning(m, r, st, top);
    case Unary(_, o, _) => ConditionMeaning(m, o, st, top);
    case _ =>
  }

  /** A field without a value occurs as an operand, at any depth, outside calls. */
  predicate MissesField(ctx: Context, e: Expr) {
    match e
    case FieldRef(n, _) => ctx.Get(n) == Null
    case Compare(_, l, r, _) => MissesField(ctx, l) || MissesField(ctx, r)
    case Binary(_, l, r, _) => MissesField(ctx, l) || MissesField(ctx, r)
    case Unary(_, o, _) => MissesField(ctx, o)
    case _ => false
  }

  /** Null propagation is strict, AND and OR included: one missing field makes the whole expression null,
      unless a comparison or operation elsewhere raises. */
  lemma {:induction false} NullStrict(m: Machine, e: Expr, st: State, top: bool)
    requires MissesField(m.ctx, e)
    ensures var out := Eval(m, e, st, top); out.Ret? ==> out.v == Null
  {
    if e.Compare? || e.Binary? {
      var a := Eval(m, e.left, st, top);
      if MissesField(m.ctx, e.left) {
        NullStrict(m, e.left, st, top);
      } else if a.Ret? {
        NullStrict(m, e.right, a.st, top);
      }
    } else if e.Unary? {
      NullStrict(m, e.operand, st, top);
    }
  }

  /** So does the evaluator of version 2 conditions. */
  lemma {:induction false} WalkNullStrict(m: Machine, e: Expr, st: State)
    requires MissesField(m.ctx, e)
    ensures var out := Walk(m, e, st); out.Ret? ==> out.v == Null
  {
    if e.Compare? || e.Binary? {
      var a := Walk(m, e.left, st);
      if MissesField(m.ctx, e.left) {
        WalkNullStrict(m, e.left, st);
      } else if a.Ret? {
        WalkNullStrict(m, e.right, a.st);
      }
    } else if e.Unary? {
      WalkNullStrict(m, e.operand, st);
    }
  }

  /** A block with a missing field decides false. */
  lemma MissingFieldBlocks(reg: Registry, s: Script, ctx: Context, st: State)
    ensures var r := Evaluate(reg, s, ctx, st);
            r.Ret? ==> (MissesField(ctx, s.buy) ==> !r.v.0) && (MissesField(ctx, s.sell) ==> !r.v.1)
  {
    var m0 := Machine(reg, ctx, map[]);
    var defs := EvalDefs(m0, s.funcs, st);
    DefsCached(m0, s.funcs, st);
    if defs.Ret? {
      if MissesField(ctx, s.buy) { NullStrict(defs.v, s.buy, defs.st, true); }
      if MissesField(ctx, s.sell) { NullStrict(defs.v, s.sell, Eval(defs.v, s.buy, defs.st, true).st, true); }
    }
  }

  /** The last declaration of a name. */
  predicate LastOf(consts: seq<ConstDecl>, name: string, i: nat) {
    i < |consts| && consts[i].name == name && forall j :: i < j < |consts| ==> consts[j].name != name
  }

  /** In a version 2 script a constant's name means its last declaration, as a value and never as a function;
      all other names mean what they did. */
  lemma {:induction false} ConstantsHide(ctx: Context, consts: seq<ConstDecl>, name: string)
    ensures var now := InjectConsts(ctx, consts);
            && (forall i :: 0 <= i < |consts| && LastOf(consts, name, i) ==>
                  now.Get(name) == LiteralValue(consts[i].value) && name !in now.funcs)
            && ((forall c :: c in consts ==> c.name != name) ==>
                  now.Get(name) == ctx.Get(name) && (name in now.funcs <==> name in ctx.funcs) &&
                  (name in ctx.funcs ==> now.funcs[name] == ctx.funcs[name]))
    decreases |consts|
  {
    if consts != [] {
      var c, rest := consts[0], consts[1..];
      var next := Context(ctx.vals[c.name := LiteralValue(c.value)], ctx.funcs - {c.name});
      ConstantsHide(next, rest, name);
      assert consts == [c] + rest && InjectConsts(ctx, consts) == InjectConsts(next, rest);
      forall i | 0 <= i < |consts| && LastOf(consts, name, i)
        ensures InjectConsts(next, rest).Get(name) == LiteralValue(consts[i].value)
        ensures name !in InjectConsts(next, rest).funcs
      {
        if i > 0 {
          assert LastOf(rest, name, i - 1);
        } else {
          assert forall d :: d in rest ==> d.name != name;
        }
      }
    }
  }

  function LiteralValue(e: Expr): Value {
    match e
    case NumberLit(n, _) => Num(n)
    case StringLit(s, _) => Str(s)
    case _ => Null
  }

  predicate Triggers(results: seq<Value>, i: nat) {
    i < |results| && results[i] == Bool(true)
  }

  /** The action taken is that of a triggered rule, no triggered rule is more urgent, and among equally
      urgent ones it is the first. */
  lemma {:induction false} ResolveBest(rules: seq<Rule>, results: seq<Value>)
    requires |rules| == |results|
    ensures var d := Resolve(rules, results);
            if d == None then forall j: nat :: !Triggers(results, j)
            else Triggers(results, d.value.rule) && d.value.action == rules[d.value.rule].action &&
                 forall j: nat :: Triggers(results, j) ==>
                   Urgency(rules[j].action) < Urgency(d.value.action) ||
                   (Urgency(rules[j].action) == Urgency(d.value.action) && d.value.rule <= j)
  {
    if rules != [] {
      var n := |rules| - 1;
      ResolveBest(rules[..n], results[..n]);
      assert forall j: nat :: j < n ==> (Triggers(results, j) <==> Triggers(results[..n], j));
    }
  }

  /** The three kinds of actions, the most urgent first. */
  predicate FullSell(a: Action) {
    a.side == Sell && a.qty == All
  }

  predicate PartialSell(a: Action) {
    a.side == Sell && a.qty != All
  }

  /** Rule `i` is the first triggered one with such an action. */
  predicate FirstFull(rules: seq<Rule>, results: seq<Value>, i: nat)
    requires |rules| == |results|
  {
    Triggers(results, i) && FullSell(rules[i].action) &&
    forall j :: 0 <= j < i ==> !(Triggers(results, j) && FullSell(rules[j].action))
  }

  predicate FirstPartial(rules: seq<Rule>, results: seq<Value>, i: nat)
    requires |rules| == |results|
  {
    Triggers(results, i) && PartialSell(rules[i].action) &&
    forall j :: 0 <= j < i ==> !(Triggers(results, j) && PartialSell(rules[j].action))
  }

  predicate FirstBuy(rules: seq<Rule>, results: seq<Value>, i: nat)
    requires |rules| == |results|
  {
    Triggers(results, i) && rules[i].action.side == Buy &&
    forall j :: 0 <= j < i ==> !(Triggers(results, j) && rules[j].action.side == Buy)
  }

  predicate NoFull(rules: seq<Rule>, results: seq<Value>)
    requires |rules| == |results|
  {
    forall j :: 0 <= j < |rules| ==> !(Triggers(results, j) && FullSell(rules[j].action))
  }

  predicate NoSell(rules: seq<Rule>, results: seq<Value>)
    requires |rules| == |results|
  {
    forall j :: 0 <= j < |rules| ==> !(Triggers(results, j) && rules[j].action.side == Sell)
  }

  /** The action taken: the first triggered full sell, otherwise the first triggered partial sell, otherwise the
      first triggered buy. */
  lemma ResolveOrder(rules: seq<Rule>, results: seq<Value>)
    requires |rules| == |results|
    ensures var d := Resolve(rules, results);
            if d == None then forall j: nat :: !Triggers(results, j)
            else
              var i := d.value.rule;
              i < |rules| && d.value.action == rules[i].action &&
              if FullSell(d.value.action) then FirstFull(rules, results, i)
              else if PartialSell(d.value.action) then NoFull(rules, results) && FirstPartial(rules, results, i)
              else NoSell(rules, results) && FirstBuy(rules, results, i)
  {
    ResolveBest(rules, results);
  }
}
