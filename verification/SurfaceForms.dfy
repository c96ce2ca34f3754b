/** What the language's texts group and abbreviate: how tightly operators bind, BETWEEN, superfluous parentheses
    and names without parentheses. The operators are given by their texts. */
module SurfaceForms {
  import opened Common
  import opened Syntax
  import opened Grammar
  import opened RoundTrip
  import LexerProofs

  // ---- operators by their texts ----

  function BinText(op: BinOp): string {
    match op
    case Or => "OR"
    case And => "AND"
    case Plus => "+"
    case Minus => "-"
    case Times => "*"
    case Divide => "/"
  }

  function CmpText(op: CmpOp): string {
    match op
    case Gt => ">"
    case Ge => ">="
    case Lt => "<"
    case Le => "<="
    case Eq => "=="
    case Ne => "!="
  }

  /** A token with this text, of the kind the vocabulary gives it. */
  predicate Spells(t: Token, text: string) {
    t.text == text && HasText(t.kind, text)
  }

  lemma BinaryToken(op: BinOp, t: Token)
    requires Spells(t, BinText(op))
    ensures t == OpToken(op, t.at)
  {
    LexerProofs.OneKind(t.kind, OpToken(op, t.at).kind, t.text);
  }

  lemma CompareToken(op: CmpOp, t: Token)
    requires Spells(t, CmpText(op))
    ensures t == CmpToken(op, t.at)
  {
    LexerProofs.OneKind(t.kind, CmpToken(op, t.at).kind, t.text);
  }

  lemma PrefixTokens(t: Token)
    ensures Spells(t, "NOT") ==> t == Token(NOT, "NOT", t.at)
    ensures Spells(t, "-") ==> t == Token(MINUS, "-", t.at)
  {
    if Spells(t, "NOT") {
      LexerProofs.OneKind(t.kind, NOT, t.text);
    } else if Spells(t, "-") {
      LexerProofs.OneKind(t.kind, MINUS, t.text);
    }
  }

  // ---- how tightly operators bind ----

  predicate Atom(e: Expr) {
    e.NumberLit? || e.BoolLit? || e.FieldRef? || e.FuncCall?
  }

  lemma AtomPrint(env: Env, a: Expr, lvl: nat, k: Stream)
    requires Atom(a) && WF(env, a) && lvl <= 9
    ensures Print(env, a, lvl, k) == PrintBare(env, a, k)
  {
  }

  lemma BinaryPrint(env: Env, e: Expr, lvl: nat, k: Stream)
    requires e.Binary? && WF(env, e) && lvl <= Prec(e)
    ensures Print(env, e, lvl, k) ==
            Print(env, e.left, Prec(e), Cons(OpToken(e.op, e.at), Print(env, e.right, Prec(e) + 1, k)))
  {
  }

  lemma ComparePrint(env: Env, e: Expr, lvl: nat, k: Stream)
    requires e.Compare? && WF(env, e) && lvl <= CMP_LEVEL
    ensures Print(env, e, lvl, k) ==
            Print(env, e.left, ADD_LEVEL, Cons(CmpToken(e.cmp, e.at), Print(env, e.right, ADD_LEVEL, k)))
  {
  }

  lemma UnaryPrint(env: Env, e: Expr, lvl: nat, k: Stream)
    requires e.Unary? && WF(env, e) && lvl <= Prec(e)
    ensures Print(env, e, lvl, k) ==
            Cons(if e.uop == Not then Token(NOT, "NOT", e.at) else Token(MINUS, "-", e.at),
                 Print(env, e.operand, Prec(e), k))
  {
  }

  /** An operation on two atoms, written without parentheses. */
  lemma SimplePrint(env: Env, e: Expr, lvl: nat, k: Stream)
    requires (e.Binary? || e.Compare?) && WF(env, e) && lvl <= Prec(e) && Atom(e.left) && Atom(e.right)
    ensures var t := if e.Binary? then OpToken(e.op, e.at) else CmpToken(e.cmp, e.at);
            Print(env, e, lvl, k) == PrintBare(env, e.left, Cons(t, PrintBare(env, e.right, k)))
  {
    if e.Binary? {
      BinaryPrint(env, e, lvl, k);
      AtomPrint(env, e.right, Prec(e) + 1, k);
      AtomPrint(env, e.left, Prec(e), Cons(OpToken(e.op, e.at), PrintBare(env, e.right, k)));
    } else {
      ComparePrint(env, e, lvl, k);
      AtomPrint(env, e.right, ADD_LEVEL, k);
      AtomPrint(env, e.left, ADD_LEVEL, Cons(CmpToken(e.cmp, e.at), PrintBare(env, e.right, k)));
    }
  }

  /** An operation one of whose operands is an atom. */
  lemma LeftPrint(env: Env, e: Expr, k: Stream)
    requires (e.Binary? || e.Compare?) && WF(env, e) && Atom(e.right)
    ensures var t := if e.Binary? then OpToken(e.op, e.at) else CmpToken(e.cmp, e.at);
            Print(env, e, OR_LEVEL, k) ==
            Print(env, e.left, if e.Binary? then Prec(e) else ADD_LEVEL, Cons(t, PrintBare(env, e.right, k)))
  {
    if e.Binary? {
      BinaryPrint(env, e, OR_LEVEL, k);
      AtomPrint(env, e.right, Prec(e) + 1, k);
    } else {
      ComparePrint(env, e, OR_LEVEL, k);
      AtomPrint(env, e.right, ADD_LEVEL, k);
    }
  }

  lemma RightPrint(env: Env, e: Expr, k: Stream)
    requires (e.Binary? || e.Compare?) && WF(env, e) && Atom(e.left)
    ensures var t := if e.Binary? then OpToken(e.op, e.at) else CmpToken(e.cmp, e.at);
            Print(env, e, OR_LEVEL, k) ==
            PrintBare(env, e.left, Cons(t, Print(env, e.right, if e.Binary? then Prec(e) + 1 else ADD_LEVEL, k)))
  {
    if e.Binary? {
      BinaryPrint(env, e, OR_LEVEL, k);
      AtomPrint(env, e.left, Prec(e), Cons(OpToken(e.op, e.at), Print(env, e.right, Prec(e) + 1, k)));
    } else {
      ComparePrint(env, e, OR_LEVEL, k);
      AtomPrint(env, e.left, ADD_LEVEL, Cons(CmpToken(e.cmp, e.at), Print(env, e.right, ADD_LEVEL, k)));
    }
  }

  predicate Simple(e: Expr) {
    (e.Binary? || e.Compare?) && Atom(e.left) && Atom(e.right)
  }

  function Sign(e: Expr): Token
    requires e.Binary? || e.Compare?
  {
    if e.Binary? then OpToken(e.op, e.at) else CmpToken(e.cmp, e.at)
  }

  /** The level its operator gives the right operand. */
  function RightLevel(e: Expr): nat {
    if e.Binary? then Prec(e) + 1 else ADD_LEVEL
  }

  function LeftLevel(e: Expr): nat {
    if e.Binary? then Prec(e) else ADD_LEVEL
  }

  /** Two operations on three atoms print without parentheses if the levels allow. */
  lemma RightNested(env: Env, e: Expr, r: Expr, k: Stream)
    requires (e.Binary? || e.Compare?) && WF(env, e) && Atom(e.left) && e.right == r && WF(env, e.left)
    requires Simple(r) && WF(env, r) && Prec(r) >= RightLevel(e)
    ensures Print(env, e, OR_LEVEL, k) ==
            PrintBare(env, e.left, Cons(Sign(e), PrintBare(env, r.left, Cons(Sign(r), PrintBare(env, r.right, k)))))
  {
    RightPrint(env, e, k);
    SimplePrint(env, r, RightLevel(e), k);
  }

  lemma LeftNested(env: Env, e: Expr, l: Expr, k: Stream)
    requires (e.Binary? || e.Compare?) && WF(env, e) && Atom(e.right) && e.left == l && WF(env, e.right)
    requires Simple(l) && WF(env, l) && Prec(l) >= LeftLevel(e)
    ensures Print(env, e, OR_LEVEL, k) ==
            PrintBare(env, l.left, Cons(Sign(l), PrintBare(env, l.right, Cons(Sign(e), PrintBare(env, e.right, k)))))
  {
    LeftPrint(env, e, k);
    SimplePrint(env, l, LeftLevel(e), Cons(Sign(e), PrintBare(env, e.right, k)));
  }

  function PrefixToken(p: UnOp, at: Pos): Token {
    if p == Not then Token(NOT, "NOT", at) else Token(MINUS, "-", at)
  }

  lemma PrefixOutside(env: Env, e: Expr, o: Expr, k: Stream)
    requires e.Unary? && WF(env, e) && e.operand == o && Simple(o) && WF(env, o) && Prec(o) >= Prec(e)
    ensures Print(env, e, OR_LEVEL, k) ==
            Cons(PrefixToken(e.uop, e.at), PrintBare(env, o.left, Cons(Sign(o), PrintBare(env, o.right, k))))
  {
    UnaryPrint(env, e, OR_LEVEL, k);
    SimplePrint(env, o, Prec(e), k);
  }

  lemma PrefixInside(env: Env, e: Expr, l: Expr, k: Stream)
    requires (e.Binary? || e.Compare?) && WF(env, e) && Atom(e.right) && e.left == l && WF(env, e.right)
    requires l.Unary? && WF(env, l) && Atom(l.operand) && WF(env, l.operand) && Prec(l) >= LeftLevel(e)
    ensures Print(env, e, OR_LEVEL, k) ==
            Cons(PrefixToken(l.uop, l.at), PrintBare(env, l.operand, Cons(Sign(e), PrintBare(env, e.right, k))))
  {
    var rest := Cons(Sign(e), PrintBare(env, e.right, k));
    LeftPrint(env, e, k);
    UnaryPrint(env, l, LeftLevel(e), rest);
    AtomPrint(env, l.operand, Prec(l), rest);
  }

  predicate IsLogic(op: BinOp) {
    op == And || op == Or
  }

  /** Products before sums, sums before AND, AND before OR. */
  predicate Tighter(op: BinOp, than: BinOp) {
    match op
    case Or => false
    case And => than == Or
    case Plus => IsLogic(than)
    case Minus => IsLogic(than)
    case Times => than != Times && than != Divide
    case Divide => than != Times && than != Divide
  }

  /** `a op b op' c`, grouped to the left unless the second operator is the tighter one. */
  function Grouped(a: Expr, t: Token, op: BinOp, b: Expr, t': Token, op': BinOp, c: Expr): Expr {
    if Tighter(op', op) then Binary(op, a, Binary(op', b, c, t'.at), t.at)
    else Binary(op', Binary(op, a, b, t.at), c, t'.at)
  }

  lemma Grouping(env: Env, a: Expr, t: Token, op: BinOp, b: Expr, t': Token, op': BinOp, c: Expr, k: Stream)
    requires Atom(a) && Atom(b) && Atom(c) && Spells(t, BinText(op)) && Spells(t', BinText(op'))
    requires WF(env, a) && WF(env, b) && WF(env, c)
    requires WF(env, Grouped(a, t, op, b, t', op', c)) && Follow(k.Kind()) == 0
    ensures Parse(env, OR_LEVEL, PrintBare(env, a, Cons(t, PrintBare(env, b, Cons(t', PrintBare(env, c, k)))))) ==
            Ok(Grouped(a, t, op, b, t', op', c), k)
  {
    BinaryToken(op, t);
    BinaryToken(op', t');
    if Tighter(op', op) {
      RightNested(env, Grouped(a, t, op, b, t', op', c), Binary(op', b, c, t'.at), k);
    } else {
      LeftNested(env, Grouped(a, t, op, b, t', op', c), Binary(op, a, b, t.at), k);
    }
    PrintParse(env, Grouped(a, t, op, b, t', op', c), OR_LEVEL, k);
  }

  /** Comparisons bind tighter than AND and OR and less tight than arithmetic. */
  function ComparedFirst(a: Expr, t: Token, op: BinOp, b: Expr, t': Token, cmp: CmpOp, c: Expr): Expr {
    if IsLogic(op) then Binary(op, a, Compare(cmp, b, c, t'.at), t.at)
    else Compare(cmp, Binary(op, a, b, t.at), c, t'.at)
  }

  function ComparedLast(a: Expr, t: Token, cmp: CmpOp, b: Expr, t': Token, op: BinOp, c: Expr): Expr {
    if IsLogic(op) then Binary(op, Compare(cmp, a, b, t.at), c, t'.at)
    else Compare(cmp, a, Binary(op, b, c, t'.at), t.at)
  }

  lemma OperatorThenComparison(
    env: Env, a: Expr, t: Token, op: BinOp, b: Expr, t': Token, cmp: CmpOp, c: Expr, k: Stream)
    requires Atom(a) && Atom(b) && Atom(c) && Spells(t, BinText(op)) && Spells(t', CmpText(cmp))
    requires WF(env, a) && WF(env, b) && WF(env, c)
    requires WF(env, ComparedFirst(a, t, op, b, t', cmp, c)) && Follow(k.Kind()) == 0
    ensures Parse(env, OR_LEVEL, PrintBare(env, a, Cons(t, PrintBare(env, b, Cons(t', PrintBare(env, c, k)))))) ==
            Ok(ComparedFirst(a, t, op, b, t', cmp, c), k)
  {
    BinaryToken(op, t);
    CompareToken(cmp, t');
    if IsLogic(op) {
      RightNested(env, ComparedFirst(a, t, op, b, t', cmp, c), Compare(cmp, b, c, t'.at), k);
    } else {
      LeftNested(env, ComparedFirst(a, t, op, b, t', cmp, c), Binary(op, a, b, t.at), k);
    }
    PrintParse(env, ComparedFirst(a, t, op, b, t', cmp, c), OR_LEVEL, k);
  }

  lemma ComparisonThenOperator(
    env: Env, a: Expr, t: Token, cmp: CmpOp, b: Expr, t': Token, op: BinOp, c: Expr, k: Stream)
    requires Atom(a) && Atom(b) && Atom(c) && Spells(t, CmpText(cmp)) && Spells(t', BinText(op))
    requires WF(env, a) && WF(env, b) && WF(env, c)
    requires WF(env, ComparedLast(a, t, cmp, b, t', op, c)) && Follow(k.Kind()) == 0
    ensures Parse(env, OR_LEVEL, PrintBare(env, a, Cons(t, PrintBare(env, b, Cons(t', PrintBare(env, c, k)))))) ==
            Ok(ComparedLast(a, t, cmp, b, t', op, c), k)
  {
    CompareToken(cmp, t);
    BinaryToken(op, t');
    if IsLogic(op) {
      LeftNested(env, ComparedLast(a, t, cmp, b, t', op, c), Compare(cmp, a, b, t.at), k);
    } else {
      RightNested(env, ComparedLast(a, t, cmp, b, t', op, c), Binary(op, b, c, t'.at), k);
    }
    PrintParse(env, ComparedLast(a, t, cmp, b, t', op, c), OR_LEVEL, k);
  }

  function PrefixText(op: UnOp): string {
    if op == Not then "NOT" else "-"
  }

  /** NOT binds tighter than AND and OR; a minus sign tighter than every operator between operands. */
  lemma PrefixThenOperator(env: Env, t: Token, p: UnOp, a: Expr, t': Token, op: BinOp, b: Expr, k: Stream)
    requires Atom(a) && Atom(b) && Spells(t, PrefixText(p)) && Spells(t', BinText(op))
    requires WF(env, a) && WF(env, b) && Follow(k.Kind()) == 0 && (p == Not <==> IsLogic(op))
    requires WF(env, Binary(op, Unary(p, a, t.at), b, t'.at))
    ensures Parse(env, OR_LEVEL, Cons(t, PrintBare(env, a, Cons(t', PrintBare(env, b, k))))) ==
            Ok(Binary(op, Unary(p, a, t.at), b, t'.at), k)
  {
    PrefixTokens(t);
    BinaryToken(op, t');
    PrefixInside(env, Binary(op, Unary(p, a, t.at), b, t'.at), Unary(p, a, t.at), k);
    PrintParse(env, Binary(op, Unary(p, a, t.at), b, t'.at), OR_LEVEL, k);
  }

  /** NOT binds less tight than a comparison, a minus sign tighter. */
  function PrefixCompared(t: Token, p: UnOp, a: Expr, t': Token, cmp: CmpOp, b: Expr): Expr {
    if p == Not then Unary(Not, Compare(cmp, a, b, t'.at), t.at)
    else Compare(cmp, Unary(Negate, a, t.at), b, t'.at)
  }

  lemma PrefixThenComparison(env: Env, t: Token, p: UnOp, a: Expr, t': Token, cmp: CmpOp, b: Expr, k: Stream)
    requires Atom(a) && Atom(b) && Spells(t, PrefixText(p)) && Spells(t', CmpText(cmp))
    requires WF(env, a) && WF(env, b) && Follow(k.Kind()) == 0
    requires WF(env, PrefixCompared(t, p, a, t', cmp, b))
    ensures Parse(env, OR_LEVEL, Cons(t, PrintBare(env, a, Cons(t', PrintBare(env, b, k))))) ==
            Ok(PrefixCompared(t, p, a, t', cmp, b), k)
  {
    PrefixTokens(t);
    CompareToken(cmp, t');
    if p == Not {
      PrefixOutside(env, PrefixCompared(t, p, a, t', cmp, b), Compare(cmp, a, b, t'.at), k);
    } else {
      PrefixInside(env, PrefixCompared(t, p, a, t', cmp, b), Unary(p, a, t.at), k);
    }
    PrintParse(env, PrefixCompared(t, p, a, t', cmp, b), OR_LEVEL, k);
  }

  // ---- abbreviations ----

  /** `x BETWEEN low AND high` is read as `x >= low AND x <= high`. */
  lemma BetweenParse(env: Env, x: Expr, low: Expr, high: Expr, at: Pos, mid: Pos, k: Stream)
    requires WF(env, x) && WF(env, low) && WF(env, high) && Follow(k.Kind()) == 0
    requires TypeOk(env, x, Number) && TypeOk(env, low, Number) && TypeOk(env, high, Number)
    ensures var upper := Cons(Token(AND, "AND", mid), Print(env, high, ADD_LEVEL, k));
            var bounds := Cons(Token(KW_BETWEEN, "BETWEEN", at), Print(env, low, ADD_LEVEL, upper));
            Parse(env, OR_LEVEL, Print(env, x, ADD_LEVEL, bounds)) ==
            Ok(Binary(And, Compare(Ge, x, low, at), Compare(Le, x, high, at), at), k)
  {
    var upper := Cons(Token(AND, "AND", mid), Print(env, high, ADD_LEVEL, k));
    var bounds := Cons(Token(KW_BETWEEN, "BETWEEN", at), Print(env, low, ADD_LEVEL, upper));
    var ts := Print(env, x, ADD_LEVEL, bounds);
    PrintParse(env, high, ADD_LEVEL, k);
    PrintParse(env, low, ADD_LEVEL, upper);
    PrintParse(env, x, ADD_LEVEL, bounds);
    BoundsRead(env, x, low, high, at, Print(env, low, ADD_LEVEL, upper), upper, k);
    BetweenRead(env, x, ts, bounds);
    PrintHead(env, x, ADD_LEVEL, bounds);
    Climb(env, CMP_LEVEL, OR_LEVEL, ts, Between(x, low, high, at), k);
  }

  lemma BetweenRead(env: Env, x: Expr, ts: Stream, rest: Stream)
    requires Parse(env, ADD_LEVEL, ts) == Ok(x, rest) && rest.Cons? && rest.Kind() == KW_BETWEEN
    requires TypeOk(env, x, Number)
    ensures Parse(env, CMP_LEVEL, ts) == Bounds(env, x, rest.hd.at, rest.tl)
  {
    assert CompareTail(env, x, rest) == BetweenTail(env, x, rest);
  }

  lemma BoundsRead(env: Env, x: Expr, low: Expr, high: Expr, at: Pos, ts: Stream, rest: Stream, k: Stream)
    requires Parse(env, ADD_LEVEL, ts) == Ok(low, rest) && rest.Cons? && rest.Kind() == AND
    requires Parse(env, ADD_LEVEL, rest.tl) == Ok(high, k)
    requires TypeOk(env, low, Number) && TypeOk(env, high, Number)
    ensures Bounds(env, x, at, ts) == Ok(Between(x, low, high, at), k)
  {
    assert Operand(env, ADD_LEVEL, Number, ts) == Ok(low, rest);
    assert UpperBound(env, rest) == Ok(high, k);
  }

  /** Parentheses around any expression leave it as it is. */
  lemma SuperfluousParentheses(env: Env, e: Expr, open: Pos, close: Pos, k: Stream)
    requires WF(env, e) && Follow(k.Kind()) == 0
    ensures var inner := Print(env, e, OR_LEVEL, Cons(Token(RPAREN, ")", close), k));
            Parse(env, OR_LEVEL, Cons(Token(LPAREN, "(", open), inner)) == Ok(e, k)
  {
    var rest := Cons(Token(RPAREN, ")", close), k);
    var ts := Cons(Token(LPAREN, "(", open), Print(env, e, OR_LEVEL, rest));
    PrintParse(env, e, OR_LEVEL, rest);
    ParenthesesRead(env, e, ts, rest);
    Climb(env, PRIMARY_LEVEL, OR_LEVEL, ts, e, k);
  }

  lemma ParenthesesRead(env: Env, e: Expr, ts: Stream, rest: Stream)
    requires ts.Cons? && ts.Kind() == LPAREN && rest.Cons? && rest.Kind() == RPAREN
    requires Parse(env, OR_LEVEL, ts.tl) == Ok(e, rest)
    ensures Parse(env, PRIMARY_LEVEL, ts) == Ok(e, rest.tl)
  {
    assert Parse(env, PRIMARY_LEVEL, ts) == ParsePrimary(env, ts);
  }

  /** Names that stand for a call without arguments when written without parentheses. */
  predicate CallByName(env: Env, n: string) {
    n in env.customs || n in env.reg.patterns || (n in env.reg.funcs && env.reg.funcs[n].minArgs == 0)
  }

  predicate Known(env: Env, n: string) {
    (env.v2 && n in env.consts) || n in env.customs || n in env.reg.fields || n in env.reg.patterns ||
    n in env.reg.funcs
  }

  /** A name alone is a visible field or constant; otherwise version 2 reads it as a call without arguments
      where one needs none. A name that is unknown or being defined is a name error. */
  lemma NameAlone(env: Env, n: string, at: Pos, k: Stream)
    requires k.Kind() != LPAREN && n != env.reg.compound.head
    ensures var p := Parse(env, PRIMARY_LEVEL, Cons(Token(IDENT, n, at), k));
            if FieldVisible(env, n) then p == Ok(FieldRef(n, at), k)
            else if env.current == Some(n) || !Known(env, n) then p == Fail(NameError, at)
            else if env.v2 && CallByName(env, n) then p == Ok(FuncCall(n, [], at), k)
            else p == Fail(SyntaxError, at)
  {
    var ts := Cons(Token(IDENT, n, at), k);
    assert Parse(env, PRIMARY_LEVEL, ts) == ParsePrimary(env, ts) == ParseIdent(env, ts.hd, k);
    assert ParseIdent(env, ts.hd, k) == Lift(ResolveName(env, ts.hd), k);
  }
}
