/** Which errors the parser reports, and where: operands of a wrong type, chained comparisons, indices out of
    range, names defined twice, scripts without rules or blocks. */
module ErrorLaws {
  import opened Common
  import opened Syntax
  import opened Grammar
  import opened ScriptGrammar
  import opened RoundTrip
  import opened ScriptRoundTrip
  import opened SurfaceForms

  /** An error at a tight level is the error of every looser level. */
  lemma {:induction false} ErrorClimbs(env: Env, from: nat, lvl: nat, ts: Stream, error: ParseError)
    requires 1 <= lvl <= from <= 9 && Parse(env, from, ts) == Bad(error)
    requires ts.Kind() != NOT && ts.Kind() != MINUS
    ensures Parse(env, lvl, ts) == Bad(error)
    decreases from - lvl
  {
    if from > lvl {
      ErrorOneUp(env, from - 1, ts, error);
      ErrorClimbs(env, from - 1, lvl, ts, error);
    }
  }

  lemma ErrorOneUp(env: Env, lvl: nat, ts: Stream, error: ParseError)
    requires 1 <= lvl < 9 && Parse(env, lvl + 1, ts) == Bad(error) && ts.Kind() != NOT && ts.Kind() != MINUS
    ensures Parse(env, lvl, ts) == Bad(error)
  {
  }

  lemma AtomRead(env: Env, a: Expr, lvl: nat, k: Stream)
    requires Atom(a) && WF(env, a) && 1 <= lvl <= 9 && Follow(k.Kind()) < lvl
    ensures Parse(env, lvl, PrintBare(env, a, k)) == Ok(a, k)
    ensures PrintBare(env, a, k).Kind() != NOT && PrintBare(env, a, k).Kind() != MINUS
  {
    PrintParse(env, a, lvl, k);
    AtomPrint(env, a, lvl, k);
  }

  /** The left operand of an operator has a wrong type. */
  lemma LeftTypeError(env: Env, a: Expr, t: Token, op: BinOp, k: Stream)
    requires Atom(a) && WF(env, a) && Spells(t, BinText(op))
    requires !TypeOk(env, a, if IsLogic(op) then Boolean else Number)
    ensures Parse(env, OR_LEVEL, PrintBare(env, a, Cons(t, k))) == Fail(TypeError, a.at)
  {
    BinaryToken(op, t);
    OperatorLevel(op, t);
    var lvl, ts := LevelOf(op), PrintBare(env, a, Cons(t, k));
    AtomRead(env, a, lvl + 1, Cons(t, k));
    TailTypeError(env, lvl, op, ts, a, Cons(t, k));
    ErrorClimbs(env, lvl, OR_LEVEL, ts, ParseError(TypeError, a.at));
  }

  function LevelOf(op: BinOp): nat {
    match op
    case Or => OR_LEVEL
    case And => AND_LEVEL
    case Plus => ADD_LEVEL
    case Minus => ADD_LEVEL
    case Times => MUL_LEVEL
    case Divide => MUL_LEVEL
  }

  lemma OperatorLevel(op: BinOp, t: Token)
    requires t == OpToken(op, t.at)
    ensures IsLoopLevel(LevelOf(op)) && LoopOp(LevelOf(op), t.kind) == Some(op) && Follow(t.kind) == LevelOf(op)
    ensures OperandType(LevelOf(op)) == if IsLogic(op) then Boolean else Number
  {
  }

  lemma TailTypeError(env: Env, lvl: nat, op: BinOp, ts: Stream, a: Expr, rest: Stream)
    requires IsLoopLevel(lvl) && Parse(env, lvl + 1, ts) == Ok(a, rest)
    requires LoopOp(lvl, rest.Kind()) == Some(op) && !TypeOk(env, a, OperandType(lvl))
    ensures Parse(env, lvl, ts) == Fail(TypeError, a.at)
  {
  }

  /** The right operand of an operator has a wrong type. */
  lemma RightTypeError(env: Env, a: Expr, t: Token, op: BinOp, b: Expr, k: Stream)
    requires Atom(a) && WF(env, a) && Atom(b) && WF(env, b) && Spells(t, BinText(op)) && Follow(k.Kind()) == 0
    requires var ty := if IsLogic(op) then Boolean else Number; TypeOk(env, a, ty) && !TypeOk(env, b, ty)
    ensures Parse(env, OR_LEVEL, PrintBare(env, a, Cons(t, PrintBare(env, b, k)))) == Fail(TypeError, b.at)
  {
    BinaryToken(op, t);
    OperatorLevel(op, t);
    var lvl, rest := LevelOf(op), Cons(t, PrintBare(env, b, k));
    AtomRead(env, a, lvl + 1, rest);
    AtomRead(env, b, lvl + 1, k);
    TailRightError(env, lvl, op, PrintBare(env, a, rest), a, rest, b, k);
    ErrorClimbs(env, lvl, OR_LEVEL, PrintBare(env, a, rest), ParseError(TypeError, b.at));
  }

  lemma TailRightError(env: Env, lvl: nat, op: BinOp, ts: Stream, a: Expr, rest: Stream, b: Expr, k: Stream)
    requires IsLoopLevel(lvl) && Parse(env, lvl + 1, ts) == Ok(a, rest) && rest.Cons?
    requires LoopOp(lvl, rest.Kind()) == Some(op) && TypeOk(env, a, OperandType(lvl))
    requires Parse(env, lvl + 1, rest.tl) == Ok(b, k) && !TypeOk(env, b, OperandType(lvl))
    ensures Parse(env, lvl, ts) == Fail(TypeError, b.at)
  {
    assert Operand(env, lvl + 1, OperandType(lvl), rest.tl) == Fail(TypeError, b.at);
  }

  /** Comparisons do not chain. */
  lemma ChainedComparison(env: Env, a: Expr, t: Token, cmp: CmpOp, b: Expr, t': Token, cmp': CmpOp, k: Stream)
    requires Atom(a) && WF(env, a) && Atom(b) && WF(env, b) && Spells(t, CmpText(cmp)) && Spells(t', CmpText(cmp'))
    requires TypeOk(env, a, Number) && TypeOk(env, b, Number)
    ensures Parse(env, OR_LEVEL, PrintBare(env, a, Cons(t, PrintBare(env, b, Cons(t', k))))) == Fail(SyntaxError, t'.at)
  {
    CompareToken(cmp, t);
    CompareToken(cmp', t');
    CmpTokenKind(cmp, t.at);
    CmpTokenKind(cmp', t'.at);
    var rest := Cons(t, PrintBare(env, b, Cons(t', k)));
    AtomRead(env, a, ADD_LEVEL, rest);
    AtomRead(env, b, ADD_LEVEL, Cons(t', k));
    CompareChain(env, PrintBare(env, a, rest), a, rest, b, Cons(t', k));
    ErrorClimbs(env, CMP_LEVEL, OR_LEVEL, PrintBare(env, a, rest), ParseError(SyntaxError, t'.at));
  }

  lemma CompareChain(env: Env, ts: Stream, a: Expr, rest: Stream, b: Expr, k: Stream)
    requires Parse(env, ADD_LEVEL, ts) == Ok(a, rest) && rest.Cons? && CmpOf(rest.Kind()) != None
    requires Parse(env, ADD_LEVEL, rest.tl) == Ok(b, k) && CmpOf(k.Kind()) != None && rest.Kind() != KW_BETWEEN
    requires TypeOk(env, a, Number) && TypeOk(env, b, Number)
    ensures Parse(env, CMP_LEVEL, ts) == Fail(SyntaxError, k.At())
  {
    assert Operand(env, ADD_LEVEL, Number, rest.tl) == Ok(b, k);
    assert CompareTail(env, a, rest) == Fail(SyntaxError, k.At());
  }

  /** An operand of a comparison has a wrong type. */
  lemma ComparedTypeError(env: Env, a: Expr, t: Token, cmp: CmpOp, k: Stream)
    requires Atom(a) && WF(env, a) && Spells(t, CmpText(cmp)) && !TypeOk(env, a, Number)
    ensures Parse(env, OR_LEVEL, PrintBare(env, a, Cons(t, k))) == Fail(TypeError, a.at)
  {
    CompareToken(cmp, t);
    CmpTokenKind(cmp, t.at);
    AtomRead(env, a, ADD_LEVEL, Cons(t, k));
    CompareLeft(env, PrintBare(env, a, Cons(t, k)), a, Cons(t, k));
    ErrorClimbs(env, CMP_LEVEL, OR_LEVEL, PrintBare(env, a, Cons(t, k)), ParseError(TypeError, a.at));
  }

  lemma CompareLeft(env: Env, ts: Stream, a: Expr, rest: Stream)
    requires Parse(env, ADD_LEVEL, ts) == Ok(a, rest) && CmpOf(rest.Kind()) != None && rest.Kind() != KW_BETWEEN
    requires !TypeOk(env, a, Number)
    ensures Parse(env, CMP_LEVEL, ts) == Fail(TypeError, a.at)
  {
  }

  /** What may be an operand of AND, OR and NOT: comparisons, logic, and calls and names that say so. */
  predicate Says(env: Env, e: Expr) {
    match e
    case BoolLit(_, _) => true
    case Compare(_, _, _, _) => true
    case Binary(op, _, _, _) => op in {And, Or}
    case Unary(op, _, _) => op == Not
    case FuncCall(fn, _, _) =>
      if fn in env.customs then env.customs[fn] == Boolean
      else fn in env.reg.patterns || (fn in env.reg.funcs && env.reg.funcs[fn].ret == Boolean)
    case IndexAccess(b, _, _) => Says(env, b)
    case _ => false
  }

  /** What may be an operand of arithmetic and comparisons. */
  predicate Counts(env: Env, e: Expr) {
    match e
    case NumberLit(_, _) => true
    case FieldRef(_, _) => true
    case Binary(op, _, _, _) => op !in {And, Or}
    case Unary(op, _, _) => op == Negate
    case FuncCall(fn, _, _) =>
      if fn in env.customs then env.customs[fn] == Number
      else fn !in env.reg.patterns && fn in env.reg.funcs && env.reg.funcs[fn].ret == Number
    case IndexAccess(b, _, _) => Counts(env, b)
    case _ => false
  }

  /** Calls of which nothing is known. */
  predicate Untyped(env: Env, e: Expr) {
    match e
    case FuncCall(fn, _, _) =>
      if fn in env.customs then env.customs[fn] == Unknown
      else fn !in env.reg.patterns && (fn in env.reg.funcs ==> env.reg.funcs[fn].ret == Unknown)
    case IndexAccess(b, _, _) => Untyped(env, b)
    case _ => false
  }

  /** The type check, by the shape of the operand. A definition's name has the type of its body. */
  lemma {:induction false} OperandTypes(env: Env, e: Expr)
    ensures TypeOk(env, e, Boolean) <==> Says(env, e) || Untyped(env, e)
    ensures TypeOk(env, e, Number) <==> Counts(env, e) || Untyped(env, e)
  {
    if e.IndexAccess? {
      OperandTypes(env, e.base);
    }
  }

  lemma DefinitionType(env: Env, f: FuncDef)
    ensures var next := Define(env, Function(f));
            && f.name in next.customs && next.customs.Keys == env.customs.Keys + {f.name}
            && (forall n :: n in env.customs && n != f.name ==> next.customs[n] == env.customs[n])
            && (next.customs[f.name] == Boolean <==> Says(env, f.body))
            && (next.customs[f.name] == Number <==> Counts(env, f.body))
  {
    BodyType(env, f.body);
  }

  lemma {:induction false} BodyType(env: Env, e: Expr)
    ensures InferType(env.reg, env.customs, e) == Boolean <==> Says(env, e)
    ensures InferType(env.reg, env.customs, e) == Number <==> Counts(env, e)
  {
    if e.IndexAccess? {
      BodyType(env, e.base);
    }
  }

  /** Which calls resolve: the name of the definition being read never does; custom functions and patterns take
      no arguments; built-ins as many as they say, any number if their maximum is negative. */
  lemma CallResolution(env: Env, name: Token, args: seq<Expr>)
    ensures var r, fn := ResolveCall(env, name, args), name.text;
            var plain := fn in env.customs || fn in env.reg.patterns;
            if env.current == Some(fn) || (!plain && fn !in env.reg.funcs)
            then r == Failure(ParseError(NameError, name.at))
            else if (plain && args != []) ||
                    (!plain && var spec := env.reg.funcs[fn];
                     spec.maxArgs >= 0 && (|args| < spec.minArgs || |args| > spec.maxArgs))
            then r == Failure(ParseError(SyntaxError, name.at))
            else r == Success(FuncCall(fn, args, name.at))
  {
  }

  /** An index is a whole number from 0 to 60. */
  lemma IndexOutOfRange(env: Env, a: Expr, open: Pos, n: Token, k: Stream)
    requires Atom(a) && WF(env, a) && n.kind == NUMBER
    requires var v := env.reg.numeral(n.text); v < 0.0 || v > 60.0 || v != v.Floor as real
    ensures Parse(env, OR_LEVEL, PrintBare(env, a, Cons(Token(LBRACKET, "[", open), Cons(n, k)))) ==
            Fail(SyntaxError, n.at)
  {
    var rest := Cons(Token(LBRACKET, "[", open), Cons(n, k));
    AtomRead(env, a, PRIMARY_LEVEL, rest);
    IndexError(env, PrintBare(env, a, rest), a, rest);
    ErrorClimbs(env, INDEX_LEVEL, OR_LEVEL, PrintBare(env, a, rest), ParseError(SyntaxError, n.at));
  }

  lemma IndexError(env: Env, ts: Stream, a: Expr, rest: Stream)
    requires Parse(env, PRIMARY_LEVEL, ts) == Ok(a, rest) && rest.Kind() == LBRACKET && rest.Cons? && rest.tl.Cons?
    requires rest.tl.Kind() == NUMBER && IndexOf(env.reg.numeral(rest.tl.hd.text)) == None
    ensures Parse(env, INDEX_LEVEL, ts) == Fail(SyntaxError, rest.tl.hd.at)
  {
    assert IndexTail(env, a, rest) == IndexEnd(env, a, rest.hd.at, rest.tl.hd, rest.tl.tl);
  }

  // ---- scripts ----

  /** A name is defined once, as a constant or a function. */
  lemma DefinedTwice(env: Env, acc: ScriptV2, name: Token, k: Stream)
    requires name.kind == IDENT && (name.text in env.customs || name.text in env.consts)
    requires k.Kind() == ASSIGN || AtFuncDef(Cons(name, k))
    ensures RuleItem(env, acc, Cons(name, k)) == Fail(NameError, name.at)
  {
    assert ParseDefinition(env, Cons(name, k)) == Fail(NameError, name.at);
  }

  /** In version 1 a function is defined once, a block written once, and nothing else is a statement. */
  lemma WrittenTwice(env: Env, d: Draft, t: Token, k: Stream)
    ensures AtFuncDef(Cons(t, k)) && t.text in env.customs ==> ScriptItem(env, d, Cons(t, k)) == Fail(NameError, t.at)
    ensures t.kind == KW_BUY && d.buy.Some? ==> ScriptItem(env, d, Cons(t, k)) == Fail(SyntaxError, t.at)
    ensures t.kind == KW_SELL && d.sell.Some? ==> ScriptItem(env, d, Cons(t, k)) == Fail(SyntaxError, t.at)
    ensures t.kind != KW_BUY && t.kind != KW_SELL && !AtFuncDef(Cons(t, k)) ==>
              ScriptItem(env, d, Cons(t, k)) == Fail(SyntaxError, t.at)
  {
  }

  /** A version 2 script has a rule or a block. */
  lemma NoRules(reg: Registry, items: seq<Item>, end: Pos)
    requires ItemsOk(StartEnv(reg, true), items) && AddAll(EMPTY_SCRIPT, items).rules == []
    ensures ParseScriptV2(reg, PrintItems(StartEnv(reg, true), items, end)) == Fail(SyntaxError, end)
  {
    PrintStart(StartEnv(reg, true), items, end);
    ItemsParse(StartEnv(reg, true), EMPTY_SCRIPT, items, end);
  }

  /** A version 1 script has a block of each kind. */
  lemma MissingBlock(reg: Registry, items: seq<Item>, end: Pos)
    requires DraftOk(StartEnv(reg, false), EMPTY_DRAFT, items) && ItemsOk(StartEnv(reg, false), items)
    requires Finished(AddDrafts(EMPTY_DRAFT, items)) == None
    ensures ParseScript(reg, PrintItems(StartEnv(reg, false), items, end)) == Fail(SyntaxError, end)
  {
    PrintStart(StartEnv(reg, false), items, end);
    DraftParse(StartEnv(reg, false), EMPTY_DRAFT, items, end);
  }
}
