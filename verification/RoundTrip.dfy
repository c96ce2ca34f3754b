/** Which trees the parser can produce, and a printer that undoes it.

    `ParserSound` and `PrintParse` together say that the trees the parser accepts under a name
    environment are exactly the well-formed ones. */
module RoundTrip {
  import opened Common
  import opened Syntax
  import opened Grammar

  // ---- well-formed trees ----

  /** Some number token denotes `v`. */
  ghost predicate Spellable(env: Env, v: real) {
    exists t :: env.reg.numeral(t) == v
  }

  predicate FieldVisible(env: Env, n: string) {
    env.current != Some(n) && ((env.v2 && n in env.consts) || (n !in env.customs && n in env.reg.fields))
  }

  predicate Callable(env: Env, fn: string, n: nat) {
    env.current != Some(fn) &&
    if fn in env.customs || fn in env.reg.patterns then n == 0 else env.reg.ArityOk(fn, n)
  }

  function OperandTypeOf(op: BinOp): Ty {
    if op == And || op == Or then Boolean else Number
  }

  /** Typed operands, resolvable names, admitted argument counts, index in 0..60. */
  ghost predicate WF(env: Env, e: Expr) {
    match e
    case NumberLit(v, _) => Spellable(env, v)
    case BoolLit(_, _) => true
    case StringLit(_, _) => true
    case FieldRef(n, _) => n == env.reg.compound.full || FieldVisible(env, n)
    case FuncCall(fn, args, _) => Callable(env, fn, |args|) && forall a :: a in args ==> WF(env, a)
    case Binary(op, l, r, _) =>
      WF(env, l) && WF(env, r) && TypeOk(env, l, OperandTypeOf(op)) && TypeOk(env, r, OperandTypeOf(op))
    case Unary(op, o, _) => WF(env, o) && TypeOk(env, o, if op == Not then Boolean else Number)
    case Compare(_, l, r, _) => WF(env, l) && WF(env, r) && TypeOk(env, l, Number) && TypeOk(env, r, Number)
    case IndexAccess(b, i, _) => WF(env, b) && 0 <= i <= 60 && Spellable(env, i as real)
  }

  // ---- what the parser accepts is well-formed ----

  lemma {:induction false} ParserSound(env: Env, lvl: nat, ts: Stream)
    requires 1 <= lvl <= 9
    ensures Parse(env, lvl, ts).Ok? ==> WF(env, Parse(env, lvl, ts).value)
    decreases ts.Len(), 10 - lvl, 1
  {
    if IsLoopLevel(lvl) {
      ParserSound(env, lvl + 1, ts);
      var p := Parse(env, lvl + 1, ts);
      if p.Ok? { TailSound(env, lvl, p.value, p.rest); }
    } else if lvl == NOT_LEVEL || lvl == NEG_LEVEL {
      PrefixSound(env, lvl, ts);
    } else if lvl == CMP_LEVEL {
      ParserSound(env, ADD_LEVEL, ts);
      var p := Parse(env, ADD_LEVEL, ts);
      if p.Ok? { CompareSound(env, p.value, p.rest); }
    } else if lvl == INDEX_LEVEL {
      ParserSound(env, PRIMARY_LEVEL, ts);
    } else {
      PrimarySound(env, ts);
    }
  }

  lemma {:induction false} PrefixSound(env: Env, lvl: nat, ts: Stream)
    requires lvl == NOT_LEVEL || lvl == NEG_LEVEL
    ensures ParsePrefix(env, lvl, ts).Ok? ==> WF(env, ParsePrefix(env, lvl, ts).value)
    decreases ts.Len(), 10 - lvl, 0
  {
    if ts.Cons? { ParserSound(env, lvl, ts.tl); }
    ParserSound(env, lvl + 1, ts);
  }

  lemma {:induction false} TailSound(env: Env, lvl: nat, left: Expr, ts: Stream)
    requires IsLoopLevel(lvl) && WF(env, left)
    ensures Tail(env, lvl, left, ts).Ok? ==> WF(env, Tail(env, lvl, left, ts).value)
    decreases ts.Len(), 0
  {
    var op := LoopOp(lvl, ts.Kind());
    if op != None && TypeOk(env, left, OperandType(lvl)) {
      ParserSound(env, lvl + 1, ts.tl);
      var p := Operand(env, lvl + 1, OperandType(lvl), ts.tl);
      if p.Ok? {
        TailSound(env, lvl, Binary(op.value, left, p.value, ts.hd.at), p.rest);
      }
    }
  }

  lemma {:induction false} CompareSound(env: Env, left: Expr, ts: Stream)
    requires WF(env, left)
    ensures CompareTail(env, left, ts).Ok? ==> WF(env, CompareTail(env, left, ts).value)
    decreases ts.Len(), 1
  {
    if ts.Kind() == KW_BETWEEN {
      BetweenSound(env, left, ts);
    } else if CmpOf(ts.Kind()) != None {
      ParserSound(env, ADD_LEVEL, ts.tl);
    }
  }

  lemma {:induction false} BetweenSound(env: Env, left: Expr, ts: Stream)
    requires WF(env, left) && ts.Cons?
    ensures BetweenTail(env, left, ts).Ok? ==> WF(env, BetweenTail(env, left, ts).value)
    decreases ts.Len(), 0
  {
    ParserSound(env, ADD_LEVEL, ts.tl);
    var p := Operand(env, ADD_LEVEL, Number, ts.tl);
    if p.Ok? {
      UpperBoundSound(env, p.rest);
      var q := UpperBound(env, p.rest);
      if q.Ok? && TypeOk(env, left, Number) { BetweenWF(env, left, p.value, q.value, ts.hd.at); }
    }
  }

  lemma BetweenWF(env: Env, e: Expr, low: Expr, high: Expr, at: Pos)
    requires WF(env, e) && WF(env, low) && WF(env, high)
    requires TypeOk(env, e, Number) && TypeOk(env, low, Number) && TypeOk(env, high, Number)
    ensures WF(env, Between(e, low, high, at))
  {
    assert WF(env, Compare(Ge, e, low, at)) && WF(env, Compare(Le, e, high, at));
  }

  lemma {:induction false} UpperBoundSound(env: Env, ts: Stream)
    ensures var p := UpperBound(env, ts); p.Ok? ==> WF(env, p.value) && TypeOk(env, p.value, Number)
    decreases ts.Len(), 0
  {
    if ts.Kind() == AND && ts.Cons? {
      ParserSound(env, ADD_LEVEL, ts.tl);
    }
  }

  lemma {:induction false} PrimarySound(env: Env, ts: Stream)
    ensures ParsePrimary(env, ts).Ok? ==> WF(env, ParsePrimary(env, ts).value)
    decreases ts.Len(), 0
  {
    if ts.Kind() == NUMBER {
      assert Spellable(env, env.reg.numeral(ts.hd.text));
    } else if ts.Kind() == LPAREN {
      ParserSound(env, OR_LEVEL, ts.tl);
    } else if ts.Kind() == IDENT {
      IdentSound(env, ts.hd, ts.tl);
      assert ParsePrimary(env, ts) == ParseIdent(env, ts.hd, ts.tl);
    }
  }

  lemma {:induction false} IdentSound(env: Env, name: Token, ts: Stream)
    ensures ParseIdent(env, name, ts).Ok? ==> WF(env, ParseIdent(env, name, ts).value)
    decreases ts.Len(), 20
  {
    if ts.Kind() == LPAREN {
      ArgsSound(env, [], ts.tl);
    }
  }

  lemma {:induction false} ArgsSound(env: Env, read: seq<Expr>, ts: Stream)
    requires forall a :: a in read ==> WF(env, a)
    ensures ParseArgs(env, read, ts).Ok? ==> forall a :: a in ParseArgs(env, read, ts).value ==> WF(env, a)
    decreases ts.Len(), 15
  {
    ParserSound(env, OR_LEVEL, ts);
    var p := Parse(env, OR_LEVEL, ts);
    if p.Ok? && p.rest.Kind() == COMMA {
      ArgsSound(env, read + [p.value], p.rest.tl);
    }
  }

  // ---- printing ----

  ghost function Spelling(env: Env, v: real): string
    requires Spellable(env, v)
    ensures env.reg.numeral(Spelling(env, v)) == v
  {
    var t :| env.reg.numeral(t) == v;
    t
  }

  function Prec(e: Expr): (p: nat)
    ensures 1 <= p <= 9
  {
    match e
    case Binary(op, _, _, _) =>
      (match op
       case Or => OR_LEVEL
       case And => AND_LEVEL
       case Plus => ADD_LEVEL
       case Minus => ADD_LEVEL
       case Times => MUL_LEVEL
       case Divide => MUL_LEVEL)
    case Unary(op, _, _) => if op == Not then NOT_LEVEL else NEG_LEVEL
    case Compare(_, _, _, _) => CMP_LEVEL
    case IndexAccess(_, _, _) => INDEX_LEVEL
    case _ => PRIMARY_LEVEL
  }

  function OpToken(op: BinOp, at: Pos): Token {
    match op
    case Or => Token(OR, "OR", at)
    case And => Token(AND, "AND", at)
    case Plus => Token(PLUS, "+", at)
    case Minus => Token(MINUS, "-", at)
    case Times => Token(STAR, "*", at)
    case Divide => Token(SLASH, "/", at)
  }

  function CmpToken(op: CmpOp, at: Pos): Token {
    match op
    case Gt => Token(GT, ">", at)
    case Ge => Token(GE, ">=", at)
    case Lt => Token(LT, "<", at)
    case Le => Token(LE, "<=", at)
    case Eq => Token(EQ, "==", at)
    case Ne => Token(NE, "!=", at)
  }

  /** The tokens of `e` as an operand of level `lvl`, in parentheses only if needed, then `k`. */
  ghost function Print(env: Env, e: Expr, lvl: nat, k: Stream): Stream
    requires WF(env, e)
    decreases e, 1
  {
    if Prec(e) < lvl then
      Cons(Token(LPAREN, "(", e.at), PrintBare(env, e, Cons(Token(RPAREN, ")", e.at), k)))
    else
      PrintBare(env, e, k)
  }

  ghost function PrintBare(env: Env, e: Expr, k: Stream): Stream
    requires WF(env, e)
    decreases e, 0
  {
    match e
    case NumberLit(v, at) => Cons(Token(NUMBER, Spelling(env, v), at), k)
    case BoolLit(b, at) => Cons(Token(BOOL_LIT, if b then "true" else "false", at), k)
    case StringLit(s, at) => Cons(Token(STRING, s, at), k)
    case FieldRef(n, at) =>
      var c := env.reg.compound;
      if n == c.full then Cons(Token(IDENT, c.head, at), Cons(Token(IDENT, c.suffix, at), k))
      else Cons(Token(IDENT, n, at), k)
    case FuncCall(fn, args, at) =>
      Cons(Token(IDENT, fn, at), Cons(Token(LPAREN, "(", at), PrintArgs(env, args, Cons(Token(RPAREN, ")", at), k))))
    case Binary(op, l, r, at) => Print(env, l, Prec(e), Cons(OpToken(op, at), Print(env, r, Prec(e) + 1, k)))
    case Compare(op, l, r, at) => Print(env, l, ADD_LEVEL, Cons(CmpToken(op, at), Print(env, r, ADD_LEVEL, k)))
    case Unary(op, o, at) =>
      Cons(if op == Not then Token(NOT, "NOT", at) else Token(MINUS, "-", at), Print(env, o, Prec(e), k))
    case IndexAccess(b, i, at) =>
      Print(env, b, PRIMARY_LEVEL, Cons(Token(LBRACKET, "[", at),
        Cons(Token(NUMBER, Spelling(env, i as real), at), Cons(Token(RBRACKET, "]", at), k))))
  }

  ghost function PrintArgs(env: Env, args: seq<Expr>, k: Stream): Stream
    requires forall a :: a in args ==> WF(env, a)
    decreases args, 0
  {
    if args == [] then k
    else Print(env, args[0], OR_LEVEL,
               if |args| == 1 then k else Cons(Token(COMMA, ",", args[0].at), PrintArgs(env, args[1..], k)))
  }

  // ---- parsing undoes printing ----

  /** The highest level whose operator or continuation a token of this kind is. */
  function Follow(k: Kind): nat {
    match k
    case OR => OR_LEVEL
    case AND => AND_LEVEL
    case GT => CMP_LEVEL
    case GE => CMP_LEVEL
    case LT => CMP_LEVEL
    case LE => CMP_LEVEL
    case EQ => CMP_LEVEL
    case NE => CMP_LEVEL
    case KW_BETWEEN => CMP_LEVEL
    case PLUS => ADD_LEVEL
    case MINUS => ADD_LEVEL
    case STAR => MUL_LEVEL
    case SLASH => MUL_LEVEL
    case LBRACKET => INDEX_LEVEL
    case LPAREN => PRIMARY_LEVEL
    case IDENT => PRIMARY_LEVEL
    case _ => 0
  }

  lemma {:induction false} PrintHead(env: Env, e: Expr, lvl: nat, k: Stream)
    requires WF(env, e)
    ensures lvl > NOT_LEVEL ==> Print(env, e, lvl, k).Kind() != NOT
    ensures lvl > NEG_LEVEL ==> Print(env, e, lvl, k).Kind() != MINUS
    ensures Print(env, e, lvl, k).Kind() != RPAREN
    decreases e
  {
    if Prec(e) >= lvl {
      match e
      case Binary(op, l, r, at) => PrintHead(env, l, Prec(e), Cons(OpToken(op, at), Print(env, r, Prec(e) + 1, k)));
      case Compare(op, l, r, at) => PrintHead(env, l, ADD_LEVEL, Cons(CmpToken(op, at), Print(env, r, ADD_LEVEL, k)));
      case IndexAccess(b, i, at) =>
          PrintHead(env, b, PRIMARY_LEVEL, Cons(Token(LBRACKET, "[", at),
          Cons(Token(NUMBER, Spelling(env, i as real), at), Cons(Token(RBRACKET, "]", at), k))));
      case _ =>
    }
  }

  lemma ClimbOne(env: Env, lvl: nat, ts: Stream, e: Expr, k: Stream)
    requires 1 <= lvl < 9 && Parse(env, lvl + 1, ts) == Ok(e, k)
    requires Follow(k.Kind()) < lvl
    requires lvl == NOT_LEVEL ==> ts.Kind() != NOT
    requires lvl == NEG_LEVEL ==> ts.Kind() != MINUS
    ensures Parse(env, lvl, ts) == Ok(e, k)
  {
    if IsLoopLevel(lvl) {
      assert LoopOp(lvl, k.Kind()) == None;
    } else if lvl == CMP_LEVEL {
      CmpFollow(k.Kind());
    }
  }

  /** A tree parsed at a tight level is parsed at every looser level that the next token does not extend. */
  lemma {:induction false} Climb(env: Env, from: nat, lvl: nat, ts: Stream, e: Expr, k: Stream)
    requires 1 <= lvl <= from <= 9
    requires Parse(env, from, ts) == Ok(e, k)
    requires Follow(k.Kind()) < lvl
    requires from > NOT_LEVEL ==> ts.Kind() != NOT || lvl > NOT_LEVEL
    requires from > NEG_LEVEL ==> ts.Kind() != MINUS || lvl > NEG_LEVEL
    ensures Parse(env, lvl, ts) == Ok(e, k)
    decreases from - lvl
  {
    if from > lvl {
      ClimbOne(env, from - 1, ts, e, k);
      Climb(env, from - 1, lvl, ts, e, k);
    }
  }

  lemma ParenthesizedParse(env: Env, e: Expr, lvl: nat, k: Stream)
    requires 1 <= lvl <= 9 && WF(env, e) && Prec(e) < lvl
    requires var close := Cons(Token(RPAREN, ")", e.at), k);
             Parse(env, OR_LEVEL, Print(env, e, OR_LEVEL, close)) == Ok(e, close)
    ensures var ts := Print(env, e, lvl, k);
            ts.Cons? && ts.hd.kind == LPAREN && Parse(env, PRIMARY_LEVEL, ts) == Ok(e, k)
  {
    var ts := Print(env, e, lvl, k);
    assert Parse(env, PRIMARY_LEVEL, ts) == ParsePrimary(env, ts);
  }

  lemma {:induction false} PrintParse(env: Env, e: Expr, lvl: nat, k: Stream)
    requires 1 <= lvl <= 9 && WF(env, e)
    requires Follow(k.Kind()) < lvl
    ensures Parse(env, lvl, Print(env, e, lvl, k)) == Ok(e, k)
    decreases e, if Prec(e) < lvl then 3 else 2
  {
    var ts := Print(env, e, lvl, k);
    if Prec(e) < lvl {
      var close := Cons(Token(RPAREN, ")", e.at), k);
      PrintParse(env, e, OR_LEVEL, close);
      ParenthesizedParse(env, e, lvl, k);
      Climb(env, PRIMARY_LEVEL, lvl, ts, e, k);
    } else {
      BareParse(env, e, k);
      PrintHead(env, e, Prec(e), k);
      Climb(env, Prec(e), lvl, ts, e, k);
    }
  }

  /** At its own level a printed tree is parsed back; at a loop level the loop then goes on. */
  lemma {:induction false} BareParse(env: Env, e: Expr, k: Stream)
    requires WF(env, e)
    requires Follow(k.Kind()) < Prec(e) || (IsLoopLevel(Prec(e)) && Follow(k.Kind()) == Prec(e))
    ensures Parse(env, Prec(e), PrintBare(env, e, k)) ==
            if IsLoopLevel(Prec(e)) then Tail(env, Prec(e), e, k) else Ok(e, k)
    decreases e, 1
  {
    match e
    case Binary(op, l, r, at) => BinaryParse(env, e, k);
    case Compare(op, l, r, at) => CompareParse(env, e, k);
    case Unary(op, o, at) => PrefixParse(env, e, k);
    case IndexAccess(b, i, at) => IndexParse(env, e, k);
    case FuncCall(fn, args, at) => CallParse(env, e, k);
    case _ => AtomParse(env, e, k);
  }

  lemma {:induction false} IndexParse(env: Env, e: Expr, k: Stream)
    requires WF(env, e) && e.IndexAccess?
    requires Follow(k.Kind()) < Prec(e)
    ensures Parse(env, Prec(e), PrintBare(env, e, k)) == Ok(e, k)
    decreases e, 0
  {
    PrintParse(env, e.base, PRIMARY_LEVEL, Cons(Token(LBRACKET, "[", e.at),
      Cons(Token(NUMBER, Spelling(env, e.index as real), e.at), Cons(Token(RBRACKET, "]", e.at), k))));
  }

  lemma {:induction false} AtomParse(env: Env, e: Expr, k: Stream)
    requires WF(env, e) && (e.NumberLit? || e.BoolLit? || e.StringLit? || e.FieldRef?)
    requires Follow(k.Kind()) < PRIMARY_LEVEL
    ensures Parse(env, PRIMARY_LEVEL, PrintBare(env, e, k)) == Ok(e, k)
  {
    var ts := PrintBare(env, e, k);
    assert Parse(env, PRIMARY_LEVEL, ts) == ParsePrimary(env, ts);
    if e.FieldRef? {
      assert ParsePrimary(env, ts) == ParseIdent(env, ts.hd, ts.tl);
      if e.name != env.reg.compound.full {
        assert ParseIdent(env, ts.hd, k) == Lift(ResolveName(env, ts.hd), k);
      }
    } else if e.BoolLit? {
      assert |"true"| != |"false"|;
    }
    assert ParsePrimary(env, ts) == Ok(e, k);
  }

  lemma {:induction false} PrefixParse(env: Env, e: Expr, k: Stream)
    requires WF(env, e) && e.Unary?
    requires Follow(k.Kind()) < Prec(e)
    ensures ParsePrefix(env, Prec(e), PrintBare(env, e, k)) == Ok(e, k)
    decreases e, 0
  {
    PrintParse(env, e.operand, Prec(e), k);
  }

  lemma {:induction false} BinaryParse(env: Env, e: Expr, k: Stream)
    requires WF(env, e) && e.Binary?
    requires Follow(k.Kind()) <= Prec(e)
    ensures Parse(env, Prec(e), PrintBare(env, e, k)) == Tail(env, Prec(e), e, k)
    decreases e, 0
  {
    var lvl := Prec(e);
    var tail := Cons(OpToken(e.op, e.at), Print(env, e.right, lvl + 1, k));
    OpTokenKind(e);
    LoopEntry(env, e.left, lvl, tail);
    PrintParse(env, e.right, lvl + 1, k);
    TailStep(env, e, k);
  }

  lemma TailStep(env: Env, e: Expr, k: Stream)
    requires WF(env, e) && e.Binary?
    requires var lvl := Prec(e); Parse(env, lvl + 1, Print(env, e.right, lvl + 1, k)) == Ok(e.right, k)
    ensures var lvl := Prec(e);
            Tail(env, lvl, e.left, Cons(OpToken(e.op, e.at), Print(env, e.right, lvl + 1, k))) == Tail(env, lvl, e, k)
  {
    OpTokenKind(e);
    var lvl := Prec(e);
    assert Operand(env, lvl + 1, OperandType(lvl), Print(env, e.right, lvl + 1, k)) == Ok(e.right, k);
  }

  lemma OpTokenKind(e: Expr)
    requires e.Binary?
    ensures var t := OpToken(e.op, e.at);
            IsLoopLevel(Prec(e)) && LoopOp(Prec(e), t.kind) == Some(e.op) && t.at == e.at &&
            Follow(t.kind) == Prec(e) && OperandType(Prec(e)) == OperandTypeOf(e.op)
  {
  }

  lemma {:induction false} CompareParse(env: Env, e: Expr, k: Stream)
    requires WF(env, e) && e.Compare?
    requires Follow(k.Kind()) < CMP_LEVEL
    ensures Parse(env, CMP_LEVEL, PrintBare(env, e, k)) == Ok(e, k)
    decreases e, 0
  {
    var tail := Cons(CmpToken(e.cmp, e.at), Print(env, e.right, ADD_LEVEL, k));
    CmpTokenKind(e.cmp, e.at);
    PrintParse(env, e.left, ADD_LEVEL, tail);
    PrintParse(env, e.right, ADD_LEVEL, k);
    assert CompareTail(env, e.left, tail) == Ok(e, k) by { CmpFollow(k.Kind()); }
  }

  lemma CmpTokenKind(op: CmpOp, at: Pos)
    ensures var t := CmpToken(op, at);
            t.at == at && CmpOf(t.kind) == Some(op) && Follow(t.kind) == CMP_LEVEL && t.kind != KW_BETWEEN
  {
  }

  lemma CmpFollow(k: Kind)
    requires Follow(k) < CMP_LEVEL
    ensures CmpOf(k) == None
  {
  }

  /** A printed argument list, empty or not, is parsed back. */
  lemma {:induction false} CallArgsParse(env: Env, args: seq<Expr>, at: Pos, k: Stream)
    requires forall a :: a in args ==> WF(env, a)
    ensures CallArgs(env, PrintArgs(env, args, Cons(Token(RPAREN, ")", at), k))) == Ok(args, k)
    decreases args, 1
  {
    var close := Cons(Token(RPAREN, ")", at), k);
    if args != [] {
      ArgsParse(env, [], args, at, k);
      assert [] + args == args;
      PrintHead(env, args[0], OR_LEVEL,
                if |args| == 1 then close else Cons(Token(COMMA, ",", args[0].at), PrintArgs(env, args[1..], close)));
    }
  }

  lemma CallResolves(env: Env, e: Expr)
    requires WF(env, e) && e.FuncCall?
    ensures ResolveCall(env, Token(IDENT, e.fn, e.at), e.args) == Success(e)
  {
  }

  lemma {:induction false} CallParse(env: Env, e: Expr, k: Stream)
    requires WF(env, e) && e.FuncCall?
    requires Follow(k.Kind()) < PRIMARY_LEVEL
    ensures Parse(env, PRIMARY_LEVEL, PrintBare(env, e, k)) == Ok(e, k)
    decreases e, 0
  {
    var ts := PrintBare(env, e, k);
    assert Parse(env, PRIMARY_LEVEL, ts) == ParsePrimary(env, ts) == ParseIdent(env, ts.hd, ts.tl);
    CallArgsParse(env, e.args, e.at, k);
    CallResolves(env, e);
    assert ts.hd == Token(IDENT, e.fn, e.at) && ts.tl.Kind() == LPAREN;
  }

  lemma {:induction false} ArgsParse(env: Env, read: seq<Expr>, args: seq<Expr>, at: Pos, k: Stream)
    requires args != [] && forall a :: a in args ==> WF(env, a)
    ensures ParseArgs(env, read, PrintArgs(env, args, Cons(Token(RPAREN, ")", at), k))) == Ok(read + args, k)
    decreases args, 0
  {
    var close := Cons(Token(RPAREN, ")", at), k);
    if |args| == 1 {
      PrintParse(env, args[0], OR_LEVEL, close);
      assert args == [args[0]];
    } else {
      PrintParse(env, args[0], OR_LEVEL, Cons(Token(COMMA, ",", args[0].at), PrintArgs(env, args[1..], close)));
      ArgsParse(env, read + [args[0]], args[1..], at, k);
      assert read + [args[0]] + args[1..] == read + args;
    }
  }

  lemma {:induction false} LoopEntry(env: Env, e: Expr, lvl: nat, k: Stream)
    requires IsLoopLevel(lvl) && WF(env, e)
    requires Follow(k.Kind()) <= lvl
    ensures Parse(env, lvl, Print(env, e, lvl, k)) == Tail(env, lvl, e, k)
    decreases e, 5
  {
    if Prec(e) == lvl {
      BareParse(env, e, k);
    } else {
      PrintParse(env, e, lvl + 1, k);
    }
  }

  /** The trees the parser can produce under some names are exactly the well-formed ones. */
  lemma ExactlyWellFormed(env: Env, e: Expr)
    ensures WF(env, e) <==> exists ts: Stream, k: Stream :: Parse(env, OR_LEVEL, ts) == Ok(e, k)
  {
    if WF(env, e) {
      var k := Eof(e.at);
      PrintParse(env, e, OR_LEVEL, k);
    }
    forall ts: Stream, k: Stream | Parse(env, OR_LEVEL, ts) == Ok(e, k)
      ensures WF(env, e)
    {
      ParserSound(env, OR_LEVEL, ts);
    }
  }
}
