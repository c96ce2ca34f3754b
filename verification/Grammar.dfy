/** The rule language's grammar as a function of the token stream: which tree, or which error,
    the recursive-descent parser produces, and what it leaves unread. */
module Grammar {
  import opened Common
  import opened Syntax

  datatype ErrorKind = SyntaxError | NameError | TypeError

  datatype ParseError = ParseError(kind: ErrorKind, at: Pos)

  /** Outcome of a parsing step: a value and the unread stream, or an error. */
  datatype Parsed<+T> = Ok(value: T, rest: Stream) | Bad(error: ParseError) {
    predicate IsFailure() {
      Bad?
    }

    function PropagateFailure<U>(): Parsed<U>
      requires Bad?
    {
      Bad(error)
    }

    function Extract(): (T, Stream)
      requires Ok?
    {
      (value, rest)
    }
  }

  function Fail<T>(kind: ErrorKind, at: Pos): Parsed<T> {
    Bad(ParseError(kind, at))
  }

  /** What name resolution depends on: earlier custom functions with their types, the function
      being defined, the language version and the declared constants. */
  datatype Env = Env(reg: Registry, customs: map<string, Ty>, current: Option<string>, v2: bool, consts: set<string>)

  // ---- types ----

  function InferType(reg: Registry, customs: map<string, Ty>, e: Expr): Ty {
    match e
    case NumberLit(_, _) => Number
    case BoolLit(_, _) => Boolean
    case StringLit(_, _) => Text
    case FieldRef(_, _) => Number
    case IndexAccess(base, _, _) => InferType(reg, customs, base)
    case Compare(_, _, _, _) => Boolean
    case Binary(op, _, _, _) => if op == And || op == Or then Boolean else Number
    case Unary(op, _, _) => if op == Not then Boolean else Number
    case FuncCall(fn, _, _) =>
      if fn in customs then customs[fn]
      else if fn in reg.patterns then Boolean
      else if fn in reg.funcs then reg.funcs[fn].ret
      else Unknown
  }

  predicate TypeOk(env: Env, e: Expr, expected: Ty) {
    var actual := InferType(env.reg, env.customs, e);
    actual == Unknown || actual == expected
  }

  // ---- operators ----

  const OR_LEVEL := 1
  const AND_LEVEL := 2
  const NOT_LEVEL := 3
  const CMP_LEVEL := 4
  const ADD_LEVEL := 5
  const MUL_LEVEL := 6
  const NEG_LEVEL := 7
  const INDEX_LEVEL := 8
  const PRIMARY_LEVEL := 9

  /** The levels parsed as a loop over left-associative operators. */
  predicate IsLoopLevel(lvl: nat) {
    lvl == OR_LEVEL || lvl == AND_LEVEL || lvl == ADD_LEVEL || lvl == MUL_LEVEL
  }

  function LoopOp(lvl: nat, k: Kind): Option<BinOp> {
    match k
    case OR => if lvl == OR_LEVEL then Some(Or) else None
    case AND => if lvl == AND_LEVEL then Some(And) else None
    case PLUS => if lvl == ADD_LEVEL then Some(Plus) else None
    case MINUS => if lvl == ADD_LEVEL then Some(Minus) else None
    case STAR => if lvl == MUL_LEVEL then Some(Times) else None
    case SLASH => if lvl == MUL_LEVEL then Some(Divide) else None
    case _ => None
  }

  function OperandType(lvl: nat): Ty {
    if lvl <= NOT_LEVEL then Boolean else Number
  }

  function CmpOf(k: Kind): Option<CmpOp> {
    match k
    case GT => Some(Gt)
    case GE => Some(Ge)
    case LT => Some(Lt)
    case LE => Some(Le)
    case EQ => Some(Eq)
    case NE => Some(Ne)
    case _ => None
  }

  // ---- expressions ----

  function Expect(k: Kind, ts: Stream): (r: Parsed<Token>)
    ensures r.Ok? ==> r.value.kind == k && r.rest.Len() < ts.Len()
  {
    if ts.Cons? && ts.hd.kind == k then Ok(ts.hd, ts.tl) else Fail(SyntaxError, ts.At())
  }

  function Parse(env: Env, lvl: nat, ts: Stream): (r: Parsed<Expr>)
    requires 1 <= lvl <= 9
    ensures r.Ok? ==> r.rest.Len() < ts.Len()
    decreases ts.Len(), 10 - lvl, 1
  {
    if IsLoopLevel(lvl) then
      var (left, rest) :- Parse(env, lvl + 1, ts);
      Tail(env, lvl, left, rest)
    else if lvl == NOT_LEVEL || lvl == NEG_LEVEL then
      ParsePrefix(env, lvl, ts)
    else if lvl == CMP_LEVEL then
      var (left, rest) :- Parse(env, ADD_LEVEL, ts);
      CompareTail(env, left, rest)
    else if lvl == INDEX_LEVEL then
      var (base, rest) :- Parse(env, PRIMARY_LEVEL, ts);
      IndexTail(env, base, rest)
    else
      ParsePrimary(env, ts)
  }

  /** The prefix levels: any number of NOTs, or of minus signs, then the next level. */
  function ParsePrefix(env: Env, lvl: nat, ts: Stream): (r: Parsed<Expr>)
    requires lvl == NOT_LEVEL || lvl == NEG_LEVEL
    ensures r.Ok? ==> r.rest.Len() < ts.Len()
    decreases ts.Len(), 10 - lvl, 0
  {
    if ts.Cons? && ts.Kind() == (if lvl == NOT_LEVEL then NOT else MINUS) then
      var (operand, rest) :- Operand(env, lvl, OperandType(lvl), ts.tl);
      Ok(Unary(if lvl == NOT_LEVEL then Not else Negate, operand, ts.hd.at), rest)
    else Parse(env, lvl + 1, ts)
  }

  /** A tree of level `lvl` whose type must be `expected`. */
  function Operand(env: Env, lvl: nat, expected: Ty, ts: Stream): (r: Parsed<Expr>)
    requires 1 <= lvl <= 9
    ensures r.Ok? ==> r.rest.Len() < ts.Len()
    decreases ts.Len(), 10 - lvl, 2
  {
    var (e, rest) :- Parse(env, lvl, ts);
    if !TypeOk(env, e, expected) then Fail(TypeError, e.at) else Ok(e, rest)
  }

  /** The loop of a left-associative level, entered with its left operand. */
  function Tail(env: Env, lvl: nat, left: Expr, ts: Stream): (r: Parsed<Expr>)
    requires IsLoopLevel(lvl)
    ensures r.Ok? ==> r.rest.Len() <= ts.Len()
    decreases ts.Len(), 0
  {
    var op := LoopOp(lvl, ts.Kind());
    if op == None then Ok(left, ts)
    else if !TypeOk(env, left, OperandType(lvl)) then Fail(TypeError, left.at)
    else
      var (right, rest) :- Operand(env, lvl + 1, OperandType(lvl), ts.tl);
      Tail(env, lvl, Binary(op.value, left, right, ts.hd.at), rest)
  }

  /** An optional BETWEEN or comparison after the left operand; comparisons do not chain. */
  function CompareTail(env: Env, left: Expr, ts: Stream): (r: Parsed<Expr>)
    ensures r.Ok? ==> r.rest.Len() <= ts.Len()
    decreases ts.Len(), 1
  {
    if ts.Kind() == KW_BETWEEN then BetweenTail(env, left, ts)
    else
      var op := CmpOf(ts.Kind());
      if op == None then Ok(left, ts)
      else if !TypeOk(env, left, Number) then Fail(TypeError, left.at)
      else
        var (right, rest) :- Operand(env, ADD_LEVEL, Number, ts.tl);
        if CmpOf(rest.Kind()) != None then Fail(SyntaxError, rest.At())
        else Ok(Compare(op.value, left, right, ts.hd.at), rest)
  }

  /** `left BETWEEN low AND high` is read as `left >= low AND left <= high`. */
  function BetweenTail(env: Env, left: Expr, ts: Stream): (r: Parsed<Expr>)
    requires ts.Cons?
    ensures r.Ok? ==> r.rest.Len() <= ts.Len()
    decreases ts.Len(), 0
  {
    if !TypeOk(env, left, Number) then Fail(TypeError, left.at)
    else
      Bounds(env, left, ts.hd.at, ts.tl)
  }

  function Bounds(env: Env, left: Expr, at: Pos, ts: Stream): (r: Parsed<Expr>)
    ensures r.Ok? ==> r.rest.Len() <= ts.Len()
    decreases ts.Len(), 20
  {
    var (low, rest) :- Operand(env, ADD_LEVEL, Number, ts);
    var (high, rest') :- UpperBound(env, rest);
    Ok(Between(left, low, high, at), rest')
  }

  function UpperBound(env: Env, ts: Stream): (r: Parsed<Expr>)
    ensures r.Ok? ==> r.rest.Len() < ts.Len()
    decreases ts.Len(), 0
  {
    var (_, rest) :- Expect(AND, ts);
    Operand(env, ADD_LEVEL, Number, rest)
  }

  function Between(e: Expr, low: Expr, high: Expr, at: Pos): Expr {
    Binary(And, Compare(Ge, e, low, at), Compare(Le, e, high, at), at)
  }

  /** At most one `[N]` after a primary. */
  function IndexTail(env: Env, base: Expr, ts: Stream): (r: Parsed<Expr>)
    ensures r.Ok? ==> r.rest.Len() <= ts.Len()
  {
    if ts.Kind() != LBRACKET then Ok(base, ts)
    else
      var (tok, rest) :- Expect(NUMBER, ts.tl);
      IndexEnd(env, base, ts.hd.at, tok, rest)
  }

  function IndexEnd(env: Env, base: Expr, at: Pos, tok: Token, ts: Stream): (r: Parsed<Expr>)
    ensures r.Ok? ==> r.rest.Len() <= ts.Len()
  {
    var i := IndexOf(env.reg.numeral(tok.text));
    if i == None then Fail(SyntaxError, tok.at)
    else
      var (_, rest) :- Expect(RBRACKET, ts);
      Ok(IndexAccess(base, i.value, at), rest)
  }

  /** Only whole numbers from 0 to 60 are bar offsets. */
  function IndexOf(n: real): (i: Option<int>)
    ensures i.Some? <==> 0.0 <= n <= 60.0 && n == n.Floor as real
    ensures i.Some? ==> 0 <= i.value <= 60 && i.value as real == n
  {
    var t := Truncate(n);
    if t as real == n && 0 <= t <= 60 then Some(t) else None
  }

  function ParsePrimary(env: Env, ts: Stream): (r: Parsed<Expr>)
    ensures r.Ok? ==> r.rest.Len() < ts.Len()
    decreases ts.Len(), 0
  {
    match ts.Kind()
    case NUMBER => Ok(NumberLit(env.reg.numeral(ts.hd.text), ts.hd.at), ts.tl)
    case STRING => Ok(StringLit(ts.hd.text, ts.hd.at), ts.tl)
    case BOOL_LIT => Ok(BoolLit(ts.hd.text == "true", ts.hd.at), ts.tl)
    case LPAREN =>
      var (e, rest) :- Parse(env, OR_LEVEL, ts.tl);
      var (_, rest') :- Expect(RPAREN, rest);
      Ok(e, rest')
    case IDENT => ParseIdent(env, ts.hd, ts.tl)
    case _ => Fail(SyntaxError, ts.At())
  }

  /** An identifier already read: a two-word field, a call, or a bare name. */
  function ParseIdent(env: Env, name: Token, ts: Stream): (r: Parsed<Expr>)
    ensures r.Ok? ==> r.rest.Len() <= ts.Len()
    decreases ts.Len(), 20
  {
    if name.text == env.reg.compound.head && ts.Kind() == IDENT && ts.hd.text == env.reg.compound.suffix then
      Ok(FieldRef(env.reg.compound.full, name.at), ts.tl)
    else if ts.Kind() == LPAREN then
      var (args, rest) :- CallArgs(env, ts.tl);
      Lift(ResolveCall(env, name, args), rest)
    else
      Lift(ResolveName(env, name), ts)
  }

  /** Arguments up to and including the closing parenthesis. */
  function CallArgs(env: Env, ts: Stream): (r: Parsed<seq<Expr>>)
    ensures r.Ok? ==> r.rest.Len() < ts.Len()
    decreases ts.Len(), 16
  {
    if ts.Cons? && ts.Kind() == RPAREN then Ok([], ts.tl) else ParseArgs(env, [], ts)
  }

  /** One or more further arguments and the closing parenthesis, after the arguments `read`. */
  function ParseArgs(env: Env, read: seq<Expr>, ts: Stream): (r: Parsed<seq<Expr>>)
    ensures r.Ok? ==> r.rest.Len() < ts.Len()
    decreases ts.Len(), 15
  {
    var (e, rest) :- Parse(env, OR_LEVEL, ts);
    MoreArgs(env, read + [e], rest)
  }

  function MoreArgs(env: Env, read: seq<Expr>, ts: Stream): (r: Parsed<seq<Expr>>)
    ensures r.Ok? ==> r.rest.Len() < ts.Len()
    decreases ts.Len(), 16
  {
    if ts.Kind() == COMMA then ParseArgs(env, read, ts.tl)
    else
      var (_, rest) :- Expect(RPAREN, ts);
      Ok(read, rest)
  }

  /** Resolution of `name(args)`: custom function, then pattern, then built-in function. */
  function ResolveCall(env: Env, name: Token, args: seq<Expr>): Result<Expr, ParseError> {
    var fn := name.text;
    if env.current == Some(fn) then Failure(ParseError(NameError, name.at))
    else if fn in env.customs || fn in env.reg.patterns then
      if args != [] then Failure(ParseError(SyntaxError, name.at)) else Success(FuncCall(fn, [], name.at))
    else if fn in env.reg.funcs then
      if !env.reg.ArityOk(fn, |args|) then Failure(ParseError(SyntaxError, name.at))
      else Success(FuncCall(fn, args, name.at))
    else Failure(ParseError(NameError, name.at))
  }

  /** Resolution of a name without parentheses, which differs between the language versions. */
  function ResolveName(env: Env, name: Token): Result<Expr, ParseError> {
    var n := name.text;
    if env.current == Some(n) then Failure(ParseError(NameError, name.at))
    else if env.v2 then
      if n in env.consts then Success(FieldRef(n, name.at))
      else if n in env.customs then Success(FuncCall(n, [], name.at))
      else if n in env.reg.fields then Success(FieldRef(n, name.at))
      else if n in env.reg.patterns then Success(FuncCall(n, [], name.at))
      else if n in env.reg.funcs then
        if env.reg.funcs[n].minArgs == 0 then Success(FuncCall(n, [], name.at))
        else Failure(ParseError(SyntaxError, name.at))
      else Failure(ParseError(NameError, name.at))
    else
      if n in env.customs then Failure(ParseError(SyntaxError, name.at))
      else if n in env.reg.fields then Success(FieldRef(n, name.at))
      else if n in env.reg.patterns || n in env.reg.funcs then Failure(ParseError(SyntaxError, name.at))
      else Failure(ParseError(NameError, name.at))
  }

  function Lift<T>(r: Result<T, ParseError>, rest: Stream): Parsed<T> {
    match r
    case Success(v) => Ok(v, rest)
    case Failure(e) => Bad(e)
  }
}
