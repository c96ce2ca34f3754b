/** The recursive-descent parser: one method per grammar level over a token array index. Each method
    is proved to compute what the grammar says and to stay inside the token list. */
module RecursiveDescent {
  import opened Common
  import opened Syntax
  import opened Grammar
  import opened ScriptGrammar

  predicate EndsWithEof(tokens: seq<Token>) {
    tokens != [] && tokens[|tokens| - 1].kind == EOF
  }

  type TokenList = ts: seq<Token> | EndsWithEof(ts) witness [Token(EOF, "", Pos(0, 0))]

  /** The tokens from index `p` on, as a stream. */
  function StreamFrom(tokens: TokenList, p: nat): (s: Stream)
    requires p < |tokens|
    ensures s.Kind() == tokens[p].kind && s.At() == tokens[p].at
    ensures s.Len() == |tokens| - 1 - p
    decreases |tokens| - p
  {
    if p == |tokens| - 1 then Eof(tokens[p].at) else Cons(tokens[p], StreamFrom(tokens, p + 1))
  }

  lemma FuncDefItem(env: Env, d: Draft, ts: Stream)
    requires AtFuncDef(ts)
    ensures ScriptItem(env, d, ts) ==
            match ParseFuncDef(env, ts)
            case Ok(def, rest) => Ok((Declare(env, def), d.(funcs := d.funcs + [def])), rest)
            case Bad(e) => Bad(e)
  {
  }

  lemma DefinitionItem(env: Env, acc: ScriptV2, ts: Stream)
    requires AtDefinition(ts)
    ensures RuleItem(env, acc, ts) ==
            match ParseDefinition(env, ts)
            case Ok(d, rest) => Ok((Define(env, d), AddDefinition(acc, d)), rest)
            case Bad(e) => Bad(e)
  {
  }

  class Parser {
    const reg: Registry
    const tokens: TokenList
    var pos: nat
    var customs: map<string, Ty>
    var current: Option<string>
    var v2: bool
    var consts: set<string>

    constructor (reg: Registry, tokens: TokenList)
      ensures Valid() && Rest() == StreamFrom(tokens, 0) && this.tokens == tokens
      ensures Names() == StartEnv(reg, false)
    {
      this.reg, this.tokens := reg, tokens;
      pos, customs, current, v2, consts := 0, map[], None, false, {};
    }

    ghost predicate Valid()
      reads this`pos
    {
      pos < |tokens|
    }

    ghost function Rest(): Stream
      requires Valid()
      reads this`pos
    {
      StreamFrom(tokens, pos)
    }

    function Names(): Env
      reads this`customs, this`current, this`v2, this`consts
    {
      Env(reg, customs, current, v2, consts)
    }

    /** The outcome `r`, and the position reached, are what the grammar says. */
    ghost predicate Yields<T>(r: Result<T, ParseError>, spec: Parsed<T>)
      requires Valid()
      reads this`pos
    {
      match spec
      case Ok(v, rest) => r == Success(v) && Rest() == rest
      case Bad(e) => r == Failure(e)
    }

    function Peek(): Token
      requires Valid()
      reads this`pos
    {
      tokens[pos]
    }

    predicate At(k: Kind)
      reads this`pos
    {
      pos < |tokens| && tokens[pos].kind == k
    }

    method Advance() returns (tok: Token)
      requires Valid() && !At(EOF)
      modifies this`pos
      ensures Valid() && pos == old(pos) + 1
      ensures old(Rest()).Cons? && tok == old(Rest()).hd && Rest() == old(Rest()).tl
    {
      tok := tokens[pos];
      pos := pos + 1;
    }

    method ExpectToken(k: Kind) returns (r: Result<Token, ParseError>)
      requires Valid() && k != EOF
      modifies this`pos
      ensures Valid() && Yields(r, Expect(k, old(Rest())))
    {
      if !At(k) {
        return Failure(ParseError(SyntaxError, Peek().at));
      }
      var tok := Advance();
      return Success(tok);
    }

    method CheckType(e: Expr, expected: Ty) returns (r: Result<(), ParseError>)
      requires Valid()
      ensures r == if TypeOk(Names(), e, expected) then Success(()) else Failure(ParseError(TypeError, e.at))
    {
      var actual := InferType(reg, customs, e);
      if actual != Unknown && actual != expected {
        return Failure(ParseError(TypeError, e.at));
      }
      return Success(());
    }

    method ParseExpression() returns (r: Result<Expr, ParseError>)
      requires Valid()
      modifies this`pos
      ensures Valid() && Yields(r, old(Parse(Names(), OR_LEVEL, Rest())))
      decreases Rest().Len(), 10
    {
      r := ParseOr();
    }

    /** The method of a level, followed by the type check its operator makes on the result. */
    method ParseOperand(lvl: nat, expected: Ty) returns (r: Result<Expr, ParseError>)
      requires Valid() && 1 <= lvl <= 7 && lvl != CMP_LEVEL
      modifies this`pos
      ensures Valid() && Yields(r, old(Operand(Names(), lvl, expected, Rest())))
      decreases Rest().Len(), 11
    {
      if lvl == OR_LEVEL {
        r := ParseExpression();
      } else if lvl == AND_LEVEL {
        r := ParseAnd();
      } else if lvl == NOT_LEVEL {
        r := ParseNot();
      } else if lvl == ADD_LEVEL {
        r := ParseAdditive();
      } else if lvl == MUL_LEVEL {
        r := ParseMultiplicative();
      } else {
        r := ParseUnary();
      }
      if r.Success? {
        var _ :- CheckType(r.value, expected);
      }
    }

    method ParseOr() returns (r: Result<Expr, ParseError>)
      requires Valid()
      modifies this`pos
      ensures Valid() && Yields(r, old(Parse(Names(), OR_LEVEL, Rest())))
      decreases Rest().Len(), 9
    {
      var left :- ParseAnd();
      while LoopOp(OR_LEVEL, Peek().kind) != None
        invariant Valid()
        invariant old(Parse(Names(), OR_LEVEL, Rest())) == Tail(Names(), OR_LEVEL, left, Rest())
        invariant Rest().Len() < old(Rest().Len())
        decreases Rest().Len()
      {
        var op := Advance();
        var _ :- CheckType(left, Boolean);
        var right :- ParseOperand(AND_LEVEL, Boolean);
        left := Binary(LoopOp(OR_LEVEL, op.kind).value, left, right, op.at);
      }
      return Success(left);
    }

    method ParseAnd() returns (r: Result<Expr, ParseError>)
      requires Valid()
      modifies this`pos
      ensures Valid() && Yields(r, old(Parse(Names(), AND_LEVEL, Rest())))
      decreases Rest().Len(), 8
    {
      var left :- ParseNot();
      while LoopOp(AND_LEVEL, Peek().kind) != None
        invariant Valid()
        invariant old(Parse(Names(), AND_LEVEL, Rest())) == Tail(Names(), AND_LEVEL, left, Rest())
        invariant Rest().Len() < old(Rest().Len())
        decreases Rest().Len()
      {
        var op := Advance();
        var _ :- CheckType(left, Boolean);
        var right :- ParseOperand(NOT_LEVEL, Boolean);
        left := Binary(LoopOp(AND_LEVEL, op.kind).value, left, right, op.at);
      }
      return Success(left);
    }

    method ParseNot() returns (r: Result<Expr, ParseError>)
      requires Valid()
      modifies this`pos
      ensures Valid() && Yields(r, old(Parse(Names(), NOT_LEVEL, Rest())))
      decreases Rest().Len(), 7
    {
      assert old(Parse(Names(), NOT_LEVEL, Rest())) == old(ParsePrefix(Names(), NOT_LEVEL, Rest()));
      if At(NOT) {
        var op := Advance();
        var operand :- ParseOperand(NOT_LEVEL, Boolean);
        return Success(Unary(Not, operand, op.at));
      }
      r := ParseComparison();
    }

    method ParseComparison() returns (r: Result<Expr, ParseError>)
      requires Valid()
      modifies this`pos
      ensures Valid() && Yields(r, old(Parse(Names(), CMP_LEVEL, Rest())))
      decreases Rest().Len(), 6
    {
      var left :- ParseAdditive();
      assert old(Parse(Names(), CMP_LEVEL, Rest())) == CompareTail(Names(), left, Rest());
      if At(KW_BETWEEN) {
        r := ParseBetween(left);
        return;
      }
      var cmp := CmpOf(Peek().kind);
      if cmp == None {
        return Success(left);
      }
      var op := Advance();
      var _ :- CheckType(left, Number);
      var right :- ParseOperand(ADD_LEVEL, Number);
      if CmpOf(Peek().kind) != None {
        return Failure(ParseError(SyntaxError, Peek().at));
      }
      return Success(Compare(cmp.value, left, right, op.at));
    }

    method ParseBetween(left: Expr) returns (r: Result<Expr, ParseError>)
      requires Valid() && At(KW_BETWEEN)
      modifies this`pos
      ensures Valid() && Yields(r, old(BetweenTail(Names(), left, Rest())))
      decreases Rest().Len(), 6
    {
      var op := Advance();
      var _ :- CheckType(left, Number);
      r := ParseBounds(left, op.at);
    }

    method ParseBounds(left: Expr, at: Pos) returns (r: Result<Expr, ParseError>)
      requires Valid()
      modifies this`pos
      ensures Valid() && Yields(r, old(Bounds(Names(), left, at, Rest())))
      decreases Rest().Len(), 12
    {
      var low :- ParseOperand(ADD_LEVEL, Number);
      var high :- ParseUpperBound();
      return Success(Between(left, low, high, at));
    }

    method ParseUpperBound() returns (r: Result<Expr, ParseError>)
      requires Valid()
      modifies this`pos
      ensures Valid() && Yields(r, old(UpperBound(Names(), Rest())))
      decreases Rest().Len(), 6
    {
      var _ :- ExpectToken(AND);
      r := ParseOperand(ADD_LEVEL, Number);
    }

    method ParseAdditive() returns (r: Result<Expr, ParseError>)
      requires Valid()
      modifies this`pos
      ensures Valid() && Yields(r, old(Parse(Names(), ADD_LEVEL, Rest())))
      decreases Rest().Len(), 5
    {
      var left :- ParseMultiplicative();
      while LoopOp(ADD_LEVEL, Peek().kind) != None
        invariant Valid()
        invariant old(Parse(Names(), ADD_LEVEL, Rest())) == Tail(Names(), ADD_LEVEL, left, Rest())
        invariant Rest().Len() < old(Rest().Len())
        decreases Rest().Len()
      {
        var op := Advance();
        var _ :- CheckType(left, Number);
        var right :- ParseOperand(MUL_LEVEL, Number);
        left := Binary(LoopOp(ADD_LEVEL, op.kind).value, left, right, op.at);
      }
      return Success(left);
    }

    method ParseMultiplicative() returns (r: Result<Expr, ParseError>)
      requires Valid()
      modifies this`pos
      ensures Valid() && Yields(r, old(Parse(Names(), MUL_LEVEL, Rest())))
      decreases Rest().Len(), 4
    {
      var left :- ParseUnary();
      while LoopOp(MUL_LEVEL, Peek().kind) != None
        invariant Valid()
        invariant old(Parse(Names(), MUL_LEVEL, Rest())) == Tail(Names(), MUL_LEVEL, left, Rest())
        invariant Rest().Len() < old(Rest().Len())
        decreases Rest().Len()
      {
        var op := Advance();
        var _ :- CheckType(left, Number);
        var right :- ParseOperand(NEG_LEVEL, Number);
        left := Binary(LoopOp(MUL_LEVEL, op.kind).value, left, right, op.at);
      }
      return Success(left);
    }

    method ParseUnary() returns (r: Result<Expr, ParseError>)
      requires Valid()
      modifies this`pos
      ensures Valid() && Yields(r, old(Parse(Names(), NEG_LEVEL, Rest())))
      decreases Rest().Len(), 3
    {
      assert old(Parse(Names(), NEG_LEVEL, Rest())) == old(ParsePrefix(Names(), NEG_LEVEL, Rest()));
      if At(MINUS) {
        var op := Advance();
        var operand :- ParseOperand(NEG_LEVEL, Number);
        return Success(Unary(Negate, operand, op.at));
      }
      r := ParsePostfix();
    }

    method ParsePostfix() returns (r: Result<Expr, ParseError>)
      requires Valid()
      modifies this`pos
      ensures Valid() && Yields(r, old(Parse(Names(), INDEX_LEVEL, Rest())))
      decreases Rest().Len(), 2
    {
      var node :- ParsePrimaryNode();
      if At(LBRACKET) {
        r := ParseIndex(node);
        return;
      }
      return Success(node);
    }

    method ParseIndex(base: Expr) returns (r: Result<Expr, ParseError>)
      requires Valid() && At(LBRACKET)
      modifies this`pos
      ensures Valid() && Yields(r, old(IndexTail(Names(), base, Rest())))
    {
      var bracket := Advance();
      var tok :- ExpectToken(NUMBER);
      r := ParseIndexEnd(base, bracket.at, tok);
    }

    method ParseIndexEnd(base: Expr, at: Pos, tok: Token) returns (r: Result<Expr, ParseError>)
      requires Valid()
      modifies this`pos
      ensures Valid() && Yields(r, old(IndexEnd(Names(), base, at, tok, Rest())))
    {
      var i := IndexOf(reg.numeral(tok.text));
      if i == None {
        return Failure(ParseError(SyntaxError, tok.at));
      }
      var _ :- ExpectToken(RBRACKET);
      return Success(IndexAccess(base, i.value, at));
    }

    method ParsePrimaryNode() returns (r: Result<Expr, ParseError>)
      requires Valid()
      modifies this`pos
      ensures Valid() && Yields(r, old(Parse(Names(), PRIMARY_LEVEL, Rest())))
      decreases Rest().Len(), 1
    {
      assert old(Parse(Names(), PRIMARY_LEVEL, Rest())) == old(ParsePrimary(Names(), Rest()));
      var tok := Peek();
      if tok.kind == NUMBER {
        tok := Advance();
        return Success(NumberLit(reg.numeral(tok.text), tok.at));
      }
      if tok.kind == STRING {
        tok := Advance();
        return Success(StringLit(tok.text, tok.at));
      }
      if tok.kind == BOOL_LIT {
        tok := Advance();
        return Success(BoolLit(tok.text == "true", tok.at));
      }
      if tok.kind == LPAREN {
        tok := Advance();
        var e :- ParseExpression();
        var _ :- ExpectToken(RPAREN);
        return Success(e);
      }
      if tok.kind == IDENT {
        tok := Advance();
        r := ParseIdentifier(tok);
        return;
      }
      return Failure(ParseError(SyntaxError, tok.at));
    }

    method ParseIdentifier(name: Token) returns (r: Result<Expr, ParseError>)
      requires Valid()
      modifies this`pos
      ensures Valid() && Yields(r, old(ParseIdent(Names(), name, Rest())))
      decreases Rest().Len(), 20
    {
      var compound := reg.compound;
      if name.text == compound.head && At(IDENT) && Peek().text == compound.suffix {
        var _ := Advance();
        return Success(FieldRef(compound.full, name.at));
      }
      if At(LPAREN) {
        var _ := Advance();
        var args :- ParseArguments();
        return ResolveCall(Names(), name, args);
      }
      return ResolveName(Names(), name);
    }

    method ParseArguments() returns (r: Result<seq<Expr>, ParseError>)
      requires Valid()
      modifies this`pos
      ensures Valid() && Yields(r, old(CallArgs(Names(), Rest())))
      decreases Rest().Len(), 15
    {
      if At(RPAREN) {
        var _ := Advance();
        return Success([]);
      }
      var first :- ParseExpression();
      var args := [first];
      assert [] + [first] == args;
      while At(COMMA)
        invariant Valid()
        invariant old(ParseArgs(Names(), [], Rest())) == MoreArgs(Names(), args, Rest())
        invariant Rest().Len() < old(Rest().Len())
        decreases Rest().Len()
      {
        var _ := Advance();
        var e :- ParseExpression();
        args := args + [e];
      }
      var _ :- ExpectToken(RPAREN);
      return Success(args);
    }

    // ---- statements ----

    method SkipBlankLines()
      requires Valid()
      modifies this`pos
      ensures Valid() && Rest() == SkipNewlines(old(Rest()))
    {
      while At(NEWLINE)
        invariant Valid() && SkipNewlines(Rest()) == SkipNewlines(old(Rest()))
        decreases Rest().Len()
      {
        var _ := Advance();
      }
    }

    method ExpectTerminator() returns (r: Result<(), ParseError>)
      requires Valid()
      modifies this`pos
      ensures Valid() && Yields(r, Terminator((), old(Rest())))
    {
      if At(NEWLINE) {
        var _ := Advance();
        SkipBlankLines();
      } else if !At(EOF) {
        return Failure(ParseError(SyntaxError, Peek().at));
      }
      return Success(());
    }

    /** `매수: e` or `매도: e`. */
    method ParseBlockBody() returns (r: Result<Expr, ParseError>)
      requires Valid() && !At(EOF)
      modifies this`pos
      ensures Valid() && Yields(r, old(ParseBlock(Names(), Rest())))
    {
      var _ := Advance();
      var _ :- ExpectToken(COLON);
      r := ParseBlockExpr();
    }

    method ParseBlockExpr() returns (r: Result<Expr, ParseError>)
      requires Valid()
      modifies this`pos
      ensures Valid() && Yields(r, old(BlockExpr(Names(), Rest())))
    {
      var e :- ParseOperand(OR_LEVEL, Boolean);
      var _ :- ExpectTerminator();
      return Success(e);
    }

    /** The kind of the token `i` places ahead, EOF past the end. */
    function Look(i: nat): Kind
      reads this`pos
    {
      if pos + i < |tokens| then tokens[pos + i].kind else EOF
    }

    /** Lookahead for `name ( ) =`. */
    predicate IsFuncDef()
      reads this`pos
    {
      Look(0) == IDENT && Look(1) == LPAREN && Look(2) == RPAREN && Look(3) == ASSIGN
    }

    lemma LookNext()
      requires Valid()
      ensures Rest().Cons? ==> Look(1) == Rest().tl.Kind()
      ensures Rest().Eof? ==> Look(1) == EOF
    {
    }

    lemma LookFuncDef()
      requires Valid()
      ensures IsFuncDef() == AtFuncDef(Rest())
    {
      var s := Rest();
      if s.Cons? {
        assert s.tl == StreamFrom(tokens, pos + 1);
        if s.tl.Cons? {
          assert s.tl.tl == StreamFrom(tokens, pos + 2);
          if s.tl.tl.Cons? {
            assert s.tl.tl.tl == StreamFrom(tokens, pos + 3);
          }
        }
      }
    }

    /** An expression in which the name being defined is not visible. */
    method ParseOwnBody(name: Token) returns (r: Result<Expr, ParseError>)
      requires Valid() && current == None
      modifies this`pos, this`current
      ensures Valid() && Yields(r, old(Parse(Names().(current := Some(name.text)), OR_LEVEL, Rest())))
      ensures r.Success? ==> current == None
    {
      current := Some(name.text);
      r := ParseExpression();
      if r.Success? {
        current := None;
      }
    }

    /** The right-hand side of a custom function, which then becomes visible. */
    method ParseFuncBody(name: Token) returns (r: Result<FuncDef, ParseError>)
      requires Valid() && current == None
      modifies this`pos, this`customs, this`current
      ensures Valid() && Yields(r, old(ParseBody(Names(), name, Rest())))
      ensures r.Success? ==> Names() == Declare(old(Names()), r.value)
    {
      var body :- ParseOwnBody(name);
      var def := FuncDef(name.text, body, name.at);
      customs := Declare(Names(), def).customs;
      var _ :- ExpectTerminator();
      return Success(def);
    }

    /** The `( ) =` already seen by the lookahead. */
    method SkipThree()
      requires Valid() && Rest().Kind() == LPAREN && Rest().tl.Kind() == RPAREN && Rest().tl.tl.Kind() == ASSIGN
      modifies this`pos
      ensures Valid() && Rest() == old(Rest()).tl.tl.tl
    {
      var _ := Advance();
      var _ := Advance();
      var _ := Advance();
    }

    method ParseCustomFuncDef() returns (r: Result<FuncDef, ParseError>)
      requires Valid() && current == None && AtFuncDef(Rest())
      modifies this`pos, this`customs, this`current
      ensures Valid() && Yields(r, old(ParseFuncDef(Names(), Rest())))
      ensures r.Success? ==> Names() == Declare(old(Names()), r.value)
    {
      var name := Advance();
      if name.text in customs {
        return Failure(ParseError(NameError, name.at));
      }
      SkipThree();
      r := ParseFuncBody(name);
    }

    /** One statement of a version 1 script. */
    method ParseV1Item(d: Draft) returns (r: Result<Draft, ParseError>)
      requires Valid() && current == None && !At(EOF)
      modifies this`pos, this`customs, this`current
      ensures Valid() && (r.Success? ==> current == None)
      ensures Yields(WithNames(r), old(ScriptItem(Names(), d, Rest())))
    {
      var tok := Peek();
      if tok.kind == KW_BUY || tok.kind == KW_SELL {
        r := ParseV1Block(tok, d);
        return;
      }
      LookFuncDef();
      if !IsFuncDef() {
        return Failure(ParseError(SyntaxError, tok.at));
      }
      r := ParseV1FuncDef(d);
    }

    method ParseV1FuncDef(d: Draft) returns (r: Result<Draft, ParseError>)
      requires Valid() && current == None && AtFuncDef(Rest())
      modifies this`pos, this`customs, this`current
      ensures Valid() && (r.Success? ==> current == None)
      ensures Yields(WithNames(r), old(ScriptItem(Names(), d, Rest())))
    {
      FuncDefItem(Names(), d, Rest());
      var def :- ParseCustomFuncDef();
      return Success(d.(funcs := d.funcs + [def]));
    }

    method ParseV1Block(tok: Token, d: Draft) returns (r: Result<Draft, ParseError>)
      requires Valid() && tok == Peek() && (tok.kind == KW_BUY || tok.kind == KW_SELL)
      modifies this`pos
      ensures Valid() && Yields(WithNames(r), old(ScriptItem(Names(), d, Rest())))
    {
      if (if tok.kind == KW_BUY then d.buy != None else d.sell != None) {
        return Failure(ParseError(SyntaxError, tok.at));
      }
      var e :- ParseBlockBody();
      return Success(if tok.kind == KW_BUY then d.(buy := Some(e)) else d.(sell := Some(e)));
    }

    ghost function WithNames<T>(r: Result<T, ParseError>): Result<(Env, T), ParseError>
      reads this`customs, this`current, this`v2, this`consts
    {
      match r
      case Success(x) => Success((Names(), x))
      case Failure(e) => Failure(e)
    }

    /** Version 1: any number of custom functions, one buy block and one sell block. */
    method ParseV1() returns (r: Result<Script, ParseError>)
      requires Valid() && Names() == StartEnv(reg, false)
      modifies this
      ensures Valid() && Yields(r, ParseScript(reg, old(Rest())))
    {
      SkipBlankLines();
      var d := Draft([], None, None);
      while !At(EOF)
        invariant Valid() && current == None
        invariant ParseScript(reg, old(Rest())) == ScriptItems(Names(), d, Rest())
        decreases Rest().Len()
      {
        d :- ParseV1Item(d);
      }
      if d.buy == None || d.sell == None {
        return Failure(ParseError(SyntaxError, Peek().at));
      }
      return Success(Script(d.funcs, d.buy.value, d.sell.value));
    }

    // ---- version 2 ----

    method ParseConstOrFuncDef() returns (r: Result<Definition, ParseError>)
      requires Valid() && current == None && AtDefinition(Rest())
      modifies this`pos, this`customs, this`current, this`consts
      ensures Valid() && Yields(r, old(ParseDefinition(Names(), Rest())))
      ensures r.Success? ==> Names() == Define(old(Names()), r.value)
    {
      var name := Peek();
      if name.text in customs || name.text in consts {
        return Failure(ParseError(NameError, name.at));
      }
      LookFuncDef();
      if IsFuncDef() {
        var def :- ParseCustomFuncDef();
        return Success(Function(def));
      }
      SkipTwo();
      r := ParseConstOrBody(name);
    }

    /** The `name =` already seen by the lookahead. */
    method SkipTwo()
      requires Valid() && AtDefinition(Rest()) && !AtFuncDef(Rest())
      modifies this`pos
      ensures Valid() && Rest() == old(Rest()).tl.tl
    {
      var _ := Advance();
      var _ := Advance();
    }

    method ParseConstOrBody(name: Token) returns (r: Result<Definition, ParseError>)
      requires Valid() && current == None
      modifies this`pos, this`customs, this`current, this`consts
      ensures Valid() && Yields(r, old(ParseValue(Names(), name, Rest())))
      ensures r.Success? ==> Names() == Define(old(Names()), r.value)
    {
      LookNext();
      var tok := Peek();
      if tok.kind == STRING || (tok.kind == NUMBER && (Look(1) == NEWLINE || Look(1) == EOF)) {
        r := ParseConst(name);
      } else {
        var def :- ParseFuncBody(name);
        return Success(Function(def));
      }
    }

    method ParseConst(name: Token) returns (r: Result<Definition, ParseError>)
      requires Valid() && !At(EOF) && current == None
      modifies this`pos, this`consts
      ensures Valid() && old(Rest()).Cons?
      ensures Yields(r, old(Terminator(Constant(ConstDecl(name.text, Literal(Names(), Rest().hd))), Rest().tl)))
      ensures r.Success? ==> Names() == Define(old(Names()), r.value)
    {
      var tok := Advance();
      var def := Constant(ConstDecl(name.text, Literal(Names(), tok)));
      var _ :- ExpectTerminator();
      consts := consts + {name.text};
      return Success(def);
    }

    method ParseRuleAction() returns (r: Result<Action, ParseError>)
      requires Valid()
      modifies this`pos
      ensures Valid() && Yields(r, old(ParseAction(Names(), Rest())))
    {
      var tok := Peek();
      if tok.kind != KW_BUY && tok.kind != KW_SELL {
        return Failure(ParseError(SyntaxError, tok.at));
      }
      var _ := Advance();
      r := ParseAmount(if tok.kind == KW_BUY then Buy else Sell);
    }

    method ParseAmount(side: Side) returns (r: Result<Action, ParseError>)
      requires Valid()
      modifies this`pos
      ensures Valid() && Yields(r, old(ParseQuantity(Names(), side, Rest())))
    {
      var tok := Peek();
      if tok.kind != KW_ALL && tok.kind != KW_REST && tok.kind != NUMBER {
        return Failure(ParseError(SyntaxError, tok.at));
      }
      var _ := Advance();
      if tok.kind != NUMBER {
        return Success(Action(side, All));
      }
      var _ :- ExpectToken(PERCENT);
      return Success(Action(side, Percent(reg.numeral(tok.text))));
    }

    method ParseRuleItem() returns (r: Result<Rule, ParseError>)
      requires Valid()
      modifies this`pos
      ensures Valid() && Yields(r, old(ParseRule(Names(), Rest())))
    {
      var condition :- ParseOperand(OR_LEVEL, Boolean);
      var _ :- ExpectToken(ARROW);
      var action :- ParseRuleAction();
      var _ :- ExpectTerminator();
      return Success(Rule(condition, action));
    }

    /** One statement of a version 2 script. */
    method ParseV2Item(script: ScriptV2) returns (r: Result<ScriptV2, ParseError>)
      requires Valid() && current == None && !At(EOF)
      modifies this`pos, this`customs, this`current, this`consts
      ensures Valid() && (r.Success? ==> current == None)
      ensures Yields(WithNames(r), old(RuleItem(Names(), script, Rest())))
    {
      LookNext();
      LookFuncDef();
      var tok := Peek();
      if Look(1) == COLON && (tok.kind == KW_BUY || tok.kind == KW_SELL) {
        r := ParseV2Block(tok, script);
        return;
      }
      if tok.kind == IDENT && (Look(1) == ASSIGN || IsFuncDef()) {
        r := ParseV2Definition(script);
        return;
      }
      var rule :- ParseRuleItem();
      return Success(script.(rules := script.rules + [rule]));
    }

    method ParseV2Block(tok: Token, script: ScriptV2) returns (r: Result<ScriptV2, ParseError>)
      requires Valid() && tok == Peek() && (AtV1Block(Rest(), KW_BUY) || AtV1Block(Rest(), KW_SELL))
      modifies this`pos
      ensures Valid() && Yields(WithNames(r), old(RuleItem(Names(), script, Rest())))
    {
      var e :- ParseBlockBody();
      var rule := if tok.kind == KW_BUY then BuyRule(e, tok.at) else SellRule(e);
      return Success(script.(rules := script.rules + [rule]));
    }

    method ParseV2Definition(script: ScriptV2) returns (r: Result<ScriptV2, ParseError>)
      requires Valid() && current == None && AtDefinition(Rest())
      modifies this`pos, this`customs, this`current, this`consts
      ensures Valid() && (r.Success? ==> current == None)
      ensures Yields(WithNames(r), old(RuleItem(Names(), script, Rest())))
    {
      DefinitionItem(Names(), script, Rest());
      var def :- ParseConstOrFuncDef();
      return Success(AddDefinition(script, def));
    }

    /** Version 2: constants, custom functions, rules, and version 1 blocks turned into rules. */
    method ParseV2() returns (r: Result<ScriptV2, ParseError>)
      requires Valid() && Names() == StartEnv(reg, false)
      modifies this
      ensures Valid() && Yields(r, ParseScriptV2(reg, old(Rest())))
    {
      v2 := true;
      SkipBlankLines();
      var script := ScriptV2([], [], []);
      while !At(EOF)
        invariant Valid() && current == None
        invariant ParseScriptV2(reg, old(Rest())) == RuleItems(Names(), script, Rest())
        decreases Rest().Len()
      {
        script :- ParseV2Item(script);
      }
      if script.rules == [] {
        return Failure(ParseError(SyntaxError, Peek().at));
      }
      return Success(script);
    }
  }
}
