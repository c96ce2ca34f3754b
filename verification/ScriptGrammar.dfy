/** The two script forms: version 1 (one buy and one sell block) and version 2 (constants, custom
    functions and `condition -> action` rules, with version 1 blocks converted to rules). */
module ScriptGrammar {
  import opened Common
  import opened Syntax
  import opened Grammar

  function StartEnv(reg: Registry, v2: bool): Env {
    Env(reg, map[], None, v2, {})
  }

  function SkipNewlines(ts: Stream): (r: Stream)
    ensures r.Len() <= ts.Len()
    ensures r.Kind() != NEWLINE
  {
    if ts.Kind() == NEWLINE then SkipNewlines(ts.tl) else ts
  }

  /** A statement ends with a line break or the end of the input. */
  function Terminator<T>(value: T, ts: Stream): (r: Parsed<T>)
    ensures r.Ok? ==> r.rest.Len() <= ts.Len() && r.rest.Kind() != NEWLINE && r.value == value
  {
    if ts.Kind() == NEWLINE then Ok(value, SkipNewlines(ts.tl))
    else if ts.Kind() == EOF then Ok(value, ts)
    else Fail(SyntaxError, ts.At())
  }

  /** `매수: e` or `매도: e`, entered at the keyword. */
  function ParseBlock(env: Env, ts: Stream): (r: Parsed<Expr>)
    requires ts.Cons?
    ensures r.Ok? ==> r.rest.Len() < ts.Len() && r.rest.Kind() != NEWLINE
  {
    var (_, rest) :- Expect(COLON, ts.tl);
    BlockExpr(env, rest)
  }

  function BlockExpr(env: Env, ts: Stream): (r: Parsed<Expr>)
    ensures r.Ok? ==> r.rest.Len() <= ts.Len() && r.rest.Kind() != NEWLINE
  {
    var (e, rest) :- Operand(env, OR_LEVEL, Boolean, ts);
    Terminator(e, rest)
  }

  /** Lookahead for `name ( ) =`. */
  predicate AtFuncDef(ts: Stream) {
    ts.Kind() == IDENT && ts.tl.Kind() == LPAREN && ts.tl.tl.Kind() == RPAREN && ts.tl.tl.tl.Kind() == ASSIGN
  }

  function Declare(env: Env, def: FuncDef): Env {
    env.(customs := env.customs[def.name := InferType(env.reg, env.customs, def.body)])
  }

  /** The right-hand side of a custom function; the name must not occur in its own body. */
  function ParseBody(env: Env, name: Token, ts: Stream): (r: Parsed<FuncDef>)
    ensures r.Ok? ==> r.rest.Len() < ts.Len() && r.rest.Kind() != NEWLINE
  {
    var (body, rest) :- Parse(env.(current := Some(name.text)), OR_LEVEL, ts);
    Terminator(FuncDef(name.text, body, name.at), rest)
  }

  /** `name() = body`, entered at the name. */
  function ParseFuncDef(env: Env, ts: Stream): (r: Parsed<FuncDef>)
    requires AtFuncDef(ts)
    ensures r.Ok? ==> r.rest.Len() < ts.Len() && r.rest.Kind() != NEWLINE
  {
    if ts.hd.text in env.customs then Fail(NameError, ts.hd.at)
    else
      assert ts.tl.tl.Len() > ts.tl.tl.tl.tl.Len();
      ParseBody(env, ts.hd, ts.tl.tl.tl.tl)
  }

  // ---- version 1 ----

  /** A version 1 script while it is being read. */
  datatype Draft = Draft(funcs: seq<FuncDef>, buy: Option<Expr>, sell: Option<Expr>)

  function ParseScript(reg: Registry, ts: Stream): Parsed<Script> {
    ScriptItems(StartEnv(reg, false), Draft([], None, None), SkipNewlines(ts))
  }

  function ScriptItems(env: Env, d: Draft, ts: Stream): Parsed<Script>
    decreases ts.Len()
  {
    if ts.Kind() == EOF then
      if d.buy == None || d.sell == None then Fail(SyntaxError, ts.At())
      else Ok(Script(d.funcs, d.buy.value, d.sell.value), ts)
    else
      var (next, rest) :- ScriptItem(env, d, ts);
      ScriptItems(next.0, next.1, rest)
  }

  /** One statement: the names and the draft after it. */
  function ScriptItem(env: Env, d: Draft, ts: Stream): (r: Parsed<(Env, Draft)>)
    ensures r.Ok? ==> r.rest.Len() < ts.Len() && r.rest.Kind() != NEWLINE
  {
    if ts.Cons? && ts.Kind() == KW_BUY then
      if d.buy != None then Fail(SyntaxError, ts.At())
      else
        var (e, rest) :- ParseBlock(env, ts);
        Ok((env, d.(buy := Some(e))), rest)
    else if ts.Cons? && ts.Kind() == KW_SELL then
      if d.sell != None then Fail(SyntaxError, ts.At())
      else
        var (e, rest) :- ParseBlock(env, ts);
        Ok((env, d.(sell := Some(e))), rest)
    else if AtFuncDef(ts) then
      var (def, rest) :- ParseFuncDef(env, ts);
      Ok((Declare(env, def), d.(funcs := d.funcs + [def])), rest)
    else Fail(SyntaxError, ts.At())
  }

  // ---- version 2 ----

  const HOLDING: string := "보유수량"

  /** A version 1 buy block as a rule: buy with everything, but only while holding nothing. */
  function BuyRule(e: Expr, at: Pos): Rule {
    var held := Compare(Eq, FieldRef(HOLDING, Pos(0, 0)), NumberLit(0.0, Pos(0, 0)), at);
    Rule(Binary(And, e, held, at), Action(Buy, Percent(100.0)))
  }

  /** A version 1 sell block as a rule: sell everything. */
  function SellRule(e: Expr): Rule {
    Rule(e, Action(Sell, All))
  }

  predicate AtV1Block(ts: Stream, k: Kind) {
    ts.Cons? && ts.Kind() == k && ts.tl.Kind() == COLON
  }

  /** Lookahead for `name =` or `name ( ) =`. */
  predicate AtDefinition(ts: Stream) {
    ts.Kind() == IDENT && ts.Cons? && (ts.tl.Kind() == ASSIGN || AtFuncDef(ts))
  }

  datatype Definition = Constant(decl: ConstDecl) | Function(def: FuncDef)

  function ParseDefinition(env: Env, ts: Stream): (r: Parsed<Definition>)
    requires AtDefinition(ts)
    ensures r.Ok? ==> r.rest.Len() < ts.Len() && r.rest.Kind() != NEWLINE
  {
    var name := ts.hd;
    if name.text in env.customs || name.text in env.consts then Fail(NameError, name.at)
    else if AtFuncDef(ts) then
      var (def, rest) :- ParseFuncDef(env, ts);
      Ok(Function(def), rest)
    else
      assert ts.Len() > ts.tl.tl.Len();
      ParseValue(env, name, ts.tl.tl)
  }

  /** A number or a string alone on the right-hand side makes a constant, anything else a function. */
  function ParseValue(env: Env, name: Token, ts: Stream): (r: Parsed<Definition>)
    ensures r.Ok? ==> r.rest.Len() < ts.Len() && r.rest.Kind() != NEWLINE
  {
    if ts.Cons? &&
       (ts.Kind() == STRING || (ts.Kind() == NUMBER && (ts.tl.Kind() == NEWLINE || ts.tl.Kind() == EOF))) then
      Terminator(Constant(ConstDecl(name.text, Literal(env, ts.hd))), ts.tl)
    else
      var (def, rest) :- ParseBody(env, name, ts);
      Ok(Function(def), rest)
  }

  function Literal(env: Env, tok: Token): Expr {
    if tok.kind == NUMBER then NumberLit(env.reg.numeral(tok.text), tok.at) else StringLit(tok.text, tok.at)
  }

  /** The names visible after a definition. */
  function Define(env: Env, d: Definition): Env {
    match d
    case Constant(c) => env.(consts := env.consts + {c.name})
    case Function(f) => Declare(env, f)
  }

  function ParseAction(env: Env, ts: Stream): (r: Parsed<Action>)
    ensures r.Ok? ==> r.rest.Len() < ts.Len()
  {
    if ts.Cons? && ts.Kind() == KW_BUY then ParseQuantity(env, Buy, ts.tl)
    else if ts.Cons? && ts.Kind() == KW_SELL then ParseQuantity(env, Sell, ts.tl)
    else Fail(SyntaxError, ts.At())
  }

  function ParseQuantity(env: Env, side: Side, ts: Stream): (r: Parsed<Action>)
    ensures r.Ok? ==> r.rest.Len() < ts.Len()
  {
    if ts.Cons? && (ts.Kind() == KW_ALL || ts.Kind() == KW_REST) then Ok(Action(side, All), ts.tl)
    else if ts.Cons? && ts.Kind() == NUMBER then
      var (_, rest) :- Expect(PERCENT, ts.tl);
      Ok(Action(side, Percent(env.reg.numeral(ts.hd.text))), rest)
    else Fail(SyntaxError, ts.At())
  }

  function ParseRule(env: Env, ts: Stream): (r: Parsed<Rule>)
    ensures r.Ok? ==> r.rest.Len() < ts.Len() && r.rest.Kind() != NEWLINE
  {
    var (condition, rest) :- Operand(env, OR_LEVEL, Boolean, ts);
    var (_, rest') :- Expect(ARROW, rest);
    var (action, rest'') :- ParseAction(env, rest');
    Terminator(Rule(condition, action), rest'')
  }

  function ParseScriptV2(reg: Registry, ts: Stream): Parsed<ScriptV2> {
    RuleItems(StartEnv(reg, true), ScriptV2([], [], []), SkipNewlines(ts))
  }

  function RuleItems(env: Env, acc: ScriptV2, ts: Stream): Parsed<ScriptV2>
    decreases ts.Len()
  {
    if ts.Kind() == EOF then
      if acc.rules == [] then Fail(SyntaxError, ts.At()) else Ok(acc, ts)
    else
      var (next, rest) :- RuleItem(env, acc, ts);
      RuleItems(next.0, next.1, rest)
  }

  /** One statement: the names and the script after it. */
  function RuleItem(env: Env, acc: ScriptV2, ts: Stream): (r: Parsed<(Env, ScriptV2)>)
    ensures r.Ok? ==> r.rest.Len() < ts.Len() && r.rest.Kind() != NEWLINE
  {
    if AtV1Block(ts, KW_BUY) then
      var (e, rest) :- ParseBlock(env, ts);
      Ok((env, acc.(rules := acc.rules + [BuyRule(e, ts.hd.at)])), rest)
    else if AtV1Block(ts, KW_SELL) then
      var (e, rest) :- ParseBlock(env, ts);
      Ok((env, acc.(rules := acc.rules + [SellRule(e)])), rest)
    else if AtDefinition(ts) then
      var (d, rest) :- ParseDefinition(env, ts);
      Ok((Define(env, d), AddDefinition(acc, d)), rest)
    else
      var (rule, rest) :- ParseRule(env, ts);
      Ok((env, acc.(rules := acc.rules + [rule])), rest)
  }

  function AddDefinition(acc: ScriptV2, d: Definition): ScriptV2 {
    match d
    case Constant(c) => acc.(consts := acc.consts + [c])
    case Function(f) => acc.(funcs := acc.funcs + [f])
  }
}
