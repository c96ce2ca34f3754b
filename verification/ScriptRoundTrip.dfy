/** Whole scripts as lists of statements, a printer for them, and that parsing undoes it: the scripts the
    parser produces are exactly those that well-formed lists of statements make up. */
module ScriptRoundTrip {
  import opened Common
  import opened Syntax
  import opened Grammar
  import opened ScriptGrammar
  import opened RoundTrip
  import opened ScriptSound

  // ---- statements ----

  /** A definition, a rule, or a version 1 block with the position of its keyword. */
  datatype Item = Named(def: Definition) | Conditional(rule: Rule) | Block(side: Side, body: Expr, at: Pos)

  /** The names visible after a statement. */
  function After(env: Env, item: Item): Env {
    if item.Named? then Define(env, item.def) else env
  }

  /** The script with a statement added. */
  function AddItem(s: ScriptV2, item: Item): ScriptV2 {
    match item
    case Named(d) => AddDefinition(s, d)
    case Conditional(r) => s.(rules := s.rules + [r])
    case Block(Buy, e, at) => s.(rules := s.rules + [BuyRule(e, at)])
    case Block(Sell, e, _) => s.(rules := s.rules + [SellRule(e)])
  }

  function AddAll(s: ScriptV2, items: seq<Item>): ScriptV2
    decreases |items|
  {
    if items == [] then s else AddAll(AddItem(s, items[0]), items[1..])
  }

  ghost predicate LiteralOk(env: Env, e: Expr) {
    match e
    case NumberLit(v, _) => Spellable(env, v)
    case StringLit(_, _) => true
    case _ => false
  }

  ghost predicate BooleanOk(env: Env, e: Expr) {
    WF(env, e) && TypeOk(env, e, Boolean)
  }

  /** New names are new, bodies and conditions are well-formed where they stand, numbers can be written. */
  ghost predicate ItemOk(env: Env, item: Item) {
    match item
    case Named(Constant(c)) => c.name !in env.customs && c.name !in env.consts && LiteralOk(env, c.value)
    case Named(Function(f)) =>
      f.name !in env.customs && f.name !in env.consts && WF(env.(current := Some(f.name)), f.body)
    case Conditional(r) =>
      BooleanOk(env, r.condition) && (r.action.qty.Percent? ==> Spellable(env, r.action.qty.value))
    case Block(_, e, _) => BooleanOk(env, e)
  }

  ghost predicate ItemsOk(env: Env, items: seq<Item>)
    decreases |items|
  {
    items == [] || (ItemOk(env, items[0]) && ItemsOk(After(env, items[0]), items[1..]))
  }

  // ---- printing ----

  function Newline(at: Pos, k: Stream): Stream {
    Cons(Token(NEWLINE, "\\n", at), k)
  }

  function SideToken(side: Side, at: Pos): Token {
    match side
    case Buy => Token(KW_BUY, "매수", at)
    case Sell => Token(KW_SELL, "매도", at)
  }

  /** `매수 전량`, `매도 50%` and the like. */
  ghost function PrintAction(env: Env, a: Action, at: Pos, k: Stream): Stream
    requires a.qty.Percent? ==> Spellable(env, a.qty.value)
  {
    Cons(SideToken(a.side, at),
         match a.qty
         case All => Cons(Token(KW_ALL, "전량", at), k)
         case Percent(v) => Cons(Token(NUMBER, Spelling(env, v), at), Cons(Token(PERCENT, "%", at), k)))
  }

  ghost function LiteralToken(env: Env, e: Expr): Token
    requires LiteralOk(env, e)
  {
    match e
    case NumberLit(v, at) => Token(NUMBER, Spelling(env, v), at)
    case StringLit(s, at) => Token(STRING, s, at)
  }

  ghost function PrintItem(env: Env, item: Item, k: Stream): Stream
    requires ItemOk(env, item)
  {
    match item
    case Named(Constant(c)) =>
      var at := c.value.at;
      Cons(Token(IDENT, c.name, at),
           Cons(Token(ASSIGN, "=", at), Cons(LiteralToken(env, c.value), Newline(at, k))))
    case Named(Function(f)) =>
      Cons(Token(IDENT, f.name, f.at),
           Cons(Token(LPAREN, "(", f.at), Cons(Token(RPAREN, ")", f.at), Cons(Token(ASSIGN, "=", f.at),
                Print(env.(current := Some(f.name)), f.body, OR_LEVEL, Newline(f.at, k))))))
    case Conditional(r) =>
      var at := r.condition.at;
      Print(env, r.condition, OR_LEVEL, Cons(Token(ARROW, "->", at), PrintAction(env, r.action, at, Newline(at, k))))
    case Block(side, e, at) =>
      Cons(SideToken(side, at), Cons(Token(COLON, ":", at), Print(env, e, OR_LEVEL, Newline(at, k))))
  }

  ghost function PrintItems(env: Env, items: seq<Item>, end: Pos): Stream
    requires ItemsOk(env, items)
    decreases |items|
  {
    if items == [] then Eof(end) else PrintItem(env, items[0], PrintItems(After(env, items[0]), items[1..], end))
  }

  // ---- what a printed expression begins with ----

  /** No definition, no block, no line break and not the end. */
  predicate Plain(ts: Stream) {
    ts.Cons? && !AtDefinition(ts) && ts.Kind() !in {EOF, NEWLINE, KW_BUY, KW_SELL}
  }

  lemma {:induction false} PrintPlain(env: Env, e: Expr, lvl: nat, k: Stream)
    requires WF(env, e) && k.Kind() != ASSIGN && k.Kind() != LPAREN
    ensures Plain(Print(env, e, lvl, k))
    decreases e
  {
    if Prec(e) >= lvl {
      match e
      case Binary(op, l, r, at) => PrintPlain(env, l, Prec(e), Cons(OpToken(op, at), Print(env, r, Prec(e) + 1, k)));
      case Compare(op, l, r, at) => PrintPlain(env, l, ADD_LEVEL, Cons(CmpToken(op, at), Print(env, r, ADD_LEVEL, k)));
      case IndexAccess(b, i, at) =>
        PrintPlain(env, b, PRIMARY_LEVEL, Cons(Token(LBRACKET, "[", at),
          Cons(Token(NUMBER, Spelling(env, i as real), at), Cons(Token(RBRACKET, "]", at), k))));
      case FuncCall(fn, args, at) => CallPlain(env, e, k);
      case _ =>
    }
  }

  lemma CallPlain(env: Env, e: Expr, k: Stream)
    requires WF(env, e) && e.FuncCall? && k.Kind() != ASSIGN
    ensures Plain(PrintBare(env, e, k))
  {
    var close := Cons(Token(RPAREN, ")", e.at), k);
    if e.args != [] {
      PrintHead(env, e.args[0], OR_LEVEL,
                if |e.args| == 1 then close
                else Cons(Token(COMMA, ",", e.args[0].at), PrintArgs(env, e.args[1..], close)));
    }
  }

  // ---- parsing undoes printing ----

  lemma TerminatorSkips<T>(value: T, at: Pos, k: Stream)
    requires k.Kind() != NEWLINE
    ensures Terminator(value, Newline(at, k)) == Ok(value, k)
  {
  }

  lemma ActionParse(env: Env, a: Action, at: Pos, k: Stream)
    requires a.qty.Percent? ==> Spellable(env, a.qty.value)
    ensures ParseAction(env, PrintAction(env, a, at, k)) == Ok(a, k)
  {
  }

  lemma ConstantParse(env: Env, acc: ScriptV2, c: ConstDecl, k: Stream)
    requires ItemOk(env, Named(Constant(c))) && k.Kind() != NEWLINE
    ensures var item := Named(Constant(c));
            RuleItem(env, acc, PrintItem(env, item, k)) == Ok((After(env, item), AddItem(acc, item)), k)
  {
    var ts := PrintItem(env, Named(Constant(c)), k);
    ValueParse(env, c, ts.hd, k);
    ConstantItem(env, acc, c, ts, k);
  }

  lemma ValueParse(env: Env, c: ConstDecl, name: Token, k: Stream)
    requires LiteralOk(env, c.value) && name.text == c.name && k.Kind() != NEWLINE
    ensures ParseValue(env, name, Cons(LiteralToken(env, c.value), Newline(c.value.at, k))) == Ok(Constant(c), k)
  {
    TerminatorSkips(Constant(c), c.value.at, k);
  }

  lemma ConstantItem(env: Env, acc: ScriptV2, c: ConstDecl, ts: Stream, k: Stream)
    requires ts.Cons? && ts.Kind() == IDENT && ts.tl.Cons? && ts.tl.Kind() == ASSIGN
    requires ts.hd.text !in env.customs && ts.hd.text !in env.consts
    requires ParseValue(env, ts.hd, ts.tl.tl) == Ok(Constant(c), k)
    ensures RuleItem(env, acc, ts) == Ok((Define(env, Constant(c)), AddDefinition(acc, Constant(c))), k)
  {
    assert ParseDefinition(env, ts) == Ok(Constant(c), k);
  }

  lemma BodyParse(env: Env, f: FuncDef, k: Stream)
    requires f.name !in env.customs && WF(env.(current := Some(f.name)), f.body) && k.Kind() != NEWLINE
    ensures var inner := env.(current := Some(f.name));
            ParseBody(env, Token(IDENT, f.name, f.at), Print(inner, f.body, OR_LEVEL, Newline(f.at, k))) == Ok(f, k)
  {
    PrintParse(env.(current := Some(f.name)), f.body, OR_LEVEL, Newline(f.at, k));
    TerminatorSkips(f, f.at, k);
  }

  lemma FunctionParse(env: Env, f: FuncDef, k: Stream)
    requires ItemOk(env, Named(Function(f))) && k.Kind() != NEWLINE
    ensures var ts := PrintItem(env, Named(Function(f)), k); AtFuncDef(ts) && ParseFuncDef(env, ts) == Ok(f, k)
  {
    BodyParse(env, f, k);
  }

  lemma BlockParse(env: Env, side: Side, e: Expr, at: Pos, k: Stream)
    requires BooleanOk(env, e) && k.Kind() != NEWLINE
    ensures ParseBlock(env, PrintItem(env, Block(side, e, at), k)) == Ok(e, k)
  {
    PrintParse(env, e, OR_LEVEL, Newline(at, k));
    TerminatorSkips(e, at, k);
  }

  lemma RuleTailParse(env: Env, r: Rule, at: Pos, k: Stream)
    requires (r.action.qty.Percent? ==> Spellable(env, r.action.qty.value)) && k.Kind() != NEWLINE
    ensures var (action, rest) := (ParseAction(env, PrintAction(env, r.action, at, Newline(at, k))), Newline(at, k));
            action == Ok(r.action, rest) && Terminator(r, rest) == Ok(r, k)
  {
    ActionParse(env, r.action, at, Newline(at, k));
    TerminatorSkips(r, at, k);
  }

  lemma RuleParse(env: Env, r: Rule, k: Stream)
    requires ItemOk(env, Conditional(r)) && k.Kind() != NEWLINE
    ensures ParseRule(env, PrintItem(env, Conditional(r), k)) == Ok(r, k)
  {
    var at := r.condition.at;
    PrintParse(env, r.condition, OR_LEVEL,
               Cons(Token(ARROW, "->", at), PrintAction(env, r.action, at, Newline(at, k))));
    RuleTailParse(env, r, at, k);
  }

  lemma RulePlain(env: Env, r: Rule, k: Stream)
    requires ItemOk(env, Conditional(r))
    ensures Plain(PrintItem(env, Conditional(r), k))
  {
    var at := r.condition.at;
    PrintPlain(env, r.condition, OR_LEVEL,
               Cons(Token(ARROW, "->", at), PrintAction(env, r.action, at, Newline(at, k))));
  }

  /** How a statement is read, by what it begins with. */
  lemma PlainItem(env: Env, acc: ScriptV2, r: Rule, ts: Stream, k: Stream)
    requires Plain(ts) && ParseRule(env, ts) == Ok(r, k)
    ensures RuleItem(env, acc, ts) == Ok((env, acc.(rules := acc.rules + [r])), k)
  {
  }

  lemma FunctionItem(env: Env, acc: ScriptV2, f: FuncDef, ts: Stream, k: Stream)
    requires AtFuncDef(ts) && ParseFuncDef(env, ts) == Ok(f, k)
    requires ts.hd.text !in env.customs && ts.hd.text !in env.consts
    ensures RuleItem(env, acc, ts) == Ok((Declare(env, f), acc.(funcs := acc.funcs + [f])), k)
  {
    assert ParseDefinition(env, ts) == Ok(Function(f), k);
  }

  lemma BlockItem(env: Env, acc: ScriptV2, side: Side, e: Expr, at: Pos, k: Stream)
    requires BooleanOk(env, e) && k.Kind() != NEWLINE
    ensures var item := Block(side, e, at);
            RuleItem(env, acc, PrintItem(env, item, k)) == Ok((env, AddItem(acc, item)), k)
  {
    BlockParse(env, side, e, at, k);
    var ts := PrintItem(env, Block(side, e, at), k);
    assert ts.tl.Kind() == COLON && ts.hd == SideToken(side, at);
  }

  /** A printed statement is parsed back. */
  lemma ItemParse(env: Env, acc: ScriptV2, item: Item, k: Stream)
    requires ItemOk(env, item) && k.Kind() != NEWLINE
    ensures RuleItem(env, acc, PrintItem(env, item, k)) == Ok((After(env, item), AddItem(acc, item)), k)
  {
    match item
    case Named(Constant(c)) => ConstantParse(env, acc, c, k);
    case Named(Function(f)) =>
      FunctionParse(env, f, k);
      FunctionItem(env, acc, f, PrintItem(env, item, k), k);
    case Conditional(r) =>
      RuleParse(env, r, k);
      RulePlain(env, r, k);
      PlainItem(env, acc, r, PrintItem(env, item, k), k);
    case Block(side, e, at) => BlockItem(env, acc, side, e, at, k);
  }

  lemma ItemStart(env: Env, item: Item, k: Stream)
    requires ItemOk(env, item)
    ensures PrintItem(env, item, k).Cons?
    ensures PrintItem(env, item, k).Kind() != NEWLINE && PrintItem(env, item, k).Kind() != EOF
  {
    if item.Conditional? {
      RulePlain(env, item.rule, k);
    }
  }

  lemma {:induction false} PrintStart(env: Env, items: seq<Item>, end: Pos)
    requires ItemsOk(env, items)
    ensures PrintItems(env, items, end).Kind() != NEWLINE
    ensures PrintItems(env, items, end).Kind() == EOF <==> items == []
    decreases |items|
  {
    if items != [] {
      ItemStart(env, items[0], PrintItems(After(env, items[0]), items[1..], end));
    }
  }

  lemma {:induction false} ItemsParse(env: Env, acc: ScriptV2, items: seq<Item>, end: Pos)
    requires ItemsOk(env, items)
    ensures RuleItems(env, acc, PrintItems(env, items, end)) ==
            if AddAll(acc, items).rules == [] then Fail(SyntaxError, end) else Ok(AddAll(acc, items), Eof(end))
    decreases |items|
  {
    if items != [] {
      var next, rest := After(env, items[0]), PrintItems(After(env, items[0]), items[1..], end);
      PrintStart(env, items, end);
      PrintStart(next, items[1..], end);
      ItemParse(env, acc, items[0], rest);
      ItemsParse(next, AddItem(acc, items[0]), items[1..], end);
    }
  }

  const EMPTY_SCRIPT := ScriptV2([], [], [])

  /** The statements form a version 2 script: at least one rule or block. */
  ghost predicate Script2(reg: Registry, items: seq<Item>) {
    ItemsOk(StartEnv(reg, true), items) && AddAll(EMPTY_SCRIPT, items).rules != []
  }

  /** The script of well-formed statements, printed, is parsed back. */
  lemma PrintScriptParse(reg: Registry, items: seq<Item>, end: Pos)
    requires Script2(reg, items)
    ensures ParseScriptV2(reg, PrintItems(StartEnv(reg, true), items, end)) == Ok(AddAll(EMPTY_SCRIPT, items), Eof(end))
  {
    PrintStart(StartEnv(reg, true), items, end);
    ItemsParse(StartEnv(reg, true), EMPTY_SCRIPT, items, end);
  }

  /** "나머지" says the same as "전량". */
  lemma RestIsAll(env: Env, side: Side, at: Pos, k: Stream)
    ensures ParseAction(env, Cons(SideToken(side, at), Cons(Token(KW_REST, "나머지", at), k))) == Ok(Action(side, All), k)
  {
  }

  // ---- printed tokens have the texts of the vocabulary ----

  predicate InVocabulary(t: Token) {
    IsFixed(t.kind) ==> HasText(t.kind, t.text)
  }

  predicate AllInVocabulary(ts: Stream) {
    ts.Cons? ==> InVocabulary(ts.hd) && AllInVocabulary(ts.tl)
  }

  lemma OperatorInVocabulary(op: BinOp, cmp: CmpOp, at: Pos)
    ensures InVocabulary(OpToken(op, at)) && InVocabulary(CmpToken(cmp, at))
  {
  }

  lemma {:induction false} PrintVocabulary(env: Env, e: Expr, lvl: nat, k: Stream)
    requires WF(env, e) && AllInVocabulary(k)
    ensures AllInVocabulary(Print(env, e, lvl, k))
    decreases e, 1
  {
    BareVocabulary(env, e, k);
    if Prec(e) < lvl {
      var close := Cons(Token(RPAREN, ")", e.at), k);
      assert InVocabulary(Token(RPAREN, ")", e.at)) && InVocabulary(Token(LPAREN, "(", e.at));
      BareVocabulary(env, e, close);
    }
  }

  lemma Put(t: Token, k: Stream)
    requires InVocabulary(t) && AllInVocabulary(k)
    ensures AllInVocabulary(Cons(t, k))
  {
  }

  lemma LeafVocabulary(env: Env, e: Expr, k: Stream)
    requires WF(env, e) && (e.NumberLit? || e.BoolLit? || e.StringLit? || e.FieldRef?) && AllInVocabulary(k)
    ensures AllInVocabulary(PrintBare(env, e, k))
  {
  }

  lemma IndexVocabulary(text: string, at: Pos, k: Stream)
    requires AllInVocabulary(k)
    ensures AllInVocabulary(
              Cons(Token(LBRACKET, "[", at), Cons(Token(NUMBER, text, at), Cons(Token(RBRACKET, "]", at), k))))
  {
    Put(Token(RBRACKET, "]", at), k);
    Put(Token(NUMBER, text, at), Cons(Token(RBRACKET, "]", at), k));
    Put(Token(LBRACKET, "[", at), Cons(Token(NUMBER, text, at), Cons(Token(RBRACKET, "]", at), k)));
  }

  lemma PrefixVocabulary(op: UnOp, at: Pos, k: Stream)
    requires AllInVocabulary(k)
    ensures AllInVocabulary(Cons(if op == Not then Token(NOT, "NOT", at) else Token(MINUS, "-", at), k))
  {
  }

  lemma CallVocabulary(fn: string, at: Pos, k: Stream)
    requires AllInVocabulary(k)
    ensures AllInVocabulary(Cons(Token(IDENT, fn, at), Cons(Token(LPAREN, "(", at), k)))
  {
  }

  lemma {:induction false} BareVocabulary(env: Env, e: Expr, k: Stream)
    requires WF(env, e) && AllInVocabulary(k)
    ensures AllInVocabulary(PrintBare(env, e, k))
    decreases e, 0
  {
    match e
    case Binary(op, l, r, at) =>
      PrintVocabulary(env, r, Prec(e) + 1, k);
      OperatorInVocabulary(op, Eq, at);
      Put(OpToken(op, at), Print(env, r, Prec(e) + 1, k));
      PrintVocabulary(env, l, Prec(e), Cons(OpToken(op, at), Print(env, r, Prec(e) + 1, k)));
    case Compare(op, l, r, at) =>
      PrintVocabulary(env, r, ADD_LEVEL, k);
      OperatorInVocabulary(And, op, at);
      Put(CmpToken(op, at), Print(env, r, ADD_LEVEL, k));
      PrintVocabulary(env, l, ADD_LEVEL, Cons(CmpToken(op, at), Print(env, r, ADD_LEVEL, k)));
    case Unary(op, o, at) =>
      PrintVocabulary(env, o, Prec(e), k);
      PrefixVocabulary(op, at, Print(env, o, Prec(e), k));
    case IndexAccess(b, i, at) =>
      IndexVocabulary(Spelling(env, i as real), at, k);
      PrintVocabulary(env, b, PRIMARY_LEVEL, Cons(Token(LBRACKET, "[", at),
        Cons(Token(NUMBER, Spelling(env, i as real), at), Cons(Token(RBRACKET, "]", at), k))));
    case FuncCall(fn, args, at) =>
      Put(Token(RPAREN, ")", at), k);
      ArgsVocabulary(env, args, Cons(Token(RPAREN, ")", at), k));
      CallVocabulary(fn, at, PrintArgs(env, args, Cons(Token(RPAREN, ")", at), k)));
    case _ => LeafVocabulary(env, e, k);
  }

  lemma {:induction false} ArgsVocabulary(env: Env, args: seq<Expr>, k: Stream)
    requires (forall a :: a in args ==> WF(env, a)) && AllInVocabulary(k)
    ensures AllInVocabulary(PrintArgs(env, args, k))
    decreases args, 0
  {
    if |args| == 1 {
      PrintVocabulary(env, args[0], OR_LEVEL, k);
    } else if args != [] {
      ArgsVocabulary(env, args[1..], k);
      PrintVocabulary(env, args[0], OR_LEVEL, Cons(Token(COMMA, ",", args[0].at), PrintArgs(env, args[1..], k)));
    }
  }

  lemma ActionVocabulary(env: Env, a: Action, at: Pos, k: Stream)
    requires (a.qty.Percent? ==> Spellable(env, a.qty.value)) && AllInVocabulary(k)
    ensures AllInVocabulary(PrintAction(env, a, at, k))
  {
  }

  lemma FunctionVocabulary(env: Env, f: FuncDef, k: Stream)
    requires ItemOk(env, Named(Function(f))) && AllInVocabulary(k)
    ensures AllInVocabulary(PrintItem(env, Named(Function(f)), k))
  {
    var inner := env.(current := Some(f.name));
    var body := Print(inner, f.body, OR_LEVEL, Newline(f.at, k));
    PrintVocabulary(inner, f.body, OR_LEVEL, Newline(f.at, k));
    Put(Token(ASSIGN, "=", f.at), body);
    Put(Token(RPAREN, ")", f.at), Cons(Token(ASSIGN, "=", f.at), body));
    CallVocabulary(f.name, f.at, Cons(Token(RPAREN, ")", f.at), Cons(Token(ASSIGN, "=", f.at), body)));
  }

  lemma ConstantVocabulary(env: Env, c: ConstDecl, k: Stream)
    requires ItemOk(env, Named(Constant(c))) && AllInVocabulary(k)
    ensures AllInVocabulary(PrintItem(env, Named(Constant(c)), k))
  {
    var value := Cons(LiteralToken(env, c.value), Newline(c.value.at, k));
    Put(LiteralToken(env, c.value), Newline(c.value.at, k));
    Put(Token(ASSIGN, "=", c.value.at), value);
  }

  lemma BlockVocabulary(env: Env, item: Item, k: Stream)
    requires ItemOk(env, item) && item.Block? && AllInVocabulary(k)
    ensures AllInVocabulary(PrintItem(env, item, k))
  {
    var body := Print(env, item.body, OR_LEVEL, Newline(item.at, k));
    PrintVocabulary(env, item.body, OR_LEVEL, Newline(item.at, k));
    Put(Token(COLON, ":", item.at), body);
    Put(SideToken(item.side, item.at), Cons(Token(COLON, ":", item.at), body));
  }

  lemma RuleVocabulary(env: Env, r: Rule, k: Stream)
    requires ItemOk(env, Conditional(r)) && AllInVocabulary(k)
    ensures AllInVocabulary(PrintItem(env, Conditional(r), k))
  {
    var at := r.condition.at;
    var action := PrintAction(env, r.action, at, Newline(at, k));
    ActionVocabulary(env, r.action, at, Newline(at, k));
    Put(Token(ARROW, "->", at), action);
    PrintVocabulary(env, r.condition, OR_LEVEL, Cons(Token(ARROW, "->", at), action));
  }

  lemma ItemVocabulary(env: Env, item: Item, k: Stream)
    requires ItemOk(env, item) && AllInVocabulary(k)
    ensures AllInVocabulary(PrintItem(env, item, k))
  {
    match item
    case Named(Constant(c)) => ConstantVocabulary(env, c, k);
    case Named(Function(f)) => FunctionVocabulary(env, f, k);
    case Conditional(r) => RuleVocabulary(env, r, k);
    case Block(_, _, _) => BlockVocabulary(env, item, k);
  }

  /** Printed statements use the words and signs of the vocabulary for the kinds that have fixed texts. */
  lemma {:induction false} PrintedInVocabulary(env: Env, items: seq<Item>, end: Pos)
    requires ItemsOk(env, items)
    ensures AllInVocabulary(PrintItems(env, items, end))
    decreases |items|
  {
    if items != [] {
      PrintedInVocabulary(After(env, items[0]), items[1..], end);
      ItemVocabulary(env, items[0], PrintItems(After(env, items[0]), items[1..], end));
    }
  }

  // ---- every accepted script is made up so ----

  lemma DefinitionRead(env: Env, ts: Stream)
    requires AtDefinition(ts) && ParseDefinition(env, ts).Ok?
    ensures ItemOk(env, Named(ParseDefinition(env, ts).value))
  {
    FunctionSound(env, ts);
    var d := ParseDefinition(env, ts).value;
    if d.Constant? {
      LiteralRead(env, ts);
    }
  }

  lemma LiteralRead(env: Env, ts: Stream)
    requires AtDefinition(ts) && ParseDefinition(env, ts).Ok? && ParseDefinition(env, ts).value.Constant?
    ensures LiteralOk(env, ParseDefinition(env, ts).value.decl.value)
  {
    var tok := ts.tl.tl.hd;
    assert ParseDefinition(env, ts).value.decl.value == Literal(env, tok);
    assert tok.kind == NUMBER ==> Spellable(env, env.reg.numeral(tok.text));
  }

  lemma ActionRead(env: Env, ts: Stream)
    ensures var p := ParseAction(env, ts); p.Ok? && p.value.qty.Percent? ==> Spellable(env, p.value.qty.value)
  {
    if ts.Cons? && ts.tl.Cons? {
      assert Spellable(env, env.reg.numeral(ts.tl.hd.text));
    }
  }

  lemma RuleRead(env: Env, ts: Stream)
    requires ParseRule(env, ts).Ok?
    ensures ItemOk(env, Conditional(ParseRule(env, ts).value))
  {
    RuleSound(env, ts);
    ActionRead(env, Expect(ARROW, Operand(env, OR_LEVEL, Boolean, ts).rest).rest);
  }

  /** The statement that has been read. */
  lemma ItemRead(env: Env, acc: ScriptV2, ts: Stream) returns (item: Item)
    requires RuleItem(env, acc, ts).Ok?
    ensures ItemOk(env, item) && RuleItem(env, acc, ts).value == (After(env, item), AddItem(acc, item))
  {
    if AtV1Block(ts, KW_BUY) || AtV1Block(ts, KW_SELL) {
      BlockSound(env, ts);
      item := Block(if ts.Kind() == KW_BUY then Buy else Sell, ParseBlock(env, ts).value, ts.hd.at);
    } else if AtDefinition(ts) {
      DefinitionRead(env, ts);
      item := Named(ParseDefinition(env, ts).value);
    } else {
      RuleRead(env, ts);
      item := Conditional(ParseRule(env, ts).value);
    }
  }

  lemma {:induction false} ItemsRead(env: Env, acc: ScriptV2, ts: Stream) returns (items: seq<Item>)
    requires RuleItems(env, acc, ts).Ok?
    ensures ItemsOk(env, items) && RuleItems(env, acc, ts).value == AddAll(acc, items)
    ensures AddAll(acc, items).rules != []
    decreases ts.Len()
  {
    items := [];
    if ts.Kind() != EOF {
      var p := RuleItem(env, acc, ts);
      var item := ItemRead(env, acc, ts);
      var rest := ItemsRead(p.value.0, p.value.1, p.rest);
      items := [item] + rest;
      assert items[1..] == rest;
    }
  }

  /** The scripts version 2 accepts are exactly those that well-formed statements make up. */
  lemma ExactlyScripts(reg: Registry, s: ScriptV2)
    ensures (exists ts, rest :: ParseScriptV2(reg, ts) == Ok(s, rest)) <==>
            (exists items :: Script2(reg, items) && s == AddAll(EMPTY_SCRIPT, items))
  {
    forall ts, rest | ParseScriptV2(reg, ts) == Ok(s, rest)
      ensures exists items :: Script2(reg, items) && s == AddAll(EMPTY_SCRIPT, items)
    {
      var items := ItemsRead(StartEnv(reg, true), EMPTY_SCRIPT, SkipNewlines(ts));
    }
    forall items | Script2(reg, items) && s == AddAll(EMPTY_SCRIPT, items)
      ensures exists ts, rest :: ParseScriptV2(reg, ts) == Ok(s, rest)
    {
      PrintScriptParse(reg, items, Pos(0, 0));
    }
  }

  // ---- version 1 ----

  const EMPTY_DRAFT := Draft([], None, None)

  /** The script under construction with a function definition or a block added. */
  function AddDraft(d: Draft, item: Item): Draft {
    match item
    case Named(Function(f)) => d.(funcs := d.funcs + [f])
    case Block(Buy, e, _) => d.(buy := Some(e))
    case Block(Sell, e, _) => d.(sell := Some(e))
    case _ => d
  }

  function AddDrafts(d: Draft, items: seq<Item>): Draft
    decreases |items|
  {
    if items == [] then d else AddDrafts(AddDraft(d, items[0]), items[1..])
  }

  /** Functions and blocks only, and no block twice. */
  predicate Admitted(d: Draft, item: Item) {
    match item
    case Named(Function(_)) => true
    case Block(Buy, _, _) => d.buy == None
    case Block(Sell, _, _) => d.sell == None
    case _ => false
  }

  ghost predicate DraftOk(env: Env, d: Draft, items: seq<Item>)
    decreases |items|
  {
    items == [] ||
    (ItemOk(env, items[0]) && Admitted(d, items[0]) &&
     DraftOk(After(env, items[0]), AddDraft(d, items[0]), items[1..]))
  }

  lemma {:induction false} DraftItemsOk(env: Env, d: Draft, items: seq<Item>)
    requires DraftOk(env, d, items)
    ensures ItemsOk(env, items)
    decreases |items|
  {
    if items != [] {
      DraftItemsOk(After(env, items[0]), AddDraft(d, items[0]), items[1..]);
    }
  }

  /** The script of a finished draft. */
  function Finished(d: Draft): Option<Script> {
    if d.buy.Some? && d.sell.Some? then Some(Script(d.funcs, d.buy.value, d.sell.value)) else None
  }

  /** The statements form the version 1 script `s`. */
  ghost predicate MakesUp(reg: Registry, items: seq<Item>, s: Script) {
    DraftOk(StartEnv(reg, false), EMPTY_DRAFT, items) && Finished(AddDrafts(EMPTY_DRAFT, items)) == Some(s)
  }

  lemma DraftFunction(env: Env, d: Draft, f: FuncDef, ts: Stream, k: Stream)
    requires AtFuncDef(ts) && ParseFuncDef(env, ts) == Ok(f, k)
    ensures ScriptItem(env, d, ts) == Ok((Declare(env, f), d.(funcs := d.funcs + [f])), k)
  {
  }

  lemma DraftBlock(env: Env, d: Draft, side: Side, ts: Stream, e: Expr, k: Stream)
    requires ts.Cons? && ts.Kind() == (if side == Buy then KW_BUY else KW_SELL) && ParseBlock(env, ts) == Ok(e, k)
    requires (if side == Buy then d.buy else d.sell) == None
    ensures ScriptItem(env, d, ts) == Ok((env, if side == Buy then d.(buy := Some(e)) else d.(sell := Some(e))), k)
  {
  }

  lemma DraftItemParse(env: Env, d: Draft, item: Item, k: Stream)
    requires ItemOk(env, item) && Admitted(d, item) && k.Kind() != NEWLINE
    ensures ScriptItem(env, d, PrintItem(env, item, k)) == Ok((After(env, item), AddDraft(d, item)), k)
  {
    if item.Block? {
      BlockParse(env, item.side, item.body, item.at, k);
      DraftBlock(env, d, item.side, PrintItem(env, item, k), item.body, k);
    } else {
      FunctionParse(env, item.def.def, k);
      DraftFunction(env, d, item.def.def, PrintItem(env, item, k), k);
    }
  }

  lemma {:induction false} DraftParse(env: Env, d: Draft, items: seq<Item>, end: Pos)
    requires DraftOk(env, d, items) && ItemsOk(env, items)
    ensures ScriptItems(env, d, PrintItems(env, items, end)) ==
            var s := Finished(AddDrafts(d, items));
            if s == None then Fail(SyntaxError, end) else Ok(s.value, Eof(end))
    decreases |items|
  {
    if items != [] {
      var next, rest := After(env, items[0]), PrintItems(After(env, items[0]), items[1..], end);
      PrintStart(env, items, end);
      PrintStart(next, items[1..], end);
      DraftItemParse(env, d, items[0], rest);
      DraftParse(next, AddDraft(d, items[0]), items[1..], end);
    }
  }

  /** The version 1 script of its statements, printed, is parsed back. */
  lemma PrintScriptParseV1(reg: Registry, items: seq<Item>, s: Script, end: Pos)
    requires MakesUp(reg, items, s)
    ensures ItemsOk(StartEnv(reg, false), items)
    ensures ParseScript(reg, PrintItems(StartEnv(reg, false), items, end)) == Ok(s, Eof(end))
  {
    DraftItemsOk(StartEnv(reg, false), EMPTY_DRAFT, items);
    PrintStart(StartEnv(reg, false), items, end);
    DraftParse(StartEnv(reg, false), EMPTY_DRAFT, items, end);
  }

  lemma FuncDefRead(env: Env, ts: Stream)
    requires AtFuncDef(ts) && ParseFuncDef(env, ts).Ok? && env.consts == {}
    ensures ItemOk(env, Named(Function(ParseFuncDef(env, ts).value)))
  {
    FunctionSound(env, ts);
  }

  lemma DraftItemRead(env: Env, d: Draft, ts: Stream) returns (item: Item)
    requires ScriptItem(env, d, ts).Ok? && env.consts == {}
    ensures ItemOk(env, item) && Admitted(d, item)
    ensures ScriptItem(env, d, ts).value == (After(env, item), AddDraft(d, item)) && After(env, item).consts == {}
  {
    if ts.Kind() == KW_BUY || ts.Kind() == KW_SELL {
      BlockSound(env, ts);
      item := Block(if ts.Kind() == KW_BUY then Buy else Sell, ParseBlock(env, ts).value, ts.hd.at);
    } else {
      FuncDefRead(env, ts);
      item := Named(Function(ParseFuncDef(env, ts).value));
    }
  }

  lemma {:induction false} DraftRead(env: Env, d: Draft, ts: Stream) returns (items: seq<Item>)
    requires ScriptItems(env, d, ts).Ok? && env.consts == {}
    ensures DraftOk(env, d, items) && Finished(AddDrafts(d, items)) == Some(ScriptItems(env, d, ts).value)
    decreases ts.Len()
  {
    items := [];
    if ts.Kind() != EOF {
      var p := ScriptItem(env, d, ts);
      var item := DraftItemRead(env, d, ts);
      var rest := DraftRead(p.value.0, p.value.1, p.rest);
      items := [item] + rest;
      assert items[1..] == rest;
    }
  }

  ghost predicate AcceptedV1(reg: Registry, s: Script) {
    exists ts, rest :: ParseScript(reg, ts) == Ok(s, rest)
  }

  lemma ReadMakesUp(reg: Registry, ts: Stream)
    requires ParseScript(reg, ts).Ok?
    ensures exists items :: MakesUp(reg, items, ParseScript(reg, ts).value)
  {
    var items := DraftRead(StartEnv(reg, false), EMPTY_DRAFT, SkipNewlines(ts));
    assert MakesUp(reg, items, ParseScript(reg, ts).value);
  }

  lemma MakesUpRead(reg: Registry, items: seq<Item>, s: Script)
    requires MakesUp(reg, items, s)
    ensures AcceptedV1(reg, s)
  {
    PrintScriptParseV1(reg, items, s, Pos(0, 0));
  }

  /** The scripts version 1 accepts are exactly those that well-formed statements make up. */
  lemma ExactlyScriptsV1(reg: Registry, s: Script)
    ensures AcceptedV1(reg, s) <==> exists items :: MakesUp(reg, items, s)
  {
    if AcceptedV1(reg, s) {
      var ts, rest :| ParseScript(reg, ts) == Ok(s, rest);
      ReadMakesUp(reg, ts);
    } else if exists items :: MakesUp(reg, items, s) {
      var items :| MakesUp(reg, items, s);
      MakesUpRead(reg, items, s);
    }
  }
}
