/** Scope and type discipline of accepted scripts, and acceptance of version 1 scripts by version 2. */
module ScriptSound {
  import opened Common
  import opened Syntax
  import opened Grammar
  import opened ScriptGrammar
  import opened RoundTrip

  /** The names visible after the definitions `funcs`. */
  function NamesAfter(env: Env, funcs: seq<FuncDef>): Env {
    if funcs == [] then env else Declare(NamesAfter(env, funcs[..|funcs| - 1]), funcs[|funcs| - 1])
  }

  /** Every body is well-formed where it stands: its own name and later names are not visible. */
  ghost predicate FuncsOk(env: Env, funcs: seq<FuncDef>) {
    forall i :: 0 <= i < |funcs| ==>
      var before := NamesAfter(env, funcs[..i]);
      funcs[i].name !in before.customs && WF(before.(current := Some(funcs[i].name)), funcs[i].body)
  }

  /** A boolean condition, well-formed under some prefix of the definitions. */
  ghost predicate ConditionOk(env: Env, funcs: seq<FuncDef>, e: Expr) {
    exists j :: 0 <= j <= |funcs| &&
      WF(NamesAfter(env, funcs[..j]), e) && TypeOk(NamesAfter(env, funcs[..j]), e, Boolean)
  }

  ghost predicate DraftOk(env: Env, d: Draft) {
    && FuncsOk(env, d.funcs)
    && (d.buy.Some? ==> ConditionOk(env, d.funcs, d.buy.value))
    && (d.sell.Some? ==> ConditionOk(env, d.funcs, d.sell.value))
  }

  lemma ConditionStays(env: Env, funcs: seq<FuncDef>, e: Expr, f: FuncDef)
    requires ConditionOk(env, funcs, e)
    ensures ConditionOk(env, funcs + [f], e)
  {
    var j :| 0 <= j <= |funcs| && WF(NamesAfter(env, funcs[..j]), e) && TypeOk(NamesAfter(env, funcs[..j]), e, Boolean);
    assert (funcs + [f])[..j] == funcs[..j];
  }

  lemma FuncsExtend(env: Env, funcs: seq<FuncDef>, f: FuncDef)
    requires FuncsOk(env, funcs)
    requires f.name !in NamesAfter(env, funcs).customs
    requires WF(NamesAfter(env, funcs).(current := Some(f.name)), f.body)
    ensures FuncsOk(env, funcs + [f])
    ensures NamesAfter(env, funcs + [f]) == Declare(NamesAfter(env, funcs), f)
  {
    var more := funcs + [f];
    assert more[..|funcs|] == funcs;
    forall i | 0 <= i < |funcs|
      ensures more[..i] == funcs[..i] && more[i] == funcs[i]
    {
    }
  }

  /** The visible custom functions are exactly the ones defined so far. */
  lemma {:induction false} VisibleFuncs(env: Env, funcs: seq<FuncDef>)
    ensures NamesAfter(env, funcs).customs.Keys == env.customs.Keys + set f | f in funcs :: f.name
    ensures NamesAfter(env, funcs) == env.(customs := NamesAfter(env, funcs).customs)
  {
    if funcs != [] {
      var init := funcs[..|funcs| - 1];
      VisibleFuncs(env, init);
      assert funcs == init + [funcs[|funcs| - 1]];
    }
  }

  lemma ConditionNow(env: Env, funcs: seq<FuncDef>, e: Expr)
    requires WF(NamesAfter(env, funcs), e) && TypeOk(NamesAfter(env, funcs), e, Boolean)
    ensures ConditionOk(env, funcs, e)
  {
    assert funcs[..|funcs|] == funcs;
  }

  lemma BlockSound(env: Env, ts: Stream)
    requires ts.Cons?
    ensures var p := ParseBlock(env, ts); p.Ok? ==> WF(env, p.value) && TypeOk(env, p.value, Boolean)
  {
    if ts.tl.Kind() == COLON {
      ParserSound(env, OR_LEVEL, ts.tl.tl);
    }
  }

  // ---- version 1 ----

  lemma ScriptItemSound(env: Env, d: Draft, ts: Stream)
    requires DraftOk(env, d)
    ensures var p := ScriptItem(NamesAfter(env, d.funcs), d, ts);
            p.Ok? ==> DraftOk(env, p.value.1) && p.value.0 == NamesAfter(env, p.value.1.funcs)
  {
    var now := NamesAfter(env, d.funcs);
    var p := ScriptItem(now, d, ts);
    if p.Ok? {
      if ts.Kind() == KW_BUY || ts.Kind() == KW_SELL {
        BlockSound(now, ts);
        ConditionNow(env, d.funcs, ParseBlock(now, ts).value);
      } else {
        var f := ParseFuncDef(now, ts).value;
        ParserSound(now.(current := Some(f.name)), OR_LEVEL, ts.tl.tl.tl.tl);
        FuncsExtend(env, d.funcs, f);
        if d.buy.Some? { ConditionStays(env, d.funcs, d.buy.value, f); }
        if d.sell.Some? { ConditionStays(env, d.funcs, d.sell.value, f); }
      }
    }
  }

  lemma {:induction false} ScriptItemsSound(env: Env, d: Draft, ts: Stream)
    requires DraftOk(env, d)
    ensures var p := ScriptItems(NamesAfter(env, d.funcs), d, ts);
            p.Ok? ==> DraftOk(env, Draft(p.value.funcs, Some(p.value.buy), Some(p.value.sell)))
    decreases ts.Len()
  {
    if ts.Kind() != EOF {
      ScriptItemSound(env, d, ts);
      var p := ScriptItem(NamesAfter(env, d.funcs), d, ts);
      if p.Ok? { ScriptItemsSound(env, p.value.1, p.rest); }
    }
  }

  /** An accepted version 1 script has well-typed, well-scoped bodies and conditions; since a body sees
      only earlier names, no definition depends on itself. */
  lemma AcceptedScript(reg: Registry, ts: Stream)
    ensures var p := ParseScript(reg, ts);
            p.Ok? ==> var env := StartEnv(reg, false);
                      FuncsOk(env, p.value.funcs) &&
                      ConditionOk(env, p.value.funcs, p.value.buy) && ConditionOk(env, p.value.funcs, p.value.sell)
  {
    ScriptItemsSound(StartEnv(reg, false), Draft([], None, None), SkipNewlines(ts));
  }

  // ---- version 2 ----

  function ConstNames(consts: seq<ConstDecl>): set<string> {
    set c | c in consts :: c.name
  }

  function BaseEnv(reg: Registry, consts: seq<ConstDecl>): Env {
    StartEnv(reg, true).(consts := ConstNames(consts))
  }

  /** A rule's condition is as written, or a buy block with the holding test added. */
  ghost predicate RuleOk(env: Env, funcs: seq<FuncDef>, r: Rule) {
    ConditionOk(env, funcs, r.condition) || exists e, at :: r == BuyRule(e, at) && ConditionOk(env, funcs, e)
  }

  predicate IsLiteral(e: Expr) {
    e.NumberLit? || e.StringLit?
  }

  ghost predicate ScriptV2Ok(reg: Registry, s: ScriptV2) {
    var env := BaseEnv(reg, s.consts);
    && FuncsOk(env, s.funcs)
    && (forall r :: r in s.rules ==> RuleOk(env, s.funcs, r))
    && (forall c :: c in s.consts ==> IsLiteral(c.value))
  }

  lemma {:induction false} MoreConsts(env: Env, cs: set<string>, e: Expr)
    requires WF(env, e) && env.consts <= cs
    ensures WF(env.(consts := cs), e)
    decreases e
  {
    match e
    case FuncCall(_, args, _) =>
      forall a | a in args ensures WF(env.(consts := cs), a) { MoreConsts(env, cs, a); }
    case Binary(_, l, r, _) => MoreConsts(env, cs, l); MoreConsts(env, cs, r);
    case Compare(_, l, r, _) => MoreConsts(env, cs, l); MoreConsts(env, cs, r);
    case Unary(_, o, _) => MoreConsts(env, cs, o);
    case IndexAccess(b, _, _) => MoreConsts(env, cs, b);
    case NumberLit(v, _) =>
      var t :| env.reg.numeral(t) == v;
      assert env.(consts := cs).reg.numeral(t) == v;
    case _ =>
  }

  lemma {:induction false} NamesMoreConsts(env: Env, cs: set<string>, funcs: seq<FuncDef>)
    ensures NamesAfter(env.(consts := cs), funcs) == NamesAfter(env, funcs).(consts := cs)
    decreases |funcs|
  {
    if funcs != [] { NamesMoreConsts(env, cs, funcs[..|funcs| - 1]); }
  }

  lemma FuncsMoreConsts(env: Env, cs: set<string>, funcs: seq<FuncDef>)
    requires FuncsOk(env, funcs) && env.consts <= cs
    ensures FuncsOk(env.(consts := cs), funcs)
  {
    forall i | 0 <= i < |funcs|
      ensures var before := NamesAfter(env.(consts := cs), funcs[..i]);
              funcs[i].name !in before.customs && WF(before.(current := Some(funcs[i].name)), funcs[i].body)
    {
      NamesMoreConsts(env, cs, funcs[..i]);
      VisibleFuncs(env, funcs[..i]);
      MoreConsts(NamesAfter(env, funcs[..i]).(current := Some(funcs[i].name)), cs, funcs[i].body);
    }
  }

  lemma ConditionMoreConsts(env: Env, cs: set<string>, funcs: seq<FuncDef>, e: Expr)
    requires ConditionOk(env, funcs, e) && env.consts <= cs
    ensures ConditionOk(env.(consts := cs), funcs, e)
  {
    var j :| 0 <= j <= |funcs| && WF(NamesAfter(env, funcs[..j]), e) && TypeOk(NamesAfter(env, funcs[..j]), e, Boolean);
    NamesMoreConsts(env, cs, funcs[..j]);
    VisibleFuncs(env, funcs[..j]);
    MoreConsts(NamesAfter(env, funcs[..j]), cs, e);
  }

  lemma RuleMoreConsts(env: Env, cs: set<string>, funcs: seq<FuncDef>, r: Rule)
    requires RuleOk(env, funcs, r) && env.consts <= cs
    ensures RuleOk(env.(consts := cs), funcs, r)
  {
    if ConditionOk(env, funcs, r.condition) {
      ConditionMoreConsts(env, cs, funcs, r.condition);
    } else {
      var e, at :| r == BuyRule(e, at) && ConditionOk(env, funcs, e);
      ConditionMoreConsts(env, cs, funcs, e);
    }
  }

  lemma RuleStays(env: Env, funcs: seq<FuncDef>, r: Rule, f: FuncDef)
    requires RuleOk(env, funcs, r)
    ensures RuleOk(env, funcs + [f], r)
  {
    if ConditionOk(env, funcs, r.condition) {
      ConditionStays(env, funcs, r.condition, f);
    } else {
      var e, at :| r == BuyRule(e, at) && ConditionOk(env, funcs, e);
      ConditionStays(env, funcs, e, f);
    }
  }

  lemma AddConstSound(reg: Registry, s: ScriptV2, c: ConstDecl)
    requires ScriptV2Ok(reg, s) && IsLiteral(c.value)
    ensures ScriptV2Ok(reg, s.(consts := s.consts + [c]))
    ensures BaseEnv(reg, s.consts + [c]) == BaseEnv(reg, s.consts).(consts := ConstNames(s.consts) + {c.name})
  {
    var env, cs := BaseEnv(reg, s.consts), ConstNames(s.consts + [c]);
    assert cs == ConstNames(s.consts) + {c.name};
    FuncsMoreConsts(env, cs, s.funcs);
    forall r | r in s.rules ensures RuleOk(env.(consts := cs), s.funcs, r) { RuleMoreConsts(env, cs, s.funcs, r); }
  }

  lemma AddFuncSound(reg: Registry, s: ScriptV2, f: FuncDef)
    requires ScriptV2Ok(reg, s)
    requires var now := NamesAfter(BaseEnv(reg, s.consts), s.funcs);
             f.name !in now.customs && WF(now.(current := Some(f.name)), f.body)
    ensures ScriptV2Ok(reg, s.(funcs := s.funcs + [f]))
  {
    var env := BaseEnv(reg, s.consts);
    FuncsExtend(env, s.funcs, f);
    forall r | r in s.rules ensures RuleOk(env, s.funcs + [f], r) { RuleStays(env, s.funcs, r, f); }
  }

  lemma AddRuleSound(reg: Registry, s: ScriptV2, r: Rule, e: Expr, at: Pos)
    requires ScriptV2Ok(reg, s) && (r.condition == e || r == BuyRule(e, at))
    requires var now := NamesAfter(BaseEnv(reg, s.consts), s.funcs); WF(now, e) && TypeOk(now, e, Boolean)
    ensures ScriptV2Ok(reg, s.(rules := s.rules + [r]))
  {
    ConditionNow(BaseEnv(reg, s.consts), s.funcs, e);
  }

  /** A custom function just read has a fresh name and a well-formed body. */
  lemma FunctionSound(env: Env, ts: Stream)
    requires AtDefinition(ts)
    ensures var p := ParseDefinition(env, ts);
            p.Ok? && p.value.Function? ==>
              p.value.def.name !in env.customs && WF(env.(current := Some(p.value.def.name)), p.value.def.body)
  {
    var p := ParseDefinition(env, ts);
    if p.Ok? && p.value.Function? {
      ParserSound(env.(current := Some(ts.hd.text)), OR_LEVEL, if AtFuncDef(ts) then ts.tl.tl.tl.tl else ts.tl.tl);
    }
  }

  lemma ConstantSound(env: Env, ts: Stream)
    requires AtDefinition(ts)
    ensures var p := ParseDefinition(env, ts); p.Ok? && p.value.Constant? ==> IsLiteral(p.value.decl.value)
  {
  }

  lemma RuleSound(env: Env, ts: Stream)
    ensures var p := ParseRule(env, ts);
            p.Ok? ==> WF(env, p.value.condition) && TypeOk(env, p.value.condition, Boolean)
  {
    ParserSound(env, OR_LEVEL, ts);
  }

  lemma DefinitionSound(reg: Registry, s: ScriptV2, ts: Stream)
    requires ScriptV2Ok(reg, s) && AtDefinition(ts)
    ensures var now := NamesAfter(BaseEnv(reg, s.consts), s.funcs);
            var p := ParseDefinition(now, ts);
            p.Ok? ==> var s' := AddDefinition(s, p.value);
                      ScriptV2Ok(reg, s') && Define(now, p.value) == NamesAfter(BaseEnv(reg, s'.consts), s'.funcs)
  {
    var env := BaseEnv(reg, s.consts);
    var now := NamesAfter(env, s.funcs);
    var p := ParseDefinition(now, ts);
    FunctionSound(now, ts);
    ConstantSound(now, ts);
    VisibleFuncs(env, s.funcs);
    if p.Ok? {
      match p.value
      case Constant(c) =>
        AddConstSound(reg, s, c);
        NamesMoreConsts(env, ConstNames(s.consts) + {c.name}, s.funcs);
      case Function(f) =>
        AddFuncSound(reg, s, f);
        FuncsExtend(env, s.funcs, f);
    }
  }

  ghost predicate ItemOk(reg: Registry, p: Parsed<(Env, ScriptV2)>) {
    p.Ok? ==> ScriptV2Ok(reg, p.value.1) && p.value.0 == NamesAfter(BaseEnv(reg, p.value.1.consts), p.value.1.funcs)
  }

  lemma BlockItemSound(reg: Registry, s: ScriptV2, ts: Stream)
    requires ScriptV2Ok(reg, s) && (AtV1Block(ts, KW_BUY) || AtV1Block(ts, KW_SELL))
    ensures ItemOk(reg, RuleItem(NamesAfter(BaseEnv(reg, s.consts), s.funcs), s, ts))
  {
    var now := NamesAfter(BaseEnv(reg, s.consts), s.funcs);
    var p := ParseBlock(now, ts);
    BlockSound(now, ts);
    if p.Ok? {
      var rule := if ts.Kind() == KW_BUY then BuyRule(p.value, ts.hd.at) else SellRule(p.value);
      AddRuleSound(reg, s, rule, p.value, ts.hd.at);
    }
  }

  lemma PlainRuleSound(reg: Registry, s: ScriptV2, ts: Stream)
    requires ScriptV2Ok(reg, s)
    ensures var p := ParseRule(NamesAfter(BaseEnv(reg, s.consts), s.funcs), ts);
            p.Ok? ==> ScriptV2Ok(reg, s.(rules := s.rules + [p.value]))
  {
    var now := NamesAfter(BaseEnv(reg, s.consts), s.funcs);
    RuleSound(now, ts);
    var p := ParseRule(now, ts);
    if p.Ok? {
      AddRuleSound(reg, s, p.value, p.value.condition, Pos(0, 0));
    }
  }

  lemma RuleItemSound(reg: Registry, s: ScriptV2, ts: Stream)
    requires ScriptV2Ok(reg, s)
    ensures ItemOk(reg, RuleItem(NamesAfter(BaseEnv(reg, s.consts), s.funcs), s, ts))
  {
    if AtV1Block(ts, KW_BUY) || AtV1Block(ts, KW_SELL) {
      BlockItemSound(reg, s, ts);
    } else if AtDefinition(ts) {
      DefinitionSound(reg, s, ts);
    } else {
      PlainRuleSound(reg, s, ts);
    }
  }

  lemma {:induction false} RuleItemsSound(reg: Registry, s: ScriptV2, ts: Stream)
    requires ScriptV2Ok(reg, s)
    ensures var p := RuleItems(NamesAfter(BaseEnv(reg, s.consts), s.funcs), s, ts); p.Ok? ==> ScriptV2Ok(reg, p.value)
    decreases ts.Len()
  {
    if ts.Kind() != EOF {
      RuleItemSound(reg, s, ts);
      var p := RuleItem(NamesAfter(BaseEnv(reg, s.consts), s.funcs), s, ts);
      if p.Ok? { RuleItemsSound(reg, p.value.1, p.rest); }
    }
  }

  /** The same for version 2: every rule is a well-typed condition over earlier names, constants are literals. */
  lemma AcceptedScriptV2(reg: Registry, ts: Stream)
    ensures ParseScriptV2(reg, ts).Ok? ==> ScriptV2Ok(reg, ParseScriptV2(reg, ts).value)
  {
    var s := ScriptV2([], [], []);
    assert BaseEnv(reg, s.consts) == StartEnv(reg, true);
    RuleItemsSound(reg, s, SkipNewlines(ts));
  }

  // ---- version 2 reads what version 1 reads ----

  function V2(env: Env): Env {
    env.(v2 := true)
  }

  /** A name environment without constants, as every version 1 script has. */
  predicate V1Names(env: Env) {
    !env.v2 && env.consts == {}
  }

  lemma {:induction false} ParseAgrees(env: Env, lvl: nat, ts: Stream)
    requires V1Names(env) && 1 <= lvl <= 9
    ensures Parse(env, lvl, ts).Ok? ==> Parse(V2(env), lvl, ts) == Parse(env, lvl, ts)
    decreases ts.Len(), 10 - lvl, 1
  {
    if IsLoopLevel(lvl) {
      ParseAgrees(env, lvl + 1, ts);
      var p := Parse(env, lvl + 1, ts);
      if p.Ok? { TailAgrees(env, lvl, p.value, p.rest); }
    } else if lvl == NOT_LEVEL || lvl == NEG_LEVEL {
      PrefixAgrees(env, lvl, ts);
    } else if lvl == CMP_LEVEL {
      ParseAgrees(env, ADD_LEVEL, ts);
      var p := Parse(env, ADD_LEVEL, ts);
      if p.Ok? { CompareAgrees(env, p.value, p.rest); }
    } else if lvl == INDEX_LEVEL {
      ParseAgrees(env, PRIMARY_LEVEL, ts);
    } else {
      PrimaryAgrees(env, ts);
    }
  }

  lemma {:induction false} PrefixAgrees(env: Env, lvl: nat, ts: Stream)
    requires V1Names(env) && (lvl == NOT_LEVEL || lvl == NEG_LEVEL)
    ensures ParsePrefix(env, lvl, ts).Ok? ==> ParsePrefix(V2(env), lvl, ts) == ParsePrefix(env, lvl, ts)
    decreases ts.Len(), 10 - lvl, 0
  {
    if ts.Cons? { ParseAgrees(env, lvl, ts.tl); }
    ParseAgrees(env, lvl + 1, ts);
  }

  lemma {:induction false} OperandAgrees(env: Env, lvl: nat, expected: Ty, ts: Stream)
    requires V1Names(env) && 1 <= lvl <= 9
    ensures Operand(env, lvl, expected, ts).Ok? ==>
              Operand(V2(env), lvl, expected, ts) == Operand(env, lvl, expected, ts)
    decreases ts.Len(), 10 - lvl, 2
  {
    ParseAgrees(env, lvl, ts);
  }

  /** One round of an operator loop. */
  lemma TailRound(env: Env, lvl: nat, left: Expr, ts: Stream)
    requires IsLoopLevel(lvl) && LoopOp(lvl, ts.Kind()).Some? && TypeOk(env, left, OperandType(lvl))
    ensures var p := Operand(env, lvl + 1, OperandType(lvl), ts.tl);
            Tail(env, lvl, left, ts) ==
            if p.Ok? then Tail(env, lvl, Binary(LoopOp(lvl, ts.Kind()).value, left, p.value, ts.hd.at), p.rest)
            else Bad(p.error)
  {
  }

  lemma {:induction false} TailAgrees(env: Env, lvl: nat, left: Expr, ts: Stream)
    requires V1Names(env) && IsLoopLevel(lvl)
    ensures Tail(env, lvl, left, ts).Ok? ==> Tail(V2(env), lvl, left, ts) == Tail(env, lvl, left, ts)
    decreases ts.Len(), 0, 0
  {
    var op := LoopOp(lvl, ts.Kind());
    if op != None && TypeOk(env, left, OperandType(lvl)) {
      OperandAgrees(env, lvl + 1, OperandType(lvl), ts.tl);
      TailRound(env, lvl, left, ts);
      TailRound(V2(env), lvl, left, ts);
      var p := Operand(env, lvl + 1, OperandType(lvl), ts.tl);
      if p.Ok? { TailAgrees(env, lvl, Binary(op.value, left, p.value, ts.hd.at), p.rest); }
    }
  }

  lemma {:induction false} CompareAgrees(env: Env, left: Expr, ts: Stream)
    requires V1Names(env)
    ensures CompareTail(env, left, ts).Ok? ==> CompareTail(V2(env), left, ts) == CompareTail(env, left, ts)
    decreases ts.Len(), 1, 0
  {
    if ts.Kind() == KW_BETWEEN {
      BetweenAgrees(env, left, ts);
    } else if CmpOf(ts.Kind()) != None {
      OperandAgrees(env, ADD_LEVEL, Number, ts.tl);
    }
  }

  lemma {:induction false} BetweenAgrees(env: Env, left: Expr, ts: Stream)
    requires V1Names(env) && ts.Cons?
    ensures BetweenTail(env, left, ts).Ok? ==> BetweenTail(V2(env), left, ts) == BetweenTail(env, left, ts)
    decreases ts.Len(), 0, 0
  {
    OperandAgrees(env, ADD_LEVEL, Number, ts.tl);
    var p := Operand(env, ADD_LEVEL, Number, ts.tl);
    if p.Ok? {
      UpperBoundAgrees(env, p.rest);
    }
  }

  lemma {:induction false} UpperBoundAgrees(env: Env, ts: Stream)
    requires V1Names(env)
    ensures UpperBound(env, ts).Ok? ==> UpperBound(V2(env), ts) == UpperBound(env, ts)
    decreases ts.Len(), 0, 0
  {
    if ts.Kind() == AND && ts.Cons? {
      OperandAgrees(env, ADD_LEVEL, Number, ts.tl);
    }
  }

  lemma {:induction false} PrimaryAgrees(env: Env, ts: Stream)
    requires V1Names(env)
    ensures ParsePrimary(env, ts).Ok? ==> ParsePrimary(V2(env), ts) == ParsePrimary(env, ts)
    decreases ts.Len(), 0, 0
  {
    if ts.Kind() == LPAREN {
      ParseAgrees(env, OR_LEVEL, ts.tl);
    } else if ts.Kind() == IDENT {
      IdentAgrees(env, ts.hd, ts.tl);
    }
  }

  lemma {:induction false} IdentAgrees(env: Env, name: Token, ts: Stream)
    requires V1Names(env)
    ensures ParseIdent(env, name, ts).Ok? ==> ParseIdent(V2(env), name, ts) == ParseIdent(env, name, ts)
    decreases ts.Len(), 20, 0
  {
    if ts.Kind() == LPAREN && ts.tl.Kind() != RPAREN {
      ArgsAgree(env, [], ts.tl);
    }
  }

  lemma {:induction false} ArgsAgree(env: Env, read: seq<Expr>, ts: Stream)
    requires V1Names(env)
    ensures ParseArgs(env, read, ts).Ok? ==> ParseArgs(V2(env), read, ts) == ParseArgs(env, read, ts)
    decreases ts.Len(), 15, 0
  {
    ParseAgrees(env, OR_LEVEL, ts);
    var p := Parse(env, OR_LEVEL, ts);
    if p.Ok? && p.rest.Kind() == COMMA {
      ArgsAgree(env, read + [p.value], p.rest.tl);
    }
  }

  /** The rules a version 1 script becomes, in the order its blocks were written. */
  function Desugar(buy: Option<Expr>, sell: Option<Expr>, at: Pos, buyFirst: bool): seq<Rule> {
    var b := if buy.Some? then [BuyRule(buy.value, at)] else [];
    var s := if sell.Some? then [SellRule(sell.value)] else [];
    if buyFirst then b + s else s + b
  }

  lemma BlockAgrees(env: Env, d: Draft, ts: Stream, at: Pos, buyFirst: bool) returns (at': Pos, buyFirst': bool)
    requires V1Names(env)
    requires ts.Cons? && (ts.Kind() == KW_BUY || ts.Kind() == KW_SELL) && ScriptItem(env, d, ts).Ok?
    ensures var p := ScriptItem(env, d, ts);
            var d' := p.value.1;
            p.value.0 == env && d'.funcs == d.funcs &&
            RuleItem(V2(env), ScriptV2(d.funcs, [], Desugar(d.buy, d.sell, at, buyFirst)), ts) ==
            Ok((V2(env), ScriptV2(d.funcs, [], Desugar(d'.buy, d'.sell, at', buyFirst'))), p.rest) &&
            !(d'.buy == d'.sell == None)
  {
    ParseAgrees(env, OR_LEVEL, ts.tl.tl);
    var e := ParseBlock(env, ts).value;
    assert ParseBlock(V2(env), ts) == ParseBlock(env, ts);
    if ts.Kind() == KW_BUY {
      at', buyFirst' := ts.hd.at, d.sell == None;
      assert Desugar(d.buy, d.sell, at, buyFirst) + [BuyRule(e, at')] == Desugar(Some(e), d.sell, at', buyFirst');
    } else {
      at', buyFirst' := at, d.buy != None;
      assert Desugar(d.buy, d.sell, at, buyFirst) + [SellRule(e)] == Desugar(d.buy, Some(e), at, buyFirst');
    }
  }

  lemma ParseFuncDefAgrees(env: Env, ts: Stream)
    requires V1Names(env) && AtFuncDef(ts) && ParseFuncDef(env, ts).Ok?
    ensures ParseFuncDef(V2(env), ts) == ParseFuncDef(env, ts)
  {
    ParseAgrees(env.(current := Some(ts.hd.text)), OR_LEVEL, ts.tl.tl.tl.tl);
  }

  lemma FuncDefAgrees(env: Env, d: Draft, ts: Stream, rules: seq<Rule>)
    requires V1Names(env)
    requires AtFuncDef(ts) && ScriptItem(env, d, ts).Ok?
    ensures var p := ScriptItem(env, d, ts);
            var d' := p.value.1;
            V1Names(p.value.0) && d'.buy == d.buy && d'.sell == d.sell &&
            RuleItem(V2(env), ScriptV2(d.funcs, [], rules), ts) ==
            Ok((V2(p.value.0), ScriptV2(d'.funcs, [], rules)), p.rest)
  {
    ParseFuncDefAgrees(env, ts);
  }

  lemma {:induction false} ItemsAgree(env: Env, d: Draft, ts: Stream, at: Pos, buyFirst: bool)
      returns (at': Pos, buyFirst': bool)
    requires V1Names(env)
    requires d.buy == d.sell == None ==> buyFirst
    requires ScriptItems(env, d, ts).Ok?
    ensures var s := ScriptItems(env, d, ts);
            RuleItems(V2(env), ScriptV2(d.funcs, [], Desugar(d.buy, d.sell, at, buyFirst)), ts) ==
            Ok(ScriptV2(s.value.funcs, [], Desugar(Some(s.value.buy), Some(s.value.sell), at', buyFirst')), s.rest)
    decreases ts.Len()
  {
    at', buyFirst' := at, buyFirst;
    if ts.Kind() != EOF {
      var p := ScriptItem(env, d, ts);
      if ts.Kind() == KW_BUY || ts.Kind() == KW_SELL {
        at', buyFirst' := BlockAgrees(env, d, ts, at, buyFirst);
      } else {
        FuncDefAgrees(env, d, ts, Desugar(d.buy, d.sell, at, buyFirst));
      }
      at', buyFirst' := ItemsAgree(p.value.0, p.value.1, p.rest, at', buyFirst');
    }
  }

  lemma V1Converted(reg: Registry, ts: Stream) returns (at: Pos, buyFirst: bool)
    requires ParseScript(reg, ts).Ok?
    ensures var p := ParseScript(reg, ts);
            ParseScriptV2(reg, ts) ==
            Ok(ScriptV2(p.value.funcs, [], Desugar(Some(p.value.buy), Some(p.value.sell), at, buyFirst)), p.rest)
  {
    var env, d := StartEnv(reg, false), Draft([], None, None);
    assert V2(env) == StartEnv(reg, true) && Desugar(d.buy, d.sell, Pos(0, 0), true) == [];
    assert ParseScript(reg, ts) == ScriptItems(env, d, SkipNewlines(ts));
    at, buyFirst := ItemsAgree(env, d, SkipNewlines(ts), Pos(0, 0), true);
  }

  /** Every token list version 1 accepts, version 2 accepts: same custom functions, no constants, and the
      two blocks as rules in source order. */
  lemma V1AcceptedByV2(reg: Registry, ts: Stream)
    ensures var p := ParseScript(reg, ts);
            p.Ok? ==> exists at, buyFirst ::
              ParseScriptV2(reg, ts) ==
              Ok(ScriptV2(p.value.funcs, [], Desugar(Some(p.value.buy), Some(p.value.sell), at, buyFirst)), p.rest)
  {
    if ParseScript(reg, ts).Ok? {
      var at, buyFirst := V1Converted(reg, ts);
    }
  }
}
