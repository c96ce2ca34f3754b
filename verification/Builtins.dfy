/** The built-in fields, functions and patterns, and that they meet what type soundness and the conversion
    of scripts ask of the tables. */
module Builtins {
  import opened Common
  import opened Syntax
  import opened Grammar
  import opened ScriptGrammar
  import opened RoundTrip
  import opened Preservation
  import opened TypeSoundness

  const FIELDS: set<string> := {
    "현재가", "거래량", "수익률", "보유수량", "고점 대비", "수익률고점", "진입가", "보유일", "보유봉", "시간",
    "장시작후", "요일", "실행횟수", "등락률"
  }

  const FUNCTIONS: map<string, FuncSpec> := map[
    "RSI" := FuncSpec(1, 2, Number, Plain),
    "MA" := FuncSpec(1, 2, Number, Plain),
    "EMA" := FuncSpec(1, 2, Number, Plain),
    "MACD" := FuncSpec(0, 1, Number, Plain),
    "MACD_SIGNAL" := FuncSpec(0, 1, Number, Plain),
    "MACD_HIST" := FuncSpec(0, 3, Number, Plain),
    "볼린저_상단" := FuncSpec(1, 2, Number, Plain),
    "볼린저_하단" := FuncSpec(1, 2, Number, Plain),
    "평균거래량" := FuncSpec(1, 2, Number, Plain),
    "STOCH_K" := FuncSpec(0, 2, Number, Plain),
    "STOCH_D" := FuncSpec(0, 3, Number, Plain),
    "상향돌파" := FuncSpec(2, 2, Boolean, CrossAbove),
    "하향돌파" := FuncSpec(2, 2, Boolean, CrossBelow),
    "ATR" := FuncSpec(1, 2, Number, Plain),
    "최고가" := FuncSpec(1, 2, Number, Plain),
    "최저가" := FuncSpec(1, 2, Number, Plain),
    "이격도" := FuncSpec(1, 2, Number, Plain),
    "횟수" := FuncSpec(2, 2, Number, Count),
    "연속" := FuncSpec(1, 1, Number, Consecutive),
    "강세다이버전스" := FuncSpec(1, 2, Boolean, BullishDivergence),
    "약세다이버전스" := FuncSpec(1, 2, Boolean, BearishDivergence)
  ]

  /** A pattern's definition stands behind "매수: ", that is from column 5 of line 1. */
  function At(col: nat): Pos {
    Pos(1, col)
  }

  /** `cross(MA(5), MA(20))`. */
  function MovingAverages(cross: string): Expr {
    var fast := FuncCall("MA", [NumberLit(5.0, At(13))], At(10));
    var slow := FuncCall("MA", [NumberLit(20.0, At(20))], At(17));
    FuncCall(cross, [fast, slow], At(5))
  }

  /** `cross(MACD(), MACD_SIGNAL())`. */
  function MacdSignal(cross: string): Expr {
    FuncCall(cross, [FuncCall("MACD", [], At(10)), FuncCall("MACD_SIGNAL", [], At(18))], At(5))
  }

  /** `RSI(14) cmp bound`. */
  function RsiBound(cmp: CmpOp, bound: real): Expr {
    Compare(cmp, FuncCall("RSI", [NumberLit(14.0, At(9))], At(5)), NumberLit(bound, At(16)), At(13))
  }

  /** `현재가 cmp band(20)`. */
  function PriceBand(cmp: CmpOp, band: string): Expr {
    Compare(cmp, FieldRef("현재가", At(5)), FuncCall(band, [NumberLit(20.0, At(19))], At(12)), At(9))
  }

  const PATTERNS: map<string, Expr> := map[
    "골든크로스" := MovingAverages("상향돌파"),
    "데드크로스" := MovingAverages("하향돌파"),
    "RSI과매도" := RsiBound(Le, 30.0),
    "RSI과매수" := RsiBound(Ge, 70.0),
    "볼린저하단돌파" := PriceBand(Le, "볼린저_하단"),
    "볼린저상단돌파" := PriceBand(Ge, "볼린저_상단"),
    "MACD골든크로스" := MacdSignal("상향돌파"),
    "MACD데드크로스" := MacdSignal("하향돌파")
  ]

  function Tables(
    numeral: string -> real, whole: string -> Option<int>, figure: string -> Option<real>): Registry
  {
    Registry(FIELDS, FUNCTIONS, PATTERNS, Compound("고점", "대비", "고점 대비"), numeral, whole, figure)
  }

  /** Number tokens of the patterns are read as usual. */
  ghost predicate Reads(numeral: string -> real) {
    numeral("5") == 5.0 && numeral("14") == 14.0 && numeral("20") == 20.0 && numeral("30") == 30.0 &&
    numeral("70") == 70.0
  }

  lemma BuiltinTypes(numeral: string -> real, whole: string -> Option<int>, figure: string -> Option<real>)
    ensures TablesTyped(Tables(numeral, whole, figure))
  {
  }

  /** A built-in function with this entry, and no pattern of the same name. */
  predicate IsFunction(fn: string, spec: FuncSpec) {
    fn !in PATTERNS && fn in FUNCTIONS && FUNCTIONS[fn] == spec
  }

  lemma CrossFunctions()
    ensures IsFunction("상향돌파", FuncSpec(2, 2, Boolean, CrossAbove))
    ensures IsFunction("하향돌파", FuncSpec(2, 2, Boolean, CrossBelow))
  {
    assert "상향돌파"[0] != "하향돌파"[0];
  }

  lemma MovingAverage()
    ensures IsFunction("MA", FuncSpec(1, 2, Number, Plain))
  {
    assert "MA"[0] != "횟수"[0] && "MA"[0] != "연속"[0];
  }

  lemma Rsi()
    ensures IsFunction("RSI", FuncSpec(1, 2, Number, Plain))
  {
    assert "RSI"[0] != "EMA"[0] && "RSI"[0] != "ATR"[0] && "RSI"[0] != "최고가"[0] && "RSI"[0] != "최저가"[0];
    assert "RSI"[0] != "이격도"[0];
  }

  lemma MacdFunctions()
    ensures IsFunction("MACD", FuncSpec(0, 1, Number, Plain))
    ensures IsFunction("MACD_SIGNAL", FuncSpec(0, 1, Number, Plain))
  {
    assert "MACD"[0] != "상향돌파"[0] && "MACD"[0] != "하향돌파"[0];
  }

  lemma Bands()
    ensures IsFunction("볼린저_상단", FuncSpec(1, 2, Number, Plain))
    ensures IsFunction("볼린저_하단", FuncSpec(1, 2, Number, Plain))
  {
    assert "볼린저_상단"[4] != "볼린저_하단"[4];
    assert "볼린저_상단"[0] != "RSI과매도"[0] && "볼린저_상단"[0] != "RSI과매수"[0];
    assert "볼린저_하단"[0] != "RSI과매도"[0] && "볼린저_하단"[0] != "RSI과매수"[0];
  }

  /** What a pattern's definition must be: a well-formed condition over built-in names, numbers where
      numbers are needed. */
  ghost predicate Condition(reg: Registry, e: Expr) {
    WF(StartEnv(reg, false), e) && InferType(reg, map[], e) == Boolean && NumericCalls(reg, map[], e)
  }

  /** The same for an operand. */
  ghost predicate Figures(reg: Registry, e: Expr) {
    WF(StartEnv(reg, false), e) && InferType(reg, map[], e) == Number && NumericCalls(reg, map[], e)
  }

  lemma CallFigures(reg: Registry, fn: string, spec: FuncSpec, args: seq<Expr>, at: Pos)
    requires reg.funcs == FUNCTIONS && reg.patterns == PATTERNS && IsFunction(fn, spec)
    requires spec.ret == Number && spec.role == Plain && spec.minArgs <= |args| <= spec.maxArgs
    requires forall a :: a in args ==> Figures(reg, a)
    ensures Figures(reg, FuncCall(fn, args, at))
  {
  }

  lemma CrossCondition(reg: Registry, fn: string, spec: FuncSpec, a: Expr, b: Expr, at: Pos)
    requires reg.funcs == FUNCTIONS && reg.patterns == PATTERNS && IsFunction(fn, spec)
    requires spec.ret == Boolean && spec.role != Count && spec.minArgs == spec.maxArgs == 2
    requires Figures(reg, a) && Figures(reg, b)
    ensures Condition(reg, FuncCall(fn, [a, b], at))
  {
  }

  lemma NumberFigures(reg: Registry, text: string, v: real, at: Pos)
    requires reg.numeral(text) == v
    ensures Figures(reg, NumberLit(v, at))
  {
  }

  lemma PriceFigures(reg: Registry, at: Pos)
    requires reg.fields == FIELDS
    ensures Figures(reg, FieldRef("현재가", at))
  {
    assert "현재가" in FIELDS;
  }

  lemma MovingAveragesOk(reg: Registry, cross: string, spec: FuncSpec)
    requires reg.funcs == FUNCTIONS && reg.patterns == PATTERNS && Reads(reg.numeral) && IsFunction(cross, spec)
    requires spec.ret == Boolean && spec.role != Count && spec.minArgs == spec.maxArgs == 2
    ensures Condition(reg, MovingAverages(cross))
  {
    MovingAverage();
    var five, twenty := NumberLit(5.0, At(13)), NumberLit(20.0, At(20));
    NumberFigures(reg, "5", 5.0, At(13));
    NumberFigures(reg, "20", 20.0, At(20));
    CallFigures(reg, "MA", FuncSpec(1, 2, Number, Plain), [five], At(10));
    CallFigures(reg, "MA", FuncSpec(1, 2, Number, Plain), [twenty], At(17));
    CrossCondition(reg, cross, spec, FuncCall("MA", [five], At(10)), FuncCall("MA", [twenty], At(17)), At(5));
  }

  lemma MacdSignalOk(reg: Registry, cross: string, spec: FuncSpec)
    requires reg.funcs == FUNCTIONS && reg.patterns == PATTERNS && IsFunction(cross, spec)
    requires spec.ret == Boolean && spec.role != Count && spec.minArgs == spec.maxArgs == 2
    ensures Condition(reg, MacdSignal(cross))
  {
    MacdFunctions();
    CallFigures(reg, "MACD", FuncSpec(0, 1, Number, Plain), [], At(10));
    CallFigures(reg, "MACD_SIGNAL", FuncSpec(0, 1, Number, Plain), [], At(18));
    CrossCondition(reg, cross, spec, FuncCall("MACD", [], At(10)), FuncCall("MACD_SIGNAL", [], At(18)), At(5));
  }

  lemma CompareCondition(reg: Registry, cmp: CmpOp, a: Expr, b: Expr, at: Pos)
    requires Figures(reg, a) && Figures(reg, b)
    ensures Condition(reg, Compare(cmp, a, b, at))
  {
  }

  lemma RsiBoundOk(reg: Registry, cmp: CmpOp, text: string, bound: real)
    requires reg.funcs == FUNCTIONS && reg.patterns == PATTERNS && Reads(reg.numeral) && reg.numeral(text) == bound
    ensures Condition(reg, RsiBound(cmp, bound))
  {
    Rsi();
    NumberFigures(reg, "14", 14.0, At(9));
    NumberFigures(reg, text, bound, At(16));
    CallFigures(reg, "RSI", FuncSpec(1, 2, Number, Plain), [NumberLit(14.0, At(9))], At(5));
    CompareCondition(reg, cmp, FuncCall("RSI", [NumberLit(14.0, At(9))], At(5)), NumberLit(bound, At(16)), At(13));
  }

  lemma PriceBandOk(reg: Registry, cmp: CmpOp, band: string)
    requires reg.funcs == FUNCTIONS && reg.patterns == PATTERNS && reg.fields == FIELDS && Reads(reg.numeral)
    requires IsFunction(band, FuncSpec(1, 2, Number, Plain))
    ensures Condition(reg, PriceBand(cmp, band))
  {
    PriceFigures(reg, At(5));
    NumberFigures(reg, "20", 20.0, At(19));
    CallFigures(reg, band, FuncSpec(1, 2, Number, Plain), [NumberLit(20.0, At(19))], At(12));
    CompareCondition(reg, cmp, FieldRef("현재가", At(5)), FuncCall(band, [NumberLit(20.0, At(19))], At(12)), At(9));
  }

  lemma PatternConditions(reg: Registry)
    requires reg.funcs == FUNCTIONS && reg.patterns == PATTERNS && reg.fields == FIELDS && Reads(reg.numeral)
    ensures Condition(reg, MovingAverages("상향돌파")) && Condition(reg, MovingAverages("하향돌파"))
    ensures Condition(reg, RsiBound(Le, 30.0)) && Condition(reg, RsiBound(Ge, 70.0))
    ensures Condition(reg, PriceBand(Le, "볼린저_하단")) && Condition(reg, PriceBand(Ge, "볼린저_상단"))
    ensures Condition(reg, MacdSignal("상향돌파")) && Condition(reg, MacdSignal("하향돌파"))
  {
    CrossFunctions();
    Bands();
    var above, below := FuncSpec(2, 2, Boolean, CrossAbove), FuncSpec(2, 2, Boolean, CrossBelow);
    MovingAveragesOk(reg, "상향돌파", above);
    MovingAveragesOk(reg, "하향돌파", below);
    RsiBoundOk(reg, Le, "30", 30.0);
    RsiBoundOk(reg, Ge, "70", 70.0);
    PriceBandOk(reg, Le, "볼린저_하단");
    PriceBandOk(reg, Ge, "볼린저_상단");
    MacdSignalOk(reg, "상향돌파", above);
    MacdSignalOk(reg, "하향돌파", below);
  }

  lemma PatternValues(p: string)
    requires p in PATTERNS
    ensures PATTERNS[p] in {
      MovingAverages("상향돌파"), MovingAverages("하향돌파"), RsiBound(Le, 30.0), RsiBound(Ge, 70.0),
      PriceBand(Le, "볼린저_하단"), PriceBand(Ge, "볼린저_상단"), MacdSignal("상향돌파"), MacdSignal("하향돌파") }
  {
  }

  /** The tables of the language meet every assumption that type soundness makes about them. */
  lemma BuiltinsOk(numeral: string -> real, whole: string -> Option<int>, figure: string -> Option<real>)
    requires Reads(numeral)
    ensures RegistryOk(Tables(numeral, whole, figure))
  {
    var reg := Tables(numeral, whole, figure);
    BuiltinTypes(numeral, whole, figure);
    PatternConditions(reg);
    forall p | p in reg.patterns
      ensures Condition(reg, reg.patterns[p])
    {
      PatternValues(p);
    }
  }
}
