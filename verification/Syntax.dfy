/** Tokens, syntax trees and the built-in name tables of the trading-rule language. */
module Syntax {
  import opened Common

  /** A source position. Positions are part of syntax trees because the evaluator keys its
      crossover memory by the printed form of the tree, positions included. */
  datatype Pos = Pos(line: nat, col: nat)

  datatype Kind =
    | NUMBER | STRING | BOOL_LIT | IDENT
    | KW_BUY | KW_SELL | AND | OR | NOT
    | GT | GE | LT | LE | EQ | NE
    | PLUS | MINUS | STAR | SLASH
    | LPAREN | RPAREN | COMMA | COLON | ASSIGN | ARROW | PERCENT | LBRACKET | RBRACKET
    | KW_ALL | KW_REST | KW_BETWEEN
    | NEWLINE | EOF

  datatype Token = Token(kind: Kind, text: string, at: Pos)

  /** The vocabulary: the texts of the kinds that have fixed ones. */
  predicate HasText(k: Kind, text: string)
    ensures HasText(k, text) ==> text != ""
  {
    match k
    case BOOL_LIT => text == "true" || text == "false"
    case KW_BUY => text == "매수"
    case KW_SELL => text == "매도"
    case AND => text == "AND"
    case OR => text == "OR"
    case NOT => text == "NOT"
    case KW_ALL => text == "전량"
    case KW_REST => text == "나머지"
    case KW_BETWEEN => text == "BETWEEN"
    case GT => text == ">"
    case GE => text == ">="
    case LT => text == "<"
    case LE => text == "<="
    case EQ => text == "=="
    case NE => text == "!="
    case PLUS => text == "+"
    case MINUS => text == "-"
    case STAR => text == "*"
    case SLASH => text == "/"
    case LPAREN => text == "("
    case RPAREN => text == ")"
    case COMMA => text == ","
    case COLON => text == ":"
    case ASSIGN => text == "="
    case ARROW => text == "->" || text == "\U{2192}"
    case PERCENT => text == "%"
    case LBRACKET => text == "["
    case RBRACKET => text == "]"
    case _ => false
  }

  predicate IsFixed(k: Kind) {
    k !in {NUMBER, STRING, IDENT, NEWLINE, EOF}
  }

  datatype BinOp = And | Or | Plus | Minus | Times | Divide

  datatype CmpOp = Gt | Ge | Lt | Le | Eq | Ne

  datatype UnOp = Not | Negate

  datatype Expr =
    | NumberLit(value: real, at: Pos)
    | BoolLit(truth: bool, at: Pos)
    | StringLit(text: string, at: Pos)
    | FieldRef(name: string, at: Pos)
    | FuncCall(fn: string, args: seq<Expr>, at: Pos)
    | Binary(op: BinOp, left: Expr, right: Expr, at: Pos)
    | Unary(uop: UnOp, operand: Expr, at: Pos)
    | Compare(cmp: CmpOp, left: Expr, right: Expr, at: Pos)
    | IndexAccess(base: Expr, index: int, at: Pos)

  datatype FuncDef = FuncDef(name: string, body: Expr, at: Pos)

  datatype Script = Script(funcs: seq<FuncDef>, buy: Expr, sell: Expr)

  datatype Side = Buy | Sell

  datatype Quantity = Percent(value: real) | All

  datatype Action = Action(side: Side, qty: Quantity)

  datatype Rule = Rule(condition: Expr, action: Action)

  datatype ConstDecl = ConstDecl(name: string, value: Expr)

  datatype ScriptV2 = ScriptV2(funcs: seq<FuncDef>, consts: seq<ConstDecl>, rules: seq<Rule>)

  // ---- types ----

  datatype Ty = Boolean | Number | Text | Unknown

  /** What the evaluator does with a built-in function. */
  datatype Role = Plain | CrossAbove | CrossBelow | BullishDivergence | BearishDivergence | Count | Consecutive

  datatype FuncSpec = FuncSpec(minArgs: nat, maxArgs: int, ret: Ty, role: Role)

  /** A built-in field written as two identifiers. */
  datatype Compound = Compound(head: string, suffix: string, full: string)

  /** The built-in tables. `patterns` maps a pattern name to the tree its definition parses to;
      `numeral` is the conversion of a number token's text to a number, `whole` and `figure` those of a
      text value to an integer and to a number, None where they raise. */
  datatype Registry = Registry(
    fields: set<string>, funcs: map<string, FuncSpec>, patterns: map<string, Expr>, compound: Compound,
    numeral: string -> real, whole: string -> Option<int>, figure: string -> Option<real>)
  {
    predicate ArityOk(fn: string, n: nat) {
      fn in funcs && (funcs[fn].maxArgs >= 0 ==> funcs[fn].minArgs <= n <= funcs[fn].maxArgs)
    }
  }

  // ---- token streams ----

  /** What is left of a token list that ends with an EOF token. */
  datatype Stream = Eof(at: Pos) | Cons(hd: Token, tl: Stream) {
    function Kind(): Kind {
      if Eof? then EOF else hd.kind
    }

    function At(): Pos {
      if Eof? then this.at else hd.at
    }

    function Len(): nat {
      if Eof? then 0 else 1 + tl.Len()
    }
  }
}
