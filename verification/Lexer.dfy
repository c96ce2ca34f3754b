/** The tokenizer: what one token is, and the loop that cuts a source text into tokens. */
module Lexer {
  import opened Common
  import opened Syntax

  /** Unicode's character classes. */
  datatype Chars = Chars(isAlpha: char -> bool, isDigit: char -> bool, isAlnum: char -> bool) {
    predicate IdentStart(c: char) {
      c == '_' || isAlpha(c)
    }

    predicate IdentCont(c: char) {
      c == '_' || isAlnum(c)
    }

    /** Letters and digits are alphanumeric; line breaks, blanks, quotes, backslashes and ASCII punctuation
        are not. */
    ghost predicate Proper() {
      && (forall c :: isAlpha(c) || isDigit(c) ==> isAlnum(c))
      && (forall c :: isAlnum(c) ==> !IsBreak(c) && !IsPunctuation(c))
    }

    /** No word of the vocabulary begins with a digit. */
    ghost predicate Lettered() {
      forall k: Kind, w: string :: HasText(k, w) ==> !isDigit(w[0])
    }
  }

  predicate IsBreak(c: char) {
    c == '\n' || c == '\r'
  }

  predicate IsPunctuation(c: char) {
    OneCharKind(c).Some? || c == ' ' || c == '\t' || c == '"' || c == '!' || c == '\\' || c == '\U{2192}'
  }

  /** What an inner loop of the tokenizer runs over. */
  datatype Class = Digits | Word | UpToBreak | UpToQuote

  predicate Belongs(cs: Chars, k: Class, c: char) {
    match k
    case Digits => cs.isDigit(c)
    case Word => cs.IdentCont(c)
    case UpToBreak => !IsBreak(c)
    case UpToQuote => c != '"' && !IsBreak(c)
  }

  /** The end of the longest stretch of a class that starts at `pos`. */
  function SpanEnd(cs: Chars, src: string, pos: nat, k: Class): (e: nat)
    requires pos <= |src|
    ensures pos <= e <= |src|
    ensures forall i :: pos <= i < e ==> Belongs(cs, k, src[i])
    ensures e < |src| ==> !Belongs(cs, k, src[e])
    decreases |src| - pos
  {
    if pos < |src| && Belongs(cs, k, src[pos]) then SpanEnd(cs, src, pos + 1, k) else pos
  }

  datatype Fault = UnclosedString | DigitExpected | UnexpectedChar

  datatype LexError = LexError(fault: Fault, at: Pos)

  /** What starts at a position: something to skip, a line break, a token with its text, or an error. */
  datatype Piece =
    | Blank
    | Comment(end: nat)
    | Break(end: nat)
    | Lexeme(kind: Kind, text: string, end: nat)
    | Bad(fault: Fault)

  function WordKind(word: string): Kind {
    if word == "true" || word == "false" then BOOL_LIT
    else if word == "매수" then KW_BUY
    else if word == "매도" then KW_SELL
    else if word == "AND" then AND
    else if word == "OR" then OR
    else if word == "NOT" then NOT
    else if word == "전량" then KW_ALL
    else if word == "나머지" then KW_REST
    else if word == "BETWEEN" then KW_BETWEEN
    else IDENT
  }

  function TwoCharKind(a: char, b: char): Option<Kind> {
    if a == '>' && b == '=' then Some(GE)
    else if a == '<' && b == '=' then Some(LE)
    else if a == '=' && b == '=' then Some(EQ)
    else if a == '!' && b == '=' then Some(NE)
    else if a == '-' && b == '>' then Some(ARROW)
    else None
  }

  function OneCharKind(c: char): Option<Kind> {
    if c == '>' then Some(GT)
    else if c == '<' then Some(LT)
    else if c == '+' then Some(PLUS)
    else if c == '-' then Some(MINUS)
    else if c == '*' then Some(STAR)
    else if c == '/' then Some(SLASH)
    else if c == '(' then Some(LPAREN)
    else if c == ')' then Some(RPAREN)
    else if c == ',' then Some(COMMA)
    else if c == ':' then Some(COLON)
    else if c == '=' then Some(ASSIGN)
    else if c == '%' then Some(PERCENT)
    else if c == '[' then Some(LBRACKET)
    else if c == ']' then Some(RBRACKET)
    else None
  }

  function StringPiece(cs: Chars, src: string, pos: nat): Piece
    requires pos < |src|
  {
    var e := SpanEnd(cs, src, pos + 1, UpToQuote);
    if e < |src| && src[e] == '"' then Lexeme(STRING, src[pos + 1..e], e + 1) else Bad(UnclosedString)
  }

  function NumberPiece(cs: Chars, src: string, pos: nat): Piece
    requires pos < |src|
  {
    var e := SpanEnd(cs, src, pos, Digits);
    if e < |src| && src[e] == '.' then
      if e + 1 < |src| && cs.isDigit(src[e + 1])
      then Lexeme(NUMBER, src[pos..SpanEnd(cs, src, e + 1, Digits)], SpanEnd(cs, src, e + 1, Digits))
      else Bad(DigitExpected)
    else Lexeme(NUMBER, src[pos..e], e)
  }

  function WordPiece(cs: Chars, src: string, pos: nat): Piece
    requires pos < |src|
  {
    var e := SpanEnd(cs, src, pos, Word);
    Lexeme(WordKind(src[pos..e]), src[pos..e], e)
  }

  /** The longest operator. */
  function OperatorPiece(src: string, pos: nat): Piece
    requires pos < |src|
  {
    if pos + 1 < |src| && TwoCharKind(src[pos], src[pos + 1]).Some?
    then Lexeme(TwoCharKind(src[pos], src[pos + 1]).value, src[pos..pos + 2], pos + 2)
    else if OneCharKind(src[pos]).Some? then Lexeme(OneCharKind(src[pos]).value, src[pos..pos + 1], pos + 1)
    else Bad(UnexpectedChar)
  }

  function PieceAt(cs: Chars, src: string, pos: nat): Piece
    requires pos < |src|
  {
    var ch := src[pos];
    if ch == ' ' || ch == '\t' then Blank
    else if ch == '\n' then Break(pos + 1)
    else if ch == '\r' then Break(if pos + 1 < |src| && src[pos + 1] == '\n' then pos + 2 else pos + 1)
    else if ch == '\U{2192}' then Lexeme(ARROW, src[pos..pos + 1], pos + 1)
    else if ch == '-' && pos + 1 < |src| && src[pos + 1] == '-' then Comment(SpanEnd(cs, src, pos, UpToBreak))
    else if ch == '"' then StringPiece(cs, src, pos)
    else if cs.isDigit(ch) then NumberPiece(cs, src, pos)
    else if cs.IdentStart(ch) then WordPiece(cs, src, pos)
    else OperatorPiece(src, pos)
  }

  /** The end of a piece: every step gets on. */
  function End(cs: Chars, src: string, pos: nat): (e: nat)
    requires cs.Proper() && pos < |src| && !PieceAt(cs, src, pos).Bad?
    ensures pos < e <= |src|
  {
    var p := PieceAt(cs, src, pos);
    if p.Blank? then pos + 1 else p.end
  }

  /** Line and column after a piece; a comment leaves the column where it began. */
  function After(p: Piece, pos: nat, end: nat, at: Pos): Pos
    requires pos <= end
  {
    match p
    case Break(_) => Pos(at.line + 1, 1)
    case Comment(_) => at
    case _ => Pos(at.line, at.col + (end - pos))
  }

  function TokenOf(p: Piece, at: Pos): seq<Token> {
    match p
    case Break(_) => [Token(NEWLINE, "\\n", at)]
    case Lexeme(kind, text, _) => [Token(kind, text, at)]
    case _ => []
  }

  function Prepend(ts: seq<Token>, r: Result<seq<Token>, LexError>): Result<seq<Token>, LexError> {
    if r.Success? then Success(ts + r.value) else r
  }

  /** The tokens from `pos` on. */
  function Scan(cs: Chars, src: string, pos: nat, at: Pos): Result<seq<Token>, LexError>
    requires cs.Proper() && pos <= |src|
    decreases |src| - pos
  {
    if pos == |src| then Success([Token(EOF, "", at)])
    else
      var p := PieceAt(cs, src, pos);
      if p.Bad? then Failure(LexError(p.fault, at))
      else
        var e := End(cs, src, pos);
        Prepend(TokenOf(p, at), Scan(cs, src, e, After(p, pos, e, at)))
  }

  // ---- the loop ----

  /** Runs `pos` over a class, the column with it. */
  method Skip(cs: Chars, src: string, pos: nat, col: nat, k: Class) returns (pos': nat, col': nat)
    requires pos <= |src|
    ensures pos' == SpanEnd(cs, src, pos, k) && col' == col + (pos' - pos)
  {
    pos', col' := pos, col;
    while pos' < |src| && Belongs(cs, k, src[pos'])
      invariant pos <= pos' <= |src| && col' == col + (pos' - pos)
      invariant SpanEnd(cs, src, pos', k) == SpanEnd(cs, src, pos, k)
      decreases |src| - pos'
    {
      pos', col' := pos' + 1, col' + 1;
    }
  }

  lemma PrependTwice(ts: seq<Token>, us: seq<Token>, r: Result<seq<Token>, LexError>)
    ensures Prepend(ts, Prepend(us, r)) == Prepend(ts + us, r)
  {
    if r.Success? {
      assert ts + (us + r.value) == ts + us + r.value;
    }
  }

  /** Scans the string literal, number or word at `pos`, whichever it is. */
  method ScanLong(cs: Chars, src: string, pos: nat, at: Pos) returns (r: Result<Token, LexError>, pos': nat, col: nat)
    requires cs.Proper() && pos < |src|
    requires src[pos] == '"' || cs.isDigit(src[pos]) || cs.IdentStart(src[pos])
    ensures var p := PieceAt(cs, src, pos);
            if p.Bad? then r == Failure(LexError(p.fault, at))
            else p.Lexeme? && r == Success(Token(p.kind, p.text, at)) && pos' == p.end && col == at.col + (pos' - pos)
  {
    if src[pos] == '"' {
      pos', col := Skip(cs, src, pos + 1, at.col + 1, UpToQuote);
      if pos' == |src| || src[pos'] != '"' {
        r := Failure(LexError(UnclosedString, at));
      } else {
        r := Success(Token(STRING, src[pos + 1..pos'], at));
        pos', col := pos' + 1, col + 1;
      }
    } else if cs.isDigit(src[pos]) {
      pos', col := Skip(cs, src, pos, at.col, Digits);
      if pos' < |src| && src[pos'] == '.' {
        pos', col := pos' + 1, col + 1;
        if pos' >= |src| || !cs.isDigit(src[pos']) {
          r := Failure(LexError(DigitExpected, at));
          return;
        }
        pos', col := Skip(cs, src, pos', col, Digits);
      }
      r := Success(Token(NUMBER, src[pos..pos'], at));
    } else {
      pos', col := Skip(cs, src, pos, at.col, Word);
      r := Success(Token(WordKind(src[pos..pos']), src[pos..pos'], at));
    }
  }

  /** One pass of the loop: what to append, and where to go on. */
  method Step(cs: Chars, src: string, pos: nat, at: Pos) returns (r: Result<seq<Token>, LexError>, pos': nat, at': Pos)
    requires cs.Proper() && pos < |src|
    ensures var p := PieceAt(cs, src, pos);
            if p.Bad? then r == Failure(LexError(p.fault, at))
            else r == Success(TokenOf(p, at)) && pos' == End(cs, src, pos) && at' == After(p, pos, pos', at)
  {
    var ch := src[pos];
    pos', at' := pos + 1, at.(col := at.col + 1);
    if ch == ' ' || ch == '\t' {
      return Success([]), pos', at';
    }
    if ch == '\n' {
      return Success([Token(NEWLINE, "\\n", at)]), pos', Pos(at.line + 1, 1);
    }
    if ch == '\r' {
      if pos' < |src| && src[pos'] == '\n' {
        pos' := pos' + 1;
      }
      return Success([Token(NEWLINE, "\\n", at)]), pos', Pos(at.line + 1, 1);
    }
    if ch == '\U{2192}' {
      return Success([Token(ARROW, src[pos..pos'], at)]), pos', at';
    }
    if ch == '-' && pos + 1 < |src| && src[pos + 1] == '-' {
      var end, _ := Skip(cs, src, pos, at.col, UpToBreak);
      return Success([]), end, at;
    }
    if ch == '"' || cs.isDigit(ch) || cs.IdentStart(ch) {
      var t, next, col := ScanLong(cs, src, pos, at);
      return if t.Success? then Success([t.value]) else Failure(t.error), next, at.(col := col);
    }
    if pos + 1 < |src| {
      var two := TwoCharKind(ch, src[pos + 1]);
      if two.Some? {
        return Success([Token(two.value, src[pos..pos + 2], at)]), pos + 2, at.(col := at.col + 2);
      }
    }
    var one := OneCharKind(ch);
    if one.Some? {
      return Success([Token(one.value, src[pos..pos'], at)]), pos', at';
    }
    return Failure(LexError(UnexpectedChar, at)), pos, at;
  }

  method Tokenize(cs: Chars, src: string) returns (r: Result<seq<Token>, LexError>)
    requires cs.Proper()
    ensures r == Scan(cs, src, 0, Pos(1, 1))
  {
    var tokens: seq<Token>, pos: nat, at := [], 0, Pos(1, 1);
    PrependNothing(Scan(cs, src, 0, Pos(1, 1)));
    while pos < |src|
      invariant pos <= |src|
      invariant Prepend(tokens, Scan(cs, src, pos, at)) == Scan(cs, src, 0, Pos(1, 1))
      decreases |src| - pos
    {
      var step, next, at' := Step(cs, src, pos, at);
      if step.Failure? {
        return Failure(step.error);
      }
      PrependTwice(tokens, step.value, Scan(cs, src, next, at'));
      tokens, pos, at := tokens + step.value, next, at';
    }
    tokens := tokens + [Token(EOF, "", at)];
    return Success(tokens);
  }

  lemma PrependNothing(r: Result<seq<Token>, LexError>)
    ensures Prepend([], r) == r
  {
    if r.Success? {
      assert [] + r.value == r.value;
    }
  }
}
