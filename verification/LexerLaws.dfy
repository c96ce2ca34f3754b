/** Which token, or which error, begins at a position of a text: the longest one, given without the scanner. */
module LexerLaws {
  import opened Common
  import opened Syntax
  import opened Lexer
  import LexerProofs

  predicate WordChar(cs: Chars, c: char) {
    c == '_' || cs.isAlnum(c)
  }

  /** The longest stretch of characters satisfying `f` from `p` on ends at `e`. */
  ghost predicate Stretch(src: string, p: nat, e: nat, f: char -> bool) {
    p <= e <= |src| && (forall i :: p <= i < e ==> f(src[i])) && (e < |src| ==> !f(src[e]))
  }

  lemma StretchIs(cs: Chars, src: string, p: nat, e: nat, k: Class)
    requires Stretch(src, p, e, c => Belongs(cs, k, c))
    ensures SpanEnd(cs, src, p, k) == e
  {
  }

  /** A word is the longest stretch of letters, digits and underscores. */
  lemma WordAt(cs: Chars, src: string, p: nat, e: nat, k: Kind)
    requires cs.Proper() && p < |src| && !cs.isDigit(src[p]) && (src[p] == '_' || cs.isAlpha(src[p]))
    requires Stretch(src, p, e, c => WordChar(cs, c))
    ensures PieceAt(cs, src, p).Lexeme?
    ensures PieceAt(cs, src, p).text == src[p..e] && PieceAt(cs, src, p).end == e
    ensures HasText(k, src[p..e]) ==> PieceAt(cs, src, p).kind == k
    ensures (forall j :: !HasText(j, src[p..e])) ==> PieceAt(cs, src, p).kind == IDENT
  {
    StretchIs(cs, src, p, e, Word);
    assert e > p && src[p..e][0] == src[p];
    LexerProofs.WordTable(k, src[p..e]);
    LexerProofs.WordTable(WordKind(src[p..e]), src[p..e]);
    assert !LexerProofs.Operator(src[p..e]);
  }

  /** A number is the longest stretch of digits, with the longest fraction after a point; a point without a
      digit after it is an error. */
  lemma NumberAt(cs: Chars, src: string, p: nat, e: nat, f: nat)
    requires cs.Proper() && p < |src| && cs.isDigit(src[p]) && Stretch(src, p, e, cs.isDigit)
    requires e < |src| ==> Stretch(src, e + 1, f, cs.isDigit)
    ensures e == |src| || src[e] != '.' ==> PieceAt(cs, src, p) == Lexeme(NUMBER, src[p..e], e)
    ensures e < |src| && src[e] == '.' && e + 1 < f ==> PieceAt(cs, src, p) == Lexeme(NUMBER, src[p..f], f)
    ensures e < |src| && src[e] == '.' && e + 1 == f ==> PieceAt(cs, src, p) == Piece.Bad(DigitExpected)
  {
    StretchIs(cs, src, p, e, Digits);
    if e < |src| {
      StretchIs(cs, src, e + 1, f, Digits);
    }
  }

  /** A string ends at the next quote; without one on its line it is an error. */
  lemma StringAt(cs: Chars, src: string, p: nat, e: nat)
    requires cs.Proper() && p < |src| && src[p] == '"'
    requires Stretch(src, p + 1, e, c => c != '"' && c != '\n' && c != '\r')
    ensures e < |src| && src[e] == '"' ==> PieceAt(cs, src, p) == Lexeme(STRING, src[p + 1..e], e + 1)
    ensures e == |src| || src[e] != '"' ==> PieceAt(cs, src, p) == Piece.Bad(UnclosedString)
  {
    StretchIs(cs, src, p + 1, e, UpToQuote);
  }

  /** Neither a blank, a line break, a comment, a string, a number nor a word begins here. */
  predicate SignAt(cs: Chars, src: string, p: nat) {
    p < |src| && src[p] !in [' ', '\t', '\n', '\r', '"'] && !LexerProofs.CommentAt(src, p) &&
    !cs.isDigit(src[p]) && src[p] != '_' && !cs.isAlpha(src[p])
  }

  predicate TwoSigns(src: string, p: nat, k: Kind) {
    p + 1 < |src| && HasText(k, src[p..p + 2])
  }

  predicate OneSign(src: string, p: nat, k: Kind) {
    p < |src| && HasText(k, src[p..p + 1])
  }

  /** The first characters of the vocabulary's words are letters. */
  predicate Alphabetic(cs: Chars) {
    cs.isAlpha('매') && cs.isAlpha('전') && cs.isAlpha('나') && cs.isAlpha('A') && cs.isAlpha('B') &&
    cs.isAlpha('N') && cs.isAlpha('O') && cs.isAlpha('t') && cs.isAlpha('f')
  }

  lemma WordStart(cs: Chars, word: string)
    requires Alphabetic(cs) && WordKind(word) != IDENT
    ensures word != "" && cs.isAlpha(word[0])
  {
  }

  /** What the vocabulary knows here is an operator of the scanner's tables. */
  lemma SignTable(cs: Chars, src: string, p: nat, e: nat, k: Kind)
    requires SignAt(cs, src, p) && Alphabetic(cs) && p < e <= |src|
    ensures HasText(k, src[p..e]) <==> LexerProofs.OperatorText(k, src[p..e])
  {
    LexerProofs.OperatorTable(k, src[p..e]);
    LexerProofs.WordTable(k, src[p..e]);
    if HasText(k, src[p..e]) && k != IDENT && WordKind(src[p..e]) == k {
      WordStart(cs, src[p..e]);
    }
  }

  lemma SignTables(cs: Chars, src: string, p: nat, j: Kind)
    requires SignAt(cs, src, p) && Alphabetic(cs)
    ensures OneSign(src, p, j) <==> OneCharKind(src[p]) == Some(j) || (src[p] == '\U{2192}' && j == ARROW)
    ensures TwoSigns(src, p, j) <==> p + 1 < |src| && TwoCharKind(src[p], src[p + 1]) == Some(j)
  {
    SignTable(cs, src, p, p + 1, j);
    if p + 1 < |src| {
      SignTable(cs, src, p, p + 2, j);
    }
  }

  lemma SignPiece(cs: Chars, src: string, p: nat)
    requires cs.Proper() && SignAt(cs, src, p)
    ensures var piece := PieceAt(cs, src, p);
            if p + 1 < |src| && TwoCharKind(src[p], src[p + 1]).Some?
            then piece == Lexeme(TwoCharKind(src[p], src[p + 1]).value, src[p..p + 2], p + 2)
            else if src[p] == '\U{2192}' then piece == Lexeme(ARROW, src[p..p + 1], p + 1)
            else if OneCharKind(src[p]).Some?
            then piece == Lexeme(OneCharKind(src[p]).value, src[p..p + 1], p + 1)
            else piece == Piece.Bad(UnexpectedChar)
  {
  }

  /** Of two signs that begin alike the longer one is read; a character that begins none is an error. */
  lemma SignIs(cs: Chars, src: string, p: nat, k: Kind)
    requires cs.Proper() && SignAt(cs, src, p)
    requires Alphabetic(cs)
    ensures TwoSigns(src, p, k) ==> PieceAt(cs, src, p) == Lexeme(k, src[p..p + 2], p + 2)
    ensures (forall j :: !TwoSigns(src, p, j)) && OneSign(src, p, k) ==>
              PieceAt(cs, src, p) == Lexeme(k, src[p..p + 1], p + 1)
    ensures (forall j :: !TwoSigns(src, p, j) && !OneSign(src, p, j)) ==>
              PieceAt(cs, src, p) == Piece.Bad(UnexpectedChar)
  {
    SignPiece(cs, src, p);
    SignTables(cs, src, p, k);
    if p + 1 < |src| && TwoCharKind(src[p], src[p + 1]).Some? {
      SignTables(cs, src, p, TwoCharKind(src[p], src[p + 1]).value);
    } else if src[p] == '\U{2192}' {
      SignTables(cs, src, p, ARROW);
    } else if OneCharKind(src[p]).Some? {
      SignTables(cs, src, p, OneCharKind(src[p]).value);
    }
  }
}
