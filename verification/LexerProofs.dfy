/** The tokenizer loses nothing, its positions are exact, and it reads back what is written from tokens. */
module LexerProofs {
  import opened Common
  import opened Syntax
  import opened Lexer
  import RecursiveDescent

  // ---- positions ----

  /** The line and column of an offset; a carriage return and line feed together are one line break. */
  function PosAt(src: string, p: nat): Pos
    requires p <= |src|
  {
    if p == 0 then Pos(1, 1)
    else
      var before, c := PosAt(src, p - 1), src[p - 1];
      if c == '\n' || (c == '\r' && !(p < |src| && src[p] == '\n')) then Pos(before.line + 1, 1)
      else Pos(before.line, before.col + 1)
  }

  lemma {:induction false} SameLine(src: string, p: nat, e: nat)
    requires p <= e <= |src| && forall i :: p <= i < e ==> !IsBreak(src[i])
    ensures PosAt(src, e) == Pos(PosAt(src, p).line, PosAt(src, p).col + (e - p))
  {
    if p < e {
      SameLine(src, p, e - 1);
    }
  }

  predicate AtLineEnd(src: string, p: nat)
    requires p <= |src|
  {
    p == |src| || IsBreak(src[p])
  }

  /** The tokenizer's position is the true one, except for the column after a comment. */
  predicate Tracked(src: string, p: nat, at: Pos)
    requires p <= |src|
  {
    at.line == PosAt(src, p).line &&
    (at.col == PosAt(src, p).col || (at.col <= PosAt(src, p).col && AtLineEnd(src, p)))
  }

  lemma AfterTracked(cs: Chars, src: string, p: nat, at: Pos)
    requires cs.Proper() && p < |src| && !PieceAt(cs, src, p).Bad? && Tracked(src, p, at)
    ensures Tracked(src, End(cs, src, p), After(PieceAt(cs, src, p), p, End(cs, src, p), at))
  {
    var piece, e := PieceAt(cs, src, p), End(cs, src, p);
    if !piece.Break? {
      NoBreaks(cs, src, p);
      SameLine(src, p, e);
    }
  }

  lemma NoBreaks(cs: Chars, src: string, p: nat)
    requires cs.Proper() && p < |src| && !PieceAt(cs, src, p).Bad? && !PieceAt(cs, src, p).Break?
    ensures forall i :: p <= i < End(cs, src, p) ==> !IsBreak(src[i])
    ensures PieceAt(cs, src, p).Comment? ==> AtLineEnd(src, End(cs, src, p))
  {
  }

  // ---- losslessness ----

  function LineEnd(src: string, p: nat): (e: nat)
    requires p <= |src|
    ensures p <= e <= |src|
    decreases |src| - p
  {
    if AtLineEnd(src, p) then p else LineEnd(src, p + 1)
  }

  predicate CommentAt(src: string, p: nat) {
    p + 1 < |src| && src[p] == '-' && src[p + 1] == '-'
  }

  /** Between two offsets there is nothing but blanks and comments running to the end of their line. */
  predicate Skippable(src: string, a: nat, b: nat)
    decreases b - a
  {
    a <= b <= |src| &&
    (a == b || ((src[a] == ' ' || src[a] == '\t') && Skippable(src, a + 1, b)) ||
     (CommentAt(src, a) && a < LineEnd(src, a) <= b && Skippable(src, LineEnd(src, a), b)))
  }

  datatype Span = Span(lo: nat, hi: nat)

  /** The token is what stands in the text from `lo` to `hi`, and its position is that of `lo`. */
  predicate Spells(src: string, t: Token, s: Span) {
    s.lo <= s.hi <= |src| &&
    if t.kind == EOF then t.text == "" && s.lo == s.hi == |src| && Tracked(src, s.lo, t.at)
    else if t.kind == NEWLINE then src[s.lo..s.hi] in ["\n", "\r", "\r\n"] && Tracked(src, s.lo, t.at)
    else t.at == PosAt(src, s.lo) && src[s.lo..s.hi] == if t.kind == STRING then "\"" + t.text + "\"" else t.text
  }

  /** The tokens stand in the text one after another from `p` to its end, with nothing lost in between. */
  predicate Covers(src: string, p: nat, ts: seq<Token>, spans: seq<Span>)
    requires p <= |src|
    decreases |ts|
  {
    if ts == [] || spans == [] then p == |src| && ts == [] && spans == []
    else Skippable(src, p, spans[0].lo) && Spells(src, ts[0], spans[0]) && Covers(src, spans[0].hi, ts[1..], spans[1..])
  }

  lemma {:induction false} LineEndIs(cs: Chars, src: string, p: nat)
    requires p <= |src|
    ensures SpanEnd(cs, src, p, UpToBreak) == LineEnd(src, p)
    decreases |src| - p
  {
    if !AtLineEnd(src, p) {
      LineEndIs(cs, src, p + 1);
    }
  }

  lemma PieceSpells(cs: Chars, src: string, p: nat, at: Pos)
    requires cs.Proper() && p < |src| && Tracked(src, p, at)
    requires PieceAt(cs, src, p).Lexeme? || PieceAt(cs, src, p).Break?
    ensures Spells(src, TokenOf(PieceAt(cs, src, p), at)[0], Span(p, End(cs, src, p)))
  {
    if PieceAt(cs, src, p).Break? {
      BreakText(cs, src, p);
    } else {
      LexemeKind(cs, src, p);
      LexemeText(cs, src, p);
    }
  }

  lemma BreakText(cs: Chars, src: string, p: nat)
    requires cs.Proper() && p < |src| && PieceAt(cs, src, p).Break?
    ensures src[p..End(cs, src, p)] in ["\n", "\r", "\r\n"]
  {
    var e := End(cs, src, p);
    assert src[p..e] == if e == p + 1 then [src[p]] else [src[p], src[p + 1]];
  }

  lemma LexemeText(cs: Chars, src: string, p: nat)
    requires cs.Proper() && p < |src| && PieceAt(cs, src, p).Lexeme?
    ensures var piece := PieceAt(cs, src, p);
            src[p..End(cs, src, p)] == if piece.kind == STRING then "\"" + piece.text + "\"" else piece.text
  {
    LexemeKind(cs, src, p);
    if src[p] == '"' {
      var piece := PieceAt(cs, src, p);
      assert src[p..piece.end] == "\"" + piece.text + "\"";
    }
  }

  lemma LexemeKind(cs: Chars, src: string, p: nat)
    requires p < |src| && PieceAt(cs, src, p).Lexeme?
    ensures PieceAt(cs, src, p).kind != EOF && PieceAt(cs, src, p).kind != NEWLINE
    ensures PieceAt(cs, src, p).kind == STRING <==> src[p] == '"'
    ensures PieceAt(cs, src, p).kind != STRING ==> p <= PieceAt(cs, src, p).end <= |src|
    ensures PieceAt(cs, src, p).kind != STRING ==> PieceAt(cs, src, p).text == src[p..PieceAt(cs, src, p).end]
  {
    if src[p] != '\U{2192}' && src[p] != '"' && !cs.isDigit(src[p]) {
      if cs.IdentStart(src[p]) {
        NoLongKind(src[p..SpanEnd(cs, src, p, Word)]);
      }
    }
  }

  lemma NoLongKind(word: string)
    ensures WordKind(word) !in {EOF, NEWLINE, STRING, NUMBER}
  {
  }

  /** The tokens from an offset are those of the piece there and those from its end. */
  lemma ScanStep(cs: Chars, src: string, p: nat, at: Pos)
    requires cs.Proper() && p < |src| && Scan(cs, src, p, at).Success?
    ensures !PieceAt(cs, src, p).Bad?
    ensures var e := End(cs, src, p);
            var rest := Scan(cs, src, e, After(PieceAt(cs, src, p), p, e, at));
            rest.Success? && Scan(cs, src, p, at).value == TokenOf(PieceAt(cs, src, p), at) + rest.value
  {
  }

  lemma SkipPiece(cs: Chars, src: string, p: nat, b: nat)
    requires cs.Proper() && p < |src| && (PieceAt(cs, src, p).Blank? || PieceAt(cs, src, p).Comment?)
    requires Skippable(src, End(cs, src, p), b)
    ensures Skippable(src, p, b)
  {
    LineEndIs(cs, src, p);
  }

  lemma SkipCovers(src: string, p: nat, e: nat, ts: seq<Token>, spans: seq<Span>)
    requires p <= e <= |src| && ts != [] && Covers(src, e, ts, spans)
    requires Skippable(src, e, spans[0].lo) ==> Skippable(src, p, spans[0].lo)
    ensures Covers(src, p, ts, spans)
  {
  }

  lemma TokenCovers(src: string, p: nat, e: nat, t: Token, ts: seq<Token>, spans: seq<Span>)
    requires p <= e <= |src| && Spells(src, t, Span(p, e)) && Covers(src, e, ts, spans)
    ensures Covers(src, p, [t] + ts, [Span(p, e)] + spans)
  {
    assert ([t] + ts)[1..] == ts && ([Span(p, e)] + spans)[1..] == spans;
  }

  /** Every accepted text is covered by its tokens, blanks and comments. */
  lemma {:induction false} ScanLossless(cs: Chars, src: string, p: nat, at: Pos) returns (spans: seq<Span>)
    requires cs.Proper() && p <= |src| && Tracked(src, p, at) && Scan(cs, src, p, at).Success?
    ensures Scan(cs, src, p, at).value != [] && Covers(src, p, Scan(cs, src, p, at).value, spans)
    decreases |src| - p
  {
    if p == |src| {
      spans := [Span(p, p)];
      TokenCovers(src, p, p, Token(EOF, "", at), [], []);
      assert [Token(EOF, "", at)] + [] == [Token(EOF, "", at)] && spans + [] == spans;
    } else {
      var piece, e := PieceAt(cs, src, p), End(cs, src, p);
      var next := After(piece, p, e, at);
      ScanStep(cs, src, p, at);
      AfterTracked(cs, src, p, at);
      var rest := Scan(cs, src, e, next).value;
      spans := ScanLossless(cs, src, e, next);
      if piece.Blank? || piece.Comment? {
        assert TokenOf(piece, at) + rest == rest;
        SkipPiece(cs, src, p, spans[0].lo);
        SkipCovers(src, p, e, rest, spans);
      } else {
        PieceSpells(cs, src, p, at);
        TokenCovers(src, p, e, TokenOf(piece, at)[0], rest, spans);
        assert TokenOf(piece, at) == [TokenOf(piece, at)[0]];
        spans := [Span(p, e)] + spans;
      }
    }
  }

  lemma Lossless(cs: Chars, src: string) returns (spans: seq<Span>)
    requires cs.Proper() && Scan(cs, src, 0, Pos(1, 1)).Success?
    ensures Covers(src, 0, Scan(cs, src, 0, Pos(1, 1)).value, spans)
  {
    spans := ScanLossless(cs, src, 0, Pos(1, 1));
  }

  /** The tokens of an accepted text end with their only EOF, as the parser expects. */
  lemma {:induction false} OneEof(cs: Chars, src: string, p: nat, at: Pos)
    requires cs.Proper() && p <= |src| && Scan(cs, src, p, at).Success?
    ensures var ts := Scan(cs, src, p, at).value;
            RecursiveDescent.EndsWithEof(ts) && ts[|ts| - 1].text == "" &&
            forall i :: 0 <= i < |ts| - 1 ==> ts[i].kind != EOF
    decreases |src| - p
  {
    if p < |src| {
      var piece, e := PieceAt(cs, src, p), End(cs, src, p);
      ScanStep(cs, src, p, at);
      OneEof(cs, src, e, After(piece, p, e, at));
      if piece.Lexeme? {
        LexemeKind(cs, src, p);
      }
    }
  }

  // ---- reading back ----

  predicate NumberText(cs: Chars, text: string) {
    var e := SpanEnd(cs, text, 0, Digits);
    e > 0 && (e == |text| || (text[e] == '.' && e + 1 < |text| && SpanEnd(cs, text, e + 1, Digits) == |text|))
  }

  predicate WordText(cs: Chars, text: string) {
    text != "" && cs.IdentStart(text[0]) && !cs.isDigit(text[0]) &&
    forall i :: 0 <= i < |text| ==> cs.IdentCont(text[i])
  }

  /** What the operator tables say of a text. */
  predicate OperatorText(kind: Kind, text: string) {
    || (|text| == 1 && (OneCharKind(text[0]) == Some(kind) || (text[0] == '\U{2192}' && kind == ARROW)))
    || (|text| == 2 && TwoCharKind(text[0], text[1]) == Some(kind))
  }

  predicate Operator(text: string) {
    text != "" && IsPunctuation(text[0])
  }

  lemma OperatorListed(kind: Kind, text: string)
    requires OperatorText(kind, text)
    ensures HasText(kind, text) && Operator(text)
  {
    if |text| == 1 {
      assert text == [text[0]];
    } else {
      assert text == [text[0], text[1]];
    }
  }

  lemma OperatorKnown(kind: Kind, text: string)
    requires HasText(kind, text) && Operator(text)
    ensures OperatorText(kind, text)
  {
  }

  /** The scanner's tables are the vocabulary. */
  lemma OperatorTable(kind: Kind, text: string)
    ensures OperatorText(kind, text) <==> HasText(kind, text) && Operator(text)
  {
    if OperatorText(kind, text) {
      OperatorListed(kind, text);
    } else if HasText(kind, text) && Operator(text) {
      OperatorKnown(kind, text);
    }
  }

  lemma WordListed(text: string)
    requires WordKind(text) != IDENT
    ensures HasText(WordKind(text), text) && !Operator(text)
  {
  }

  lemma WordKnown(kind: Kind, text: string)
    requires HasText(kind, text) && !Operator(text)
    ensures kind != IDENT && WordKind(text) == kind
  {
  }

  lemma WordTable(kind: Kind, text: string)
    ensures kind != IDENT && WordKind(text) == kind <==> HasText(kind, text) && !Operator(text)
  {
    if kind != IDENT && WordKind(text) == kind {
      WordListed(text);
    } else if HasText(kind, text) && !Operator(text) {
      WordKnown(kind, text);
    }
  }

  /** A text is that of one kind at most. */
  lemma OneKind(j: Kind, k: Kind, text: string)
    requires HasText(j, text) && HasText(k, text)
    ensures j == k
  {
    WordTable(j, text);
    WordTable(k, text);
    OperatorTable(j, text);
    OperatorTable(k, text);
  }

  /** The texts a token of each kind can have. */
  predicate Spellable(cs: Chars, kind: Kind, text: string) {
    if kind == EOF then false
    else if kind == NEWLINE then text == "\\n"
    else if kind == STRING then forall i :: 0 <= i < |text| ==> Belongs(cs, UpToQuote, text[i])
    else if kind == NUMBER then NumberText(cs, text)
    else if kind == IDENT then WordText(cs, text) && forall k :: !HasText(k, text)
    else HasText(kind, text) && (Operator(text) || WordText(cs, text))
  }

  /** Beside numbers, strings and line breaks, a spellable text is one the scanner's tables know. */
  lemma SpellableByTables(cs: Chars, kind: Kind, text: string)
    requires cs.Proper() && kind != EOF && kind != NEWLINE && kind != STRING && kind != NUMBER
    ensures Spellable(cs, kind, text) <==>
            OperatorText(kind, text) || (WordText(cs, text) && WordKind(text) == kind)
  {
    OperatorTable(kind, text);
    WordTable(kind, text);
    if WordText(cs, text) {
      assert !Operator(text) by { WordNoOperator(cs, text); }
      forall k
        ensures WordKind(text) == IDENT ==> !HasText(k, text)
      {
        WordTable(k, text);
      }
      WordTable(WordKind(text), text);
    }
  }

  lemma WordNoOperator(cs: Chars, text: string)
    requires cs.Proper() && WordText(cs, text)
    ensures !Operator(text)
  {
    if Operator(text) {
      OperatorStart(cs, text[0]);
    }
  }

  /** A character that begins an operator begins nothing else. */
  lemma OperatorStart(cs: Chars, c: char)
    requires cs.Proper() && IsPunctuation(c)
    ensures !cs.isDigit(c) && !cs.IdentStart(c)
  {
  }

  /** A token as it is written. */
  function Spelling(kind: Kind, text: string): string {
    if kind == NEWLINE then "\n" else if kind == STRING then "\"" + text + "\"" else text
  }

  /** Some text contains a string at an offset. */
  predicate Reads(src: string, p: nat, s: string) {
    p + |s| <= |src| && src[p..p + |s|] == s
  }

  lemma SpanEndIs(cs: Chars, src: string, p: nat, k: Class, e: nat)
    requires p <= e < |src| && !Belongs(cs, k, src[e])
    requires forall i :: p <= i < e ==> Belongs(cs, k, src[i])
    ensures SpanEnd(cs, src, p, k) == e
  {
  }

  lemma ReadsAt(src: string, p: nat, s: string, i: nat)
    requires Reads(src, p, s) && i < |s|
    ensures src[p + i] == s[i]
  {
  }

  lemma ReadWord(cs: Chars, src: string, p: nat, text: string)
    requires cs.Proper() && WordText(cs, text) && Reads(src, p, text) && p + |text| < |src| && src[p + |text|] == ' '
    ensures PieceAt(cs, src, p) == Lexeme(WordKind(text), text, p + |text|)
  {
    forall i | p <= i < p + |text|
      ensures cs.IdentCont(src[i])
    {
      ReadsAt(src, p, text, i - p);
    }
    ReadsAt(src, p, text, 0);
    SpanEndIs(cs, src, p, Word, p + |text|);
  }

  lemma ReadString(cs: Chars, src: string, p: nat, text: string)
    requires cs.Proper() && (forall i :: 0 <= i < |text| ==> Belongs(cs, UpToQuote, text[i]))
    requires Reads(src, p, "\"" + text + "\"")
    ensures PieceAt(cs, src, p) == Lexeme(STRING, text, p + |text| + 2)
  {
    var s := "\"" + text + "\"";
    forall i | p + 1 <= i < p + 1 + |text|
      ensures src[i] == text[i - p - 1]
    {
      ReadsAt(src, p, s, i - p);
    }
    ReadsAt(src, p, s, 0);
    ReadsAt(src, p, s, |text| + 1);
    SpanEndIs(cs, src, p + 1, UpToQuote, p + 1 + |text|);
    assert src[p + 1..p + 1 + |text|] == text;
  }

  lemma ReadNumber(cs: Chars, src: string, p: nat, text: string)
    requires cs.Proper() && NumberText(cs, text) && Reads(src, p, text) && p + |text| < |src| && src[p + |text|] == ' '
    ensures PieceAt(cs, src, p) == Lexeme(NUMBER, text, p + |text|)
  {
    var e := SpanEnd(cs, text, 0, Digits);
    forall i | 0 <= i < |text|
      ensures src[p + i] == text[i]
    {
      ReadsAt(src, p, text, i);
    }
    assert forall i :: p <= i < p + e ==> src[i] == text[i - p];
    SpanEndIs(cs, src, p, Digits, p + e);
    if e < |text| {
      assert forall i :: p + e + 1 <= i < p + |text| ==> src[i] == text[i - p];
      SpanEndIs(cs, src, p + e + 1, Digits, p + |text|);
    }
  }

  lemma ReadOneChar(cs: Chars, src: string, p: nat, kind: Kind)
    requires cs.Proper() && p + 1 < |src| && src[p + 1] == ' ' && OneCharKind(src[p]) == Some(kind)
    ensures PieceAt(cs, src, p) == Lexeme(kind, src[p..p + 1], p + 1)
  {
    OperatorStart(cs, src[p]);
    assert TwoCharKind(src[p], ' ') == None;
  }

  lemma ReadTwoChars(cs: Chars, src: string, p: nat, kind: Kind)
    requires cs.Proper() && p + 1 < |src| && TwoCharKind(src[p], src[p + 1]) == Some(kind)
    ensures PieceAt(cs, src, p) == Lexeme(kind, src[p..p + 2], p + 2)
  {
    OperatorStart(cs, src[p]);
  }

  lemma ReadOperator(cs: Chars, src: string, p: nat, kind: Kind, text: string)
    requires cs.Proper() && OperatorText(kind, text) && Reads(src, p, text)
    requires p + |text| < |src| && src[p + |text|] == ' '
    ensures PieceAt(cs, src, p) == Lexeme(kind, text, p + |text|)
  {
    ReadsAt(src, p, text, 0);
    if |text| == 2 {
      ReadsAt(src, p, text, 1);
      ReadTwoChars(cs, src, p, kind);
    } else if OneCharKind(text[0]) == Some(kind) {
      ReadOneChar(cs, src, p, kind);
    }
  }

  // ---- rendering ----

  /** Tokens written one after another, a blank after each. */
  function Render(ts: seq<Token>): string {
    if ts == [] then ""
    else Render(ts[..|ts| - 1]) + (Spelling(ts[|ts| - 1].kind, ts[|ts| - 1].text) + " ")
  }

  /** Where the next token stands after a token and a blank. */
  function NextAt(t: Token, at: Pos): Pos {
    if t.kind == NEWLINE then Pos(at.line + 1, 2) else Pos(at.line, at.col + |Spelling(t.kind, t.text)| + 1)
  }

  /** The offsets at which the tokens and the EOF are written. */
  function Offsets(ts: seq<Token>): (offsets: seq<nat>)
    ensures |offsets| == |ts| + 1
  {
    if ts == [] then [0]
    else
      var init, t := Offsets(ts[..|ts| - 1]), ts[|ts| - 1];
      init + [init[|init| - 1] + |Spelling(t.kind, t.text)| + 1]
  }

  /** The tokens with the positions at which they are written, and the EOF. */
  function Placed(ts: seq<Token>): (us: seq<Token>)
    ensures |us| == |ts| + 1 && us[|ts|] == Token(EOF, "", us[|ts|].at)
    ensures forall k :: 0 <= k < |ts| ==> us[k].kind == ts[k].kind && us[k].text == ts[k].text
  {
    if ts == [] then [Token(EOF, "", Pos(1, 1))]
    else
      var init, t := Placed(ts[..|ts| - 1]), ts[|ts| - 1];
      var at := init[|init| - 1].at;
      init[..|init| - 1] + [t.(at := at), Token(EOF, "", NextAt(t, at))]
  }

  predicate AllSpellable(cs: Chars, ts: seq<Token>) {
    forall t :: t in ts ==> Spellable(cs, t.kind, t.text)
  }

  /** A spelled token followed by a blank is read as that token. */
  lemma ReadSpelling(cs: Chars, src: string, p: nat, kind: Kind, text: string)
    requires cs.Proper() && Spellable(cs, kind, text) && kind != NEWLINE && Reads(src, p, Spelling(kind, text))
    requires p + |Spelling(kind, text)| < |src| && src[p + |Spelling(kind, text)|] == ' '
    ensures PieceAt(cs, src, p) == Lexeme(kind, text, p + |Spelling(kind, text)|)
  {
    if kind == STRING {
      ReadString(cs, src, p, text);
    } else if kind == NUMBER {
      ReadNumber(cs, src, p, text);
    } else {
      SpellableByTables(cs, kind, text);
      if OperatorText(kind, text) {
        ReadOperator(cs, src, p, kind, text);
      } else {
        ReadWord(cs, src, p, text);
      }
    }
  }

  lemma ReadToken(cs: Chars, src: string, p: nat, t: Token, at: Pos)
    requires cs.Proper() && Spellable(cs, t.kind, t.text) && Reads(src, p, Spelling(t.kind, t.text) + " ")
    ensures p < |src| && !PieceAt(cs, src, p).Bad? && End(cs, src, p) == p + |Spelling(t.kind, t.text)| < |src|
    ensures TokenOf(PieceAt(cs, src, p), at) == [Token(t.kind, t.text, at)]
    ensures PieceAt(cs, src, End(cs, src, p)).Blank?
  {
    var s := Spelling(t.kind, t.text);
    var n := |s|;
    ReadsAt(src, p, s + " ", n);
    assert src[p..p + n] == (s + " ")[..n] == s;
    if t.kind == NEWLINE {
      ReadsAt(src, p, s, 0);
      ReadBreak(cs, src, p, at);
    } else {
      ReadSpelling(cs, src, p, t.kind, t.text);
      LexemeAgain(cs, src, p, t, at);
    }
  }

  lemma ReadBreak(cs: Chars, src: string, p: nat, at: Pos)
    requires cs.Proper() && p + 1 < |src| && src[p] == '\n' && src[p + 1] == ' '
    ensures End(cs, src, p) == p + 1 && TokenOf(PieceAt(cs, src, p), at) == [Token(NEWLINE, "\\n", at)]
  {
  }

  lemma LexemeAgain(cs: Chars, src: string, p: nat, t: Token, at: Pos)
    requires cs.Proper() && p < |src| && p < |Spelling(t.kind, t.text)| + p <= |src|
    requires PieceAt(cs, src, p) == Lexeme(t.kind, t.text, p + |Spelling(t.kind, t.text)|)
    ensures End(cs, src, p) == p + |Spelling(t.kind, t.text)|
    ensures TokenOf(PieceAt(cs, src, p), at) == [Token(t.kind, t.text, at)]
  {
  }

  /** Scanning a spelled token and the blank after it. */
  lemma ScanPair(cs: Chars, src: string, p: nat, t: Token, at: Pos)
    requires cs.Proper() && Spellable(cs, t.kind, t.text) && Reads(src, p, Spelling(t.kind, t.text) + " ")
    ensures var q := p + |Spelling(t.kind, t.text)| + 1;
            Scan(cs, src, p, at) == Prepend([Token(t.kind, t.text, at)], Scan(cs, src, q, NextAt(t, at)))
  {
    ReadToken(cs, src, p, t, at);
    var e, next := End(cs, src, p), NextAt(t, at);
    var middle := After(PieceAt(cs, src, p), p, e, at);
    PrependNothing(Scan(cs, src, e + 1, next));
    assert After(Blank, e, e + 1, middle) == next;
    assert Scan(cs, src, e, middle) == Prepend([], Scan(cs, src, e + 1, next));
  }

  /** Token `k` is written at its offset, and the next one behind it and a blank. */
  predicate LaidOut(src: string, offsets: seq<nat>, us: seq<Token>, ts: seq<Token>, k: nat)
    requires k < |ts| && |offsets| == |us| == |ts| + 1
  {
    && Reads(src, offsets[k], Spelling(ts[k].kind, ts[k].text) + " ")
    && offsets[k + 1] == offsets[k] + |Spelling(ts[k].kind, ts[k].text)| + 1
    && us[k] == ts[k].(at := us[k].at)
    && us[k + 1].at == NextAt(ts[k], us[k].at)
  }

  lemma LaidOutMore(src: string, more: string, offsets: seq<nat>, offset: nat, us: seq<Token>, a: Token, b: Token,
                    ts: seq<Token>, t: Token, k: nat)
    requires k < |ts| && |offsets| == |us| == |ts| + 1 && LaidOut(src, offsets, us, ts, k)
    requires a.at == us[|ts|].at
    ensures LaidOut(src + more, offsets + [offset], us[..|ts|] + [a, b], ts + [t], k)
  {
    ReadsMore(src, offsets[k], Spelling(ts[k].kind, ts[k].text) + " ", more);
  }

  lemma {:induction false} Layout(ts: seq<Token>)
    ensures Offsets(ts)[|ts|] == |Render(ts)|
    ensures forall k :: 0 <= k < |ts| ==> LaidOut(Render(ts), Offsets(ts), Placed(ts), ts, k)
  {
    if ts != [] {
      var init, t := ts[..|ts| - 1], ts[|ts| - 1];
      Layout(init);
      assert ts == init + [t];
      var n, s := |init|, Spelling(t.kind, t.text) + " ";
      var us := Placed(init);
      forall k | 0 <= k < |ts|
        ensures LaidOut(Render(ts), Offsets(ts), Placed(ts), ts, k)
      {
        if k < n {
          LaidOutMore(Render(init), s, Offsets(init), Offsets(ts)[n + 1], us, Placed(ts)[n], Placed(ts)[n + 1],
                      init, t, k);
        } else {
          assert (Render(init) + s)[|Render(init)|..] == s;
        }
      }
    }
  }

  lemma ReadsMore(src: string, p: nat, s: string, more: string)
    requires Reads(src, p, s)
    ensures Reads(src + more, p, s)
  {
    assert (src + more)[p..p + |s|] == src[p..p + |s|];
  }

  /** Scanning from the offset of token `k` yields it and goes on at the next. */
  ghost predicate Links(cs: Chars, src: string, offsets: seq<nat>, us: seq<Token>, k: nat)
    requires cs.Proper() && k + 1 < |offsets| == |us|
  {
    offsets[k] <= |src| && offsets[k + 1] <= |src| &&
    Scan(cs, src, offsets[k], us[k].at) == Prepend([us[k]], Scan(cs, src, offsets[k + 1], us[k + 1].at))
  }

  lemma LinkScan(cs: Chars, src: string, offsets: seq<nat>, us: seq<Token>, k: nat)
    requires cs.Proper() && k + 1 < |offsets| == |us| && Links(cs, src, offsets, us, k)
    requires Scan(cs, src, offsets[k + 1], us[k + 1].at) == Success(us[k + 1..])
    ensures offsets[k] <= |src| && Scan(cs, src, offsets[k], us[k].at) == Success(us[k..])
  {
    assert us[k..] == [us[k]] + us[k + 1..];
  }

  lemma {:induction false} LinksScan(cs: Chars, src: string, offsets: seq<nat>, us: seq<Token>, k: nat)
    requires cs.Proper() && k < |offsets| == |us|
    requires forall i :: 0 <= i < |us| - 1 ==> Links(cs, src, offsets, us, i)
    requires offsets[|us| - 1] == |src| && us[|us| - 1] == Token(EOF, "", us[|us| - 1].at)
    ensures offsets[k] <= |src| && Scan(cs, src, offsets[k], us[k].at) == Success(us[k..])
    decreases |us| - k
  {
    if k == |us| - 1 {
      assert us[k..] == [us[k]];
    } else {
      LinksScan(cs, src, offsets, us, k + 1);
      LinkScan(cs, src, offsets, us, k);
    }
  }

  lemma LaidOutLinks(cs: Chars, src: string, offsets: seq<nat>, us: seq<Token>, ts: seq<Token>, k: nat)
    requires cs.Proper() && k < |ts| && |offsets| == |us| == |ts| + 1 && LaidOut(src, offsets, us, ts, k)
    requires Spellable(cs, ts[k].kind, ts[k].text)
    ensures Links(cs, src, offsets, us, k)
  {
    var t, at := ts[k], us[k].at;
    ScanPair(cs, src, offsets[k], t, at);
    assert us[k] == Token(t.kind, t.text, at);
    ReadToken(cs, src, offsets[k], t, at);
  }

  /** Writing down spellable tokens and tokenizing the text gives the tokens back, at the positions they
      were written at, and an EOF after them. */
  lemma RoundTrip(cs: Chars, ts: seq<Token>)
    requires cs.Proper() && AllSpellable(cs, ts)
    ensures Scan(cs, Render(ts), 0, Pos(1, 1)) == Success(Placed(ts))
  {
    var src, offsets, us := Render(ts), Offsets(ts), Placed(ts);
    Layout(ts);
    forall k | 0 <= k < |ts|
      ensures Links(cs, src, offsets, us, k)
    {
      assert ts[k] in ts;
      LaidOutLinks(cs, src, offsets, us, ts, k);
    }
    StartsAtOrigin(ts);
    LinksScan(cs, src, offsets, us, 0);
    assert us[0..] == us;
  }

  lemma {:induction false} StartsAtOrigin(ts: seq<Token>)
    ensures Offsets(ts)[0] == 0 && Placed(ts)[0].at == Pos(1, 1)
  {
    if ts != [] {
      StartsAtOrigin(ts[..|ts| - 1]);
    }
  }

  /** The tokens of any accepted text are spellable. */
  lemma {:induction false} ScannedSpellable(cs: Chars, src: string, p: nat, at: Pos)
    requires cs.Proper() && p <= |src| && Scan(cs, src, p, at).Success?
    ensures var ts := Scan(cs, src, p, at).value; ts != [] && AllSpellable(cs, ts[..|ts| - 1])
    decreases |src| - p
  {
    if p < |src| {
      var piece, e := PieceAt(cs, src, p), End(cs, src, p);
      var next := After(piece, p, e, at);
      ScanStep(cs, src, p, at);
      ScannedSpellable(cs, src, e, next);
      var ts, rest := Scan(cs, src, p, at).value, Scan(cs, src, e, next).value;
      assert ts[..|ts| - 1] == TokenOf(piece, at) + rest[..|rest| - 1];
      if piece.Lexeme? {
        LexemeSpellable(cs, src, p);
      }
    }
  }

  /** Any accepted text can be rewritten as its tokens with single blanks: it has the same tokens. */
  lemma Normalizes(cs: Chars, src: string)
    requires cs.Proper() && Scan(cs, src, 0, Pos(1, 1)).Success?
    ensures var all := Scan(cs, src, 0, Pos(1, 1)).value;
            all != [] && Scan(cs, Render(all[..|all| - 1]), 0, Pos(1, 1)) == Success(Placed(all[..|all| - 1]))
  {
    ScannedSpellable(cs, src, 0, Pos(1, 1));
    var all := Scan(cs, src, 0, Pos(1, 1)).value;
    RoundTrip(cs, all[..|all| - 1]);
  }

  lemma LexemeSpellable(cs: Chars, src: string, p: nat)
    requires cs.Proper() && p < |src| && PieceAt(cs, src, p).Lexeme?
    ensures var piece := PieceAt(cs, src, p); Spellable(cs, piece.kind, piece.text)
  {
    LexemeKind(cs, src, p);
    if src[p] != '\U{2192}' && src[p] != '"' && cs.isDigit(src[p]) {
      NumberSpellable(cs, src, p);
    } else if src[p] != '"' {
      ShortLexeme(cs, src, p);
      SpellableByTables(cs, PieceAt(cs, src, p).kind, PieceAt(cs, src, p).text);
    }
  }

  /** Words and operators are scanned by the tables. */
  lemma ShortLexeme(cs: Chars, src: string, p: nat)
    requires cs.Proper() && p < |src| && PieceAt(cs, src, p).Lexeme?
    requires src[p] != '"' && (src[p] == '\U{2192}' || !cs.isDigit(src[p]))
    ensures var piece := PieceAt(cs, src, p);
            && piece.kind != NUMBER && piece.kind != STRING && piece.kind != EOF && piece.kind != NEWLINE
            && (OperatorText(piece.kind, piece.text) ||
                (WordText(cs, piece.text) && WordKind(piece.text) == piece.kind))
  {
  }

  /** The kind of a scanned token and its text determine each other, whatever the text it was scanned from: a
      token is of a fixed kind exactly if its text is one of that kind's, a name exactly if it is a word that
      is no kind's. Only string literals may contain any text. */
  lemma ScannedKinds(cs: Chars, src: string)
    requires cs.Proper() && cs.Lettered() && Scan(cs, src, 0, Pos(1, 1)).Success?
    ensures forall t :: t in Scan(cs, src, 0, Pos(1, 1)).value && t.kind != STRING ==>
              (forall k :: IsFixed(k) ==> (t.kind == k <==> HasText(k, t.text))) &&
              (t.kind == IDENT <==> WordText(cs, t.text) && forall k :: !HasText(k, t.text))
  {
    ScannedSpellable(cs, src, 0, Pos(1, 1));
    var ts := Scan(cs, src, 0, Pos(1, 1)).value;
    OneEof(cs, src, 0, Pos(1, 1));
    assert ts == ts[..|ts| - 1] + [ts[|ts| - 1]];
    forall t | t in ts && t.kind != STRING
      ensures forall k :: IsFixed(k) ==> (t.kind == k <==> HasText(k, t.text))
      ensures t.kind == IDENT <==> WordText(cs, t.text) && forall k :: !HasText(k, t.text)
    {
      if t in ts[..|ts| - 1] {
        KindOfText(cs, t);
      } else {
        assert t.kind == EOF && t.text == "";
      }
    }
  }

  lemma KindOfText(cs: Chars, t: Token)
    requires cs.Proper() && cs.Lettered() && Spellable(cs, t.kind, t.text) && t.kind != STRING
    ensures forall k :: IsFixed(k) ==> (t.kind == k <==> HasText(k, t.text))
    ensures t.kind == IDENT <==> WordText(cs, t.text) && forall k :: !HasText(k, t.text)
  {
    forall k | HasText(k, t.text)
      ensures t.kind == k
    {
      if IsFixed(t.kind) {
        OneKind(t.kind, k, t.text);
      } else {
        LongText(cs, t, k);
      }
    }
    if t.kind != IDENT && !IsFixed(t.kind) {
      NoWord(cs, t);
    }
  }

  lemma LongText(cs: Chars, t: Token, k: Kind)
    requires cs.Lettered() && Spellable(cs, t.kind, t.text) && (t.kind == NUMBER || t.kind == NEWLINE)
    ensures !HasText(k, t.text)
  {
    OperatorTable(k, t.text);
    assert t.kind == NUMBER ==> cs.isDigit(t.text[0]);
  }

  lemma NoWord(cs: Chars, t: Token)
    requires cs.Proper() && Spellable(cs, t.kind, t.text) && (t.kind == NUMBER || t.kind == NEWLINE)
    ensures !WordText(cs, t.text)
  {
    assert t.kind == NEWLINE ==> Operator(t.text);
    if WordText(cs, t.text) {
      WordNoOperator(cs, t.text);
    }
  }

  lemma NumberSpellable(cs: Chars, src: string, p: nat)
    requires cs.Proper() && p < |src| && cs.isDigit(src[p]) && NumberPiece(cs, src, p).Lexeme?
    ensures NumberText(cs, NumberPiece(cs, src, p).text)
  {
  }
}
