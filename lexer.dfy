/** The character cursor, tokens and the fail-fast tokenizer.

    Each `make_*` helper of the lexer is specified by a function over the source text and
    the cursor position it starts from; the `Lexer` class performs the same steps on its
    mutable cursor and is proved to end where the function says. */
module Lexer {

  import opened Utils
  import opened Constants

  /** A cursor into the source: index, line, column, file name and full text. */
  datatype Position = Position(idx: int, ln: int, col: int, fn: string, ftxt: string) {
    /** One step past the character `c` that was under the cursor (None at end of input). */
    function Advance(c: Option<char>): (p: Position)
      ensures p.idx == idx + 1 && p.fn == fn && p.ftxt == ftxt
      ensures c == Some('\n') ==> p.ln == ln + 1 && p.col == 0
      ensures c != Some('\n') ==> p.ln == ln && p.col == col + 1
    {
      if c == Some('\n') then Position(idx + 1, ln + 1, 0, fn, ftxt)
      else Position(idx + 1, ln, col + 1, fn, ftxt)
    }
  }

  /** Count of newline characters in `s`. */
  function Newlines(s: string): nat {
    if |s| == 0 then 0 else Newlines(s[..|s| - 1]) + (if s[|s| - 1] == '\n' then 1 else 0)
  }

  /** The cursor after stepping over every character of `s` in turn. */
  function AdvanceOver(p: Position, s: string): Position
    decreases |s|
  {
    if |s| == 0 then p else AdvanceOver(p, s[..|s| - 1]).Advance(Some(s[|s| - 1]))
  }

  /** Stepping over a string moves the index by its length and the line by its newlines. */
  lemma {:induction false} AdvanceOverCounts(p: Position, s: string)
    ensures AdvanceOver(p, s).idx == p.idx + |s|
    ensures AdvanceOver(p, s).ln == p.ln + Newlines(s)
    ensures '\n' !in s ==> AdvanceOver(p, s).col == p.col + |s|
    decreases |s|
  {
    if |s| > 0 {
      var t := s[..|s| - 1];
      AdvanceOverCounts(p, t);
      assert '\n' !in s ==> '\n' !in t by {
        if '\n' in t {
          var k :| 0 <= k < |t| && t[k] == '\n';
          assert s[k] == '\n';
        }
      }
    }
  }

  /** The value a token carries. */
  datatype TokenValue = NoValue | IntValue(i: int) | FloatValue(r: real) | Text(s: string)

  datatype Token = Token(kind: TokenType, value: TokenValue, posStart: Position, posEnd: Position) {
    /** Type and value both agree. */
    predicate Matches(k: TokenType, v: TokenValue) {
      kind == k && value == v
    }
  }

  /** The token constructor: without an explicit end, a token ends one column after its start. */
  function MakeToken(kind: TokenType, value: TokenValue, start: Position, end: Option<Position>): (t: Token)
    ensures t.kind == kind && t.value == value && t.posStart == start
    ensures end.Some? ==> t.posEnd == end.value
    ensures end.None? ==> t.posEnd.idx == start.idx + 1 && t.posEnd.ln == start.ln && t.posEnd.col == start.col + 1
  {
    Token(kind, value, start, if end.Some? then end.value else start.Advance(None))
  }

  /** Errors of the lexer and the parser: a kind, a span and a message. */
  datatype ErrorKind = IllegalChar | ExpectedChar | InvalidSyntax
  datatype Error = Error(kind: ErrorKind, posStart: Position, posEnd: Position, details: string)

  /** The character under a cursor index, None past the end. */
  function CharAt(text: string, i: int): (c: Option<char>)
    ensures c.Some? <==> 0 <= i < |text|
    ensures c.Some? ==> c.value == text[i]
  {
    if 0 <= i < |text| then Some(text[i]) else None
  }

  /** The lexer's advance: step past whatever is under the cursor. */
  function Next(text: string, p: Position): Position {
    p.Advance(CharAt(text, p.idx))
  }

  function StartPosition(fn: string, text: string): Position {
    Position(0, 0, 0, fn, text)
  }

  // ---------------------------------------------------------------------------------------
  // Specification of the helpers

  /** Index of the last dot of `s`, or -1. */
  function LastDot(s: string): (k: int)
    ensures -1 <= k < |s|
    ensures k >= 0 ==> s[k] == '.'
    ensures forall i :: k < i < |s| ==> s[i] != '.'
  {
    if |s| == 0 then -1 else if s[|s| - 1] == '.' then |s| - 1 else LastDot(s[..|s| - 1])
  }

  /** A lexeme with one dot: digits, the dot, digits. */
  predicate IsFloatLexeme(s: string) {
    var k := LastDot(s);
    k >= 0 && AllDigits(s[..k]) && AllDigits(s[k + 1..])
  }

  /** What make_number has accumulated so far, with `dots` dots counted. */
  predicate NumberShape(s: string, dots: nat) {
    && dots <= 1
    && (dots == 0 ==> AllDigits(s))
    && (dots == 1 ==> IsFloatLexeme(s))
  }

  /** Appending a digit, or a first dot, keeps the shape. */
  lemma NumberShapeAppend(s: string, dots: nat, c: char)
    requires NumberShape(s, dots) && IsNumChar(c) && !(c == '.' && dots == 1)
    ensures NumberShape(s + [c], if c == '.' then dots + 1 else dots)
  {
    var t := s + [c];
    assert t[..|s|] == s;
    if c == '.' {
      assert LastDot(t) == |s|;
      assert t[|s| + 1..] == [];
    } else if dots == 1 {
      var k := LastDot(s);
      assert LastDot(t) == k;
      assert t[..k] == s[..k];
      assert t[k + 1..] == s[k + 1..] + [c];
    }
  }

  /** Number scanning: number characters are taken until a second dot; the result is the
      accumulated lexeme, its dot count and the cursor after it. */
  function NumberLoop(text: string, p: Position, numStr: string, dots: nat): (r: (string, nat, Position))
    requires 0 <= p.idx <= |text|
    ensures p.idx <= r.2.idx <= |text|
    decreases |text| - p.idx
  {
    var c := CharAt(text, p.idx);
    if c.None? || !IsNumChar(c.value) || (c.value == '.' && dots == 1) then (numStr, dots, p)
    else NumberLoop(text, Next(text, p), numStr + [c.value], if c.value == '.' then dots + 1 else dots)
  }

  /** The lexeme keeps the shape: at most one dot, digits around it. */
  lemma {:induction false} NumberLoopShape(text: string, p: Position, numStr: string, dots: nat)
    requires 0 <= p.idx <= |text| && NumberShape(numStr, dots)
    ensures var r := NumberLoop(text, p, numStr, dots); NumberShape(r.0, r.1) && r.1 >= dots
    decreases |text| - p.idx
  {
    var c := CharAt(text, p.idx);
    if !(c.None? || !IsNumChar(c.value) || (c.value == '.' && dots == 1)) {
      NumberShapeAppend(numStr, dots, c.value);
      NumberLoopShape(text, Next(text, p), numStr + [c.value], if c.value == '.' then dots + 1 else dots);
    }
  }

  /** The lexeme is exactly the characters stepped over, and scanning stops only at a
      character that cannot continue the number. */
  lemma {:induction false} NumberLoopLexeme(text: string, p: Position, numStr: string, dots: nat)
    requires 0 <= p.idx <= |text|
    ensures var r := NumberLoop(text, p, numStr, dots);
      && r.0 == numStr + text[p.idx..r.2.idx]
      && (r.2.idx < |text| ==> !IsNumChar(text[r.2.idx]) || (text[r.2.idx] == '.' && r.1 == 1))
    decreases |text| - p.idx
  {
    var c := CharAt(text, p.idx);
    if c.None? || !IsNumChar(c.value) || (c.value == '.' && dots == 1) {
      assert text[p.idx..p.idx] == [];
    } else {
      var d := if c.value == '.' then dots + 1 else dots;
      var q := Next(text, p);
      NumberLoopLexeme(text, q, numStr + [c.value], d);
      var r := NumberLoop(text, q, numStr + [c.value], d);
      assert text[p.idx..r.2.idx] == [c.value] + text[q.idx..r.2.idx];
    }
  }

  function Pow10(k: nat): (r: nat)
    ensures r >= 1
  {
    if k == 0 then 1 else 10 * Pow10(k - 1)
  }

  /** The exact decimal `whole.frac`: the whole digits plus the fraction digits scaled down
      (the source's float rounding is not modelled). */
  function Decimal(whole: string, frac: string): real
    requires AllDigits(whole) && AllDigits(frac)
  {
    DigitsValue(whole) as real + DigitsValue(frac) as real / Pow10(|frac|) as real
  }

  /** Value of a one-dot lexeme. */
  function DecimalValue(s: string): real
    requires IsFloatLexeme(s)
  {
    var k := LastDot(s);
    Decimal(s[..k], s[k + 1..])
  }

  /** make_number: INT when the lexeme has no dot, FLOAT otherwise. */
  function NumberToken(text: string, p: Position): (r: (Token, Position))
    requires CharAt(text, p.idx).Some? && IsDigit(CharAt(text, p.idx).value)
    ensures r.1.idx > p.idx
    ensures r.0.posStart == p && r.0.posEnd == r.1
    ensures r.0.kind == INT || r.0.kind == FLOAT
  {
    NumberLoopShape(text, p, "", 0);
    var (s, dots, q) := NumberLoop(text, p, "", 0);
    if dots == 0 then (MakeToken(INT, IntValue(DigitsValue(s)), p, Some(q)), q)
    else (MakeToken(FLOAT, FloatValue(DecimalValue(s)), p, Some(q)), q)
  }

  /** The escape table of string literals; other escaped characters stand for themselves. */
  function Unescape(c: char): char {
    if c == 'n' then '\n' else if c == 't' then '\t' else if c == '"' then '"' else c
  }

  /** String body scanning, from the character after the opening quote. */
  function StringLoop(text: string, p: Position, s: string, escape: bool): (r: (string, Position))
    ensures r.1.idx >= p.idx
    ensures CharAt(text, r.1.idx).None? || CharAt(text, r.1.idx) == Some('"')
    decreases |text| - p.idx
  {
    match CharAt(text, p.idx)
    case None => (s, p)
    case Some(c) =>
      if c == '"' && !escape then (s, p)
      else if escape then StringLoop(text, Next(text, p), s + [Unescape(c)], false)
      else if c == '\\' then StringLoop(text, Next(text, p), s, true)
      else StringLoop(text, Next(text, p), s + [c], false)
  }

  /** make_string: the closing quote (or the end of input) is stepped over. */
  function StringToken(text: string, p: Position): (r: (Token, Position))
    ensures r.1.idx > p.idx
    ensures r.0.kind == STRING && r.0.posStart == p && r.0.posEnd == r.1
  {
    var (s, q) := StringLoop(text, Next(text, p), "", false);
    var e := Next(text, q);
    (MakeToken(STRING, Text(s), p, Some(e)), e)
  }

  /** Identifier scanning over letters, digits and underscores. */
  function IdentLoop(text: string, p: Position, s: string): (r: (string, Position))
    ensures r.1.idx >= p.idx && |r.0| == |s| + (r.1.idx - p.idx) && s <= r.0
    ensures forall i :: |s| <= i < |r.0| ==> IsIdentChar(r.0[i])
    ensures CharAt(text, r.1.idx).None? || !IsIdentChar(CharAt(text, r.1.idx).value)
    decreases |text| - p.idx
  {
    match CharAt(text, p.idx)
    case None => (s, p)
    case Some(c) => if IsIdentChar(c) then IdentLoop(text, Next(text, p), s + [c]) else (s, p)
  }

  /** make_identifier: a keyword when the lexeme is reserved, an identifier otherwise. */
  function IdentifierToken(text: string, p: Position): (r: (Token, Position))
    requires CharAt(text, p.idx).Some? && IsLetter(CharAt(text, p.idx).value)
    ensures r.1.idx > p.idx
    ensures r.0.posStart == p && r.0.posEnd == r.1
    ensures r.0.kind == KEYWORD || r.0.kind == IDENTIFIER
  {
    var (s, q) := IdentLoop(text, p, "");
    (MakeToken(if IsKeyword(s) then KEYWORD else IDENTIFIER, Text(s), p, Some(q)), q)
  }

  /** The one-character lookahead of `-`, `=`, `<` and `>`: `single` alone, `double` when
      `follow` comes next. */
  function PairToken(text: string, p: Position, single: TokenType, follow: char, double: TokenType): (r: (Token, Position))
    requires CharAt(text, p.idx).Some?
    ensures r.1.idx == p.idx + 1 || r.1.idx == p.idx + 2
    ensures r.0.kind == single || r.0.kind == double
    ensures r.0.posStart == p && r.0.posEnd == r.1
  {
    var q := Next(text, p);
    if CharAt(text, q.idx) == Some(follow) then
      var e := Next(text, q); (MakeToken(double, NoValue, p, Some(e)), e)
    else (MakeToken(single, NoValue, p, Some(q)), q)
  }

  /** make_not_equals: `!=`, or an ExpectedCharError spanning two steps. */
  function NotEqualsToken(text: string, p: Position): (r: (Result<Token, Error>, Position))
    requires CharAt(text, p.idx).Some?
    ensures r.1.idx == p.idx + 2
    ensures r.0.Ok? <==> CharAt(text, p.idx + 1) == Some('=')
    ensures r.0.Ok? ==> r.0.value.kind == NE
    ensures r.0.Err? ==> r.0.error == Error(ExpectedChar, p, r.1, "'=' (after '!')")
  {
    var q := Next(text, p);
    if CharAt(text, q.idx) == Some('=') then
      var e := Next(text, q); (Ok(MakeToken(NE, NoValue, p, Some(e))), e)
    else
      var e := Next(text, q); (Err(Error(ExpectedChar, p, e, "'=' (after '!')")), e)
  }

  /** Comment body: None when no newline follows (the source loops forever there),
      otherwise the cursor just past that newline. */
  function CommentLoop(text: string, p: Position): (r: Option<Position>)
    ensures r.Some? ==> r.value.idx > p.idx
    decreases |text| - p.idx
  {
    match CharAt(text, p.idx)
    case None => None
    case Some(c) => if c == '\n' then Some(Next(text, p)) else CommentLoop(text, Next(text, p))
  }

  /** skip_comment, from the `#`. */
  function CommentEnd(text: string, p: Position): (r: Option<Position>)
    ensures r.Some? ==> r.value.idx > p.idx
  {
    CommentLoop(text, Next(text, p))
  }

  /** The outcome of tokenizing: the tuple (tokens, error) returned by make_tokens, or the
      infinite loop of a comment that reaches end of input. */
  datatype LexOutcome = Finished(tokens: seq<Token>, error: Option<Error>) | Hangs

  predicate IsSingleCharToken(c: char) {
    c == '+' || c == '*' || c == '/' || c == '^' || c == '(' || c == ')' || c == '[' || c == ']' || c == ','
  }

  function SingleCharType(c: char): TokenType
    requires IsSingleCharToken(c)
  {
    if c == '+' then PLUS else if c == '*' then MUL else if c == '/' then DIV
    else if c == '^' then POW else if c == '(' then LPAREN else if c == ')' then RPAREN
    else if c == '[' then LSQUARE else if c == ']' then RSQUARE else COMMA
  }

  /** What one iteration of make_tokens's loop does at cursor `p`. */
  datatype StepResult =
    | AtEnd                                  // no character left: the loop ends
    | Skip(next: Position)                   // whitespace or a comment
    | Emit(tok: Token, next: Position)       // one more token
    | Fail(err: Error)                       // return [], error
    | Loops                                  // a comment that never ends

  function Step(text: string, p: Position): (r: StepResult)
    ensures r.AtEnd? <==> CharAt(text, p.idx).None?
    ensures r.Skip? ==> r.next.idx > p.idx
    ensures r.Emit? ==> r.next.idx > p.idx && r.tok.kind != EOF && r.tok.posStart == p
  {
    match CharAt(text, p.idx)
    case None => AtEnd
    case Some(c) =>
      if IsWhitespace(c) then Skip(Next(text, p))
      else if c == '#' then
        (match CommentEnd(text, p)
         case None => Loops
         case Some(q) => Skip(q))
      else if c == ';' || c == '\n' then Emit(MakeToken(NEWLINE, NoValue, p, None), Next(text, p))
      else if IsDigit(c) then var (t, q) := NumberToken(text, p); Emit(t, q)
      else if IsLetter(c) then var (t, q) := IdentifierToken(text, p); Emit(t, q)
      else if c == '"' then var (t, q) := StringToken(text, p); Emit(t, q)
      else if c == '-' then var (t, q) := PairToken(text, p, MINUS, '>', ARROW); Emit(t, q)
      else if c == '!' then
        (match NotEqualsToken(text, p)
         case (Err(e), _) => Fail(e)
         case (Ok(t), q) => Emit(t, q))
      else if c == '=' then var (t, q) := PairToken(text, p, EQ, '=', EE); Emit(t, q)
      else if c == '<' then var (t, q) := PairToken(text, p, LT, '=', LTE); Emit(t, q)
      else if c == '>' then var (t, q) := PairToken(text, p, GT, '=', GTE); Emit(t, q)
      else if IsSingleCharToken(c) then Emit(MakeToken(SingleCharType(c), NoValue, p, None), Next(text, p))
      else Fail(Error(IllegalChar, p, Next(text, p), "'" + [c] + "'"))
  }

  /** make_tokens from cursor `p` with the tokens `acc` already produced. */
  function Scan(text: string, p: Position, acc: seq<Token>): LexOutcome
    decreases |text| - p.idx
  {
    match Step(text, p)
    case AtEnd => Finished(acc + [MakeToken(EOF, NoValue, p, None)], None)
    case Skip(q) => Scan(text, q, acc)
    case Emit(t, q) => Scan(text, q, acc + [t])
    case Fail(e) => Finished([], Some(e))
    case Loops => Hangs
  }

  /** Tokenizing a whole text. */
  function Tokenize(fn: string, text: string): LexOutcome {
    Scan(text, StartPosition(fn, text), [])
  }

  // ---------------------------------------------------------------------------------------
  // The lexer object

  class Lexer {
    const fn: string
    const text: string
    var pos: Position
    var currentChar: Option<char>

    ghost predicate Valid()
      reads this
    {
      pos.fn == fn && pos.ftxt == text && currentChar == CharAt(text, pos.idx)
    }

    /** The cursor starts one step before the text and is advanced onto its first character. */
    constructor(fn: string, text: string)
      ensures Valid() && this.fn == fn && this.text == text
      ensures pos == StartPosition(fn, text)
    {
      this.fn := fn;
      this.text := text;
      var p := Position(-1, 0, -1, fn, text);
      pos := p.Advance(None);
      currentChar := CharAt(text, 0);
    }

    method Advance()
      requires Valid()
      modifies this
      ensures Valid() && pos == Next(text, old(pos))
    {
      pos := pos.Advance(currentChar);
      currentChar := CharAt(text, pos.idx);
    }

    method MakeTokens() returns (out: LexOutcome)
      requires Valid()
      modifies this
      ensures Valid()
      ensures out == Scan(text, old(pos), [])
      ensures out.Finished? && out.error.None? ==>
        |out.tokens| > 0 && out.tokens[|out.tokens| - 1] == MakeToken(EOF, NoValue, pos, None)
    {
      var tokens: seq<Token> := [];
      while currentChar.Some?
        invariant Valid()
        invariant Scan(text, pos, tokens) == Scan(text, old(pos), [])
        decreases |text| - pos.idx
      {
        var c := currentChar.value;
        if IsWhitespace(c) {
          Advance();
        } else if c == '#' {
          var hangs := SkipComment();
          if hangs {
            return Hangs;
          }
        } else if c == ';' || c == '\n' {
          tokens := tokens + [MakeToken(NEWLINE, NoValue, pos, None)];
          Advance();
        } else if IsDigit(c) {
          var t := MakeNumber();
          tokens := tokens + [t];
        } else if IsLetter(c) {
          var t := MakeIdentifier();
          tokens := tokens + [t];
        } else if c == '"' {
          var t := MakeString();
          tokens := tokens + [t];
        } else if c == '-' {
          var t := MakeMinusOrArrow();
          tokens := tokens + [t];
        } else if c == '!' {
          var t := MakeNotEquals();
          if t.Err? {
            return Finished([], Some(t.error));
          }
          tokens := tokens + [t.value];
        } else if c == '=' {
          var t := MakeEquals();
          tokens := tokens + [t];
        } else if c == '<' {
          var t := MakeLessThan();
          tokens := tokens + [t];
        } else if c == '>' {
          var t := MakeGreaterThan();
          tokens := tokens + [t];
        } else if IsSingleCharToken(c) {
          tokens := tokens + [MakeToken(SingleCharType(c), NoValue, pos, None)];
          Advance();
        } else {
          var posStart := pos;
          Advance();
          return Finished([], Some(Error(IllegalChar, posStart, pos, "'" + [c] + "'")));
        }
      }
      tokens := tokens + [MakeToken(EOF, NoValue, pos, None)];
      return Finished(tokens, None);
    }

    method MakeNumber() returns (tok: Token)
      requires Valid() && currentChar.Some? && IsDigit(currentChar.value)
      modifies this
      ensures Valid()
      ensures (tok, pos) == NumberToken(text, old(pos))
    {
      var numStr := "";
      var dotCount := 0;
      var posStart := pos;
      while currentChar.Some? && IsNumChar(currentChar.value)
        invariant Valid()
        invariant posStart.idx <= pos.idx <= |text| && NumberShape(numStr, dotCount)
        invariant NumberLoop(text, pos, numStr, dotCount) == NumberLoop(text, posStart, "", 0)
        decreases |text| - pos.idx
      {
        if currentChar.value == '.' {
          if dotCount == 1 {
            break;
          }
          dotCount := dotCount + 1;
        }
        NumberShapeAppend(numStr, if currentChar.value == '.' then dotCount - 1 else dotCount, currentChar.value);
        numStr := numStr + [currentChar.value];
        Advance();
      }
      if dotCount == 0 {
        tok := MakeToken(INT, IntValue(DigitsValue(numStr)), posStart, Some(pos));
      } else {
        tok := MakeToken(FLOAT, FloatValue(DecimalValue(numStr)), posStart, Some(pos));
      }
    }

    method MakeString() returns (tok: Token)
      requires Valid()
      modifies this
      ensures Valid()
      ensures (tok, pos) == StringToken(text, old(pos))
    {
      var s := "";
      var posStart := pos;
      var escape := false;
      Advance();
      var bodyStart := pos;
      while currentChar.Some? && (currentChar.value != '"' || escape)
        invariant Valid()
        invariant StringLoop(text, pos, s, escape) == StringLoop(text, bodyStart, "", false)
        decreases |text| - pos.idx
      {
        if escape {
          s := s + [Unescape(currentChar.value)];
        } else {
          if currentChar.value == '\\' {
            escape := true;
            Advance();
            continue;
          } else {
            s := s + [currentChar.value];
          }
        }
        Advance();
        escape := false;
      }
      Advance();
      tok := MakeToken(STRING, Text(s), posStart, Some(pos));
    }

    method MakeIdentifier() returns (tok: Token)
      requires Valid() && currentChar.Some? && IsLetter(currentChar.value)
      modifies this
      ensures Valid()
      ensures (tok, pos) == IdentifierToken(text, old(pos))
    {
      var idStr := "";
      var posStart := pos;
      while currentChar.Some? && IsIdentChar(currentChar.value)
        invariant Valid()
        invariant IdentLoop(text, pos, idStr) == IdentLoop(text, posStart, "")
        decreases |text| - pos.idx
      {
        idStr := idStr + [currentChar.value];
        Advance();
      }
      var kind := if IsKeyword(idStr) then KEYWORD else IDENTIFIER;
      tok := MakeToken(kind, Text(idStr), posStart, Some(pos));
    }

    /** Shared step of make_minus_or_arrow, make_equals, make_less_than and make_greater_than. */
    method MakePair(single: TokenType, follow: char, double: TokenType) returns (tok: Token)
      requires Valid() && currentChar.Some?
      modifies this
      ensures Valid()
      ensures (tok, pos) == PairToken(text, old(pos), single, follow, double)
    {
      var posStart := pos;
      Advance();
      ghost var q := pos;
      assert q == Next(text, posStart);
      if currentChar == Some(follow) {
        Advance();
        tok := MakeToken(double, NoValue, posStart, Some(pos));
        assert CharAt(text, q.idx) == Some(follow);
        assert pos == Next(text, q);
        assert tok == PairToken(text, posStart, single, follow, double).0;
        assert pos == PairToken(text, posStart, single, follow, double).1;
      } else {
        tok := MakeToken(single, NoValue, posStart, Some(pos));
        assert CharAt(text, q.idx) != Some(follow);
        assert tok == PairToken(text, posStart, single, follow, double).0;
        assert pos == PairToken(text, posStart, single, follow, double).1;
      }
    }

    method MakeMinusOrArrow() returns (tok: Token)
      requires Valid() && currentChar.Some?
      modifies this
      ensures Valid()
      ensures (tok, pos) == PairToken(text, old(pos), MINUS, '>', ARROW)
    {
      tok := MakePair(MINUS, '>', ARROW);
    }

    method MakeEquals() returns (tok: Token)
      requires Valid() && currentChar.Some?
      modifies this
      ensures Valid()
      ensures (tok, pos) == PairToken(text, old(pos), EQ, '=', EE)
    {
      tok := MakePair(EQ, '=', EE);
    }

    method MakeLessThan() returns (tok: Token)
      requires Valid() && currentChar.Some?
      modifies this
      ensures Valid()
      ensures (tok, pos) == PairToken(text, old(pos), LT, '=', LTE)
    {
      tok := MakePair(LT, '=', LTE);
    }

    method MakeGreaterThan() returns (tok: Token)
      requires Valid() && currentChar.Some?
      modifies this
      ensures Valid()
      ensures (tok, pos) == PairToken(text, old(pos), GT, '=', GTE)
    {
      tok := MakePair(GT, '=', GTE);
    }

    method MakeNotEquals() returns (r: Result<Token, Error>)
      requires Valid() && currentChar.Some?
      modifies this
      ensures Valid()
      ensures (r, pos) == NotEqualsToken(text, old(pos))
    {
      var posStart := pos;
      Advance();
      if currentChar == Some('=') {
        Advance();
        return Ok(MakeToken(NE, NoValue, posStart, Some(pos)));
      }
      Advance();
      return Err(Error(ExpectedChar, posStart, pos, "'=' (after '!')"));
    }

    /** Returns true where the source would loop forever: no newline before end of input. */
    method SkipComment() returns (hangs: bool)
      requires Valid() && currentChar.Some?
      modifies this
      ensures Valid()
      ensures hangs <==> CommentEnd(text, old(pos)).None?
      ensures !hangs ==> pos == CommentEnd(text, old(pos)).value
    {
      Advance();
      while currentChar != Some('\n')
        invariant Valid()
        invariant CommentLoop(text, pos) == CommentEnd(text, old(pos))
        decreases |text| - pos.idx
      {
        if currentChar.None? {
          return true;
        }
        Advance();
      }
      Advance();
      return false;
    }
  }
}
