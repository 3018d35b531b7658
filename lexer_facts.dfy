/** Properties of tokenizing: the shape of the token list, fail-fast errors, separators,
    numbers, strings, identifiers, two-character operators and comments. */
module LexerFacts {

  import opened Utils
  import opened Constants
  import opened Lexer

  predicate NoEof(ts: seq<Token>) {
    forall i :: 0 <= i < |ts| ==> ts[i].kind != EOF
  }

  /** The cursor after `k` lexer advances. */
  function Walk(text: string, p: Position, k: nat): (q: Position)
    ensures q.idx == p.idx + k
    decreases k
  {
    if k == 0 then p else Walk(text, Next(text, p), k - 1)
  }

  // One iteration of the dispatch, per kind of character.

  lemma StepDigit(text: string, p: Position)
    requires CharAt(text, p.idx).Some? && IsDigit(text[p.idx])
    ensures Step(text, p) == Emit(NumberToken(text, p).0, NumberToken(text, p).1)
  {
  }

  lemma StepLetter(text: string, p: Position)
    requires CharAt(text, p.idx).Some? && IsLetter(text[p.idx])
    ensures Step(text, p) == Emit(IdentifierToken(text, p).0, IdentifierToken(text, p).1)
  {
  }

  lemma StepQuote(text: string, p: Position)
    requires CharAt(text, p.idx) == Some('"')
    ensures Step(text, p) == Emit(StringToken(text, p).0, StringToken(text, p).1)
  {
  }

  lemma StepPair(text: string, p: Position, single: TokenType, follow: char, double: TokenType)
    requires CharAt(text, p.idx).Some?
    requires text[p.idx] == '-' ==> single == MINUS && follow == '>' && double == ARROW
    requires text[p.idx] == '=' ==> single == EQ && follow == '=' && double == EE
    requires text[p.idx] == '<' ==> single == LT && follow == '=' && double == LTE
    requires text[p.idx] == '>' ==> single == GT && follow == '=' && double == GTE
    requires (text[p.idx] == '-' || text[p.idx] == '=' || text[p.idx] == '<' || text[p.idx] == '>')
    ensures Step(text, p) == Emit(PairToken(text, p, single, follow, double).0, PairToken(text, p, single, follow, double).1)
  {
  }

  lemma StepHash(text: string, p: Position)
    requires CharAt(text, p.idx) == Some('#')
    ensures Step(text, p) == (if CommentEnd(text, p).None? then Loops else Skip(CommentEnd(text, p).value))
  {
  }

  lemma StepBang(text: string, p: Position)
    requires CharAt(text, p.idx) == Some('!')
    ensures Step(text, p) == match NotEqualsToken(text, p).0
      case Ok(t) => Emit(t, NotEqualsToken(text, p).1)
      case Err(e) => Fail(e)
  {
  }

  /** At end of input the scan appends EOF and finishes. */
  lemma ScanAtEnd(text: string, p: Position, acc: seq<Token>)
    requires p.idx >= |text|
    ensures Scan(text, p, acc) == Finished(acc + [MakeToken(EOF, NoValue, p, None)], None)
  {
    assert Step(text, p) == AtEnd;
  }

  /** A step that emits one token and reaches the end of input finishes the scan. */
  lemma LastToken(text: string, p: Position, acc: seq<Token>)
    requires Step(text, p).Emit? && Step(text, p).next.idx >= |text|
    ensures Scan(text, p, acc) ==
      Finished(acc + [Step(text, p).tok, MakeToken(EOF, NoValue, Step(text, p).next, None)], None)
  {
    var q := Step(text, p).next;
    assert Step(text, q) == AtEnd;
    assert acc + [Step(text, p).tok] + [MakeToken(EOF, NoValue, q, None)]
      == acc + [Step(text, p).tok, MakeToken(EOF, NoValue, q, None)];
  }

  // ---------------------------------------------------------------------------------------
  // Shape of the result

  /** On success the list is `acc` followed by new tokens and exactly one EOF, at the end;
      on an error the list is empty. */
  predicate Shaped(out: LexOutcome, acc: seq<Token>) {
    match out
    case Finished(ts, None) => acc <= ts && |ts| > |acc| && ts[|ts| - 1].kind == EOF && NoEof(ts[..|ts| - 1])
    case Finished(ts, Some(_)) => ts == []
    case Hangs => true
  }

  /** One step of the scan, read off its definition. */
  lemma ScanUnfold(text: string, p: Position, acc: seq<Token>)
    ensures Step(text, p).AtEnd? ==> Scan(text, p, acc) == Finished(acc + [MakeToken(EOF, NoValue, p, None)], None)
    ensures Step(text, p).Skip? ==> Scan(text, p, acc) == Scan(text, Step(text, p).next, acc)
    ensures Step(text, p).Emit? ==> Scan(text, p, acc) == Scan(text, Step(text, p).next, acc + [Step(text, p).tok])
    ensures Step(text, p).Fail? ==> Scan(text, p, acc) == Finished([], Some(Step(text, p).err))
    ensures Step(text, p).Loops? ==> Scan(text, p, acc) == Hangs
  {
  }

  /** An emitted token is never EOF, so the shape carries back over it. */
  lemma ShapedEmit(out: LexOutcome, acc: seq<Token>, t: Token)
    requires t.kind != EOF && Shaped(out, acc + [t]) && NoEof(acc)
    ensures Shaped(out, acc)
  {
  }

  lemma {:induction false} ScanShape(text: string, p: Position, acc: seq<Token>)
    requires NoEof(acc)
    ensures Shaped(Scan(text, p, acc), acc)
    decreases |text| - p.idx
  {
    ScanUnfold(text, p, acc);
    var r := Step(text, p);
    if r.AtEnd? {
      var ts := acc + [MakeToken(EOF, NoValue, p, None)];
      assert ts[..|ts| - 1] == acc;
    } else if r.Skip? {
      ScanShape(text, r.next, acc);
    } else if r.Emit? {
      assert NoEof(acc + [r.tok]);
      ScanShape(text, r.next, acc + [r.tok]);
      ShapedEmit(Scan(text, r.next, acc + [r.tok]), acc, r.tok);
    }
  }

  /** Tokenizing a text: success ends in exactly one EOF, and an error comes with no tokens. */
  lemma TokenizeShape(fn: string, text: string)
    ensures match Tokenize(fn, text)
      case Finished(ts, None) => |ts| > 0 && ts[|ts| - 1].kind == EOF && NoEof(ts[..|ts| - 1])
      case Finished(ts, Some(_)) => ts == []
      case Hangs => true
  {
    ScanShape(text, StartPosition(fn, text), []);
  }

  // ---------------------------------------------------------------------------------------
  // Errors

  /** Characters that begin some token or are skipped. */
  predicate Recognized(c: char) {
    IsWhitespace(c) || c == '#' || c == ';' || c == '\n' || IsDigit(c) || IsLetter(c) || c == '"'
    || c == '-' || c == '!' || c == '=' || c == '<' || c == '>' || IsSingleCharToken(c)
  }

  /** Any other character stops tokenizing with an IllegalCharError naming it. */
  lemma IllegalCharacter(text: string, p: Position, acc: seq<Token>)
    requires CharAt(text, p.idx).Some? && !Recognized(CharAt(text, p.idx).value)
    ensures Scan(text, p, acc) ==
      Finished([], Some(Error(IllegalChar, p, Next(text, p), "'" + [text[p.idx]] + "'")))
  {
  }

  /** A `!` not followed by `=` stops tokenizing with an ExpectedCharError. */
  lemma BangWithoutEquals(text: string, p: Position, acc: seq<Token>)
    requires CharAt(text, p.idx) == Some('!') && CharAt(text, p.idx + 1) != Some('=')
    ensures Scan(text, p, acc) ==
      Finished([], Some(Error(ExpectedChar, p, Walk(text, p, 2), "'=' (after '!')")))
  {
    assert Walk(text, p, 2) == Next(text, Next(text, p));
    StepBang(text, p);
    ScanUnfold(text, p, acc);
  }

  // ---------------------------------------------------------------------------------------
  // Separators

  predicate IsSeparator(c: char) {
    IsWhitespace(c) || c == ';' || c == '\n'
  }

  /** Number of statement separators (`;` and newline) in `s`. */
  function Breaks(s: string): nat {
    if |s| == 0 then 0 else (if s[0] == ';' || s[0] == '\n' then 1 else 0) + Breaks(s[1..])
  }

  /** Over spaces, tabs, `;` and newlines, exactly one NEWLINE per `;` or newline is emitted,
      then EOF. */
  lemma {:induction false} SeparatorsOnly(text: string, p: Position, acc: seq<Token>)
    requires 0 <= p.idx <= |text| && forall i :: p.idx <= i < |text| ==> IsSeparator(text[i])
    ensures var out := Scan(text, p, acc);
      && out.Finished? && out.error.None? && acc <= out.tokens
      && |out.tokens| == |acc| + Breaks(text[p.idx..]) + 1
      && (forall i :: |acc| <= i < |out.tokens| - 1 ==> out.tokens[i].kind == NEWLINE)
      && out.tokens[|out.tokens| - 1].kind == EOF
    decreases |text| - p.idx
  {
    if p.idx < |text| {
      var c := text[p.idx];
      assert text[p.idx..][1..] == text[p.idx + 1..];
      if IsWhitespace(c) {
        SeparatorsOnly(text, Next(text, p), acc);
      } else {
        var acc' := acc + [MakeToken(NEWLINE, NoValue, p, None)];
        SeparatorsOnly(text, Next(text, p), acc');
      }
    }
  }

  /** The same for a whole text. */
  lemma SeparatorText(fn: string, text: string)
    requires forall i :: 0 <= i < |text| ==> IsSeparator(text[i])
    ensures var out := Tokenize(fn, text);
      && out.Finished? && out.error.None? && |out.tokens| == Breaks(text) + 1
      && (forall i :: 0 <= i < |out.tokens| - 1 ==> out.tokens[i].kind == NEWLINE)
      && out.tokens[|out.tokens| - 1].kind == EOF
  {
    SeparatorsOnly(text, StartPosition(fn, text), []);
    assert text[0..] == text;
  }

  // ---------------------------------------------------------------------------------------
  // Numbers

  /** make_number reads the maximal run of number characters that has at most one dot:
      the token is INT exactly when that run has no dot. */
  lemma NumberTokenLexeme(text: string, p: Position)
    requires CharAt(text, p.idx).Some? && IsDigit(CharAt(text, p.idx).value)
    ensures var (t, q) := NumberToken(text, p); var lexeme := text[p.idx..q.idx];
      && (t.kind == INT <==> '.' !in lexeme)
      && (t.kind == INT ==> AllDigits(lexeme) && t.value == IntValue(DigitsValue(lexeme)))
      && (t.kind == FLOAT ==> IsFloatLexeme(lexeme) && t.value == FloatValue(DecimalValue(lexeme)))
      && (q.idx < |text| ==> !IsNumChar(text[q.idx]) || (text[q.idx] == '.' && t.kind == FLOAT))
  {
    NumberLoopShape(text, p, "", 0);
    NumberLoopLexeme(text, p, "", 0);
    var (s, dots, q) := NumberLoop(text, p, "", 0);
    assert s == text[p.idx..q.idx];
    if dots == 1 {
      assert s[LastDot(s)] == '.';
    }
  }

  /** Every natural number, written in decimal, lexes to one INT token of that value. */
  lemma IntRoundTrip(fn: string, n: nat)
    ensures var out := Tokenize(fn, NatToString(n));
      && out.Finished? && out.error.None? && |out.tokens| == 2
      && out.tokens[0].kind == INT && out.tokens[0].value == IntValue(n)
      && out.tokens[1].kind == EOF
  {
    var text := NatToString(n);
    var p := StartPosition(fn, text);
    assert IsDigit(text[0]);
    var (t, q) := NumberToken(text, p);
    assert q.idx == |text| && t.kind == INT && t.value == IntValue(n) by {
      NumberTokenLexeme(text, p);
      if q.idx < |text| {
      }
      assert text[0..q.idx] == text;
      NatToStringRoundTrip(n);
    }
    assert Step(text, p) == Emit(t, q) by {
      StepDigit(text, p);
    }
    LastToken(text, p, []);
  }

  /** The number scan over `a.b` runs to the end of the text. */
  lemma FloatRunsToEnd(text: string, p: Position, a: string, b: string)
    requires |a| > 0 && AllDigits(a) && AllDigits(b) && text == a + "." + b && p.idx == 0
    ensures NumberToken(text, p).1.idx == |text|
  {
    var q := NumberToken(text, p).1;
    NumberTokenLexeme(text, p);
    if q.idx < |text| && q.idx != |a| {
    }
  }

  /** The only dot of `a.b` is the one after `a`. */
  lemma LastDotOfParts(a: string, b: string)
    requires AllDigits(a) && AllDigits(b)
    ensures LastDot(a + "." + b) == |a|
  {
    var s := a + "." + b;
    var k := LastDot(s);
    assert s[|a|] == '.';
  }

  /** Hence `a.b` has the shape of a float lexeme ... */
  lemma FloatLexemeOfParts(a: string, b: string)
    requires AllDigits(a) && AllDigits(b)
    ensures IsFloatLexeme(a + "." + b)
  {
    var s := a + "." + b;
    LastDotOfParts(a, b);
    assert s[..|a|] == a;
    assert s[|a| + 1..] == b;
  }

  /** ... and reads as a + b / 10^|b|. */
  lemma DecimalOfParts(a: string, b: string)
    requires AllDigits(a) && AllDigits(b)
    ensures IsFloatLexeme(a + "." + b)
    ensures DecimalValue(a + "." + b) == Decimal(a, b)
  {
    var s := a + "." + b;
    FloatLexemeOfParts(a, b);
    LastDotOfParts(a, b);
    assert s[..|a|] == a;
    assert s[|a| + 1..] == b;
  }

  /** ... and yields a FLOAT ... */
  lemma FloatRunKind(text: string, p: Position, a: string, b: string)
    requires |a| > 0 && AllDigits(a) && AllDigits(b) && text == a + "." + b && p.idx == 0
    ensures NumberToken(text, p).0.kind == FLOAT
  {
    FloatRunsToEnd(text, p, a, b);
    NumberTokenLexeme(text, p);
    assert text[0..|text|][|a|] == '.';
  }

  /** A FLOAT scan that covers the whole text carries the value of the whole text. */
  lemma WholeFloat(text: string, p: Position)
    requires CharAt(text, p.idx).Some? && IsDigit(CharAt(text, p.idx).value) && p.idx == 0
    requires NumberToken(text, p).1.idx == |text| && NumberToken(text, p).0.kind == FLOAT
    ensures IsFloatLexeme(text) && NumberToken(text, p).0.value == FloatValue(DecimalValue(text))
  {
    NumberTokenLexeme(text, p);
    assert text[p.idx..|text|] == text;
  }

  /** ... of value a + b / 10^|b|. */
  lemma FloatRunValue(text: string, p: Position, a: string, b: string)
    requires |a| > 0 && AllDigits(a) && AllDigits(b) && text == a + "." + b && p.idx == 0
    ensures NumberToken(text, p).0.value
      == FloatValue(Decimal(a, b))
  {
    assert IsDigit(text[0]) by {
    }
    assert NumberToken(text, p).1.idx == |text| && NumberToken(text, p).0.kind == FLOAT by {
      FloatRunsToEnd(text, p, a, b);
      FloatRunKind(text, p, a, b);
    }
    assert NumberToken(text, p).0.value == FloatValue(DecimalValue(text)) by {
      WholeFloat(text, p);
    }
    assert DecimalValue(text) == Decimal(a, b) by {
      DecimalOfParts(a, b);
    }
  }

  /** `a.b` with digit strings `a` (non-empty) and `b` lexes to one FLOAT token whose value is
      a + b / 10^|b|. */
  lemma FloatLiteral(fn: string, a: string, b: string)
    requires |a| > 0 && AllDigits(a) && AllDigits(b)
    ensures var out := Tokenize(fn, a + "." + b);
      && out.Finished? && out.error.None? && |out.tokens| == 2
      && out.tokens[0].kind == FLOAT
      && out.tokens[0].value == FloatValue(Decimal(a, b))
      && out.tokens[1].kind == EOF
  {
    var text := a + "." + b;
    var p := StartPosition(fn, text);
    FloatRunsToEnd(text, p, a, b);
    FloatRunKind(text, p, a, b);
    FloatRunValue(text, p, a, b);
    assert text[0] == a[0];
    StepDigit(text, p);
    LastToken(text, p, []);
  }

  /** The number scan over `a.b.rest` does not stop before the second dot ... */
  lemma SecondDotReached(text: string, p: Position, a: string, b: string, rest: string)
    requires |a| > 0 && AllDigits(a) && AllDigits(b) && text == a + "." + b + "." + rest && p.idx == 0
    ensures NumberToken(text, p).1.idx >= |a| + |b| + 1
  {
    var k := |a| + |b| + 1;
    assert text[0] == a[0];
    NumberTokenLexeme(text, p);
  }

  /** ... and does not pass it. */
  lemma SecondDotStops(text: string, p: Position, a: string, b: string, rest: string)
    requires |a| > 0 && AllDigits(a) && AllDigits(b) && text == a + "." + b + "." + rest && p.idx == 0
    ensures NumberToken(text, p).1.idx <= |a| + |b| + 1
  {
    var k := |a| + |b| + 1;
    assert text[0] == a[0];
    assert text[|a|] == '.' && text[k] == '.' by {
      assert text == (a + "." + b + ".") + rest;
      assert (a + "." + b + ".")[|a|] == '.';
    }
    NumberTokenLexeme(text, p);
    var (t, q) := NumberToken(text, p);
    if q.idx > k {
      var lexeme := text[0..q.idx];
      assert lexeme[|a|] == '.' && lexeme[k] == '.';
      TwoDotsNotFloat(lexeme, |a|, k);
    }
  }

  /** A lexeme with two dots is not a float lexeme. */
  lemma TwoDotsNotFloat(s: string, i: nat, j: nat)
    requires i < j < |s| && s[i] == '.' && s[j] == '.'
    ensures !IsFloatLexeme(s)
  {
    var d := LastDot(s);
    if d >= j {
      assert s[..d][i] == '.';
    }
  }

  /** A second dot ends the number, and a dot cannot begin a token: `a.b.rest` is an
      IllegalCharError at the second dot. */
  lemma SecondDot(fn: string, a: string, b: string, rest: string)
    requires |a| > 0 && AllDigits(a) && AllDigits(b)
    ensures var text := a + "." + b + "." + rest;
      Tokenize(fn, text).Finished? && Tokenize(fn, text).tokens == []
      && Tokenize(fn, text).error.Some?
      && Tokenize(fn, text).error.value.kind == IllegalChar
      && Tokenize(fn, text).error.value.posStart.idx == |a| + |b| + 1
      && Tokenize(fn, text).error.value.details == "'.'"
  {
    var text := a + "." + b + "." + rest;
    SecondDotScan(text, StartPosition(fn, text), a, b, rest);
  }

  lemma SecondDotScan(text: string, p: Position, a: string, b: string, rest: string)
    requires |a| > 0 && AllDigits(a) && AllDigits(b) && text == a + "." + b + "." + rest && p.idx == 0
    ensures var q := NumberToken(text, p).1;
      && q.idx == |a| + |b| + 1
      && Scan(text, p, []) == Finished([], Some(Error(IllegalChar, q, Next(text, q), "'.'")))
  {
    var k := |a| + |b| + 1;
    var (t, q) := NumberToken(text, p);
    assert q.idx == k by {
      SecondDotReached(text, p, a, b, rest);
      SecondDotStops(text, p, a, b, rest);
    }
    assert Step(text, p) == Emit(t, q) by {
      assert text[0] == a[0];
      StepDigit(text, p);
    }
    ScanUnfold(text, p, []);
    assert CharAt(text, q.idx) == Some('.') by {
      assert text[k] == '.';
    }
    DotUnrecognized();
    IllegalCharacter(text, q, [t]);
    assert "'" + [text[q.idx]] + "'" == "'.'";
  }

  lemma DotUnrecognized()
    ensures !Recognized('.')
  {
  }

  // ---------------------------------------------------------------------------------------
  // Strings

  /** How a character is written inside a string literal so that it reads back as itself. */
  function EscapeOne(c: char): (e: string)
    ensures || (e == [c] && c != '"' && c != '\\')
            || (|e| == 2 && e[0] == '\\' && Unescape(e[1]) == c)
  {
    if c == '\n' then "\\n" else if c == '\t' then "\\t" else if c == '"' then "\\\""
    else if c == '\\' then "\\\\" else [c]
  }

  function Escaped(v: string): string {
    if |v| == 0 then "" else EscapeOne(v[0]) + Escaped(v[1..])
  }

  lemma {:induction false} EscapedNoQuote(v: string)
    ensures forall i :: 0 <= i < |Escaped(v)| && Escaped(v)[i] == '"' ==> i > 0 && Escaped(v)[i - 1] == '\\'
  {
    if |v| > 0 {
      EscapedNoQuote(v[1..]);
      var e, r := EscapeOne(v[0]), Escaped(v[1..]);
      assert Escaped(v) == e + r;
      forall i | 0 <= i < |e + r| && (e + r)[i] == '"'
        ensures i > 0 && (e + r)[i - 1] == '\\'
      {
        if i >= |e| {
          assert (e + r)[i] == r[i - |e|];
          if i - |e| == 0 {
            assert false;
          }
        }
      }
    }
  }

  /** One plain character of a string body is kept as it is. */
  lemma StringLoopPlain(text: string, p: Position, s: string, c: char)
    requires CharAt(text, p.idx) == Some(c) && c != '"' && c != '\\'
    ensures StringLoop(text, p, s, false) == StringLoop(text, Next(text, p), s + [c], false)
  {
  }

  /** A backslash and the character after it stand for the unescaped character. */
  lemma StringLoopEscape(text: string, p: Position, s: string, d: char)
    requires CharAt(text, p.idx) == Some('\\') && CharAt(text, p.idx + 1) == Some(d)
    ensures StringLoop(text, p, s, false) == StringLoop(text, Walk(text, p, 2), s + [Unescape(d)], false)
  {
    var q := Next(text, p);
    assert StringLoop(text, p, s, false) == StringLoop(text, q, s, true);
    assert Walk(text, p, 2) == Next(text, q);
  }

  /** A slice that spells `x + y` spells `y` after `|x|` characters. */
  lemma SliceRest(text: string, i: nat, x: string, y: string)
    requires i + |x| + |y| <= |text| && text[i..i + |x| + |y|] == x + y
    ensures text[i + |x|..i + |x| + |y|] == y
  {
    forall j | 0 <= j < |y|
      ensures text[i + |x|..i + |x| + |y|][j] == y[j]
    {
      assert text[i..i + |x| + |y|][|x| + j] == (x + y)[|x| + j];
    }
  }

  /** Walking `m + n` steps is walking `m` steps and then `n`. */
  lemma {:induction false} WalkAdd(text: string, p: Position, m: nat, n: nat)
    ensures Walk(text, p, m + n) == Walk(text, Walk(text, p, m), n)
    decreases m
  {
    if m > 0 {
      WalkAdd(text, Next(text, p), m - 1, n);
    }
  }

  /** Reading the escaped form of `v` appends `v` to the accumulated value. */
  lemma {:induction false} StringLoopEscaped(text: string, p: Position, s: string, v: string)
    requires 0 <= p.idx && p.idx + |Escaped(v)| <= |text| && text[p.idx..p.idx + |Escaped(v)|] == Escaped(v)
    ensures StringLoop(text, p, s, false) == StringLoop(text, Walk(text, p, |Escaped(v)|), s + v, false)
    decreases |v|
  {
    if |v| > 0 {
      var c := v[0];
      var e, r := EscapeOne(c), Escaped(v[1..]);
      assert Escaped(v) == e + r;
      assert text[p.idx] == e[0];
      SliceRest(text, p.idx, e, r);
      var q := Walk(text, p, |e|);
      if |e| == 1 {
        StringLoopPlain(text, p, s, c);
        assert q == Next(text, p);
      } else {
        assert text[p.idx..p.idx + |Escaped(v)|][1] == e[1];
        StringLoopEscape(text, p, s, e[1]);
      }
      StringLoopEscaped(text, q, s + [c], v[1..]);
      WalkAdd(text, p, |e|, |r|);
      assert s + [c] + v[1..] == s + v;
    } else {
      assert s + v == s;
    }
  }

  /** The string scan of `"` + escaped `v` + `tail`, with `tail` the closing quote or nothing,
      yields `v` and ends the text. */
  lemma QuotedBody(text: string, p: Position, v: string, tail: string)
    requires text == "\"" + Escaped(v) + tail && (tail == "" || tail == "\"") && p.idx == 0
    ensures StringToken(text, p).0.value == Text(v) && StringToken(text, p).1.idx >= |text|
  {
    var q := Next(text, p);
    assert text[1..1 + |Escaped(v)|] == Escaped(v);
    StringLoopEscaped(text, q, "", v);
    var w := Walk(text, q, |Escaped(v)|);
    if tail == "" {
      assert CharAt(text, w.idx).None?;
    } else {
      assert CharAt(text, w.idx) == Some('"');
    }
    assert StringLoop(text, w, v, false) == (v, w);
  }

  /** A quoted literal holding the escaped form of `v` lexes to one STRING token with value
      `v`: escapes are translated and the closing quote is consumed but not kept. */
  lemma StringLiteral(fn: string, v: string)
    ensures var out := Tokenize(fn, "\"" + Escaped(v) + "\"");
      && out.Finished? && out.error.None? && |out.tokens| == 2
      && out.tokens[0].kind == STRING && out.tokens[0].value == Text(v)
      && out.tokens[1].kind == EOF
  {
    var text := "\"" + Escaped(v) + "\"";
    var p := StartPosition(fn, text);
    QuotedBody(text, p, v, "\"");
    StepQuote(text, p);
    LastToken(text, p, []);
  }

  /** Without the closing quote the literal is accepted all the same at end of input. */
  lemma UnterminatedString(fn: string, v: string)
    ensures var out := Tokenize(fn, "\"" + Escaped(v));
      && out.Finished? && out.error.None? && |out.tokens| == 2
      && out.tokens[0].kind == STRING && out.tokens[0].value == Text(v)
      && out.tokens[1].kind == EOF
  {
    var text := "\"" + Escaped(v);
    var p := StartPosition(fn, text);
    assert text == "\"" + Escaped(v) + "";
    QuotedBody(text, p, v, "");
    StepQuote(text, p);
    LastToken(text, p, []);
  }

  // ---------------------------------------------------------------------------------------
  // Identifiers and keywords

  lemma {:induction false} IdentLoopLexeme(text: string, p: Position, s: string)
    requires 0 <= p.idx <= |text|
    ensures var r := IdentLoop(text, p, s); r.1.idx <= |text| && r.0 == s + text[p.idx..r.1.idx]
    decreases |text| - p.idx
  {
    if p.idx < |text| && IsIdentChar(text[p.idx]) {
      var q := Next(text, p);
      IdentLoopLexeme(text, q, s + [text[p.idx]]);
      var r := IdentLoop(text, q, s + [text[p.idx]]);
      assert IdentLoop(text, p, s) == r;
      assert q.idx == p.idx + 1 <= r.1.idx;
      assert text[p.idx..r.1.idx] == [text[p.idx]] + text[q.idx..r.1.idx];
      assert s + [text[p.idx]] + text[q.idx..r.1.idx] == s + text[p.idx..r.1.idx];
    } else {
      assert text[p.idx..p.idx] == [];
    }
  }

  predicate IsWord(w: string) {
    |w| > 0 && IsLetter(w[0]) && forall i :: 0 <= i < |w| ==> IsIdentChar(w[i])
  }

  /** A word lexes to one token carrying the word: KEYWORD when it is reserved, IDENTIFIER
      otherwise. */
  lemma WordLexing(fn: string, w: string)
    requires IsWord(w)
    ensures var out := Tokenize(fn, w);
      && out.Finished? && out.error.None? && |out.tokens| == 2
      && (out.tokens[0].kind == KEYWORD <==> IsKeyword(w))
      && (out.tokens[0].kind == IDENTIFIER <==> !IsKeyword(w))
      && out.tokens[0].value == Text(w)
      && out.tokens[1].kind == EOF
  {
    var p := StartPosition(fn, w);
    IdentLoopLexeme(w, p, "");
    var r := IdentLoop(w, p, "");
    assert w[0..r.1.idx] == w;
    assert r.0 == w;
    assert IdentifierToken(w, p).0 == MakeToken(if IsKeyword(w) then KEYWORD else IDENTIFIER, Text(w), p, Some(r.1));
    StepLetter(w, p);
    LastToken(w, p, []);
  }

  /** Every entry of the keyword table lexes to a KEYWORD token. */
  lemma KeywordsLexAsKeywords(fn: string, k: string)
    requires IsKeyword(k)
    ensures var out := Tokenize(fn, k);
      out.Finished? && out.error.None? && |out.tokens| == 2 && out.tokens[0].kind == KEYWORD
  {
    KeywordTable();
    WordLexing(fn, k);
  }

  // ---------------------------------------------------------------------------------------
  // Two-character operators

  /** One character of lookahead decides between the one- and two-character operator. */
  lemma Lookahead(text: string, p: Position, single: TokenType, follow: char, double: TokenType)
    requires CharAt(text, p.idx).Some? && single != double
    ensures var (t, q) := PairToken(text, p, single, follow, double);
      && (t.kind == double <==> CharAt(text, p.idx + 1) == Some(follow))
      && q.idx == p.idx + (if t.kind == double then 2 else 1)
  {
  }

  /** `text` is one operator of two characters. */
  predicate OneToken(fn: string, text: string, kind: TokenType) {
    var out := Tokenize(fn, text);
    out.Finished? && out.error.None? && |out.tokens| == 2 && out.tokens[0].kind == kind
  }

  /** `!=` lexes to a single NE token. */
  lemma NotEqualsText(fn: string)
    ensures OneToken(fn, "!=", NE)
  {
    var text := "!=";
    var p := StartPosition(fn, text);
    assert Step(text, p) == Emit(NotEqualsToken(text, p).0.value, NotEqualsToken(text, p).1);
    LastToken(text, p, []);
  }

  /** `->`, `==`, `<=` and `>=` each lex to a single token. */
  lemma PairText(fn: string, text: string, single: TokenType, double: TokenType)
    requires |text| == 2 && (text[0] == '-' || text[0] == '=' || text[0] == '<' || text[0] == '>')
    requires text[0] == '-' ==> text[1] == '>' && single == MINUS && double == ARROW
    requires text[0] == '=' ==> text[1] == '=' && single == EQ && double == EE
    requires text[0] == '<' ==> text[1] == '=' && single == LT && double == LTE
    requires text[0] == '>' ==> text[1] == '=' && single == GT && double == GTE
    ensures OneToken(fn, text, double)
  {
    var p := StartPosition(fn, text);
    StepPair(text, p, single, text[1], double);
    LastToken(text, p, []);
  }

  // ---------------------------------------------------------------------------------------
  // Comments

  /** A comment whose line ends is skipped through that newline. */
  lemma {:induction false} CommentToNewline(text: string, p: Position, k: int)
    requires 0 <= p.idx <= k < |text| && text[k] == '\n'
    requires forall i :: p.idx <= i < k ==> text[i] != '\n'
    ensures CommentLoop(text, p) == Some(Walk(text, p, k - p.idx + 1))
    decreases k - p.idx
  {
    if p.idx < k {
      CommentToNewline(text, Next(text, p), k);
    }
  }

  /** A comment that reaches end of input never finishes. */
  lemma {:induction false} CommentHangs(text: string, p: Position)
    requires 0 <= p.idx && forall i :: p.idx <= i < |text| ==> text[i] != '\n'
    ensures CommentLoop(text, p).None?
    decreases |text| - p.idx
  {
    if p.idx < |text| {
      CommentHangs(text, Next(text, p));
    }
  }

  /** `c` holds no newline. */
  predicate OneLine(c: string) {
    forall i :: 0 <= i < |c| ==> c[i] != '\n'
  }

  /** The comment of `#c\n` ends after the newline. */
  lemma CommentLineEnd(text: string, p: Position, c: string)
    requires OneLine(c) && text == "#" + c + "\n" && p.idx == 0
    ensures CommentEnd(text, p) == Some(Walk(text, p, |c| + 2))
  {
    assert text[|c| + 1] == '\n';
    assert forall i :: 1 <= i < |c| + 1 ==> text[i] == c[i - 1];
    CommentToNewline(text, Next(text, p), |c| + 1);
  }

  /** ... after which only the end of input remains. */
  lemma CommentLineScan(text: string, p: Position, c: string)
    requires OneLine(c) && text == "#" + c + "\n" && p.idx == 0
    ensures Scan(text, p, []) == Finished([MakeToken(EOF, NoValue, Walk(text, p, |c| + 2), None)], None)
  {
    var w := Walk(text, p, |c| + 2);
    assert Step(text, p) == Skip(w) by {
      CommentLineEnd(text, p, c);
      StepHash(text, p);
    }
    ScanUnfold(text, p, []);
    ScanAtEnd(text, w, []);
    assert [] + [MakeToken(EOF, NoValue, w, None)] == [MakeToken(EOF, NoValue, w, None)];
  }

  /** `#` and a comment with its newline produce no token at all. */
  lemma CommentLine(fn: string, c: string)
    requires OneLine(c)
    ensures var text := "#" + c + "\n";
      Tokenize(fn, text) == Finished([MakeToken(EOF, NoValue, Walk(text, StartPosition(fn, text), |c| + 2), None)], None)
  {
    var text := "#" + c + "\n";
    CommentLineScan(text, StartPosition(fn, text), c);
  }

  /** A text ending in a comment without a newline is where the source hangs. */
  lemma TrailingComment(fn: string, c: string)
    requires OneLine(c)
    ensures Tokenize(fn, "#" + c) == Hangs
  {
    var text := "#" + c;
    CommentHangs(text, Next(text, StartPosition(fn, text)));
  }

  /** `matches` pins both the type and the value: a token matches at most one pair. */
  lemma MatchesOnePair(t: Token, k1: TokenType, v1: TokenValue, k2: TokenType, v2: TokenValue)
    requires t.Matches(k1, v1) && t.Matches(k2, v2)
    ensures k1 == k2 && v1 == v2
  {
  }
}
