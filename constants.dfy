/** Token-type tags, the keyword table and the character classes of the scripting language. */
module Constants {

  import opened Utils

  /** One constructor per token-type tag. */
  datatype TokenType =
    | INT | FLOAT | STRING | IDENTIFIER | KEYWORD
    | PLUS | MINUS | MUL | DIV | POW | EQ
    | LPAREN | RPAREN | LSQUARE | RSQUARE
    | EE | NE | LT | GT | LTE | GTE
    | COMMA | ARROW | NEWLINE | EOF
    | EMBED | WITH | AI | PIPE | VEC | DOT | COSINE

  /** The tag string the engine uses for each token type. */
  function Tag(t: TokenType): string {
    match t
    case INT => "INT"
    case FLOAT => "FLOAT"
    case STRING => "STRING"
    case IDENTIFIER => "IDENTIFIER"
    case KEYWORD => "KEYWORD"
    case PLUS => "PLUS"
    case MINUS => "MINUS"
    case MUL => "MUL"
    case DIV => "DIV"
    case POW => "POW"
    case EQ => "EQ"
    case LPAREN => "LPAREN"
    case RPAREN => "RPAREN"
    case LSQUARE => "LSQUARE"
    case RSQUARE => "RSQUARE"
    case EE => "EE"
    case NE => "NE"
    case LT => "LT"
    case GT => "GT"
    case LTE => "LTE"
    case GTE => "GTE"
    case COMMA => "COMMA"
    case ARROW => "ARROW"
    case NEWLINE => "NEWLINE"
    case EOF => "EOF"
    case EMBED => "EMBED"
    case WITH => "WITH"
    case AI => "AI"
    case PIPE => "PIPE"
    case VEC => "VEC"
    case DOT => "DOT"
    case COSINE => "COSINE"
  }

  /** Reads a tag back by its length and its first characters. */
  function TypeOfTag(s: string): TokenType {
    if |s| == 2 then
      if s[0] == 'E' then (if s[1] == 'Q' then EQ else EE)
      else if s[0] == 'N' then NE
      else if s[0] == 'L' then LT
      else if s[0] == 'G' then GT
      else AI
    else if |s| == 3 then
      if s[0] == 'I' then INT
      else if s[0] == 'M' then MUL
      else if s[0] == 'D' then (if s[1] == 'I' then DIV else DOT)
      else if s[0] == 'P' then POW
      else if s[0] == 'L' then LTE
      else if s[0] == 'G' then GTE
      else if s[0] == 'E' then EOF
      else VEC
    else if |s| == 4 then
      if s[0] == 'P' then (if s[1] == 'L' then PLUS else PIPE) else WITH
    else if |s| == 5 then
      if s[0] == 'F' then FLOAT
      else if s[0] == 'M' then MINUS
      else if s[0] == 'C' then COMMA
      else if s[0] == 'A' then ARROW
      else EMBED
    else if |s| == 6 then
      if s[0] == 'S' then STRING
      else if s[0] == 'L' then LPAREN
      else if s[0] == 'R' then RPAREN
      else COSINE
    else if |s| == 7 then
      if s[0] == 'K' then KEYWORD
      else if s[0] == 'L' then LSQUARE
      else if s[0] == 'R' then RSQUARE
      else NEWLINE
    else IDENTIFIER
  }

  /** Every tag reads back as its own token type. */
  lemma TagRoundTrip(t: TokenType)
    ensures TypeOfTag(Tag(t)) == t
  {
  }

  /** Hence the 32 tags are pairwise distinct. */
  lemma TagsDistinct(a: TokenType, b: TokenType)
    ensures Tag(a) == Tag(b) ==> a == b
  {
    TagRoundTrip(a);
    TagRoundTrip(b);
  }

  /** The reserved words, in table order. */
  const Keywords: seq<string> := [
    "VAR", "AND", "OR", "NOT", "IF", "ELIF", "ELSE", "FOR", "TO", "STEP", "WHILE", "FUN",
    "THEN", "END", "RETURN", "CONTINUE", "BREAK", "EMBED", "WITH", "AI", "PIPE", "VEC",
    "DOT", "COSINE"
  ]

  predicate IsKeyword(s: string) {
    s in Keywords
  }

  /** The table holds 24 distinct names, VEC, DOT and COSINE among them, and every name
      is a run of upper-case ASCII letters. */
  lemma KeywordTable()
    ensures |Keywords| == 24
    ensures forall i, j :: 0 <= i < j < |Keywords| ==> Keywords[i] != Keywords[j]
    ensures IsKeyword("VEC") && IsKeyword("DOT") && IsKeyword("COSINE")
    ensures forall k :: k in Keywords ==> |k| > 0 && forall i :: 0 <= i < |k| ==> 'A' <= k[i] <= 'Z'
  {
  }

  const Digits: string := "0123456789"

  /** Python's string.ascii_letters. */
  predicate IsLetter(c: char) {
    'a' <= c <= 'z' || 'A' <= c <= 'Z'
  }

  /** DIGITS membership is the decimal-digit test of Utils, which the character classes
      below use in its place. */
  lemma DigitsAreDecimal(c: char)
    ensures c in Digits <==> IsDigit(c)
  {
  }

  predicate IsLetterOrDigit(c: char) {
    IsLetter(c) || IsDigit(c)
  }

  /** The characters that may continue an identifier: LETTERS_DIGITS plus "_". */
  predicate IsIdentChar(c: char) {
    IsLetterOrDigit(c) || c == '_'
  }

  predicate IsWhitespace(c: char) {
    c == ' ' || c == '\t'
  }

  predicate IsNumChar(c: char) {
    IsDigit(c) || c == '.'
  }

  /** Character classes: whitespace is exactly space and tab, number characters are the
      ten digits and the dot, and the underscore is neither a letter nor a digit. */
  lemma CharacterClasses(c: char)
    ensures IsWhitespace(c) <==> c == ' ' || c == '\t'
    ensures !IsWhitespace('\n')
    ensures c in Digits <==> '0' <= c <= '9'
    ensures IsNumChar(c) <==> ('0' <= c <= '9' || c == '.')
    ensures !IsLetterOrDigit('_') && IsIdentChar('_')
    ensures IsLetter(c) ==> c !in Digits && !IsWhitespace(c)
  {
  }
}
