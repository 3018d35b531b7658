/** The bookkeeping record of a parse, the parser's error messages and the operator
    levels of `bin_op`.

    `ParseResult` carries a node or an error and three counters: how many tokens the
    parse advanced over in total, how many the last registered step advanced over, and
    how many a failed `try_register` leaves to be reversed. The parser threads one
    value of it through each production; each operation of the source's class is a
    function here. */
module ParseResults {

  import opened Utils
  import opened Constants
  import opened Lexer
  import opened Nodes

  /** The lexer's guarantee: at least one token, and the last one is EOF. */
  predicate WellEnded(ts: seq<Token>) {
    |ts| > 0 && ts[|ts| - 1].kind == EOF
  }

  /** `matches(KEYWORD, word)`: a keyword token whose text is `word`. */
  predicate IsKw(t: Token, word: string) {
    t.kind == KEYWORD && t.value.Text? && t.value.s == word
  }

  /** The messages of the parser's invalid-syntax errors, as codes; MessageText gives
      the text of each. */
  datatype Message =
    | TrailingToken
    | ExpectedStatement
    | ExpectedComparand
    | ExpectedArgument
    | ExpectedElement
    | ExpectedAtom
    | ExpectedIdentifier
    | ExpectedModelIdentifier
    | ExpectedCommaOrRParen
    | ExpectedCommaOrRSquare
    | ExpectedIdentifierOrLParen
    | ExpectedIdentifierOrRParen
    | ExpectedArrowOrNewline
      /** `Expected '<what>'`, for a single keyword or symbol. */
    | Expected(what: string)

  /** An invalid-syntax error: the span of the offending token and the message. */
  datatype SyntaxError = SyntaxError(posStart: Position, posEnd: Position, message: Message)

  /** An invalid-syntax error spanning the token `t`. */
  function ErrorAt(t: Token, m: Message): SyntaxError {
    SyntaxError(t.posStart, t.posEnd, m)
  }

  datatype ParseResult<T> = ParseResult(error: Option<SyntaxError>, node: Option<T>,
                                        lastRegistered: int, advanceCount: int, toReverse: int)

  function Fresh<T>(): ParseResult<T> {
    ParseResult(None, None, 0, 0, 0)
  }

  /** register_advancement */
  function Advanced<T>(r: ParseResult<T>): ParseResult<T> {
    r.(lastRegistered := 1, advanceCount := r.advanceCount + 1)
  }

  /** register: count the sub-result's advances and adopt its error, if any. The node
      of the sub-result is what `register` hands back. */
  function Registered<T, U>(r: ParseResult<T>, sub: ParseResult<U>): ParseResult<T> {
    r.(lastRegistered := sub.advanceCount, advanceCount := r.advanceCount + sub.advanceCount,
       error := if sub.error.Some? then sub.error else r.error)
  }

  /** try_register: a failed sub-result only leaves its advance count to be reversed. */
  function TryRegistered<T, U>(r: ParseResult<T>, sub: ParseResult<U>): ParseResult<T> {
    if sub.error.Some? then r.(toReverse := sub.advanceCount) else Registered(r, sub)
  }

  function Succeeded<T>(r: ParseResult<T>, n: T): ParseResult<T> {
    r.(node := Some(n))
  }

  /** failure: the new error is kept only if there is none yet or the last registered
      sub-result did not advance. */
  function Failed<T>(r: ParseResult<T>, e: SyntaxError): ParseResult<T> {
    if r.error.None? || r.lastRegistered == 0 then r.(error := Some(e)) else r
  }

  /** What every production guarantees about the result it returns: its advance count
      is exactly how far the cursor moved, from `i` to `j`, and it carries a node
      exactly when it carries no error. */
  predicate Tracks<T>(r: ParseResult<T>, i: int, j: int) {
    0 <= r.advanceCount && j == i + r.advanceCount && (r.error.None? <==> r.node.Some?)
  }

  /** What a loop that continues a production's result guarantees: the result's
      advance count grew by exactly how far the cursor moved, from `i` to `j`. */
  predicate Continues<T>(r0: ParseResult<T>, r: ParseResult<T>, i: int, j: int) {
    i <= j && r.advanceCount - r0.advanceCount == j - i
  }

  // Properties of the bookkeeping.

  /** register adds the sub-result's count to the total, records it as the last
      registered count, and adopts its error if it has one. */
  lemma RegisterCounts<T, U>(r: ParseResult<T>, sub: ParseResult<U>)
    ensures Registered(r, sub).advanceCount == r.advanceCount + sub.advanceCount
    ensures Registered(r, sub).lastRegistered == sub.advanceCount
    ensures sub.error.Some? ==> Registered(r, sub).error == sub.error
    ensures sub.error.None? ==> Registered(r, sub).error == r.error
    ensures Registered(r, sub).node == r.node && Registered(r, sub).toReverse == r.toReverse
  {
  }

  /** register_advancement counts one token and sets the last count to 1. */
  lemma AdvanceCounts<T>(r: ParseResult<T>)
    ensures Advanced(r).advanceCount == r.advanceCount + 1 && Advanced(r).lastRegistered == 1
    ensures Advanced(r).error == r.error && Advanced(r).node == r.node
  {
  }

  /** A failed sub-result leaves the error and both counts alone and is only recorded as
      the amount to reverse; a successful one is registered. */
  lemma TryRegisterFailed<T, U>(r: ParseResult<T>, sub: ParseResult<U>)
    ensures sub.error.Some? ==>
      TryRegistered(r, sub) == r.(toReverse := sub.advanceCount)
    ensures sub.error.Some? ==>
      TryRegistered(r, sub).error == r.error && TryRegistered(r, sub).advanceCount == r.advanceCount
    ensures sub.error.None? ==> TryRegistered(r, sub) == Registered(r, sub)
  {
  }

  /** Deepest error wins: once a sub-result that consumed tokens has failed, a later
      generic failure does not replace its error. */
  lemma DeepestErrorWins<T, U>(r: ParseResult<T>, sub: ParseResult<U>, e: SyntaxError)
    requires sub.error.Some? && sub.advanceCount != 0
    ensures Failed(Registered(r, sub), e).error == sub.error
  {
  }

  /** A sub-result that failed without consuming anything gives way to the generic error. */
  lemma ShallowErrorReplaced<T, U>(r: ParseResult<T>, sub: ParseResult<U>, e: SyntaxError)
    requires sub.advanceCount == 0
    ensures Failed(Registered(r, sub), e).error == Some(e)
  {
  }

  /** After a token has been matched (register_advancement), a failure always reports its
      own error when there was none before. */
  lemma FailureAfterAdvance<T>(r: ParseResult<T>, e: SyntaxError)
    ensures Failed(Advanced(r), e).error == if r.error.None? then Some(e) else r.error
  {
  }

  /** failure changes only the error. */
  lemma FailureKeepsCounts<T>(r: ParseResult<T>, e: SyntaxError)
    ensures Failed(r, e).advanceCount == r.advanceCount && Failed(r, e).node == r.node
    ensures Failed(r, e).error.Some?
    ensures r.error.Some? && r.lastRegistered != 0 ==> Failed(r, e) == r
  {
  }

  // The operator levels of `bin_op`.

  /** The binary-operator levels, lowest precedence first. */
  datatype Level = AndOr | Comparison | Arith | Term | Pow

  predicate IsOp(t: Token, lvl: Level) {
    match lvl
    case AndOr => IsKw(t, "AND") || IsKw(t, "OR")
    case Comparison => t.kind == EE || t.kind == NE || t.kind == LT || t.kind == GT || t.kind == LTE || t.kind == GTE
    case Arith => t.kind == PLUS || t.kind == MINUS
    case Term => t.kind == MUL || t.kind == DIV
    case Pow => t.kind == POW
  }

  /** The next tighter level: the operands of a level are parsed at it. */
  function Tighter(lvl: Level): Level
    requires lvl != Pow
  {
    match lvl
    case AndOr => Comparison
    case Comparison => Arith
    case Arith => Term
    case Term => Pow
  }

  /** The operator sets of the levels do not overlap, so for every operator token there
      is exactly one level that takes it. */
  lemma LevelsDisjoint(t: Token, a: Level, b: Level)
    requires IsOp(t, a) && IsOp(t, b)
    ensures a == b
  {
    if a == AndOr || b == AndOr {
      assert t.kind == KEYWORD;
    }
  }

  /** The tree `left op1 r1 op2 r2 …` that the operator loop of `bin_op` builds: each
      operator wraps the whole tree before it. */
  function FoldOps(left: Node, ops: seq<Token>, rights: seq<Node>): Node
    requires |ops| == |rights|
    decreases |ops|
  {
    if |ops| == 0 then left else FoldOps(MakeBinOp(left, ops[0], rights[0]), ops[1..], rights[1..])
  }

  /** One more operator wraps the tree built so far: the loop's step. */
  lemma {:induction false} FoldOpsSnoc(left: Node, ops: seq<Token>, rights: seq<Node>, op: Token, right: Node)
    requires |ops| == |rights|
    ensures FoldOps(left, ops + [op], rights + [right]) == MakeBinOp(FoldOps(left, ops, rights), op, right)
    decreases |ops|
  {
    if |ops| > 0 {
      assert (ops + [op])[1..] == ops[1..] + [op];
      assert (rights + [right])[1..] == rights[1..] + [right];
      FoldOpsSnoc(MakeBinOp(left, ops[0], rights[0]), ops[1..], rights[1..], op, right);
    }
  }

  /** Left associativity: `a op b op c` is `(a op b) op c`. */
  lemma LeftAssociative(a: Node, op1: Token, b: Node, op2: Token, c: Node)
    ensures FoldOps(a, [op1, op2], [b, c]) == MakeBinOp(MakeBinOp(a, op1, b), op2, c)
  {
    assert FoldOps(a, [op1], [b]) == MakeBinOp(a, op1, b) by {
      assert [op1][1..] == [] && [b][1..] == [];
    }
    FoldOpsSnoc(a, [op1], [b], op2, c);
    assert [op1] + [op2] == [op1, op2] && [b] + [c] == [b, c];
  }

  /** The left spine of a folded tree has one BinOp per operator, and the leftmost leaf
      is the first operand. */
  function LeftDepth(n: Node): nat {
    if n.BinOpNode? then LeftDepth(n.leftNode) + 1 else 0
  }

  lemma {:induction false} FoldOpsDepth(left: Node, ops: seq<Token>, rights: seq<Node>)
    requires |ops| == |rights|
    ensures LeftDepth(FoldOps(left, ops, rights)) == LeftDepth(left) + |ops|
    ensures FoldOps(left, ops, rights).posStart == left.posStart
    decreases |ops|
  {
    if |ops| > 0 {
      FoldOpsDepth(MakeBinOp(left, ops[0], rights[0]), ops[1..], rights[1..]);
    }
  }

  /** The cases of an IF and its optional ELSE, as `if_expr_cases` returns them. */
  type Cases = (seq<Case>, Option<ElseCase>)

  // The reported errors.

  /** The text of each message. */
  function MessageText(m: Message): string {
    match m
    case TrailingToken => "Token cannot appear after previous tokens"
    case ExpectedStatement => "Expected 'RETURN', 'CONTINUE', 'BREAK', 'VAR', 'IF', 'FOR', 'WHILE', 'FUN', int, float, identifier, '+', '-', '(', '[' or 'NOT'"
    case ExpectedComparand => "Expected int, float, identifier, '+', '-', '(', '[', 'IF', 'FOR', 'WHILE', 'FUN' or 'NOT'"
    case ExpectedArgument => "Expected ')', 'VAR', 'IF', 'FOR', 'WHILE', 'FUN', int, float, identifier, '+', '-', '(', '[' or 'NOT'"
    case ExpectedElement => "Expected ']', 'VAR', 'IF', 'FOR', 'WHILE', 'FUN', int, float, identifier, '+', '-', '(', '[' or 'NOT'"
    case ExpectedAtom => "Expected int, float, identifier, '+', '-', '(', '[', IF', 'FOR', 'WHILE', 'FUN'"
    case ExpectedIdentifier => "Expected identifier"
    case ExpectedModelIdentifier => "Expected model identifier"
    case ExpectedCommaOrRParen => "Expected ',' or ')'"
    case ExpectedCommaOrRSquare => "Expected ',' or ']'"
    case ExpectedIdentifierOrLParen => "Expected identifier or '('"
    case ExpectedIdentifierOrRParen => "Expected identifier or ')'"
    case ExpectedArrowOrNewline => "Expected '->' or NEWLINE"
    case Expected(what) => "Expected '" + what + "'"
  }

  /** The InvalidSyntaxError the parser reports for a syntax error. */
  function AsError(e: SyntaxError): (r: Error)
    ensures r.kind == InvalidSyntax && r.posStart == e.posStart && r.posEnd == e.posEnd
    ensures r.details == MessageText(e.message)
  {
    Error(InvalidSyntax, e.posStart, e.posEnd, MessageText(e.message))
  }

  /** An `Expected '<w>'` error names its word: two such errors with the same details
      expect the same token. */
  lemma ExpectedErrorNamesTheWord(e1: SyntaxError, e2: SyntaxError)
    requires e1.message.Expected? && e2.message.Expected?
    ensures AsError(e1).details == AsError(e2).details ==> e1.message.what == e2.message.what
  {
    ExpectedTextShape(e1.message.what);
    ExpectedTextShape(e2.message.what);
  }

  /** `Expected '<w>'`: the word sits between the quotes. */
  lemma ExpectedTextShape(w: string)
    ensures var t := MessageText(Expected(w));
      |t| == |w| + 11 && t[9] == '\'' && t[10..|t| - 1] == w
  {
    var t := MessageText(Expected(w));
    assert t == "Expected '" + w + "'";
    assert t[10..|t| - 1] == w;
  }
}
