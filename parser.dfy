/** The recursive-descent parser over a token cursor that can be rewound.

    The cursor is the mutable state of class Parser. Each production threads one
    ParseResult value, which it starts fresh, updates at every step as `register`,
    `try_register`, `register_advancement`, `success` and `failure` update the source's
    object, and returns. Every production promises `Tracks`: the result's advance count
    is exactly how far the cursor moved, which is what lets `statements` rewind over a
    failed attempt by the amount the result hands back.

    Every advance follows a positive match of a token that is not EOF, so on a token
    list that ends with EOF the cursor never leaves the list. */
module Parser {

  import opened Utils
  import opened Constants
  import opened Lexer
  import opened Nodes
  import opened AiNodes
  import opened ParseResults

  /** The tokens an atom can start with. */
  predicate StartsAtom(t: Token) {
    t.kind == INT || t.kind == FLOAT || t.kind == STRING || t.kind == IDENTIFIER
    || t.kind == LPAREN || t.kind == LSQUARE
    || IsKw(t, "EMBED") || IsKw(t, "AI") || IsKw(t, "IF") || IsKw(t, "FOR") || IsKw(t, "WHILE") || IsKw(t, "FUN")
  }

  /** The node of a one-token atom: a number, a string or a variable access. */
  function LiteralNode(t: Token): Option<Node> {
    if t.kind == INT || t.kind == FLOAT then Some(MakeNumber(t))
    else if t.kind == STRING then Some(MakeString(t))
    else if t.kind == IDENTIFIER then Some(MakeVarAccess(t))
    else None
  }

  /** Termination ranks of the operator levels, for productions that call one another
      without consuming a token. */
  function Rank(lvl: Level): nat {
    match lvl
    case AndOr => 31
    case Comparison => 29
    case Arith => 28
    case Term => 27
    case Pow => 25
  }

  class Parser {
    const tokens: seq<Token>
    var tokIdx: int
    var currentTok: Token

    /** The cursor is on a token of a list that ends with EOF. */
    predicate Valid()
      reads this
    {
      WellEnded(tokens) && 0 <= tokIdx < |tokens| && currentTok == tokens[tokIdx]
    }

    constructor(tokens: seq<Token>)
      requires WellEnded(tokens)
      ensures Valid() && this.tokens == tokens && tokIdx == 0
    {
      this.tokens := tokens;
      tokIdx := -1;
      currentTok := tokens[0];
      new;
      Advance();
    }

    method Advance()
      modifies this
      ensures tokIdx == old(tokIdx) + 1
      ensures currentTok == if 0 <= tokIdx < |tokens| then tokens[tokIdx] else old(currentTok)
    {
      tokIdx := tokIdx + 1;
      UpdateCurrentTok();
    }

    method Reverse(amount: int)
      modifies this
      ensures tokIdx == old(tokIdx) - amount
      ensures currentTok == if 0 <= tokIdx < |tokens| then tokens[tokIdx] else old(currentTok)
    {
      tokIdx := tokIdx - amount;
      UpdateCurrentTok();
    }

    /** The current token follows the index only while the index is inside the list. */
    method UpdateCurrentTok()
      modifies this
      ensures tokIdx == old(tokIdx)
      ensures currentTok == if 0 <= tokIdx < |tokens| then tokens[tokIdx] else old(currentTok)
    {
      if 0 <= tokIdx < |tokens| {
        currentTok := tokens[tokIdx];
      }
    }

    /** `register_advancement()` followed by `advance()`: the pair every positive match
        of a token ends with. */
    method Step<T>(res0: ParseResult<T>) returns (res: ParseResult<T>)
      requires Valid() && currentTok.kind != EOF
      modifies this
      ensures Valid() && tokIdx == old(tokIdx) + 1
      ensures res == Advanced(res0)
    {
      res := Advanced(res0);
      Advance();
    }

    /** parse: the statements, and then nothing but EOF. A parse that built a tree fails
        exactly when tokens remain, and then with the trailing-token error at the first
        of them. */
    method Parse() returns (res: ParseResult<Node>)
      requires Valid()
      modifies this
      ensures Valid() && 0 <= res.advanceCount && tokIdx == old(tokIdx) + res.advanceCount
      ensures res.node.None? ==> res.error.Some?
      ensures res.node.Some? ==> res.node.value.ListNode?
      ensures res.node.Some? && currentTok.kind == EOF ==> res.error.None?
      ensures res.node.Some? && currentTok.kind != EOF ==> res.error == Some(ErrorAt(currentTok, TrailingToken))
    {
      res := Statements();
      if res.error.None? && currentTok.kind != EOF {
        res := Failed(res, ErrorAt(currentTok, TrailingToken));
      }
    }

    /** statements: leading NEWLINEs, one statement, then more statements each after at
        least one NEWLINE. The list starts where the first token starts and ends where the
        token after it ends, and it never stops in front of a NEWLINE. */
    method Statements() returns (res: ParseResult<Node>)
      requires Valid()
      modifies this
      ensures Valid() && Tracks(res, old(tokIdx), tokIdx)
      ensures res.node.Some? ==>
        res.node.value.ListNode? && |res.node.value.elementNodes| > 0
        && res.node.value.posStart == old(currentTok).posStart && res.node.value.posEnd == currentTok.posEnd
        && currentTok.kind != NEWLINE
      decreases |tokens| - tokIdx, 67
    {
      res := Fresh();
      var posStart := currentTok.posStart;
      var skipped;
      res, skipped := SkipNewlines(res);

      var sub := Statement();
      res := Registered(res, sub);
      if res.error.Some? {
        return;
      }
      res := MoreStatements(res, [sub.node.value], posStart);
    }

    /** The NEWLINE-skipping loop: one register_advancement per NEWLINE passed. */
    method SkipNewlines<T>(res0: ParseResult<T>) returns (res: ParseResult<T>, newlineCount: int)
      requires Valid()
      modifies this
      ensures Valid() && newlineCount == tokIdx - old(tokIdx) && 0 <= newlineCount
      ensures currentTok.kind != NEWLINE
      ensures forall k :: old(tokIdx) <= k < tokIdx ==> tokens[k].kind == NEWLINE
      ensures res == if newlineCount == 0 then res0
                     else res0.(lastRegistered := 1, advanceCount := res0.advanceCount + newlineCount)
    {
      ghost var i0 := tokIdx;
      res, newlineCount := res0, 0;
      while currentTok.kind == NEWLINE
        invariant Valid() && i0 <= tokIdx && newlineCount == tokIdx - i0
        invariant forall k :: i0 <= k < tokIdx ==> tokens[k].kind == NEWLINE
        invariant res == if newlineCount == 0 then res0
                         else res0.(lastRegistered := 1, advanceCount := res0.advanceCount + newlineCount)
        decreases |tokens| - tokIdx
      {
        res := Step(res);
        newlineCount := newlineCount + 1;
      }
    }

    /** The loop of `statements` after its first statement. It cannot fail: a statement
        that does not parse after the NEWLINEs is reversed over, by exactly the count the
        failed attempt hands back, and ends the list. */
    method MoreStatements(res0: ParseResult<Node>, statements0: seq<Node>, posStart: Position)
      returns (res: ParseResult<Node>)
      requires Valid() && res0.error.None?
      modifies this
      ensures Valid() && Continues(res0, res, old(tokIdx), tokIdx)
      ensures res.error.None? && res.node.Some? && currentTok.kind != NEWLINE
      ensures var n := res.node.value;
        n.ListNode? && n.posStart == posStart && n.posEnd == currentTok.posEnd
        && |n.elementNodes| >= |statements0| && n.elementNodes[..|statements0|] == statements0
      decreases |tokens| - tokIdx, 66
    {
      ghost var i0 := tokIdx;
      res := res0;
      var statements := statements0;
      var moreStatements := true;
      while true
        invariant Valid() && res.error.None? && Continues(res0, res, i0, tokIdx)
        invariant |statements| >= |statements0| && statements[..|statements0|] == statements0
        decreases |tokens| - tokIdx
      {
        var newlineCount;
        res, newlineCount := SkipNewlines(res);
        if newlineCount == 0 {
          moreStatements := false;
        }
        if !moreStatements {
          break;
        }
        ghost var j := tokIdx;
        var next := Statement();
        res := TryRegistered(res, next);
        if next.error.Some? {
          Reverse(res.toReverse);
          assert tokIdx == j;
          moreStatements := false;
          continue;
        }
        statements := statements + [next.node.value];
      }
      res := Succeeded(res, ListNode(statements, posStart, currentTok.posEnd));
    }

    /** statement: RETURN with an optional expression, CONTINUE, BREAK, or an expression.
        RETURN never fails: when no expression parses after it, the cursor is reversed to
        just after RETURN and the node returns nothing. An expression that fails without
        consuming a token gives way to the generic statement message. */
    method Statement() returns (res: ParseResult<Node>)
      requires Valid()
      modifies this
      ensures Valid() && Tracks(res, old(tokIdx), tokIdx)
      ensures IsKw(old(currentTok), "RETURN") ==>
        res.node.Some? && res.node.value.ReturnNode?
        && res.node.value.posStart == old(currentTok).posStart && res.node.value.posEnd == currentTok.posStart
        && (res.node.value.nodeToReturn.None? ==> tokIdx == old(tokIdx) + 1)
      ensures IsKw(old(currentTok), "CONTINUE") ==>
        tokIdx == old(tokIdx) + 1 && res.node == Some(ContinueNode(old(currentTok).posStart, currentTok.posStart))
      ensures IsKw(old(currentTok), "BREAK") ==>
        tokIdx == old(tokIdx) + 1 && res.node == Some(BreakNode(old(currentTok).posStart, currentTok.posStart))
      ensures (!IsKw(old(currentTok), "RETURN") && !IsKw(old(currentTok), "CONTINUE") && !IsKw(old(currentTok), "BREAK")
               && res.error.Some? && tokIdx == old(tokIdx)) ==> res.error == Some(ErrorAt(currentTok, ExpectedStatement))
      decreases |tokens| - tokIdx, 65
    {
      res := Fresh();
      var posStart := currentTok.posStart;

      if IsKw(currentTok, "RETURN") {
        res := Step(res);
        var sub := Expr();
        res := TryRegistered(res, sub);
        var expr := if sub.error.Some? then None else sub.node;
        if expr.None? {
          Reverse(res.toReverse);
        }
        res := Succeeded(res, ReturnNode(expr, posStart, currentTok.posStart));
        return;
      }

      if IsKw(currentTok, "CONTINUE") {
        res := Step(res);
        res := Succeeded(res, ContinueNode(posStart, currentTok.posStart));
        return;
      }

      if IsKw(currentTok, "BREAK") {
        res := Step(res);
        res := Succeeded(res, BreakNode(posStart, currentTok.posStart));
        return;
      }

      var sub := Expr();
      res := Registered(res, sub);
      if res.error.Some? {
        res := Failed(res, ErrorAt(currentTok, ExpectedStatement));
        return;
      }
      res := Succeeded(res, sub.node.value);
    }

    /** expr: `VAR name = expr`, or AND/OR operations followed by PIPE stages. */
    method Expr() returns (res: ParseResult<Node>)
      requires Valid()
      modifies this
      ensures Valid() && Tracks(res, old(tokIdx), tokIdx)
      ensures IsKw(old(currentTok), "VAR") && res.node.Some? ==> res.node.value.VarAssignNode?
      ensures !IsKw(old(currentTok), "VAR") && res.node.Some? ==> !IsKw(currentTok, "PIPE")
      decreases |tokens| - tokIdx, 64
    {
      if IsKw(currentTok, "VAR") {
        res := VarAssign();
        return;
      }

      res := Fresh();
      var sub := BinOp(AndOr);
      res := Registered(res, sub);
      if res.error.Some? {
        return;
      }
      ghost var stages;
      res, stages := PipeLoop(res, sub.node.value);
    }

    /** The VAR branch of `expr`: the name right after VAR is the assigned variable. */
    method VarAssign() returns (res: ParseResult<Node>)
      requires Valid() && IsKw(currentTok, "VAR")
      modifies this
      ensures Valid() && Tracks(res, old(tokIdx), tokIdx) && old(tokIdx) + 1 < |tokens|
      ensures tokens[old(tokIdx) + 1].kind != IDENTIFIER ==>
        tokIdx == old(tokIdx) + 1 && res.error == Some(ErrorAt(tokens[old(tokIdx) + 1], ExpectedIdentifier))
      ensures tokens[old(tokIdx) + 1].kind == IDENTIFIER && tokens[old(tokIdx) + 2].kind != EQ ==>
        tokIdx == old(tokIdx) + 2 && res.error == Some(ErrorAt(tokens[old(tokIdx) + 2], Expected("=")))
      ensures res.node.Some? ==>
        res.node.value.VarAssignNode? && res.node.value == MakeVarAssign(tokens[old(tokIdx) + 1], res.node.value.valueNode)
        && tokens[old(tokIdx) + 2].kind == EQ
      decreases |tokens| - tokIdx, 63
    {
      res := Fresh();
      res := Step(res);
      if currentTok.kind != IDENTIFIER {
        res := Failed(res, ErrorAt(currentTok, ExpectedIdentifier));
        return;
      }
      var varName := currentTok;
      res := Step(res);
      if currentTok.kind != EQ {
        res := Failed(res, ErrorAt(currentTok, Expected("=")));
        return;
      }
      res := Step(res);
      var sub := Expr();
      res := Registered(res, sub);
      if res.error.Some? {
        return;
      }
      res := Succeeded(res, MakeVarAssign(varName, sub.node.value));
    }

    /** The PIPE loop of `expr`: each PIPE takes exactly one atom and wraps the tree so
        far, so the stages nest to the left. */
    method PipeLoop(res0: ParseResult<Node>, node0: Node) returns (res: ParseResult<Node>, ghost stages: seq<Node>)
      requires Valid() && res0.error.None? && res0.node.None?
      modifies this
      ensures Valid() && Continues(res0, res, old(tokIdx), tokIdx)
      ensures res.error.None? <==> res.node.Some?
      ensures res.node.Some? ==> res.node.value == PipeChain(node0, stages) && !IsKw(currentTok, "PIPE")
      decreases |tokens| - tokIdx, 63
    {
      ghost var i0 := tokIdx;
      res, stages := res0, [];
      var node := node0;
      while IsKw(currentTok, "PIPE")
        invariant Valid() && res.error.None? && res.node.None? && Continues(res0, res, i0, tokIdx)
        invariant node == PipeChain(node0, stages)
        decreases |tokens| - tokIdx
      {
        res := Step(res);
        var atom := Atom();
        res := Registered(res, atom);
        if res.error.Some? {
          return;
        }
        node := MakePipe(node, atom.node.value);
        stages := stages + [atom.node.value];
        assert stages[..|stages| - 1] == stages[..|stages| - 1];
      }
      res := Succeeded(res, node);
    }

    /** The operand of a level (`func_a` of `bin_op`): the precedence ladder from AND/OR
        down to call. */
    method LeftOperand(lvl: Level) returns (res: ParseResult<Node>)
      requires Valid()
      modifies this
      ensures Valid() && Tracks(res, old(tokIdx), tokIdx)
      decreases |tokens| - tokIdx, 2 * Rank(lvl) - 1
    {
      match lvl {
        case AndOr => res := CompExpr();
        case Comparison => res := BinOp(Arith);
        case Arith => res := BinOp(Term);
        case Term => res := Factor();
        case Pow => res := Call();
      }
    }

    /** The right operand of a level (`func_b`): a factor for `power`, else `func_a`. */
    method RightOperand(lvl: Level) returns (res: ParseResult<Node>)
      requires Valid()
      modifies this
      ensures Valid() && Tracks(res, old(tokIdx), tokIdx)
      ensures lvl == Pow && res.node.Some? ==> !IsOp(currentTok, Pow)
      decreases |tokens| - tokIdx, 2 * Rank(lvl) + 2
    {
      if lvl == Pow {
        res := Factor();
      } else {
        res := LeftOperand(lvl);
      }
    }

    /** bin_op: `arith_expr`, `term` and `power` are this method at the levels Arith,
        Term and Pow. It stops only at a token that is not an operator of its level. */
    method BinOp(lvl: Level) returns (res: ParseResult<Node>)
      requires Valid()
      modifies this
      ensures Valid() && Tracks(res, old(tokIdx), tokIdx)
      ensures res.node.Some? ==> !IsOp(currentTok, lvl)
      decreases |tokens| - tokIdx, 2 * Rank(lvl)
    {
      res := Fresh();
      var a := LeftOperand(lvl);
      res := Registered(res, a);
      if res.error.Some? {
        return;
      }
      ghost var ops, rights;
      res, ops, rights := BinOpLoop(res, lvl, a.node.value);
    }

    /** The operator loop of `bin_op`: the tree is the left fold of the operators and
        right operands in the order they were read. At the level Pow the right operand is
        a factor, which takes every further `^` itself, so the loop runs at most once and
        `^` nests to the right. */
    method BinOpLoop(res0: ParseResult<Node>, lvl: Level, left0: Node)
      returns (res: ParseResult<Node>, ghost ops: seq<Token>, ghost rights: seq<Node>)
      requires Valid() && res0.error.None? && res0.node.None?
      modifies this
      ensures Valid() && Continues(res0, res, old(tokIdx), tokIdx)
      ensures res.error.None? <==> res.node.Some?
      ensures |ops| == |rights| && forall k :: 0 <= k < |ops| ==> IsOp(ops[k], lvl)
      ensures res.node.Some? ==> res.node.value == FoldOps(left0, ops, rights) && !IsOp(currentTok, lvl)
      ensures lvl == Pow ==> |ops| <= 1
      decreases |tokens| - tokIdx, 2 * Rank(lvl) - 1
    {
      ghost var i0 := tokIdx;
      res, ops, rights := res0, [], [];
      var left := left0;
      while IsOp(currentTok, lvl)
        invariant Valid() && res.error.None? && res.node.None? && Continues(res0, res, i0, tokIdx)
        invariant |ops| == |rights| && forall k :: 0 <= k < |ops| ==> IsOp(ops[k], lvl)
        invariant left == FoldOps(left0, ops, rights)
        invariant lvl == Pow ==> |ops| <= 1 && (|ops| == 1 ==> !IsOp(currentTok, Pow))
        decreases |tokens| - tokIdx
      {
        var opTok := currentTok;
        res := Step(res);
        var b := RightOperand(lvl);
        res := Registered(res, b);
        if res.error.Some? {
          return;
        }
        FoldOpsSnoc(left0, ops, rights, opTok, b.node.value);
        left := MakeBinOp(left, opTok, b.node.value);
        ops, rights := ops + [opTok], rights + [b.node.value];
      }
      res := Succeeded(res, left);
    }

    /** comp_expr: NOT and a comparison expression, or the comparisons. Comparisons that
        fail without consuming a token give way to the generic message. */
    method CompExpr() returns (res: ParseResult<Node>)
      requires Valid()
      modifies this
      ensures Valid() && Tracks(res, old(tokIdx), tokIdx)
      ensures IsKw(old(currentTok), "NOT") && res.node.Some? ==>
        res.node.value.UnaryOpNode? && res.node.value.opTok == old(currentTok)
      ensures !IsKw(old(currentTok), "NOT") && res.error.Some? && tokIdx == old(tokIdx) ==>
        res.error == Some(ErrorAt(currentTok, ExpectedComparand))
      decreases |tokens| - tokIdx, 59
    {
      res := Fresh();

      if IsKw(currentTok, "NOT") {
        var opTok := currentTok;
        res := Step(res);
        var sub := CompExpr();
        res := Registered(res, sub);
        if res.error.Some? {
          return;
        }
        res := Succeeded(res, MakeUnaryOp(opTok, sub.node.value));
        return;
      }

      var sub := BinOp(Comparison);
      res := Registered(res, sub);
      if res.error.Some? {
        res := Failed(res, ErrorAt(currentTok, ExpectedComparand));
        return;
      }
      res := Succeeded(res, sub.node.value);
    }

    /** factor: a unary `+` or `-` and a factor, or a power. Either way it takes every
        `^` that follows. */
    method Factor() returns (res: ParseResult<Node>)
      requires Valid()
      modifies this
      ensures Valid() && Tracks(res, old(tokIdx), tokIdx)
      ensures res.node.Some? ==> !IsOp(currentTok, Pow)
      ensures (old(currentTok).kind == PLUS || old(currentTok).kind == MINUS) && res.node.Some? ==>
        res.node.value.UnaryOpNode? && res.node.value.opTok == old(currentTok)
      decreases |tokens| - tokIdx, 51
    {
      var tok := currentTok;

      if tok.kind == PLUS || tok.kind == MINUS {
        res := Fresh();
        res := Step(res);
        var sub := Factor();
        res := Registered(res, sub);
        if res.error.Some? {
          return;
        }
        res := Succeeded(res, MakeUnaryOp(tok, sub.node.value));
        return;
      }

      res := BinOp(Pow);
    }

    /** call: an atom and, when `(` follows, its argument list. A call node ends with the
        closing `)`. */
    method Call() returns (res: ParseResult<Node>)
      requires Valid()
      modifies this
      ensures Valid() && Tracks(res, old(tokIdx), tokIdx)
      ensures res.node.Some? && res.node.value.CallNode? ==> 0 < tokIdx && tokens[tokIdx - 1].kind == RPAREN
      decreases |tokens| - tokIdx, 48
    {
      res := Fresh();
      var atom := Atom();
      res := Registered(res, atom);
      if res.error.Some? {
        return;
      }
      if currentTok.kind == LPAREN {
        res := CallArgs(res, atom.node.value);
        return;
      }
      res := Succeeded(res, atom.node.value);
    }

    /** The argument list of a call, from its `(`. When the first argument fails, the
        generic argument message replaces its error unless the argument consumed tokens. */
    method CallArgs(res0: ParseResult<Node>, callee: Node) returns (res: ParseResult<Node>)
      requires Valid() && res0.error.None? && res0.node.None? && currentTok.kind == LPAREN
      modifies this
      ensures Valid() && Continues(res0, res, old(tokIdx), tokIdx)
      ensures res.error.None? <==> res.node.Some?
      ensures res.node.Some? ==>
        res.node.value.CallNode? && res.node.value.nodeToCall == callee
        && 0 < tokIdx && tokens[tokIdx - 1].kind == RPAREN
      ensures tokens[old(tokIdx) + 1].kind == RPAREN ==>
        tokIdx == old(tokIdx) + 2 && res.node == Some(MakeCall(callee, []))
      decreases |tokens| - tokIdx, 0
    {
      res := Step(res0);
      var argNodes;
      res, argNodes := Items(res, RPAREN, Some(ExpectedArgument), ExpectedCommaOrRParen);
      if res.error.Some? {
        return;
      }
      res := Succeeded(res, MakeCall(callee, argNodes));
    }

    /** The items of a bracketed, comma-separated list after its opening token, and the
        closing token `close`. When the first item fails, `firstError` (if given) is
        reported in its place as `failure` allows; a missing closing token after the
        items is reported with `tailError`. */
    method Items(res0: ParseResult<Node>, close: TokenType, firstError: Option<Message>, tailError: Message)
      returns (res: ParseResult<Node>, nodes: seq<Node>)
      requires Valid() && res0.error.None? && res0.node.None? && close != EOF
      modifies this
      ensures Valid() && Continues(res0, res, old(tokIdx), tokIdx) && res.node.None?
      ensures old(currentTok).kind == close ==> tokIdx == old(tokIdx) + 1 && res.error.None? && nodes == []
      ensures res.error.None? ==> old(tokIdx) < tokIdx && tokens[tokIdx - 1].kind == close
      decreases |tokens| - tokIdx, 69
    {
      res, nodes := res0, [];
      if currentTok.kind == close {
        res := Step(res);
        return;
      }
      var e := Expr();
      res := Registered(res, e);
      if res.error.Some? {
        if firstError.Some? {
          res := Failed(res, ErrorAt(currentTok, firstError.value));
        }
        return;
      }
      res, nodes := ArgsTail(res, e.node.value, close, tailError);
    }

    /** The rest of a comma-separated list after its first expression: more expressions,
        each after a COMMA, and the closing token, whose absence is reported with
        `message` at the token found instead. */
    method ArgsTail(res0: ParseResult<Node>, first: Node, close: TokenType, message: Message)
      returns (res: ParseResult<Node>, nodes: seq<Node>)
      requires Valid() && res0.error.None? && res0.node.None? && close != EOF
      modifies this
      ensures Valid() && Continues(res0, res, old(tokIdx), tokIdx) && res.node.None?
      ensures |nodes| > 0 && nodes[0] == first
      ensures res.error.None? ==> old(tokIdx) < tokIdx && tokens[tokIdx - 1].kind == close
      ensures old(currentTok).kind != COMMA && old(currentTok).kind != close ==>
        tokIdx == old(tokIdx) && res.error == Some(ErrorAt(old(currentTok), message))
      decreases |tokens| - tokIdx, 31
    {
      res, nodes := CommaExprs(res0, [first]);
      if res.error.Some? {
        return;
      }
      if currentTok.kind != close {
        res := Failed(res, ErrorAt(currentTok, message));
        return;
      }
      res := Step(res);
    }

    /** The comma loop of calls, list literals and AI calls: while a COMMA follows,
        advance and parse one more expression, appended in order. */
    method CommaExprs(res0: ParseResult<Node>, nodes0: seq<Node>) returns (res: ParseResult<Node>, nodes: seq<Node>)
      requires Valid() && res0.error.None? && res0.node.None?
      modifies this
      ensures Valid() && Continues(res0, res, old(tokIdx), tokIdx) && res.node.None?
      ensures |nodes| >= |nodes0| && nodes[..|nodes0|] == nodes0
      ensures res.error.None? ==> currentTok.kind != COMMA
      ensures old(currentTok).kind != COMMA ==> tokIdx == old(tokIdx) && res == res0 && nodes == nodes0
      decreases |tokens| - tokIdx, 30
    {
      ghost var i0 := tokIdx;
      res, nodes := res0, nodes0;
      while currentTok.kind == COMMA
        invariant Valid() && res.error.None? && res.node.None? && Continues(res0, res, i0, tokIdx)
        invariant |nodes| >= |nodes0| && nodes[..|nodes0|] == nodes0
        invariant tokIdx == i0 ==> res == res0 && nodes == nodes0
        invariant tokIdx != i0 ==> old(currentTok).kind == COMMA
        decreases |tokens| - tokIdx
      {
        res := Step(res);
        var next := Expr();
        res := Registered(res, next);
        if res.error.Some? {
          return;
        }
        nodes := nodes + [next.node.value];
      }
    }

    /** atom: a literal, a variable, a bracketed expression, a list, or one of the
        keyword constructs; the first token decides which. */
    method Atom() returns (res: ParseResult<Node>)
      requires Valid()
      modifies this
      ensures Valid() && Tracks(res, old(tokIdx), tokIdx)
      ensures LiteralNode(old(currentTok)).Some? ==>
        tokIdx == old(tokIdx) + 1 && res.node == LiteralNode(old(currentTok))
      ensures !StartsAtom(old(currentTok)) ==>
        tokIdx == old(tokIdx) && res.error == Some(ErrorAt(old(currentTok), ExpectedAtom))
      ensures res.node.Some? && res.node.value.CallNode? ==> 0 < tokIdx && tokens[tokIdx - 1].kind == RPAREN
      decreases |tokens| - tokIdx, 47
    {
      res := Fresh();
      var tok := currentTok;

      var literal := LiteralNode(tok);
      if literal.Some? {
        res := Step(res);
        res := Succeeded(res, literal.value);
      } else if tok.kind == LPAREN {
        res := Bracketed();
      } else {
        res := CompoundAtom();
      }
    }

    /** `( expr )`: the bracketed expression is the node itself, and a missing `)` is an
        error at the token found in its place. */
    method Bracketed() returns (res: ParseResult<Node>)
      requires Valid() && currentTok.kind == LPAREN
      modifies this
      ensures Valid() && Tracks(res, old(tokIdx), tokIdx)
      ensures res.node.Some? ==> old(tokIdx) < tokIdx && tokens[tokIdx - 1].kind == RPAREN
      decreases |tokens| - tokIdx, 46
    {
      res := Fresh();
      res := Step(res);
      var sub := Expr();
      res := Registered(res, sub);
      if res.error.Some? {
        return;
      }
      if currentTok.kind == RPAREN {
        res := Step(res);
        res := Succeeded(res, sub.node.value);
      } else {
        res := Failed(res, ErrorAt(currentTok, Expected(")")));
      }
    }

    /** The atoms that a production of their own parses: EMBED, AI, a list, IF, FOR,
        WHILE and FUN. The node's kind follows the first token; any other token is not
        an atom. */
    method CompoundAtom() returns (res: ParseResult<Node>)
      requires Valid()
      requires currentTok.kind !in {INT, FLOAT, STRING, IDENTIFIER, LPAREN}
      modifies this
      ensures Valid() && Tracks(res, old(tokIdx), tokIdx)
      ensures !StartsAtom(old(currentTok)) ==>
        tokIdx == old(tokIdx) && res.error == Some(ErrorAt(old(currentTok), ExpectedAtom))
      ensures res.node.Some? ==>
        !res.node.value.CallNode?
        && (IsKw(old(currentTok), "EMBED") ==> res.node.value.EmbedNode?)
        && (IsKw(old(currentTok), "AI") ==> res.node.value.AICallNode?)
        && (old(currentTok).kind == LSQUARE ==> res.node.value.ListNode?)
        && (IsKw(old(currentTok), "IF") ==> res.node.value.IfNode?)
        && (IsKw(old(currentTok), "FOR") ==> res.node.value.ForNode?)
        && (IsKw(old(currentTok), "WHILE") ==> res.node.value.WhileNode?)
        && (IsKw(old(currentTok), "FUN") ==> res.node.value.FuncDefNode?)
      decreases |tokens| - tokIdx, 46
    {
      var tok := currentTok;
      var sub: ParseResult<Node>;
      ghost var thenIdx;
      if IsKw(tok, "EMBED") {
        sub := EmbedExpr();
      } else if IsKw(tok, "AI") {
        sub := AiExpr();
      } else if tok.kind == LSQUARE {
        sub := ListExpr();
      } else if IsKw(tok, "IF") {
        sub := IfExpr();
      } else if IsKw(tok, "FOR") {
        sub, thenIdx := ForExpr();
      } else if IsKw(tok, "WHILE") {
        sub, thenIdx := WhileExpr();
      } else if IsKw(tok, "FUN") {
        sub := FuncDef();
      } else {
        res := Failed(Fresh(), ErrorAt(tok, ExpectedAtom));
        return;
      }
      res := Registered(Fresh(), sub);
      if res.error.Some? {
        return;
      }
      res := Succeeded(res, sub.node.value);
    }

    /** list_expr: `[`, then nothing or comma-separated expressions, then `]`. The list
        starts at `[` and ends where the token after `]` ends. */
    method ListExpr() returns (res: ParseResult<Node>)
      requires Valid()
      modifies this
      ensures Valid() && Tracks(res, old(tokIdx), tokIdx)
      ensures old(currentTok).kind != LSQUARE ==>
        tokIdx == old(tokIdx) && res.error == Some(ErrorAt(old(currentTok), Expected("[")))
      ensures res.node.Some? ==>
        res.node.value.ListNode? && res.node.value.posStart == old(currentTok).posStart
        && res.node.value.posEnd == currentTok.posEnd && 0 < tokIdx && tokens[tokIdx - 1].kind == RSQUARE
      decreases |tokens| - tokIdx, 44
    {
      res := Fresh();
      var elementNodes;
      var posStart := currentTok.posStart;

      if currentTok.kind != LSQUARE {
        res := Failed(res, ErrorAt(currentTok, Expected("[")));
        return;
      }
      res := Step(res);
      res, elementNodes := Items(res, RSQUARE, Some(ExpectedElement), ExpectedCommaOrRSquare);
      if res.error.Some? {
        return;
      }
      res := Succeeded(res, ListNode(elementNodes, posStart, currentTok.posEnd));
    }

    /** if_expr: the cases of an IF, as one IF node with at least one case. */
    method IfExpr() returns (res: ParseResult<Node>)
      requires Valid()
      modifies this
      ensures Valid() && Tracks(res, old(tokIdx), tokIdx)
      ensures !IsKw(old(currentTok), "IF") ==>
        tokIdx == old(tokIdx) && res.error == Some(ErrorAt(old(currentTok), Expected("IF")))
      ensures res.node.Some? ==> res.node.value.IfNode? && |res.node.value.cases| > 0
      decreases |tokens| - tokIdx, 41
    {
      res := Fresh();
      var sub;
      ghost var thenIdx;
      sub, thenIdx := IfExprCases("IF");
      res := Registered(res, sub);
      if res.error.Some? {
        return;
      }
      var (cases, elseCase) := sub.node.value;
      res := Succeeded(res, MakeIf(cases, elseCase));
    }

    /** if_expr_b: the cases from an ELIF on. */
    method IfExprB() returns (res: ParseResult<Cases>)
      requires Valid()
      modifies this
      ensures Valid() && Tracks(res, old(tokIdx), tokIdx)
      ensures res.node.Some? ==> |res.node.value.0| > 0
      decreases |tokens| - tokIdx, 41
    {
      ghost var thenIdx;
      res, thenIdx := IfExprCases("ELIF");
    }

    /** if_expr_c: an optional ELSE and its body. A block body (NEWLINE after ELSE) sets
        the flag and must close with END. Without ELSE it succeeds at once with no else
        case. */
    method IfExprC() returns (res: ParseResult<Option<ElseCase>>)
      requires Valid()
      modifies this
      ensures Valid() && Tracks(res, old(tokIdx), tokIdx)
      ensures !IsKw(old(currentTok), "ELSE") ==> tokIdx == old(tokIdx) && res.node == Some(None)
      ensures IsKw(old(currentTok), "ELSE") && res.node.Some? ==>
        old(tokIdx) + 1 < |tokens| && res.node.value.Some?
        && (res.node.value.value.returnsNull <==> tokens[old(tokIdx) + 1].kind == NEWLINE)
        && (res.node.value.value.returnsNull ==> 0 < tokIdx && IsKw(tokens[tokIdx - 1], "END"))
      decreases |tokens| - tokIdx, 40
    {
      res := Fresh();
      var elseCase: Option<ElseCase> := None;

      if IsKw(currentTok, "ELSE") {
        res := Step(res);
        var body, block;
        res, body, block := Body(res);
        if body.None? {
          return;
        }
        elseCase := Some(ElseCase(body.value, block));
      }
      res := Succeeded(res, elseCase);
    }

    /** if_expr_b_or_c: the cases of an ELIF, or else an optional ELSE with no cases. */
    method IfExprBOrC() returns (res: ParseResult<Cases>)
      requires Valid()
      modifies this
      ensures Valid() && Tracks(res, old(tokIdx), tokIdx)
      ensures IsKw(old(currentTok), "ELIF") && res.node.Some? ==> |res.node.value.0| > 0
      ensures !IsKw(old(currentTok), "ELIF") && res.node.Some? ==> res.node.value.0 == []
      decreases |tokens| - tokIdx, 42
    {
      res := Fresh();
      var cases: seq<Case> := [];
      var elseCase: Option<ElseCase> := None;

      if IsKw(currentTok, "ELIF") {
        var sub := IfExprB();
        res := Registered(res, sub);
        if res.error.Some? {
          return;
        }
        cases, elseCase := sub.node.value.0, sub.node.value.1;
      } else {
        var sub := IfExprC();
        res := Registered(res, sub);
        if res.error.Some? {
          return;
        }
        elseCase := sub.node.value;
      }
      res := Succeeded(res, (cases, elseCase));
    }

    /** if_expr_cases: the keyword, a condition, THEN and a body, then the later cases.
        A NEWLINE right after THEN makes the first case a block (its flag is set). */
    method IfExprCases(caseKeyword: string) returns (res: ParseResult<Cases>, ghost thenIdx: int)
      requires Valid()
      modifies this
      ensures Valid() && Tracks(res, old(tokIdx), tokIdx)
      ensures !IsKw(old(currentTok), caseKeyword) ==>
        tokIdx == old(tokIdx) && res.error == Some(ErrorAt(old(currentTok), Expected(caseKeyword)))
      ensures res.node.Some? ==>
        |res.node.value.0| > 0 && old(tokIdx) < thenIdx < tokIdx && IsKw(tokens[thenIdx], "THEN")
        && (res.node.value.0[0].returnsNull <==> tokens[thenIdx + 1].kind == NEWLINE)
      decreases |tokens| - tokIdx, 40
    {
      res, thenIdx := Fresh(), 0;

      if !IsKw(currentTok, caseKeyword) {
        res := Failed(res, ErrorAt(currentTok, Expected(caseKeyword)));
        return;
      }
      res := Step(res);

      var c := Expr();
      res := Registered(res, c);
      if res.error.Some? {
        return;
      }
      if !IsKw(currentTok, "THEN") {
        res := Failed(res, ErrorAt(currentTok, Expected("THEN")));
        return;
      }
      thenIdx := tokIdx;
      res := Step(res);
      res := IfCaseBody(res, c.node.value);
    }

    /** The body of a case after THEN, and the cases after it. A block (NEWLINE first)
        ends at END or goes on with ELIF or ELSE; a single statement always goes on with
        them. */
    method IfCaseBody(res0: ParseResult<Cases>, condition: Node) returns (res: ParseResult<Cases>)
      requires Valid() && res0.error.None? && res0.node.None?
      modifies this
      ensures Valid() && Continues(res0, res, old(tokIdx), tokIdx)
      ensures res.error.None? <==> res.node.Some?
      ensures res.node.Some? ==>
        |res.node.value.0| > 0 && res.node.value.0[0].condition == condition
        && (res.node.value.0[0].returnsNull <==> old(currentTok).kind == NEWLINE)
      decreases |tokens| - tokIdx, 66
    {
      res := res0;
      var cases: seq<Case> := [];
      var elseCase: Option<ElseCase> := None;
      if currentTok.kind == NEWLINE {
        res := Step(res);
        var sub := Statements();
        res := Registered(res, sub);
        if res.error.Some? {
          return;
        }
        cases := [Case(condition, sub.node.value, true)];

        if IsKw(currentTok, "END") {
          res := Step(res);
        } else {
          var more := IfExprBOrC();
          res := Registered(res, more);
          if res.error.Some? {
            return;
          }
          cases, elseCase := cases + more.node.value.0, more.node.value.1;
        }
      } else {
        var sub := Statement();
        res := Registered(res, sub);
        if res.error.Some? {
          return;
        }
        cases := [Case(condition, sub.node.value, false)];

        var more := IfExprBOrC();
        res := Registered(res, more);
        if res.error.Some? {
          return;
        }
        cases, elseCase := cases + more.node.value.0, more.node.value.1;
      }
      res := Succeeded(res, (cases, elseCase));
    }

    /** for_expr: `FOR name = start TO end [STEP step] THEN body`. The node's flag is set
        exactly when a NEWLINE follows THEN. */
    method ForExpr() returns (res: ParseResult<Node>, ghost thenIdx: int)
      requires Valid()
      modifies this
      ensures Valid() && Tracks(res, old(tokIdx), tokIdx)
      ensures !IsKw(old(currentTok), "FOR") ==>
        tokIdx == old(tokIdx) && res.error == Some(ErrorAt(old(currentTok), Expected("FOR")))
      ensures IsKw(old(currentTok), "FOR") ==>
        old(tokIdx) + 1 < |tokens|
        && (tokens[old(tokIdx) + 1].kind != IDENTIFIER ==>
              tokIdx == old(tokIdx) + 1 && res.error == Some(ErrorAt(tokens[old(tokIdx) + 1], ExpectedIdentifier)))
      ensures res.node.Some? ==>
        res.node.value.ForNode? && res.node.value.varNameTok == tokens[old(tokIdx) + 1]
        && old(tokIdx) < thenIdx < tokIdx && IsKw(tokens[thenIdx], "THEN")
        && (res.node.value.shouldReturnNull <==> tokens[thenIdx + 1].kind == NEWLINE)
      decreases |tokens| - tokIdx, 44
    {
      res, thenIdx := Fresh(), 0;

      if !IsKw(currentTok, "FOR") {
        res := Failed(res, ErrorAt(currentTok, Expected("FOR")));
        return;
      }
      res := Step(res);

      if currentTok.kind != IDENTIFIER {
        res := Failed(res, ErrorAt(currentTok, ExpectedIdentifier));
        return;
      }
      var varName := currentTok;
      res := Step(res);

      res, thenIdx := ForHeadTail(res, varName);
    }

    /** The part of a FOR after its variable name: `=`, the range, THEN and the body. */
    method ForHeadTail(res0: ParseResult<Node>, varName: Token) returns (res: ParseResult<Node>, ghost thenIdx: int)
      requires Valid() && res0.error.None? && res0.node.None?
      modifies this
      ensures Valid() && Continues(res0, res, old(tokIdx), tokIdx)
      ensures res.error.None? <==> res.node.Some?
      ensures old(currentTok).kind != EQ ==>
        tokIdx == old(tokIdx) && res.error == Some(ErrorAt(old(currentTok), Expected("=")))
      ensures res.node.Some? ==>
        res.node.value.ForNode? && res.node.value.varNameTok == varName
        && old(tokIdx) < thenIdx < tokIdx && IsKw(tokens[thenIdx], "THEN")
        && (res.node.value.shouldReturnNull <==> tokens[thenIdx + 1].kind == NEWLINE)
      decreases |tokens| - tokIdx, 0
    {
      res, thenIdx := res0, 0;
      if currentTok.kind != EQ {
        res := Failed(res, ErrorAt(currentTok, Expected("=")));
        return;
      }
      res := Step(res);

      var startValue, endValue, stepValue;
      res, startValue, endValue, stepValue := ForRange(res);
      if res.error.Some? {
        return;
      }

      thenIdx := tokIdx;
      var body, block;
      res, body, block := ThenBody(res);
      if body.None? {
        return;
      }
      res := Succeeded(res, MakeFor(varName, startValue, endValue, stepValue, body.value, block));
    }

    /** The range of a FOR after `=`: the start value, TO, the end value and an optional
        STEP value. */
    method ForRange(res0: ParseResult<Node>) returns (res: ParseResult<Node>, startValue: Node, endValue: Node, stepValue: Option<Node>)
      requires Valid() && res0.error.None? && res0.node.None?
      modifies this
      ensures Valid() && Continues(res0, res, old(tokIdx), tokIdx) && res.node.None?
      ensures res.error.None? ==> !IsKw(currentTok, "STEP") || stepValue.Some?
      decreases |tokens| - tokIdx, 70
    {
      res, stepValue := res0, None;
      var s := Expr();
      res := Registered(res, s);
      startValue := if s.node.Some? then s.node.value else ListNode([], currentTok.posStart, currentTok.posEnd);
      endValue := startValue;
      if res.error.Some? {
        return;
      }
      if !IsKw(currentTok, "TO") {
        res := Failed(res, ErrorAt(currentTok, Expected("TO")));
        return;
      }
      res := Step(res);

      var e := Expr();
      res := Registered(res, e);
      if res.error.Some? {
        return;
      }
      endValue := e.node.value;
      res, stepValue := OptionalStep(res);
    }

    /** `STEP value`, when STEP follows the end value. */
    method OptionalStep(res0: ParseResult<Node>) returns (res: ParseResult<Node>, stepValue: Option<Node>)
      requires Valid() && res0.error.None? && res0.node.None?
      modifies this
      ensures Valid() && Continues(res0, res, old(tokIdx), tokIdx) && res.node.None?
      ensures !IsKw(old(currentTok), "STEP") ==> tokIdx == old(tokIdx) && res == res0 && stepValue.None?
      ensures IsKw(old(currentTok), "STEP") && res.error.None? ==> stepValue.Some?
      decreases |tokens| - tokIdx, 0
    {
      res, stepValue := res0, None;
      if IsKw(currentTok, "STEP") {
        res := Step(res);
        var st := Expr();
        res := Registered(res, st);
        if res.error.Some? {
          return;
        }
        stepValue := st.node;
      }
    }

    /** THEN and the body of FOR and WHILE. Gives no body exactly when this part fails. */
    method ThenBody(res0: ParseResult<Node>) returns (res: ParseResult<Node>, body: Option<Node>, block: bool)
      requires Valid() && res0.error.None? && res0.node.None?
      modifies this
      ensures Valid() && Continues(res0, res, old(tokIdx), tokIdx) && res.node.None?
      ensures body.Some? <==> res.error.None?
      ensures !IsKw(old(currentTok), "THEN") ==>
        tokIdx == old(tokIdx) && res.error == Some(ErrorAt(old(currentTok), Expected("THEN")))
      ensures body.Some? ==>
        IsKw(old(currentTok), "THEN") && old(tokIdx) < tokIdx && old(tokIdx) + 1 < |tokens|
        && (block <==> tokens[old(tokIdx) + 1].kind == NEWLINE)
        && (block ==> body.value.ListNode? && IsKw(tokens[tokIdx - 1], "END"))
      decreases |tokens| - tokIdx, 0
    {
      res, body, block := res0, None, false;
      if !IsKw(currentTok, "THEN") {
        res := Failed(res, ErrorAt(currentTok, Expected("THEN")));
        return;
      }
      res := Step(res);
      res, body, block := Body(res);
    }

    /** The body after THEN or ELSE: a block of statements closed by END when a NEWLINE
        comes first, else one statement. Gives no body exactly when it fails. */
    method Body<T>(res0: ParseResult<T>) returns (res: ParseResult<T>, body: Option<Node>, block: bool)
      requires Valid() && res0.error.None? && res0.node.None?
      modifies this
      ensures Valid() && Continues(res0, res, old(tokIdx), tokIdx) && res.node.None?
      ensures body.Some? <==> res.error.None?
      ensures block <==> old(currentTok).kind == NEWLINE
      ensures block && body.Some? ==> body.value.ListNode? && old(tokIdx) < tokIdx && IsKw(tokens[tokIdx - 1], "END")
      decreases |tokens| - tokIdx, 66
    {
      res, body, block := res0, None, false;
      if currentTok.kind == NEWLINE {
        block := true;
        res := Step(res);
        var sub := Statements();
        res := Registered(res, sub);
        if res.error.Some? {
          return;
        }
        if !IsKw(currentTok, "END") {
          res := Failed(res, ErrorAt(currentTok, Expected("END")));
          return;
        }
        res := Step(res);
        body := sub.node;
        return;
      }
      var sub := Statement();
      res := Registered(res, sub);
      if res.error.Some? {
        return;
      }
      body := sub.node;
    }

    /** while_expr: `WHILE condition THEN body`. The node's flag is set exactly when a
        NEWLINE follows THEN. */
    method WhileExpr() returns (res: ParseResult<Node>, ghost thenIdx: int)
      requires Valid()
      modifies this
      ensures Valid() && Tracks(res, old(tokIdx), tokIdx)
      ensures !IsKw(old(currentTok), "WHILE") ==>
        tokIdx == old(tokIdx) && res.error == Some(ErrorAt(old(currentTok), Expected("WHILE")))
      ensures res.node.Some? ==>
        res.node.value.WhileNode? && old(tokIdx) < thenIdx < tokIdx && IsKw(tokens[thenIdx], "THEN")
        && (res.node.value.shouldReturnNull <==> tokens[thenIdx + 1].kind == NEWLINE)
      decreases |tokens| - tokIdx, 44
    {
      res, thenIdx := Fresh(), 0;

      if !IsKw(currentTok, "WHILE") {
        res := Failed(res, ErrorAt(currentTok, Expected("WHILE")));
        return;
      }
      res := Step(res);

      var c := Expr();
      res := Registered(res, c);
      if res.error.Some? {
        return;
      }
      thenIdx := tokIdx;
      var body, block;
      res, body, block := ThenBody(res);
      if body.None? {
        return;
      }
      res := Succeeded(res, MakeWhile(c.node.value, body.value, block));
    }

    /** func_def: FUN, an optional name, then `(`. Without a name, a token other than `(`
        is reported as wanting an identifier or `(`. */
    method FuncDef() returns (res: ParseResult<Node>)
      requires Valid()
      modifies this
      ensures Valid() && Tracks(res, old(tokIdx), tokIdx)
      ensures !IsKw(old(currentTok), "FUN") ==>
        tokIdx == old(tokIdx) && res.error == Some(ErrorAt(old(currentTok), Expected("FUN")))
      ensures IsKw(old(currentTok), "FUN") ==> old(tokIdx) + 1 < |tokens|
      ensures (IsKw(old(currentTok), "FUN") && tokens[old(tokIdx) + 1].kind != IDENTIFIER
               && tokens[old(tokIdx) + 1].kind != LPAREN) ==>
        tokIdx == old(tokIdx) + 1 && res.error == Some(ErrorAt(tokens[old(tokIdx) + 1], ExpectedIdentifierOrLParen))
      ensures res.node.Some? ==>
        res.node.value.FuncDefNode?
        && (res.node.value.funcNameTok.Some? <==> tokens[old(tokIdx) + 1].kind == IDENTIFIER)
        && (res.node.value.funcNameTok.Some? ==> res.node.value.funcNameTok.value == tokens[old(tokIdx) + 1])
        && forall k :: 0 <= k < |res.node.value.argNameToks| ==> res.node.value.argNameToks[k].kind == IDENTIFIER
      decreases |tokens| - tokIdx, 44
    {
      res := Fresh();

      if !IsKw(currentTok, "FUN") {
        res := Failed(res, ErrorAt(currentTok, Expected("FUN")));
        return;
      }
      res := Step(res);

      var varNameTok: Option<Token>;
      if currentTok.kind == IDENTIFIER {
        varNameTok := Some(currentTok);
        res := Step(res);
        if currentTok.kind != LPAREN {
          res := Failed(res, ErrorAt(currentTok, Expected("(")));
          return;
        }
      } else {
        varNameTok := None;
        if currentTok.kind != LPAREN {
          res := Failed(res, ErrorAt(currentTok, ExpectedIdentifierOrLParen));
          return;
        }
      }
      res := FuncParams(res, varNameTok);
    }

    /** The parameter list of a FUN from its `(`, and the body after the `)`. Every
        parameter is an identifier token. */
    method FuncParams(res0: ParseResult<Node>, varNameTok: Option<Token>) returns (res: ParseResult<Node>)
      requires Valid() && res0.error.None? && res0.node.None? && currentTok.kind == LPAREN
      modifies this
      ensures Valid() && Continues(res0, res, old(tokIdx), tokIdx)
      ensures res.error.None? <==> res.node.Some?
      ensures res.node.Some? ==>
        res.node.value.FuncDefNode? && res.node.value.funcNameTok == varNameTok
        && forall k :: 0 <= k < |res.node.value.argNameToks| ==> res.node.value.argNameToks[k].kind == IDENTIFIER
      decreases |tokens| - tokIdx, 0
    {
      res := Step(res0);
      var argNameToks;
      res, argNameToks := ParamNames(res);
      if res.error.Some? {
        return;
      }
      res := Step(res);
      res := FuncBody(res, varNameTok, argNameToks);
    }

    /** The names between `(` and `)`: none, or identifiers separated by COMMAs. It stops
        on the `)` without taking it. */
    method ParamNames(res0: ParseResult<Node>) returns (res: ParseResult<Node>, argNameToks: seq<Token>)
      requires Valid() && res0.error.None? && res0.node.None?
      modifies this
      ensures Valid() && Continues(res0, res, old(tokIdx), tokIdx) && res.node.None?
      ensures res.error.None? ==> currentTok.kind == RPAREN
      ensures forall k :: 0 <= k < |argNameToks| ==> argNameToks[k].kind == IDENTIFIER
      ensures old(currentTok).kind == RPAREN ==> tokIdx == old(tokIdx) && res == res0 && argNameToks == []
      ensures old(currentTok).kind != IDENTIFIER && old(currentTok).kind != RPAREN ==>
        tokIdx == old(tokIdx) && res.error == Some(ErrorAt(old(currentTok), ExpectedIdentifierOrRParen))
      decreases |tokens| - tokIdx, 0
    {
      res, argNameToks := res0, [];
      if currentTok.kind == IDENTIFIER {
        argNameToks := [currentTok];
        res := Step(res);
        var failed;
        res, argNameToks, failed := ParamLoop(res, argNameToks);
        if failed {
          return;
        }
        if currentTok.kind != RPAREN {
          res := Failed(res, ErrorAt(currentTok, ExpectedCommaOrRParen));
        }
      } else if currentTok.kind != RPAREN {
        res := Failed(res, ErrorAt(currentTok, ExpectedIdentifierOrRParen));
      }
    }

    /** While a COMMA follows, advance and take one more parameter name. */
    method ParamLoop(res0: ParseResult<Node>, toks0: seq<Token>) returns (res: ParseResult<Node>, toks: seq<Token>, failed: bool)
      requires Valid() && res0.error.None? && res0.node.None?
      modifies this
      ensures Valid() && Continues(res0, res, old(tokIdx), tokIdx) && res.node.None?
      ensures failed <==> res.error.Some?
      ensures failed ==> res.error == Some(ErrorAt(currentTok, ExpectedIdentifier))
      ensures !failed ==> currentTok.kind != COMMA
      ensures |toks| >= |toks0| && toks[..|toks0|] == toks0
      ensures forall k :: |toks0| <= k < |toks| ==> toks[k].kind == IDENTIFIER
    {
      ghost var i0 := tokIdx;
      res, toks, failed := res0, toks0, false;
      while currentTok.kind == COMMA
        invariant Valid() && res.error.None? && res.node.None? && Continues(res0, res, i0, tokIdx)
        invariant |toks| >= |toks0| && toks[..|toks0|] == toks0
        invariant forall k :: |toks0| <= k < |toks| ==> toks[k].kind == IDENTIFIER
        decreases |tokens| - tokIdx
      {
        res := Step(res);
        if currentTok.kind != IDENTIFIER {
          res := Failed(res, ErrorAt(currentTok, ExpectedIdentifier));
          return res, toks, true;
        }
        toks := toks + [currentTok];
        res := Step(res);
      }
    }

    /** The body of a FUN after its `)`: `->` and an expression give an auto-returning
        function, NEWLINE, statements and END a block function. */
    method FuncBody(res0: ParseResult<Node>, varNameTok: Option<Token>, argNameToks: seq<Token>)
      returns (res: ParseResult<Node>)
      requires Valid() && res0.error.None? && res0.node.None?
      modifies this
      ensures Valid() && Continues(res0, res, old(tokIdx), tokIdx)
      ensures res.error.None? <==> res.node.Some?
      ensures old(currentTok).kind != ARROW && old(currentTok).kind != NEWLINE ==>
        tokIdx == old(tokIdx) && res.error == Some(ErrorAt(old(currentTok), ExpectedArrowOrNewline))
      ensures res.node.Some? ==>
        res.node.value.FuncDefNode? && res.node.value.funcNameTok == varNameTok
        && res.node.value.argNameToks == argNameToks
        && (res.node.value.shouldAutoReturn <==> old(currentTok).kind == ARROW)
        && (!res.node.value.shouldAutoReturn ==> 0 < tokIdx && IsKw(tokens[tokIdx - 1], "END"))
      decreases |tokens| - tokIdx, 68
    {
      res := res0;
      if currentTok.kind == ARROW {
        res := Step(res);
        var sub := Expr();
        res := Registered(res, sub);
        if res.error.Some? {
          return;
        }
        res := Succeeded(res, MakeFuncDef(varNameTok, argNameToks, sub.node.value, true));
        return;
      }

      if currentTok.kind != NEWLINE {
        res := Failed(res, ErrorAt(currentTok, ExpectedArrowOrNewline));
        return;
      }
      var body, block;
      res, body, block := Body(res);
      if body.None? {
        return;
      }
      res := Succeeded(res, MakeFuncDef(varNameTok, argNameToks, body.value, false));
    }

    /** embed_expr: `EMBED text [WITH model]`; the model, when given, is an identifier
        read as a variable. */
    method EmbedExpr() returns (res: ParseResult<Node>)
      requires Valid()
      modifies this
      ensures Valid() && Tracks(res, old(tokIdx), tokIdx)
      ensures !IsKw(old(currentTok), "EMBED") ==>
        tokIdx == old(tokIdx) && res.error == Some(ErrorAt(old(currentTok), Expected("EMBED")))
      ensures res.node.Some? ==>
        res.node.value.EmbedNode?
        && (res.node.value.modelNode.Some? ==>
              old(tokIdx) + 3 <= tokIdx && res.node.value.modelNode.value == MakeVarAccess(tokens[tokIdx - 1])
              && tokens[tokIdx - 1].kind == IDENTIFIER && IsKw(tokens[tokIdx - 2], "WITH"))
      decreases |tokens| - tokIdx, 44
    {
      res := Fresh();

      if !IsKw(currentTok, "EMBED") {
        res := Failed(res, ErrorAt(currentTok, Expected("EMBED")));
        return;
      }
      res := Step(res);

      var t := Expr();
      res := Registered(res, t);
      if res.error.Some? {
        return;
      }
      var modelNode;
      res, modelNode := EmbedModel(res);
      if res.error.Some? {
        return;
      }
      res := Succeeded(res, MakeEmbed(t.node.value, modelNode));
    }

    /** The optional `WITH model` of EMBED. */
    method EmbedModel(res0: ParseResult<Node>) returns (res: ParseResult<Node>, modelNode: Option<Node>)
      requires Valid() && res0.error.None? && res0.node.None?
      modifies this
      ensures Valid() && Continues(res0, res, old(tokIdx), tokIdx) && res.node.None?
      ensures !IsKw(old(currentTok), "WITH") ==> tokIdx == old(tokIdx) && res == res0 && modelNode.None?
      ensures IsKw(old(currentTok), "WITH") && tokens[old(tokIdx) + 1].kind != IDENTIFIER ==>
        tokIdx == old(tokIdx) + 1 && res.error == Some(ErrorAt(tokens[old(tokIdx) + 1], ExpectedModelIdentifier))
      ensures modelNode.Some? ==>
        res.error.None? && tokIdx == old(tokIdx) + 2 && IsKw(old(currentTok), "WITH")
        && tokens[old(tokIdx) + 1].kind == IDENTIFIER && modelNode.value == MakeVarAccess(tokens[old(tokIdx) + 1])
      decreases |tokens| - tokIdx, 0
    {
      res, modelNode := res0, None;
      if IsKw(currentTok, "WITH") {
        res := Step(res);
        if currentTok.kind != IDENTIFIER {
          res := Failed(res, ErrorAt(currentTok, ExpectedModelIdentifier));
          return;
        }
        modelNode := Some(MakeVarAccess(currentTok));
        res := Step(res);
      }
    }

    /** ai_expr: `AI model(args)`; the model is an identifier token and the call closes
        with `)`. */
    method AiExpr() returns (res: ParseResult<Node>)
      requires Valid()
      modifies this
      ensures Valid() && Tracks(res, old(tokIdx), tokIdx)
      ensures !IsKw(old(currentTok), "AI") ==>
        tokIdx == old(tokIdx) && res.error == Some(ErrorAt(old(currentTok), Expected("AI")))
      ensures IsKw(old(currentTok), "AI") ==>
        old(tokIdx) + 1 < |tokens|
        && (tokens[old(tokIdx) + 1].kind != IDENTIFIER ==>
              tokIdx == old(tokIdx) + 1 && res.error == Some(ErrorAt(tokens[old(tokIdx) + 1], ExpectedModelIdentifier)))
      ensures res.node.Some? ==>
        res.node.value.AICallNode? && res.node.value.modelName == tokens[old(tokIdx) + 1]
        && 0 < tokIdx && tokens[tokIdx - 1].kind == RPAREN
      decreases |tokens| - tokIdx, 44
    {
      res := Fresh();

      if !IsKw(currentTok, "AI") {
        res := Failed(res, ErrorAt(currentTok, Expected("AI")));
        return;
      }
      res := Step(res);

      if currentTok.kind != IDENTIFIER {
        res := Failed(res, ErrorAt(currentTok, ExpectedModelIdentifier));
        return;
      }
      var modelName := currentTok;
      res := Step(res);
      res := AiArgs(res, modelName);
    }

    /** The bracketed argument list of an AI call, after the model name. */
    method AiArgs(res0: ParseResult<Node>, modelName: Token) returns (res: ParseResult<Node>)
      requires Valid() && res0.error.None? && res0.node.None?
      modifies this
      ensures Valid() && Continues(res0, res, old(tokIdx), tokIdx)
      ensures res.error.None? <==> res.node.Some?
      ensures old(currentTok).kind != LPAREN ==>
        tokIdx == old(tokIdx) && res.error == Some(ErrorAt(old(currentTok), Expected("(")))
      ensures res.node.Some? ==>
        res.node.value.AICallNode? && res.node.value.modelName == modelName
        && old(tokIdx) < tokIdx && tokens[tokIdx - 1].kind == RPAREN
      decreases |tokens| - tokIdx, 0
    {
      res := res0;
      if currentTok.kind != LPAREN {
        res := Failed(res, ErrorAt(currentTok, Expected("(")));
        return;
      }
      res := Step(res);

      var argNodes;
      res, argNodes := Items(res, RPAREN, None, ExpectedCommaOrRParen);
      if res.error.Some? {
        return;
      }
      res := Succeeded(res, MakeAICall(modelName, argNodes));
    }

  }
}
