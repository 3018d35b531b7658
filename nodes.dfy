/** The syntax tree built by the parser and walked by the interpreter.

    Every node records the span it covers. The span rules of the core node kinds are
    the ones the parser's constructor calls and the interpreter's field reads imply
    (a binary operation runs from its left operand to its right one, and so on); the
    extension nodes (EMBED, AI, PIPE) get theirs from the constructors in AiNodes. */
module Nodes {

  import opened Utils
  import opened Lexer

  /** One `IF`/`ELIF` case: condition, body, and whether the body is a block (the case
      then yields null). */
  datatype Case = Case(condition: Node, body: Node, returnsNull: bool)

  /** The `ELSE` branch: body and whether it is a block. */
  datatype ElseCase = ElseCase(body: Node, returnsNull: bool)

  datatype Node =
    | NumberNode(tok: Token, posStart: Position, posEnd: Position)
    | StringNode(tok: Token, posStart: Position, posEnd: Position)
    | ListNode(elementNodes: seq<Node>, posStart: Position, posEnd: Position)
    | VarAccessNode(varNameTok: Token, posStart: Position, posEnd: Position)
    | VarAssignNode(varNameTok: Token, valueNode: Node, posStart: Position, posEnd: Position)
    | BinOpNode(leftNode: Node, opTok: Token, rightNode: Node, posStart: Position, posEnd: Position)
    | UnaryOpNode(opTok: Token, operand: Node, posStart: Position, posEnd: Position)
    | IfNode(cases: seq<Case>, elseCase: Option<ElseCase>, posStart: Position, posEnd: Position)
    | ForNode(varNameTok: Token, startValueNode: Node, endValueNode: Node, stepValueNode: Option<Node>,
              bodyNode: Node, shouldReturnNull: bool, posStart: Position, posEnd: Position)
    | WhileNode(conditionNode: Node, bodyNode: Node, shouldReturnNull: bool, posStart: Position, posEnd: Position)
    | FuncDefNode(funcNameTok: Option<Token>, argNameToks: seq<Token>, bodyNode: Node, shouldAutoReturn: bool,
                  posStart: Position, posEnd: Position)
    | CallNode(nodeToCall: Node, argNodes: seq<Node>, posStart: Position, posEnd: Position)
    | ReturnNode(nodeToReturn: Option<Node>, posStart: Position, posEnd: Position)
    | ContinueNode(posStart: Position, posEnd: Position)
    | BreakNode(posStart: Position, posEnd: Position)
    | EmbedNode(textNode: Node, modelNode: Option<Node>, posStart: Position, posEnd: Position)
    | AICallNode(modelName: Token, args: seq<Node>, posStart: Position, posEnd: Position)
    | PipeNode(leftNode: Node, rightNode: Node, posStart: Position, posEnd: Position)

  // Constructors of the core node kinds, each deriving the node's span.

  function MakeNumber(tok: Token): (n: Node)
    ensures n.NumberNode? && n.tok == tok && n.posStart == tok.posStart && n.posEnd == tok.posEnd
  {
    NumberNode(tok, tok.posStart, tok.posEnd)
  }

  function MakeString(tok: Token): (n: Node)
    ensures n.StringNode? && n.tok == tok && n.posStart == tok.posStart && n.posEnd == tok.posEnd
  {
    StringNode(tok, tok.posStart, tok.posEnd)
  }

  function MakeVarAccess(tok: Token): (n: Node)
    ensures n.VarAccessNode? && n.varNameTok == tok && n.posStart == tok.posStart && n.posEnd == tok.posEnd
  {
    VarAccessNode(tok, tok.posStart, tok.posEnd)
  }

  function MakeVarAssign(tok: Token, value: Node): (n: Node)
    ensures n.VarAssignNode? && n.varNameTok == tok && n.valueNode == value
    ensures n.posStart == tok.posStart && n.posEnd == value.posEnd
  {
    VarAssignNode(tok, value, tok.posStart, value.posEnd)
  }

  function MakeBinOp(left: Node, op: Token, right: Node): (n: Node)
    ensures n.BinOpNode? && n.leftNode == left && n.opTok == op && n.rightNode == right
    ensures n.posStart == left.posStart && n.posEnd == right.posEnd
  {
    BinOpNode(left, op, right, left.posStart, right.posEnd)
  }

  function MakeUnaryOp(op: Token, operand: Node): (n: Node)
    ensures n.UnaryOpNode? && n.opTok == op && n.operand == operand
    ensures n.posStart == op.posStart && n.posEnd == operand.posEnd
  {
    UnaryOpNode(op, operand, op.posStart, operand.posEnd)
  }

  /** An IF node starts at its first condition and ends at the else body, or, without an
      else, at the last case's condition. */
  function MakeIf(cases: seq<Case>, elseCase: Option<ElseCase>): (n: Node)
    requires |cases| > 0
    ensures n.IfNode? && n.cases == cases && n.elseCase == elseCase
    ensures n.posStart == cases[0].condition.posStart
    ensures elseCase.Some? ==> n.posEnd == elseCase.value.body.posEnd
    ensures elseCase.None? ==> n.posEnd == cases[|cases| - 1].condition.posEnd
  {
    IfNode(cases, elseCase, cases[0].condition.posStart,
      if elseCase.Some? then elseCase.value.body.posEnd else cases[|cases| - 1].condition.posEnd)
  }

  function MakeFor(varName: Token, start: Node, end: Node, step: Option<Node>, body: Node, returnsNull: bool): (n: Node)
    ensures n.ForNode? && n.varNameTok == varName && n.startValueNode == start && n.endValueNode == end
    ensures n.stepValueNode == step && n.bodyNode == body && n.shouldReturnNull == returnsNull
    ensures n.posStart == varName.posStart && n.posEnd == body.posEnd
  {
    ForNode(varName, start, end, step, body, returnsNull, varName.posStart, body.posEnd)
  }

  function MakeWhile(condition: Node, body: Node, returnsNull: bool): (n: Node)
    ensures n.WhileNode? && n.conditionNode == condition && n.bodyNode == body && n.shouldReturnNull == returnsNull
    ensures n.posStart == condition.posStart && n.posEnd == body.posEnd
  {
    WhileNode(condition, body, returnsNull, condition.posStart, body.posEnd)
  }

  /** A function definition starts at its name, else at its first parameter, else at its
      body, and ends with its body. */
  function MakeFuncDef(name: Option<Token>, args: seq<Token>, body: Node, autoReturn: bool): (n: Node)
    ensures n.FuncDefNode? && n.funcNameTok == name && n.argNameToks == args && n.bodyNode == body
    ensures n.shouldAutoReturn == autoReturn && n.posEnd == body.posEnd
    ensures name.Some? ==> n.posStart == name.value.posStart
    ensures name.None? && |args| > 0 ==> n.posStart == args[0].posStart
    ensures name.None? && |args| == 0 ==> n.posStart == body.posStart
  {
    FuncDefNode(name, args, body, autoReturn,
      if name.Some? then name.value.posStart else if |args| > 0 then args[0].posStart else body.posStart,
      body.posEnd)
  }

  /** A call starts at the callee and ends at its last argument, or at the callee. */
  function MakeCall(callee: Node, args: seq<Node>): (n: Node)
    ensures n.CallNode? && n.nodeToCall == callee && n.argNodes == args && n.posStart == callee.posStart
    ensures |args| > 0 ==> n.posEnd == args[|args| - 1].posEnd
    ensures |args| == 0 ==> n.posEnd == callee.posEnd
  {
    CallNode(callee, args, callee.posStart, if |args| > 0 then args[|args| - 1].posEnd else callee.posEnd)
  }
}
