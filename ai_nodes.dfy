/** The extension nodes: EMBED, AI calls and PIPE, with their spans and printed forms. */
module AiNodes {

  import opened Utils
  import opened Constants
  import opened Lexer
  import opened Nodes

  /** `EMBED text [WITH model]`: starts with the text and ends with the model when one is
      given, else with the text. */
  function MakeEmbed(text: Node, model: Option<Node>): (n: Node)
    ensures n.EmbedNode? && n.textNode == text && n.modelNode == model
    ensures n.posStart == text.posStart
    ensures model.Some? ==> n.posEnd == model.value.posEnd
    ensures model.None? ==> n.posEnd == text.posEnd
  {
    EmbedNode(text, model, text.posStart, if model.Some? then model.value.posEnd else text.posEnd)
  }

  /** `AI name(args)`: starts at the model-name token and ends with the last argument, or
      with the name token when there are no arguments. */
  function MakeAICall(name: Token, args: seq<Node>): (n: Node)
    ensures n.AICallNode? && n.modelName == name && n.args == args
    ensures n.posStart == name.posStart
    ensures |args| > 0 ==> n.posEnd == args[|args| - 1].posEnd
    ensures |args| == 0 ==> n.posEnd == name.posEnd
  {
    AICallNode(name, args, name.posStart, if |args| > 0 then args[|args| - 1].posEnd else name.posEnd)
  }

  /** `left PIPE right`: spans from the left node's start to the right node's end. */
  function MakePipe(left: Node, right: Node): (n: Node)
    ensures n.PipeNode? && n.leftNode == left && n.rightNode == right
    ensures n.posStart == left.posStart && n.posEnd == right.posEnd
  {
    PipeNode(left, right, left.posStart, right.posEnd)
  }

  /** The tree `first PIPE r1 PIPE r2 …` nests to the left: each stage wraps the whole
      chain before it. */
  function PipeChain(first: Node, stages: seq<Node>): Node
    decreases |stages|
  {
    if |stages| == 0 then first
    else MakePipe(PipeChain(first, stages[..|stages| - 1]), stages[|stages| - 1])
  }

  /** A pipe chain covers the text from its first operand to its last stage, and its
      leftmost leaf is the first operand. */
  lemma {:induction false} PipeChainSpan(first: Node, stages: seq<Node>)
    ensures PipeChain(first, stages).posStart == first.posStart
    ensures |stages| > 0 ==> PipeChain(first, stages).posEnd == stages[|stages| - 1].posEnd
    ensures |stages| == 0 ==> PipeChain(first, stages).posEnd == first.posEnd
    ensures LeftmostLeaf(PipeChain(first, stages)) == LeftmostLeaf(first)
    decreases |stages|
  {
    if |stages| > 0 {
      PipeChainSpan(first, stages[..|stages| - 1]);
    }
  }

  /** The operand a left-nested pipe chain starts from. */
  function LeftmostLeaf(n: Node): Node {
    if n.PipeNode? then LeftmostLeaf(n.leftNode) else n
  }

  /** The count of stages of a chain is its pipe depth along the left spine. */
  function PipeDepth(n: Node): nat {
    if n.PipeNode? then PipeDepth(n.leftNode) + 1 else 0
  }

  lemma {:induction false} PipeChainDepth(first: Node, stages: seq<Node>)
    requires !first.PipeNode?
    ensures PipeDepth(PipeChain(first, stages)) == |stages|
    decreases |stages|
  {
    if |stages| > 0 {
      PipeChainDepth(first, stages[..|stages| - 1]);
    }
  }

  // Printed forms. The printed form of a core node comes from a module that is not part
  // of this model, so it is a parameter `show`.

  /** A token's value is truthy when it is a non-empty text or a non-zero number. */
  predicate Truthy(v: TokenValue) {
    match v
    case NoValue => false
    case Text(s) => s != ""
    case IntValue(i) => i != 0
    case FloatValue(x) => x != 0.0
  }

  /** A token prints as its tag, followed by `:` and its value when the value is truthy.
      Python's float formatting is not part of this model, so a float's text is the
      parameter `floatText`. */
  function TokenRepr(t: Token, floatText: real -> string): (r: string)
    ensures |r| >= |Tag(t.kind)| && r[..|Tag(t.kind)|] == Tag(t.kind)
    ensures !Truthy(t.value) <==> r == Tag(t.kind)
    ensures t.value.Text? && t.value.s != "" ==> r == Tag(t.kind) + ":" + t.value.s
    ensures t.value.IntValue? && t.value.i != 0 ==> r == Tag(t.kind) + ":" + IntToString(t.value.i)
    ensures t.value.FloatValue? && t.value.r != 0.0 ==> r == Tag(t.kind) + ":" + floatText(t.value.r)
  {
    match t.value
    case NoValue => Tag(t.kind)
    case Text(s) => if s == "" then Tag(t.kind) else Tag(t.kind) + ":" + s
    case IntValue(i) => if i == 0 then Tag(t.kind) else Tag(t.kind) + ":" + IntToString(i)
    case FloatValue(x) => if x == 0.0 then Tag(t.kind) else Tag(t.kind) + ":" + floatText(x)
  }

  /** Decimal text of an int, with a leading `-` when it is negative. */
  function IntToString(i: int): (s: string)
    ensures |s| > 0
    ensures i >= 0 ==> s == NatToString(i)
    ensures i < 0 ==> s == "-" + NatToString(-i)
  {
    if i < 0 then "-" + NatToString(-i) else NatToString(i)
  }

  /** The value a positive INT token prints reads back, as the lexer reads digits, to the
      token's value. */
  lemma TokenReprReadsBack(t: Token, floatText: real -> string)
    requires t.value.IntValue? && t.value.i > 0
    ensures var r := TokenRepr(t, floatText);
      |r| > |Tag(t.kind)| + 1 && r[|Tag(t.kind)|] == ':'
      && AllDigits(r[|Tag(t.kind)| + 1..]) && DigitsValue(r[|Tag(t.kind)| + 1..]) == t.value.i
  {
    var r := TokenRepr(t, floatText);
    assert r[|Tag(t.kind)| + 1..] == NatToString(t.value.i);
    NatToStringRoundTrip(t.value.i);
  }

  /** `(EMBED text)`, or `(EMBED text WITH model)` when there is a model. */
  function EmbedRepr(n: Node, show: Node -> string): (r: string)
    requires n.EmbedNode?
    ensures var head := "(EMBED " + show(n.textNode);
      |r| > |head| && r[..|head|] == head && r[|r| - 1] == ')'
    ensures n.modelNode.None? ==> r == "(EMBED " + show(n.textNode) + ")"
    ensures n.modelNode.Some? ==> r == "(EMBED " + show(n.textNode) + " WITH " + show(n.modelNode.value) + ")"
  {
    if n.modelNode.Some? then "(EMBED " + show(n.textNode) + " WITH " + show(n.modelNode.value) + ")"
    else "(EMBED " + show(n.textNode) + ")"
  }

  /** The two EMBED forms never print alike: for one text, the form with a model is longer
      by the model's printed form and the six characters of " WITH ". */
  lemma EmbedReprForms(text: Node, model: Node, show: Node -> string)
    ensures |EmbedRepr(MakeEmbed(text, Some(model)), show)|
         == |EmbedRepr(MakeEmbed(text, None), show)| + 6 + |show(model)|
    ensures EmbedRepr(MakeEmbed(text, Some(model)), show) != EmbedRepr(MakeEmbed(text, None), show)
  {
  }

  /** `(AI <model token> [<args>])`: the arguments print as Python prints a list, bracketed
      and comma-separated. */
  function AICallRepr(n: Node, show: Node -> string, floatText: real -> string): (r: string)
    requires n.AICallNode?
    ensures var head := "(AI " + TokenRepr(n.modelName, floatText) + " [";
      |r| >= |head| + 2 && r[..|head|] == head && r[|r| - 2..] == "])"
      && r[|head|..|r| - 2] == Join(ShowAll(n.args, show), ", ")
    ensures |n.args| == 0 ==> r == "(AI " + TokenRepr(n.modelName, floatText) + " [])"
  {
    var head := "(AI " + TokenRepr(n.modelName, floatText) + " [";
    var j := Join(ShowAll(n.args, show), ", ");
    var r := head + j + "])";
    assert r[..|head|] == head && r[|head|..|r| - 2] == j;
    r
  }

  function ShowAll(ns: seq<Node>, show: Node -> string): (r: seq<string>)
    ensures |r| == |ns| && forall i :: 0 <= i < |ns| ==> r[i] == show(ns[i])
  {
    if |ns| == 0 then [] else ShowAll(ns[..|ns| - 1], show) + [show(ns[|ns| - 1])]
  }

  /** `(left PIPE right)`. */
  function PipeRepr(n: Node, show: Node -> string): (r: string)
    requires n.PipeNode?
    ensures |r| == |show(n.leftNode)| + |show(n.rightNode)| + 8
    ensures r[..|show(n.leftNode)| + 1] == "(" + show(n.leftNode)
    ensures r[|show(n.leftNode)| + 1..|show(n.leftNode)| + 7] == " PIPE "
    ensures r[|show(n.leftNode)| + 7..|r| - 1] == show(n.rightNode) && r[|r| - 1] == ')'
  {
    var l, rt := show(n.leftNode), show(n.rightNode);
    var r := "(" + l + " PIPE " + rt + ")";
    assert r[..|l| + 1] == "(" + l;
    assert r[|l| + 1..|l| + 7] == " PIPE ";
    assert r[|l| + 7..|r| - 1] == rt;
    r
  }
}
