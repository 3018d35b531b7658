/** The evaluator: one rule per node kind, each returning the control-flow carrier of
    its result together with the store it leaves.

    Evaluation is bounded by fuel: every rule application and every loop iteration
    spends one unit, and an evaluation that runs out stops with `OutOfFuel` (a `WHILE`
    whose condition stays true, a `FOR` with `STEP 0`, unbounded recursion). Python
    exceptions that the engine does not catch stop it with `Crash`. The EMBED and AI
    back ends are parameters. */
module Interpreter {

  import opened Utils
  import opened Constants
  import opened Lexer
  import opened Nodes
  import opened Runtime
  import opened Values
  import opened BaseFun

  type Res = Carrier<Value, RTError>

  /** Why an evaluation stopped without a carrier. */
  datatype Halt =
    | Crash(exception: string)
    | OutsideModel(why: string)
    | OutOfFuel

  datatype Outcome = Done(res: Res, store: Store) | Halted(halt: Halt)

  /** What `x.value` gives for the values that have one (numbers and strings). */
  datatype Raw = RawNumber(n: Num) | RawText(s: string)

  /** A model's answer: a string, a number, or a list of numbers and strings. */
  datatype Answer = AnswerText(s: string) | AnswerNumber(n: Num) | AnswerList(items: seq<Raw>)

  /** The embedding and AI back ends: each answers or fails with a message. */
  datatype Capabilities = Capabilities(
    embed: (string, Raw) -> Result<seq<real>, string>,
    callModel: (string, seq<Raw>) -> Result<Answer, string>)

  /** Exactly one of the five carrier fields is set: the shape every rule returns. */
  predicate Settled(c: Res) {
    c.SignalCount() + (if c.value.Some? then 1 else 0) == 1
  }

  /** A value the outcome yields carries the span `ps`..`pe`. */
  predicate SpanIs(o: Outcome, ps: Position, pe: Position) {
    o.Done? && o.res.value.Some? ==> o.res.value.value.posStart == Some(ps) && o.res.value.value.posEnd == Some(pe)
  }

  /** What a loop expression yields: null for a block body, else a List with the loop's
      span in the current context. */
  predicate LoopShaped(o: Outcome, returnsNull: bool, ps: Position, pe: Position, ctx: Context) {
    o.Done? && o.res.value.Some? ==>
      (returnsNull ==> o.res.value.value == Null) &&
      (!returnsNull ==>
         o.res.value.value.kind.ListV? && o.res.value.value.posStart == Some(ps)
         && o.res.value.value.posEnd == Some(pe) && o.res.value.value.context == Some(ctx))
  }

  /** `res.register(sub)` on a fresh carrier, followed by `return res`. */
  function Pass(c: Res): (r: Res)
    requires Settled(c) && c.ShouldReturn()
    ensures Settled(r) && r == c
  {
    Empty<Value, RTError>().Registered(c)
  }

  /** The name a token carries. */
  function TextOf(t: Token): string {
    if t.value.Text? then t.value.s else ""
  }

  function Names(toks: seq<Token>): (r: seq<string>)
    ensures |r| == |toks| && forall i :: 0 <= i < |toks| ==> r[i] == TextOf(toks[i])
  {
    if |toks| == 0 then [] else Names(toks[..|toks| - 1]) + [TextOf(toks[|toks| - 1])]
  }

  /** `set_pos` with a node's span. */
  function Stamp(v: Value, ps: Position, pe: Position): Value {
    v.(posStart := Some(ps), posEnd := Some(pe))
  }

  /** The operator a BinOp token selects. */
  function OperatorOf(t: Token): Option<BinaryOperator> {
    match t.kind
    case PLUS => Some(Add)
    case MINUS => Some(Sub)
    case MUL => Some(Mul)
    case DIV => Some(Div)
    case POW => Some(Pow)
    case EE => Some(Eq)
    case NE => Some(Ne)
    case LT => Some(Lt)
    case GT => Some(Gt)
    case LTE => Some(Lte)
    case GTE => Some(Gte)
    case KEYWORD =>
      if t.value == Text("AND") then Some(And) else if t.value == Text("OR") then Some(Or) else None
    case _ => None
  }

  /** The outcome of an operator method, stamped with the node's span on success. */
  function Finish(r: Op, st: Store, ps: Position, pe: Position): (o: Outcome)
    ensures o.Done? ==> Settled(o.res) && o.store == st
    ensures r.Produced? ==> o == Done(Succeeded(Stamp(r.value, ps, pe)), st)
    ensures r.Raised? ==> o == Done(Failed(r.error), st)
  {
    match r
    case Produced(v) => Done(Succeeded(Stamp(v, ps, pe)), st)
    case Raised(e) => Done(Failed(e), st)
    case Crashed(x) => Halted(Crash(x))
    case Outside(w) => Halted(OutsideModel(w))
  }

  /** What `x.value` reads; a List or function value has no such attribute. */
  function RawOf(v: Value): Option<Raw> {
    match v.kind
    case NumberV(n) => Some(RawNumber(n))
    case StringV(s) => Some(RawText(s))
    case _ => None
  }

  function RawValue(x: Raw): Value {
    match x
    case RawNumber(n) => NumberValue(n, None)
    case RawText(s) => StringValue(s, None)
  }

  function RawValues(xs: seq<Raw>): (r: seq<Value>)
    ensures |r| == |xs| && forall i :: 0 <= i < |xs| ==> r[i] == RawValue(xs[i])
  {
    if |xs| == 0 then [] else RawValues(xs[..|xs| - 1]) + [RawValue(xs[|xs| - 1])]
  }

  function FloatValues(xs: seq<real>): (r: seq<Value>)
    ensures |r| == |xs| && forall i :: 0 <= i < |xs| ==> r[i] == NumberValue(Float(xs[i]), None)
  {
    if |xs| == 0 then [] else FloatValues(xs[..|xs| - 1]) + [NumberValue(Float(xs[|xs| - 1]), None)]
  }

  /** The values of several nodes evaluated in order, or what stopped them. */
  datatype Many = All(values: seq<Value>, store: Store) | Cut(out: Outcome)

  predicate CutSignals(m: Many) {
    m.Cut? && m.out.Done? ==> Settled(m.out.res) && m.out.res.ShouldReturn()
  }

  // ----- The rules -----

  /** visit: dispatch on the node kind. */
  function Eval(n: Node, ctx: Context, st: Store, caps: Capabilities, fuel: nat): (o: Outcome)
    ensures o.Done? ==> Settled(o.res)
    decreases fuel, 0
  {
    if fuel == 0 then Halted(OutOfFuel)
    else
      var f := fuel - 1;
      match n
      case NumberNode(_, _, _) => EvalNumber(n, ctx, st)
      case StringNode(_, _, _) => EvalString(n, ctx, st)
      case ListNode(_, _, _) => EvalList(n, ctx, st, caps, f)
      case VarAccessNode(_, _, _) => EvalVarAccess(n, ctx, st)
      case VarAssignNode(_, _, _, _) => EvalVarAssign(n, ctx, st, caps, f)
      case BinOpNode(_, _, _, _, _) => EvalBinOp(n, ctx, st, caps, f)
      case UnaryOpNode(_, _, _, _) => EvalUnaryOp(n, ctx, st, caps, f)
      case IfNode(cases, elseCase, _, _) => EvalCases(cases, elseCase, ctx, st, caps, f)
      case ForNode(_, _, _, _, _, _, _, _) => EvalFor(n, ctx, st, caps, f)
      case WhileNode(_, _, _, _, _) => EvalWhile(n, ctx, st, caps, f)
      case FuncDefNode(_, _, _, _, _, _) => EvalFuncDef(n, ctx, st)
      case CallNode(_, _, _, _) => EvalCall(n, ctx, st, caps, f)
      case ReturnNode(_, _, _) => EvalReturn(n, ctx, st, caps, f)
      case ContinueNode(_, _) => Done(Continued(), st)
      case BreakNode(_, _) => Done(Broken(), st)
      case EmbedNode(_, _, _, _) => EvalEmbed(n, ctx, st, caps, f)
      case AICallNode(_, _, _, _) => EvalAICall(n, ctx, st, caps, f)
      case PipeNode(_, _, _, _) => EvalPipe(n, ctx, st, caps, f)
  }

  /** A number literal: a Number over the token's int or float, with the node's span
      and the current context. */
  function EvalNumber(n: Node, ctx: Context, st: Store): (o: Outcome)
    requires n.NumberNode?
    ensures o.Done? <==> n.tok.value.IntValue? || n.tok.value.FloatValue?
    ensures o.Done? ==> o.store == st && Settled(o.res) && o.res.value.Some?
    ensures n.tok.value.IntValue? ==> o.res.value.value == Value(NumberV(Int(n.tok.value.i)), Some(n.posStart), Some(n.posEnd), Some(ctx))
    ensures n.tok.value.FloatValue? ==> o.res.value.value == Value(NumberV(Float(n.tok.value.r)), Some(n.posStart), Some(n.posEnd), Some(ctx))
  {
    var tok := n.tok;
    if tok.value.IntValue? then Done(Succeeded(Value(NumberV(Int(tok.value.i)), Some(n.posStart), Some(n.posEnd), Some(ctx))), st)
    else if tok.value.FloatValue? then Done(Succeeded(Value(NumberV(Float(tok.value.r)), Some(n.posStart), Some(n.posEnd), Some(ctx))), st)
    else Halted(OutsideModel("a number node without a numeric token"))
  }

  /** A string literal: a String over the token's text. */
  function EvalString(n: Node, ctx: Context, st: Store): (o: Outcome)
    requires n.StringNode?
    ensures o.Done? <==> n.tok.value.Text?
    ensures o.Done? ==> o.store == st && Settled(o.res)
    ensures o.Done? ==> o.res.value == Some(Value(StringV(n.tok.value.s), Some(n.posStart), Some(n.posEnd), Some(ctx)))
  {
    if n.tok.value.Text? then Done(Succeeded(Value(StringV(n.tok.value.s), Some(n.posStart), Some(n.posEnd), Some(ctx))), st)
    else Halted(OutsideModel("a string node without a text token"))
  }

  /** Evaluates nodes left to right, stopping at the first signal. */
  function EvalAll(ns: seq<Node>, ctx: Context, st: Store, caps: Capabilities, fuel: nat): (m: Many)
    ensures CutSignals(m)
    ensures m.All? ==> |m.values| == |ns|
    decreases fuel, 1, |ns|
  {
    if |ns| == 0 then All([], st)
    else
      match Eval(ns[0], ctx, st, caps, fuel)
      case Halted(h) => Cut(Halted(h))
      case Done(c, st1) =>
        if c.ShouldReturn() then Cut(Done(Pass(c), st1))
        else
          match EvalAll(ns[1..], ctx, st1, caps, fuel)
          case All(vs, st2) => All([c.value.value] + vs, st2)
          case Cut(o) => Cut(o)
  }

  /** A list literal: the elements in order, then a new List with the node's span. */
  function EvalList(n: Node, ctx: Context, st: Store, caps: Capabilities, fuel: nat): (o: Outcome)
    requires n.ListNode?
    ensures o.Done? ==> Settled(o.res)
    ensures SpanIs(o, n.posStart, n.posEnd)
    ensures o.Done? && o.res.value.Some? ==> o.res.value.value.kind.ListV? && o.res.value.value.context == Some(ctx)
    decreases fuel, 2
  {
    match EvalAll(n.elementNodes, ctx, st, caps, fuel)
    case Cut(o) => o
    case All(vs, st1) =>
      var (st2, ref) := NewList(st1, vs);
      Done(Succeeded(Value(ListV(ref), Some(n.posStart), Some(n.posEnd), Some(ctx))), st2)
  }

  /** A variable read: the nearest binding, re-stamped with the access span and the
      current context; an unbound name is an error. The store is not changed. */
  function EvalVarAccess(n: Node, ctx: Context, st: Store): (o: Outcome)
    requires n.VarAccessNode?
    ensures o.Done? && o.store == st && Settled(o.res)
    ensures Get(st, ctx.table, TextOf(n.varNameTok)).None? ==>
      o.res == Failed(RTError(Some(n.posStart), Some(n.posEnd), "'" + TextOf(n.varNameTok) + "' is not defined", Some(ctx)))
    ensures Get(st, ctx.table, TextOf(n.varNameTok)).Some? ==>
      o.res.value == Some(Get(st, ctx.table, TextOf(n.varNameTok)).value.(posStart := Some(n.posStart),
        posEnd := Some(n.posEnd), context := Some(ctx)))
  {
    var name := TextOf(n.varNameTok);
    match Get(st, ctx.table, name)
    case None => Done(Failed(RTError(Some(n.posStart), Some(n.posEnd), "'" + name + "' is not defined", Some(ctx))), st)
    case Some(v) => Done(Succeeded(v.(posStart := Some(n.posStart), posEnd := Some(n.posEnd), context := Some(ctx))), st)
  }

  /** An assignment binds the value in the current context's table and yields it. */
  function EvalVarAssign(n: Node, ctx: Context, st: Store, caps: Capabilities, fuel: nat): (o: Outcome)
    requires n.VarAssignNode?
    ensures o.Done? ==> Settled(o.res)
    decreases fuel, 2
  {
    match Eval(n.valueNode, ctx, st, caps, fuel)
    case Halted(h) => Halted(h)
    case Done(c, st1) =>
      if c.ShouldReturn() then Done(Pass(c), st1)
      else Done(Succeeded(c.value.value), Bind(st1, ctx.table, TextOf(n.varNameTok), c.value.value))
  }

  /** Both operands are evaluated, left first and without short-circuit, then the left
      operand's method for the operator is applied. */
  function EvalBinOp(n: Node, ctx: Context, st: Store, caps: Capabilities, fuel: nat): (o: Outcome)
    requires n.BinOpNode?
    ensures o.Done? ==> Settled(o.res)
    ensures SpanIs(o, n.posStart, n.posEnd)
    decreases fuel, 2
  {
    match Eval(n.leftNode, ctx, st, caps, fuel)
    case Halted(h) => Halted(h)
    case Done(l, st1) =>
      if l.ShouldReturn() then Done(Pass(l), st1)
      else
        match Eval(n.rightNode, ctx, st1, caps, fuel)
        case Halted(h) => Halted(h)
        case Done(r, st2) =>
          if r.ShouldReturn() then Done(Pass(r), st2)
          else
            match OperatorOf(n.opTok)
            case None => Halted(Crash("UnboundLocalError"))
            case Some(op) =>
              var (result, st3) := Apply(op, l.value.value, r.value.value, st2);
              Finish(result, st3, n.posStart, n.posEnd)
  }

  /** `-x` multiplies by Number(-1); `NOT x` is Number's `notted`; any other operator
      leaves the operand as it is. */
  function EvalUnaryOp(n: Node, ctx: Context, st: Store, caps: Capabilities, fuel: nat): (o: Outcome)
    requires n.UnaryOpNode?
    ensures o.Done? ==> Settled(o.res)
    ensures SpanIs(o, n.posStart, n.posEnd)
    decreases fuel, 2
  {
    match Eval(n.operand, ctx, st, caps, fuel)
    case Halted(h) => Halted(h)
    case Done(c, st1) =>
      if c.ShouldReturn() then Done(Pass(c), st1)
      else
        var v := c.value.value;
        if n.opTok.kind == MINUS then
          var (result, st2) := Apply(Mul, v, NumberValue(Int(-1), None), st1);
          Finish(result, st2, n.posStart, n.posEnd)
        else if n.opTok.kind == KEYWORD && n.opTok.value == Text("NOT") then
          Finish(Notted(v), st1, n.posStart, n.posEnd)
        else Finish(Produced(v), st1, n.posStart, n.posEnd)
  }

  /** IF: the cases in order; the first whose condition is true yields its body's value,
      or null for a block body. With no true case, the else branch the same way, or null. */
  function EvalCases(cases: seq<Case>, elseCase: Option<ElseCase>, ctx: Context, st: Store, caps: Capabilities,
                     fuel: nat): (o: Outcome)
    ensures o.Done? ==> Settled(o.res)
    decreases fuel, 1, |cases| + 1
  {
    if |cases| == 0 then
      if elseCase.None? then Done(Succeeded(Null), st)
      else EvalBranch(elseCase.value.body, elseCase.value.returnsNull, ctx, st, caps, fuel)
    else
      match Eval(cases[0].condition, ctx, st, caps, fuel)
      case Halted(h) => Halted(h)
      case Done(c, st1) =>
        if c.ShouldReturn() then Done(Pass(c), st1)
        else if IsTrue(c.value.value) then EvalBranch(cases[0].body, cases[0].returnsNull, ctx, st1, caps, fuel)
        else EvalCases(cases[1..], elseCase, ctx, st1, caps, fuel)
  }

  /** A chosen IF branch: its value, or null when it is a block. */
  function EvalBranch(body: Node, returnsNull: bool, ctx: Context, st: Store, caps: Capabilities, fuel: nat): (o: Outcome)
    ensures o.Done? ==> Settled(o.res)
    ensures o.Done? && !o.res.ShouldReturn() && returnsNull ==> o.res.value == Some(Null)
    ensures !returnsNull ==> o == Eval(body, ctx, st, caps, fuel)
    decreases fuel, 1, 0
  {
    match Eval(body, ctx, st, caps, fuel)
    case Halted(h) => Halted(h)
    case Done(c, st1) =>
      if c.ShouldReturn() then Done(Pass(c), st1)
      else Done(Succeeded(if returnsNull then Null else c.value.value), st1)
  }

  /** The FOR test: `i < end` for a non-negative step, else `i > end`. */
  predicate ForTest(i: Num, end: Num, step: Num) {
    if ToReal(step) >= 0.0 then ToReal(i) < ToReal(end) else ToReal(i) > ToReal(end)
  }

  /** FOR: start, end and step (default 1) are evaluated once, then the loop runs. */
  function EvalFor(n: Node, ctx: Context, st: Store, caps: Capabilities, fuel: nat): (o: Outcome)
    requires n.ForNode?
    ensures o.Done? ==> Settled(o.res)
    ensures LoopShaped(o, n.shouldReturnNull, n.posStart, n.posEnd, ctx)
    decreases fuel, 2
  {
    match Eval(n.startValueNode, ctx, st, caps, fuel)
    case Halted(h) => Halted(h)
    case Done(s, st1) =>
      if s.ShouldReturn() then Done(Pass(s), st1)
      else
        match Eval(n.endValueNode, ctx, st1, caps, fuel)
        case Halted(h) => Halted(h)
        case Done(e, st2) =>
          if e.ShouldReturn() then Done(Pass(e), st2)
          else
            match EvalStep(n.stepValueNode, ctx, st2, caps, fuel)
            case Halted(h) => Halted(h)
            case Done(p, st3) =>
              if p.ShouldReturn() then Done(Pass(p), st3)
              else ForFrom(n, s.value.value, e.value.value, p.value.value, ctx, st3, caps, fuel)
  }

  /** The step: its node's value, or Number(1) when there is none. */
  function EvalStep(step: Option<Node>, ctx: Context, st: Store, caps: Capabilities, fuel: nat): (o: Outcome)
    ensures o.Done? ==> Settled(o.res)
    ensures step.None? ==> o == Done(Succeeded(NumberValue(Int(1), None)), st)
    decreases fuel, 1, 0
  {
    if step.None? then Done(Succeeded(NumberValue(Int(1), None)), st) else Eval(step.value, ctx, st, caps, fuel)
  }

  /** Runs the loop from the evaluated bounds and builds the FOR node's value: null for a
      block body, else a new List of the accumulated values. */
  function ForFrom(n: Node, start: Value, end: Value, step: Value, ctx: Context, st: Store, caps: Capabilities,
                   fuel: nat): (o: Outcome)
    requires n.ForNode?
    ensures o.Done? ==> Settled(o.res)
    ensures LoopShaped(o, n.shouldReturnNull, n.posStart, n.posEnd, ctx)
    decreases fuel, 1, 2
  {
    var fault := ForBoundsFault(start, end, step);
    if fault.Some? then Halted(fault.value)
    else
      match ForLoop(TextOf(n.varNameTok), start.kind.n, end.kind.n, step.kind.n, n.bodyNode, ctx, st, caps, [], fuel)
      case Cut(o) => o
      case All(vs, st1) => LoopValue(n.shouldReturnNull, vs, n.posStart, n.posEnd, ctx, st1)
  }

  /** A List or Function has no `value` attribute. */
  predicate LacksValue(v: Value) {
    v.kind.ListV? || v.kind.FunctionV?
  }

  /** What Python raises before the first iteration for FOR bounds that are not all
      Numbers. The start's `value` is read first, then the step's, which is compared
      with 0, then the end's, inside the loop test. Reading `value` of a List or a
      Function is an AttributeError; a String step, or a String compared with a number,
      is a TypeError. Two String bounds compare as strings, which the model leaves out. */
  function ForBoundsFault(start: Value, end: Value, step: Value): (h: Option<Halt>)
    ensures h.None? <==> start.kind.NumberV? && end.kind.NumberV? && step.kind.NumberV?
    ensures LacksValue(start) ==> h == Some(Crash("AttributeError"))
    ensures !LacksValue(start) && LacksValue(step) ==> h == Some(Crash("AttributeError"))
    ensures !LacksValue(start) && step.kind.StringV? ==> h == Some(Crash("TypeError"))
    ensures !LacksValue(start) && step.kind.NumberV? && LacksValue(end) ==> h == Some(Crash("AttributeError"))
    ensures step.kind.NumberV? && (start.kind.StringV? <==> end.kind.NumberV?) && !LacksValue(start) && !LacksValue(end)
      ==> h == Some(Crash("TypeError"))
    ensures h.Some? && h.value.OutsideModel? ==> start.kind.StringV? && end.kind.StringV? && step.kind.NumberV?
  {
    if LacksValue(start) || LacksValue(step) then Some(Crash("AttributeError"))
    else if step.kind.StringV? then Some(Crash("TypeError"))
    else if LacksValue(end) then Some(Crash("AttributeError"))
    else if start.kind.StringV? && end.kind.StringV? then Some(OutsideModel("FOR over two String bounds"))
    else if start.kind.StringV? || end.kind.StringV? then Some(Crash("TypeError"))
    else None
  }

  /** A loop's value: null for a block body, else a new List of `vs` with the loop's span. */
  function LoopValue(returnsNull: bool, vs: seq<Value>, ps: Position, pe: Position, ctx: Context, st: Store): (o: Outcome)
    ensures o.Done? && Settled(o.res)
    ensures LoopShaped(o, returnsNull, ps, pe, ctx)
    ensures returnsNull ==> o == Done(Succeeded(Null), st)
    ensures !returnsNull ==> o.res.value.Some? && o.res.value.value.kind.ListV? && ListAt(o.store, o.res.value.value.kind.ref) == vs
  {
    if returnsNull then Done(Succeeded(Null), st)
    else
      var (st1, ref) := NewList(st, vs);
      Done(Succeeded(Value(ListV(ref), Some(ps), Some(pe), Some(ctx))), st1)
  }

  /** The FOR iterations: bind the variable to the current `i`, advance `i` by the step,
      run the body, and go on as `AfterBody` says. */
  function ForLoop(name: string, i: Num, end: Num, step: Num, body: Node, ctx: Context, st: Store,
                   caps: Capabilities, acc: seq<Value>, fuel: nat): (m: Many)
    ensures CutSignals(m)
    ensures m.All? ==> |m.values| >= |acc| && m.values[..|acc|] == acc
    decreases fuel, 1, 1
  {
    if !ForTest(i, end, step) then All(acc, st)
    else if fuel == 0 then Cut(Halted(OutOfFuel))
    else
      var b := Eval(body, ctx, Bind(st, ctx.table, name, NumberValue(i, None)), caps, fuel);
      match AfterBody(b, acc)
      case Stop(m) => m
      case Next(st1, acc1) =>
        var m := ForLoop(name, Arith(Add, i, step), end, step, body, ctx, st1, caps, acc1, fuel - 1);
        assert m.All? ==> m.values[..|acc|] == acc1[..|acc|];
        m
  }

  /** Where a loop goes after its body. */
  datatype Step = Stop(result: Many) | Next(store: Store, acc: seq<Value>)

  /** After the body: an error or a return (without a loop flag) ends the loop with that
      signal; `continue` goes on without accumulating; `break` ends the loop with the
      values so far; a plain value is accumulated. */
  function AfterBody(b: Outcome, acc: seq<Value>): (s: Step)
    requires b.Done? ==> Settled(b.res)
    ensures s.Stop? ==> CutSignals(s.result) && (s.result.All? ==> s.result.values == acc)
    ensures s.Next? ==> |s.acc| >= |acc| && s.acc[..|acc|] == acc
    ensures b.Halted? ==> s == Stop(Cut(b))
    ensures b.Done? && !b.res.ShouldReturn() ==> s == Next(b.store, acc + [b.res.value.value])
    ensures b.Done? && b.res.loopShouldContinue ==> s == Next(b.store, acc)
    ensures b.Done? && b.res.loopShouldBreak ==> s == Stop(All(acc, b.store))
  {
    match b
    case Halted(h) => Stop(Cut(Halted(h)))
    case Done(c, st) =>
      if c.ShouldReturn() && !c.loopShouldContinue && !c.loopShouldBreak then Stop(Cut(Done(Pass(c), st)))
      else if c.loopShouldContinue then Next(st, acc)
      else if c.loopShouldBreak then Stop(All(acc, st))
      else Next(st, acc + [c.value.value])
  }

  /** WHILE: the condition is re-evaluated before every iteration. */
  function EvalWhile(n: Node, ctx: Context, st: Store, caps: Capabilities, fuel: nat): (o: Outcome)
    requires n.WhileNode?
    ensures o.Done? ==> Settled(o.res)
    ensures LoopShaped(o, n.shouldReturnNull, n.posStart, n.posEnd, ctx)
    decreases fuel, 2
  {
    match WhileLoop(n.conditionNode, n.bodyNode, ctx, st, caps, [], fuel)
    case Cut(o) => o
    case All(vs, st1) => LoopValue(n.shouldReturnNull, vs, n.posStart, n.posEnd, ctx, st1)
  }

  function WhileLoop(cond: Node, body: Node, ctx: Context, st: Store, caps: Capabilities, acc: seq<Value>,
                     fuel: nat): (m: Many)
    ensures CutSignals(m)
    ensures m.All? ==> |m.values| >= |acc| && m.values[..|acc|] == acc
    decreases fuel, 1, 2
  {
    if fuel == 0 then Cut(Halted(OutOfFuel))
    else WhileTested(cond, body, ctx, Eval(cond, ctx, st, caps, fuel), caps, acc, fuel)
  }

  /** After the condition: a signal stops the loop, a false condition ends it, a true
      one runs the body. */
  function WhileTested(cond: Node, body: Node, ctx: Context, t: Outcome, caps: Capabilities, acc: seq<Value>,
                       fuel: nat): (m: Many)
    requires fuel > 0 && (t.Done? ==> Settled(t.res))
    ensures CutSignals(m)
    ensures m.All? ==> |m.values| >= |acc| && m.values[..|acc|] == acc
    decreases fuel, 1, 1
  {
    match t
    case Halted(h) => Cut(Halted(h))
    case Done(c, st1) =>
      if c.ShouldReturn() then Cut(Done(Pass(c), st1))
      else if !IsTrue(c.value.value) then All(acc, st1)
      else
        match AfterBody(Eval(body, ctx, st1, caps, fuel), acc)
        case Stop(m) => m
        case Next(st2, acc2) =>
          var m := WhileLoop(cond, body, ctx, st2, caps, acc2, fuel - 1);
          assert m.All? ==> m.values[..|acc|] == acc2[..|acc|];
          m
  }

  /** FUN: a function value over the definition's context and span, bound under its name
      when it has one. */
  function EvalFuncDef(n: Node, ctx: Context, st: Store): (o: Outcome)
    requires n.FuncDefNode?
    ensures o.Done? && Settled(o.res) && o.res.value.Some?
    ensures var f := o.res.value.value;
      f.kind.FunctionV? && f.kind.body == n.bodyNode && f.kind.argNames == Names(n.argNameToks)
      && f.kind.autoReturn == n.shouldAutoReturn && f.context == Some(ctx)
      && f.posStart == Some(n.posStart) && f.posEnd == Some(n.posEnd)
    ensures n.funcNameTok.None? ==> o.store == st && o.res.value.value.kind.name == "<anonymous>"
    ensures n.funcNameTok.Some? ==> o.store == Bind(st, ctx.table, TextOf(n.funcNameTok.value), o.res.value.value)
  {
    var name := if n.funcNameTok.Some? then Some(TextOf(n.funcNameTok.value)) else None;
    var f := Value(FunctionV(FunctionName(name), n.bodyNode, Names(n.argNameToks), n.shouldAutoReturn),
      Some(n.posStart), Some(n.posEnd), Some(ctx));
    if n.funcNameTok.Some? then Done(Succeeded(f), Bind(st, ctx.table, TextOf(n.funcNameTok.value), f))
    else Done(Succeeded(f), st)
  }

  /** A call: the callee (copied and stamped with the call span), the arguments left to
      right, then the callee's `execute`; the result is copied and stamped with the call
      span and the caller's context. */
  function EvalCall(n: Node, ctx: Context, st: Store, caps: Capabilities, fuel: nat): (o: Outcome)
    requires n.CallNode?
    ensures o.Done? ==> Settled(o.res)
    ensures SpanIs(o, n.posStart, n.posEnd)
    ensures o.Done? && o.res.value.Some? ==> o.res.value.value.context == Some(ctx)
    decreases fuel, 2
  {
    match Eval(n.nodeToCall, ctx, st, caps, fuel)
    case Halted(h) => Halted(h)
    case Done(c, st1) =>
      if c.ShouldReturn() then Done(Pass(c), st1)
      else
        var callee := Stamp(c.value.value, n.posStart, n.posEnd);
        match EvalAll(n.argNodes, ctx, st1, caps, fuel)
        case Cut(o) => o
        case All(args, st2) =>
          match Execute(callee, args, st2, caps, fuel)
          case Halted(h) => Halted(h)
          case Done(r, st3) =>
            if r.ShouldReturn() then Done(Pass(r), st3)
            else Done(Succeeded(Stamp(r.value.value, n.posStart, n.posEnd).(context := Some(ctx))), st3)
  }

  /** `execute`: for a function, a new context and the arity check before the body; an
      error, `break` or `continue` from the body reaches the caller unchanged. The result
      is the body's value under auto-return, else the returned value, else null. Any
      other value is not callable. */
  function Execute(f: Value, args: seq<Value>, st: Store, caps: Capabilities, fuel: nat): (o: Outcome)
    ensures o.Done? ==> Settled(o.res)
    ensures !f.kind.FunctionV? ==> o == Done(Failed(RTError(f.posStart, f.posEnd, "Illegal operation", f.context)), st)
    decreases fuel, 1, 1
  {
    match f.kind
    case FunctionV(_, body, argNames, autoReturn) =>
      (match NewContext(f, st)
       case None => Halted(Crash("AttributeError"))
       case Some(created) =>
         var (execCtx, st1) := created;
         match CheckAndPopulate(f, argNames, args, execCtx, st1)
         case Err(e) => Done(Failed(e), st1)
         case Ok(st2) => RunBody(body, autoReturn, execCtx, st2, caps, fuel))
    case _ => Done(Failed(RTError(f.posStart, f.posEnd, "Illegal operation", f.context)), st)
  }

  /** The body in the new context; a signal without a return value passes through. */
  function RunBody(body: Node, autoReturn: bool, execCtx: Context, st: Store, caps: Capabilities, fuel: nat): (o: Outcome)
    ensures o.Done? ==> Settled(o.res) && o.res.funcReturnValue.None?
    ensures var b := Eval(body, execCtx, st, caps, fuel);
      b.Done? && b.res.ShouldReturn() && b.res.funcReturnValue.None? ==> o == b
    decreases fuel, 1, 0
  {
    match Eval(body, execCtx, st, caps, fuel)
    case Halted(h) => Halted(h)
    case Done(c, st1) =>
      if c.ShouldReturn() && c.funcReturnValue.None? then Done(Pass(c), st1)
      else Done(Succeeded(ReturnedValue(c, autoReturn)), st1)
  }

  /** `(value if auto_return else None) or func_return_value or Number.null`. */
  function ReturnedValue(c: Res, autoReturn: bool): (v: Value)
    ensures autoReturn && c.value.Some? ==> v == c.value.value
    ensures !(autoReturn && c.value.Some?) && c.funcReturnValue.Some? ==> v == c.funcReturnValue.value
    ensures !(autoReturn && c.value.Some?) && c.funcReturnValue.None? ==> v == Null
  {
    if autoReturn && c.value.Some? then c.value.value
    else if c.funcReturnValue.Some? then c.funcReturnValue.value
    else Null
  }

  /** RETURN: signals a return of the value, or of null. */
  function EvalReturn(n: Node, ctx: Context, st: Store, caps: Capabilities, fuel: nat): (o: Outcome)
    requires n.ReturnNode?
    ensures o.Done? ==> Settled(o.res) && o.res.ShouldReturn()
    ensures n.nodeToReturn.None? ==> o == Done(Returned(Null), st)
    decreases fuel, 2
  {
    if n.nodeToReturn.None? then Done(Returned(Null), st)
    else
      match Eval(n.nodeToReturn.value, ctx, st, caps, fuel)
      case Halted(h) => Halted(h)
      case Done(c, st1) =>
        if c.ShouldReturn() then Done(Pass(c), st1) else Done(Returned(c.value.value), st1)
  }

  /** EMBED: the text must be a String; the model name is 'default' or the model value's
      `value`. The back end's vector becomes a new List of floats; its failure becomes
      "Error generating embedding: …" at the node. */
  function EvalEmbed(n: Node, ctx: Context, st: Store, caps: Capabilities, fuel: nat): (o: Outcome)
    requires n.EmbedNode?
    ensures o.Done? ==> Settled(o.res)
    ensures o.Done? && o.res.value.Some? ==> o.res.value.value.kind.ListV?
    decreases fuel, 2
  {
    match Eval(n.textNode, ctx, st, caps, fuel)
    case Halted(h) => Halted(h)
    case Done(t, st1) =>
      if t.ShouldReturn() then Done(Pass(t), st1)
      else if !t.value.value.kind.StringV? then
        Done(Failed(RTError(Some(n.posStart), Some(n.posEnd), "First argument must be a string", Some(ctx))), st1)
      else
        match EvalModelName(n.modelNode, ctx, st1, caps, fuel)
        case Cut(o) => o
        case All(names, st2) =>
          var model := if |names| == 0 then RawText("default") else RawOf(names[0]).value;
          match caps.embed(t.value.value.kind.s, model)
          case Ok(xs) =>
            var (st3, ref) := NewList(st2, FloatValues(xs));
            Done(Succeeded(Value(ListV(ref), None, None, None)), st3)
          case Err(msg) =>
            Done(Failed(RTError(Some(n.posStart), Some(n.posEnd), "Error generating embedding: " + msg, Some(ctx))), st2)
  }

  /** The EMBED model: no value when there is no model node, else the model's value, which
      must have a `value` attribute (AttributeError otherwise). */
  function EvalModelName(model: Option<Node>, ctx: Context, st: Store, caps: Capabilities, fuel: nat): (m: Many)
    ensures CutSignals(m)
    ensures m.All? ==> (model.None? <==> |m.values| == 0) && |m.values| <= 1
    ensures m.All? && |m.values| == 1 ==> RawOf(m.values[0]).Some?
    ensures model.None? ==> m == All([], st)
    decreases fuel, 1, 0
  {
    if model.None? then All([], st)
    else
      match Eval(model.value, ctx, st, caps, fuel)
      case Halted(h) => Cut(Halted(h))
      case Done(c, st1) =>
        if c.ShouldReturn() then Cut(Done(Pass(c), st1))
        else if RawOf(c.value.value).None? then Cut(Halted(Crash("AttributeError")))
        else All([c.value.value], st1)
  }

  /** AI: each argument is evaluated and its `value` taken before the next one; then the
      model is called by name. Its answer becomes a value without span or context; its
      failure is an error at the node. */
  function EvalAICall(n: Node, ctx: Context, st: Store, caps: Capabilities, fuel: nat): (o: Outcome)
    requires n.AICallNode?
    ensures o.Done? ==> Settled(o.res)
    ensures o.Done? && o.res.value.Some? ==> o.res.value.value.posStart.None? && o.res.value.value.context.None?
    decreases fuel, 2
  {
    match EvalRawArgs(n.args, ctx, st, caps, fuel)
    case Cut(o) => o
    case All(vs, st1) =>
      match caps.callModel(TextOf(n.modelName), RawsOf(vs))
      case Err(msg) => Done(Failed(RTError(Some(n.posStart), Some(n.posEnd), msg, Some(ctx))), st1)
      case Ok(answer) =>
        match answer
        case AnswerText(s) => Done(Succeeded(StringValue(s, None)), st1)
        case AnswerNumber(x) => Done(Succeeded(NumberValue(x, None)), st1)
        case AnswerList(items) =>
          var (st2, ref) := NewList(st1, RawValues(items));
          Done(Succeeded(Value(ListV(ref), None, None, None)), st2)
  }

  function RawsOf(vs: seq<Value>): (r: seq<Raw>)
    requires forall i :: 0 <= i < |vs| ==> RawOf(vs[i]).Some?
    ensures |r| == |vs| && forall i :: 0 <= i < |vs| ==> Some(r[i]) == RawOf(vs[i])
  {
    if |vs| == 0 then [] else RawsOf(vs[..|vs| - 1]) + [RawOf(vs[|vs| - 1]).value]
  }

  function EvalRawArgs(ns: seq<Node>, ctx: Context, st: Store, caps: Capabilities, fuel: nat): (m: Many)
    ensures CutSignals(m)
    ensures m.All? ==> |m.values| == |ns| && forall i :: 0 <= i < |m.values| ==> RawOf(m.values[i]).Some?
    decreases fuel, 1, |ns|
  {
    if |ns| == 0 then All([], st)
    else
      match Eval(ns[0], ctx, st, caps, fuel)
      case Halted(h) => Cut(Halted(h))
      case Done(c, st1) =>
        if c.ShouldReturn() then Cut(Done(Pass(c), st1))
        else if RawOf(c.value.value).None? then Cut(Halted(Crash("AttributeError")))
        else
          match EvalRawArgs(ns[1..], ctx, st1, caps, fuel)
          case All(vs, st2) => All([c.value.value] + vs, st2)
          case Cut(o) => Cut(o)
  }

  /** PIPE as written: after the left operand, the rule names a node class the interpreter
      never imports, so every pipe whose left operand succeeds raises NameError. */
  function EvalPipe(n: Node, ctx: Context, st: Store, caps: Capabilities, fuel: nat): (o: Outcome)
    requires n.PipeNode?
    ensures o.Done? ==> Settled(o.res)
    decreases fuel, 2
  {
    match Eval(n.leftNode, ctx, st, caps, fuel)
    case Halted(h) => Halted(h)
    case Done(c, st1) =>
      if c.ShouldReturn() then Done(Pass(c), st1) else Halted(Crash("NameError"))
  }
}
