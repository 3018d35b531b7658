/** What the evaluator's rules imply for whole programs: loops that never end, the
    values a FOR collects, break escaping a call, no short-circuit, assignment and
    lookup, IF falling through to null, the arity check, and PIPE. */
module InterpreterFacts {

  import opened Utils
  import opened Constants
  import opened Lexer
  import opened Nodes
  import opened Runtime
  import opened Values
  import opened BaseFun
  import opened Interpreter

  /** Finished with a value and no signal. */
  predicate Plain(o: Outcome) {
    o.Done? && !o.res.ShouldReturn()
  }

  /** Finished with a value of the given truth and no signal. */
  predicate Yields(o: Outcome, truth: bool) {
    o.Done? && !o.res.ShouldReturn() && o.res.value.Some? && IsTrue(o.res.value.value) == truth
  }

  /** A number literal is plain, whatever the store, and leaves it unchanged. */
  lemma LiteralIsPlain(n: Node, ctx: Context, st: Store, caps: Capabilities, fuel: nat)
    requires n.NumberNode? && n.tok.value.IntValue? && fuel > 0
    ensures Plain(Eval(n, ctx, st, caps, fuel)) && Eval(n, ctx, st, caps, fuel).store == st
  {
  }

  /** FOR with a zero step and a start below the end never finishes when the body does
      not signal: whatever the fuel, it runs out. */
  lemma {:induction false} ForStepZeroNeverEnds(name: string, i: Num, end: Num, step: Num, body: Node, ctx: Context,
                                                st: Store, caps: Capabilities, acc: seq<Value>, fuel: nat)
    requires ToReal(step) == 0.0 && ToReal(i) < ToReal(end)
    requires forall s: Store, k: nat :: k > 0 ==> Plain(Eval(body, ctx, s, caps, k))
    ensures ForLoop(name, i, end, step, body, ctx, st, caps, acc, fuel) == Cut(Halted(OutOfFuel))
    decreases fuel
  {
    if fuel > 0 {
      var b := Eval(body, ctx, Bind(st, ctx.table, name, NumberValue(i, None)), caps, fuel);
      assert Plain(b);
      ForStepZeroNeverEnds(name, Arith(Add, i, step), end, step, body, ctx, b.store, caps,
        acc + [b.res.value.value], fuel - 1);
    }
  }

  /** WHILE whose condition stays true and whose body does not signal never finishes. */
  lemma {:induction false} WhileTrueNeverEnds(cond: Node, body: Node, ctx: Context, st: Store, caps: Capabilities,
                                              acc: seq<Value>, fuel: nat)
    requires forall s: Store, k: nat :: k > 0 ==> Yields(Eval(cond, ctx, s, caps, k), true)
    requires forall s: Store, k: nat :: k > 0 ==> Plain(Eval(body, ctx, s, caps, k))
    ensures WhileLoop(cond, body, ctx, st, caps, acc, fuel) == Cut(Halted(OutOfFuel))
    decreases fuel
  {
    if fuel > 0 {
      var t := Eval(cond, ctx, st, caps, fuel);
      assert Yields(t, true);
      var b := Eval(body, ctx, t.store, caps, fuel);
      assert Plain(b);
      WhileTrueNeverEnds(cond, body, ctx, b.store, caps, acc + [b.res.value.value], fuel - 1);
    }
  }

  /** The loop variable's values from `j` up to `k`, each as read back by an access at
      `ps`..`pe` in `ctx`. */
  function Counted(j: int, k: int, ps: Position, pe: Position, ctx: Context): (r: seq<Value>)
    ensures |r| == if j < k then k - j else 0
    decreases if j < k then k - j else 0
  {
    if j >= k then [] else [Value(NumberV(Int(j)), Some(ps), Some(pe), Some(ctx))] + Counted(j + 1, k, ps, pe, ctx)
  }

  /** One more counter value at the front of the rest. */
  lemma CountedStep(acc: seq<Value>, j: int, k: int, ps: Position, pe: Position, ctx: Context)
    requires j < k
    ensures acc + [Value(NumberV(Int(j)), Some(ps), Some(pe), Some(ctx))] + Counted(j + 1, k, ps, pe, ctx)
      == acc + Counted(j, k, ps, pe, ctx)
  {
    var v := Value(NumberV(Int(j)), Some(ps), Some(pe), Some(ctx));
    assert Counted(j, k, ps, pe, ctx) == [v] + Counted(j + 1, k, ps, pe, ctx);
    assert acc + [v] + Counted(j + 1, k, ps, pe, ctx) == acc + ([v] + Counted(j + 1, k, ps, pe, ctx));
  }

  /** The loop ran to its end and collected exactly `vs`. */
  predicate Collects(m: Many, vs: seq<Value>) {
    m.All? && m.values == vs
  }

  /** `FOR v = j TO k THEN v` with the default step collects j, j+1, …, k-1. */
  lemma {:induction false} ForCountsUp(tok: Token, ps: Position, pe: Position, j: int, k: int, ctx: Context, st: Store,
                                       caps: Capabilities, acc: seq<Value>, fuel: nat)
    requires ctx.table < |st.tables| && fuel > k - j
    ensures Collects(ForLoop(TextOf(tok), Int(j), Int(k), Int(1), VarAccessNode(tok, ps, pe), ctx, st, caps, acc, fuel),
                     acc + Counted(j, k, ps, pe, ctx))
    decreases if j < k then k - j else 0
  {
    var body := VarAccessNode(tok, ps, pe);
    if j < k {
      var st1 := ForCountStep(tok, ps, pe, j, k, ctx, st, caps, acc, fuel);
      var acc1 := acc + [Value(NumberV(Int(j)), Some(ps), Some(pe), Some(ctx))];
      ForCountsUp(tok, ps, pe, j + 1, k, ctx, st1, caps, acc1, fuel - 1);
      CountedStep(acc, j, k, ps, pe, ctx);
    } else {
      ForCountDone(TextOf(tok), j, k, body, ctx, st, caps, acc, fuel);
      assert Counted(j, k, ps, pe, ctx) == [];
      assert acc + [] == acc;
    }
  }

  /** The counting loop at or past its end collects nothing more. */
  lemma ForCountDone(name: string, j: int, k: int, body: Node, ctx: Context, st: Store, caps: Capabilities,
                     acc: seq<Value>, fuel: nat)
    requires j >= k
    ensures ForLoop(name, Int(j), Int(k), Int(1), body, ctx, st, caps, acc, fuel) == All(acc, st)
  {
    assert !ForTest(Int(j), Int(k), Int(1));
  }

  /** One iteration of the counting loop: the body reads the variable just bound. */
  lemma ForCountStep(tok: Token, ps: Position, pe: Position, j: int, k: int, ctx: Context, st: Store,
                     caps: Capabilities, acc: seq<Value>, fuel: nat) returns (st1: Store)
    requires ctx.table < |st.tables| && fuel > 0 && j < k
    ensures ctx.table < |st1.tables|
    ensures ForLoop(TextOf(tok), Int(j), Int(k), Int(1), VarAccessNode(tok, ps, pe), ctx, st, caps, acc, fuel)
      == ForLoop(TextOf(tok), Int(j + 1), Int(k), Int(1), VarAccessNode(tok, ps, pe), ctx, st1, caps,
                 acc + [Value(NumberV(Int(j)), Some(ps), Some(pe), Some(ctx))], fuel - 1)
  {
    var name := TextOf(tok);
    st1 := Bind(st, ctx.table, name, NumberValue(Int(j), None));
    BindLocal(st, ctx.table, name, NumberValue(Int(j), None));
    var v := Value(NumberV(Int(j)), Some(ps), Some(pe), Some(ctx));
    assert Eval(VarAccessNode(tok, ps, pe), ctx, st1, caps, fuel) == Done(Succeeded(v), st1);
    assert AfterBody(Done(Succeeded(v), st1), acc) == Next(st1, acc + [v]);
    assert Arith(Add, Int(j), Int(1)) == Int(j + 1);
  }

  /** The whole FOR expression over int literals and the default step: a new List holding
      the counter's values. */
  lemma ForExpressionLists(varTok: Token, start: Node, end: Node, body: Node, ps: Position, pe: Position,
                           ctx: Context, st: Store, caps: Capabilities, fuel: nat)
    requires start.NumberNode? && start.tok.value.IntValue? && end.NumberNode? && end.tok.value.IntValue?
    requires body.VarAccessNode? && body.varNameTok == varTok
    requires ctx.table < |st.tables| && fuel > 0 && fuel > end.tok.value.i - start.tok.value.i
    ensures var o := EvalFor(ForNode(varTok, start, end, None, body, false, ps, pe), ctx, st, caps, fuel);
      o.Done? && o.res.value.Some? && o.res.value.value.kind.ListV?
      && ListAt(o.store, o.res.value.value.kind.ref)
         == Counted(start.tok.value.i, end.tok.value.i, body.posStart, body.posEnd, ctx)
  {
    var j, k := start.tok.value.i, end.tok.value.i;
    assert Eval(start, ctx, st, caps, fuel) == Done(Succeeded(Value(NumberV(Int(j)), Some(start.posStart),
      Some(start.posEnd), Some(ctx))), st);
    assert Eval(end, ctx, st, caps, fuel) == Done(Succeeded(Value(NumberV(Int(k)), Some(end.posStart),
      Some(end.posEnd), Some(ctx))), st);
    ForCountsUp(varTok, body.posStart, body.posEnd, j, k, ctx, st, caps, [], fuel);
    assert body == VarAccessNode(varTok, body.posStart, body.posEnd);
  }

  /** break and continue are not caught by a call: a function whose body is BREAK makes
      the call itself break, so it ends the loop around the call. */
  lemma BreakEscapesCall(callee: Node, ps: Position, pe: Position, ctx: Context, st: Store, caps: Capabilities,
                         fuel: nat, f: Value, st1: Store)
    requires Eval(callee, ctx, st, caps, fuel) == Done(Succeeded(f), st1)
    requires f.kind.FunctionV? && f.kind.body.BreakNode? && f.kind.argNames == [] && f.context.Some? && fuel > 0
    ensures EvalCall(CallNode(callee, [], ps, pe), ctx, st, caps, fuel).Done?
    ensures EvalCall(CallNode(callee, [], ps, pe), ctx, st, caps, fuel).res == Broken()
  {
    var g := Stamp(f, ps, pe);
    var (execCtx, st2) := NewContext(g, st1).value;
    assert CheckAndPopulate(g, [], [], execCtx, st2) == Ok(st2);
    assert Eval(f.kind.body, execCtx, st2, caps, fuel) == Done(Broken(), st2);
    assert Execute(g, [], st1, caps, fuel) == Done(Broken(), st2);
  }

  /** A call with the wrong number of arguments is the arity error, before the body runs. */
  lemma ArityMismatchFails(f: Value, args: seq<Value>, st: Store, caps: Capabilities, fuel: nat)
    requires f.kind.FunctionV? && f.context.Some? && |args| != |f.kind.argNames|
    ensures Execute(f, args, st, caps, fuel).Done?
    ensures Execute(f, args, st, caps, fuel).res == Failed(CheckArgs(f, f.kind.argNames, args).value)
  {
    var (execCtx, st1) := NewContext(f, st).value;
    assert CheckAndPopulate(f, f.kind.argNames, args, execCtx, st1) == Err(CheckArgs(f, f.kind.argNames, args).value);
  }

  /** An assignment yields the value, and a later access to the same name in the same
      context reads it back with the access's span. */
  lemma AssignThenRead(tok: Token, valueNode: Node, ps: Position, pe: Position, ps2: Position, pe2: Position,
                       ctx: Context, st: Store, caps: Capabilities, fuel: nat, v: Value, st1: Store)
    requires Eval(valueNode, ctx, st, caps, fuel) == Done(Succeeded(v), st1) && ctx.table < |st1.tables|
    ensures var a := EvalVarAssign(VarAssignNode(tok, valueNode, ps, pe), ctx, st, caps, fuel);
      a.Done? && a.res == Succeeded(v)
      && EvalVarAccess(VarAccessNode(tok, ps2, pe2), ctx, a.store).res
         == Succeeded(v.(posStart := Some(ps2), posEnd := Some(pe2), context := Some(ctx)))
  {
    BindLocal(st1, ctx.table, TextOf(tok), v);
  }

  /** A named definition can be looked up by its name right away (which is what lets a
      function call itself). */
  lemma DefinitionIsBound(n: Node, ctx: Context, st: Store)
    requires n.FuncDefNode? && n.funcNameTok.Some? && ctx.table < |st.tables|
    ensures Get(EvalFuncDef(n, ctx, st).store, ctx.table, TextOf(n.funcNameTok.value))
      == EvalFuncDef(n, ctx, st).res.value
  {
    BindLocal(st, ctx.table, TextOf(n.funcNameTok.value), EvalFuncDef(n, ctx, st).res.value.value);
  }

  /** AND does not short-circuit: with a false left operand the right one is still
      evaluated, and its error is the result. */
  lemma AndEvaluatesBothSides(n: Node, ctx: Context, st: Store, caps: Capabilities, fuel: nat, l: Value, st1: Store,
                              e: RTError, st2: Store)
    requires n.BinOpNode? && OperatorOf(n.opTok) == Some(And)
    requires Eval(n.leftNode, ctx, st, caps, fuel) == Done(Succeeded(l), st1) && !IsTrue(l)
    requires Eval(n.rightNode, ctx, st1, caps, fuel) == Done(Failed(e), st2)
    ensures EvalBinOp(n, ctx, st, caps, fuel) == Done(Failed(e), st2)
  {
  }

  /** A signal from the left operand is the result; the right operand is not evaluated. */
  lemma LeftSignalSkipsRight(n: Node, ctx: Context, st: Store, caps: Capabilities, fuel: nat)
    requires n.BinOpNode?
    requires Eval(n.leftNode, ctx, st, caps, fuel).Done? && Eval(n.leftNode, ctx, st, caps, fuel).res.ShouldReturn()
    ensures EvalBinOp(n, ctx, st, caps, fuel) == Eval(n.leftNode, ctx, st, caps, fuel)
  {
  }

  /** No PIPE expression ever yields a value: it passes on a signal from its left
      operand, and otherwise raises NameError. */
  lemma PipeNeverYields(n: Node, ctx: Context, st: Store, caps: Capabilities, fuel: nat)
    requires n.PipeNode?
    ensures Eval(n, ctx, st, caps, fuel).Done? ==> Eval(n, ctx, st, caps, fuel).res.ShouldReturn()
    ensures fuel > 0 && Plain(Eval(n.leftNode, ctx, st, caps, fuel - 1)) ==>
      Eval(n, ctx, st, caps, fuel) == Halted(Crash("NameError"))
  {
  }

  /** IF whose conditions are all false and that has no ELSE is null. */
  lemma {:induction false} NoTrueCaseIsNull(cases: seq<Case>, ctx: Context, st: Store, caps: Capabilities, fuel: nat)
    requires forall i, s: Store :: 0 <= i < |cases| ==> Yields(Eval(cases[i].condition, ctx, s, caps, fuel), false)
    ensures EvalCases(cases, None, ctx, st, caps, fuel).Done?
    ensures EvalCases(cases, None, ctx, st, caps, fuel).res == Succeeded(Null)
    decreases |cases|
  {
    if |cases| > 0 {
      var t := Eval(cases[0].condition, ctx, st, caps, fuel);
      assert Yields(t, false);
      var rest := cases[1..];
      forall i, s: Store | 0 <= i < |rest|
        ensures Yields(Eval(rest[i].condition, ctx, s, caps, fuel), false)
      {
        assert rest[i] == cases[i + 1];
      }
      NoTrueCaseIsNull(rest, ctx, t.store, caps, fuel);
    }
  }

  /** IF whose conditions before case `k` are false and leave the store as it is, and
      whose case `k` condition is true the same way, is case `k`'s branch. */
  lemma {:induction false} IfFirstTrueCase(cases: seq<Case>, elseCase: Option<ElseCase>, k: nat, ctx: Context,
                                           st: Store, caps: Capabilities, fuel: nat)
    requires k < |cases|
    requires forall i, s: Store :: 0 <= i < k ==>
      Yields(Eval(cases[i].condition, ctx, s, caps, fuel), false) && Eval(cases[i].condition, ctx, s, caps, fuel).store == s
    requires Yields(Eval(cases[k].condition, ctx, st, caps, fuel), true) && Eval(cases[k].condition, ctx, st, caps, fuel).store == st
    ensures EvalCases(cases, elseCase, ctx, st, caps, fuel) == EvalBranch(cases[k].body, cases[k].returnsNull, ctx, st, caps, fuel)
    decreases k
  {
    if k > 0 {
      var t := Eval(cases[0].condition, ctx, st, caps, fuel);
      assert Yields(t, false) && t.store == st;
      var rest := cases[1..];
      forall i, s: Store | 0 <= i < k - 1
        ensures Yields(Eval(rest[i].condition, ctx, s, caps, fuel), false) && Eval(rest[i].condition, ctx, s, caps, fuel).store == s
      {
        assert rest[i] == cases[i + 1];
      }
      assert rest[k - 1] == cases[k];
      IfFirstTrueCase(rest, elseCase, k - 1, ctx, st, caps, fuel);
    }
  }

  /** IF whose conditions are all false and leave the store as it is, with an ELSE, is
      the ELSE branch. */
  lemma {:induction false} IfElseWhenNoneTrue(cases: seq<Case>, e: ElseCase, ctx: Context, st: Store,
                                              caps: Capabilities, fuel: nat)
    requires forall i, s: Store :: 0 <= i < |cases| ==>
      Yields(Eval(cases[i].condition, ctx, s, caps, fuel), false) && Eval(cases[i].condition, ctx, s, caps, fuel).store == s
    ensures EvalCases(cases, Some(e), ctx, st, caps, fuel) == EvalBranch(e.body, e.returnsNull, ctx, st, caps, fuel)
    decreases |cases|
  {
    if |cases| > 0 {
      var t := Eval(cases[0].condition, ctx, st, caps, fuel);
      assert Yields(t, false) && t.store == st;
      var rest := cases[1..];
      forall i, s: Store | 0 <= i < |rest|
        ensures Yields(Eval(rest[i].condition, ctx, s, caps, fuel), false) && Eval(rest[i].condition, ctx, s, caps, fuel).store == s
      {
        assert rest[i] == cases[i + 1];
      }
      IfElseWhenNoneTrue(rest, e, ctx, st, caps, fuel);
    }
  }

  /** `m` with `vs` in front of its values; a cut stays as it is. */
  function Prefixed(vs: seq<Value>, m: Many): (r: Many)
    ensures m.All? ==> r.All? && r.values == vs + m.values && r.store == m.store
    ensures m.Cut? ==> r == m
  {
    match m
    case All(ws, s) => All(vs + ws, s)
    case Cut(_) => m
  }

  /** Evaluating `ns + rest` evaluates `ns` first and `rest` from the store it leaves; a
      signal in `ns` ends it before `rest` is evaluated. */
  lemma {:induction false} EvalAllAppend(ns: seq<Node>, rest: seq<Node>, ctx: Context, st: Store, caps: Capabilities,
                                         fuel: nat)
    ensures var m := EvalAll(ns, ctx, st, caps, fuel);
      EvalAll(ns + rest, ctx, st, caps, fuel)
        == if m.Cut? then m else Prefixed(m.values, EvalAll(rest, ctx, m.store, caps, fuel))
    decreases |ns|
  {
    if |ns| == 0 {
      assert ns + rest == rest;
      var m := EvalAll(rest, ctx, st, caps, fuel);
      if m.All? {
        assert [] + m.values == m.values;
      }
    } else {
      assert (ns + rest)[0] == ns[0];
      assert (ns + rest)[1..] == ns[1..] + rest;
      match Eval(ns[0], ctx, st, caps, fuel)
      case Halted(_) =>
      case Done(c, st1) =>
        if !c.ShouldReturn() {
          EvalAllAppend(ns[1..], rest, ctx, st1, caps, fuel);
          var m1 := EvalAll(ns[1..], ctx, st1, caps, fuel);
          if m1.All? {
            var m2 := EvalAll(rest, ctx, m1.store, caps, fuel);
            if m2.All? {
              assert [c.value.value] + (m1.values + m2.values) == ([c.value.value] + m1.values) + m2.values;
            }
          }
        }
    }
  }

  /** A list literal whose elements all finish is a new List holding their values in
      order; a signal from an element is the result. */
  lemma ListLiteralHoldsElements(n: Node, ctx: Context, st: Store, caps: Capabilities, fuel: nat)
    requires n.ListNode?
    ensures var m := EvalAll(n.elementNodes, ctx, st, caps, fuel);
      var o := EvalList(n, ctx, st, caps, fuel);
      (m.Cut? ==> o == m.out)
      && (m.All? ==> o.Done? && Plain(o) && o.res.value.value.kind.ref == |m.store.lists|
                     && ListAt(o.store, o.res.value.value.kind.ref) == m.values)
  {
  }

  /** BinOp on two plain operands applies the operator the token selects to them, and
      stamps a produced value with the node's span; an error it raises is the result. A
      token that selects no operator is Python's UnboundLocalError. */
  lemma BinOpAppliesOperator(n: Node, ctx: Context, st: Store, caps: Capabilities, fuel: nat, l: Value, st1: Store,
                             r: Value, st2: Store)
    requires n.BinOpNode?
    requires Eval(n.leftNode, ctx, st, caps, fuel) == Done(Succeeded(l), st1)
    requires Eval(n.rightNode, ctx, st1, caps, fuel) == Done(Succeeded(r), st2)
    ensures OperatorOf(n.opTok).None? ==> EvalBinOp(n, ctx, st, caps, fuel) == Halted(Crash("UnboundLocalError"))
    ensures OperatorOf(n.opTok).Some? ==>
      var (result, st3) := Apply(OperatorOf(n.opTok).value, l, r, st2);
      (result.Produced? ==>
         EvalBinOp(n, ctx, st, caps, fuel)
           == Done(Succeeded(result.value.(posStart := Some(n.posStart), posEnd := Some(n.posEnd))), st3))
      && (result.Raised? ==> EvalBinOp(n, ctx, st, caps, fuel) == Done(Failed(result.error), st3))
  {
  }

  /** A signal from the right operand, after a plain left one, is the result. */
  lemma RightSignalIsResult(n: Node, ctx: Context, st: Store, caps: Capabilities, fuel: nat, l: Value, st1: Store)
    requires n.BinOpNode?
    requires Eval(n.leftNode, ctx, st, caps, fuel) == Done(Succeeded(l), st1)
    requires Eval(n.rightNode, ctx, st1, caps, fuel).Done? && Eval(n.rightNode, ctx, st1, caps, fuel).res.ShouldReturn()
    ensures EvalBinOp(n, ctx, st, caps, fuel) == Eval(n.rightNode, ctx, st1, caps, fuel)
  {
  }

  /** `NOT x` on a Number is 1 when `x` is false and 0 when it is true, at the node's span;
      on any other value it is a TypeError. */
  lemma NotGivesFlag(n: Node, ctx: Context, st: Store, caps: Capabilities, fuel: nat, v: Value, st1: Store)
    requires n.UnaryOpNode? && n.opTok.kind == KEYWORD && n.opTok.value == Text("NOT")
    requires Eval(n.operand, ctx, st, caps, fuel) == Done(Succeeded(v), st1)
    ensures !v.kind.NumberV? ==> EvalUnaryOp(n, ctx, st, caps, fuel) == Halted(Crash("TypeError"))
    ensures v.kind.NumberV? ==>
      var o := EvalUnaryOp(n, ctx, st, caps, fuel);
      o == Done(Succeeded(Value(NumberV(Flag(!IsTrue(v))), Some(n.posStart), Some(n.posEnd), v.context)), st1)
      && IsTrue(o.res.value.value) == !IsTrue(v)
  {
  }

  /** `-x` is `x * -1`: on an int the negated int, on any Number the value times -1, at
      the node's span. */
  lemma NegationMultipliesByMinusOne(n: Node, ctx: Context, st: Store, caps: Capabilities, fuel: nat, v: Value,
                                     st1: Store)
    requires n.UnaryOpNode? && n.opTok.kind == MINUS
    requires Eval(n.operand, ctx, st, caps, fuel) == Done(Succeeded(v), st1)
    ensures v.kind.NumberV? ==>
      var o := EvalUnaryOp(n, ctx, st, caps, fuel);
      Plain(o) && o.store == st1 && o.res.value.value.kind.NumberV?
      && ToReal(o.res.value.value.kind.n) == -ToReal(v.kind.n)
      && (v.kind.n.Int? ==> o.res.value.value.kind.n == Int(-v.kind.n.i))
  {
  }

  /** A unary operator other than `-` and NOT leaves the operand's value as it is, at the
      node's span. */
  lemma OtherUnaryKeepsValue(n: Node, ctx: Context, st: Store, caps: Capabilities, fuel: nat, v: Value, st1: Store)
    requires n.UnaryOpNode? && n.opTok.kind != MINUS && !(n.opTok.kind == KEYWORD && n.opTok.value == Text("NOT"))
    requires Eval(n.operand, ctx, st, caps, fuel) == Done(Succeeded(v), st1)
    ensures EvalUnaryOp(n, ctx, st, caps, fuel) == Done(Succeeded(v.(posStart := Some(n.posStart), posEnd := Some(n.posEnd))), st1)
  {
  }

  /** FOR over plain number bounds runs the loop from the store the bounds leave and
      builds the loop value from what it collects. */
  lemma ForIsLoopValue(n: Node, ctx: Context, st: Store, caps: Capabilities, fuel: nat, s: Value, st1: Store,
                       e: Value, st2: Store, p: Value, st3: Store)
    requires n.ForNode?
    requires Eval(n.startValueNode, ctx, st, caps, fuel) == Done(Succeeded(s), st1)
    requires Eval(n.endValueNode, ctx, st1, caps, fuel) == Done(Succeeded(e), st2)
    requires EvalStep(n.stepValueNode, ctx, st2, caps, fuel) == Done(Succeeded(p), st3)
    requires s.kind.NumberV? && e.kind.NumberV? && p.kind.NumberV?
    ensures var m := ForLoop(TextOf(n.varNameTok), s.kind.n, e.kind.n, p.kind.n, n.bodyNode, ctx, st3, caps, [], fuel);
      EvalFor(n, ctx, st, caps, fuel)
        == if m.Cut? then m.out else LoopValue(n.shouldReturnNull, m.values, n.posStart, n.posEnd, ctx, m.store)
  {
  }

  /** WHILE builds the loop value from what the loop collects; a condition that is false
      at once gives null or the empty list. */
  lemma WhileIsLoopValue(n: Node, ctx: Context, st: Store, caps: Capabilities, fuel: nat)
    requires n.WhileNode?
    ensures var m := WhileLoop(n.conditionNode, n.bodyNode, ctx, st, caps, [], fuel);
      EvalWhile(n, ctx, st, caps, fuel)
        == if m.Cut? then m.out else LoopValue(n.shouldReturnNull, m.values, n.posStart, n.posEnd, ctx, m.store)
    ensures fuel > 0 && Yields(Eval(n.conditionNode, ctx, st, caps, fuel), false) ==>
      EvalWhile(n, ctx, st, caps, fuel)
        == LoopValue(n.shouldReturnNull, [], n.posStart, n.posEnd, ctx, Eval(n.conditionNode, ctx, st, caps, fuel).store)
  {
  }

  /** Arguments are evaluated left to right after the callee, and the first signal among
      them is the call's result: later arguments and the body are not evaluated. */
  lemma ArgumentSignalAbortsCall(n: Node, ctx: Context, st: Store, caps: Capabilities, fuel: nat, f: Value,
                                 st1: Store, k: nat, vs: seq<Value>, s: Store)
    requires n.CallNode? && k < |n.argNodes|
    requires Eval(n.nodeToCall, ctx, st, caps, fuel) == Done(Succeeded(f), st1)
    requires EvalAll(n.argNodes[..k], ctx, st1, caps, fuel) == All(vs, s)
    requires Eval(n.argNodes[k], ctx, s, caps, fuel).Done? && Eval(n.argNodes[k], ctx, s, caps, fuel).res.ShouldReturn()
    ensures EvalCall(n, ctx, st, caps, fuel) == Eval(n.argNodes[k], ctx, s, caps, fuel)
  {
    var args := n.argNodes;
    EvalAllAppend(args[..k], args[k..], ctx, st1, caps, fuel);
    assert args[..k] + args[k..] == args;
    assert args[k..][0] == args[k];
  }

  /** A call whose callee is a function with a context and whose arguments match its
      parameters runs the body in the new context: a signal without a return value
      reaches the caller unchanged; otherwise the result is the returned value, or the
      body's value under auto-return, or null, stamped with the call span and the
      caller's context. */
  lemma CallResultOfBody(n: Node, ctx: Context, st: Store, caps: Capabilities, fuel: nat, f: Value, st1: Store,
                         args: seq<Value>, st2: Store, c: Res, st4: Store)
    requires n.CallNode?
    requires Eval(n.nodeToCall, ctx, st, caps, fuel) == Done(Succeeded(f), st1)
    requires f.kind.FunctionV? && f.context.Some?
    requires EvalAll(n.argNodes, ctx, st1, caps, fuel) == All(args, st2) && |args| == |f.kind.argNames|
    requires var (execCtx, st3) := NewContext(Stamp(f, n.posStart, n.posEnd), st2).value;
      Eval(f.kind.body, execCtx, Populate(f.kind.argNames, args, execCtx, st3), caps, fuel) == Done(c, st4)
    ensures c.ShouldReturn() && c.funcReturnValue.None? ==> EvalCall(n, ctx, st, caps, fuel) == Done(c, st4)
    ensures c.funcReturnValue.Some? ==>
      EvalCall(n, ctx, st, caps, fuel)
        == Done(Succeeded(c.funcReturnValue.value.(posStart := Some(n.posStart), posEnd := Some(n.posEnd), context := Some(ctx))), st4)
    ensures !c.ShouldReturn() ==>
      EvalCall(n, ctx, st, caps, fuel)
        == Done(Succeeded((if f.kind.autoReturn then c.value.value else Null)
                          .(posStart := Some(n.posStart), posEnd := Some(n.posEnd), context := Some(ctx))), st4)
  {
    var g := Stamp(f, n.posStart, n.posEnd);
    var (execCtx, st3) := NewContext(g, st2).value;
    assert CheckAndPopulate(g, f.kind.argNames, args, execCtx, st3) == Ok(Populate(f.kind.argNames, args, execCtx, st3));
    assert Execute(g, args, st2, caps, fuel)
      == RunBody(f.kind.body, f.kind.autoReturn, execCtx, Populate(f.kind.argNames, args, execCtx, st3), caps, fuel);
  }

  /** RETURN signals the value of its expression; a signal from the expression is the
      result instead. */
  lemma ReturnSignalsValue(n: Node, ctx: Context, st: Store, caps: Capabilities, fuel: nat)
    requires n.ReturnNode? && n.nodeToReturn.Some?
    ensures var t := Eval(n.nodeToReturn.value, ctx, st, caps, fuel);
      (Plain(t) ==> EvalReturn(n, ctx, st, caps, fuel) == Done(Returned(t.res.value.value), t.store))
      && (t.Done? && t.res.ShouldReturn() ==> EvalReturn(n, ctx, st, caps, fuel) == t)
  {
  }

  /** EMBED on a text that is not a String is the error at the node; the text is not
      sent to the back end. */
  lemma EmbedRejectsNonString(n: Node, ctx: Context, st: Store, caps: Capabilities, fuel: nat, t: Value, st1: Store)
    requires n.EmbedNode?
    requires Eval(n.textNode, ctx, st, caps, fuel) == Done(Succeeded(t), st1) && !t.kind.StringV?
    ensures EvalEmbed(n, ctx, st, caps, fuel)
      == Done(Failed(RTError(Some(n.posStart), Some(n.posEnd), "First argument must be a string", Some(ctx))), st1)
  {
  }

  /** EMBED on a String asks the back end with model 'default' when no model is given,
      else with the model's `value`; its vector becomes a new List of floats without a
      span, and its failure the error "Error generating embedding: " and the message at
      the node. */
  lemma EmbedUsesBackEnd(n: Node, ctx: Context, st: Store, caps: Capabilities, fuel: nat, t: Value, st1: Store,
                         model: Raw, st2: Store)
    requires n.EmbedNode?
    requires Eval(n.textNode, ctx, st, caps, fuel) == Done(Succeeded(t), st1) && t.kind.StringV?
    requires (n.modelNode.None? && model == RawText("default") && st2 == st1)
      || (n.modelNode.Some? && exists mv :: Eval(n.modelNode.value, ctx, st1, caps, fuel) == Done(Succeeded(mv), st2)
                                          && RawOf(mv) == Some(model))
    ensures var o := EvalEmbed(n, ctx, st, caps, fuel);
      var answer := caps.embed(t.kind.s, model);
      (answer.Ok? ==> Plain(o) && o.res.value.value == Value(ListV(|st2.lists|), None, None, None)
                      && ListAt(o.store, |st2.lists|) == FloatValues(answer.value))
      && (answer.Err? ==> o == Done(Failed(RTError(Some(n.posStart), Some(n.posEnd),
                                      "Error generating embedding: " + answer.error, Some(ctx))), st2))
  {
  }

  /** AI asks the back end with the model's name and the arguments' `value`s in order; a
      text or number answer becomes a String or Number, a list answer a new List of
      them; a failure is the error at the node with the back end's message. */
  lemma AIAnswerConverted(n: Node, ctx: Context, st: Store, caps: Capabilities, fuel: nat, vs: seq<Value>, st1: Store)
    requires n.AICallNode?
    requires EvalRawArgs(n.args, ctx, st, caps, fuel) == All(vs, st1)
    ensures var o := EvalAICall(n, ctx, st, caps, fuel);
      var answer := caps.callModel(TextOf(n.modelName), RawsOf(vs));
      (answer.Err? ==> o == Done(Failed(RTError(Some(n.posStart), Some(n.posEnd), answer.error, Some(ctx))), st1))
      && (answer.Ok? && answer.value.AnswerText? ==> o == Done(Succeeded(StringValue(answer.value.s, None)), st1))
      && (answer.Ok? && answer.value.AnswerNumber? ==> o == Done(Succeeded(NumberValue(answer.value.n, None)), st1))
      && (answer.Ok? && answer.value.AnswerList? ==>
            Plain(o) && o.res.value.value == Value(ListV(|st1.lists|), None, None, None)
            && ListAt(o.store, |st1.lists|) == RawValues(answer.value.items))
  {
  }

  /** `x.value` of a value made from a raw value is that raw value. */
  lemma RawRoundTrip(x: Raw)
    ensures RawOf(RawValue(x)) == Some(x)
  {
  }
}
