/** The FOR and WHILE loops as the interpreter runs them: a `while` statement that
    rebinds the loop variable, advances the counter, runs the body and appends its
    value, each proved to produce what the loop rules of the evaluator describe. */
module InterpreterLoops {

  import opened Utils
  import opened Runtime
  import opened Nodes
  import opened Values
  import opened Interpreter

  /** visit_ForNode's loop: `i` starts at the evaluated start value and advances by the
      step after each binding; the elements are the plain body values. */
  method RunFor(name: string, start: Num, end: Num, step: Num, body: Node, ctx: Context, st: Store,
                caps: Capabilities, fuel: nat) returns (m: Many)
    ensures m == ForLoop(name, start, end, step, body, ctx, st, caps, [], fuel)
  {
    var i := start;
    var store := st;
    var elements: seq<Value> := [];
    var f := fuel;
    while ForTest(i, end, step)
      invariant ForLoop(name, i, end, step, body, ctx, store, caps, elements, f)
        == ForLoop(name, start, end, step, body, ctx, st, caps, [], fuel)
      decreases f
    {
      if f == 0 {
        return Cut(Halted(OutOfFuel));
      }
      var b := Eval(body, ctx, Bind(store, ctx.table, name, NumberValue(i, None)), caps, f);
      i := Arith(Add, i, step);
      if b.Halted? {
        return Cut(b);
      }
      var c := b.res;
      if c.ShouldReturn() && !c.loopShouldContinue && !c.loopShouldBreak {
        return Cut(Done(Pass(c), b.store));
      } else if c.loopShouldContinue {
        store, f := b.store, f - 1;
      } else if c.loopShouldBreak {
        return All(elements, b.store);
      } else {
        store, elements, f := b.store, elements + [c.value.value], f - 1;
      }
    }
    m := All(elements, store);
  }

  /** visit_WhileNode's loop: the condition is evaluated before every iteration. */
  method RunWhile(cond: Node, body: Node, ctx: Context, st: Store, caps: Capabilities, fuel: nat) returns (m: Many)
    ensures m == WhileLoop(cond, body, ctx, st, caps, [], fuel)
  {
    var store := st;
    var elements: seq<Value> := [];
    var f := fuel;
    while true
      invariant WhileLoop(cond, body, ctx, store, caps, elements, f) == WhileLoop(cond, body, ctx, st, caps, [], fuel)
      decreases f
    {
      if f == 0 {
        return Cut(Halted(OutOfFuel));
      }
      var t := Eval(cond, ctx, store, caps, f);
      assert WhileLoop(cond, body, ctx, store, caps, elements, f) == WhileTested(cond, body, ctx, t, caps, elements, f);
      if t.Halted? {
        return Cut(t);
      } else if t.res.ShouldReturn() {
        return Cut(Done(Pass(t.res), t.store));
      } else if !IsTrue(t.res.value.value) {
        return All(elements, t.store);
      }
      var b := Eval(body, ctx, t.store, caps, f);
      assert WhileTested(cond, body, ctx, t, caps, elements, f) == match AfterBody(b, elements)
        case Stop(m) => m
        case Next(st2, acc2) => WhileLoop(cond, body, ctx, st2, caps, acc2, f - 1);
      if b.Halted? {
        return Cut(b);
      }
      var c := b.res;
      if c.ShouldReturn() && !c.loopShouldContinue && !c.loopShouldBreak {
        return Cut(Done(Pass(c), b.store));
      } else if c.loopShouldContinue {
        store, f := b.store, f - 1;
      } else if c.loopShouldBreak {
        return All(elements, b.store);
      } else {
        store, elements, f := b.store, elements + [c.value.value], f - 1;
      }
    }
  }
}
