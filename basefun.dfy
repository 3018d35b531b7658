/** What every function value shares: its name, the context a call runs in, and the
    arity check and argument binding done before the body runs. */
module BaseFun {

  import opened Utils
  import opened Values

  /** The constructor keeps a non-empty name; a missing or empty one becomes
      "<anonymous>". */
  function FunctionName(name: Option<string>): (r: string)
    ensures name.Some? && name.value != "" ==> r == name.value
    ensures name.None? || name.value == "" ==> r == "<anonymous>"
    ensures r != ""
  {
    if name.Some? && name.value != "" then name.value else "<anonymous>"
  }

  /** How a function value prints (and so how the arity messages name it). */
  function Describe(name: string): string {
    "<function " + name + ">"
  }

  /** generate_new_context: a child context named after the function, whose parent is
      the function's own context and whose entry position is the function's start; its
      new symbol table has the parent context's table as parent. A function value with
      no context fails on the missing table (AttributeError): None. */
  function NewContext(f: Value, st: Store): (r: Option<(Context, Store)>)
    requires f.kind.FunctionV?
    ensures r.Some? <==> f.context.Some?
    ensures r.Some? ==>
      var (ctx, st') := r.value;
      ctx.displayName == f.kind.name && ctx.parent == f.context && ctx.parentEntryPos == f.posStart
      && ctx.table == |st.tables| && st' == NewTable(st, Some(f.context.value.table)).0
  {
    if f.context.None? then None
    else
      var (st', t) := NewTable(st, Some(f.context.value.table));
      Some((Context(f.kind.name, f.context, f.posStart, t), st'))
  }

  /** Until something is bound in it, the new context reads exactly what the function's
      own context reads. */
  lemma NewContextSeesParent(f: Value, st: Store, name: string)
    requires f.kind.FunctionV? && f.context.Some? && f.context.value.table < |st.tables|
    ensures var (ctx, st') := NewContext(f, st).value;
      Get(st', ctx.table, name) == Get(st, f.context.value.table, name)
  {
    NewTableReadsParent(st, f.context.value.table, name);
  }

  /** check_args: the call is well-formed iff it passes exactly as many arguments as the
      function names; otherwise the error, at the function's span and in its context,
      says by how many the count is off and in which direction. */
  function CheckArgs(f: Value, argNames: seq<string>, args: seq<Value>): (r: Option<RTError>)
    requires f.kind.FunctionV?
    ensures r.None? <==> |args| == |argNames|
    ensures r.Some? ==> r.value.posStart == f.posStart && r.value.posEnd == f.posEnd && r.value.context == f.context
    ensures |args| > |argNames| ==> r.value.details == ArityMessage(|args| - |argNames|, true, f.kind.name)
    ensures |args| < |argNames| ==> r.value.details == ArityMessage(|argNames| - |args|, false, f.kind.name)
  {
    if |args| > |argNames| then
      Some(RTError(f.posStart, f.posEnd, ArityMessage(|args| - |argNames|, true, f.kind.name), f.context))
    else if |args| < |argNames| then
      Some(RTError(f.posStart, f.posEnd, ArityMessage(|argNames| - |args|, false, f.kind.name), f.context))
    else None
  }

  /** "k too many args passed into <function name>", or "too few". */
  function ArityMessage(k: nat, tooMany: bool, name: string): string {
    NatToString(k) + (if tooMany then " too many args passed into " else " too few args passed into ")
    + Describe(name)
  }

  /** The arity message names the difference: different counts give different messages. */
  lemma ArityMessageNamesTheCount(k1: nat, k2: nat, tooMany: bool, name: string)
    requires ArityMessage(k1, tooMany, name) == ArityMessage(k2, tooMany, name)
    ensures k1 == k2
  {
    var tail := (if tooMany then " too many args passed into " else " too few args passed into ") + Describe(name);
    assert ArityMessage(k1, tooMany, name) == NatToString(k1) + tail;
    assert ArityMessage(k2, tooMany, name) == NatToString(k2) + tail;
    SameSuffixSamePrefix(NatToString(k1), NatToString(k2), tail);
    NatToStringInjective(k1, k2);
  }

  lemma SameSuffixSamePrefix(a: string, b: string, tail: string)
    requires a + tail == b + tail
    ensures a == b
  {
    assert |a| == |b|;
    assert a == (a + tail)[..|a|];
    assert b == (b + tail)[..|b|];
  }

  /** An argument as bound: the value itself, now in the new context. */
  function Bound(arg: Value, ctx: Context): Value {
    arg.(context := Some(ctx))
  }

  /** populate_args: binds `args[i]` under `argNames[i]` in the new context's table, in
      order, for every argument. */
  function Populate(argNames: seq<string>, args: seq<Value>, ctx: Context, st: Store): (r: Store)
    requires |args| <= |argNames|
    ensures r.lists == st.lists && |r.tables| == |st.tables|
    decreases |args|
  {
    if |args| == 0 then st
    else
      var k := |args| - 1;
      Bind(Populate(argNames, args[..k], ctx, st), ctx.table, argNames[k], Bound(args[k], ctx))
  }

  /** After binding, each parameter reads back its argument (in the new context), provided
      the parameter names are distinct. */
  lemma {:induction false} PopulateBinds(argNames: seq<string>, args: seq<Value>, ctx: Context, st: Store, i: nat)
    requires |args| <= |argNames| && i < |args| && ctx.table < |st.tables|
    requires forall a, b :: 0 <= a < b < |argNames| ==> argNames[a] != argNames[b]
    ensures Get(Populate(argNames, args, ctx, st), ctx.table, argNames[i]) == Some(Bound(args[i], ctx))
    decreases |args|
  {
    var k := |args| - 1;
    var before := Populate(argNames, args[..k], ctx, st);
    if i == k {
      BindLocal(before, ctx.table, argNames[k], Bound(args[k], ctx));
    } else {
      PopulateBinds(argNames, args[..k], ctx, st, i);
      BindKeepsOtherNames(before, ctx.table, ctx.table, argNames[k], argNames[i], Bound(args[k], ctx));
    }
  }

  /** Binding touches only the new context's table: every other table is as before. */
  lemma {:induction false} PopulateLocal(argNames: seq<string>, args: seq<Value>, ctx: Context, st: Store, u: nat)
    requires |args| <= |argNames| && u < |st.tables| && u != ctx.table
    ensures Populate(argNames, args, ctx, st).tables[u] == st.tables[u]
    decreases |args|
  {
    if |args| > 0 {
      PopulateLocal(argNames, args[..|args| - 1], ctx, st, u);
    }
  }

  /** populate_args as the engine runs it: a loop writing one binding per argument. The
      arguments' own objects are re-stamped with the new context, which here is the
      context of the bound copy. */
  method PopulateArgs(heap: Heap, argNames: seq<string>, args: seq<Value>, ctx: Context)
    requires |args| <= |argNames| && ctx.table < |heap.tables|
    modifies heap
    ensures heap.State() == Populate(argNames, args, ctx, old(heap.State()))
  {
    var i := 0;
    while i < |args|
      invariant 0 <= i <= |args| && |heap.tables| == |old(heap.tables)|
      invariant heap.State() == Populate(argNames, args[..i], ctx, old(heap.State()))
    {
      assert args[..i + 1][..i] == args[..i];
      heap.Set(ctx.table, argNames[i], Bound(args[i], ctx));
      i := i + 1;
    }
    assert args[..|args|] == args;
  }

  /** check_and_populate_args: binds nothing when the arity check fails. */
  function CheckAndPopulate(f: Value, argNames: seq<string>, args: seq<Value>, ctx: Context, st: Store): (r: Result<Store, RTError>)
    requires f.kind.FunctionV?
    ensures r.Err? <==> |args| != |argNames|
    ensures r.Err? ==> Some(r.error) == CheckArgs(f, argNames, args)
    ensures r.Ok? ==> r.value == Populate(argNames, args, ctx, st)
  {
    match CheckArgs(f, argNames, args)
    case Some(e) => Err(e)
    case None => Ok(Populate(argNames, args, ctx, st))
  }
}
