/** Runtime values, contexts and symbol tables of the interpreter.

    A value is an immutable record of its kind, its span and its context. The two kinds of
    engine object that are mutated in place and shared between values (symbol tables and
    the element lists of List values) live in a `Store` and are referred to by index. So a
    List value holds the index of its element storage, and the copies that `List.copy`
    makes share that storage exactly as the engine's copies share one Python list.

    The operations are functions over values and the store; the class `Heap` at the end
    performs the mutating ones (table writes and the list operators) in place and is
    proved to leave the store those functions describe. */
module Values {

  import opened Utils
  import opened Lexer
  import opened Nodes

  /** A number is an int or a float; floats are exact reals (rounding is not modelled). */
  datatype Num = Int(i: int) | Float(r: real)

  function ToReal(n: Num): real {
    match n
    case Int(i) => i as real
    case Float(r) => r
  }

  predicate IsZero(n: Num) {
    ToReal(n) == 0.0
  }

  /** A context: display name, the enclosing context, where it was entered, and the index
      of its symbol table in the store. */
  datatype Context = Context(displayName: string, parent: Option<Context>,
                             parentEntryPos: Option<Position>, table: nat)

  datatype Kind =
    | NumberV(n: Num)
    | StringV(s: string)
    | ListV(ref: nat)
    | FunctionV(name: string, body: Node, argNames: seq<string>, autoReturn: bool)

  /** A value with the span and context its object carries (each absent until set). */
  datatype Value = Value(kind: Kind, posStart: Option<Position>, posEnd: Option<Position>,
                         context: Option<Context>)

  /** A runtime error: span, message and the context it was raised in. */
  datatype RTError = RTError(posStart: Option<Position>, posEnd: Option<Position>, details: string,
                             context: Option<Context>)

  /** A symbol table: the local bindings and the index of the parent table. */
  datatype Table = Table(symbols: map<string, Value>, parent: Option<nat>)

  datatype Store = Store(tables: seq<Table>, lists: seq<seq<Value>>)

  /** `Number.null` (also `Number.false`): zero with no span and no context. */
  const Null := Value(NumberV(Int(0)), None, None, None)

  /** A number built by an operation: no span yet, the given context. */
  function NumberValue(n: Num, context: Option<Context>): Value {
    Value(NumberV(n), None, None, context)
  }

  function StringValue(s: string, context: Option<Context>): Value {
    Value(StringV(s), None, None, context)
  }

  // ----- Symbol tables -----

  /** `SymbolTable.get`: the local binding, else the parent's lookup, else nothing. A
      table's parent is always created before it, so a parent index not below the
      table's own ends the chain. */
  function Get(st: Store, t: nat, name: string): (r: Option<Value>)
    ensures t < |st.tables| && name in st.tables[t].symbols ==> r == Some(st.tables[t].symbols[name])
    ensures r.Some? ==> exists u :: 0 <= u <= t && u < |st.tables| && name in st.tables[u].symbols
                                    && r.value == st.tables[u].symbols[name]
    decreases t
  {
    if t >= |st.tables| then None
    else if name in st.tables[t].symbols then Some(st.tables[t].symbols[name])
    else match st.tables[t].parent
      case None => None
      case Some(p) => if p < t then Get(st, p, name) else None
  }

  /** The tables a lookup from `t` visits, nearest first. */
  function Chain(st: Store, t: nat): (c: seq<nat>)
    ensures forall k :: 0 <= k < |c| ==> c[k] < |st.tables|
    ensures |c| > 0 ==> c[0] == t
    decreases t
  {
    if t >= |st.tables| then []
    else match st.tables[t].parent
      case None => [t]
      case Some(p) => if p < t then [t] + Chain(st, p) else [t]
  }

  predicate BoundIn(st: Store, c: seq<nat>, k: int, name: string)
    requires forall j :: 0 <= j < |c| ==> c[j] < |st.tables|
  {
    0 <= k < |c| && name in st.tables[c[k]].symbols
  }

  /** A lookup finds a binding iff some table on the chain binds the name, and then it is
      the binding of the nearest such table. */
  lemma {:induction false} GetIsNearest(st: Store, t: nat, name: string)
    ensures (exists k :: BoundIn(st, Chain(st, t), k, name)) ==> Get(st, t, name).Some?
    ensures Get(st, t, name).Some? ==>
      exists k :: BoundIn(st, Chain(st, t), k, name)
        && (forall j :: 0 <= j < k ==> !BoundIn(st, Chain(st, t), j, name))
        && Get(st, t, name) == Some(st.tables[Chain(st, t)[k]].symbols[name])
    decreases t
  {
    var c := Chain(st, t);
    if t < |st.tables| {
      if name in st.tables[t].symbols {
        assert BoundIn(st, c, 0, name);
      } else if st.tables[t].parent.Some? && st.tables[t].parent.value < t {
        var p := st.tables[t].parent.value;
        GetIsNearest(st, p, name);
        var cp := Chain(st, p);
        assert c == [t] + cp;
        forall k | BoundIn(st, c, k, name) ensures k >= 1 && BoundIn(st, cp, k - 1, name) {
          assert k != 0;
        }
        if exists k :: BoundIn(st, c, k, name) {
          var k :| BoundIn(st, c, k, name);
          assert BoundIn(st, cp, k - 1, name);
        }
        assert Get(st, t, name) == Get(st, p, name);
        if Get(st, p, name).Some? {
          var k :| BoundIn(st, cp, k, name)
            && (forall j :: 0 <= j < k ==> !BoundIn(st, cp, j, name))
            && Get(st, p, name) == Some(st.tables[cp[k]].symbols[name]);
          assert c[k + 1] == cp[k];
          assert BoundIn(st, c, k + 1, name);
          assert Get(st, t, name) == Some(st.tables[c[k + 1]].symbols[name]);
          forall j | 0 <= j < k + 1 ensures !BoundIn(st, c, j, name) {
            if j > 0 { assert !BoundIn(st, cp, j - 1, name); }
          }
        }
      } else {
        assert c == [t];
      }
    }
  }

  /** `SymbolTable.set`: writes the local table only. */
  function Bind(st: Store, t: nat, name: string, v: Value): (r: Store)
    ensures r.lists == st.lists && |r.tables| == |st.tables|
  {
    if t < |st.tables| then
      st.(tables := st.tables[t := Table(st.tables[t].symbols[name := v], st.tables[t].parent)])
    else st
  }

  /** `SymbolTable.remove`: deletes from the local table only; a name that is not bound
      there raises KeyError (None). */
  function Unbind(st: Store, t: nat, name: string): (r: Option<Store>)
    ensures r.Some? <==> t < |st.tables| && name in st.tables[t].symbols
    ensures r.Some? ==> r.value.lists == st.lists && |r.value.tables| == |st.tables|
  {
    if t < |st.tables| && name in st.tables[t].symbols then
      Some(st.(tables := st.tables[t := Table(st.tables[t].symbols - {name}, st.tables[t].parent)]))
    else None
  }

  /** A written binding is read back from that table, and nothing else changes: every
      other table keeps its bindings and its parent. */
  lemma BindLocal(st: Store, t: nat, name: string, v: Value)
    requires t < |st.tables|
    ensures Get(Bind(st, t, name, v), t, name) == Some(v)
    ensures forall u :: 0 <= u < |st.tables| && u != t ==> Bind(st, t, name, v).tables[u] == st.tables[u]
    ensures Bind(st, t, name, v).tables[t].parent == st.tables[t].parent
  {
  }

  /** On the write's own table, a lookup of any other name is unchanged. */
  lemma {:induction false} BindKeepsOtherNames(st: Store, t: nat, u: nat, name: string, other: string, v: Value)
    requires other != name
    ensures Get(Bind(st, t, name, v), u, other) == Get(st, u, other)
    decreases u
  {
    var st' := Bind(st, t, name, v);
    if u < |st.tables| {
      assert other in st'.tables[u].symbols <==> other in st.tables[u].symbols;
      assert st'.tables[u].parent == st.tables[u].parent;
      if other !in st.tables[u].symbols && st.tables[u].parent.Some? && st.tables[u].parent.value < u {
        BindKeepsOtherNames(st, t, st.tables[u].parent.value, name, other, v);
      }
    }
  }

  /** A write into a child table never shows in the lookups of its ancestors (the
      tables below it on its chain). */
  lemma {:induction false} BindInvisibleBelow(st: Store, t: nat, u: nat, name: string, v: Value)
    requires u < t
    ensures Get(Bind(st, t, name, v), u, name) == Get(st, u, name)
    decreases u
  {
    var st' := Bind(st, t, name, v);
    if u < |st.tables| {
      assert st'.tables[u] == st.tables[u];
      if name !in st.tables[u].symbols && st.tables[u].parent.Some? && st.tables[u].parent.value < u {
        BindInvisibleBelow(st, t, st.tables[u].parent.value, name, v);
      }
    }
  }

  /** After a removal the name falls back on the parent chain; other names are untouched. */
  lemma UnbindFallsBack(st: Store, t: nat, name: string)
    requires t < |st.tables| && name in st.tables[t].symbols
    ensures Unbind(st, t, name).Some?
    ensures Get(Unbind(st, t, name).value, t, name)
         == (match st.tables[t].parent
             case None => None
             case Some(p) => if p < t then Get(st, p, name) else None)
  {
    var st' := Unbind(st, t, name).value;
    if st.tables[t].parent.Some? && st.tables[t].parent.value < t {
      var p := st.tables[t].parent.value;
      UnbindInvisibleBelow(st, t, p, name);
    }
  }

  lemma {:induction false} UnbindInvisibleBelow(st: Store, t: nat, u: nat, name: string)
    requires t < |st.tables| && name in st.tables[t].symbols && u < t
    ensures Get(Unbind(st, t, name).value, u, name) == Get(st, u, name)
    decreases u
  {
    var st' := Unbind(st, t, name).value;
    if u < |st.tables| {
      assert st'.tables[u] == st.tables[u];
      if name !in st.tables[u].symbols && st.tables[u].parent.Some? && st.tables[u].parent.value < u {
        UnbindInvisibleBelow(st, t, st.tables[u].parent.value, name);
      }
    }
  }

  /** A new, empty table whose parent is `parent`; it gets the next index. */
  function NewTable(st: Store, parent: Option<nat>): (r: (Store, nat))
    ensures r.1 == |st.tables| && |r.0.tables| == |st.tables| + 1 && r.0.lists == st.lists
    ensures r.0.tables[r.1] == Table(map[], parent)
    ensures r.0.tables[..|st.tables|] == st.tables
  {
    (st.(tables := st.tables + [Table(map[], parent)]), |st.tables|)
  }

  /** Allocating a table changes no lookup from an existing one. */
  lemma {:induction false} NewTableKeepsLookups(st: Store, parent: Option<nat>, u: nat, name: string)
    requires u < |st.tables|
    ensures Get(NewTable(st, parent).0, u, name) == Get(st, u, name)
    decreases u
  {
    var st' := NewTable(st, parent).0;
    assert st'.tables[u] == st.tables[u];
    if name !in st.tables[u].symbols && st.tables[u].parent.Some? && st.tables[u].parent.value < u {
      NewTableKeepsLookups(st, parent, st.tables[u].parent.value, name);
    }
  }

  /** A new table reads through to its parent until something is written into it. */
  lemma NewTableReadsParent(st: Store, p: nat, name: string)
    requires p < |st.tables|
    ensures Get(NewTable(st, Some(p)).0, NewTable(st, Some(p)).1, name) == Get(st, p, name)
  {
    NewTableKeepsLookups(st, Some(p), p, name);
  }

  // ----- List storage -----

  /** The elements stored under `ref` (none for an index that was never allocated). */
  function ListAt(st: Store, ref: nat): seq<Value> {
    if ref < |st.lists| then st.lists[ref] else []
  }

  function SetList(st: Store, ref: nat, elems: seq<Value>): (r: Store)
    ensures r.tables == st.tables && |r.lists| == |st.lists|
    ensures ref < |st.lists| ==> ListAt(r, ref) == elems
    ensures forall other :: other != ref ==> ListAt(r, other) == ListAt(st, other)
  {
    if ref < |st.lists| then st.(lists := st.lists[ref := elems]) else st
  }

  /** New element storage; it gets the next index. */
  function NewList(st: Store, elems: seq<Value>): (r: (Store, nat))
    ensures r.1 == |st.lists| && ListAt(r.0, r.1) == elems && r.0.tables == st.tables
    ensures forall other :: other != r.1 ==> ListAt(r.0, other) == ListAt(st, other)
  {
    (st.(lists := st.lists + [elems]), |st.lists|)
  }

  /** Python indexing of a sequence of length `len`: negative indexes count from the end;
      anything else out of range is an error (None). */
  function PyIndex(len: nat, i: int): (r: Option<nat>)
    ensures r.Some? <==> InPyRange(len, i)
    ensures r.Some? ==> r.value < len
  {
    if 0 <= i < len then Some(i) else if -(len as int) <= i < 0 then Some(len + i) else None
  }

  /** The indexes Python accepts for a sequence of length `len`. */
  predicate InPyRange(len: nat, i: int) {
    -(len as int) <= i < len
  }

  /** Within range, Python indexing is indexing modulo the length. */
  lemma PyIndexIsModulo(len: nat, i: int)
    requires InPyRange(len, i)
    ensures PyIndex(len, i) == Some(i % len)
  {
    if i < 0 {
      assert (len + i) % len == i % len by {
        assert len + i == i + 1 * len;
      }
    }
  }

  // ----- Arithmetic -----

  /** The binary operators values implement. */
  datatype BinaryOperator = Add | Sub | Mul | Div | Pow | Eq | Ne | Lt | Gt | Lte | Gte | And | Or

  /** The outcome of applying an operator: a value, a runtime error, a Python exception
      (the engine does not catch it), or an input outside the model. */
  datatype Op = Produced(value: Value) | Raised(error: RTError) | Crashed(exception: string) | Outside(why: string)

  /** `+ - *` keep ints as ints; any float operand makes the result a float. */
  function Arith(op: BinaryOperator, a: Num, b: Num): (r: Num)
    requires op == Add || op == Sub || op == Mul
    ensures r.Int? <==> a.Int? && b.Int?
    ensures op == Add ==> ToReal(r) == ToReal(a) + ToReal(b)
    ensures op == Sub ==> ToReal(r) == ToReal(a) - ToReal(b)
    ensures op == Mul ==> ToReal(r) == ToReal(a) * ToReal(b)
  {
    if a.Int? && b.Int? then
      Int(if op == Add then a.i + b.i else if op == Sub then a.i - b.i else a.i * b.i)
    else
      var x, y := ToReal(a), ToReal(b);
      Float(if op == Add then x + y else if op == Sub then x - y else x * y)
  }

  function IntPow(b: int, k: nat): int {
    if k == 0 then 1 else IntPow(b, k - 1) * b
  }

  function RealPow(b: real, k: nat): (r: real)
    ensures b != 0.0 ==> r != 0.0
  {
    if k == 0 then 1.0 else RealPow(b, k - 1) * b
  }

  lemma {:induction false} IntPowAsReal(b: int, k: nat)
    ensures IntPow(b, k) as real == RealPow(b as real, k)
  {
    if k > 0 {
      IntPowAsReal(b, k - 1);
    }
  }

  /** `**`: an int to a non-negative int stays an int; a negative exponent makes a float,
      and zero to a negative power raises ZeroDivisionError. A float exponent counts by
      its value when it is integral; any other exponent is outside this model. */
  function NumPow(a: Num, b: Num): (r: Op)
    ensures r.Produced? ==> r.value.kind.NumberV? && r.value == NumberValue(r.value.kind.n, None)
    ensures b.Int? && b.i >= 0 ==> r.Produced? && r.value.kind.n.Int? == a.Int?
    ensures b.Int? && b.i >= 0 ==> ToReal(r.value.kind.n) == RealPow(ToReal(a), b.i)
    ensures r.Crashed? <==> IsZero(a) && ToReal(b).Floor as real == ToReal(b) && ToReal(b) < 0.0
    ensures r.Outside? <==> ToReal(b).Floor as real != ToReal(b)
  {
    var e := ToReal(b);
    if e.Floor as real != e then Outside("a power with a fractional exponent")
    else
      var k := e.Floor;
      if k >= 0 then
        if a.Int? && b.Int? then
          IntPowAsReal(a.i, k);
          Produced(NumberValue(Int(IntPow(a.i, k)), None))
        else Produced(NumberValue(Float(RealPow(ToReal(a), k)), None))
      else if IsZero(a) then Crashed("ZeroDivisionError")
      else Produced(NumberValue(Float(1.0 / RealPow(ToReal(a), -k)), None))
  }

  /** `int(x)`: truncation toward zero. */
  function Truncate(n: Num): (r: int)
    ensures n.Int? ==> r == n.i
    ensures 0.0 <= ToReal(n) ==> r as real <= ToReal(n) < r as real + 1.0
    ensures ToReal(n) < 0.0 ==> r as real - 1.0 < ToReal(n) <= r as real
  {
    match n
    case Int(i) => i
    case Float(x) => if x >= 0.0 then x.Floor else -((-x).Floor)
  }

  /** A comparison result: 1 if it holds, else 0. */
  function Flag(b: bool): Num {
    Int(if b then 1 else 0)
  }

  /** The illegal-operation error: from the left operand's start to the right operand's
      end, in the left operand's context. */
  function IllegalOperation(self: Value, other: Value): (e: RTError)
    ensures e.details == "Illegal operation" && e.context == self.context
    ensures e.posStart == self.posStart && e.posEnd == other.posEnd
  {
    RTError(self.posStart, other.posEnd, "Illegal operation", self.context)
  }

  /** The Number methods. Every operator needs a Number on the right; results carry the
      left operand's context and no span. */
  function NumberOp(op: BinaryOperator, self: Value, other: Value): (r: Op)
    requires self.kind.NumberV?
    ensures !other.kind.NumberV? ==> r == Raised(IllegalOperation(self, other))
    ensures other.kind.NumberV? && op == Div && IsZero(other.kind.n) ==>
      r == Raised(RTError(other.posStart, other.posEnd, "Division by zero", self.context))
    ensures other.kind.NumberV? && op in {Eq, Ne, Lt, Gt, Lte, Gte, And, Or} ==>
      r.Produced? && r.value.kind.NumberV? && r.value.kind.n.Int?
    ensures other.kind.NumberV? && op in {Eq, Ne, Lt, Gt, Lte, Gte} ==>
      r.value.kind.n == Int(0) || r.value.kind.n == Int(1)
    ensures other.kind.NumberV? && op == Div && !IsZero(other.kind.n) ==>
      r.Produced? && r.value.kind.NumberV? && r.value.kind.n.Float?
      && ToReal(r.value.kind.n) * ToReal(other.kind.n) == ToReal(self.kind.n)
    ensures r.Produced? ==> r.value.posStart.None? && r.value.posEnd.None? && r.value.context == self.context
  {
    if !other.kind.NumberV? then Raised(IllegalOperation(self, other))
    else
      var a, b := self.kind.n, other.kind.n;
      var x, y := ToReal(a), ToReal(b);
      match op
      case Add => Produced(NumberValue(Arith(Add, a, b), self.context))
      case Sub => Produced(NumberValue(Arith(Sub, a, b), self.context))
      case Mul => Produced(NumberValue(Arith(Mul, a, b), self.context))
      case Div =>
        if IsZero(b) then Raised(RTError(other.posStart, other.posEnd, "Division by zero", self.context))
        else Produced(NumberValue(Float(x / y), self.context))
      case Pow =>
        var p := NumPow(a, b);
        if p.Produced? then Produced(p.value.(context := self.context)) else p
      case Eq => Produced(NumberValue(Flag(x == y), self.context))
      case Ne => Produced(NumberValue(Flag(x != y), self.context))
      case Lt => Produced(NumberValue(Flag(x < y), self.context))
      case Gt => Produced(NumberValue(Flag(x > y), self.context))
      case Lte => Produced(NumberValue(Flag(x <= y), self.context))
      case Gte => Produced(NumberValue(Flag(x >= y), self.context))
      case And => Produced(NumberValue(Int(if IsZero(a) then Truncate(a) else Truncate(b)), self.context))
      case Or => Produced(NumberValue(Int(if !IsZero(a) then Truncate(a) else Truncate(b)), self.context))
  }

  /** `NOT`: 1 for zero, else 0. Only Number defines it; on any other value the call is
      missing an argument and raises TypeError. */
  function Notted(v: Value): (r: Op)
    ensures v.kind.NumberV? <==> r.Produced?
    ensures r.Produced? ==> r.value == NumberValue(Flag(IsZero(v.kind.n)), v.context)
  {
    if v.kind.NumberV? then Produced(NumberValue(Flag(IsZero(v.kind.n)), v.context))
    else Crashed("TypeError")
  }

  /** `is_true`: a non-zero Number or a non-empty String. Lists and functions inherit the
      base method, which is always false. */
  predicate IsTrue(v: Value): (b: bool)
    ensures b ==> v.kind.NumberV? || v.kind.StringV?
    ensures v.kind.NumberV? && IsZero(v.kind.n) ==> !b
    ensures v.kind.StringV? && v.kind.s == "" ==> !b
  {
    match v.kind
    case NumberV(n) => !IsZero(n)
    case StringV(s) => |s| > 0
    case ListV(_) => false
    case FunctionV(_, _, _, _) => false
  }

  /** The String methods: `+` another String, `*` an int count, `/` a Python index, and
      `==`/`!=` against another String; every other operator is illegal. */
  function StringOp(op: BinaryOperator, self: Value, other: Value): (r: Op)
    requires self.kind.StringV?
    ensures !(op == Add || op == Mul || op == Div || op == Eq || op == Ne) ==> r == Raised(IllegalOperation(self, other))
    ensures r.Produced? ==> r.value.posStart.None? && r.value.posEnd.None? && r.value.context == self.context
  {
    match op
    case Add =>
      if other.kind.StringV? then Produced(StringValue(self.kind.s + other.kind.s, self.context))
      else Raised(IllegalOperation(self, other))
    case Mul => StringRepeat(self, other)
    case Div => StringIndex(self, other)
    case Eq =>
      if other.kind.StringV? then Produced(NumberValue(Flag(self.kind.s == other.kind.s), self.context))
      else Raised(IllegalOperation(self, other))
    case Ne =>
      if other.kind.StringV? then Produced(NumberValue(Flag(self.kind.s != other.kind.s), self.context))
      else Raised(IllegalOperation(self, other))
    case _ => Raised(IllegalOperation(self, other))
  }

  /** `*` repeats the string by an int count, giving "" for a count of zero or less; a
      float count raises TypeError. */
  function StringRepeat(self: Value, other: Value): (r: Op)
    requires self.kind.StringV?
    ensures !other.kind.NumberV? ==> r == Raised(IllegalOperation(self, other))
    ensures other.kind.NumberV? && other.kind.n.Float? ==> r.Crashed?
    ensures other.kind.NumberV? && other.kind.n.Int? ==>
      r.Produced? && r.value.kind.StringV? && r.value.context == self.context
      && |r.value.kind.s| == |self.kind.s| * (if other.kind.n.i > 0 then other.kind.n.i else 0)
      && (other.kind.n.i <= 0 ==> r.value.kind.s == "")
  {
    if !other.kind.NumberV? then Raised(IllegalOperation(self, other))
    else if other.kind.n.Float? then Crashed("TypeError")
    else Produced(StringValue(Repeat(self.kind.s, if other.kind.n.i > 0 then other.kind.n.i else 0), self.context))
  }

  /** `/` is the one-character string at a Python index; a float or out-of-range index is
      an error at the index operand (the engine catches every exception there). */
  function StringIndex(self: Value, other: Value): (r: Op)
    requires self.kind.StringV?
    ensures !other.kind.NumberV? ==> r == Raised(IllegalOperation(self, other))
    ensures other.kind.NumberV? ==>
      (r.Produced? <==> other.kind.n.Int? && InPyRange(|self.kind.s|, other.kind.n.i))
    ensures other.kind.NumberV? && !r.Produced? ==>
      r == Raised(RTError(other.posStart, other.posEnd,
        "Element at this index could not be retrieved from string because index is out of bounds", self.context))
    ensures r.Produced? ==>
      other.kind.n.Int? && InPyRange(|self.kind.s|, other.kind.n.i)
      && r.value == StringValue([self.kind.s[PyIndex(|self.kind.s|, other.kind.n.i).value]], self.context)
  {
    if !other.kind.NumberV? then Raised(IllegalOperation(self, other))
    else
      var j := if other.kind.n.Int? then PyIndex(|self.kind.s|, other.kind.n.i) else None;
      if j.Some? then Produced(StringValue([self.kind.s[j.value]], self.context))
      else Raised(RTError(other.posStart, other.posEnd,
        "Element at this index could not be retrieved from string because index is out of bounds", self.context))
  }

  /** `==` and `!=` compare two strings and give opposite flags; against anything else they
      are illegal. */
  lemma StringEquality(self: Value, other: Value)
    requires self.kind.StringV?
    ensures other.kind.StringV? ==>
      StringOp(Eq, self, other).value.kind.n == Flag(self.kind.s == other.kind.s)
      && StringOp(Ne, self, other).value.kind.n == Flag(self.kind.s != other.kind.s)
    ensures !other.kind.StringV? ==>
      StringOp(Eq, self, other).Raised? && StringOp(Ne, self, other).Raised?
  {
  }

  /** The List methods. `+`, `-` and `*` work on a copy of the left operand, and the copy
      shares the element storage, so they change the left operand's own elements. */
  function ListOp(op: BinaryOperator, self: Value, other: Value, st: Store): (r: (Op, Store))
    requires self.kind.ListV?
    ensures r.0.Produced? && op != Div ==> r.0.value == self
    ensures !r.0.Produced? || op == Div ==> r.1 == st
    ensures !(op == Add || op == Sub || op == Mul || op == Div) ==> r.0 == Raised(IllegalOperation(self, other))
    ensures forall ref :: ref != self.kind.ref ==> ListAt(r.1, ref) == ListAt(st, ref)
    ensures r.1.tables == st.tables
  {
    match op
    case Add => ListAdd(self, other, st)
    case Sub => ListPop(self, other, st)
    case Mul => ListExtend(self, other, st)
    case Div => (ListIndex(self, other, st), st)
    case _ => (Raised(IllegalOperation(self, other)), st)
  }

  /** `+` appends the right operand, whatever it is, as one element. */
  function ListAdd(self: Value, other: Value, st: Store): (r: (Op, Store))
    requires self.kind.ListV?
    ensures r.0 == Produced(self) && r.1.tables == st.tables
    ensures self.kind.ref < |st.lists| ==> ListAt(r.1, self.kind.ref) == ListAt(st, self.kind.ref) + [other]
    ensures forall ref :: ref != self.kind.ref ==> ListAt(r.1, ref) == ListAt(st, ref)
  {
    (Produced(self), SetList(st, self.kind.ref, ListAt(st, self.kind.ref) + [other]))
  }

  /** `-` pops the element at a Python index; a float or out-of-range index is an error at
      the index operand, and then nothing is removed. */
  function ListPop(self: Value, other: Value, st: Store): (r: (Op, Store))
    requires self.kind.ListV?
    ensures r.0.Produced? ==> r.0.value == self
    ensures !r.0.Produced? ==> r.1 == st
    ensures !other.kind.NumberV? ==> r.0 == Raised(IllegalOperation(self, other))
    ensures other.kind.NumberV? ==>
      (r.0.Produced? <==> other.kind.n.Int? && InPyRange(|ListAt(st, self.kind.ref)|, other.kind.n.i))
    ensures other.kind.NumberV? && !r.0.Produced? ==>
      r.0 == Raised(RTError(other.posStart, other.posEnd,
        "Element at this index could not be removed from list because index is out of bounds", self.context))
    ensures r.0.Produced? ==>
      other.kind.n.Int? && InPyRange(|ListAt(st, self.kind.ref)|, other.kind.n.i)
      && var s, j := ListAt(st, self.kind.ref), PyIndex(|ListAt(st, self.kind.ref)|, other.kind.n.i).value;
      ListAt(r.1, self.kind.ref) == s[..j] + s[j + 1..]
    ensures forall ref :: ref != self.kind.ref ==> ListAt(r.1, ref) == ListAt(st, ref)
    ensures r.1.tables == st.tables
  {
    var elems := ListAt(st, self.kind.ref);
    if !other.kind.NumberV? then (Raised(IllegalOperation(self, other)), st)
    else
      var j := if other.kind.n.Int? then PyIndex(|elems|, other.kind.n.i) else None;
      if j.Some? then
        (Produced(self), SetList(st, self.kind.ref, elems[..j.value] + elems[j.value + 1..]))
      else (Raised(RTError(other.posStart, other.posEnd,
        "Element at this index could not be removed from list because index is out of bounds", self.context)), st)
  }

  /** `*` extends with another List's elements; any other right operand is illegal. */
  function ListExtend(self: Value, other: Value, st: Store): (r: (Op, Store))
    requires self.kind.ListV?
    ensures r.0.Produced? <==> other.kind.ListV?
    ensures r.0.Produced? ==> r.0.value == self
    ensures !r.0.Produced? ==> r == (Raised(IllegalOperation(self, other)), st)
    ensures other.kind.ListV? && self.kind.ref < |st.lists| ==>
      ListAt(r.1, self.kind.ref) == ListAt(st, self.kind.ref) + ListAt(st, other.kind.ref)
    ensures forall ref :: ref != self.kind.ref ==> ListAt(r.1, ref) == ListAt(st, ref)
    ensures r.1.tables == st.tables
  {
    if other.kind.ListV? then
      (Produced(self), SetList(st, self.kind.ref, ListAt(st, self.kind.ref) + ListAt(st, other.kind.ref)))
    else (Raised(IllegalOperation(self, other)), st)
  }

  /** `/` returns the element stored at a Python index, itself and not a copy. */
  function ListIndex(self: Value, other: Value, st: Store): (r: Op)
    requires self.kind.ListV?
    ensures !other.kind.NumberV? ==> r == Raised(IllegalOperation(self, other))
    ensures other.kind.NumberV? ==>
      (r.Produced? <==> other.kind.n.Int? && InPyRange(|ListAt(st, self.kind.ref)|, other.kind.n.i))
    ensures other.kind.NumberV? && !r.Produced? ==>
      r == Raised(RTError(other.posStart, other.posEnd,
        "Element at this index could not be retrieved from list because index is out of bounds", self.context))
    ensures r.Produced? ==>
      other.kind.n.Int? && InPyRange(|ListAt(st, self.kind.ref)|, other.kind.n.i)
      && r.value == ListAt(st, self.kind.ref)[PyIndex(|ListAt(st, self.kind.ref)|, other.kind.n.i).value]
  {
    var elems := ListAt(st, self.kind.ref);
    if !other.kind.NumberV? then Raised(IllegalOperation(self, other))
    else
      var j := if other.kind.n.Int? then PyIndex(|elems|, other.kind.n.i) else None;
      if j.Some? then
        Produced(elems[j.value])
      else Raised(RTError(other.posStart, other.posEnd,
        "Element at this index could not be retrieved from list because index is out of bounds", self.context))
  }

  /** The method the left operand's class provides; functions inherit the base methods,
      which all report an illegal operation. */
  function Apply(op: BinaryOperator, left: Value, right: Value, st: Store): (r: (Op, Store))
    ensures !left.kind.ListV? ==> r.1 == st
  {
    match left.kind
    case NumberV(_) => (NumberOp(op, left, right), st)
    case StringV(_) => (StringOp(op, left, right), st)
    case ListV(_) => ListOp(op, left, right, st)
    case FunctionV(_, _, _, _) => (Raised(IllegalOperation(left, right)), st)
  }

  // ----- Properties -----

  /** Each comparison is the negation of its partner: `==`/`!=`, `<`/`>=`, `>`/`<=`. */
  lemma ComparisonsComplement(self: Value, other: Value)
    requires self.kind.NumberV? && other.kind.NumberV?
    ensures NumberOp(Eq, self, other).value.kind.n.i + NumberOp(Ne, self, other).value.kind.n.i == 1
    ensures NumberOp(Lt, self, other).value.kind.n.i + NumberOp(Gte, self, other).value.kind.n.i == 1
    ensures NumberOp(Gt, self, other).value.kind.n.i + NumberOp(Lte, self, other).value.kind.n.i == 1
  {
  }

  /** `AND`/`OR` return Python's `a and b` / `a or b` passed through `int()`. On ints
      that is logical AND/OR as far as truth goes, but not a 0/1 flag: `2 AND 3` is 3. */
  lemma AndOrOnInts(a: int, b: int)
    ensures var r := NumberOp(And, NumberValue(Int(a), None), NumberValue(Int(b), None)).value.kind.n;
      (!IsZero(r) <==> a != 0 && b != 0) && (a != 0 ==> r == Int(b))
    ensures var r := NumberOp(Or, NumberValue(Int(a), None), NumberValue(Int(b), None)).value.kind.n;
      (!IsZero(r) <==> a != 0 || b != 0) && (a != 0 ==> r == Int(a))
  {
  }

  /** With a float operand the truncation can make a true result false: `1 AND 0.5` is 0,
      and `0.5 OR 0` is 0 although 0.5 is true. */
  lemma AndOrTruncateFloats()
    ensures NumberOp(And, NumberValue(Int(2), None), NumberValue(Int(3), None)).value.kind.n == Int(3)
    ensures NumberOp(And, NumberValue(Int(1), None), NumberValue(Float(0.5), None)).value.kind.n == Int(0)
    ensures NumberOp(Or, NumberValue(Float(0.5), None), NumberValue(Int(0), None)).value.kind.n == Int(0)
    ensures IsTrue(NumberValue(Float(0.5), None))
  {
  }

  /** Subtraction undoes addition, and multiplying a quotient by the divisor gives the
      dividend back (exactly, since floats are exact here). */
  lemma ArithInverses(a: Num, b: Num)
    ensures Arith(Sub, Arith(Add, a, b), b) == (if a.Int? && b.Int? then a else Float(ToReal(a)))
    ensures !IsZero(b) ==>
      var q := NumberOp(Div, NumberValue(a, None), NumberValue(b, None)).value.kind.n;
      ToReal(Arith(Mul, q, b)) == ToReal(a)
  {
  }

  /** `notted` turns a true Number into a false one and a false one into a true one. */
  lemma NottedNegatesTruth(v: Value)
    requires v.kind.NumberV?
    ensures Notted(v).Produced? && IsTrue(Notted(v).value) == !IsTrue(v)
  {
  }

  /** Lists, however many elements they hold, and functions are never true. */
  lemma ListsAreFalse(v: Value)
    requires v.kind.ListV? || v.kind.FunctionV?
    ensures !IsTrue(v)
  {
  }

  /** Aliasing: a List value that shares storage with the left operand of `+` (a copy
      made by reading the same variable, say) sees the appended element too. */
  lemma ListAddAliases(a: Value, b: Value, x: Value, st: Store)
    requires a.kind.ListV? && b.kind.ListV? && a.kind.ref == b.kind.ref && a.kind.ref < |st.lists|
    ensures var r := ListAdd(a, x, st);
      ListAt(r.1, b.kind.ref) == ListAt(st, b.kind.ref) + [x] && r.0.value.kind.ref == b.kind.ref
  {
  }

  /** `-` removes exactly one element, the one at the index. */
  lemma ListSubRemovesOne(a: Value, n: Value, st: Store)
    requires a.kind.ListV? && n.kind.NumberV? && ListPop(a, n, st).0.Produced?
    ensures var s := ListAt(st, a.kind.ref);
      var j := n.kind.n.i % |s|;
      multiset(ListAt(ListPop(a, n, st).1, a.kind.ref)) + multiset{s[j]} == multiset(s)
  {
    var s := ListAt(st, a.kind.ref);
    PyIndexIsModulo(|s|, n.kind.n.i);
    var j := n.kind.n.i % |s|;
    assert s == s[..j] + [s[j]] + s[j + 1..];
  }

  /** A list extended with itself doubles: Python's extend reads its argument first. */
  lemma ListMulSelfDoubles(a: Value, st: Store)
    requires a.kind.ListV? && a.kind.ref < |st.lists|
    ensures ListAt(ListExtend(a, a, st).1, a.kind.ref) == ListAt(st, a.kind.ref) + ListAt(st, a.kind.ref)
  {
  }

  /** A negative index counts from the end: `s / -1` is the last character, and an index
      reads the character at that index modulo the length. */
  lemma StringIndexModulo(self: Value, other: Value)
    requires self.kind.StringV? && other.kind.NumberV? && other.kind.n.Int?
    requires InPyRange(|self.kind.s|, other.kind.n.i)
    ensures StringIndex(self, other).value.kind == StringV([self.kind.s[other.kind.n.i % |self.kind.s|]])
    ensures other.kind.n.i == -1 ==> StringIndex(self, other).value.kind == StringV([self.kind.s[|self.kind.s| - 1]])
  {
    PyIndexIsModulo(|self.kind.s|, other.kind.n.i);
  }

  // ----- The mutable store -----

  /** The engine's symbol tables and element lists, mutated in place. */
  class Heap {
    var tables: seq<Table>
    var lists: seq<seq<Value>>

    function State(): Store
      reads this
    {
      Store(tables, lists)
    }

    constructor(st: Store)
      ensures State() == st
    {
      tables := st.tables;
      lists := st.lists;
    }

    /** `SymbolTable.set` on table `t`. */
    method Set(t: nat, name: string, v: Value)
      requires t < |tables|
      modifies this
      ensures State() == Bind(old(State()), t, name, v)
      ensures Get(State(), t, name) == Some(v)
    {
      var table := tables[t];
      tables := tables[t := Table(table.symbols[name := v], table.parent)];
      BindLocal(old(State()), t, name, v);
    }

    /** `SymbolTable.remove` on table `t`; false when the name is not bound there (the
        engine raises KeyError), and then nothing changes. */
    method Remove(t: nat, name: string) returns (removed: bool)
      modifies this
      ensures removed <==> Unbind(old(State()), t, name).Some?
      ensures removed ==> State() == Unbind(old(State()), t, name).value
      ensures !removed ==> State() == old(State())
    {
      removed := t < |tables| && name in tables[t].symbols;
      if removed {
        var table := tables[t];
        tables := tables[t := Table(table.symbols - {name}, table.parent)];
      }
    }

    /** `List.added_to`: appends to the left operand's shared storage. */
    method ListAddedTo(self: Value, other: Value) returns (r: Op)
      requires self.kind.ListV?
      modifies this
      ensures (r, State()) == ListAdd(self, other, old(State()))
    {
      var ref := self.kind.ref;
      if ref < |lists| {
        lists := lists[ref := lists[ref] + [other]];
      }
      r := Produced(self);
    }

    /** `List.subbed_by`: pops at a Python index from the shared storage. */
    method ListSubbedBy(self: Value, other: Value) returns (r: Op)
      requires self.kind.ListV?
      modifies this
      ensures (r, State()) == ListPop(self, other, old(State()))
    {
      var ref := self.kind.ref;
      var elems := ListAt(State(), ref);
      if !other.kind.NumberV? {
        r := Raised(IllegalOperation(self, other));
      } else if other.kind.n.Int? && InPyRange(|elems|, other.kind.n.i) {
        var j := PyIndex(|elems|, other.kind.n.i).value;
        lists := lists[ref := elems[..j] + elems[j + 1..]];
        r := Produced(self);
      } else {
        r := Raised(RTError(other.posStart, other.posEnd,
          "Element at this index could not be removed from list because index is out of bounds", self.context));
      }
    }

    /** `List.multed_by`: extends the shared storage with another List's elements. */
    method ListMultedBy(self: Value, other: Value) returns (r: Op)
      requires self.kind.ListV?
      modifies this
      ensures (r, State()) == ListExtend(self, other, old(State()))
    {
      if !other.kind.ListV? {
        r := Raised(IllegalOperation(self, other));
        return;
      }
      var ref := self.kind.ref;
      var extra := if other.kind.ref < |lists| then lists[other.kind.ref] else [];
      if ref < |lists| {
        lists := lists[ref := lists[ref] + extra];
      }
      r := Produced(self);
    }
  }
}
