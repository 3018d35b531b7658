/** The runtime library the C++ backend links against: values behind shared_ptr handles
    (a list is one heap object that every handle to it shares), their operators as
    virtual methods that either compute or throw, nested variable contexts, and the
    builtins len, append, pop and str. Doubles are modelled as exact reals. */
module CppRuntime {

  import opened Utils
  import Values
  import BaseFun

  /** A runtime value. A list is a reference: copying a CValue copies the handle. */
  datatype CValue = CNumber(v: real) | CString(s: string) | CList(obj: ListObject) | CFunction(name: string)

  /** What a runtime call does: return a value, throw std::runtime_error with a message,
      or reach floating-point behaviour (infinity, NaN) this model does not follow. */
  datatype Native = Returned(value: CValue) | Threw(message: string) | Unmodelled(why: string)

  const OutOfRange := "List index out of range"

  /** The list value: its element handles, changed in place by setItem and append. */
  class ListObject {
    var elements: seq<CValue>

    constructor(elements: seq<CValue>)
      ensures this.elements == elements
    {
      this.elements := elements;
    }

    /** size: the number of elements. */
    function Length(): (n: nat)
      reads this
      ensures n == 0 <==> elements == []
    {
      |elements|
    }

    /** getItem: a negative index has the length added once; what is still outside the
        list throws. This is Python's indexing rule. */
    function GetItem(index: int): (r: Result<CValue, string>)
      reads this
      ensures r.Ok? <==> Values.InPyRange(|elements|, index)
      ensures r.Ok? ==> r.value == elements[Values.PyIndex(|elements|, index).value]
      ensures r.Err? ==> r.error == OutOfRange
    {
      var i := if index < 0 then index + |elements| else index;
      if i < 0 || i >= |elements| then Err(OutOfRange) else Ok(elements[i])
    }

    /** setItem: the same index rule; on success only that slot changes, and reading it
        back gives the new value. */
    method SetItem(index: int, value: CValue) returns (thrown: Option<string>)
      modifies this
      ensures thrown.None? <==> Values.InPyRange(|old(elements)|, index)
      ensures thrown.None? ==> elements == old(elements)[Values.PyIndex(|old(elements)|, index).value := value]
      ensures thrown.None? ==> GetItem(index) == Ok(value)
      ensures thrown.Some? ==> thrown.value == OutOfRange && elements == old(elements)
    {
      var i := if index < 0 then index + |elements| else index;
      if i < 0 || i >= |elements| {
        return Some(OutOfRange);
      }
      elements := elements[i := value];
      thrown := None;
    }

    /** append grows the list by one slot at the end; the old slots read as before. */
    method Append(value: CValue)
      modifies this
      ensures elements == old(elements) + [value]
      ensures GetItem(-1) == Ok(value)
      ensures forall i :: 0 <= i < |old(elements)| ==> GetItem(i) == old(GetItem(i))
    {
      elements := elements + [value];
    }

    /** asList on a list: a new list object holding the same element handles. */
    method AsList() returns (r: ListObject)
      ensures fresh(r) && r.elements == elements
    {
      r := new ListObject(elements);
    }
  }

  /** isTrue: a non-zero number, a non-empty string, a non-empty list; a function always. */
  predicate IsTrue(v: CValue): (b: bool)
    reads if v.CList? then {v.obj} else {}
    ensures v.CFunction? ==> b
    ensures !b ==> v == CNumber(0.0) || v == CString("") || (v.CList? && v.obj.Length() == 0)
  {
    match v
    case CNumber(x) => x != 0.0
    case CString(s) => s != ""
    case CList(o) => o.elements != []
    case CFunction(_) => true
  }

  /** A comparison or logical result: the number 1 or 0. */
  function Flag(b: bool): CValue {
    CNumber(if b then 1.0 else 0.0)
  }

  /** The base class's message for an operator a kind does not override. */
  function Unsupported(op: Values.BinaryOperator): string {
    (match op
     case Add => "Addition"
     case Sub => "Subtraction"
     case Mul => "Multiplication"
     case Div => "Division"
     case Pow => "Power operation"
     case Eq => "Equality comparison"
     case Ne => "Inequality comparison"
     case Lt => "Less than comparison"
     case Gt => "Greater than comparison"
     case Lte => "Less than or equal comparison"
     case Gte => "Greater than or equal comparison"
     case And => "Logical AND"
     case Or => "Logical OR")
    + " not supported for this type"
  }

  const NotUnsupported := "Logical NOT not supported for this type"

  /** static_cast<int> of a double: truncation toward zero. */
  function Count(x: real): int {
    Values.Truncate(Values.Float(x))
  }

  /** A string repeated `count` times; no copies at all when the count is not positive. */
  function Repeated(s: string, count: int): (r: string)
    ensures |r| == if count > 0 then |s| * count else 0
  {
    if count <= 0 then "" else Repeat(s, count)
  }

  /** A repetition is periodic: it starts with the string, and every later character
      is the one a string's length earlier. */
  lemma RepeatedIsPeriodic(s: string, count: int, k: int)
    requires 0 <= k < |Repeated(s, count)|
    ensures k < |s| ==> Repeated(s, count)[k] == s[k]
    ensures k >= |s| ==> Repeated(s, count)[k] == Repeated(s, count)[k - |s|]
  {
    RepeatFront(s, count);
    assert Repeat(s, count) == Repeat(s, count - 1) + s;
  }

  lemma {:induction false} RepeatFront(s: string, n: nat)
    requires n > 0
    ensures Repeat(s, n) == s + Repeat(s, n - 1)
  {
    if n > 1 {
      RepeatFront(s, n - 1);
      assert Repeat(s, n) == Repeat(s, n - 1) + s;
    }
  }

  /** The string-repeat loop of multedBy. */
  method RepeatText(str: string, count: int) returns (result: string)
    ensures result == Repeated(str, count)
  {
    result := "";
    if count <= 0 {
      return;
    }
    var i := 0;
    while i < count
      invariant 0 <= i <= count
      invariant result == Repeat(str, i)
    {
      result := result + str;
      i := i + 1;
    }
  }

  /** std::pow, followed where its result is an exact real: integral exponents, with
      zero to a negative power (infinity) and fractional exponents left unmodelled. */
  function Power(x: real, y: real): (r: Native)
    ensures r.Returned? ==> r.value.CNumber?
    ensures r.Unmodelled? <==> y.Floor as real != y || (x == 0.0 && y < 0.0)
    ensures y.Floor as real == y && y >= 0.0 ==> r == Returned(CNumber(Values.RealPow(x, y.Floor)))
    ensures y.Floor as real == y && y < 0.0 && x != 0.0 ==> r == Returned(CNumber(1.0 / Values.RealPow(x, -y.Floor)))
  {
    if y.Floor as real != y then Unmodelled("std::pow with a fractional exponent")
    else if y >= 0.0 then Returned(CNumber(Values.RealPow(x, y.Floor)))
    else if x == 0.0 then Unmodelled("std::pow of zero to a negative power")
    else Returned(CNumber(1.0 / Values.RealPow(x, -y.Floor)))
  }

  /** The Number overrides: arithmetic and ordering need a Number on the right (and `*`
      also takes a String, which it repeats); `==`/`!=` answer for any right operand;
      and/or/not go through isTrue. */
  function NumberOp(op: Values.BinaryOperator, x: real, other: CValue): (r: Native)
    reads if other.CList? then {other.obj} else {}
    ensures r.Threw? <==>
      (!other.CNumber? && !(op.Mul? && other.CString?) && !op.Eq? && !op.Ne? && !op.And? && !op.Or?)
      || (op.Div? && other.CNumber? && other.v == 0.0)
    ensures r.Threw? ==> r.message == if op.Div? && other.CNumber? then "Division by zero" else Unsupported(op)
    ensures r.Unmodelled? ==> op.Pow? && other.CNumber?
    ensures other.CNumber? && op.Add? ==> r == Returned(CNumber(x + other.v))
    ensures other.CNumber? && op.Sub? ==> r == Returned(CNumber(x - other.v))
    ensures other.CNumber? && op.Mul? ==> r == Returned(CNumber(x * other.v))
    ensures other.CNumber? && op.Div? && other.v != 0.0 ==> r == Returned(CNumber(x / other.v))
    ensures op.Mul? && other.CString? ==> r == Returned(CString(Repeated(other.s, Count(x))))
    ensures op.Eq? ==> r == Returned(Flag(other.CNumber? && other.v == x))
    ensures op.Ne? ==> r == Returned(Flag(!(other.CNumber? && other.v == x)))
    ensures other.CNumber? && op.Lt? ==> r == Returned(Flag(x < other.v))
    ensures other.CNumber? && op.Gt? ==> r == Returned(Flag(x > other.v))
    ensures other.CNumber? && op.Lte? ==> r == Returned(Flag(x <= other.v))
    ensures other.CNumber? && op.Gte? ==> r == Returned(Flag(x >= other.v))
    ensures other.CNumber? && op.Pow? ==> r == Power(x, other.v)
    ensures op.And? ==> r == Returned(Flag(IsTrue(CNumber(x)) && IsTrue(other)))
    ensures op.Or? ==> r == Returned(Flag(IsTrue(CNumber(x)) || IsTrue(other)))
  {
    match op
    case Add => if other.CNumber? then Returned(CNumber(x + other.v)) else Threw(Unsupported(op))
    case Sub => if other.CNumber? then Returned(CNumber(x - other.v)) else Threw(Unsupported(op))
    case Mul =>
      if other.CNumber? then Returned(CNumber(x * other.v))
      else if other.CString? then Returned(CString(Repeated(other.s, Count(x))))
      else Threw(Unsupported(op))
    case Div =>
      if !other.CNumber? then Threw(Unsupported(op))
      else if other.v == 0.0 then Threw("Division by zero")
      else Returned(CNumber(x / other.v))
    case Pow => if other.CNumber? then Power(x, other.v) else Threw(Unsupported(op))
    case Eq => Returned(Flag(other.CNumber? && x == other.v))
    case Ne => Returned(Flag(!(other.CNumber? && x == other.v)))
    case Lt => if other.CNumber? then Returned(Flag(x < other.v)) else Threw(Unsupported(op))
    case Gt => if other.CNumber? then Returned(Flag(x > other.v)) else Threw(Unsupported(op))
    case Lte => if other.CNumber? then Returned(Flag(x <= other.v)) else Threw(Unsupported(op))
    case Gte => if other.CNumber? then Returned(Flag(x >= other.v)) else Threw(Unsupported(op))
    case And => Returned(Flag(x != 0.0 && IsTrue(other)))
    case Or => Returned(Flag(x != 0.0 || IsTrue(other)))
  }

  // ----- toString -----

  /** toString, the number format being a parameter (std::to_string); a list renders as
      "[", its elements' texts separated by ", ", and "]". Lists nested deeper than
      `depth` are not rendered (None): a list that contains itself has no text. */
  function Show(v: CValue, numberText: real -> string, depth: nat): (r: Option<string>)
    reads *
    ensures !v.CList? ==> r.Some?
    decreases depth, 0
  {
    match v
    case CNumber(x) => Some(numberText(x))
    case CString(s) => Some(s)
    case CFunction(name) => Some(BaseFun.Describe(name))
    case CList(o) =>
      if depth == 0 then None
      else
        match ShowAll(o.elements, numberText, depth - 1)
        case None => None
        case Some(parts) => Some("[" + Join(parts, ", ") + "]")
  }

  /** The texts of a list's elements, in order; None when one of them has none. */
  function ShowAll(xs: seq<CValue>, numberText: real -> string, depth: nat): (r: Option<seq<string>>)
    reads *
    decreases depth, |xs| + 1
  {
    if |xs| == 0 then Some([])
    else
      match (ShowAll(xs[..|xs| - 1], numberText, depth), Show(xs[|xs| - 1], numberText, depth))
      case (Some(parts), Some(t)) => Some(parts + [t])
      case _ => None
  }

  /** The element texts are exactly the texts of the elements, one each. */
  lemma {:induction false} ShowAllPointwise(xs: seq<CValue>, numberText: real -> string, depth: nat)
    ensures ShowAll(xs, numberText, depth).Some? <==> forall i :: 0 <= i < |xs| ==> Show(xs[i], numberText, depth).Some?
    ensures ShowAll(xs, numberText, depth).Some? ==>
      |ShowAll(xs, numberText, depth).value| == |xs|
      && forall i :: 0 <= i < |xs| ==> ShowAll(xs, numberText, depth).value[i] == Show(xs[i], numberText, depth).value
    decreases |xs|
  {
    if |xs| > 0 {
      var init := xs[..|xs| - 1];
      ShowAllPointwise(init, numberText, depth);
      assert forall i :: 0 <= i < |init| ==> init[i] == xs[i];
    }
  }

  /** toString as the C++ computes it: a virtual call per value; for a list, a loop that
      appends ", " before every element but the first. */
  method ToText(v: CValue, numberText: real -> string, depth: nat) returns (r: Option<string>)
    ensures r == Show(v, numberText, depth)
    decreases depth, 0
  {
    match v
    case CNumber(x) => r := Some(numberText(x));
    case CString(s) => r := Some(s);
    case CFunction(name) => r := Some(BaseFun.Describe(name));
    case CList(o) =>
      if depth == 0 {
        return None;
      }
      r := ListText(o, numberText, depth - 1);
  }

  /** One more element text extends the texts of the elements before it. */
  lemma ShowAllSnoc(xs: seq<CValue>, i: nat, parts: seq<string>, t: string, numberText: real -> string, depth: nat)
    requires i < |xs| && ShowAll(xs[..i], numberText, depth) == Some(parts) && Show(xs[i], numberText, depth) == Some(t)
    ensures ShowAll(xs[..i + 1], numberText, depth) == Some(parts + [t])
  {
    assert xs[..i + 1][..i] == xs[..i];
  }

  /** An element without a text leaves the whole list without one. */
  lemma ShowAllFails(xs: seq<CValue>, i: nat, numberText: real -> string, depth: nat)
    requires i < |xs| && Show(xs[i], numberText, depth).None?
    ensures ShowAll(xs, numberText, depth).None?
  {
    ShowAllPointwise(xs, numberText, depth);
  }

  method ListText(o: ListObject, numberText: real -> string, depth: nat) returns (r: Option<string>)
    ensures r == match ShowAll(o.elements, numberText, depth)
      case None => None
      case Some(parts) => Some("[" + Join(parts, ", ") + "]")
    decreases depth, 1
  {
    var result := "[";
    var joined := "";
    var i := 0;
    ghost var parts: seq<string> := [];
    while i < |o.elements|
      invariant 0 <= i <= |o.elements|
      invariant ShowAll(o.elements[..i], numberText, depth) == Some(parts)
      invariant joined == Join(parts, ", ") && result == "[" + joined
    {
      var t := ToText(o.elements[i], numberText, depth);
      if t.None? {
        ShowAllFails(o.elements, i, numberText, depth);
        return None;
      }
      ShowAllSnoc(o.elements, i, parts, t.value, numberText, depth);
      JoinSnoc(parts, t.value, ", ");
      if i > 0 {
        joined := joined + ", ";
      }
      joined := joined + t.value;
      result := "[" + joined;
      parts := parts + [t.value];
      i := i + 1;
    }
    assert o.elements[..i] == o.elements;
    r := Some(result + "]");
  }

  /** The String overrides: `+` appends the other operand's text, `*` by a Number
      repeats; every other operator is the base class's throw. */
  function StringOp(op: Values.BinaryOperator, s: string, other: CValue, numberText: real -> string, depth: nat): (r: Native)
    reads *
    ensures op.Add? && other.CString? ==> r == Returned(CString(s + other.s))
    ensures op.Add? ==> (r.Returned? <==> Show(other, numberText, depth).Some?)
    ensures op.Add? && r.Returned? ==> r.value == CString(s + Show(other, numberText, depth).value)
    ensures op.Mul? && other.CNumber? ==> r == Returned(CString(Repeated(s, Count(other.v))))
    ensures !op.Add? && !(op.Mul? && other.CNumber?) ==> r == Threw(Unsupported(op))
  {
    match op
    case Add =>
      (match Show(other, numberText, depth)
       case Some(t) => Returned(CString(s + t))
       case None => Unmodelled("text of a list nested deeper than the rendering bound"))
    case Mul => if other.CNumber? then Returned(CString(Repeated(s, Count(other.v)))) else Threw(Unsupported(op))
    case _ => Threw(Unsupported(op))
  }

  /** A binary operator applied to its left operand's virtual method. Lists and
      functions override none of them. */
  function Binary(op: Values.BinaryOperator, self: CValue, other: CValue, numberText: real -> string, depth: nat): (r: Native)
    reads *
    ensures self.CNumber? ==> r == NumberOp(op, self.v, other)
    ensures self.CString? ==> r == StringOp(op, self.s, other, numberText, depth)
    ensures self.CList? || self.CFunction? ==> r == Threw(Unsupported(op))
  {
    match self
    case CNumber(x) => NumberOp(op, x, other)
    case CString(s) => StringOp(op, s, other, numberText, depth)
    case _ => Threw(Unsupported(op))
  }

  /** `not not x` on a Number is x's truth as a flag. */
  lemma DoubleNotIsTruth(v: CValue)
    requires v.CNumber?
    ensures Notted(v).Returned? && Notted(Notted(v).value) == Returned(Flag(IsTrue(v)))
  {
  }

  /** Unlike the interpreter, where a List is always false, a C++ List is true exactly
      when it has elements. */
  lemma ListTruthIsNonEmpty(v: CValue)
    requires v.CList?
    ensures IsTrue(v) <==> |v.obj.elements| > 0
  {
  }

  /** notted: only a Number has it. */
  function Notted(v: CValue): (r: Native)
    ensures v.CNumber? ==> r == Returned(Flag(!IsTrue(v)))
    ensures !v.CNumber? ==> r == Threw(NotUnsupported)
  {
    if v.CNumber? then Returned(Flag(v.v == 0.0)) else Threw(NotUnsupported)
  }

  /** Lists and functions accept no operator at all. */
  lemma ListsAndFunctionsRejectOperators(op: Values.BinaryOperator, self: CValue, other: CValue,
                                         numberText: real -> string, depth: nat)
    requires self.CList? || self.CFunction?
    ensures Binary(op, self, other, numberText, depth) == Threw(Unsupported(op))
    ensures Notted(self) == Threw(NotUnsupported)
  {
  }

  /** A string has no comparison operators, not even equality. */
  lemma StringsDoNotCompare(op: Values.BinaryOperator, s: string, other: CValue, numberText: real -> string, depth: nat)
    requires op.Eq? || op.Ne? || op.Lt? || op.Gt? || op.Lte? || op.Gte?
    ensures Binary(op, CString(s), other, numberText, depth).Threw?
  {
  }

  /** Number×String and String×Number give the same repetition. */
  lemma RepeatCommutes(x: real, s: string, numberText: real -> string, depth: nat)
    ensures Binary(Values.Mul, CNumber(x), CString(s), numberText, depth)
      == Binary(Values.Mul, CString(s), CNumber(x), numberText, depth)
  {
  }

  /** `==` and `!=` on a Number always answer, and always oppositely. */
  lemma EqualityComplements(x: real, other: CValue, numberText: real -> string, depth: nat)
    ensures Binary(Values.Eq, CNumber(x), other, numberText, depth).Returned?
    ensures Binary(Values.Ne, CNumber(x), other, numberText, depth).Returned?
    ensures Binary(Values.Eq, CNumber(x), other, numberText, depth).value.v
      + Binary(Values.Ne, CNumber(x), other, numberText, depth).value.v == 1.0
  {
  }

  // ----- Contexts -----

  /** The C++ Context: its own variables and the context it was created under. */
  class CContext {
    const name: string
    const parent: CContext?
    ghost const depth: nat
    var variables: map<string, CValue>

    /** The parent chain is finite: every parent sits strictly lower. */
    ghost predicate Linked()
      decreases depth
    {
      parent != null ==> parent.depth < depth && parent.Linked()
    }

    /** This context and all its ancestors. */
    ghost function Chain(): (r: set<CContext>)
      requires Linked()
      ensures this in r
      decreases depth
    {
      {this} + if parent == null then {} else parent.Chain()
    }

    constructor(name: string, parent: CContext?)
      requires parent != null ==> parent.Linked()
      ensures this.name == name && this.parent == parent && variables == map[] && Linked()
    {
      this.name := name;
      this.parent := parent;
      depth := if parent == null then 0 else parent.depth + 1;
      variables := map[];
    }

    /** setVariable writes the local map only, and the name then reads back the value. */
    method SetVariable(name: string, value: CValue)
      modifies this
      ensures variables == old(variables)[name := value]
      ensures Linked() ==> GetVariable(name) == Ok(value)
    {
      variables := variables[name := value];
    }

    /** getVariable: the local binding, else the parent's answer, else a throw. */
    function GetVariable(name: string): (r: Result<CValue, string>)
      requires Linked()
      reads Chain()
      ensures r.Err? ==> r.error == "Variable '" + name + "' not defined"
      decreases depth
    {
      if name in variables then Ok(variables[name])
      else if parent != null then parent.GetVariable(name)
      else Err("Variable '" + name + "' not defined")
    }

    /** hasVariable: the same search, answering yes or no. */
    predicate HasVariable(name: string): (b: bool)
      requires Linked()
      reads Chain()
      ensures name in variables ==> b
      ensures b && name !in variables ==> parent != null
      decreases depth
    {
      name in variables || (parent != null && parent.HasVariable(name))
    }

    /** hasVariable says yes exactly when getVariable would not throw. */
    lemma {:induction false} HasAgreesWithGet(name: string)
      requires Linked()
      ensures HasVariable(name) <==> GetVariable(name).Ok?
      decreases depth
    {
      if name !in variables && parent != null {
        parent.HasAgreesWithGet(name);
      }
    }

    /** getVariable finds a binding iff some context on the chain has one, and what it
        returns is one of those bindings. */
    lemma {:induction false} GetFindsABinding(name: string)
      requires Linked()
      ensures GetVariable(name).Ok? <==> exists c :: c in Chain() && name in c.variables
      ensures GetVariable(name).Ok? ==>
        exists c :: c in Chain() && name in c.variables && GetVariable(name).value == c.variables[name]
      decreases depth
    {
      if name !in variables && parent != null {
        parent.GetFindsABinding(name);
      }
    }

    /** createChild: an empty context under this one, which reads what this one reads. */
    method CreateChild(name: string) returns (c: CContext)
      requires Linked()
      ensures fresh(c) && c.name == name && c.parent == this && c.variables == map[] && c.Linked()
      ensures forall n :: c.GetVariable(n) == GetVariable(n)
    {
      c := new CContext(name, this);
    }
  }

  // ----- Builtins -----

  /** len: a list's or a string's length (characters here; the C++ counts bytes). */
  function Len(args: seq<CValue>): (r: Native)
    reads if |args| > 0 && args[0].CList? then {args[0].obj} else {}
    ensures |args| == 0 ==> r == Threw("len() requires at least one argument")
    ensures |args| > 0 && args[0].CList? ==> r == Returned(CNumber(args[0].obj.Length() as real))
    ensures |args| > 0 && args[0].CString? ==> r == Returned(CNumber(|args[0].s| as real))
    ensures |args| > 0 && !args[0].CList? && !args[0].CString? ==> r == Threw("len() requires a list or string argument")
  {
    if |args| == 0 then Threw("len() requires at least one argument")
    else match args[0]
      case CList(o) => Returned(CNumber(o.Length() as real))
      case CString(s) => Returned(CNumber(|s| as real))
      case _ => Threw("len() requires a list or string argument")
  }

  /** append: a new list, the first argument's elements followed by all the others; the
      first argument itself is left as it was. */
  method AppendBuiltin(args: seq<CValue>) returns (r: Native)
    ensures |args| < 2 ==> r == Threw("append() requires at least two arguments")
    ensures |args| >= 2 && !args[0].CList? ==> r == Threw("First argument to append() must be a list")
    ensures |args| >= 2 && args[0].CList? ==>
      r.Returned? && r.value.CList? && fresh(r.value.obj)
      && r.value.obj.elements == args[0].obj.elements + args[1..]
      && Len([r.value]) == Returned(CNumber((|args[0].obj.elements| + |args| - 1) as real))
    ensures |args| >= 2 && args[0].CList? ==> args[0].obj.elements == old(args[0].obj.elements)
  {
    if |args| < 2 {
      return Threw("append() requires at least two arguments");
    }
    if !args[0].CList? {
      return Threw("First argument to append() must be a list");
    }
    var list := args[0].obj.AsList();
    var i := 1;
    while i < |args|
      invariant 1 <= i <= |args| && fresh(list)
      invariant list.elements == args[0].obj.elements + args[1..i]
    {
      list.Append(args[i]);
      assert args[1..i + 1] == args[1..i] + [args[i]];
      i := i + 1;
    }
    r := Returned(CList(list));
  }

  /** The index pop reads: the second argument truncated when it is a Number, else -1. */
  function PopIndex(args: seq<CValue>): int {
    if |args| > 1 && args[1].CNumber? then Count(args[1].v) else -1
  }

  /** pop: the element at the index, read from a copy; nothing is removed. */
  function Pop(args: seq<CValue>): (r: Native)
    reads if |args| > 0 && args[0].CList? then {args[0].obj} else {}
    ensures |args| == 0 ==> r == Threw("pop() requires at least one argument")
    ensures |args| > 0 && !args[0].CList? ==> r == Threw("First argument to pop() must be a list")
    ensures |args| > 0 && args[0].CList? && args[0].obj.elements == [] ==> r == Threw("Cannot pop from an empty list")
    ensures |args| > 0 && args[0].CList? && args[0].obj.elements != [] ==>
      (r.Returned? <==> Values.InPyRange(|args[0].obj.elements|, PopIndex(args)))
      && (r.Returned? ==> r.value == args[0].obj.elements[Values.PyIndex(|args[0].obj.elements|, PopIndex(args)).value])
      && (r.Threw? ==> r.message == OutOfRange)
    ensures |args| == 1 && args[0].CList? && args[0].obj.elements != [] ==>
      r == Returned(args[0].obj.elements[|args[0].obj.elements| - 1])
  {
    if |args| == 0 then Threw("pop() requires at least one argument")
    else if !args[0].CList? then Threw("First argument to pop() must be a list")
    else if args[0].obj.Length() == 0 then Threw("Cannot pop from an empty list")
    else
      match args[0].obj.GetItem(PopIndex(args))
      case Ok(v) => Returned(v)
      case Err(e) => Threw(e)
  }

  /** str: the first argument's text, or "" with no arguments. */
  function Str(args: seq<CValue>, numberText: real -> string, depth: nat): (r: Native)
    reads *
    ensures |args| == 0 ==> r == Returned(CString(""))
    ensures |args| > 0 ==> (r.Returned? <==> Show(args[0], numberText, depth).Some?)
    ensures |args| > 0 && r.Returned? ==> r.value == CString(Show(args[0], numberText, depth).value)
    ensures |args| > 0 && !args[0].CList? ==> r.Returned?
  {
    if |args| == 0 then Returned(CString(""))
    else
      match Show(args[0], numberText, depth)
      case Some(t) => Returned(CString(t))
      case None => Unmodelled("text of a list nested deeper than the rendering bound")
  }
}
