/** The control-flow carrier of the evaluator: a value, an error, a function return
    value and the two loop flags.

    `Carrier` is the value of the five fields; the class `RTResult` is the mutable
    carrier itself and each of its methods is proved to leave exactly the fields that
    the corresponding `Carrier` function describes. */
module Runtime {

  import opened Utils

  datatype Carrier<V, E> = Carrier(
    value: Option<V>,
    error: Option<E>,
    funcReturnValue: Option<V>,
    loopShouldContinue: bool,
    loopShouldBreak: bool)
  {
    /** How many of the four signals (error, return, continue, break) are set. */
    function SignalCount(): (n: nat)
      ensures n <= 4
    {
      (if error.Some? then 1 else 0) + (if funcReturnValue.Some? then 1 else 0)
      + (if loopShouldContinue then 1 else 0) + (if loopShouldBreak then 1 else 0)
    }

    /** should_return: the objects stored in the fields are always truthy, so a field
        counts as soon as it is present. */
    predicate ShouldReturn() {
      error.Some? || funcReturnValue.Some? || loopShouldContinue || loopShouldBreak
    }

    /** At most one of the five fields is set, as every constructor below leaves it. */
    predicate Single() {
      SignalCount() + (if value.Some? then 1 else 0) <= 1
    }

    /** register: the four signals are overwritten by the sub-result's, the value field
        is left alone. */
    function Registered(sub: Carrier<V, E>): (r: Carrier<V, E>)
      ensures r.value == value
      ensures r.SignalCount() == sub.SignalCount()
    {
      Carrier(value, sub.error, sub.funcReturnValue, sub.loopShouldContinue, sub.loopShouldBreak)
    }
  }

  /** The state after reset (and of a fresh carrier). */
  function Empty<V, E>(): Carrier<V, E> {
    Carrier(None, None, None, false, false)
  }

  function Succeeded<V, E>(v: V): Carrier<V, E> {
    Carrier(Some(v), None, None, false, false)
  }

  function Returned<V, E>(v: V): Carrier<V, E> {
    Carrier(None, None, Some(v), false, false)
  }

  function Continued<V, E>(): Carrier<V, E> {
    Carrier(None, None, None, true, false)
  }

  function Broken<V, E>(): Carrier<V, E> {
    Carrier(None, None, None, false, true)
  }

  function Failed<V, E>(e: E): Carrier<V, E> {
    Carrier(None, Some(e), None, false, false)
  }

  /** should_return holds exactly when at least one signal is set. */
  lemma ShouldReturnCountsSignals<V, E>(c: Carrier<V, E>)
    ensures c.ShouldReturn() <==> c.SignalCount() > 0
  {
  }

  /** Each success, return, continue, break or failure leaves exactly one field set and
      the reset state none; only `success` leaves should_return false. */
  lemma ExactlyOneField<V, E>(v: V, e: E)
    ensures Empty<V, E>().Single() && !Empty<V, E>().ShouldReturn() && Empty<V, E>().value.None?
    ensures Succeeded<V, E>(v).Single() && !Succeeded<V, E>(v).ShouldReturn() && Succeeded<V, E>(v).value == Some(v)
    ensures Returned<V, E>(v).Single() && Returned<V, E>(v).ShouldReturn()
    ensures Returned<V, E>(v).funcReturnValue == Some(v)
    ensures Continued<V, E>().Single() && Continued<V, E>().ShouldReturn()
    ensures Continued<V, E>().loopShouldContinue
    ensures Broken<V, E>().Single() && Broken<V, E>().ShouldReturn()
    ensures Broken<V, E>().loopShouldBreak
    ensures Failed<V, E>(e).Single() && Failed<V, E>(e).ShouldReturn() && Failed<V, E>(e).error == Some(e)
  {
  }

  /** After register, should_return is the sub-result's: in particular registering a
      plain success clears every signal, whatever the carrier held before. */
  lemma RegisterAdoptsSignals<V, E>(c: Carrier<V, E>, sub: Carrier<V, E>)
    ensures c.Registered(sub).ShouldReturn() <==> sub.ShouldReturn()
    ensures !sub.ShouldReturn() ==> c.Registered(sub).SignalCount() == 0
  {
    ShouldReturnCountsSignals(sub);
    ShouldReturnCountsSignals(c.Registered(sub));
  }

  /** Registering twice is registering the second result: nothing of the first survives. */
  lemma RegisterOverwrites<V, E>(c: Carrier<V, E>, a: Carrier<V, E>, b: Carrier<V, E>)
    ensures c.Registered(a).Registered(b) == c.Registered(b)
  {
  }

  class RTResult<V, E> {
    var value: Option<V>
    var error: Option<E>
    var funcReturnValue: Option<V>
    var loopShouldContinue: bool
    var loopShouldBreak: bool

    function State(): Carrier<V, E>
      reads this
    {
      Carrier(value, error, funcReturnValue, loopShouldContinue, loopShouldBreak)
    }

    constructor()
      ensures State() == Empty()
    {
      value := None;
      error := None;
      funcReturnValue := None;
      loopShouldContinue := false;
      loopShouldBreak := false;
    }

    method Reset()
      modifies this
      ensures State() == Empty()
    {
      value := None;
      error := None;
      funcReturnValue := None;
      loopShouldContinue := false;
      loopShouldBreak := false;
    }

    /** Copies the sub-result's signals and hands back its value. */
    method Register(res: RTResult<V, E>) returns (v: Option<V>)
      modifies this
      ensures State() == old(State()).Registered(old(res.State()))
      ensures v == old(res.value)
    {
      var e, r, c, b, x := res.error, res.funcReturnValue, res.loopShouldContinue, res.loopShouldBreak, res.value;
      error := e;
      funcReturnValue := r;
      loopShouldContinue := c;
      loopShouldBreak := b;
      v := x;
    }

    method Success(v: V)
      modifies this
      ensures State() == Succeeded(v)
    {
      Reset();
      value := Some(v);
    }

    method SuccessReturn(v: V)
      modifies this
      ensures State() == Returned(v)
    {
      Reset();
      funcReturnValue := Some(v);
    }

    method SuccessContinue()
      modifies this
      ensures State() == Continued()
    {
      Reset();
      loopShouldContinue := true;
    }

    method SuccessBreak()
      modifies this
      ensures State() == Broken()
    {
      Reset();
      loopShouldBreak := true;
    }

    method Failure(e: E)
      modifies this
      ensures State() == Failed(e)
    {
      Reset();
      error := Some(e);
    }

    /** True iff some signal is set. */
    function ShouldReturn(): (b: bool)
      reads this
      ensures b <==> State().SignalCount() > 0
    {
      error.Some? || funcReturnValue.Some? || loopShouldContinue || loopShouldBreak
    }
  }
}
