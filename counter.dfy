/** The deployment template linera-integration/smart-contract-2-deploy: a
    single `u64` counter that `Increment` adds to. */
module CounterApp {
  import opened Wrappers

  const U64_MAX: nat := 0xFFFF_FFFF_FFFF_FFFF

  datatype Operation = Increment(value: nat)

  /** Why an operation aborts. */
  datatype Panic = AddOverflow

  /** One `Increment` on a counter holding `value`: the sum, or a panic when
      it leaves the `u64` range (an arithmetic-overflow panic aborts the
      operation and its state change). */
  function Apply(value: nat, op: Operation): (r: Option<nat>)
    ensures r.Some? <==> value + op.value <= U64_MAX
    ensures r.Some? ==> r.value == value + op.value && value <= r.value
  {
    if value + op.value <= U64_MAX then Some(value + op.value) else None
  }

  /** The amounts of a sequence of increments, added up. */
  function Total(ops: seq<Operation>): nat
    decreases |ops|
  {
    if ops == [] then 0 else Total(ops[..|ops| - 1]) + ops[|ops| - 1].value
  }

  /** A sequence of operations applied one after another from `value`;
      None as soon as one of them panics. */
  function Run(value: nat, ops: seq<Operation>): Option<nat>
    decreases |ops|
  {
    if ops == [] then Some(value)
    else
      match Run(value, ops[..|ops| - 1])
      case None => None
      case Some(v) => Apply(v, ops[|ops| - 1])
  }

  /** Running a sequence succeeds exactly when the initial value plus the
      total of the increments fits in a `u64`, and then yields that sum:
      since every increment is non-negative, no intermediate value can
      overflow unless the final one does. */
  lemma {:induction false} RunAddsTotal(value: nat, ops: seq<Operation>)
    requires value <= U64_MAX
    ensures Run(value, ops) == (if value + Total(ops) <= U64_MAX then Some(value + Total(ops)) else None)
    decreases |ops|
  {
    if ops != [] {
      RunAddsTotal(value, ops[..|ops| - 1]);
    }
  }

  lemma {:induction false} TotalConcat(a: seq<Operation>, b: seq<Operation>)
    ensures Total(a + b) == Total(a) + Total(b)
    decreases |b|
  {
    if b == [] {
      assert a + b == a;
    } else {
      TotalConcat(a, b[..|b| - 1]);
      assert (a + b)[..|a + b| - 1] == a + b[..|b| - 1];
    }
  }

  /** Two batches of increments commute: applying `a` then `b` leaves the
      counter where applying `b` then `a` does, and one panics exactly when
      the other does. */
  lemma BatchesCommute(value: nat, a: seq<Operation>, b: seq<Operation>)
    requires value <= U64_MAX
    ensures Run(value, a + b) == Run(value, b + a)
  {
    RunAddsTotal(value, a + b);
    RunAddsTotal(value, b + a);
    TotalConcat(a, b);
    TotalConcat(b, a);
  }

  /** The template's unit test: instantiate with 10, increment by 10, read 20. */
  lemma TemplateTest()
    ensures Run(10, [Increment(10)]) == Some(20)
  {
    assert [Increment(10)][..0] == [];
  }

  /** The contract object with its one register. */
  class CounterContract {
    var value: nat

    ghost predicate Valid()
      reads this
    {
      value <= U64_MAX
    }

    /** Loading fresh storage: the register holds its default, 0. */
    constructor ()
      ensures value == 0 && Valid()
    {
      value := 0;
    }

    /** `instantiate`: the register takes the instantiation argument. */
    method Instantiate(argument: nat)
      requires argument <= U64_MAX
      modifies this
      ensures value == argument && Valid()
    {
      value := argument;
    }

    /** `execute_operation`: add the increment, or panic with the register
        unchanged. */
    method ExecuteOperation(op: Operation) returns (outcome: Outcome<Panic>)
      requires Valid()
      modifies this
      ensures Valid()
      ensures outcome.Pass? <==> Apply(old(value), op).Some?
      ensures outcome.Pass? ==> Some(value) == Apply(old(value), op)
      ensures outcome.Fail? ==> value == old(value) && outcome.error == AddOverflow
    {
      if value + op.value <= U64_MAX {
        value := value + op.value;
        outcome := Pass;
      } else {
        outcome := Fail(AddOverflow);
      }
    }

    /** `execute_message`: the template has no messages; nothing changes. */
    method ExecuteMessage()
      ensures unchanged(this)
    {
    }
  }
}
