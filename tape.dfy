/** The gradient tape and the tape capability.

    `GradientTape` keeps its operations in a list and records each new one at
    the front, so that executing the list front to back runs the operations in
    reverse of the order they were recorded. The ghost field `recorded` keeps
    the recording order, and the object invariant says the list is its
    reversal. `TapeCapability` is the two implementations of the `Tape` trait:
    one that owns a tape and forwards to it, one that records nothing. */
module GradientTapes {
  import opened GradientStore
  import opened BackwardOps

  function Reversed<T>(s: seq<T>): (r: seq<T>)
    ensures |r| == |s|
  {
    if s == [] then [] else [s[|s| - 1]] + Reversed(s[..|s| - 1])
  }

  /** The element `k` places from the front of the reversal is the element
      `k` places from the back of the original. */
  lemma {:induction false} ReversedAt<T>(s: seq<T>, k: nat)
    requires k < |s|
    ensures Reversed(s)[k] == s[|s| - 1 - k]
    decreases |s|
  {
    if k > 0 {
      ReversedAt(s[..|s| - 1], k - 1);
    }
  }

  lemma ReversedSnoc<T>(s: seq<T>, x: T)
    ensures Reversed(s + [x]) == [x] + Reversed(s)
  {
    assert (s + [x])[..|s|] == s;
  }

  lemma {:induction false} ReversedConcat<T>(a: seq<T>, b: seq<T>)
    ensures Reversed(a + b) == Reversed(b) + Reversed(a)
    decreases |b|
  {
    if b == [] {
      assert a + b == a;
    } else {
      var b' := b[..|b| - 1];
      assert a + b == (a + b') + [b[|b| - 1]];
      assert b == b' + [b[|b| - 1]];
      ReversedSnoc(a + b', b[|b| - 1]);
      ReversedSnoc(b', b[|b| - 1]);
      ReversedConcat(a, b');
    }
  }

  lemma AllTypedReversed(s: seq<Op>, env: Env)
    requires AllTyped(s, env)
    ensures AllTyped(Reversed(s), env)
  {
    forall k | 0 <= k < |s| ensures OpTyped(Reversed(s)[k], env) {
      ReversedAt(s, k);
    }
  }

  class GradientTape {
    /** The list dfdx keeps; it is executed front to back. */
    var operations: seq<Op>
    /** The operations in the order they were recorded. */
    ghost var recorded: seq<Op>

    ghost predicate Valid()
      reads this
    {
      operations == Reversed(recorded)
    }

    /** `GradientTape::default()`. */
    constructor ()
      ensures Valid() && operations == [] && recorded == []
    {
      operations := [];
      recorded := [];
    }

    /** `add_backward_op`: inserts the operation at index 0, every earlier
        operation moving up one place unchanged. */
    method AddBackwardOp(op: Op)
      requires Valid()
      modifies this
      ensures Valid()
      ensures operations == [op] + old(operations)
      ensures recorded == old(recorded) + [op]
    {
      ReversedSnoc(recorded, op);
      operations := [op] + operations;
      recorded := recorded + [op];
    }

    /** `execute`: drains the list, running every operation in list order on a
        new, empty store. A panicking operation ends the execution. */
    method Execute(ghost env: Env) returns (r: Result<Gradients>)
      requires Valid() && AllTyped(operations, env)
      modifies this
      ensures Valid() && operations == [] && recorded == []
      ensures Run(old(operations), map[], env).Ok? ==>
        r.Ok? && fresh(r.value) && r.value.gradientById == Run(old(operations), map[], env).value
      ensures Run(old(operations), map[], env).Err? ==>
        r == Err(Run(old(operations), map[], env).error)
      ensures old(operations) == [] ==> r.Ok? && r.value.gradientById == map[]
    {
      var gradients := new Gradients();
      var ops := operations;
      operations, recorded := [], [];
      var i := 0;
      while i < |ops|
        invariant 0 <= i <= |ops|
        invariant StoreTyped(gradients.gradientById, env)
        invariant Run(ops, map[], env) == Run(ops[i..], gradients.gradientById, env)
        invariant fresh(gradients)
        invariant operations == [] && recorded == []
      {
        assert ops[i..][0] == ops[i] && ops[i..][1..] == ops[i + 1..];
        var status := Invoke(ops[i], gradients, env);
        if status.Err? {
          return Err(status.error);
        }
        i := i + 1;
      }
      r := Ok(gradients);
    }
  }

  /** Executing a recorded tape is running the recording in reverse order. */
  lemma ExecutesInReverse(t: GradientTape, k: nat)
    requires t.Valid() && k < |t.operations|
    ensures t.operations[k] == t.recorded[|t.recorded| - 1 - k]
  {
    ReversedAt(t.recorded, k);
  }

  /** The operation recorded last runs first, before everything recorded
      earlier. */
  lemma LastRecordedRunsFirst(h: seq<Op>, op: Op, m: Store, env: Env)
    requires StoreTyped(m, env) && AllTyped(h, env) && OpTyped(op, env)
    ensures AllTyped(Reversed(h + [op]), env) && AllTyped(Reversed(h), env)
    ensures Run(Reversed(h + [op]), m, env) == RunAfter(Apply(op, m, env), Reversed(h), env)
  {
    ReversedSnoc(h, op);
    AllTypedReversed(h, env);
    var s := [op] + Reversed(h);
    assert s[0] == op && s[1..] == Reversed(h);
  }

  /** Everything recorded in a later phase runs before everything recorded in
      an earlier one. */
  lemma LaterPhaseRunsFirst(early: seq<Op>, late: seq<Op>, m: Store, env: Env)
    requires StoreTyped(m, env) && AllTyped(early, env) && AllTyped(late, env)
    ensures AllTyped(Reversed(early + late), env)
    ensures AllTyped(Reversed(early), env) && AllTyped(Reversed(late), env)
    ensures Run(Reversed(early + late), m, env) ==
      RunAfter(Run(Reversed(late), m, env), Reversed(early), env)
  {
    AllTypedReversed(early, env);
    AllTypedReversed(late, env);
    ReversedConcat(early, late);
    RunConcat(Reversed(late), Reversed(early), m, env);
  }

  /** The two implementations of the `Tape` trait. */
  datatype TapeCapability = OwnedTape(tape: GradientTape) | NoneTape {

    /** `OWNS_TAPE`: true for the owning implementation, false for the other;
        a non-owning capability holds nothing. */
    predicate OwnsTape(): (owns: bool)
      ensures owns <==> OwnedTape?
      ensures !owns ==> this == NoneTape
    {
      OwnedTape?
    }

    /** `Tape::add_backward_op`: the owning implementation forwards to its
        tape's `add_backward_op`; the other does nothing at all. */
    method AddBackwardOp(op: Op)
      requires OwnsTape() ==> tape.Valid()
      modifies if OwnsTape() then {tape} else {}
      ensures OwnsTape() ==> tape.Valid()
      ensures OwnsTape() ==> tape.operations == [op] + old(tape.operations)
      ensures OwnsTape() ==> tape.recorded == old(tape.recorded) + [op]
    {
      match this
      case OwnedTape(t) => t.AddBackwardOp(op);
      case NoneTape =>
    }
  }
}
