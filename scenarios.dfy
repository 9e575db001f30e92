/** The scenarios dfdx's unit test and documentation examples promise,
    stated as client methods that use the store and the tape through their
    contracts only, and two backward passes stated for every tensor shape. */
module Scenarios {
  import opened GradientStore
  import opened BackwardOps
  import opened GradientTapes

  /** The unit test: one recorded "add 1 to each element" on a tensor of five
      elements; executing the tape gives a gradient of five ones. */
  method TestBackward() returns (r: Result<Array>)
    ensures r == Ok([1.0, 1.0, 1.0, 1.0, 1.0])
  {
    var t := Entity(7, 5);
    ghost var env: Env := map[t.id := t.len];
    var tape := new GradientTape();
    tape.AddBackwardOp(AddConst(t, 1.0));
    ghost var step := Apply(AddConst(t, 1.0), map[], env);
    assert step.Ok? && step.value == map[t.id := AddScalar(Zeros(5), 1.0)];
    var grads := tape.Execute(env);
    assert grads.Ok?;
    r := grads.value.RefGradient(t);
    assert AddScalar(Zeros(5), 1.0) == [1.0, 1.0, 1.0, 1.0, 1.0];
  }

  /** `mut_gradient` on a new tensor of three elements gives zeros; after
      element 0 is set to 1 through the reference, `ref_gradient` reads back
      the written array. */
  method MutGradientExample() returns (first: Array, read: Result<Array>)
    ensures first == [0.0, 0.0, 0.0]
    ensures read == Ok([1.0, 0.0, 0.0])
  {
    var t := Entity(1, 3);
    var grads := new Gradients();
    first := grads.MutGradient(t);
    assert first == [0.0, 0.0, 0.0];
    var written := first[0 := 1.0];
    assert written == [1.0, 0.0, 0.0];
    grads.Assign(t, written);
    read := grads.RefGradient(t);
  }

  /** `mut_gradient` alone is enough for `ref_gradient` to find zeros. */
  method RefGradientExample() returns (read: Result<Array>)
    ensures read == Ok([0.0, 0.0, 0.0])
  {
    var t := Entity(1, 3);
    var grads := new Gradients();
    var _ := grads.MutGradient(t);
    read := grads.RefGradient(t);
    assert Zeros(3) == [0.0, 0.0, 0.0];
  }

  /** `remove` returns exactly the array written, and afterwards the id has
      no entry: a further `ref_gradient` panics. */
  method RemoveExample() returns (taken: Result<Array>, after: Result<Array>)
    ensures taken == Ok([-4.0, 5.0, -6.0])
    ensures after == Err(LookupError)
  {
    var t := Entity(1, 3);
    var grads := new Gradients();
    var _ := grads.MutGradient(t);
    grads.Assign(t, [-4.0, 5.0, -6.0]);
    taken := grads.Remove(t);
    after := grads.RefGradient(t);
  }

  /** `mut_and_ref` on two written tensors returns both entries. */
  method MutAndRefExample() returns (pair: Result<(Array, Array)>)
    ensures pair == Ok(([-4.0, 5.0, -6.0], [1.0, 2.0, 3.0, 4.0, 5.0]))
  {
    var a := Entity(1, 3);
    var b := Entity(2, 5);
    var grads := new Gradients();
    var _ := grads.MutGradient(a);
    grads.Assign(a, [-4.0, 5.0, -6.0]);
    var _ := grads.MutGradient(b);
    grads.Assign(b, [1.0, 2.0, 3.0, 4.0, 5.0]);
    pair := grads.MutAndRef(a, b);
  }

  /** Equal ids collide whatever the two tensors' array types are: a
      3-element and a 5-element tensor sharing one id panic in `mut_and_ref`
      even though the stored entry has the first one's length only, and the
      store is left as it was. */
  method MutAndRefCollisionExample() returns (pair: Result<(Array, Array)>, after: Store)
    ensures pair == Err(IdentityCollision)
    ensures after == map[1 := [0.0, 0.0, 0.0]]
  {
    var a := Entity(1, 3);
    var b := Entity(1, 5);
    var grads := new Gradients();
    var _ := grads.MutGradient(a);
    pair := grads.MutAndRef(a, b);
    after := grads.gradientById;
    assert Zeros(3) == [0.0, 0.0, 0.0];
  }

  /** A recorded chain-rule step whose two tensors share an id panics with a
      collision whatever their array types, even when the stored entry fits
      only the source's type: the collision check comes before any lookup. */
  lemma ChainRuleCollision()
    ensures var env := map[1 := 3];
      var op := AddMul(Entity(1, 5), [1.0, 1.0, 1.0, 1.0, 1.0], Entity(1, 3));
      OpTyped(op, env) && StoreTyped(map[1 := [0.0, 0.0, 0.0]], env) &&
      Apply(op, map[1 := [0.0, 0.0, 0.0]], env) == Err(IdentityCollision)
  {
  }

  /** For every tensor and every array of its type: an array written through
      the reference `mut_gradient` returns is what `ref_gradient` reads back,
      and no other entry changes. */
  method WriteThenRead(grads: Gradients, t: Entity, v: Array) returns (read: Result<Array>)
    requires Agrees(grads.gradientById, t) && |v| == t.len
    modifies grads
    ensures read == Ok(v)
    ensures grads.gradientById == old(grads.gradientById)[t.id := v]
  {
    var _ := grads.MutGradient(t);
    grads.Assign(t, v);
    read := grads.RefGradient(t);
  }

  /** For every tensor and every array of its type: `remove` after a write
      returns the written array, leaves the id without an entry (so a further
      `ref_gradient` panics) and every other entry as it was. */
  method WriteThenRemove(grads: Gradients, t: Entity, v: Array)
    returns (taken: Result<Array>, after: Result<Array>)
    requires Agrees(grads.gradientById, t) && |v| == t.len
    modifies grads
    ensures taken == Ok(v) && after == Err(LookupError)
    ensures grads.gradientById == old(grads.gradientById) - {t.id}
  {
    var _ := grads.MutGradient(t);
    grads.Assign(t, v);
    taken := grads.Remove(t);
    after := grads.RefGradient(t);
  }

  /** Two contributions to one gradient, "add 1" recorded before "add 2": they
      execute as [add 2, add 1] and the gradient is 3 everywhere. */
  lemma AccumulationScenario(x: Entity)
    ensures var recorded := [AddConst(x, 1.0), AddConst(x, 2.0)];
      var ran := [AddConst(x, 2.0), AddConst(x, 1.0)];
      Reversed(recorded) == ran &&
      Run(ran, map[], map[x.id := x.len]) == Ok(map[x.id := seq(x.len, _ => 3.0)])
  {
    var env := map[x.id := x.len];
    var add1, add2 := AddConst(x, 1.0), AddConst(x, 2.0);
    ReversedSnoc([add1], add2);
    assert [add1, add2] == [add1] + [add2];
    ReversedSnoc([], add1);
    var ran := [add2, add1];
    var twos := AddScalar(Zeros(x.len), 2.0);
    var first := Apply(add2, map[], env);
    assert first.Ok? && first.value == map[x.id := twos];
    var second := Apply(add1, first.value, env);
    var threes := seq(x.len, _ => 3.0);
    assert AddScalar(twos, 1.0) == threes;
    assert second.Ok? && second.value == map[x.id := threes];
    assert ran[1..] == [add1];
    assert Run([add1], first.value, env) == second;
  }

  /** The backward pass of `y = -x` followed by seeding `y`'s gradient with
      ones, as a training step records them. Run latest-first, the seed runs
      before the chain-rule step that reads it, and `x`'s gradient is minus
      ones. Run in recording order, the chain-rule step would read `y`'s
      gradient before it exists and panic. */
  lemma NegateScenario(x: Entity, y: Entity)
    requires x.id != y.id && x.len == y.len
    ensures var env := map[x.id := x.len, y.id := y.len];
      var recorded := [AddMul(x, seq(x.len, _ => -1.0), y), AddConst(y, 1.0)];
      var ran := [AddConst(y, 1.0), AddMul(x, seq(x.len, _ => -1.0), y)];
      Reversed(recorded) == ran &&
      Run(ran, map[], env) == Ok(map[y.id := seq(y.len, _ => 1.0), x.id := seq(x.len, _ => -1.0)]) &&
      Run(recorded, map[], env) == Err(LookupError)
  {
    var env := map[x.id := x.len, y.id := y.len];
    var minus := seq(x.len, _ => -1.0);
    var chain := AddMul(x, minus, y);
    var seed := AddConst(y, 1.0);
    assert [chain, seed] == [chain] + [seed];
    ReversedSnoc([chain], seed);
    ReversedSnoc([], chain);
    var ran := [seed, chain];
    var ones := seq(y.len, _ => 1.0);
    assert AddScalar(Zeros(y.len), 1.0) == ones;
    var first := Apply(seed, map[], env);
    assert first.Ok? && first.value == map[y.id := ones];
    assert AddProduct(Zeros(x.len), minus, ones) == minus;
    var second := Apply(chain, first.value, env);
    assert second.Ok? && second.value == map[y.id := ones, x.id := minus];
    assert ran[1..] == [chain];
    assert Run([chain], first.value, env) == second;
    assert Apply(chain, map[], env) == Err(LookupError);
  }
}
