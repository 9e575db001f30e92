/** Backward operations: the deferred closures a tape records. dfdx accepts
    any `FnOnce(&mut Gradients)`; this model fixes two closures of the shapes
    dfdx's gradient code uses, interpreted against the store: the unit
    test's "add a constant to every element" and the chain-rule step of the
    negate example (`mut_and_ref` followed by a multiply-accumulate). */
module BackwardOps {
  import opened GradientStore

  datatype Op =
    | AddConst(target: Entity, c: real)                  // g[t] += c, elementwise
    | AddMul(target: Entity, data: Array, source: Entity) // g[t] += data * g[source]

  /** The array length fixed for each id: the type an entry keeps from its
      first access on. */
  type Env = map<Id, nat>

  predicate EntityTyped(t: Entity, env: Env)
  {
    t.id in env && env[t.id] == t.len
  }

  predicate StoreTyped(m: Store, env: Env)
  {
    forall id :: id in m ==> id in env && |m[id]| == env[id]
  }

  /** The closure only names tensors of the types `env` fixes, and its
      captured data fit them (the element-wise step needs equal shapes). A
      chain-rule step whose two ids collide panics before any lookup or
      downcast, so neither tensor's type is then constrained. */
  predicate OpTyped(op: Op, env: Env)
  {
    match op
    case AddConst(t, _) => EntityTyped(t, env)
    case AddMul(t, d, s) =>
      t.id != s.id ==>
        EntityTyped(t, env) && |d| == t.len && EntityTyped(s, env) && s.len == t.len
  }

  predicate AllTyped(ops: seq<Op>, env: Env)
  {
    forall i :: 0 <= i < |ops| ==> OpTyped(ops[i], env)
  }

  function AddScalar(a: Array, c: real): (r: Array)
    ensures |r| == |a|
    ensures forall i :: 0 <= i < |a| ==> r[i] == a[i] + c
  {
    seq(|a|, i requires 0 <= i < |a| => a[i] + c)
  }

  function AddProduct(a: Array, d: Array, b: Array): (r: Array)
    requires |d| == |a| && |b| == |a|
    ensures |r| == |a|
    ensures forall i :: 0 <= i < |a| ==> r[i] == a[i] + d[i] * b[i]
  {
    seq(|a|, i requires 0 <= i < |a| => a[i] + d[i] * b[i])
  }

  /** The ids whose entries a sequence of operations writes. */
  function Targets(ops: seq<Op>): (ids: set<Id>)
    ensures forall i :: 0 <= i < |ops| ==> ops[i].target.id in ids
    ensures forall id :: id in ids ==> exists i :: 0 <= i < |ops| && ops[i].target.id == id
  {
    if ops == [] then {} else {ops[0].target.id} + Targets(ops[1..])
  }

  /** The effect of running one closure on the store (through `mut_gradient`
      or `mut_and_ref`), or the panic it raises. */
  function Apply(op: Op, m: Store, ghost env: Env): (r: Result<Store>)
    requires StoreTyped(m, env) && OpTyped(op, env)
    ensures r.Err? <==> op.AddMul? && (op.target.id == op.source.id || op.source.id !in m)
    ensures r.Err? && op.target.id == op.source.id ==> r.error == IdentityCollision
    ensures r.Err? && op.target.id != op.source.id ==> r.error == LookupError
    ensures r.Ok? ==> StoreTyped(r.value, env)
    ensures r.Ok? ==> r.value.Keys == m.Keys + {op.target.id}
    ensures r.Ok? ==> forall id :: id in m && id != op.target.id ==> r.value[id] == m[id]
  {
    match op
    case AddConst(t, c) =>
      var m1 := WithGradient(m, t);
      Ok(m1[t.id := AddScalar(m1[t.id], c)])
    case AddMul(t, d, s) =>
      if t.id == s.id then Err(IdentityCollision)
      else
        var m1 := WithGradient(m, t);
        if s.id !in m1 then Err(LookupError)
        else Ok(m1[t.id := AddProduct(m1[t.id], d, m1[s.id])])
  }

  /** Running closures in list order; the first panic ends the run. */
  function Run(ops: seq<Op>, m: Store, ghost env: Env): (r: Result<Store>)
    requires StoreTyped(m, env) && AllTyped(ops, env)
    ensures r.Ok? ==> StoreTyped(r.value, env)
    ensures r.Ok? ==> r.value.Keys == m.Keys + Targets(ops)
    ensures r.Ok? ==> forall id :: id in m && id !in Targets(ops) ==> r.value[id] == m[id]
    decreases |ops|
  {
    if ops == [] then Ok(m)
    else
      match Apply(ops[0], m, env)
      case Err(e) => Err(e)
      case Ok(m1) => Run(ops[1..], m1, env)
  }

  /** Continues a run that may already have panicked. */
  function RunAfter(r: Result<Store>, ops: seq<Op>, ghost env: Env): (after: Result<Store>)
    requires r.Ok? ==> StoreTyped(r.value, env)
    requires AllTyped(ops, env)
    ensures r.Err? ==> after == r
  {
    match r
    case Err(e) => Err(e)
    case Ok(m) => Run(ops, m, env)
  }

  /** Running `a + b` is running `a` and then, unless it panicked, `b`. */
  lemma {:induction false} RunConcat(a: seq<Op>, b: seq<Op>, m: Store, env: Env)
    requires StoreTyped(m, env) && AllTyped(a, env) && AllTyped(b, env)
    ensures AllTyped(a + b, env)
    ensures Run(a + b, m, env) == RunAfter(Run(a, m, env), b, env)
    decreases |a|
  {
    assert AllTyped(a + b, env) by {
      forall i | 0 <= i < |a + b| ensures OpTyped((a + b)[i], env) {
        if i < |a| { assert (a + b)[i] == a[i]; } else { assert (a + b)[i] == b[i - |a|]; }
      }
    }
    if a == [] {
      assert a + b == b;
    } else {
      assert (a + b)[0] == a[0];
      assert (a + b)[1..] == a[1..] + b;
      match Apply(a[0], m, env)
      case Err(e) =>
      case Ok(m1) =>
        RunConcat(a[1..], b, m1, env);
    }
  }

  /** Invoking a recorded closure on the store (`(operation)(&mut gradients)`):
      it goes through the store's own accessors and has exactly the effect
      `Apply` describes. */
  method Invoke(op: Op, grads: Gradients, ghost env: Env) returns (res: Result<()>)
    requires StoreTyped(grads.gradientById, env) && OpTyped(op, env)
    modifies grads
    ensures Apply(op, old(grads.gradientById), env).Ok? ==>
      res.Ok? && grads.gradientById == Apply(op, old(grads.gradientById), env).value
    ensures Apply(op, old(grads.gradientById), env).Err? ==>
      res == Err(Apply(op, old(grads.gradientById), env).error)
    ensures op.AddMul? && op.target.id == op.source.id ==>
      grads.gradientById == old(grads.gradientById)
    ensures op.AddMul? && op.target.id != op.source.id && Apply(op, old(grads.gradientById), env).Err? ==>
      grads.gradientById == WithGradient(old(grads.gradientById), op.target)
  {
    match op
    case AddConst(t, c) =>
      var g := grads.MutGradient(t);
      grads.Assign(t, AddScalar(g, c));
      res := Ok(());
    case AddMul(t, d, s) =>
      var pair := grads.MutAndRef(t, s);
      if pair.Err? {
        return Err(pair.error);
      }
      grads.Assign(t, AddProduct(pair.value.0, d, pair.value.1));
      res := Ok(());
  }
}
