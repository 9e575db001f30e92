/** The gradient container: a map from tensor identity to the gradient array
    recorded for that tensor, with lazy zero-initialisation, a read-only lookup,
    removal, and a paired "update one entry while reading another" access.

    dfdx stores each entry type-erased and downcasts it to the tensor's
    array type. Here an array is a sequence of reals (stand-ins for f32) and a
    tensor carries the length of its array type; "the downcast succeeds" is the
    precondition `Agrees`. A panic from an absent entry or from two equal ids
    is modelled as an `Err` result, with the store in the state dfdx
    leaves it in at the point of the panic. */
module GradientStore {

  /** Identity of a tensor instance. Only equality is ever used. */
  type Id = int

  /** A gradient buffer; reals stand in for the f32 elements. */
  type Array = seq<real>

  /** What the store needs of a tensor: its identity and the length of its
      array type (the role played by the associated `Array` type). */
  datatype Entity = Entity(id: Id, len: nat)

  /** The two panics of the store: the `unwrap` of a missing entry, and the
      `assert_ne` on the ids given to the paired access. */
  datatype Error = LookupError | IdentityCollision

  datatype Result<T> = Ok(value: T) | Err(error: Error)

  type Store = map<Id, Array>

  /** The zero-filled array the device allocates for a fresh gradient. */
  function Zeros(n: nat): (z: Array)
    ensures |z| == n
    ensures forall i :: 0 <= i < n ==> z[i] == 0.0
  {
    seq(n, _ => 0.0)
  }

  /** The stored entry for `t`, if any, downcasts to `t`'s array type. */
  predicate Agrees(m: Store, t: Entity)
  {
    t.id in m ==> |m[t.id]| == t.len
  }

  /** The store after `mut_gradient(t)`: an absent entry is created as zeros of
      `t`'s length, a present one is left as it is, and no other id changes. */
  function WithGradient(m: Store, t: Entity): (r: Store)
    ensures r.Keys == m.Keys + {t.id}
    ensures t.id in m ==> r[t.id] == m[t.id]
    ensures t.id !in m ==> r[t.id] == Zeros(t.len)
    ensures forall id :: id in m && id != t.id ==> r[id] == m[id]
    ensures Agrees(m, t) ==> |r[t.id]| == t.len
  {
    if t.id in m then m else m[t.id := Zeros(t.len)]
  }

  /** `Gradients`: the identity-keyed container itself. */
  class Gradients {
    var gradientById: Store

    /** `Gradients::default()`: an empty container. */
    constructor ()
      ensures gradientById == map[]
    {
      gradientById := map[];
    }

    /** `mut_gradient`: inserts zeros when `t` has no entry yet, then gives
        access to the entry. The returned value is what the mutable reference
        points at; writing through that reference is `Assign`. */
    method MutGradient(t: Entity) returns (g: Array)
      requires Agrees(gradientById, t)
      modifies this
      ensures gradientById == WithGradient(old(gradientById), t)
      ensures old(t.id in gradientById) ==> g == old(gradientById[t.id])
      ensures old(t.id !in gradientById) ==> g == Zeros(t.len)
      ensures g == gradientById[t.id] && |g| == t.len
    {
      if t.id !in gradientById {
        gradientById := gradientById[t.id := Zeros(t.len)];
      }
      g := gradientById[t.id];
    }

    /** A store through the mutable reference returned by `mut_gradient`
        (`*g = v`, `g[0] = 1.0`): the reference exists only for an entry that
        is present, and the array type fixes the length. */
    method Assign(t: Entity, v: Array)
      requires t.id in gradientById && |v| == t.len
      modifies this
      ensures gradientById == old(gradientById)[t.id := v]
    {
      gradientById := gradientById[t.id := v];
    }

    /** `ref_gradient`: the entry for `t`, or the panic of `unwrap` on a
        missing key. The store is not changed. */
    method RefGradient(t: Entity) returns (r: Result<Array>)
      requires Agrees(gradientById, t)
      ensures t.id in gradientById ==> r == Ok(gradientById[t.id]) && |r.value| == t.len
      ensures t.id !in gradientById ==> r == Err(LookupError)
    {
      if t.id in gradientById {
        r := Ok(gradientById[t.id]);
      } else {
        r := Err(LookupError);
      }
    }

    /** `remove`: takes the entry for `t` out and returns exactly what was
        stored; a missing key panics and leaves the store as it was. */
    method Remove(t: Entity) returns (r: Result<Array>)
      requires Agrees(gradientById, t)
      modifies this
      ensures old(t.id in gradientById) ==>
        r == Ok(old(gradientById[t.id])) && |r.value| == t.len &&
        gradientById == old(gradientById) - {t.id}
      ensures old(t.id !in gradientById) ==>
        r == Err(LookupError) && gradientById == old(gradientById)
      ensures gradientById.Keys == old(gradientById).Keys - {t.id}
    {
      if t.id in gradientById {
        r := Ok(gradientById[t.id]);
        gradientById := gradientById - {t.id};
      } else {
        r := Err(LookupError);
      }
    }

    /** `mut_and_ref(l, r)`: the entry of `l` (created as zeros if new) for
        update, with the entry of `r` for reading. Equal ids panic before
        anything happens. Otherwise `l`'s slot is created first and `r` is
        looked up afterwards, so an absent `r` panics with `l`'s slot already
        in place. The collision check runs before any lookup or downcast, so
        it applies whatever the array types of the two tensors are. */
    method MutAndRef(l: Entity, r: Entity) returns (res: Result<(Array, Array)>)
      requires l.id != r.id ==> Agrees(gradientById, l) && Agrees(gradientById, r)
      modifies this
      ensures l.id == r.id ==> res == Err(IdentityCollision) && gradientById == old(gradientById)
      ensures l.id != r.id ==> gradientById == WithGradient(old(gradientById), l)
      ensures l.id != r.id && r.id in old(gradientById) ==>
        res == Ok((gradientById[l.id], old(gradientById[r.id]))) &&
        |res.value.0| == l.len && |res.value.1| == r.len
      ensures l.id != r.id && r.id !in old(gradientById) ==> res == Err(LookupError)
    {
      if l.id == r.id {
        return Err(IdentityCollision);
      }
      var lg := MutGradient(l);
      var rg := RefGradient(r);
      if rg.Err? {
        return Err(rg.error);
      }
      res := Ok((lg, rg.value));
    }
  }
}
