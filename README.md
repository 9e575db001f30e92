# Gradient tape and gradient store (dfdx, `src/gradients.rs`)

This project models the reverse-mode autodiff bookkeeping of the dfdx tensor
library and proves properties of the model in Dafny.

- **Gradient store** (`store.dfy`, module `GradientStore`): the `Gradients`
  container, a map from tensor identity to that tensor's gradient array. It is
  a class whose field `gradientById` its methods update in place.
  - `MutGradient` inserts zeros on first access, then gives access to the entry.
  - `Assign` is a write through the reference `mut_gradient` returns.
  - `RefGradient` is the read-only lookup.
  - `Remove` takes an entry out.
  - `MutAndRef` updates one entry while reading another.
  - The pure function `WithGradient` states the lazy zero-insert once; the
    methods and the interpreter below both use it.
- **Backward operations** (`backward.dfy`, module `BackwardOps`): two closures
  stand in for the `FnOnce(&mut Gradients)` a tape records.
  - `AddConst` is the unit test's "add a constant to every element".
  - `AddMul` is the negate example's chain-rule step, `mut_and_ref` followed
    by a multiply-accumulate.
  - `Apply` and `Run` give the meaning of one closure and of a list run in
    order. `Invoke` runs a closure on a `Gradients` object through its methods.
- **Tape** (`tape.dfy`, module `GradientTapes`): the class `GradientTape`.
  - `AddBackwardOp` inserts at the front.
  - `Execute` drains the list in a loop over a fresh store.
  - A ghost field `recorded` keeps the recording order. The object invariant
    `Valid()` says the list is the reversal of the recording.
  - `TapeCapability` models the two `Tape` implementations: `OwnedTape`
    forwards to its tape and `NoneTape` does nothing. `OwnsTape()` is the
    `OWNS_TAPE` flag.
- **Scenarios** (`scenarios.dfy`): the unit test and the documentation
  examples as client methods, two round trips stated for every input, and two
  backward passes stated for every tensor shape.

Conventions:
- Gradient elements are `real`, standing in for `f32`.
- A tensor is an `Entity(id, len)`: its identity and the length of its array
  type. A stored entry must have the length of the tensor that asks for it
  (`Agrees`). This is the precondition that replaces the `Box<dyn Any>`
  downcast.
- The store's panics are modelled as `Err(LookupError)` (an `unwrap` on a
  missing entry) and `Err(IdentityCollision)` (the `assert_ne!` in
  `mut_and_ref`). The store is left in the state it has at the point of the
  panic.

Choices that follow the code:
- The tape inserts each operation at index 0 of its `Vec` and executes the
  list front to back.
- `mut_and_ref` checks that the two ids differ before any lookup or downcast,
  so a collision is reported whatever the two tensors' array types are; the
  type precondition applies only to distinct ids, both in `MutAndRef` and in
  the typing `OpTyped` of a recorded chain-rule step.
- `mut_and_ref` also panics when `r` has no entry, because it calls
  `ref_gradient(r)`. It does so after `mut_gradient(l)` has already created
  `l`'s slot, and `MutAndRef` states that post-state.
- A type mismatch on downcast is an `unwrap` panic in the code. The model
  makes it a precondition instead of a reported error.

## Model

| member | source | states |
|---|---|---|
| `GradientStore.Zeros` | src/gradients.rs:196 | the lazily allocated gradient has the tensor's length and every element is zero |
| `GradientStore.WithGradient` | src/gradients.rs:190-200 | after `mut_gradient(t)` the ids are the old ids plus `t`'s; a new entry is zeros of `t`'s length; an existing entry is untouched; every other id keeps its entry |
| `GradientStore.Gradients.constructor` | src/gradients.rs:118-121 | a default `Gradients` holds no entries |
| `GradientStore.Gradients.MutGradient` | src/gradients.rs:175-200 | the store becomes `WithGradient` of the old store; the returned entry is the old one if present, otherwise zeros, and has the tensor's length |
| `GradientStore.Gradients.Assign` | src/gradients.rs:185-188 | writing through the reference from `mut_gradient` replaces that one entry and nothing else |
| `GradientStore.Gradients.RefGradient` | src/gradients.rs:202-224 | returns the stored entry when present, panics with a lookup error when absent, and changes nothing |
| `GradientStore.Gradients.Remove` | src/gradients.rs:154-173 | when present it returns exactly the stored array, the id becomes absent and every other entry is unchanged; when absent it panics with a lookup error and the store is unchanged |
| `GradientStore.Gradients.MutAndRef` | src/gradients.rs:124-152 | equal ids panic with nothing changed, whatever the two tensors' types; otherwise only `l`'s slot may be created (as zeros); then it returns `l`'s entry and `r`'s unchanged entry, or panics with a lookup error when `r` is absent |
| `BackwardOps.AddScalar` | src/gradients.rs:294-298 | every element of the gradient is increased by the constant, the length is kept |
| `BackwardOps.AddProduct` | src/gradients.rs:22-26 | the chain-rule accumulate `t_grad += data * result_grad`, element by element, length kept |
| `BackwardOps.Apply` | src/gradients.rs:19-26 | one closure panics exactly when it is a `mut_and_ref` step with equal ids (collision, whatever the types) or an absent source (lookup); on success it writes only its target's slot, adds at most that id, and keeps every entry at its fixed length |
| `BackwardOps.Run` | src/gradients.rs:67-72 | running the operations in list order yields a store whose ids are the initial ids plus exactly the targeted ids, with untargeted entries unchanged and lengths kept |
| `BackwardOps.RunConcat` | src/gradients.rs:69-71 | running `a + b` is running `a`, then `b` on its result, with a panic in `a` ending the run |
| `BackwardOps.Invoke` | src/gradients.rs:70 | invoking a closure on a `Gradients` object through its accessors gives the store and error `Apply` gives; after a panic the store is unchanged on a collision and holds the target's slot (created as zeros if new) on a missing source |
| `GradientTapes.GradientTape.constructor` | src/gradients.rs:36-39 | a default tape has no operations and nothing recorded |
| `GradientTapes.GradientTape.AddBackwardOp` | src/gradients.rs:53-62 | the new operation goes to index 0 and the earlier ones move up one place unchanged; the list stays the reversal of the recording order |
| `GradientTapes.GradientTape.Execute` | src/gradients.rs:64-73 | a fresh store is built by running the list in order from an empty store (a panic ends it with that error); an empty tape gives an empty store; the tape is left with no operations |
| `GradientTapes.ExecutesInReverse` | src/gradients.rs:53-54 | on a valid tape the operation run `k`-th is the one recorded `k`-th from last |
| `GradientTapes.LastRecordedRunsFirst` | src/gradients.rs:53-71 | executing a recording that ends with `op` applies `op` first and then the earlier recording |
| `GradientTapes.LaterPhaseRunsFirst` | src/gradients.rs:53-71 | executing `early + late` runs all of `late` (latest first) before any of `early` |
| `GradientTapes.TapeCapability.OwnsTape` | src/gradients.rs:86-100 | `OWNS_TAPE` is true exactly for `OwnedTape` and false for `NoneTape`, which holds nothing |
| `GradientTapes.TapeCapability.AddBackwardOp` | src/gradients.rs:86-102 | with `OWNS_TAPE` true the call records exactly as `GradientTape::add_backward_op`; with it false (`NoneTape`) nothing in the heap may change |
| `Scenarios.TestBackward` | src/gradients.rs:287-302 | a tape holding one "add 1 to each of 5 elements" executes to a store whose gradient reads `[1; 5]` |
| `Scenarios.MutGradientExample` | src/gradients.rs:180-188 | `mut_gradient` on a new 3-element tensor gives `[0, 0, 0]`; after setting element 0 to 1, `ref_gradient` reads `[1, 0, 0]` |
| `Scenarios.RefGradientExample` | src/gradients.rs:209-215 | after `mut_gradient` alone, `ref_gradient` reads zeros |
| `Scenarios.RemoveExample` | src/gradients.rs:158-164 | `remove` returns the written `[-4, 5, -6]`, after which a lookup of that id panics |
| `Scenarios.MutAndRefExample` | src/gradients.rs:129-139 | `mut_and_ref` on two written tensors returns `([-4, 5, -6], [1, 2, 3, 4, 5])` |
| `Scenarios.MutAndRefCollisionExample` | src/gradients.rs:127-146 | a 3-element and a 5-element tensor sharing an id collide in `mut_and_ref` and leave the store unchanged |
| `Scenarios.ChainRuleCollision` | src/gradients.rs:19-26 | a recorded `mut_and_ref` step on a 5-element and a 3-element tensor sharing one id panics with a collision, even though the stored entry fits only the 3-element type |
| `Scenarios.WriteThenRead` | src/gradients.rs:185-188 | for every tensor and array of its type, a value written via `mut_gradient` is what `ref_gradient` returns, and only that entry changes |
| `Scenarios.WriteThenRemove` | src/gradients.rs:163-164 | for every tensor and array of its type, `remove` after a write returns the written array and leaves the id absent, with other entries unchanged |
| `Scenarios.AccumulationScenario` | src/gradients.rs:53-71 | recording "add 1" then "add 2" to one gradient executes as `[add 2, add 1]` and yields 3 everywhere |
| `Scenarios.NegateScenario` | src/gradients.rs:19-33 | the negate backward pass recorded before its seed executes seed-first and yields `-1` for the input; run in recording order it would panic on the missing output gradient |

## Left out

- Identity generation (`unique_id()`, an atomic counter): identities are plain integers compared only for equality.
- The `Box<dyn Any>` storage and its checked downcast: an entry's type is its length, and a mismatch is the precondition `Agrees` (or `StoreTyped`/`OpTyped` for whole runs), not a modelled error.
- Arbitrary `FnOnce` closures: the model interprets two closure shapes, which are enough to state execution order and map-update frames.
- `f32` arithmetic and the device's `zeros` and `addmul` kernels: elements are reals and the kernels are the functions `Zeros`, `AddScalar` and `AddProduct`.
- The raw-pointer split borrow in `mut_and_ref`: `MutAndRef` returns the two entries as values, and the update of `l` is written back with `Assign`. Aliasing is not modelled.
- Panic unwinding: a panic is an `Err` result. On a panic during `Execute` the partly built store is discarded, as dfdx drops it.
- `GradientTapes.GradientTape.Execute`: dfdx takes the tape by value, so a second execution does not compile. Dafny has no moves; the model drains the tape instead, so a second call would see an empty tape.
- The compile-time and zero-cost side of `Tape`: `OWNS_TAPE` becomes a predicate on the variant, and the static dispatch is not modelled.
- The `GradientProvider` and `CanUpdateWithGradients` traits: they are interfaces without bodies, and their implementers (the optimizers) are not part of this model.
- The `Debug` implementation for `GradientTape`: it is formatting only.
- `src/tensor/impl_phantom.rs`: it only copies an id into a marker type, and its data accessors are unimplemented.
