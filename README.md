# dyngo: a verified model of the slot / proof mechanism

dyngo lets an object-safe Rust trait method "return" a value of a caller-chosen generic
type. The caller creates a `Slot` inside a fresh scope (`Slot::with`). It hands a mutable
borrow of the slot to a callback. The callback `fill`s the slot and gets back a `Proof`,
which travels out through the trait method's return value. The caller then `unlock`s the
slot with that proof and receives the stored value. Proof and slot share a brand, an
invariant lifetime, and a proof of one slot's brand does not type-check against another
slot. Storage goes through the `Container` contract, which has two implementations:
`Option<T>` (`SafeSlot`, checked) and `MaybeUninit<T>` (`LeakySlot`, zero-overhead and
unchecked).

The model has three modules:

- `Containers` (containers.dfy) covers the `Container` contract. Its two implementations
  are the two variants of one datatype, stored inline in the slot as Rust stores them.
  `Empty`, `Fill` and `Unpack` are functions. `Fill` gives the container's new value, and
  the slot's `Fill` method writes that value back into its field. A `Tally` counts the
  values released (destructor run) and the values leaked (destructor never run).
  `FillAll` applies a sequence of fills. The lemmas about it state "the last fill wins"
  and the release/leak accounting for a whole scope.
- `Slots` (slots.dfy) covers the protocol. A slot's brand is a ghost `Scope` object that
  `With` allocates and stores in a constant field. Allocation makes it distinct from every
  brand that existed before, so no two slots share a brand. `Proof` carries the brand as
  a ghost field, so it is zero-size like the Rust type. `Slot` is a class whose `Fill`
  method changes its container in place. `Unlock` and `Drop` consume the slot.
- `Scenarios` (scenarios.dfy) restates the crate's tests and its compile-fail examples as
  verified client methods, for any value and for both strategies.

The Rust compiler enforces two facts by typing. Here they are preconditions of
`Slot.Unlock`. First, the proof carries the slot's own brand (`proof.brand == brand`).
Second, the proof is genuine (`Minted(proof)`): in Rust only `fill` can construct a
`Proof`, because its field is private, but Dafny code can write `Proof(b)` anywhere.
`Scope.proven` therefore records that a fill in that scope has produced a proof.
`Slot.Valid()` states that the brand's `proven` is set exactly when a fill has happened.
From that invariant, `Unlock` proves the precondition of `MaybeUninit`'s `unpack`: the
container is filled. This is the obligation behind the `unsafe` block at
src/lib.rs:179-180. For the checked container, the same invariant shows that the `expect`
failure cannot be reached.

Uninitialised memory is modelled as the `Memory.Uninit` state of the raw storage. The
executable operations `Empty`, `Fill` and `Unpack` never branch on that state. `Unpack`
demands it as a precondition, and only the ghost accounting (`IsFilled`, `Discard`,
`FillAll`) inspects it.

## Model

| member | source | states |
|---|---|---|
| `Containers.Empty` | src/lib.rs:191-192 | both implementations (`None` at 206-208, `MaybeUninit::uninit` at 221-223) give an empty container of the requested strategy |
| `Containers.Fill` | src/lib.rs:194-195 | both implementations (`*self = Some(val)` at 210-212, `write` at 225-227) keep the strategy and leave the container filled with exactly the new value, whatever it held before |
| `Containers.Unpack` | src/lib.rs:197-201 | requires a prior fill only for `MaybeUninit` (229-232, where a violation is undefined behaviour); succeeds exactly when the container is filled and then returns the stored value; on an empty `Option` it fails with the panic "trying to unpack None Container" (214-216) |
| `Containers.Discard` | src/lib.rs:132-139 | a filled `Option` has its value released when overwritten or dropped, a filled `MaybeUninit` has it leaked, and an empty container disposes of nothing |
| `Containers.UnpackAfterFill` | src/lib.rs:186-187 | the contract's safety rule: unpacking right after a fill is allowed and returns the filled value |
| `Containers.CheckedUnpackFailsOnlyWhenEmpty` | src/lib.rs:214-216 | the checked container's `expect` fails exactly on the empty container |
| `Containers.FillAllLastWins` | src/lib.rs:210-212 | after any non-empty sequence of fills the container is filled with the last value and unpacking returns exactly that value, for both strategies |
| `Containers.FillAllTally` | src/lib.rs:132-139 | each fill displaces the value before it; the checked container releases every displaced value and the unchecked one leaks it, and nothing else changes in the tally |
| `Containers.ScopeDropTally` | src/lib.rs:126-139 | n fills followed by dropping the slot without unlocking: the checked container releases exactly n values and leaks none; the unchecked one leaks exactly n and releases none |
| `Containers.ScopeUnpackTally` | src/lib.rs:178-181 | n > 0 fills followed by unpacking: the last value comes out, and exactly n - 1 values were released (checked) or leaked (unchecked) |
| `Slots.Slot.With` | src/lib.rs:151-157 | a new slot holds `C::empty()`, has no fills, and carries a freshly allocated brand with no proof minted yet, so no proof that already exists, from any slot, carries it |
| `Slots.Slot.Fill` | src/lib.rs:166-169 | stores the value through the container, disposes of the old value as that container does, and returns a genuine proof of the slot's unchanged brand; the slot invariant is kept |
| `Slots.Slot.Unlock` | src/lib.rs:173-181 | accepts only a genuine proof of the slot's own brand; proves from the invariant that a fill happened (the `unpack` precondition), returns the last filled value and consumes the slot |
| `Slots.Slot.Drop` | src/lib.rs:126-130 | dropping an un-unlocked slot disposes of the stored value as its container does, and consumes the slot |
| `Scenarios.RoundTrip` | src/lib.rs:240-258 | filling a new slot with `v` and unlocking it with the returned proof yields `v`, for both strategies |
| `Scenarios.LastFillWins` | src/lib.rs:164-169 | after two fills, unlocking with the first fill's proof is accepted and yields the second value |
| `Scenarios.SafeDoesntLeak` | src/lib.rs:266-285 | a checked slot filled twice has released 0 values after the first fill, 1 after the second, and 2 after being dropped |
| `Scenarios.LeakyLeaks` | src/lib.rs:132-139 | an unchecked slot filled twice and dropped releases nothing and leaks both values, the first one at the second fill |
| `Scenarios.NestedScopes` | src/lib.rs:82-104 | in two nested scopes over the same element type, each proof's brand differs from the other slot's brand, so neither cross unlock is admitted, and each slot's own proof unlocks its own value. As written, the two `compile_fail` examples call `write`, which `Slot` does not have (only `fill`, 166), and import nothing, so they fail to compile regardless of brands; the model states what they evidently intend, using `Fill` |
| `Scenarios.SuccessiveScopes` | src/lib.rs:173-178 | two slots made one after the other by the same construction: the first slot's proof, kept after its slot was unlocked, does not meet the second slot's `Unlock` precondition, before or after the second fill; each slot's own proof unlocks its own value |

## Left out

- `Slot.With`: the callback passed to `Slot::with`, and the forwarding of its result, are not modelled. A Dafny callback cannot be a value that mutates the slot. The callback is the caller's code that runs on the slot after `With` constructs it. Rust's `with` only forwards the callback's result, which has no counterpart here.
- The brand's compile-time mechanism is not modelled: the invariant `PhantomData<fn(&'id ()) -> &'id ()>` marker and the higher-ranked `for<'id>` bound. A freshly allocated ghost brand object plus preconditions stand in for them.
- Rust's field privacy is not modelled. The brand is a constant, so brand distinctness holds whatever a client does; but a client that writes `Slot.contents`, `Slot.fills`, `Slot.tally` or `Scope.proven` directly, rather than only through `With`, `Fill`, `Unlock` and `Drop`, can set up a slot state that `Valid()` accepts without the corresponding fills, which the private fields of `Slot` and `Proof` rule out in Rust.
- The `Container` contract is open to user implementations in Rust. The model covers only the two implementations the crate provides, because the contract cannot be left open without traits.
- Memory layout is not modelled, including the zero-overhead test (`size_of::<LeakySlot<u64>>() == 8`).
- Raw memory semantics of `MaybeUninit::write` and `assume_init` are not modelled. Storage is either `Uninit` or `Written(v)`.
- The accounting counts released and leaked values. It does not model the values' destructors. The test's `AtomicUsize` counter and `Drop` impl are reduced to that count.
- The crate-level lint attributes are not modelled; they are compiler configuration.
- The `FromStr`/`format!` usage example in the crate documentation is not modelled; it is an illustration of a caller.
