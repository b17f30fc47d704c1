/** The slot / proof protocol. A slot is created empty inside a fresh scope, whose brand
    tags it; filling it returns a proof carrying the same brand; unlocking consumes the
    slot and needs a proof of its own brand. In Rust the brand is an invariant lifetime
    that the compiler refuses to unify across scopes; here it is a ghost object allocated
    afresh by each `With`, so no two slots share one, and matching brands is a
    precondition. */
module Slots {
  import opened Containers

  /** The brand of one scope. A Rust `Proof` can only be built by `fill` (its field is
      private); `proven` records that a fill in this scope has produced one. */
  class Scope {
    ghost var proven: bool

    ghost constructor ()
      ensures !proven
    {
      proven := false;
    }
  }

  /** The receipt of a fill. Zero-size: its brand exists only for the verifier. */
  datatype Proof = Proof(ghost brand: Scope)

  /** `p` is genuine: it was produced by a `Fill` in its scope. */
  ghost predicate Minted(p: Proof)
    reads p.brand
  {
    p.brand.proven
  }

  /** `Slot<'id, T, C>`: `strategy` stands for `C` (so `SafeSlot` is a slot whose strategy is
      `Checked`, `LeakySlot` one whose strategy is `Unchecked`), `brand` for `'id`. The ghost
      fields record what the program cannot observe: the values filled so far, how many
      displaced values were released or leaked, and whether the slot still exists (unlocking
      or dropping it moves it out of existence). */
  class Slot<T> {
    const strategy: Strategy
    ghost const brand: Scope
    var contents: Container<T>
    ghost var fills: seq<T>
    ghost var tally: Tally
    ghost var live: bool

    /** A proof of the slot's brand exists exactly when a fill has happened; and while the
        slot exists its container and tally are what the fills so far, applied to an empty
        container, produce. */
    ghost predicate Valid()
      reads this, brand
    {
      (brand.proven <==> fills != [])
      && (live ==> Run(contents, tally) == FillAll(Start(strategy), fills))
    }

    /** `Slot::with`: a new empty slot tagged with a brand allocated here, so no proof
        that exists yet, whatever slot it came from, can unlock it. The callback it is
        passed is the code that runs on the slot after construction. */
    constructor With(strategy: Strategy)
      ensures Valid() && live
      ensures this.strategy == strategy
      ensures fresh(brand) && !brand.proven
      ensures contents == Empty(strategy) && fills == [] && tally == Tally(0, 0)
    {
      this.strategy := strategy;
      brand := new Scope();
      contents := Empty(strategy);
      fills := [];
      tally := Tally(0, 0);
      live := true;
    }

    /** `fill`: stores `v` through the container, which disposes of any value it held, and
        returns a proof of this slot's brand. Every fill's proof is the same proof. */
    method Fill(v: T) returns (proof: Proof)
      requires Valid() && live
      modifies this, brand
      ensures Valid() && live
      ensures proof == Proof(brand) && Minted(proof)
      ensures contents == Containers.Fill(old(contents), v)
      ensures tally == Record(old(tally), Discard(old(contents)))
      ensures fills == old(fills) + [v]
    {
      FillAllSnoc(Start(strategy), fills, v);
      tally := Record(tally, Discard(contents));
      contents := Containers.Fill(contents, v);
      fills := fills + [v];
      brand.proven := true;
      proof := Proof(brand);
    }

    /** `unlock`: accepts only a genuine proof of this slot's own brand, consumes the
        slot and returns what the container unpacks. The proof implies that a fill has
        happened, which is the precondition of the unchecked container's `unpack`; and the
        checked container's failure is never reached. */
    method Unlock(proof: Proof) returns (v: T)
      requires Valid() && live
      requires proof.brand == brand && Minted(proof)
      modifies this
      ensures Valid() && !live
      ensures fills == old(fills) && tally == old(tally) && contents == old(contents)
      ensures fills != [] && v == fills[|fills| - 1]
    {
      FillAllLastWins(Start(strategy), fills);
      var r := Unpack(contents);
      v := r.value;
      live := false;
    }

    /** The slot goes out of scope without being unlocked: its container is dropped, which
        releases the stored value for the checked strategy and leaks it for the unchecked one. */
    method Drop()
      requires Valid() && live
      modifies this
      ensures Valid() && !live
      ensures fills == old(fills) && contents == old(contents)
      ensures tally == DropTally(Run(old(contents), old(tally)))
    {
      tally := Record(tally, Discard(contents));
      live := false;
    }
  }
}
