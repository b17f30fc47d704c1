/** Clients of the slot protocol: the crate's own tests and compile-fail examples, stated
    for every value and both strategies, and proved from the specifications alone. */
module Scenarios {
  import opened Containers
  import opened Slots

  /** `test_generic`: fill a new slot, unlock it with the proof, and get the value back. */
  method RoundTrip<T>(strategy: Strategy, v: T) returns (r: T)
    ensures r == v
  {
    var slot := new Slot<T>.With(strategy);
    var proof := slot.Fill(v);
    r := slot.Unlock(proof);
  }

  /** Fill twice and unlock with the first fill's proof: every proof of the slot is equally
      valid, and the second value comes out. */
  method LastFillWins<T>(strategy: Strategy, v1: T, v2: T) returns (r: T)
    ensures r == v2
  {
    var slot := new Slot<T>.With(strategy);
    var proof1 := slot.Fill(v1);
    var proof2 := slot.Fill(v2);
    r := slot.Unlock(proof1);
  }

  /** `safe_doesnt_leak`: a checked slot filled twice and never unlocked has released no
      value after the first fill, one after the second, and two once it is dropped. */
  method SafeDoesntLeak<T>(v1: T, v2: T)
      returns (ghost afterFirst: Tally, ghost afterSecond: Tally, ghost atEnd: Tally)
    ensures afterFirst == Tally(0, 0)
    ensures afterSecond == Tally(1, 0)
    ensures atEnd == Tally(2, 0)
  {
    var slot := new Slot<T>.With(Checked);
    var _ := slot.Fill(v1);
    afterFirst := slot.tally;
    var _ := slot.Fill(v2);
    afterSecond := slot.tally;
    slot.Drop();
    atEnd := slot.tally;
  }

  /** The same three steps on an unchecked slot: nothing is released, the first value is
      leaked by the second fill and the second value by the drop. */
  method LeakyLeaks<T>(v1: T, v2: T)
      returns (ghost afterFirst: Tally, ghost afterSecond: Tally, ghost atEnd: Tally)
    ensures afterFirst == Tally(0, 0)
    ensures afterSecond == Tally(0, 1)
    ensures atEnd == Tally(0, 2)
  {
    var slot := new Slot<T>.With(Unchecked);
    var _ := slot.Fill(v1);
    afterFirst := slot.tally;
    var _ := slot.Fill(v2);
    afterSecond := slot.tally;
    slot.Drop();
    atEnd := slot.tally;
  }

  /** The compile-fail examples: two nested `with` scopes over the same element type. A
      proof from either slot carries a brand the other slot does not accept, so neither
      cross unlock meets `Unlock`'s precondition; each slot accepts its own proof. */
  method NestedScopes(strategy: Strategy, v1: int, v2: int) returns (r1: int, r2: int)
    ensures r1 == v1 && r2 == v2
  {
    var slot1 := new Slot<int>.With(strategy);
    var slot2 := new Slot<int>.With(strategy);
    var proof1 := slot1.Fill(v1);
    var proof2 := slot2.Fill(v2);
    assert !(proof1.brand == slot2.brand && Minted(proof1));
    assert !(proof2.brand == slot1.brand && Minted(proof2));
    r2 := slot2.Unlock(proof2);
    r1 := slot1.Unlock(proof1);
  }

  /** Two scopes made one after the other by the same construction: the first slot's
      proof, kept after that slot was unlocked, does not unlock the second slot, even
      before the second slot is filled; the second slot accepts only its own proof. */
  method SuccessiveScopes(strategy: Strategy, v1: int, v2: int) returns (r1: int, r2: int)
    ensures r1 == v1 && r2 == v2
  {
    var slot1 := new Slot<int>.With(strategy);
    var proof1 := slot1.Fill(v1);
    r1 := slot1.Unlock(proof1);
    var slot2 := new Slot<int>.With(strategy);
    assert !(proof1.brand == slot2.brand && Minted(proof1));
    var proof2 := slot2.Fill(v2);
    assert !(proof1.brand == slot2.brand && Minted(proof1));
    r2 := slot2.Unlock(proof2);
  }
}
