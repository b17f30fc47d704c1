/** The storage contract behind a slot: a `Container` holds at most one value, starts
    empty, is filled, and is unpacked once it has been filled. Two implementations exist:
    the checked one, backed by an `Option`, and the unchecked, zero-overhead one, backed by
    raw storage (`MaybeUninit`). They differ in what happens to a value that a second fill
    overwrites or that is still inside when the container goes away: the checked container
    releases it (runs its destructor), the unchecked one leaks it. */
module Containers {

  datatype Option<T> = None | Some(value: T)

  /** Raw storage for one value, as `MaybeUninit` holds it: never written, or holding the
      bytes of a written value. This is the state of the memory, not a run-time tag: the
      executable operations `Empty`, `Fill` and `Unpack` never branch on it; `Unpack`
      demands it as a precondition, and only the ghost accounting inspects it. */
  datatype Memory<T> = Uninit | Written(value: T)

  /** Which implementation a slot uses: `Checked` is `SafeSlot`, `Unchecked` is `LeakySlot`. */
  datatype Strategy = Checked | Unchecked

  /** The two implementations of the contract, as the values a slot stores inline. */
  datatype Container<T> = OptionCell(opt: Option<T>) | UninitCell(mem: Memory<T>)

  /** The diagnostic of the checked container's defensive failure. */
  const UnpackNoneMessage: string := "trying to unpack None Container"

  /** An abnormal termination (a Rust panic) with its message. */
  datatype Panic = Panic(message: string)

  datatype Result<T> = Ok(value: T) | Err(panic: Panic)

  ghost function StrategyOf<T>(c: Container<T>): (s: Strategy) {
    if c.OptionCell? then Checked else Unchecked
  }

  /** The container holds a value: some fill has happened since it was made empty. */
  ghost predicate IsFilled<T>(c: Container<T>) {
    match c
    case OptionCell(opt) => opt.Some?
    case UninitCell(mem) => mem.Written?
  }

  /** The value a filled container holds. */
  ghost function Stored<T>(c: Container<T>): (v: T)
    requires IsFilled(c)
  {
    match c
    case OptionCell(opt) => opt.value
    case UninitCell(mem) => mem.value
  }

  /** `empty`: `None`, or uninitialised storage. */
  function Empty<T>(s: Strategy): (c: Container<T>)
    ensures StrategyOf(c) == s
    ensures !IsFilled(c)
  {
    match s
    case Checked => OptionCell(None)
    case Unchecked => UninitCell(Uninit)
  }

  /** `fill`: `*self = Some(val)`, or `self.write(val)`. Neither looks at what was there. */
  function Fill<T>(c: Container<T>, v: T): (c': Container<T>)
    ensures StrategyOf(c') == StrategyOf(c)
    ensures IsFilled(c') && Stored(c') == v
  {
    match c
    case OptionCell(_) => OptionCell(Some(v))
    case UninitCell(_) => UninitCell(Written(v))
  }

  /** `unpack`: its contract is that a fill came first. The checked container defends
      that with a panic; for the unchecked one a violation is undefined behaviour, so here
      it is a precondition. */
  function Unpack<T>(c: Container<T>): (r: Result<T>)
    requires c.UninitCell? ==> IsFilled(c)
    ensures r.Ok? <==> IsFilled(c)
    ensures r.Ok? ==> r.value == Stored(c)
    ensures r.Err? ==> r.panic == Panic(UnpackNoneMessage)
  {
    match c
    case OptionCell(opt) =>
      if opt.Some? then Ok(opt.value) else Err(Panic(UnpackNoneMessage))
    case UninitCell(mem) => Ok(mem.value)
  }

  /** What becomes of a displaced value. */
  datatype Disposal = Nothing | Released | Leaked

  /** The fate of what `c` holds when a fill overwrites it or when `c` is dropped: an
      `Option` runs the value's destructor, `MaybeUninit` never does. */
  ghost function Discard<T>(c: Container<T>): (d: Disposal)
    ensures d == Nothing <==> !IsFilled(c)
    ensures d == Released <==> c.OptionCell? && IsFilled(c)
    ensures d == Leaked <==> c.UninitCell? && IsFilled(c)
  {
    if !IsFilled(c) then Nothing
    else if c.OptionCell? then Released
    else Leaked
  }

  /** How many stored values have been released (destructor run) and leaked (never run). */
  datatype Tally = Tally(released: nat, leaked: nat)

  ghost function Record(t: Tally, d: Disposal): (t': Tally) {
    match d
    case Nothing => t
    case Released => Tally(t.released + 1, t.leaked)
    case Leaked => Tally(t.released, t.leaked + 1)
  }

  /** A container together with the tally of the values it has disposed of so far. */
  datatype Run<T> = Run(contents: Container<T>, tally: Tally)

  ghost function Start<T>(s: Strategy): (r: Run<T>) {
    Run(Empty(s), Tally(0, 0))
  }

  /** One fill: the new value goes in and the old one, if any, is disposed of. */
  ghost function FillStep<T>(r: Run<T>, v: T): (r': Run<T>) {
    Run(Fill(r.contents, v), Record(r.tally, Discard(r.contents)))
  }

  /** The fills `vs`, in order. */
  ghost function FillAll<T>(r: Run<T>, vs: seq<T>): (r': Run<T>)
    decreases |vs|
  {
    if vs == [] then r else FillAll(FillStep(r, vs[0]), vs[1..])
  }

  /** Dropping the container at the end of its scope without unpacking it. */
  ghost function DropTally<T>(r: Run<T>): (t: Tally) {
    Record(r.tally, Discard(r.contents))
  }

  /** The safety contract of `Container`: unpacking after a fill is always allowed and
      gives back the filled value, whatever the container held before. */
  lemma UnpackAfterFill<T>(c: Container<T>, v: T)
    ensures Unpack(Fill(c, v)) == Ok(v)
  {
  }

  /** The checked container's failure is reached only when no fill has happened. */
  lemma CheckedUnpackFailsOnlyWhenEmpty<T>(c: Container<T>)
    requires c.OptionCell?
    ensures Unpack(c).Err? <==> c == Empty(Checked)
  {
  }

  /** A fill after more fills: appending one value runs one more step. */
  lemma {:induction false} FillAllSnoc<T>(r: Run<T>, vs: seq<T>, v: T)
    ensures FillAll(r, vs + [v]) == FillStep(FillAll(r, vs), v)
    decreases |vs|
  {
    if vs == [] {
      assert [] + [v] == [v];
      assert [v][1..] == [];
    } else {
      assert (vs + [v])[0] == vs[0];
      assert (vs + [v])[1..] == vs[1..] + [v];
      FillAllSnoc(FillStep(r, vs[0]), vs[1..], v);
    }
  }

  /** The last fill wins: after the fills `vs` the container holds the last of them and
      unpacking it yields exactly that value, for both strategies. */
  lemma {:induction false} FillAllLastWins<T>(r: Run<T>, vs: seq<T>)
    requires vs != []
    ensures StrategyOf(FillAll(r, vs).contents) == StrategyOf(r.contents)
    ensures IsFilled(FillAll(r, vs).contents)
    ensures Stored(FillAll(r, vs).contents) == vs[|vs| - 1]
    ensures Unpack(FillAll(r, vs).contents) == Ok(vs[|vs| - 1])
    decreases |vs|
  {
    if |vs| > 1 {
      FillAllLastWins(FillStep(r, vs[0]), vs[1..]);
      assert vs[1..][|vs[1..]| - 1] == vs[|vs| - 1];
    }
  }

  /** Every fill but the first displaces the value before it (and the first one displaces
      what was already there, if anything). The checked container releases each displaced
      value, the unchecked one leaks it. */
  lemma {:induction false} FillAllTally<T>(r: Run<T>, vs: seq<T>)
    requires vs != []
    ensures var n := |vs| - 1 + (if IsFilled(r.contents) then 1 else 0);
      FillAll(r, vs).tally ==
        if r.contents.OptionCell? then Tally(r.tally.released + n, r.tally.leaked)
        else Tally(r.tally.released, r.tally.leaked + n)
    decreases |vs|
  {
    if |vs| > 1 {
      FillAllTally(FillStep(r, vs[0]), vs[1..]);
    }
  }

  /** A whole scope that fills a fresh container with `vs` and is left without unpacking:
      the checked container has released every value exactly once and leaked none; the
      unchecked one has leaked every value and released none. */
  lemma ScopeDropTally<T>(s: Strategy, vs: seq<T>)
    ensures DropTally(FillAll(Start(s), vs)) ==
      if s == Checked then Tally(|vs|, 0) else Tally(0, |vs|)
  {
    if vs != [] {
      FillAllTally(Start(s), vs);
      FillAllLastWins(Start<T>(s), vs);
    }
  }

  /** A whole scope that fills a fresh container with `vs` and then unpacks it: the last
      value comes out, and each earlier one was released (checked) or leaked (unchecked)
      when the next fill overwrote it. */
  lemma ScopeUnpackTally<T>(s: Strategy, vs: seq<T>)
    requires vs != []
    ensures IsFilled(FillAll(Start<T>(s), vs).contents)
    ensures Unpack(FillAll(Start(s), vs).contents) == Ok(vs[|vs| - 1])
    ensures FillAll(Start(s), vs).tally ==
      if s == Checked then Tally(|vs| - 1, 0) else Tally(0, |vs| - 1)
  {
    FillAllTally(Start(s), vs);
    FillAllLastWins(Start<T>(s), vs);
  }
}
