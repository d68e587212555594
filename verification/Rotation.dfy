/** The rotation that shares HF slots fairly among inactive cycles (src/orchestrator/hf.rs). */
module Rotation {

  /** `InactiveCycleRotation` as a value. */
  datatype State = State(generation: nat, next: nat)

  function OnGeneration(s: State, generation: nat): State {
    if s.generation == generation then s else State(generation, 0)
  }

  /** `inactive_indices`. */
  function InactiveIndices(offset: nat, n: nat, take: nat): seq<nat> {
    if n == 0 then [] else seq(if take <= n then take else n, i requires 0 <= i => (offset + i) % n)
  }

  class InactiveCycleRotation {
    var generation: nat
    var next: nat

    ghost function View(): State
      reads this
    {
      State(generation, next)
    }

    constructor ()
      ensures View() == State(0, 0)
    {
      generation, next := 0, 0;
    }

    method OffsetFor(snapshotGeneration: nat, len: nat) returns (offset: nat)
      modifies this
      ensures View() == OnGeneration(old(View()), snapshotGeneration)
      ensures offset == if len == 0 then 0 else View().next % len
    {
      if generation != snapshotGeneration {
        generation, next := snapshotGeneration, 0;
      }
      return if len == 0 then 0 else next % len;
    }

    method Advance(snapshotGeneration: nat, len: nat, served: nat)
      modifies this
      ensures View() == if old(generation) == snapshotGeneration && len > 0
                        then State(snapshotGeneration, (old(next) + served) % len) else old(View())
    {
      if generation == snapshotGeneration && len > 0 {
        next := (next + served) % len;
      }
    }
  }

  // ---------------------------------------------------------------- arithmetic on the ring

  lemma {:induction false} ModShift(x: nat, q: nat, n: nat)
    requires n > 0
    ensures (x + q * n) % n == x % n
  {
    if q == 0 {
    } else {
      ModShift(x, q - 1, n);
      assert x + q * n == (x + (q - 1) * n) + n;
      ModOnce(x + (q - 1) * n, n);
    }
  }

  lemma ModOnce(x: nat, n: nat)
    requires n > 0
    ensures (x + n) % n == x % n
  {
    DivMod(x, n);
    assert (x / n + 1) * n == (x / n) * n + n;
    ModUnique(x + n, x / n + 1, x % n, n);
  }

  lemma {:induction false} MulGap(a: nat, b: nat, n: nat)
    requires a < b
    ensures a * n + n <= b * n
  {
    if a + 1 < b {
      MulGap(a, b - 1, n);
    }
    assert b * n == (b - 1) * n + n;
  }

  /** Quotient and remainder are determined by their equation. */
  lemma ModUnique(x: nat, q: nat, r: nat, n: nat)
    requires n > 0 && r < n && x == q * n + r
    ensures x / n == q && x % n == r
  {
    DivMod(x, n);
    if x / n < q {
      MulGap(x / n, q, n);
    } else if x / n > q {
      MulGap(q, x / n, n);
    }
  }

  lemma DivMod(x: nat, n: nat)
    requires n > 0
    ensures x == (x / n) * n + x % n
  {
  }

  lemma ModAdd(a: nat, i: nat, n: nat)
    requires n > 0
    ensures (a % n + i) % n == (a + i) % n
  {
    ModShift(a % n + i, a / n, n);
    assert a % n + i + (a / n) * n == a + i;
  }

  /** How many t in [a, a + len) fall on index `j` of a ring of `n`. */
  function Falls(j: nat, n: nat, a: nat, len: nat): nat
    requires n > 0
  {
    if len == 0 then 0 else Falls(j, n, a, len - 1) + if (a + len - 1) % n == j then 1 else 0
  }

  lemma {:induction false} FallsSplit(j: nat, n: nat, a: nat, x: nat, y: nat)
    requires n > 0
    ensures Falls(j, n, a, x + y) == Falls(j, n, a, x) + Falls(j, n, a + x, y)
  {
    if y == 0 {
    } else {
      FallsSplit(j, n, a, x, y - 1);
      assert a + (x + y) - 1 == (a + x) + y - 1;
    }
  }

  lemma {:induction false} FallsIgnoresLaps(j: nat, n: nat, a: nat, len: nat)
    requires n > 0
    ensures Falls(j, n, a % n, len) == Falls(j, n, a, len)
  {
    if len == 0 {
    } else {
      FallsIgnoresLaps(j, n, a, len - 1);
      ModAdd(a, len - 1, n);
      assert a % n + (len - 1) == a % n + len - 1 && a + (len - 1) == a + len - 1;
    }
  }

  /** From an offset inside the ring, a stretch no longer than a lap falls on `j` once or not at all. */
  lemma {:induction false} FallsWithinLap(j: nat, n: nat, o: nat, len: nat)
    requires o < n && j < n && len <= n
    ensures Falls(j, n, o, len) == if o <= j < o + len || j + n < o + len then 1 else 0
  {
    if len == 0 {
    } else {
      FallsWithinLap(j, n, o, len - 1);
      var t := o + len - 1;
      if t < n {
        ModUnique(t, 0, t, n);
      } else {
        ModUnique(t, 1, t - n, n);
      }
    }
  }

  function Floor(x: nat, n: nat): nat requires n > 0 { x / n }

  function Ceiling(x: nat, n: nat): nat requires n > 0 { (x + n - 1) / n }

  lemma FloorAndCeiling(x: nat, n: nat)
    requires n > 0
    ensures x < n ==> Floor(x, n) == 0 && Ceiling(x, n) == if x > 0 then 1 else 0
    ensures x >= n ==> Floor(x, n) == Floor(x - n, n) + 1 && Ceiling(x, n) == Ceiling(x - n, n) + 1
  {
    if x < n {
      ModUnique(x, 0, x, n);
      if x > 0 {
        ModUnique(x + n - 1, 1, x - 1, n);
      } else {
        ModUnique(n - 1, 0, n - 1, n);
      }
    } else {
      DivOnce(x - n, n);
      DivOnce(x - n + n - 1, n);
    }
  }

  /** A whole lap falls on every index once. */
  lemma LapFallsOnce(j: nat, n: nat, a: nat)
    requires j < n
    ensures Falls(j, n, a, n) == 1
  {
    FallsIgnoresLaps(j, n, a, n);
    FallsWithinLap(j, n, a % n, n);
  }

  /** Any stretch falls on each index of the ring equally often, up to one. */
  lemma {:induction false} FallsEvenly(j: nat, n: nat, a: nat, len: nat)
    requires j < n
    ensures Floor(len, n) <= Falls(j, n, a, len) <= Ceiling(len, n)
    decreases len
  {
    FloorAndCeiling(len, n);
    if len < n {
      FallsIgnoresLaps(j, n, a, len);
      FallsWithinLap(j, n, a % n, len);
    } else {
      FallsEvenly(j, n, a + n, len - n);
      FallsSplit(j, n, a, n, len - n);
      LapFallsOnce(j, n, a);
    }
  }

  lemma DivOnce(x: nat, n: nat)
    requires n > 0
    ensures (x + n) / n == x / n + 1
  {
    DivMod(x, n);
    assert (x / n + 1) * n == (x / n) * n + n;
    ModUnique(x + n, x / n + 1, x % n, n);
  }

  // ---------------------------------------------------------------- fairness over ticks

  /** One completed tick: `served` of `n` inactive cycles, with the offset taken from a snapshot of `snap`
      cycles.  Yields the indices served and the rotation after `advance`. */
  function Tick(s: State, generation: nat, snap: nat, n: nat, served: nat): (State, seq<nat>) {
    var s := OnGeneration(s, generation);
    var offset := if snap == 0 then 0 else s.next % snap;
    (if n > 0 then State(generation, (s.next + served) % n) else s, InactiveIndices(offset, n, served))
  }

  /** A completed tick, through the object: offset, indices, then `advance` with the same generation. */
  method ServeTick(rotation: InactiveCycleRotation, generation: nat, snap: nat, n: nat, served: nat)
    returns (indices: seq<nat>)
    modifies rotation
    ensures (rotation.View(), indices) == Tick(old(rotation.View()), generation, snap, n, served)
  {
    var offset := rotation.OffsetFor(generation, snap);
    indices := InactiveIndices(offset, n, served);
    rotation.Advance(generation, n, served);
  }

  /** Within a generation the stored position stays inside the snapshot. */
  predicate InRange(s: State, generation: nat, snap: nat) { s.generation == generation ==> s.next < snap }

  /** Every tick keeps it there, however many of the snapshot's cycles are inactive. */
  lemma TickKeepsRange(s: State, generation: nat, snap: nat, n: nat, served: nat)
    requires InRange(s, generation, snap) && n <= snap && 0 < snap
    ensures InRange(Tick(s, generation, snap, n, served).0, generation, snap)
  {
  }

  /** How often index `j` occurs. */
  function Times(xs: seq<nat>, j: nat): nat {
    if xs == [] then 0 else Times(xs[..|xs| - 1], j) + if xs[|xs| - 1] == j then 1 else 0
  }

  lemma {:induction false} TimesIsFalls(j: nat, n: nat, o: nat, len: nat)
    requires n > 0 && len <= n
    ensures Times(InactiveIndices(o, n, len), j) == Falls(j, n, o, len)
  {
    var xs := InactiveIndices(o, n, len);
    if len == 0 {
    } else {
      TimesIsFalls(j, n, o, len - 1);
      assert xs[..len - 1] == InactiveIndices(o, n, len - 1);
    }
  }

  /** How often `j` is served by completed ticks that serve `ks[0]`, `ks[1]`, … cycles. */
  function Served(s: State, generation: nat, snap: nat, n: nat, ks: seq<nat>, j: nat): nat
    decreases |ks|
  {
    if ks == [] then 0
    else
      var (s', xs) := Tick(s, generation, snap, n, ks[0]);
      Times(xs, j) + Served(s', generation, snap, n, ks[1..], j)
  }

  function Sum(ks: seq<nat>): nat { if ks == [] then 0 else ks[0] + Sum(ks[1..]) }

  /** The ticks serve one contiguous stretch of the ring. */
  lemma {:induction false} ServedIsStretch(s: State, generation: nat, snap: nat, n: nat, ks: seq<nat>, j: nat)
    requires j < n <= snap && InRange(s, generation, snap)
    requires forall i :: 0 <= i < |ks| ==> ks[i] <= n
    ensures Served(s, generation, snap, n, ks, j) == Falls(j, n, OnGeneration(s, generation).next, Sum(ks))
    decreases |ks|
  {
    if ks == [] {
    } else {
      var o, k := OnGeneration(s, generation).next, ks[0];
      var (s', xs) := Tick(s, generation, snap, n, k);
      ModUnique(o, 0, o, snap);
      TimesIsFalls(j, n, o, k);
      ServedIsStretch(s', generation, snap, n, ks[1..], j);
      FallsIgnoresLaps(j, n, o + k, Sum(ks[1..]));
      FallsSplit(j, n, o, k, Sum(ks[1..]));
    }
  }

  /** Fairness: with a fixed snapshot and `n` inactive cycles, whatever number each completed tick serves,
      every index is served the floor or the ceiling of its share. */
  lemma RotationIsFair(s: State, generation: nat, snap: nat, n: nat, ks: seq<nat>, j: nat)
    requires j < n <= snap && InRange(s, generation, snap)
    requires forall i :: 0 <= i < |ks| ==> ks[i] <= n
    ensures Floor(Sum(ks), n) <= Served(s, generation, snap, n, ks, j) <= Ceiling(Sum(ks), n)
  {
    ServedIsStretch(s, generation, snap, n, ks, j);
    FallsEvenly(j, n, OnGeneration(s, generation).next, Sum(ks));
  }

  /** No tick serves an index twice, and every served index is in range. */
  lemma TickServesOnce(s: State, generation: nat, snap: nat, n: nat, served: nat, j: nat)
    requires j < n <= snap && InRange(s, generation, snap) && served <= n
    ensures Times(Tick(s, generation, snap, n, served).1, j) <= 1
    ensures |Tick(s, generation, snap, n, served).1| == served
    ensures forall x :: x in Tick(s, generation, snap, n, served).1 ==> x < n
  {
    var o := OnGeneration(s, generation).next;
    ModUnique(o, 0, o, snap);
    TimesIsFalls(j, n, o, served);
    FallsIgnoresLaps(j, n, o, served);
    FallsWithinLap(j, n, o % n, served);
  }

  /** The share after `m` ticks of `k`. */
  lemma {:induction false} EqualTicks(k: nat, m: nat)
    ensures Sum(seq(m, i => k)) == m * k
  {
    if m == 0 {
    } else {
      assert seq(m, i => k)[1..] == seq(m - 1, i => k);
      EqualTicks(k, m - 1);
    }
  }

  lemma EqualTicksAreFair(s: State, generation: nat, snap: nat, n: nat, k: nat, m: nat, j: nat)
    requires j < n <= snap && InRange(s, generation, snap) && k <= n
    ensures Floor(m * k, n) <= Served(s, generation, snap, n, seq(m, i => k), j) <= Ceiling(m * k, n)
  {
    EqualTicks(k, m);
    RotationIsFair(s, generation, snap, n, seq(m, i => k), j);
  }
}
