/** `MetricsClient.LockFreeSlidingWindowReservoir`: the bounded sample window a timer
    feeds during a flush and consumes with `getSnapshot`. */
module SlidingWindow {
  import opened JavaNumbers
  import opened Common

  const DEFAULT_MAX_WINDOW_SIZE: int := 65536

  /** The slot `update` overwrites once the window is full:
      `(int) (count & 0x7FFFFFFFL) % DEFAULT_MAX_WINDOW_SIZE`. The mask keeps the low 31
      bits, which for a two's-complement long is the non-negative residue mod 2^31. */
  function Slot(count: Long): (i: nat)
    ensures i < DEFAULT_MAX_WINDOW_SIZE
    ensures i == count % DEFAULT_MAX_WINDOW_SIZE
  {
    var low31 := count % 0x8000_0000;
    var q := count / 0x8000_0000;
    assert count == 0x8000_0000 * q + low31;
    assert count == DEFAULT_MAX_WINDOW_SIZE * (0x8000 * q) + low31;
    low31 % DEFAULT_MAX_WINDOW_SIZE
  }

  /** The window after one `update(v)` when the counter reads `count`: below capacity the
      sample is appended; at capacity exactly one slot is replaced. */
  function Updated(m: seq<Long>, count: Long, v: Long): (r: seq<Long>)
    ensures |m| != DEFAULT_MAX_WINDOW_SIZE ==> r == m + [v]
    ensures |m| == DEFAULT_MAX_WINDOW_SIZE ==>
      |r| == |m| && r[Slot(count)] == v &&
      forall j :: 0 <= j < |m| && j != Slot(count) ==> r[j] == m[j]
  {
    if |m| == DEFAULT_MAX_WINDOW_SIZE then m[Slot(count) := v] else m + [v]
  }

  /** The window after feeding `vs`, in order, to a reservoir holding `m` whose counter
      reads `count`; each update advances the counter by one (long arithmetic). */
  function Fed(m: seq<Long>, count: Long, vs: seq<Long>): seq<Long>
    decreases |vs|
  {
    if vs == [] then m
    else
      var n := |vs| - 1;
      Updated(Fed(m, count, vs[..n]), WrapLong(count + n), vs[n])
  }

  /** Feeding one more sample is one more `update`, with the counter advanced once per
      sample already fed. */
  lemma FedStep(m: seq<Long>, count: Long, vs: seq<Long>, i: nat)
    requires i < |vs|
    ensures Fed(m, count, vs[..i + 1]) == Updated(Fed(m, count, vs[..i]), WrapLong(count + i), vs[i])
  {
    var w := vs[..i + 1];
    assert |w| - 1 == i && w[..i] == vs[..i] && w[i] == vs[i];
  }

  /** The counter after the `(n+1)`-th update is the wrapped start plus `n + 1`. */
  lemma CountStep(count: Long, n: nat)
    ensures AddLong(WrapLong(count + n), 1) == WrapLong(count + (n + 1))
  {
    WrapLongAdd(count + n, 1);
  }

  /** The window never grows past its capacity: feeding `vs` leaves
      `min(|m| + |vs|, capacity)` samples. */
  lemma {:induction false} FedSize(m: seq<Long>, count: Long, vs: seq<Long>)
    requires |m| <= DEFAULT_MAX_WINDOW_SIZE
    ensures |Fed(m, count, vs)| == Min(|m| + |vs|, DEFAULT_MAX_WINDOW_SIZE)
    decreases |vs|
  {
    if vs != [] {
      FedSize(m, count, vs[..|vs| - 1]);
    }
  }

  /** As long as the capacity is not reached, feeding only appends, in order. */
  lemma {:induction false} FedAppends(m: seq<Long>, count: Long, vs: seq<Long>)
    requires |m| + |vs| <= DEFAULT_MAX_WINDOW_SIZE
    ensures Fed(m, count, vs) == m + vs
    decreases |vs|
  {
    if vs != [] {
      var n := |vs| - 1;
      FedAppends(m, count, vs[..n]);
      assert vs[..n] + [vs[n]] == vs;
      assert (m + vs[..n]) + [vs[n]] == m + vs;
    }
  }

  /** Every sample in the window was there before or was fed in, and the last sample
      fed is always kept. */
  lemma {:induction false} FedSamplesFromInputs(m: seq<Long>, count: Long, vs: seq<Long>)
    ensures forall x :: x in Fed(m, count, vs) ==> x in m || x in vs
    ensures vs != [] ==> vs[|vs| - 1] in Fed(m, count, vs)
    decreases |vs|
  {
    if vs != [] {
      var n := |vs| - 1;
      var before := Fed(m, count, vs[..n]);
      FedSamplesFromInputs(m, count, vs[..n]);
      forall x | x in Fed(m, count, vs) ensures x in m || x in vs {
        if x != vs[n] {
          assert x in before;
        }
      }
    }
  }

  class LockFreeSlidingWindowReservoir {
    var measurements: seq<Long>
    var count: Long

    ghost predicate Valid()
      reads this
    {
      |measurements| <= DEFAULT_MAX_WINDOW_SIZE
    }

    constructor ()
      ensures Valid() && measurements == [] && count == 0
    {
      measurements := [];
      count := 0;
    }

    function Size(): nat
      reads this
    {
      |measurements|
    }

    /** `update(value)`: the window changes as `Updated` says and `count` advances by one. */
    method Update(value: Long)
      requires Valid()
      modifies this
      ensures Valid()
      ensures measurements == Updated(old(measurements), old(count), value)
      ensures count == AddLong(old(count), 1)
    {
      var index := Slot(count);
      count := AddLong(count, 1);
      if |measurements| == DEFAULT_MAX_WINDOW_SIZE {
        measurements := measurements[index := value];
        return;
      }
      measurements := measurements + [value];
    }

    /** `getSnapshot()`: copies the window, in order, and clears it; the window is
      consumed, so a second snapshot with no update in between is empty. */
    method GetSnapshot() returns (values: seq<Long>)
      requires Valid()
      modifies this
      ensures Valid()
      ensures values == old(measurements)
      ensures measurements == [] && count == old(count)
    {
      var copy := new Long[|measurements|];
      for i := 0 to |measurements|
        modifies copy
        invariant copy[..i] == measurements[..i]
      {
        copy[i] := measurements[i];
      }
      values := copy[..];
      measurements := [];
    }
  }
}
