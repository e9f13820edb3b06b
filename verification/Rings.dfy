// Circular buffers indexed by an ever-growing counter (utils/circular_array.h).
//
// `Ring` is the value a `circular_array_t` holds; the work-stealing queues are
// specified over it.  `CircularArray` is the heap object itself.

module Rings {

  datatype Ring<T> = Ring(slots: seq<T>) {
    predicate Valid() { 0 < |slots| }

    function Size(): nat { |slots| }

    function Get(i: int): T
      requires Valid()
    {
      slots[i % |slots|]
    }

    function Set(i: int, x: T): (r: Ring<T>)
      requires Valid()
      ensures r.Size() == Size()
    {
      Ring(slots[i % |slots| := x])
    }

    /** The elements at counters lo, lo+1, ..., hi-1. */
    function Window(lo: int, hi: int): (w: seq<T>)
      requires Valid() && lo <= hi
      ensures |w| == hi - lo
      ensures forall k {:trigger w[k]} :: 0 <= k < hi - lo ==> w[k] == Get(lo + k)
    {
      seq(hi - lo, k requires 0 <= k < hi - lo => Get(lo + k))
    }
  }

  /** Two counters closer than the buffer size use different slots. */
  lemma DistinctSlots(i: int, j: int, n: int)
    requires i < j < i + n
    ensures i % n != j % n
  {
    if i % n == j % n {
      assert j - i == n * (j / n - i / n);
      var d := j / n - i / n;
      if d <= 0 {
        MulNonPos(n, d);
      } else {
        MulAtLeast(n, d);
      }
    }
  }

  lemma MulNonPos(n: int, d: int)
    requires 0 <= n && d <= 0
    ensures n * d <= 0
  {}

  lemma MulAtLeast(n: int, d: int)
    requires 0 <= n && 1 <= d
    ensures n <= n * d
  {}

  /** Writing one counter is read back there and leaves every live neighbour alone. */
  lemma SetGet<T>(r: Ring<T>, b: int, x: T)
    requires r.Valid()
    ensures r.Set(b, x).Get(b) == x
    ensures forall i :: b - r.Size() < i < b + r.Size() && i != b ==> r.Set(b, x).Get(i) == r.Get(i)
  {
    forall i | b - r.Size() < i < b + r.Size() && i != b
      ensures r.Set(b, x).Get(i) == r.Get(i)
    {
      if i < b {
        DistinctSlots(i, b, r.Size());
      } else {
        DistinctSlots(b, i, r.Size());
      }
    }
  }

  /** Windows are equal as soon as every counter in range reads the same. */
  lemma SameWindow<T>(r: Ring<T>, r': Ring<T>, lo: int, hi: int)
    requires r.Valid() && r'.Valid() && lo <= hi
    requires forall i :: lo <= i < hi ==> r'.Get(i) == r.Get(i)
    ensures r'.Window(lo, hi) == r.Window(lo, hi)
  {
    forall k | 0 <= k < hi - lo
      ensures r'.Window(lo, hi)[k] == r.Window(lo, hi)[k]
    {
      assert r'.Get(lo + k) == r.Get(lo + k);
    }
  }

  lemma WindowEnds<T>(r: Ring<T>, lo: int, hi: int)
    requires r.Valid() && lo < hi
    ensures r.Window(lo, hi) == [r.Get(lo)] + r.Window(lo + 1, hi)
    ensures r.Window(lo, hi) == r.Window(lo, hi - 1) + [r.Get(hi - 1)]
  {
    assert r.Window(lo, hi) == [r.Get(lo)] + r.Window(lo + 1, hi);
    assert r.Window(lo, hi) == r.Window(lo, hi - 1) + [r.Get(hi - 1)];
  }

  /** What `circular_array_resize` promises: twice the room, same live elements.
      The other slots come from malloc and are unspecified. */
  ghost predicate IsResizeOf<T>(grown: Ring<T>, ring: Ring<T>, bottom: int, top: int) {
    && ring.Valid()
    && grown.Size() == 2 * ring.Size()
    && forall i :: top <= i < bottom ==> grown.Get(i) == ring.Get(i)
  }
}
