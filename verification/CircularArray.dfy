// The heap object behind every work-stealing queue (utils/circular_array.h).

module CircularArrays {
  import opened Rings

  function Pow2(k: nat): (p: nat)
    ensures 1 <= p
  {
    if k == 0 then 1 else 2 * Pow2(k - 1)
  }

  /** C's `a & b` on non-negative integers, bit by bit. */
  function BitAnd(a: nat, b: nat): nat {
    if a == 0 || b == 0 then 0
    else 2 * BitAnd(a / 2, b / 2) + (if a % 2 == 1 && b % 2 == 1 then 1 else 0)
  }

  /** Masking with 2^k - 1 is the remainder modulo 2^k. */
  lemma {:induction false} MaskIsModulo(idx: nat, k: nat)
    ensures BitAnd(idx, Pow2(k) - 1) == idx % Pow2(k)
  {
    if k > 0 {
      var h := Pow2(k - 1);
      MaskIsModulo(idx / 2, k - 1);
      assert (2 * h - 1) / 2 == h - 1 && (2 * h - 1) % 2 == 1;
      DoubleModulo(idx, h);
      if idx > 0 && h - 1 == 0 {
        assert BitAnd(idx / 2, 0) == 0;
      }
    }
  }

  lemma DoubleModulo(idx: nat, h: nat)
    requires 1 <= h
    ensures idx % (2 * h) == 2 * ((idx / 2) % h) + idx % 2
  {
    var q, r := (idx / 2) / h, (idx / 2) % h;
    assert idx / 2 == h * q + r;
    assert idx == (2 * h) * q + (2 * r + idx % 2);
    ModuloUnique(idx, 2 * h, q, 2 * r + idx % 2);
  }

  lemma ModuloUnique(a: nat, n: nat, q: nat, r: nat)
    requires r < n && a == n * q + r
    ensures a % n == r
  {
    var d := a / n - q;
    assert n * d == r - a % n by {
      assert a == n * (a / n) + a % n;
      assert n * d == n * (a / n) - n * q;
    }
    if d >= 1 {
      MulAtLeast(n, d);
    } else if d <= -1 {
      MulAtLeast(n, -d);
    }
  }

  class CircularArray<T(0)> {
    const logSize: nat
    const size: nat
    const mask: nat
    const buffer: array<T>

    ghost predicate Valid() {
      size == Pow2(logSize) && mask == size - 1 && buffer.Length == size
    }

    /** The ring this object stands for. */
    ghost function View(): (r: Ring<T>)
      reads buffer
      requires Valid()
      ensures r.Valid() && r.Size() == size
    {
      Ring(buffer[..])
    }

    constructor (logSize: nat)
      ensures Valid() && this.logSize == logSize && fresh(buffer)
    {
      this.logSize := logSize;
      this.size := Pow2(logSize);
      this.mask := Pow2(logSize) - 1;
      this.buffer := new T[Pow2(logSize)];
    }

    /** CA_GET */
    method Get(idx: nat) returns (x: T)
      requires Valid()
      ensures x == View().Get(idx)
    {
      MaskIsModulo(idx, logSize);
      x := buffer[BitAnd(idx, mask)];
    }

    /** CA_SET */
    method Set(idx: nat, x: T)
      requires Valid()
      modifies buffer
      ensures View() == old(View()).Set(idx, x)
    {
      MaskIsModulo(idx, logSize);
      buffer[BitAnd(idx, mask)] := x;
    }

    /** `circular_array_resize`: the live counters [top, bottom) read the same in
        the new array, and the old array is untouched. */
    method Resize(bottom: nat, top: nat) returns (grown: CircularArray<T>)
      requires Valid() && top <= bottom <= top + 2 * size
      ensures fresh(grown) && fresh(grown.buffer) && grown.Valid()
      ensures unchanged(buffer) && IsResizeOf(grown.View(), View(), bottom, top)
    {
      grown := new CircularArray<T>(logSize + 1);
      var i := top;
      while i < bottom
        invariant top <= i <= bottom
        invariant grown.Valid() && unchanged(buffer)
        invariant forall k :: top <= k < i ==> grown.View().Get(k) == View().Get(k)
      {
        var x := Get(i);
        SetGet(grown.View(), i, x);
        grown.Set(i, x);
        i := i + 1;
      }
    }
  }
}
