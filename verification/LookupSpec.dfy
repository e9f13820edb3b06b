// What the prefetching lookup benchmarks compute: how many of the looked-up keys occur.

module LookupSpec {

  ghost predicate Sorted(v: seq<int>) {
    forall i, j :: 0 <= i < j < |v| ==> v[i] <= v[j]
  }

  function Hit(v: seq<int>, key: int): nat {
    if key in v then 1 else 0
  }

  /** The number of lookups that occur in v. */
  function Hits(v: seq<int>, lookups: seq<int>): nat {
    if lookups == [] then 0 else Hits(v, lookups[..|lookups| - 1]) + Hit(v, lookups[|lookups| - 1])
  }

  lemma HitsStep(v: seq<int>, lookups: seq<int>, n: nat)
    requires n < |lookups|
    ensures Hits(v, lookups[..n + 1]) == Hits(v, lookups[..n]) + Hit(v, lookups[n])
  {
    assert lookups[..n + 1][..n] == lookups[..n];
  }

  /** If key occurs in v at all, it occurs among v[first..first + len]. */
  ghost predicate Narrowed(v: seq<int>, key: int, first: nat, len: nat) {
    && first + len <= |v|
    && forall k :: 0 <= k < |v| && v[k] == key ==> first <= k < first + len
  }

  /** One probe of the binary search keeps the invariant unless it hits. */
  lemma Probe(v: seq<int>, key: int, first: nat, len: nat)
    requires Sorted(v) && Narrowed(v, key, first, len) && 0 < len
    ensures var half := len / 2;
            var x := v[first + half];
            if x == key then key in v
            else if x < key then Narrowed(v, key, first + half + 1, len - half - 1)
            else Narrowed(v, key, first, half)
  {
    var mid := first + len / 2;
    forall k | 0 <= k < |v| && v[k] == key
      ensures v[mid] < key ==> mid < k
      ensures key < v[mid] ==> k < mid
    {
    }
  }
}
