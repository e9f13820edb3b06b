// Interleaved binary searches as coroutines: SeffBinarySearch and SeffMultiLookup
// (bench/prefetching_lookups_bench/libseff.c) over the ring of coroutines of
// bench/prefetching_lookups_bench/libseff_infra.h.

module SeffLookup {
  import opened LookupSpec

  const CAPACITY: nat := 256

  /** A coroutine running SeffBinarySearch, with the locals it keeps across its yield. */
  class Search {
    const v: seq<int>
    const key: int
    var first: nat
    var len: nat
    var half: nat
    var suspended: bool     // at the yield inside the loop

    ghost predicate Valid()
      reads this
    {
      && Sorted(v) && Narrowed(v, key, first, len)
      && (suspended ==> 0 < len && half == len / 2)
    }

    /** Bounds the number of times it can still be resumed. */
    ghost function Fuel(): (f: nat)
      requires Valid()
      reads this
      ensures 0 < f
    {
      if suspended then len else len + 1
    }

    constructor (v: seq<int>, key: int)
      requires Sorted(v)
      ensures Valid() && this.v == v && this.key == key
    {
      this.v, this.key := v, key;
      first, len, half, suspended := 0, |v|, 0, false;
    }

    /** Runs to the next yield (-1) or to the end (whether the key was found). */
    method Resume() returns (res: int)
      requires Valid()
      modifies this
      ensures res == -1 ==> Valid() && Fuel() < old(Fuel())
      ensures res != -1 ==> res == Hit(v, key)
    {
      if suspended {
        Probe(v, key, first, len);
        var x := v[first + half];
        if x < key {
          first := first + half + 1;
          len := len - half - 1;
        } else {
          len := half;
        }
        suspended := false;
        if x == key {
          return 1;
        }
      }
      if len > 0 {
        half := len / 2;
        suspended := true;
        return -1;
      }
      return 0;
    }
  }

  /** `size` elements of a ring, from position `start` on. */
  function Wrapped<T>(ring: seq<T>, start: nat, size: nat): (w: seq<T>)
    requires start < |ring| && size <= |ring|
    ensures |w| == size
  {
    if start + size <= |ring| then ring[start..start + size] else ring[start..] + ring[..start + size - |ring|]
  }

  /** The position i places after start. */
  function Slot(start: nat, i: nat, n: nat): nat
    requires start < n && i <= n
  {
    if start + i < n then start + i else start + i - n
  }

  lemma SlotIsModulo(start: nat, i: nat, n: nat)
    requires start < n && i <= n
    ensures Slot(start, i, n) == (start + i) % n
  {
    var at := Slot(start, i, n);
    assert start + i == (if start + i < n then 0 else 1) * n + at;
  }

  lemma WrappedPush<T>(ring: seq<T>, start: nat, size: nat, x: T)
    requires start < |ring| && size < |ring|
    ensures Wrapped(ring[Slot(start, size, |ring|) := x], start, size + 1) == Wrapped(ring, start, size) + [x]
  {
    var at := Slot(start, size, |ring|);
    var ring' := ring[at := x];
    forall i | 0 <= i < size
      ensures Wrapped(ring', start, size + 1)[i] == Wrapped(ring, start, size)[i]
    {
      assert Slot(start, i, |ring|) != at;
    }
    assert Wrapped(ring', start, size + 1) == Wrapped(ring, start, size) + [x];
  }

  lemma WrappedTail<T>(ring: seq<T>, start: nat, size: nat)
    requires start < |ring| && 0 < size <= |ring|
    ensures Wrapped(ring, start, size) == [ring[start]] + Wrapped(ring, Slot(start, 1, |ring|), size - 1)
  {
    hide Wrapped, Slot;
    SlotInRange(start, 1, |ring|);
    var w, tail := Wrapped(ring, start, size), Wrapped(ring, Slot(start, 1, |ring|), size - 1);
    forall i | 0 <= i < size
      ensures w[i] == ([ring[start]] + tail)[i]
    {
      WrappedAt(ring, start, size, i);
      SlotOfSlot(start, i, |ring|);
      if 0 < i {
        WrappedAt(ring, Slot(start, 1, |ring|), size - 1, i - 1);
      }
    }
  }

  lemma SlotInRange(start: nat, i: nat, n: nat)
    requires start < n && i <= n
    ensures Slot(start, i, n) < n
  {
  }

  lemma SlotOfSlot(start: nat, i: nat, n: nat)
    requires start < n && i < n
    ensures Slot(start, 1, n) < n && Slot(start, 0, n) == start && Slot(start, i, n) < n
    ensures 0 < i ==> Slot(Slot(start, 1, n), i - 1, n) == Slot(start, i, n)
  {
  }

  lemma WrappedAt<T>(ring: seq<T>, start: nat, size: nat, i: nat)
    requires start < |ring| && i < size <= |ring|
    ensures Wrapped(ring, start, size)[i] == ring[Slot(start, i, |ring|)]
  {
  }

  /** `coro_queue` */
  class CoroQueue {
    const coros: array<Search?>
    var start: nat
    var size: nat

    ghost predicate Valid()
      reads this
    {
      coros.Length == CAPACITY && start < CAPACITY && size <= CAPACITY
    }

    ghost function Contents(): (cs: seq<Search?>)
      requires Valid()
      reads this, coros
      ensures |cs| == size
    {
      Wrapped(coros[..], start, size)
    }

    constructor ()
      ensures Valid() && Contents() == [] && fresh(coros)
    {
      coros := new Search?[CAPACITY](_ => null);
      start, size := 0, 0;
    }

    method Enqueue(task: Search?) returns (ok: bool)
      requires Valid()
      modifies this, coros
      ensures Valid() && ok == (old(size) < CAPACITY)
      ensures Contents() == if ok then old(Contents()) + [task] else old(Contents())
    {
      if size == CAPACITY {
        return false;
      }
      WrappedPush(coros[..], start, size, task);
      SlotIsModulo(start, size, CAPACITY);
      coros[(start + size) % CAPACITY] := task;
      size := size + 1;
      return true;
    }

    method Dequeue() returns (task: Search?)
      requires Valid()
      modifies this
      ensures Valid()
      ensures old(size) == 0 ==> task == null && Contents() == []
      ensures 0 < old(size) ==> old(Contents()) == [task] + Contents()
    {
      if size <= 0 {
        return null;
      }
      WrappedTail(coros[..], start, size);
      SlotIsModulo(start, 1, CAPACITY);
      task := coros[start];
      start := (start + 1) % CAPACITY;
      size := size - 1;
    }
  }

  // ------------------------------------------------------- the searches in the queue

  /** Distinct searches in v, each able to go on. */
  ghost predicate Searching(cs: seq<Search?>, v: seq<int>)
    reads cs
  {
    && (forall i, j :: 0 <= i < j < |cs| ==> cs[i] != cs[j])
    && (forall i :: 0 <= i < |cs| ==> cs[i] != null && cs[i].v == v && cs[i].Valid())
  }

  /** How many of them will find their key. */
  ghost function Pending(cs: seq<Search?>): nat {
    if cs == [] then 0 else (if cs[0] == null then 0 else Hit(cs[0].v, cs[0].key)) + Pending(cs[1..])
  }

  ghost function TotalFuel(cs: seq<Search?>): nat
    reads cs
  {
    if cs == [] then 0 else (if cs[0] == null || !cs[0].Valid() then 0 else cs[0].Fuel()) + TotalFuel(cs[1..])
  }

  lemma {:induction false} Appended(cs: seq<Search?>, c: Search)
    ensures Pending(cs + [c]) == Pending(cs) + Hit(c.v, c.key)
    ensures c.Valid() ==> TotalFuel(cs + [c]) == TotalFuel(cs) + c.Fuel()
  {
    if cs == [] {
      assert cs + [c] == [c];
    } else {
      Appended(cs[1..], c);
      assert (cs + [c])[1..] == cs[1..] + [c];
    }
  }

  lemma Nothing(v: seq<int>)
    ensures Searching([], v) && Pending([]) == 0
  {
  }

  lemma Joined(cs: seq<Search?>, c: Search, v: seq<int>)
    requires Searching(cs, v) && c !in cs && c.Valid() && c.v == v
    ensures Searching(cs + [c], v)
    ensures Pending(cs + [c]) == Pending(cs) + Hit(v, c.key) && TotalFuel(cs + [c]) == TotalFuel(cs) + c.Fuel()
  {
    Appended(cs, c);
  }

  lemma TakenOff(cs: seq<Search?>, c: Search?, rest: seq<Search?>, v: seq<int>)
    requires Searching(cs, v) && cs == [c] + rest
    ensures Searching(rest, v) && c != null && c !in rest && c.Valid() && c.v == v
    ensures Pending(cs) == Hit(v, c.key) + Pending(rest) && TotalFuel(cs) == c.Fuel() + TotalFuel(rest)
  {
    assert cs[0] == c && cs[1..] == rest;
    forall i | 0 <= i < |rest|
      ensures rest[i] != null && rest[i].v == v && rest[i].Valid() && rest[i] != c
    {
      assert rest[i] == cs[i + 1];
    }
    forall i, j | 0 <= i < j < |rest|
      ensures rest[i] != rest[j]
    {
      assert rest[i] == cs[i + 1] && rest[j] == cs[j + 1];
    }
  }

  /** Creates a coroutine for one lookup and queues it if there is room. */
  method StartSearch(q: CoroQueue, v: seq<int>, key: int) returns (ok: bool)
    requires Sorted(v) && q.Valid() && Searching(q.Contents(), v)
    modifies q, q.coros
    ensures q.Valid() && Searching(q.Contents(), v) && ok == (old(q.size) < CAPACITY)
    ensures q.size == old(q.size) + if ok then 1 else 0
    ensures Pending(q.Contents()) == old(Pending(q.Contents())) + if ok then Hit(v, key) else 0
    ensures forall c :: c in q.Contents() ==> c in old(q.Contents()) || fresh(c)
  {
    ghost var cs, pending := q.Contents(), Pending(q.Contents());
    var coro := new Search(v, key);
    assert Searching(cs, v) && Pending(cs) == pending;
    Joined(cs, coro, v);
    hide Pending, Wrapped, Hit;
    ok := q.Enqueue(coro);
    assert Searching(cs + [coro], v) && Searching(cs, v);
  }

  lemma Bounded(v: seq<int>, key: int)
    ensures 0 <= Hit(v, key) <= 1
  {
  }

  /** Takes the front coroutine, resumes it and, if it yielded, puts it at the back.  With
      an empty queue it is NULL that is resumed. */
  method ResumeFront(q: CoroQueue, ghost v: seq<int>) returns (res: int, crashed: bool)
    requires q.Valid() && Searching(q.Contents(), v)
    modifies q, q.coros, set c | c in q.Contents()
    ensures q.Valid() && Searching(q.Contents(), v)
    ensures crashed == (old(q.size) == 0)
    ensures !crashed ==> TotalFuel(q.Contents()) < old(TotalFuel(q.Contents()))
    ensures !crashed && res == -1 ==> q.Contents() == old(q.Contents()[1..] + [q.Contents()[0]])
                                      && Pending(q.Contents()) == old(Pending(q.Contents()))
    ensures !crashed && res != -1 ==> q.Contents() == old(q.Contents()[1..]) && 0 <= res <= 1
                                      && res + Pending(q.Contents()) == old(Pending(q.Contents()))
    ensures forall c :: c in q.Contents() ==> c in old(q.Contents())
  {
    hide Hit, Pending, Wrapped;
    ghost var cs, total := q.Contents(), TotalFuel(q.Contents());
    var coro := q.Dequeue();
    if coro == null {
      return 0, true;
    }
    ghost var rest := q.Contents();
    assert cs[0] == coro && cs[1..] == rest;
    assert Searching(cs, v) && TotalFuel(cs) == total;
    TakenOff(cs, coro, rest, v);
    Bounded(v, coro.key);
    ghost var fuel := TotalFuel(rest);
    assert fuel < total;
    crashed := false;
    res := coro.Resume();
    assert Searching(rest, v) && TotalFuel(rest) == fuel && q.Contents() == rest;
    if res == -1 {
      Joined(rest, coro, v);
      assert TotalFuel(rest + [coro]) < total;
      var ok := q.Enqueue(coro);
    }
  }

  /** The number of keys found; the count of keys not found makes up the rest.  The program
      resumes NULL, and crashes, exactly if there is something to look up and either there
      are no streams at all or both the streams and the lookups outnumber the queue. */
  method SeffMultiLookup(v: seq<int>, lookups: seq<int>, streams: int)
    returns (found: int, notFound: int, crashed: bool)
    requires Sorted(v)
    ensures crashed <==> lookups != [] && (streams <= 0 || (CAPACITY < streams && CAPACITY < |lookups|))
    ensures !crashed ==> found == Hits(v, lookups) && found + notFound == |lookups|
  {
    hide Pending, TotalFuel, Wrapped, Hit, Searching;
    found, notFound, crashed := 0, 0, false;
    var limit := streams;
    var q := new CoroQueue();
    var nextArg := 0;
    ghost var lost := 0;    // coroutines that the full queue refused
    Nothing(v);
    while nextArg < |lookups|
      invariant 0 <= nextArg <= |lookups| && (1 <= limit || (nextArg == 0 && limit == streams))
      invariant fresh(q) && fresh(q.coros) && q.Valid() && forall c :: c in q.Contents() ==> fresh(c)
      invariant Searching(q.Contents(), v) && q.size + limit + lost == streams
      invariant lost == 0 ==> found + Pending(q.Contents()) == Hits(v, lookups[..nextArg])
      invariant found + notFound + q.size + lost == nextArg && 0 <= found && 0 <= notFound && 0 <= lost
      invariant 0 < lost ==> CAPACITY < streams && CAPACITY < |lookups|
      invariant 0 < nextArg && CAPACITY < streams && CAPACITY < |lookups| ==> 0 < lost
    {
      ghost var before := nextArg;
      while nextArg < |lookups| && limit > 0
        invariant before <= nextArg <= |lookups| && (0 <= limit || streams < 0)
        invariant nextArg == before ==> 1 <= limit || (nextArg == 0 && limit == streams)
        invariant before < nextArg ==> 0 < q.size && 0 <= limit
        invariant fresh(q) && fresh(q.coros) && q.Valid() && forall c :: c in q.Contents() ==> fresh(c)
        invariant Searching(q.Contents(), v) && q.size + limit + lost == streams
        invariant lost == 0 ==> found + Pending(q.Contents()) == Hits(v, lookups[..nextArg])
        invariant found + notFound + q.size + lost == nextArg && 0 <= lost
        invariant 0 < lost ==> CAPACITY < streams && CAPACITY < |lookups|
        invariant 0 < before && CAPACITY < streams && CAPACITY < |lookups| ==> 0 < lost
      {
        limit := limit - 1;
        var ok := StartSearch(q, v, lookups[nextArg]);
        HitsStep(v, lookups, nextArg);
        nextArg := nextArg + 1;
        lost := if ok then lost else lost + 1;
      }
      var done := false;
      while !done
        invariant if done then before < nextArg && 1 <= limit else 0 <= limit || nextArg == 0
        invariant !done && before < nextArg ==> 0 < q.size
        invariant !done && before == nextArg ==> nextArg == 0 && q.size == 0 && streams <= 0
        invariant fresh(q) && fresh(q.coros) && q.Valid() && forall c :: c in q.Contents() ==> fresh(c)
        invariant Searching(q.Contents(), v) && q.size + limit + lost == streams
        invariant lost == 0 ==> found + Pending(q.Contents()) == Hits(v, lookups[..nextArg])
        invariant found + notFound + q.size + lost == nextArg && 0 <= found && 0 <= notFound
        decreases !done, TotalFuel(q.Contents())
      {
        var res;
        res, crashed := ResumeFront(q, v);
        if crashed {
          return;
        }
        if res != -1 {
          found := found + res;
          notFound := notFound + (1 - res);
          limit := limit + 1;
          done := true;
        }
      }
    }
    assert lookups[..nextArg] == lookups;
    while limit < streams
      invariant fresh(q) && fresh(q.coros) && q.Valid() && forall c :: c in q.Contents() ==> fresh(c)
      invariant Searching(q.Contents(), v) && q.size + limit + lost == streams
      invariant lost == 0 ==> found + Pending(q.Contents()) == Hits(v, lookups)
      invariant found + notFound + q.size + lost == |lookups|
      decreases TotalFuel(q.Contents())
    {
      var res;
      res, crashed := ResumeFront(q, v);
      if crashed {
        return;
      }
      if res != -1 {
        found := found + res;
        notFound := notFound + (1 - res);
        limit := limit + 1;
      }
    }
    assert lost == 0 ==> q.Contents() == [];
  }
}
