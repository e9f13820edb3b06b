// The same interleaved lookup as a hand-written state machine: Frame::init, Frame::run,
// sm_binary_search and SmMultiLookup (bench/prefetching_lookups_bench/external/sm.cpp).

module SmLookup {
  import opened LookupSpec

  datatype Status = KeepGoing | Found | NotFound | Unused

  class Frame {
    const v: seq<int>
    var first: nat
    var middle: nat
    var len: nat
    var half: nat
    var key: int
    var state: Status

    ghost predicate Valid()
      reads this
    {
      state == KeepGoing ==>
        Sorted(v) && Narrowed(v, key, first, len) && 0 < len && half == len / 2 && middle == first + half
    }

    /** What this frame will still add to the result. */
    ghost function Pending(): nat
      reads this
    {
      if state == KeepGoing then Hit(v, key) else 0
    }

    ghost function Fuel(): nat
      reads this
    {
      if state == KeepGoing then len else 0
    }

    constructor (v: seq<int>)
      ensures Valid() && this.v == v && state == Unused
    {
      this.v := v;
      state := Unused;
    }

    method Init(key: int)
      requires Sorted(v)
      modifies this
      ensures Valid() && this.key == key
      ensures state == if |v| == 0 then NotFound else KeepGoing
      ensures Pending() == Hit(v, key)
    {
      this.key := key;
      first := 0;
      len := |v|;
      if len == 0 {
        state := NotFound;
        return;
      }
      half := len / 2;
      middle := first + half;
      state := KeepGoing;
    }

    method Run() returns (done: bool)
      requires Valid() && state == KeepGoing
      modifies this
      ensures Valid() && Fuel() < old(Fuel())
      ensures done <==> state != KeepGoing
      ensures state == KeepGoing ==> key == old(key)
      ensures done ==> state == if old(key) in v then Found else NotFound
    {
      Probe(v, key, first, len);
      var x := v[middle];
      if x < key {
        first := middle + 1;
        len := len - half - 1;
      } else {
        len := half;
      }
      if x == key {
        state := Found;
        return true;
      }
      if len > 0 {
        half := len / 2;
        middle := first + half;
        return false;
      }
      state := NotFound;
      return true;
    }
  }

  method SmBinarySearch(v: seq<int>, key: int) returns (found: bool)
    requires Sorted(v)
    ensures found <==> key in v
  {
    var f := new Frame(v);
    f.Init(key);
    while f.state == KeepGoing
      invariant fresh(f) && f.Valid()
      invariant if f.state == KeepGoing then f.key == key else (f.state == Found <==> key in v)
      decreases f.Fuel()
    {
      var done := f.Run();
    }
    return f.state == Found;
  }

  // ------------------------------------------------------------- all the frames

  ghost predicate Distinct(fs: seq<Frame>) {
    forall i, j :: 0 <= i < j < |fs| ==> fs[i] != fs[j]
  }

  ghost predicate AllValid(fs: seq<Frame>, v: seq<int>)
    reads fs
  {
    forall i :: 0 <= i < |fs| ==> fs[i].v == v && fs[i].Valid()
  }

  ghost function Pending(fs: seq<Frame>): nat
    reads fs
  {
    if fs == [] then 0 else fs[0].Pending() + Pending(fs[1..])
  }

  ghost function Fuel(fs: seq<Frame>): nat
    reads fs
  {
    if fs == [] then 0 else fs[0].Fuel() + Fuel(fs[1..])
  }

  function Others<T>(fs: seq<T>, i: nat): seq<T>
    requires i < |fs|
  {
    fs[..i] + fs[i + 1..]
  }

  /** Frame i's share and that of the others make up the sums. */
  lemma {:induction false} Shares(fs: seq<Frame>, i: nat)
    requires i < |fs|
    ensures Pending(fs) == fs[i].Pending() + Pending(Others(fs, i))
    ensures Fuel(fs) == fs[i].Fuel() + Fuel(Others(fs, i))
  {
    if i == 0 {
      assert Others(fs, i) == fs[1..];
    } else {
      Shares(fs[1..], i - 1);
      assert Others(fs, i)[0] == fs[0] && Others(fs, i)[1..] == Others(fs[1..], i - 1);
    }
  }

  lemma {:induction false} NoneGoing(fs: seq<Frame>)
    requires forall i :: 0 <= i < |fs| ==> fs[i].state != KeepGoing
    ensures Pending(fs) == 0
  {
    if fs != [] {
      NoneGoing(fs[1..]);
    }
  }

  method RunFrame(fs: seq<Frame>, i: nat, ghost v: seq<int>) returns (done: bool)
    requires i < |fs| && Distinct(fs) && AllValid(fs, v) && fs[i].state == KeepGoing
    modifies fs[i]
    ensures AllValid(fs, v) && Fuel(fs) < old(Fuel(fs))
    ensures done <==> fs[i].state != KeepGoing
    ensures done ==> fs[i].state == Found || fs[i].state == NotFound
    ensures Pending(fs) + (if fs[i].state == Found then 1 else 0) == old(Pending(fs))
    ensures fs[i].state == KeepGoing ==> fs[i].key == old(fs[i].key)
  {
    Shares(fs, i);
    ghost var others, pending, fuel := Others(fs, i), Pending(fs), Fuel(fs);
    ghost var p, f := Pending(others), Fuel(others);
    done := fs[i].Run();
    assert Pending(others) == p && Fuel(others) == f;
    Shares(fs, i);
  }

  method InitFrame(fs: seq<Frame>, i: nat, v: seq<int>, key: int)
    requires Sorted(v) && i < |fs| && Distinct(fs) && AllValid(fs, v) && fs[i].state != KeepGoing
    modifies fs[i]
    ensures AllValid(fs, v) && (fs[i].state == KeepGoing <==> 0 < |v|)
    ensures Pending(fs) == old(Pending(fs)) + Hit(v, key)
  {
    Shares(fs, i);
    ghost var others := Others(fs, i);
    ghost var p := Pending(others);
    fs[i].Init(key);
    assert Pending(others) == p;
    Shares(fs, i);
  }

  method NewFrames(streams: nat, v: seq<int>) returns (fs: seq<Frame>)
    ensures |fs| == streams && Distinct(fs) && AllValid(fs, v) && Pending(fs) == 0
    ensures forall i :: 0 <= i < |fs| ==> fresh(fs[i]) && fs[i].state == Unused
  {
    fs := [];
    while |fs| < streams
      invariant |fs| <= streams && Distinct(fs) && AllValid(fs, v)
      invariant forall i :: 0 <= i < |fs| ==> fresh(fs[i]) && fs[i].state == Unused
    {
      var f := new Frame(v);
      fs := fs + [f];
    }
    NoneGoing(fs);
  }

  /** The frames in use are all of them or, in the first round, those after i. */
  ghost predicate Filled(fs: seq<Frame>, i: nat)
    reads fs
  {
    || AllGoing(fs)
    || (i < |fs| && forall k :: 0 <= k < |fs| ==> (fs[k].state == KeepGoing <==> i < k))
  }

  ghost predicate AllGoing(fs: seq<Frame>)
    reads fs
  {
    forall k :: 0 <= k < |fs| ==> fs[k].state == KeepGoing
  }

  /** Runs frames round-robin until one is done and takes the key over. */
  method RunUntilOneDone(fs: seq<Frame>, start: nat, v: seq<int>, key: int) returns (i: nat, hits: nat)
    requires Sorted(v) && 0 < |v| && start < |fs| && Distinct(fs) && AllValid(fs, v) && AllGoing(fs)
    modifies fs
    ensures i < |fs| && AllValid(fs, v) && AllGoing(fs)
    ensures hits + Pending(fs) == old(Pending(fs)) + Hit(v, key)
  {
    i, hits := start, 0;
    var done := false;
    while !done
      invariant i < |fs| && AllValid(fs, v) && AllGoing(fs)
      invariant hits + Pending(fs) == old(Pending(fs)) + if done then Hit(v, key) else 0
      decreases !done, Fuel(fs)
    {
      done := RunFrame(fs, i, v);
      if done {
        if fs[i].state == Found {
          hits := hits + 1;
        }
        InitFrame(fs, i, v, key);
      }
      i := if i == 0 then |fs| - 1 else i - 1;
    }
  }

  /** The body of the loop over the lookups: one more key is being searched for. */
  method ServeKey(fs: seq<Frame>, start: nat, v: seq<int>, key: int) returns (i: nat, hits: nat)
    requires Sorted(v) && 0 < |v| && start < |fs| && Distinct(fs) && AllValid(fs, v) && Filled(fs, start)
    modifies fs
    ensures i < |fs| && AllValid(fs, v) && Filled(fs, i)
    ensures hits + Pending(fs) == old(Pending(fs)) + Hit(v, key)
  {
    if fs[start].state != KeepGoing {
      InitFrame(fs, start, v, key);
      i, hits := if start == 0 then |fs| - 1 else start - 1, 0;
    } else {
      i, hits := RunUntilOneDone(fs, start, v, key);
    }
  }

  /** One pass over the frames. */
  method RunAll(fs: seq<Frame>, ghost v: seq<int>) returns (moreWork: bool, hits: nat)
    requires Distinct(fs) && AllValid(fs, v)
    modifies fs
    ensures AllValid(fs, v) && hits + Pending(fs) == old(Pending(fs))
    ensures if moreWork then Fuel(fs) < old(Fuel(fs)) else Fuel(fs) == old(Fuel(fs)) && Pending(fs) == 0
  {
    moreWork, hits := false, 0;
    var k := 0;
    while k < |fs|
      invariant k <= |fs| && AllValid(fs, v) && hits + Pending(fs) == old(Pending(fs))
      invariant if moreWork then Fuel(fs) < old(Fuel(fs))
                else Fuel(fs) == old(Fuel(fs)) && forall j :: 0 <= j < k ==> fs[j].state != KeepGoing
    {
      if fs[k].state == KeepGoing {
        moreWork := true;
        var done := RunFrame(fs, k, v);
        if done && fs[k].state == Found {
          hits := hits + 1;
        }
      }
      k := k + 1;
    }
    if !moreWork {
      NoneGoing(fs);
    }
  }

  method SmMultiLookup(v: seq<int>, lookups: seq<int>, streams: nat) returns (result: nat)
    requires Sorted(v) && 0 < |v| && 1 <= streams
    ensures result == Hits(v, lookups)
  {
    var fs := NewFrames(streams, v);
    var i := streams - 1;
    result := 0;
    var n := 0;
    while n < |lookups|
      invariant n <= |lookups| && 0 <= i < |fs| && Distinct(fs) && AllValid(fs, v) && Filled(fs, i)
      invariant forall f :: f in fs ==> fresh(f)
      invariant result + Pending(fs) == Hits(v, lookups[..n])
    {
      HitsStep(v, lookups, n);
      var hits;
      i, hits := ServeKey(fs, i, v, lookups[n]);
      result := result + hits;
      n := n + 1;
    }
    assert lookups[..n] == lookups;
    var moreWork := true;
    while moreWork
      invariant AllValid(fs, v) && (!moreWork ==> Pending(fs) == 0)
      invariant forall f :: f in fs ==> fresh(f)
      invariant result + Pending(fs) == Hits(v, lookups)
      decreases Fuel(fs), moreWork
    {
      var hits;
      moreWork, hits := RunAll(fs, v);
      result := result + hits;
    }
  }
}
