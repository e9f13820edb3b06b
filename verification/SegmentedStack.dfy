// The doubly linked stack segments of src/mem/seff_mem_segmented.c and .S, and their
// release in src/seff.c.

module SegmentedStack {
  import opened SegmentSpec

  // Layout of `seff_stack_segment_t`: prev, next, size, canary, 128 bytes of padding.
  const CANARY_END: nat := 32
  const HEADER: nat := 160

  /** What `coroutine_prelude` and its call may occupy on a new coroutine's stack. */
  const OVERHEAD: nat := 16

  class Segment {
    const addr: nat
    const size: nat
    var prev: Segment?
    var next: Segment?

    /** `init_segment`, given the address malloc returned. */
    constructor (size: nat, addr: nat)
      ensures this.size == size && this.addr == addr && prev == null && next == null
    {
      this.size, this.addr := size, addr;
      prev, next := null, null;
    }
  }

  /** `live` are the segments malloc handed out and nobody freed. */
  class Heap {
    ghost var live: set<Segment>

    constructor ()
      ensures live == {}
    {
      live := {};
    }

    method InitSegment(size: nat, addr: nat) returns (seg: Segment)
      modifies this
      ensures fresh(seg) && live == old(live) + {seg}
      ensures seg.size == size && seg.addr == addr && seg.prev == null && seg.next == null
    {
      seg := new Segment(size, addr);
      live := live + {seg};
    }

    /** `seg->next` and `seg->prev`: only the links of a live segment may be read. */
    method Next(seg: Segment) returns (next: Segment?)
      requires seg in live
      ensures next == seg.next
    {
      next := seg.next;
    }

    method Prev(seg: Segment) returns (prev: Segment?)
      requires seg in live
      ensures prev == seg.prev
    {
      prev := seg.prev;
    }

    /** The macro LINK. */
    method Link(first: Segment, second: Segment)
      requires first in live && second in live
      modifies first`next, second`prev
      ensures first.next == second && second.prev == first
    {
      first.next := second;
      second.prev := first;
    }

    /** `free`: only a live segment may be freed, so nothing is freed twice. */
    method Free(seg: Segment)
      requires seg in live
      modifies this
      ensures live == old(live) - {seg}
    {
      live := live - {seg};
    }
  }

  /** The k-th segment, or NULL outside the list. */
  ghost function Nth(segs: seq<Segment>, k: int): Segment? {
    if 0 <= k < |segs| then segs[k] else null
  }

  ghost predicate Chained(segs: seq<Segment>)
    reads segs
  {
    && (forall i, j :: 0 <= i < j < |segs| ==> segs[i] != segs[j])
    && (forall i {:trigger segs[i].next} :: 0 <= i < |segs| ==> segs[i].next == Nth(segs, i + 1))
    && (forall i {:trigger segs[i].prev} :: 0 <= i < |segs| ==> segs[i].prev == Nth(segs, i - 1))
  }

  lemma Neighbours(segs: seq<Segment>, c: nat)
    requires Chained(segs) && c < |segs|
    ensures segs[c].next == Nth(segs, c + 1) && segs[c].prev == Nth(segs, c - 1)
  {
  }

  ghost function Inserted(was: seq<Segment>, c: nat, seg: Segment): seq<Segment>
    requires c < |was|
  {
    was[..c + 1] + [seg] + was[c + 1..]
  }

  /** A list stays chained when seg is linked in behind its element c. */
  lemma ChainedInsert(was: seq<Segment>, c: nat, seg: Segment)
    requires c + 1 < |was| && seg !in was
    requires forall i, j :: 0 <= i < j < |was| ==> was[i] != was[j]
    requires forall i {:trigger was[i].next} :: 0 <= i < |was| ==> was[i].next == if i == c then seg else Nth(was, i + 1)
    requires forall i {:trigger was[i].prev} :: 0 <= i < |was| ==> was[i].prev == if i == c + 1 then seg else Nth(was, i - 1)
    requires seg.next == was[c + 1] && seg.prev == was[c]
    ensures Chained(Inserted(was, c, seg))
  {
    var now := Inserted(was, c, seg);
    forall i | 0 <= i < |now|
      ensures now[i].next == Nth(now, i + 1) && now[i].prev == Nth(now, i - 1)
    {
      if i <= c {
        assert now[i] == was[i] && Nth(now, i - 1) == Nth(was, i - 1);
        assert i < c ==> Nth(now, i + 1) == Nth(was, i + 1);
      } else if i > c + 1 {
        assert now[i] == was[i - 1] && Nth(now, i + 1) == Nth(was, i);
        assert i > c + 2 ==> Nth(now, i - 1) == Nth(was, i - 2);
      }
    }
  }

  lemma InsertedMembers(was: seq<Segment>, c: nat, seg: Segment)
    requires c < |was|
    ensures forall s :: s in Inserted(was, c, seg) <==> s in was || s == seg
  {
    assert was == was[..c + 1] + was[c + 1..];
  }

  /** The same at the end of the list. */
  lemma ChainedAppend(was: seq<Segment>, seg: Segment)
    requires was != [] && seg !in was
    requires forall i, j :: 0 <= i < j < |was| ==> was[i] != was[j]
    requires forall i {:trigger was[i].next} :: 0 <= i < |was| ==> was[i].next == if i == |was| - 1 then seg else Nth(was, i + 1)
    requires forall i {:trigger was[i].prev} :: 0 <= i < |was| ==> was[i].prev == Nth(was, i - 1)
    requires seg.next == null && seg.prev == was[|was| - 1]
    ensures Chained(was + [seg])
  {
    var now := was + [seg];
    forall i | 0 <= i < |now|
      ensures now[i].next == Nth(now, i + 1) && now[i].prev == Nth(now, i - 1)
    {
      if i < |was| {
        assert now[i] == was[i] && Nth(now, i - 1) == Nth(was, i - 1);
        assert i < |was| - 1 ==> Nth(now, i + 1) == Nth(was, i + 1);
      }
    }
  }

  ghost function Sizes(segs: seq<Segment>): (r: seq<nat>)
    ensures |r| == |segs| && forall i :: 0 <= i < |segs| ==> r[i] == segs[i].size
  {
    seq(|segs|, i requires 0 <= i < |segs| => segs[i].size)
  }

  /** What the three ways to enter the next segment do to the list. */
  ghost predicate Entered(was: seq<Segment>, now: seq<Segment>, c: nat, need: nat, newSize: nat) {
    && c < |now| && c <= |was|
    && (c == |was| ==> now == was + [now[c]] && now[c].size == newSize)
    && (c < |was| && was[c].size < need ==> now == was[..c] + [now[c]] + was[c..] && now[c].size == newSize)
    && (c < |was| && need <= was[c].size ==> now == was)
  }

  /** A call that needs `need` bytes leaves the list alone exactly if a spare segment with
      room comes next.  Otherwise one segment appears behind the cursor, as large as is
      needed and as is allowed at least, and no larger than that. */
  ghost predicate Provided(was: seq<Segment>, now: seq<Segment>, cursor: nat, need: nat, min: nat) {
    && cursor < |was| && cursor + 1 < |now|
    && if cursor + 1 < |was| && need <= was[cursor + 1].size then now == was
       else
         var added := now[cursor + 1];
         && now == Inserted(was, cursor, added)
         && need <= added.size && min <= added.size && added.size in {need, min}
  }

  lemma EnteredProvides(was: seq<Segment>, now: seq<Segment>, cursor: nat, need: nat, newSize: nat, min: nat)
    requires Entered(was, now, cursor + 1, need, newSize) && cursor < |was|
    requires need <= newSize && min <= newSize && newSize in {need, min}
    ensures Provided(was, now, cursor, need, min)
  {
  }

  lemma SizesEntered(was: seq<Segment>, now: seq<Segment>, c: nat, need: nat, min: nat)
    requires Entered(was, now, c, need, NewSize(need, min))
    ensures Sizes(now) == Sizes(was)[..c] + Provide(Sizes(was)[c..], need, min)
  {
    if c == |was| {
      assert Sizes(now) == Sizes(was) + [now[c].size];
    } else if was[c].size < need {
      assert Sizes(now) == Sizes(was)[..c] + [now[c].size] + Sizes(was)[c..];
    }
  }

  /** The stack-memory part of one coroutine: `frame_ptr` and its stack limit. */
  class CoroutineStack {
    var framePtr: Segment
    var stackTop: int
    ghost var segs: seq<Segment>
    ghost var cursor: nat

    ghost predicate Valid(heap: Heap)
      reads this, heap, segs
    {
      && cursor < |segs| && framePtr == segs[cursor]
      && Chained(segs)
      && (forall i :: 0 <= i < |segs| ==> segs[i] in heap.live)
      && LimitInPadding()
    }

    /** The stack limit lies in the padding of the current segment, above the canary. */
    predicate LimitInPadding()
      reads this
    {
      framePtr.addr + HEADER - 15 <= stackTop <= framePtr.addr + HEADER
    }

    ghost function View(): (s: Stack)
      reads this
    {
      Stack(Sizes(segs), cursor)
    }

    /** `init_stack_frame` and the stack part of `seff_coroutine_init_sized`. */
    constructor (heap: Heap, frameSize: nat, addr: nat)
      modifies heap
      ensures Valid(heap) && View() == Stack([frameSize + OVERHEAD], 0) && stackTop == framePtr.addr + HEADER
      ensures heap.live == old(heap.live) + {framePtr} && fresh(framePtr) && segs == [framePtr]
    {
      var seg := heap.InitSegment(frameSize + OVERHEAD, addr);
      var rsp: int := seg.addr + HEADER + seg.size;
      framePtr := seg;
      stackTop := rsp - frameSize - OVERHEAD;
      segs := [seg];
      cursor := 0;
    }

    /** The branch without a next segment: append one. */
    method Append(heap: Heap, size: nat, addr: nat) returns (seg: Segment)
      requires cursor + 1 == |segs| && framePtr == segs[cursor] && Chained(segs) && framePtr in heap.live
      modifies this`segs, heap, framePtr`next
      ensures fresh(seg) && seg.size == size && segs == old(segs) + [seg] && Chained(segs)
      ensures heap.live == old(heap.live) + {seg} && forall s :: s in segs <==> s in old(segs) || s == seg
    {
      seg := heap.InitSegment(size, addr);
      heap.Link(framePtr, seg);
      ChainedAppend(segs, seg);
      segs := segs + [seg];
    }

    /** The branch with a next segment that is too small: insert one in front of it. */
    method Insert(heap: Heap, size: nat, addr: nat) returns (seg: Segment)
      requires cursor + 1 < |segs| && framePtr == segs[cursor] && Chained(segs)
      requires framePtr in heap.live && segs[cursor + 1] in heap.live
      modifies this`segs, heap, framePtr`next, (segs[cursor + 1] as Segment)`prev
      ensures fresh(seg) && seg.size == size && Chained(segs)
      ensures segs == Inserted(old(segs), cursor, seg)
      ensures heap.live == old(heap.live) + {seg} && forall s :: s in segs <==> s in old(segs) || s == seg
    {
      hide Inserted;
      assert segs[cursor].next == Nth(segs, cursor + 1);
      seg := heap.InitSegment(size, addr);
      var next := heap.Next(framePtr);
      heap.Link(seg, next);
      heap.Link(framePtr, seg);
      ChainedInsert(segs, cursor, seg);
      InsertedMembers(segs, cursor, seg);
      segs := Inserted(segs, cursor, seg);
    }

    /** The three branches: create, insert or reuse the next segment and make it current. */
    method LinkNext(heap: Heap, need: nat, newSize: nat, addr: nat)
      requires Valid(heap)
      modifies this`segs, this`framePtr, this`cursor, heap, set s | s in segs
      ensures cursor == old(cursor) + 1 < |segs| && framePtr == segs[cursor] && Chained(segs)
      ensures Grows(old(segs)) && heap.live == old(heap.live) + set s | s in segs
      ensures forall i :: 0 <= i < |segs| ==> segs[i] in heap.live
      ensures need <= newSize ==> need <= framePtr.size
      ensures Entered(old(segs), segs, cursor, need, newSize)
    {
      hide Chained;
      var current := framePtr;
      Neighbours(segs, cursor);
      var next := heap.Next(current);
      if next == null {
        framePtr := Append(heap, newSize, addr);
        assert segs[cursor + 1] == framePtr;
      } else if next.size < need {
        framePtr := Insert(heap, newSize, addr);
        assert segs[cursor + 1] == framePtr;
      } else {
        framePtr := next;
      }
      cursor := cursor + 1;
    }

    /** `seff_mem_allocate_frame` up to the assignment of `frame_ptr`. */
    method EnterNext(heap: Heap, need: nat, minSegmentSize: nat, addr: nat)
      requires Valid(heap)
      modifies this`segs, this`framePtr, this`cursor, heap, set s | s in segs
      ensures cursor < |segs| && framePtr == segs[cursor] && Chained(segs)
      ensures Grows(old(segs)) && heap.live == old(heap.live) + set s | s in segs
      ensures forall i :: 0 <= i < |segs| ==> segs[i] in heap.live
      ensures View() == Allocate(old(View()), need, minSegmentSize) && need <= framePtr.size
      ensures Provided(old(segs), segs, old(cursor), need, minSegmentSize)
    {
      hide Chained, Entered, Provide, Provided;
      ghost var was := segs;
      var newSize := need;
      if newSize < minSegmentSize {
        newSize := minSegmentSize;
      }
      LinkNext(heap, need, newSize, addr);
      SizesEntered(was, segs, cursor, need, minSegmentSize);
      EnteredProvides(was, segs, cursor - 1, need, newSize, minSegmentSize);
    }

    /** `seff_mem_allocate_frame`: enter the next segment, creating it when there is none
        and inserting a larger one in front of it when it is too small.  Returns the new
        stack pointer and the frame size that `__morestack` subtracts from it.  `addr` is
        the address malloc returns if it is called. */
    method AllocateFrame(heap: Heap, frameSize: nat, paramSize: nat, minSegmentSize: nat, addr: nat)
      returns (newStack: int, available: nat)
      requires Valid(heap)
      modifies this, heap, set s | s in segs
      ensures cursor < |segs| && framePtr == segs[cursor] && Chained(segs)
      ensures Grows(old(segs)) && heap.live == old(heap.live) + set s | s in segs
      ensures forall i :: 0 <= i < |segs| ==> segs[i] in heap.live
      ensures View() == Allocate(old(View()), frameSize + paramSize, minSegmentSize)
      ensures Provided(old(segs), segs, old(cursor), frameSize + paramSize, minSegmentSize)
      ensures newStack % 16 == 0 && frameSize <= available == framePtr.size - paramSize
      ensures framePtr.addr + HEADER + available - 15 <= newStack <= framePtr.addr + HEADER + available
    {
      hide Chained, Allocate, Stack.Valid, View, Provided;
      EnterNext(heap, frameSize + paramSize, minSegmentSize, addr);
      available := framePtr.size - paramSize;
      newStack := AlignDown(framePtr.addr + HEADER + available);
    }

    /** Every old segment is kept, and the others are new. */
    twostate predicate Grows(was: seq<Segment>)
      reads this
    {
      && (forall s :: s in was ==> s in segs)
      && (forall s :: s in segs && s !in was ==> fresh(s))
    }

    /** The alignment loop of `seff_mem_allocate_frame`. */
    static method AlignDown(p: nat) returns (q: nat)
      ensures q % 16 == 0 && q <= p < q + 16
    {
      q := p;
      ghost var floor := 16 * (p / 16);
      while q % 16 != 0
        invariant floor <= q <= p < floor + 16 && floor % 16 == 0
      {
        q := q - 1;
      }
    }

    /** `__morestack` up to the call of the function: the new frame has the bytes asked
        for between the stack limit and the stack pointer, the copied parameters end inside
        the segment, and the limit stays above the canary. */
    method MoreStack(heap: Heap, frameSize: nat, paramSize: nat, minSegmentSize: nat, addr: nat)
      returns (rsp: int)
      requires Valid(heap)
      modifies this, heap, set s | s in segs
      ensures Valid(heap)
      ensures View() == Allocate(old(View()), frameSize + paramSize, minSegmentSize)
      ensures Provided(old(segs), segs, old(cursor), frameSize + paramSize, minSegmentSize)
      ensures Grows(old(segs)) && heap.live == old(heap.live) + set s | s in segs
      ensures rsp % 16 == 0 && frameSize <= rsp - stackTop
      ensures framePtr.addr + CANARY_END < stackTop <= rsp
      ensures rsp + paramSize <= framePtr.addr + HEADER + framePtr.size
    {
      hide Provided, Allocate, Chained;
      var available: nat;
      rsp, available := AllocateFrame(heap, frameSize, paramSize, minSegmentSize, addr);
      stackTop := rsp - available;
    }

    /** `seff_mem_release_frame` and the rest of `__morestack`. */
    method ReleaseFrame(heap: Heap)
      requires Valid(heap) && 0 < cursor
      modifies this
      ensures Valid(heap) && View() == Release(old(View())) && segs == old(segs)
      ensures stackTop == framePtr.addr + HEADER
    {
      Neighbours(segs, cursor);
      var prev := heap.Prev(framePtr);
      framePtr := prev;
      stackTop := prev.addr + HEADER;
      cursor := cursor - 1;
    }

    lemma Owned(heap: Heap)
      requires Valid(heap)
      ensures View().Valid() && View().cursor == cursor && (set s | s in segs) <= heap.live
    {
    }

    /** Calls and returns as a program makes them, each split into frame and parameters
        as it likes, with whatever addresses malloc returns. */
    method RunCalls(heap: Heap, f: Calls, minSegmentSize: nat)
      requires Valid(heap)
      modifies this, heap, set s | s in segs
      ensures Valid(heap) && View() == Execute(f, old(View()), minSegmentSize)
      ensures Grows(old(segs)) && heap.live == old(heap.live) + set s | s in segs
      decreases f
    {
      hide Valid, Chained, View, Allocate, Release;
      Owned(heap);
      if f.Call? {
        var paramSize: nat :| paramSize <= f.need;
        var addr: nat := *;
        var rsp := MoreStack(heap, f.need - paramSize, paramSize, minSegmentSize, addr);
        RunCalls(heap, f.inner, minSegmentSize);
        Owned(heap);
        ReleaseFrame(heap);
        RunCalls(heap, f.rest, minSegmentSize);
      }
    }

    /** The same calls n times.  Once n reaches their height, running them once more would
        leave the segment list as it is. */
    method RunRepeatedly(heap: Heap, f: Calls, minSegmentSize: nat, n: nat)
      requires Valid(heap)
      modifies this, heap, set s | s in segs
      ensures Valid(heap) && View() == ReplayStack(f, old(View()), minSegmentSize, n)
      ensures Grows(old(segs)) && heap.live == old(heap.live) + set s | s in segs
      ensures Height(f) <= n ==> Execute(f, View(), minSegmentSize) == View()
    {
      hide Valid, Chained, View, Execute;
      Owned(heap);
      var i := 0;
      ghost var start := View();
      while i < n
        invariant i <= n && Valid(heap) && View() == ReplayStack(f, start, minSegmentSize, i)
        invariant Grows(old(segs)) && heap.live == old(heap.live) + set s | s in segs
      {
        RunCalls(heap, f, minSegmentSize);
        ReplayOnceMore(f, start, minSegmentSize, i);
        i := i + 1;
      }
      if Height(f) <= n {
        ReplayStopsAllocating(f, start, minSegmentSize, n);
      }
    }

    /** `seff_coroutine_release`: from any cursor position every segment is freed once,
        and no link is read after its segment was freed. */
    method ReleaseAll(heap: Heap)
      requires Valid(heap)
      modifies heap
      ensures heap.live == old(heap.live) - set s | s in segs
    {
      var segment := framePtr;
      ghost var i: nat := cursor;
      Neighbours(segs, i);
      var prev := heap.Prev(segment);
      while prev != null
        invariant i <= cursor && segment == segs[i] && prev == Nth(segs, i - 1)
        invariant heap.live == old(heap.live)
        decreases i
      {
        segment := prev;
        i := i - 1;
        Neighbours(segs, i);
        prev := heap.Prev(segment);
      }
      var current: Segment? := segment;
      assert i == 0;
      while current != null
        invariant 0 <= i <= |segs| && current == Nth(segs, i)
        invariant heap.live == old(heap.live) - set s | s in segs[..i]
        decreases |segs| - i
      {
        var freed := current;
        Neighbours(segs, i);
        current := heap.Next(freed);
        heap.Free(freed);
        assert segs[..i + 1] == segs[..i] + [segs[i]];
        i := i + 1;
      }
      assert segs[..i] == segs;
    }
  }
}
