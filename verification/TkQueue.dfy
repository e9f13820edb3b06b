// The compare-and-swap queue of utils/tk_queue.c as a transition system.
//
// Thread 0 is the owner: it alone pushes, grows the array and uses the priority
// slot.  Every thread takes from the front.  A taker loads the array pointer
// once, before its retry loop, so it may read an array that was replaced.

module TkQueue {
  import opened Options
  import opened Rings
  import opened TaskHands
  import opened FifoSpec

  datatype Pc =
    | Out
    // tk_queue_priority_push
    | PrioLoad(elt: Task)
    | PrioStore(elt: Task, displaced: Option<Task>)
    // tk_queue_push
    | PushLoadArray(elt: Task, carried: bool)
    | PushLoadHead(elt: Task, carried: bool, arr: nat)
    | PushLoadTail(elt: Task, carried: bool, arr: nat, head: int)
    | PushCheck(elt: Task, carried: bool, arr: nat, head: int, tail: int)
    | PushGrow(elt: Task, carried: bool, arr: nat, head: int, tail: int)
    | PushStoreArray(elt: Task, carried: bool, head: int, tail: int, grown: Ring<Task>)
    | PushSetSlot(elt: Task, carried: bool, arr: nat, tail: int)
    | PushStoreTail(elt: Task, carried: bool, tail: int)
    // tk_queue_pop before its loop
    | PopLoadSlot
    | PopClearSlot(elt: Task)
    // tk_queue_pop and tk_queue_steal
    | TakeLoadArray(pop: bool)
    | TakeLoadHead(pop: bool, arr: nat)
    | TakeLoadTail(pop: bool, arr: nat, head: int)
    | TakeRead(pop: bool, arr: nat, head: int)
    | TakeCas(pop: bool, arr: nat, head: int, elt: Task)
    | Return(hand: Hand)
  {
    predicate Pushing() {
      PushLoadArray? || PushLoadHead? || PushLoadTail? || PushCheck? || PushGrow? || PushStoreArray?
      || PushSetSlot? || PushStoreTail?
    }

    predicate OwnerOnly() {
      Pushing() || PrioLoad? || PrioStore? || PopLoadSlot? || PopClearSlot?
    }

    predicate HoldsArray() {
      TakeLoadHead? || TakeLoadTail? || TakeRead? || TakeCas?
    }

    function Carry(): Option<Task> {
      if Pushing() && carried then Some(elt) else None
    }

    predicate Taking() {
      TakeLoadArray? || HoldsArray()
    }

    function Answer(): Hand {
      if Return? then hand
      else if PopLoadSlot? || PopClearSlot? then Seeking(true)
      else if Taking() then Seeking(pop)
      else Vacant
    }
  }

  /** Auxiliary: the counters an array was in charge of.  `from` is the first one
      copied into it, `until` the tail when it was replaced. */
  datatype Span = Span(from: int, until: int)

  /** `arrays` are all arrays ever installed, the last one being `self->array`.
      `log` is auxiliary: the element pushed at each counter. */
  datatype State = State(
    head: int, tail: int, slot: Option<Task>,
    arrays: seq<Ring<Task>>, spans: seq<Span>, log: seq<Task>,
    threads: seq<Pc>)
  {
    function Cur(): nat
      requires |arrays| > 0
    {
      |arrays| - 1
    }
  }

  // ---------------------------------------------------------------- the steps

  ghost predicate Init(s: State) {
    && s.head == 0 && s.tail == 0 && s.slot == None && s.log == []
    && |s.arrays| == 1 && s.arrays[0].Valid() && s.spans == [Span(0, 0)]
    && |s.threads| > 0
    && forall i :: 0 <= i < |s.threads| ==> s.threads[i] == Out
  }

  function Goto(s: State, i: nat, pc: Pc): State
    requires i < |s.threads|
  {
    s.(threads := s.threads[i := pc])
  }

  predicate IsOwnerCall(pc: Pc) {
    pc.PrioLoad? || pc.PopLoadSlot? || (pc.PushLoadArray? && !pc.carried)
  }

  ghost predicate CallStep(s: State, s': State, i: nat, ev: Event)
    requires i < |s.threads|
  {
    && s.threads[i] == Out
    && exists pc ::
         && s' == Goto(s, i, pc) && (pc == TakeLoadArray(false) || (i == 0 && IsOwnerCall(pc)))
         && ev == CallOf(i, pc)
  }

  function CallOf(i: nat, pc: Pc): Event {
    if pc.PopLoadSlot? || pc.TakeLoadArray? then Called(i, pc.PopLoadSlot?) else Silent
  }

  ghost predicate SlotStep(s: State, s': State, i: nat, ev: Event)
    requires i < |s.threads|
  {
    match s.threads[i]
    case PrioLoad(x) =>
      ev == Silent && s' == Goto(s, i, PrioStore(x, s.slot))
    case PrioStore(x, displaced) =>
      && ev == PrioritySwap(x)
      && s' == Goto(s.(slot := Some(x)), i,
                    if displaced.Some? then PushLoadArray(displaced.value, true) else Out)
    case PopLoadSlot =>
      && ev == Silent
      && s' == Goto(s, i, if s.slot.Some? then PopClearSlot(s.slot.value) else TakeLoadArray(true))
    case PopClearSlot(x) =>
      ev == TakeSlot(x) && s' == Goto(s.(slot := None), i, Return(Holds(x)))
    case Return(h) =>
      ev == Returned(i, Result(h)) && s' == Goto(s, i, Out)
    case _ => false
  }

  ghost predicate PushStep(s: State, s': State, i: nat, ev: Event)
    requires i < |s.threads| && |s.arrays| > 0
  {
    match s.threads[i]
    case PushLoadArray(x, c) =>
      ev == Silent && s' == Goto(s, i, PushLoadHead(x, c, s.Cur()))
    case PushLoadHead(x, c, a) =>
      ev == Silent && s' == Goto(s, i, PushLoadTail(x, c, a, s.head))
    case PushLoadTail(x, c, a, h) =>
      ev == Silent && s' == Goto(s, i, PushCheck(x, c, a, h, s.tail))
    case PushCheck(x, c, a, h, t) =>
      && a < |s.arrays| && ev == Silent
      && s' == Goto(s, i, if t - h > s.arrays[a].Size() - 1 then PushGrow(x, c, a, h, t)
                          else PushSetSlot(x, c, a, t))
    case PushGrow(x, c, a, h, t) =>
      && a < |s.arrays| && ev == Silent
      && exists grown :: IsResizeOf(grown, s.arrays[a], t, h) && s' == Goto(s, i, PushStoreArray(x, c, h, t, grown))
    case PushStoreArray(x, c, h, t, grown) =>
      && s.Cur() < |s.spans| && ev == Silent
      && s' == Goto(s.(arrays := s.arrays + [grown],
                       spans := s.spans[s.Cur() := Span(s.spans[s.Cur()].from, t)] + [Span(h, t)]),
                    i, PushSetSlot(x, c, |s.arrays|, t))
    case PushSetSlot(x, c, a, t) =>
      && a < |s.arrays| && s.arrays[a].Valid() && ev == Silent
      && s' == Goto(s.(arrays := s.arrays[a := s.arrays[a].Set(t, x)]), i, PushStoreTail(x, c, t))
    case PushStoreTail(x, c, t) =>
      && ev == (if c then PushCarried(x) else Push(x))
      && s' == Goto(s.(tail := t + 1, log := s.log + [x]), i, Out)
    case _ => false
  }

  ghost predicate TakeStep(s: State, s': State, i: nat, ev: Event)
    requires i < |s.threads| && |s.arrays| > 0
  {
    match s.threads[i]
    case TakeLoadArray(p) =>
      ev == Silent && s' == Goto(s, i, TakeLoadHead(p, s.Cur()))
    case TakeLoadHead(p, a) =>
      ev == Silent && s' == Goto(s, i, TakeLoadTail(p, a, s.head))
    case TakeLoadTail(p, a, h) =>
      if h == s.tail then ev == SawEmpty(i) && s' == Goto(s, i, Return(Nothing))
      else ev == Silent && s' == Goto(s, i, TakeRead(p, a, h))
    case TakeRead(p, a, h) =>
      && a < |s.arrays| && s.arrays[a].Valid() && ev == Silent
      && s' == Goto(s, i, TakeCas(p, a, h, s.arrays[a].Get(h)))
    case TakeCas(p, a, h, x) =>
      if s.head == h then ev == Take(i, x) && s' == Goto(s.(head := h + 1), i, Return(Holds(x)))
      else ev == Silent && s' == Goto(s, i, TakeLoadHead(p, a))
    case _ => false
  }

  ghost predicate StepOf(s: State, s': State, i: nat, ev: Event)
    requires i < |s.threads| && |s.arrays| > 0
  {
    CallStep(s, s', i, ev) || SlotStep(s, s', i, ev) || PushStep(s, s', i, ev) || TakeStep(s, s', i, ev)
  }

  ghost predicate Next(s: State, s': State, ev: Event) {
    && |s.arrays| > 0
    && exists i :: 0 <= i < |s.threads| && StepOf(s, s', i, ev)
  }

  // ------------------------------------------------------------ the invariant

  /** The counter whose element a read of array a at counter h yields: h itself
      while a is installed or if a was replaced after h was pushed, and otherwise
      the older counter that shares h's slot. */
  function Source(s: State, a: nat, h: int): int
    requires a < |s.arrays| == |s.spans| && s.arrays[a].Valid()
  {
    if a == s.Cur() || h < s.spans[a].until then h
    else s.spans[a].until - s.arrays[a].Size() + (h - s.spans[a].until) % s.arrays[a].Size()
  }

  /** Array r holds the log's elements at the counters [lo, hi). */
  ghost predicate Mirrors(r: Ring<Task>, log: seq<Task>, lo: int, hi: int) {
    && r.Valid() && 0 <= lo && hi <= |log|
    && forall i :: lo <= i < hi ==> r.Get(i) == log[i]
  }

  function Max(a: int, b: int): int {
    if a < b then b else a
  }

  /** Counters below this one have been overwritten in the installed array. */
  function Oldest(s: State): int
    requires 0 < |s.arrays| == |s.spans| && |s.threads| > 0
  {
    var size := s.arrays[s.Cur()].Size();
    Max(s.spans[s.Cur()].from, s.tail - size + if s.threads[0].PushStoreTail? then 1 else 0)
  }

  ghost predicate ArraysInv(s: State)
    requires 0 < |s.arrays| == |s.spans| && |s.threads| > 0
  {
    && s.arrays[s.Cur()].Valid()
    && Mirrors(s.arrays[s.Cur()], s.log, Oldest(s), s.tail)
    && (forall a :: 0 <= a < s.Cur() ==>
          && 0 <= s.spans[a].until - s.arrays[a].Size()
          && s.spans[a].until - s.arrays[a].Size() <= s.head
          && Mirrors(s.arrays[a], s.log, s.spans[a].until - s.arrays[a].Size(), s.spans[a].until))
  }

  ghost predicate OwnerInv(s: State)
    requires 0 < |s.arrays| == |s.spans| && |s.threads| > 0
  {
    var arr := s.arrays[s.Cur()];
    var room := s.tail - s.head < arr.Size();
    match s.threads[0]
    case PrioStore(_, displaced) => displaced == s.slot
    case PopClearSlot(x) => s.slot == Some(x)
    case PushLoadHead(_, _, a) => a == s.Cur()
    case PushLoadTail(_, _, a, h) =>
      a == s.Cur() && s.spans[a].from <= h <= s.head && s.tail - h <= arr.Size()
    case PushCheck(_, _, a, h, t) =>
      a == s.Cur() && s.spans[a].from <= h <= s.head && s.tail - h <= arr.Size() && t == s.tail
    case PushGrow(_, _, a, h, t) =>
      a == s.Cur() && s.spans[a].from <= h <= s.head && s.tail - h == arr.Size() && t == s.tail
    case PushStoreArray(_, _, h, t, grown) =>
      && s.spans[s.Cur()].from <= h <= s.head && s.tail - h == arr.Size() && t == s.tail
      && IsResizeOf(grown, arr, t, h)
    case PushSetSlot(_, _, a, t) => a == s.Cur() && t == s.tail && room
    case PushStoreTail(x, _, t) => t == s.tail && room && arr.Valid() && arr.Get(t) == x
    case _ =>
      && (s.threads[0].HoldsArray() ==> s.threads[0].arr == s.Cur())
      && (s.threads[0].Taking() && s.threads[0].pop ==> s.slot == None)
  }

  ghost predicate TakerInv(s: State, pc: Pc)
    requires 0 < |s.arrays| == |s.spans|
  {
    match pc
    case TakeLoadHead(_, a) => a < |s.arrays|
    case TakeLoadTail(_, a, h) => a < |s.arrays| && 0 <= h <= s.head
    case TakeRead(_, a, h) => a < |s.arrays| && 0 <= h <= s.head && h < s.tail
    case TakeCas(_, a, h, x) =>
      && a < |s.arrays| && 0 <= h <= s.head && h < s.tail
      && s.arrays[a].Valid()
      && (h == s.head ==> 0 <= Source(s, a, h) < |s.log| && x == s.log[Source(s, a, h)])
    case Return(h) => h.Nothing? || h.Holds?
    case _ => true
  }

  predicate IsPop(pc: Pc) {
    pc.Taking() && pc.pop
  }

  ghost predicate Inv(s: State) {
    && 0 < |s.arrays| == |s.spans| && |s.threads| > 0
    && 0 <= s.spans[s.Cur()].from <= s.head <= s.tail == |s.log|
    && s.tail - s.head <= s.arrays[s.Cur()].Size()
    && ArraysInv(s)
    && OwnerInv(s)
    && (forall i :: 0 < i < |s.threads| ==> !s.threads[i].OwnerOnly() && !IsPop(s.threads[i]))
    && (forall i :: 0 <= i < |s.threads| ==> TakerInv(s, s.threads[i]))
  }

  ghost function Hands(threads: seq<Pc>): seq<Hand> {
    seq(|threads|, i requires 0 <= i < |threads| => threads[i].Answer())
  }

  /** The queue is the part of the log that was not taken yet. */
  ghost function Abs(s: State): Fifo
    requires Inv(s)
  {
    Fifo(s.slot, s.threads[0].Carry(), s.log[s.head..], Hands(s.threads))
  }

  // ------------------------------------------------------------- preservation

  /** Adding a multiple of n does not change the slot. */
  lemma SameSlot(i: int, q: int, n: int)
    requires 0 < n
    ensures (i + n * q) % n == i % n
  {
    var d := (i + n * q) / n - i / n - q;
    assert n * d == i % n - (i + n * q) % n by {
      assert n * d == n * ((i + n * q) / n) - n * (i / n) - n * q;
    }
    if d >= 1 {
      MulAtLeast(n, d);
    } else if d <= -1 {
      MulAtLeast(n, -d);
    }
  }

  lemma OldestBelowHead(s: State)
    requires Inv(s)
    ensures Oldest(s) <= s.head
  {
    hide ArraysInv, TakerInv;
  }

  /** A read through any array, installed or replaced, yields the log's element at
      its `Source`. */
  lemma ReadIsSource(s: State, a: nat, h: int)
    requires Inv(s) && a < |s.arrays| && h == s.head < s.tail
    ensures s.arrays[a].Valid() && 0 <= Source(s, a, h) < |s.log|
    ensures s.arrays[a].Get(h) == s.log[Source(s, a, h)]
  {
    hide OwnerInv, TakerInv;
    OldestBelowHead(s);
    if a == s.Cur() {
    } else if h >= s.spans[a].until {
      var n := s.arrays[a].Size();
      var u := s.spans[a].until;
      var src := Source(s, a, h);
      assert h == src + n * ((h - u) / n + 1);
      SameSlot(src, (h - u) / n + 1, n);
      assert s.arrays[a].Get(h) == s.arrays[a].Get(src);
    }
  }

  lemma HandsUpdate(threads: seq<Pc>, i: nat, pc: Pc)
    requires i < |threads|
    ensures Hands(threads[i := pc]) == Hands(threads)[i := pc.Answer()]
    ensures pc.Answer() == threads[i].Answer() ==> Hands(threads[i := pc]) == Hands(threads)
  {
  }

  lemma TakerKeeps(s: State, s': State, pc: Pc)
    requires 0 < |s.arrays| == |s.spans| && TakerInv(s, pc)
    requires s'.arrays == s.arrays && s'.spans == s.spans && s'.log == s.log
    requires s'.tail == s.tail && s.head <= s'.head
    ensures TakerInv(s', pc)
  {
  }

  /** A step that only moves thread i (and, for the owner, the slot) keeps the invariant
      if the thread's new program point is accounted for. */
  lemma LocalKeeps(s: State, s': State, i: nat)
    requires Inv(s) && i < |s.threads| == |s'.threads|
    requires s' == s.(slot := s'.slot, threads := s.threads[i := s'.threads[i]])
    requires !s.threads[i].PushStoreTail? && !s'.threads[i].PushStoreTail?
    requires if i == 0 then OwnerInv(s') else s'.slot == s.slot && !s'.threads[i].OwnerOnly() && !IsPop(s'.threads[i])
    requires TakerInv(s, s'.threads[i])
    ensures Inv(s')
    ensures Hands(s'.threads) == Hands(s.threads)[i := s'.threads[i].Answer()]
    ensures s'.threads[i].Answer() == s.threads[i].Answer() ==> Hands(s'.threads) == Hands(s.threads)
  {
    assert OwnerInv(s');
    assert Oldest(s') == Oldest(s);
    forall j | 0 <= j < |s'.threads|
      ensures TakerInv(s', s'.threads[j])
    {
      TakerKeeps(s, s', s'.threads[j]);
    }
  }

  lemma CallRefines(s: State, s': State, i: nat, ev: Event)
    requires Inv(s) && i < |s.threads| && CallStep(s, s', i, ev)
    ensures Inv(s') && FifoNext(Abs(s), Abs(s'), ev)
  {
    hide ArraysInv;
    LocalKeeps(s, s', i);
  }

  lemma PriorityRefines(s: State, s': State, i: nat, ev: Event)
    requires Inv(s) && i < |s.threads| && SlotStep(s, s', i, ev)
    requires s.threads[i].PrioLoad? || s.threads[i].PrioStore?
    ensures Inv(s') && FifoNext(Abs(s), Abs(s'), ev)
  {
    hide ArraysInv;
    LocalKeeps(s, s', i);
  }

  lemma SlotRefines(s: State, s': State, i: nat, ev: Event)
    requires Inv(s) && i < |s.threads| && SlotStep(s, s', i, ev)
    requires !s.threads[i].PrioLoad? && !s.threads[i].PrioStore?
    ensures Inv(s') && FifoNext(Abs(s), Abs(s'), ev)
  {
    hide ArraysInv;
    LocalKeeps(s, s', i);
  }

  lemma PushLocalOwner(s: State, s': State, ev: Event)
    requires Inv(s) && PushStep(s, s', 0, ev)
    requires !s.threads[0].PushStoreArray? && !s.threads[0].PushSetSlot? && !s.threads[0].PushStoreTail?
    ensures ev == Silent && s' == s.(threads := s.threads[0 := s'.threads[0]]) && OwnerInv(s')
    ensures s'.threads[0].Pushing() && !s'.threads[0].PushStoreTail? && s'.threads[0].Carry() == s.threads[0].Carry()
  {
    hide ArraysInv, TakerInv, Ring.Get, Ring.Set;
  }

  lemma PushersTakeNothing(s: State, pc: Pc)
    requires 0 < |s.arrays| == |s.spans| && pc.Pushing()
    ensures TakerInv(s, pc) && pc.Answer() == Vacant
  {
  }

  lemma OnlyOwnerPushes(s: State, s': State, i: nat, ev: Event)
    requires Inv(s) && i < |s.threads| && PushStep(s, s', i, ev)
    ensures i == 0 && s.threads[0].Pushing()
  {
    hide ArraysInv, TakerInv, OwnerInv;
  }

  lemma PushLocalRefines(s: State, s': State, i: nat, ev: Event)
    requires Inv(s) && i < |s.threads| && PushStep(s, s', i, ev)
    requires !s.threads[i].PushStoreArray? && !s.threads[i].PushSetSlot? && !s.threads[i].PushStoreTail?
    ensures Inv(s') && FifoNext(Abs(s), Abs(s'), ev)
  {
    hide ArraysInv, TakerInv, OwnerInv, PushStep;
    OnlyOwnerPushes(s, s', i, ev);
    PushLocalOwner(s, s', ev);
    PushersTakeNothing(s, s.threads[0]);
    PushersTakeNothing(s, s'.threads[0]);
    LocalKeeps(s, s', 0);
  }

  /** Installing the grown array freezes the old one's span at the current tail. */
  lemma StoreArrayTaker(s: State, s': State, pc: Pc)
    requires Inv(s) && TakerInv(s, pc) && PushStep(s, s', 0, Silent) && s.threads[0].PushStoreArray?
    ensures 0 < |s'.arrays| == |s'.spans| && TakerInv(s', pc)
  {
  }

  lemma StoreArrayArrays(s: State, s': State)
    requires Inv(s) && PushStep(s, s', 0, Silent) && s.threads[0].PushStoreArray?
    ensures 0 < |s'.arrays| == |s'.spans| && ArraysInv(s') && OwnerInv(s')
  {
    var arr, grown := s.arrays[s.Cur()], s.threads[0].grown;
    assert Oldest(s') == s.threads[0].head;
    assert Mirrors(grown, s.log, s.threads[0].head, s.tail);
  }

  lemma StoreArrayRefines(s: State, s': State, i: nat, ev: Event)
    requires Inv(s) && i < |s.threads| && PushStep(s, s', i, ev) && s.threads[i].PushStoreArray?
    ensures Inv(s') && FifoNext(Abs(s), Abs(s'), ev)
  {
    assert i == 0;
    StoreArrayArrays(s, s');
    forall j | 0 <= j < |s'.threads|
      ensures TakerInv(s', s'.threads[j])
    {
      if j != 0 {
        StoreArrayTaker(s, s', s.threads[j]);
      }
    }
    HandsUpdate(s.threads, i, s'.threads[i]);
  }

  lemma SetSlotArrays(s: State, s': State)
    requires Inv(s) && PushStep(s, s', 0, Silent) && s.threads[0].PushSetSlot?
    ensures 0 < |s'.arrays| == |s'.spans| && s'.Cur() == s.Cur()
    ensures forall a :: 0 <= a < |s.arrays| ==> s'.arrays[a].Size() == s.arrays[a].Size()
    ensures ArraysInv(s') && OwnerInv(s')
  {
    SetGet(s.arrays[s.Cur()], s.tail, s.threads[0].elt);
    assert forall a :: 0 <= a < s.Cur() ==> s'.arrays[a] == s.arrays[a];
    hide TakerInv;
  }

  lemma SetSlotTaker(s: State, s': State, pc: Pc)
    requires 0 < |s.arrays| == |s.spans| && TakerInv(s, pc)
    requires |s'.arrays| == |s.arrays| && s'.spans == s.spans && s'.log == s.log
    requires s'.head == s.head && s'.tail == s.tail
    requires forall a :: 0 <= a < |s.arrays| ==> s'.arrays[a].Size() == s.arrays[a].Size()
    ensures TakerInv(s', pc)
  {
    if pc.TakeCas? {
      assert s'.arrays[pc.arr].Size() == s.arrays[pc.arr].Size();
    }
  }

  lemma SetSlotRefines(s: State, s': State, i: nat, ev: Event)
    requires Inv(s) && i < |s.threads| && PushStep(s, s', i, ev) && s.threads[i].PushSetSlot?
    ensures Inv(s') && FifoNext(Abs(s), Abs(s'), ev)
  {
    assert i == 0;
    SetSlotArrays(s, s');
    forall j | 0 <= j < |s'.threads|
      ensures TakerInv(s', s'.threads[j])
    {
      if j != 0 {
        assert TakerInv(s, s.threads[j]);
        SetSlotTaker(s, s', s.threads[j]);
      }
    }
    HandsUpdate(s.threads, i, s'.threads[i]);
    hide ArraysInv, OwnerInv, TakerInv;
  }

  lemma StoreTailArrays(s: State, s': State, ev: Event)
    requires Inv(s) && PushStep(s, s', 0, ev) && s.threads[0].PushStoreTail?
    ensures 0 < |s'.arrays| == |s'.spans| && ArraysInv(s') && OwnerInv(s')
    ensures s'.log == s.log + [s.threads[0].elt]
  {
    hide TakerInv;
    assert Oldest(s') == Oldest(s);
  }

  lemma StoreTailTaker(s: State, s': State, pc: Pc)
    requires Inv(s) && TakerInv(s, pc)
    requires s'.arrays == s.arrays && s'.spans == s.spans && s.log <= s'.log && s'.head == s.head && s.tail <= s'.tail
    ensures TakerInv(s', pc)
  {
    hide ArraysInv, OwnerInv;
  }

  lemma StoreTailRefines(s: State, s': State, i: nat, ev: Event)
    requires Inv(s) && i < |s.threads| && PushStep(s, s', i, ev) && s.threads[i].PushStoreTail?
    ensures Inv(s') && FifoNext(Abs(s), Abs(s'), ev)
  {
    hide ArraysInv, TakerInv;
    assert i == 0;
    StoreTailArrays(s, s', ev);
    hide OwnerInv;
    HandsUpdate(s.threads, i, s'.threads[i]);
    assert s'.log[s.head..] == s.log[s.head..] + [s.threads[0].elt];
    forall j | 0 <= j < |s'.threads|
      ensures TakerInv(s', s'.threads[j])
    {
      if j != 0 {
        StoreTailTaker(s, s', s.threads[j]);
      } else {
        OutTakes(s');
      }
    }
  }

  lemma OutTakes(s: State)
    requires 0 < |s.arrays| == |s.spans|
    ensures TakerInv(s, Out)
  {
  }

  lemma TakeReadKnows(s: State, s': State, i: nat, ev: Event)
    requires Inv(s) && i < |s.threads| && TakeStep(s, s', i, ev) && s.threads[i].TakeRead?
    ensures TakerInv(s, s'.threads[i])
  {
    assert TakerInv(s, s.threads[i]);
    if s.threads[i].head == s.head {
      ReadIsSource(s, s.threads[i].arr, s.threads[i].head);
    }
  }

  lemma TakeLocalMoves(s: State, s': State, i: nat, ev: Event)
    requires Inv(s) && i < |s.threads| && TakeStep(s, s', i, ev) && !ev.Take?
    ensures s' == s.(threads := s.threads[i := s'.threads[i]])
    ensures s.threads[i].Taking()
    ensures if ev == Silent then s'.threads[i].Taking() && s'.threads[i].pop == s.threads[i].pop
            else ev == SawEmpty(i) && s.head == s.tail && s'.threads[i] == Return(Nothing)
    ensures !s.threads[i].OwnerOnly() && !s'.threads[i].OwnerOnly()
    ensures i == 0 ==> OwnerInv(s')
  {
    hide ArraysInv, Ring.Get, Ring.Set;
    assert TakerInv(s, s.threads[i]);
  }

  lemma TakeLocalKeeps(s: State, s': State, i: nat, ev: Event)
    requires Inv(s) && i < |s.threads| && TakeStep(s, s', i, ev) && !ev.Take?
    ensures TakerInv(s, s'.threads[i])
  {
    assert TakerInv(s, s.threads[i]);
    if s.threads[i].TakeRead? {
      TakeReadKnows(s, s', i, ev);
    } else {
      hide ArraysInv, OwnerInv;
    }
  }

  lemma TakeLocalRefines(s: State, s': State, i: nat, ev: Event)
    requires Inv(s) && i < |s.threads| && TakeStep(s, s', i, ev)
    requires !ev.Take?
    ensures Inv(s') && FifoNext(Abs(s), Abs(s'), ev)
  {
    hide TakeStep, ArraysInv, TakerInv, OwnerInv;
    TakeLocalMoves(s, s', i, ev);
    TakeLocalKeeps(s, s', i, ev);
    if IsPop(s.threads[i]) {
      PopPassedSlot(s, i);
    }
    LocalKeeps(s, s', i);
  }

  /** A successful compare-and-swap removes the front counter; what the taker carries
      away is the log's element at its `Source`. */
  lemma TakeKeeps(s: State, s': State, i: nat, ev: Event)
    requires Inv(s) && i < |s.threads| && TakeStep(s, s', i, ev)
    requires ev.Take?
    ensures Inv(s') && s.head < s.tail
    ensures 0 <= Source(s, s.threads[i].arr, s.head) < |s.log|
    ensures ev == Take(i, s.log[Source(s, s.threads[i].arr, s.head)])
  {
    assert TakerInv(s, s.threads[i]);
    assert Oldest(s') == Oldest(s);
    assert OwnerInv(s');
    forall j | 0 <= j < |s'.threads|
      ensures TakerInv(s', s'.threads[j])
    {
      if j != i {
        TakerKeeps(s, s', s.threads[j]);
      }
    }
  }

  // ------------------------------------------- when a take returns the front element

  /** The array thread i holds is still installed, or was replaced only after the
      front element had been pushed. */
  predicate HoldsFront(s: State, i: nat)
    requires i < |s.threads| && 0 < |s.arrays| == |s.spans|
  {
    s.threads[i].TakeCas? && s.threads[i].arr < |s.arrays|
    && (s.threads[i].arr == s.Cur() || s.head < s.spans[s.threads[i].arr].until)
  }

  ghost predicate Distinct(log: seq<Task>) {
    forall i, j :: 0 <= i < j < |log| ==> log[i] != log[j]
  }

  /** A pop that is past the slot has found it empty, and it still is. */
  lemma PopPassedSlot(s: State, i: nat)
    requires Inv(s) && i < |s.threads| && IsPop(s.threads[i])
    ensures i == 0 && s.slot == None
  {
    hide ArraysInv, TakerInv;
  }

  /** Under `HoldsFront` a successful take is a FIFO take. */
  lemma TakeRefines(s: State, s': State, i: nat, ev: Event)
    requires Inv(s) && i < |s.threads| && TakeStep(s, s', i, ev)
    requires ev.Take? && HoldsFront(s, i)
    ensures Inv(s') && FifoNext(Abs(s), Abs(s'), ev)
  {
    hide ArraysInv, OwnerInv, TakerInv;
    TakeKeeps(s, s', i, ev);
    if IsPop(s.threads[i]) {
      PopPassedSlot(s, i);
    }
    HandsUpdate(s.threads, i, s'.threads[i]);
    assert s.log[s.head..] == [s.log[s.head]] + s.log[s.head + 1..];
  }

  /** A successful take returns the front of the queue exactly when `HoldsFront`
      holds, provided no task was pushed twice. */
  lemma TakeIsFifoExactlyWhen(s: State, s': State, i: nat, ev: Event)
    requires Inv(s) && i < |s.threads| && TakeStep(s, s', i, ev)
    requires ev.Take? && Distinct(s.log)
    ensures Inv(s') && (FifoNext(Abs(s), Abs(s'), ev) <==> HoldsFront(s, i))
  {
    TakeKeeps(s, s', i, ev);
    if HoldsFront(s, i) {
      TakeRefines(s, s', i, ev);
    } else {
      var a := s.threads[i].arr;
      assert Source(s, a, s.head) < s.head;
      assert Abs(s).items[0] == s.log[s.head] != ev.elt;
    }
  }

  /** The owner installs arrays itself, so its own takes are always right. */
  lemma OwnerHoldsFront(s: State, s': State, ev: Event)
    requires Inv(s) && TakeStep(s, s', 0, ev) && ev.Take?
    ensures HoldsFront(s, 0)
  {
  }

  // ---------------------------------------------------------------- whole runs

  ghost predicate IsRun(ss: seq<State>, evs: seq<Event>) {
    && |ss| == |evs| + 1
    && Init(ss[0])
    && forall k :: 0 <= k < |evs| ==> Next(ss[k], ss[k + 1], evs[k])
  }

  /** If the event is a take, it was made through an array that held the front. */
  predicate TakeHoldsFront(s: State, ev: Event) {
    ev.Take? ==> ev.who < |s.threads| && 0 < |s.arrays| == |s.spans| && HoldsFront(s, ev.who)
  }

  /** No thread holds a replaced array: no resize happened since it loaded the pointer. */
  predicate NoStaleArray(s: State)
    requires |s.arrays| > 0
  {
    forall i :: 0 <= i < |s.threads| && s.threads[i].HoldsArray() ==> s.threads[i].arr == s.Cur()
  }

  lemma InitRefines(s: State)
    requires Init(s)
    ensures Inv(s) && Abs(s) == NewFifo(|s.threads|)
  {
    assert Hands(s.threads) == seq(|s.threads|, _ => Vacant);
  }

  lemma PushRefines(s: State, s': State, i: nat, ev: Event)
    requires Inv(s) && i < |s.threads| && PushStep(s, s', i, ev)
    ensures Inv(s') && FifoNext(Abs(s), Abs(s'), ev)
  {
    if s.threads[i].PushStoreArray? {
      StoreArrayRefines(s, s', i, ev);
    } else if s.threads[i].PushSetSlot? {
      SetSlotRefines(s, s', i, ev);
    } else if s.threads[i].PushStoreTail? {
      StoreTailRefines(s, s', i, ev);
    } else {
      PushLocalRefines(s, s', i, ev);
    }
  }

  lemma StepRefines(s: State, s': State, ev: Event)
    requires Inv(s) && Next(s, s', ev) && TakeHoldsFront(s, ev)
    ensures Inv(s') && FifoNext(Abs(s), Abs(s'), ev)
  {
    var i :| 0 <= i < |s.threads| && StepOf(s, s', i, ev);
    if CallStep(s, s', i, ev) {
      CallRefines(s, s', i, ev);
    } else if SlotStep(s, s', i, ev) {
      if s.threads[i].PrioLoad? || s.threads[i].PrioStore? {
        PriorityRefines(s, s', i, ev);
      } else {
        SlotRefines(s, s', i, ev);
      }
    } else if PushStep(s, s', i, ev) {
      PushRefines(s, s', i, ev);
    } else if ev.Take? {
      TakeRefines(s, s', i, ev);
    } else {
      TakeLocalRefines(s, s', i, ev);
    }
  }

  lemma StepKeeps(s: State, s': State, ev: Event)
    requires Inv(s) && Next(s, s', ev)
    ensures Inv(s')
  {
    if TakeHoldsFront(s, ev) {
      StepRefines(s, s', ev);
    } else {
      var i :| 0 <= i < |s.threads| && StepOf(s, s', i, ev);
      TakeKeeps(s, s', i, ev);
    }
  }

  lemma {:induction false} RunKeeps(ss: seq<State>, evs: seq<Event>)
    requires IsRun(ss, evs)
    ensures forall k :: 0 <= k < |ss| ==> Inv(ss[k])
  {
    InitRefines(ss[0]);
    for n := 0 to |evs|
      invariant forall k :: 0 <= k <= n ==> Inv(ss[k])
    {
      StepKeeps(ss[n], ss[n + 1], evs[n]);
    }
  }

  /** A run whose takes all hold the front is, event by event, a run of the sequential
      FIFO with a priority slot. */
  lemma {:induction false} RunRefines(ss: seq<State>, evs: seq<Event>) returns (fs: seq<Fifo>)
    requires IsRun(ss, evs)
    requires forall k :: 0 <= k < |evs| ==> TakeHoldsFront(ss[k], evs[k])
    ensures |fs| == |ss| && IsFifoRun(fs, evs)
    ensures forall k :: 0 <= k < |ss| ==> Inv(ss[k]) && fs[k] == Abs(ss[k])
  {
    InitRefines(ss[0]);
    RunKeeps(ss, evs);
    fs := seq(|ss|, k requires 0 <= k < |ss| && Inv(ss[k]) => Abs(ss[k]));
    forall k | 0 <= k < |evs|
      ensures FifoNext(fs[k], fs[k + 1], evs[k])
    {
      StepRefines(ss[k], ss[k + 1], evs[k]);
    }
  }

  lemma FreshTakeHoldsFront(s: State, s': State, ev: Event)
    requires Inv(s) && Next(s, s', ev) && NoStaleArray(s)
    ensures TakeHoldsFront(s, ev)
  {
    var i :| 0 <= i < |s.threads| && StepOf(s, s', i, ev);
    assert TakerInv(s, s.threads[i]);
  }

  /** In runs with no resize between a thread's array load and its compare-and-swap,
      nothing is lost, duplicated or returned twice. */
  lemma RunConserves(ss: seq<State>, evs: seq<Event>, n: nat, x: Task)
    requires IsRun(ss, evs) && n <= |evs|
    requires forall k :: 0 <= k < |evs| ==> |ss[k].arrays| > 0 && NoStaleArray(ss[k])
    ensures Inv(ss[n])
    ensures PushedUpTo(evs, n, x) == ReturnedUpTo(evs, n, x) + Held(Abs(ss[n]), x)
  {
    RunKeeps(ss, evs);
    forall k | 0 <= k < |evs|
      ensures TakeHoldsFront(ss[k], evs[k])
    {
      FreshTakeHoldsFront(ss[k], ss[k + 1], evs[k]);
    }
    var fs := RunRefines(ss, evs);
    Conservation(fs, evs, n, x);
  }

  /** The owner grows the array only if it was full when it last looked at the head. */
  lemma GrowsOnlyIfFull(ss: seq<State>, evs: seq<Event>, n: nat)
    requires IsRun(ss, evs) && n <= |evs|
    ensures 0 < |ss[n].arrays| && 0 < |ss[n].threads|
    ensures var pc := ss[n].threads[0];
            pc.PushGrow? ==>
              && pc.head <= ss[n].head && pc.tail == ss[n].tail
              && pc.tail - pc.head == ss[n].arrays[ss[n].Cur()].Size()
  {
    RunKeeps(ss, evs);
    assert Inv(ss[n]);
    hide ArraysInv, TakerInv;
  }

  // -------------------------------------------------- a run where it goes wrong

  /** Some run ends in s after pushing x p times and returning it r times. */
  ghost predicate Reaches(s: State, x: Task, p: nat, r: nat) {
    exists ss, evs :: IsRunTo(ss, evs, s, x, p, r)
  }

  ghost predicate IsRunTo(ss: seq<State>, evs: seq<Event>, s: State, x: Task, p: nat, r: nat) {
    && IsRun(ss, evs) && ss[|evs|] == s
    && PushedUpTo(evs, |evs|, x) == p && ReturnedUpTo(evs, |evs|, x) == r
  }

  lemma {:induction false} CountsOfPrefix(evs: seq<Event>, ev: Event, n: nat, x: Task)
    requires n <= |evs|
    ensures PushedUpTo(evs + [ev], n, x) == PushedUpTo(evs, n, x)
    ensures ReturnedUpTo(evs + [ev], n, x) == ReturnedUpTo(evs, n, x)
  {
    if n > 0 {
      CountsOfPrefix(evs, ev, n - 1, x);
    }
  }

  lemma RunSnoc(ss: seq<State>, evs: seq<Event>, s': State, ev: Event)
    requires IsRun(ss, evs) && Next(ss[|evs|], s', ev)
    ensures IsRun(ss + [s'], evs + [ev])
  {
    var ss', evs' := ss + [s'], evs + [ev];
    forall k | 0 <= k < |evs'|
      ensures Next(ss'[k], ss'[k + 1], evs'[k])
    {
      if k < |evs| {
        assert Next(ss[k], ss[k + 1], evs[k]);
      }
    }
  }

  lemma Extend(s: State, s': State, ev: Event, x: Task, p: nat, r: nat)
    requires Reaches(s, x, p, r) && Next(s, s', ev)
    ensures Reaches(s', x, p + PushedBy(ev, x), r + ReturnedBy(ev, x))
  {
    hide Next;
    var ss, evs :| IsRunTo(ss, evs, s, x, p, r);
    CountsOfPrefix(evs, ev, |evs|, x);
    RunSnoc(ss, evs, s', ev);
    assert IsRunTo(ss + [s'], evs + [ev], s', x, p + PushedBy(ev, x), r + ReturnedBy(ev, x));
  }

  // One lemma per kind of step, so that each link of the scenario stays small.

  lemma Call(s: State, s': State, i: nat, pc: Pc, x: Task, p: nat, r: nat)
    requires Reaches(s, x, p, r) && |s.arrays| > 0 && i < |s.threads|
    requires s.threads[i] == Out && s' == Goto(s, i, pc)
    requires pc == TakeLoadArray(false) || (i == 0 && IsOwnerCall(pc))
    ensures Reaches(s', x, p, r)
  {
    hide Reaches, SlotStep, PushStep, TakeStep;
    assert CallStep(s, s', i, CallOf(i, pc));
    assert StepOf(s, s', i, CallOf(i, pc));
    Extend(s, s', CallOf(i, pc), x, p, r);
  }

  lemma Slot(s: State, s': State, i: nat, ev: Event, x: Task, p: nat, r: nat)
    requires Reaches(s, x, p, r) && |s.arrays| > 0 && i < |s.threads| && SlotStep(s, s', i, ev)
    ensures Reaches(s', x, p + PushedBy(ev, x), r + ReturnedBy(ev, x))
  {
    assert StepOf(s, s', i, ev);
    Extend(s, s', ev, x, p, r);
  }

  lemma PushOne(s: State, s': State, i: nat, ev: Event, x: Task, p: nat, r: nat)
    requires Reaches(s, x, p, r) && |s.arrays| > 0 && i < |s.threads| && PushStep(s, s', i, ev)
    ensures Reaches(s', x, p + PushedBy(ev, x), r + ReturnedBy(ev, x))
  {
    assert StepOf(s, s', i, ev);
    Extend(s, s', ev, x, p, r);
  }

  lemma TakeOne(s: State, s': State, i: nat, ev: Event, x: Task, p: nat, r: nat)
    requires Reaches(s, x, p, r) && |s.arrays| > 0 && i < |s.threads| && TakeStep(s, s', i, ev)
    ensures Reaches(s', x, p + PushedBy(ev, x), r + ReturnedBy(ev, x))
  {
    assert StepOf(s, s', i, ev);
    Extend(s, s', ev, x, p, r);
  }

  // Thread 1 loads the pointer of a one-slot array; the owner pushes 7, grows the array
  // to push 8, and pops 7; then thread 1 goes on with its stale pointer.

  lemma StaleStart() returns (s: State)
    ensures Reaches(s, 7, 0, 0)
    ensures s == State(0, 0, None, [Ring([0])], [Span(0, 0)], [], [Out, Out])
  {
    s := State(0, 0, None, [Ring([0])], [Span(0, 0)], [], [Out, Out]);
    assert IsRunTo([s], [], s, 7, 0, 0);
  }

  lemma StaleLoad() returns (s: State)
    ensures Reaches(s, 7, 0, 0)
    ensures s == State(0, 0, None, [Ring([0])], [Span(0, 0)], [],
                       [PushLoadHead(7, false, 0), TakeLoadHead(false, 0)])
  {
    hide Reaches;
    var s0 := StaleStart();
    var s1 := Goto(s0, 1, TakeLoadArray(false));
    Call(s0, s1, 1, TakeLoadArray(false), 7, 0, 0);
    var s2 := Goto(s1, 1, TakeLoadHead(false, 0));
    TakeOne(s1, s2, 1, Silent, 7, 0, 0);
    var s3 := Goto(s2, 0, PushLoadArray(7, false));
    Call(s2, s3, 0, PushLoadArray(7, false), 7, 0, 0);
    s := Goto(s3, 0, PushLoadHead(7, false, 0));
    PushOne(s3, s, 0, Silent, 7, 0, 0);
  }

  lemma StalePush() returns (s: State)
    ensures Reaches(s, 7, 1, 0)
    ensures s == State(0, 1, None, [Ring([7])], [Span(0, 0)], [7], [Out, TakeLoadHead(false, 0)])
  {
    hide Reaches;
    var s4 := StaleLoad();
    var s5 := Goto(s4, 0, PushLoadTail(7, false, 0, 0));
    PushOne(s4, s5, 0, Silent, 7, 0, 0);
    var s6 := Goto(s5, 0, PushCheck(7, false, 0, 0, 0));
    PushOne(s5, s6, 0, Silent, 7, 0, 0);
    var s7 := Goto(s6, 0, PushSetSlot(7, false, 0, 0));
    PushOne(s6, s7, 0, Silent, 7, 0, 0);
    var s8 := Goto(s7.(arrays := [Ring([7])]), 0, PushStoreTail(7, false, 0));
    assert Ring([0]).Set(0, 7).slots == [7];
    assert s7.arrays[0 := s7.arrays[0].Set(0, 7)] == [Ring([7])];
    PushOne(s7, s8, 0, Silent, 7, 0, 0);
    s := Goto(s8.(tail := 1, log := [7]), 0, Out);
    PushOne(s8, s, 0, Push(7), 7, 0, 0);
  }

  lemma StaleFull() returns (s: State)
    ensures Reaches(s, 7, 1, 0)
    ensures s == State(0, 1, None, [Ring([7])], [Span(0, 0)], [7],
                       [PushGrow(8, false, 0, 0, 1), TakeLoadHead(false, 0)])
  {
    hide Reaches;
    var s9 := StalePush();
    var s10 := Goto(s9, 0, PushLoadArray(8, false));
    Call(s9, s10, 0, PushLoadArray(8, false), 7, 1, 0);
    var s11 := Goto(s10, 0, PushLoadHead(8, false, 0));
    PushOne(s10, s11, 0, Silent, 7, 1, 0);
    var s12 := Goto(s11, 0, PushLoadTail(8, false, 0, 0));
    PushOne(s11, s12, 0, Silent, 7, 1, 0);
    var s13 := Goto(s12, 0, PushCheck(8, false, 0, 0, 1));
    PushOne(s12, s13, 0, Silent, 7, 1, 0);
    s := Goto(s13, 0, PushGrow(8, false, 0, 0, 1));
    PushOne(s13, s, 0, Silent, 7, 1, 0);
  }

  lemma StaleInstall() returns (s: State)
    ensures Reaches(s, 7, 1, 0)
    ensures s == State(0, 1, None, [Ring([7]), Ring([7, 0])], [Span(0, 1), Span(0, 1)], [7],
                       [PushSetSlot(8, false, 1, 1), TakeLoadHead(false, 0)])
  {
    hide Reaches;
    var s14 := StaleFull();
    var g := Ring([7, 0]);
    var s15 := Goto(s14, 0, PushStoreArray(8, false, 0, 1, g));
    assert IsResizeOf(g, s14.arrays[0], 1, 0);
    PushOne(s14, s15, 0, Silent, 7, 1, 0);
    s := Goto(s15.(arrays := [Ring([7]), g], spans := [Span(0, 1), Span(0, 1)]),
              0, PushSetSlot(8, false, 1, 1));
    assert s15.arrays + [g] == [Ring([7]), g];
    assert s.spans == s15.spans[s15.Cur() := Span(0, 1)] + [Span(0, 1)];
    PushOne(s15, s, 0, Silent, 7, 1, 0);
  }

  lemma StaleGrow() returns (s: State)
    ensures Reaches(s, 7, 1, 0)
    ensures s == State(0, 2, None, [Ring([7]), Ring([7, 8])], [Span(0, 1), Span(0, 1)], [7, 8],
                       [Out, TakeLoadHead(false, 0)])
  {
    hide Reaches;
    var s16 := StaleInstall();
    var g := Ring([7, 0]);
    var s17 := Goto(s16.(arrays := [Ring([7]), Ring([7, 8])]), 0, PushStoreTail(8, false, 1));
    assert g.Set(1, 8).slots == [7, 8];
    assert s16.arrays[1 := g.Set(1, 8)] == [Ring([7]), Ring([7, 8])];
    PushOne(s16, s17, 0, Silent, 7, 1, 0);
    s := Goto(s17.(tail := 2, log := [7, 8]), 0, Out);
    PushOne(s17, s, 0, Push(8), 7, 1, 0);
  }

  lemma StaleOwnerRead() returns (s: State)
    ensures Reaches(s, 7, 1, 0)
    ensures s == State(0, 2, None, [Ring([7]), Ring([7, 8])], [Span(0, 1), Span(0, 1)], [7, 8],
                       [TakeRead(true, 1, 0), TakeLoadHead(false, 0)])
  {
    hide Reaches;
    var s18 := StaleGrow();
    var s19 := Goto(s18, 0, PopLoadSlot);
    Call(s18, s19, 0, PopLoadSlot, 7, 1, 0);
    var s20 := Goto(s19, 0, TakeLoadArray(true));
    Slot(s19, s20, 0, Silent, 7, 1, 0);
    var s21 := Goto(s20, 0, TakeLoadHead(true, 1));
    TakeOne(s20, s21, 0, Silent, 7, 1, 0);
    var s22 := Goto(s21, 0, TakeLoadTail(true, 1, 0));
    TakeOne(s21, s22, 0, Silent, 7, 1, 0);
    s := Goto(s22, 0, TakeRead(true, 1, 0));
    TakeOne(s22, s, 0, Silent, 7, 1, 0);
  }

  lemma StalePop() returns (s: State)
    ensures Reaches(s, 7, 1, 1)
    ensures s == State(1, 2, None, [Ring([7]), Ring([7, 8])], [Span(0, 1), Span(0, 1)], [7, 8],
                       [Out, TakeLoadHead(false, 0)])
  {
    hide Reaches;
    var s23 := StaleOwnerRead();
    var s24 := Goto(s23, 0, TakeCas(true, 1, 0, 7));
    TakeOne(s23, s24, 0, Silent, 7, 1, 0);
    var s25 := Goto(s24.(head := 1), 0, Return(Holds(7)));
    TakeOne(s24, s25, 0, Take(0, 7), 7, 1, 0);
    s := Goto(s25, 0, Out);
    Slot(s25, s, 0, Returned(0, Some(7)), 7, 1, 0);
  }

  lemma StaleReload() returns (s: State)
    ensures Reaches(s, 7, 1, 1)
    ensures s == State(1, 2, None, [Ring([7]), Ring([7, 8])], [Span(0, 1), Span(0, 1)], [7, 8],
                       [Out, TakeCas(false, 0, 1, 7)])
  {
    hide Reaches;
    var s26 := StalePop();
    var s27 := Goto(s26, 1, TakeLoadTail(false, 0, 1));
    TakeOne(s26, s27, 1, Silent, 7, 1, 1);
    var s28 := Goto(s27, 1, TakeRead(false, 0, 1));
    TakeOne(s27, s28, 1, Silent, 7, 1, 1);
    s := Goto(s28, 1, TakeCas(false, 0, 1, 7));
    TakeOne(s28, s, 1, Silent, 7, 1, 1);
  }

  /** Without the restriction conservation is false of the code: here the thief's stale
      array makes it return 7 a second time, and 8 is lost. */
  lemma StaleStealDuplicates()
    ensures exists s :: Reaches(s, 7, 1, 2) && s.head == s.tail == 2
  {
    hide Reaches;
    var s29 := StaleReload();
    var s30 := Goto(s29.(head := 2), 1, Return(Holds(7)));
    TakeOne(s29, s30, 1, Take(1, 7), 7, 1, 1);
    var s31 := Goto(s30, 1, Out);
    Slot(s30, s31, 1, Returned(1, Some(7)), 7, 1, 1);
  }
}
