// The spin-locked growable queue of utils/tl_queue.c as a transition system.
//
// Thread 0 is the owner: it alone pushes and uses the priority slot `buffer`.
// Every thread may take from the front.  Each access to a shared field is one
// step; the lock is an atomic exchange (ACQUIRE_LOCK in utils/atomic.h).

module TlQueue {
  import opened Options
  import opened Rings
  import opened TaskHands
  import opened FifoSpec

  /** What a thread does once it has the lock. */
  datatype Op = DoPush(elt: Task, carried: bool) | DoTake(pop: bool)

  datatype Pc =
    | Out
    // tl_queue_priority_push
    | PrioLoad(elt: Task)
    | PrioStore(elt: Task, displaced: Option<Task>)
    // tl_queue_pop, before the lock
    | PopLoadSlot
    | PopClearSlot(elt: Task)
    // the critical sections
    | Acquire(op: Op)
    | LoadArray(op: Op)
    | LoadHead(op: Op, arr: nat)
    | LoadTail(op: Op, arr: nat, head: int)
    | Check(op: Op, arr: nat, head: int, tail: int)
    | Grow(op: Op, arr: nat, head: int, tail: int)
    | Free(op: Op, head: int, tail: int, grown: Ring<Task>)
    | StoreArray(op: Op, head: int, tail: int, grown: Ring<Task>)
    | SetSlot(op: Op, arr: nat, tail: int)
    | StoreTail(op: Op, tail: int)
    | Read(pop: bool, arr: nat, head: int)
    | StoreHead(pop: bool, head: int, elt: Task)
    | Release(hand: Hand)      // Vacant after a push
    | Return(hand: Hand)
  {
    predicate InCriticalSection() {
      match this
      case Out | PrioLoad(_) | PrioStore(_, _) | PopLoadSlot | PopClearSlot(_) | Acquire(_) | Return(_) => false
      case _ => true
    }

    predicate Pushing() {
      match this
      case Acquire(op) => op.DoPush?
      case LoadArray(op) => op.DoPush?
      case LoadHead(op, _) => op.DoPush?
      case LoadTail(op, _, _) => op.DoPush?
      case Check(op, _, _, _) => op.DoPush?
      case Grow(_, _, _, _) | Free(_, _, _, _) | StoreArray(_, _, _, _) | SetSlot(_, _, _) | StoreTail(_, _) => true
      case _ => false
    }

    predicate OwnerOnly() {
      Pushing() || PrioLoad? || PrioStore? || PopLoadSlot? || PopClearSlot?
    }

    /** The displaced priority element this thread still has to push. */
    function Carry(): Option<Task> {
      if Pushing() && op.DoPush? && op.carried then Some(op.elt) else None
    }

    /** In the middle of a pop or a steal, past the slot in the case of a pop. */
    predicate Taking() {
      match this
      case Acquire(op) => op.DoTake?
      case LoadArray(op) => op.DoTake?
      case LoadHead(op, _) => op.DoTake?
      case LoadTail(op, _, _) => op.DoTake?
      case Check(op, _, _, _) => op.DoTake?
      case Read(_, _, _) => true
      case StoreHead(_, _, _) => true
      case _ => false
    }

    predicate Pops()
      requires Taking()
    {
      if Read? || StoreHead? then pop else op.DoTake? && op.pop
    }

    function Answer(): Hand {
      if Release? || Return? then hand
      else if PopLoadSlot? || PopClearSlot? then Seeking(true)
      else if Taking() then Seeking(Pops())
      else Vacant
    }
  }

  /** An array on the heap: still allocated, or freed. */
  datatype Block = Live(ring: Ring<Task>) | Freed

  /** `current` is `self->array`, an index into `blocks`.  `holder` is auxiliary: who set `locked`. */
  datatype State = State(
    locked: bool, holder: Option<nat>,
    head: int, tail: int, slot: Option<Task>,
    blocks: seq<Block>, current: nat,
    threads: seq<Pc>)

  predicate IsLive(s: State, a: nat) {
    a < |s.blocks| && s.blocks[a].Live? && s.blocks[a].ring.Valid()
  }

  // ---------------------------------------------------------------- the steps

  ghost predicate Init(s: State) {
    && !s.locked && s.holder == None
    && s.head == 0 && s.tail == 0 && s.slot == None
    && |s.blocks| == 1 && s.current == 0 && IsLive(s, 0)
    && |s.threads| > 0
    && forall i :: 0 <= i < |s.threads| ==> s.threads[i] == Out
  }

  function Goto(s: State, i: nat, pc: Pc): State
    requires i < |s.threads|
  {
    s.(threads := s.threads[i := pc])
  }

  /** A thread enters the queue; only the owner pushes or pops. */
  ghost predicate CallStep(s: State, s': State, i: nat, ev: Event)
    requires i < |s.threads|
  {
    && s.threads[i] == Out
    && exists pc ::
         && s' == Goto(s, i, pc) && (pc == Acquire(DoTake(false)) || (i == 0 && IsOwnerCall(pc)))
         && ev == if pc.PopLoadSlot? || pc == Acquire(DoTake(false)) then Called(i, pc.PopLoadSlot?) else Silent
  }

  predicate IsOwnerCall(pc: Pc) {
    pc.PrioLoad? || pc.PopLoadSlot? || (pc.Acquire? && pc.op.DoPush? && !pc.op.carried)
  }

  ghost predicate SlotStep(s: State, s': State, i: nat, ev: Event)
    requires i < |s.threads|
  {
    match s.threads[i]
    case PrioLoad(x) =>
      ev == Silent && s' == Goto(s, i, PrioStore(x, s.slot))
    case PrioStore(x, displaced) =>
      && ev == PrioritySwap(x)
      && s' == Goto(s.(slot := Some(x)), i,
                    if displaced.Some? then Acquire(DoPush(displaced.value, true)) else Out)
    case PopLoadSlot =>
      && ev == Silent
      && s' == Goto(s, i, if s.slot.Some? then PopClearSlot(s.slot.value) else Acquire(DoTake(true)))
    case PopClearSlot(x) =>
      ev == TakeSlot(x) && s' == Goto(s.(slot := None), i, Return(Holds(x)))
    case Return(h) =>
      ev == Returned(i, Result(h)) && s' == Goto(s, i, Out)
    case _ => false
  }

  ghost predicate LockStep(s: State, s': State, i: nat, ev: Event)
    requires i < |s.threads|
  {
    match s.threads[i]
    case Acquire(op) =>
      && ev == Silent
      && s' == if s.locked then s else Goto(s.(locked := true, holder := Some(i)), i, LoadArray(op))
    case Release(h) =>
      && ev == Silent
      && s' == Goto(s.(locked := false, holder := None), i, if h == Vacant then Out else Return(h))
    case _ => false
  }

  ghost predicate LoadStep(s: State, s': State, i: nat, ev: Event)
    requires i < |s.threads|
  {
    match s.threads[i]
    case LoadArray(op) =>
      ev == Silent && s' == Goto(s, i, LoadHead(op, s.current))
    case LoadHead(op, a) =>
      ev == Silent && s' == Goto(s, i, LoadTail(op, a, s.head))
    case LoadTail(op, a, h) =>
      ev == Silent && s' == Goto(s, i, Check(op, a, h, s.tail))
    case Check(DoTake(p), a, h, t) =>
      if h == t then ev == SawEmpty(i) && s' == Goto(s, i, Release(Nothing))
      else ev == Silent && s' == Goto(s, i, Read(p, a, h))
    case Check(DoPush(x, c), a, h, t) =>
      && IsLive(s, a) && ev == Silent
      && s' == Goto(s, i, if t - h > s.blocks[a].ring.Size() - 1 then Grow(DoPush(x, c), a, h, t)
                          else SetSlot(DoPush(x, c), a, t))
    case Read(p, a, h) =>
      IsLive(s, a) && ev == Silent && s' == Goto(s, i, StoreHead(p, h, s.blocks[a].ring.Get(h)))
    case _ => false
  }

  ghost predicate GrowStep(s: State, s': State, i: nat, ev: Event)
    requires i < |s.threads| && s.current < |s.blocks|
  {
    match s.threads[i]
    case Grow(op, a, h, t) =>
      && IsLive(s, a) && ev == Silent
      && exists grown :: IsResizeOf(grown, s.blocks[a].ring, t, h) && s' == Goto(s, i, Free(op, h, t, grown))
    case Free(op, h, t, grown) =>
      && ev == Silent
      && s' == Goto(s.(blocks := s.blocks[s.current := Freed]), i, StoreArray(op, h, t, grown))
    case StoreArray(op, h, t, grown) =>
      && ev == Silent
      && s' == Goto(s.(blocks := s.blocks + [Live(grown)], current := |s.blocks|), i, SetSlot(op, |s.blocks|, t))
    case _ => false
  }

  ghost predicate StoreStep(s: State, s': State, i: nat, ev: Event)
    requires i < |s.threads|
  {
    match s.threads[i]
    case SetSlot(op, a, t) =>
      && IsLive(s, a) && op.DoPush? && ev == Silent
      && s' == Goto(s.(blocks := s.blocks[a := Live(s.blocks[a].ring.Set(t, op.elt))]), i, StoreTail(op, t))
    case StoreTail(op, t) =>
      && op.DoPush? && ev == (if op.carried then PushCarried(op.elt) else Push(op.elt))
      && s' == Goto(s.(tail := t + 1), i, Release(Vacant))
    case StoreHead(_, h, x) =>
      ev == Take(i, x) && s' == Goto(s.(head := h + 1), i, Release(Holds(x)))
    case _ => false
  }

  ghost predicate StepOf(s: State, s': State, i: nat, ev: Event)
    requires i < |s.threads| && s.current < |s.blocks|
  {
    || CallStep(s, s', i, ev)
    || SlotStep(s, s', i, ev)
    || LockStep(s, s', i, ev)
    || LoadStep(s, s', i, ev)
    || GrowStep(s, s', i, ev)
    || StoreStep(s, s', i, ev)
  }

  ghost predicate Next(s: State, s': State, ev: Event) {
    && s.current < |s.blocks|
    && exists i :: 0 <= i < |s.threads| && StepOf(s, s', i, ev)
  }

  /** The arrays a thread's next step dereferences or frees. */
  function Touches(s: State, i: nat): set<nat>
    requires i < |s.threads|
  {
    match s.threads[i]
    case Check(DoPush(_, _), a, _, _) => {a}
    case Grow(_, a, _, _) => {a}
    case Free(_, _, _, _) => {s.current}
    case SetSlot(_, a, _) => {a}
    case Read(_, a, _) => {a}
    case _ => {}
  }

  // ------------------------------------------------------------ the invariant

  /** The ring that holds the queue's elements: `self->array`, or the copy the lock
      holder has made after freeing it. */
  function RingOf(s: State): Ring<Task> {
    if s.holder.Some? && s.holder.value < |s.threads| && s.threads[s.holder.value].StoreArray?
    then s.threads[s.holder.value].grown
    else if IsLive(s, s.current) then s.blocks[s.current].ring
    else Ring([])
  }

  ghost predicate Mutex(s: State) {
    && s.locked == s.holder.Some?
    && forall i :: 0 <= i < |s.threads| ==> (s.threads[i].InCriticalSection() <==> s.holder == Some(i))
  }

  /** What the lock holder's locals say about the shared fields. */
  ghost predicate HolderInv(s: State, pc: Pc, r: Ring<Task>)
    requires r.Valid()
  {
    match pc
    case LoadHead(_, a) => a == s.current
    case LoadTail(_, a, h) => a == s.current && h == s.head
    case Check(_, a, h, t) => a == s.current && h == s.head && t == s.tail
    case Grow(_, a, h, t) => a == s.current && h == s.head && t == s.tail && t - h == r.Size()
    case Free(_, h, t, grown) => h == s.head && t == s.tail && IsResizeOf(grown, r, t, h)
    case StoreArray(_, h, t, _) => h == s.head && t == s.tail && s.tail - s.head < r.Size()
    case SetSlot(_, a, t) => a == s.current && t == s.tail && s.tail - s.head < r.Size()
    case StoreTail(op, t) => t == s.tail && s.tail - s.head < r.Size() && op.DoPush? && r.Get(t) == op.elt
    case Read(_, a, h) => a == s.current && h == s.head && s.head < s.tail
    case StoreHead(_, h, x) => h == s.head && s.head < s.tail && x == r.Get(h)
    case _ => true
  }

  /** Thread 0 alone pushes and uses the slot, so its private reading of it stays true. */
  predicate ThreadInv(slot: Option<Task>, i: nat, pc: Pc) {
    && (pc.OwnerOnly() ==> i == 0)
    && (pc.Pushing() ==> pc.op.DoPush?)
    && (pc.Taking() && pc.Pops() ==> i == 0 && slot == None)
    && (pc.PrioStore? ==> pc.displaced == slot)
    && (pc.PopClearSlot? ==> slot == Some(pc.elt))
    && (pc.Release? ==> pc.hand.Vacant? || pc.hand.Nothing? || pc.hand.Holds?)
    && (pc.Return? ==> pc.hand.Nothing? || pc.hand.Holds?)
  }

  ghost predicate Inv(s: State) {
    var r := RingOf(s);
    && |s.threads| > 0 && s.current < |s.blocks|
    && Mutex(s)
    && r.Valid()
    && s.head <= s.tail && s.tail - s.head <= r.Size()
    && (forall i :: 0 <= i < |s.threads| ==> ThreadInv(s.slot, i, s.threads[i]))
    && (s.holder.Some? ==> s.holder.value < |s.threads| && HolderInv(s, s.threads[s.holder.value], r))
  }

  ghost function Hands(threads: seq<Pc>): seq<Hand> {
    seq(|threads|, i requires 0 <= i < |threads| => threads[i].Answer())
  }

  ghost function Abs(s: State): Fifo
    requires Inv(s)
  {
    Fifo(s.slot, s.threads[0].Carry(), RingOf(s).Window(s.head, s.tail), Hands(s.threads))
  }

  // ------------------------------------------------------------- preservation

  lemma HandsUpdate(threads: seq<Pc>, i: nat, pc: Pc)
    requires i < |threads|
    ensures Hands(threads[i := pc]) == Hands(threads)[i := pc.Answer()]
    ensures pc.Answer() == threads[i].Answer() ==> Hands(threads[i := pc]) == Hands(threads)
  {
  }

  /** A step of thread i that leaves the lock alone keeps what the other threads know. */
  lemma OthersKeep(s: State, s': State, i: nat)
    requires Inv(s) && i < |s.threads|
    requires |s'.threads| == |s.threads| && s'.threads == s.threads[i := s'.threads[i]]
    requires s'.locked == s.locked && s'.holder == s.holder
    requires s'.threads[i].InCriticalSection() == s.threads[i].InCriticalSection()
    requires s'.slot == s.slot || i == 0
    requires ThreadInv(s'.slot, i, s'.threads[i])
    ensures Mutex(s')
    ensures forall j :: 0 <= j < |s'.threads| ==> ThreadInv(s'.slot, j, s'.threads[j])
    ensures Hands(s'.threads) == Hands(s.threads)[i := s'.threads[i].Answer()]
    ensures s'.threads[i].Answer() == s.threads[i].Answer() ==> Hands(s'.threads) == Hands(s.threads)
  {
  }

  lemma InsideHolds(s: State, i: nat)
    requires Inv(s) && i < |s.threads|
    ensures s.threads[i].InCriticalSection() <==> s.holder == Some(i)
    ensures ThreadInv(s.slot, i, s.threads[i])
  {
  }

  lemma CallRefines(s: State, s': State, i: nat, ev: Event)
    requires Inv(s) && i < |s.threads| && CallStep(s, s', i, ev)
    ensures Inv(s') && FifoNext(Abs(s), Abs(s'), ev)
  {
    OthersKeep(s, s', i);
  }

  lemma PriorityRefines(s: State, s': State, i: nat, ev: Event)
    requires Inv(s) && i < |s.threads| && SlotStep(s, s', i, ev)
    requires s.threads[i].PrioLoad? || s.threads[i].PrioStore?
    ensures Inv(s') && FifoNext(Abs(s), Abs(s'), ev)
  {
    assert ThreadInv(s.slot, i, s.threads[i]);
    OthersKeep(s, s', i);
  }

  lemma SlotRefines(s: State, s': State, i: nat, ev: Event)
    requires Inv(s) && i < |s.threads| && SlotStep(s, s', i, ev)
    requires s.threads[i].PopLoadSlot? || s.threads[i].PopClearSlot?
    ensures Inv(s') && FifoNext(Abs(s), Abs(s'), ev)
  {
    hide Mutex;
    InsideHolds(s, i);
    OthersKeep(s, s', i);
  }

  lemma ReturnRefines(s: State, s': State, i: nat, ev: Event)
    requires Inv(s) && i < |s.threads| && SlotStep(s, s', i, ev) && s.threads[i].Return?
    ensures Inv(s') && FifoNext(Abs(s), Abs(s'), ev)
  {
    hide Mutex;
    InsideHolds(s, i);
    OthersKeep(s, s', i);
  }

  lemma LockRefines(s: State, s': State, i: nat, ev: Event)
    requires Inv(s) && i < |s.threads| && LockStep(s, s', i, ev)
    ensures Inv(s') && FifoNext(Abs(s), Abs(s'), ev)
  {
    HandsUpdate(s.threads, i, s'.threads[i]);
  }

  lemma LoadRefines(s: State, s': State, i: nat, ev: Event)
    requires Inv(s) && i < |s.threads| && LoadStep(s, s', i, ev)
    requires !s.threads[i].Check? && !s.threads[i].Read?
    ensures Inv(s') && FifoNext(Abs(s), Abs(s'), ev)
  {
    assert ThreadInv(s.slot, i, s.threads[i]);
    OthersKeep(s, s', i);
  }

  lemma ReadRefines(s: State, s': State, i: nat, ev: Event)
    requires Inv(s) && i < |s.threads| && LoadStep(s, s', i, ev) && s.threads[i].Read?
    ensures Inv(s') && FifoNext(Abs(s), Abs(s'), ev)
  {
    hide Mutex, Ring.Get, Ring.Set;
    InsideHolds(s, i);
    OthersKeep(s, s', i);
  }

  lemma CheckRefines(s: State, s': State, i: nat, ev: Event)
    requires Inv(s) && i < |s.threads| && LoadStep(s, s', i, ev) && s.threads[i].Check?
    ensures Inv(s') && FifoNext(Abs(s), Abs(s'), ev)
  {
    hide Mutex, Ring.Get, Ring.Set;
    InsideHolds(s, i);
    OthersKeep(s, s', i);
  }

  lemma GrowRefines(s: State, s': State, i: nat, ev: Event)
    requires Inv(s) && i < |s.threads| && GrowStep(s, s', i, ev)
    ensures Inv(s') && FifoNext(Abs(s), Abs(s'), ev)
  {
    assert ThreadInv(s.slot, i, s.threads[i]);
    OthersKeep(s, s', i);
    if s.threads[i].Free? {
      SameWindow(RingOf(s), s.threads[i].grown, s.head, s.tail);
    }
  }

  lemma SetSlotRefines(s: State, s': State, i: nat, ev: Event)
    requires Inv(s) && i < |s.threads| && StoreStep(s, s', i, ev) && s.threads[i].SetSlot?
    ensures Inv(s') && FifoNext(Abs(s), Abs(s'), ev)
  {
    assert ThreadInv(s.slot, i, s.threads[i]);
    OthersKeep(s, s', i);
    var t, x := s.threads[i].tail, s.threads[i].op.elt;
    SetGet(RingOf(s), t, x);
    SameWindow(RingOf(s), RingOf(s).Set(t, x), s.head, s.tail);
  }

  lemma StoreTailRefines(s: State, s': State, i: nat, ev: Event)
    requires Inv(s) && i < |s.threads| && StoreStep(s, s', i, ev) && s.threads[i].StoreTail?
    ensures Inv(s') && FifoNext(Abs(s), Abs(s'), ev)
  {
    hide Mutex, Ring.Get, Ring.Set;
    InsideHolds(s, i);
    OthersKeep(s, s', i);
    WindowEnds(RingOf(s), s.head, s.tail + 1);
  }

  lemma StoreHeadRefines(s: State, s': State, i: nat, ev: Event)
    requires Inv(s) && i < |s.threads| && StoreStep(s, s', i, ev) && s.threads[i].StoreHead?
    ensures Inv(s') && FifoNext(Abs(s), Abs(s'), ev)
  {
    hide Mutex, Ring.Get, Ring.Set;
    InsideHolds(s, i);
    OthersKeep(s, s', i);
    WindowEnds(RingOf(s), s.head, s.tail);
  }

  lemma StepRefines(s: State, s': State, ev: Event)
    requires Inv(s) && Next(s, s', ev)
    ensures Inv(s') && FifoNext(Abs(s), Abs(s'), ev)
  {
    var i :| 0 <= i < |s.threads| && StepOf(s, s', i, ev);
    var pc := s.threads[i];
    if CallStep(s, s', i, ev) {
      CallRefines(s, s', i, ev);
    } else if SlotStep(s, s', i, ev) {
      if pc.PrioLoad? || pc.PrioStore? {
        PriorityRefines(s, s', i, ev);
      } else if pc.Return? {
        ReturnRefines(s, s', i, ev);
      } else {
        SlotRefines(s, s', i, ev);
      }
    } else if LockStep(s, s', i, ev) {
      LockRefines(s, s', i, ev);
    } else if LoadStep(s, s', i, ev) {
      if pc.Check? {
        CheckRefines(s, s', i, ev);
      } else if pc.Read? {
        ReadRefines(s, s', i, ev);
      } else {
        LoadRefines(s, s', i, ev);
      }
    } else if GrowStep(s, s', i, ev) {
      GrowRefines(s, s', i, ev);
    } else if pc.SetSlot? {
      SetSlotRefines(s, s', i, ev);
    } else if pc.StoreTail? {
      StoreTailRefines(s, s', i, ev);
    } else {
      StoreHeadRefines(s, s', i, ev);
    }
  }

  // ---------------------------------------------------------------- whole runs

  ghost predicate IsRun(ss: seq<State>, evs: seq<Event>) {
    && |ss| == |evs| + 1
    && Init(ss[0])
    && forall k :: 0 <= k < |evs| ==> Next(ss[k], ss[k + 1], evs[k])
  }

  lemma InitRefines(s: State)
    requires Init(s)
    ensures Inv(s) && Abs(s) == NewFifo(|s.threads|)
  {
    assert Hands(s.threads) == seq(|s.threads|, _ => Vacant);
  }

  /** Every interleaving is, event by event, a run of the sequential FIFO with a
      priority slot; `fs` is that run. */
  lemma {:induction false} RunRefines(ss: seq<State>, evs: seq<Event>) returns (fs: seq<Fifo>)
    requires IsRun(ss, evs)
    ensures |fs| == |ss| && IsFifoRun(fs, evs)
    ensures forall k :: 0 <= k < |ss| ==> Inv(ss[k]) && fs[k] == Abs(ss[k])
  {
    hide Inv, Next, Init, FifoNext, Abs;
    InitRefines(ss[0]);
    fs := [Abs(ss[0])];
    for n := 0 to |evs|
      invariant |fs| == n + 1 && fs[0] == NewFifo(|fs[0].hands|)
      invariant forall k :: 0 <= k <= n ==> Inv(ss[k]) && fs[k] == Abs(ss[k])
      invariant forall k :: 0 <= k < n ==> FifoNext(fs[k], fs[k + 1], evs[k])
    {
      StepRefines(ss[n], ss[n + 1], evs[n]);
      fs := fs + [Abs(ss[n + 1])];
    }
  }

  /** No element is lost, duplicated or returned twice, at any point of any run. */
  lemma RunConserves(ss: seq<State>, evs: seq<Event>, n: nat, x: Task)
    requires IsRun(ss, evs) && n <= |evs|
    ensures Inv(ss[n])
    ensures PushedUpTo(evs, n, x) == ReturnedUpTo(evs, n, x) + Held(Abs(ss[n]), x)
  {
    var fs := RunRefines(ss, evs);
    Conservation(fs, evs, n, x);
  }

  /** At most one thread is between ACQUIRE_LOCK and RELEASE_LOCK. */
  lemma MutualExclusion(ss: seq<State>, evs: seq<Event>, n: nat, i: nat, j: nat)
    requires IsRun(ss, evs) && n <= |evs|
    requires i < |ss[n].threads| && j < |ss[n].threads|
    requires ss[n].threads[i].InCriticalSection() && ss[n].threads[j].InCriticalSection()
    ensures i == j
  {
    var fs := RunRefines(ss, evs);
  }

  /** No thread is ever about to read, write or free an array that was freed. */
  lemma NoUseAfterFree(ss: seq<State>, evs: seq<Event>, n: nat, i: nat, a: nat)
    requires IsRun(ss, evs) && n <= |evs|
    requires i < |ss[n].threads| && a in Touches(ss[n], i)
    ensures IsLive(ss[n], a)
  {
    var fs := RunRefines(ss, evs);
    assert Inv(ss[n]);
  }

  /** The array is grown only when it is full. */
  lemma GrowsOnlyIfFull(ss: seq<State>, evs: seq<Event>, n: nat, i: nat)
    requires IsRun(ss, evs) && n <= |evs|
    requires i < |ss[n].threads| && ss[n].threads[i].Grow?
    ensures IsLive(ss[n], ss[n].current)
    ensures ss[n].tail - ss[n].head == ss[n].blocks[ss[n].current].ring.Size()
  {
    var fs := RunRefines(ss, evs);
    assert Inv(ss[n]);
  }
}
