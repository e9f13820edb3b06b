// The sequential queue that `tl_queue` and `tk_queue` stand for: a FIFO open to
// every thread and a priority slot only its owner (thread 0) uses.

module FifoSpec {
  import opened Options
  import opened TaskHands

  /** `carry` is the element the owner displaced from the slot and is about to push. */
  datatype Fifo = Fifo(slot: Option<Task>, carry: Option<Task>, items: seq<Task>, hands: seq<Hand>)

  datatype Event =
    | Silent
    | Push(elt: Task)
    | PrioritySwap(elt: Task)
    | PushCarried(elt: Task)
    | Called(who: nat, pop: bool)
    | TakeSlot(elt: Task)
    | Take(who: nat, elt: Task)
    | SawEmpty(who: nat)
    | Returned(who: nat, res: Option<Task>)

  function NewFifo(threads: nat): Fifo {
    Fifo(None, None, [], seq(threads, _ => Vacant))
  }

  /** The owner is not in the middle of a pop: it does one thing at a time. */
  predicate OwnerFree(f: Fifo) {
    0 < |f.hands| && f.hands[0] == Vacant
  }

  /** Thread i may take from the front: a pop does so only if the slot is empty. */
  predicate MayTake(f: Fifo, i: nat) {
    i < |f.hands| && f.hands[i].Seeking? && (f.hands[i].pop ==> f.slot == None)
  }

  ghost predicate FifoNext(f: Fifo, f': Fifo, ev: Event) {
    match ev
    case Silent => f' == f
    case Push(x) => OwnerFree(f) && f.carry == None && f' == f.(items := f.items + [x])
    case PrioritySwap(x) => OwnerFree(f) && f.carry == None && f' == f.(slot := Some(x), carry := f.slot)
    case PushCarried(x) => OwnerFree(f) && f.carry == Some(x) && f' == f.(carry := None, items := f.items + [x])
    case Called(i, pop) =>
      && i < |f.hands| && f.hands[i] == Vacant && (pop ==> i == 0 && f.carry == None)
      && f' == f.(hands := f.hands[i := Seeking(pop)])
    case TakeSlot(x) =>
      && f.slot == Some(x) && 0 < |f.hands| && f.hands[0] == Seeking(true)
      && f' == f.(slot := None, hands := f.hands[0 := Holds(x)])
    case Take(i, x) =>
      && MayTake(f, i) && f.items == [x] + f'.items
      && f' == f.(items := f'.items, hands := f.hands[i := Holds(x)])
    case SawEmpty(i) =>
      MayTake(f, i) && f.items == [] && f' == f.(hands := f.hands[i := Nothing])
    case Returned(i, res) =>
      && i < |f.hands| && (f.hands[i].Holds? || f.hands[i].Nothing?) && res == Result(f.hands[i])
      && f' == f.(hands := f.hands[i := Vacant])
  }

  /** Occurrences of x handed to the queue and not yet returned to a caller. */
  function Held(f: Fifo, x: Task): nat {
    InHand(f.slot, x) + InHand(f.carry, x) + multiset(f.items)[x] + InHands(f.hands, x)
  }

  function PushedBy(ev: Event, x: Task): nat {
    if ev == Push(x) || ev == PrioritySwap(x) then 1 else 0
  }

  function ReturnedBy(ev: Event, x: Task): nat {
    if ev.Returned? then InHand(ev.res, x) else 0
  }

  function PushedUpTo(evs: seq<Event>, n: nat, x: Task): nat
    requires n <= |evs|
  {
    if n == 0 then 0 else PushedUpTo(evs, n - 1, x) + PushedBy(evs[n - 1], x)
  }

  function ReturnedUpTo(evs: seq<Event>, n: nat, x: Task): nat
    requires n <= |evs|
  {
    if n == 0 then 0 else ReturnedUpTo(evs, n - 1, x) + ReturnedBy(evs[n - 1], x)
  }

  /** Elements that enter the queue or move inside it. */
  lemma PushConserves(f: Fifo, f': Fifo, ev: Event, x: Task)
    requires FifoNext(f, f', ev) && (ev.Silent? || ev.Push? || ev.PrioritySwap? || ev.PushCarried?)
    ensures Held(f', x) == Held(f, x) + PushedBy(ev, x)
  {
    hide InHands;
  }

  /** The front element moves into a hand. */
  lemma TakeConserves(f: Fifo, f': Fifo, ev: Event, x: Task)
    requires FifoNext(f, f', ev) && ev.Take?
    ensures Held(f', x) == Held(f, x)
  {
    hide InHands;
    assert multiset([ev.elt] + f'.items)[x] == multiset(f'.items)[x] + if ev.elt == x then 1 else 0;
    InHandsUpdate(f.hands, ev.who, f'.hands[ev.who], x);
  }

  /** Calls, answers, and the slot's element moving into the owner's hand. */
  lemma HandConserves(f: Fifo, f': Fifo, ev: Event, x: Task)
    requires FifoNext(f, f', ev) && (ev.Called? || ev.TakeSlot? || ev.SawEmpty? || ev.Returned?)
    ensures Held(f', x) + ReturnedBy(ev, x) == Held(f, x)
  {
    hide InHands;
    var who := if ev.TakeSlot? then 0 else ev.who;
    InHandsUpdate(f.hands, who, f'.hands[who], x);
  }

  lemma StepConserves(f: Fifo, f': Fifo, ev: Event, x: Task)
    requires FifoNext(f, f', ev)
    ensures Held(f', x) + ReturnedBy(ev, x) == Held(f, x) + PushedBy(ev, x)
  {
    hide FifoNext, Held;
    if ev.Take? {
      TakeConserves(f, f', ev, x);
    } else if ev.Called? || ev.TakeSlot? || ev.SawEmpty? || ev.Returned? {
      HandConserves(f, f', ev, x);
    } else {
      PushConserves(f, f', ev, x);
    }
  }

  ghost predicate IsFifoRun(fs: seq<Fifo>, evs: seq<Event>) {
    && |fs| == |evs| + 1
    && fs[0] == NewFifo(|fs[0].hands|)
    && forall k :: 0 <= k < |evs| ==> FifoNext(fs[k], fs[k + 1], evs[k])
  }

  /** Along every run, what was pushed is what was returned plus what is held. */
  lemma {:induction false} Conservation(fs: seq<Fifo>, evs: seq<Event>, n: nat, x: Task)
    requires IsFifoRun(fs, evs) && n <= |evs|
    ensures PushedUpTo(evs, n, x) == ReturnedUpTo(evs, n, x) + Held(fs[n], x)
  {
    if n == 0 {
      NoHands(fs[0].hands, x);
    } else {
      Conservation(fs, evs, n - 1, x);
      assert FifoNext(fs[n - 1], fs[n - 1 + 1], evs[n - 1]);
      StepConserves(fs[n - 1], fs[n], evs[n - 1], x);
    }
  }

  /** What a pop has come to that found x in the slot when it was called. */
  predicate PopsSlot(f: Fifo, x: Task) {
    0 < |f.hands| && ((f.hands[0] == Seeking(true) && f.slot == Some(x)) || f.hands[0] == Holds(x))
  }

  lemma PopKeepsSlot(f: Fifo, f': Fifo, ev: Event, x: Task)
    requires PopsSlot(f, x) && FifoNext(f, f', ev) && !(ev.Returned? && ev.who == 0)
    ensures PopsSlot(f', x)
  {
  }

  /** A pop that is called while the slot is full returns the slot's element, whatever the
      other threads do meanwhile. */
  lemma {:induction false} PopPrefersSlot(fs: seq<Fifo>, evs: seq<Event>, n: nat, m: nat)
    requires IsFifoRun(fs, evs) && n < m < |evs| && evs[n] == Called(0, true)
    requires evs[m].Returned? && evs[m].who == 0
    requires forall k :: n < k < m ==> !(evs[k].Returned? && evs[k].who == 0)
    ensures fs[n].slot.Some? ==> evs[m].res == fs[n].slot
  {
    assert FifoNext(fs[n], fs[n + 1], evs[n]);
    if fs[n].slot.Some? {
      var x := fs[n].slot.value;
      for k := n + 1 to m
        invariant PopsSlot(fs[k], x)
      {
        PopKeepsSlot(fs[k], fs[k + 1], evs[k], x);
      }
      assert FifoNext(fs[m], fs[m + 1], evs[m]);
    }
  }
}
