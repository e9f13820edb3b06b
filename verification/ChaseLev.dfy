// The growable Chase-Lev deque of utils/cl_queue.c as a transition system.
//
// One owner pushes and pops at the bottom, any number of thieves steal at the
// top.  Each atomic load, store and compare-and-swap is one step, interleaved
// sequentially consistently.  Replaced arrays are never freed, so a thief may
// still read one.

module ChaseLev {
  import opened Options
  import opened Rings
  import opened TaskHands

  datatype Owner =
    | Idle
    // cl_queue_push(elt)
    | PushLoadBottom(elt: Task)
    | PushLoadTop(elt: Task, bottom: int)
    | PushLoadArray(elt: Task, bottom: int, top: int)
    | PushGrow(elt: Task, bottom: int, top: int)
    | PushPublish(elt: Task, bottom: int, top: int, grown: Ring<Task>)
    | PushSet(elt: Task, bottom: int)
    | PushStoreBottom(elt: Task, bottom: int)
    // cl_queue_pop(): `bottom` is the local already decremented
    | PopLoadBottom
    | PopLoadArray(bottom: int)
    | PopStoreBottom(bottom: int, arr: nat)
    | PopLoadTop(bottom: int, arr: nat)
    | PopTake(bottom: int, arr: nat)
    | PopReadLast(bottom: int, arr: nat)
    | PopCas(bottom: int, elt: Task)
    | PopRestore(bottom: int, res: Option<Task>)
    | PopReturn(res: Option<Task>)
  {
    /** The owner has lowered `bottom` but has not yet claimed the element there. */
    predicate Undecided() {
      PopLoadTop? || PopTake? || PopReadLast? || PopCas? || PopRestore?
    }

    /** The owner may still have to race thieves for the element at `bottom`. */
    predicate Racing() {
      PopLoadTop? || PopReadLast? || PopCas?
    }

    /** It has not yet settled whether and what it pops. */
    predicate Deciding() {
      Undecided() && !PopRestore?
    }

    /** What its call to cl_queue_pop has come to. */
    function Answer(): Hand {
      if PopRestore? || PopReturn? then (if res.Some? then Holds(res.value) else Nothing) else Vacant
    }
  }

  /** What a call to `cl_queue_steal` returns. */
  datatype Outcome = Empty | Abort | Got(elt: Task)

  datatype Thief =
    | Out
    | StealLoadBottom(top: int)
    | StealLoadArray(top: int)
    | StealRead(top: int, arr: nat)
    | StealCas(top: int, elt: Task)
    | StealReturn(res: Outcome)
  {
    function Answer(): Hand {
      match this
      case Out => Vacant
      case StealLoadBottom(t) => Looking(t)
      case StealLoadArray(t) => Looking(t)
      case StealRead(t, _) => Looking(t)
      case StealCas(t, _) => Looking(t)
      case StealReturn(Empty) => Nothing
      case StealReturn(Abort) => Beaten
      case StealReturn(Got(x)) => Holds(x)
    }
  }

  /** `arrays` holds every array ever published; the last one is `self->array`. */
  datatype State = State(top: int, bottom: int, arrays: seq<Ring<Task>>, owner: Owner, thieves: seq<Thief>) {
    function Cur(): nat
      requires |arrays| > 0
    {
      |arrays| - 1
    }
  }

  datatype Event =
    | Silent
    | Push(elt: Task)
    | PopStarted
    | Pop(elt: Task)
    | PopEmpty
    | PopReturned(res: Option<Task>)
    | Looked(thief: nat)
    | SawEmpty(thief: nat)
    | LostRace(thief: nat)
    | Steal(thief: nat, elt: Task)
    | StealReturned(thief: nat, outcome: Outcome)

  // ---------------------------------------------------------------- the steps

  ghost predicate Init(s: State) {
    && s.top == 0 && s.bottom == 0
    && |s.arrays| == 1 && s.arrays[0].Valid()
    && s.owner == Idle
    && forall i :: 0 <= i < |s.thieves| ==> s.thieves[i] == Out
  }

  ghost predicate PushStep(s: State, s': State, ev: Event)
    requires |s.arrays| > 0 && s.arrays[s.Cur()].Valid()
  {
    var arr := s.arrays[s.Cur()];
    match s.owner
    case PushLoadBottom(x) =>
      ev == Silent && s' == s.(owner := PushLoadTop(x, s.bottom))
    case PushLoadTop(x, b) =>
      ev == Silent && s' == s.(owner := PushLoadArray(x, b, s.top))
    case PushLoadArray(x, b, t) =>
      ev == Silent && s' == s.(owner := if b - t > arr.Size() - 1 then PushGrow(x, b, t) else PushSet(x, b))
    case PushGrow(x, b, t) =>
      && ev == Silent
      && s'.owner.PushPublish? && IsResizeOf(s'.owner.grown, arr, b, t)
      && s' == s.(owner := PushPublish(x, b, t, s'.owner.grown))
    case PushPublish(x, b, t, grown) =>
      ev == Silent && s' == s.(arrays := s.arrays + [grown], owner := PushSet(x, b))
    case PushSet(x, b) =>
      ev == Silent && s' == s.(arrays := s.arrays[s.Cur() := arr.Set(b, x)], owner := PushStoreBottom(x, b))
    case PushStoreBottom(x, b) =>
      ev == Push(x) && s' == s.(bottom := b + 1, owner := Idle)
    case _ => false
  }

  ghost predicate PopStep(s: State, s': State, ev: Event)
    requires |s.arrays| > 0
  {
    match s.owner
    case PopLoadBottom =>
      ev == Silent && s' == s.(owner := PopLoadArray(s.bottom - 1))
    case PopLoadArray(b) =>
      ev == Silent && s' == s.(owner := PopStoreBottom(b, s.Cur()))
    case PopStoreBottom(b, a) =>
      ev == PopStarted && s' == s.(bottom := b, owner := PopLoadTop(b, a))
    case PopLoadTop(b, a) =>
      if s.top < b then ev == Silent && s' == s.(owner := PopTake(b, a))
      else if s.top == b then ev == Silent && s' == s.(owner := PopReadLast(b, a))
      else ev == PopEmpty && s' == s.(owner := PopRestore(b, None))
    case PopTake(b, a) =>
      && a < |s.arrays| && s.arrays[a].Valid()
      && var x := s.arrays[a].Get(b);
         ev == Pop(x) && s' == s.(owner := PopReturn(Some(x)))
    case PopReadLast(b, a) =>
      && a < |s.arrays| && s.arrays[a].Valid()
      && ev == Silent && s' == s.(owner := PopCas(b, s.arrays[a].Get(b)))
    case PopCas(b, x) =>
      if s.top == b then ev == Pop(x) && s' == s.(top := b + 1, owner := PopRestore(b, Some(x)))
      else ev == PopEmpty && s' == s.(owner := PopRestore(b, None))
    case PopRestore(b, res) =>
      ev == Silent && s' == s.(bottom := b + 1, owner := PopReturn(res))
    case PopReturn(res) =>
      ev == PopReturned(res) && s' == s.(owner := Idle)
    case _ => false
  }

  /** The owner starts a call. */
  ghost predicate CallStep(s: State, s': State, ev: Event) {
    && s.owner == Idle && ev == Silent
    && (s'.owner.PushLoadBottom? || s'.owner.PopLoadBottom?)
    && s' == s.(owner := s'.owner)
  }

  ghost predicate StealStep(s: State, s': State, i: nat, ev: Event)
    requires |s.arrays| > 0 && i < |s.thieves|
  {
    match s.thieves[i]
    case Out =>
      ev == Looked(i) && s' == s.(thieves := s.thieves[i := StealLoadBottom(s.top)])
    case StealLoadBottom(t) =>
      && ev == (if t < s.bottom then Silent else SawEmpty(i))
      && s' == s.(thieves := s.thieves[i := if t < s.bottom then StealLoadArray(t) else StealReturn(Empty)])
    case StealLoadArray(t) =>
      ev == Silent && s' == s.(thieves := s.thieves[i := StealRead(t, s.Cur())])
    case StealRead(t, a) =>
      && a < |s.arrays| && s.arrays[a].Valid()
      && ev == Silent && s' == s.(thieves := s.thieves[i := StealCas(t, s.arrays[a].Get(t))])
    case StealCas(t, x) =>
      if s.top == t then
        ev == Steal(i, x) && s' == s.(top := t + 1, thieves := s.thieves[i := StealReturn(Got(x))])
      else
        ev == LostRace(i) && s' == s.(thieves := s.thieves[i := StealReturn(Abort)])
    case StealReturn(res) =>
      ev == StealReturned(i, res) && s' == s.(thieves := s.thieves[i := Out])
  }

  ghost predicate Next(s: State, s': State, ev: Event) {
    && |s.arrays| > 0 && s.arrays[s.Cur()].Valid()
    && (|| CallStep(s, s', ev)
        || PushStep(s, s', ev)
        || PopStep(s, s', ev)
        || exists i :: 0 <= i < |s.thieves| && StealStep(s, s', i, ev))
  }

  // ------------------------------------------------------------ the invariant

  /** One past the last element that is still in the deque. */
  function End(s: State): int {
    s.bottom + if s.owner.Undecided() then 1 else 0
  }

  ghost predicate OwnerInv(s: State)
    requires |s.arrays| > 0 && s.arrays[s.Cur()].Valid()
  {
    var arr := s.arrays[s.Cur()];
    var room := s.bottom - s.top < arr.Size();
    match s.owner
    case PushLoadTop(_, b) => b == s.bottom
    case PushLoadArray(_, b, t) => b == s.bottom && t <= s.top && b - t <= arr.Size()
    case PushGrow(_, b, t) => b == s.bottom && t <= s.top && b - t == arr.Size()
    case PushPublish(_, b, t, grown) =>
      b == s.bottom && t <= s.top && b - t == arr.Size() && IsResizeOf(grown, arr, b, t)
    case PushSet(_, b) => b == s.bottom && room
    case PushStoreBottom(x, b) => b == s.bottom && room && arr.Get(b) == x
    case PopLoadArray(b) => b == s.bottom - 1
    case PopStoreBottom(b, a) => b == s.bottom - 1 && a == s.Cur()
    case PopLoadTop(b, a) => b == s.bottom && a == s.Cur()
    case PopTake(b, a) => b == s.bottom && a == s.Cur() && s.top <= b
    case PopReadLast(b, a) => b == s.bottom && a == s.Cur() && b <= s.top
    case PopCas(b, x) => b == s.bottom && b <= s.top && (s.top == b ==> x == arr.Get(b))
    case PopRestore(b, _) => b == s.bottom && s.top == b + 1
    case _ => true
  }

  /** A thief that saw `top < bottom` can only win its compare-and-swap on a counter
      that is still in the deque. */
  predicate Claimable(s: State, t: int) {
    t <= s.top && (t == s.top ==> t < s.bottom || (t == s.bottom && s.owner.Racing()))
  }

  ghost predicate ThiefInv(s: State, thief: Thief)
    requires |s.arrays| > 0 && s.arrays[s.Cur()].Valid()
  {
    var arr := s.arrays[s.Cur()];
    match thief
    case StealLoadBottom(t) => t <= s.top
    case StealLoadArray(t) => Claimable(s, t)
    case StealRead(t, a) =>
      && Claimable(s, t)
      && a < |s.arrays| && s.arrays[a].Valid()
      && (t == s.top ==> s.arrays[a].Get(t) == arr.Get(t))
    case StealCas(t, x) => Claimable(s, t) && (t == s.top ==> x == arr.Get(t))
    case _ => true
  }

  ghost predicate Inv(s: State) {
    && |s.arrays| > 0 && s.arrays[s.Cur()].Valid()
    && s.top <= End(s) && End(s) - s.top <= s.arrays[s.Cur()].Size()
    && OwnerInv(s)
    && forall i :: 0 <= i < |s.thieves| ==> ThiefInv(s, s.thieves[i])
  }

  // ------------------------------------------------------- the abstract deque

  /** A sequence, plus what each thread's call has come to.  `front` counts the elements
      that went from the left end; `popping` says that the owner is after the right end. */
  datatype Deque = Deque(items: seq<Task>, front: int, popping: bool, owner: Hand, thieves: seq<Hand>)

  function NewDeque(thieves: nat): Deque {
    Deque([], 0, false, Vacant, seq(thieves, _ => Vacant))
  }

  ghost predicate OwnerNext(d: Deque, d': Deque, ev: Event) {
    match ev
    case Silent => d' == d
    case Push(x) => d' == d.(items := d.items + [x])
    case PopStarted => d.owner == Vacant && d' == d.(popping := true)
    case Pop(x) =>
      // the last element may also be taken from the left end
      && d.popping && d.owner == Vacant && d.items == d'.items + [x]
      && (d'.front == d.front || (d'.items == [] && d'.front == d.front + 1))
      && d' == d.(items := d'.items, front := d'.front, popping := false, owner := Holds(x))
    case PopEmpty =>
      d.popping && d.owner == Vacant && d.items == [] && d' == d.(popping := false, owner := Nothing)
    case PopReturned(res) =>
      (d.owner.Holds? || d.owner.Nothing?) && res == Result(d.owner) && d' == d.(owner := Vacant)
    case _ => false
  }

  function OutcomeOf(h: Hand): Outcome {
    if h.Holds? then Got(h.elt) else if h.Beaten? then Abort else Empty
  }

  /** A thief gets the front it looked at, finds nothing there, or finds that the front has
      moved on, and answers accordingly. */
  ghost predicate ThiefNext(d: Deque, d': Deque, i: nat, ev: Event)
    requires i < |d.thieves|
  {
    var h := d.thieves[i];
    match ev
    case Looked(_) => h == Vacant && d' == d.(thieves := d.thieves[i := Looking(d.front)])
    case SawEmpty(_) =>
      && h.Looking? && (d.items == [] || (|d.items| == 1 && d.popping))
      && d' == d.(thieves := d.thieves[i := Nothing])
    case LostRace(_) => h.Looking? && h.front < d.front && d' == d.(thieves := d.thieves[i := Beaten])
    case Steal(_, x) =>
      && h == Looking(d.front) && d.items == [x] + d'.items
      && d' == d.(items := d'.items, front := d.front + 1, thieves := d.thieves[i := Holds(x)])
    case StealReturned(_, res) =>
      && (h.Holds? || h.Nothing? || h.Beaten?) && res == OutcomeOf(h)
      && d' == d.(thieves := d.thieves[i := Vacant])
    case _ => false
  }

  predicate ByThief(ev: Event) {
    ev.Looked? || ev.SawEmpty? || ev.LostRace? || ev.Steal? || ev.StealReturned?
  }

  ghost predicate DequeNext(d: Deque, d': Deque, ev: Event) {
    if ByThief(ev) then ev.thief < |d.thieves| && ThiefNext(d, d', ev.thief, ev) else OwnerNext(d, d', ev)
  }

  ghost function Hands(thieves: seq<Thief>): seq<Hand> {
    seq(|thieves|, i requires 0 <= i < |thieves| => thieves[i].Answer())
  }

  ghost function Abs(s: State): Deque
    requires Inv(s)
  {
    Deque(s.arrays[s.Cur()].Window(s.top, End(s)), s.top, s.owner.Deciding(), s.owner.Answer(), Hands(s.thieves))
  }

  // ------------------------------------------------------------- preservation

  lemma CallRefines(s: State, s': State, ev: Event)
    requires Inv(s) && CallStep(s, s', ev)
    ensures Inv(s') && DequeNext(Abs(s), Abs(s'), ev)
  {
  }

  /** Steps that touch neither `top` nor the arrays keep what the thieves know. */
  lemma ThievesKeep(s: State, s': State)
    requires Inv(s)
    requires s'.top == s.top && s'.arrays == s.arrays && s'.thieves == s.thieves
    requires s.top < s'.bottom || (s.top == s'.bottom && s'.owner.Racing())
             || !(s.top < s.bottom || (s.top == s.bottom && s.owner.Racing()))
    ensures forall i :: 0 <= i < |s'.thieves| ==> ThiefInv(s', s'.thieves[i])
  {
    forall i | 0 <= i < |s'.thieves|
      ensures ThiefInv(s', s'.thieves[i])
    {
      assert ThiefInv(s, s.thieves[i]);
    }
  }

  lemma PushLoadRefines(s: State, s': State, ev: Event)
    requires Inv(s) && PushStep(s, s', ev)
    requires s.owner.PushLoadBottom? || s.owner.PushLoadTop? || s.owner.PushLoadArray? || s.owner.PushGrow?
    ensures Inv(s') && DequeNext(Abs(s), Abs(s'), ev)
  {
    ThievesKeep(s, s');
  }

  lemma PublishRefines(s: State, s': State, ev: Event)
    requires Inv(s) && PushStep(s, s', ev) && s.owner.PushPublish?
    ensures Inv(s') && DequeNext(Abs(s), Abs(s'), ev)
  {
    var arr, grown, b := s.arrays[s.Cur()], s.owner.grown, s.owner.bottom;
    SameWindow(arr, grown, s.top, b);
    forall i | 0 <= i < |s'.thieves|
      ensures ThiefInv(s', s'.thieves[i])
    {
      assert ThiefInv(s, s.thieves[i]);
    }
  }

  lemma SetRefines(s: State, s': State, ev: Event)
    requires Inv(s) && PushStep(s, s', ev) && s.owner.PushSet?
    ensures Inv(s') && DequeNext(Abs(s), Abs(s'), ev)
  {
    var arr, x, b := s.arrays[s.Cur()], s.owner.elt, s.owner.bottom;
    SetGet(arr, b, x);
    SameWindow(arr, arr.Set(b, x), s.top, b);
    forall i | 0 <= i < |s'.thieves|
      ensures ThiefInv(s', s'.thieves[i])
    {
      assert ThiefInv(s, s.thieves[i]);
    }
  }

  lemma StoreBottomRefines(s: State, s': State, ev: Event)
    requires Inv(s) && PushStep(s, s', ev) && s.owner.PushStoreBottom?
    ensures Inv(s') && DequeNext(Abs(s), Abs(s'), ev)
  {
    ThievesKeep(s, s');
    WindowEnds(s.arrays[s.Cur()], s.top, s.bottom + 1);
  }

  lemma PushRefines(s: State, s': State, ev: Event)
    requires Inv(s) && PushStep(s, s', ev)
    ensures Inv(s') && DequeNext(Abs(s), Abs(s'), ev)
  {
    match s.owner {
      case PushPublish(_, _, _, _) => PublishRefines(s, s', ev);
      case PushSet(_, _) => SetRefines(s, s', ev);
      case PushStoreBottom(_, _) => StoreBottomRefines(s, s', ev);
      case _ => PushLoadRefines(s, s', ev);
    }
  }

  lemma PopLoadRefines(s: State, s': State, ev: Event)
    requires Inv(s) && PopStep(s, s', ev)
    requires s.owner.PopLoadBottom? || s.owner.PopLoadArray? || s.owner.PopStoreBottom?
    ensures Inv(s') && DequeNext(Abs(s), Abs(s'), ev)
  {
    ThievesKeep(s, s');
  }

  lemma PopDecideRefines(s: State, s': State, ev: Event)
    requires Inv(s) && PopStep(s, s', ev) && (s.owner.PopLoadTop? || s.owner.PopReadLast?)
    ensures Inv(s') && DequeNext(Abs(s), Abs(s'), ev)
  {
    ThievesKeep(s, s');
    hide ThiefInv;
  }

  lemma PopLeaveRefines(s: State, s': State, ev: Event)
    requires Inv(s) && PopStep(s, s', ev) && (s.owner.PopRestore? || s.owner.PopReturn?)
    ensures Inv(s') && DequeNext(Abs(s), Abs(s'), ev)
  {
    ThievesKeep(s, s');
    hide ThiefInv;
  }

  lemma PopTakeRefines(s: State, s': State, ev: Event)
    requires Inv(s) && PopStep(s, s', ev) && s.owner.PopTake?
    ensures Inv(s') && DequeNext(Abs(s), Abs(s'), ev)
  {
    ThievesKeep(s, s');
    WindowEnds(s.arrays[s.Cur()], s.top, s.bottom + 1);
  }

  lemma PopCasRefines(s: State, s': State, ev: Event)
    requires Inv(s) && PopStep(s, s', ev) && s.owner.PopCas?
    ensures Inv(s') && DequeNext(Abs(s), Abs(s'), ev)
  {
    if s.top == s.owner.bottom {
      WindowEnds(s.arrays[s.Cur()], s.top, s.top + 1);
    }
    forall i | 0 <= i < |s'.thieves|
      ensures ThiefInv(s', s'.thieves[i])
    {
      assert ThiefInv(s, s.thieves[i]);
    }
  }

  lemma PopRefines(s: State, s': State, ev: Event)
    requires Inv(s) && PopStep(s, s', ev)
    ensures Inv(s') && DequeNext(Abs(s), Abs(s'), ev)
  {
    match s.owner {
      case PopTake(_, _) => PopTakeRefines(s, s', ev);
      case PopCas(_, _) => PopCasRefines(s, s', ev);
      case PopLoadBottom | PopLoadArray(_) | PopStoreBottom(_, _) => PopLoadRefines(s, s', ev);
      case PopRestore(_, _) | PopReturn(_) => PopLeaveRefines(s, s', ev);
      case _ => PopDecideRefines(s, s', ev);
    }
  }

  /** A thief's step leaves every other thief's knowledge intact: `top` only grows. */
  lemma OtherThiefKeeps(s: State, s': State, other: Thief)
    requires Inv(s) && ThiefInv(s, other)
    requires s'.arrays == s.arrays && s'.bottom == s.bottom && s'.owner == s.owner && s.top <= s'.top
    ensures ThiefInv(s', other)
  {
  }

  lemma StealCasInv(s: State, s': State, i: nat, ev: Event)
    requires Inv(s) && i < |s.thieves| && StealStep(s, s', i, ev) && s.thieves[i].StealCas?
    ensures Inv(s')
  {
    assert ThiefInv(s, s.thieves[i]);
    forall j | 0 <= j < |s'.thieves|
      ensures ThiefInv(s', s'.thieves[j])
    {
      OtherThiefKeeps(s, s', s.thieves[j]);
    }
  }

  lemma OwnThiefKeeps(s: State, s': State, i: nat, ev: Event)
    requires |s.arrays| > 0 && s.arrays[s.Cur()].Valid() && i < |s.thieves|
    requires ThiefInv(s, s.thieves[i]) && StealStep(s, s', i, ev) && !s.thieves[i].StealCas?
    ensures s' == s.(thieves := s.thieves[i := s'.thieves[i]]) && ThiefInv(s', s'.thieves[i])
  {
    hide Ring.Get, Ring.Valid;
  }

  lemma StealInv(s: State, s': State, i: nat, ev: Event)
    requires Inv(s) && i < |s.thieves| && StealStep(s, s', i, ev) && !s.thieves[i].StealCas?
    ensures Inv(s')
  {
    hide ThiefInv, StealStep, Ring.Get, Ring.Valid;
    OwnThiefKeeps(s, s', i, ev);
    forall j | 0 <= j < |s'.thieves| && j != i
      ensures ThiefInv(s', s'.thieves[j])
    {
      OtherThiefKeeps(s, s', s.thieves[j]);
    }
  }

  lemma HandsUpdate(thieves: seq<Thief>, i: nat, thief: Thief)
    requires i < |thieves|
    ensures Hands(thieves[i := thief]) == Hands(thieves)[i := thief.Answer()]
    ensures thief.Answer() == thieves[i].Answer() ==> Hands(thieves[i := thief]) == Hands(thieves)
  {
  }

  lemma StealCasRefines(s: State, s': State, i: nat, ev: Event)
    requires Inv(s) && i < |s.thieves| && StealStep(s, s', i, ev) && s.thieves[i].StealCas?
    ensures Inv(s') && DequeNext(Abs(s), Abs(s'), ev)
  {
    StealCasInv(s, s', i, ev);
    HandsUpdate(s.thieves, i, s'.thieves[i]);
    assert ThiefInv(s, s.thieves[i]);
    if s.top == s.thieves[i].top {
      WindowEnds(s.arrays[s.Cur()], s.top, End(s));
    }
  }

  /** When a thief reports EMPTY the deque is empty, or holds one element that the
      owner is popping at this moment. */
  lemma EmptyIsJustified(s: State, s': State, i: nat, ev: Event)
    requires Inv(s) && i < |s.thieves| && StealStep(s, s', i, ev)
    requires s'.thieves[i] == StealReturn(Empty) && !s.thieves[i].StealReturn?
    ensures Abs(s).items == [] || (|Abs(s).items| == 1 && s.owner.Deciding())
  {
    assert ThiefInv(s, s.thieves[i]);
  }

  /** A thief aborts only if somebody else took the element it was after. */
  lemma AbortMeansLost(s: State, s': State, i: nat, ev: Event)
    requires Inv(s) && i < |s.thieves| && StealStep(s, s', i, ev)
    requires s'.thieves[i] == StealReturn(Abort) && !s.thieves[i].StealReturn?
    ensures s.thieves[i].StealCas? && s.thieves[i].top < s.top == Abs(s).front
  {
    assert ThiefInv(s, s.thieves[i]);
  }

  lemma StealLocalRefines(s: State, s': State, i: nat, ev: Event)
    requires Inv(s) && i < |s.thieves| && StealStep(s, s', i, ev) && !s.thieves[i].StealCas?
    ensures Inv(s') && DequeNext(Abs(s), Abs(s'), ev)
  {
    hide OwnerInv, ThiefInv, Ring.Get, Ring.Valid;
    StealInv(s, s', i, ev);
    HandsUpdate(s.thieves, i, s'.thieves[i]);
    if ev.SawEmpty? {
      EmptyIsJustified(s, s', i, ev);
    }
  }

  lemma StealRefines(s: State, s': State, i: nat, ev: Event)
    requires Inv(s) && i < |s.thieves| && StealStep(s, s', i, ev)
    ensures Inv(s') && DequeNext(Abs(s), Abs(s'), ev)
  {
    hide StealStep, DequeNext, Abs;
    if s.thieves[i].StealCas? {
      StealCasRefines(s, s', i, ev);
    } else {
      StealLocalRefines(s, s', i, ev);
    }
  }

  /** Every atomic step of every thread keeps the invariant and is one event of the
      sequential deque. */
  lemma StepRefines(s: State, s': State, ev: Event)
    requires Inv(s) && Next(s, s', ev)
    ensures Inv(s') && DequeNext(Abs(s), Abs(s'), ev)
  {
    if CallStep(s, s', ev) {
      CallRefines(s, s', ev);
    } else if PushStep(s, s', ev) {
      PushRefines(s, s', ev);
    } else if PopStep(s, s', ev) {
      PopRefines(s, s', ev);
    } else {
      var i :| 0 <= i < |s.thieves| && StealStep(s, s', i, ev);
      StealRefines(s, s', i, ev);
    }
  }

  // ---------------------------------------------------------------- whole runs

  ghost predicate IsRun(ss: seq<State>, evs: seq<Event>) {
    && |ss| == |evs| + 1
    && Init(ss[0])
    && forall k :: 0 <= k < |evs| ==> Next(ss[k], ss[k + 1], evs[k])
  }

  lemma InitRefines(s: State)
    requires Init(s)
    ensures Inv(s)
    ensures Abs(s) == NewDeque(|s.thieves|)
  {
    assert Hands(s.thieves) == seq(|s.thieves|, _ => Vacant);
  }

  /** Every run of the machine is, event by event, a run of the sequential deque. */
  lemma {:induction false} RunRefines(ss: seq<State>, evs: seq<Event>)
    requires IsRun(ss, evs)
    ensures Inv(ss[0]) && Abs(ss[0]) == NewDeque(|ss[0].thieves|)
    ensures forall k :: 0 <= k < |ss| ==> Inv(ss[k])
    ensures forall k :: 0 <= k < |evs| ==> DequeNext(Abs(ss[k]), Abs(ss[k + 1]), evs[k])
  {
    InitRefines(ss[0]);
    hide Inv, Next, Init, DequeNext, Abs;
    for n := 0 to |evs|
      invariant forall k :: 0 <= k <= n ==> Inv(ss[k])
      invariant forall k :: 0 <= k < n ==> DequeNext(Abs(ss[k]), Abs(ss[k + 1]), evs[k])
    {
      StepRefines(ss[n], ss[n + 1], evs[n]);
    }
  }

  /** The owner grows the array only if it was full when it looked at top. */
  lemma GrowsOnlyIfFull(ss: seq<State>, evs: seq<Event>, n: nat)
    requires IsRun(ss, evs) && n < |ss|
    ensures |ss[n].arrays| > 0
    ensures ss[n].owner.PushGrow? ==>
              && ss[n].owner.bottom == ss[n].bottom && ss[n].owner.top <= ss[n].top
              && ss[n].owner.bottom - ss[n].owner.top == ss[n].arrays[ss[n].Cur()].Size()
  {
    RunRefines(ss, evs);
    assert Inv(ss[n]);
    hide IsRun, Next;
  }

  /** Occurrences of x pushed and not yet returned to a caller. */
  function Held(d: Deque, x: Task): nat {
    multiset(d.items)[x] + (if d.owner == Holds(x) then 1 else 0) + InHands(d.thieves, x)
  }

  function PushedBy(ev: Event, x: Task): nat {
    if ev == Push(x) then 1 else 0
  }

  function ReturnedBy(ev: Event, x: Task): nat {
    match ev
    case PopReturned(res) => InHand(res, x)
    case StealReturned(_, Got(y)) => if x == y then 1 else 0
    case _ => 0
  }

  /** How often the first n events pushed x. */
  function Pushed(evs: seq<Event>, n: nat, x: Task): nat
    requires n <= |evs|
  {
    if n == 0 then 0 else Pushed(evs, n - 1, x) + PushedBy(evs[n - 1], x)
  }

  /** How often the first n events handed x back to a caller. */
  function Returned(evs: seq<Event>, n: nat, x: Task): nat
    requires n <= |evs|
  {
    if n == 0 then 0 else Returned(evs, n - 1, x) + ReturnedBy(evs[n - 1], x)
  }

  lemma StepConserves(d: Deque, d': Deque, ev: Event, x: Task)
    requires DequeNext(d, d', ev)
    ensures Held(d', x) + ReturnedBy(ev, x) == Held(d, x) + PushedBy(ev, x)
  {
    if ByThief(ev) {
      InHandsUpdate(d.thieves, ev.thief, d'.thieves[ev.thief], x);
    }
  }

  /** Nothing is lost or returned twice: at every point of every run the pushed
      elements are the returned ones, the ones in a caller's hands and the ones in
      the deque, each counted exactly once. */
  lemma {:induction false} Conservation(ss: seq<State>, evs: seq<Event>, n: nat, x: Task)
    requires IsRun(ss, evs) && n <= |evs|
    ensures Inv(ss[n])
    ensures Pushed(evs, n, x) == Returned(evs, n, x) + Held(Abs(ss[n]), x)
  {
    if n == 0 {
      InitRefines(ss[0]);
      NoHands(Abs(ss[0]).thieves, x);
    } else {
      hide Inv, Next, Init, DequeNext, Abs, Held;
      Conservation(ss, evs, n - 1, x);
      assert Next(ss[n - 1], ss[n - 1 + 1], evs[n - 1]);
      StepRefines(ss[n - 1], ss[n], evs[n - 1]);
      StepConserves(Abs(ss[n - 1]), Abs(ss[n]), evs[n - 1], x);
    }
  }
}
