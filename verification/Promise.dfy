// The lock-protected sleep/wake promise of bench/skynet_bench/libseff_scheff_sleep.c.
//
// One task fulfils, one task awaits; each access to the promise is one step.  The
// worker that runs `must_sleep` on behalf of the awaiter is part of the awaiter here.

module Promise {

  datatype Cell = Empty | Waker | Fulfilled

  datatype Fulfiller =
    | FAcquire
    | FReadState
    | FWriteState(previous: Cell)
    | FWriteResult(previous: Cell)
    | FRelease(previous: Cell)
    | FWake
    | FDone
  {
    predicate HoldsLock() { FReadState? || FWriteState? || FWriteResult? || FRelease? }

    /** Its next step accesses the promise. */
    predicate TouchesPromise() { FAcquire? || HoldsLock() }
  }

  datatype Awaiter =
    // await_promise: the first look at the state
    | AAcquire
    | AReadState
    | ARelease(seen: Cell)
    // must_sleep, run by the worker
    | MAcquire
    | MReadState
    | MWriteState
    | MRelease(seen: Cell)
    | Asleep
    // back in await_promise
    | AReadResult
    | ADone(res: int)
  {
    predicate HoldsLock() { AReadState? || ARelease? || MReadState? || MWriteState? || MRelease? }

    /** It will not block again; its stack frame with the promise may soon be gone. */
    predicate MayProceed() { AReadResult? || ADone? }
  }

  /** `value` is what the fulfiller was called with; `stored` and `wakes` are auxiliary. */
  datatype State = State(
    locked: bool, cell: Cell, result: int,
    fulfiller: Fulfiller, awaiter: Awaiter,
    value: int, stored: bool, wakes: nat)

  ghost predicate Init(s: State) {
    && !s.locked && s.cell == Empty
    && s.fulfiller == FAcquire && s.awaiter == AAcquire
    && !s.stored && s.wakes == 0
  }

  /** `fulfill` */
  predicate FulfillStep(s: State, s': State) {
    match s.fulfiller
    case FAcquire => s' == if s.locked then s else s.(locked := true, fulfiller := FReadState)
    case FReadState => s' == s.(fulfiller := FWriteState(s.cell))
    case FWriteState(p) => s' == s.(cell := Fulfilled, fulfiller := FWriteResult(p))
    case FWriteResult(p) => s' == s.(result := s.value, fulfiller := FRelease(p))
    case FRelease(p) => s' == s.(locked := false, fulfiller := if p == Waker then FWake else FDone)
    case FWake =>
      // scheff_wake puts the sleeping task back into a queue
      s' == s.(fulfiller := FDone, wakes := s.wakes + 1,
               awaiter := if s.awaiter.Asleep? then AReadResult else s.awaiter)
    case FDone => false
  }

  /** `await_promise` and `must_sleep` */
  predicate AwaitStep(s: State, s': State) {
    match s.awaiter
    case AAcquire => s' == if s.locked then s else s.(locked := true, awaiter := AReadState)
    case AReadState => s' == s.(awaiter := ARelease(s.cell))
    case ARelease(c) => s' == s.(locked := false, awaiter := if c == Fulfilled then AReadResult else MAcquire)
    case MAcquire => s' == if s.locked then s else s.(locked := true, awaiter := MReadState)
    case MReadState => s' == s.(awaiter := if s.cell == Empty then MWriteState else MRelease(s.cell))
    case MWriteState => s' == s.(cell := Waker, stored := true, awaiter := MRelease(Empty))
    case MRelease(c) => s' == s.(locked := false, awaiter := if c == Empty then Asleep else AReadResult)
    case Asleep => false
    case AReadResult => s' == s.(awaiter := ADone(s.result))
    case ADone(_) => false
  }

  predicate Next(s: State, s': State) {
    s'.value == s.value && (FulfillStep(s, s') || AwaitStep(s, s'))
  }

  // ------------------------------------------------------------ the invariant

  predicate Inv(s: State) {
    && (s.locked <==> s.fulfiller.HoldsLock() || s.awaiter.HoldsLock())
    && !(s.fulfiller.HoldsLock() && s.awaiter.HoldsLock())
    // the state machine of the cell
    && (s.cell == Fulfilled <==> s.fulfiller.FWriteResult? || s.fulfiller.FRelease? || s.fulfiller.FWake? || s.fulfiller.FDone?)
    && (s.cell == Waker ==> s.stored)
    && (s.stored <==> s.awaiter.Asleep? || s.awaiter == MRelease(Empty) || s.wakes == 1)
    && (s.stored && s.cell != Fulfilled ==> s.cell == Waker)
    && (!s.stored && s.cell != Fulfilled ==> s.cell == Empty)
    // what the fulfiller saw
    && (match s.fulfiller
        case FWriteState(p) => p == s.cell
        case FWriteResult(p) => p == if s.stored then Waker else Empty
        case FRelease(p) => p == (if s.stored then Waker else Empty) && s.result == s.value
        case FWake => s.stored && s.awaiter.Asleep? && s.wakes == 0
        case _ => true)
    && (s.fulfiller.FWake? || s.fulfiller.FDone? ==> s.result == s.value)
    && s.wakes == (if s.fulfiller.FDone? && s.stored then 1 else 0)
    // what the awaiter saw
    && (match s.awaiter
        case ARelease(c) => c == s.cell
        case MWriteState => s.cell == Empty
        case MRelease(c) => c != Waker && (c == Empty ==> s.cell == Waker) && (c == Fulfilled ==> s.cell == Fulfilled)
        case AReadResult => s.cell == Fulfilled && !s.fulfiller.TouchesPromise()
        case ADone(res) => res == s.value && s.cell == Fulfilled && !s.fulfiller.TouchesPromise()
        case _ => true)
    && (s.fulfiller.FDone? ==> !s.awaiter.Asleep?)
  }

  lemma InitHolds(s: State)
    requires Init(s)
    ensures Inv(s)
  {
  }

  lemma StepKeeps(s: State, s': State)
    requires Inv(s) && Next(s, s')
    ensures Inv(s')
  {
  }

  ghost predicate IsRun(ss: seq<State>) {
    0 < |ss| && Init(ss[0]) && forall k :: 0 <= k < |ss| - 1 ==> Next(ss[k], ss[k + 1])
  }

  lemma {:induction false} RunKeeps(ss: seq<State>, n: nat)
    requires IsRun(ss) && n < |ss|
    ensures Inv(ss[n]) && ss[n].value == ss[0].value
  {
    if n == 0 {
      InitHolds(ss[0]);
    } else {
      RunKeeps(ss, n - 1);
      assert Next(ss[n - 1], ss[n - 1 + 1]);
      StepKeeps(ss[n - 1], ss[n]);
    }
  }

  // ------------------------------------------------------------ what it promises

  /** `await_promise` returns only the fulfilled value. */
  lemma AwaitReturnsTheValue(ss: seq<State>, n: nat)
    requires IsRun(ss) && n < |ss| && ss[n].awaiter.ADone?
    ensures ss[n].awaiter.res == ss[0].value
  {
    RunKeeps(ss, n);
  }

  /** A stored waker is woken exactly once, and nothing is woken that was not stored. */
  lemma WokenExactlyOnce(ss: seq<State>, n: nat)
    requires IsRun(ss) && n < |ss|
    ensures ss[n].wakes <= if ss[n].stored then 1 else 0
    ensures ss[n].fulfiller.FDone? ==> ss[n].wakes == if ss[n].stored then 1 else 0
  {
    RunKeeps(ss, n);
  }

  /** The waker is stored only in an unfulfilled promise, and once the fulfiller is done
      nobody sleeps: no wake-up is lost. */
  lemma NeverAsleepAfterFulfilment(ss: seq<State>, n: nat)
    requires IsRun(ss) && n < |ss|
    ensures ss[n].awaiter.MWriteState? ==> ss[n].cell == Empty
    ensures ss[n].fulfiller.FDone? ==> !ss[n].awaiter.Asleep?
  {
    RunKeeps(ss, n);
  }

  /** The fulfiller never touches the promise once the awaiter can proceed. */
  lemma FulfillerLetsGo(ss: seq<State>, n: nat)
    requires IsRun(ss) && n < |ss| && ss[n].awaiter.MayProceed()
    ensures !ss[n].fulfiller.TouchesPromise()
  {
    RunKeeps(ss, n);
  }

  /** Until the awaiter is done there is a step that changes the state: no deadlock. */
  lemma NeverStuck(ss: seq<State>, n: nat) returns (s': State)
    requires IsRun(ss) && n < |ss| && !ss[n].awaiter.ADone?
    ensures Next(ss[n], s') && s' != ss[n]
  {
    RunKeeps(ss, n);
    var s := ss[n];
    if s.awaiter.HoldsLock() || s.awaiter.AReadResult? || (!s.locked && !s.awaiter.Asleep?) {
      s' := match s.awaiter
        case AAcquire => s.(locked := true, awaiter := AReadState)
        case AReadState => s.(awaiter := ARelease(s.cell))
        case ARelease(c) => s.(locked := false, awaiter := if c == Fulfilled then AReadResult else MAcquire)
        case MAcquire => s.(locked := true, awaiter := MReadState)
        case MReadState => s.(awaiter := if s.cell == Empty then MWriteState else MRelease(s.cell))
        case MWriteState => s.(cell := Waker, stored := true, awaiter := MRelease(Empty))
        case MRelease(c) => s.(locked := false, awaiter := if c == Empty then Asleep else AReadResult)
        case _ => s.(awaiter := ADone(s.result));
    } else if s.fulfiller.FWake? {
      s' := s.(fulfiller := FDone, wakes := 1, awaiter := AReadResult);
    } else {
      s' := match s.fulfiller
        case FAcquire => s.(locked := true, fulfiller := FReadState)
        case FReadState => s.(fulfiller := FWriteState(s.cell))
        case FWriteState(p) => s.(cell := Fulfilled, fulfiller := FWriteResult(p))
        case FWriteResult(p) => s.(result := s.value, fulfiller := FRelease(p))
        case FRelease(p) => s.(locked := false, fulfiller := if p == Waker then FWake else FDone)
        case _ => s;
    }
  }

  // ------------------------------------- each locked block as one indivisible step

  datatype BlockCell = Unset | Waited | Set(res: int)
  datatype BlockAwaiter = Checking | Sleeping | Slept | Reading | Got(res: int)
  datatype BlockFulfiller = Fulfilling | Waking | Finished

  datatype Blocks = Blocks(cell: BlockCell, fulfiller: BlockFulfiller, awaiter: BlockAwaiter)

  /** The promise as the skynet model uses it. */
  predicate BlockNext(b: Blocks, b': Blocks, value: int) {
    || (b.fulfiller == Fulfilling
        && b' == b.(cell := Set(value), fulfiller := if b.cell == Waited then Waking else Finished))
    || (b.fulfiller == Waking && b.awaiter == Slept && b' == b.(fulfiller := Finished, awaiter := Reading))
    || (b.awaiter == Checking && b' == b.(awaiter := if b.cell.Set? then Reading else Sleeping))
    || (b.awaiter == Sleeping
        && b' == if b.cell == Unset then b.(cell := Waited, awaiter := Slept) else b.(awaiter := Reading))
    || (b.awaiter == Reading && b.cell.Set? && b' == b.(awaiter := Got(b.cell.res)))
  }

  /** What is visible while nobody is inside a locked block: an update counts from the
      moment the lock is released. */
  function Abs(s: State): Blocks {
    Blocks(
      if s.fulfiller.FWake? || s.fulfiller.FDone? then Set(s.result)
      else if s.stored && s.awaiter != MRelease(Empty) then Waited
      else Unset,
      if s.fulfiller.FWake? then Waking else if s.fulfiller.FDone? then Finished else Fulfilling,
      match s.awaiter
      case AAcquire => Checking
      case AReadState => Checking
      case ARelease(_) => Checking
      case Asleep => Slept
      case AReadResult => Reading
      case ADone(res) => Got(res)
      case _ => Sleeping)
  }

  lemma StepRefinesBlocks(s: State, s': State)
    requires Inv(s) && Next(s, s')
    ensures Abs(s') == Abs(s) || BlockNext(Abs(s), Abs(s'), s.value)
  {
  }

  /** Every interleaving of the single accesses looks like one of whole blocks. */
  lemma RunRefinesBlocks(ss: seq<State>)
    requires IsRun(ss)
    ensures Abs(ss[0]) == Blocks(Unset, Fulfilling, Checking)
    ensures forall n :: 0 <= n < |ss| - 1 ==>
              Abs(ss[n + 1]) == Abs(ss[n]) || BlockNext(Abs(ss[n]), Abs(ss[n + 1]), ss[0].value)
  {
    forall n | 0 <= n < |ss| - 1
      ensures Abs(ss[n + 1]) == Abs(ss[n]) || BlockNext(Abs(ss[n]), Abs(ss[n + 1]), ss[0].value)
    {
      RunKeeps(ss, n);
      StepRefinesBlocks(ss[n], ss[n + 1]);
    }
  }
}
