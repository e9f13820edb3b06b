// In which order a worker of scheduler/scheff.c looks for its next task.

module FetchOrder {
  import opened Options
  import opened FifoSpec
  import opened Scheduler
  import TaskHands

  type Task = TaskHands.Task

  /** Worker i's own doing, other than coming back from a queue with nothing. */
  predicate By(act: Act, i: nat) {
    match act
    case Fetched(w, _, _) => w == i
    case ReadCounter(w) => w == i
    case PollFalse(w, _) => w == i
    case Resumed(w, _, _) => w == i
    case Requested(w, _, _) => w == i
    case Forked(w, _, _) => w == i
    case Slept(w, _) => w == i
    case Declined(w, _) => w == i
    case Freed(w, _) => w == i
    case _ => false
  }

  predicate Misses(act: Act, i: nat) {
    act.Missed? && act.worker == i
  }

  /** The queues worker i has found nothing in since it last did anything else, in order. */
  function MissedBy(acts: seq<Act>, n: nat, i: nat): seq<nat>
    requires n <= |acts|
  {
    if n == 0 then []
    else if Misses(acts[n - 1], i) then MissedBy(acts, n - 1, i) + [acts[n - 1].queue]
    else if By(acts[n - 1], i) then []
    else MissedBy(acts, n - 1, i)
  }

  /** The first k queues in worker i's order: its own, then one after the other. */
  function Round(i: nat, k: nat, n: nat): seq<nat>
    requires 0 < n
  {
    seq(k, j => (i + j) % n)
  }

  /** What worker i has missed at pc. */
  ghost predicate MissedOk(pc: Pc, missed: seq<nat>, i: nat, n: nat)
    requires 0 < n
  {
    match pc
    case Stealing(k) => 1 <= k < n && missed == Round(i, k, n)
    case StealWait(k) => 1 <= k < n && missed == Round(i, k, n)
    case CheckRemaining => missed == Round(i, n, n)
    case _ => missed == []
  }

  /** Every act but those of scheff_schedule is some worker's; the others do not move. */
  lemma ActOf(s: State, s': State, act: Act, i: nat)
    requires |s.workers| == |s.queues| && Next(s, s', act) && i < |s.workers|
    ensures |s'.workers| == |s.workers|
    ensures WorkerStep(s, s', i, act) || (s'.workers[i] == s.workers[i] && !By(act, i) && !Misses(act, i))
  {
    hide FifoNext, WakesRegistered;
    if !ScheduleStep(s, s', act) && !RunStep(s, s', act) && !QueueStep(s, s', act) {
      var j :| 0 <= j < |s.workers| && WorkerStep(s, s', j, act);
      WorkerMoves(s, s', j, act);
      ActsBy(s, s', j, act, i);
    }
  }

  lemma ActsBy(s: State, s': State, j: nat, act: Act, i: nat)
    requires j < |s.workers| == |s.queues| && WorkerStep(s, s', j, act)
    ensures i != j ==> !By(act, i) && !Misses(act, i)
  {
    hide FifoNext, WakesRegistered;
  }

  lemma RoundGrows(i: nat, k: nat, n: nat)
    requires 0 < n
    ensures Round(i, k + 1, n) == Round(i, k, n) + [(i + k) % n]
    ensures i < n ==> Round(i, 1, n) == [i]
  {
    assert i < n ==> i % n == i;
  }

  lemma PopMoves(s: State, s': State, i: nat, act: Act)
    requires i < |s.workers| == |s.queues| && GetStep(s, s', i, act)
    ensures i < |s'.workers|
    ensures var pc, pc' := s.workers[i], s'.workers[i];
            match pc
            case Popping => act == Quiet && pc' == PopWait
            case PopWait =>
              if Misses(act, i) then act.queue == i && pc' == AfterSteal(1, |s.workers|)
              else By(act, i) && act.Fetched? && pc'.Got?
            case _ => true
  {
    hide FifoNext;
  }

  lemma StealMoves(s: State, s': State, i: nat, act: Act)
    requires i < |s.workers| == |s.queues| && GetStep(s, s', i, act)
    ensures i < |s'.workers|
    ensures var n, pc, pc' := |s.workers|, s.workers[i], s'.workers[i];
            match pc
            case Stealing(k) => act == Quiet && pc' == StealWait(k)
            case StealWait(k) =>
              if Misses(act, i) then act.queue == (i + k) % n && pc' == AfterSteal(k + 1, n)
              else By(act, i) && act.Fetched? && pc'.Got?
            case _ => true
  {
    hide FifoNext;
  }

  lemma OtherMoves(s: State, s': State, i: nat, act: Act)
    requires i < |s.workers| == |s.queues| && WorkerStep(s, s', i, act) && !Fetching(s.workers[i])
    ensures i < |s'.workers| && !Misses(act, i) && (s.workers[i].CheckRemaining? ==> By(act, i))
    ensures var pc' := s'.workers[i]; !pc'.Stealing? && !pc'.StealWait? && !pc'.CheckRemaining?
  {
    hide FifoNext, WakesRegistered;
  }

  lemma MissStep(s: State, s': State, i: nat, act: Act, missed: seq<nat>)
    requires i < |s.workers| == |s.queues| && WorkerStep(s, s', i, act)
    requires MissedOk(s.workers[i], missed, i, |s.workers|)
    ensures i < |s'.workers|
    ensures var missed' := if Misses(act, i) then missed + [act.queue] else if By(act, i) then [] else missed;
            MissedOk(s'.workers[i], missed', i, |s.workers|)
  {
    hide WorkerStep, GetStep, Round;
    if Fetching(s.workers[i]) {
      OnlyGets(s, s', i, act);
      PopMoves(s, s', i, act);
      StealMoves(s, s', i, act);
      RoundGrows(i, 0, |s.workers|);
      if s.workers[i].StealWait? {
        RoundGrows(i, s.workers[i].k, |s.workers|);
      }
    } else {
      OtherMoves(s, s', i, act);
    }
  }

  lemma OnlyGets(s: State, s': State, j: nat, act: Act)
    requires j < |s.workers| == |s.queues| && WorkerStep(s, s', j, act) && Fetching(s.workers[j])
    ensures GetStep(s, s', j, act)
  {
    hide FifoNext, GetStep, WakesRegistered;
  }

  lemma WorkersAtStart(s: State, n: nat)
    requires Init(s, n)
    ensures 0 < n == |s.workers| == |s.queues| && forall i :: 0 <= i < n ==> s.workers[i] == Popping
  {
  }

  lemma {:induction false} RunMissed(ss: seq<State>, acts: seq<Act>, n: nat, i: nat)
    requires IsRun(ss, acts) && n <= |acts| && i < |ss[0].workers|
    ensures |ss[n].workers| == |ss[n].queues| == |ss[0].workers|
    ensures MissedOk(ss[n].workers[i], MissedBy(acts, n, i), i, |ss[n].workers|)
  {
    hide Init, Next, WorkerStep, Inv, Round;
    RunKeeps(ss, acts, n);
    InvSizes(ss[n]);
    if n == 0 {
      var k :| Init(ss[0], k);
      WorkersAtStart(ss[0], k);
    } else {
      RunMissed(ss, acts, n - 1, i);
      assert Next(ss[n - 1], ss[n - 1 + 1], acts[n - 1]);
      ActOf(ss[n - 1], ss[n], acts[n - 1], i);
      if WorkerStep(ss[n - 1], ss[n], i, acts[n - 1]) {
        MissStep(ss[n - 1], ss[n], i, acts[n - 1], MissedBy(acts, n - 1, i));
      }
    }
  }

  lemma InvSizes(s: State)
    requires Inv(s)
    ensures |s.workers| == |s.queues|
  {
  }

  lemma WrapAround(q: nat, n: nat)
    requires q < n
    ensures (q + n) % n == q == q % n
  {
  }

  lemma RoundAt(i: nat, k: nat, n: nat)
    requires i < n && k < n
    ensures |Round(i, n, n)| == n && Round(i, n, n)[k] == if i + k < n then i + k else i + k - n
  {
    WrapAround(if i + k < n then i + k else i + k - n, n);
  }

  /** The round takes in every queue, and its own first. */
  lemma RoundCovers(i: nat, n: nat, q: nat)
    requires i < n && q < n
    ensures q in Round(i, n, n) && |Round(i, n, n)| == n && Round(i, n, n)[0] == i
  {
    hide Round;
    RoundAt(i, 0, n);
    RoundAt(i, if i <= q then q - i else q + n - i, n);
  }

  /** Before a worker looks whether any task remains it has found nothing in its own queue
      first, and then once in every other queue, since it last had a task. */
  lemma LooksEverywhere(ss: seq<State>, acts: seq<Act>, n: nat, i: nat, q: nat)
    requires IsRun(ss, acts) && n < |acts| && acts[n] == ReadCounter(i)
    requires i < |ss[0].workers| && q < |ss[0].workers|
    ensures var missed := MissedBy(acts, n, i);
            q in missed && |missed| == |ss[0].workers| && missed[0] == i
  {
    hide Init, Next, Inv, Round;
    RunMissed(ss, acts, n, i);
    assert Next(ss[n], ss[n + 1], acts[n]);
    ReadsAtCheck(ss[n], ss[n + 1], acts[n], i);
    RoundCovers(i, |ss[0].workers|, q);
  }

  lemma ReadsAtCheck(s: State, s': State, act: Act, i: nat)
    requires |s.workers| == |s.queues| && Next(s, s', act) && act == ReadCounter(i) && i < |s.workers|
    ensures s.workers[i].CheckRemaining?
  {
    hide FifoNext, WakesRegistered;
    ActOf(s, s', act, i);
  }

  // ------------------------------------------------------------- priority tasks

  /** What worker i is to run next: a task it forked, or the last one it woke. */
  function PreferredAfter(act: Act, i: nat, pref: Option<Task>): Option<Task> {
    match act
    case Forked(w, _, x) => if w == i then Some(x) else pref
    case Requested(w, _, WakeAll(ws, _)) => if w == i && ws != [] then Some(ws[|ws| - 1]) else pref
    case Fetched(w, q, _) => if w == i == q then None else pref
    case Missed(w, q) => if w == i == q then None else pref
    case _ => pref
  }

  function Preferred(acts: seq<Act>, n: nat, i: nat): Option<Task>
    requires n <= |acts|
  {
    if n == 0 then None else PreferredAfter(acts[n - 1], i, Preferred(acts, n - 1, i))
  }

  predicate OwnerIdle(f: Fifo) {
    0 < |f.hands| && f.hands[0] == TaskHands.Vacant
  }

  /** What worker i's queue holds in its slot, or its pop in hand, when it is at pc. */
  predicate SlotOk(pc: Pc, f: Fifo, pref: Option<Task>) {
    match pc
    case PopWait =>
      && 0 < |f.hands|
      && (match f.hands[0]
          case Seeking(pop) => pop && f.slot == pref
          case Holds(x) => f.slot == None && (pref == None || pref == Some(x))
          case Nothing => f.slot == None && pref == None
          case _ => false)
    case ForkPush(_, x) => OwnerIdle(f) && pref == Some(x)
    case ForkPrio(x) => OwnerIdle(f) && pref == Some(x)
    case Wake(ws, _, _) => OwnerIdle(f) && pref == if ws == [] then f.slot else Some(ws[|ws| - 1])
    case _ => OwnerIdle(f) && f.slot == pref
  }

  /** Queue operations of others leave the owner's slot and its hand alone. */
  lemma SlotGoesOn(pc: Pc, f: Fifo, f': Fifo, ev: Event, pref: Option<Task>)
    requires SlotOk(pc, f, pref) && FifoNext(f, f', ev)
    requires GoesOn(ev) || (ev.Called? && 0 < ev.who) || (ev.Returned? && 0 < ev.who) || ev.Push?
    ensures SlotOk(pc, f', pref)
  {
  }

  lemma OwnSlot(s: State, s': State, i: nat, ev: Event, next: Pc)
    requires i < |s.workers| == |s.queues| && Own(s, s', i, ev, next)
    ensures |s'.queues| == |s.queues| && |s'.workers| == |s.workers| && s'.workers[i] == next
    ensures FifoNext(s.queues[i], s'.queues[i], ev)
  {
    hide FifoNext;
  }

  lemma QueueIndex(i: nat, k: nat, n: nat)
    requires i < n && 1 <= k < n
    ensures (i + k) % n != i && (i + k) % n < n
  {
    RoundAt(i, k, n);
  }

  /** A steal does not touch the worker's own queue. */
  lemma StealSlot(s: State, s': State, i: nat, act: Act)
    requires i < |s.workers| == |s.queues| && GetStep(s, s', i, act)
    requires s.workers[i].StealWait? || s.workers[i].Stealing?
    requires 1 <= s.workers[i].k
    ensures |s'.queues| == |s.queues| && |s'.workers| == |s.workers| && s'.queues[i] == s.queues[i]
    ensures forall pref :: PreferredAfter(act, i, pref) == pref
    ensures var pc' := s'.workers[i]; !pc'.PopWait? && !pc'.ForkPush? && !pc'.ForkPrio? && !pc'.Wake?
  {
    hide FifoNext;
    var k, n := s.workers[i].k, |s.workers|;
    QueueIndex(i, k, n);
  }

  lemma PopSlot(s: State, s': State, i: nat, act: Act, pref: Option<Task>)
    requires i < |s.workers| == |s.queues| && GetStep(s, s', i, act) && SlotOk(s.workers[i], s.queues[i], pref)
    requires s.workers[i].Popping? || s.workers[i].PopWait?
    ensures |s'.queues| == |s.queues| && |s'.workers| == |s.workers|
    ensures SlotOk(s'.workers[i], s'.queues[i], PreferredAfter(act, i, pref))
    ensures s.workers[i].PopWait? ==> (act.Fetched? || act == Missed(i, i)) && (pref.Some? ==> act == Fetched(i, i, pref.value))
    ensures act.Fetched? || act.Missed? ==> act.worker == i == act.queue
  {
    if s.workers[i].Popping? {
      hide SlotOk;
      OwnSlot(s, s', i, Called(0, true), PopWait);
      PopCalledSlot(s.queues[i], s'.queues[i], pref);
      assert SlotOk(Popping, s.queues[i], pref);
    } else {
      var f, res: Option<Task> :|
        && FifoNext(s.queues[i], f, Returned(0, res))
        && s' == Goto(SetQueue(s, i, f), i, if res.Some? then Got(res.value) else AfterSteal(1, |s.workers|))
        && act == if res.Some? then Fetched(i, i, res.value) else Missed(i, i);
      hide GetStep;
    }
  }

  lemma PopCalledSlot(f: Fifo, f': Fifo, pref: Option<Task>)
    requires SlotOk(Popping, f, pref) && FifoNext(f, f', Called(0, true))
    ensures SlotOk(PopWait, f', pref)
  {
  }

  /** Serving a request, up to the worker's next look at its queue. */
  lemma ServeSlot(s: State, s': State, i: nat, act: Act, pref: Option<Task>)
    requires i < |s.workers| == |s.queues| && ServeStep(s, s', i, act) && SlotOk(s.workers[i], s.queues[i], pref)
    ensures |s'.queues| == |s.queues| && |s'.workers| == |s.workers|
    ensures SlotOk(s'.workers[i], s'.queues[i], PreferredAfter(act, i, pref))
  {
    var pc := s.workers[i];
    if pc.ForkPush? || pc.ForkPrio? || pc.Requeue? || (pc.Wake? && pc.wakers != []) {
      hide SlotOk;
      var ev := if pc.ForkPush? then Push(pc.t) else if pc.ForkPrio? then PrioritySwap(pc.forked)
                else if pc.Wake? then PrioritySwap(pc.wakers[0]) else Push(pc.t);
      OwnSlot(s, s', i, ev, s'.workers[i]);
      QueueServeSlot(pc, s'.workers[i], s.queues[i], s'.queues[i], ev, pref);
    } else {
      hide Own;
    }
  }

  lemma QueueServeSlot(pc: Pc, pc': Pc, f: Fifo, f': Fifo, ev: Event, pref: Option<Task>)
    requires SlotOk(pc, f, pref) && FifoNext(f, f', ev)
    requires match pc
             case ForkPush(t, x) => ev == Push(t) && pc' == ForkPrio(x)
             case ForkPrio(x) => ev == PrioritySwap(x) && pc' == Popping
             case Requeue(t) => ev == Push(t) && pc' == Popping
             case Wake(ws, t, r) => ws != [] && ev == PrioritySwap(ws[0]) && pc' == Wake(ws[1..], t, r)
             case _ => false
    ensures SlotOk(pc', f', pref)
  {
  }

  lemma RequestSlot(s: State, s': State, i: nat, act: Act, pref: Option<Task>)
    requires i < |s.workers| == |s.queues| && SlotOk(s.workers[i], s.queues[i], pref)
    requires RequestStep(s, s', i, act) || (GetStep(s, s', i, act) && (s.workers[i].CheckRemaining? || s.workers[i].Got?))
    ensures |s'.queues| == |s.queues| && |s'.workers| == |s.workers|
    ensures SlotOk(s'.workers[i], s'.queues[i], PreferredAfter(act, i, pref))
  {
    hide WakesRegistered, FifoNext;
  }

  lemma OwnStepSlot(s: State, s': State, i: nat, act: Act, pref: Option<Task>, missed: seq<nat>)
    requires i < |s.workers| == |s.queues| && WorkerStep(s, s', i, act) && SlotOk(s.workers[i], s.queues[i], pref)
    requires MissedOk(s.workers[i], missed, i, |s.workers|)
    ensures |s'.queues| == |s.queues| && |s'.workers| == |s.workers|
    ensures SlotOk(s'.workers[i], s'.queues[i], PreferredAfter(act, i, pref))
  {
    hide GetStep, RequestStep, ServeStep, SlotOk, PreferredAfter, Round;
    var pc := s.workers[i];
    if pc.Popping? || pc.PopWait? {
      OnlyGets(s, s', i, act);
      PopSlot(s, s', i, act, pref);
    } else if pc.Stealing? || pc.StealWait? {
      OnlyGets(s, s', i, act);
      StealSlot(s, s', i, act);
      SameSlot(pc, s'.workers[i], s.queues[i], pref);
    } else if ServeStep(s, s', i, act) {
      ServeSlot(s, s', i, act, pref);
    } else {
      NoRequest(s, s', i, act);
      RequestSlot(s, s', i, act, pref);
    }
  }

  lemma SameSlot(pc: Pc, pc': Pc, f: Fifo, pref: Option<Task>)
    requires SlotOk(pc, f, pref)
    requires !pc.PopWait? && !pc.ForkPush? && !pc.ForkPrio? && !pc.Wake?
    requires !pc'.PopWait? && !pc'.ForkPush? && !pc'.ForkPrio? && !pc'.Wake?
    ensures SlotOk(pc', f, pref)
  {
  }

  lemma NoRequest(s: State, s': State, i: nat, act: Act)
    requires i < |s.workers| == |s.queues|
    ensures RequestStep(s, s', i, act) ==> s.workers[i].Running?
    ensures GetStep(s, s', i, act) ==> Fetching(s.workers[i]) || s.workers[i].CheckRemaining? || s.workers[i].Got?
  {
    hide FifoNext, WakesRegistered;
  }

  /** Another worker's steal. */
  lemma OtherSteals(s: State, s': State, j: nat, act: Act, i: nat) returns (ev: Event)
    requires i < |s.workers| == |s.queues| && j < |s.workers| && GetStep(s, s', j, act)
    requires (s.workers[j].Stealing? || s.workers[j].StealWait?) && 1 <= s.workers[j].k
    ensures |s'.queues| == |s.queues|
    ensures s'.queues[i] == s.queues[i] || (FifoNext(s.queues[i], s'.queues[i], ev) && (ev.Called? || ev.Returned?) && 0 < ev.who)
  {
    var pc, n := s.workers[j], |s.workers|;
    if pc.Stealing? {
      ev := Called(n - pc.k, false);
      hide FifoNext;
    } else {
      var f, res: Option<Task> :|
        && FifoNext(s.queues[(j + pc.k) % n], f, Returned(n - pc.k, res))
        && s' == Goto(SetQueue(s, (j + pc.k) % n, f), j, if res.Some? then Got(res.value) else AfterSteal(pc.k + 1, n))
        && act == if res.Some? then Fetched(j, (j + pc.k) % n, res.value) else Missed(j, (j + pc.k) % n);
      ev := Returned(n - pc.k, res);
      hide FifoNext;
    }
  }

  /** Whatever else another worker does leaves worker i's queue alone. */
  lemma OtherWorks(s: State, s': State, j: nat, act: Act, i: nat)
    requires i < |s.workers| == |s.queues| && j < |s.workers| && j != i && WorkerStep(s, s', j, act)
    requires !s.workers[j].Stealing? && !s.workers[j].StealWait?
    ensures |s'.queues| == |s.queues| && s'.queues[i] == s.queues[i]
  {
    hide FifoNext, WakesRegistered;
  }

  ghost predicate StealsOthers(s: State) {
    forall j :: 0 <= j < |s.workers| && (s.workers[j].Stealing? || s.workers[j].StealWait?) ==> 1 <= s.workers[j].k
  }

  lemma OtherStepSlot(s: State, s': State, j: nat, act: Act, i: nat, pc: Pc, pref: Option<Task>)
    requires i < |s.workers| == |s.queues| && j < |s.workers| && j != i && WorkerStep(s, s', j, act)
    requires StealsOthers(s) && SlotOk(pc, s.queues[i], pref)
    ensures |s'.queues| == |s.queues| && SlotOk(pc, s'.queues[i], pref)
  {
    hide GetStep, RequestStep, ServeStep, SlotOk;
    if s.workers[j].Stealing? || s.workers[j].StealWait? {
      OnlyGets(s, s', j, act);
      var ev := OtherSteals(s, s', j, act, i);
      if s'.queues[i] != s.queues[i] {
        SlotGoesOn(pc, s.queues[i], s'.queues[i], ev, pref);
      }
    } else {
      OtherWorks(s, s', j, act, i);
    }
  }

  lemma QueueStepSlot(s: State, s': State, act: Act, i: nat, pc: Pc, pref: Option<Task>)
    requires i < |s.queues| && (QueueStep(s, s', act) || ScheduleStep(s, s', act)) && SlotOk(pc, s.queues[i], pref)
    ensures |s'.queues| == |s.queues| && SlotOk(pc, s'.queues[i], pref)
  {
    hide FifoNext, SlotOk;
    if QueueStep(s, s', act) {
      var q, f, ev :| 0 <= q < |s.queues| && FifoNext(s.queues[q], f, ev) && GoesOn(ev) && s' == SetQueue(s, q, f);
      if q == i {
        SlotGoesOn(pc, s.queues[i], f, ev, pref);
      }
    } else {
      var t, f :| t !in s.live && FifoNext(s.queues[0], f, Push(t))
        && s' == SetQueue(s, 0, f).(remaining := s.remaining + 1, live := s.live + {t}, paused := s.paused + {t})
        && act == Scheduled(t);
      if i == 0 {
        SlotGoesOn(pc, s.queues[0], f, Push(t), pref);
      }
    }
  }

  lemma StepSlot(s: State, s': State, act: Act, i: nat, pref: Option<Task>, missed: seq<nat>)
    requires i < |s.workers| == |s.queues| && Next(s, s', act) && StealsOthers(s)
    requires SlotOk(s.workers[i], s.queues[i], pref) && MissedOk(s.workers[i], missed, i, |s.workers|)
    ensures |s'.queues| == |s.queues| && |s'.workers| == |s.workers|
    ensures SlotOk(s'.workers[i], s'.queues[i], PreferredAfter(act, i, pref))
  {
    hide SlotOk, MissedOk, ScheduleStep, QueueStep, WorkerStep, StealsOthers;
    ActOf(s, s', act, i);
    if WorkerStep(s, s', i, act) {
      OwnStepSlot(s, s', i, act, pref, missed);
    } else if ScheduleStep(s, s', act) || QueueStep(s, s', act) {
      QueueStepSlot(s, s', act, i, s.workers[i], pref);
    } else if !RunStep(s, s', act) {
      var j :| 0 <= j < |s.workers| && WorkerStep(s, s', j, act);
      OtherStepSlot(s, s', j, act, i, s.workers[i], pref);
    }
  }

  lemma InitSlots(s: State, n: nat, i: nat)
    requires Init(s, n) && i < |s.workers|
    ensures |s.workers| == |s.queues| == n && SlotOk(s.workers[i], s.queues[i], None)
  {
  }

  lemma {:induction false} RunSlots(ss: seq<State>, acts: seq<Act>, n: nat, i: nat)
    requires IsRun(ss, acts) && n <= |acts| && i < |ss[0].workers|
    ensures |ss[n].workers| == |ss[n].queues| == |ss[0].workers|
    ensures SlotOk(ss[n].workers[i], ss[n].queues[i], Preferred(acts, n, i))
  {
    hide Init, Next, SlotOk, MissedOk, StealsOthers;
    RunMissed(ss, acts, n, i);
    if n == 0 {
      var k :| Init(ss[0], k);
      InitSlots(ss[0], k, i);
    } else {
      RunSlots(ss, acts, n - 1, i);
      RunMissed(ss, acts, n - 1, i);
      RunSteals(ss, acts, n - 1);
      assert Next(ss[n - 1], ss[n - 1 + 1], acts[n - 1]);
      StepSlot(ss[n - 1], ss[n], acts[n - 1], i, Preferred(acts, n - 1, i), MissedBy(acts, n - 1, i));
    }
  }

  lemma RunSteals(ss: seq<State>, acts: seq<Act>, n: nat)
    requires IsRun(ss, acts) && n <= |acts|
    ensures StealsOthers(ss[n])
  {
    hide Init, Next;
    RunSizes(ss, acts, n);
    forall j | 0 <= j < |ss[n].workers| && (ss[n].workers[j].Stealing? || ss[n].workers[j].StealWait?)
      ensures 1 <= ss[n].workers[j].k
    {
      RunMissed(ss, acts, n, j);
    }
  }

  lemma RunSizes(ss: seq<State>, acts: seq<Act>, n: nat)
    requires IsRun(ss, acts) && n <= |acts|
    ensures |ss[n].workers| == |ss[0].workers|
  {
    hide Next, MissedOk;
    var k :| Init(ss[0], k);
    RunMissed(ss, acts, n, 0);
  }

  /** A worker that prefers some task gets that one from its own queue. */
  lemma OwnQueueAnswers(ss: seq<State>, acts: seq<Act>, n: nat, i: nat)
    requires IsRun(ss, acts) && n < |acts| && i < |ss[0].workers|
    requires acts[n] == Missed(i, i) || (acts[n].Fetched? && acts[n].worker == i == acts[n].queue)
    ensures Preferred(acts, n, i).Some? ==> acts[n] == Fetched(i, i, Preferred(acts, n, i).value)
  {
    hide Init, Next, SlotOk, MissedOk;
    RunSlots(ss, acts, n, i);
    RunMissed(ss, acts, n, i);
    RunSteals(ss, acts, n);
    assert Next(ss[n], ss[n + 1], acts[n]);
    AnswersAtPop(ss[n], ss[n + 1], acts[n], i, MissedBy(acts, n, i));
    PopSlot(ss[n], ss[n + 1], i, acts[n], Preferred(acts, n, i));
  }

  lemma AnswersAtPop(s: State, s': State, act: Act, i: nat, missed: seq<nat>)
    requires i < |s.workers| == |s.queues| && Next(s, s', act)
    requires MissedOk(s.workers[i], missed, i, |s.workers|)
    requires act == Missed(i, i) || (act.Fetched? && act.worker == i == act.queue)
    ensures GetStep(s, s', i, act) && s.workers[i].PopWait?
  {
    hide FifoNext, WakesRegistered, Round;
    ActOf(s, s', act, i);
    hide ScheduleStep, QueueStep, RunStep;
    if s.workers[i].StealWait? {
      QueueIndex(i, s.workers[i].k, |s.workers|);
    }
  }

  /** Between the request and the worker's next look at its queue. */
  predicate Serving(pc: Pc) {
    pc.ForkPush? || pc.ForkPrio? || pc.Wake? || pc.Requeue? || pc.Finalize? || pc.FinalizeCount? || pc.Popping? || pc.PopWait?
  }

  predicate Answers(act: Act, i: nat) {
    Misses(act, i) || (act.Fetched? && act.worker == i)
  }

  lemma ServingGoesOn(s: State, s': State, act: Act, i: nat)
    requires i < |s.workers| == |s.queues| && Next(s, s', act) && Serving(s.workers[i]) && !Answers(act, i)
    ensures i < |s'.workers| && Serving(s'.workers[i])
    ensures forall pref :: PreferredAfter(act, i, pref) == pref
  {
    hide FifoNext, WakesRegistered;
    ActOf(s, s', act, i);
    hide ScheduleStep, QueueStep, RunStep;
  }

  lemma ServingAnswers(s: State, s': State, act: Act, i: nat)
    requires i < |s.workers| == |s.queues| && Next(s, s', act) && Serving(s.workers[i]) && Answers(act, i)
    ensures act.queue == i
  {
    hide FifoNext, WakesRegistered;
    ActOf(s, s', act, i);
    hide ScheduleStep, QueueStep, RunStep;
  }

  lemma ServingStarts(s: State, s': State, act: Act, i: nat)
    requires i < |s.workers| == |s.queues| && Next(s, s', act)
    requires (act.Forked? || (act.Requested? && act.req.WakeAll?)) && act.worker == i
    ensures i < |s'.workers| && Serving(s'.workers[i])
  {
    hide FifoNext, WakesRegistered;
    ActOf(s, s', act, i);
    hide ScheduleStep, QueueStep, RunStep;
  }

  /** A forked task, or the last of several woken ones, is what the worker runs next: the
      next answer it gets from any queue is that task, from its own. */
  lemma RunsNext(ss: seq<State>, acts: seq<Act>, m: nat, n: nat, i: nat, x: Task)
    requires IsRun(ss, acts) && m < n < |acts| && i < |ss[0].workers|
    requires acts[m].Forked? || (acts[m].Requested? && acts[m].req.WakeAll? && acts[m].req.wakers != [])
    requires acts[m].worker == i
    requires x == if acts[m].Forked? then acts[m].x else acts[m].req.wakers[|acts[m].req.wakers| - 1]
    requires Answers(acts[n], i) && forall k :: m < k < n ==> !Answers(acts[k], i)
    ensures acts[n] == Fetched(i, i, x)
  {
    hide Init, Next, MissedOk, Serving;
    RunSizes(ss, acts, m);
    RunMissed(ss, acts, m, i);
    assert Next(ss[m], ss[m + 1], acts[m]);
    ServingStarts(ss[m], ss[m + 1], acts[m], i);
    for k := m + 1 to n
      invariant i < |ss[k].workers| && Serving(ss[k].workers[i]) && Preferred(acts, k, i) == Some(x)
    {
      RunMissed(ss, acts, k, i);
      assert Next(ss[k], ss[k + 1], acts[k]);
      ServingGoesOn(ss[k], ss[k + 1], acts[k], i);
    }
    RunMissed(ss, acts, n, i);
    assert Next(ss[n], ss[n + 1], acts[n]);
    ServingAnswers(ss[n], ss[n + 1], acts[n], i);
    OwnQueueAnswers(ss, acts, n, i);
  }

  // ------------------------------------------------------------- before scheff_run

  /** The tasks handed to `scheff_schedule`, in order. */
  function ScheduledTasks(acts: seq<Act>, n: nat): seq<Task>
    requires n <= |acts|
  {
    if n == 0 then []
    else ScheduledTasks(acts, n - 1) + if acts[n - 1].Scheduled? then [acts[n - 1].t] else []
  }

  /** Nobody works yet, and the tasks wait in the first worker's queue. */
  ghost predicate NotStarted(s: State, tasks: seq<Task>) {
    && 0 < |s.workers| == |s.queues|
    && (forall i :: 0 <= i < |s.workers| ==> s.workers[i] == Popping)
    && (forall i :: 0 <= i < |s.queues| ==>
          s.queues[i] == NewFifo(|s.workers|).(items := if i == 0 then tasks else []))
  }

  lemma NothingGoesOn(f: Fifo, f': Fifo, ev: Event, n: nat, tasks: seq<Task>)
    requires f == NewFifo(n).(items := tasks) && FifoNext(f, f', ev) && GoesOn(ev)
    ensures f' == f
  {
  }

  lemma StepBeforeStart(s: State, s': State, act: Act, tasks: seq<Task>)
    requires |s.workers| == |s.queues| && !s.running && NotStarted(s, tasks) && Next(s, s', act) && !s'.running
    ensures NotStarted(s', tasks + if act.Scheduled? then [act.t] else [])
  {
    if QueueStep(s, s', act) {
      var q, f, ev :| 0 <= q < |s.queues| && FifoNext(s.queues[q], f, ev) && GoesOn(ev) && s' == SetQueue(s, q, f);
      NothingGoesOn(s.queues[q], f, ev, |s.workers|, if q == 0 then tasks else []);
    } else {
      assert ScheduleStep(s, s', act);
    }
  }

  lemma RunningStays(s: State, s': State, act: Act)
    requires |s.workers| == |s.queues| && Next(s, s', act) && s.running
    ensures s'.running
  {
    hide FifoNext, WakesRegistered;
    if !ScheduleStep(s, s', act) && !RunStep(s, s', act) && !QueueStep(s, s', act) {
      var j :| 0 <= j < |s.workers| && WorkerStep(s, s', j, act);
      WorkerMoves(s, s', j, act);
    }
  }

  /** Until scheff_run the scheduled tasks wait, in order, in the queue of the first worker. */
  lemma {:induction false} ScheduledInOrder(ss: seq<State>, acts: seq<Act>, n: nat)
    requires IsRun(ss, acts) && n <= |acts| && !ss[n].running
    ensures NotStarted(ss[n], ScheduledTasks(acts, n))
  {
    hide Next;
    if n == 0 {
      var k :| Init(ss[0], k);
    } else {
      assert Next(ss[n - 1], ss[n - 1 + 1], acts[n - 1]);
      if ss[n - 1].running {
        RunningStays(ss[n - 1], ss[n], acts[n - 1]);
      }
      ScheduledInOrder(ss, acts, n - 1);
      StepBeforeStart(ss[n - 1], ss[n], acts[n - 1], ScheduledTasks(acts, n - 1));
    }
  }
}
