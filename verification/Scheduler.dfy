// The work-stealing scheduler of scheduler/scheff.c over queues that refine FifoSpec.
//
// Worker i owns queue i, where it is thread 0; in the queue k places after its own it is
// thread n - k.  Each queue event, each access to `remaining_tasks` and each
// allocation or release of a task is one step; workers interleave at will.  What a task
// asks for when it is resumed is arbitrary, except that the wakers it wakes are distinct
// registered ones: each registered waker is woken once.

module Scheduler {
  import opened Options
  import opened TaskHands
  import opened FifoSpec

  datatype Pc =
    // scheff_try_get_task
    | Popping                       // about to call pop
    | PopWait
    | Stealing(k: nat)              // about to call steal on the k-th queue after its own
    | StealWait(k: nat)
    // the loop of scheff_worker_thread
    | CheckRemaining
    | Got(t: Task)
    | Running(t: Task)
    | ForkCount(t: Task)
    | ForkCreate(t: Task)
    | ForkPush(t: Task, forked: Task)
    | ForkPrio(forked: Task)
    | Sleeping(t: Task)
    | Wake(wakers: seq<Task>, t: Task, resume: bool)
    | Requeue(t: Task)
    | Finalize(t: Task)
    | FinalizeCount
    | Exited
    | Fatal

  /** What a resumed coroutine comes back with. */
  datatype Request = Return | Fork | Poll | Sleep | WakeAll(wakers: seq<Task>, resume: bool)

  /** What can be observed of a step. */
  datatype Act =
    | Quiet
    | Scheduled(t: Task)
    | Fetched(worker: nat, queue: nat, t: Task)
    | Missed(worker: nat, queue: nat)
    | ReadCounter(worker: nat)
    | PollFalse(worker: nat, t: Task)
    | Resumed(worker: nat, t: Task, polled: bool)
    | Requested(worker: nat, t: Task, req: Request)
    | Forked(worker: nat, t: Task, x: Task)
    | Slept(worker: nat, t: Task)
    | Declined(worker: nat, t: Task)
    | Freed(worker: nat, t: Task)

  /** `live` are the tasks allocated and not freed, `registered` those whose waker a client
      keeps, `paused` those whose coroutine state is PAUSED (it is so until the coroutine finishes), `polls` those with a poll
      condition; `running` tells whether scheff_run has been called. */
  datatype State = State(
    running: bool, workers: seq<Pc>, queues: seq<Fifo>, remaining: int,
    live: set<Task>, registered: set<Task>, paused: set<Task>, polls: set<Task>)

  ghost predicate Init(s: State, n: nat) {
    && 0 < n && !s.running
    && s.workers == seq(n, _ => Popping) && s.queues == seq(n, _ => NewFifo(n))
    && s.remaining == 0 && s.live == {} && s.registered == {} && s.paused == {} && s.polls == {}
  }

  function Goto(s: State, i: nat, pc: Pc): State
    requires i < |s.workers|
  {
    s.(workers := s.workers[i := pc])
  }

  function SetQueue(s: State, q: nat, f: Fifo): State
    requires q < |s.queues|
  {
    s.(queues := s.queues[q := f])
  }

  // ---------------------------------------------------------------- the steps

  /** `scheff_schedule`, which runs before the workers do. */
  ghost predicate ScheduleStep(s: State, s': State, act: Act) {
    && !s.running && 0 < |s.queues|
    && exists t, f :: t !in s.live && FifoNext(s.queues[0], f, Push(t))
         && s' == SetQueue(s, 0, f).(remaining := s.remaining + 1, live := s.live + {t}, paused := s.paused + {t})
         && act == Scheduled(t)
  }

  ghost predicate RunStep(s: State, s': State, act: Act) {
    !s.running && s' == s.(running := true) && act == Quiet
  }

  /** Neither the call nor the return of a queue operation. */
  predicate GoesOn(ev: Event) {
    !ev.Push? && !ev.PrioritySwap? && !ev.Called? && !ev.Returned?
  }

  /** A queue operation that is under way goes on. */
  ghost predicate QueueStep(s: State, s': State, act: Act) {
    && act == Quiet
    && exists q, f, ev :: 0 <= q < |s.queues| && FifoNext(s.queues[q], f, ev) && GoesOn(ev) && s' == SetQueue(s, q, f)
  }

  /** Worker i's own queue is ready for its next operation, `ev`. */
  ghost predicate Own(s: State, s': State, i: nat, ev: Event, next: Pc)
    requires i < |s.workers| == |s.queues|
  {
    exists f :: FifoNext(s.queues[i], f, ev) && s' == Goto(SetQueue(s, i, f), i, next)
  }

  /** Worker i calls steal on queue q, where it is thread `who`. */
  ghost predicate CallSteal(s: State, s': State, i: nat, q: nat, who: nat, next: Pc)
    requires i < |s.workers| == |s.queues| && q < |s.queues|
  {
    exists f :: FifoNext(s.queues[q], f, Called(who, false)) && s' == Goto(SetQueue(s, q, f), i, next)
  }

  /** Worker i's pop or steal on queue q, where it is thread `who`, returns a task or, for
      EMPTY and ABORT, none. */
  ghost predicate Fetch(s: State, s': State, i: nat, q: nat, who: nat, next: Pc, act: Act)
    requires i < |s.workers| == |s.queues| && q < |s.queues|
  {
    exists f, res: Option<Task> ::
      && FifoNext(s.queues[q], f, Returned(who, res))
      && s' == Goto(SetQueue(s, q, f), i, if res.Some? then Got(res.value) else next)
      && act == if res.Some? then Fetched(i, q, res.value) else Missed(i, q)
  }

  function AfterSteal(k: nat, n: nat): Pc {
    if k < n then Stealing(k) else CheckRemaining
  }

  /** On its way through the queues. */
  predicate Fetching(pc: Pc) {
    pc.Popping? || pc.PopWait? || pc.Stealing? || pc.StealWait?
  }

  ghost predicate GetStep(s: State, s': State, i: nat, act: Act)
    requires i < |s.workers| == |s.queues|
  {
    var n := |s.workers|;
    match s.workers[i]
    case Popping => Own(s, s', i, Called(0, true), PopWait) && act == Quiet
    case PopWait => Fetch(s, s', i, i, 0, AfterSteal(1, n), act)
    case Stealing(k) => k < n && CallSteal(s, s', i, (i + k) % n, n - k, StealWait(k)) && act == Quiet
    case StealWait(k) => k < n && Fetch(s, s', i, (i + k) % n, n - k, AfterSteal(k + 1, n), act)
    case CheckRemaining => s' == Goto(s, i, if s.remaining == 0 then Exited else Popping) && act == ReadCounter(i)
    case Got(t) =>
      if t !in s.paused then s' == Goto(s, i, Fatal) && act == Quiet      // resuming a finished coroutine
      else
        || (t in s.polls && s' == Goto(s, i, Requeue(t)) && act == PollFalse(i, t))
        || (s' == Goto(s, i, Running(t)).(polls := s.polls - {t}) && act == Resumed(i, t, t in s.polls))
    case _ => false
  }

  /** The resumed task returns or performs one of the four effects. */
  ghost predicate RequestStep(s: State, s': State, i: nat, act: Act)
    requires i < |s.workers|
  {
    && s.workers[i].Running? && act.Requested? && act.worker == i && act.t == s.workers[i].t
    && var t := act.t;
       match act.req
       case Return => s' == Goto(s, i, Finalize(t)).(paused := s.paused - {t})
       case Fork => s' == Goto(s, i, ForkCount(t))
       case Poll => s' == Goto(s, i, Requeue(t)).(polls := s.polls + {t})
       case Sleep => s' == Goto(s, i, Sleeping(t))
       case WakeAll(ws, resume) =>
         && WakesRegistered(s, ws)
         && s' == Goto(s, i, Wake(ws, t, resume)).(registered := s.registered - (set w | w in ws))
  }

  predicate WakesRegistered(s: State, ws: seq<Task>) {
    && (forall j :: 0 <= j < |ws| ==> ws[j] in s.registered)
    && (forall j, k :: 0 <= j < k < |ws| ==> ws[j] != ws[k])
  }

  ghost predicate ServeStep(s: State, s': State, i: nat, act: Act)
    requires i < |s.workers| == |s.queues|
  {
    match s.workers[i]
    case ForkCount(t) => s' == Goto(s, i, ForkCreate(t)).(remaining := s.remaining + 1) && act == Quiet
    case ForkCreate(t) =>
      exists x :: x !in s.live && s' == Goto(s, i, ForkPush(t, x)).(live := s.live + {x}, paused := s.paused + {x})
                  && act == Forked(i, t, x)
    case ForkPush(t, x) => Own(s, s', i, Push(t), ForkPrio(x)) && act == Quiet
    case ForkPrio(x) => Own(s, s', i, PrioritySwap(x), Popping) && act == Quiet
    case Sleeping(t) =>
      || (s' == Goto(s, i, Requeue(t)) && act == Declined(i, t))
      || (s' == Goto(s, i, Popping).(registered := s.registered + {t}) && act == Slept(i, t))
    case Wake(ws, t, resume) =>
      && act == Quiet
      && if ws != [] then Own(s, s', i, PrioritySwap(ws[0]), Wake(ws[1..], t, resume))
         else s' == Goto(s, i, if resume then Requeue(t) else Finalize(t))
    case Requeue(t) => Own(s, s', i, Push(t), Popping) && act == Quiet
    case Finalize(t) =>
      && act == Freed(i, t)
      && s' == Goto(s, i, FinalizeCount).(live := s.live - {t}, paused := s.paused - {t}, polls := s.polls - {t})
    case FinalizeCount => s' == Goto(s, i, Popping).(remaining := s.remaining - 1) && act == Quiet
    case _ => false
  }

  ghost predicate WorkerStep(s: State, s': State, i: nat, act: Act)
    requires i < |s.workers| == |s.queues|
  {
    s.running && (GetStep(s, s', i, act) || RequestStep(s, s', i, act) || ServeStep(s, s', i, act))
  }

  ghost predicate Next(s: State, s': State, act: Act)
    requires |s.workers| == |s.queues|
  {
    || ScheduleStep(s, s', act) || RunStep(s, s', act) || QueueStep(s, s', act)
    || exists i :: 0 <= i < |s.workers| && WorkerStep(s, s', i, act)
  }

  // -------------------------------------------------------- where the tasks are

  function One(b: bool): nat {
    if b then 1 else 0
  }

  /** How often a worker at pc holds task x. */
  function Carries(pc: Pc, x: Task): nat {
    match pc
    case Got(t) => One(t == x)
    case Running(t) => One(t == x)
    case ForkCount(t) => One(t == x)
    case ForkCreate(t) => One(t == x)
    case ForkPush(t, forked) => One(t == x) + One(forked == x)
    case ForkPrio(forked) => One(forked == x)
    case Sleeping(t) => One(t == x)
    case Wake(ws, t, _) => multiset(ws)[x] + One(t == x)
    case Requeue(t) => One(t == x)
    case Finalize(t) => One(t == x)
    case _ => 0
  }

  function WorkersHold(ws: seq<Pc>, x: Task): nat {
    if ws == [] then 0 else Carries(ws[0], x) + WorkersHold(ws[1..], x)
  }

  function QueuesHold(qs: seq<Fifo>, x: Task): nat {
    if qs == [] then 0 else Held(qs[0], x) + QueuesHold(qs[1..], x)
  }

  /** Places where x is: queues and priority slots, workers' hands, registered wakers. */
  function Places(s: State, x: Task): nat {
    QueuesHold(s.queues, x) + WorkersHold(s.workers, x) + One(x in s.registered)
  }

  /** The worker has counted a task it has yet to create, or has yet to count one off. */
  predicate Owes(pc: Pc) {
    pc.ForkCreate? || pc.FinalizeCount?
  }

  /** Tasks counted in `remaining_tasks` that do not exist yet or any more. */
  function Uncounted(ws: seq<Pc>): nat {
    if ws == [] then 0 else One(Owes(ws[0])) + Uncounted(ws[1..])
  }

  lemma {:induction false} WorkersHoldUpdate(ws: seq<Pc>, i: nat, pc: Pc, x: Task)
    requires i < |ws|
    ensures WorkersHold(ws[i := pc], x) + Carries(ws[i], x) == WorkersHold(ws, x) + Carries(pc, x)
  {
    if i == 0 {
      assert ws[i := pc][1..] == ws[1..];
    } else {
      WorkersHoldUpdate(ws[1..], i - 1, pc, x);
      assert ws[i := pc][1..] == ws[1..][i - 1 := pc];
    }
  }

  lemma {:induction false} QueuesHoldUpdate(qs: seq<Fifo>, q: nat, f: Fifo, x: Task)
    requires q < |qs|
    ensures QueuesHold(qs[q := f], x) + Held(qs[q], x) == QueuesHold(qs, x) + Held(f, x)
  {
    if q == 0 {
      assert qs[q := f][1..] == qs[1..];
    } else {
      QueuesHoldUpdate(qs[1..], q - 1, f, x);
      assert qs[q := f][1..] == qs[1..][q - 1 := f];
    }
  }

  lemma {:induction false} UncountedUpdate(ws: seq<Pc>, i: nat, pc: Pc)
    requires i < |ws|
    ensures Uncounted(ws[i := pc]) + One(Owes(ws[i])) == Uncounted(ws) + One(Owes(pc))
  {
    if i == 0 {
      assert ws[i := pc][1..] == ws[1..];
    } else {
      UncountedUpdate(ws[1..], i - 1, pc);
      assert ws[i := pc][1..] == ws[1..][i - 1 := pc];
    }
  }

  lemma {:induction false} HeldBySome(ws: seq<Pc>, i: nat, x: Task)
    requires i < |ws|
    ensures Carries(ws[i], x) <= WorkersHold(ws, x)
  {
    if i > 0 {
      HeldBySome(ws[1..], i - 1, x);
    }
  }

  lemma {:induction false} HeldByTwo(ws: seq<Pc>, i: nat, j: nat, x: Task)
    requires i < |ws| && j < |ws| && i != j
    ensures Carries(ws[i], x) + Carries(ws[j], x) <= WorkersHold(ws, x)
  {
    if i == 0 {
      HeldBySome(ws[1..], j - 1, x);
    } else if j == 0 {
      HeldBySome(ws[1..], i - 1, x);
    } else {
      HeldByTwo(ws[1..], i - 1, j - 1, x);
    }
  }

  lemma {:induction false} IdleWorkersHold(k: nat, x: Task)
    ensures WorkersHold(seq(k, _ => Popping), x) == 0 && Uncounted(seq(k, _ => Popping)) == 0
  {
    if k > 0 {
      IdleWorkersHold(k - 1, x);
      assert seq(k, _ => Popping)[1..] == seq(k - 1, _ => Popping);
    }
  }

  lemma {:induction false} NewQueuesHold(n: nat, k: nat, x: Task)
    ensures QueuesHold(seq(k, _ => NewFifo(n)), x) == 0
  {
    if k > 0 {
      NoHands(NewFifo(n).hands, x);
      NewQueuesHold(n, k - 1, x);
      assert seq(k, _ => NewFifo(n))[1..] == seq(k - 1, _ => NewFifo(n));
    }
  }

  // ------------------------------------------------------------ the invariant

  /** Every live task is in exactly one place, every other nowhere. */
  ghost predicate Placed(s: State) {
    forall x :: Places(s, x) == One(x in s.live)
  }

  /** A coroutine that has finished is about to be freed by its worker. */
  ghost predicate PausedOk(s: State) {
    forall x :: x in s.live && x !in s.paused ==> exists i :: 0 <= i < |s.workers| && s.workers[i] == Finalize(x)
  }

  ghost predicate Inv(s: State) {
    && |s.workers| == |s.queues|
    && Placed(s) && PausedOk(s)
    && s.remaining == |s.live| + Uncounted(s.workers)
    && forall i :: 0 <= i < |s.workers| ==>
         (s.workers[i].Exited? ==> s.running && s.remaining == 0) && !s.workers[i].Fatal?
  }

  lemma InitHolds(s: State, n: nat)
    requires Init(s, n)
    ensures Inv(s)
  {
    forall x
      ensures Places(s, x) == 0
    {
      IdleWorkersHold(n, x);
      NewQueuesHold(n, n, x);
    }
    IdleWorkersHold(n, 0);
  }

  // ------------------------------------------------- steps move tasks, one by one

  lemma LocalPlaces(s: State, i: nat, pc: Pc, x: Task)
    requires i < |s.workers|
    ensures Places(Goto(s, i, pc), x) + Carries(s.workers[i], x) == Places(s, x) + Carries(pc, x)
  {
    WorkersHoldUpdate(s.workers, i, pc, x);
  }

  lemma FetchPlaces(s: State, s': State, i: nat, q: nat, who: nat, next: Pc, act: Act, x: Task)
    requires i < |s.workers| == |s.queues| && q < |s.queues| && Fetch(s, s', i, q, who, next, act)
    requires Carries(s.workers[i], x) == 0 == Carries(next, x)
    ensures Places(s', x) == Places(s, x) && s'.live == s.live
  {
    hide FifoNext, Held;
    var f, res: Option<Task> :|
      && FifoNext(s.queues[q], f, Returned(who, res))
      && s' == Goto(SetQueue(s, q, f), i, if res.Some? then Got(res.value) else next)
      && act == if res.Some? then Fetched(i, q, res.value) else Missed(i, q);
    StepConserves(s.queues[q], f, Returned(who, res), x);
    QueuesHoldUpdate(s.queues, q, f, x);
    WorkersHoldUpdate(s.workers, i, s'.workers[i], x);
  }

  lemma CallStealPlaces(s: State, s': State, i: nat, q: nat, who: nat, next: Pc, x: Task)
    requires i < |s.workers| == |s.queues| && q < |s.queues| && CallSteal(s, s', i, q, who, next)
    requires Carries(s.workers[i], x) == 0 == Carries(next, x)
    ensures Places(s', x) == Places(s, x) && s'.live == s.live
  {
    hide FifoNext, Held;
    var f :| FifoNext(s.queues[q], f, Called(who, false)) && s' == Goto(SetQueue(s, q, f), i, next);
    StepConserves(s.queues[q], f, Called(who, false), x);
    QueuesHoldUpdate(s.queues, q, f, x);
    WorkersHoldUpdate(s.workers, i, next, x);
  }

  lemma OwnPlaces(s: State, s': State, i: nat, ev: Event, next: Pc, x: Task)
    requires i < |s.workers| == |s.queues| && Own(s, s', i, ev, next) && !ev.Returned?
    ensures Places(s', x) + Carries(s.workers[i], x) == Places(s, x) + PushedBy(ev, x) + Carries(next, x)
    ensures s'.live == s.live
  {
    hide FifoNext, Held;
    var f :| FifoNext(s.queues[i], f, ev) && s' == Goto(SetQueue(s, i, f), i, next);
    StepConserves(s.queues[i], f, ev, x);
    QueuesHoldUpdate(s.queues, i, f, x);
    WorkersHoldUpdate(s.workers, i, next, x);
  }

  /** Whoever a worker holds is live. */
  lemma HeldIsLive(s: State, i: nat, x: Task)
    requires Placed(s) && i < |s.workers| && 0 < Carries(s.workers[i], x)
    ensures x in s.live && x !in s.registered && Carries(s.workers[i], x) == 1
    ensures WorkersHold(s.workers, x) == 1 && QueuesHold(s.queues, x) == 0
  {
    HeldBySome(s.workers, i, x);
    assert Places(s, x) == One(x in s.live);
  }

  /** No two workers hold the same task. */
  lemma HeldOnce(s: State, i: nat, j: nat, x: Task)
    requires Placed(s) && i < |s.workers| && j < |s.workers| && i != j && 0 < Carries(s.workers[i], x)
    ensures Carries(s.workers[j], x) == 0
  {
    HeldIsLive(s, i, x);
    HeldByTwo(s.workers, i, j, x);
  }

  /** A task taken from a queue is paused: the fatal error is never reported. */
  lemma GotIsPaused(s: State, i: nat)
    requires Inv(s) && i < |s.workers| && s.workers[i].Got?
    ensures s.workers[i].t in s.paused
  {
    var t := s.workers[i].t;
    HeldIsLive(s, i, t);
    if t !in s.paused {
      var j :| 0 <= j < |s.workers| && s.workers[j] == Finalize(t);
      HeldOnce(s, i, j, t);
    }
  }

  // --------------------------------------------- every task stays in one place

  lemma GetPlaces(s: State, s': State, i: nat, act: Act, x: Task)
    requires i < |s.workers| == |s.queues| && GetStep(s, s', i, act)
    requires s.workers[i].Got? ==> s.workers[i].t in s.paused
    ensures Places(s', x) == Places(s, x) && s'.live == s.live
  {
    hide Places, Fetch, Own, CallSteal;
    var pc, n := s.workers[i], |s.workers|;
    if pc.Popping? {
      OwnPlaces(s, s', i, Called(0, true), PopWait, x);
    } else if pc.PopWait? {
      FetchPlaces(s, s', i, i, 0, AfterSteal(1, n), act, x);
    } else if pc.Stealing? {
      CallStealPlaces(s, s', i, (i + pc.k) % n, n - pc.k, StealWait(pc.k), x);
    } else if pc.StealWait? {
      FetchPlaces(s, s', i, (i + pc.k) % n, n - pc.k, AfterSteal(pc.k + 1, n), act, x);
    } else {
      LocalPlaces(s, i, s'.workers[i], x);
      SamePlaces(s', Goto(s, i, s'.workers[i]), x);
    }
  }

  lemma SamePlaces(s: State, s': State, x: Task)
    requires s.workers == s'.workers && s.queues == s'.queues && s.registered == s'.registered
    ensures Places(s, x) == Places(s', x)
  {
  }

  lemma WakeRequestPlaces(s: State, ws: seq<Task>, x: Task)
    requires WakesRegistered(s, ws)
    ensures multiset(ws)[x] + One(x in s.registered - (set w | w in ws)) == One(x in s.registered)
  {
    DistinctOnce(ws, x);
  }

  lemma {:induction false} DistinctOnce(ws: seq<Task>, x: Task)
    requires forall j, k :: 0 <= j < k < |ws| ==> ws[j] != ws[k]
    ensures multiset(ws)[x] == One(x in ws)
  {
    if ws != [] {
      assert ws == [ws[0]] + ws[1..];
      DistinctOnce(ws[1..], x);
    }
  }

  lemma RequestShape(s: State, s': State, i: nat, act: Act, x: Task)
    requires i < |s.workers| && RequestStep(s, s', i, act)
    ensures s'.queues == s.queues && s'.live == s.live && s'.workers == s.workers[i := s'.workers[i]]
    ensures var pc' := s'.workers[i];
            if pc'.Wake? then
              && pc'.t == s.workers[i].t && WakesRegistered(s, pc'.wakers)
              && s'.registered == s.registered - (set w | w in pc'.wakers)
            else s'.registered == s.registered && Carries(pc', x) == Carries(s.workers[i], x)
  {
    hide WakesRegistered;
  }

  lemma RequestPlaces(s: State, s': State, i: nat, act: Act, x: Task)
    requires i < |s.workers| && RequestStep(s, s', i, act)
    ensures Places(s', x) == Places(s, x) && s'.live == s.live
  {
    RequestShape(s, s', i, act, x);
    LocalPlaces(s, i, s'.workers[i], x);
    if s'.workers[i].Wake? {
      WakeRequestPlaces(s, s'.workers[i].wakers, x);
    }
    hide RequestStep, WakesRegistered;
  }

  lemma QueueServePlaces(s: State, s': State, i: nat, act: Act, x: Task)
    requires i < |s.workers| == |s.queues| && ServeStep(s, s', i, act)
    requires var pc := s.workers[i]; pc.ForkPush? || pc.ForkPrio? || pc.Requeue? || (pc.Wake? && pc.wakers != [])
    ensures Places(s', x) == Places(s, x) && s'.live == s.live
  {
    hide Places, FifoNext;
    var pc := s.workers[i];
    if pc.ForkPush? {
      OwnPlaces(s, s', i, Push(pc.t), ForkPrio(pc.forked), x);
    } else if pc.ForkPrio? {
      OwnPlaces(s, s', i, PrioritySwap(pc.forked), Popping, x);
    } else if pc.Wake? {
      OwnPlaces(s, s', i, PrioritySwap(pc.wakers[0]), Wake(pc.wakers[1..], pc.t, pc.resume), x);
      assert pc.wakers == [pc.wakers[0]] + pc.wakers[1..];
    } else {
      OwnPlaces(s, s', i, Push(pc.t), Popping, x);
    }
  }

  /** A task that goes to sleep moves from the worker's hands to its waker or stays. */
  lemma SleepPlaces(s: State, s': State, i: nat, act: Act, x: Task)
    requires Placed(s) && i < |s.workers| == |s.queues| && s.workers[i].Sleeping? && ServeStep(s, s', i, act)
    ensures Places(s', x) == Places(s, x) && s'.live == s.live
  {
    HeldIsLive(s, i, s.workers[i].t);
    hide Placed;
    LocalPlaces(s, i, s'.workers[i], x);
  }

  predicate ServesLocally(pc: Pc) {
    pc.ForkCount? || pc.ForkCreate? || pc.Finalize? || pc.FinalizeCount? || (pc.Wake? && pc.wakers == [])
  }

  lemma LocalServeHolds(s: State, s': State, i: nat, act: Act, x: Task)
    requires i < |s.workers| == |s.queues| && ServeStep(s, s', i, act) && ServesLocally(s.workers[i])
    requires s.workers[i].Finalize? ==> s.workers[i].t in s.live
    ensures s'.queues == s.queues && s'.registered == s.registered && s'.workers == s.workers[i := s'.workers[i]]
    ensures Carries(s'.workers[i], x) + One(x in s.live) == Carries(s.workers[i], x) + One(x in s'.live)
  {
    hide Own;
  }

  /** The other steps leave x where it is, or create or free it. */
  lemma LocalServePlaces(s: State, s': State, i: nat, act: Act, x: Task)
    requires Placed(s) && i < |s.workers| == |s.queues| && ServeStep(s, s', i, act) && ServesLocally(s.workers[i])
    ensures Places(s', x) + One(x in s.live) == Places(s, x) + One(x in s'.live)
  {
    if s.workers[i].Finalize? {
      HeldIsLive(s, i, s.workers[i].t);
    }
    LocalServeHolds(s, s', i, act, x);
    hide Places, Placed, ServeStep, Carries;
    LocalPlaces(s, i, s'.workers[i], x);
    SamePlaces(s', Goto(s, i, s'.workers[i]), x);
  }

  // -------------------------------------------------- coroutines that have finished

  /** Worker i moves; whatever has finished is at worker i, or was and is elsewhere. */
  lemma PausedKeeps(s: State, s': State, i: nat)
    requires PausedOk(s) && i < |s.workers| == |s'.workers|
    requires forall j :: 0 <= j < |s.workers| && j != i ==> s'.workers[j] == s.workers[j]
    requires forall x :: x in s'.live && x !in s'.paused ==>
               s'.workers[i] == Finalize(x) || (x in s.live && x !in s.paused && s.workers[i] != Finalize(x))
    ensures PausedOk(s')
  {
    forall x | x in s'.live && x !in s'.paused
      ensures exists j :: 0 <= j < |s'.workers| && s'.workers[j] == Finalize(x)
    {
      if s'.workers[i] != Finalize(x) {
        var j :| 0 <= j < |s.workers| && s.workers[j] == Finalize(x);
        assert s'.workers[j] == Finalize(x);
      }
    }
  }

  /** No step but the worker's own changes the other workers. */
  lemma WorkerMoves(s: State, s': State, i: nat, act: Act)
    requires i < |s.workers| == |s.queues| && WorkerStep(s, s', i, act)
    ensures |s'.workers| == |s'.queues| == |s.workers| && s'.running == s.running
    ensures s'.workers == s.workers[i := s'.workers[i]]
  {
    hide FifoNext, WakesRegistered;
  }

  lemma WorkerPaused(s: State, s': State, i: nat, act: Act)
    requires PausedOk(s) && i < |s.workers| == |s.queues| && WorkerStep(s, s', i, act)
    ensures PausedOk(s')
  {
    hide PausedOk, GetStep, RequestStep, ServeStep;
    WorkerMoves(s, s', i, act);
    if ServeStep(s, s', i, act) {
      ServeFinishes(s, s', i, act);
    } else {
      OthersFinish(s, s', i, act);
    }
    PausedKeeps(s, s', i);
  }

  lemma ServeFinishes(s: State, s': State, i: nat, act: Act)
    requires i < |s.workers| == |s.queues| && ServeStep(s, s', i, act)
    ensures i < |s'.workers|
    ensures forall x :: x in s'.live && x !in s'.paused ==>
              s'.workers[i] == Finalize(x) || (x in s.live && x !in s.paused && s.workers[i] != Finalize(x))
  {
    hide FifoNext;
  }

  lemma OthersFinish(s: State, s': State, i: nat, act: Act)
    requires i < |s.workers| == |s.queues| && (GetStep(s, s', i, act) || RequestStep(s, s', i, act))
    ensures i < |s'.workers|
    ensures forall x :: x in s'.live && x !in s'.paused ==>
              s'.workers[i] == Finalize(x) || (x in s.live && x !in s.paused && s.workers[i] != Finalize(x))
  {
    hide FifoNext, WakesRegistered;
  }

  // ------------------------------------------------------------ the counter of live tasks

  lemma {:induction false} UncountedSome(ws: seq<Pc>, i: nat)
    requires i < |ws| && Owes(ws[i])
    ensures 0 < Uncounted(ws)
  {
    if i > 0 {
      UncountedSome(ws[1..], i - 1);
    }
  }

  /** While a worker has a task or has yet to count one off, the counter is positive. */
  lemma BusyMeansPositive(s: State, i: nat, x: Task)
    requires Inv(s) && i < |s.workers| && (0 < Carries(s.workers[i], x) || s.workers[i].FinalizeCount?)
    ensures 0 < s.remaining
  {
    if s.workers[i].FinalizeCount? {
      UncountedSome(s.workers, i);
    } else {
      HeldIsLive(s, i, x);
      assert {x} <= s.live;
      assert |{x}| <= |s.live| by { Subset({x}, s.live); }
    }
  }

  lemma {:induction false} Subset(a: set<Task>, b: set<Task>)
    requires a <= b
    ensures |a| <= |b|
  {
    if a != {} {
      var x :| x in a;
      Subset(a - {x}, b - {x});
    }
  }

  lemma QueueServeCounts(s: State, s': State, i: nat, act: Act)
    requires i < |s.workers| == |s.queues| && ServeStep(s, s', i, act)
    requires !ServesLocally(s.workers[i]) && !s.workers[i].Sleeping?
    ensures i < |s'.workers| && s'.remaining == s.remaining && s'.live == s.live
    ensures !Owes(s.workers[i]) && !Owes(s'.workers[i])
  {
    hide FifoNext;
  }

  lemma MemberCounts(live: set<Task>, x: Task)
    ensures x !in live ==> |live + {x}| == |live| + 1
    ensures x in live ==> |live - {x}| == |live| - 1
  {
  }

  lemma SetServeCounts(s: State, s': State, i: nat, act: Act)
    requires i < |s.workers| == |s.queues| && ServeStep(s, s', i, act)
    requires s.workers[i].ForkCreate? || (s.workers[i].Finalize? && s.workers[i].t in s.live)
    ensures i < |s'.workers|
    ensures s'.remaining - |s'.live| - One(Owes(s'.workers[i])) == s.remaining - |s.live| - One(Owes(s.workers[i]))
  {
    hide Own;
    MemberCounts(s.live, if s.workers[i].ForkCreate? then act.x else s.workers[i].t);
  }

  lemma LocalServeCounts(s: State, s': State, i: nat, act: Act)
    requires i < |s.workers| == |s.queues| && ServeStep(s, s', i, act)
    requires ServesLocally(s.workers[i]) || s.workers[i].Sleeping?
    requires !s.workers[i].ForkCreate? && !s.workers[i].Finalize?
    ensures i < |s'.workers|
    ensures s'.live == s.live
    ensures s'.remaining - One(Owes(s'.workers[i])) == s.remaining - One(Owes(s.workers[i]))
  {
    hide Own;
  }

  lemma OthersCount(s: State, s': State, i: nat, act: Act)
    requires i < |s.workers| == |s.queues| && (GetStep(s, s', i, act) || RequestStep(s, s', i, act))
    ensures s'.remaining == s.remaining && s'.live == s.live && i < |s'.workers|
    ensures !Owes(s.workers[i]) && !Owes(s'.workers[i])
  {
    hide FifoNext, WakesRegistered;
  }

  lemma WorkerCounts(s: State, s': State, i: nat, act: Act)
    requires Placed(s) && i < |s.workers| == |s.queues| && WorkerStep(s, s', i, act)
    ensures s'.remaining - |s'.live| - Uncounted(s'.workers) == s.remaining - |s.live| - Uncounted(s.workers)
  {
    if s.workers[i].Finalize? {
      HeldIsLive(s, i, s.workers[i].t);
    }
    WorkerMoves(s, s', i, act);
    UncountedUpdate(s.workers, i, s'.workers[i]);
    hide Placed, ServeStep;
    if ServeStep(s, s', i, act) {
      if s.workers[i].ForkCreate? || s.workers[i].Finalize? {
        SetServeCounts(s, s', i, act);
      } else if ServesLocally(s.workers[i]) || s.workers[i].Sleeping? {
        LocalServeCounts(s, s', i, act);
      } else {
        QueueServeCounts(s, s', i, act);
      }
    } else {
      OthersCount(s, s', i, act);
    }
  }

  lemma WorkerExits(s: State, s': State, i: nat, act: Act)
    requires Inv(s) && i < |s.workers| == |s.queues| && WorkerStep(s, s', i, act)
    ensures forall j :: 0 <= j < |s'.workers| ==>
              (s'.workers[j].Exited? ==> s'.running && s'.remaining == 0) && !s'.workers[j].Fatal?
  {
    var pc := s.workers[i];
    WorkerMoves(s, s', i, act);
    if pc.ForkCount? {
      BusyMeansPositive(s, i, pc.t);
    } else if pc.FinalizeCount? {
      BusyMeansPositive(s, i, 0);
    } else if pc.Got? {
      GotIsPaused(s, i);
    }
    hide Placed, PausedOk;
    ExitsOnZero(s, s', i, act);
  }

  lemma ExitsOnZero(s: State, s': State, i: nat, act: Act)
    requires i < |s.workers| == |s.queues| && WorkerStep(s, s', i, act)
    ensures s.running && i < |s'.workers|
    ensures s.workers[i].ForkCount? || s.workers[i].FinalizeCount? || s'.remaining == s.remaining
    ensures s'.workers[i].Exited? ==> s'.remaining == 0
    ensures s'.workers[i].Fatal? ==> s.workers[i].Got? && s.workers[i].t !in s.paused
  {
    hide GetStep, RequestStep, ServeStep;
    if ServeStep(s, s', i, act) {
      ServesOn(s, s', i, act);
    } else if RequestStep(s, s', i, act) {
      RequestsOn(s, s', i, act);
    } else {
      GetsOn(s, s', i, act);
    }
  }

  lemma ServesOn(s: State, s': State, i: nat, act: Act)
    requires i < |s.workers| == |s.queues| && ServeStep(s, s', i, act)
    ensures i < |s'.workers| && !s'.workers[i].Exited? && !s'.workers[i].Fatal?
    ensures s.workers[i].ForkCount? || s.workers[i].FinalizeCount? || s'.remaining == s.remaining
  {
    hide FifoNext;
  }

  lemma RequestsOn(s: State, s': State, i: nat, act: Act)
    requires i < |s.workers| == |s.queues| && RequestStep(s, s', i, act)
    ensures i < |s'.workers| && !s'.workers[i].Exited? && !s'.workers[i].Fatal? && s'.remaining == s.remaining
  {
    hide WakesRegistered;
  }

  lemma GetsOn(s: State, s': State, i: nat, act: Act)
    requires i < |s.workers| == |s.queues| && GetStep(s, s', i, act)
    ensures i < |s'.workers| && s'.remaining == s.remaining
    ensures s'.workers[i].Exited? ==> s'.remaining == 0
    ensures s'.workers[i].Fatal? ==> s.workers[i].Got? && s.workers[i].t !in s.paused
  {
    hide FifoNext;
  }

  // --------------------------------------------------------------- preservation

  lemma WorkerPlaced(s: State, s': State, i: nat, act: Act)
    requires Inv(s) && i < |s.workers| && WorkerStep(s, s', i, act)
    ensures Placed(s')
  {
    if s.workers[i].Got? {
      GotIsPaused(s, i);
    }
    forall x
      ensures Places(s', x) == One(x in s'.live)
    {
      assert Places(s, x) == One(x in s.live);
      hide GetStep, RequestStep, ServeStep, Places;
      if GetStep(s, s', i, act) {
        GetPlaces(s, s', i, act, x);
      } else if RequestStep(s, s', i, act) {
        RequestPlaces(s, s', i, act, x);
      } else if var pc := s.workers[i]; pc.ForkPush? || pc.ForkPrio? || pc.Requeue? || (pc.Wake? && pc.wakers != []) {
        QueueServePlaces(s, s', i, act, x);
      } else if s.workers[i].Sleeping? {
        SleepPlaces(s, s', i, act, x);
      } else {
        LocalServePlaces(s, s', i, act, x);
      }
    }
  }

  lemma QueuePlaced(s: State, s': State, act: Act)
    requires Placed(s) && QueueStep(s, s', act)
    ensures Placed(s')
  {
    var q, f, ev :| 0 <= q < |s.queues| && FifoNext(s.queues[q], f, ev) && GoesOn(ev) && s' == SetQueue(s, q, f);
    forall x
      ensures Places(s', x) == One(x in s'.live)
    {
      assert Places(s, x) == One(x in s.live);
      StepConserves(s.queues[q], f, ev, x);
      hide FifoNext, Held;
      QueuesHoldUpdate(s.queues, q, f, x);
    }
  }

  lemma SchedulePlaced(s: State, s': State, act: Act)
    requires Placed(s) && ScheduleStep(s, s', act)
    ensures Placed(s')
  {
    var t, f :| t !in s.live && FifoNext(s.queues[0], f, Push(t))
      && s' == SetQueue(s, 0, f).(remaining := s.remaining + 1, live := s.live + {t}, paused := s.paused + {t})
      && act == Scheduled(t);
    forall x
      ensures Places(s', x) == One(x in s'.live)
    {
      assert Places(s, x) == One(x in s.live);
      StepConserves(s.queues[0], f, Push(t), x);
      hide FifoNext, Held;
      QueuesHoldUpdate(s.queues, 0, f, x);
    }
  }

  lemma ScheduleKeeps(s: State, s': State, act: Act)
    requires Inv(s) && ScheduleStep(s, s', act)
    ensures Inv(s')
  {
    SchedulePlaced(s, s', act);
    hide Placed, FifoNext;
  }

  lemma QueueKeeps(s: State, s': State, act: Act)
    requires Inv(s) && QueueStep(s, s', act)
    ensures Inv(s')
  {
    QueuePlaced(s, s', act);
    hide Placed, FifoNext;
  }

  lemma RunStepKeeps(s: State, s': State, act: Act)
    requires Inv(s) && RunStep(s, s', act)
    ensures Inv(s')
  {
    assert forall x :: Places(s', x) == Places(s, x);
  }

  lemma WorkerKeeps(s: State, s': State, i: nat, act: Act)
    requires Inv(s) && i < |s.workers| && WorkerStep(s, s', i, act)
    ensures Inv(s')
  {
    hide WorkerStep;
    WorkerPlaced(s, s', i, act);
    WorkerPaused(s, s', i, act);
    WorkerCounts(s, s', i, act);
    WorkerExits(s, s', i, act);
    WorkerMoves(s, s', i, act);
    hide Placed, PausedOk;
  }

  lemma SameNumber(s: State)
    requires Inv(s)
    ensures |s.workers| == |s.queues|
  {
  }

  lemma StepKeeps(s: State, s': State, act: Act)
    requires Inv(s) && Next(s, s', act)
    ensures Inv(s')
  {
    hide Inv, ScheduleStep, QueueStep, RunStep, WorkerStep;
    SameNumber(s);
    if ScheduleStep(s, s', act) {
      ScheduleKeeps(s, s', act);
    } else if QueueStep(s, s', act) {
      QueueKeeps(s, s', act);
    } else if RunStep(s, s', act) {
      RunStepKeeps(s, s', act);
    } else {
      var i :| 0 <= i < |s.workers| && WorkerStep(s, s', i, act);
      WorkerKeeps(s, s', i, act);
    }
  }

  ghost predicate IsRun(ss: seq<State>, acts: seq<Act>) {
    && |ss| == |acts| + 1 && (exists n :: Init(ss[0], n))
    && forall k :: 0 <= k < |acts| ==> |ss[k].workers| == |ss[k].queues| && Next(ss[k], ss[k + 1], acts[k])
  }

  lemma {:induction false} RunKeeps(ss: seq<State>, acts: seq<Act>, n: nat)
    requires IsRun(ss, acts) && n < |ss|
    ensures Inv(ss[n])
  {
    if n == 0 {
      var k :| Init(ss[0], k);
      InitHolds(ss[0], k);
    } else {
      RunKeeps(ss, acts, n - 1);
      assert Next(ss[n - 1], ss[n - 1 + 1], acts[n - 1]);
      StepKeeps(ss[n - 1], ss[n], acts[n - 1]);
    }
  }

  // ---------------------------------------------------------------- the theorems

  /** Each live task is in exactly one place, a freed or unknown one in none. */
  lemma OnePlaceEach(ss: seq<State>, acts: seq<Act>, n: nat, x: Task)
    requires IsRun(ss, acts) && n < |ss|
    ensures QueuesHold(ss[n].queues, x) + WorkersHold(ss[n].workers, x) + One(x in ss[n].registered)
            == if x in ss[n].live then 1 else 0
  {
    RunKeeps(ss, acts, n);
    assert Places(ss[n], x) == One(x in ss[n].live);
  }

  /** The counter never falls below the number of live tasks. */
  lemma CounterCovers(ss: seq<State>, acts: seq<Act>, n: nat)
    requires IsRun(ss, acts) && n < |ss|
    ensures |ss[n].live| <= ss[n].remaining
  {
    RunKeeps(ss, acts, n);
  }

  /** A resumed task is live, nobody else has it, and the fatal error never happens. */
  lemma ResumesAreSafe(ss: seq<State>, acts: seq<Act>, n: nat, i: nat, j: nat)
    requires IsRun(ss, acts) && n < |ss| && i < |ss[n].workers| && j < |ss[n].workers|
    ensures !ss[n].workers[i].Fatal?
    ensures ss[n].workers[i].Running? ==>
              var t := ss[n].workers[i].t;
              t in ss[n].live && t !in ss[n].registered && QueuesHold(ss[n].queues, t) == 0
              && (i != j ==> Carries(ss[n].workers[j], t) == 0)
    ensures ss[n].workers[i].Got? ==> ss[n].workers[i].t in ss[n].live && ss[n].workers[i].t in ss[n].paused
  {
    RunKeeps(ss, acts, n);
    var s := ss[n];
    if s.workers[i].Running? {
      HeldIsLive(s, i, s.workers[i].t);
      if i != j {
        HeldOnce(s, i, j, s.workers[i].t);
      }
    } else if s.workers[i].Got? {
      HeldIsLive(s, i, s.workers[i].t);
      GotIsPaused(s, i);
    }
  }

  lemma {:induction false} ExitedStays(ss: seq<State>, acts: seq<Act>, n: nat, m: nat, i: nat)
    requires IsRun(ss, acts) && n <= m < |ss| && i < |ss[n].workers| && ss[n].workers[i].Exited?
    ensures i < |ss[m].workers| && ss[m].workers[i].Exited?
  {
    if n < m {
      ExitedStays(ss, acts, n, m - 1, i);
      hide Next, Init;
      assert Next(ss[m - 1], ss[m - 1 + 1], acts[m - 1]);
      ExitedStep(ss[m - 1], ss[m], i, acts[m - 1]);
    }
  }

  lemma ExitedStep(s: State, s': State, i: nat, act: Act)
    requires |s.workers| == |s.queues| && Next(s, s', act) && i < |s.workers| && s.workers[i].Exited?
    ensures i < |s'.workers| && s'.workers[i].Exited?
  {
    hide FifoNext, WakesRegistered;
    if !ScheduleStep(s, s', act) && !QueueStep(s, s', act) && !RunStep(s, s', act) {
      var j :| 0 <= j < |s.workers| && WorkerStep(s, s', j, act);
      WorkerMoves(s, s', j, act);
    }
  }

  /** A worker that exits abandons nothing: from then on there is no task in any queue,
      in anybody's hands or asleep, and nobody is about to create one. */
  lemma ExitAbandonsNothing(ss: seq<State>, acts: seq<Act>, n: nat, m: nat, i: nat, j: nat, x: Task)
    requires IsRun(ss, acts) && n <= m < |ss| && i < |ss[n].workers| && ss[n].workers[i].Exited?
    requires j < |ss[m].workers|
    ensures ss[m].live == {} && ss[m].registered == {} && Places(ss[m], x) == 0
    ensures Carries(ss[m].workers[j], x) == 0 && !ss[m].workers[j].ForkCreate?
  {
    ExitedStays(ss, acts, n, m, i);
    RunKeeps(ss, acts, m);
    var s := ss[m];
    assert s.live == {};
    assert forall y :: y in s.registered ==> 0 < Places(s, y) == One(y in s.live);
    assert Places(s, x) == One(x in s.live);
    HeldBySome(s.workers, j, x);
    if s.workers[j].ForkCreate? {
      UncountedSome(s.workers, j);
    }
  }
}
