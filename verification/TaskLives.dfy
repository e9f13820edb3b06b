// What becomes of each task of the scheduler, told by what its coroutine last asked for.
//
// `After` and `Legal` know nothing of workers and queues: they are the life of a task as
// scheduler/scheff.h promises it to clients.  Along every run every act is legal.

module TaskLives {
  import opened Options
  import opened TaskHands
  import opened FifoSpec
  import opened Scheduler

  /** Ready to run, running, having asked for something that is not settled, or asleep. */
  datatype Life = Ready | Active | Asked(req: Request) | Asleep

  predicate AskedWake(l: Life, resume: bool) {
    l.Asked? && l.req.WakeAll? && l.req.resume == resume
  }

  /** A coroutine is resumed when it is ready, when the condition it polls has come true, or
      after it has woken others and asked to go on. */
  predicate MayResume(l: Life, polled: bool) {
    if polled then l == Asked(Poll) else l == Ready || AskedWake(l, true)
  }

  /** A task ends when its coroutine has returned, or has woken others and asked not to go on. */
  predicate MayLeave(l: Life) {
    l == Asked(Return) || AskedWake(l, false)
  }

  predicate Legal(lives: map<Task, Life>, act: Act) {
    match act
    case Scheduled(t) => t !in lives
    case Fetched(_, _, t) => t in lives && (MayResume(lives[t], false) || MayResume(lives[t], true))
    case PollFalse(_, t) => t in lives && lives[t] == Asked(Poll)
    case Resumed(_, t, polled) => t in lives && MayResume(lives[t], polled)
    case Requested(_, t, req) =>
      && t in lives && lives[t] == Active
      && (req.WakeAll? ==> forall w :: w in req.wakers ==> w in lives && lives[w] == Asleep)
    case Forked(_, t, x) => t in lives && lives[t] == Asked(Fork) && x !in lives
    case Slept(_, t) => t in lives && lives[t] == Asked(Sleep)
    case Declined(_, t) => t in lives && lives[t] == Asked(Sleep)
    case Freed(_, t) => t in lives && MayLeave(lives[t])
    case _ => true
  }

  /** The woken tasks are ready. */
  function Woken(lives: map<Task, Life>, ws: seq<Task>): map<Task, Life> {
    map x | x in lives :: if x in ws then Ready else lives[x]
  }

  function After(lives: map<Task, Life>, act: Act): map<Task, Life> {
    match act
    case Scheduled(t) => lives[t := Ready]
    case Resumed(_, t, _) => lives[t := Active]
    case Requested(_, t, req) => Woken(lives[t := Asked(req)], if req.WakeAll? then req.wakers else [])
    case Forked(_, t, x) => lives[t := Ready][x := Ready]
    case Slept(_, t) => lives[t := Asleep]
    case Declined(_, t) => lives[t := Ready]
    case Freed(_, t) => lives - {t}
    case _ => lives
  }

  /** The tasks that exist after n acts, and how they live. */
  function Lives(acts: seq<Act>, n: nat): map<Task, Life>
    requires n <= |acts|
  {
    if n == 0 then map[] else After(Lives(acts, n - 1), acts[n - 1])
  }

  // ------------------------------------------- where tasks are, by how they live

  predicate Queueable(l: Life) {
    MayResume(l, false) || MayResume(l, true)
  }

  /** If a worker at pc holds x, x lives as that program point wants it to. */
  predicate PcOk(pc: Pc, l: Life, x: Task) {
    match pc
    case Got(t) => t == x ==> Queueable(l)
    case Running(t) => t == x ==> l == Active
    case ForkCount(t) => t == x ==> l == Asked(Fork)
    case ForkCreate(t) => t == x ==> l == Asked(Fork)
    case ForkPush(t, forked) => t == x || forked == x ==> l == Ready
    case ForkPrio(forked) => forked == x ==> l == Ready
    case Sleeping(t) => t == x ==> l == Asked(Sleep)
    case Wake(ws, t, resume) => (t == x ==> AskedWake(l, resume)) && (x in ws ==> l == Ready)
    case Requeue(t) => t == x ==> Queueable(l)
    case Finalize(t) => t == x ==> MayLeave(l)
    case _ => true
  }

  predicate FlagsOk(s: State, l: Life, x: Task) {
    && (x in s.registered <==> l == Asleep)
    && (x in s.polls <==> l == Asked(Poll))
    && (x in s.paused <==> l != Asked(Return))
  }

  ghost predicate LifeOk(s: State, l: Life, x: Task) {
    && FlagsOk(s, l, x)
    && (0 < QueuesHold(s.queues, x) ==> Queueable(l))
    && forall i :: 0 <= i < |s.workers| ==> PcOk(s.workers[i], l, x)
  }

  ghost predicate LivesOk(s: State, lives: map<Task, Life>) {
    && lives.Keys == s.live && s.polls <= s.live
    && forall x :: x in lives ==> LifeOk(s, lives[x], x)
  }

  lemma UnheldOk(pc: Pc, l: Life, x: Task)
    requires Carries(pc, x) == 0
    ensures PcOk(pc, l, x)
  {
  }

  lemma LifeAt(s: State, lives: map<Task, Life>, x: Task)
    requires LivesOk(s, lives)
    ensures x in lives <==> x in s.live
    ensures x in lives ==> LifeOk(s, lives[x], x)
  {
    assert x in lives <==> x in lives.Keys;
  }

  /** Worker i moves: the others stand as before, and x lives as before or was with none of them. */
  lemma OthersOk(s: State, s': State, i: nat, l: Life, l': Life, x: Task)
    requires LifeOk(s, l, x) && i < |s.workers| == |s'.workers| && s'.workers == s.workers[i := s'.workers[i]]
    requires l' == l || forall j :: 0 <= j < |s.workers| && j != i ==> Carries(s.workers[j], x) == 0
    requires PcOk(s'.workers[i], l', x) && FlagsOk(s', l', x)
    requires 0 < QueuesHold(s'.queues, x) ==> Queueable(l')
    ensures LifeOk(s', l', x)
  {
    forall j | 0 <= j < |s'.workers|
      ensures PcOk(s'.workers[j], l', x)
    {
      if j != i && l' != l {
        UnheldOk(s.workers[j], l', x);
      }
    }
  }

  /** Whatever worker i holds is with nobody else. */
  lemma HeldAlone(s: State, i: nat, x: Task)
    requires Placed(s) && i < |s.workers| && 0 < Carries(s.workers[i], x)
    ensures x in s.live && QueuesHold(s.queues, x) == 0
    ensures forall j :: 0 <= j < |s.workers| && j != i ==> Carries(s.workers[j], x) == 0
  {
    HeldIsLive(s, i, x);
    forall j | 0 <= j < |s.workers| && j != i
      ensures Carries(s.workers[j], x) == 0
    {
      HeldOnce(s, i, j, x);
    }
  }

  /** A task that is asleep, or does not exist, is with no worker and in no queue. */
  lemma Nowhere(s: State, x: Task)
    requires Placed(s) && (x in s.registered || x !in s.live)
    ensures QueuesHold(s.queues, x) == 0
    ensures forall j :: 0 <= j < |s.workers| ==> Carries(s.workers[j], x) == 0
  {
    assert Places(s, x) == One(x in s.live);
    forall j | 0 <= j < |s.workers|
      ensures Carries(s.workers[j], x) == 0
    {
      HeldBySome(s.workers, j, x);
    }
  }

  // --------------------------------------------------------------- fetching a task

  lemma FetchQueues(s: State, s': State, i: nat, q: nat, who: nat, next: Pc, act: Act, x: Task)
    requires i < |s.workers| == |s.queues| && q < |s.queues| && Fetch(s, s', i, q, who, next, act)
    ensures s' == s.(workers := s'.workers, queues := s'.queues) && s'.workers == s.workers[i := s'.workers[i]]
    ensures act.Fetched? || act.Missed?
    ensures QueuesHold(s'.queues, x) + One(act.Fetched? && act.t == x) == QueuesHold(s.queues, x)
    ensures s'.workers[i] == if act.Fetched? then Got(act.t) else next
  {
    hide FifoNext, Held;
    var f, res: Option<Task> :|
      && FifoNext(s.queues[q], f, Returned(who, res))
      && s' == Goto(SetQueue(s, q, f), i, if res.Some? then Got(res.value) else next)
      && act == if res.Some? then Fetched(i, q, res.value) else Missed(i, q);
    StepConserves(s.queues[q], f, Returned(who, res), x);
    QueuesHoldUpdate(s.queues, q, f, x);
  }

  lemma OwnQueues(s: State, s': State, i: nat, ev: Event, next: Pc, x: Task)
    requires i < |s.workers| == |s.queues| && Own(s, s', i, ev, next) && !ev.Returned?
    ensures s' == s.(workers := s'.workers, queues := s'.queues) && s'.workers == s.workers[i := next]
    ensures QueuesHold(s'.queues, x) == QueuesHold(s.queues, x) + PushedBy(ev, x)
  {
    hide FifoNext, Held;
    var f :| FifoNext(s.queues[i], f, ev) && s' == Goto(SetQueue(s, i, f), i, next);
    StepConserves(s.queues[i], f, ev, x);
    QueuesHoldUpdate(s.queues, i, f, x);
  }

  lemma CallQueues(s: State, s': State, i: nat, q: nat, who: nat, next: Pc, x: Task)
    requires i < |s.workers| == |s.queues| && q < |s.queues| && CallSteal(s, s', i, q, who, next)
    ensures s' == s.(workers := s'.workers, queues := s'.queues) && s'.workers == s.workers[i := next]
    ensures QueuesHold(s'.queues, x) == QueuesHold(s.queues, x)
  {
    hide FifoNext, Held;
    var f :| FifoNext(s.queues[q], f, Called(who, false)) && s' == Goto(SetQueue(s, q, f), i, next);
    StepConserves(s.queues[q], f, Called(who, false), x);
    QueuesHoldUpdate(s.queues, q, f, x);
  }

  /** Looking for a task changes nobody's life. */
  lemma FetchingLife(s: State, s': State, i: nat, act: Act, l: Life, x: Task)
    requires i < |s.workers| == |s.queues| && GetStep(s, s', i, act) && Fetching(s.workers[i]) && LifeOk(s, l, x)
    ensures LifeOk(s', l, x) && (act == Quiet || act.Missed? || act.Fetched?)
    ensures act.Fetched? && act.t == x ==> Queueable(l)
    ensures s'.live == s.live && s'.polls == s.polls
  {
    hide Fetch, Own, CallSteal, QueuesHold, Queueable;
    var pc, n := s.workers[i], |s.workers|;
    if pc.Popping? {
      OwnQueues(s, s', i, Called(0, true), PopWait, x);
    } else if pc.PopWait? {
      FetchQueues(s, s', i, i, 0, AfterSteal(1, n), act, x);
    } else if pc.Stealing? {
      CallQueues(s, s', i, (i + pc.k) % n, n - pc.k, StealWait(pc.k), x);
    } else {
      FetchQueues(s, s', i, (i + pc.k) % n, n - pc.k, AfterSteal(pc.k + 1, n), act, x);
    }
    OthersOk(s, s', i, l, l, x);
  }

  /** The fetched task is resumed, or goes back because what it polls is false. */
  lemma ResumingLife(s: State, s': State, i: nat, act: Act, lives: map<Task, Life>, x: Task)
    requires i < |s.workers| == |s.queues| && GetStep(s, s', i, act) && !Fetching(s.workers[i])
    requires Placed(s) && LivesOk(s, lives) && x in lives
    ensures s.workers[i].Got? ==> s.workers[i].t in s.paused
    ensures Legal(lives, act) && x in After(lives, act) && LifeOk(s', After(lives, act)[x], x)
  {
    hide Fetch, Own, CallSteal, QueuesHold, Placed, LivesOk;
    LifeAt(s, lives, x);
    if s.workers[i].Got? {
      var t := s.workers[i].t;
      HeldAlone(s, i, t);
      LifeAt(s, lives, t);
      assert PcOk(s.workers[i], lives[t], t);
    }
    OthersOk(s, s', i, lives[x], After(lives, act)[x], x);
  }

  // ------------------------------------------------------------ serving a request

  lemma WakersSleep(s: State, ws: seq<Task>, lives: map<Task, Life>)
    requires Placed(s) && LivesOk(s, lives) && WakesRegistered(s, ws)
    ensures forall w :: w in ws ==> w in s.registered && w in lives && lives[w] == Asleep
  {
    forall w | w in ws
      ensures w in s.registered && w in lives && lives[w] == Asleep
    {
      assert Places(s, w) == One(w in s.live);
      LifeAt(s, lives, w);
    }
  }

  lemma RequestLegal(s: State, s': State, i: nat, act: Act, lives: map<Task, Life>)
    requires i < |s.workers| && RequestStep(s, s', i, act) && Placed(s) && LivesOk(s, lives)
    ensures Legal(lives, act) && lives.Keys == After(lives, act).Keys
    ensures act.t !in s.registered && (act.req.WakeAll? ==> forall w :: w in act.req.wakers ==> w in s.registered)
  {
    var t := s.workers[i].t;
    HeldAlone(s, i, t);
    HeldIsLive(s, i, t);
    LifeAt(s, lives, t);
    assert PcOk(s.workers[i], lives[t], t);
    if act.req.WakeAll? {
      WakersSleep(s, act.req.wakers, lives);
    }
    hide LivesOk, Placed, WakesRegistered;
  }

  /** The running coroutine comes back with a request: it and those it wakes change. */
  lemma RequestLife(s: State, s': State, i: nat, act: Act, lives: map<Task, Life>, x: Task)
    requires i < |s.workers| && RequestStep(s, s', i, act) && Placed(s) && LivesOk(s, lives)
    requires x in lives && x in After(lives, act)
    ensures LifeOk(s', After(lives, act)[x], x)
  {
    hide LivesOk, Placed, WakesRegistered, QueuesHold;
    RequestLegal(s, s', i, act, lives);
    LifeAt(s, lives, x);
    if x == act.t {
      HeldAlone(s, i, x);
    } else if act.req.WakeAll? && x in act.req.wakers {
      Nowhere(s, x);
    }
    OthersOk(s, s', i, lives[x], After(lives, act)[x], x);
  }

  /** The queue operations that serve a request put ready tasks into the worker's queue. */
  lemma QueueServeLife(s: State, s': State, i: nat, act: Act, l: Life, x: Task)
    requires i < |s.workers| == |s.queues| && ServeStep(s, s', i, act) && LifeOk(s, l, x)
    requires var pc := s.workers[i]; pc.ForkPush? || pc.ForkPrio? || pc.Requeue? || (pc.Wake? && pc.wakers != [])
    ensures LifeOk(s', l, x) && act == Quiet && s'.live == s.live && s'.polls == s.polls
  {
    hide FifoNext, QueuesHold, Own;
    var pc := s.workers[i];
    assert PcOk(pc, l, x);
    if pc.ForkPush? {
      OwnQueues(s, s', i, Push(pc.t), ForkPrio(pc.forked), x);
    } else if pc.ForkPrio? {
      OwnQueues(s, s', i, PrioritySwap(pc.forked), Popping, x);
    } else if pc.Wake? {
      OwnQueues(s, s', i, PrioritySwap(pc.wakers[0]), Wake(pc.wakers[1..], pc.t, pc.resume), x);
    } else {
      OwnQueues(s, s', i, Push(pc.t), Popping, x);
    }
    OthersOk(s, s', i, l, l, x);
  }

  lemma LocalServeLegal(s: State, s': State, i: nat, act: Act, lives: map<Task, Life>)
    requires i < |s.workers| == |s.queues| && ServeStep(s, s', i, act) && Placed(s) && LivesOk(s, lives)
    requires ServesLocally(s.workers[i]) || s.workers[i].Sleeping?
    ensures Legal(lives, act) && After(lives, act).Keys == s'.live && s'.polls <= s'.live
  {
    var pc := s.workers[i];
    KeysOf(s, lives);
    if !pc.FinalizeCount? {
      HeldAlone(s, i, pc.t);
      LifeOfHeld(s, lives, i, pc.t);
    }
    hide Own, Placed, LivesOk;
    ServedKeys(s, s', i, act, lives);
  }

  lemma LifeOfHeld(s: State, lives: map<Task, Life>, i: nat, x: Task)
    requires LivesOk(s, lives) && i < |s.workers| && x in s.live
    ensures x in lives && PcOk(s.workers[i], lives[x], x) && FlagsOk(s, lives[x], x)
  {
    LifeAt(s, lives, x);
  }

  lemma ServedKeys(s: State, s': State, i: nat, act: Act, lives: map<Task, Life>)
    requires i < |s.workers| == |s.queues| && ServeStep(s, s', i, act) && lives.Keys == s.live && s.polls <= s.live
    requires ServesLocally(s.workers[i]) || s.workers[i].Sleeping?
    requires !s.workers[i].FinalizeCount? ==> s.workers[i].t in lives
    ensures After(lives, act).Keys == s'.live && s'.polls <= s'.live
  {
    hide Own;
  }

  /** Creating a task, putting one to sleep, freeing one. */
  lemma LocalServeLife(s: State, s': State, i: nat, act: Act, lives: map<Task, Life>, x: Task)
    requires i < |s.workers| == |s.queues| && ServeStep(s, s', i, act) && Placed(s) && LivesOk(s, lives)
    requires ServesLocally(s.workers[i]) || s.workers[i].Sleeping?
    requires x in lives && x in After(lives, act)
    ensures LifeOk(s', After(lives, act)[x], x)
  {
    hide LivesOk, Placed, QueuesHold, Own;
    var pc := s.workers[i];
    LifeAt(s, lives, x);
    KeysOf(s, lives);
    if !pc.FinalizeCount? {
      HeldAlone(s, i, pc.t);
      HeldIsLive(s, i, pc.t);
    }
    assert PcOk(pc, lives[x], x);
    ServedFlags(s, s', i, act, lives, x);
    hide ServeStep, After;
    OthersOk(s, s', i, lives[x], After(lives, act)[x], x);
  }

  lemma ServedFlags(s: State, s': State, i: nat, act: Act, lives: map<Task, Life>, x: Task)
    requires i < |s.workers| == |s.queues| && ServeStep(s, s', i, act)
    requires ServesLocally(s.workers[i]) || s.workers[i].Sleeping?
    requires x in lives && x in After(lives, act) && PcOk(s.workers[i], lives[x], x) && FlagsOk(s, lives[x], x)
    requires lives.Keys == s.live
    ensures var l' := After(lives, act)[x];
            && s'.queues == s.queues && |s'.workers| == |s.workers| && s'.workers == s.workers[i := s'.workers[i]]
            && FlagsOk(s', l', x) && PcOk(s'.workers[i], l', x)
            && (l' != lives[x] ==> !s.workers[i].FinalizeCount? && x == s.workers[i].t)
  {
    hide Own;
  }

  /** A new task is ready. */
  lemma NewTaskLife(s: State, s': State, i: nat, act: Act, lives: map<Task, Life>)
    requires i < |s.workers| == |s.queues| && ServeStep(s, s', i, act) && Placed(s) && LivesOk(s, lives)
    requires s.workers[i].ForkCreate?
    ensures act.Forked? && LifeOk(s', Ready, act.x)
  {
    hide QueuesHold;
    var x := act.x;
    Nowhere(s, x);
    HeldAlone(s, i, s.workers[i].t);
    assert Places(s, x) == 0 && x !in s.registered;
    forall j | 0 <= j < |s'.workers|
      ensures PcOk(s'.workers[j], Ready, x)
    {
      if j != i {
        UnheldOk(s.workers[j], Ready, x);
      }
    }
  }

  // -------------------------------------------------------------------- the steps

  lemma GetKeeps(s: State, s': State, i: nat, act: Act, lives: map<Task, Life>)
    requires i < |s.workers| == |s.queues| && GetStep(s, s', i, act) && Inv(s) && LivesOk(s, lives)
    ensures Legal(lives, act) && LivesOk(s', After(lives, act))
  {
    if s.workers[i].Got? {
      GotIsPaused(s, i);
    }
    hide Inv, Placed, LivesOk, LifeOk, Fetch, Own, CallSteal;
    PlacedOf(s);
    KeysOf(s, lives);
    if Fetching(s.workers[i]) {
      forall x | x in lives
        ensures LifeOk(s', lives[x], x) && (act.Fetched? && act.t == x ==> Queueable(lives[x]))
        ensures s'.live == s.live && s'.polls == s.polls && (act == Quiet || act.Missed? || act.Fetched?)
      {
        LifeAt(s, lives, x);
        FetchingLife(s, s', i, act, lives[x], x);
      }
      FetchedIsLive(s, s', i, act);
      AllLive(s', lives);
    } else {
      ResumingMoves(s, s', i, act);
      if s.workers[i].Got? {
        HeldAlone(s, i, s.workers[i].t);
      }
      forall x | x in lives
        ensures Legal(lives, act) && x in After(lives, act) && LifeOk(s', After(lives, act)[x], x)
      {
        ResumingLife(s, s', i, act, lives, x);
      }
      AllLive(s', After(lives, act));
    }
  }

  lemma PlacedOf(s: State)
    requires Inv(s)
    ensures Placed(s) && |s.workers| == |s.queues|
  {
  }

  lemma KeysOf(s: State, lives: map<Task, Life>)
    requires LivesOk(s, lives)
    ensures lives.Keys == s.live && s.polls <= s.live
  {
  }

  lemma AllLive(s: State, lives: map<Task, Life>)
    requires lives.Keys == s.live && s.polls <= s.live
    requires forall x :: x in lives ==> LifeOk(s, lives[x], x)
    ensures LivesOk(s, lives)
  {
  }

  lemma ResumingMoves(s: State, s': State, i: nat, act: Act)
    requires i < |s.workers| == |s.queues| && GetStep(s, s', i, act) && !Fetching(s.workers[i])
    requires s.workers[i].Got? ==> s.workers[i].t in s.paused
    ensures s'.live == s.live && s'.polls <= s.polls
    ensures act.ReadCounter? || (s.workers[i].Got? && (act.Resumed? || act.PollFalse?) && act.t == s.workers[i].t)
  {
  }

  /** A fetched task was in the queue, so it exists; others who look change nothing. */
  lemma FetchedIsLive(s: State, s': State, i: nat, act: Act)
    requires i < |s.workers| == |s.queues| && GetStep(s, s', i, act) && Fetching(s.workers[i]) && Placed(s)
    ensures s'.live == s.live && s'.polls == s.polls && (act == Quiet || act.Missed? || act.Fetched?)
    ensures act.Fetched? ==> act.t in s.live
  {
    hide FifoNext, Placed;
    if act.Fetched? {
      FetchedFrom(s, s', i, act);
      PlacesOf(s, act.t);
    }
  }

  lemma PlacesOf(s: State, x: Task)
    requires Placed(s)
    ensures Places(s, x) == One(x in s.live)
  {
  }

  lemma FetchedFrom(s: State, s': State, i: nat, act: Act)
    requires i < |s.workers| == |s.queues| && GetStep(s, s', i, act) && act.Fetched?
    ensures 0 < QueuesHold(s.queues, act.t)
  {
    hide Fetch, Own, CallSteal, QueuesHold;
    var pc, n := s.workers[i], |s.workers|;
    if pc.PopWait? {
      FetchQueues(s, s', i, i, 0, AfterSteal(1, n), act, act.t);
    } else if pc.StealWait? {
      FetchQueues(s, s', i, (i + pc.k) % n, n - pc.k, AfterSteal(pc.k + 1, n), act, act.t);
    }
  }

  lemma RequestKeeps(s: State, s': State, i: nat, act: Act, lives: map<Task, Life>)
    requires i < |s.workers| == |s.queues| && RequestStep(s, s', i, act) && Placed(s) && LivesOk(s, lives)
    ensures Legal(lives, act) && LivesOk(s', After(lives, act))
  {
    hide Placed, LivesOk, LifeOk, WakesRegistered;
    RequestLegal(s, s', i, act, lives);
    KeysOf(s, lives);
    HeldAlone(s, i, s.workers[i].t);
    forall x | x in lives
      ensures x in After(lives, act) && LifeOk(s', After(lives, act)[x], x)
    {
      assert x in lives.Keys;
      RequestLife(s, s', i, act, lives, x);
    }
    AllLive(s', After(lives, act));
  }

  lemma ServeKeeps(s: State, s': State, i: nat, act: Act, lives: map<Task, Life>)
    requires i < |s.workers| == |s.queues| && ServeStep(s, s', i, act) && Placed(s) && LivesOk(s, lives)
    ensures Legal(lives, act) && LivesOk(s', After(lives, act))
  {
    hide Placed, LivesOk, LifeOk, ServeStep, After;
    KeysOf(s, lives);
    if ServesLocally(s.workers[i]) || s.workers[i].Sleeping? {
      LocalServeLegal(s, s', i, act, lives);
      forall x | x in After(lives, act)
        ensures LifeOk(s', After(lives, act)[x], x)
      {
        if x in lives {
          LocalServeLife(s, s', i, act, lives, x);
        } else {
          OnlyForksCreate(s, s', i, act, lives, x);
          NewTaskLife(s, s', i, act, lives);
        }
      }
      AllLive(s', After(lives, act));
    } else {
      ServesQueue(s, s', i, act);
      forall x | x in lives
        ensures LifeOk(s', lives[x], x) && act == Quiet && s'.live == s.live && s'.polls == s.polls
      {
        LifeAt(s, lives, x);
        QueueServeLife(s, s', i, act, lives[x], x);
      }
      AfterQuiet(lives);
      AllLive(s', lives);
    }
  }

  lemma AfterQuiet(lives: map<Task, Life>)
    ensures After(lives, Quiet) == lives && Legal(lives, Quiet)
  {
  }

  lemma ServesQueue(s: State, s': State, i: nat, act: Act)
    requires i < |s.workers| == |s.queues| && ServeStep(s, s', i, act)
    requires !ServesLocally(s.workers[i]) && !s.workers[i].Sleeping?
    ensures var pc := s.workers[i]; pc.ForkPush? || pc.ForkPrio? || pc.Requeue? || (pc.Wake? && pc.wakers != [])
    ensures act == Quiet && s'.live == s.live && s'.polls == s.polls
  {
    hide FifoNext;
  }

  lemma OnlyForksCreate(s: State, s': State, i: nat, act: Act, lives: map<Task, Life>, x: Task)
    requires i < |s.workers| == |s.queues| && ServeStep(s, s', i, act) && Legal(lives, act)
    requires ServesLocally(s.workers[i]) || s.workers[i].Sleeping?
    requires x in After(lives, act) && x !in lives
    ensures s.workers[i].ForkCreate? && act.Forked? && act.x == x && After(lives, act)[x] == Ready
  {
    hide Own;
  }

  lemma QueueStepLife(s: State, s': State, act: Act, l: Life, x: Task)
    requires QueueStep(s, s', act) && LifeOk(s, l, x)
    ensures LifeOk(s', l, x) && act == Quiet && s'.live == s.live && s'.polls == s.polls
  {
    var q, f, ev :| 0 <= q < |s.queues| && FifoNext(s.queues[q], f, ev) && GoesOn(ev) && s' == SetQueue(s, q, f);
    StepConserves(s.queues[q], f, ev, x);
    hide FifoNext, Held;
    QueuesHoldUpdate(s.queues, q, f, x);
  }

  lemma ScheduleLife(s: State, s': State, act: Act, lives: map<Task, Life>, x: Task)
    requires ScheduleStep(s, s', act) && Placed(s) && LivesOk(s, lives) && x in After(lives, act)
    ensures Legal(lives, act) && LifeOk(s', After(lives, act)[x], x)
  {
    var t, f :| t !in s.live && FifoNext(s.queues[0], f, Push(t))
      && s' == SetQueue(s, 0, f).(remaining := s.remaining + 1, live := s.live + {t}, paused := s.paused + {t})
      && act == Scheduled(t);
    StepConserves(s.queues[0], f, Push(t), x);
    hide FifoNext, Held;
    QueuesHoldUpdate(s.queues, 0, f, x);
    LifeAt(s, lives, t);
    if x == t {
      PlacesOf(s, t);
      Nowhere(s, t);
      forall j | 0 <= j < |s'.workers|
        ensures PcOk(s'.workers[j], Ready, t)
      {
        UnheldOk(s.workers[j], Ready, t);
      }
    } else {
      LifeAt(s, lives, x);
    }
  }

  lemma ScheduleKeys(s: State, s': State, act: Act)
    requires ScheduleStep(s, s', act)
    ensures act.Scheduled? && s'.live == s.live + {act.t} && s'.polls == s.polls && act.t !in s.live
  {
    hide FifoNext;
  }

  lemma OtherKeeps(s: State, s': State, act: Act, lives: map<Task, Life>)
    requires Placed(s) && LivesOk(s, lives) && (ScheduleStep(s, s', act) || RunStep(s, s', act) || QueueStep(s, s', act))
    ensures Legal(lives, act) && LivesOk(s', After(lives, act))
  {
    hide Placed, QueueStep, ScheduleStep;
    if ScheduleStep(s, s', act) {
      hide LivesOk, LifeOk;
      KeysOf(s, lives);
      ScheduleKeys(s, s', act);
      forall x | x in After(lives, act)
        ensures LifeOk(s', After(lives, act)[x], x)
      {
        ScheduleLife(s, s', act, lives, x);
      }
      AllLive(s', After(lives, act));
    } else if QueueStep(s, s', act) {
      hide LifeOk;
      QueueStepFrame(s, s', act);
      forall x | x in lives
        ensures LifeOk(s', lives[x], x)
      {
        QueueStepLife(s, s', act, lives[x], x);
      }
    } else {
      RunStepLife(s, s', act, lives);
    }
  }

  lemma RunStepLife(s: State, s': State, act: Act, lives: map<Task, Life>)
    requires RunStep(s, s', act) && LivesOk(s, lives)
    ensures Legal(lives, act) && LivesOk(s', After(lives, act))
  {
    forall x | x in lives
      ensures LifeOk(s', lives[x], x)
    {
      assert LifeOk(s, lives[x], x);
    }
  }

  lemma QueueStepFrame(s: State, s': State, act: Act)
    requires QueueStep(s, s', act)
    ensures act == Quiet && s'.live == s.live && s'.polls == s.polls
  {
    hide FifoNext;
  }

  lemma StepKeepsLives(s: State, s': State, act: Act, lives: map<Task, Life>)
    requires Inv(s) && LivesOk(s, lives) && Next(s, s', act)
    ensures Legal(lives, act) && LivesOk(s', After(lives, act))
  {
    hide Inv, LivesOk, Placed, ScheduleStep, RunStep, QueueStep, GetStep, RequestStep, ServeStep;
    PlacedOf(s);
    if ScheduleStep(s, s', act) || RunStep(s, s', act) || QueueStep(s, s', act) {
      OtherKeeps(s, s', act, lives);
    } else {
      var i :| 0 <= i < |s.workers| && WorkerStep(s, s', i, act);
      if GetStep(s, s', i, act) {
        GetKeeps(s, s', i, act, lives);
      } else if RequestStep(s, s', i, act) {
        RequestKeeps(s, s', i, act, lives);
      } else {
        ServeKeeps(s, s', i, act, lives);
      }
    }
  }

  lemma InitLives(s: State, n: nat)
    requires Init(s, n)
    ensures LivesOk(s, map[])
  {
  }

  // ---------------------------------------------------------------- the theorems

  /** Along every run the tasks that exist are those that the acts so far say exist, the
      registered wakers are those of the sleeping ones, and every act is legal. */
  lemma {:induction false} ActsAreLegal(ss: seq<State>, acts: seq<Act>, n: nat)
    requires IsRun(ss, acts) && n <= |acts|
    ensures LivesOk(ss[n], Lives(acts, n)) && Lives(acts, n).Keys == ss[n].live
    ensures forall x :: x in ss[n].registered <==> x in Lives(acts, n) && Lives(acts, n)[x] == Asleep
    ensures n < |acts| ==> Legal(Lives(acts, n), acts[n])
  {
    hide Inv, Next, Init, LivesOk, Legal, After;
    if n == 0 {
      var k :| Init(ss[0], k);
      InitLives(ss[0], k);
    } else {
      ActsAreLegal(ss, acts, n - 1);
      RunKeeps(ss, acts, n - 1);
      assert Next(ss[n - 1], ss[n - 1 + 1], acts[n - 1]);
      StepKeepsLives(ss[n - 1], ss[n], acts[n - 1], Lives(acts, n - 1));
    }
    RunKeeps(ss, acts, n);
    KeysOf(ss[n], Lives(acts, n));
    SleepersAreRegistered(ss[n], Lives(acts, n));
    if n < |acts| {
      assert Next(ss[n], ss[n + 1], acts[n]);
      StepKeepsLives(ss[n], ss[n + 1], acts[n], Lives(acts, n));
    }
  }

  lemma SleepersAreRegistered(s: State, lives: map<Task, Life>)
    requires Inv(s) && LivesOk(s, lives)
    ensures forall x :: x in s.registered <==> x in lives && lives[x] == Asleep
  {
    forall x
      ensures x in s.registered <==> x in lives && lives[x] == Asleep
    {
      PlacesOf(s, x);
      LifeAt(s, lives, x);
    }
  }

  /** The act is a request made by t. */
  predicate Asks(act: Act, t: Task) {
    act.Requested? && act.t == t
  }

  predicate Resumes(act: Act, t: Task) {
    act.Resumed? && act.t == t
  }

  /** t has not been resumed by any act after the m-th and before the n-th. */
  ghost predicate NotResumed(acts: seq<Act>, m: nat, n: nat, t: Task)
    requires n <= |acts|
  {
    forall k :: m < k < n ==> !Resumes(acts[k], t)
  }

  /** A request after which the coroutine is to go on. */
  predicate GoesOnAfter(req: Request) {
    req.Fork? || req.Poll? || req.Sleep? || (req.WakeAll? && req.resume)
  }

  /** What settles a request of t: its fork was made, its sleep declined or ended. */
  predicate Settles(act: Act, t: Task, req: Request) {
    match req
    case Fork => act.Forked? && act.t == t
    case Sleep => (act.Declined? && act.t == t) || (act.Requested? && act.req.WakeAll? && t in act.req.wakers)
    case _ => false
  }

  /** How t lives until it is resumed after the request. */
  predicate StillWaits(l: Life, req: Request, settled: bool) {
    || l == Asked(req)
    || (req == Sleep && l == Asleep)
    || (settled && l == Ready)
  }

  lemma WaitStep(lives: map<Task, Life>, act: Act, t: Task, req: Request, settled: bool)
    requires t in lives && StillWaits(lives[t], req, settled) && Legal(lives, act) && !Resumes(act, t)
    ensures act.Freed? && act.t == t ==> MayLeave(lives[t]) && !GoesOnAfter(req)
    ensures !(act.Freed? && act.t == t) ==>
              t in After(lives, act) && StillWaits(After(lives, act)[t], req, settled || Settles(act, t, req))
  {
  }

  ghost predicate Settled(acts: seq<Act>, m: nat, n: nat, t: Task, req: Request)
    requires n <= |acts|
  {
    exists k :: m < k < n && Settles(acts[k], t, req)
  }

  lemma SettledLater(acts: seq<Act>, m: nat, n: nat, t: Task, req: Request)
    requires m < n < |acts|
    ensures Settled(acts, m, n + 1, t, req) <==> Settled(acts, m, n, t, req) || Settles(acts[n], t, req)
  {
    if Settled(acts, m, n, t, req) {
      var k :| m < k < n && Settles(acts[k], t, req);
      assert m < k < n + 1;
    }
  }

  /** A coroutine that has asked to go on waits until it is resumed. */
  lemma {:induction false} WaitsUntilResumed(ss: seq<State>, acts: seq<Act>, m: nat, n: nat, t: Task)
    requires IsRun(ss, acts) && m < n <= |acts| && Asks(acts[m], t) && GoesOnAfter(acts[m].req)
    requires NotResumed(acts, m, n, t)
    ensures t in Lives(acts, n)
    ensures StillWaits(Lives(acts, n)[t], acts[m].req, Settled(acts, m, n, t, acts[m].req))
    decreases n
  {
    hide IsRun, LivesOk, Settled, Settles, StillWaits;
    var req := acts[m].req;
    if n == m + 1 {
      ActsAreLegal(ss, acts, m);
      JustAsked(Lives(acts, m), acts[m]);
    } else {
      WaitsUntilResumed(ss, acts, m, n - 1, t);
      ActsAreLegal(ss, acts, n - 1);
      WaitStep(Lives(acts, n - 1), acts[n - 1], t, req, Settled(acts, m, n - 1, t, req));
      SettledLater(acts, m, n - 1, t, req);
    }
  }

  lemma JustAsked(lives: map<Task, Life>, act: Act)
    requires act.Requested? && Legal(lives, act)
    ensures act.t in After(lives, act) && After(lives, act)[act.t] == Asked(act.req)
    ensures forall settled :: StillWaits(Asked(act.req), act.req, settled)
  {
  }

  /** A task that forked, polls, sleeps, or woke others and asked to go on, stays: until it is
      resumed again it exists and is in exactly one place, and only after sleep asleep. */
  lemma TasksStay(ss: seq<State>, acts: seq<Act>, m: nat, n: nat, t: Task)
    requires IsRun(ss, acts) && m < n <= |acts| && Asks(acts[m], t)
    requires GoesOnAfter(acts[m].req) && NotResumed(acts, m, n, t)
    ensures t in ss[n].live && Places(ss[n], t) == 1
    ensures t in ss[n].registered ==> acts[m].req == Sleep
  {
    WaitsUntilResumed(ss, acts, m, n, t);
    ActsAreLegal(ss, acts, n);
    RunKeeps(ss, acts, n);
    hide IsRun, LivesOk, Inv, Placed;
    PlacedOf(ss[n]);
    PlacesOf(ss[n], t);
    assert t in Lives(acts, n).Keys;
  }

  /** It is resumed when it is due: with its poll condition checked if it polls, after its
      fork was made, and after sleep only if must_sleep declined or somebody has woken it. */
  lemma ResumedWhenDue(ss: seq<State>, acts: seq<Act>, m: nat, n: nat, t: Task)
    requires IsRun(ss, acts) && m < n < |acts| && Asks(acts[m], t) && Resumes(acts[n], t)
    requires GoesOnAfter(acts[m].req) && NotResumed(acts, m, n, t)
    ensures acts[n].polled <==> acts[m].req == Poll
    ensures acts[m].req == Fork ==> exists k :: m < k < n && acts[k].Forked? && acts[k].t == t
    ensures acts[m].req == Sleep ==>
              exists k :: m < k < n &&
                ((acts[k].Declined? && acts[k].t == t) || (acts[k].Requested? && acts[k].req.WakeAll? && t in acts[k].req.wakers))
  {
    WaitsUntilResumed(ss, acts, m, n, t);
    ActsAreLegal(ss, acts, n);
    hide IsRun, LivesOk, NotResumed;
    var req := acts[m].req;
    if req.Fork? || req.Sleep? {
      assert Settled(acts, m, n, t, req);
      var k :| m < k < n && Settles(acts[k], t, req);
    }
  }

  /** The request that is still open was the last that t made. */
  lemma {:induction false} OpenRequest(ss: seq<State>, acts: seq<Act>, n: nat, t: Task) returns (m: nat)
    requires IsRun(ss, acts) && n <= |acts| && t in Lives(acts, n) && Lives(acts, n)[t].Asked?
    ensures m < n && Asks(acts[m], t) && acts[m].req == Lives(acts, n)[t].req && NotResumed(acts, m, n, t)
  {
    hide IsRun, LivesOk;
    assert 0 < n;
    ActsAreLegal(ss, acts, n - 1);
    if Asks(acts[n - 1], t) {
      m := n - 1;
    } else {
      AskedBefore(Lives(acts, n - 1), acts[n - 1], t);
      m := OpenRequest(ss, acts, n - 1, t);
    }
  }

  lemma AskedBefore(lives: map<Task, Life>, act: Act, t: Task)
    requires t in After(lives, act) && After(lives, act)[t].Asked? && !Asks(act, t)
    ensures t in lives && lives[t] == After(lives, act)[t] && !Resumes(act, t)
  {
  }

  /** A task ceases to exist only after its coroutine has returned or, as its last request,
      has woken others and asked not to go on. */
  lemma TasksLeaveWhenDone(ss: seq<State>, acts: seq<Act>, n: nat, t: Task)
    requires IsRun(ss, acts) && n < |acts| && t in ss[n].live && t !in ss[n + 1].live
    ensures exists m :: 0 <= m < n && Asks(acts[m], t) && NotResumed(acts, m, n, t)
                        && (acts[m].req == Return || (acts[m].req.WakeAll? && !acts[m].req.resume))
  {
    hide IsRun, LivesOk;
    ActsAreLegal(ss, acts, n);
    ActsAreLegal(ss, acts, n + 1);
    LeavesByFreeing(Lives(acts, n), acts[n], t);
    var m := OpenRequest(ss, acts, n, t);
  }

  lemma LeavesByFreeing(lives: map<Task, Life>, act: Act, t: Task)
    requires t in lives.Keys && t !in After(lives, act).Keys && Legal(lives, act)
    ensures act.Freed? && act.t == t && MayLeave(lives[t])
  {
  }
}
