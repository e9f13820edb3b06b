// The semaphore rendezvous of bench/chameneos_bench/c_solution/cooperation.c: any number
// of threads call Cooperation, each semaphore operation and each access to a shared
// variable is one step.

module Cooperation {
  import opened Options

  datatype Colour = Blue | Red | Yellow

  datatype Point =
    | WaitTwo | WaitMutex | Test
    // the first of a pair
    | SetA | ClearFirst | PostMutex | WaitPriv | ReadB | ReleaseMutex | PostTwo | PostTwoAgain
    // the second
    | SetFirst | SetB | ReadA | PostPriv
    | Leave
  {
    /** Between acquiring the lock, from Mutex or from SemPriv, and passing it on. */
    predicate HasBaton() {
      TouchesShared() || PostMutex? || ReleaseMutex? || PostPriv?
    }

    /** Its next step reads or writes FirstCall, AColour or BColour. */
    predicate TouchesShared() {
      Test? || SetA? || ClearFirst? || ReadB? || SetFirst? || SetB? || ReadA?
    }

    predicate IsFirst() { PostMutex? || WaitPriv? || ReadB? }

    /** Units of AtMostTwo it has to give back; the first also gives back its mate's. */
    function Tokens(): nat {
      if WaitTwo? || Leave? then 0 else if ReadB? || ReleaseMutex? || PostTwo? then 2 else 1
    }
  }

  /** `id` numbers the calls; `other` is `otherColour`, once it has been read. */
  datatype Thread = Out | Calling(at: Point, id: nat, other: Colour)

  /** `calls` are the colours the calls were made with, `partner` the pairs formed,
      `results` what the completed calls returned; `baton` and `first` are the thread that
      has the lock and the call that waits for its mate.  These five are auxiliary. */
  datatype State = State(
    atMostTwo: nat, mutex: nat, semPriv: nat,
    firstCall: bool, aColour: Colour, bColour: Colour,
    threads: seq<Thread>,
    calls: seq<Colour>, partner: map<nat, nat>, results: map<nat, Colour>,
    baton: Option<nat>, first: Option<nat>)

  ghost predicate Init(s: State) {
    && s.atMostTwo == 2 && s.mutex == 1 && s.semPriv == 0 && s.firstCall
    && (forall i :: 0 <= i < |s.threads| ==> s.threads[i] == Out)
    && s.calls == [] && s.partner == map[] && s.results == map[] && s.baton == None && s.first == None
  }

  predicate Busy(s: State, i: nat) {
    i < |s.threads| && s.threads[i].Calling? && s.threads[i].id < |s.calls|
  }

  function Goto(s: State, i: nat, at: Point): State
    requires Busy(s, i)
  {
    s.(threads := s.threads[i := s.threads[i].(at := at)])
  }

  ghost predicate CallStep(s: State, s': State, i: nat) {
    && i < |s.threads| && s.threads[i] == Out
    && exists c, o :: s' == s.(calls := s.calls + [c], threads := s.threads[i := Calling(WaitTwo, |s.calls|, o)])
  }

  predicate ReturnStep(s: State, s': State, i: nat) {
    && Busy(s, i) && s.threads[i].at == Leave
    && s' == s.(threads := s.threads[i := Out], results := s.results[s.threads[i].id := s.threads[i].other])
  }

  /** `sem_wait` */
  predicate WaitStep(s: State, s': State, i: nat) {
    && Busy(s, i)
    && match s.threads[i].at
       case WaitTwo => 0 < s.atMostTwo && s' == Goto(s, i, WaitMutex).(atMostTwo := s.atMostTwo - 1)
       case WaitMutex => 0 < s.mutex && s' == Goto(s, i, Test).(mutex := s.mutex - 1, baton := Some(i))
       case WaitPriv => 0 < s.semPriv && s' == Goto(s, i, ReadB).(semPriv := s.semPriv - 1, baton := Some(i))
       case _ => false
  }

  /** `sem_post` */
  predicate PostStep(s: State, s': State, i: nat) {
    && Busy(s, i)
    && match s.threads[i].at
       case PostMutex => s' == Goto(s, i, WaitPriv).(mutex := s.mutex + 1, baton := None)
       case ReleaseMutex => s' == Goto(s, i, PostTwo).(mutex := s.mutex + 1, baton := None)
       case PostTwo => s' == Goto(s, i, PostTwoAgain).(atMostTwo := s.atMostTwo + 1)
       case PostTwoAgain => s' == Goto(s, i, Leave).(atMostTwo := s.atMostTwo + 1)
       case PostPriv => s' == Goto(s, i, Leave).(semPriv := s.semPriv + 1, baton := None)
       case _ => false
  }

  function Pair(partner: map<nat, nat>, a: nat, b: nat): map<nat, nat> {
    partner[a := b][b := a]
  }

  function GotoWith(s: State, i: nat, at: Point, other: Colour): State
    requires Busy(s, i)
  {
    s.(threads := s.threads[i := Calling(at, s.threads[i].id, other)])
  }

  /** Reading and writing the shared variables. */
  predicate SharedStep(s: State, s': State, i: nat) {
    && Busy(s, i)
    && var id := s.threads[i].id;
       match s.threads[i].at
       case Test => s' == Goto(s, i, if s.firstCall then SetA else SetFirst)
       case SetA => s' == Goto(s, i, ClearFirst).(aColour := s.calls[id])
       case ClearFirst => s' == Goto(s, i, PostMutex).(firstCall := false, first := Some(id))
       case ReadB => s' == GotoWith(s, i, ReleaseMutex, s.bColour).(first := None)
       case SetFirst =>
         && s.first.Some?
         && s' == Goto(s, i, SetB).(firstCall := true, partner := Pair(s.partner, s.first.value, id))
       case SetB => s' == Goto(s, i, ReadA).(bColour := s.calls[id])
       case ReadA => s' == GotoWith(s, i, PostPriv, s.aColour)
       case _ => false
  }

  ghost predicate Step(s: State, s': State, i: nat) {
    CallStep(s, s', i) || ReturnStep(s, s', i) || WaitStep(s, s', i) || PostStep(s, s', i) || SharedStep(s, s', i)
  }

  ghost predicate Next(s: State, s': State) {
    exists i :: 0 <= i < |s.threads| && Step(s, s', i)
  }

  // ------------------------------------------------------------ the invariant

  predicate HasBaton(t: Thread) {
    t.Calling? && t.at.HasBaton()
  }

  predicate IsFirst(t: Thread) {
    t.Calling? && t.at.IsFirst()
  }

  function Tokens(t: Thread): nat {
    if t.Calling? then t.at.Tokens() else 0
  }

  function Held(threads: seq<Thread>): nat {
    if threads == [] then 0 else Tokens(threads[0]) + Held(threads[1..])
  }

  lemma {:induction false} HeldUpdate(threads: seq<Thread>, i: nat, t: Thread)
    requires i < |threads|
    ensures Held(threads[i := t]) + Tokens(threads[i]) == Held(threads) + Tokens(t)
  {
    if i == 0 {
      assert threads[i := t][1..] == threads[1..];
    } else {
      HeldUpdate(threads[1..], i - 1, t);
      assert threads[i := t][1..] == threads[1..][i - 1 := t];
    }
  }

  /** One lock, passed on through Mutex or SemPriv. */
  ghost predicate BatonInv(s: State) {
    && s.mutex + s.semPriv + (if s.baton.Some? then 1 else 0) == 1
    && (s.baton.Some? ==> s.baton.value < |s.threads|)
    && (forall i :: 0 <= i < |s.threads| ==> (HasBaton(s.threads[i]) <==> s.baton == Some(i)))
  }

  ghost predicate TokenInv(s: State) {
    s.atMostTwo + s.semPriv + Held(s.threads) == 2
  }

  ghost predicate PairInv(s: State) {
    && (forall k :: k in s.partner ==>
          k < |s.calls| && s.partner[k] in s.partner && s.partner[k] != k && s.partner[s.partner[k]] == k)
    && (forall k :: k in s.results ==> k in s.partner && s.results[k] == s.calls[s.partner[k]])
  }

  ghost predicate IdInv(s: State) {
    && (forall i :: 0 <= i < |s.threads| && s.threads[i].Calling? ==>
          s.threads[i].id < |s.calls| && s.threads[i].id !in s.results)
    && (forall i, j :: 0 <= i < j < |s.threads| && s.threads[i].Calling? && s.threads[j].Calling? ==>
          s.threads[i].id != s.threads[j].id)
  }

  ghost predicate Waits(s: State, id: nat) {
    exists i :: 0 <= i < |s.threads| && IsFirst(s.threads[i]) && s.threads[i].id == id
  }

  /** The rendezvous in progress. */
  ghost predicate MeetInv(s: State) {
    && (s.first.Some? ==> s.first.value < |s.calls| && Waits(s, s.first.value))
    && (!s.firstCall ==>
          s.first.Some? && s.first.value !in s.partner && s.aColour == s.calls[s.first.value] && s.semPriv == 0)
    && (0 < s.semPriv ==>
          && s.firstCall && s.first.Some? && s.first.value in s.partner && s.partner[s.first.value] < |s.calls|
          && s.bColour == s.calls[s.partner[s.first.value]])
    && (s.firstCall && s.first.Some? && s.semPriv == 0 ==>
          && s.baton.Some? && s.baton.value < |s.threads| && s.threads[s.baton.value].Calling?
          && var at := s.threads[s.baton.value].at; at == SetB || at == ReadA || at == PostPriv || at == ReadB)
  }

  /** The colour of call id's partner. */
  predicate Partners(s: State, id: nat, c: Colour) {
    id in s.partner && s.partner[id] < |s.calls| && c == s.calls[s.partner[id]]
  }

  predicate ThreadInv(s: State, t: Thread) {
    t.Calling? && t.id < |s.calls| ==>
      var id := t.id;
      match t.at
      case WaitTwo => id !in s.partner
      case WaitMutex => id !in s.partner
      case Test => id !in s.partner
      case SetA => id !in s.partner && s.firstCall && s.first == None
      case ClearFirst => id !in s.partner && s.firstCall && s.first == None && s.aColour == s.calls[id]
      case PostMutex => id !in s.partner && !s.firstCall && s.first == Some(id)
      case WaitPriv => s.first == Some(id) && (id in s.partner <==> s.firstCall)
      case ReadB => s.first == Some(id) && s.firstCall && Partners(s, id, s.bColour)
      case ReleaseMutex => s.first == None && Partners(s, id, t.other)
      case PostTwo => Partners(s, id, t.other)
      case PostTwoAgain => Partners(s, id, t.other)
      case SetFirst => id !in s.partner && !s.firstCall
      case SetB => s.firstCall && Partners(s, id, s.aColour) && s.first == Some(s.partner[id])
      case ReadA => s.firstCall && Partners(s, id, s.aColour) && s.first == Some(s.partner[id]) && s.bColour == s.calls[id]
      case PostPriv => s.firstCall && Partners(s, id, t.other) && s.first == Some(s.partner[id]) && s.bColour == s.calls[id]
      case Leave => Partners(s, id, t.other)
  }

  ghost predicate ThreadsInv(s: State) {
    forall i :: 0 <= i < |s.threads| ==> ThreadInv(s, s.threads[i])
  }

  ghost predicate Inv(s: State) {
    BatonInv(s) && TokenInv(s) && PairInv(s) && IdInv(s) && MeetInv(s) && ThreadsInv(s)
  }

  lemma {:induction false} NothingHeld(threads: seq<Thread>)
    requires forall i :: 0 <= i < |threads| ==> threads[i] == Out
    ensures Held(threads) == 0
  {
    if threads != [] {
      NothingHeld(threads[1..]);
    }
  }

  lemma InitHolds(s: State)
    requires Init(s)
    ensures Inv(s)
  {
    NothingHeld(s.threads);
  }

  // ------------------------------------------------------------- preservation

  predicate OneMoves(s: State, s': State, i: nat) {
    i < |s.threads| == |s'.threads| && s'.threads == s.threads[i := s'.threads[i]]
  }

  /** The lock stays where it is, is acquired or is passed on. */
  predicate BatonMoves(s: State, s': State, i: nat) {
    && OneMoves(s, s', i)
    && var t, t' := s.threads[i], s'.threads[i];
       || (s'.mutex == s.mutex && s'.semPriv == s.semPriv && s'.baton == s.baton && HasBaton(t') == HasBaton(t))
       || (s'.mutex + s'.semPriv == s.mutex + s.semPriv - 1 && s'.baton == Some(i) && HasBaton(t'))
       || (s'.mutex + s'.semPriv == s.mutex + s.semPriv + 1 && s'.baton == None && HasBaton(t) && !HasBaton(t'))
  }

  /** A call begins, goes on or returns. */
  predicate CallMoves(s: State, s': State, i: nat) {
    && OneMoves(s, s', i)
    && var t, t' := s.threads[i], s'.threads[i];
       if t.Out? then
         && t'.Calling? && t'.id == |s.calls| && |s'.calls| == |s.calls| + 1 && s.calls <= s'.calls && s'.results == s.results
       else
         && s'.calls == s.calls
         && if t'.Out? then s'.results == s.results[t.id := t.other] else t'.id == t.id && s'.results == s.results
  }

  predicate TokensMove(s: State, s': State, i: nat) {
    && OneMoves(s, s', i)
    && s'.atMostTwo + s'.semPriv + Tokens(s'.threads[i]) == s.atMostTwo + s.semPriv + Tokens(s.threads[i])
  }

  lemma MovesKeep(s: State, s': State, i: nat)
    requires BatonInv(s) && TokenInv(s) && PairInv(s) && IdInv(s) && BatonMoves(s, s', i) && CallMoves(s, s', i) && TokensMove(s, s', i)
    ensures BatonInv(s') && TokenInv(s') && IdInv(s')
  {
    hide HasBaton, Tokens;
    HeldUpdate(s.threads, i, s'.threads[i]);
  }

  /** Steps that leave the rendezvous alone. */
  predicate Quiet(s: State, s': State) {
    && s'.firstCall == s.firstCall && s'.aColour == s.aColour && s'.bColour == s.bColour
    && s'.first == s.first && s'.partner == s.partner && s.calls <= s'.calls
  }

  lemma QuietOthers(s: State, s': State, i: nat)
    requires ThreadsInv(s) && IdInv(s) && OneMoves(s, s', i) && Quiet(s, s') && ThreadInv(s', s'.threads[i])
    ensures ThreadsInv(s')
  {
    forall j | 0 <= j < |s.threads| && j != i
      ensures ThreadInv(s', s'.threads[j])
    {
      assert ThreadInv(s, s.threads[j]);
      assert forall id, c :: Partners(s, id, c) ==> Partners(s', id, c);
    }
  }

  /** While thread i has the lock, what it writes matters only to the thread in sem_wait(&SemPriv). */
  lemma LockedOthers(s: State, s': State, i: nat)
    requires ThreadsInv(s) && IdInv(s) && BatonInv(s) && OneMoves(s, s', i) && s.baton == Some(i)
    requires s'.calls == s.calls && forall k :: k in s.partner ==> k in s'.partner && s'.partner[k] == s.partner[k]
    requires forall j :: 0 <= j < |s.threads| && j != i && s.threads[j].Calling? ==>
               var id := s.threads[j].id;
               if s.threads[j].at == WaitPriv then s'.first == Some(id) && (id in s'.partner <==> s'.firstCall)
               else id in s'.partner ==> id in s.partner
    requires ThreadInv(s', s'.threads[i])
    ensures ThreadsInv(s')
  {
    forall j | 0 <= j < |s.threads| && j != i
      ensures ThreadInv(s', s'.threads[j])
    {
      assert ThreadInv(s, s.threads[j]) && !HasBaton(s.threads[j]);
      assert forall id, c :: Partners(s, id, c) ==> Partners(s', id, c);
    }
  }

  /** Whoever waits for its mate still does. */
  lemma WaitsStill(s: State, s': State, i: nat)
    requires OneMoves(s, s', i)
    requires IsFirst(s'.threads[i]) == IsFirst(s.threads[i])
    requires s.threads[i].Calling? && s'.threads[i].Calling? ==> s'.threads[i].id == s.threads[i].id
    ensures forall id :: Waits(s', id) == Waits(s, id)
  {
    forall id
      ensures Waits(s', id) == Waits(s, id)
    {
      if Waits(s, id) {
        var j :| 0 <= j < |s.threads| && IsFirst(s.threads[j]) && s.threads[j].id == id;
        assert IsFirst(s'.threads[j]);
      }
      if Waits(s', id) {
        var j :| 0 <= j < |s'.threads| && IsFirst(s'.threads[j]) && s'.threads[j].id == id;
        assert IsFirst(s.threads[j]);
      }
    }
  }

  predicate At(s: State, i: nat, at: Point) {
    Busy(s, i) && s.threads[i].at == at
  }

  // --------------------------------------------- steps outside the critical section

  lemma BeginKeeps(s: State, s': State, i: nat)
    requires Inv(s) && CallStep(s, s', i)
    ensures Inv(s')
  {
    assert s'.threads[i].at == WaitTwo && s'.threads[i].id == |s.calls|;
    MovesKeep(s, s', i);
    QuietOthers(s, s', i);
    WaitsStill(s, s', i);
  }

  lemma ReturnKeeps(s: State, s': State, i: nat)
    requires Inv(s) && ReturnStep(s, s', i)
    ensures Inv(s')
  {
    assert ThreadInv(s, s.threads[i]);
    MovesKeep(s, s', i);
    QuietOthers(s, s', i);
    WaitsStill(s, s', i);
  }

  lemma TakeTwoKeeps(s: State, s': State, i: nat)
    requires Inv(s) && At(s, i, WaitTwo) && WaitStep(s, s', i)
    ensures Inv(s')
  {
    assert ThreadInv(s, s.threads[i]);
    MovesKeep(s, s', i);
    QuietOthers(s, s', i);
    WaitsStill(s, s', i);
  }

  lemma GiveKeeps(s: State, s': State, i: nat)
    requires Inv(s) && At(s, i, PostTwo) && PostStep(s, s', i)
    ensures Inv(s')
  {
    assert ThreadInv(s, s.threads[i]);
    MovesKeep(s, s', i);
    QuietOthers(s, s', i);
    WaitsStill(s, s', i);
  }

  lemma GiveAgainKeeps(s: State, s': State, i: nat)
    requires Inv(s) && At(s, i, PostTwoAgain) && PostStep(s, s', i)
    ensures Inv(s')
  {
    assert ThreadInv(s, s.threads[i]);
    MovesKeep(s, s', i);
    QuietOthers(s, s', i);
    WaitsStill(s, s', i);
  }

  // ------------------------------------------------------------ passing the lock

  lemma LockKeeps(s: State, s': State, i: nat)
    requires Inv(s) && At(s, i, WaitMutex) && WaitStep(s, s', i)
    ensures Inv(s')
  {
    assert ThreadInv(s, s.threads[i]);
    MovesKeep(s, s', i);
    QuietOthers(s, s', i);
    WaitsStill(s, s', i);
  }

  lemma UnlockKeeps(s: State, s': State, i: nat)
    requires Inv(s) && (At(s, i, PostMutex) || At(s, i, ReleaseMutex)) && PostStep(s, s', i)
    ensures Inv(s')
  {
    assert ThreadInv(s, s.threads[i]);
    MovesKeep(s, s', i);
    QuietOthers(s, s', i);
    WaitsStill(s, s', i);
  }

  lemma TakePrivKeeps(s: State, s': State, i: nat)
    requires Inv(s) && At(s, i, WaitPriv) && WaitStep(s, s', i)
    ensures Inv(s')
  {
    assert ThreadInv(s, s.threads[i]);
    MovesKeep(s, s', i);
    QuietOthers(s, s', i);
    WaitsStill(s, s', i);
  }

  lemma PostPrivKeeps(s: State, s': State, i: nat)
    requires Inv(s) && At(s, i, PostPriv) && PostStep(s, s', i)
    ensures Inv(s')
  {
    assert ThreadInv(s, s.threads[i]);
    MovesKeep(s, s', i);
    QuietOthers(s, s', i);
    WaitsStill(s, s', i);
  }

  // --------------------------------------------------- inside the critical section

  lemma TestKeeps(s: State, s': State, i: nat)
    requires Inv(s) && At(s, i, Test) && SharedStep(s, s', i)
    ensures Inv(s')
  {
    assert ThreadInv(s, s.threads[i]);
    MovesKeep(s, s', i);
    QuietOthers(s, s', i);
    WaitsStill(s, s', i);
  }

  lemma SetAKeeps(s: State, s': State, i: nat)
    requires Inv(s) && At(s, i, SetA) && SharedStep(s, s', i)
    ensures Inv(s')
  {
    assert ThreadInv(s, s.threads[i]);
    MovesKeep(s, s', i);
    NoneWaiting(s, i);
    LockedOthers(s, s', i);
    WaitsStill(s, s', i);
  }

  /** No call waits for a mate while the next first call is being entered. */
  lemma NoneWaiting(s: State, i: nat)
    requires Inv(s) && (At(s, i, SetA) || At(s, i, ClearFirst))
    ensures forall j :: 0 <= j < |s.threads| && s.threads[j].Calling? ==> s.threads[j].at != WaitPriv
  {
    assert ThreadInv(s, s.threads[i]);
    forall j | 0 <= j < |s.threads| && s.threads[j].Calling?
      ensures s.threads[j].at != WaitPriv
    {
      assert ThreadInv(s, s.threads[j]);
    }
  }

  lemma ClearFirstKeeps(s: State, s': State, i: nat)
    requires Inv(s) && At(s, i, ClearFirst) && SharedStep(s, s', i)
    ensures Inv(s')
  {
    assert ThreadInv(s, s.threads[i]);
    MovesKeep(s, s', i);
    NoneWaiting(s, i);
    LockedOthers(s, s', i);
    assert IsFirst(s'.threads[i]) && Waits(s', s.threads[i].id);
  }

  /** The call waiting for its mate is the only one that does. */
  lemma OneWaits(s: State, j: nat)
    requires Inv(s) && At(s, j, WaitPriv)
    ensures s.first == Some(s.threads[j].id) && (s.threads[j].id in s.partner <==> s.firstCall)
  {
    assert ThreadInv(s, s.threads[j]);
  }

  lemma ReadBKeeps(s: State, s': State, i: nat)
    requires Inv(s) && At(s, i, ReadB) && SharedStep(s, s', i)
    ensures Inv(s')
  {
    assert ThreadInv(s, s.threads[i]);
    MovesKeep(s, s', i);
    forall j | 0 <= j < |s.threads| && j != i && s.threads[j].Calling?
      ensures s.threads[j].at != WaitPriv
    {
      assert ThreadInv(s, s.threads[j]);
    }
    LockedOthers(s, s', i);
  }

  /** The second call pairs up with the first, which is another one. */
  lemma SetFirstPairs(s: State, s': State, i: nat)
    requires Inv(s) && At(s, i, SetFirst) && SharedStep(s, s', i)
    ensures s.first.Some? && s.first.value != s.threads[i].id && PairInv(s') && ThreadInv(s', s'.threads[i])
  {
    assert ThreadInv(s, s.threads[i]);
    var f := s.first.value;
    var k :| 0 <= k < |s.threads| && IsFirst(s.threads[k]) && s.threads[k].id == f;
    assert k != i && f != s.threads[i].id;
    hide BatonInv, TokenInv;
  }

  lemma SetFirstOthers(s: State, s': State, i: nat, j: nat)
    requires Inv(s) && At(s, i, SetFirst) && SharedStep(s, s', i)
    requires j < |s.threads| && j != i && s.threads[j].Calling?
    ensures var id := s.threads[j].id;
            if s.threads[j].at == WaitPriv then s'.first == Some(id) && (id in s'.partner <==> s'.firstCall)
            else id in s'.partner ==> id in s.partner
  {
    SetFirstPairs(s, s', i);
    var k :| 0 <= k < |s.threads| && IsFirst(s.threads[k]) && s.threads[k].id == s.first.value;
    assert s.threads[k].at == WaitPriv by { assert ThreadInv(s, s.threads[k]); }
    assert ThreadInv(s, s.threads[j]);
    hide TokenInv, PairInv;
  }

  lemma SetFirstKeeps(s: State, s': State, i: nat)
    requires Inv(s) && At(s, i, SetFirst) && SharedStep(s, s', i)
    ensures Inv(s')
  {
    SetFirstPairs(s, s', i);
    MovesKeep(s, s', i);
    forall j | 0 <= j < |s.threads| && j != i && s.threads[j].Calling?
      ensures var id := s.threads[j].id;
              if s.threads[j].at == WaitPriv then s'.first == Some(id) && (id in s'.partner <==> s'.firstCall)
              else id in s'.partner ==> id in s.partner
    {
      SetFirstOthers(s, s', i, j);
    }
    hide ThreadInv, PairInv;
    LockedOthers(s, s', i);
    WaitsStill(s, s', i);
  }

  lemma SetBKeeps(s: State, s': State, i: nat)
    requires Inv(s) && At(s, i, SetB) && SharedStep(s, s', i)
    ensures Inv(s')
  {
    assert ThreadInv(s, s.threads[i]);
    MovesKeep(s, s', i);
    forall j | At(s, j, WaitPriv) {
      OneWaits(s, j);
    }
    LockedOthers(s, s', i);
    WaitsStill(s, s', i);
  }

  lemma ReadAKeeps(s: State, s': State, i: nat)
    requires Inv(s) && At(s, i, ReadA) && SharedStep(s, s', i)
    ensures Inv(s')
  {
    assert ThreadInv(s, s.threads[i]);
    MovesKeep(s, s', i);
    QuietOthers(s, s', i);
    WaitsStill(s, s', i);
  }

  lemma SharedKeeps(s: State, s': State, i: nat)
    requires Inv(s) && SharedStep(s, s', i)
    ensures Inv(s')
  {
    var at := s.threads[i].at;
    assert at.TouchesShared();
    hide Inv, SharedStep;
    if at == Test {
      TestKeeps(s, s', i);
    } else if at == SetA {
      SetAKeeps(s, s', i);
    } else if at == ClearFirst {
      ClearFirstKeeps(s, s', i);
    } else if at == ReadB {
      ReadBKeeps(s, s', i);
    } else if at == SetFirst {
      SetFirstKeeps(s, s', i);
    } else if at == SetB {
      SetBKeeps(s, s', i);
    } else {
      ReadAKeeps(s, s', i);
    }
  }

  lemma SemaphoreKeeps(s: State, s': State, i: nat)
    requires Inv(s) && (WaitStep(s, s', i) || PostStep(s, s', i))
    ensures Inv(s')
  {
    hide Inv;
    var at := s.threads[i].at;
    if at == WaitTwo {
      TakeTwoKeeps(s, s', i);
    } else if at == WaitMutex {
      LockKeeps(s, s', i);
    } else if at == WaitPriv {
      TakePrivKeeps(s, s', i);
    } else if at == PostPriv {
      PostPrivKeeps(s, s', i);
    } else if at == PostTwo {
      GiveKeeps(s, s', i);
    } else if at == PostTwoAgain {
      GiveAgainKeeps(s, s', i);
    } else {
      UnlockKeeps(s, s', i);
    }
  }

  lemma StepKeeps(s: State, s': State, i: nat)
    requires Inv(s) && Step(s, s', i)
    ensures Inv(s')
  {
    hide Inv, CallStep, ReturnStep, WaitStep, PostStep, SharedStep;
    if CallStep(s, s', i) {
      BeginKeeps(s, s', i);
    } else if ReturnStep(s, s', i) {
      ReturnKeeps(s, s', i);
    } else if SharedStep(s, s', i) {
      SharedKeeps(s, s', i);
    } else {
      SemaphoreKeeps(s, s', i);
    }
  }

  ghost predicate IsRun(ss: seq<State>) {
    0 < |ss| && Init(ss[0]) && forall k :: 0 <= k < |ss| - 1 ==> Next(ss[k], ss[k + 1])
  }

  lemma {:induction false} RunKeeps(ss: seq<State>, n: nat)
    requires IsRun(ss) && n < |ss|
    ensures Inv(ss[n])
  {
    if n == 0 {
      InitHolds(ss[0]);
    } else {
      RunKeeps(ss, n - 1);
      assert Next(ss[n - 1], ss[n - 1 + 1]);
      hide Inv, Step;
      var i :| 0 <= i < |ss[n - 1].threads| && Step(ss[n - 1], ss[n], i);
      StepKeeps(ss[n - 1], ss[n], i);
    }
  }

  // --------------------------------------------------------------- the theorems

  /** Every completed call belongs to exactly one pair, and both partners return each
      other's colour. */
  lemma ColoursAreExchanged(ss: seq<State>, n: nat, id: nat)
    requires IsRun(ss) && n < |ss| && id in ss[n].results
    ensures var s := ss[n];
            && id in s.partner && id < |s.calls| && s.partner[id] < |s.calls|
            && s.partner[id] != id && s.partner[id] in s.partner && s.partner[s.partner[id]] == id
            && s.results[id] == s.calls[s.partner[id]]
            && (s.partner[id] in s.results ==> s.results[s.partner[id]] == s.calls[id])
    ensures forall k :: k in ss[n].partner && ss[n].partner[k] == ss[n].partner[id] ==> k == id
  {
    RunKeeps(ss, n);
    hide BatonInv, TokenInv, IdInv, MeetInv, ThreadsInv;
  }

  /** Only one thread at a time uses FirstCall, AColour and BColour, although the thread
      that releases Mutex need not be the one that took it. */
  lemma SharedVariablesAreExclusive(ss: seq<State>, n: nat, i: nat, j: nat)
    requires IsRun(ss) && n < |ss| && i < |ss[n].threads| && j < |ss[n].threads|
    requires HasBaton(ss[n].threads[i]) && HasBaton(ss[n].threads[j])
    ensures i == j && ss[n].mutex == 0 && ss[n].semPriv == 0
  {
    RunKeeps(ss, n);
    hide TokenInv, PairInv, IdInv, MeetInv, ThreadsInv;
  }

  /** The semaphores stay within the bounds their names promise. */
  lemma SemaphoreBounds(ss: seq<State>, n: nat)
    requires IsRun(ss) && n < |ss|
    ensures ss[n].atMostTwo <= 2 && ss[n].mutex + ss[n].semPriv <= 1
    ensures Held(ss[n].threads) <= 2
  {
    RunKeeps(ss, n);
  }

  // ------------------------------------------------------------ no deadlock

  predicate Blocked(s: State, t: Thread) {
    && t.Calling?
    && ((t.at == WaitTwo && s.atMostTwo == 0) || (t.at == WaitMutex && s.mutex == 0) || (t.at == WaitPriv && s.semPriv == 0)
        || (t.at == SetFirst && s.first == None))
  }

  lemma CanGoOn(s: State, k: nat) returns (s': State)
    requires Busy(s, k) && !Blocked(s, s.threads[k])
    ensures Step(s, s', k)
  {
    var id := s.threads[k].id;
    match s.threads[k].at
    case WaitTwo => s' := Goto(s, k, WaitMutex).(atMostTwo := s.atMostTwo - 1);
    case WaitMutex => s' := Goto(s, k, Test).(mutex := s.mutex - 1, baton := Some(k));
    case WaitPriv => s' := Goto(s, k, ReadB).(semPriv := s.semPriv - 1, baton := Some(k));
    case PostMutex => s' := Goto(s, k, WaitPriv).(mutex := s.mutex + 1, baton := None);
    case ReleaseMutex => s' := Goto(s, k, PostTwo).(mutex := s.mutex + 1, baton := None);
    case PostTwo => s' := Goto(s, k, PostTwoAgain).(atMostTwo := s.atMostTwo + 1);
    case PostTwoAgain => s' := Goto(s, k, Leave).(atMostTwo := s.atMostTwo + 1);
    case PostPriv => s' := Goto(s, k, Leave).(semPriv := s.semPriv + 1, baton := None);
    case Test => s' := Goto(s, k, if s.firstCall then SetA else SetFirst);
    case SetA => s' := Goto(s, k, ClearFirst).(aColour := s.calls[id]);
    case ClearFirst => s' := Goto(s, k, PostMutex).(firstCall := false, first := Some(id));
    case ReadB => s' := GotoWith(s, k, ReleaseMutex, s.bColour).(first := None);
    case SetFirst => s' := Goto(s, k, SetB).(firstCall := true, partner := Pair(s.partner, s.first.value, id));
    case SetB => s' := Goto(s, k, ReadA).(bColour := s.calls[id]);
    case ReadA => s' := GotoWith(s, k, PostPriv, s.aColour);
    case Leave => s' := s.(threads := s.threads[k := Out], results := s.results[id := s.threads[k].other]);
  }

  lemma {:induction false} OnlyHolder(threads: seq<Thread>, w: nat)
    requires w < |threads| && forall k :: 0 <= k < |threads| && k != w ==> Tokens(threads[k]) == 0
    ensures Held(threads) == Tokens(threads[w])
  {
    if w == 0 {
      NoHolder(threads[1..]);
    } else {
      OnlyHolder(threads[1..], w - 1);
    }
  }

  lemma {:induction false} NoHolder(threads: seq<Thread>)
    requires forall k :: 0 <= k < |threads| ==> Tokens(threads[k]) == 0
    ensures Held(threads) == 0
  {
    if threads != [] {
      NoHolder(threads[1..]);
    }
  }

  /** Some call can go on unless the lock is free and what remains is blocked on
      AtMostTwo or on SemPriv. */
  lemma SomeoneUnblocked(s: State, i: nat) returns (k: nat)
    requires Inv(s) && Busy(s, i)
    ensures Busy(s, k)
    ensures !Blocked(s, s.threads[k])
            || (k == i && s.baton == None && s.semPriv == 0 && s.mutex == 1
                && (s.threads[i].at == WaitTwo || s.threads[i].at == WaitPriv))
  {
    if s.baton.Some? {
      k := s.baton.value;
      assert HasBaton(s.threads[k]) && ThreadInv(s, s.threads[k]);
    } else if 0 < s.semPriv {
      k :| 0 <= k < |s.threads| && IsFirst(s.threads[k]) && s.threads[k].id == s.first.value;
      assert !HasBaton(s.threads[k]);
    } else {
      k := i;
      assert !HasBaton(s.threads[k]);
    }
  }

  /** With two calls in progress somebody can go on: the only way to get stuck is to call
      without a partner. */
  lemma StuckOnlyAlone(ss: seq<State>, n: nat, i: nat, j: nat) returns (k: nat, s': State)
    requires IsRun(ss) && n < |ss| && i != j && i < |ss[n].threads| && j < |ss[n].threads|
    requires ss[n].threads[i].Calling? && ss[n].threads[j].Calling?
    ensures k < |ss[n].threads| && ss[n].threads[k].Calling? && Step(ss[n], s', k)
  {
    var s := ss[n];
    RunKeeps(ss, n);
    hide Step, IsRun;
    k := SomeoneUnblocked(s, i);
    if Blocked(s, s.threads[k]) {
      k := SomeoneUnblocked(s, j);
      if Blocked(s, s.threads[k]) {
        k := ThirdUnblocked(s, i, j);
      }
    }
    s' := CanGoOn(s, k);
  }

  lemma ThirdUnblocked(s: State, i: nat, j: nat) returns (k: nat)
    requires Inv(s) && i != j && Busy(s, i) && Busy(s, j) && Blocked(s, s.threads[i]) && Blocked(s, s.threads[j])
    requires s.baton == None && s.semPriv == 0 && s.mutex == 1
    ensures Busy(s, k) && !Blocked(s, s.threads[k])
  {
    assert !HasBaton(s.threads[i]) && !HasBaton(s.threads[j]);
    if s.threads[i].at == WaitPriv && s.threads[j].at == WaitPriv {
      OneWaits(s, i);
      OneWaits(s, j);
    }
    assert s.atMostTwo == 0 && Held(s.threads) == 2;
    var w := i;
    if exists x :: At(s, x, WaitPriv) {
      w :| At(s, w, WaitPriv);
    }
    assert Tokens(s.threads[w]) <= 1;
    if forall k :: 0 <= k < |s.threads| && k != w ==> Tokens(s.threads[k]) == 0 {
      OnlyHolder(s.threads, w);
    }
    k :| 0 <= k < |s.threads| && k != w && Tokens(s.threads[k]) != 0;
    assert !HasBaton(s.threads[k]);
    if s.threads[k].at == WaitPriv {
      assert At(s, k, WaitPriv);
      OneWaits(s, k);
      OneWaits(s, w);
    }
  }
}
