// The bounded mailbox of an actor (utils/actors.c) as a transition system: any number of
// producers insert messages, one consumer removes them, each atomic access is one step.

module Mailbox {
  import opened Options
  import opened Rings

  /** A `void *` other than NULL. */
  type Msg = nat

  datatype Producer =
    | Idle
    | Look(msg: Msg)                  // about to read reserved_size
    | Reserve(msg: Msg, seen: int)     // about to CAS reserved_size
    | Take(msg: Msg)                  // about to take a write ticket
    | Put(msg: Msg, ticket: nat)      // about to write the slot
    | Publish(msg: Msg, ticket: nat)  // about to increment ready_size

  datatype Consumer =
    | Away
    | Looking                         // about to read ready_size
    | Claim(seen: int)                 // about to CAS ready_size
    | TakeStart                       // about to take a read ticket
    | Read(ticket: nat)
    | Clear(ticket: nat, res: Option<Msg>)
    | Check(res: Option<Msg>)         // assert(result)
    | Release(msg: Msg)               // about to decrement reserved_size
    | Aborted                         // the assertion failed

  /** `log` (the messages in the order of their write tickets; |log| is write_loc) and
      `received` are auxiliary. */
  datatype State = State(
    box: Ring<Option<Msg>>, start: nat, reserved: int, ready: int,
    producers: seq<Producer>, consumer: Consumer,
    log: seq<Msg>, received: seq<Msg>)

  /** An insert is called, finds room or is refused, reserves or loses the CAS, and inserts;
      a remove is called, finds a message or nothing, removes or loses the CAS, and returns. */
  datatype Event =
    | Silent
    | InsertCalled(who: nat)
    | FoundRoom(who: nat)
    | Refused(who: nat)
    | Reserved(who: nat)
    | InsertLost(who: nat)
    | Inserted(msg: Msg)
    | RemoveCalled
    | FoundMessage
    | FoundNothing
    | Removed
    | RemoveLost
    | Returned(msg: Msg)

  ghost predicate Init(s: State) {
    && s.box.Valid() && (forall t :: s.box.Get(t) == None)
    && s.start == 0 && s.reserved == 0 && s.ready == 0 && s.log == [] && s.received == []
    && s.consumer == Away && forall i :: 0 <= i < |s.producers| ==> s.producers[i] == Idle
  }

  function Goto(s: State, i: nat, pc: Producer): State
    requires i < |s.producers|
  {
    s.(producers := s.producers[i := pc])
  }

  /** `actor_insert_msg` */
  ghost predicate InsertStep(s: State, s': State, i: nat, ev: Event)
    requires i < |s.producers| && s.box.Valid()
  {
    match s.producers[i]
    case Idle => ev == InsertCalled(i) && exists m :: s' == Goto(s, i, Look(m))
    case Look(m) =>
      if s.reserved >= s.box.Size() then ev == Refused(i) && s' == Goto(s, i, Idle)
      else ev == FoundRoom(i) && s' == Goto(s, i, Reserve(m, s.reserved))
    case Reserve(m, seen) =>
      if s.reserved == seen then ev == Reserved(i) && s' == Goto(s, i, Take(m)).(reserved := seen + 1)
      else ev == InsertLost(i) && s' == Goto(s, i, Idle)
    case Take(m) => ev == Silent && s' == Goto(s, i, Put(m, |s.log|)).(log := s.log + [m])
    case Put(m, t) => ev == Silent && s' == Goto(s, i, Publish(m, t)).(box := s.box.Set(t, Some(m)))
    case Publish(m, _) => ev == Inserted(m) && s' == Goto(s, i, Idle).(ready := s.ready + 1)
  }

  /** `actor_remove_msg` */
  ghost predicate RemoveStep(s: State, s': State, ev: Event)
    requires s.box.Valid()
  {
    match s.consumer
    case Away => ev == RemoveCalled && s' == s.(consumer := Looking)
    case Looking =>
      if s.ready <= 0 then ev == FoundNothing && s' == s.(consumer := Away)
      else ev == FoundMessage && s' == s.(consumer := Claim(s.ready))
    case Claim(seen) =>
      if s.ready == seen then ev == Removed && s' == s.(ready := seen - 1, consumer := TakeStart)
      else ev == RemoveLost && s' == s.(consumer := Away)
    case TakeStart => ev == Silent && s' == s.(start := s.start + 1, consumer := Read(s.start))
    case Read(t) => ev == Silent && s' == s.(consumer := Clear(t, s.box.Get(t)))
    case Clear(t, res) => ev == Silent && s' == s.(box := s.box.Set(t, None), consumer := Check(res))
    case Check(res) => ev == Silent && s' == s.(consumer := if res.Some? then Release(res.value) else Aborted)
    case Release(m) =>
      ev == Returned(m) && s' == s.(reserved := s.reserved - 1, consumer := Away, received := s.received + [m])
    case Aborted => false
  }

  /** A failed assertion stops everybody. */
  ghost predicate Next(s: State, s': State, ev: Event)
    requires s.box.Valid()
  {
    && !s.consumer.Aborted?
    && (RemoveStep(s, s', ev) || exists i :: 0 <= i < |s.producers| && InsertStep(s, s', i, ev))
  }

  // ------------------------------------------------------------- the counters

  function One(b: bool): nat {
    if b then 1 else 0
  }

  predicate HasTicket(pc: Producer) {
    pc.Put? || pc.Publish?
  }

  /** Producers that hold a reservation, and those that also hold a ticket. */
  function Reserving(ps: seq<Producer>): nat {
    if ps == [] then 0 else One(ps[0].Take? || HasTicket(ps[0])) + Reserving(ps[1..])
  }

  function Ticketed(ps: seq<Producer>): nat {
    if ps == [] then 0 else One(HasTicket(ps[0])) + Ticketed(ps[1..])
  }

  lemma {:induction false} CountsUpdate(ps: seq<Producer>, i: nat, pc: Producer)
    requires i < |ps|
    ensures Reserving(ps[i := pc]) + One(ps[i].Take? || HasTicket(ps[i])) == Reserving(ps) + One(pc.Take? || HasTicket(pc))
    ensures Ticketed(ps[i := pc]) + One(HasTicket(ps[i])) == Ticketed(ps) + One(HasTicket(pc))
  {
    if i == 0 {
      assert ps[i := pc][1..] == ps[1..];
    } else {
      CountsUpdate(ps[1..], i - 1, pc);
      assert ps[i := pc][1..] == ps[1..][i - 1 := pc];
    }
  }

  lemma {:induction false} TakersReserve(ps: seq<Producer>)
    ensures Ticketed(ps) <= Reserving(ps)
    ensures forall i :: 0 <= i < |ps| && ps[i].Take? ==> Ticketed(ps) < Reserving(ps)
    ensures forall i :: 0 <= i < |ps| && HasTicket(ps[i]) ==> 0 < Ticketed(ps)
  {
    if ps != [] {
      TakersReserve(ps[1..]);
      assert forall i :: 1 <= i < |ps| ==> ps[i] == ps[1..][i - 1];
    }
  }

  lemma {:induction false} NobodyReserves(ps: seq<Producer>)
    requires forall i :: 0 <= i < |ps| ==> ps[i] == Idle
    ensures Reserving(ps) == 0 == Ticketed(ps)
  {
    if ps != [] {
      NobodyReserves(ps[1..]);
    }
  }

  /** Slots the consumer has claimed and not yet given back. */
  function Claimed(c: Consumer): nat {
    One(!c.Away? && !c.Looking? && !c.Claim?)
  }

  ghost predicate Counters(s: State) {
    && s.box.Valid() && 0 <= s.ready && s.reserved <= s.box.Size()
    && s.reserved == s.ready + Reserving(s.producers) + Claimed(s.consumer)
    && |s.log| == s.start + s.ready + Ticketed(s.producers) + One(s.consumer.TakeStart?)
    && (s.consumer.Claim? ==> 0 < s.consumer.seen)
    && forall i :: 0 <= i < |s.producers| && s.producers[i].Reserve? ==> s.producers[i].seen < s.box.Size()
  }

  lemma InsertCounts(s: State, s': State, i: nat, ev: Event)
    requires Counters(s) && i < |s.producers| && InsertStep(s, s', i, ev)
    ensures Counters(s') && s'.box.Size() == s.box.Size() && |s'.producers| == |s.producers|
  {
    hide Reserving, Ticketed, Ring.Get, Ring.Set;
    CountsUpdate(s.producers, i, s'.producers[i]);
  }

  lemma StepCounts(s: State, s': State, ev: Event)
    requires Counters(s) && Next(s, s', ev)
    ensures Counters(s') && s'.box.Size() == s.box.Size() && |s'.producers| == |s.producers|
  {
    if !RemoveStep(s, s', ev) {
      var i :| 0 <= i < |s.producers| && InsertStep(s, s', i, ev);
      InsertCounts(s, s', i, ev);
    }
  }

  ghost predicate IsRun(ss: seq<State>, evs: seq<Event>) {
    && |ss| == |evs| + 1 && Init(ss[0])
    && forall k :: 0 <= k < |evs| ==> ss[k].box.Valid() && Next(ss[k], ss[k + 1], evs[k])
  }

  lemma {:induction false} RunCounts(ss: seq<State>, evs: seq<Event>, n: nat)
    requires IsRun(ss, evs) && n < |ss|
    ensures Counters(ss[n]) && ss[n].box.Size() == ss[0].box.Size() && |ss[n].producers| == |ss[0].producers|
  {
    if n == 0 {
      NobodyReserves(ss[0].producers);
    } else {
      RunCounts(ss, evs, n - 1);
      assert Next(ss[n - 1], ss[n - 1 + 1], evs[n - 1]);
      StepCounts(ss[n - 1], ss[n], evs[n - 1]);
    }
  }

  /** However many producers there are, 0 <= ready_size <= reserved_size <= capacity. */
  lemma SizesStayInBounds(ss: seq<State>, evs: seq<Event>, n: nat)
    requires IsRun(ss, evs) && n < |ss|
    ensures 0 <= ss[n].ready <= ss[n].reserved <= ss[0].box.Size()
  {
    RunCounts(ss, evs, n);
  }

  // ---------------------------------------------------------------- the slots

  /** No producer has yet to write its message for ticket t. */
  ghost predicate Written(ps: seq<Producer>, t: nat) {
    forall i :: 0 <= i < |ps| && ps[i].Put? ==> ps[i].ticket != t
  }

  lemma WrittenMoves(ps: seq<Producer>, i: nat, pc: Producer, t: nat)
    requires i < |ps|
    ensures !(ps[i].Put? && ps[i].ticket == t) && !(pc.Put? && pc.ticket == t) ==> Written(ps[i := pc], t) == Written(ps, t)
    ensures pc.Put? && pc.ticket == t ==> !Written(ps[i := pc], t)
    ensures ps[i].Put? && ps[i].ticket == t ==> !Written(ps, t)
  {
    var ps' := ps[i := pc];
    assert forall j :: 0 <= j < |ps| && j != i ==> ps'[j] == ps[j];
    assert ps'[i] == pc;
    if Written(ps', t) && !(ps[i].Put? && ps[i].ticket == t) {
      forall j | 0 <= j < |ps| && ps[j].Put?
        ensures ps[j].ticket != t
      {
        assert j != i ==> ps'[j] == ps[j];
      }
    }
  }

  /** The consumer has read NULL. */
  predicate Failing(s: State) {
    s.consumer.Aborted? || (s.consumer.Clear? && s.consumer.res == None) || (s.consumer.Check? && s.consumer.res == None)
  }

  /** The first ticket whose slot has not been cleared. */
  function Low(s: State): int {
    s.start - One(s.consumer.Read? || s.consumer.Clear?)
  }

  /** The message of ticket t if it has been written. */
  ghost function Expected(s: State, t: nat): Option<Msg> {
    if t < |s.log| && Written(s.producers, t) then Some(s.log[t]) else None
  }

  ghost predicate SlotsOk(s: State)
    requires s.box.Valid()
  {
    && 0 <= Low(s)
    && forall t :: Low(s) <= t < Low(s) + s.box.Size() ==> s.box.Get(t) == Expected(s, t)
  }

  ghost predicate TicketsOk(s: State) {
    && (forall i :: 0 <= i < |s.producers| && HasTicket(s.producers[i]) ==>
          s.producers[i].ticket < |s.log| && s.log[s.producers[i].ticket] == s.producers[i].msg)
    && (forall i :: 0 <= i < |s.producers| && s.producers[i].Put? ==> Low(s) <= s.producers[i].ticket)
    && (forall i, j :: 0 <= i < j < |s.producers| && s.producers[i].Put? && s.producers[j].Put? ==>
          s.producers[i].ticket != s.producers[j].ticket)
  }

  ghost predicate ConsumerOk(s: State) {
    match s.consumer
    case Read(t) => t == s.start - 1
    case Clear(t, res) => t == s.start - 1 && t < |s.log| && res == Some(s.log[t]) && Written(s.producers, t)
    case Check(res) => 0 < s.start <= |s.log| && res == Some(s.log[s.start - 1])
    case Release(m) => 0 < s.start <= |s.log| && m == s.log[s.start - 1]
    case _ => true
  }

  ghost predicate Inv(s: State) {
    && Counters(s)
    && (!Failing(s) ==>
          && SlotsOk(s) && TicketsOk(s) && ConsumerOk(s)
          && s.start <= |s.log|
          && s.received == s.log[..s.start - One(s.consumer.Read? || s.consumer.Clear? || s.consumer.Check? || s.consumer.Release?)])
  }

  lemma InitHolds(s: State)
    requires Init(s)
    ensures Inv(s)
  {
    NobodyReserves(s.producers);
  }

  // ------------------------------------------------------------- preservation

  lemma PlainInsertMoves(s: State, s': State, i: nat, ev: Event)
    requires s.box.Valid() && i < |s.producers| && InsertStep(s, s', i, ev) && !s.producers[i].Take? && !s.producers[i].Put?
    ensures i < |s'.producers| && s'.producers == s.producers[i := s'.producers[i]] && !HasTicket(s'.producers[i])
    ensures s'.box == s.box && s'.log == s.log && s'.start == s.start && s'.consumer == s.consumer && s'.received == s.received
  {
    hide Ring.Get, Ring.Set;
  }

  /** A producer's step that touches neither slots nor tickets. */
  lemma PlainInsertKeeps(s: State, s': State, i: nat, ev: Event)
    requires Inv(s) && !Failing(s) && i < |s.producers| && InsertStep(s, s', i, ev) && Counters(s')
    requires !s.producers[i].Take? && !s.producers[i].Put?
    ensures Inv(s')
  {
    hide Written, Ring.Get, Ring.Set;
    PlainInsertMoves(s, s', i, ev);
    hide Counters;
    var pc := s'.producers[i];
    forall t
      ensures Written(s'.producers, t) == Written(s.producers, t)
    {
      WrittenMoves(s.producers, i, pc, t);
    }
    hide InsertStep;
  }

  lemma TakeKeeps(s: State, s': State, i: nat, ev: Event)
    requires Inv(s) && !Failing(s) && i < |s.producers| && InsertStep(s, s', i, ev) && Counters(s')
    requires s.producers[i].Take?
    ensures Inv(s')
  {
    hide Written, Ring.Get, Ring.Set, Reserving, Ticketed;
    TakersReserve(s.producers);
    var n, pc := |s.log|, s'.producers[i];
    assert Low(s) <= n < Low(s) + s.box.Size();
    hide Counters;
    assert pc == Put(s.producers[i].msg, n) && s'.producers == s.producers[i := pc];
    forall t
      ensures t != n ==> Written(s'.producers, t) == Written(s.producers, t)
      ensures t == n ==> !Written(s'.producers, t)
    {
      WrittenMoves(s.producers, i, pc, t);
    }
    hide InsertStep;
    forall t | Low(s) <= t < Low(s) + s.box.Size()
      ensures s'.box.Get(t) == Expected(s', t)
    {
      assert s.box.Get(t) == Expected(s, t);
    }
  }

  lemma PutKeeps(s: State, s': State, i: nat, ev: Event)
    requires Inv(s) && !Failing(s) && i < |s.producers| && InsertStep(s, s', i, ev) && Counters(s')
    requires s.producers[i].Put?
    ensures Inv(s')
  {
    var pc, pc' := s.producers[i], s'.producers[i];
    TakersReserve(s.producers);
    assert Low(s) <= pc.ticket < |s.log| <= Low(s) + s.box.Size();
    SetGet(s.box, pc.ticket, Some(pc.msg));
    hide Counters;
    assert pc' == Publish(pc.msg, pc.ticket) && s'.producers == s.producers[i := pc'];
    forall t
      ensures t != pc.ticket ==> Written(s'.producers, t) == Written(s.producers, t)
      ensures t == pc.ticket ==> Written(s'.producers, t) && !Written(s.producers, t)
    {
      WrittenMoves(s.producers, i, pc', t);
    }
    hide InsertStep, Written;
    forall t | Low(s) <= t < Low(s) + s.box.Size()
      ensures s'.box.Get(t) == Expected(s', t)
    {
      assert s.box.Get(t) == Expected(s, t);
    }
  }

  lemma InsertKeeps(s: State, s': State, i: nat, ev: Event)
    requires Inv(s) && !Failing(s) && i < |s.producers| && InsertStep(s, s', i, ev) && Counters(s')
    ensures Inv(s')
  {
    hide Inv, Counters, InsertStep;
    if s.producers[i].Take? {
      TakeKeeps(s, s', i, ev);
    } else if s.producers[i].Put? {
      PutKeeps(s, s', i, ev);
    } else {
      PlainInsertKeeps(s, s', i, ev);
    }
  }

  /** The consumer reads a message exactly when the producer of its ticket has written. */
  lemma ReadsExactlyWhatIsWritten(s: State)
    requires Inv(s) && s.consumer.Read?
    ensures var t := s.consumer.ticket;
            t < |s.log| && s.box.Get(t) == if Written(s.producers, t) then Some(s.log[t]) else None
  {
    assert Low(s) == s.consumer.ticket;
  }

  lemma ClearSlots(s: State, s': State)
    requires s.box.Valid() && SlotsOk(s) && s.consumer.Clear? && s.consumer.ticket == s.start - 1
    requires |s.log| <= s.consumer.ticket + s.box.Size()
    requires s' == s.(box := s.box.Set(s.consumer.ticket, None), consumer := Check(s.consumer.res))
    ensures SlotsOk(s')
  {
    var t, n := s.consumer.ticket, s.box.Size();
    SetGet(s.box, t, None);
    SameSlot(s'.box, t);
    hide Ring.Get, Ring.Set, Written;
    forall u | t + 1 <= u < t + 1 + n
      ensures s'.box.Get(u) == Expected(s', u)
    {
      if u < t + n {
        assert s.box.Get(u) == Expected(s, u) == Expected(s', u);
      }
    }
  }

  lemma ClearKeeps(s: State, s': State, ev: Event)
    requires Inv(s) && !Failing(s) && RemoveStep(s, s', ev) && s.consumer.Clear? && Counters(s')
    ensures Inv(s')
  {
    TakersReserve(s.producers);
    ClearSlots(s, s');
    hide Counters, SlotsOk, Written, Ring.Get, Ring.Set;
  }

  lemma ModPlus(t: int, n: int)
    requires 0 < n
    ensures (t + n) % n == t % n
  {
    var x, y := (t + n) % n, t % n;
    var d := 1 + t / n - (t + n) / n;
    assert x - y == n * d;
    if d >= 1 {
      MulAtLeast(n, d);
    } else if d <= -1 {
      MulAtLeast(n, -d);
    }
  }

  lemma SameSlot(r: Ring<Option<Msg>>, t: int)
    requires r.Valid()
    ensures r.Get(t + r.Size()) == r.Get(t)
  {
    ModPlus(t, r.Size());
  }

  lemma RemoveKeeps(s: State, s': State, ev: Event)
    requires Inv(s) && !Failing(s) && RemoveStep(s, s', ev) && Counters(s')
    ensures Inv(s')
  {
    hide Written, Ring.Get, Ring.Set, Reserving, Ticketed;
    if s.consumer.Clear? {
      hide Inv, Counters, RemoveStep;
      ClearKeeps(s, s', ev);
    } else {
      if s.consumer.TakeStart? {
        assert s.start < |s.log|;
      }
      hide Counters;
      assert s'.box == s.box && s'.log == s.log && s'.producers == s.producers && Low(s') == Low(s);
      assert SlotsOk(s') by {
        assert forall u :: Expected(s', u) == Expected(s, u);
      }
    }
  }

  lemma InvCounts(s: State)
    requires Inv(s)
    ensures Counters(s) && s.box.Valid()
  {
  }

  lemma FailingStays(s: State, s': State, ev: Event)
    requires s.box.Valid() && Failing(s) && Next(s, s', ev)
    ensures Failing(s')
  {
    hide Ring.Get, Ring.Set;
  }

  lemma StepKeeps(s: State, s': State, ev: Event)
    requires Inv(s) && Next(s, s', ev)
    ensures Inv(s')
  {
    InvCounts(s);
    StepCounts(s, s', ev);
    hide Counters, InsertStep, RemoveStep;
    if Failing(s) {
      FailingStays(s, s', ev);
    } else {
      hide Inv;
      if RemoveStep(s, s', ev) {
        RemoveKeeps(s, s', ev);
      } else {
        var i :| 0 <= i < |s.producers| && InsertStep(s, s', i, ev);
        InsertKeeps(s, s', i, ev);
      }
    }
  }

  lemma {:induction false} RunKeeps(ss: seq<State>, evs: seq<Event>, n: nat)
    requires IsRun(ss, evs) && n < |ss|
    ensures Inv(ss[n])
  {
    if n == 0 {
      InitHolds(ss[0]);
    } else {
      RunKeeps(ss, evs, n - 1);
      assert Next(ss[n - 1], ss[n - 1 + 1], evs[n - 1]);
      hide Inv, Next;
      StepKeeps(ss[n - 1], ss[n], evs[n - 1]);
    }
  }

  /** Any number of producers: the consumer gets the messages in the order of their write
      tickets, each once, and its read fails exactly while the producer with its ticket
      has still to write. */
  lemma ReceivedInTicketOrder(ss: seq<State>, evs: seq<Event>, n: nat)
    requires IsRun(ss, evs) && n < |ss|
    ensures Failing(ss[n]) || ss[n].received <= ss[n].log
    ensures ss[n].box.Valid()
    ensures ss[n].consumer.Read? ==>
              var t := ss[n].consumer.ticket;
              t < |ss[n].log| && (ss[n].box.Get(t) == None <==> !Written(ss[n].producers, t))
              && (ss[n].box.Get(t).Some? ==> ss[n].box.Get(t) == Some(ss[n].log[t]))
  {
    RunKeeps(ss, evs, n);
    hide Written;
    if ss[n].consumer.Read? {
      ReadsExactlyWhatIsWritten(ss[n]);
    }
  }

  // ------------------------------------------------- refused inserts, empty removes

  lemma LookStep(s: State, s': State, ev: Event, i: nat)
    requires s.box.Valid() && Next(s, s', ev) && i < |s.producers|
    ensures |s'.producers| == |s.producers|
    ensures s'.producers[i].Reserve? ==>
              if ev == FoundRoom(i) then s.reserved == s'.producers[i].seen < s.box.Size()
              else s'.producers[i] == s.producers[i]
    ensures ev == Refused(i) ==> s.reserved >= s.box.Size()
    ensures ev == InsertLost(i) ==> s.producers[i].Reserve? && s.producers[i].seen != s.reserved
  {
    hide Ring.Get, Ring.Set;
  }

  /** The look an insert's reservation goes by. */
  lemma {:induction false} LookOfInsert(ss: seq<State>, evs: seq<Event>, n: nat, i: nat) returns (l: nat)
    requires IsRun(ss, evs) && n < |ss| && i < |ss[n].producers| && ss[n].producers[i].Reserve?
    ensures l < n && evs[l] == FoundRoom(i) && ss[l].reserved == ss[n].producers[i].seen < ss[0].box.Size()
    ensures forall k :: l < k < n ==> evs[k] != FoundRoom(i)
  {
    hide Next, Counters;
    assert 0 < n && ss[n - 1].box.Valid() && Next(ss[n - 1], ss[n - 1 + 1], evs[n - 1]);
    RunCounts(ss, evs, n - 1);
    RunCounts(ss, evs, n);
    LookStep(ss[n - 1], ss[n], evs[n - 1], i);
    if evs[n - 1] == FoundRoom(i) {
      l := n - 1;
    } else {
      l := LookOfInsert(ss, evs, n - 1, i);
    }
  }

  /** However many producers there are, an insert is refused only if as many slots as there
      are were reserved, or if the number reserved is not the one it had seen. */
  lemma InsertFailsOnlyIf(ss: seq<State>, evs: seq<Event>, n: nat, i: nat)
    requires IsRun(ss, evs) && n < |evs| && i < |ss[n].producers|
    ensures evs[n] == Refused(i) ==> ss[n].reserved == ss[0].box.Size()
    ensures evs[n] == InsertLost(i) ==>
              exists l :: 0 <= l < n && evs[l] == FoundRoom(i)
                          && ss[l].reserved < ss[0].box.Size() && ss[l].reserved != ss[n].reserved
                          && forall k :: l < k < n ==> evs[k] != FoundRoom(i)
  {
    hide Next;
    RunCounts(ss, evs, n);
    assert ss[n].box.Valid() && Next(ss[n], ss[n + 1], evs[n]);
    LookStep(ss[n], ss[n + 1], evs[n], i);
    if evs[n] == InsertLost(i) {
      var l := LookOfInsert(ss, evs, n, i);
    }
  }

  lemma RemoveLookStep(s: State, s': State, ev: Event)
    requires s.box.Valid() && Next(s, s', ev)
    ensures s'.consumer.Claim? ==>
              if ev == FoundMessage then 0 < s.ready == s'.consumer.seen else s'.consumer == s.consumer
    ensures ev == FoundNothing ==> s.ready <= 0
    ensures ev == RemoveLost ==> s.consumer.Claim? && s.consumer.seen != s.ready
  {
    hide Ring.Get, Ring.Set;
  }

  lemma {:induction false} LookOfRemove(ss: seq<State>, evs: seq<Event>, n: nat) returns (l: nat)
    requires IsRun(ss, evs) && n < |ss| && ss[n].consumer.Claim?
    ensures l < n && evs[l] == FoundMessage && 0 < ss[l].ready == ss[n].consumer.seen
    ensures forall k :: l < k < n ==> evs[k] != FoundMessage
  {
    hide Next;
    assert 0 < n && ss[n - 1].box.Valid() && Next(ss[n - 1], ss[n - 1 + 1], evs[n - 1]);
    RemoveLookStep(ss[n - 1], ss[n], evs[n - 1]);
    if evs[n - 1] == FoundMessage {
      l := n - 1;
    } else {
      l := LookOfRemove(ss, evs, n - 1);
    }
  }

  /** A remove answers NULL only if nothing was ready, or if the number of ready messages
      is not the one it had seen. */
  lemma RemoveFailsOnlyIf(ss: seq<State>, evs: seq<Event>, n: nat)
    requires IsRun(ss, evs) && n < |evs|
    ensures evs[n] == FoundNothing ==> ss[n].ready == 0
    ensures evs[n] == RemoveLost ==>
              exists l :: 0 <= l < n && evs[l] == FoundMessage && 0 < ss[l].ready != ss[n].ready
                          && forall k :: l < k < n ==> evs[k] != FoundMessage
  {
    hide Next;
    RunCounts(ss, evs, n);
    assert ss[n].box.Valid() && Next(ss[n], ss[n + 1], evs[n]);
    RemoveLookStep(ss[n], ss[n + 1], evs[n]);
    if evs[n] == RemoveLost {
      var l := LookOfRemove(ss, evs, n);
    }
  }

  // ------------------------------------------------------- one producer: a FIFO

  /** How far a call has come: it has yet to look, it has found room (or a message), or it
      was granted; `changed` tells whether a message was returned (or inserted) since. */
  datatype Ask = Absent | Called | Looked(changed: bool) | Granted

  function Changed(a: Ask): Ask {
    if a.Looked? then Looked(true) else a
  }

  /** `hand` is the message the consumer has taken and not yet returned. */
  datatype Fifo = Fifo(items: seq<Msg>, hand: Option<Msg>, inserting: Ask, removing: Ask) {
    function Stored(): nat {
      |items| + One(hand.Some?)
    }
  }

  predicate FifoNext(f: Fifo, f': Fifo, ev: Event, capacity: nat) {
    match ev
    case Silent => f' == f
    case InsertCalled(_) => f.inserting == Absent && f' == f.(inserting := Called)
    case FoundRoom(_) => f.Stored() < capacity && f.inserting == Called && f' == f.(inserting := Looked(false))
    case Refused(_) => f.Stored() == capacity && f.inserting == Called && f' == f.(inserting := Absent)
    case Reserved(_) => f.inserting == Looked(false) && f' == f.(inserting := Granted)
    case InsertLost(_) => f.inserting == Looked(true) && f' == f.(inserting := Absent)
    case Inserted(m) =>
      && f.Stored() < capacity && f.inserting == Granted
      && f' == f.(items := f.items + [m], inserting := Absent, removing := Changed(f.removing))
    case RemoveCalled => f.removing == Absent && f' == f.(removing := Called)
    case FoundMessage => f.items != [] && f.removing == Called && f' == f.(removing := Looked(false))
    case FoundNothing => f.items == [] && f.removing == Called && f' == f.(removing := Absent)
    case Removed =>
      && f.items != [] && f.hand == None && f.removing == Looked(false)
      && f' == f.(items := f.items[1..], hand := Some(f.items[0]), removing := Granted)
    case RemoveLost => f.removing == Looked(true) && f' == f.(removing := Absent)
    case Returned(m) =>
      && f.hand == Some(m) && f.removing == Granted
      && f' == f.(hand := None, removing := Absent, inserting := Changed(f.inserting))
  }

  ghost predicate SoloInv(s: State) {
    && Inv(s) && |s.producers| == 1 && !Failing(s)
    && (HasTicket(s.producers[0]) ==> s.producers[0].ticket == |s.log| - 1)
    && (s.producers[0].Reserve? ==> s.reserved <= s.producers[0].seen)
    && (s.consumer.Claim? ==> s.consumer.seen <= s.ready)
  }

  lemma CountOne(ps: seq<Producer>)
    requires |ps| == 1
    ensures Reserving(ps) == One(ps[0].Take? || HasTicket(ps[0])) && Ticketed(ps) == One(HasTicket(ps[0]))
  {
    assert ps == [ps[0]] && ps[1..] == [];
  }

  /** How many messages the consumer has taken so far. */
  function Taken(s: State): nat {
    s.start + One(s.consumer.TakeStart?)
  }

  lemma SoloSizes(s: State)
    requires SoloInv(s)
    ensures s.box.Valid() && |s.producers| == 1
    ensures 0 <= s.ready && |s.log| == Taken(s) + s.ready + One(HasTicket(s.producers[0]))
    ensures Claimed(s.consumer) == 1 ==> 0 < Taken(s)
    ensures s.producers[0].Publish? ==> s.ready < s.box.Size() && s.producers[0].msg == s.log[|s.log| - 1]
    ensures s.consumer.Release? ==> s.consumer.msg == s.log[s.start - 1]
    ensures s.consumer.Claim? ==> 0 < s.consumer.seen <= s.ready
    ensures s.producers[0].Reserve? ==> s.reserved <= s.producers[0].seen
    ensures s.reserved == s.ready + One(s.producers[0].Take? || HasTicket(s.producers[0])) + Claimed(s.consumer) <= s.box.Size()
  {
    CountOne(s.producers);
    assert TicketsOk(s) && ConsumerOk(s);
    hide SlotsOk;
  }

  /** The k messages with tickets n, n + 1, ... */
  function Items(log: seq<Msg>, n: nat, k: int): seq<Msg> {
    if 0 <= k && n + k <= |log| then log[n..n + k] else []
  }

  lemma ItemsFirst(log: seq<Msg>, n: nat, k: nat)
    requires n + k <= |log| && 0 < k
    ensures Items(log, n, k) == [log[n]] + Items(log, n + 1, k - 1)
  {
    assert log[n..n + k] == [log[n]] + log[n + 1..n + k];
  }

  lemma ItemsLast(log: seq<Msg>, n: nat, k: nat)
    requires n + k < |log|
    ensures Items(log, n, k + 1) == Items(log, n, k) + [log[n + k]]
  {
    assert log[n..n + k + 1] == log[n..n + k] + [log[n + k]];
  }

  lemma ItemsMove(log: seq<Msg>, n: nat, k: nat)
    requires n + k <= |log|
    ensures |Items(log, n, k)| == k
    ensures 0 < k ==> Items(log, n, k) == [log[n]] + Items(log, n + 1, k - 1)
    ensures n + k < |log| ==> Items(log, n, k + 1) == Items(log, n, k) + [log[n + k]]
  {
    assert |Items(log, n, k)| == k;
    hide Items;
    if 0 < k {
      ItemsFirst(log, n, k);
    }
    if n + k < |log| {
      ItemsLast(log, n, k);
    }
  }

  lemma ItemsPrefix(log: seq<Msg>, log': seq<Msg>, n: nat, k: nat)
    requires n + k <= |log| && log <= log'
    ensures Items(log', n, k) == Items(log, n, k)
  {
  }

  /** The message with ticket n - 1, if the consumer holds it. */
  function Hand(log: seq<Msg>, c: Consumer, n: nat): Option<Msg> {
    if Claimed(c) == 1 && 0 < n <= |log| then Some(log[n - 1]) else None
  }

  /** How far the insert, and the remove, have come. */
  function Inserting(ps: seq<Producer>, reserved: int): Ask {
    if ps == [] || ps[0].Idle? then Absent
    else if ps[0].Look? then Called
    else if ps[0].Reserve? then Looked(ps[0].seen != reserved)
    else Granted
  }

  function Removing(c: Consumer, ready: int): Ask {
    if c.Away? then Absent
    else if c.Looking? then Called
    else if c.Claim? then Looked(c.seen != ready)
    else Granted
  }

  function Abs(s: State): Fifo {
    Fifo(Items(s.log, Taken(s), s.ready), Hand(s.log, s.consumer, Taken(s)),
         Inserting(s.producers, s.reserved), Removing(s.consumer, s.ready))
  }

  /** The consumer never reads NULL: the one producer's ticket is beyond its own. */
  lemma SoloReads(s: State)
    requires SoloInv(s) && s.consumer.Read?
    ensures s.box.Valid() && s.box.Get(s.consumer.ticket).Some?
  {
    SoloSizes(s);
    ReadsExactlyWhatIsWritten(s);
    assert Written(s.producers, s.consumer.ticket);
  }

  lemma SoloStepKeeps(s: State, s': State, ev: Event)
    requires SoloInv(s) && s.box.Valid() && Next(s, s', ev)
    ensures SoloInv(s') && s'.box.Size() == s.box.Size()
  {
    hide Inv, Next;
    StepKeeps(s, s', ev);
    SoloCounts(s, s', ev);
    if s.consumer.Read? {
      SoloReads(s);
    }
    SoloMoves(s, s', ev);
  }

  lemma SoloMoves(s: State, s': State, ev: Event)
    requires s.box.Valid() && Next(s, s', ev) && |s.producers| == 1 == |s'.producers| && !Failing(s)
    requires s.consumer.Read? ==> s.box.Get(s.consumer.ticket).Some?
    requires HasTicket(s.producers[0]) ==> s.producers[0].ticket == |s.log| - 1
    requires s.producers[0].Reserve? ==> s.reserved <= s.producers[0].seen
    requires s.consumer.Claim? ==> s.consumer.seen <= s.ready
    ensures !Failing(s')
    ensures HasTicket(s'.producers[0]) ==> s'.producers[0].ticket == |s'.log| - 1
    ensures s'.producers[0].Reserve? ==> s'.reserved <= s'.producers[0].seen
    ensures s'.consumer.Claim? ==> s'.consumer.seen <= s'.ready
  {
    hide Ring.Get, Ring.Set;
  }

  lemma SoloCounts(s: State, s': State, ev: Event)
    requires Inv(s) && s.box.Valid() && Next(s, s', ev)
    ensures s'.box.Size() == s.box.Size() && |s'.producers| == |s.producers|
  {
    hide SlotsOk, TicketsOk, ConsumerOk, Next;
    StepCounts(s, s', ev);
  }

  /** What the consumer's steps change in the messages. */
  lemma RemoveShape(s: State, s': State, ev: Event)
    requires s.box.Valid() && RemoveStep(s, s', ev) && (s.consumer.Claim? ==> 0 < s.consumer.seen)
    ensures s'.log == s.log && s'.producers == s.producers
    ensures match ev
            case Removed => Taken(s') == Taken(s) + 1 && s'.ready == s.ready - 1 >= 0 && Claimed(s.consumer) == 0 && Claimed(s'.consumer) == 1
            case Returned(m) =>
              Taken(s') == Taken(s) == s.start && s'.ready == s.ready && s.consumer == Release(m) && Claimed(s'.consumer) == 0
            case _ =>
              && ev in {Silent, RemoveCalled, FoundMessage, FoundNothing, RemoveLost}
              && Taken(s') == Taken(s) && s'.ready == s.ready
              && (!s'.consumer.Aborted? ==> Claimed(s'.consumer) == Claimed(s.consumer))
  {
    hide Ring.Get, Ring.Set;
  }

  /** What they show of the looks. */
  lemma RemoveLooks(s: State, s': State, ev: Event)
    requires s.box.Valid() && RemoveStep(s, s', ev)
    ensures !s'.consumer.Aborted? ==>
              var a, a' := Removing(s.consumer, s.ready), Removing(s'.consumer, s'.ready);
              match ev
              case RemoveCalled => a == Absent && a' == Called
              case FoundMessage => a == Called && a' == Looked(false) && 0 < s.ready
              case FoundNothing => a == Called && a' == Absent && s.ready <= 0
              case Removed => a == Looked(false) && a' == Granted
              case RemoveLost => a == Looked(true) && a' == Absent
              case Returned(_) => a == Granted && a' == Absent
              case _ => a == Granted == a'
    ensures s'.reserved == if ev.Returned? then s.reserved - 1 else s.reserved
  {
    hide Ring.Get, Ring.Set;
  }

  lemma RemoveRefines(s: State, s': State, ev: Event)
    requires SoloInv(s) && SoloInv(s') && s.box.Valid() && RemoveStep(s, s', ev)
    ensures FifoNext(Abs(s), Abs(s'), ev, s.box.Size())
  {
    SoloSizes(s);
    SoloSizes(s');
    RemoveShape(s, s', ev);
    RemoveLooks(s, s', ev);
    hide SoloInv, RemoveStep, Taken, Claimed, Items, Removing;
    ItemsMove(s.log, Taken(s), s.ready);
  }

  /** What a producer's steps change in the messages. */
  lemma InsertShape(s: State, s': State, i: nat, ev: Event)
    requires s.box.Valid() && i < |s.producers| && InsertStep(s, s', i, ev)
    ensures s.log <= s'.log && s'.consumer == s.consumer && Taken(s') == Taken(s) && |s'.producers| == |s.producers|
    ensures match ev
            case Inserted(m) => s'.ready == s.ready + 1 && s.producers[i].Publish? && s.producers[i].msg == m && s'.log == s.log
            case _ => ev in {Silent, InsertCalled(i), FoundRoom(i), Refused(i), Reserved(i), InsertLost(i)} && s'.ready == s.ready
  {
    hide Ring.Get, Ring.Set;
  }

  /** What they show of the looks. */
  lemma InsertLooks(s: State, s': State, ev: Event)
    requires s.box.Valid() && 0 < |s.producers| == |s'.producers| && InsertStep(s, s', 0, ev)
    ensures var a, a' := Inserting(s.producers, s.reserved), Inserting(s'.producers, s'.reserved);
            match ev
            case InsertCalled(_) => a == Absent && a' == Called
            case FoundRoom(_) => a == Called && a' == Looked(false) && s.reserved < s.box.Size()
            case Refused(_) => a == Called && a' == Absent && s.reserved >= s.box.Size()
            case Reserved(_) => a == Looked(false) && a' == Granted
            case InsertLost(_) => a == Looked(true) && a' == Absent
            case Inserted(_) => a == Granted && a' == Absent
            case _ => a == Granted == a'
    ensures ev.FoundRoom? || ev.Refused? ==> !(s.producers[0].Take? || HasTicket(s.producers[0]))
    ensures ev.Inserted? ==> HasTicket(s.producers[0])
  {
    hide Ring.Get, Ring.Set;
  }

  /** What they do to the messages stored, in hand and looked at. */
  lemma InsertStores(s: State, s': State, ev: Event)
    requires SoloInv(s) && SoloInv(s') && s.box.Valid() && 0 < |s.producers| && InsertStep(s, s', 0, ev)
    ensures Abs(s').hand == Abs(s).hand && One(Abs(s).hand.Some?) == Claimed(s.consumer)
    ensures |Abs(s).items| == s.ready
    ensures ev.Inserted? ==> Abs(s').items == Abs(s).items + [ev.msg]
    ensures !ev.Inserted? ==> Abs(s').items == Abs(s).items && Abs(s').removing == Abs(s).removing
    ensures ev.Inserted? ==> Abs(s').removing == Changed(Abs(s).removing)
  {
    hide SoloInv, InsertStep, Claimed, Taken, HasTicket, Items, Hand, Inserting;
    SoloSizes(s);
    SoloSizes(s');
    InsertShape(s, s', 0, ev);
    var n := Taken(s);
    HandPrefix(s.log, s'.log, s.consumer, n);
    ItemsPrefix(s.log, s'.log, n, s.ready);
    ItemsMove(s.log, n, s.ready);
    TicketOf(s.producers[0]);
  }

  lemma TicketOf(pc: Producer)
    ensures pc.Publish? ==> HasTicket(pc)
  {
  }

  lemma HandPrefix(log: seq<Msg>, log': seq<Msg>, c: Consumer, n: nat)
    requires log <= log' && n <= |log| && (Claimed(c) == 1 ==> 0 < n)
    ensures Hand(log', c, n) == Hand(log, c, n) && One(Hand(log, c, n).Some?) == Claimed(c)
  {
  }

  lemma AbsLooks(s: State)
    ensures Abs(s).inserting == Inserting(s.producers, s.reserved)
  {
  }

  lemma InsertRefines(s: State, s': State, ev: Event)
    requires SoloInv(s) && SoloInv(s') && s.box.Valid() && 0 < |s.producers| && InsertStep(s, s', 0, ev)
    ensures FifoNext(Abs(s), Abs(s'), ev, s.box.Size())
  {
    hide Abs, SoloInv, InsertStep, Claimed, HasTicket, Inserting;
    SoloSizes(s);
    InsertShape(s, s', 0, ev);
    InsertLooks(s, s', ev);
    InsertStores(s, s', ev);
    AbsLooks(s);
    AbsLooks(s');
  }

  lemma SoloRefines(s: State, s': State, ev: Event)
    requires SoloInv(s) && SoloInv(s') && s.box.Valid() && Next(s, s', ev)
    ensures FifoNext(Abs(s), Abs(s'), ev, s.box.Size())
  {
    hide SoloInv, InsertStep, RemoveStep, FifoNext;
    SoloSizes(s);
    if RemoveStep(s, s', ev) {
      RemoveRefines(s, s', ev);
    } else {
      InsertRefines(s, s', ev);
    }
  }

  /** With one producer the mailbox is a FIFO bounded by its capacity, and
      `assert(result)` never fails. */
  lemma {:induction false} RunRefines(ss: seq<State>, evs: seq<Event>, n: nat)
    requires IsRun(ss, evs) && n < |ss| && |ss[0].producers| == 1
    ensures SoloInv(ss[n]) && ss[n].box.Size() == ss[0].box.Size() && !ss[n].consumer.Aborted?
    ensures n == 0 ==> Abs(ss[n]) == Fifo([], None, Absent, Absent)
    ensures 0 < n ==> FifoNext(Abs(ss[n - 1]), Abs(ss[n]), evs[n - 1], ss[0].box.Size())
  {
    if n == 0 {
      InitHolds(ss[0]);
    } else {
      RunRefines(ss, evs, n - 1);
      assert ss[n - 1].box.Valid() && Next(ss[n - 1], ss[n - 1 + 1], evs[n - 1]);
      hide Inv, Next;
      SoloStepKeeps(ss[n - 1], ss[n], evs[n - 1]);
      SoloRefines(ss[n - 1], ss[n], evs[n - 1]);
    }
  }

  // ----------------------------------------------- two producers: not a FIFO any more

  function Two(p0: Producer, p1: Producer, reserved: nat, log: seq<Msg>): State {
    State(Ring([None, None]), 0, reserved, 0, [p0, p1], Away, log, [])
  }

  function Stalled(p1: Producer, c: Consumer, start: nat, ready: nat): State {
    State(Ring([None, Some(8)]), start, 2, ready, [Put(7, 0), p1], c, [7, 8], [])
  }

  /** Producer 0 takes ticket 0 and stalls; producer 1 publishes ticket 1; the consumer
      reads ticket 0. */
  function FailingRun(k: nat): State {
    if k == 0 then Two(Idle, Idle, 0, [])
    else if k == 1 then Two(Look(7), Idle, 0, [])
    else if k == 2 then Two(Reserve(7, 0), Idle, 0, [])
    else if k == 3 then Two(Take(7), Idle, 1, [])
    else if k == 4 then Two(Put(7, 0), Idle, 1, [7])
    else if k == 5 then Two(Put(7, 0), Look(8), 1, [7])
    else if k == 6 then Two(Put(7, 0), Reserve(8, 1), 1, [7])
    else if k == 7 then Two(Put(7, 0), Take(8), 2, [7])
    else if k == 8 then Two(Put(7, 0), Put(8, 1), 2, [7, 8])
    else if k == 9 then Stalled(Publish(8, 1), Away, 0, 0)
    else if k == 10 then Stalled(Idle, Away, 0, 1)
    else if k == 11 then Stalled(Idle, Looking, 0, 1)
    else if k == 12 then Stalled(Idle, Claim(1), 0, 1)
    else if k == 13 then Stalled(Idle, TakeStart, 0, 0)
    else if k == 14 then Stalled(Idle, Read(0), 1, 0)
    else if k == 15 then Stalled(Idle, Clear(0, None), 1, 0)
    else if k == 16 then Stalled(Idle, Check(None), 1, 0)
    else Stalled(Idle, Aborted, 1, 0)
  }

  function FailingEvent(k: nat): Event {
    if k == 0 then InsertCalled(0)
    else if k == 1 then FoundRoom(0)
    else if k == 2 then Reserved(0)
    else if k == 4 then InsertCalled(1)
    else if k == 5 then FoundRoom(1)
    else if k == 6 then Reserved(1)
    else if k == 9 then Inserted(8)
    else if k == 10 then RemoveCalled
    else if k == 11 then FoundMessage
    else if k == 12 then Removed
    else Silent
  }

  lemma FirstProducer(k: nat)
    requires k < 4
    ensures FailingRun(k).box.Valid() && Next(FailingRun(k), FailingRun(k + 1), FailingEvent(k))
  {
    assert InsertStep(FailingRun(k), FailingRun(k + 1), 0, FailingEvent(k));
  }

  lemma SecondProducer(k: nat)
    requires 4 <= k < 10
    ensures FailingRun(k).box.Valid() && Next(FailingRun(k), FailingRun(k + 1), FailingEvent(k))
  {
    assert InsertStep(FailingRun(k), FailingRun(k + 1), 1, FailingEvent(k));
  }

  lemma ConsumerNext(k: nat)
    requires 10 <= k < 17
    ensures FailingRun(k).box.Valid() && Next(FailingRun(k), FailingRun(k + 1), FailingEvent(k))
  {
    assert RemoveStep(FailingRun(k), FailingRun(k + 1), FailingEvent(k));
  }

  lemma TwoProducersCanFail() returns (ss: seq<State>, evs: seq<Event>)
    ensures IsRun(ss, evs) && |ss[0].producers| == 2 && ss[0].box.Size() == 2
    ensures ss[|ss| - 1].consumer.Aborted?
  {
    ss, evs := seq(18, (k: nat) => FailingRun(k)), seq(17, (k: nat) => FailingEvent(k));
    assert Init(ss[0]);
    forall k | 0 <= k < |evs|
      ensures ss[k].box.Valid() && Next(ss[k], ss[k + 1], evs[k])
    {
      hide Next, FailingRun, FailingEvent;
      if k < 4 {
        FirstProducer(k);
      } else if k < 10 {
        SecondProducer(k);
      } else {
        ConsumerNext(k);
      }
    }
  }
}
