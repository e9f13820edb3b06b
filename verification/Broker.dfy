// The chameneos broker of bench/chameneos_bench/chameneos_actor.c.  Mailboxes are bounded
// FIFOs whose operations are single steps; any creature, or the broker, may move next.

module Broker {

  const CAPACITY: nat := 128

  datatype Colour = Blue | Red | Yellow

  /** `complement`: the colour itself, or the third one. */
  function Complement(a: Colour, b: Colour): Colour {
    if a == b then a
    else if a != Blue && b != Blue then Blue
    else if a != Red && b != Red then Red
    else Yellow
  }

  /** The enumerator's value. */
  function Code(c: Colour): bv8 {
    match c
    case Blue => 0
    case Red => 1
    case Yellow => 2
  }

  lemma ComplementIsXor(a: Colour, b: Colour)
    ensures Code(Complement(a, b)) == if a == b then Code(a) else 3 ^ (Code(a) | Code(b))
  {
  }

  /** A meeting arranged by the broker, with the colours the creatures had then. */
  datatype Pair = Pair(first: nat, firstCol: Colour, second: nat, secondCol: Colour)

  /** `round` is auxiliary: the meeting this is about. */
  datatype Reply = Info(col: Colour) | Mate(who: nat, col: Colour, round: nat) | Stop
  datatype Request = Start(meetings: nat) | Meet(who: nat, col: Colour) | Final(meetings: nat)

  datatype Point = AwaitInfo | SendMeet | AwaitMate | SendFinal | Gone

  datatype Creature = Creature(at: Point, col: Colour, meetings: nat, selfMeetings: nat, box: seq<Reply>)

  datatype Phase =
    | AwaitInit
    | Spawn(i: nat)
    // the pairing loop, in its round k
    | RecvFirst(k: nat)
    | RecvSecond(k: nat, first: nat, firstCol: Colour)
    | SendToFirst(k: nat, pair: Pair)
    | SendToSecond(k: nat, pair: Pair)
    // stopping and collecting
    | Stopping(i: nat)
    | Collect(remaining: nat, total: nat)
    | Over(total: nat)
    | Failed                                    // assert(!finish)
  {
    predicate Finishing() { Stopping? || Collect? || Over? }

    predicate Informed(j: nat) { !AwaitInit? && !Failed? && (Spawn? ==> j < i) }

    predicate Stopped(j: nat) { Finishing() && (Stopping? ==> j < i) }

    /** Creature j's request has been received and not answered. */
    predicate Holds(j: nat) {
      || (RecvSecond? && j == first)
      || (SendToFirst? && (j == pair.first || j == pair.second))
      || (SendToSecond? && j == pair.second)
    }
  }

  /** `goal` is the number of meetings asked for, `colours` are the creatures' first
      colours; `pairs` (auxiliary) are the meetings arranged so far. */
  datatype State = State(
    phase: Phase, box: seq<Request>, creatures: seq<Creature>, goal: nat, colours: seq<Colour>, pairs: seq<Pair>)

  ghost predicate Init(s: State) {
    && s.phase == AwaitInit && s.box == [Start(s.goal)] && s.pairs == []
    && |s.colours| == |s.creatures|
    && forall i :: 0 <= i < |s.creatures| ==> s.creatures[i] == Creature(AwaitInfo, s.creatures[i].col, 0, 0, [])
  }

  function Become(s: State, i: nat, c: Creature): State
    requires i < |s.creatures|
  {
    s.(creatures := s.creatures[i := c])
  }

  /** `actor_send` to creature i. */
  predicate Sends(s: State, s': State, i: nat, r: Reply, next: Phase) {
    && i < |s.creatures| && |s.creatures[i].box| < CAPACITY
    && s' == Become(s, i, s.creatures[i].(box := s.creatures[i].box + [r])).(phase := next)
  }

  function Paired(s: State, k: nat, p: Pair): State
    requires s.box != []
  {
    s.(box := s.box[1..], phase := SendToFirst(k, p), pairs := s.pairs + [p])
  }

  /** What creature i becomes when it meets its mate. */
  function Met(c: Creature, i: nat, mate: Reply): Creature
    requires c.box != [] && mate.Mate?
  {
    Creature(SendMeet, Complement(c.col, mate.col), c.meetings + 1,
             c.selfMeetings + (if mate.who == i then 1 else 0), c.box[1..])
  }

  /** `broker_fn` */
  predicate BrokerStep(s: State, s': State) {
    var n := |s.creatures|;
    match s.phase
    case AwaitInit => s.box != [] && s.box[0] == Start(s.goal) && s' == s.(phase := Spawn(0), box := s.box[1..])
    case Spawn(i) => if i < n then i < |s.colours| && Sends(s, s', i, Info(s.colours[i]), Spawn(i + 1)) else s' == s.(phase := RecvFirst(0))
    case RecvFirst(k) =>
      if k >= s.goal then s' == s.(phase := Stopping(0))
      else
        && s.box != []
        && s' == s.(box := s.box[1..], phase := if s.box[0].Meet? then RecvSecond(k, s.box[0].who, s.box[0].col) else Failed)
    case RecvSecond(k, f, c) =>
      && s.box != []
      && s' == if s.box[0].Meet? then Paired(s, k, Pair(f, c, s.box[0].who, s.box[0].col))
               else s.(box := s.box[1..], phase := Failed)
    case SendToFirst(k, p) => Sends(s, s', p.first, Mate(p.second, p.secondCol, k), SendToSecond(k, p))
    case SendToSecond(k, p) => Sends(s, s', p.second, Mate(p.first, p.firstCol, k), RecvFirst(k + 1))
    case Stopping(i) => if i < n then Sends(s, s', i, Stop, Stopping(i + 1)) else s' == s.(phase := Collect(n, 0))
    case Collect(r, t) =>
      if r == 0 then s' == s.(phase := Over(t))
      else
        && s.box != []
        && s' == s.(box := s.box[1..], phase := if s.box[0].Final? then Collect(r - 1, t + s.box[0].meetings) else s.phase)
    case Over(_) => false
    case Failed => false
  }

  /** `chameneos` */
  predicate CreatureStep(s: State, s': State, i: nat) {
    && i < |s.creatures|
    && var c := s.creatures[i];
       match c.at
       case AwaitInfo =>
         && c.box != [] && c.box[0].Info?
         && s' == Become(s, i, c.(at := SendMeet, col := c.box[0].col, box := c.box[1..]))
       case SendMeet => |s.box| < CAPACITY && s' == Become(s, i, c.(at := AwaitMate)).(box := s.box + [Meet(i, c.col)])
       case AwaitMate =>
         && c.box != [] && !c.box[0].Info?
         && s' == Become(s, i,
             if c.box[0].Stop? then c.(at := SendFinal, box := c.box[1..])
             else Met(c, i, c.box[0]))
       case SendFinal => |s.box| < CAPACITY && s' == Become(s, i, c.(at := Gone)).(box := s.box + [Final(c.meetings)])
       case Gone => false
  }

  ghost predicate Next(s: State, s': State) {
    BrokerStep(s, s') || exists i :: 0 <= i < |s.creatures| && CreatureStep(s, s', i)
  }

  // ------------------------------------------------------------- who waits for what

  /** Creature i's request is with the broker. */
  predicate Asking(s: State, i: nat) {
    s.phase.Holds(i) || AskedIn(s.box, i)
  }

  predicate AskedIn(box: seq<Request>, i: nat) {
    exists p :: 0 <= p < |box| && box[p].Meet? && box[p].who == i
  }

  ghost predicate BoxInv(s: State) {
    && (s.phase.AwaitInit? ==> s.box == [Start(s.goal)])
    && (forall p :: 0 <= p < |s.box| ==>
          match s.box[p]
          case Start(_) => s.phase.AwaitInit?
          case Meet(j, c) => j < |s.creatures| && c == s.creatures[j].col && !s.phase.Holds(j)
          case Final(_) => s.phase.Finishing())
    && (forall p, q :: 0 <= p < q < |s.box| && s.box[p].Meet? && s.box[q].Meet? ==> s.box[p].who != s.box[q].who)
  }

  /** The pair of round k, not yet told to both. */
  predicate Arranged(s: State, k: nat, p: Pair) {
    && k < s.goal && |s.pairs| == k + 1 && s.pairs[k] == p
    && p.first < |s.creatures| && p.second < |s.creatures| && p.first != p.second
    && p.secondCol == s.creatures[p.second].col
  }

  ghost predicate PhaseInv(s: State) {
    var n := |s.creatures|;
    match s.phase
    case AwaitInit => s.pairs == []
    case Spawn(i) => i <= n && s.pairs == []
    case RecvFirst(k) => k <= s.goal && |s.pairs| == k
    case RecvSecond(k, f, c) => k < s.goal && |s.pairs| == k && f < n && c == s.creatures[f].col
    case SendToFirst(k, p) => Arranged(s, k, p) && p.firstCol == s.creatures[p.first].col
    case SendToSecond(k, p) => Arranged(s, k, p)
    case Stopping(i) => i <= n && |s.pairs| == s.goal
    case Collect(r, _) => r <= n && |s.pairs| == s.goal
    case Over(_) => |s.pairs| == s.goal
    case Failed => false
  }

  /** Creature i, of colour col, is told about the pair it belongs to. */
  predicate TellsOf(pairs: seq<Pair>, i: nat, col: Colour, r: Reply) {
    && r.Mate? && r.who != i && r.round < |pairs|
    && (pairs[r.round] == Pair(i, col, r.who, r.col) || pairs[r.round] == Pair(r.who, r.col, i, col))
  }

  predicate CreatureInv(phase: Phase, pairs: seq<Pair>, c: Creature, i: nat, asking: bool) {
    var last := if phase.Stopped(i) then [Stop] else [];
    && c.selfMeetings == 0
    && match c.at
       case AwaitInfo =>
         && !asking && c.meetings == 0
         && (if phase.Informed(i) then c.box != [] && c.box[0].Info? && c.box[1..] == last else c.box == last)
       case SendMeet => phase.Informed(i) && !asking && c.box == last
       case AwaitMate =>
         && phase.Informed(i)
         && ((c.box == last && (asking || phase.Finishing()))
             || (!asking && c.box != [] && TellsOf(pairs, i, c.col, c.box[0]) && c.box[1..] == last))
       case SendFinal => phase.Stopped(i) && c.box == []
       case Gone => phase.Stopped(i) && c.box == []
  }

  ghost predicate CreaturesInv(s: State) {
    forall i :: 0 <= i < |s.creatures| ==> CreatureInv(s.phase, s.pairs, s.creatures[i], i, Asking(s, i))
  }

  // --------------------------------------------------------------- the counters

  /** Meetings creature c has had or has been told of. */
  function Told(c: Creature): nat {
    c.meetings + if c.box != [] && c.box[0].Mate? then 1 else 0
  }

  function AllTold(cs: seq<Creature>): nat {
    if cs == [] then 0 else Told(cs[0]) + AllTold(cs[1..])
  }

  function GoneMeetings(cs: seq<Creature>): nat {
    if cs == [] then 0 else (if cs[0].at == Gone then cs[0].meetings else 0) + GoneMeetings(cs[1..])
  }

  function GoneCount(cs: seq<Creature>): nat {
    if cs == [] then 0 else (if cs[0].at == Gone then 1 else 0) + GoneCount(cs[1..])
  }

  function FinalMeetings(box: seq<Request>): nat {
    if box == [] then 0 else (if box[0].Final? then box[0].meetings else 0) + FinalMeetings(box[1..])
  }

  function FinalCount(box: seq<Request>): nat {
    if box == [] then 0 else (if box[0].Final? then 1 else 0) + FinalCount(box[1..])
  }

  lemma {:induction false} CreatureSums(cs: seq<Creature>, i: nat, c: Creature)
    requires i < |cs|
    ensures AllTold(cs[i := c]) + Told(cs[i]) == AllTold(cs) + Told(c)
    ensures GoneMeetings(cs[i := c]) + (if cs[i].at == Gone then cs[i].meetings else 0)
            == GoneMeetings(cs) + (if c.at == Gone then c.meetings else 0)
    ensures GoneCount(cs[i := c]) + (if cs[i].at == Gone then 1 else 0) == GoneCount(cs) + (if c.at == Gone then 1 else 0)
  {
    if i == 0 {
      assert cs[i := c][1..] == cs[1..];
    } else {
      CreatureSums(cs[1..], i - 1, c);
      assert cs[i := c][1..] == cs[1..][i - 1 := c];
    }
  }

  lemma {:induction false} BoxSums(box: seq<Request>, r: Request)
    ensures FinalMeetings(box + [r]) == FinalMeetings(box) + if r.Final? then r.meetings else 0
    ensures FinalCount(box + [r]) == FinalCount(box) + if r.Final? then 1 else 0
  {
    if box == [] {
      assert box + [r] == [r];
    } else {
      BoxSums(box[1..], r);
      assert (box + [r])[1..] == box[1..] + [r];
    }
  }

  function Total(phase: Phase): nat {
    if phase.Collect? || phase.Over? then phase.total else 0
  }

  function Collected(phase: Phase, n: nat): int {
    if phase.Collect? then n - phase.remaining else if phase.Over? then n else 0
  }

  /** Two creatures are told of each meeting. */
  function DueSoFar(phase: Phase, goal: nat): nat {
    match phase
    case RecvFirst(k) => 2 * k
    case RecvSecond(k, _, _) => 2 * k
    case SendToFirst(k, _) => 2 * k
    case SendToSecond(k, _) => 2 * k + 1
    case _ => if phase.Finishing() then 2 * goal else 0
  }

  ghost predicate SumInv(s: State) {
    && AllTold(s.creatures) == DueSoFar(s.phase, s.goal)
    && GoneMeetings(s.creatures) == Total(s.phase) + FinalMeetings(s.box)
    && GoneCount(s.creatures) == Collected(s.phase, |s.creatures|) + FinalCount(s.box)
  }

  ghost predicate Inv(s: State) {
    BoxInv(s) && PhaseInv(s) && CreaturesInv(s) && SumInv(s)
  }

  lemma {:induction false} SumsStart(cs: seq<Creature>)
    requires forall i :: 0 <= i < |cs| ==> cs[i] == Creature(AwaitInfo, cs[i].col, 0, 0, [])
    ensures AllTold(cs) == 0 && GoneMeetings(cs) == 0 && GoneCount(cs) == 0
  {
    if cs != [] {
      SumsStart(cs[1..]);
    }
  }

  lemma InitHolds(s: State)
    requires Init(s)
    ensures Inv(s)
  {
    SumsStart(s.creatures);
    assert FinalMeetings(s.box[1..]) == 0 == FinalCount(s.box[1..]);
  }

  // ------------------------------------------------------------- preservation

  /** The oldest message is in the box only once. */
  lemma Popped(s: State, j: nat)
    requires BoxInv(s) && s.box != []
    ensures AskedIn(s.box[1..], j) <==> AskedIn(s.box, j) && !(s.box[0].Meet? && s.box[0].who == j)
  {
    var rest := s.box[1..];
    if AskedIn(rest, j) {
      var p :| 0 <= p < |rest| && rest[p].Meet? && rest[p].who == j;
      assert s.box[p + 1] == rest[p];
    }
    if AskedIn(s.box, j) && !(s.box[0].Meet? && s.box[0].who == j) {
      var p :| 0 <= p < |s.box| && s.box[p].Meet? && s.box[p].who == j;
      assert rest[p - 1] == s.box[p];
    }
  }

  lemma Pushed(box: seq<Request>, r: Request, j: nat)
    ensures AskedIn(box + [r], j) <==> AskedIn(box, j) || (r.Meet? && r.who == j)
  {
    if AskedIn(box, j) {
      var p :| 0 <= p < |box| && box[p].Meet? && box[p].who == j;
      assert (box + [r])[p] == box[p];
    }
    assert (box + [r])[|box|] == r;
  }

  /** A creature that does not move keeps its invariant while what it depends on is kept. */
  lemma OthersKeep(s: State, s': State, i: nat)
    requires CreaturesInv(s) && |s'.creatures| == |s.creatures|
    requires forall j :: 0 <= j < |s.creatures| && j != i ==>
               && s'.creatures[j] == s.creatures[j]
               && (Asking(s', j) == Asking(s, j) || (Asking(s, j) && s.phase.Finishing()))
               && s'.phase.Informed(j) == s.phase.Informed(j) && s'.phase.Stopped(j) == s.phase.Stopped(j)
    requires s.phase.Finishing() ==> s'.phase.Finishing()
    requires s.pairs <= s'.pairs
    requires i < |s.creatures| ==> CreatureInv(s'.phase, s'.pairs, s'.creatures[i], i, Asking(s', i))
    ensures CreaturesInv(s')
  {
    forall j | 0 <= j < |s'.creatures|
      ensures CreatureInv(s'.phase, s'.pairs, s'.creatures[j], j, Asking(s', j))
    {
      if j != i {
        assert CreatureInv(s.phase, s.pairs, s.creatures[j], j, Asking(s, j));
      }
    }
  }

  // --- creatures

  lemma CreatureAt(s: State, i: nat)
    requires CreaturesInv(s) && i < |s.creatures|
    ensures CreatureInv(s.phase, s.pairs, s.creatures[i], i, Asking(s, i))
  {
  }

  /** A creature that reads its first message. */
  lemma JoinKeeps(s: State, s': State, i: nat)
    requires Inv(s) && CreatureStep(s, s', i) && s.creatures[i].at == AwaitInfo
    ensures Inv(s')
  {
    hide CreaturesInv, AllTold, GoneMeetings, GoneCount, FinalMeetings, FinalCount;
    CreatureAt(s, i);
    CreatureSums(s.creatures, i, s'.creatures[i]);
    assert s'.box == s.box && s'.phase == s.phase;
    assert forall j :: Asking(s', j) == Asking(s, j);
    OthersKeep(s, s', i);
  }

  /** A creature that reads the broker's answer. */
  lemma AnswerKeeps(s: State, s': State, i: nat)
    requires Inv(s) && CreatureStep(s, s', i) && s.creatures[i].at == AwaitMate
    ensures Inv(s')
  {
    hide CreaturesInv, AllTold, GoneMeetings, GoneCount, FinalMeetings, FinalCount;
    CreatureAt(s, i);
    CreatureSums(s.creatures, i, s'.creatures[i]);
    assert s'.box == s.box && s'.phase == s.phase;
    assert forall j :: Asking(s', j) == Asking(s, j);
    OthersKeep(s, s', i);
  }

  /** A creature that asks for a meeting. */
  lemma AskKeeps(s: State, s': State, i: nat)
    requires Inv(s) && CreatureStep(s, s', i) && s.creatures[i].at == SendMeet
    ensures Inv(s')
  {
    hide CreaturesInv, AllTold, GoneMeetings, GoneCount, FinalMeetings, FinalCount;
    CreatureAt(s, i);
    CreatureSums(s.creatures, i, s'.creatures[i]);
    var r := Meet(i, s.creatures[i].col);
    BoxSums(s.box, r);
    assert s'.box == s.box + [r] && s'.phase == s.phase;
    forall j
      ensures AskedIn(s'.box, j) <==> AskedIn(s.box, j) || i == j
    {
      Pushed(s.box, r, j);
    }
    OthersKeep(s, s', i);
  }

  /** A creature that reports its meetings. */
  lemma ReportKeeps(s: State, s': State, i: nat)
    requires Inv(s) && CreatureStep(s, s', i) && s.creatures[i].at == SendFinal
    ensures Inv(s')
  {
    hide CreaturesInv, AllTold, GoneMeetings, GoneCount, FinalMeetings, FinalCount;
    CreatureAt(s, i);
    CreatureSums(s.creatures, i, s'.creatures[i]);
    var r := Final(s.creatures[i].meetings);
    BoxSums(s.box, r);
    assert s'.box == s.box + [r] && s'.phase == s.phase;
    forall j
      ensures Asking(s', j) == Asking(s, j)
    {
      Pushed(s.box, r, j);
    }
    OthersKeep(s, s', i);
  }

  // --- the broker

  /** A reply reaches creature i; nobody else notices. */
  lemma SendSums(s: State, s': State, i: nat, r: Reply, next: Phase)
    requires Sends(s, s', i, r, next)
    ensures GoneMeetings(s'.creatures) == GoneMeetings(s.creatures) && GoneCount(s'.creatures) == GoneCount(s.creatures)
    ensures AllTold(s'.creatures) == AllTold(s.creatures) + if s.creatures[i].box == [] && r.Mate? then 1 else 0
  {
    CreatureSums(s.creatures, i, s'.creatures[i]);
  }

  lemma SpawnKeeps(s: State, s': State)
    requires Inv(s) && BrokerStep(s, s') && s.phase.Spawn? && s.phase.i < |s.creatures|
    ensures Inv(s')
  {
    hide CreaturesInv, AllTold, GoneMeetings, GoneCount, FinalMeetings, FinalCount;
    var i := s.phase.i;
    CreatureAt(s, i);
    SendSums(s, s', i, Info(s.colours[i]), Spawn(i + 1));
    assert forall j :: Asking(s', j) == Asking(s, j);
    OthersKeep(s, s', i);
  }

  lemma StoppingKeeps(s: State, s': State)
    requires Inv(s) && BrokerStep(s, s') && s.phase.Stopping? && s.phase.i < |s.creatures|
    ensures Inv(s')
  {
    hide CreaturesInv, AllTold, GoneMeetings, GoneCount, FinalMeetings, FinalCount;
    var i := s.phase.i;
    CreatureAt(s, i);
    SendSums(s, s', i, Stop, Stopping(i + 1));
    assert forall j :: Asking(s', j) == Asking(s, j);
    OthersKeep(s, s', i);
  }

  lemma FirstTold(s: State, s': State)
    requires Inv(s) && BrokerStep(s, s') && s.phase.SendToFirst?
    ensures Inv(s')
  {
    hide CreaturesInv, AllTold, GoneMeetings, GoneCount, FinalMeetings, FinalCount;
    var p := s.phase.pair;
    var i := p.first;
    CreatureAt(s, i);
    SendSums(s, s', i, Mate(p.second, p.secondCol, s.phase.k), s'.phase);
    assert forall j :: Asking(s', j) <==> Asking(s, j) && j != i;
    OthersKeep(s, s', i);
  }

  lemma SecondTold(s: State, s': State)
    requires Inv(s) && BrokerStep(s, s') && s.phase.SendToSecond?
    ensures Inv(s')
  {
    hide CreaturesInv, AllTold, GoneMeetings, GoneCount, FinalMeetings, FinalCount;
    var p := s.phase.pair;
    var i := p.second;
    CreatureAt(s, i);
    SendSums(s, s', i, Mate(p.first, p.firstCol, s.phase.k), s'.phase);
    assert forall j :: Asking(s', j) <==> Asking(s, j) && j != i;
    OthersKeep(s, s', i);
  }

  /** What is left in the box stays in order. */
  lemma PoppedBox(s: State, s': State)
    requires BoxInv(s) && s.box != [] && s'.box == s.box[1..] && s'.creatures == s.creatures && !s'.phase.AwaitInit?
    requires s.phase.Finishing() ==> s'.phase.Finishing()
    requires forall j :: s'.phase.Holds(j) ==> s.phase.Holds(j) || (s.box[0].Meet? && s.box[0].who == j)
    ensures BoxInv(s')
  {
    assert forall p :: 0 <= p < |s'.box| ==> s'.box[p] == s.box[p + 1];
  }

  lemma TakeRequestKeeps(s: State, s': State)
    requires Inv(s) && BrokerStep(s, s') && (s.phase.RecvFirst? || s.phase.RecvSecond?)
    requires s.box != [] && s'.box == s.box[1..]
    ensures Inv(s')
  {
    hide CreaturesInv, AllTold, GoneMeetings, GoneCount;
    assert s.box[0].Meet?;
    PoppedBox(s, s');
    forall j
      ensures Asking(s', j) == Asking(s, j)
    {
      Popped(s, j);
    }
    hide BoxInv;
    OthersKeep(s, s', |s.creatures|);
  }

  lemma CollectKeeps(s: State, s': State)
    requires Inv(s) && BrokerStep(s, s') && s.phase.Collect? && s.phase.remaining > 0
    ensures Inv(s')
  {
    hide CreaturesInv, AllTold, GoneMeetings, GoneCount;
    PoppedBox(s, s');
    forall j
      ensures Asking(s', j) ==> Asking(s, j)
      ensures Asking(s, j) && !Asking(s', j) ==> s.phase.Finishing()
    {
      Popped(s, j);
    }
    hide BoxInv;
    OthersKeep(s, s', |s.creatures|);
  }

  lemma StartKeeps(s: State, s': State)
    requires Inv(s) && BrokerStep(s, s') && s.phase.AwaitInit?
    ensures Inv(s')
  {
    hide CreaturesInv, AllTold, GoneMeetings, GoneCount;
    assert s'.box == [];
    assert forall j :: !Asking(s', j) && !Asking(s, j);
    OthersKeep(s, s', |s.creatures|);
  }

  lemma TurnKeeps(s: State, s': State)
    requires Inv(s) && BrokerStep(s, s') && s'.box == s.box && s'.creatures == s.creatures
    requires s.phase.Spawn? || s.phase.RecvFirst? || s.phase.Stopping? || (s.phase.Collect? && s.phase.remaining == 0)
    ensures Inv(s')
  {
    hide CreaturesInv, AllTold, GoneMeetings, GoneCount, FinalMeetings, FinalCount;
    assert forall j :: Asking(s', j) == Asking(s, j);
    OthersKeep(s, s', |s.creatures|);
  }

  lemma BrokerKeeps(s: State, s': State)
    requires Inv(s) && BrokerStep(s, s')
    ensures Inv(s')
  {
    var p, n := s.phase, |s.creatures|;
    hide Inv;
    if p.AwaitInit? {
      StartKeeps(s, s');
    } else if p.Spawn? && p.i < n {
      SpawnKeeps(s, s');
    } else if p.Stopping? && p.i < n {
      StoppingKeeps(s, s');
    } else if p.SendToFirst? {
      FirstTold(s, s');
    } else if p.SendToSecond? {
      SecondTold(s, s');
    } else if p.RecvSecond? || (p.RecvFirst? && p.k < s.goal) {
      TakeRequestKeeps(s, s');
    } else if p.Collect? && p.remaining > 0 {
      CollectKeeps(s, s');
    } else {
      TurnKeeps(s, s');
    }
  }

  lemma StepKeeps(s: State, s': State)
    requires Inv(s) && Next(s, s')
    ensures Inv(s')
  {
    hide Inv, BrokerStep, CreatureStep;
    if BrokerStep(s, s') {
      BrokerKeeps(s, s');
    } else {
      var i :| 0 <= i < |s.creatures| && CreatureStep(s, s', i);
      if s.creatures[i].at == AwaitInfo {
        JoinKeeps(s, s', i);
      } else if s.creatures[i].at == AwaitMate {
        AnswerKeeps(s, s', i);
      } else if s.creatures[i].at == SendMeet {
        AskKeeps(s, s', i);
      } else {
        CreatureMoves(s, s', i);
        ReportKeeps(s, s', i);
      }
    }
  }

  lemma CreatureMoves(s: State, s': State, i: nat)
    requires CreatureStep(s, s', i)
    ensures i < |s.creatures| && s.creatures[i].at != Gone
  {
  }

  ghost predicate IsRun(ss: seq<State>) {
    0 < |ss| && Init(ss[0]) && forall k :: 0 <= k < |ss| - 1 ==> Next(ss[k], ss[k + 1])
  }

  lemma StepFrame(s: State, s': State)
    requires Next(s, s')
    ensures |s'.creatures| == |s.creatures| && s'.goal == s.goal && s'.colours == s.colours
  {
    if !BrokerStep(s, s') {
      var i :| 0 <= i < |s.creatures| && CreatureStep(s, s', i);
    }
  }

  lemma {:induction false} RunKeeps(ss: seq<State>, n: nat)
    requires IsRun(ss) && n < |ss|
    ensures Inv(ss[n]) && |ss[n].creatures| == |ss[0].creatures| == |ss[n].colours| && ss[n].goal == ss[0].goal
  {
    if n == 0 {
      InitHolds(ss[0]);
    } else {
      RunKeeps(ss, n - 1);
      assert Next(ss[n - 1], ss[n - 1 + 1]);
      hide Inv, Next;
      StepKeeps(ss[n - 1], ss[n]);
      StepFrame(ss[n - 1], ss[n]);
    }
  }

  // ---------------------------------------------------------- the game of colours

  /** The colours after the given meetings, one after the other, without messages: both
      partners turn into the complement of what they were. */
  function Play(colours: seq<Colour>, pairs: seq<Pair>): (r: seq<Colour>)
    ensures |r| == |colours|
  {
    if pairs == [] then colours
    else
      var before, p := Play(colours, pairs[..|pairs| - 1]), pairs[|pairs| - 1];
      if p.first < |before| && p.second < |before| then
        var c := Complement(before[p.first], before[p.second]);
        before[p.first := c][p.second := c]
      else before
  }

  /** Every pair was arranged with the colours that the game gives its creatures then. */
  ghost predicate PairsPlayed(colours: seq<Colour>, pairs: seq<Pair>) {
    forall k :: 0 <= k < |pairs| ==>
      var p, now := pairs[k], Play(colours, pairs[..k]);
      && p.first < |now| && p.second < |now| && p.first != p.second
      && p.firstCol == now[p.first] && p.secondCol == now[p.second]
  }

  /** The colour of creature i once it has been told of every pair arranged so far. */
  function Destined(phase: Phase, first: Colour, c: Creature, i: nat): Colour {
    if c.at == AwaitInfo then first
    else if c.box != [] && c.box[0].Mate? then Complement(c.col, c.box[0].col)
    else if phase.Holds(i) && !phase.RecvSecond? then Complement(phase.pair.firstCol, phase.pair.secondCol)
    else c.col
  }

  predicate ColourOk(phase: Phase, first: Colour, played: Colour, c: Creature, i: nat) {
    && (c.box != [] && c.box[0].Info? ==> c.box[0].col == first)
    && Destined(phase, first, c, i) == played
  }

  ghost predicate ColoursOk(s: State) {
    && |s.colours| == |s.creatures| && PairsPlayed(s.colours, s.pairs)
    && forall i :: 0 <= i < |s.creatures| ==>
         ColourOk(s.phase, s.colours[i], Play(s.colours, s.pairs)[i], s.creatures[i], i)
  }

  lemma CreatureColours(s: State, s': State, i: nat)
    requires Inv(s) && ColoursOk(s) && CreatureStep(s, s', i)
    ensures ColoursOk(s')
  {
    hide BoxInv, PhaseInv, SumInv, CreaturesInv, PairsPlayed, Play;
    CreatureAt(s, i);
  }

  /** A message to creature i that it was meant to get, and the others are not concerned. */
  lemma SendColours(s: State, s': State, i: nat, r: Reply, next: Phase)
    requires ColoursOk(s) && Sends(s, s', i, r, next)
    requires forall j :: 0 <= j < |s.creatures| && j != i ==>
               next.Holds(j) == s.phase.Holds(j) && (next.Holds(j) ==> !s.phase.RecvSecond? && next.SendToSecond? && s.phase.SendToFirst? && next.pair == s.phase.pair)
    requires ColourOk(next, s.colours[i], Play(s.colours, s.pairs)[i], s'.creatures[i], i)
    ensures ColoursOk(s')
  {
    hide PairsPlayed, Play, Complement;
    forall j | 0 <= j < |s'.creatures|
      ensures ColourOk(next, s.colours[j], Play(s.colours, s.pairs)[j], s'.creatures[j], j)
    {
      if j != i {
        assert ColourOk(s.phase, s.colours[j], Play(s.colours, s.pairs)[j], s.creatures[j], j);
      }
    }
  }

  lemma TellColours(s: State, s': State)
    requires Inv(s) && ColoursOk(s) && BrokerStep(s, s')
    requires s.phase.SendToFirst? || s.phase.SendToSecond? ||
             ((s.phase.Spawn? || s.phase.Stopping?) && s.phase.i < |s.creatures|)
    ensures ColoursOk(s')
  {
    hide BoxInv, SumInv, CreaturesInv, ColoursOk, PairsPlayed, Play;
    var p := s.phase;
    var i := if p.SendToFirst? then p.pair.first else if p.SendToSecond? then p.pair.second else p.i;
    CreatureAt(s, i);
    ColourAt(s, i);
    if p.Spawn? {
      SendColours(s, s', i, Info(s.colours[i]), s'.phase);
    } else if p.Stopping? {
      SendColours(s, s', i, Stop, s'.phase);
    } else if p.SendToFirst? {
      SendColours(s, s', i, Mate(p.pair.second, p.pair.secondCol, p.k), s'.phase);
    } else {
      SendColours(s, s', i, Mate(p.pair.first, p.pair.firstCol, p.k), s'.phase);
    }
  }

  lemma ColourAt(s: State, i: nat)
    requires ColoursOk(s) && i < |s.creatures|
    ensures |s.colours| == |s.creatures|
    ensures ColourOk(s.phase, s.colours[i], Play(s.colours, s.pairs)[i], s.creatures[i], i)
  {
  }

  lemma PlayOneMore(colours: seq<Colour>, pairs: seq<Pair>, p: Pair)
    requires p.first < |colours| && p.second < |colours|
    ensures var before := Play(colours, pairs);
            var c := Complement(before[p.first], before[p.second]);
            Play(colours, pairs + [p]) == before[p.first := c][p.second := c]
  {
    assert (pairs + [p])[..|pairs|] == pairs;
  }

  lemma PairsPlayedOneMore(colours: seq<Colour>, pairs: seq<Pair>, p: Pair)
    requires PairsPlayed(colours, pairs) && p.first < |colours| && p.second < |colours| && p.first != p.second
    requires p.firstCol == Play(colours, pairs)[p.first] && p.secondCol == Play(colours, pairs)[p.second]
    ensures PairsPlayed(colours, pairs + [p])
  {
    hide Play;
    var pairs' := pairs + [p];
    forall k | 0 <= k < |pairs'|
      ensures pairs'[..k] == if k < |pairs| then pairs[..k] else pairs
    {
    }
  }

  /** A creature that waits for an answer has the colour the game gives it. */
  lemma AskingColour(s: State, i: nat)
    requires Inv(s) && ColoursOk(s) && i < |s.creatures| && Asking(s, i)
    requires s.phase.RecvSecond?
    ensures s.creatures[i].box == [] && s.creatures[i].at == AwaitMate
    ensures s.creatures[i].col == Play(s.colours, s.pairs)[i]
  {
    hide BoxInv, PhaseInv, SumInv, PairsPlayed, Play;
    CreatureAt(s, i);
    ColourAt(s, i);
  }

  /** Pairing two creatures is one meeting of the game. */
  lemma PairColours(s: State, s': State)
    requires Inv(s) && ColoursOk(s) && BrokerStep(s, s') && s.phase.RecvSecond?
    ensures ColoursOk(s')
  {
    hide SumInv, CreaturesInv, PairsPlayed, Play, Complement;
    assert s.box[0].Meet?;
    var f, j := s.phase.first, s.box[0].who;
    var p := Pair(f, s.phase.firstCol, j, s.box[0].col);
    assert AskedIn(s.box, j);
    assert f != j;
    assert s.pairs <= s'.pairs == s.pairs + [p];
    AskingColour(s, f);
    AskingColour(s, j);
    PlayOneMore(s.colours, s.pairs, p);
    PairsPlayedOneMore(s.colours, s.pairs, p);
    hide BoxInv, PhaseInv, BrokerStep;
    forall i | 0 <= i < |s'.creatures|
      ensures ColourOk(s'.phase, s.colours[i], Play(s.colours, s'.pairs)[i], s'.creatures[i], i)
    {
      ColourAt(s, i);
    }
  }

  lemma TurnColours(s: State, s': State)
    requires Inv(s) && ColoursOk(s) && BrokerStep(s, s')
    requires s.phase.AwaitInit? || s.phase.RecvFirst? || s.phase.Collect? ||
             ((s.phase.Spawn? || s.phase.Stopping?) && s.phase.i >= |s.creatures|)
    ensures ColoursOk(s')
  {
    hide SumInv, CreaturesInv, BoxInv, PairsPlayed, Play, Complement;
    assert s'.creatures == s.creatures && s'.pairs == s.pairs && s'.colours == s.colours;
    assert !s.phase.SendToFirst? && !s.phase.SendToSecond? && !s'.phase.SendToFirst? && !s'.phase.SendToSecond?;
  }

  lemma StepColours(s: State, s': State)
    requires Inv(s) && ColoursOk(s) && Next(s, s')
    ensures ColoursOk(s')
  {
    hide Inv, ColoursOk, BrokerStep, CreatureStep;
    if BrokerStep(s, s') {
      BrokerGoesOn(s, s');
      if s.phase.RecvSecond? {
        PairColours(s, s');
      } else if s.phase.SendToFirst? || s.phase.SendToSecond? ||
                ((s.phase.Spawn? || s.phase.Stopping?) && s.phase.i < |s.creatures|) {
        TellColours(s, s');
      } else {
        TurnColours(s, s');
      }
    } else {
      var i :| 0 <= i < |s.creatures| && CreatureStep(s, s', i);
      CreatureColours(s, s', i);
    }
  }

  lemma BrokerGoesOn(s: State, s': State)
    requires BrokerStep(s, s')
    ensures !s.phase.Over? && !s.phase.Failed?
  {
  }

  lemma InitColours(s: State)
    requires Init(s)
    ensures ColoursOk(s)
  {
    assert Play(s.colours, s.pairs) == s.colours;
  }

  lemma {:induction false} RunColours(ss: seq<State>, n: nat)
    requires IsRun(ss) && n < |ss|
    ensures ColoursOk(ss[n])
  {
    hide Inv, Init, ColoursOk, Next;
    if n == 0 {
      InitColours(ss[0]);
    } else {
      RunColours(ss, n - 1);
      RunKeeps(ss, n - 1);
      assert Next(ss[n - 1], ss[n - 1 + 1]);
      StepColours(ss[n - 1], ss[n]);
    }
  }

  // --------------------------------------------------------------- the theorems

  /** No creature meets itself, and the assertions on `finish` hold. */
  lemma NobodyMeetsItself(ss: seq<State>, n: nat, i: nat)
    requires IsRun(ss) && n < |ss| && i < |ss[n].creatures|
    ensures !ss[n].phase.Failed? && ss[n].creatures[i].selfMeetings == 0
    ensures ss[n].phase.SendToFirst? ==> ss[n].phase.pair.first != ss[n].phase.pair.second
    ensures forall r :: r in ss[n].creatures[i].box && r.Mate? ==> r.who != i
  {
    RunKeeps(ss, n);
    CreatureAt(ss[n], i);
  }

  /** A creature told of its mate becomes the complement of the two colours the pair had
      when it was arranged, whichever of the two it is: partners end up alike. */
  lemma PartnersMatch(ss: seq<State>, n: nat, i: nat, mate: Reply)
    requires IsRun(ss) && n < |ss| && i < |ss[n].creatures|
    requires mate in ss[n].creatures[i].box && mate.Mate?
    ensures ss[n].creatures[i].box[0] == mate && mate.round < |ss[n].pairs|
    ensures var p := ss[n].pairs[mate.round];
            && ((p.first == i && p.second == mate.who) || (p.first == mate.who && p.second == i))
            && Met(ss[n].creatures[i], i, mate).col == Complement(p.firstCol, p.secondCol)
  {
    RunKeeps(ss, n);
    CreatureAt(ss[n], i);
  }

  lemma {:induction false} AllGone(cs: seq<Creature>)
    requires forall i :: 0 <= i < |cs| ==> cs[i].at == Gone ==> cs[i].box == []
    ensures GoneCount(cs) <= |cs|
    ensures GoneCount(cs) == |cs| ==>
              GoneMeetings(cs) == AllTold(cs) && forall i :: 0 <= i < |cs| ==> cs[i].at == Gone
  {
    if cs != [] {
      AllGone(cs[1..]);
      assert forall i :: 1 <= i < |cs| ==> cs[i] == cs[1..][i - 1];
    }
  }

  lemma {:induction false} NoFinals(box: seq<Request>)
    requires FinalCount(box) == 0
    ensures FinalMeetings(box) == 0
  {
    if box != [] {
      NoFinals(box[1..]);
    }
  }

  /** When the broker ends, every creature has ended and the total is twice the number of
      meetings. */
  lemma TotalIsTwiceTheMeetings(ss: seq<State>, n: nat)
    requires IsRun(ss) && n < |ss| && ss[n].phase.Over?
    ensures ss[n].phase.total == 2 * ss[0].goal
    ensures forall i :: 0 <= i < |ss[n].creatures| ==> ss[n].creatures[i].at == Gone
  {
    RunKeeps(ss, n);
    AllGone(ss[n].creatures);
    NoFinals(ss[n].box);
  }

  /** Whatever the interleaving, every pair is arranged with the colours its creatures have
      by then in the game played meeting by meeting from the first colours on. */
  lemma PairsAreOfTheGame(ss: seq<State>, n: nat, k: nat)
    requires IsRun(ss) && n < |ss| && k < |ss[n].pairs|
    ensures var p, now := ss[n].pairs[k], Play(ss[0].colours, ss[n].pairs[..k]);
            && p.first < |now| && p.second < |now| && p.first != p.second
            && p.firstCol == now[p.first] && p.secondCol == now[p.second]
  {
    SameColours(ss, n);
    RunColours(ss, n);
    hide Play;
  }

  /** When the broker ends, as many pairs have met as were asked for, and every creature
      has the colour in which the game leaves it. */
  lemma FinalColours(ss: seq<State>, n: nat, i: nat)
    requires IsRun(ss) && n < |ss| && ss[n].phase.Over? && i < |ss[n].creatures|
    ensures |ss[n].pairs| == ss[0].goal && i < |ss[0].colours|
    ensures ss[n].creatures[i].col == Play(ss[0].colours, ss[n].pairs)[i]
  {
    SameColours(ss, n);
    RunColours(ss, n);
    RunKeeps(ss, n);
    TotalIsTwiceTheMeetings(ss, n);
    hide Play;
    CreatureAt(ss[n], i);
    ColourAt(ss[n], i);
  }

  lemma {:induction false} SameColours(ss: seq<State>, n: nat)
    requires IsRun(ss) && n < |ss|
    ensures ss[n].colours == ss[0].colours
  {
    if n > 0 {
      SameColours(ss, n - 1);
      assert Next(ss[n - 1], ss[n - 1 + 1]);
      StepFrame(ss[n - 1], ss[n]);
    }
  }

  // ---------------------------------------------------- when the broker can end

  predicate CreatureReady(s: State, i: nat) {
    && i < |s.creatures|
    && var c := s.creatures[i];
       match c.at
       case AwaitInfo => c.box != [] && c.box[0].Info?
       case SendMeet => |s.box| < CAPACITY
       case AwaitMate => c.box != [] && !c.box[0].Info?
       case SendFinal => |s.box| < CAPACITY
       case Gone => false
  }

  lemma ReadyMoves(s: State, i: nat)
    requires CreatureReady(s, i)
    ensures exists s' :: Next(s, s')
  {
    var c := s.creatures[i];
    var s';
    if c.at == AwaitInfo {
      s' := Become(s, i, c.(at := SendMeet, col := c.box[0].col, box := c.box[1..]));
    } else if c.at == SendMeet {
      s' := Become(s, i, c.(at := AwaitMate)).(box := s.box + [Meet(i, c.col)]);
    } else if c.at == SendFinal {
      s' := Become(s, i, c.(at := Gone)).(box := s.box + [Final(c.meetings)]);
    } else if c.box[0].Stop? {
      s' := Become(s, i, c.(at := SendFinal, box := c.box[1..]));
    } else {
      s' := Become(s, i, Met(c, i, c.box[0]));
    }
    assert CreatureStep(s, s', i);
    assert Next(s, s');
  }

  lemma {:induction false} SomeoneLeft(cs: seq<Creature>) returns (i: nat)
    requires GoneCount(cs) < |cs|
    ensures i < |cs| && cs[i].at != Gone
  {
    if cs[0].at == Gone {
      i := SomeoneLeft(cs[1..]);
      i := i + 1;
    } else {
      i := 0;
    }
  }

  /** The broker waits for a message and has none: some creature is ready. */
  lemma WaitingBroker(s: State)
    requires Inv(s) && 2 <= |s.creatures| && s.box == []
    requires s.phase.RecvFirst? || s.phase.RecvSecond? || (s.phase.Collect? && s.phase.remaining > 0)
    ensures exists s' :: Next(s, s')
  {
    var i := 0;
    if s.phase.RecvSecond? && s.phase.first == 0 {
      i := 1;
    } else if s.phase.Collect? {
      i := SomeoneLeft(s.creatures);
    }
    CreatureAt(s, i);
    hide Next;
    ReadyMoves(s, i);
  }

  lemma SendingBroker(s: State, i: nat, r: Reply, next: Phase) returns (s': State)
    requires CreaturesInv(s) && i < |s.creatures|
    ensures Sends(s, s', i, r, next)
  {
    CreatureAt(s, i);
    s' := Become(s, i, s.creatures[i].(box := s.creatures[i].box + [r])).(phase := next);
  }

  lemma BrokerMoves(s: State) returns (s': State)
    requires Inv(s) && !s.phase.Over? && |s.colours| == |s.creatures|
    requires s.phase.AwaitInit? || s.box != [] || !(s.phase.RecvFirst? || s.phase.RecvSecond? || s.phase.Collect?)
    ensures BrokerStep(s, s')
  {
    var p, n := s.phase, |s.creatures|;
    match p
    case AwaitInit => s' := s.(phase := Spawn(0), box := s.box[1..]);
    case Spawn(i) =>
      if i < n { s' := SendingBroker(s, i, Info(s.colours[i]), Spawn(i + 1)); } else { s' := s.(phase := RecvFirst(0)); }
    case RecvFirst(k) =>
      s' := if k >= s.goal then s.(phase := Stopping(0))
            else s.(box := s.box[1..], phase := if s.box[0].Meet? then RecvSecond(k, s.box[0].who, s.box[0].col) else Failed);
    case RecvSecond(k, f, c) =>
      assert s.box[0].Meet?;
      s' := Paired(s, k, Pair(f, c, s.box[0].who, s.box[0].col));
    case SendToFirst(k, q) => s' := SendingBroker(s, q.first, Mate(q.second, q.secondCol, k), SendToSecond(k, q));
    case SendToSecond(k, q) => s' := SendingBroker(s, q.second, Mate(q.first, q.firstCol, k), RecvFirst(k + 1));
    case Stopping(i) =>
      if i < n { s' := SendingBroker(s, i, Stop, Stopping(i + 1)); } else { s' := s.(phase := Collect(n, 0)); }
    case Collect(r, t) =>
      s' := if r == 0 then s.(phase := Over(t))
            else s.(box := s.box[1..], phase := if s.box[0].Final? then Collect(r - 1, t + s.box[0].meetings) else p);
  }

  /** With at least two creatures some step is possible until the broker has ended. */
  lemma NeverStuck(ss: seq<State>, n: nat)
    requires IsRun(ss) && n < |ss| && 2 <= |ss[0].creatures| && !ss[n].phase.Over?
    ensures exists s' :: Next(ss[n], s')
  {
    RunKeeps(ss, n);
    var s := ss[n];
    if s.box == [] && (s.phase.RecvFirst? || s.phase.RecvSecond? || (s.phase.Collect? && s.phase.remaining > 0)) {
      WaitingBroker(s);
    } else if s.phase.Collect? && s.phase.remaining == 0 {
      var s' := s.(phase := Over(s.phase.total));
      assert BrokerStep(s, s');
      assert Next(s, s');
    } else {
      var s' := BrokerMoves(s);
      assert Next(s, s');
    }
  }

  /** No pair has been found yet. */
  predicate Unpaired(p: Phase) {
    p.AwaitInit? || p.Spawn? || (p.RecvFirst? && p.k == 0) || p.RecvSecond?
  }

  lemma UnpairedStays(s: State, s': State)
    requires Inv(s) && Inv(s') && Next(s, s') && |s.creatures| < 2 && |s'.creatures| < 2 && 0 < s.goal && Unpaired(s.phase)
    ensures Unpaired(s'.phase)
  {
    hide CreaturesInv, SumInv, BoxInv, Met;
    if !BrokerStep(s, s') {
      var i :| 0 <= i < |s.creatures| && CreatureStep(s, s', i);
    }
  }

  /** With fewer, and meetings to arrange, the broker never finds a pair, let alone ends. */
  lemma {:induction false} NeedsTwoCreatures(ss: seq<State>, n: nat)
    requires IsRun(ss) && n < |ss| && |ss[0].creatures| < 2 && 0 < ss[0].goal
    ensures Unpaired(ss[n].phase)
  {
    if n > 0 {
      NeedsTwoCreatures(ss, n - 1);
      UnpairedRun(ss, n - 1, ss[n - 1], ss[n - 1 + 1]);
    }
  }

  lemma UnpairedRun(ss: seq<State>, n: nat, s: State, s': State)
    requires IsRun(ss) && n + 1 < |ss| && s == ss[n] && s' == ss[n + 1]
    requires |ss[0].creatures| < 2 && 0 < ss[0].goal && Unpaired(s.phase)
    ensures Unpaired(s'.phase)
  {
    hide Inv, Next, Init, Unpaired;
    RunKeeps(ss, n);
    RunKeeps(ss, n + 1);
    UnpairedStays(s, s');
  }

  // ------------------------------------------------------------- termination

  function Rank(at: Point): nat {
    match at
    case AwaitInfo => 6
    case SendMeet => 5
    case AwaitMate => 3
    case SendFinal => 2
    case Gone => 0
  }

  /** What creature c can still do with what it has; a mate's message is worth a turn. */
  function Energy(c: Creature): nat {
    Rank(c.at) + if c.box != [] && c.box[0].Mate? then 3 else 0
  }

  function AllEnergy(cs: seq<Creature>): nat {
    if cs == [] then 0 else Energy(cs[0]) + AllEnergy(cs[1..])
  }

  lemma {:induction false} EnergyUpdate(cs: seq<Creature>, i: nat, c: Creature)
    requires i < |cs|
    ensures AllEnergy(cs[i := c]) + Energy(cs[i]) == AllEnergy(cs) + Energy(c)
  {
    if i == 0 {
      assert cs[i := c][1..] == cs[1..];
    } else {
      EnergyUpdate(cs[1..], i - 1, c);
      assert cs[i := c][1..] == cs[1..][i - 1 := c];
    }
  }

  function Minus(a: nat, b: nat): nat {
    if a < b then 0 else a - b
  }

  /** What is left of the broker's own program; sending a mate pays for its turn. */
  function Ahead(p: Phase, n: nat, goal: nat): nat {
    match p
    case AwaitInit => 10 * goal + 2 * n + 5
    case Spawn(i) => 10 * goal + Minus(n, i) + n + 4
    case RecvFirst(k) => 10 * Minus(goal, k) + n + 3
    case RecvSecond(k, _, _) => 10 * Minus(goal, k) + n + 2
    case SendToFirst(k, _) => 10 * Minus(goal, k) + n + 1
    case SendToSecond(k, _) => Minus(10 * Minus(goal, k) + n, 3)
    case Stopping(i) => Minus(n, i) + 2
    case Collect(_, _) => 1
    case Over(_) => 0
    case Failed => 0
  }

  function Work(s: State): nat {
    Ahead(s.phase, |s.creatures|, s.goal) + |s.box| + AllEnergy(s.creatures)
  }

  lemma BrokerWorks(s: State, s': State)
    requires Inv(s) && BrokerStep(s, s')
    ensures Work(s') < Work(s)
  {
    hide CreaturesInv, SumInv, BoxInv, AllEnergy, Energy;
    var p, n := s.phase, |s.creatures|;
    if (p.Spawn? || p.Stopping?) && p.i < n {
      CreatureAt(s, p.i);
      hide BrokerStep;
      TellWorks(s, s', p.i, if p.Spawn? then Info(s.colours[p.i]) else Stop, s'.phase);
    } else if p.SendToFirst? {
      TellWorks(s, s', p.pair.first, Mate(p.pair.second, p.pair.secondCol, p.k), s'.phase);
    } else if p.SendToSecond? {
      TellWorks(s, s', p.pair.second, Mate(p.pair.first, p.pair.firstCol, p.k), s'.phase);
    }
  }

  /** A reply costs at most what a mate is worth. */
  lemma TellWorks(s: State, s': State, i: nat, r: Reply, next: Phase)
    requires Sends(s, s', i, r, next)
    ensures AllEnergy(s'.creatures) <= AllEnergy(s.creatures) + if r.Mate? then 3 else 0
    ensures |s'.creatures| == |s.creatures| && s'.box == s.box && s'.goal == s.goal && s'.phase == next
  {
    EnergyUpdate(s.creatures, i, s'.creatures[i]);
  }

  lemma CreatureWorks(s: State, s': State, i: nat)
    requires Inv(s) && CreatureStep(s, s', i)
    ensures Work(s') < Work(s)
  {
    CreatureAt(s, i);
    EnergyUpdate(s.creatures, i, s'.creatures[i]);
    hide CreaturesInv, SumInv, BoxInv, AllEnergy, Ahead;
  }

  lemma {:induction false} RunWorks(ss: seq<State>, n: nat)
    requires IsRun(ss) && n < |ss|
    ensures n + Work(ss[n]) <= Work(ss[0])
  {
    if n > 0 {
      RunWorks(ss, n - 1);
      RunKeeps(ss, n - 1);
      assert Next(ss[n - 1], ss[n - 1 + 1]);
      hide Inv, Work, BrokerStep, CreatureStep, Init;
      if BrokerStep(ss[n - 1], ss[n]) {
        BrokerWorks(ss[n - 1], ss[n]);
      } else {
        var i :| 0 <= i < |ss[n - 1].creatures| && CreatureStep(ss[n - 1], ss[n], i);
        CreatureWorks(ss[n - 1], ss[n], i);
      }
    }
  }

  /** Every run ends after a bounded number of steps, and with at least two creatures it
      can only end with all creatures gone and the total twice the number of meetings. */
  lemma BrokerEnds(ss: seq<State>)
    requires IsRun(ss)
    ensures |ss| <= 1 + Work(ss[0])
    ensures var last := ss[|ss| - 1];
            2 <= |ss[0].creatures| && (!exists s' :: Next(last, s')) ==>
              && last.phase == Over(2 * ss[0].goal)
              && forall i :: 0 <= i < |last.creatures| ==> last.creatures[i].at == Gone
  {
    var n := |ss| - 1;
    RunWorks(ss, n);
    hide Next, Work;
    if 2 <= |ss[0].creatures| && (!exists s' :: Next(ss[n], s')) {
      if !ss[n].phase.Over? {
        NeverStuck(ss, n);
      }
      TotalIsTwiceTheMeetings(ss, n);
    }
  }
}
