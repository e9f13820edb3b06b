// The skynet benchmark over promises (bench/skynet_bench/libseff_scheff_sleep.c).
//
// Node `num` of the tree forks the nodes 10 num .. 10 num + 9, awaits their promises in
// order and fulfils its own with the sum.  A spin-locked block is one step, as Promise
// justifies (`UsesPromises`); any node that is not asleep may take its next step at any
// time, which covers every schedule over any number of workers.

module Skynet {
  import Promise

  const BRANCHING_FACTOR: nat := 10

  /** First node id of the last layer of a tree of depth d (`last_layer`). */
  function LastLayer(d: nat): (l: nat)
    requires 1 <= d
    ensures 1 <= l
  {
    if d == 1 then 1 else LastLayer(d - 1) * BRANCHING_FACTOR
  }

  function Pow10(e: nat): nat {
    if e == 0 then 1 else 10 * Pow10(e - 1)
  }

  lemma {:induction false} LastLayerIsPow10(d: nat)
    requires 1 <= d
    ensures LastLayer(d) == Pow10(d - 1)
  {
    if d > 1 {
      LastLayerIsPow10(d - 1);
    }
  }

  /** The loop of `bench`: the last layer of a tree of the given depth has 10^(depth - 1)
      nodes and starts with that number. */
  method ComputeLastLayer(depth: int) returns (lastLayer: nat)
    ensures lastLayer == if depth < 1 then 1 else Pow10(depth - 1)
  {
    lastLayer := 1;
    var i := 1;
    while i < depth
      invariant 1 <= i && (i <= depth || i == 1) && lastLayer == LastLayer(i)
    {
      lastLayer := lastLayer * BRANCHING_FACTOR;
      i := i + 1;
    }
    LastLayerIsPow10(i);
  }

  function Child(num: nat, i: nat): nat {
    num * BRANCHING_FACTOR + i
  }

  function Parent(num: nat): nat {
    num / BRANCHING_FACTOR
  }

  function Position(num: nat): nat {
    num % BRANCHING_FACTOR
  }

  /** The numbering is that of a tree. */
  lemma ChildIsBelow(p: nat, i: nat)
    requires i < BRANCHING_FACTOR
    ensures Parent(Child(p, i)) == p && Position(Child(p, i)) == i
    ensures 1 <= p ==> p < Child(p, i)
  {
  }

  datatype Cell = Empty | Waiting | Fulfilled(result: int)

  datatype Pc =
    | Start
    | Forking(i: nat)
    | Checking(i: nat, sum: int)    // await_promise: look at the child's state
    | Sleeping(i: nat, sum: int)    // must_sleep, run by the worker
    | Asleep(i: nat, sum: int)
    | Reading(i: nat, sum: int)     // read promise->result
    | Fulfilling(res: int)
    | Waking                        // fulfil found a waiting parent
    | Finished

  /** `tasks` are the nodes forked so far with their program points, `cells` the state of
      the promise each of them fulfils. */
  datatype State = State(tasks: map<nat, Pc>, cells: map<nat, Cell>)

  ghost predicate Init(s: State) {
    s == State(map[1 := Start], map[1 := Empty])
  }

  function Goto(s: State, num: nat, pc: Pc): State {
    s.(tasks := s.tasks[num := pc])
  }

  function SetCell(s: State, num: nat, c: Cell): State {
    s.(cells := s.cells[num := c])
  }

  /** One step of node num in a tree whose last layer starts at l. */
  ghost predicate Step(s: State, s': State, num: nat, l: nat)
    requires num in s.tasks && num in s.cells
  {
    match s.tasks[num]
    case Start =>
      s' == Goto(s, num, if num >= l then Fulfilling(num - l) else Forking(0))
    case Forking(i) =>
      if i < BRANCHING_FACTOR then
        var child := Child(num, i);
        s' == Goto(Goto(SetCell(s, child, Empty), child, Start), num, Forking(i + 1))
      else s' == Goto(s, num, Checking(0, 0))
    case Checking(i, sum) =>
      var child := Child(num, i);
      if i < BRANCHING_FACTOR then
        child in s.cells && s' == Goto(s, num, if s.cells[child].Fulfilled? then Reading(i, sum) else Sleeping(i, sum))
      else s' == Goto(s, num, Fulfilling(sum))
    case Sleeping(i, sum) =>
      var child := Child(num, i);
      && child in s.cells
      && s' == (if s.cells[child] == Empty then Goto(SetCell(s, child, Waiting), num, Asleep(i, sum))
                else Goto(s, num, Reading(i, sum)))
    case Asleep(_, _) => false
    case Reading(i, sum) =>
      var child := Child(num, i);
      && child in s.cells && s.cells[child].Fulfilled?
      && s' == Goto(s, num, Checking(i + 1, sum + s.cells[child].result))
    case Fulfilling(res) =>
      s' == Goto(SetCell(s, num, Fulfilled(res)), num, if s.cells[num] == Waiting then Waking else Finished)
    case Waking =>
      var parent := Parent(num);
      && parent in s.tasks && s.tasks[parent].Asleep?
      && s' == Goto(Goto(s, parent, Reading(s.tasks[parent].i, s.tasks[parent].sum)), num, Finished)
    case Finished => false
  }

  ghost predicate Next(s: State, s': State, l: nat) {
    exists num :: num in s.tasks && num in s.cells && Step(s, s', num, l)
  }

  // --------------------------------------------------------- what a node computes

  /** The sum of `leaf - l` over the leaves under node num. */
  function Total(num: nat, l: nat): int
    requires 1 <= num
    decreases l - num, BRANCHING_FACTOR + 1
  {
    if num >= l then num - l else TotalUpTo(num, BRANCHING_FACTOR, l)
  }

  /** The same for the first i children. */
  function TotalUpTo(num: nat, i: nat, l: nat): int
    requires 1 <= num < l && i <= BRANCHING_FACTOR
    decreases l - num, i
  {
    if i == 0 then 0 else TotalUpTo(num, i - 1, l) + Total(Child(num, i - 1), l)
  }

  lemma TotalStep(num: nat, i: nat, l: nat)
    requires 1 <= num < l && i < BRANCHING_FACTOR
    ensures TotalUpTo(num, i + 1, l) == TotalUpTo(num, i, l) + Total(Child(num, i), l)
  {
  }

  lemma TotalEnds(num: nat, l: nat)
    requires 1 <= num
    ensures num >= l ==> Total(num, l) == num - l
    ensures num < l ==> TotalUpTo(num, 0, l) == 0 && Total(num, l) == TotalUpTo(num, BRANCHING_FACTOR, l)
  {
  }

  // ------------------------------------------------------------ the invariant

  predicate NodeInv(pc: Pc, cells: map<nat, Cell>, num: nat, l: nat) {
    && 1 <= num && num in cells
    && match pc
       case Start => !cells[num].Fulfilled?
       case Forking(i) => num < l && i <= BRANCHING_FACTOR && !cells[num].Fulfilled?
       case Checking(i, sum) =>
         num < l && i <= BRANCHING_FACTOR && sum == TotalUpTo(num, i, l) && !cells[num].Fulfilled?
       case Sleeping(i, sum) =>
         num < l && i < BRANCHING_FACTOR && sum == TotalUpTo(num, i, l) && !cells[num].Fulfilled?
       case Asleep(i, sum) =>
         num < l && i < BRANCHING_FACTOR && sum == TotalUpTo(num, i, l) && !cells[num].Fulfilled?
       case Reading(i, sum) =>
         && num < l && i < BRANCHING_FACTOR && sum == TotalUpTo(num, i, l) && !cells[num].Fulfilled?
         && Child(num, i) in cells && cells[Child(num, i)].Fulfilled?
       case Fulfilling(res) => res == Total(num, l) && !cells[num].Fulfilled?
       case Waking => cells[num] == Fulfilled(Total(num, l))
       case Finished => cells[num] == Fulfilled(Total(num, l))
  }

  /** How many children a node has forked. */
  function Forked(pc: Pc, num: nat, l: nat): nat {
    match pc
    case Start => 0
    case Forking(i) => i
    case Checking(_, _) => BRANCHING_FACTOR
    case Sleeping(_, _) => BRANCHING_FACTOR
    case Asleep(_, _) => BRANCHING_FACTOR
    case Reading(_, _) => BRANCHING_FACTOR
    case _ => if num < l then BRANCHING_FACTOR else 0
  }

  /** The parent of num sleeps on num's promise. */
  predicate ParentWaits(s: State, num: nat) {
    var parent := Parent(num);
    parent in s.tasks && s.tasks[parent].Asleep? && num == Child(parent, s.tasks[parent].i)
  }

  ghost predicate NodesOk(s: State, l: nat) {
    s.tasks.Keys == s.cells.Keys && forall num :: num in s.tasks ==> NodeInv(s.tasks[num], s.cells, num, l)
  }

  /** The nodes are exactly the root and the children that were forked. */
  ghost predicate TreeOk(s: State, l: nat) {
    && 1 in s.tasks
    && (forall num :: num in s.tasks && num != 1 ==>
          Parent(num) in s.tasks && Position(num) < Forked(s.tasks[Parent(num)], Parent(num), l))
    && (forall num, i {:trigger Child(num, i)} :: num in s.tasks && 0 <= i < Forked(s.tasks[num], num, l) ==>
          Child(num, i) in s.tasks)
  }

  /** A parent sleeps on a child exactly while the child's waker is stored or being woken. */
  ghost predicate WaitersOk(s: State) {
    forall num :: num in s.tasks && num in s.cells ==>
      (s.cells[num] == Waiting || s.tasks[num] == Waking <==> ParentWaits(s, num))
  }

  ghost predicate Inv(s: State, l: nat) {
    1 <= l && NodesOk(s, l) && TreeOk(s, l) && WaitersOk(s)
  }

  // ------------------------------------------------------------- preservation

  /** Nodes outside `moved` keep their invariant: promises are fulfilled once and for all. */
  lemma NodesKeep(s: State, s': State, moved: set<nat>, l: nat)
    requires NodesOk(s, l) && s'.tasks.Keys == s'.cells.Keys && s.tasks.Keys <= s'.tasks.Keys
    requires forall n :: n in s'.tasks && n !in moved ==>
               n in s.tasks && s'.tasks[n] == s.tasks[n] && (s'.cells[n] == s.cells[n] || (s'.cells[n] == Waiting && !s.cells[n].Fulfilled?))
    requires forall n :: n in s.cells && s.cells[n].Fulfilled? ==> s'.cells[n] == s.cells[n]
    requires forall n :: n in moved ==> n in s'.tasks && NodeInv(s'.tasks[n], s'.cells, n, l)
    ensures NodesOk(s', l)
  {
    hide Total, TotalUpTo;
    forall n | n in s'.tasks
      ensures NodeInv(s'.tasks[n], s'.cells, n, l)
    {
      if n !in moved {
        assert NodeInv(s.tasks[n], s.cells, n, l);
      }
    }
  }

  /** Moving nodes without forking keeps the shape of the tree. */
  lemma TreeKeeps(s: State, s': State, l: nat)
    requires TreeOk(s, l) && s'.tasks.Keys == s.tasks.Keys
    requires forall n :: n in s.tasks ==> Forked(s'.tasks[n], n, l) == Forked(s.tasks[n], n, l)
    ensures TreeOk(s', l)
  {
    hide Child, Parent, Position;
  }

  lemma LocalWaiters(s: State, num: nat, pc: Pc)
    requires WaitersOk(s) && num in s.tasks
    requires !s.tasks[num].Asleep? && !pc.Asleep? && !s.tasks[num].Waking? && !pc.Waking?
    ensures WaitersOk(Goto(s, num, pc))
  {
    hide Parent, Child;
    assert forall n :: ParentWaits(Goto(s, num, pc), n) == ParentWaits(s, n);
  }

  lemma LocalKeeps(s: State, num: nat, pc: Pc, l: nat)
    requires Inv(s, l) && num in s.tasks
    requires NodeInv(pc, s.cells, num, l)
    requires Forked(pc, num, l) == Forked(s.tasks[num], num, l)
    requires !s.tasks[num].Asleep? && !pc.Asleep? && !s.tasks[num].Waking? && !pc.Waking?
    ensures Inv(Goto(s, num, pc), l)
  {
    hide NodeInv, TreeOk, WaitersOk, Forked;
    LocalWaiters(s, num, pc);
    TreeKeeps(s, Goto(s, num, pc), l);
    NodesKeep(s, Goto(s, num, pc), {num}, l);
  }

  lemma ForkTree(s: State, s': State, num: nat, i: nat, l: nat)
    requires TreeOk(s, l) && num in s.tasks && 1 <= num < l && i < BRANCHING_FACTOR && s.tasks[num] == Forking(i)
    requires s'.tasks == s.tasks[Child(num, i) := Start][num := Forking(i + 1)]
    ensures Child(num, i) !in s.tasks && TreeOk(s', l)
  {
    var child := Child(num, i);
    ChildIsBelow(num, i);
    hide Parent, Child, Position;
    assert child !in s.tasks;
    forall n | n in s'.tasks && n != 1
      ensures Parent(n) in s'.tasks && Position(n) < Forked(s'.tasks[Parent(n)], Parent(n), l)
    {
      if n != child {
        assert Parent(n) in s.tasks;
      }
    }
    forall n, j {:trigger Child(n, j)} | n in s'.tasks && 0 <= j < Forked(s'.tasks[n], n, l)
      ensures Child(n, j) in s'.tasks
    {
      if n != num || j != i {
        assert n in s.tasks && j < Forked(s.tasks[n], n, l);
      }
    }
  }

  lemma ForkWaiters(s: State, s': State, num: nat, i: nat)
    requires WaitersOk(s) && s.tasks.Keys == s.cells.Keys && num in s.tasks && s.tasks[num] == Forking(i)
    requires Child(num, i) !in s.tasks && i < BRANCHING_FACTOR
    requires s' == Goto(Goto(SetCell(s, Child(num, i), Empty), Child(num, i), Start), num, Forking(i + 1))
    ensures WaitersOk(s')
  {
    ChildIsBelow(num, i);
    hide Parent, Child, Position;
    var child := Child(num, i);
    assert forall n :: n != child ==> ParentWaits(s', n) == ParentWaits(s, n);
  }

  lemma NodeAt(s: State, num: nat, l: nat)
    requires Inv(s, l) && num in s.tasks
    ensures NodeInv(s.tasks[num], s.cells, num, l)
  {
  }

  lemma ForkNodes(cells: map<nat, Cell>, num: nat, i: nat, l: nat)
    requires NodeInv(Forking(i), cells, num, l) && i < BRANCHING_FACTOR && Child(num, i) !in cells
    ensures var cells' := cells[Child(num, i) := Empty];
            NodeInv(Forking(i + 1), cells', num, l) && NodeInv(Start, cells', Child(num, i), l)
  {
    hide Total, TotalUpTo;
  }

  lemma ForkKeeps(s: State, num: nat, i: nat, l: nat)
    requires Inv(s, l) && num in s.tasks && i < BRANCHING_FACTOR && s.tasks[num] == Forking(i)
    ensures Inv(Goto(Goto(SetCell(s, Child(num, i), Empty), Child(num, i), Start), num, Forking(i + 1)), l)
  {
    hide NodeInv, TreeOk, WaitersOk, NodesOk, Child;
    var child := Child(num, i);
    var s' := Goto(Goto(SetCell(s, child, Empty), child, Start), num, Forking(i + 1));
    NodeAt(s, num, l);
    Positive(s, num, l);
    ForkTree(s, s', num, i, l);
    ForkWaiters(s, s', num, i);
    ForkNodes(s.cells, num, i, l);
    assert s'.cells == s.cells[child := Empty];
    NodesKeep(s, s', {num, child}, l);
  }

  lemma Positive(s: State, num: nat, l: nat)
    requires Inv(s, l) && num in s.tasks
    ensures s.tasks.Keys == s.cells.Keys && 1 <= num && num in s.cells
    ensures s.tasks[num].Forking? ==> num < l
  {
    NodeAt(s, num, l);
    hide TreeOk, WaitersOk, Total, TotalUpTo;
  }

  lemma SleepWaiters(s: State, num: nat, i: nat, sum: int)
    requires WaitersOk(s) && s.tasks.Keys == s.cells.Keys && num in s.tasks && s.tasks[num] == Sleeping(i, sum)
    requires i < BRANCHING_FACTOR && Child(num, i) in s.tasks && s.cells[Child(num, i)] == Empty
    requires s.tasks[Child(num, i)] != Waking
    ensures WaitersOk(Goto(SetCell(s, Child(num, i), Waiting), num, Asleep(i, sum)))
  {
    ChildIsBelow(num, i);
    hide Parent, Child, Position;
    var s' := Goto(SetCell(s, Child(num, i), Waiting), num, Asleep(i, sum));
    forall n | n in s'.tasks && n in s'.cells
      ensures s'.cells[n] == Waiting || s'.tasks[n] == Waking <==> ParentWaits(s', n)
    {
      if n != Child(num, i) {
        assert ParentWaits(s', n) == ParentWaits(s, n);
      }
    }
  }

  lemma SleepKeeps(s: State, num: nat, i: nat, sum: int, l: nat)
    requires Inv(s, l) && num in s.tasks && s.tasks[num] == Sleeping(i, sum)
    requires Child(num, i) in s.cells && s.cells[Child(num, i)] == Empty
    ensures Inv(Goto(SetCell(s, Child(num, i), Waiting), num, Asleep(i, sum)), l)
  {
    hide Total, TotalUpTo;
    var child := Child(num, i);
    var s' := Goto(SetCell(s, child, Waiting), num, Asleep(i, sum));
    assert NodeInv(s.tasks[num], s.cells, num, l);
    assert NodeInv(s.tasks[child], s.cells, child, l);
    assert child != num;
    assert NodeInv(s'.tasks[num], s'.cells, num, l);
    SleepWaiters(s, num, i, sum);
    hide NodeInv, TreeOk, WaitersOk, Child;
    TreeKeeps(s, s', l);
    NodesKeep(s, s', {num}, l);
  }

  lemma FulfilWaiters(s: State, num: nat, res: int)
    requires WaitersOk(s) && s.tasks.Keys == s.cells.Keys && num in s.tasks && s.tasks[num] == Fulfilling(res)
    ensures WaitersOk(Goto(SetCell(s, num, Fulfilled(res)), num, if s.cells[num] == Waiting then Waking else Finished))
  {
    hide Child, Parent;
    var s' := Goto(SetCell(s, num, Fulfilled(res)), num, if s.cells[num] == Waiting then Waking else Finished);
    assert forall n :: ParentWaits(s', n) == ParentWaits(s, n);
  }

  lemma FulfilNodes(s: State, num: nat, res: int, pc: Pc, l: nat)
    requires NodesOk(s, l) && num in s.tasks && s.tasks[num] == Fulfilling(res) && (pc.Waking? || pc.Finished?)
    ensures NodesOk(Goto(SetCell(s, num, Fulfilled(res)), num, pc), l)
  {
    hide Total, TotalUpTo, Child;
    var s' := Goto(SetCell(s, num, Fulfilled(res)), num, pc);
    assert NodeInv(s.tasks[num], s.cells, num, l);
    assert NodeInv(s'.tasks[num], s'.cells, num, l);
    hide NodeInv;
    NodesKeep(s, s', {num}, l);
  }

  lemma FulfilKeeps(s: State, num: nat, res: int, l: nat)
    requires Inv(s, l) && num in s.tasks && s.tasks[num] == Fulfilling(res)
    ensures num in s.cells
    ensures Inv(Goto(SetCell(s, num, Fulfilled(res)), num, if s.cells[num] == Waiting then Waking else Finished), l)
  {
    var pc := if s.cells[num] == Waiting then Waking else Finished;
    var s' := Goto(SetCell(s, num, Fulfilled(res)), num, pc);
    FulfilWaiters(s, num, res);
    FulfilNodes(s, num, res, pc, l);
    hide WaitersOk, NodesOk, TreeOk;
    FulfilForked(s, s', num, l);
    TreeKeeps(s, s', l);
  }

  lemma FulfilForked(s: State, s': State, num: nat, l: nat)
    requires num in s.tasks && s.tasks[num].Fulfilling? && s'.tasks.Keys == s.tasks.Keys
    requires s'.tasks[num].Waking? || s'.tasks[num].Finished?
    requires forall n :: n in s.tasks && n != num ==> s'.tasks[n] == s.tasks[n]
    ensures forall n :: n in s.tasks ==> Forked(s'.tasks[n], n, l) == Forked(s.tasks[n], n, l)
  {
  }

  lemma WakeWaiters(s: State, num: nat, i: nat, sum: int)
    requires WaitersOk(s) && s.tasks.Keys == s.cells.Keys && num in s.tasks && s.tasks[num] == Waking
    requires Parent(num) in s.tasks && s.tasks[Parent(num)] == Asleep(i, sum) && num == Child(Parent(num), i)
    requires i < BRANCHING_FACTOR && s.cells[num] != Waiting && Parent(num) != num
    ensures WaitersOk(Goto(Goto(s, Parent(num), Reading(i, sum)), num, Finished))
  {
    hide Child;
    var s' := Goto(Goto(s, Parent(num), Reading(i, sum)), num, Finished);
    forall n | n in s'.tasks && n in s'.cells
      ensures s'.cells[n] == Waiting || s'.tasks[n] == Waking <==> ParentWaits(s', n)
    {
      if n != num {
        assert ParentWaits(s', n) == ParentWaits(s, n);
      }
    }
  }

  lemma WakeNodes(s: State, num: nat, parent: nat, i: nat, sum: int, l: nat)
    requires NodesOk(s, l) && num in s.tasks && s.tasks[num] == Waking && parent != num
    requires parent in s.tasks && s.tasks[parent] == Asleep(i, sum) && num == Child(parent, i)
    ensures NodesOk(Goto(Goto(s, parent, Reading(i, sum)), num, Finished), l)
  {
    hide Total, TotalUpTo, Child;
    var s' := Goto(Goto(s, parent, Reading(i, sum)), num, Finished);
    assert NodeInv(s.tasks[num], s.cells, num, l) && NodeInv(s.tasks[parent], s.cells, parent, l);
    assert NodeInv(s'.tasks[num], s'.cells, num, l) && NodeInv(s'.tasks[parent], s'.cells, parent, l);
    hide NodeInv;
    NodesKeep(s, s', {num, parent}, l);
  }

  lemma Sleeper(s: State, num: nat, l: nat) returns (pc: Pc)
    requires Inv(s, l) && num in s.tasks && s.tasks[num] == Waking
    ensures num in s.cells && s.cells[num] != Waiting && s.tasks.Keys == s.cells.Keys
    ensures Parent(num) in s.tasks && Parent(num) != num && s.tasks[Parent(num)] == pc && pc.Asleep?
    ensures num == Child(Parent(num), pc.i) && pc.i < BRANCHING_FACTOR
  {
    NodeAt(s, num, l);
    assert ParentWaits(s, num);
    pc := s.tasks[Parent(num)];
    NodeAt(s, Parent(num), l);
    hide TreeOk, Total, TotalUpTo;
  }

  lemma WakeKeeps(s: State, num: nat, l: nat)
    requires Inv(s, l) && num in s.tasks && s.tasks[num] == Waking
    ensures Parent(num) in s.tasks && s.tasks[Parent(num)].Asleep?
    ensures var pc := s.tasks[Parent(num)];
            Inv(Goto(Goto(s, Parent(num), Reading(pc.i, pc.sum)), num, Finished), l)
  {
    hide NodesOk, TreeOk, NodeInv, WaitersOk, Parent, Child;
    var parent := Parent(num);
    var pc := Sleeper(s, num, l);
    WakeWaiters(s, num, pc.i, pc.sum);
    WakeNodes(s, num, parent, pc.i, pc.sum, l);
    TreeKeeps(s, Goto(Goto(s, parent, Reading(pc.i, pc.sum)), num, Finished), l);
  }

  /** A node that finds its child's promise fulfilled goes on to read it. */
  lemma SleepingFinds(s: State, num: nat, i: nat, sum: int, l: nat)
    requires Inv(s, l) && num in s.tasks && s.tasks[num] == Sleeping(i, sum)
    requires Child(num, i) in s.cells && s.cells[Child(num, i)] != Empty
    ensures NodeInv(Reading(i, sum), s.cells, num, l)
  {
    hide Total, TotalUpTo, TreeOk;
    assert NodeInv(s.tasks[num], s.cells, num, l);
    ChildIsBelow(num, i);
    hide Parent, Child, NodeInv;
    assert !ParentWaits(s, Child(num, i));
  }

  lemma ReadingAdds(s: State, num: nat, i: nat, sum: int, l: nat)
    requires Inv(s, l) && num in s.tasks && s.tasks[num] == Reading(i, sum)
    requires Child(num, i) in s.cells && s.cells[Child(num, i)].Fulfilled?
    ensures NodeInv(Checking(i + 1, sum + s.cells[Child(num, i)].result), s.cells, num, l)
  {
    hide Total, TotalUpTo, TreeOk, WaitersOk;
    var child := Child(num, i);
    assert NodeInv(s.tasks[num], s.cells, num, l);
    assert NodeInv(s.tasks[child], s.cells, child, l);
    TotalStep(num, i, l);
  }

  /** What a node needs to know after a step that is none of the above. */
  lemma LocalTarget(s: State, s': State, num: nat, l: nat)
    requires Inv(s, l) && num in s.tasks && num in s.cells && Step(s, s', num, l)
    requires !s.tasks[num].Fulfilling? && !s.tasks[num].Waking? && !s'.tasks[num].Asleep?
    requires s.tasks[num].Forking? ==> s.tasks[num].i == BRANCHING_FACTOR
    ensures s' == Goto(s, num, s'.tasks[num]) && NodeInv(s'.tasks[num], s.cells, num, l)
    ensures Forked(s'.tasks[num], num, l) == Forked(s.tasks[num], num, l)
    ensures !s.tasks[num].Asleep? && !s'.tasks[num].Waking?
  {
    hide Total, TotalUpTo, TreeOk, WaitersOk, Child, Parent;
    var pc := s.tasks[num];
    assert NodeInv(pc, s.cells, num, l);
    hide NodesOk;
    if pc.Sleeping? {
      SleepingFinds(s, num, pc.i, pc.sum, l);
    } else if pc.Reading? {
      ReadingAdds(s, num, pc.i, pc.sum, l);
    } else {
      TotalEnds(num, l);
    }
  }

  lemma LocalStepKeeps(s: State, s': State, num: nat, l: nat)
    requires Inv(s, l) && num in s.tasks && num in s.cells && Step(s, s', num, l)
    requires !s.tasks[num].Fulfilling? && !s.tasks[num].Waking? && num in s'.tasks && !s'.tasks[num].Asleep?
    requires s.tasks[num].Forking? ==> s.tasks[num].i == BRANCHING_FACTOR
    ensures Inv(s', l)
  {
    hide Inv, Step, Forked;
    LocalTarget(s, s', num, l);
    LocalKeeps(s, num, s'.tasks[num], l);
  }

  lemma ForkStepKeeps(s: State, s': State, num: nat, l: nat)
    requires Inv(s, l) && num in s.tasks && num in s.cells && Step(s, s', num, l) && s.tasks[num].Forking?
    ensures Inv(s', l)
  {
    hide Total, TotalUpTo, Parent, Child, Forked, TreeOk, WaitersOk;
    var pc := s.tasks[num];
    assert NodeInv(pc, s.cells, num, l);
    hide NodeInv, Inv;
    if pc.i < BRANCHING_FACTOR {
      ForkKeeps(s, num, pc.i, l);
    } else {
      LocalStepKeeps(s, s', num, l);
    }
  }

  lemma SleepStepKeeps(s: State, s': State, num: nat, l: nat)
    requires Inv(s, l) && num in s.tasks && num in s.cells && Step(s, s', num, l) && s.tasks[num].Sleeping?
    ensures Inv(s', l)
  {
    hide Parent, Child, Inv;
    if s'.tasks[num].Asleep? {
      SleepKeeps(s, num, s.tasks[num].i, s.tasks[num].sum, l);
    } else {
      LocalStepKeeps(s, s', num, l);
    }
  }

  lemma StepKeeps(s: State, s': State, num: nat, l: nat)
    requires Inv(s, l) && num in s.tasks && num in s.cells && Step(s, s', num, l)
    ensures Inv(s', l)
  {
    hide Parent, Child, Inv;
    var pc := s.tasks[num];
    if pc.Forking? {
      ForkStepKeeps(s, s', num, l);
    } else if pc.Sleeping? {
      SleepStepKeeps(s, s', num, l);
    } else if pc.Fulfilling? {
      FulfilKeeps(s, num, pc.res, l);
    } else if pc.Waking? {
      WakeKeeps(s, num, l);
    } else {
      LocalStepKeeps(s, s', num, l);
    }
  }

  // ------------------------------------------------------------- the closed form

  /** a + (a + 1) + ... + (a + n - 1) */
  function Arith(a: int, n: nat): int {
    if n == 0 then 0 else Arith(a, n - 1) + a + n - 1
  }

  lemma ArithZero(a: int)
    ensures Arith(a, 0) == 0
  {
  }

  lemma {:induction false} ArithAppend(a: int, m: nat, n: nat)
    ensures Arith(a, m) + Arith(a + m, n) == Arith(a, m + n)
  {
    if n > 0 {
      ArithAppend(a, m, n - 1);
    }
  }

  lemma {:induction false} Gauss(n: nat)
    ensures 2 * Arith(0, n) == n * (n - 1)
  {
    if n > 0 {
      Gauss(n - 1);
    }
  }

  /** The leaves under n nodes that are h layers above the last one. */
  function Leaves(n: nat, h: nat): nat {
    n * LastLayer(h + 1)
  }

  lemma LeavesOfChild(num: nat, i: nat, h: nat)
    requires 0 < h
    ensures Leaves(Child(num, i), h - 1) == Leaves(num, h) + Leaves(i, h - 1)
    ensures Leaves(BRANCHING_FACTOR, h - 1) == Leaves(1, h) && Leaves(0, h) == 0
  {
    var q := LastLayer(h);
    assert LastLayer(h + 1) == q * BRANCHING_FACTOR;
    hide LastLayer;
    assert (num * BRANCHING_FACTOR + i) * q == num * (q * BRANCHING_FACTOR) + i * q;
  }

  lemma LeavesAdd(i: nat, h: nat)
    ensures Leaves(0, h) == 0 && Leaves(i + 1, h) == Leaves(i, h) + Leaves(1, h)
  {
    var q := LastLayer(h + 1);
    hide LastLayer;
    assert (i + 1) * q == i * q + q;
  }

  /** The leaves under a node h layers above the last one are the consecutive ids from
      num * 10^h on. */
  lemma {:induction false} TotalOfSubtree(num: nat, k: nat, h: nat, d: nat)
    requires 1 <= d && k + h == d - 1
    requires LastLayer(k + 1) <= num < 2 * LastLayer(k + 1)
    ensures Total(num, LastLayer(d)) == Arith(Leaves(num, h) - LastLayer(d), Leaves(1, h))
    decreases h, BRANCHING_FACTOR + 1
  {
    if h > 0 {
      LayerBelow(k + 1, d);
      TotalOfChildren(num, k, h, d, BRANCHING_FACTOR);
      LeavesOfChild(num, 0, h);
    }
  }

  lemma {:induction false} TotalOfChildren(num: nat, k: nat, h: nat, d: nat, i: nat)
    requires 1 <= d && k + h == d - 1 && 0 < h && i <= BRANCHING_FACTOR
    requires LastLayer(k + 1) <= num < 2 * LastLayer(k + 1) && num < LastLayer(d)
    ensures TotalUpTo(num, i, LastLayer(d)) == Arith(Leaves(num, h) - LastLayer(d), Leaves(i, h - 1))
    decreases h, i
  {
    hide Leaves, Arith, LastLayer, Total, TotalUpTo, Child;
    if i == 0 {
      TotalEnds(num, LastLayer(d));
      LeavesAdd(0, h - 1);
      ArithZero(Leaves(num, h) - LastLayer(d));
    } else {
      TotalOfChildren(num, k, h, d, i - 1);
      OneLayerDown(num, i - 1, k);
      TotalOfSubtree(Child(num, i - 1), k + 1, h - 1, d);
      TotalStep(num, i - 1, LastLayer(d));
      LeavesOfChild(num, i - 1, h);
      LeavesAdd(i - 1, h - 1);
      ArithAppend(Leaves(num, h) - LastLayer(d), Leaves(i - 1, h - 1), Leaves(1, h - 1));
    }
  }

  lemma OneLayerDown(num: nat, i: nat, k: nat)
    requires LastLayer(k + 1) <= num < 2 * LastLayer(k + 1) && i < BRANCHING_FACTOR
    ensures LastLayer(k + 2) <= Child(num, i) < 2 * LastLayer(k + 2)
  {
  }

  lemma {:induction false} LayerBelow(k: nat, d: nat)
    requires 1 <= k < d
    ensures 2 * LastLayer(k) <= LastLayer(d)
  {
    if k < d - 1 {
      LayerBelow(k, d - 1);
    }
  }

  lemma TotalOfRoot(d: nat)
    requires 1 <= d
    ensures 2 * Total(1, LastLayer(d)) == LastLayer(d) * (LastLayer(d) - 1)
  {
    TotalOfSubtree(1, 0, d - 1, d);
    Gauss(LastLayer(d));
  }

  // ---------------------------------------------------------------- whole runs

  ghost predicate IsRun(ss: seq<State>, l: nat) {
    0 < |ss| && Init(ss[0]) && forall k :: 0 <= k < |ss| - 1 ==> Next(ss[k], ss[k + 1], l)
  }

  lemma {:induction false} RunKeeps(ss: seq<State>, l: nat, n: nat)
    requires 1 <= l && IsRun(ss, l) && n < |ss|
    ensures Inv(ss[n], l)
  {
    if n == 0 {
      assert TreeOk(ss[0], l);
    } else {
      RunKeeps(ss, l, n - 1);
      assert Next(ss[n - 1], ss[n - 1 + 1], l);
      hide Inv, Step;
      var num :| num in ss[n - 1].tasks && num in ss[n - 1].cells && Step(ss[n - 1], ss[n], num, l);
      StepKeeps(ss[n - 1], ss[n], num, l);
    }
  }

  /** Whatever the interleaving, the root's promise holds N (N - 1) / 2 from the moment it
      is fulfilled, where N is the number of leaves, 10^(d - 1); that is when the root
      task has finished. */
  lemma SkynetResult(ss: seq<State>, d: nat, n: nat)
    requires 1 <= d && IsRun(ss, Pow10(d - 1)) && n < |ss|
    ensures 1 in ss[n].tasks && 1 in ss[n].cells
    ensures ss[n].tasks[1].Finished? <==> ss[n].cells[1].Fulfilled?
    ensures ss[n].cells[1].Fulfilled? ==> 2 * ss[n].cells[1].result == Pow10(d - 1) * (Pow10(d - 1) - 1)
  {
    var s := ss[n];
    LastLayerIsPow10(d);
    RunKeeps(ss, LastLayer(d), n);
    assert NodeInv(s.tasks[1], s.cells, 1, LastLayer(d));
    assert 0 !in s.tasks;
    assert !ParentWaits(s, 1);
    TotalOfRoot(d);
  }

  /** No interleaving gets stuck: while some node is unfinished, some node can step. */
  lemma {:induction false} NeverStuck(s: State, num: nat, l: nat)
    requires Inv(s, l) && num in s.tasks && !s.tasks[num].Finished?
    ensures exists s' :: Next(s, s', l)
    decreases if num < l then l - num else 0
  {
    var pc := s.tasks[num];
    assert NodeInv(pc, s.cells, num, l);
    if pc.Asleep? {
      var child := Child(num, pc.i);
      assert child in s.tasks;
      ChildIsBelow(num, pc.i);
      assert ParentWaits(s, child);
      assert NodeInv(s.tasks[child], s.cells, child, l);
      hide Total, TotalUpTo, Next;
      NeverStuck(s, child, l);
    } else {
      var s' := CanStep(s, num, l);
      assert Next(s, s', l);
    }
  }

  /** A node that uses its current child's promise can go on. */
  lemma CanUseChild(s: State, num: nat, l: nat) returns (s': State)
    requires num in s.tasks && num in s.cells && NodeInv(s.tasks[num], s.cells, num, l)
    requires s.tasks[num].Reading? || s.tasks[num].Sleeping? || (s.tasks[num].Checking? && s.tasks[num].i < BRANCHING_FACTOR)
    requires Child(num, s.tasks[num].i) in s.cells
    ensures Step(s, s', num, l)
  {
    hide Total, TotalUpTo, Child, Parent;
    var pc := s.tasks[num];
    var child := Child(num, pc.i);
    var cell := s.cells[child];
    if pc.Checking? {
      s' := Goto(s, num, if cell.Fulfilled? then Reading(pc.i, pc.sum) else Sleeping(pc.i, pc.sum));
    } else if pc.Reading? {
      s' := Goto(s, num, Checking(pc.i + 1, pc.sum + cell.result));
    } else if cell == Empty {
      s' := Goto(SetCell(s, child, Waiting), num, Asleep(pc.i, pc.sum));
    } else {
      s' := Goto(s, num, Reading(pc.i, pc.sum));
    }
  }

  /** A node at any other point can go on by itself. */
  lemma CanGoOn(s: State, num: nat, l: nat) returns (s': State)
    requires num in s.tasks && num in s.cells && NodeInv(s.tasks[num], s.cells, num, l)
    requires s.tasks[num].Start? || s.tasks[num].Forking? || s.tasks[num].Fulfilling?
             || (s.tasks[num].Checking? && s.tasks[num].i == BRANCHING_FACTOR)
    ensures Step(s, s', num, l)
  {
    hide Total, TotalUpTo, Child, Parent;
    var pc := s.tasks[num];
    if pc.Start? {
      s' := Goto(s, num, if num >= l then Fulfilling(num - l) else Forking(0));
    } else if pc.Fulfilling? {
      s' := Goto(SetCell(s, num, Fulfilled(pc.res)), num, if s.cells[num] == Waiting then Waking else Finished);
    } else if pc.Checking? {
      s' := Goto(s, num, Fulfilling(pc.sum));
    } else if pc.i < BRANCHING_FACTOR {
      var child := Child(num, pc.i);
      s' := Goto(Goto(SetCell(s, child, Empty), child, Start), num, Forking(pc.i + 1));
    } else {
      s' := Goto(s, num, Checking(0, 0));
    }
  }

  lemma CanStep(s: State, num: nat, l: nat) returns (s': State)
    requires Inv(s, l) && num in s.tasks && !s.tasks[num].Finished? && !s.tasks[num].Asleep?
    ensures num in s.cells && Step(s, s', num, l)
  {
    hide Total, TotalUpTo, Child, Parent, Step;
    var pc := s.tasks[num];
    assert NodeInv(pc, s.cells, num, l);
    if pc.Waking? {
      s' := CanWake(s, num, l);
    } else if pc.Reading? || pc.Sleeping? || (pc.Checking? && pc.i < BRANCHING_FACTOR) {
      assert Forked(pc, num, l) == BRANCHING_FACTOR && Child(num, pc.i) in s.tasks;
      s' := CanUseChild(s, num, l);
    } else {
      s' := CanGoOn(s, num, l);
    }
  }

  lemma CanWake(s: State, num: nat, l: nat) returns (s': State)
    requires WaitersOk(s) && num in s.tasks && num in s.cells && s.tasks[num].Waking?
    ensures Step(s, s', num, l)
  {
    assert ParentWaits(s, num);
    var p := s.tasks[Parent(num)];
    s' := Goto(Goto(s, Parent(num), Reading(p.i, p.sum)), num, Finished);
  }

  // ------------------------------------------------------------- termination

  function Left(i: nat): nat {
    if i < BRANCHING_FACTOR then BRANCHING_FACTOR - i else 0
  }

  /** An upper bound on the steps a node has yet to take. */
  function StepsLeft(pc: Pc): nat {
    match pc
    case Start => 5 + 5 * BRANCHING_FACTOR
    case Forking(i) => 4 + 4 * BRANCHING_FACTOR + Left(i)
    case Checking(i, _) => 3 + 4 * Left(i)
    case Sleeping(i, _) => 2 + 4 * Left(i)
    case Asleep(i, _) => 1 + 4 * Left(i)
    case Reading(i, _) => 4 * Left(i)
    case Fulfilling(_) => 2
    case Waking => 1
    case Finished => 0
  }

  function Own(s: State, num: nat): nat {
    StepsLeft(if num in s.tasks then s.tasks[num] else Start)
  }

  /** The same for all nodes below num, forked or not. */
  function Work(s: State, num: nat, l: nat): nat
    requires 1 <= num
    decreases l - num, BRANCHING_FACTOR + 1
  {
    Own(s, num) + if num >= l then 0 else WorkUpTo(s, num, BRANCHING_FACTOR, l)
  }

  function WorkUpTo(s: State, num: nat, i: nat, l: nat): nat
    requires 1 <= num < l && i <= BRANCHING_FACTOR
    decreases l - num, i
  {
    if i == 0 then 0 else WorkUpTo(s, num, i - 1, l) + Work(s, Child(num, i - 1), l)
  }

  ghost predicate NoMoreThan(s': State, s: State) {
    forall n :: Own(s', n) <= Own(s, n)
  }

  lemma {:induction false} WorkMonotone(s: State, s': State, num: nat, l: nat)
    requires 1 <= num && NoMoreThan(s', s)
    ensures Work(s', num, l) <= Work(s, num, l)
    decreases l - num, BRANCHING_FACTOR + 1
  {
    hide Own;
    if num < l {
      WorkUpToMonotone(s, s', num, BRANCHING_FACTOR, l);
    }
  }

  lemma {:induction false} WorkUpToMonotone(s: State, s': State, num: nat, i: nat, l: nat)
    requires 1 <= num < l && i <= BRANCHING_FACTOR && NoMoreThan(s', s)
    ensures WorkUpTo(s', num, i, l) <= WorkUpTo(s, num, i, l)
    decreases l - num, i
  {
    if i > 0 {
      WorkUpToMonotone(s, s', num, i - 1, l);
      WorkMonotone(s, s', Child(num, i - 1), l);
    }
  }

  /** Less work for one child is less work for its parent. */
  lemma {:induction false} WorkOfParent(s: State, s': State, num: nat, c: nat, i: nat, l: nat)
    requires 1 <= num < l && c < i <= BRANCHING_FACTOR && NoMoreThan(s', s)
    requires Work(s', Child(num, c), l) < Work(s, Child(num, c), l)
    ensures WorkUpTo(s', num, i, l) < WorkUpTo(s, num, i, l)
  {
    hide NoMoreThan, Work;
    if c < i - 1 {
      WorkOfParent(s, s', num, c, i - 1, l);
      WorkMonotone(s, s', Child(num, i - 1), l);
    } else {
      WorkUpToMonotone(s, s', num, i - 1, l);
    }
  }

  lemma {:induction false} WorkOfRoot(s: State, s': State, num: nat, l: nat)
    requires Inv(s, l) && num in s.tasks && NoMoreThan(s', s)
    requires 1 <= num && Work(s', num, l) < Work(s, num, l)
    ensures Work(s', 1, l) < Work(s, 1, l)
  {
    if num != 1 {
      var parent := Parent(num);
      assert NodeInv(s.tasks[num], s.cells, num, l) && NodeInv(s.tasks[parent], s.cells, parent, l);
      assert num == Child(parent, Position(num)) && parent < l;
      WorkOfParent(s, s', parent, Position(num), BRANCHING_FACTOR, l);
      hide Inv, NodeInv;
      WorkOfRoot(s, s', parent, l);
    }
  }

  lemma StepWorks(s: State, s': State, num: nat, l: nat)
    requires Inv(s, l) && num in s.tasks && num in s.cells && Step(s, s', num, l)
    ensures NoMoreThan(s', s) && Own(s', num) < Own(s, num)
  {
    assert NodeInv(s.tasks[num], s.cells, num, l);
    hide Total, TotalUpTo, WaitersOk, NodesOk, NodeInv;
    if s.tasks[num].Forking? && s.tasks[num].i < BRANCHING_FACTOR {
      hide TreeOk, Child, Parent;
      ForkWorks(s, s', num, l);
    } else if s.tasks[num].Waking? {
      hide TreeOk;
      WakeWorks(s, s', num, l);
    } else {
      hide TreeOk, Step, Own;
      LocalWorks(s, s', num, l);
    }
  }

  lemma ForkWorks(s: State, s': State, num: nat, l: nat)
    requires TreeOk(s, l) && num in s.tasks && num in s.cells && 1 <= num < l
    requires s.tasks[num].Forking? && s.tasks[num].i < BRANCHING_FACTOR && Step(s, s', num, l)
    ensures NoMoreThan(s', s) && Own(s', num) < Own(s, num)
  {
    hide TreeOk, Child, Own;
    ForkTree(s, s', num, s.tasks[num].i, l);
    hide Step;
    ForkOwn(s, s', num, s.tasks[num].i, Child(num, s.tasks[num].i));
  }

  lemma ForkOwn(s: State, s': State, num: nat, i: nat, child: nat)
    requires num in s.tasks && s.tasks[num] == Forking(i) && i < BRANCHING_FACTOR && child !in s.tasks
    requires s'.tasks == s.tasks[child := Start][num := Forking(i + 1)]
    ensures NoMoreThan(s', s) && Own(s', num) < Own(s, num)
  {
  }

  lemma LocalWorks(s: State, s': State, num: nat, l: nat)
    requires num in s.tasks && num in s.cells && NodeInv(s.tasks[num], s.cells, num, l)
    requires !s.tasks[num].Waking? && (s.tasks[num].Forking? ==> s.tasks[num].i >= BRANCHING_FACTOR)
    requires Step(s, s', num, l)
    ensures NoMoreThan(s', s) && Own(s', num) < Own(s, num)
  {
    hide Total, TotalUpTo, Child, Parent;
    hide Own;
    assert num in s'.tasks && s'.tasks == s.tasks[num := s'.tasks[num]];
    assert StepsLeft(s'.tasks[num]) < StepsLeft(s.tasks[num]);
    hide Step, NodeInv, StepsLeft;
    LocalOwn(s, s', num);
  }

  lemma LocalOwn(s: State, s': State, num: nat)
    requires num in s.tasks && num in s'.tasks && s'.tasks == s.tasks[num := s'.tasks[num]]
    requires StepsLeft(s'.tasks[num]) < StepsLeft(s.tasks[num])
    ensures NoMoreThan(s', s) && Own(s', num) < Own(s, num)
  {
  }

  lemma WakeWorks(s: State, s': State, num: nat, l: nat)
    requires num in s.tasks && num in s.cells && s.tasks[num].Waking? && Step(s, s', num, l)
    ensures NoMoreThan(s', s) && Own(s', num) < Own(s, num)
  {
    hide Child, Parent;
  }

  lemma {:induction false} RunWorks(ss: seq<State>, l: nat, n: nat)
    requires 1 <= l && IsRun(ss, l) && n < |ss|
    ensures n + Work(ss[n], 1, l) <= Work(ss[0], 1, l)
  {
    if n > 0 {
      RunWorks(ss, l, n - 1);
      RunKeeps(ss, l, n - 1);
      assert Next(ss[n - 1], ss[n - 1 + 1], l);
      hide Inv, Step, Own;
      var num :| num in ss[n - 1].tasks && num in ss[n - 1].cells && Step(ss[n - 1], ss[n], num, l);
      StepWorks(ss[n - 1], ss[n], num, l);
      LessWork(ss[n - 1], ss[n], num, l);
    }
  }

  lemma LessWork(s: State, s': State, num: nat, l: nat)
    requires Inv(s, l) && num in s.tasks && NoMoreThan(s', s) && Own(s', num) < Own(s, num)
    ensures Work(s', 1, l) < Work(s, 1, l)
  {
    assert NodeInv(s.tasks[num], s.cells, num, l);
    hide Inv, Own, NoMoreThan;
    if num < l {
      WorkUpToMonotone(s, s', num, BRANCHING_FACTOR, l);
    }
    WorkOfRoot(s, s', num, l);
  }

  /** Every interleaving ends, after a number of steps fixed by the depth, and one that
      cannot go on has finished every task and fulfilled the root's promise with
      N (N - 1) / 2. */
  lemma SkynetTerminates(ss: seq<State>, d: nat)
    requires 1 <= d && IsRun(ss, Pow10(d - 1))
    ensures |ss| <= 1 + Work(ss[0], 1, Pow10(d - 1))
    ensures var last, l := ss[|ss| - 1], Pow10(d - 1);
            (!exists s' :: Next(last, s', l)) ==>
              && (forall num :: num in last.tasks ==> last.tasks[num].Finished?)
              && 1 in last.cells && last.cells[1].Fulfilled?
              && 2 * last.cells[1].result == l * (l - 1)
  {
    var n, l := |ss| - 1, LastLayer(d);
    LastLayerIsPow10(d);
    RunWorks(ss, l, n);
    RunKeeps(ss, l, n);
    SkynetResult(ss, d, n);
    hide Next, Work;
    forall num | num in ss[n].tasks && !ss[n].tasks[num].Finished?
      ensures exists s' :: Next(ss[n], s', l)
    {
      NeverStuck(ss[n], num, l);
    }
  }

  // ------------------------------------------------------- one promise of the tree

  /** How far a node is with its i-th child's promise; it gets the child's total. */
  function Awaiting(pc: Pc, i: nat, total: int): Promise.BlockAwaiter {
    match pc
    case Start => Promise.Checking
    case Forking(_) => Promise.Checking
    case Checking(j, _) => if j <= i then Promise.Checking else Promise.Got(total)
    case Sleeping(j, _) =>
      if j < i then Promise.Checking else if j == i then Promise.Sleeping else Promise.Got(total)
    case Asleep(j, _) => if j < i then Promise.Checking else if j == i then Promise.Slept else Promise.Got(total)
    case Reading(j, _) => if j < i then Promise.Checking else if j == i then Promise.Reading else Promise.Got(total)
    case _ => Promise.Got(total)
  }

  function Fulfils(pc: Pc): Promise.BlockFulfiller {
    if pc.Waking? then Promise.Waking else if pc.Finished? then Promise.Finished else Promise.Fulfilling
  }

  function CellOf(c: Cell): Promise.BlockCell {
    match c
    case Empty => Promise.Unset
    case Waiting => Promise.Waited
    case Fulfilled(r) => Promise.Set(r)
  }

  /** The promise of node `child` as its fulfiller and its awaiter see it. */
  function PromiseOf(s: State, child: nat, l: nat): Promise.Blocks
    requires child in s.tasks && child in s.cells && Parent(child) in s.tasks && 1 <= child
  {
    Promise.Blocks(CellOf(s.cells[child]), Fulfils(s.tasks[child]),
                   Awaiting(s.tasks[Parent(child)], Position(child), Total(child, l)))
  }

  /** Every node but the root has a parent. */
  lemma HasParent(s: State, child: nat, l: nat)
    requires Inv(s, l) && child in s.tasks && child != 1
    ensures 1 <= child && child in s.cells && Parent(child) in s.tasks && Parent(child) != child
    ensures 1 <= Parent(child) < l && child == Child(Parent(child), Position(child))
  {
    var p := Parent(child);
    assert NodeInv(s.tasks[child], s.cells, child, l) && NodeInv(s.tasks[p], s.cells, p, l);
  }

  predicate Known(s: State, child: nat) {
    1 <= child && child in s.tasks && child in s.cells && Parent(child) in s.tasks
  }

  /** One step leaves the promise of `child` alone or is one of Promise's blocks. */
  predicate OneBlock(s: State, s': State, child: nat, l: nat) {
    && Known(s, child) && Known(s', child)
    && (|| PromiseOf(s', child, l) == PromiseOf(s, child, l)
        || Promise.BlockNext(PromiseOf(s, child, l), PromiseOf(s', child, l), Total(child, l)))
  }

  /** What a step may change: its node, the parent it wakes, the cell it sleeps on. */
  lemma Footprint(s: State, s': State, num: nat, l: nat)
    requires num in s.tasks && num in s.cells && Step(s, s', num, l)
    requires s.tasks[num].Forking? && s.tasks[num].i < BRANCHING_FACTOR ==>
               Child(num, s.tasks[num].i) !in s.tasks && Child(num, s.tasks[num].i) !in s.cells
    ensures s.tasks.Keys <= s'.tasks.Keys && s.cells.Keys <= s'.cells.Keys
    ensures forall n :: n in s.tasks && n != num && !(s.tasks[num].Waking? && n == Parent(num)) ==>
              s'.tasks[n] == s.tasks[n]
    ensures forall n :: n in s.cells
              ==> (n == num && s.tasks[num].Fulfilling?)
                  || (s.tasks[num].Sleeping? && n == Child(num, s.tasks[num].i)) || s'.cells[n] == s.cells[n]
  {
    hide Child, Parent;
  }

  lemma ForksNew(s: State, num: nat, l: nat)
    requires Inv(s, l) && num in s.tasks && s.tasks[num].Forking? && s.tasks[num].i < BRANCHING_FACTOR
    ensures Child(num, s.tasks[num].i) !in s.tasks && Child(num, s.tasks[num].i) !in s.cells
  {
    NodeAt(s, num, l);
    var i := s.tasks[num].i;
    ForkTree(s, s.(tasks := s.tasks[Child(num, i) := Start][num := Forking(i + 1)]), num, i, l);
  }

  /** The node uses its i-th child's promise. */
  predicate Uses(pc: Pc, i: nat) {
    (pc.Checking? || pc.Sleeping? || pc.Reading?) && pc.i == i
  }

  /** Otherwise it makes no headway with that promise. */
  lemma MoverAwaits(s: State, s': State, num: nat, l: nat, i: nat, total: int)
    requires num in s.tasks && num in s.cells && num < l && Step(s, s', num, l) && NodeInv(s.tasks[num], s.cells, num, l)
    requires i < BRANCHING_FACTOR && !Uses(s.tasks[num], i)
    ensures num in s'.tasks && Awaiting(s'.tasks[num], i, total) == Awaiting(s.tasks[num], i, total)
  {
    hide Child, Parent, Total, TotalUpTo;
  }

  lemma MoverFulfils(s: State, s': State, num: nat, l: nat)
    requires num in s.tasks && num in s.cells && Step(s, s', num, l)
    ensures num in s'.tasks
    ensures !s.tasks[num].Fulfilling? && !s.tasks[num].Waking? ==> Fulfils(s'.tasks[num]) == Fulfils(s.tasks[num])
  {
    hide Child, Parent;
  }

  lemma PromiseSame(s: State, s': State, child: nat, l: nat)
    requires Known(s, child) && child in s'.tasks && child in s'.cells && Parent(child) in s'.tasks
    requires s'.cells[child] == s.cells[child] && Fulfils(s'.tasks[child]) == Fulfils(s.tasks[child])
    requires Awaiting(s'.tasks[Parent(child)], Position(child), Total(child, l))
             == Awaiting(s.tasks[Parent(child)], Position(child), Total(child, l))
    ensures OneBlock(s, s', child, l)
  {
  }

  lemma PromiseFulfilled(s: State, s': State, child: nat, l: nat)
    requires Known(s, child) && Parent(child) != child && Step(s, s', child, l) && s.tasks[child] == Fulfilling(Total(child, l))
    ensures OneBlock(s, s', child, l)
  {
    hide Total, Parent, Child, Position, Awaiting;
  }

  lemma PromiseWoken(s: State, s': State, child: nat, l: nat)
    requires Known(s, child) && Parent(child) != child && Step(s, s', child, l) && s.tasks[child].Waking?
    requires s.tasks[Parent(child)].Asleep? && s.tasks[Parent(child)].i == Position(child)
    ensures OneBlock(s, s', child, l)
  {
    hide Total, Parent, Child, Position;
  }

  /** What the parent does with the promise it awaits at the moment. */
  lemma PromiseAwaited(s: State, s': State, child: nat, l: nat)
    requires Known(s, child) && Parent(child) != child && Parent(child) in s.cells && Step(s, s', Parent(child), l)
    requires Uses(s.tasks[Parent(child)], Position(child)) && child == Child(Parent(child), Position(child))
    requires Position(child) < BRANCHING_FACTOR
    requires s.cells[child].Fulfilled? ==> s.cells[child].result == Total(child, l)
    ensures OneBlock(s, s', child, l)
  {
    hide Total, Parent, Child, Position;
  }

  lemma FulfilsTotal(s: State, num: nat, l: nat)
    requires Inv(s, l) && num in s.tasks
    ensures num in s.cells && 1 <= num
    ensures s.tasks[num].Fulfilling? ==> s.tasks[num].res == Total(num, l)
    ensures s.cells[num].Fulfilled? ==> s.cells[num].result == Total(num, l)
  {
    NodeAt(s, num, l);
    hide Inv, Total, TotalUpTo;
  }

  lemma WakesItsParent(s: State, num: nat)
    requires WaitersOk(s) && num in s.tasks && num in s.cells && s.tasks[num].Waking?
    ensures Parent(num) in s.tasks && s.tasks[Parent(num)].Asleep? && s.tasks[Parent(num)].i == Position(num)
  {
    assert ParentWaits(s, num);
  }

  lemma WokenReads(s: State, s': State, num: nat, l: nat)
    requires num in s.tasks && num in s.cells && s.tasks[num].Waking? && Step(s, s', num, l) && Parent(num) != num
    ensures var p := Parent(num);
            p in s.tasks && p in s'.tasks && s.tasks[p].Asleep? && s'.tasks[p] == Reading(s.tasks[p].i, s.tasks[p].sum)
  {
    hide Parent, Child;
  }

  /** The child itself moves. */
  lemma ChildMoves(s: State, s': State, child: nat, l: nat)
    requires Inv(s, l) && child in s.tasks && child != 1 && child in s.cells && Step(s, s', child, l)
    ensures OneBlock(s, s', child, l)
  {
    var pc := s.tasks[child];
    HasParent(s, child, l);
    FulfilsTotal(s, child, l);
    if pc.Forking? && pc.i < BRANCHING_FACTOR {
      ForksNew(s, child, l);
    }
    if pc.Waking? {
      WakesItsParent(s, child);
    }
    hide Inv, Step, Total, PromiseOf, OneBlock, Fulfils, Awaiting;
    if pc.Fulfilling? {
      PromiseFulfilled(s, s', child, l);
    } else if pc.Waking? {
      PromiseWoken(s, s', child, l);
    } else {
      Footprint(s, s', child, l);
      MoverFulfils(s, s', child, l);
      PromiseSame(s, s', child, l);
    }
  }

  /** Its parent moves. */
  lemma ParentMoves(s: State, s': State, child: nat, l: nat)
    requires Inv(s, l) && child in s.tasks && child != 1 && Parent(child) in s.tasks && Parent(child) in s.cells
    requires Step(s, s', Parent(child), l)
    ensures OneBlock(s, s', child, l)
  {
    var p := Parent(child);
    HasParent(s, child, l);
    FulfilsTotal(s, child, l);
    NodeAt(s, p, l);
    if s.tasks[p].Forking? && s.tasks[p].i < BRANCHING_FACTOR {
      ForksNew(s, p, l);
    }
    assert Parent(p) <= p < child;
    if s.tasks[p].Sleeping? {
      ChildIsBelow(p, s.tasks[p].i);
    }
    assert Position(child) < BRANCHING_FACTOR;
    hide Inv, NodeInv, Step, Total, PromiseOf, OneBlock, Fulfils, Awaiting, Child, Position;
    if Uses(s.tasks[p], Position(child)) {
      PromiseAwaited(s, s', child, l);
    } else {
      Footprint(s, s', p, l);
      MoverAwaits(s, s', p, l, Position(child), Total(child, l));
      PromiseSame(s, s', child, l);
    }
  }

  /** Another node wakes its own parent, which may be `child` or child's parent. */
  lemma OtherWakes(s: State, s': State, num: nat, child: nat, l: nat)
    requires Inv(s, l) && num in s.tasks && num in s.cells && Step(s, s', num, l) && s.tasks[num].Waking?
    requires child in s.tasks && child != 1 && num != child && num != Parent(child)
    ensures OneBlock(s, s', child, l)
  {
    hide Inv, Step, Total, PromiseOf, OneBlock, Child;
    HasParent(s, child, l);
    WakesAbove(s, num, l);
    WokenReads(s, s', num, l);
    Footprint(s, s', num, l);
    PromiseSame(s, s', child, l);
  }

  lemma WakesAbove(s: State, num: nat, l: nat)
    requires Inv(s, l) && num in s.tasks && s.tasks[num].Waking?
    ensures num in s.cells && Parent(num) in s.tasks && Parent(num) != num
    ensures s.tasks[Parent(num)].Asleep? && s.tasks[Parent(num)].i == Position(num)
  {
    NodeAt(s, num, l);
    WakesItsParent(s, num);
  }

  /** Another node moves. */
  lemma OtherMoves(s: State, s': State, num: nat, child: nat, l: nat)
    requires Inv(s, l) && num in s.tasks && num in s.cells && Step(s, s', num, l) && !s.tasks[num].Waking?
    requires child in s.tasks && child != 1 && num != child && num != Parent(child)
    ensures OneBlock(s, s', child, l)
  {
    hide Inv, Step, Total, PromiseOf, OneBlock, Fulfils, Awaiting;
    HasParent(s, child, l);
    if s.tasks[num].Forking? && s.tasks[num].i < BRANCHING_FACTOR {
      ForksNew(s, num, l);
    }
    if s.tasks[num].Sleeping? {
      SleepsBelow(s, num, l);
    }
    Footprint(s, s', num, l);
    PromiseSame(s, s', child, l);
  }

  lemma SleepsBelow(s: State, num: nat, l: nat)
    requires Inv(s, l) && num in s.tasks && s.tasks[num].Sleeping?
    ensures Parent(Child(num, s.tasks[num].i)) == num
  {
    NodeAt(s, num, l);
    ChildIsBelow(num, s.tasks[num].i);
  }

  /** To each promise of the tree every step of every node is nothing or one of the blocks
      that Promise refines. */
  lemma UsesPromises(s: State, s': State, num: nat, child: nat, l: nat)
    requires Inv(s, l) && num in s.tasks && num in s.cells && Step(s, s', num, l)
    requires child in s.tasks && child != 1
    ensures OneBlock(s, s', child, l)
  {
    HasParent(s, child, l);
    hide Inv, Step, OneBlock;
    if num == child {
      ChildMoves(s, s', child, l);
    } else if num == Parent(child) {
      ParentMoves(s, s', child, l);
    } else if s.tasks[num].Waking? {
      OtherWakes(s, s', num, child, l);
    } else {
      OtherMoves(s, s', num, child, l);
    }
  }
}
