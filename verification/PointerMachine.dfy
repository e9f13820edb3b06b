// The pointers through which asm/seff.S represents the machine of SwitchSpec:
// `parent_coroutine`, `resume_point.current_coroutine` and the running coroutine.

module PointerMachine {
  import opened Options
  import opened SwitchSpec

  /** The fields of a `seff_coroutine_t` that switching uses. */
  datatype Node<!K> = Node(parent: Option<K>, rpCurrent: Option<K>, rp: Context, handled: bv64, finished: bool)

  datatype Pointers<!K(==)> = Pointers(
    nodes: map<K, Node<K>>,
    current: Option<K>,
    cpu: Context,
    systemStack: int)

  // ----------------------------------------------------- what the assembly does

  function PtrCreate<K>(p: Pointers<K>, k: K, start: Context): Pointers<K> {
    p.(nodes := p.nodes[k := Node(None, Some(k), start, 0, false)])
  }

  function PtrResume<K>(p: Pointers<K>, k: K, mask: bv64, c: Context): Pointers<K>
    requires k in p.nodes
  {
    var n := p.nodes[k];
    Pointers(p.nodes[k := n.(parent := p.current, rp := c, handled := mask)], n.rpCurrent, n.rp,
             if p.current == None then c.rsp else p.systemStack)
  }

  function PtrYield<K>(p: Pointers<K>, k: K, c: Context): Pointers<K>
    requires k in p.nodes
  {
    var n := p.nodes[k];
    p.(nodes := p.nodes[k := n.(rpCurrent := p.current, rp := c)], current := n.parent, cpu := n.rp)
  }

  function PtrExit<K>(p: Pointers<K>, k: K, c: Context): Pointers<K>
    requires k in p.nodes
  {
    var n := p.nodes[k];
    p.(nodes := p.nodes[k := n.(rp := n.rp.(regs := c.regs), finished := true)], current := n.parent, cpu := n.rp)
  }

  // ------------------------------------------------- what the pointers represent

  function Last<K>(s: seq<K>): Option<K> {
    if s == [] then None else Some(s[|s| - 1])
  }

  /** A thread with no coroutines. */
  function PtrStart<K>(cpu: Context): Pointers<K> {
    Pointers(map[], None, cpu, 0)
  }

  /** Each coroutine of the segment was resumed by the one before it. */
  ghost predicate Linked<K>(nodes: map<K, Node<K>>, seg: seq<K>) {
    && (forall i :: 0 <= i < |seg| ==> seg[i] in nodes)
    && (forall i :: 0 < i < |seg| ==> nodes[seg[i]].parent == Some(seg[i - 1]))
  }

  ghost predicate FieldsMatch<K>(nodes: map<K, Node<K>>, m: Machine<K>) {
    && nodes.Keys == m.saved.Keys
    && forall k :: k in nodes ==>
         && k in m.masks && nodes[k].rp == m.saved[k] && nodes[k].handled == m.masks[k]
         && (nodes[k].finished <==> k in m.finished)
  }

  ghost predicate SegmentsLinked<K>(nodes: map<K, Node<K>>, m: Machine<K>) {
    forall k :: k in m.paused ==> Linked(nodes, m.paused[k]) && k in nodes && nodes[k].rpCurrent == Last(m.paused[k])
  }

  ghost predicate Represents<K>(p: Pointers<K>, m: Machine<K>) {
    && WellFormed(m)
    && FieldsMatch(p.nodes, m)
    && Linked(p.nodes, m.active) && p.current == Last(m.active)
    && (m.active != [] ==> p.nodes[m.active[0]].parent == None)
    && SegmentsLinked(p.nodes, m)
    && (m.active != [] ==> p.systemStack == m.systemStack)
  }

  // ------------------------------------------------------------- the refinement

  /** Changing k alone leaves the links of a segment in which k occurs at most first. */
  lemma LinkedFrame<K>(nodes: map<K, Node<K>>, seg: seq<K>, k: K, n: Node<K>)
    requires Linked(nodes, seg)
    requires forall i :: 0 < i < |seg| ==> seg[i] != k
    ensures Linked(nodes[k := n], seg)
  {
  }

  /** Changing k's registers and mask on both sides alike keeps every field in step. */
  lemma FieldsFrame<K>(nodes: map<K, Node<K>>, m: Machine<K>, m': Machine<K>, k: K, n: Node<K>)
    requires FieldsMatch(nodes, m)
    requires k in m'.saved && m'.saved == m.saved[k := m'.saved[k]] && n.rp == m'.saved[k]
    requires k in m'.masks && m'.masks == m.masks[k := m'.masks[k]] && n.handled == m'.masks[k]
    requires if n.finished then m'.finished == m.finished + {k} else m'.finished == m.finished && k !in m.finished
    ensures FieldsMatch(nodes[k := n], m')
  {
    var nodes' := nodes[k := n];
    assert nodes.Keys == m.saved.Keys;
    assert nodes'.Keys == nodes.Keys + {k} && m'.saved.Keys == m.saved.Keys + {k};
    forall l | l in nodes'
      ensures l in m'.masks && l in m'.saved && nodes'[l].rp == m'.saved[l] && nodes'[l].handled == m'.masks[l]
      ensures nodes'[l].finished <==> l in m'.finished
    {
      if l != k {
        OtherField(nodes, m, m', k, l);
      }
    }
  }

  lemma OtherField<K>(nodes: map<K, Node<K>>, m: Machine<K>, m': Machine<K>, k: K, l: K)
    requires FieldsMatch(nodes, m) && l in nodes && l != k
    requires k in m'.saved && m'.saved == m.saved[k := m'.saved[k]]
    requires k in m'.masks && m'.masks == m.masks[k := m'.masks[k]]
    requires m'.finished == m.finished + {k} || m'.finished == m.finished
    ensures l in m'.masks && l in m'.saved && nodes[l].rp == m'.saved[l] && nodes[l].handled == m'.masks[l]
    ensures nodes[l].finished <==> l in m'.finished
  {
    FieldsAt(nodes, m, l);
    hide FieldsMatch;
  }

  lemma FieldsAt<K>(nodes: map<K, Node<K>>, m: Machine<K>, k: K)
    requires FieldsMatch(nodes, m)
    ensures k in nodes <==> k in m.saved
    ensures k in nodes ==>
              && k in m.masks && nodes[k].rp == m.saved[k] && nodes[k].handled == m.masks[k]
              && (nodes[k].finished <==> k in m.finished)
  {
    assert k in nodes.Keys <==> k in m.saved.Keys;
  }

  /** Segments other than k's own keep their links when k changes. */
  lemma SegmentsFrame<K>(nodes: map<K, Node<K>>, m: Machine<K>, m': Machine<K>, k: K, n: Node<K>)
    requires SegmentsLinked(nodes, m)
    requires forall l, i :: l in m.paused && 0 < i < |m.paused[l]| ==> m.paused[l][i] != k
    requires forall l :: l in m'.paused && l != k ==> l in m.paused && m'.paused[l] == m.paused[l]
    requires k in m'.paused ==> Linked(nodes[k := n], m'.paused[k]) && n.rpCurrent == Last(m'.paused[k])
    ensures SegmentsLinked(nodes[k := n], m')
  {
    forall l | l in m'.paused && l != k
      ensures Linked(nodes[k := n], m'.paused[l]) && nodes[l].rpCurrent == Last(m'.paused[l])
    {
      LinkedFrame(nodes, m.paused[l], k, n);
    }
  }

  lemma LinkedSplit<K>(nodes: map<K, Node<K>>, seg: seq<K>, i: nat)
    requires Linked(nodes, seg) && i <= |seg|
    ensures Linked(nodes, seg[..i]) && Linked(nodes, seg[i..])
    ensures i < |seg| ==> seg[i] in nodes && (0 < i ==> nodes[seg[i]].parent == Last(seg[..i]))
    ensures i < |seg| ==> Last(seg[i..]) == Last(seg)
  {
  }

  lemma LinkedJoin<K>(nodes: map<K, Node<K>>, s: seq<K>, t: seq<K>)
    requires Linked(nodes, s) && Linked(nodes, t)
    requires s != [] && t != [] ==> nodes[t[0]].parent == Last(s)
    ensures Linked(nodes, s + t) && (t != [] ==> Last(s + t) == Last(t))
  {
  }

  lemma CreateRefines<K>(p: Pointers<K>, m: Machine<K>, k: K, start: Context)
    requires Represents(p, m) && k !in m.saved
    ensures Represents(PtrCreate(p, k, start), Create(m, k, start))
  {
    var n, m' := Node(None, Some(k), start, 0, false), Create(m, k, start);
    CreateWellFormed(m, k, start);
    KnownSegments(m);
    hide WellFormed;
    FieldsFrame(p.nodes, m, m', k, n);
    SegmentsFrame(p.nodes, m, m', k, n);
    LinkedFrame(p.nodes, m.active, k, n);
  }

  lemma ResumeRefines<K>(p: Pointers<K>, m: Machine<K>, k: K, mask: bv64, c: Context)
    requires Represents(p, m) && k in m.paused
    ensures k in m.saved && k in p.nodes
    ensures Represents(PtrResume(p, k, mask, c), Resume(m, k, mask, c))
    ensures PtrResume(p, k, mask, c).cpu == Resume(m, k, mask, c).cpu
  {
    PausedOccursOnce(m, k);
    ResumeWellFormed(m, k, mask, c);
    hide WellFormed;
    var p', m' := PtrResume(p, k, mask, c), Resume(m, k, mask, c);
    var n := p'.nodes[k];
    FieldsFrame(p.nodes, m, m', k, n);
    SegmentsFrame(p.nodes, m, m', k, n);
    LinkedFrame(p.nodes, m.active, k, n);
    LinkedFrame(p.nodes, m.paused[k], k, n);
    LinkedJoin(p'.nodes, m.active, m.paused[k]);
  }

  lemma YieldRefines<K>(p: Pointers<K>, m: Machine<K>, i: nat, c: Context)
    requires Represents(p, m) && i < |m.active|
    ensures m.active[i] in m.saved && m.active[i] in p.nodes
    ensures Represents(PtrYield(p, m.active[i], c), Yield(m, i, c))
    ensures PtrYield(p, m.active[i], c).cpu == Yield(m, i, c).cpu
  {
    hide WellFormed, FieldsMatch, SegmentsLinked, Linked;
    ActiveOccursOnce(m, i);
    YieldWellFormed(m, i, c);
    var k := m.active[i];
    FieldsAt(p.nodes, m, k);
    var p', m' := PtrYield(p, k, c), Yield(m, i, c);
    var n := p'.nodes[k];
    FieldsFrame(p.nodes, m, m', k, n);
    LinkedSplit(p.nodes, m.active, i);
    LinkedFrame(p.nodes, m.active[..i], k, n);
    LinkedFrame(p.nodes, m.active[i..], k, n);
    SegmentsFrame(p.nodes, m, m', k, n);
  }

  lemma ExitRefines<K>(p: Pointers<K>, m: Machine<K>, i: nat, c: Context)
    requires Represents(p, m) && i < |m.active|
    ensures m.active[i] in m.saved && m.active[i] in p.nodes
    ensures Represents(PtrExit(p, m.active[i], c), Exit(m, i, c))
    ensures PtrExit(p, m.active[i], c).cpu == Exit(m, i, c).cpu
  {
    hide WellFormed, FieldsMatch, SegmentsLinked, Linked;
    ActiveOccursOnce(m, i);
    ExitWellFormed(m, i, c);
    var k := m.active[i];
    FieldsAt(p.nodes, m, k);
    var p', m' := PtrExit(p, k, c), Exit(m, i, c);
    var n := p'.nodes[k];
    FieldsFrame(p.nodes, m, m', k, n);
    LinkedSplit(p.nodes, m.active, i);
    LinkedFrame(p.nodes, m.active[..i], k, n);
    SegmentsFrame(p.nodes, m, m', k, n);
  }

  lemma StartRepresents<K>(cpu: Context)
    ensures Represents(PtrStart<K>(cpu), NewMachine(cpu))
  {
  }

  // ---------------------------------------------------------------- whole runs

  function PtrApply<K>(p: Pointers<K>, op: Op<K>): Pointers<K>
    requires op.OpCreate? || op.k in p.nodes
  {
    match op
    case OpCreate(k, start) => PtrCreate(p, k, start)
    case OpResume(k, mask, c) => PtrResume(p, k, mask, c)
    case OpYield(k, c) => PtrYield(p, k, c)
    case OpExit(k, c) => PtrExit(p, k, c)
  }

  lemma StepRepresents<K>(p: Pointers<K>, m: Machine<K>, op: Op<K>, m': Machine<K>)
    requires Represents(p, m) && Steps(m, op, m')
    ensures op.OpCreate? || op.k in p.nodes
    ensures Represents(PtrApply(p, op), m')
  {
    match op {
      case OpCreate(k, start) => CreateRefines(p, m, k, start);
      case OpResume(k, mask, c) => ResumeRefines(p, m, k, mask, c);
      case OpYield(k, c) =>
        var i :| 0 <= i < |m.active| && m.active[i] == k && k in m.saved && m' == Yield(m, i, c);
        YieldRefines(p, m, i, c);
      case OpExit(k, c) =>
        var i :| 0 <= i < |m.active| && m.active[i] == k && k in m.saved && m' == Exit(m, i, c);
        ExitRefines(p, m, i, c);
    }
  }

  /** The pointers are changed as the operations say; an operation may be applied only to
      an existing coroutine. */
  ghost predicate PtrRun<K>(ps: seq<Pointers<K>>, ops: seq<Op<K>>) {
    && |ps| == |ops| + 1
    && forall n :: 0 <= n < |ops| ==>
         ((ops[n].OpCreate? || ops[n].k in ps[n].nodes) ==> ps[n + 1] == PtrApply(ps[n], ops[n]))
  }

  /** As long as only heads of paused segments are resumed and only active coroutines are
      yielded to or exited, the pointers represent the abstract state after every step. */
  lemma {:induction false} RunRepresents<K>(ps: seq<Pointers<K>>, ms: seq<Machine<K>>, ops: seq<Op<K>>)
    requires IsRun(ms, ops) && PtrRun(ps, ops) && Represents(ps[0], ms[0])
    ensures forall n :: 0 <= n < |ms| ==> Represents(ps[n], ms[n])
  {
    hide Represents, Steps;
    for n := 0 to |ops|
      invariant forall l :: 0 <= l <= n ==> Represents(ps[l], ms[l])
    {
      StepRepresents(ps[n], ms[n], ops[n], ms[n + 1]);
    }
  }

  /** In particular from the start of a thread on: every reachable state is represented
      and well formed, and no operation meets a coroutine it does not know. */
  lemma RunFromStart<K>(cpu: Context, ps: seq<Pointers<K>>, ms: seq<Machine<K>>, ops: seq<Op<K>>, n: nat)
    requires |ms| == |ops| + 1 && ms[0] == NewMachine(cpu)
    requires forall k :: 0 <= k < |ops| ==> Steps(ms[k], ops[k], ms[k + 1])
    requires PtrRun(ps, ops) && ps[0] == PtrStart(cpu) && n < |ms|
    ensures Represents(ps[n], ms[n])
    ensures n < |ops| ==> ops[n].OpCreate? || ops[n].k in ps[n].nodes
  {
    StartRepresents<K>(cpu);
    RunRepresents(ps, ms, ops);
    if n < |ops| {
      StepRepresents(ps[n], ms[n], ops[n], ms[n + 1]);
    }
  }

  /** n steps along `parent_coroutine` from the running coroutine. */
  function Ancestor<K>(p: Pointers<K>, n: nat): Option<K> {
    if n == 0 then p.current
    else
      var k := Ancestor(p, n - 1);
      if k.Some? && k.value in p.nodes then p.nodes[k.value].parent else None
  }

  /** The parent chain is acyclic and is exactly the active stack, innermost first. */
  lemma {:induction false} AncestorsAreTheStack<K>(p: Pointers<K>, m: Machine<K>, n: nat)
    requires Represents(p, m)
    ensures Ancestor(p, n) == if n < |m.active| then Some(m.active[|m.active| - 1 - n]) else None
  {
    if n > 0 {
      AncestorsAreTheStack(p, m, n - 1);
    }
  }
}
