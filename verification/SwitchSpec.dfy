// What resuming, yielding and exiting mean, without pointers: one stack of active
// coroutines and, for every paused coroutine, the segment it captured.

module SwitchSpec {
  import opened Options

  /** The callee-saved registers `swap_registers` exchanges. */
  datatype Registers = Registers(rbx: int, r12: int, r13: int, r14: int, r15: int)

  /** Everything a switch saves and restores; `ip` and `rsp` are those in force after
      the switching call has returned. */
  datatype Context = Context(regs: Registers, rbp: int, rsp: int, ip: int, stackTop: int)

  /** `active` runs from the outermost coroutine to the running one.  `paused[k]` starts
      with k and ends with the coroutine that yielded to k.  `saved[k]` is k's resume
      point: where k continues if it is paused, and where its resumer continues if not. */
  datatype Machine<!K(==)> = Machine(
    active: seq<K>,
    paused: map<K, seq<K>>,
    saved: map<K, Context>,
    masks: map<K, bv64>,
    cpu: Context,
    systemStack: int,
    finished: set<K>)

  ghost predicate NoDuplicates<K>(s: seq<K>) {
    forall i, j :: 0 <= i < j < |s| ==> s[i] != s[j]
  }

  ghost predicate Apart<K>(s: seq<K>, t: seq<K>) {
    forall i, j :: 0 <= i < |s| && 0 <= j < |t| ==> s[i] != t[j]
  }

  ghost predicate Known<K>(m: Machine<K>, s: seq<K>) {
    forall i :: 0 <= i < |s| ==> s[i] in m.saved && s[i] in m.masks && s[i] !in m.finished
  }

  /** The segment captured by k: it starts at k, and nothing occurs in it twice or is active. */
  ghost predicate IsSegment<K>(m: Machine<K>, k: K, seg: seq<K>) {
    && 0 < |seg| && seg[0] == k
    && NoDuplicates(seg) && Known(m, seg) && Apart(seg, m.active)
  }

  ghost predicate WellFormed<K>(m: Machine<K>) {
    && NoDuplicates(m.active) && Known(m, m.active)
    && (forall k :: k in m.paused ==> IsSegment(m, k, m.paused[k]))
    && (forall k, l :: k in m.paused && l in m.paused && k != l ==> Apart(m.paused[k], m.paused[l]))
    && (forall k :: k in m.finished ==> k in m.saved)
    && (m.active != [] ==> m.saved[m.active[0]].rsp == m.systemStack)
  }

  // ------------------------------------------------------------ the operations

  /** `k` fresh: a coroutine that was never initialised. */
  function Create<K>(m: Machine<K>, k: K, start: Context): Machine<K>
    requires k !in m.saved
  {
    m.(paused := m.paused[k := [k]], saved := m.saved[k := start], masks := m.masks[k := 0])
  }

  /** The running code, whose call would return to c, resumes the paused coroutine k. */
  function Resume<K>(m: Machine<K>, k: K, mask: bv64, c: Context): Machine<K>
    requires k in m.paused && k in m.saved
  {
    m.(active := m.active + m.paused[k],
       paused := m.paused - {k},
       saved := m.saved[k := c],
       masks := m.masks[k := mask],
       cpu := m.saved[k],
       systemStack := if m.active == [] then c.rsp else m.systemStack)
  }

  /** The running code yields to the active coroutine at depth i. */
  function Yield<K>(m: Machine<K>, i: nat, c: Context): Machine<K>
    requires i < |m.active| && m.active[i] in m.saved
  {
    var k := m.active[i];
    m.(active := m.active[..i],
       paused := m.paused[k := m.active[i..]],
       saved := m.saved[k := c],
       cpu := m.saved[k])
  }

  /** The active coroutine at depth i finishes; whatever it was running is dropped. */
  function Exit<K>(m: Machine<K>, i: nat, c: Context): Machine<K>
    requires i < |m.active| && m.active[i] in m.saved
  {
    var k := m.active[i];
    m.(active := m.active[..i],
       saved := m.saved[k := m.saved[k].(regs := c.regs)],
       cpu := m.saved[k],
       finished := m.finished + {k})
  }

  // ------------------------------------------------------- what they preserve

  lemma CreateWellFormed<K>(m: Machine<K>, k: K, start: Context)
    requires WellFormed(m) && k !in m.saved
    ensures WellFormed(Create(m, k, start))
  {
    var m' := Create(m, k, start);
    forall l | l in m'.paused
      ensures IsSegment(m', l, m'.paused[l])
    {
      if l != k {
        assert IsSegment(m, l, m.paused[l]);
      }
    }
    forall a, b | a in m'.paused && b in m'.paused && a != b
      ensures Apart(m'.paused[a], m'.paused[b])
    {
      if a == k {
        assert IsSegment(m, b, m.paused[b]);
      } else if b == k {
        assert IsSegment(m, a, m.paused[a]);
      }
    }
  }

  lemma ResumeWellFormed<K>(m: Machine<K>, k: K, mask: bv64, c: Context)
    requires WellFormed(m) && k in m.paused && k in m.saved
    ensures WellFormed(Resume(m, k, mask, c))
  {
    var m' := Resume(m, k, mask, c);
    assert IsSegment(m, k, m.paused[k]);
    forall l | l in m'.paused
      ensures IsSegment(m', l, m'.paused[l])
    {
      assert IsSegment(m, l, m.paused[l]);
      assert Apart(m.paused[l], m.paused[k]);
    }
    if m.active != [] {
      assert m.paused[k][0] != m.active[0];
    }
  }

  lemma YieldWellFormed<K>(m: Machine<K>, i: nat, c: Context)
    requires WellFormed(m) && i < |m.active|
    ensures m.active[i] in m.saved && WellFormed(Yield(m, i, c))
  {
    var k, m' := m.active[i], Yield(m, i, c);
    assert IsSegment(m', k, m'.paused[k]);
    forall l | l in m'.paused
      ensures IsSegment(m', l, m'.paused[l])
    {
      if l != k {
        assert IsSegment(m, l, m.paused[l]);
      }
    }
    forall a, b | a in m'.paused && b in m'.paused && a != b
      ensures Apart(m'.paused[a], m'.paused[b])
    {
      if a != k {
        assert IsSegment(m, a, m.paused[a]);
      }
      if b != k {
        assert IsSegment(m, b, m.paused[b]);
      }
    }
  }

  lemma ExitWellFormed<K>(m: Machine<K>, i: nat, c: Context)
    requires WellFormed(m) && i < |m.active|
    ensures m.active[i] in m.saved && WellFormed(Exit(m, i, c))
  {
    var k, m' := m.active[i], Exit(m, i, c);
    forall l | l in m'.paused
      ensures IsSegment(m', l, m'.paused[l])
    {
      assert IsSegment(m, l, m.paused[l]);
    }
  }

  lemma KnownSegments<K>(m: Machine<K>)
    requires WellFormed(m)
    ensures forall l, i :: l in m.paused && 0 <= i < |m.paused[l]| ==> m.paused[l][i] in m.saved
    ensures forall l :: l in m.paused ==> l in m.saved
    ensures forall l :: l in m.finished ==> l in m.saved
    ensures forall i :: 0 <= i < |m.active| ==> m.active[i] in m.saved
  {
    forall l | l in m.paused
      ensures l in m.saved
      ensures forall i :: 0 <= i < |m.paused[l]| ==> m.paused[l][i] in m.saved
    {
      assert IsSegment(m, l, m.paused[l]);
    }
  }

  /** A paused coroutine occurs nowhere but at the head of its own segment. */
  lemma PausedOccursOnce<K>(m: Machine<K>, k: K)
    requires WellFormed(m) && k in m.paused
    ensures k in m.saved && k in m.masks && k !in m.finished
    ensures forall l :: l in m.paused ==> 0 < |m.paused[l]| && m.paused[l][0] == l
    ensures forall l, i :: l in m.paused && 0 < i < |m.paused[l]| ==> m.paused[l][i] != k
    ensures forall i :: 0 <= i < |m.active| ==> m.active[i] != k
  {
    assert IsSegment(m, k, m.paused[k]);
    forall l | l in m.paused
      ensures 0 < |m.paused[l]| && m.paused[l][0] == l
      ensures forall i :: 0 < i < |m.paused[l]| ==> m.paused[l][i] != k
    {
      assert IsSegment(m, l, m.paused[l]);
      if l != k {
        assert Apart(m.paused[k], m.paused[l]);
      }
    }
  }

  /** An active coroutine occurs once in the stack and in no segment. */
  lemma ActiveOccursOnce<K>(m: Machine<K>, i: nat)
    requires WellFormed(m) && i < |m.active|
    ensures var k := m.active[i]; k in m.saved && k in m.masks && k !in m.finished && k !in m.paused
    ensures forall l :: l in m.paused ==> 0 < |m.paused[l]| && m.paused[l][0] == l
    ensures forall l, j :: l in m.paused && 0 <= j < |m.paused[l]| ==> m.paused[l][j] != m.active[i]
    ensures forall j :: 0 <= j < |m.active| && j != i ==> m.active[j] != m.active[i]
  {
    forall l | l in m.paused
      ensures 0 < |m.paused[l]| && m.paused[l][0] == l && l != m.active[i]
      ensures forall j :: 0 <= j < |m.paused[l]| ==> m.paused[l][j] != m.active[i]
    {
      assert IsSegment(m, l, m.paused[l]);
      assert Apart(m.paused[l], m.active);
    }
  }

  // ---------------------------------------------------------------- whole runs

  /** The c of an operation is the context its call would return to; the code that runs
      between two switches may have put anything there. */
  datatype Op<K> =
    | OpCreate(k: K, start: Context)
    | OpResume(k: K, mask: bv64, c: Context)
    | OpYield(k: K, c: Context)
    | OpExit(k: K, c: Context)

  ghost predicate Steps<K>(m: Machine<K>, op: Op<K>, m': Machine<K>) {
    match op
    case OpCreate(k, start) => k !in m.saved && m' == Create(m, k, start)
    case OpResume(k, mask, c) => k in m.paused && k in m.saved && m' == Resume(m, k, mask, c)
    case OpYield(k, c) =>
      exists i :: 0 <= i < |m.active| && m.active[i] == k && k in m.saved && m' == Yield(m, i, c)
    case OpExit(k, c) =>
      exists i :: 0 <= i < |m.active| && m.active[i] == k && k in m.saved && m' == Exit(m, i, c)
  }

  /** A thread with no coroutines. */
  function NewMachine<K>(cpu: Context): Machine<K> {
    Machine([], map[], map[], map[], cpu, 0, {})
  }

  ghost predicate IsRun<K>(ms: seq<Machine<K>>, ops: seq<Op<K>>) {
    && |ms| == |ops| + 1 && WellFormed(ms[0])
    && forall n :: 0 <= n < |ops| ==> Steps(ms[n], ops[n], ms[n + 1])
  }

  lemma StepWellFormed<K>(m: Machine<K>, op: Op<K>, m': Machine<K>)
    requires WellFormed(m) && Steps(m, op, m')
    ensures WellFormed(m')
  {
    match op {
      case OpCreate(k, start) => CreateWellFormed(m, k, start);
      case OpResume(k, mask, c) => ResumeWellFormed(m, k, mask, c);
      case OpYield(k, c) =>
        var i :| 0 <= i < |m.active| && m.active[i] == k && k in m.saved && m' == Yield(m, i, c);
        YieldWellFormed(m, i, c);
      case OpExit(k, c) =>
        var i :| 0 <= i < |m.active| && m.active[i] == k && k in m.saved && m' == Exit(m, i, c);
        ExitWellFormed(m, i, c);
    }
  }

  lemma {:induction false} RunWellFormed<K>(ms: seq<Machine<K>>, ops: seq<Op<K>>, n: nat)
    requires IsRun(ms, ops) && n < |ms|
    ensures WellFormed(ms[n])
  {
    if n > 0 {
      hide WellFormed, Steps;
      RunWellFormed(ms, ops, n - 1);
      assert Steps(ms[n - 1], ops[n - 1], ms[n - 1 + 1]);
      StepWellFormed(ms[n - 1], ops[n - 1], ms[n]);
    }
  }

  /** No operation but a resume of k disturbs what k captured when it was yielded to. */
  lemma PausedUntouched<K>(m: Machine<K>, op: Op<K>, m': Machine<K>, k: K)
    requires WellFormed(m) && Steps(m, op, m') && k in m.paused
    requires !(op.OpResume? && op.k == k)
    ensures k in m'.paused && k in m.saved && k in m'.saved
    ensures m'.paused[k] == m.paused[k] && m'.saved[k] == m.saved[k]
  {
    assert IsSegment(m, k, m.paused[k]);
    assert m.paused[k][0] == k;
  }

  /** A yield to k and the next resume of k, whatever runs in between, put back the full
      context of the yielding point and exactly the coroutines that were captured. */
  lemma {:induction false} ResumeRestoresYield<K>(ms: seq<Machine<K>>, ops: seq<Op<K>>)
    requires IsRun(ms, ops) && 2 <= |ops|
    requires ops[0].OpYield? && ops[|ops| - 1].OpResume? && ops[|ops| - 1].k == ops[0].k
    requires forall n :: 0 < n < |ops| - 1 && ops[n].OpResume? ==> ops[n].k != ops[0].k
    ensures ms[|ops|].cpu == ops[0].c
    ensures exists i :: 0 <= i < |ms[0].active| && ms[0].active[i] == ops[0].k
                        && ms[|ops|].active == ms[|ops| - 1].active + ms[0].active[i..]
  {
    var k, last := ops[0].k, |ops| - 1;
    assert Steps(ms[0], ops[0], ms[1]);
    var i :| 0 <= i < |ms[0].active| && ms[0].active[i] == k && k in ms[0].saved && ms[1] == Yield(ms[0], i, ops[0].c);
    for n := 1 to last
      invariant k in ms[n].paused && ms[n].paused[k] == ms[0].active[i..]
      invariant k in ms[n].saved && ms[n].saved[k] == ops[0].c
    {
      RunWellFormed(ms, ops, n);
      PausedUntouched(ms[n], ops[n], ms[n + 1], k);
    }
    assert Steps(ms[last], ops[last], ms[last + 1]);
    assert ms[|ops|].active == ms[|ops| - 1].active + ms[0].active[i..];
  }

  /** No operation but a switch to or from k disturbs the context k's resumer waits in. */
  lemma ResumerUntouched<K>(m: Machine<K>, op: Op<K>, m': Machine<K>, k: K)
    requires Steps(m, op, m') && k in m.saved && op.k != k
    ensures k in m'.saved && m'.saved[k] == m.saved[k]
  {
  }

  /** Dually, a yield to k or an exit from k continues exactly where the last resume of
      k was called, even if k was captured and resumed as part of an outer segment. */
  lemma {:induction false} YieldReturnsToResumer<K>(ms: seq<Machine<K>>, ops: seq<Op<K>>)
    requires IsRun(ms, ops) && 2 <= |ops|
    requires ops[0].OpResume? && ops[|ops| - 1].k == ops[0].k
    requires ops[|ops| - 1].OpYield? || ops[|ops| - 1].OpExit?
    requires forall n :: 0 < n < |ops| - 1 ==> ops[n].k != ops[0].k
    ensures ms[|ops|].cpu == ops[0].c
  {
    var k, last := ops[0].k, |ops| - 1;
    assert Steps(ms[0], ops[0], ms[1]);
    for n := 1 to last
      invariant k in ms[n].saved && ms[n].saved[k] == ops[0].c
    {
      ResumerUntouched(ms[n], ops[n], ms[n + 1], k);
    }
    assert Steps(ms[last], ops[last], ms[last + 1]);
  }

  /** The latest resume of k among the first n operations. */
  function LatestResume<K(==)>(ops: seq<Op<K>>, n: nat, k: K): (r: Option<nat>)
    requires n <= |ops|
    ensures r.Some? ==> r.value < n && ops[r.value].OpResume? && ops[r.value].k == k
  {
    if n == 0 then None
    else if ops[n - 1].OpResume? && ops[n - 1].k == k then Some(n - 1)
    else LatestResume(ops, n - 1, k)
  }

  lemma MaskStep<K>(m: Machine<K>, op: Op<K>, m': Machine<K>, k: K)
    requires Steps(m, op, m') && (k in m.saved <==> k in m.masks)
    ensures k in m'.saved <==> k in m'.masks
    ensures op.OpResume? && op.k == k ==> k in m.saved && k in m'.masks && m'.masks[k] == op.mask
    ensures !(op.OpResume? && op.k == k) && k in m.masks ==> k in m'.masks && m'.masks[k] == m.masks[k]
    ensures !(op.OpResume? && op.k == k) && k !in m.masks && k in m'.masks ==> m'.masks[k] == 0
  {
  }

  /** A coroutine's mask is that of its latest resume, and empty before the first. */
  lemma {:induction false} MaskIsLatest<K>(ms: seq<Machine<K>>, ops: seq<Op<K>>, n: nat, k: K)
    requires IsRun(ms, ops) && n < |ms| && ms[0].saved == map[] && ms[0].masks == map[]
    ensures k in ms[n].saved <==> k in ms[n].masks
    ensures k !in ms[n].saved ==> LatestResume(ops, n, k) == None
    ensures var r := LatestResume(ops, n, k);
            k in ms[n].masks && r.Some? ==> ms[n].masks[k] == ops[r.value].mask
    ensures k in ms[n].masks && LatestResume(ops, n, k) == None ==> ms[n].masks[k] == 0
  {
    if n > 0 {
      hide WellFormed, Steps;
      MaskIsLatest(ms, ops, n - 1, k);
      assert Steps(ms[n - 1], ops[n - 1], ms[n - 1 + 1]);
      MaskStep(ms[n - 1], ops[n - 1], ms[n], k);
    }
  }

  lemma {:induction false} FinishedStays<K>(ms: seq<Machine<K>>, ops: seq<Op<K>>, n: nat, l: nat, k: K)
    requires IsRun(ms, ops) && n <= l < |ms| && k in ms[n].finished
    ensures k in ms[l].finished
  {
    if n < l {
      hide WellFormed;
      FinishedStays(ms, ops, n, l - 1, k);
      assert Steps(ms[l - 1], ops[l - 1], ms[l - 1 + 1]);
    }
  }

  lemma FinishedIsIdle<K>(m: Machine<K>, k: K)
    requires WellFormed(m) && k in m.finished
    ensures k in m.saved && k !in m.paused && forall i :: 0 <= i < |m.active| ==> m.active[i] != k
  {
  }

  /** After an exit from k nothing ever runs k, yields to it or resumes it again. */
  lemma ExitedIsOver<K>(ms: seq<Machine<K>>, ops: seq<Op<K>>, n: nat, l: nat)
    requires IsRun(ms, ops) && n < l < |ms| && ops[n].OpExit?
    ensures ops[n].k in ms[l].finished && ops[n].k !in ms[l].paused
    ensures forall i :: 0 <= i < |ms[l].active| ==> ms[l].active[i] != ops[n].k
    ensures l < |ops| ==> ops[l].k != ops[n].k
  {
    var k := ops[n].k;
    assert Steps(ms[n], ops[n], ms[n + 1]);
    FinishedStays(ms, ops, n + 1, l, k);
    RunWellFormed(ms, ops, l);
    FinishedIsIdle(ms[l], k);
    if l < |ops| {
      hide WellFormed;
      assert Steps(ms[l], ops[l], ms[l + 1]);
    }
  }

  /** The first resume of a new coroutine starts it, alone on top of its resumer, in the
      context it was created with, whatever runs in between. */
  lemma {:induction false} FirstResumeStarts<K>(ms: seq<Machine<K>>, ops: seq<Op<K>>)
    requires IsRun(ms, ops) && 2 <= |ops|
    requires ops[0].OpCreate? && ops[|ops| - 1].OpResume? && ops[|ops| - 1].k == ops[0].k
    requires forall n :: 0 < n < |ops| - 1 && ops[n].OpResume? ==> ops[n].k != ops[0].k
    ensures ms[|ops|].cpu == ops[0].start
    ensures ms[|ops|].active == ms[|ops| - 1].active + [ops[0].k]
  {
    var k, last := ops[0].k, |ops| - 1;
    assert Steps(ms[0], ops[0], ms[1]);
    for n := 1 to last
      invariant k in ms[n].paused && ms[n].paused[k] == [k]
      invariant k in ms[n].saved && ms[n].saved[k] == ops[0].start
    {
      RunWellFormed(ms, ops, n);
      PausedUntouched(ms[n], ops[n], ms[n + 1], k);
    }
    assert Steps(ms[last], ops[last], ms[last + 1]);
  }
}
