// The context switch of asm/seff.S and the handler lookup of src/seff.c on heap objects.
//
// Each method follows the assembly and is proved to act on the object graph as the
// pointer machine does; PointerMachine relates that to stacks and captured segments.

module Coroutines {
  import opened Options
  import opened SwitchSpec
  import opened PointerMachine
  import opened Effects
  import opened SegmentedStack

  /** Address of `coroutine_prelude`, where a new coroutine starts. */
  const PRELUDE: int := 0

  datatype Status = FINISHED | PAUSED

  /** `seff_coroutine_init_sized`, given the address of the segment malloc returned. */
  function StartContext(addr: int, fn: int, arg: int, segment: int, frameSize: nat): (c: Context)
    ensures c.stackTop == segment + HEADER
    ensures c.rsp % 16 == 0 && c.stackTop + frameSize < c.rsp <= c.stackTop + frameSize + OVERHEAD
  {
    var rsp := segment + HEADER + (frameSize + OVERHEAD);
    Context(Registers(0xcacabbbb, 0xcaca1212, addr, arg, fn), 0, rsp - rsp % 16, PRELUDE, rsp - frameSize - OVERHEAD)
  }

  /** `coroutine_prelude` up to and including its call: where the called function starts,
      and with what in rdi. */
  function PreludeCall(c: Context): (Context, int) {
    (c.(rsp := c.rsp - 8, ip := c.regs.r15), c.regs.r14)
  }

  /** The first resume of a new coroutine, however late, calls fn with arg on an aligned
      stack pointer, with more than frameSize bytes down to a stack limit that lies just
      above the header of the coroutine's segment; r13 holds the coroutine's address. */
  lemma FirstResumeCallsFn<K>(
    ms: seq<Machine<K>>, ops: seq<Op<K>>, addr: int, fn: int, arg: int, segment: int, frameSize: nat)
    requires IsRun(ms, ops) && 2 <= |ops|
    requires ops[0].OpCreate? && ops[|ops| - 1].OpResume? && ops[|ops| - 1].k == ops[0].k
    requires forall n :: 0 < n < |ops| - 1 && ops[n].OpResume? ==> ops[n].k != ops[0].k
    requires ops[0].start == StartContext(addr, fn, arg, segment, frameSize)
    ensures ms[|ops|].cpu.ip == PRELUDE && Last(ms[|ops|].active) == Some(ops[0].k)
    ensures var (c, rdi) := PreludeCall(ms[|ops|].cpu);
            && c.ip == fn && rdi == arg && c.regs.r13 == addr
            && (c.rsp + 8) % 16 == 0 && frameSize < c.rsp + 8 - c.stackTop
            && segment + HEADER == c.stackTop
            && c.rsp + 8 <= segment + HEADER + (frameSize + OVERHEAD)
  {
    FirstResumeStarts(ms, ops);
    hide IsRun;
  }

  /** The function itself finds frameSize bytes below its return address exactly when
      frameSize is at most 8 above a multiple of 16; malloc aligns the segment. */
  lemma FunctionHasRoomExactlyWhen(addr: int, fn: int, arg: int, segment: int, frameSize: nat)
    requires segment % 16 == 0
    ensures var (c, _) := PreludeCall(StartContext(addr, fn, arg, segment, frameSize));
            frameSize <= c.rsp - c.stackTop <==> frameSize % 16 <= 8
  {
    var rsp := segment + HEADER + (frameSize + OVERHEAD);
    assert rsp % 16 == frameSize % 16;
  }

  class Coroutine {
    const addr: int
    var state: Status
    var parent: Coroutine?
    var handled: bv64
    // resume_point
    var rpCurrent: Coroutine?
    var rp: Context

    constructor (addr: int, fn: int, arg: int, segment: int, frameSize: nat)
      ensures this.addr == addr && state == PAUSED && rpCurrent == this && parent == null && handled == 0
      ensures rp == StartContext(addr, fn, arg, segment, frameSize)
    {
      this.addr := addr;
      state := PAUSED;
      parent := null;
      handled := 0;
      rpCurrent := this;
      rp := StartContext(addr, fn, arg, segment, frameSize);
    }
  }

  function Ref(k: Coroutine?): Option<Coroutine> {
    if k == null then None else Some(k)
  }

  function NodeOf(k: Coroutine): Node<Coroutine>
    reads k
  {
    Node(Ref(k.parent), Ref(k.rpCurrent), k.rp, k.handled, k.state == FINISHED)
  }

  /** One thread: its registers and thread-local variables; `all` are its coroutines. */
  class Runtime {
    var regs: Registers
    var rbp: int
    var rsp: int
    var ip: int
    var stackTop: int
    var current: Coroutine?
    var systemStack: int
    // argument and result registers
    var rdi: int
    var rax: int
    var rdx: int
    ghost var all: set<Coroutine>

    ghost function View(): Pointers<Coroutine>
      reads this, all
    {
      Pointers(map k | k in all :: NodeOf(k), Ref(current), Context(regs, rbp, rsp, ip, stackTop), systemStack)
    }

    /** The context a switching call returns to: `ret` is the word at the stack top. */
    function CallSite(ret: int): Context
      reads this
    {
      Context(regs, rbp, rsp + 8, ret, stackTop)
    }

    constructor (regs: Registers, rbp: int, rsp: int, ip: int, stackTop: int)
      ensures View() == PtrStart(Context(regs, rbp, rsp, ip, stackTop)) && all == {}
    {
      this.regs, this.rbp, this.rsp, this.ip, this.stackTop := regs, rbp, rsp, ip, stackTop;
      this.current := null;
      this.systemStack := 0;
      this.rdi, this.rax, this.rdx := 0, 0, 0;
      this.all := {};
    }

    /** `seff_coroutine_new_sized` */
    method NewCoroutine(addr: int, fn: int, arg: int, segment: int, frameSize: nat) returns (k: Coroutine)
      modifies this`all
      ensures fresh(k) && all == old(all) + {k}
      ensures View() == PtrCreate(old(View()), k, StartContext(addr, fn, arg, segment, frameSize))
    {
      k := new Coroutine(addr, fn, arg, segment, frameSize);
      all := all + {k};
    }

    /** The macro `swap_registers`. */
    method SwapRegisters(k: Coroutine)
      modifies this`regs, k`rp
      ensures regs == old(k.rp.regs) && k.rp == old(k.rp).(regs := old(regs))
    {
      var saved := k.rp.regs;
      k.rp := k.rp.(regs := regs);
      regs := saved;
    }

    /** The macro `swap_stack`. */
    method SwapStack(k: Coroutine)
      modifies this`rbp, this`rsp, k`rp
      ensures rbp == old(k.rp.rbp) && rsp == old(k.rp.rsp)
      ensures k.rp == old(k.rp).(rbp := old(rbp), rsp := old(rsp))
    {
      var oldRbp, oldRsp := k.rp.rbp, k.rp.rsp;
      k.rp := k.rp.(rbp := rbp, rsp := rsp);
      rbp, rsp := oldRbp, oldRsp;
    }

    /** If only k (and this thread) changed, the view differs only at k. */
    twostate lemma OnlyChanged(k: Coroutine)
      requires k in old(all) && all == old(all) && unchanged(old(all) - {k})
      ensures View().nodes == old(View()).nodes[k := NodeOf(k)]
    {
      forall l | l in all && l != k
        ensures NodeOf(l) == old(NodeOf(l))
      {
      }
    }

    /** The instructions of `seff_resume`, field by field. */
    method SwitchTo(k: Coroutine, arg: int, handled: bv64, ret: int)
      modifies this, k
      ensures k.rp == old(CallSite(ret)) && Context(regs, rbp, rsp, ip, stackTop) == old(k.rp)
      ensures k.parent == old(current) && current == old(k.rpCurrent) && k.handled == handled
      ensures k.rpCurrent == old(k.rpCurrent) && k.state == old(k.state) && all == old(all)
      ensures systemStack == old(if current == null then rsp + 8 else systemStack)
      ensures rax == arg
    {
      k.handled := handled;
      SwapRegisters(k);
      var r8, rcx := stackTop, current;
      var r9, r10 := k.rp.stackTop, k.rpCurrent;
      stackTop := r9;
      current := r10;
      k.rp := k.rp.(stackTop := r8);
      k.parent := rcx;
      rsp := rsp + 8;
      var target := k.rp.ip;
      k.rp := k.rp.(ip := ret);
      if rcx == null {
        systemStack := rsp;
      }
      SwapStack(k);
      rax := arg;
      ip := target;
    }

    /** `seff_resume(k, arg, handled)`, called with return address `ret`.  The yield that k
        returns from returns arg. */
    method Resume(k: Coroutine, arg: int, handled: bv64, ret: int)
      requires k in all
      modifies this, k
      ensures all == old(all)
      ensures View() == PtrResume(old(View()), k, handled, old(CallSite(ret))) && rax == arg
    {
      SwitchTo(k, arg, handled, ret);
      OnlyChanged(k);
    }

    /** The instructions of `seff_yield`, field by field. */
    method SwitchFrom(k: Coroutine, effect: int, payload: int, ret: int)
      modifies this, k
      ensures k.rp == old(CallSite(ret)) && Context(regs, rbp, rsp, ip, stackTop) == old(k.rp)
      ensures k.rpCurrent == old(current) && current == old(k.parent)
      ensures k.parent == old(k.parent) && k.handled == old(k.handled) && k.state == old(k.state)
      ensures all == old(all) && systemStack == old(systemStack) && rax == effect && rdx == payload
    {
      rdx := payload;
      SwapRegisters(k);
      var r8, rcx := stackTop, current;
      var r9, r10 := k.rp.stackTop, k.parent;
      stackTop := r9;
      current := r10;
      k.rp := k.rp.(stackTop := r8);
      k.rpCurrent := rcx;
      rsp := rsp + 8;
      var target := k.rp.ip;
      k.rp := k.rp.(ip := ret);
      SwapStack(k);
      rax := effect;
      ip := target;
    }

    /** `seff_yield(k, effect, payload)`, called with return address `ret`.  The resume that
        is continued returns the pair of them. */
    method Yield(k: Coroutine, effect: int, payload: int, ret: int)
      requires k in all
      modifies this, k
      ensures all == old(all)
      ensures View() == PtrYield(old(View()), k, old(CallSite(ret))) && rax == effect && rdx == payload
    {
      SwitchFrom(k, effect, payload, ret);
      OnlyChanged(k);
    }

    /** The instructions of `seff_exit`, field by field. */
    method SwitchOut(k: Coroutine, effect: int, payload: int)
      modifies this, k
      ensures k.rp == old(k.rp.(regs := regs)) && Context(regs, rbp, rsp, ip, stackTop) == old(k.rp)
      ensures k.state == FINISHED && current == old(k.parent)
      ensures k.parent == old(k.parent) && k.handled == old(k.handled) && k.rpCurrent == old(k.rpCurrent)
      ensures all == old(all) && systemStack == old(systemStack) && rdi == old(rdi) && rax == effect && rdx == payload
    {
      rdx := payload;
      k.state := FINISHED;
      SwapRegisters(k);
      stackTop := k.rp.stackTop;
      current := k.parent;
      var target := k.rp.ip;
      rbp, rsp := k.rp.rbp, k.rp.rsp;
      rax := effect;
      ip := target;
    }

    /** `seff_exit(k, effect, payload)` */
    method Exit(k: Coroutine, effect: int, payload: int, ret: int)
      requires k in all
      modifies this, k
      ensures all == old(all) && rdi == old(rdi) && rax == effect && rdx == payload
      ensures View() == PtrExit(old(View()), k, old(CallSite(ret)))
    {
      SwitchOut(k, effect, payload);
      OnlyChanged(k);
    }

    /** `coroutine_prelude` up to its call. */
    method EnterPrelude()
      modifies this`rdi, this`rsp, this`ip
      ensures (Context(regs, rbp, rsp, ip, stackTop), rdi) == PreludeCall(old(Context(regs, rbp, rsp, ip, stackTop)))
    {
      rdi := regs.r14;
      rsp := rsp - 8;
      ip := regs.r15;
    }

    /** `coroutine_prelude` after its call, falling through to `seff_exit`.  k is the
        coroutine that r13, which the function has preserved, points to: it finishes, and
        its resumer gets the return effect with what the function returned in rax. */
    method LeavePrelude(k: Coroutine)
      requires k in all && k.addr == regs.r13
      modifies this, k
      ensures all == old(all) && View() == PtrExit(old(View()), k, old(CallSite(ip)))
      ensures k.state == FINISHED && current == old(k.parent)
      ensures rax == RETURN_EFFECT_ID as int && rdx == old(rax) && rdi == k.addr
    {
      rdi := regs.r13;
      rsp := rsp - 8;
      SwitchOut(k, RETURN_EFFECT_ID as int, rax);
      OnlyChanged(k);
    }

    /** `seff_locate_handler` walks the parents from the running coroutine outwards.  Every
        coroutine handles `return`. */
    method LocateHandler(effect: bv64, ghost m: Machine<Coroutine>) returns (k: Coroutine?, ghost at: Option<nat>)
      requires Represents(View(), m)
      requires effect < MAX_EFFECTS || effect == RETURN_EFFECT_ID
      ensures k == null <==> at == None
      ensures k != null ==> at.value < |m.active| && m.active[at.value] == k && k in all
      ensures effect == RETURN_EFFECT_ID ==> Ref(k) == Last(m.active) && (k != null ==> at == Some(|m.active| - 1))
      ensures effect < MAX_EFFECTS ==> IsHandler(m, effect, at)
    {
      hide WellFormed, Handles;
      k := current;
      ghost var i: nat := if m.active == [] then 0 else |m.active| - 1;
      if effect != RETURN_EFFECT_ID {
        while k != null && !Handles(k.handled, effect)
          invariant k != null ==> i < |m.active| && m.active[i] == k
          invariant forall j :: (if k == null then 0 else i + 1) <= j < |m.active| ==>
                      m.active[j] in m.masks && !Handles(m.masks[m.active[j]], effect)
          decreases if k == null then 0 else i + 1
        {
          assert k in View().nodes && View().nodes[k] == NodeOf(k);
          assert k in m.masks && m.masks[k] == k.handled;
          assert 0 < i ==> Ref(k.parent) == Some(m.active[i - 1]);
          k := k.parent;
          i := if i == 0 then 0 else i - 1;
        }
      }
      at := if k == null then None else Some(i);
      if k != null {
        assert View().nodes[k] == NodeOf(k);
      }
    }

    /** `seff_perform`: yield to the innermost handler, capturing exactly the coroutines
        from it down to the performer, and hand it the effect and the payload.  Without a
        handler the default handler runs in place and nothing is switched. */
    method Perform(effect: EffectId, payload: int, ret: int, ghost m: Machine<Coroutine>)
      returns (k: Coroutine?, ghost at: Option<nat>, ghost m': Machine<Coroutine>)
      requires Represents(View(), m)
      modifies this, all
      ensures all == old(all) && Represents(View(), m') && IsHandler(m, effect, at)
      ensures k == null <==> at == None
      ensures k == null ==> m' == m && View() == old(View())
      ensures k != null ==>
                && m.active[at.value] == k && k in m.saved
                && m' == SwitchSpec.Yield(m, at.value, old(CallSite(ret)))
                && rax == effect as int && rdx == payload
    {
      hide WellFormed, IsHandler;
      k, at := LocateHandler(effect, m);
      m' := m;
      if k != null {
        ghost var p, c := View(), CallSite(ret);
        YieldRefines(p, m, at.value, c);
        Yield(k, effect as int, payload, ret);
        m' := SwitchSpec.Yield(m, at.value, c);
      }
    }

    /** `seff_throw`: exit the innermost handler of the effect, which for `return` is the
        running coroutine.  Without a handler the process ends. */
    method Throw(effect: bv64, payload: int, ret: int, ghost m: Machine<Coroutine>)
      returns (k: Coroutine?, ghost at: Option<nat>, ghost m': Machine<Coroutine>)
      requires Represents(View(), m)
      requires effect < MAX_EFFECTS || effect == RETURN_EFFECT_ID
      modifies this, all
      ensures all == old(all) && Represents(View(), m')
      ensures effect < MAX_EFFECTS ==> IsHandler(m, effect, at)
      ensures effect == RETURN_EFFECT_ID ==> at == if m.active == [] then None else Some(|m.active| - 1)
      ensures k == null <==> at == None
      ensures k == null ==> m' == m && View() == old(View())
      ensures k != null ==>
                && at.value < |m.active| && m.active[at.value] == k && k in m.saved
                && m' == SwitchSpec.Exit(m, at.value, old(CallSite(ret)))
                && rax == effect as int && rdx == payload
    {
      hide WellFormed, IsHandler;
      k, at := LocateHandler(effect, m);
      m' := m;
      if k != null {
        ghost var p, c := View(), CallSite(ret);
        ExitRefines(p, m, at.value, c);
        Exit(k, effect as int, payload, ret);
        m' := SwitchSpec.Exit(m, at.value, c);
      }
    }
  }
}
