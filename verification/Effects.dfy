// Sets of effects as the 64-bit masks of src/seff.h, and what the handler of an effect is.

module Effects {
  import opened Options
  import opened SwitchSpec

  const RETURN_EFFECT_ID: bv64 := 0xFFFFFFFFFFFFFFFF
  const MAX_EFFECTS: bv64 := 64

  type EffectId = e: bv64 | e < MAX_EFFECTS

  /** `HANDLES(e)` */
  function Bit(e: EffectId): bv64 {
    (1 as bv64) << e
  }

  /** The test of `seff_locate_handler`. */
  predicate Handles(handled: bv64, effect: EffectId) {
    handled & Bit(effect) != 0
  }

  /** `HANDLES(e0) | HANDLES(e1) | ...` */
  function MaskOf(es: seq<EffectId>): bv64 {
    if es == [] then 0 else Bit(es[0]) | MaskOf(es[1..])
  }

  lemma OrMisses(a: bv64, b: bv64, e: EffectId)
    requires !Handles(a, e) && !Handles(b, e)
    ensures !Handles(a | b, e)
  {
    hide Bit;
  }

  lemma LeftMeets(a: bv64, b: bv64, e: EffectId)
    requires !Handles(a | b, e)
    ensures !Handles(a, e)
  {
    hide Bit;
  }

  lemma RightMeets(a: bv64, b: bv64, e: EffectId)
    requires !Handles(a | b, e)
    ensures !Handles(b, e)
  {
    hide Bit;
  }

  lemma HandlesBit(i: EffectId, e: EffectId)
    ensures Handles(Bit(i), e) <==> i == e
  {
  }

  lemma HandlesNothing(e: EffectId)
    ensures !Handles(0, e)
  {
  }

  /** A mask handles exactly the effects it was built from, in whatever order and however
      often they were written. */
  lemma {:induction false} MaskMeans(es: seq<EffectId>, e: EffectId)
    ensures Handles(MaskOf(es), e) <==> e in es
  {
    hide Bit, Handles;
    if es == [] {
      HandlesNothing(e);
    } else {
      MaskMeans(es[1..], e);
      HandlesBit(es[0], e);
      var a, b := Bit(es[0]), MaskOf(es[1..]);
      if Handles(MaskOf(es), e) {
        if !Handles(a, e) && !Handles(b, e) {
          OrMisses(a, b, e);
        }
      } else {
        LeftMeets(a, b, e);
        RightMeets(a, b, e);
      }
    }
  }

  // ------------------------------------------------------- the handler of an effect

  /** `at` is the depth of the innermost active coroutine that handles e, if there is one. */
  ghost predicate IsHandler<K>(m: Machine<K>, e: EffectId, at: Option<nat>) {
    && (at.Some? ==>
          at.value < |m.active| && m.active[at.value] in m.masks && Handles(m.masks[m.active[at.value]], e))
    && forall i :: (if at.Some? then at.value + 1 else 0) <= i < |m.active| ==>
         m.active[i] in m.masks && !Handles(m.masks[m.active[i]], e)
  }

  /** Among the first n operations the latest resume of k was given e; `names[j]` are the
      effects out of which operation j built its mask. */
  ghost predicate LastNamed<K>(ops: seq<Op<K>>, names: seq<seq<EffectId>>, n: nat, k: K, e: EffectId)
    requires n <= |ops| == |names|
  {
    var r := LatestResume(ops, n, k);
    r.Some? && e in names[r.value]
  }

  ghost predicate NamesMasks<K>(ops: seq<Op<K>>, names: seq<seq<EffectId>>) {
    |ops| == |names| && forall n :: 0 <= n < |ops| && ops[n].OpResume? ==> ops[n].mask == MaskOf(names[n])
  }

  lemma MaskNamed<K>(ms: seq<Machine<K>>, ops: seq<Op<K>>, names: seq<seq<EffectId>>, n: nat, k: K, e: EffectId)
    requires IsRun(ms, ops) && n < |ms| && ms[0].saved == map[] && ms[0].masks == map[]
    requires NamesMasks(ops, names) && k in ms[n].masks
    ensures Handles(ms[n].masks[k], e) <==> LastNamed(ops, names, n, k, e)
  {
    hide WellFormed, Steps, Handles, MaskOf, LatestResume;
    MaskIsLatest(ms, ops, n, k);
    var mask, r := ms[n].masks[k], LatestResume(ops, n, k);
    if r.Some? {
      assert mask == MaskOf(names[r.value]);
      MaskMeans(names[r.value], e);
    } else {
      HandlesNothing(e);
    }
  }

  /** Whatever ran since the thread started, the handler of e is the innermost active
      coroutine whose latest resume named e. */
  lemma HandlerIsInnermostNamed<K>(
    ms: seq<Machine<K>>, ops: seq<Op<K>>, names: seq<seq<EffectId>>, n: nat, e: EffectId, at: Option<nat>)
    requires IsRun(ms, ops) && n < |ms| && ms[0].saved == map[] && ms[0].masks == map[]
    requires NamesMasks(ops, names)
    ensures var active := ms[n].active;
            IsHandler(ms[n], e, at) <==>
              && (at.Some? ==> at.value < |active| && LastNamed(ops, names, n, active[at.value], e))
              && forall i :: (if at.Some? then at.value + 1 else 0) <= i < |active| ==>
                   !LastNamed(ops, names, n, active[i], e)
  {
    RunWellFormed(ms, ops, n);
    hide IsRun, Handles, LastNamed;
    var m := ms[n];
    forall i | 0 <= i < |m.active|
      ensures m.active[i] in m.masks
      ensures Handles(m.masks[m.active[i]], e) <==> LastNamed(ops, names, n, m.active[i], e)
    {
      MaskNamed(ms, ops, names, n, m.active[i], e);
    }
  }
}
