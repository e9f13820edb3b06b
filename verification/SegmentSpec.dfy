// The segmented stack of src/mem/seff_mem_segmented.c as a list of segment sizes with a
// cursor, and what repeated calls do to it.

module SegmentSpec {

  /** `sizes` from the oldest segment on; `cursor` is the one `frame_ptr` points to. */
  datatype Stack = Stack(sizes: seq<nat>, cursor: nat) {
    predicate Valid() { cursor < |sizes| }

    /** The segments beyond the cursor, kept for reuse. */
    function Spare(): seq<nat>
      requires Valid()
    {
      sizes[cursor + 1..]
    }
  }

  /** The size `seff_mem_allocate_frame` gives to a segment it creates. */
  function NewSize(need: nat, min: nat): nat {
    if need < min then min else need
  }

  /** The segments beyond the cursor once a call that needs `need` bytes has entered
      the first of them: append, insert in front of one that is too small, or reuse. */
  function Provide(spare: seq<nat>, need: nat, min: nat): (r: seq<nat>)
    ensures r != [] && need <= r[0]
  {
    if spare == [] then [NewSize(need, min)]
    else if spare[0] < need then [NewSize(need, min)] + spare
    else spare
  }

  function Allocate(s: Stack, need: nat, min: nat): (r: Stack)
    requires s.Valid()
    ensures r.Valid() && r.cursor == s.cursor + 1 && need <= r.sizes[r.cursor]
  {
    Stack(s.sizes[..s.cursor + 1] + Provide(s.Spare(), need, min), s.cursor + 1)
  }

  /** What a call does to the sizes: nothing, exactly if a spare segment with room comes
      next; otherwise one segment appears there, as large as is needed and as is allowed
      at least, and no larger than that. */
  lemma AllocateSizes(s: Stack, need: nat, min: nat)
    requires s.Valid()
    ensures var r, c := Allocate(s, need, min), s.cursor + 1;
            if c < |s.sizes| && need <= s.sizes[c] then r.sizes == s.sizes
            else
              && c < |r.sizes| && r.sizes == s.sizes[..c] + [r.sizes[c]] + s.sizes[c..]
              && need <= r.sizes[c] && min <= r.sizes[c] && r.sizes[c] in {need, min}
  {
    SplitAtCursor(s);
    var c := s.cursor + 1;
    if c < |s.sizes| && need <= s.sizes[c] {
      assert s.Spare()[0] == s.sizes[c];
    }
  }

  function Release(s: Stack): (r: Stack)
    requires s.Valid() && 0 < s.cursor
    ensures r.Valid()
  {
    s.(cursor := s.cursor - 1)
  }

  // ------------------------------------------------------ balanced call trees

  /** A sequence of calls: the first needs `need` bytes and makes the calls `inner`
      before it returns; `rest` follow. */
  datatype Calls = Done | Call(need: nat, inner: Calls, rest: Calls)

  function Height(f: Calls): nat {
    match f
    case Done => 0
    case Call(_, inner, rest) =>
      if Height(rest) < 1 + Height(inner) then 1 + Height(inner) else Height(rest)
  }

  /** Run the calls: every allocate is matched by the release at its return. */
  function Execute(f: Calls, s: Stack, min: nat): (r: Stack)
    requires s.Valid()
    ensures r.Valid() && r.cursor == s.cursor
  {
    match f
    case Done => s
    case Call(need, inner, rest) =>
      Execute(rest, Release(Execute(inner, Allocate(s, need, min), min)), min)
  }

  /** The same on the spare segments alone. */
  function Churn(f: Calls, spare: seq<nat>, min: nat): seq<nat> {
    match f
    case Done => spare
    case Call(need, inner, rest) =>
      var p := Provide(spare, need, min);
      Churn(rest, [p[0]] + Churn(inner, p[1..], min), min)
  }

  /** The segments up to the cursor, and those beyond it. */
  lemma SplitAtCursor(s: Stack)
    requires s.Valid()
    ensures s == Stack(s.sizes[..s.cursor + 1] + s.Spare(), s.cursor)
  {
    assert s.sizes == s.sizes[..s.cursor + 1] + s.Spare();
  }

  lemma JoinAtCursor(front: seq<nat>, spare: seq<nat>, cursor: nat)
    requires |front| == cursor + 1
    ensures var s := Stack(front + spare, cursor);
            s.Valid() && s.sizes[..s.cursor + 1] == front && s.Spare() == spare
  {
    assert (front + spare)[..cursor + 1] == front && (front + spare)[cursor + 1..] == spare;
  }

  lemma AllocateSplits(s: Stack, need: nat, min: nat)
    requires s.Valid()
    ensures var p, r := Provide(s.Spare(), need, min), Allocate(s, need, min);
            && r.cursor == s.cursor + 1 && r.Spare() == p[1..]
            && r.sizes[..r.cursor + 1] == s.sizes[..s.cursor + 1] + [p[0]]
  {
    var front, p := s.sizes[..s.cursor + 1], Provide(s.Spare(), need, min);
    hide Provide;
    assert front + p == (front + [p[0]]) + p[1..];
    JoinAtCursor(front + [p[0]], p[1..], s.cursor + 1);
  }

  lemma ReleaseSplits(front: seq<nat>, top: nat, spare: seq<nat>, cursor: nat)
    requires |front| == cursor + 1
    ensures Release(Stack(front + [top] + spare, cursor + 1)) == Stack(front + ([top] + spare), cursor)
  {
    assert front + [top] + spare == front + ([top] + spare);
  }

  /** Balanced calls return the cursor to where it was and touch only spare segments. */
  lemma {:induction false} ExecuteIsLocal(f: Calls, s: Stack, min: nat)
    requires s.Valid()
    ensures Execute(f, s, min) == Stack(s.sizes[..s.cursor + 1] + Churn(f, s.Spare(), min), s.cursor)
    decreases f
  {
    hide Stack.Spare, Provide, Allocate, Release;
    match f {
      case Done =>
        SplitAtCursor(s);
      case Call(need, inner, rest) =>
        var front, p := s.sizes[..s.cursor + 1], Provide(s.Spare(), need, min);
        var s1 := Allocate(s, need, min);
        AllocateSplits(s, need, min);
        ExecuteIsLocal(inner, s1, min);
        var under := Churn(inner, p[1..], min);
        ReleaseSplits(front, p[0], under, s.cursor);
        JoinAtCursor(front, [p[0]] + under, s.cursor);
        ExecuteIsLocal(rest, Stack(front + ([p[0]] + under), s.cursor), min);
    }
  }

  // ------------------------------------------------------------- replaying calls

  /** Every outermost call fits a segment of size a. */
  predicate Fits(f: Calls, a: nat) {
    f.Call? ==> f.need <= a && Fits(f.rest, a)
  }

  function Append(f: Calls, g: Calls): Calls {
    match f
    case Done => g
    case Call(need, inner, rest) => Call(need, inner, Append(rest, g))
  }

  /** The calls one level further in, in order. */
  function Inner(f: Calls): Calls {
    match f
    case Done => Done
    case Call(_, inner, rest) => Append(inner, Inner(rest))
  }

  lemma {:induction false} ChurnAppend(f: Calls, g: Calls, spare: seq<nat>, min: nat)
    ensures Churn(Append(f, g), spare, min) == Churn(g, Churn(f, spare, min), min)
    decreases f
  {
    match f {
      case Done =>
      case Call(need, inner, rest) =>
        var p := Provide(spare, need, min);
        ChurnAppend(rest, g, [p[0]] + Churn(inner, p[1..], min), min);
    }
  }

  lemma {:induction false} HeightAppend(f: Calls, g: Calls)
    ensures Height(Append(f, g)) == if Height(f) < Height(g) then Height(g) else Height(f)
  {
    if f.Call? {
      HeightAppend(f.rest, g);
    }
  }

  lemma {:induction false} HeightInner(f: Calls)
    ensures f == Done ==> Height(Inner(f)) == 0
    ensures f != Done ==> Height(Inner(f)) == Height(f) - 1
  {
    if f.Call? {
      HeightInner(f.rest);
      HeightAppend(f.inner, Inner(f.rest));
    }
  }

  /** The first spare segment only ever becomes larger, and ends up large enough for
      every outermost call. */
  lemma {:induction false} ChurnFits(f: Calls, spare: seq<nat>, min: nat)
    ensures var r := Churn(f, spare, min);
            (spare != [] || f != Done ==> r != [] && Fits(f, r[0])) && (spare != [] ==> spare[0] <= r[0])
    decreases f
  {
    if f.Call? {
      var p := Provide(spare, f.need, min);
      ChurnFits(f.rest, [p[0]] + Churn(f.inner, p[1..], min), min);
    }
  }

  /** If the first spare segment fits every outermost call it is never replaced, and
      the calls one level in see the remaining segments. */
  lemma {:induction false} ChurnUnder(f: Calls, a: nat, spare: seq<nat>, min: nat)
    requires Fits(f, a)
    ensures Churn(f, [a] + spare, min) == [a] + Churn(Inner(f), spare, min)
    decreases f
  {
    if f.Call? {
      assert Provide([a] + spare, f.need, min) == [a] + spare;
      assert ([a] + spare)[1..] == spare;
      ChurnUnder(f.rest, a, Churn(f.inner, spare, min), min);
      ChurnAppend(f.inner, Inner(f.rest), spare, min);
    }
  }

  function Replay(f: Calls, spare: seq<nat>, min: nat, n: nat): seq<nat>
    decreases n
  {
    if n == 0 then spare else Replay(f, Churn(f, spare, min), min, n - 1)
  }

  lemma {:induction false} ReplayUnder(f: Calls, a: nat, spare: seq<nat>, min: nat, n: nat)
    requires Fits(f, a)
    ensures Replay(f, [a] + spare, min, n) == [a] + Replay(Inner(f), spare, min, n)
    decreases n
  {
    if n > 0 {
      ChurnUnder(f, a, spare, min);
      ReplayUnder(f, a, Churn(Inner(f), spare, min), min, n - 1);
    }
  }

  /** After as many replays as the calls are deep, another replay changes nothing. */
  lemma {:induction false} ReplaySettles(f: Calls, spare: seq<nat>, min: nat, n: nat)
    requires Height(f) <= n
    ensures Churn(f, Replay(f, spare, min, n), min) == Replay(f, spare, min, n)
    decreases n
  {
    if f == Done {
      NothingToReplay(spare, min, n);
    } else {
      ChurnFits(f, spare, min);
      HeightInner(f);
      var r := Churn(f, spare, min);
      var a, m := r[0], r[1..];
      assert r == [a] + m;
      ReplayUnder(f, a, m, min, n - 1);
      ReplaySettles(Inner(f), m, min, n - 1);
      ChurnUnder(f, a, Replay(Inner(f), m, min, n - 1), min);
    }
  }

  lemma {:induction false} NothingToReplay(spare: seq<nat>, min: nat, n: nat)
    ensures Replay(Done, spare, min, n) == spare
    decreases n
  {
    if n > 0 {
      NothingToReplay(spare, min, n - 1);
    }
  }

  function ReplayStack(f: Calls, s: Stack, min: nat, n: nat): (r: Stack)
    requires s.Valid()
    ensures r.Valid() && r.cursor == s.cursor
    decreases n
  {
    if n == 0 then s else ReplayStack(f, Execute(f, s, min), min, n - 1)
  }

  lemma {:induction false} ReplayOnceMore(f: Calls, s: Stack, min: nat, n: nat)
    requires s.Valid()
    ensures ReplayStack(f, s, min, n + 1) == Execute(f, ReplayStack(f, s, min, n), min)
    decreases n
  {
    hide Execute;
    if n > 0 {
      ReplayOnceMore(f, Execute(f, s, min), min, n - 1);
    }
  }

  lemma {:induction false} ReplayIsLocal(f: Calls, s: Stack, min: nat, n: nat)
    requires s.Valid()
    ensures ReplayStack(f, s, min, n) == Stack(s.sizes[..s.cursor + 1] + Replay(f, s.Spare(), min, n), s.cursor)
    decreases n
  {
    hide Execute, Churn, Stack.Spare;
    if n == 0 {
      SplitAtCursor(s);
    } else {
      ExecuteIsLocal(f, s, min);
      JoinAtCursor(s.sizes[..s.cursor + 1], Churn(f, s.Spare(), min), s.cursor);
      ReplayIsLocal(f, Execute(f, s, min), min, n - 1);
    }
  }

  /** Replaying one balanced call tree of height h from the same cursor allocates no
      new segment after at most h replays. */
  lemma ReplayStopsAllocating(f: Calls, s: Stack, min: nat, n: nat)
    requires s.Valid() && Height(f) <= n
    ensures Execute(f, ReplayStack(f, s, min, n), min) == ReplayStack(f, s, min, n)
  {
    var t := ReplayStack(f, s, min, n);
    ReplayIsLocal(f, s, min, n);
    assert t.Spare() == Replay(f, s.Spare(), min, n);
    assert t.sizes[..t.cursor + 1] == s.sizes[..s.cursor + 1];
    ReplaySettles(f, s.Spare(), min, n);
    ExecuteIsLocal(f, t, min);
  }

  /** The bound is reached: a second replay of these calls of height 2 still allocates,
      because the first one pushed the large segment behind a small one. */
  lemma SecondReplayAllocates()
    ensures var f := Call(1, Call(100, Done, Done), Call(2, Done, Done));
            && Height(f) == 2
            && Replay(f, [], 0, 1) == [2, 1, 100]
            && Replay(f, [], 0, 2) == [2, 100, 1, 100]
  {
    var g := Call(2, Done, Done);
    var f := Call(1, Call(100, Done, Done), g);
    assert Churn(Call(100, Done, Done), [], 0) == [100];
    assert Churn(g, [1, 100], 0) == [2, 1, 100];
    assert Churn(f, [], 0) == [2, 1, 100];
    assert Churn(Call(100, Done, Done), [1, 100], 0) == [100, 1, 100];
    assert Churn(g, [2, 100, 1, 100], 0) == [2, 100, 1, 100];
    assert Churn(f, [2, 1, 100], 0) == [2, 100, 1, 100];
    assert Replay(f, [2, 1, 100], 0, 1) == [2, 100, 1, 100];
  }
}
