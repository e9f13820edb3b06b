// Reverse-mode differentiation by effect handlers (bench/ad_bench/no_alloc.c).
//
// The differentiated code is a coroutine that requests one arithmetic operation at a
// time; the recursion of `handle` is the tape.  Doubles are modelled as reals.

module AutoDiff {

  /** One request.  Arguments are earlier values: 0 is the input x, k + 1 the result of
      the k-th request. */
  datatype Op = Const(c: real) | Neg(a: nat) | Add(a: nat, b: nat) | Mul(a: nat, b: nat) {
    predicate Uses(n: nat) {
      match this
      case Const(_) => true
      case Neg(a) => a < n
      case Add(a, b) => a < n && b < n
      case Mul(a, b) => a < n && b < n
    }
  }

  /** A straight-line trace: every argument was computed before. */
  predicate IsTrace(prog: seq<Op>) {
    forall k :: 0 <= k < |prog| ==> prog[k].Uses(k + 1)
  }

  /** What `evaluate` answers to e_c, e_n, e_a and e_m. */
  function Value(op: Op, vals: seq<real>): real
    requires op.Uses(|vals|)
  {
    match op
    case Const(c) => c
    case Neg(a) => -vals[a]
    case Add(a, b) => vals[a] + vals[b]
    case Mul(a, b) => vals[a] * vals[b]
  }

  function Values(prog: seq<Op>, x: real): (vals: seq<real>)
    requires IsTrace(prog)
    ensures |vals| == |prog| + 1
  {
    if prog == [] then [x]
    else
      var n := |prog| - 1;
      var vals := Values(prog[..n], x);
      vals + [Value(prog[n], vals)]
  }

  // ------------------------------------------------------- forward-mode derivative

  /** A product kept as one term, so that sums of products stay linear. */
  function Times(a: real, b: real): real {
    a * b
  }

  function Tangent(op: Op, vals: seq<real>, tans: seq<real>): real
    requires op.Uses(|vals|) && |tans| == |vals|
  {
    match op
    case Const(_) => 0.0
    case Neg(a) => -tans[a]
    case Add(a, b) => tans[a] + tans[b]
    case Mul(a, b) => Times(tans[a], vals[b]) + Times(vals[a], tans[b])
  }

  /** The derivatives with respect to x of all values of the trace. */
  function Tangents(prog: seq<Op>, x: real): (tans: seq<real>)
    requires IsTrace(prog)
    ensures |tans| == |prog| + 1
  {
    if prog == [] then [1.0]
    else
      var n := |prog| - 1;
      var tans := Tangents(prog[..n], x);
      tans + [Tangent(prog[n], Values(prog[..n], x), tans)]
  }

  /** Second-order remainder of one operation, computed without division. */
  function Remainder(op: Op, vals: seq<real>, tans: seq<real>, rems: seq<real>, h: real): real
    requires op.Uses(|vals|) && |tans| == |vals| == |rems|
  {
    match op
    case Const(_) => 0.0
    case Neg(a) => -rems[a]
    case Add(a, b) => rems[a] + rems[b]
    case Mul(a, b) =>
      vals[a] * rems[b] + tans[a] * tans[b] + rems[a] * vals[b]
      + h * (tans[a] * rems[b] + rems[a] * tans[b]) + h * h * (rems[a] * rems[b])
  }

  function Remainders(prog: seq<Op>, x: real, h: real): (rems: seq<real>)
    requires IsTrace(prog)
    ensures |rems| == |prog| + 1
  {
    if prog == [] then [0.0]
    else
      var n := |prog| - 1;
      var rems := Remainders(prog[..n], x, h);
      rems + [Remainder(prog[n], Values(prog[..n], x), Tangents(prog[..n], x), rems, h)]
  }

  lemma ProductExpansion(u: real, w: real, a: real, b: real, r: real, s: real, h: real)
    ensures (u + h * a + h * h * r) * (w + h * b + h * h * s)
            == u * w + h * (a * w + u * b)
               + h * h * (u * s + a * b + r * w + h * (a * s + r * b) + h * h * (r * s))
  {
    var p, q := w + h * b, h * h * s;
    assert (u + h * a + h * h * r) * (p + q) == u * p + u * q + (h * a) * p + (h * a) * q + (h * h * r) * p + (h * h * r) * q;
  }

  /** A value at x + h, written as value, tangent and remainder at x. */
  predicate Expands(shifted: real, val: real, tan: real, rem: real, h: real) {
    shifted == val + h * tan + h * h * rem
  }

  lemma MulExpands(u': real, u: real, a: real, r: real, w': real, w: real, b: real, s: real, h: real)
    requires Expands(u', u, a, r, h) && Expands(w', w, b, s, h)
    ensures Expands(u' * w', u * w, a * w + u * b,
                    u * s + a * b + r * w + h * (a * s + r * b) + h * h * (r * s), h)
  {
    ProductExpansion(u, w, a, b, r, s, h);
  }

  lemma OpExpands(op: Op, shifted: seq<real>, vals: seq<real>, tans: seq<real>, rems: seq<real>, h: real)
    requires op.Uses(|vals|) && |shifted| == |vals| == |tans| == |rems|
    requires forall i :: 0 <= i < |vals| ==> Expands(shifted[i], vals[i], tans[i], rems[i], h)
    ensures Expands(Value(op, shifted), Value(op, vals), Tangent(op, vals, tans), Remainder(op, vals, tans, rems, h), h)
  {
    match op {
      case Const(_) =>
      case Neg(a) =>
        assert Expands(shifted[a], vals[a], tans[a], rems[a], h);
      case Add(a, b) =>
        assert Expands(shifted[a], vals[a], tans[a], rems[a], h);
        assert Expands(shifted[b], vals[b], tans[b], rems[b], h);
      case Mul(a, b) =>
        hide Expands;
        MulExpands(shifted[a], vals[a], tans[a], rems[a], shifted[b], vals[b], tans[b], rems[b], h);
    }
  }

  /** `Tangents` is the derivative: the values at x + h are those at x plus h times the
      tangents, up to h * h times a polynomial in h. */
  lemma {:induction false} TangentsAreDerivatives(prog: seq<Op>, x: real, h: real)
    requires IsTrace(prog)
    ensures forall i :: 0 <= i <= |prog| ==>
              Expands(Values(prog, x + h)[i], Values(prog, x)[i], Tangents(prog, x)[i], Remainders(prog, x, h)[i], h)
    decreases |prog|
  {
    if prog != [] {
      hide Expands;
      var n := |prog| - 1;
      var p := prog[..n];
      TangentsAreDerivatives(p, x, h);
      OpExpands(prog[n], Values(p, x + h), Values(p, x), Tangents(p, x), Remainders(p, x, h), h);
    }
  }

  // ------------------------------------------------------------ the reverse sweep

  function Bump(adj: seq<real>, i: nat, d: real): (r: seq<real>)
    requires i < |adj|
    ensures |r| == |adj|
  {
    adj[i := adj[i] + d]
  }

  /** What `handle` does after its recursive call: the last adjoint is spread over the
      arguments of the operation, one `*dx` after the other. */
  function Spread(op: Op, vals: seq<real>, adj: seq<real>): (r: seq<real>)
    requires op.Uses(|vals|) && |adj| == |vals| + 1
    ensures |r| == |vals|
  {
    var n := |vals|;
    var dv := adj[n];
    match op
    case Const(_) => adj[..n]
    case Neg(a) => Bump(adj[..n], a, -dv)
    case Add(a, b) => Bump(Bump(adj[..n], a, dv), b, dv)
    case Mul(a, b) => Bump(Bump(adj[..n], a, Times(vals[b], dv)), b, Times(vals[a], dv))
  }

  function OneHot(n: nat, r: nat): (s: seq<real>)
    ensures |s| == n
  {
    seq(n, i => if i == r then 1.0 else 0.0)
  }

  /** The adjoints of the first n + 1 values when `handle` returns after n requests. */
  function Adjoints(prog: seq<Op>, n: nat, r: nat, x: real): (adj: seq<real>)
    requires IsTrace(prog) && n <= |prog|
    ensures |adj| == n + 1
    decreases |prog| - n
  {
    if n == |prog| then OneHot(n + 1, r)
    else Spread(prog[n], Values(prog[..n], x), Adjoints(prog, n + 1, r, x))
  }

  function Dot(s: seq<real>, t: seq<real>): real
    requires |s| == |t|
  {
    if s == [] then 0.0 else Dot(s[..|s| - 1], t[..|t| - 1]) + Times(s[|s| - 1], t[|t| - 1])
  }

  lemma {:induction false} DotBump(adj: seq<real>, t: seq<real>, i: nat, d: real)
    requires i < |adj| == |t|
    ensures Dot(Bump(adj, i, d), t) == Dot(adj, t) + Times(d, t[i])
  {
    var n := |adj| - 1;
    if i == n {
      assert Bump(adj, i, d)[..n] == adj[..n];
    } else {
      assert Bump(adj, i, d)[..n] == Bump(adj[..n], i, d);
      DotBump(adj[..n], t[..n], i, d);
    }
  }

  lemma {:induction false} DotOneHot(t: seq<real>, r: nat)
    ensures Dot(OneHot(|t|, r), t) == if r < |t| then t[r] else 0.0
  {
    if t != [] {
      var n := |t| - 1;
      assert OneHot(|t|, r)[..n] == OneHot(n, r);
      DotOneHot(t[..n], r);
    }
  }

  lemma MulDistributes(va: real, vb: real, dv: real, ta: real, tb: real)
    ensures Times(Times(vb, dv), ta) + Times(Times(va, dv), tb) == Times(dv, Times(ta, vb) + Times(va, tb))
  {
    assert vb * dv * ta == dv * (ta * vb);
    assert va * dv * tb == dv * (va * tb);
  }

  lemma AddDistributes(dv: real, ta: real, tb: real)
    ensures Times(dv, ta) + Times(dv, tb) == Times(dv, ta + tb)
  {
  }

  lemma NegDistributes(dv: real, ta: real)
    ensures Times(-dv, ta) == Times(dv, -ta)
  {
  }

  lemma DotSnoc(adj: seq<real>, t: seq<real>, last: real)
    requires |adj| == |t| + 1
    ensures Dot(adj, t + [last]) == Dot(adj[..|t|], t) + Times(adj[|t|], last)
  {
    hide Times;
    assert (t + [last])[..|t|] == t;
  }

  /** Spreading an adjoint over the arguments keeps the weighted sum of tangents. */
  lemma SpreadKeepsDot(op: Op, vals: seq<real>, tans: seq<real>, adj: seq<real>)
    requires op.Uses(|vals|) && |tans| == |vals| && |adj| == |vals| + 1
    ensures Dot(Spread(op, vals, adj), tans) == Dot(adj, tans + [Tangent(op, vals, tans)])
  {
    hide Dot, Bump, Times;
    var n := |vals|;
    var dv, rest := adj[n], adj[..n];
    DotSnoc(adj, tans, Tangent(op, vals, tans));
    match op {
      case Const(_) =>
        ZeroTimes(dv);
      case Neg(a) =>
        DotBump(rest, tans, a, -dv);
        NegDistributes(dv, tans[a]);
      case Add(a, b) =>
        DotBump(rest, tans, a, dv);
        DotBump(Bump(rest, a, dv), tans, b, dv);
        AddDistributes(dv, tans[a], tans[b]);
      case Mul(a, b) =>
        var da, db := Times(vals[b], dv), Times(vals[a], dv);
        DotBump(rest, tans, a, da);
        DotBump(Bump(rest, a, da), tans, b, db);
        MulDistributes(vals[a], vals[b], dv, tans[a], tans[b]);
    }
  }

  lemma ZeroTimes(dv: real)
    ensures Times(dv, 0.0) == 0.0
  {
  }

  /** At every depth of the recursion the adjoints weighted by the tangents add up to the
      derivative of the result. */
  lemma {:induction false} SweepInvariant(prog: seq<Op>, n: nat, r: nat, x: real)
    requires IsTrace(prog) && n <= |prog| && r <= |prog|
    ensures Dot(Adjoints(prog, n, r, x), Tangents(prog[..n], x)) == Tangents(prog, x)[r]
    decreases |prog| - n
  {
    if n == |prog| {
      assert prog[..n] == prog;
      DotOneHot(Tangents(prog, x), r);
    } else {
      SweepInvariant(prog, n + 1, r, x);
      assert prog[..n + 1][..n] == prog[..n];
      SpreadKeepsDot(prog[n], Values(prog[..n], x), Tangents(prog[..n], x), Adjoints(prog, n + 1, r, x));
    }
  }

  /** The unwound recursion leaves the forward-mode derivative in x's adjoint. */
  lemma ReverseIsForward(prog: seq<Op>, r: nat, x: real)
    requires IsTrace(prog) && r <= |prog|
    ensures Adjoints(prog, 0, r, x)[0] == Tangents(prog, x)[r]
  {
    SweepInvariant(prog, 0, r, x);
    assert prog[..0] == [];
    var a := Adjoints(prog, 0, r, x);
    assert Dot(a, [1.0]) == Dot(a[..0], [1.0][..0]) + a[0] * 1.0;
  }

  // -------------------------------------------------------------- the handler itself

  /** A `double` whose address is taken. */
  class Cell {
    var value: real

    constructor (value: real)
      ensures this.value == value
    {
      this.value := value;
    }
  }

  /** `prop_t`: a value and the address of its adjoint. */
  datatype Prop = Prop(v: real, dv: Cell)

  ghost predicate DistinctCells(env: seq<Prop>) {
    forall i, j :: 0 <= i < j < |env| ==> env[i].dv != env[j].dv
  }

  ghost predicate HasValues(env: seq<Prop>, vals: seq<real>) {
    |env| == |vals| && forall i :: 0 <= i < |env| ==> env[i].v == vals[i]
  }

  /** `handle`, entered after |env| - 1 requests; env[i] is what the i-th of them was
      answered and env[0] is x.  The result is the r-th value. */
  method Handle(prog: seq<Op>, r: nat, env: seq<Prop>, ghost x: real)
    requires IsTrace(prog) && r <= |prog| && 1 <= |env| <= |prog| + 1
    requires DistinctCells(env) && HasValues(env, Values(prog[..|env| - 1], x))
    requires forall i :: 0 <= i < |env| ==> env[i].dv.value == 0.0
    modifies set p | p in env :: p.dv
    ensures forall i :: 0 <= i < |env| ==> env[i].dv.value == Adjoints(prog, |env| - 1, r, x)[i]
    decreases |prog| + 1 - |env|
  {
    var n := |env| - 1;
    if n == |prog| {
      env[r].dv.value := 1.0;
      return;
    }
    ghost var vals := Values(prog[..n], x);
    assert prog[..n + 1][..n] == prog[..n];
    var v := Answer(prog[n], env, vals);
    var dv := new Cell(0.0);
    var env' := env + [Prop(v, dv)];
    Handle(prog, r, env', x);
    ghost var adj := Adjoints(prog, n + 1, r, x);
    assert forall i :: 0 <= i <= n ==> env[i] == env'[i];
    assert env'[n + 1].dv.value == adj[n + 1];
    Propagate(prog[n], env, dv, vals, adj);
  }

  /** The code of `handle` after the recursive call. */
  method Propagate(op: Op, env: seq<Prop>, dv: Cell, ghost vals: seq<real>, ghost adj: seq<real>)
    requires op.Uses(|env|) && HasValues(env, vals) && |adj| == |env| + 1
    requires DistinctCells(env) && forall i :: 0 <= i < |env| ==> env[i].dv != dv
    requires dv.value == adj[|env|] && forall i :: 0 <= i < |env| ==> env[i].dv.value == adj[i]
    modifies set p | p in env :: p.dv
    ensures forall i :: 0 <= i < |env| ==> env[i].dv.value == Spread(op, vals, adj)[i]
  {
    match op {
      case Const(_) =>
      case Neg(a) =>
        var dx := env[a].dv;
        dx.value := dx.value + -dv.value;
      case Add(a, b) =>
        var dx, dy := env[a].dv, env[b].dv;
        dx.value := dx.value + dv.value;
        dy.value := dy.value + dv.value;
      case Mul(a, b) =>
        var x, y, dx, dy := env[a].v, env[b].v, env[a].dv, env[b].dv;
        dx.value := dx.value + y * dv.value;
        dy.value := dy.value + x * dv.value;
    }
  }

  /** The value computed for a request, through the effects that `evaluate` answers. */
  method Answer(op: Op, env: seq<Prop>, ghost vals: seq<real>) returns (v: real)
    requires op.Uses(|env|) && HasValues(env, vals)
    ensures v == Value(op, vals)
  {
    match op {
      case Const(c) => v := c;
      case Neg(a) => v := -env[a].v;
      case Add(a, b) => v := env[a].v + env[b].v;
      case Mul(a, b) => v := env[a].v * env[b].v;
    }
  }

  /** `reverse`: the number it prints is the derivative of the result at x. */
  method Reverse(prog: seq<Op>, r: nat, x: real) returns (d: real)
    requires IsTrace(prog) && r <= |prog|
    ensures d == Tangents(prog, x)[r]
  {
    var dx := new Cell(0.0);
    assert prog[..0] == [];
    Handle(prog, r, [Prop(x, dx)], x);
    ReverseIsForward(prog, r, x);
    assert [Prop(x, dx)][0].dv == dx;
    d := dx.value;
  }

  // ------------------------------------------------------------------ polynomials

  function Pow(b: real, n: nat): real {
    if n == 0 then 1.0 else Pow(b, n - 1) * b
  }

  /** The polynomial with the given coefficients, the highest first, at x. */
  function Poly(cs: seq<real>, x: real): real {
    if cs == [] then 0.0 else Times(cs[0], Pow(x, |cs| - 1)) + Poly(cs[1..], x)
  }

  /** The coefficients of its derivative. */
  function Derived(cs: seq<real>): (ds: seq<real>)
    ensures |ds| == if cs == [] then 0 else |cs| - 1
  {
    if |cs| <= 1 then [] else [Times((|cs| - 1) as real, cs[0])] + Derived(cs[1..])
  }

  /** The requests of a program that evaluates it by Horner's rule; the last value is the
      polynomial's. */
  function Horner(cs: seq<real>): seq<Op>
    requires cs != []
  {
    if |cs| == 1 then [Const(cs[0])]
    else
      var n := |cs| - 1;
      var prog := Horner(cs[..n]);
      prog + [Mul(|prog|, 0), Const(cs[n]), Add(|prog| + 1, |prog| + 2)]
  }

  lemma TimesSum(a: real, b: real, x: real)
    ensures Times(a + b, x) == Times(a, x) + Times(b, x)
  {
  }

  lemma TimesAssoc(a: real, b: real, x: real)
    ensures Times(Times(a, b), x) == Times(a, Times(b, x))
  {
    assert a * b * x == a * (b * x);
  }

  lemma PowStep(x: real, n: nat)
    ensures Pow(x, 0) == 1.0 && Pow(x, n + 1) == Times(Pow(x, n), x)
  {
  }

  lemma TimesEnds(a: real)
    ensures Times(a, 1.0) == a == Times(1.0, a) && Times(0.0, a) == 0.0
  {
  }

  lemma {:induction false} PolySnoc(cs: seq<real>, c: real, x: real)
    ensures Poly(cs + [c], x) == Times(Poly(cs, x), x) + c
  {
    hide Times, Pow;
    PowStep(x, 0);
    TimesEnds(c);
    TimesEnds(x);
    if cs == [] {
      assert ([] + [c])[1..] == [];
    } else {
      PolySnoc(cs[1..], c, x);
      assert (cs + [c])[1..] == cs[1..] + [c];
      PowStep(x, |cs| - 1);
      TimesAssoc(cs[0], Pow(x, |cs| - 1), x);
      TimesSum(Times(cs[0], Pow(x, |cs| - 1)), Poly(cs[1..], x), x);
    }
  }

  lemma {:induction false} DerivedSnoc(cs: seq<real>, c: real, x: real)
    ensures Poly(Derived(cs + [c]), x) == Times(Poly(Derived(cs), x), x) + Poly(cs, x)
  {
    hide Times, Pow;
    TimesEnds(x);
    if cs != [] {
      var n, a := |cs|, cs[0];
      DerivedSnoc(cs[1..], c, x);
      assert (cs + [c])[1..] == cs[1..] + [c];
      PolyFirst(Times(n as real, a), Derived(cs[1..] + [c]), x);
      assert Poly(cs, x) == Times(a, Pow(x, n - 1)) + Poly(cs[1..], x);
      if n == 1 {
        PowStep(x, 0);
        TimesEnds(a);
      } else {
        var d := Times((n - 1) as real, a);
        PolyFirst(d, Derived(cs[1..]), x);
        PowStep(x, n - 2);
        TimesAssoc(d, Pow(x, n - 2), x);
        TimesSum(Times(d, Pow(x, n - 2)), Poly(Derived(cs[1..]), x), x);
        TimesSum((n - 1) as real, 1.0, a);
        TimesEnds(a);
        TimesSum(d, a, Pow(x, n - 1));
      }
    }
  }

  lemma PolyFirst(c: real, cs: seq<real>, x: real)
    ensures Poly([c] + cs, x) == Times(c, Pow(x, |cs|)) + Poly(cs, x)
  {
    hide Times, Pow;
    assert ([c] + cs)[1..] == cs;
  }

  /** A program that computes a polynomial is differentiated to the polynomial's formal
      derivative. */
  lemma {:induction false} PolynomialsDifferentiate(cs: seq<real>, x: real)
    requires cs != []
    ensures IsTrace(Horner(cs))
    ensures Values(Horner(cs), x)[|Horner(cs)|] == Poly(cs, x)
    ensures Tangents(Horner(cs), x)[|Horner(cs)|] == Poly(Derived(cs), x)
    ensures Values(Horner(cs), x)[0] == x && Tangents(Horner(cs), x)[0] == 1.0
  {
    hide IsTrace, Values, Tangents, Times, Pow;
    var n := |cs| - 1;
    if n == 0 {
      ConstantStart(cs, x);
    } else {
      var prog, c := Horner(cs[..n]), cs[n];
      var m := |prog|;
      PolynomialsDifferentiate(cs[..n], x);
      HornerStep(prog, c, x);
      assert cs == cs[..n] + [c];
      PolySnoc(cs[..n], c, x);
      DerivedSnoc(cs[..n], c, x);
      assert Horner(cs) == prog + [Mul(m, 0), Const(c), Add(m + 1, m + 2)];
    }
  }

  lemma ConstantStart(cs: seq<real>, x: real)
    requires |cs| == 1
    ensures IsTrace(Horner(cs)) && Values(Horner(cs), x) == [x, Poly(cs, x)] && Tangents(Horner(cs), x) == [1.0, 0.0]
    ensures Derived(cs) == [] && Poly([], x) == 0.0
  {
    Snoc([], Const(cs[0]), x);
    assert [] + [Const(cs[0])] == Horner(cs);
    PowStep(x, 0);
    TimesEnds(cs[0]);
    assert Poly(cs, x) == Times(cs[0], Pow(x, 0)) + Poly([], x);
  }

  /** One more coefficient: the last value v becomes v x + c. */
  lemma HornerStep(prog: seq<Op>, c: real, x: real)
    requires IsTrace(prog) && Values(prog, x)[0] == x && Tangents(prog, x)[0] == 1.0
    ensures var m := |prog|;
            var next := prog + [Mul(m, 0), Const(c), Add(m + 1, m + 2)];
            && IsTrace(next)
            && Values(next, x)[0] == x && Tangents(next, x)[0] == 1.0
            && Values(next, x)[m + 3] == Times(Values(prog, x)[m], x) + c
            && Tangents(next, x)[m + 3] == Times(Tangents(prog, x)[m], x) + Values(prog, x)[m]
  {
    hide IsTrace, Values, Tangents;
    var m := |prog|;
    Snoc(prog, Mul(m, 0), x);
    var p1 := prog + [Mul(m, 0)];
    Snoc(p1, Const(c), x);
    var p2 := p1 + [Const(c)];
    Snoc(p2, Add(m + 1, m + 2), x);
    assert p2 + [Add(m + 1, m + 2)] == prog + [Mul(m, 0), Const(c), Add(m + 1, m + 2)];
  }

  /** One more request appends one value and one tangent. */
  lemma Snoc(prog: seq<Op>, op: Op, x: real)
    requires IsTrace(prog) && op.Uses(|prog| + 1)
    ensures IsTrace(prog + [op])
    ensures Values(prog + [op], x) == Values(prog, x) + [Value(op, Values(prog, x))]
    ensures Tangents(prog + [op], x) == Tangents(prog, x) + [Tangent(op, Values(prog, x), Tangents(prog, x))]
  {
    assert (prog + [op])[..|prog|] == prog;
  }

  // ---------------------------------------------------------------- the example

  /** The requests of one iteration of `example`, which starts when n values exist. */
  function Iteration(n: nat, prev: nat, acc: nat): seq<Op> {
    [Const(-1.0), Add(0, n), Neg(n + 1), Mul(prev, n + 2), Add(acc, n + 3)]
  }

  /** All requests of `example` with i iterations. */
  function Example(i: nat): (prog: seq<Op>)
    ensures |prog| == 2 + 5 * i
  {
    if i == 0 then [Const(1.0), Const(1.0)]
    else Example(i - 1) + Iteration(|Example(i - 1)| + 1, PrevIndex(i - 1), AccIndex(i - 1))
  }

  function PrevIndex(i: nat): nat {
    if i == 0 then 2 else 5 * i + 1
  }

  function AccIndex(i: nat): nat {
    if i == 0 then 1 else 5 * i + 2
  }

  /** i (1 - x)^(i - 1) */
  function Term(x: real, i: nat): real {
    if i == 0 then 0.0 else i as real * Pow(1.0 - x, i - 1)
  }

  /** Sum of i (1 - x)^(i - 1) for i = 1 .. n. */
  function Series(x: real, n: nat): real {
    if n == 0 then 0.0 else Series(x, n - 1) + Term(x, n)
  }

  /** The loop of `example`, collecting the requests it makes. */
  method RunExample(iters: nat) returns (prog: seq<Op>, r: nat)
    ensures prog == Example(iters) && r == AccIndex(iters)
  {
    prog := [Const(1.0), Const(1.0)];
    var acc, prev := 1, 2;
    var i := 0;
    while i < iters
      invariant i <= iters && prog == Example(i) && prev == PrevIndex(i) && acc == AccIndex(i)
    {
      var n := |prog| + 1;
      prog := prog + [Const(-1.0), Add(0, n), Neg(n + 1), Mul(prev, n + 2), Add(acc, n + 3)];
      prev := n + 3;
      acc := n + 4;
      i := i + 1;
    }
    r := acc;
  }

  lemma TermStep(x: real, i: nat)
    ensures Term(x, i) * (1.0 - x) + Pow(1.0 - x, i) == Term(x, i + 1)
  {
    var q := 1.0 - x;
    if i > 0 {
      assert i as real * Pow(q, i - 1) * q == i as real * (Pow(q, i - 1) * q);
      assert (i + 1) as real * Pow(q, i) == i as real * Pow(q, i) + Pow(q, i);
    }
  }

  /** The values and tangents of `prev` and `acc` after i iterations. */
  ghost predicate AfterIterations(i: nat, x: real, vals: seq<real>, tans: seq<real>) {
    && |vals| == |tans| == 3 + 5 * i
    && vals[0] == x && tans[0] == 1.0
    && vals[PrevIndex(i)] == Pow(1.0 - x, i) && tans[PrevIndex(i)] == -Term(x, i)
    && tans[AccIndex(i)] == -Series(x, i)
  }

  /** One iteration of the loop, request by request. */
  lemma IterationStep(prog: seq<Op>, i: nat, x: real)
    requires IsTrace(prog) && AfterIterations(i, x, Values(prog, x), Tangents(prog, x))
    ensures var next := prog + Iteration(|prog| + 1, PrevIndex(i), AccIndex(i));
            IsTrace(next) && AfterIterations(i + 1, x, Values(next, x), Tangents(next, x))
  {
    hide Times, IsTrace, Values, Tangents, Pow, Term;
    var n, prev, acc := |prog| + 1, PrevIndex(i), AccIndex(i);
    Snoc(prog, Const(-1.0), x);
    var p1 := prog + [Const(-1.0)];
    Snoc(p1, Add(0, n), x);
    var p2 := p1 + [Add(0, n)];
    Snoc(p2, Neg(n + 1), x);
    var p3 := p2 + [Neg(n + 1)];
    Snoc(p3, Mul(prev, n + 2), x);
    var p4 := p3 + [Mul(prev, n + 2)];
    Snoc(p4, Add(acc, n + 3), x);
    var p5 := p4 + [Add(acc, n + 3)];
    assert p5 == prog + Iteration(n, prev, acc);
    var v, t := Values(p3, x), Tangents(p3, x);
    assert v[n + 2] == 1.0 - x && t[n + 2] == -1.0;
    NextPower(x, i, v[prev], t[prev], v[n + 2], t[n + 2]);
  }

  lemma NextPower(x: real, i: nat, v: real, t: real, q: real, dq: real)
    requires v == Pow(1.0 - x, i) && t == -Term(x, i) && q == 1.0 - x && dq == -1.0
    ensures v * q == Pow(1.0 - x, i + 1)
    ensures Times(t, q) + Times(v, dq) == -Term(x, i + 1)
    ensures Series(x, i + 1) == Series(x, i) + Term(x, i + 1)
  {
    TermStep(x, i);
    assert -Term(x, i) * q == -(Term(x, i) * q);
  }

  lemma EmptyTrace(x: real)
    ensures IsTrace([]) && Values([], x) == [x] && Tangents([], x) == [1.0]
  {
  }

  lemma ExampleStart(x: real)
    ensures IsTrace(Example(0)) && AfterIterations(0, x, Values(Example(0), x), Tangents(Example(0), x))
  {
    hide IsTrace, Values, Tangents, Times;
    EmptyTrace(x);
    assert [] + [Const(1.0)] == [Const(1.0)];
    Snoc([], Const(1.0), x);
    Snoc([Const(1.0)], Const(1.0), x);
    assert [Const(1.0)] + [Const(1.0)] == Example(0);
  }

  lemma {:induction false} ExampleAfter(i: nat, x: real)
    ensures IsTrace(Example(i)) && AfterIterations(i, x, Values(Example(i), x), Tangents(Example(i), x))
  {
    hide IsTrace, Values, Tangents, AfterIterations;
    if i == 0 {
      ExampleStart(x);
    } else {
      ExampleAfter(i - 1, x);
      IterationStep(Example(i - 1), i - 1, x);
    }
  }

  /** The whole program: differentiating `example` prints minus the sum of
      i (1 - x)^(i - 1) for i from 1 to iters. */
  method Benchmark(iters: nat, x: real) returns (d: real)
    ensures d == -Series(x, iters)
  {
    var prog, r := RunExample(iters);
    ExampleAfter(iters, x);
    d := Reverse(prog, r, x);
  }
}
