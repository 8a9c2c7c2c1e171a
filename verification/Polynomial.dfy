/** Polynomials over GF(2^8), lowest coefficient first: existence and uniqueness of the polynomial
    with fewer than k coefficients through k distinct points.
  */
module Polynomial {
  import opened Gf256

  type Poly = seq<Elem>

  function Eval(p: Poly, x: Elem): Elem {
    if p == [] then ZERO else Add(p[0], Mul(x, Eval(p[1..], x)))
  }

  function Sum(p: Poly, q: Poly): (r: Poly)
    requires |p| == |q|
    ensures |r| == |p|
  {
    if p == [] then [] else [Add(p[0], q[0])] + Sum(p[1..], q[1..])
  }

  function Scale(c: Elem, p: Poly): (r: Poly)
    ensures |r| == |p|
  {
    if p == [] then [] else [Mul(c, p[0])] + Scale(c, p[1..])
  }

  /** The quotient of `p` by x + a. */
  function Divide(p: Poly, a: Elem): (q: Poly)
    requires p != []
    ensures |q| == |p| - 1
  {
    if |p| == 1 then [] else [Eval(p[1..], a)] + Divide(p[1..], a)
  }

  /** The product of x + a over the points. */
  function Nodal(pts: seq<Elem>): (p: Poly)
    ensures |p| == |pts| + 1
  {
    if pts == [] then [ONE]
    else
      var q := Nodal(pts[1..]);
      Sum([ZERO] + q, Scale(pts[0], q) + [ZERO])
  }

  /** Newton interpolation: the polynomial with |pts| coefficients through the given points. */
  function Interpolate(pts: seq<Elem>, vals: seq<Elem>): (p: Poly)
    requires |pts| == |vals|
    ensures |p| == |pts|
  {
    if pts == [] then []
    else
      var p, z := Interpolate(pts[1..], vals[1..]), Nodal(pts[1..]);
      Sum(p + [ZERO], Scale(NewtonCoefficient(p, z, pts[0], vals[0]), z))
  }

  function NewtonCoefficient(p: Poly, z: Poly, a: Elem, v: Elem): Elem {
    Mul(Add(v, Eval(p, a)), Inv(Eval(z, a)))
  }

  ghost predicate Distinct(pts: seq<Elem>) {
    forall i, j :: 0 <= i < j < |pts| ==> pts[i] != pts[j]
  }

  // ---- Evaluation is linear ----

  lemma EvalStep(p: Poly, x: Elem)
    requires p != []
    ensures Eval(p, x) == Add(p[0], Mul(x, Eval(p[1..], x)))
  {
    hide Add, Mul;
  }

  lemma EvalCons(c: Elem, p: Poly, x: Elem)
    ensures Eval([c] + p, x) == Add(c, Mul(x, Eval(p, x)))
  {
    hide Add, Mul;
    assert ([c] + p)[1..] == p;
  }

  lemma EvalNil(x: Elem)
    ensures Eval([], x) == ZERO
  {}

  lemma {:induction false} EvalSum(p: Poly, q: Poly, x: Elem)
    requires |p| == |q|
    ensures Eval(Sum(p, q), x) == Add(Eval(p, x), Eval(q, x))
  {
    if p == [] {
      AddZero(ZERO);
    } else {
      var p', q' := p[1..], q[1..];
      assert Sum(p, q) == [Add(p[0], q[0])] + Sum(p', q');
      hide *;
      EvalCons(Add(p[0], q[0]), Sum(p', q'), x);
      EvalStep(p, x);
      EvalStep(q, x);
      EvalSum(p', q', x);
      MulRight(x, Eval(p', x), Eval(q', x));
      AddSwap(p[0], q[0], Mul(x, Eval(p', x)), Mul(x, Eval(q', x)));
    }
  }

  lemma {:induction false} EvalScale(c: Elem, p: Poly, x: Elem)
    ensures Eval(Scale(c, p), x) == Mul(c, Eval(p, x))
  {
    if p == [] {
      hide *;
      ScaleNil(c);
      EvalNil(x);
      ZeroLeft(c);
      MulComm(c, ZERO);
    } else {
      var p' := p[1..];
      assert Scale(c, p) == [Mul(c, p[0])] + Scale(c, p');
      hide *;
      EvalCons(Mul(c, p[0]), Scale(c, p'), x);
      EvalStep(p, x);
      EvalScale(c, p', x);
      MulRight(c, p[0], Mul(x, Eval(p', x)));
      MulAssoc(x, c, Eval(p', x));
      MulComm(x, c);
      MulAssoc(c, x, Eval(p', x));
    }
  }

  lemma ScaleNil(c: Elem)
    ensures Scale(c, []) == []
  {}

  lemma {:induction false} EvalPadded(p: Poly, x: Elem)
    ensures Eval(p + [ZERO], x) == Eval(p, x)
  {
    if p == [] {
      assert p + [ZERO] == [ZERO] + [];
      hide *;
      EvalCons(ZERO, [], x);
      EvalNil(x);
      ZeroLeft(x);
      MulComm(x, ZERO);
      AddZero(ZERO);
    } else {
      assert (p + [ZERO]) == [p[0]] + (p[1..] + [ZERO]);
      hide *;
      EvalCons(p[0], p[1..] + [ZERO], x);
      EvalPadded(p[1..], x);
      EvalStep(p, x);
    }
  }

  // ---- A polynomial with k coefficients and k distinct roots vanishes ----

  lemma {:induction false} EvalDivide(p: Poly, a: Elem, x: Elem)
    requires p != []
    ensures Eval(p, x) == Add(Mul(Add(x, a), Eval(Divide(p, a), x)), Eval(p, a))
  {
    if |p| == 1 {
      assert Divide(p, a) == [] && p[1..] == [];
      hide *;
      EvalStep(p, x);
      EvalStep(p, a);
      EvalNil(x);
      EvalNil(a);
      ZeroTimes(x);
      ZeroTimes(a);
      ZeroTimes(Add(x, a));
      AddZero(Eval(p, a));
    } else {
      var p' := p[1..];
      var q, e := Divide(p', a), Eval(p', a);
      assert Divide(p, a) == [e] + q;
      hide *;
      EvalDivide(p', a, x);
      EvalStep(p, x);
      EvalStep(p, a);
      EvalCons(e, q, x);
      DivideAlgebra(p[0], x, a, Eval(q, x), e);
    }
  }

  lemma ZeroTimes(a: Elem)
    ensures Mul(a, ZERO) == ZERO
  {
    hide *;
    ZeroLeft(a);
    MulComm(a, ZERO);
  }

  lemma DivideAlgebra(c: Elem, x: Elem, a: Elem, q: Elem, e: Elem)
    ensures Add(c, Mul(x, Add(Mul(Add(x, a), q), e)))
         == Add(Mul(Add(x, a), Add(e, Mul(x, q))), Add(c, Mul(a, e)))
  {
    hide *;
    var d := Add(x, a);
    var y := Mul(x, Mul(d, q));
    MulRight(x, Mul(d, q), e);
    MulRight(d, e, Mul(x, q));
    MulAssoc(d, x, q);
    MulComm(d, x);
    MulAssoc(x, d, q);
    MulLeft(x, a, e);
    var u, v := Mul(x, e), Mul(a, e);
    // both sides are c + y + u
    AddComm(Add(u, v), y);
    AddAssoc(y, Add(u, v), Add(c, v));
    AddComm(c, v);
    AddAssoc(u, v, Add(v, c));
    AddAssoc(v, v, c);
    AddZero(v);
    AddZero(c);
    AddAssoc(y, u, c);
    AddComm(Add(y, u), c);
  }

  lemma QuotientRoot(p: Poly, a: Elem, b: Elem)
    requires p != [] && a != b
    requires Eval(p, a) == ZERO && Eval(p, b) == ZERO
    ensures Eval(Divide(p, a), b) == ZERO
  {
    hide *;
    var q := Divide(p, a);
    EvalDivide(p, a, b);
    AddZero(Mul(Add(b, a), Eval(q, b)));
    NoZeroDivisor(Add(b, a), Eval(q, b));
    AddCancel(b, a);
  }

  lemma DistinctTail(pts: seq<Elem>)
    requires Distinct(pts) && pts != []
    ensures Distinct(pts[1..]) && forall i :: 1 <= i < |pts| ==> pts[i] != pts[0]
  {
    assert forall i, j :: 0 <= i < j < |pts[1..]| ==> pts[1..][i] == pts[i + 1] && pts[1..][j] == pts[j + 1];
  }

  ghost predicate AllRoots(p: Poly, pts: seq<Elem>) {
    forall i :: 0 <= i < |pts| ==> Eval(p, pts[i]) == ZERO
  }

  lemma QuotientRoots(p: Poly, pts: seq<Elem>)
    requires p != [] && pts != [] && Distinct(pts) && AllRoots(p, pts)
    ensures AllRoots(Divide(p, pts[0]), pts[1..])
  {
    DistinctTail(pts);
    hide Eval, Divide, Distinct;
    forall i | 0 <= i < |pts[1..]|
      ensures Eval(Divide(p, pts[0]), pts[1..][i]) == ZERO
    {
      assert pts[1..][i] == pts[i + 1];
      QuotientRoot(p, pts[0], pts[i + 1]);
    }
  }

  lemma {:induction false} RootsVanish(p: Poly, pts: seq<Elem>, x: Elem)
    requires |p| <= |pts| && Distinct(pts) && AllRoots(p, pts)
    ensures Eval(p, x) == ZERO
    decreases |p|
  {
    if p == [] {
      EvalNil(x);
    } else {
      var a := pts[0];
      assert Eval(p, a) == ZERO;
      var q := Divide(p, a);
      hide *;
      DistinctTail(pts);
      QuotientRoots(p, pts);
      RootsVanish(q, pts[1..], x);
      EvalDivide(p, a, x);
      ZeroTimes(Add(x, a));
      AddZero(ZERO);
    }
  }

  /** Two polynomials with k coefficients that agree on k distinct points agree everywhere. */
  lemma Unique(p: Poly, q: Poly, pts: seq<Elem>, x: Elem)
    requires |p| == |q| <= |pts| && Distinct(pts)
    requires forall i :: 0 <= i < |pts| ==> Eval(p, pts[i]) == Eval(q, pts[i])
    ensures Eval(p, x) == Eval(q, x)
  {
    var d := Sum(p, q);
    hide Add, Mul, Eval, Sum, Distinct;
    forall i | 0 <= i < |pts|
      ensures Eval(d, pts[i]) == ZERO
    {
      EvalSum(p, q, pts[i]);
      AddZero(Eval(p, pts[i]));
    }
    RootsVanish(d, pts, x);
    EvalSum(p, q, x);
    AddCancel(Eval(p, x), Eval(q, x));
  }

  // ---- Interpolation hits its points ----

  lemma EvalNodalStep(pts: seq<Elem>, x: Elem)
    requires pts != []
    ensures Eval(Nodal(pts), x) == Mul(Add(x, pts[0]), Eval(Nodal(pts[1..]), x))
  {
    var q := Nodal(pts[1..]);
    assert Nodal(pts) == Sum([ZERO] + q, Scale(pts[0], q) + [ZERO]);
    hide *;
    EvalSum([ZERO] + q, Scale(pts[0], q) + [ZERO], x);
    EvalCons(ZERO, q, x);
    EvalPadded(Scale(pts[0], q), x);
    EvalScale(pts[0], q, x);
    AddZero(Mul(x, Eval(q, x)));
    MulLeft(x, pts[0], Eval(q, x));
  }

  lemma {:induction false} NodalRoots(pts: seq<Elem>, x: Elem)
    ensures Eval(Nodal(pts), x) == ZERO <==> x in pts
  {
    if pts == [] {
      hide Add, Mul;
      assert Nodal(pts) == [ONE] + [];
      EvalCons(ONE, [], x);
      ZeroTimes(x);
      AddZero(ONE);
    } else {
      hide *;
      EvalNodalStep(pts, x);
      NodalRoots(pts[1..], x);
      AddCancel(x, pts[0]);
      var d, e := Add(x, pts[0]), Eval(Nodal(pts[1..]), x);
      if Mul(d, e) == ZERO {
        NoZeroDivisor(d, e);
      }
      ZeroLeft(e);
      ZeroTimes(d);
      assert x in pts <==> x == pts[0] || x in pts[1..];
    }
  }

  lemma EvalInterpolateStep(pts: seq<Elem>, vals: seq<Elem>, x: Elem)
    requires |pts| == |vals| > 0
    ensures
      var p, z := Interpolate(pts[1..], vals[1..]), Nodal(pts[1..]);
      Eval(Interpolate(pts, vals), x)
      == Add(Eval(p, x), Mul(NewtonCoefficient(p, z, pts[0], vals[0]), Eval(z, x)))
  {
    var p, z := Interpolate(pts[1..], vals[1..]), Nodal(pts[1..]);
    var c := NewtonCoefficient(p, z, pts[0], vals[0]);
    assert Interpolate(pts, vals) == Sum(p + [ZERO], Scale(c, z));
    hide *;
    EvalSum(p + [ZERO], Scale(c, z), x);
    EvalPadded(p, x);
    EvalScale(c, z, x);
  }

  lemma NewtonUnfold(p: Poly, z: Poly, a: Elem, v: Elem)
    ensures NewtonCoefficient(p, z, a, v) == Mul(Add(v, Eval(p, a)), Inv(Eval(z, a)))
  {
    hide Mul, Add, Inv, Eval;
  }

  lemma NewtonHits(e: Elem, z: Elem, v: Elem)
    requires z != ZERO
    ensures Add(e, Mul(Mul(Add(v, e), Inv(z)), z)) == v
  {
    hide *;
    MulAssoc(Add(v, e), Inv(z), z);
    MulInv(z);
    MulComm(Inv(z), z);
    OneLeft(Add(v, e));
    MulComm(ONE, Add(v, e));
    AddComm(v, e);
    AddAssoc(e, e, v);
    AddZero(e);
    AddZero(v);
  }

  lemma HitsHead(pts: seq<Elem>, vals: seq<Elem>)
    requires |pts| == |vals| > 0 && pts[0] !in pts[1..]
    ensures Eval(Interpolate(pts, vals), pts[0]) == vals[0]
  {
    hide *;
    var p, z := Interpolate(pts[1..], vals[1..]), Nodal(pts[1..]);
    EvalInterpolateStep(pts, vals, pts[0]);
    NodalRoots(pts[1..], pts[0]);
    NewtonUnfold(p, z, pts[0], vals[0]);
    NewtonHits(Eval(p, pts[0]), Eval(z, pts[0]), vals[0]);
  }

  lemma HitsTail(pts: seq<Elem>, vals: seq<Elem>, x: Elem)
    requires |pts| == |vals| > 0 && x in pts[1..]
    ensures Eval(Interpolate(pts, vals), x) == Eval(Interpolate(pts[1..], vals[1..]), x)
  {
    hide *;
    var p, z := Interpolate(pts[1..], vals[1..]), Nodal(pts[1..]);
    var c := NewtonCoefficient(p, z, pts[0], vals[0]);
    EvalInterpolateStep(pts, vals, x);
    NodalRoots(pts[1..], x);
    ZeroTimes(c);
    AddZero(Eval(p, x));
  }

  lemma {:induction false} InterpolateHits(pts: seq<Elem>, vals: seq<Elem>, i: nat)
    requires |pts| == |vals| && Distinct(pts) && i < |pts|
    ensures Eval(Interpolate(pts, vals), pts[i]) == vals[i]
    decreases |pts|
  {
    hide Eval, Interpolate;
    DistinctTail(pts);
    if i == 0 {
      HitsHead(pts, vals);
    } else {
      assert pts[i] == pts[1..][i - 1] && vals[i] == vals[1..][i - 1];
      HitsTail(pts, vals, pts[i]);
      InterpolateHits(pts[1..], vals[1..], i - 1);
    }
  }
}
