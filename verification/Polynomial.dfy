// Polynomials over the field, as coefficient sequences with the constant term first: evaluation,
// division by a root, and interpolation.
module Polynomial {
  import opened GaloisField

  type Poly = seq<Elem>

  function Eval(p: Poly, x: Elem): Elem
    decreases |p|
  {
    if p == [] then ZERO else Add(p[0], Mul(x, Eval(p[1..], x)))
  }

  function Sum(p: Poly, q: Poly): (r: Poly)
    ensures |r| == if |p| < |q| then |q| else |p|
    decreases |p|
  {
    if p == [] then q else if q == [] then p else [Add(p[0], q[0])] + Sum(p[1..], q[1..])
  }

  function Scale(c: Elem, p: Poly): (r: Poly)
    ensures |r| == |p|
    decreases |p|
  {
    if p == [] then [] else [Mul(c, p[0])] + Scale(c, p[1..])
  }

  // (x + r) * p
  function TimesLinear(p: Poly, r: Elem): (q: Poly)
    ensures |q| == |p| + 1
  {
    Sum([ZERO] + p, Scale(r, p))
  }

  // The quotient of p by (x + r).
  function Quotient(p: Poly, r: Elem): (q: Poly)
    ensures |q| == if p == [] then 0 else |p| - 1
    decreases |p|
  {
    if |p| <= 1 then [] else [Eval(p[1..], r)] + Quotient(p[1..], r)
  }

  lemma {:induction false} EvalSum(p: Poly, q: Poly, x: Elem)
    ensures Eval(Sum(p, q), x) == Add(Eval(p, x), Eval(q, x))
    decreases |p|
  {
    hide Add, Mul;
    AddLaws(Eval(p, x), Eval(q, x), ZERO);
    AddLaws(Eval(q, x), ZERO, ZERO);
    if p != [] && q != [] {
      var r := Sum(p, q);
      assert r[0] == Add(p[0], q[0]) && r[1..] == Sum(p[1..], q[1..]);
      EvalSum(p[1..], q[1..], x);
      Distribute(Eval(p[1..], x), Eval(q[1..], x), x);
      AddSwap(p[0], q[0], Mul(x, Eval(p[1..], x)), Mul(x, Eval(q[1..], x)));
    }
  }

  lemma {:induction false} EvalScale(c: Elem, p: Poly, x: Elem)
    ensures Eval(Scale(c, p), x) == Mul(c, Eval(p, x))
    decreases |p|
  {
    hide Add, Mul;
    MulOne(c);
    if p != [] {
      var r := Scale(c, p);
      assert r[0] == Mul(c, p[0]) && r[1..] == Scale(c, p[1..]);
      var e := Eval(p[1..], x);
      EvalScale(c, p[1..], x);
      Distribute(p[0], Mul(x, e), c);
      MulAssoc(c, x, e);
      MulComm(c, x);
      MulAssoc(x, c, e);
    }
  }

  lemma EvalTimesLinear(p: Poly, r: Elem, x: Elem)
    ensures Eval(TimesLinear(p, r), x) == Mul(Add(x, r), Eval(p, x))
  {
    hide Add, Mul, Sum, Scale;
    EvalSum([ZERO] + p, Scale(r, p), x);
    EvalScale(r, p, x);
    assert ([ZERO] + p)[1..] == p;
    AddLaws(Mul(x, Eval(p, x)), ZERO, ZERO);
    Distribute(x, r, Eval(p, x));
  }

  // p(x) == (x + r) * q(x) + p(r)
  lemma {:induction false} DivideOut(p: Poly, r: Elem, x: Elem)
    ensures Eval(p, x) == Add(Mul(Add(x, r), Eval(Quotient(p, r), x)), Eval(p, r))
    decreases |p|
  {
    hide Add, Mul;
    if |p| <= 1 {
      MulOne(Add(x, r));
      MulOne(x);
      MulOne(r);
      AddLaws(Eval(p, r), ZERO, ZERO);
      if |p| == 1 {
        assert p[1..] == [];
      }
    } else {
      var rest := p[1..];
      var q := Quotient(rest, r);
      var e := Eval(rest, r);
      assert Quotient(p, r)[1..] == q && Quotient(p, r)[0] == e;
      DivideOut(rest, r, x);
      LinearStep(p[0], x, r, e, Eval(q, x));
    }
  }

  // a + x * ((x + r) * v + e) == (x + r) * (e + x * v) + (a + r * e)
  lemma LinearStep(a: Elem, x: Elem, r: Elem, e: Elem, v: Elem)
    ensures Add(a, Mul(x, Add(Mul(Add(x, r), v), e))) == Add(Mul(Add(x, r), Add(e, Mul(x, v))), Add(a, Mul(r, e)))
  {
    hide Add, Mul;
    var s := Add(x, r);
    Distribute(Mul(s, v), e, x);
    Distribute(e, Mul(x, v), s);
    Distribute(x, r, e);
    MulAssoc(x, s, v);
    MulComm(x, s);
    MulAssoc(s, x, v);
    Gather(a, Mul(s, Mul(x, v)), Mul(x, e), Mul(r, e));
  }

  // a + (t + u) == ((u + w) + t) + (a + w)
  lemma Gather(a: Elem, t: Elem, u: Elem, w: Elem)
    ensures Add(a, Add(t, u)) == Add(Add(Add(u, w), t), Add(a, w))
  {
  }

  // Two elements apart differ by something not zero.
  ghost predicate AllDifferent(xs: seq<Elem>) {
    forall i, j :: 0 <= i < j < |xs| ==> xs[i] != xs[j]
  }

  ghost predicate Roots(p: Poly, xs: seq<Elem>) {
    forall i :: 0 <= i < |xs| ==> Eval(p, xs[i]) == ZERO
  }

  // A polynomial with as many roots as coefficients is zero everywhere.
  lemma {:induction false} TooManyRoots(p: Poly, xs: seq<Elem>, x: Elem)
    requires |p| <= |xs| && AllDifferent(xs) && Roots(p, xs)
    ensures Eval(p, x) == ZERO
    decreases |p|
  {
    hide Add, Mul, Quotient;
    if p != [] {
      var r := xs[0];
      var q := Quotient(p, r);
      var rest := xs[1..];
      forall i | 0 <= i < |rest| ensures Eval(q, rest[i]) == ZERO {
        RootOfQuotient(p, r, xs[i + 1]);
      }
      TooManyRoots(q, rest, x);
      DivideOut(p, r, x);
      MulOne(Add(x, r));
      AddLaws(ZERO, ZERO, ZERO);
    }
  }

  lemma RootOfQuotient(p: Poly, r: Elem, y: Elem)
    requires Eval(p, r) == ZERO && Eval(p, y) == ZERO && r != y
    ensures Eval(Quotient(p, r), y) == ZERO
  {
    hide Add, Mul, Quotient, Eval;
    DivideOut(p, r, y);
    AddLaws(Mul(Add(y, r), Eval(Quotient(p, r), y)), ZERO, ZERO);
    AddLaws(y, r, ZERO);
    NoZeroDivisors(Add(y, r), Eval(Quotient(p, r), y));
  }

  // Polynomials of length n that agree at n points agree everywhere.
  lemma Unique(p: Poly, q: Poly, xs: seq<Elem>, x: Elem)
    requires |p| <= |xs| && |q| <= |xs| && AllDifferent(xs)
    requires forall i :: 0 <= i < |xs| ==> Eval(p, xs[i]) == Eval(q, xs[i])
    ensures Eval(p, x) == Eval(q, x)
  {
    hide Add, Eval, Sum;
    var d := Sum(p, q);
    forall i | 0 <= i < |xs| ensures Eval(d, xs[i]) == ZERO {
      EvalSum(p, q, xs[i]);
      AddLaws(Eval(p, xs[i]), Eval(q, xs[i]), ZERO);
    }
    TooManyRoots(d, xs, x);
    EvalSum(p, q, x);
    AddLaws(Eval(p, x), Eval(q, x), ZERO);
  }

  // ---- interpolation

  // The product of (x + xs[i]).
  function Nodes(xs: seq<Elem>): (p: Poly)
    ensures |p| == |xs| + 1
    decreases |xs|
  {
    if xs == [] then [ONE] else TimesLinear(Nodes(xs[1..]), xs[0])
  }

  // The polynomial of length |xs| that takes the value ys[i] at xs[i].
  function Interpolate(xs: seq<Elem>, ys: seq<Elem>): (p: Poly)
    requires |xs| == |ys|
    ensures |p| == |xs|
    decreases |xs|
  {
    if xs == [] then []
    else
      var p := Interpolate(xs[1..], ys[1..]);
      var nodes := Nodes(xs[1..]);
      Sum(p, Scale(Mul(Add(ys[0], Eval(p, xs[0])), Inverse(Eval(nodes, xs[0]))), nodes))
  }

  // The product vanishes exactly at its nodes.
  lemma {:induction false} NodesVanish(xs: seq<Elem>, x: Elem)
    ensures Eval(Nodes(xs), x) == ZERO <==> x in xs
    decreases |xs|
  {
    hide Add, Mul, TimesLinear;
    if xs == [] {
      EvalOne(x);
    } else {
      NodesVanish(xs[1..], x);
      EvalTimesLinear(Nodes(xs[1..]), xs[0], x);
      AddLaws(x, xs[0], ZERO);
      var e := Eval(Nodes(xs[1..]), x);
      MulOne(e);
      MulOne(Add(x, xs[0]));
      if Mul(Add(x, xs[0]), e) == ZERO && x != xs[0] {
        NoZeroDivisors(Add(x, xs[0]), e);
      }
    }
  }

  lemma EvalOne(x: Elem)
    ensures Eval([ONE], x) == ONE
  {
    hide Add, Mul;
    assert [ONE][1..] == [];
    MulOne(x);
    AddLaws(ONE, ZERO, ZERO);
  }

  // Interpolation goes through its points.
  lemma {:induction false} Interpolates(xs: seq<Elem>, ys: seq<Elem>, i: nat)
    requires |xs| == |ys| && AllDifferent(xs) && i < |xs|
    ensures Eval(Interpolate(xs, ys), xs[i]) == ys[i]
    decreases |xs|
  {
    hide Add, Mul, Eval, Sum, Scale, Nodes, Inverse;
    var p := Interpolate(xs[1..], ys[1..]);
    var nodes := Nodes(xs[1..]);
    var c := Mul(Add(ys[0], Eval(p, xs[0])), Inverse(Eval(nodes, xs[0])));
    EvalSum(p, Scale(c, nodes), xs[i]);
    EvalScale(c, nodes, xs[i]);
    NodesVanish(xs[1..], xs[i]);
    if i == 0 {
      FillIn(ys[0], Eval(p, xs[0]), Eval(nodes, xs[0]));
    } else {
      assert xs[1..][i - 1] == xs[i];
      Interpolates(xs[1..], ys[1..], i - 1);
      MulOne(c);
      AddLaws(ys[i], ZERO, ZERO);
    }
  }

  // v + ((y + v) / n) * n == y
  lemma FillIn(y: Elem, v: Elem, n: Elem)
    requires n != ZERO
    ensures Add(v, Mul(Mul(Add(y, v), Inverse(n)), n)) == y
  {
    hide Add, Mul, Inverse;
    MulAssoc(Add(y, v), Inverse(n), n);
    MulComm(Inverse(n), n);
    InverseOk(n);
    MulOne(Add(y, v));
    AddLaws(v, y, v);
    AddLaws(y, v, v);
    AddLaws(v, v, y);
    AddLaws(y, v, ZERO);
    AddLaws(y, ZERO, ZERO);
    AddLaws(v, Add(y, v), ZERO);
  }
}
