/** The ordinary least-squares line of the soak report, over exact reals. */
module Regression {

  // ----- vectors -----

  function Dot(s: seq<real>, t: seq<real>): real
    requires |s| == |t|
  {
    if s == [] then 0.0 else Dot(s[..|s|-1], t[..|t|-1]) + s[|s|-1] * t[|t|-1]
  }

  function Sum(s: seq<real>): real {
    if s == [] then 0.0 else Sum(s[..|s|-1]) + s[|s|-1]
  }

  function Plus(s: seq<real>, t: seq<real>): (r: seq<real>)
    requires |s| == |t|
    ensures |r| == |s| && forall i :: 0 <= i < |s| ==> r[i] == s[i] + t[i]
  {
    seq(|s|, i requires 0 <= i < |s| => s[i] + t[i])
  }

  function Scaled(k: real, s: seq<real>): (r: seq<real>)
    ensures |r| == |s| && forall i :: 0 <= i < |s| ==> r[i] == k * s[i]
  {
    seq(|s|, i requires 0 <= i < |s| => k * s[i])
  }

  function Ones(n: nat): (r: seq<real>)
    ensures |r| == n && forall i :: 0 <= i < n ==> r[i] == 1.0
  {
    seq(n, i => 1.0)
  }

  lemma {:induction false} DotPlus(s: seq<real>, t: seq<real>, u: seq<real>)
    requires |s| == |t| == |u|
    ensures Dot(Plus(s, t), u) == Dot(s, u) + Dot(t, u)
  {
    if s != [] {
      var m := |s| - 1;
      DotPlus(s[..m], t[..m], u[..m]);
      assert Plus(s, t)[..m] == Plus(s[..m], t[..m]);
      assert (s[m] + t[m]) * u[m] == s[m] * u[m] + t[m] * u[m];
    }
  }

  lemma {:induction false} DotScaled(k: real, s: seq<real>, u: seq<real>)
    requires |s| == |u|
    ensures Dot(Scaled(k, s), u) == k * Dot(s, u)
  {
    if s == [] {
      assert k * 0.0 == 0.0;
    } else {
      var m := |s| - 1;
      var v := Scaled(k, s);
      DotScaled(k, s[..m], u[..m]);
      ScaledPrefix(k, s, m);
      assert Dot(v, u) == Dot(v[..m], u[..m]) + v[m] * u[m];
      ScaleStep(k, Dot(s[..m], u[..m]), s[m], u[m], Dot(s, u));
    }
  }

  lemma ScaledPrefix(k: real, s: seq<real>, m: nat)
    requires m <= |s|
    ensures Scaled(k, s)[..m] == Scaled(k, s[..m])
  {
    forall i | 0 <= i < m
      ensures Scaled(k, s)[..m][i] == Scaled(k, s[..m])[i]
    {
      assert s[..m][i] == s[i];
    }
  }

  lemma ScaleStep(k: real, d: real, x: real, y: real, d': real)
    requires d' == d + x * y
    ensures k * d + (k * x) * y == k * d'
  {
  }

  lemma {:induction false} DotSymmetric(s: seq<real>, t: seq<real>)
    requires |s| == |t|
    ensures Dot(s, t) == Dot(t, s)
  {
    if s != [] {
      DotSymmetric(s[..|s|-1], t[..|t|-1]);
    }
  }

  lemma {:induction false} DotOnes(s: seq<real>)
    ensures Dot(s, Ones(|s|)) == Sum(s)
  {
    if s != [] {
      DotOnes(s[..|s|-1]);
      assert Ones(|s|)[..|s|-1] == Ones(|s|-1);
    }
  }

  lemma {:induction false} SumOnes(n: nat)
    ensures Sum(Ones(n)) == n as real
  {
    if n > 0 {
      SumOnes(n - 1);
      assert Ones(n)[..n-1] == Ones(n - 1);
    }
  }

  /** A sum of products with no positive term is negative as soon as one term is. */
  lemma {:induction false} DotNotPositive(s: seq<real>, t: seq<real>)
    requires |s| == |t| && forall i :: 0 <= i < |s| ==> s[i] * t[i] <= 0.0
    ensures Dot(s, t) <= 0.0
    ensures (exists i :: 0 <= i < |s| && s[i] * t[i] < 0.0) ==> Dot(s, t) < 0.0
  {
    if s != [] {
      var m := |s| - 1;
      assert forall i :: 0 <= i < m ==> s[..m][i] * t[..m][i] == s[i] * t[i];
      DotNotPositive(s[..m], t[..m]);
      assert Dot(s, t) == Dot(s[..m], t[..m]) + s[m] * t[m];
      if i :| 0 <= i < |s| && s[i] * t[i] < 0.0 {
        if i < m { assert s[..m][i] * t[..m][i] < 0.0; }
        assert Dot(s, t) < 0.0;
      }
    }
  }

  lemma DotSelf(s: seq<real>)
    ensures 0.0 <= Dot(s, s)
    ensures (exists i :: 0 <= i < |s| && s[i] != 0.0) ==> 0.0 < Dot(s, s)
  {
    var t := Scaled(-1.0, s);
    assert forall i :: 0 <= i < |s| ==> t[i] * s[i] == -(s[i] * s[i]);
    forall i | 0 <= i < |s|
      ensures t[i] * s[i] <= 0.0 && (s[i] != 0.0 ==> t[i] * s[i] < 0.0)
    {
      SquareSign(s[i]);
    }
    DotNotPositive(t, s);
    DotScaled(-1.0, s, s);
  }

  lemma SquareSign(x: real)
    ensures 0.0 <= x * x && (x != 0.0 ==> 0.0 < x * x)
  {
  }

  // ----- the fitted line -----

  datatype Line = Line(intercept: real, slope: real)

  function Mean(s: seq<real>): real
    requires s != []
  {
    Sum(s) / |s| as real
  }

  /** The deviations from the mean. */
  function Centred(s: seq<real>): (r: seq<real>)
    requires s != []
    ensures |r| == |s|
  {
    Plus(s, Scaled(-Mean(s), Ones(|s|)))
  }

  function Residual(xs: seq<real>, ys: seq<real>, l: Line): (r: seq<real>)
    requires |xs| == |ys|
    ensures |r| == |xs|
  {
    Plus(ys, Plus(Scaled(-l.intercept, Ones(|xs|)), Scaled(-l.slope, xs)))
  }

  /** The sum of squared residuals of a line. */
  function Misfit(xs: seq<real>, ys: seq<real>, l: Line): real
    requires |xs| == |ys|
  {
    var r := Residual(xs, ys, l);
    Dot(r, r)
  }

  ghost predicate NotAllEqual(xs: seq<real>) {
    exists i, j :: 0 <= i < |xs| && 0 <= j < |xs| && xs[i] != xs[j]
  }

  lemma Quotient(a: real, b: real)
    requires b != 0.0
    ensures (a / b) * b == a && (-(a / b)) * b == -a
  {
  }

  /** Deviations sum to nothing. */
  lemma CentredSum(s: seq<real>)
    requires s != []
    ensures Dot(Centred(s), Ones(|s|)) == 0.0
  {
    var n := |s|;
    DotOnes(s);
    DotOnes(Ones(n));
    SumOnes(n);
    DotPlus(s, Scaled(-Mean(s), Ones(n)), Ones(n));
    DotScaled(-Mean(s), Ones(n), Ones(n));
    Quotient(Sum(s), n as real);
  }

  lemma VarianceIsPositive(xs: seq<real>)
    requires NotAllEqual(xs)
    ensures 0.0 < Dot(Centred(xs), Centred(xs))
  {
    var c := Centred(xs);
    var i, j :| 0 <= i < |xs| && 0 <= j < |xs| && xs[i] != xs[j];
    assert c[i] == xs[i] - Mean(xs) && c[j] == xs[j] - Mean(xs);
    DotSelf(c);
  }

  function Fit(xs: seq<real>, ys: seq<real>): Line
    requires |xs| == |ys| && xs != [] && Dot(Centred(xs), Centred(xs)) != 0.0
  {
    var slope := Dot(Centred(xs), Centred(ys)) / Dot(Centred(xs), Centred(xs));
    Line(Mean(ys) - slope * Mean(xs), slope)
  }

  // ----- the fit is the best line -----

  lemma DotCombination(p: real, s: seq<real>, q: real, t: seq<real>, u: seq<real>)
    requires |s| == |t| == |u|
    ensures Dot(Plus(Scaled(p, s), Scaled(q, t)), u) == p * Dot(s, u) + q * Dot(t, u)
  {
    DotPlus(Scaled(p, s), Scaled(q, t), u);
    DotScaled(p, s, u);
    DotScaled(q, t, u);
  }

  lemma Pythagoras(r: seq<real>, e: seq<real>)
    requires |r| == |e| && Dot(r, e) == 0.0
    ensures Dot(Plus(r, e), Plus(r, e)) == Dot(r, r) + Dot(e, e)
  {
    var t := Plus(r, e);
    DotPlus(r, e, t);
    DotSymmetric(r, t);
    DotSymmetric(e, t);
    DotPlus(r, e, r);
    DotPlus(r, e, e);
    DotSymmetric(e, r);
  }

  lemma CentredAt(s: seq<real>, i: nat)
    requires i < |s|
    ensures Centred(s)[i] == s[i] - Mean(s)
  {
    assert Ones(|s|)[i] == 1.0;
  }

  /** The difference of a line to the fit, as a constant and a multiple of the deviations. */
  function Offset(xs: seq<real>, p: real, q: real): (e: seq<real>)
    requires xs != []
    ensures |e| == |xs|
  {
    Plus(Scaled(p, Ones(|xs|)), Scaled(q, Centred(xs)))
  }

  lemma LineIdentity(x: real, y: real, mx: real, my: real, a: real, b: real, d: real)
    ensures y - a - b * x == (y - (my - d * mx) - d * x) + ((my - a - b * mx) + (d - b) * (x - mx))
  {
  }

  lemma ResidualAt(xs: seq<real>, ys: seq<real>, l: Line, i: nat)
    requires |xs| == |ys| && i < |xs|
    ensures Residual(xs, ys, l)[i] == ys[i] - l.intercept - l.slope * xs[i]
  {
    assert Ones(|xs|)[i] == 1.0;
    assert Scaled(-l.slope, xs)[i] == (-l.slope) * xs[i];
    Negated(l.slope, xs[i]);
  }

  lemma Negated(a: real, b: real)
    ensures (-a) * b == -(a * b)
  {
  }

  lemma OffsetAt(xs: seq<real>, p: real, q: real, i: nat)
    requires i < |xs|
    ensures Offset(xs, p, q)[i] == p + q * (xs[i] - Mean(xs))
  {
    CentredAt(xs, i);
    assert Scaled(p, Ones(|xs|))[i] == p * Ones(|xs|)[i];
    assert Scaled(q, Centred(xs))[i] == q * Centred(xs)[i];
  }

  /** The line of slope `d` through the centre of the points. */
  function Central(xs: seq<real>, ys: seq<real>, d: real): Line
    requires |xs| == |ys| && xs != []
  {
    Line(Mean(ys) - d * Mean(xs), d)
  }

  /** How far above the centre a line passes. */
  function Height(xs: seq<real>, ys: seq<real>, l: Line): real
    requires |xs| == |ys| && xs != []
  {
    Mean(ys) - l.intercept - l.slope * Mean(xs)
  }

  lemma CentralDistance(xs: seq<real>, ys: seq<real>, d: real, i: nat)
    requires |xs| == |ys| && i < |xs|
    ensures Residual(xs, ys, Central(xs, ys, d))[i] == ys[i] - (Mean(ys) - d * Mean(xs)) - d * xs[i]
  {
    ResidualAt(xs, ys, Central(xs, ys, d), i);
  }

  lemma HeightOffset(xs: seq<real>, ys: seq<real>, l: Line, q: real, i: nat)
    requires |xs| == |ys| && i < |xs|
    ensures Offset(xs, Height(xs, ys, l), q)[i]
            == (Mean(ys) - l.intercept - l.slope * Mean(xs)) + q * (xs[i] - Mean(xs))
  {
    OffsetAt(xs, Height(xs, ys, l), q, i);
  }

  lemma ResidualSplitsAt(xs: seq<real>, ys: seq<real>, l: Line, d: real, i: nat)
    requires |xs| == |ys| && i < |xs|
    ensures Residual(xs, ys, l)[i]
            == Residual(xs, ys, Central(xs, ys, d))[i] + Offset(xs, Height(xs, ys, l), d - l.slope)[i]
  {
    ResidualAt(xs, ys, l, i);
    CentralDistance(xs, ys, d, i);
    HeightOffset(xs, ys, l, d - l.slope, i);
    LineIdentity(xs[i], ys[i], Mean(xs), Mean(ys), l.intercept, l.slope, d);
  }

  /** The residuals of any line are those of a line through the centre, moved by an offset. */
  lemma ResidualSplits(xs: seq<real>, ys: seq<real>, l: Line, d: real)
    requires |xs| == |ys| && xs != []
    ensures Residual(xs, ys, l)
            == Plus(Residual(xs, ys, Central(xs, ys, d)), Offset(xs, Height(xs, ys, l), d - l.slope))
  {
    forall i | 0 <= i < |xs|
      ensures Residual(xs, ys, l)[i]
              == Residual(xs, ys, Central(xs, ys, d))[i] + Offset(xs, Height(xs, ys, l), d - l.slope)[i]
    {
      ResidualSplitsAt(xs, ys, l, d, i);
    }
  }

  lemma CentralResidualAt(xs: seq<real>, ys: seq<real>, d: real, i: nat)
    requires |xs| == |ys| && i < |xs|
    ensures Residual(xs, ys, Central(xs, ys, d))[i] == Centred(ys)[i] + (-d) * Centred(xs)[i]
  {
    CentralDistance(xs, ys, d, i);
    CentredAt(xs, i);
    CentredAt(ys, i);
    CentralIdentity(xs[i], ys[i], Mean(xs), Mean(ys), d);
  }

  lemma CentralResidual(xs: seq<real>, ys: seq<real>, d: real)
    requires |xs| == |ys| && xs != []
    ensures Residual(xs, ys, Central(xs, ys, d)) == Plus(Centred(ys), Scaled(-d, Centred(xs)))
  {
    forall i | 0 <= i < |xs|
      ensures Residual(xs, ys, Central(xs, ys, d))[i] == Centred(ys)[i] + (-d) * Centred(xs)[i]
    {
      CentralResidualAt(xs, ys, d, i);
    }
  }

  lemma CentralIdentity(x: real, y: real, mx: real, my: real, d: real)
    ensures y - (my - d * mx) - d * x == (y - my) + (-d) * (x - mx)
  {
  }

  /** With the normal equations, cy - d cx is orthogonal to p 1 + q cx. */
  lemma Orthogonal(cx: seq<real>, cy: seq<real>, one: seq<real>, d: real, p: real, q: real)
    requires |cx| == |cy| == |one| && Dot(cx, one) == 0.0 && Dot(cy, one) == 0.0
    requires d * Dot(cx, cx) == Dot(cx, cy)
    ensures Dot(Plus(cy, Scaled(-d, cx)), Plus(Scaled(p, one), Scaled(q, cx))) == 0.0
  {
    var r := Plus(cy, Scaled(-d, cx));
    OrthogonalTo(cx, cy, one, d);
    assert Dot(r, one) == 0.0;
    OrthogonalTo(cx, cy, cx, d);
    DotSymmetric(cx, cy);
    assert Dot(r, cx) == 0.0;
    DotSymmetric(r, Plus(Scaled(p, one), Scaled(q, cx)));
    DotSymmetric(r, one);
    DotSymmetric(r, cx);
    DotCombination(p, one, q, cx, r);
  }

  lemma OrthogonalTo(cx: seq<real>, cy: seq<real>, u: seq<real>, d: real)
    requires |cx| == |cy| == |u|
    ensures Dot(Plus(cy, Scaled(-d, cx)), u) == Dot(cy, u) - d * Dot(cx, u)
  {
    DotPlus(cy, Scaled(-d, cx), u);
    DotScaled(-d, cx, u);
    Negated(d, Dot(cx, u));
  }

  ghost predicate NormalEquation(xs: seq<real>, ys: seq<real>, d: real)
    requires |xs| == |ys| && xs != []
  {
    d * Dot(Centred(xs), Centred(xs)) == Dot(Centred(xs), Centred(ys))
  }

  /** How much worse any line is than the central one that solves the normal equation. */
  lemma MisfitOfLine(xs: seq<real>, ys: seq<real>, l: Line, d: real)
    requires |xs| == |ys| && xs != [] && NormalEquation(xs, ys, d)
    ensures var e := Offset(xs, Height(xs, ys, l), d - l.slope);
            Misfit(xs, ys, l) == Misfit(xs, ys, Central(xs, ys, d)) + Dot(e, e)
  {
    var e := Offset(xs, Height(xs, ys, l), d - l.slope);
    CentralIsOrthogonal(xs, ys, d, Height(xs, ys, l), d - l.slope);
    Pythagoras(Residual(xs, ys, Central(xs, ys, d)), e);
    ResidualSplits(xs, ys, l, d);
  }

  lemma CentralIsOrthogonal(xs: seq<real>, ys: seq<real>, d: real, p: real, q: real)
    requires |xs| == |ys| && xs != [] && NormalEquation(xs, ys, d)
    ensures Dot(Residual(xs, ys, Central(xs, ys, d)), Offset(xs, p, q)) == 0.0
  {
    CentredSum(xs);
    CentredSum(ys);
    Orthogonal(Centred(xs), Centred(ys), Ones(|xs|), d, p, q);
    CentralResidual(xs, ys, d);
  }

  /** The fit is the central line of the slope that solves the normal equation. */
  lemma FitIsCentral(xs: seq<real>, ys: seq<real>)
    requires |xs| == |ys| && NotAllEqual(xs)
    ensures 0.0 < Dot(Centred(xs), Centred(xs))
    ensures Fit(xs, ys) == Central(xs, ys, Fit(xs, ys).slope)
    ensures NormalEquation(xs, ys, Fit(xs, ys).slope)
  {
    VarianceIsPositive(xs);
    FitPassesTheCentre(xs, ys);
    FitSolves(xs, ys, Dot(Centred(xs), Centred(ys)), Dot(Centred(xs), Centred(xs)));
  }

  lemma FitSolves(xs: seq<real>, ys: seq<real>, c: real, v: real)
    requires |xs| == |ys| && xs != [] && c == Dot(Centred(xs), Centred(ys)) && v == Dot(Centred(xs), Centred(xs))
    requires v != 0.0
    ensures NormalEquation(xs, ys, Fit(xs, ys).slope)
  {
    SlopeSolves(Fit(xs, ys).slope, c, v);
  }

  lemma FitPassesTheCentre(xs: seq<real>, ys: seq<real>)
    requires |xs| == |ys| && xs != [] && Dot(Centred(xs), Centred(xs)) != 0.0
    ensures Fit(xs, ys) == Central(xs, ys, Fit(xs, ys).slope)
  {
  }

  lemma SlopeSolves(d: real, c: real, v: real)
    requires v != 0.0 && d == c / v
    ensures d * v == c
  {
  }

  lemma BestSlope(xs: seq<real>, ys: seq<real>, l: Line, d: real)
    requires |xs| == |ys| && NotAllEqual(xs) && NormalEquation(xs, ys, d)
    ensures Misfit(xs, ys, Central(xs, ys, d)) <= Misfit(xs, ys, l)
    ensures Misfit(xs, ys, Central(xs, ys, d)) == Misfit(xs, ys, l) ==> l == Central(xs, ys, d)
  {
    MisfitOfLine(xs, ys, l, d);
    OffsetSize(xs, ys, l, d);
  }

  /** The sum of the squared vertical distances of the first `k` points from a line. */
  function SquaredError(xs: seq<real>, ys: seq<real>, l: Line, k: nat): real
    requires k <= |xs| == |ys|
  {
    if k == 0 then 0.0 else SquaredError(xs, ys, l, k - 1) + Square(ys[k-1] - (l.intercept + l.slope * xs[k-1]))
  }

  function Square(x: real): real { x * x }

  lemma SquareOf(x: real, y: real)
    requires x == y
    ensures Square(x) == y * y
  {
  }

  lemma {:induction false} ErrorIsMisfit(xs: seq<real>, ys: seq<real>, l: Line, r: seq<real>, k: nat)
    requires k <= |xs| == |ys| && r == Residual(xs, ys, l)
    ensures SquaredError(xs, ys, l, k) == Dot(r[..k], r[..k])
  {
    if k > 0 {
      ErrorIsMisfit(xs, ys, l, r, k - 1);
      ResidualAt(xs, ys, l, k - 1);
      assert r[..k][..k-1] == r[..k-1];
      SquareOf(ys[k-1] - (l.intercept + l.slope * xs[k-1]), r[k-1]);
    }
  }

  lemma MisfitIs(xs: seq<real>, ys: seq<real>, l: Line)
    requires |xs| == |ys|
    ensures Misfit(xs, ys, l) == SquaredError(xs, ys, l, |xs|)
  {
    var r := Residual(xs, ys, l);
    ErrorIsMisfit(xs, ys, l, r, |xs|);
    assert r[..|xs|] == r;
  }

  /** The fit minimises the squared distances over all lines, and no other line attains it. */
  lemma FitIsBest(xs: seq<real>, ys: seq<real>, l: Line)
    requires |xs| == |ys| && NotAllEqual(xs)
    ensures 0.0 < Dot(Centred(xs), Centred(xs))
    ensures SquaredError(xs, ys, Fit(xs, ys), |xs|) <= SquaredError(xs, ys, l, |xs|)
    ensures SquaredError(xs, ys, Fit(xs, ys), |xs|) == SquaredError(xs, ys, l, |xs|) ==> l == Fit(xs, ys)
  {
    FitIsCentral(xs, ys);
    CentralIsBest(xs, ys, Fit(xs, ys), l);
    SameOrder(xs, ys, Fit(xs, ys), l, |xs|);
  }

  lemma SameOrder(xs: seq<real>, ys: seq<real>, f: Line, l: Line, n: nat)
    requires n == |xs| == |ys|
    ensures Misfit(xs, ys, f) <= Misfit(xs, ys, l) <==> SquaredError(xs, ys, f, n) <= SquaredError(xs, ys, l, n)
    ensures Misfit(xs, ys, f) == Misfit(xs, ys, l) <==> SquaredError(xs, ys, f, n) == SquaredError(xs, ys, l, n)
  {
    MisfitIs(xs, ys, l);
    MisfitIs(xs, ys, f);
  }

  lemma CentralIsBest(xs: seq<real>, ys: seq<real>, f: Line, l: Line)
    requires |xs| == |ys| && NotAllEqual(xs) && f == Central(xs, ys, f.slope)
    requires NormalEquation(xs, ys, f.slope)
    ensures Misfit(xs, ys, f) <= Misfit(xs, ys, l) && (Misfit(xs, ys, f) == Misfit(xs, ys, l) ==> l == f)
  {
    BestSlope(xs, ys, l, f.slope);
  }

  lemma OffsetSize(xs: seq<real>, ys: seq<real>, l: Line, d: real)
    requires |xs| == |ys| && NotAllEqual(xs)
    ensures var e := Offset(xs, Height(xs, ys, l), d - l.slope);
            0.0 <= Dot(e, e) && (Dot(e, e) == 0.0 ==> l == Central(xs, ys, d))
  {
    var p, q := Height(xs, ys, l), d - l.slope;
    OffsetDot(xs, p, q, Offset(xs, p, q));
    if p == 0.0 && q == 0.0 { FlatOffset(xs, ys, l, d); }
  }

  lemma OffsetDot(xs: seq<real>, p: real, q: real, e: seq<real>)
    requires NotAllEqual(xs) && e == Offset(xs, p, q)
    ensures 0.0 <= Dot(e, e) && (Dot(e, e) == 0.0 ==> p == 0.0 && q == 0.0)
  {
    DotSelf(e);
    if p != 0.0 || q != 0.0 {
      OffsetIsNotZero(xs, p, q);
    }
  }

  lemma FlatOffset(xs: seq<real>, ys: seq<real>, l: Line, d: real)
    requires |xs| == |ys| && xs != [] && Height(xs, ys, l) == 0.0 && d - l.slope == 0.0
    ensures l == Central(xs, ys, d)
  {
  }

  lemma OffsetIsNotZero(xs: seq<real>, p: real, q: real)
    requires NotAllEqual(xs) && (p != 0.0 || q != 0.0)
    ensures exists i :: 0 <= i < |xs| && Offset(xs, p, q)[i] != 0.0
  {
    var i, j := CentredDiffers(xs);
    var k := NonzeroAt(Centred(xs), p, q, i, j);
    assert Offset(xs, p, q)[k] != 0.0;
  }

  lemma CentredDiffers(xs: seq<real>) returns (i: nat, j: nat)
    requires NotAllEqual(xs)
    ensures i < |xs| && j < |xs| && Centred(xs)[i] != Centred(xs)[j]
  {
    i, j :| i < |xs| && j < |xs| && xs[i] != xs[j];
    CentredAt(xs, i);
    CentredAt(xs, j);
  }

  lemma NonzeroAt(c: seq<real>, p: real, q: real, i: nat, j: nat) returns (k: nat)
    requires i < |c| && j < |c| && c[i] != c[j] && (p != 0.0 || q != 0.0)
    ensures k < |c| && Plus(Scaled(p, Ones(|c|)), Scaled(q, c))[k] != 0.0
  {
    TwoPoints(p, q, c[i], c[j]);
    k := if p + q * c[i] != 0.0 then i else j;
    assert Scaled(p, Ones(|c|))[k] == p * Ones(|c|)[k];
  }

  lemma TwoPoints(p: real, q: real, u: real, v: real)
    requires u != v && (p != 0.0 || q != 0.0)
    ensures p + q * u != 0.0 || p + q * v != 0.0
  {
    assert (p + q * u) - (p + q * v) == q * (u - v);
    if q != 0.0 {
      NonzeroProduct(q, u - v);
    }
  }

  lemma NonzeroProduct(a: real, b: real)
    requires a != 0.0 && b != 0.0
    ensures a * b != 0.0
  {
  }

  // ----- falling values give a falling line -----

  ghost predicate Increasing(xs: seq<real>) {
    forall i, j :: 0 <= i < j < |xs| ==> xs[i] < xs[j]
  }

  ghost predicate Decreasing(ys: seq<real>) {
    forall i, j :: 0 <= i < j < |ys| ==> ys[i] > ys[j]
  }

  lemma CentredIncreases(xs: seq<real>)
    requires Increasing(xs) && xs != []
    ensures Increasing(Centred(xs))
  {
    forall i, j | 0 <= i < j < |xs|
      ensures Centred(xs)[i] < Centred(xs)[j]
    {
      CentredAt(xs, i);
      CentredAt(xs, j);
    }
  }

  lemma {:induction false} SumNotPositive(s: seq<real>)
    requires forall i :: 0 <= i < |s| ==> s[i] <= 0.0
    ensures Sum(s) <= 0.0 && (s != [] && s[0] < 0.0 ==> Sum(s) < 0.0)
  {
    if s != [] {
      SumNotPositive(s[..|s|-1]);
    }
  }

  lemma {:induction false} SumNotNegative(s: seq<real>)
    requires forall i :: 0 <= i < |s| ==> 0.0 <= s[i]
    ensures 0.0 <= Sum(s) && (s != [] && 0.0 < s[|s|-1] ==> 0.0 < Sum(s))
  {
    if s != [] {
      SumNotNegative(s[..|s|-1]);
    }
  }

  /** Increasing numbers that sum to nothing start below zero and end above it. */
  lemma BalancedEnds(c: seq<real>)
    requires Increasing(c) && 2 <= |c| && Sum(c) == 0.0
    ensures c[0] < 0.0 < c[|c|-1]
  {
    if c[|c|-1] <= 0.0 {
      SumNotPositive(c);
    }
    if 0.0 <= c[0] {
      SumNotNegative(c);
    }
  }

  lemma ShiftIsIrrelevant(c: seq<real>, ys: seq<real>, w: real)
    requires |c| == |ys| && Dot(c, Ones(|c|)) == 0.0
    ensures Dot(c, Plus(ys, Scaled(-w, Ones(|ys|)))) == Dot(c, ys)
  {
    var shifted := Plus(ys, Scaled(-w, Ones(|ys|)));
    DotSymmetric(c, shifted);
    DotSymmetric(c, ys);
    DotSymmetric(c, Ones(|c|));
    DotPlus(ys, Scaled(-w, Ones(|ys|)), c);
    DotScaled(-w, Ones(|ys|), c);
  }

  /** Around a pivot the deviations and the values have opposite signs. */
  lemma OppositeSigns(c: seq<real>, ys: seq<real>, k: nat)
    requires |c| == |ys| && k + 1 < |c| && Increasing(c) && Decreasing(ys)
    requires c[k] <= 0.0 < c[k+1]
    ensures Dot(c, Plus(ys, Scaled(-ys[k], Ones(|ys|)))) < 0.0
  {
    var n, w := |ys|, Plus(ys, Scaled(-ys[k], Ones(|ys|)));
    forall i | 0 <= i < n
      ensures w[i] == ys[i] - ys[k] && c[i] * w[i] <= 0.0 && (k < i ==> c[i] * w[i] < 0.0)
    {
      assert Ones(n)[i] == 1.0;
      if i <= k {
        assert c[i] <= 0.0 && 0.0 <= w[i];
        SignOfProduct(c[i], w[i]);
      } else {
        assert 0.0 < c[i] && w[i] < 0.0;
        SignOfProduct(w[i], c[i]);
      }
    }
    assert c[k+1] * w[k+1] < 0.0;
    DotNotPositive(c, w);
  }

  lemma SignOfProduct(a: real, b: real)
    requires a <= 0.0 <= b
    ensures a * b <= 0.0 && (a < 0.0 && 0.0 < b ==> a * b < 0.0)
  {
  }

  lemma Pivot(c: seq<real>) returns (k: nat)
    requires 2 <= |c| && c[0] < 0.0 < c[|c|-1]
    ensures k + 1 < |c| && c[k] <= 0.0 < c[k+1]
  {
    k := 0;
    while c[k+1] <= 0.0
      invariant k + 1 < |c| && c[k] <= 0.0
      decreases |c| - k
    {
      k := k + 1;
    }
  }

  lemma BalancedPivot(c: seq<real>) returns (k: nat)
    requires 2 <= |c| && Increasing(c) && Dot(c, Ones(|c|)) == 0.0
    ensures k + 1 < |c| && c[k] <= 0.0 < c[k+1]
  {
    DotOnes(c);
    BalancedEnds(c);
    k := Pivot(c);
  }

  lemma NegativeProduct(c: seq<real>, ys: seq<real>)
    requires |c| == |ys| && 2 <= |c| && Increasing(c) && Decreasing(ys)
    requires Dot(c, Ones(|c|)) == 0.0
    ensures Dot(c, ys) < 0.0
  {
    var k := BalancedPivot(c);
    OppositeSigns(c, ys, k);
    ShiftIsIrrelevant(c, ys, ys[k]);
  }

  /** Strictly falling values over rising positions force a negative slope. */
  lemma FallingValuesFallingLine(xs: seq<real>, ys: seq<real>)
    requires |xs| == |ys| && 2 <= |xs| && Increasing(xs) && Decreasing(ys)
    ensures NotAllEqual(xs) && 0.0 < Dot(Centred(xs), Centred(xs)) && Fit(xs, ys).slope < 0.0
  {
    RisingVaries(xs);
    FallingProduct(Centred(xs), Centred(ys), xs, ys);
    SlopeIsNegative(xs, ys);
  }

  lemma SlopeIsNegative(xs: seq<real>, ys: seq<real>)
    requires |xs| == |ys| && xs != [] && Dot(Centred(xs), Centred(ys)) < 0.0 < Dot(Centred(xs), Centred(xs))
    ensures Fit(xs, ys).slope < 0.0
  {
    NegativeQuotient(Dot(Centred(xs), Centred(ys)), Dot(Centred(xs), Centred(xs)));
  }

  lemma RisingVaries(xs: seq<real>)
    requires 2 <= |xs| && Increasing(xs)
    ensures NotAllEqual(xs) && 0.0 < Dot(Centred(xs), Centred(xs))
  {
    assert xs[0] != xs[1];
    VarianceIsPositive(xs);
  }

  lemma FallingProduct(c: seq<real>, d: seq<real>, xs: seq<real>, ys: seq<real>)
    requires |xs| == |ys| && 2 <= |xs| && Increasing(xs) && Decreasing(ys) && c == Centred(xs) && d == Centred(ys)
    ensures Dot(c, d) < 0.0
  {
    CentredFalls(c, xs, ys);
    ShiftStays(c, ys, Mean(ys), d);
  }

  lemma ShiftStays(c: seq<real>, ys: seq<real>, w: real, d: seq<real>)
    requires |c| == |ys| && Dot(c, Ones(|c|)) == 0.0 && d == Plus(ys, Scaled(-w, Ones(|ys|)))
    ensures Dot(c, d) == Dot(c, ys)
  {
    ShiftIsIrrelevant(c, ys, w);
  }

  lemma CentredFalls(c: seq<real>, xs: seq<real>, ys: seq<real>)
    requires |xs| == |ys| && 2 <= |xs| && Increasing(xs) && Decreasing(ys) && c == Centred(xs)
    ensures Dot(c, Ones(|c|)) == 0.0 && Dot(c, ys) < 0.0
  {
    CentredSum(xs);
    CentredIncreases(xs);
    NegativeProduct(c, ys);
  }

  lemma NegativeQuotient(a: real, b: real)
    requires a < 0.0 < b
    ensures a / b < 0.0
  {
  }
}
