/**
 * Every halo and right-hand side have a solution of the discrete Poisson equation, in exact
 * arithmetic: a square linear system whose only homogeneous solution is zero can always be solved.
 */
module Existence {
  import opened Grids
  import opened Shape
  import opened Stencil
  import opened Residual
  import opened Contraction

  function Zeros(n: nat): seq<real> { seq(n, _ => 0.0) }

  function Axpy(a: seq<real>, c: real, b: seq<real>): (sum: seq<real>)
    requires |a| == |b|
    ensures |sum| == |a|
  {
    seq(|a|, i requires 0 <= i < |a| => a[i] + Prod(c, b[i]))
  }

  lemma AxpyIs(a: seq<real>, c: real, b: seq<real>, sum: seq<real>)
    requires |a| == |b| == |sum| && forall i :: 0 <= i < |a| ==> sum[i] == a[i] + Prod(c, b[i])
    ensures sum == Axpy(a, c, b)
  {
  }

  ghost predicate LinearAt(f: seq<real> -> real, a: seq<real>, c: real, b: seq<real>)
    requires |a| == |b|
  {
    f(Axpy(a, c, b)) == f(a) + Prod(c, f(b))
  }

  /** f is a linear functional on vectors of length n. */
  ghost predicate Linear(f: seq<real> -> real, n: nat) {
    forall a: seq<real>, c: real, b: seq<real> {:trigger LinearAt(f, a, c, b)} :: |a| == |b| == n ==>
      LinearAt(f, a, c, b)
  }

  lemma ZeroAtZero(f: seq<real> -> real, n: nat)
    requires Linear(f, n)
    ensures f(Zeros(n)) == 0.0
  {
    assert LinearAt(f, Zeros(n), 1.0, Zeros(n));
    assert Axpy(Zeros(n), 1.0, Zeros(n)) == Zeros(n);
  }

  function Unit(n: nat): seq<real>
    requires n > 0
  {
    [1.0] + Zeros(n - 1)
  }

  /** f with the first unknown eliminated through the pivot. */
  function Eliminated(f: seq<real> -> real, pivot: seq<real> -> real, ratio: real): seq<real> -> real {
    (y: seq<real>) => f([0.0] + y) - Prod(ratio, pivot([0.0] + y))
  }

  function EliminatedAll(fs: seq<seq<real> -> real>, pivot: seq<real> -> real, unit: seq<real>, base: real)
    : (gs: seq<seq<real> -> real>)
    requires base != 0.0
    ensures |gs| == |fs| && forall i :: 0 <= i < |fs| ==> gs[i] == Eliminated(fs[i], pivot, fs[i](unit) / base)
  {
    if fs == [] then [] else [Eliminated(fs[0], pivot, fs[0](unit) / base)] + EliminatedAll(fs[1..], pivot, unit, base)
  }

  lemma EliminatedLinear(f: seq<real> -> real, pivot: seq<real> -> real, ratio: real, n: nat)
    requires n > 0 && Linear(f, n) && Linear(pivot, n)
    ensures Linear(Eliminated(f, pivot, ratio), n - 1)
  {
    var g := Eliminated(f, pivot, ratio);
    forall a: seq<real>, c: real, b: seq<real> | |a| == |b| == n - 1 ensures LinearAt(g, a, c, b) {
      assert [0.0] + Axpy(a, c, b) == Axpy([0.0] + a, c, [0.0] + b);
      assert LinearAt(f, [0.0] + a, c, [0.0] + b) && LinearAt(pivot, [0.0] + a, c, [0.0] + b);
      Eliminate(ratio, c, f([0.0] + a), f([0.0] + b), pivot([0.0] + a), pivot([0.0] + b));
    }
  }

  lemma Eliminate(ratio: real, c: real, fa: real, fb: real, pa: real, pb: real)
    ensures (fa + Prod(c, fb)) - Prod(ratio, pa + Prod(c, pb)) == (fa - Prod(ratio, pa)) + Prod(c, fb - Prod(ratio, pb))
  {
    assert ratio * (pa + c * pb) == ratio * pa + c * (ratio * pb);
    assert c * (fb - ratio * pb) == c * fb - c * (ratio * pb);
  }

  lemma BackSubstitutes(f: real, fUnit: real, pivot: real, pivotUnit: real)
    requires pivotUnit != 0.0 && f == Prod(fUnit / pivotUnit, pivot)
    ensures f + Prod(-pivot / pivotUnit, fUnit) == 0.0
  {
    var inverse := 1.0 / pivotUnit;
    assert fUnit / pivotUnit == fUnit * inverse && -pivot / pivotUnit == -pivot * inverse;
    assert (fUnit * inverse) * pivot == (pivot * inverse) * fUnit;
  }

  /** Fewer linear equations than unknowns have a common solution other than zero. */
  lemma {:induction false} CommonZero(fs: seq<seq<real> -> real>, n: nat) returns (x: seq<real>)
    requires |fs| < n && forall i :: 0 <= i < |fs| ==> Linear(fs[i], n)
    ensures |x| == n && x != Zeros(n) && forall i :: 0 <= i < |fs| ==> fs[i](x) == 0.0
    decreases |fs|, 0
  {
    if forall i :: 0 <= i < |fs| ==> fs[i](Unit(n)) == 0.0 {
      x := Unit(n);
      assert x[0] != Zeros(n)[0];
    } else {
      var p :| 0 <= p < |fs| && fs[p](Unit(n)) != 0.0;
      var rest := fs[..p] + fs[p + 1..];
      x := Reduced(fs[p], rest, n);
      forall i | 0 <= i < |fs| ensures fs[i](x) == 0.0 {
        if i < p { assert rest[i] == fs[i]; }
        if i > p { assert rest[i - 1] == fs[i]; }
      }
    }
  }

  /** Elimination of the first unknown through an equation that contains it. */
  lemma {:induction false} Reduced(pivot: seq<real> -> real, rest: seq<seq<real> -> real>, n: nat)
    returns (x: seq<real>)
    requires |rest| + 1 < n && Linear(pivot, n) && pivot(Unit(n)) != 0.0
    requires forall i :: 0 <= i < |rest| ==> Linear(rest[i], n)
    ensures |x| == n && x != Zeros(n) && pivot(x) == 0.0 && forall i :: 0 <= i < |rest| ==> rest[i](x) == 0.0
    decreases |rest|, 1
  {
    var unit, base := Unit(n), pivot(Unit(n));
    var gs := EliminatedAll(rest, pivot, unit, base);
    forall i | 0 <= i < |gs| ensures Linear(gs[i], n - 1) { EliminatedLinear(rest[i], pivot, rest[i](unit) / base, n); }
    var y := CommonZero(gs, n - 1);
    var value := pivot([0.0] + y);
    x := Axpy([0.0] + y, -value / base, unit);
    assert x[1..] == y;
    assert Zeros(n)[1..] == Zeros(n - 1);
    assert LinearAt(pivot, [0.0] + y, -value / base, unit);
    BackSubstitutes(value, base, value, base);
    forall i | 0 <= i < |rest| ensures rest[i](x) == 0.0 {
      assert gs[i](y) == 0.0;
      assert LinearAt(rest[i], [0.0] + y, -value / base, unit);
      BackSubstitutes(rest[i]([0.0] + y), rest[i](unit), value, base);
    }
  }

  /** The grid a vector stands for: the interior, and by its last entry a multiple of the halo of h. */
  function GridOf(s: Shape2D, h: seq<real>, z: seq<real>): (u: seq<real>)
    requires s.Valid() && |h| == s.haloedLen && |z| == s.interiorLen + 1
    ensures |u| == s.haloedLen
    ensures forall r: nat, c: nat :: r < s.haloHeight && c < s.haloWidth ==> Halo(s, u, r, c) == GridCell(s, h, z, r, c)
  {
    Tabulate(s.haloHeight, s.haloWidth,
             (r: nat, c: nat) requires r < s.haloHeight && c < s.haloWidth => GridCell(s, h, z, r, c))
  }

  function GridCell(s: Shape2D, h: seq<real>, z: seq<real>, r: nat, c: nat): real
    requires s.Valid() && |h| == s.haloedLen && |z| == s.interiorLen + 1 && r < s.haloHeight && c < s.haloWidth
  {
    if InInterior(s, r, c) then Inner(s, z[..s.interiorLen], r - 1, c - 1) else Prod(z[s.interiorLen], Halo(s, h, r, c))
  }

  /** How far the grid of a vector is, at one cell, from solving the equation scaled by its last entry. */
  function Equation(pr: Problem<real>, p: JacobiParams<real>, h: seq<real>, r: nat, c: nat): seq<real> -> real
    requires pr.Fits(h) && p.hSquared > 0.0 && InInterior(pr.shape, r, c)
  {
    var s := pr.shape;
    (z: seq<real>) =>
      if |z| != s.interiorLen + 1 then 0.0
      else
        LaplacianAt(REAL_OPS, s, Reciprocal(p), GridOf(s, h, z), r, c) -
        Prod(z[s.interiorLen], Inner(s, pr.forcing, r - 1, c - 1))
  }

  lemma ProdLinear(x: real, c: real, y: real, h: real)
    ensures Prod(x + Prod(c, y), h) == Prod(x, h) + Prod(c, Prod(y, h))
  {
    assert (c * y) * h == c * (y * h);
  }

  lemma GridCellLinear(s: Shape2D, h: seq<real>, a: seq<real>, c: real, b: seq<real>, i: nat, j: nat)
    requires s.Valid() && |h| == s.haloedLen && |a| == |b| == s.interiorLen + 1 && i < s.haloHeight && j < s.haloWidth
    ensures GridCell(s, h, Axpy(a, c, b), i, j) == GridCell(s, h, a, i, j) + Prod(c, GridCell(s, h, b, i, j))
  {
    var n := s.interiorLen;
    if InInterior(s, i, j) {
      AtBounds(s.height, s.width, i - 1, j - 1);
      var k := At(s.width, i - 1, j - 1);
      assert Axpy(a, c, b)[..n][k] == a[..n][k] + Prod(c, b[..n][k]);
    } else {
      ProdLinear(a[n], c, b[n], Halo(s, h, i, j));
    }
  }

  /** The Laplacian of a center and its four neighbours. */
  function StarLaplacian(q: LaplacianParams<real>, x: seq<real>): real
    requires |x| == 5
  {
    LaplacianCell(REAL_OPS, q, x[0], x[1], x[2], x[3], x[4])
  }

  lemma LaplacianLinear(q: LaplacianParams<real>, c: real, x: seq<real>, y: seq<real>)
    requires |x| == |y| == 5
    ensures StarLaplacian(q, Axpy(x, c, y)) == StarLaplacian(q, x) + Prod(c, StarLaplacian(q, y))
  {
    var dx := x[1] + x[2] + x[3] + x[4] - 4.0 * x[0];
    var dy := y[1] + y[2] + y[3] + y[4] - 4.0 * y[0];
    assert c * y[1] + c * y[2] + c * y[3] + c * y[4] - 4.0 * (c * y[0]) == c * dy;
    assert (dx + c * dy) * q.inverseHSquared == dx * q.inverseHSquared + c * (dy * q.inverseHSquared);
  }

  /** The five cells of a grid that the Laplacian at (r, c) reads. */
  function Star(s: Shape2D, u: seq<real>, r: nat, c: nat): seq<real>
    requires s.Valid() && |u| == s.haloedLen && InInterior(s, r, c)
  {
    [Halo(s, u, r, c), Halo(s, u, r - 1, c), Halo(s, u, r + 1, c), Halo(s, u, r, c + 1), Halo(s, u, r, c - 1)]
  }

  lemma EquationLinear(pr: Problem<real>, p: JacobiParams<real>, h: seq<real>, r: nat, c: nat)
    requires pr.Fits(h) && p.hSquared > 0.0 && InInterior(pr.shape, r, c)
    ensures Linear(Equation(pr, p, h, r, c), pr.shape.interiorLen + 1)
  {
    var s, f := pr.shape, Equation(pr, p, h, r, c);
    forall a: seq<real>, q: real, b: seq<real> | |a| == |b| == s.interiorLen + 1 ensures LinearAt(f, a, q, b) {
      EquationAxpy(pr, p, h, r, c, a, q, b);
    }
  }

  lemma EquationAxpy(pr: Problem<real>, p: JacobiParams<real>, h: seq<real>, r: nat, c: nat, a: seq<real>, q: real,
                     b: seq<real>)
    requires pr.Fits(h) && p.hSquared > 0.0 && InInterior(pr.shape, r, c)
    requires |a| == |b| == pr.shape.interiorLen + 1
    ensures LinearAt(Equation(pr, p, h, r, c), a, q, b)
  {
    var n, z, forcing := pr.shape.interiorLen, Axpy(a, q, b), Inner(pr.shape, pr.forcing, r - 1, c - 1);
    LaplacianAxpy(pr.shape, Reciprocal(p), h, r, c, a, q, b);
    assert Prod(z[n], forcing) == Prod(a[n], forcing) + Prod(q, Prod(b[n], forcing)) by {
      ProdLinear(a[n], q, b[n], forcing);
    }
    ProdMinus(q, LaplacianAt(REAL_OPS, pr.shape, Reciprocal(p), GridOf(pr.shape, h, b), r, c), Prod(b[n], forcing));
  }

  lemma LaplacianAxpy(s: Shape2D, p: LaplacianParams<real>, h: seq<real>, r: nat, c: nat, a: seq<real>, q: real,
                      b: seq<real>)
    requires s.Valid() && |h| == s.haloedLen && InInterior(s, r, c) && |a| == |b| == s.interiorLen + 1
    ensures LaplacianAt(REAL_OPS, s, p, GridOf(s, h, Axpy(a, q, b)), r, c) ==
            LaplacianAt(REAL_OPS, s, p, GridOf(s, h, a), r, c) +
              Prod(q, LaplacianAt(REAL_OPS, s, p, GridOf(s, h, b), r, c))
  {
    StarLinear(s, h, r, c, a, q, b);
    LaplacianLinear(p, q, Star(s, GridOf(s, h, a), r, c), Star(s, GridOf(s, h, b), r, c));
    LaplacianIsStar(s, p, GridOf(s, h, a), r, c);
    LaplacianIsStar(s, p, GridOf(s, h, b), r, c);
    LaplacianIsStar(s, p, GridOf(s, h, Axpy(a, q, b)), r, c);
  }

  lemma StarLinear(s: Shape2D, h: seq<real>, r: nat, c: nat, a: seq<real>, q: real, b: seq<real>)
    requires s.Valid() && |h| == s.haloedLen && InInterior(s, r, c) && |a| == |b| == s.interiorLen + 1
    ensures Star(s, GridOf(s, h, Axpy(a, q, b)), r, c) ==
              Axpy(Star(s, GridOf(s, h, a), r, c), q, Star(s, GridOf(s, h, b), r, c))
  {
    HaloLinear(s, h, a, q, b, r, c);
    HaloLinear(s, h, a, q, b, r - 1, c);
    HaloLinear(s, h, a, q, b, r + 1, c);
    HaloLinear(s, h, a, q, b, r, c + 1);
    HaloLinear(s, h, a, q, b, r, c - 1);
    StarAxpy(s, GridOf(s, h, a), q, GridOf(s, h, b), GridOf(s, h, Axpy(a, q, b)), r, c);
  }

  /** One cell of a sum of grids. */
  ghost predicate SumAt(s: Shape2D, u: seq<real>, q: real, v: seq<real>, sum: seq<real>, r: nat, c: nat)
    requires s.Valid() && |u| == |v| == |sum| == s.haloedLen && r < s.haloHeight && c < s.haloWidth
  {
    Halo(s, sum, r, c) == Halo(s, u, r, c) + Prod(q, Halo(s, v, r, c))
  }

  lemma StarAxpy(s: Shape2D, u: seq<real>, q: real, v: seq<real>, sum: seq<real>, r: nat, c: nat)
    requires s.Valid() && |u| == |v| == |sum| == s.haloedLen && InInterior(s, r, c)
    requires SumAt(s, u, q, v, sum, r, c) && SumAt(s, u, q, v, sum, r - 1, c) && SumAt(s, u, q, v, sum, r + 1, c)
    requires SumAt(s, u, q, v, sum, r, c + 1) && SumAt(s, u, q, v, sum, r, c - 1)
    ensures Star(s, sum, r, c) == Axpy(Star(s, u, r, c), q, Star(s, v, r, c))
  {
    AxpyIs(Star(s, u, r, c), q, Star(s, v, r, c), Star(s, sum, r, c));
  }

  lemma HaloLinear(s: Shape2D, h: seq<real>, a: seq<real>, c: real, b: seq<real>, i: nat, j: nat)
    requires s.Valid() && |h| == s.haloedLen && |a| == |b| == s.interiorLen + 1 && i < s.haloHeight && j < s.haloWidth
    ensures SumAt(s, GridOf(s, h, a), c, GridOf(s, h, b), GridOf(s, h, Axpy(a, c, b)), i, j)
  {
    GridCellLinear(s, h, a, c, b, i, j);
    var ga, gb, g := GridOf(s, h, a), GridOf(s, h, b), GridOf(s, h, Axpy(a, c, b));
    assert Halo(s, ga, i, j) == GridCell(s, h, a, i, j) && Halo(s, gb, i, j) == GridCell(s, h, b, i, j);
    assert Halo(s, g, i, j) == GridCell(s, h, Axpy(a, c, b), i, j);
  }

  lemma LaplacianIsStar(s: Shape2D, p: LaplacianParams<real>, u: seq<real>, r: nat, c: nat)
    requires s.Valid() && |u| == s.haloedLen && InInterior(s, r, c)
    ensures LaplacianAt(REAL_OPS, s, p, u, r, c) == StarLaplacian(p, Star(s, u, r, c))
  {
  }

  lemma ProdMinus(c: real, x: real, y: real)
    ensures Prod(c, x - y) == Prod(c, x) - Prod(c, y)
  {
  }

  lemma CellOf(s: Shape2D, k: nat) returns (r: nat, c: nat)
    requires s.Valid() && k < s.interiorLen
    ensures InInterior(s, r, c) && At(s.width, r - 1, c - 1) == k
  {
    OfIndex(s.height, s.width, k);
    r, c := k / s.width + 1, k % s.width + 1;
  }

  lemma SameCell(s: Shape2D, i: nat, j: nat, r: nat, c: nat)
    requires InInterior(s, i, j) && InInterior(s, r, c) && At(s.width, i - 1, j - 1) == At(s.width, r - 1, c - 1)
    ensures i == r && j == c
  {
    AtBounds(s.height, s.width, i - 1, j - 1);
    AtBounds(s.height, s.width, r - 1, c - 1);
  }

  /** One equation for each interior cell. */
  lemma Equations(pr: Problem<real>, p: JacobiParams<real>, h: seq<real>, count: nat)
    returns (fs: seq<seq<real> -> real>)
    requires pr.Fits(h) && p.hSquared > 0.0 && count <= pr.shape.interiorLen
    ensures |fs| == count
    ensures forall i :: 0 <= i < count ==> Linear(fs[i], pr.shape.interiorLen + 1)
    ensures forall r: nat, c: nat :: InInterior(pr.shape, r, c) && At(pr.shape.width, r - 1, c - 1) < count ==>
              fs[At(pr.shape.width, r - 1, c - 1)] == Equation(pr, p, h, r, c)
  {
    if count == 0 {
      fs := [];
    } else {
      var s := pr.shape;
      var rest := Equations(pr, p, h, count - 1);
      var r, c := CellOf(s, count - 1);
      EquationLinear(pr, p, h, r, c);
      fs := rest + [Equation(pr, p, h, r, c)];
      forall i: nat, j: nat | InInterior(s, i, j) && At(s.width, i - 1, j - 1) < count
        ensures fs[At(s.width, i - 1, j - 1)] == Equation(pr, p, h, i, j)
      {
        if At(s.width, i - 1, j - 1) == count - 1 { SameCell(s, i, j, r, c); }
      }
    }
  }

  /** Every equation holds of this vector. */
  ghost predicate Balanced(pr: Problem<real>, p: JacobiParams<real>, h: seq<real>, z: seq<real>)
    requires pr.Fits(h) && p.hSquared > 0.0 && |z| == pr.shape.interiorLen + 1
  {
    forall r: nat, c: nat :: InInterior(pr.shape, r, c) ==> BalancedAt(pr, p, h, z, r, c)
  }

  ghost predicate BalancedAt(pr: Problem<real>, p: JacobiParams<real>, h: seq<real>, z: seq<real>, r: nat, c: nat)
    requires pr.Fits(h) && p.hSquared > 0.0 && InInterior(pr.shape, r, c)
  {
    Equation(pr, p, h, r, c)(z) == 0.0
  }

  /** There are fewer cells than unknowns, the extra one being the multiple of the halo. */
  lemma SomeBalanced(pr: Problem<real>, p: JacobiParams<real>, h: seq<real>) returns (z: seq<real>)
    requires pr.Fits(h) && p.hSquared > 0.0
    ensures |z| == pr.shape.interiorLen + 1 && z != Zeros(|z|) && Balanced(pr, p, h, z)
  {
    var s := pr.shape;
    var fs := Equations(pr, p, h, s.interiorLen);
    z := CommonZero(fs, s.interiorLen + 1);
    forall r: nat, c: nat | InInterior(s, r, c) ensures BalancedAt(pr, p, h, z, r, c) {
      AtBounds(s.height, s.width, r - 1, c - 1);
      assert fs[At(s.width, r - 1, c - 1)](z) == 0.0;
    }
  }

  /** With no part of the halo, a balanced vector is a solution without halo and forcing, so it is zero. */
  lemma HomogeneousIsZero(pr: Problem<real>, p: JacobiParams<real>, h: seq<real>, z: seq<real>)
    requires pr.Fits(h) && pr.ops == REAL_OPS && p.hSquared > 0.0
    requires |z| == pr.shape.interiorLen + 1 && Balanced(pr, p, h, z) && z[pr.shape.interiorLen] == 0.0
    ensures z == Zeros(|z|)
  {
    var s, q := pr.shape, JacobiParams(1.0, p.hSquared);
    var flat, u, none := pr.(forcing := Zeros(s.interiorLen)), GridOf(s, h, z), Zeros(s.haloedLen);
    assert forall r: nat, c: nat :: r < s.haloHeight && c < s.haloWidth ==> Halo(s, none, r, c) == 0.0 by {
      forall r: nat, c: nat | r < s.haloHeight && c < s.haloWidth ensures Halo(s, none, r, c) == 0.0 {
        AtBounds(s.haloHeight, s.haloWidth, r, c);
      }
    }
    assert forall r: nat, c: nat :: r < s.height && c < s.width ==> Inner(s, flat.forcing, r, c) == 0.0 by {
      forall r: nat, c: nat | r < s.height && c < s.width ensures Inner(s, flat.forcing, r, c) == 0.0 {
        AtBounds(s.height, s.width, r, c);
      }
    }
    ConstantSolves(flat, q, none, 0.0);
    forall r: nat, c: nat | InInterior(s, r, c) ensures SolvesAt(flat, q, u, r, c) {
      assert BalancedAt(pr, p, h, z, r, c);
      assert Inner(s, flat.forcing, r - 1, c - 1) == 0.0;
    }
    SolvesPointwise(flat, q, u);
    assert SameHalo(s, u, none);
    SolutionIsUnique(flat, q, u, none);
    forall k | 0 <= k < |z| ensures z[k] == 0.0 {
      if k < s.interiorLen {
        var r, c := CellOf(s, k);
        InteriorEntry(s, h, z, r, c);
      }
    }
  }

  lemma InteriorEntry(s: Shape2D, h: seq<real>, z: seq<real>, r: nat, c: nat)
    requires s.Valid() && |h| == s.haloedLen && |z| == s.interiorLen + 1 && InInterior(s, r, c)
    ensures var k := At(s.width, r - 1, c - 1);
            k < s.interiorLen && z[k] == Halo(s, GridOf(s, h, z), r, c)
  {
    AtBounds(s.height, s.width, r - 1, c - 1);
    assert Halo(s, GridOf(s, h, z), r, c) == Inner(s, z[..s.interiorLen], r - 1, c - 1);
  }

  /** Every halo and every right-hand side have a solution. */
  lemma SolutionExists(pr: Problem<real>, p: JacobiParams<real>, h: seq<real>) returns (v: seq<real>)
    requires pr.Fits(h) && pr.ops == REAL_OPS && p.hSquared > 0.0
    ensures pr.Fits(v) && SameHalo(pr.shape, h, v) && Solves(pr, p, v)
  {
    var s, n := pr.shape, pr.shape.interiorLen;
    var z := SomeBalanced(pr, p, h);
    if z[n] == 0.0 { HomogeneousIsZero(pr, p, h, z); }
    var inverse := 1.0 / z[n];
    var w := Axpy(Zeros(n + 1), inverse, z);
    assert w[n] == 1.0;
    v := GridOf(s, h, w);
    forall r: nat, c: nat | InInterior(s, r, c) ensures SolvesAt(pr, p, v, r, c) {
      var f := Equation(pr, p, h, r, c);
      EquationLinear(pr, p, h, r, c);
      ZeroAtZero(f, n + 1);
      assert LinearAt(f, Zeros(n + 1), inverse, z) && BalancedAt(pr, p, h, z, r, c);
    }
    SolvesPointwise(pr, p, v);
  }

  /** Some step count after which a run stays within eps of v. */
  ghost predicate Settles(pr: Problem<real>, p: JacobiParams<real>, u: seq<real>, v: seq<real>, eps: real)
    requires pr.Fits(u) && pr.Fits(v)
  {
    exists enough: nat {:trigger StaysClose(pr, p, u, v, eps, enough)} :: StaysClose(pr, p, u, v, eps, enough)
  }

  ghost predicate StaysClose(pr: Problem<real>, p: JacobiParams<real>, u: seq<real>, v: seq<real>, eps: real,
                             enough: nat)
    requires pr.Fits(u) && pr.Fits(v)
  {
    forall n: nat :: n >= enough ==> Close(pr.shape, Evolve(pr, u, Repeat(p, n)), v, eps)
  }

  /** Every run with 0 < omega <= 1 converges, and its limit is the one solution with its halo. */
  lemma AlwaysConverges(pr: Problem<real>, p: JacobiParams<real>, u: seq<real>) returns (v: seq<real>)
    requires pr.Fits(u) && pr.ops == REAL_OPS && 0.0 < p.omega <= 1.0 && 0.0 < p.hSquared
    ensures pr.Fits(v) && SameHalo(pr.shape, u, v) && Solves(pr, p, v)
    ensures forall eps: real :: eps > 0.0 ==> Settles(pr, p, u, v, eps)
  {
    v := SolutionExists(pr, p, u);
    forall eps: real | eps > 0.0 ensures Settles(pr, p, u, v, eps) {
      var enough := Converges(pr, p, u, v, eps);
      assert StaysClose(pr, p, u, v, eps, enough);
    }
  }
}
