/** In exact arithmetic the two operators measure the same residual. */
module Residual {
  import opened Grids
  import opened Stencil

  /** The reciprocal the library precomputes. */
  function Reciprocal(p: JacobiParams<real>): LaplacianParams<real>
    requires p.hSquared > 0.0
  {
    LaplacianParams(1.0 / p.hSquared)
  }

  /** How far a cell moves that differs by laplacian - forcing from solving the equation. */
  function Move(p: JacobiParams<real>, laplacian: real, forcing: real): real {
    p.omega * p.hSquared * 0.25 * (laplacian - forcing)
  }

  /** A Jacobi update moves a cell by omega h^2 / 4 times its Laplacian residual. */
  lemma CellResidual(p: JacobiParams<real>, center: real, north: real, south: real, east: real, west: real,
                     forcing: real)
    requires p.hSquared > 0.0
    ensures JacobiCell(REAL_OPS, p, center, north, south, east, west, forcing) - center ==
            Move(p, LaplacianCell(REAL_OPS, Reciprocal(p), center, north, south, east, west), forcing)
    ensures p.omega != 0.0 ==>
              (JacobiCell(REAL_OPS, p, center, north, south, east, west, forcing) == center <==>
               LaplacianCell(REAL_OPS, Reciprocal(p), center, north, south, east, west) == forcing)
  {
    var h, inverse := p.hSquared, 1.0 / p.hSquared;
    var sum := north + south + east + west;
    var d := sum - 4.0 * center;
    assert LaplacianCell(REAL_OPS, Reciprocal(p), center, north, south, east, west) == d * inverse;
    assert JacobiCell(REAL_OPS, p, center, north, south, east, west, forcing) ==
           (1.0 - p.omega) * center + p.omega * (0.25 * (sum - h * forcing));
    assert h * (d * inverse) == d by { assert h * inverse == 1.0; assert h * (d * inverse) == d * (h * inverse); }
    Distribute(p.omega, h, d * inverse, forcing, center, sum);
    if p.omega != 0.0 { NonzeroFactor(p.omega, h, d * inverse - forcing); }
  }

  lemma NonzeroFactor(omega: real, h: real, x: real)
    requires omega != 0.0 && h > 0.0
    ensures omega * h * 0.25 * x == 0.0 <==> x == 0.0
  {
    assert omega * h != 0.0;
    assert omega * h * 0.25 * x == (omega * h) * (0.25 * x);
  }

  lemma Distribute(omega: real, h: real, l: real, f: real, center: real, sum: real)
    requires h * l == sum - 4.0 * center
    ensures (1.0 - omega) * center + omega * (0.25 * (sum - h * f)) - center == omega * h * 0.25 * (l - f)
  {
    assert h * (l - f) == h * l - h * f;
    assert omega * h * 0.25 * (l - f) == omega * (0.25 * (h * (l - f)));
    var x := 0.25 * (sum - 4.0 * center - h * f);
    assert omega * (0.25 * (sum - h * f)) == omega * (x + center);
    assert omega * (x + center) == omega * x + omega * center;
    assert (1.0 - omega) * center == center - omega * center;
  }

  /** The residual identity at a cell of a grid. */
  lemma StepResidual(pr: Problem<real>, p: JacobiParams<real>, u: seq<real>, r: nat, c: nat)
    requires pr.Fits(u) && pr.ops == REAL_OPS && p.hSquared > 0.0 && InInterior(pr.shape, r, c)
    ensures Halo(pr.shape, Step(pr, p, u), r, c) - Halo(pr.shape, u, r, c) ==
            Move(p, LaplacianAt(REAL_OPS, pr.shape, Reciprocal(p), u, r, c), Inner(pr.shape, pr.forcing, r - 1, c - 1))
  {
    var a := Around(pr, u, r, c);
    assert Halo(pr.shape, Step(pr, p, u), r, c) == JacobiCell(REAL_OPS, p, a[0], a[1], a[2], a[3], a[4], a[5]) by {
      UpdateOf(pr, p, u, r, c);
    }
    assert LaplacianAt(REAL_OPS, pr.shape, Reciprocal(p), u, r, c) ==
      LaplacianCell(REAL_OPS, Reciprocal(p), a[0], a[1], a[2], a[3], a[4]);
    CellResidual(p, a[0], a[1], a[2], a[3], a[4], a[5]);
  }

  /** The discrete Poisson equation, as the GPU and CPU Laplacians compute it. */
  ghost predicate Solves(pr: Problem<real>, p: JacobiParams<real>, u: seq<real>)
    requires pr.Fits(u) && p.hSquared > 0.0
  {
    LaplacianField(REAL_OPS, pr.shape, Reciprocal(p), u) == pr.forcing
  }

  ghost predicate SolvesAt(pr: Problem<real>, p: JacobiParams<real>, u: seq<real>, r: nat, c: nat)
    requires pr.Fits(u) && p.hSquared > 0.0 && InInterior(pr.shape, r, c)
  {
    LaplacianAt(REAL_OPS, pr.shape, Reciprocal(p), u, r, c) == Inner(pr.shape, pr.forcing, r - 1, c - 1)
  }

  lemma SolvesPointwise(pr: Problem<real>, p: JacobiParams<real>, u: seq<real>)
    requires pr.Fits(u) && p.hSquared > 0.0
    ensures Solves(pr, p, u) <==> forall r: nat, c: nat :: InInterior(pr.shape, r, c) ==> SolvesAt(pr, p, u, r, c)
  {
    var s, l := pr.shape, LaplacianField(REAL_OPS, pr.shape, Reciprocal(p), u);
    forall r: nat, c: nat | InInterior(s, r, c) ensures SolvesAt(pr, p, u, r, c) <==>
      Inner(s, l, r - 1, c - 1) == Inner(s, pr.forcing, r - 1, c - 1) {
      assert Inner(s, l, r - 1, c - 1) == LaplacianAt(REAL_OPS, s, Reciprocal(p), u, r - 1 + 1, c - 1 + 1);
    }
    if forall r: nat, c: nat :: InInterior(s, r, c) ==> SolvesAt(pr, p, u, r, c) {
      forall r: nat, c: nat | r < s.height && c < s.width
        ensures Cell(s.height, s.width, l, r, c) == Cell(s.height, s.width, pr.forcing, r, c)
      {
        assert SolvesAt(pr, p, u, r + 1, c + 1);
        assert Inner(s, l, r + 1 - 1, c + 1 - 1) == Inner(s, pr.forcing, r + 1 - 1, c + 1 - 1);
      }
      Extensional(s.height, s.width, l, pr.forcing);
    }
  }

  /** A cell stays put exactly when its Laplacian is its right-hand side. */
  lemma CellFixedIff(pr: Problem<real>, p: JacobiParams<real>, u: seq<real>, r: nat, c: nat)
    requires pr.Fits(u) && pr.ops == REAL_OPS && p.hSquared > 0.0 && p.omega != 0.0 && InInterior(pr.shape, r, c)
    ensures Halo(pr.shape, Step(pr, p, u), r, c) == Halo(pr.shape, u, r, c) <==>
            SolvesAt(pr, p, u, r, c)
  {
    var s := pr.shape;
    CellResidual(p, Halo(s, u, r, c), Halo(s, u, r - 1, c), Halo(s, u, r + 1, c), Halo(s, u, r, c + 1),
                 Halo(s, u, r, c - 1),
                 Inner(s, pr.forcing, r - 1, c - 1));
  }

  lemma SolutionIsFixed(pr: Problem<real>, p: JacobiParams<real>, u: seq<real>)
    requires pr.Fits(u) && pr.ops == REAL_OPS && p.hSquared > 0.0 && p.omega != 0.0 && Solves(pr, p, u)
    ensures Step(pr, p, u) == u
  {
    var s, u' := pr.shape, Step(pr, p, u);
    SolvesPointwise(pr, p, u);
    forall r: nat, c: nat | r < s.haloHeight && c < s.haloWidth
      ensures Cell(s.haloHeight, s.haloWidth, u', r, c) == Cell(s.haloHeight, s.haloWidth, u, r, c)
    {
      assert Halo(s, u', r, c) == Update(pr, p, u, r, c);
      if InInterior(s, r, c) {
        CellFixedIff(pr, p, u, r, c);
      }
    }
    Extensional(s.haloHeight, s.haloWidth, u', u);
  }

  lemma FixedIsSolution(pr: Problem<real>, p: JacobiParams<real>, u: seq<real>)
    requires pr.Fits(u) && pr.ops == REAL_OPS && p.hSquared > 0.0 && p.omega != 0.0 && Step(pr, p, u) == u
    ensures Solves(pr, p, u)
  {
    forall r: nat, c: nat | InInterior(pr.shape, r, c) ensures SolvesAt(pr, p, u, r, c) {
      CellFixedIff(pr, p, u, r, c);
    }
    SolvesPointwise(pr, p, u);
  }

  /** Weight zero keeps every grid. */
  lemma ZeroWeightIsFixed(pr: Problem<real>, p: JacobiParams<real>, u: seq<real>)
    requires pr.Fits(u) && pr.ops == REAL_OPS && p.omega == 0.0
    ensures Step(pr, p, u) == u
  {
    var s, u' := pr.shape, Step(pr, p, u);
    forall r: nat, c: nat | r < s.haloHeight && c < s.haloWidth
      ensures Cell(s.haloHeight, s.haloWidth, u', r, c) == Cell(s.haloHeight, s.haloWidth, u, r, c)
    {
      assert Halo(s, u', r, c) == Update(pr, p, u, r, c);
      if InInterior(s, r, c) {
        UpdateOf(pr, p, u, r, c);
        var a := Around(pr, u, r, c);
        ZeroWeight(p, a[0], a[1], a[2], a[3], a[4], a[5]);
      }
    }
    Extensional(s.haloHeight, s.haloWidth, u', u);
  }

  lemma ZeroWeight(p: JacobiParams<real>, center: real, north: real, south: real, east: real, west: real, forcing: real)
    requires p.omega == 0.0
    ensures JacobiCell(REAL_OPS, p, center, north, south, east, west, forcing) == center
  {
  }

  /** A grid is unchanged by every number of steps exactly when the weight is zero or it solves the Poisson equation. */
  lemma SteadyIffSolves(pr: Problem<real>, p: JacobiParams<real>, u: seq<real>)
    requires pr.Fits(u) && pr.ops == REAL_OPS && p.hSquared > 0.0
    ensures (forall n: nat :: Evolve(pr, u, Repeat(p, n)) == u) <==> p.omega == 0.0 || Solves(pr, p, u)
  {
    if p.omega == 0.0 || Solves(pr, p, u) {
      if p.omega == 0.0 { ZeroWeightIsFixed(pr, p, u); } else { SolutionIsFixed(pr, p, u); }
      forall n: nat ensures Evolve(pr, u, Repeat(p, n)) == u { SolutionStays(pr, p, u, n); }
    }
    if p.omega != 0.0 && forall n: nat :: Evolve(pr, u, Repeat(p, n)) == u {
      assert Repeat(p, 1)[..0] == [];
      assert Evolve(pr, u, Repeat(p, 1)) == Step(pr, p, Evolve(pr, u, []));
      FixedIsSolution(pr, p, u);
    }
  }

  lemma {:induction false} SolutionStays(pr: Problem<real>, p: JacobiParams<real>, u: seq<real>, n: nat)
    requires pr.Fits(u) && Step(pr, p, u) == u
    ensures Evolve(pr, u, Repeat(p, n)) == u
  {
    if n > 0 {
      assert Repeat(p, n)[..n - 1] == Repeat(p, n - 1);
      SolutionStays(pr, p, u, n - 1);
    }
  }

  /** The library's manufactured solution: r^2 + c^2 solves the equation with right-hand side 4 / h^2. */
  lemma QuadraticSolves(pr: Problem<real>, p: JacobiParams<real>, u: seq<real>)
    requires pr.Fits(u) && p.hSquared > 0.0
    requires forall r: nat, c: nat :: r < pr.shape.haloHeight && c < pr.shape.haloWidth ==>
               Halo(pr.shape, u, r, c) == (r * r + c * c) as real
    requires forall r: nat, c: nat :: r < pr.shape.height && c < pr.shape.width ==>
               Inner(pr.shape, pr.forcing, r, c) == 4.0 * (1.0 / p.hSquared)
    ensures Solves(pr, p, u)
  {
    forall r: nat, c: nat | InInterior(pr.shape, r, c) ensures SolvesAt(pr, p, u, r, c) {
      QuadraticSum(r, c);
    }
    SolvesPointwise(pr, p, u);
  }

  /** A constant grid solves the equation without forcing. */
  lemma ConstantSolves(pr: Problem<real>, p: JacobiParams<real>, u: seq<real>, value: real)
    requires pr.Fits(u) && p.hSquared > 0.0
    requires forall r: nat, c: nat :: r < pr.shape.haloHeight && c < pr.shape.haloWidth ==>
               Halo(pr.shape, u, r, c) == value
    requires forall r: nat, c: nat :: r < pr.shape.height && c < pr.shape.width ==>
               Inner(pr.shape, pr.forcing, r, c) == 0.0
    ensures Solves(pr, p, u)
  {
    forall r: nat, c: nat | InInterior(pr.shape, r, c) ensures SolvesAt(pr, p, u, r, c) {
      assert Inner(pr.shape, pr.forcing, r - 1, c - 1) == 0.0;
    }
    SolvesPointwise(pr, p, u);
  }

  lemma QuadraticSum(r: nat, c: nat)
    requires r > 0 && c > 0
    ensures (r - 1) * (r - 1) + (r + 1) * (r + 1) == 2 * (r * r) + 2
    ensures (c - 1) * (c - 1) + (c + 1) * (c + 1) == 2 * (c * c) + 2
  {
  }
}
