/** Convergence of the iteration in exact arithmetic. The library makes no such claim for f32. */
module Contraction {
  import opened Grids
  import opened Shape
  import opened Stencil
  import opened Residual
  import opened Runtime

  /** |x| <= bound. */
  predicate Bounded(x: real, bound: real) { -bound <= x <= bound }

  lemma Scaled(w: real, x: real, bound: real)
    requires 0.0 <= w && Bounded(x, bound)
    ensures Bounded(w * x, w * bound)
  {
    assert -(w * bound) == w * -bound <= w * x <= w * bound;
  }

  /** A weighted mean of two bounded differences. */
  lemma Mean(omega: real, e: real, around: real, eBound: real, aroundBound: real)
    requires 0.0 <= omega <= 1.0 && Bounded(e, eBound) && Bounded(around, aroundBound)
    ensures Bounded((1.0 - omega) * e + omega * (0.25 * around), (1.0 - omega) * eBound + omega * (0.25 * aroundBound))
  {
    var x, y := (1.0 - omega) * e, omega * (0.25 * around);
    var xBound, yBound := (1.0 - omega) * eBound, omega * (0.25 * aroundBound);
    assert -xBound <= x <= xBound by { Scaled(1.0 - omega, e, eBound); }
    assert -yBound <= y <= yBound by { Scaled(omega, 0.25 * around, 0.25 * aroundBound); }
    assert -(xBound + yBound) <= x + y <= xBound + yBound;
  }

  /** How much one step shrinks a barrier whose height is at most scale. */
  function Factor(scale: real, omega: real): real
    requires scale > 0.0
  {
    1.0 - omega / (2.0 * scale)
  }

  /** The mean of a barrier's bounds is below the barrier times the factor. */
  lemma MeanShrinks(omega: real, bound: real, k: real, scale: real)
    requires 0.0 <= omega && 0.0 < scale && bound <= Prod(k, scale)
    ensures (1.0 - omega) * bound + omega * (0.25 * (4.0 * bound - 2.0 * k)) <= Prod(Factor(scale, omega), bound)
  {
    var share := omega / (2.0 * scale);
    assert share * scale == 0.5 * omega;
    assert share * bound <= share * (k * scale) by { assert share >= 0.0; }
    assert share * (k * scale) == k * (share * scale);
    assert omega * (0.25 * (4.0 * bound - 2.0 * k)) == omega * bound - 0.5 * (omega * k);
  }

  /** The weighted mean of a difference and a quarter of the differences around it. */
  function Mixed(omega: real, e: real, around: real): real { (1.0 - omega) * e + omega * (0.25 * around) }

  lemma CellShrinks(omega: real, e: real, around: real, bound: real, k: real, scale: real)
    requires 0.0 <= omega <= 1.0 && 0.0 < scale && bound <= Prod(k, scale)
    requires Bounded(e, bound) && Bounded(around, 4.0 * bound - 2.0 * k)
    ensures Bounded(Mixed(omega, e, around), Prod(Factor(scale, omega), bound))
  {
    var mean := (1.0 - omega) * e + omega * (0.25 * around);
    var meanBound := (1.0 - omega) * bound + omega * (0.25 * (4.0 * bound - 2.0 * k));
    assert Bounded(mean, meanBound) by { Mean(omega, e, around, bound, 4.0 * bound - 2.0 * k); }
    assert meanBound <= Prod(Factor(scale, omega), bound) by { MeanShrinks(omega, bound, k, scale); }
  }

  /** The update is affine: a difference of updates is the mean of the differences. */
  lemma CellDifference(p: JacobiParams<real>, a: seq<real>, b: seq<real>)
    requires |a| == |b| == 6 && a[5] == b[5]
    ensures JacobiCell(REAL_OPS, p, a[0], a[1], a[2], a[3], a[4], a[5]) -
            JacobiCell(REAL_OPS, p, b[0], b[1], b[2], b[3], b[4], b[5]) ==
            Mixed(p.omega, a[0] - b[0], (a[1] - b[1]) + (a[2] - b[2]) + (a[3] - b[3]) + (a[4] - b[4]))
  {
    var x := 0.25 * (a[1] + a[2] + a[3] + a[4] - p.hSquared * a[5]);
    var y := 0.25 * (b[1] + b[2] + b[3] + b[4] - p.hSquared * b[5]);
    assert p.omega * x - p.omega * y == p.omega * (x - y);
    assert (1.0 - p.omega) * a[0] - (1.0 - p.omega) * b[0] == (1.0 - p.omega) * (a[0] - b[0]);
  }

  /** A product that the solver can treat as a name. */
  function Prod(x: real, y: real): real { x * y }

  /**
   * A bound for each cell, nonnegative and at most k * scale on the grid, whose neighbours sum to at
   * least 2k less than four times the cell: any superharmonic function will do.
   */
  datatype Barrier = Barrier(bound: (nat, nat) -> real, k: real, scale: real) {
    ghost predicate Valid(s: Shape2D) {
      && s.Valid() && 0.0 <= k && 0.0 < scale
      && (forall r: nat, c: nat :: r < s.haloHeight && c < s.haloWidth ==> InRange(r, c))
      && (forall r: nat, c: nat :: InInterior(s, r, c) ==> Superharmonic(r, c))
    }

    ghost predicate InRange(r: nat, c: nat) { 0.0 <= bound(r, c) <= Prod(k, scale) }

    function Around(r: nat, c: nat): real
      requires r > 0 && c > 0
    {
      bound(r - 1, c) + bound(r + 1, c) + bound(r, c + 1) + bound(r, c - 1)
    }

    ghost predicate Superharmonic(r: nat, c: nat)
      requires r > 0 && c > 0
    {
      Around(r, c) <= 4.0 * bound(r, c) - 2.0 * k
    }

    ghost predicate At(s: Shape2D, u: seq<real>, v: seq<real>, r: nat, c: nat)
      requires s.Valid() && |u| == |v| == s.haloedLen && r < s.haloHeight && c < s.haloWidth
    {
      Bounded(Halo(s, u, r, c) - Halo(s, v, r, c), bound(r, c))
    }

    ghost predicate Holds(s: Shape2D, u: seq<real>, v: seq<real>)
      requires s.Valid() && |u| == |v| == s.haloedLen
    {
      forall r: nat, c: nat :: r < s.haloHeight && c < s.haloWidth ==> At(s, u, v, r, c)
    }

    function Times(q: real): Barrier { Barrier((r: nat, c: nat) => Prod(q, bound(r, c)), Prod(q, k), scale) }
  }

  /** The differences of the neighbours of an interior cell, summed. */
  function Spread(pr: Problem<real>, u: seq<real>, v: seq<real>, r: nat, c: nat): real
    requires pr.Fits(u) && pr.Fits(v) && InInterior(pr.shape, r, c)
  {
    var x, y := Around(pr, u, r, c), Around(pr, v, r, c);
    (x[1] - y[1]) + (x[2] - y[2]) + (x[3] - y[3]) + (x[4] - y[4])
  }

  lemma SpreadBounded(pr: Problem<real>, u: seq<real>, v: seq<real>, b: Barrier, r: nat, c: nat)
    requires pr.Fits(u) && pr.Fits(v) && b.Valid(pr.shape) && b.Holds(pr.shape, u, v) && InInterior(pr.shape, r, c)
    ensures Bounded(Halo(pr.shape, u, r, c) - Halo(pr.shape, v, r, c), b.bound(r, c))
    ensures Bounded(Spread(pr, u, v, r, c), 4.0 * b.bound(r, c) - 2.0 * b.k)
  {
    var s := pr.shape;
    assert b.At(s, u, v, r, c) && b.At(s, u, v, r - 1, c) && b.At(s, u, v, r + 1, c);
    assert b.At(s, u, v, r, c + 1) && b.At(s, u, v, r, c - 1);
    assert b.Superharmonic(r, c);
  }

  lemma UpdateDifference(pr: Problem<real>, p: JacobiParams<real>, u: seq<real>, v: seq<real>, r: nat, c: nat)
    requires pr.Fits(u) && pr.Fits(v) && pr.ops == REAL_OPS && InInterior(pr.shape, r, c)
    ensures Update(pr, p, u, r, c) - Update(pr, p, v, r, c) ==
            Mixed(p.omega, Halo(pr.shape, u, r, c) - Halo(pr.shape, v, r, c), Spread(pr, u, v, r, c))
  {
    UpdateOf(pr, p, u, r, c);
    UpdateOf(pr, p, v, r, c);
    CellDifference(p, Around(pr, u, r, c), Around(pr, v, r, c));
  }

  lemma CellContracts(pr: Problem<real>, p: JacobiParams<real>, u: seq<real>, v: seq<real>, b: Barrier, r: nat, c: nat)
    requires pr.Fits(u) && pr.Fits(v) && pr.ops == REAL_OPS && 0.0 <= p.omega <= 1.0
    requires b.Valid(pr.shape) && b.Holds(pr.shape, u, v) && InInterior(pr.shape, r, c)
    ensures Bounded(Update(pr, p, u, r, c) - Update(pr, p, v, r, c), Prod(Factor(b.scale, p.omega), b.bound(r, c)))
  {
    var e, around := Halo(pr.shape, u, r, c) - Halo(pr.shape, v, r, c), Spread(pr, u, v, r, c);
    assert Bounded(Mixed(p.omega, e, around), Prod(Factor(b.scale, p.omega), b.bound(r, c))) by {
      SpreadBounded(pr, u, v, b, r, c);
      assert b.InRange(r, c);
      CellShrinks(p.omega, e, around, b.bound(r, c), b.k, b.scale);
    }
    UpdateDifference(pr, p, u, v, r, c);
  }

  ghost predicate SameHalo(s: Shape2D, u: seq<real>, v: seq<real>)
    requires s.Valid() && |u| == |v| == s.haloedLen
  {
    forall r: nat, c: nat :: r < s.haloHeight && c < s.haloWidth && !InInterior(s, r, c) ==>
      Halo(s, u, r, c) == Halo(s, v, r, c)
  }

  lemma TimesRange(q: real, x: real, k: real, scale: real)
    requires 0.0 <= q && 0.0 <= x <= Prod(k, scale)
    ensures 0.0 <= Prod(q, x) <= Prod(Prod(q, k), scale)
  {
    assert q * (k * scale - x) >= 0.0;
    assert q * (k * scale) == (q * k) * scale;
  }

  lemma TimesSuperharmonic(q: real, x: real, k: real, a: real, b: real, c: real, d: real)
    requires 0.0 <= q && a + b + c + d <= 4.0 * x - 2.0 * k
    ensures Prod(q, a) + Prod(q, b) + Prod(q, c) + Prod(q, d) <= 4.0 * Prod(q, x) - 2.0 * Prod(q, k)
  {
    var slack := 4.0 * x - 2.0 * k - (a + b + c + d);
    assert q * slack >= 0.0;
    assert q * slack == 4.0 * (q * x) - 2.0 * (q * k) - (q * a + q * b + q * c + q * d);
  }

  lemma TimesValid(s: Shape2D, b: Barrier, q: real)
    requires b.Valid(s) && 0.0 <= q
    ensures b.Times(q).Valid(s)
  {
    forall r: nat, c: nat | r < s.haloHeight && c < s.haloWidth ensures b.Times(q).InRange(r, c) {
      assert b.InRange(r, c);
      TimesRange(q, b.bound(r, c), b.k, b.scale);
    }
    forall r: nat, c: nat | InInterior(s, r, c) ensures b.Times(q).Superharmonic(r, c) {
      assert b.Superharmonic(r, c);
      TimesSuperharmonic(q, b.bound(r, c), b.k, b.bound(r - 1, c), b.bound(r + 1, c), b.bound(r, c + 1),
                         b.bound(r, c - 1));
    }
    assert Prod(q, b.k) >= 0.0;
  }

  lemma TimesTimes(s: Shape2D, u: seq<real>, v: seq<real>, b: Barrier, q: real, q': real)
    requires s.Valid() && |u| == |v| == s.haloedLen && b.Times(q).Times(q').Holds(s, u, v)
    ensures b.Times(Prod(q, q')).Holds(s, u, v)
  {
    var once, twice := b.Times(Prod(q, q')), b.Times(q).Times(q');
    forall r: nat, c: nat | r < s.haloHeight && c < s.haloWidth ensures once.At(s, u, v, r, c) {
      assert twice.At(s, u, v, r, c);
      ProdAssociates(q, q', b.bound(r, c));
    }
  }

  lemma ProdAssociates(q: real, q': real, x: real)
    ensures Prod(q', Prod(q, x)) == Prod(Prod(q, q'), x)
  {
  }

  lemma FactorRange(scale: real, omega: real)
    requires 0.0 <= omega <= 1.0 && 1.0 <= scale
    ensures 0.0 <= Factor(scale, omega) <= 1.0 && (omega > 0.0 ==> Factor(scale, omega) < 1.0)
  {
    var share := omega / (2.0 * scale);
    assert share * (2.0 * scale) == omega;
    assert 0.0 <= share <= 1.0 && (omega > 0.0 ==> share > 0.0);
  }

  lemma StepSameHalo(pr: Problem<real>, p: JacobiParams<real>, u: seq<real>, v: seq<real>)
    requires pr.Fits(u) && pr.Fits(v) && SameHalo(pr.shape, u, v)
    ensures SameHalo(pr.shape, Step(pr, p, u), Step(pr, p, v))
  {
  }

  lemma StepHolds(pr: Problem<real>, p: JacobiParams<real>, u: seq<real>, v: seq<real>, b: Barrier, b': Barrier, r: nat,
                  c: nat)
    requires pr.Fits(u) && pr.Fits(v) && pr.ops == REAL_OPS && 0.0 <= p.omega <= 1.0 && r < pr.shape.haloHeight
    requires c < pr.shape.haloWidth
    requires b.Valid(pr.shape) && b.Holds(pr.shape, u, v) && SameHalo(pr.shape, u, v)
    requires b'.Valid(pr.shape) && b'.bound(r, c) == Prod(Factor(b.scale, p.omega), b.bound(r, c))
    ensures b'.At(pr.shape, Step(pr, p, u), Step(pr, p, v), r, c)
  {
    var s := pr.shape;
    assert b'.InRange(r, c);
    assert Halo(s, Step(pr, p, u), r, c) == Update(pr, p, u, r, c) &&
      Halo(s, Step(pr, p, v), r, c) == Update(pr, p, v, r, c);
    if InInterior(s, r, c) { CellContracts(pr, p, u, v, b, r, c); }
  }

  /** One step multiplies any barrier between two grids with the same halo by the factor. */
  lemma StepContracts(pr: Problem<real>, p: JacobiParams<real>, u: seq<real>, v: seq<real>, b: Barrier, factor: real)
    requires pr.Fits(u) && pr.Fits(v) && pr.ops == REAL_OPS && 0.0 <= p.omega <= 1.0
    requires b.Valid(pr.shape) && 1.0 <= b.scale && b.Holds(pr.shape, u, v) && SameHalo(pr.shape, u, v)
    requires factor == Factor(b.scale, p.omega)
    ensures b.Times(factor).Holds(pr.shape, Step(pr, p, u), Step(pr, p, v))
  {
    var s, b' := pr.shape, b.Times(factor);
    assert b'.Valid(s) by {
      FactorRange(b.scale, p.omega);
      TimesValid(s, b, factor);
    }
    forall r: nat, c: nat | r < s.haloHeight && c < s.haloWidth ensures b'.At(s, Step(pr, p, u), Step(pr, p, v), r, c) {
      StepHolds(pr, p, u, v, b, b', r, c);
    }
  }

  /** Every step relaxes with a weight between 0 and 1. */
  ghost predicate Relaxes(ps: seq<JacobiParams<real>>) {
    forall i :: 0 <= i < |ps| ==> 0.0 <= ps[i].omega <= 1.0
  }

  /** The product of the factors of a run of steps. */
  function Rate(scale: real, ps: seq<JacobiParams<real>>): real
    requires scale > 0.0
  {
    if ps == [] then 1.0 else Prod(Rate(scale, ps[..|ps| - 1]), Factor(scale, ps[|ps| - 1].omega))
  }

  lemma {:induction false} RateRange(scale: real, ps: seq<JacobiParams<real>>)
    requires 1.0 <= scale && Relaxes(ps)
    ensures 0.0 <= Rate(scale, ps) <= 1.0
    decreases |ps|
  {
    if ps != [] {
      var rate, factor := Rate(scale, ps[..|ps| - 1]), Factor(scale, ps[|ps| - 1].omega);
      RateRange(scale, ps[..|ps| - 1]);
      FactorRange(scale, ps[|ps| - 1].omega);
      UnitProduct(rate, factor);
    }
  }

  lemma UnitProduct(x: real, y: real)
    requires 0.0 <= x <= 1.0 && 0.0 <= y <= 1.0
    ensures 0.0 <= Prod(x, y) <= 1.0 && Prod(x, y) <= y
  {
    var gap := (1.0 - x) * y;
    assert gap >= 0.0 && gap == y - x * y;
    assert x * y >= 0.0;
  }

  /** Contraction along any run of relaxations between 0 and 1. */
  lemma {:induction false} EvolveContracts(pr: Problem<real>, u: seq<real>, v: seq<real>, ps: seq<JacobiParams<real>>,
                                           b: Barrier)
    requires pr.Fits(u) && pr.Fits(v) && pr.ops == REAL_OPS
    requires Relaxes(ps)
    requires b.Valid(pr.shape) && 1.0 <= b.scale && b.Holds(pr.shape, u, v) && SameHalo(pr.shape, u, v)
    ensures b.Times(Rate(b.scale, ps)).Holds(pr.shape, Evolve(pr, u, ps), Evolve(pr, v, ps))
    ensures SameHalo(pr.shape, Evolve(pr, u, ps), Evolve(pr, v, ps))
    decreases |ps|
  {
    if ps == [] {
      TimesOne(pr.shape, u, v, b);
    } else {
      var rest, p := ps[..|ps| - 1], ps[|ps| - 1];
      var rate, factor := Rate(b.scale, rest), Factor(b.scale, p.omega);
      EvolveContracts(pr, u, v, rest, b);
      assert b.Times(rate).Valid(pr.shape) by {
        RateRange(b.scale, rest);
        TimesValid(pr.shape, b, rate);
      }
      ContractOnce(pr, p, Evolve(pr, u, rest), Evolve(pr, v, rest), b, rate, factor);
      assert Rate(b.scale, ps) == Prod(rate, factor);
    }
  }

  lemma TimesOne(s: Shape2D, u: seq<real>, v: seq<real>, b: Barrier)
    requires s.Valid() && |u| == |v| == s.haloedLen && b.Holds(s, u, v)
    ensures b.Times(1.0).Holds(s, u, v)
  {
    var b' := b.Times(1.0);
    forall r: nat, c: nat | r < s.haloHeight && c < s.haloWidth ensures b'.At(s, u, v, r, c) {
      assert b.At(s, u, v, r, c);
    }
  }

  lemma ContractOnce(pr: Problem<real>, p: JacobiParams<real>, u: seq<real>, v: seq<real>, b: Barrier, rate: real,
                     factor: real)
    requires pr.Fits(u) && pr.Fits(v) && pr.ops == REAL_OPS && 0.0 <= p.omega <= 1.0 && 1.0 <= b.scale
    requires factor == Factor(b.scale, p.omega)
    requires b.Times(rate).Valid(pr.shape) && b.Times(rate).Holds(pr.shape, u, v) && SameHalo(pr.shape, u, v)
    ensures b.Times(Prod(rate, factor)).Holds(pr.shape, Step(pr, p, u), Step(pr, p, v))
    ensures SameHalo(pr.shape, Step(pr, p, u), Step(pr, p, v))
  {
    StepSameHalo(pr, p, u, v);
    StepContracts(pr, p, u, v, b.Times(rate), factor);
    TimesTimes(pr.shape, Step(pr, p, u), Step(pr, p, v), b, rate, factor);
  }

  /** n^2, as the sum of the first n odd numbers. */
  function Square(n: nat): real { if n == 0 then 0.0 else Square(n - 1) + (2 * n - 1) as real }

  lemma {:induction false} SquareMeans(n: nat)
    ensures Square(n) == (n * n) as real
  {
    if n > 0 { SquareMeans(n - 1); }
  }

  lemma {:induction false} SquareGrows(m: nat, n: nat)
    requires m < n
    ensures 0.0 <= Square(m) && Square(m) + 1.0 <= Square(n)
    decreases n
  {
    if m + 1 < n {
      SquareGrows(m, n - 1);
    } else {
      SquareNonnegative(m);
    }
  }

  lemma {:induction false} SquareNonnegative(n: nat)
    ensures 0.0 <= Square(n)
  {
    if n > 0 { SquareNonnegative(n - 1); }
  }

  /** The square of the halo height. */
  function Scale(s: Shape2D): (scale: real)
    requires s.Valid()
    ensures scale >= 1.0
  {
    SquareGrows(0, s.haloHeight);
    Square(s.haloHeight)
  }

  /** Positive on the grid, at most Scale, and concave across rows. */
  function Phi(s: Shape2D, r: nat): real
    requires s.Valid()
  {
    Scale(s) - Square(r)
  }

  lemma PhiFacts(s: Shape2D, r: nat)
    requires s.Valid() && r < s.haloHeight
    ensures 1.0 <= Phi(s, r) <= Scale(s)
    ensures 1 <= r <= s.height ==> Phi(s, r - 1) + Phi(s, r + 1) == 2.0 * Phi(s, r) - 2.0
  {
    SquareGrows(r, s.haloHeight);
    assert Square(r + 1) == Square(r) + (2 * r + 1) as real;
  }

  lemma ScaleBetween(k: real, low: real, x: real, high: real)
    requires 0.0 <= k && low <= x <= high
    ensures Prod(k, low) <= Prod(k, x) <= Prod(k, high)
  {
    assert k * (x - low) >= 0.0 && k * (high - x) >= 0.0;
  }

  function RowBarrier(s: Shape2D, k: real): Barrier
    requires s.Valid()
  {
    Barrier((r: nat, c: nat) => Prod(k, Phi(s, r)), k, Scale(s))
  }

  lemma RowBarrierValid(s: Shape2D, k: real)
    requires s.Valid() && 0.0 <= k
    ensures RowBarrier(s, k).Valid(s)
  {
    var b := RowBarrier(s, k);
    forall r: nat, c: nat | r < s.haloHeight && c < s.haloWidth ensures b.InRange(r, c) {
      RowInRange(s, k, r, c);
    }
    forall r: nat, c: nat | InInterior(s, r, c) ensures b.Superharmonic(r, c) {
      RowSuperharmonic(s, k, r, c);
    }
  }

  lemma RowInRange(s: Shape2D, k: real, r: nat, c: nat)
    requires s.Valid() && 0.0 <= k && r < s.haloHeight
    ensures RowBarrier(s, k).InRange(r, c)
  {
    assert 0.0 <= Prod(k, Phi(s, r)) <= Prod(k, Scale(s)) by {
      PhiFacts(s, r);
      ScaleBetween(k, 0.0, Phi(s, r), Scale(s));
    }
  }

  lemma RowSuperharmonic(s: Shape2D, k: real, r: nat, c: nat)
    requires s.Valid() && 0.0 <= k && InInterior(s, r, c)
    ensures RowBarrier(s, k).Superharmonic(r, c)
  {
    var phi, above, below := Phi(s, r), Phi(s, r - 1), Phi(s, r + 1);
    assert Prod(k, above) + Prod(k, below) + Prod(k, phi) + Prod(k, phi) <= 4.0 * Prod(k, phi) - 2.0 * k by {
      PhiFacts(s, r);
      TimesSuperharmonic(k, phi, 1.0, above, below, phi, phi);
    }
  }

  function Pow(q: real, n: nat): real { if n == 0 then 1.0 else Pow(q, n - 1) * q }

  lemma {:induction false} RateOfRepeat(scale: real, p: JacobiParams<real>, n: nat)
    requires scale > 0.0
    ensures Rate(scale, Repeat(p, n)) == Pow(Factor(scale, p.omega), n)
  {
    if n > 0 {
      assert Repeat(p, n)[..n - 1] == Repeat(p, n - 1);
      RateOfRepeat(scale, p, n - 1);
    }
  }

  /**
   * Geometric contraction: for two grids with the same halo and right-hand side, a difference of
   * at most k * phi(r) everywhere is at most q^n * k * phi(r) after n steps, where
   * phi(r) = (height + 2)^2 - r^2 and q = 1 - omega / (2 (height + 2)^2).
   */
  lemma GeometricContraction(pr: Problem<real>, p: JacobiParams<real>, u: seq<real>, v: seq<real>, k: real, n: nat)
    requires pr.Fits(u) && pr.Fits(v) && pr.ops == REAL_OPS && 0.0 <= p.omega <= 1.0 && 0.0 <= k
    requires SameHalo(pr.shape, u, v) && RowBarrier(pr.shape, k).Holds(pr.shape, u, v)
    ensures RowBarrier(pr.shape, k).Times(Pow(Factor(Scale(pr.shape), p.omega), n)).Holds(pr.shape,
              Evolve(pr, u, Repeat(p, n)), Evolve(pr, v, Repeat(p, n)))
  {
    var b := RowBarrier(pr.shape, k);
    RowBarrierValid(pr.shape, k);
    EvolveContracts(pr, u, v, Repeat(p, n), b);
    RateOfRepeat(b.scale, p, n);
  }

  lemma {:induction false} Bernoulli(q: real, n: nat)
    requires 0.0 <= q <= 1.0
    ensures 0.0 <= Pow(q, n) && Pow(q, n) * (1.0 + n as real * (1.0 - q)) <= 1.0
  {
    if n > 0 {
      Bernoulli(q, n - 1);
      BernoulliStep(q, Pow(q, n - 1), (n - 1) as real);
    }
  }

  lemma BernoulliStep(q: real, power: real, m: real)
    requires 0.0 <= q <= 1.0 && 0.0 <= power && 0.0 <= m && power * (1.0 + m * (1.0 - q)) <= 1.0
    ensures 0.0 <= power * q && (power * q) * (1.0 + (m + 1.0) * (1.0 - q)) <= 1.0
  {
    var d := 1.0 - q;
    var lost := (m + 1.0) * (d * d);
    assert lost >= 0.0 by { assert d * d >= 0.0; }
    assert q * (1.0 + (m + 1.0) * d) == (1.0 + m * d) - lost by {
      assert (1.0 - d) * (1.0 + (m + 1.0) * d) == 1.0 + (m + 1.0) * d - d - d * ((m + 1.0) * d);
      assert d * ((m + 1.0) * d) == lost;
    }
    assert (power * q) * (1.0 + (m + 1.0) * d) == power * (q * (1.0 + (m + 1.0) * d));
    assert power * ((1.0 + m * d) - lost) == power * (1.0 + m * d) - power * lost;
    assert power * lost >= 0.0;
  }

  /** Geometric decay passes below any tolerance, for good. */
  lemma Decays(q: real, bound: real, eps: real) returns (enough: nat)
    requires 0.0 <= q < 1.0 && 0.0 <= bound && 0.0 < eps
    ensures forall n: nat :: n >= enough ==> Pow(q, n) * bound <= eps
  {
    var d := 1.0 - q;
    var ratio := bound / (eps * d);
    assert eps * d > 0.0 && ratio * (eps * d) == bound && ratio >= 0.0;
    enough := ratio.Floor + 1;
    forall n: nat | n >= enough ensures Pow(q, n) * bound <= eps {
      Bernoulli(q, n);
      DecayStep(Pow(q, n), n as real, d, bound, eps, ratio);
    }
  }

  lemma DecayStep(power: real, n: real, d: real, bound: real, eps: real, ratio: real)
    requires 0.0 <= power && power * (1.0 + n * d) <= 1.0 && 0.0 < d && 0.0 < eps
    requires ratio * (eps * d) == bound && ratio <= n
    ensures power * bound <= eps
  {
    assert ratio * (eps * d) <= n * (eps * d);
    assert n * (eps * d) == eps * (n * d);
    assert bound <= eps * (1.0 + n * d);
    assert power * bound <= power * (eps * (1.0 + n * d));
    assert power * (eps * (1.0 + n * d)) == eps * (power * (1.0 + n * d));
    assert eps * (power * (1.0 + n * d)) <= eps * 1.0;
  }

  lemma {:induction false} MaxDifference(u: seq<real>, v: seq<real>) returns (k: real)
    requires |u| == |v|
    ensures 0.0 <= k && forall i :: 0 <= i < |u| ==> Bounded(u[i] - v[i], k)
    decreases |u|
  {
    if u == [] {
      k := 0.0;
    } else {
      k := MaxDifference(u[1..], v[1..]);
      var first := if u[0] < v[0] then v[0] - u[0] else u[0] - v[0];
      k := if first < k then k else first;
      forall i | 0 <= i < |u| ensures Bounded(u[i] - v[i], k) {
        if i > 0 { assert u[i] == u[1..][i - 1] && v[i] == v[1..][i - 1]; }
      }
    }
  }

  lemma StartsWithin(s: Shape2D, u: seq<real>, v: seq<real>, k: real)
    requires s.Valid() && |u| == |v| == s.haloedLen && 0.0 <= k
    requires forall i :: 0 <= i < |u| ==> Bounded(u[i] - v[i], k)
    ensures RowBarrier(s, k).Holds(s, u, v)
  {
    var b := RowBarrier(s, k);
    forall r: nat, c: nat | r < s.haloHeight && c < s.haloWidth ensures b.At(s, u, v, r, c) {
      AtBounds(s.haloHeight, s.haloWidth, r, c);
      AtMostBarrier(s, k, r, c);
    }
  }

  lemma AtMostBarrier(s: Shape2D, k: real, r: nat, c: nat)
    requires s.Valid() && 0.0 <= k && r < s.haloHeight
    ensures k <= RowBarrier(s, k).bound(r, c)
  {
    PhiFacts(s, r);
    ScaleBetween(k, 1.0, Phi(s, r), Scale(s));
  }

  /** Every cell of two grids differs by at most eps. */
  ghost predicate Close(s: Shape2D, u: seq<real>, v: seq<real>, eps: real)
    requires s.Valid() && |u| == |v| == s.haloedLen
  {
    forall r: nat, c: nat :: r < s.haloHeight && c < s.haloWidth ==> Bounded(Halo(s, u, r, c) - Halo(s, v, r, c), eps)
  }

  lemma WithinIsClose(s: Shape2D, u: seq<real>, v: seq<real>, k: real, power: real, eps: real)
    requires s.Valid() && |u| == |v| == s.haloedLen && 0.0 <= k && 0.0 <= power && Prod(power, Prod(k, Scale(s))) <= eps
    requires RowBarrier(s, k).Times(power).Holds(s, u, v)
    ensures Close(s, u, v, eps)
  {
    var b := RowBarrier(s, k).Times(power);
    forall r: nat, c: nat | r < s.haloHeight && c < s.haloWidth
      ensures Bounded(Halo(s, u, r, c) - Halo(s, v, r, c), eps) {
      assert b.At(s, u, v, r, c);
      assert b.bound(r, c) <= eps by { RowIsClose(s, k, power, r, c); }
    }
  }

  lemma RowIsClose(s: Shape2D, k: real, power: real, r: nat, c: nat)
    requires s.Valid() && 0.0 <= k && 0.0 <= power && r < s.haloHeight
    ensures RowBarrier(s, k).Times(power).bound(r, c) <= Prod(power, Prod(k, Scale(s)))
  {
    PhiFacts(s, r);
    ScaleBetween(k, 0.0, Phi(s, r), Scale(s));
    ScaleBetween(power, 0.0, Prod(k, Phi(s, r)), Prod(k, Scale(s)));
  }

  /**
   * Convergence: from any starting interior, relaxation with 0 < omega <= 1 comes and stays within
   * any tolerance of a solution of the discrete Poisson equation with the same halo.
   */
  lemma Converges(pr: Problem<real>, p: JacobiParams<real>, u: seq<real>, v: seq<real>, eps: real) returns (enough: nat)
    requires pr.Fits(u) && pr.Fits(v) && pr.ops == REAL_OPS && 0.0 < p.omega <= 1.0 && 0.0 < p.hSquared && 0.0 < eps
    requires SameHalo(pr.shape, u, v) && Solves(pr, p, v)
    ensures forall n: nat :: n >= enough ==> Close(pr.shape, Evolve(pr, u, Repeat(p, n)), v, eps)
  {
    var s, q := pr.shape, Factor(Scale(pr.shape), p.omega);
    var k := MaxDifference(u, v);
    StartsWithin(s, u, v, k);
    FactorRange(Scale(s), p.omega);
    assert 0.0 <= k * Scale(s);
    enough := Decays(q, k * Scale(s), eps);
    SolutionIsFixed(pr, p, v);
    forall n: nat | n >= enough ensures Close(s, Evolve(pr, u, Repeat(p, n)), v, eps) {
      GeometricContraction(pr, p, u, v, k, n);
      SolutionStays(pr, p, v, n);
      Bernoulli(q, n);
      WithinIsClose(s, Evolve(pr, u, Repeat(p, n)), v, k, Pow(q, n), eps);
    }
  }

  /**
   * The runtime's double grid in exact arithmetic: after enough steps of any one batch, its current
   * grid is within any tolerance of the solution with the same halo.
   */
  lemma BatchConverges(s: Shape2D, p: JacobiParams<real>, st: State<real>, v: seq<real>, eps: real)
    returns (enough: nat)
    requires st.Ready(s) && |v| == s.haloedLen && 0.0 < p.omega <= 1.0 && 0.0 < p.hSquared && 0.0 < eps
    requires SameHalo(s, st.mem[st.current], v) && Solves(Problem(REAL_OPS, s, st.mem[st.rhs]), p, v)
    ensures forall n: nat :: n >= enough ==> IsClose(s, Advance(REAL_OPS, s, p, st, n), v, eps)
  {
    enough := Converges(Problem(REAL_OPS, s, st.mem[st.rhs]), p, st.mem[st.current], v, eps);
    forall n: nat | n >= enough ensures IsClose(s, Advance(REAL_OPS, s, p, st, n), v, eps) {
      AdvanceMeaning(REAL_OPS, s, p, st, n);
    }
  }

  ghost predicate IsClose(s: Shape2D, st: State<real>, v: seq<real>, eps: real)
    requires st.Ready(s) && |v| == s.haloedLen
  {
    Close(s, st.mem[st.current], v, eps)
  }

  lemma SolutionsAreClose(pr: Problem<real>, p: JacobiParams<real>, u: seq<real>, v: seq<real>, eps: real)
    requires pr.Fits(u) && pr.Fits(v) && pr.ops == REAL_OPS && 0.0 < p.omega <= 1.0 && 0.0 < p.hSquared && 0.0 < eps
    requires SameHalo(pr.shape, u, v) && Solves(pr, p, u) && Solves(pr, p, v)
    ensures Close(pr.shape, u, v, eps)
  {
    var enough := Converges(pr, p, u, v, eps);
    SolutionIsFixed(pr, p, u);
    SolutionStays(pr, p, u, enough);
    assert Close(pr.shape, Evolve(pr, u, Repeat(p, enough)), v, eps);
  }

  /** A halo and a right-hand side determine at most one solution. */
  lemma SolutionIsUnique(pr: Problem<real>, p: JacobiParams<real>, u: seq<real>, v: seq<real>)
    requires pr.Fits(u) && pr.Fits(v) && pr.ops == REAL_OPS && 0.0 < p.omega <= 1.0 && 0.0 < p.hSquared
    requires SameHalo(pr.shape, u, v) && Solves(pr, p, u) && Solves(pr, p, v)
    ensures u == v
  {
    var s := pr.shape;
    forall r: nat, c: nat | r < s.haloHeight && c < s.haloWidth
      ensures Cell(s.haloHeight, s.haloWidth, u, r, c) == Cell(s.haloHeight, s.haloWidth, v, r, c)
    {
      var d := Halo(s, u, r, c) - Halo(s, v, r, c);
      var eps := if d < 0.0 then -d / 2.0 else if d > 0.0 then d / 2.0 else 1.0;
      SolutionsAreClose(pr, p, u, v, eps);
      assert Bounded(d, eps);
    }
    Extensional(s.haloHeight, s.haloWidth, u, v);
  }
}
