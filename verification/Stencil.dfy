/**
 * The five-point stencils over uninterpreted arithmetic.
 *
 * Nothing is assumed of the operations, so every equality proved here holds bit for bit in any
 * arithmetic that both sides share, NaN and infinity included: only the association order counts.
 */
module Stencil {
  import opened Grids
  import opened Shape

  datatype Arith<!V> = Arith(add: (V, V) -> V, sub: (V, V) -> V, mul: (V, V) -> V, one: V, quarter: V, four: V)

  /** Exact arithmetic. The library computes in f32; the algebraic results hold of this instance only. */
  const REAL_OPS: Arith<real> :=
    Arith((x: real, y: real) => x + y, (x: real, y: real) => x - y, (x: real, y: real) => x * y, 1.0, 0.25, 4.0)

  datatype JacobiParams<V> = JacobiParams(omega: V, hSquared: V)

  datatype LaplacianParams<V> = LaplacianParams(inverseHSquared: V)

  /** What stays fixed while a grid evolves: the arithmetic, the shape and the right-hand side. */
  datatype Problem<!V> = Problem(ops: Arith<V>, shape: Shape2D, forcing: seq<V>) {
    ghost predicate Valid() { shape.Valid() && |forcing| == shape.interiorLen }

    ghost predicate Fits(u: seq<V>) { Valid() && |u| == shape.haloedLen }
  }

  function JacobiCell<V>(ops: Arith<V>, p: JacobiParams<V>, center: V, north: V, south: V, east: V, west: V,
                         forcing: V): V {
    var sum := ops.add(ops.add(ops.add(north, south), east), west);
    var candidate := ops.mul(ops.quarter, ops.sub(sum, ops.mul(p.hSquared, forcing)));
    ops.add(ops.mul(ops.sub(ops.one, p.omega), center), ops.mul(p.omega, candidate))
  }

  function LaplacianCell<V>(ops: Arith<V>, p: LaplacianParams<V>, center: V, north: V, south: V, east: V, west: V): V {
    var sum := ops.add(ops.add(ops.add(north, south), east), west);
    ops.mul(ops.sub(sum, ops.mul(ops.four, center)), p.inverseHSquared)
  }

  /** Cell (r, c) of a haloed grid. */
  function Halo<V>(s: Shape2D, u: seq<V>, r: nat, c: nat): V
    requires s.Valid() && |u| == s.haloedLen && r < s.haloHeight && c < s.haloWidth
  {
    Cell(s.haloHeight, s.haloWidth, u, r, c)
  }

  /** Cell (r, c) of an interior field, in interior coordinates. */
  function Inner<V>(s: Shape2D, v: seq<V>, r: nat, c: nat): V
    requires s.Valid() && |v| == s.interiorLen && r < s.height && c < s.width
  {
    Cell(s.height, s.width, v, r, c)
  }

  predicate InInterior(s: Shape2D, r: nat, c: nat) { 1 <= r <= s.height && 1 <= c <= s.width }

  /** One step at one haloed cell: the stencil in the interior, a copy on the halo. */
  function Update<V>(pr: Problem<V>, p: JacobiParams<V>, u: seq<V>, r: nat, c: nat): V
    requires pr.Fits(u) && r < pr.shape.haloHeight && c < pr.shape.haloWidth
  {
    var s := pr.shape;
    if InInterior(s, r, c) then
      JacobiCell(pr.ops, p, Halo(s, u, r, c), Halo(s, u, r - 1, c), Halo(s, u, r + 1, c),
                 Halo(s, u, r, c + 1), Halo(s, u, r, c - 1), Inner(s, pr.forcing, r - 1, c - 1))
    else
      Halo(s, u, r, c)
  }

  /** The six operands of the stencil at an interior cell, in the order the kernel loads them. */
  function Around<V>(pr: Problem<V>, u: seq<V>, r: nat, c: nat): seq<V>
    requires pr.Fits(u) && InInterior(pr.shape, r, c)
  {
    var s := pr.shape;
    [Halo(s, u, r, c), Halo(s, u, r - 1, c), Halo(s, u, r + 1, c), Halo(s, u, r, c + 1), Halo(s, u, r, c - 1),
     Inner(s, pr.forcing, r - 1, c - 1)]
  }

  lemma UpdateOf<V>(pr: Problem<V>, p: JacobiParams<V>, u: seq<V>, r: nat, c: nat)
    requires pr.Fits(u) && InInterior(pr.shape, r, c)
    ensures var a := Around(pr, u, r, c);
            Update(pr, p, u, r, c) == JacobiCell(pr.ops, p, a[0], a[1], a[2], a[3], a[4], a[5])
  {
  }

  function LaplacianAt<V>(ops: Arith<V>, s: Shape2D, p: LaplacianParams<V>, u: seq<V>, r: nat, c: nat): V
    requires s.Valid() && |u| == s.haloedLen && InInterior(s, r, c)
  {
    LaplacianCell(ops, p, Halo(s, u, r, c), Halo(s, u, r - 1, c), Halo(s, u, r + 1, c), Halo(s, u, r, c + 1),
                  Halo(s, u, r, c - 1))
  }

  /** One step on a whole haloed grid. */
  function Step<V>(pr: Problem<V>, p: JacobiParams<V>, u: seq<V>): (u': seq<V>)
    requires pr.Fits(u)
    ensures pr.Fits(u')
    ensures forall r: nat, c: nat :: r < pr.shape.haloHeight && c < pr.shape.haloWidth ==>
              Halo(pr.shape, u', r, c) == Update(pr, p, u, r, c)
  {
    Tabulate(pr.shape.haloHeight, pr.shape.haloWidth,
      (r: nat, c: nat) requires r < pr.shape.haloHeight && c < pr.shape.haloWidth => Update(pr, p, u, r, c))
  }

  /** The interior field one Jacobi update produces. */
  function JacobiField<V>(pr: Problem<V>, p: JacobiParams<V>, u: seq<V>): (v: seq<V>)
    requires pr.Fits(u)
    ensures |v| == pr.shape.interiorLen
    ensures forall r: nat, c: nat :: r < pr.shape.height && c < pr.shape.width ==>
              Inner(pr.shape, v, r, c) == Update(pr, p, u, r + 1, c + 1)
  {
    Tabulate(pr.shape.height, pr.shape.width,
      (r: nat, c: nat) requires r < pr.shape.height && c < pr.shape.width => Update(pr, p, u, r + 1, c + 1))
  }

  function LaplacianField<V>(ops: Arith<V>, s: Shape2D, p: LaplacianParams<V>, u: seq<V>): (v: seq<V>)
    requires s.Valid() && |u| == s.haloedLen
    ensures |v| == s.interiorLen
    ensures forall r: nat, c: nat :: r < s.height && c < s.width ==>
              Inner(s, v, r, c) == LaplacianAt(ops, s, p, u, r + 1, c + 1)
  {
    Tabulate(s.height, s.width,
      (r: nat, c: nat) requires r < s.height && c < s.width => LaplacianAt(ops, s, p, u, r + 1, c + 1))
  }

  /** A haloed grid with its interior replaced by a field. */
  function WithInterior<V>(s: Shape2D, u: seq<V>, v: seq<V>): (u': seq<V>)
    requires s.Valid() && |u| == s.haloedLen && |v| == s.interiorLen
    ensures |u'| == s.haloedLen
    ensures forall r: nat, c: nat :: r < s.haloHeight && c < s.haloWidth ==>
              Halo(s, u', r, c) == if InInterior(s, r, c) then Inner(s, v, r - 1, c - 1) else Halo(s, u, r, c)
  {
    Tabulate(s.haloHeight, s.haloWidth,
      (r: nat, c: nat) requires r < s.haloHeight && c < s.haloWidth =>
        if InInterior(s, r, c) then Inner(s, v, r - 1, c - 1) else Halo(s, u, r, c))
  }

  /** An interior update written back into its own grid is exactly one haloed step. */
  lemma WriteBackIsStep<V>(pr: Problem<V>, p: JacobiParams<V>, u: seq<V>)
    requires pr.Fits(u)
    ensures WithInterior(pr.shape, u, JacobiField(pr, p, u)) == Step(pr, p, u)
  {
    var s := pr.shape;
    var back, step := WithInterior(s, u, JacobiField(pr, p, u)), Step(pr, p, u);
    forall r: nat, c: nat | r < s.haloHeight && c < s.haloWidth
      ensures Cell(s.haloHeight, s.haloWidth, back, r, c) == Cell(s.haloHeight, s.haloWidth, step, r, c)
    {
      assert Halo(s, back, r, c) == Halo(s, step, r, c) == Update(pr, p, u, r, c);
    }
    Extensional(s.haloHeight, s.haloWidth, back, step);
  }

  /** The grid after one step for each of the given parameters, in order. */
  function Evolve<V>(pr: Problem<V>, u: seq<V>, ps: seq<JacobiParams<V>>): (u': seq<V>)
    requires pr.Fits(u)
    ensures pr.Fits(u')
  {
    if ps == [] then u else Step(pr, ps[|ps| - 1], Evolve(pr, u, ps[..|ps| - 1]))
  }

  function Repeat<V>(p: JacobiParams<V>, n: nat): seq<JacobiParams<V>> { seq(n, _ => p) }

  /** Batches compose: evolving through ps and then qs is evolving through ps + qs. */
  lemma {:induction false} EvolveConcat<V>(pr: Problem<V>, u: seq<V>, ps: seq<JacobiParams<V>>,
                                           qs: seq<JacobiParams<V>>)
    requires pr.Fits(u)
    ensures Evolve(pr, Evolve(pr, u, ps), qs) == Evolve(pr, u, ps + qs)
    decreases |qs|
  {
    if qs == [] {
      assert ps + qs == ps;
    } else {
      EvolveConcat(pr, u, ps, qs[..|qs| - 1]);
      assert (ps + qs)[..|ps + qs| - 1] == ps + qs[..|qs| - 1];
    }
  }

  /** No step ever changes the halo, corners included. */
  lemma {:induction false} EvolveKeepsHalo<V>(pr: Problem<V>, u: seq<V>, ps: seq<JacobiParams<V>>, r: nat, c: nat)
    requires pr.Fits(u) && r < pr.shape.haloHeight && c < pr.shape.haloWidth && !InInterior(pr.shape, r, c)
    ensures Halo(pr.shape, Evolve(pr, u, ps), r, c) == Halo(pr.shape, u, r, c)
    decreases |ps|
  {
    if ps != [] { EvolveKeepsHalo(pr, u, ps[..|ps| - 1], r, c); }
  }
}
