/** Which inputs a cell can depend on, over uninterpreted arithmetic. */
module Dependence {
  import opened Shape
  import opened Stencil

  function Gap(a: nat, b: nat): nat { if a < b then b - a else a - b }

  /** Manhattan distance. */
  function Distance(r: nat, c: nat, i: nat, j: nat): nat { Gap(r, i) + Gap(c, j) }

  predicate Corner(s: Shape2D, r: nat, c: nat) {
    (r == 0 || r == s.height + 1) && (c == 0 || c == s.width + 1)
  }

  /** u and v agree on every cell within distance n of (r, c), corners excepted. */
  ghost predicate GridsAgree<V>(s: Shape2D, u: seq<V>, v: seq<V>, r: nat, c: nat, n: nat)
    requires s.Valid() && |u| == |v| == s.haloedLen
  {
    forall i: nat, j: nat :: i < s.haloHeight && j < s.haloWidth && Distance(r, c, i, j) <= n && !Corner(s, i, j) ==>
      Halo(s, u, i, j) == Halo(s, v, i, j)
  }

  /** f and g agree on every interior cell within distance n - 1 of (r, c). */
  ghost predicate ForcingsAgree<V>(s: Shape2D, f: seq<V>, g: seq<V>, r: nat, c: nat, n: nat)
    requires s.Valid() && |f| == |g| == s.interiorLen
  {
    forall i: nat, j: nat :: i < s.height && j < s.width && Distance(r, c, i + 1, j + 1) < n ==>
      Inner(s, f, i, j) == Inner(s, g, i, j)
  }

  lemma AgreementShrinks<V>(s: Shape2D, u: seq<V>, v: seq<V>, f: seq<V>, g: seq<V>, r: nat, c: nat, r': nat, c': nat,
                            n: nat)
    requires s.Valid() && |u| == |v| == s.haloedLen && |f| == |g| == s.interiorLen
    requires n > 0 && Distance(r, c, r', c') <= 1
    requires GridsAgree(s, u, v, r, c, n) && ForcingsAgree(s, f, g, r, c, n)
    ensures GridsAgree(s, u, v, r', c', n - 1) && ForcingsAgree(s, f, g, r', c', n - 1)
  {
    forall i: nat, j: nat | Distance(r', c', i, j) <= n - 1 ensures Distance(r, c, i, j) <= n {}
    forall i: nat, j: nat | Distance(r', c', i, j) < n - 1 ensures Distance(r, c, i, j) < n {}
  }

  lemma StepDepends<V>(pr: Problem<V>, qr: Problem<V>, p: JacobiParams<V>, u: seq<V>, v: seq<V>, r: nat, c: nat)
    requires pr.Fits(u) && qr.Fits(v) && qr.ops == pr.ops && qr.shape == pr.shape
    requires r < pr.shape.haloHeight && c < pr.shape.haloWidth && !Corner(pr.shape, r, c)
    requires GridsAgree(pr.shape, u, v, r, c, 1) && ForcingsAgree(pr.shape, pr.forcing, qr.forcing, r, c, 1)
    ensures Halo(pr.shape, Step(pr, p, u), r, c) == Halo(pr.shape, Step(qr, p, v), r, c)
  {
    var s := pr.shape;
    if InInterior(s, r, c) {
      assert Distance(r, c, r - 1 + 1, c - 1 + 1) == 0;
      assert Inner(s, pr.forcing, r - 1, c - 1) == Inner(s, qr.forcing, r - 1, c - 1);
      assert Halo(s, u, r, c) == Halo(s, v, r, c);
      assert Halo(s, u, r - 1, c) == Halo(s, v, r - 1, c) && Halo(s, u, r + 1, c) == Halo(s, v, r + 1, c);
      assert Halo(s, u, r, c + 1) == Halo(s, v, r, c + 1) && Halo(s, u, r, c - 1) == Halo(s, v, r, c - 1);
    }
    assert Update(pr, p, u, r, c) == Update(qr, p, v, r, c);
  }

  /**
   * After n steps a cell is determined by the initial cells within distance n and the right-hand
   * side within distance n - 1; the corners determine nothing but themselves.
   */
  lemma {:induction false} DomainOfDependence<V>(pr: Problem<V>, qr: Problem<V>, u: seq<V>, v: seq<V>,
      ps: seq<JacobiParams<V>>, r: nat, c: nat)
    requires pr.Fits(u) && qr.Fits(v) && qr.ops == pr.ops && qr.shape == pr.shape
    requires r < pr.shape.haloHeight && c < pr.shape.haloWidth && !Corner(pr.shape, r, c)
    requires GridsAgree(pr.shape, u, v, r, c, |ps|) && ForcingsAgree(pr.shape, pr.forcing, qr.forcing, r, c, |ps|)
    ensures Halo(pr.shape, Evolve(pr, u, ps), r, c) == Halo(pr.shape, Evolve(qr, v, ps), r, c)
    decreases |ps|
  {
    var s := pr.shape;
    if ps == [] {
      assert Distance(r, c, r, c) == 0;
    } else {
      var rest := ps[..|ps| - 1];
      var u', v' := Evolve(pr, u, rest), Evolve(qr, v, rest);
      forall i: nat, j: nat | i < s.haloHeight && j < s.haloWidth && Distance(r, c, i, j) <= 1 && !Corner(s, i, j)
        ensures Halo(s, u', i, j) == Halo(s, v', i, j)
      {
        AgreementShrinks(s, u, v, pr.forcing, qr.forcing, r, c, i, j, |ps|);
        DomainOfDependence(pr, qr, u, v, rest, i, j);
      }
      StepDepends(pr, qr, ps[|ps| - 1], u', v', r, c);
    }
  }

  /** Grids that differ only in their corners evolve identically everywhere else. */
  lemma CornersUnused<V>(pr: Problem<V>, u: seq<V>, v: seq<V>, ps: seq<JacobiParams<V>>, r: nat, c: nat)
    requires pr.Fits(u) && pr.Fits(v)
    requires forall i: nat, j: nat :: i < pr.shape.haloHeight && j < pr.shape.haloWidth && !Corner(pr.shape, i, j) ==>
               Halo(pr.shape, u, i, j) == Halo(pr.shape, v, i, j)
    requires r < pr.shape.haloHeight && c < pr.shape.haloWidth && !Corner(pr.shape, r, c)
    ensures Halo(pr.shape, Evolve(pr, u, ps), r, c) == Halo(pr.shape, Evolve(pr, v, ps), r, c)
  {
    DomainOfDependence(pr, pr, u, v, ps, r, c);
  }
}
