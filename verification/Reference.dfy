/** The scalar CPU loops (src/reference.rs), and the iterated oracle built from them. */
module Reference {
  import opened Errors
  import opened Grids
  import opened Shape
  import opened Stencil

  /** The flat indices around interior cell (row, column) of a haloed grid. */
  lemma IndicesAround(rows: nat, stride: nat, row: nat, column: nat, index: int)
    requires row + 2 < rows && column + 2 < stride
    requires index == (row + 1) * stride + column + 1
    ensures stride <= index && index + stride < rows * stride
    ensures index - stride == At(stride, row, column + 1)
    ensures index + stride == At(stride, row + 2, column + 1)
    ensures index + 1 == At(stride, row + 1, column + 2)
    ensures index - 1 == At(stride, row + 1, column)
    ensures index == At(stride, row + 1, column + 1)
  {
    assert (row + 1) * stride == row * stride + stride;
    assert (row + 2) * stride == row * stride + 2 * stride;
    AtBounds(rows, stride, row + 2, column + 1);
  }

  /** Every index the loops compute is in range and names the neighbour it is meant to name. */
  lemma Neighbours<V>(s: Shape2D, u: seq<V>, row: nat, column: nat, index: int)
    requires s.Valid() && |u| == s.haloedLen && row < s.height && column < s.width
    requires index == (row + 1) * s.haloWidth + column + 1
    ensures s.haloWidth <= index && index + s.haloWidth < |u|
    ensures u[index] == Halo(s, u, row + 1, column + 1)
    ensures u[index - s.haloWidth] == Halo(s, u, row, column + 1)
    ensures u[index + s.haloWidth] == Halo(s, u, row + 2, column + 1)
    ensures u[index + 1] == Halo(s, u, row + 1, column + 2)
    ensures u[index - 1] == Halo(s, u, row + 1, column)
  {
    IndicesAround(s.haloHeight, s.haloWidth, row, column, index);
  }

  /** What each loop computes at (row, column), by cells. */
  lemma JacobiFieldCell<V>(pr: Problem<V>, p: JacobiParams<V>, u: seq<V>, row: nat, column: nat)
    requires pr.Fits(u) && row < pr.shape.height && column < pr.shape.width
    ensures var s := pr.shape;
            Inner(s, JacobiField(pr, p, u), row, column) ==
            JacobiCell(pr.ops, p, Halo(s, u, row + 1, column + 1), Halo(s, u, row, column + 1),
                       Halo(s, u, row + 2, column + 1),
                       Halo(s, u, row + 1, column + 2), Halo(s, u, row + 1, column), Inner(s, pr.forcing, row, column))
  {
    assert Inner(pr.shape, JacobiField(pr, p, u), row, column) == Update(pr, p, u, row + 1, column + 1);
    var a := Around(pr, u, row + 1, column + 1);
    assert a[5] == Inner(pr.shape, pr.forcing, row, column);
    UpdateOf(pr, p, u, row + 1, column + 1);
  }

  lemma LaplacianFieldCell<V>(ops: Arith<V>, s: Shape2D, p: LaplacianParams<V>, u: seq<V>, row: nat, column: nat)
    requires s.Valid() && |u| == s.haloedLen && row < s.height && column < s.width
    ensures Inner(s, LaplacianField(ops, s, p, u), row, column) ==
            LaplacianCell(ops, p, Halo(s, u, row + 1, column + 1), Halo(s, u, row, column + 1),
                          Halo(s, u, row + 2, column + 1),
                          Halo(s, u, row + 1, column + 2), Halo(s, u, row + 1, column))
  {
    assert Inner(s, LaplacianField(ops, s, p, u), row, column) == LaplacianAt(ops, s, p, u, row + 1, column + 1);
  }

  /** The flat index the loops write, and read of the right-hand side. */
  lemma InnerIndex<V>(s: Shape2D, f: seq<V>, row: nat, column: nat, cell: int)
    requires s.Valid() && |f| == s.interiorLen && row < s.height && column < s.width && cell == row * s.width + column
    ensures cell == At(s.width, row, column) && 0 <= cell < |f| && f[cell] == Inner(s, f, row, column)
  {
    AtBounds(s.height, s.width, row, column);
  }

  /** The cells of v before (row, column) in row-major order agree with the target. */
  ghost predicate Filled<V>(rows: nat, cols: nat, v: seq<V>, target: seq<V>, row: nat, column: nat) {
    && |v| == |target| == rows * cols
    && forall r: nat, c: nat :: r < rows && c < cols && (r < row || (r == row && c < column)) ==>
         Cell(rows, cols, v, r, c) == Cell(rows, cols, target, r, c)
  }

  lemma FilledNext<V>(rows: nat, cols: nat, v: seq<V>, v': seq<V>, target: seq<V>, row: nat, column: nat)
    requires row < rows && column < cols && Filled(rows, cols, v, target, row, column)
    requires At(cols, row, column) < |v|
    requires v' == v[At(cols, row, column) := Cell(rows, cols, target, row, column)]
    ensures Filled(rows, cols, v', target, row, column + 1)
  {
    assert v' == Put(rows, cols, v, row, column, Cell(rows, cols, target, row, column));
  }

  /** The checks and then the double loop of jacobi_into: every cell of the field, or nothing. */
  method JacobiInto<V>(ops: Arith<V>, s: Shape2D, haloed: array<V>, rhs: array<V>, output: array<V>, p: JacobiParams<V>)
    returns (result: Result<()>)
    requires s.Valid() && output != haloed && output != rhs
    modifies output
    ensures result.Ok? <==>
              haloed.Length == s.haloedLen && rhs.Length == s.interiorLen && output.Length == s.interiorLen
    ensures result.Ok? ==> output[..] == JacobiField(Problem(ops, s, rhs[..]), p, haloed[..])
    ensures result.Err? ==> output[..] == old(output[..])
    ensures haloed.Length != s.haloedLen ==> result == Err(LengthMismatch(Source, s.haloedLen, haloed.Length))
    ensures haloed.Length == s.haloedLen && rhs.Length != s.interiorLen ==>
              result == Err(LengthMismatch(Rhs, s.interiorLen, rhs.Length))
    ensures haloed.Length == s.haloedLen && rhs.Length == s.interiorLen != output.Length ==>
              result == Err(LengthMismatch(Output, s.interiorLen, output.Length))
  {
    result := CheckLen(Source, s.haloedLen, haloed.Length);
    if result.Err? { return; }
    result := CheckLen(Rhs, s.interiorLen, rhs.Length);
    if result.Err? { return; }
    result := CheckLen(Output, s.interiorLen, output.Length);
    if result.Err? { return; }
    ghost var target := JacobiField(Problem(ops, s, rhs[..]), p, haloed[..]);
    var stride := s.width + 2;
    for row := 0 to s.height
      invariant Filled(s.height, s.width, output[..], target, row, 0)
    {
      for column := 0 to s.width
        invariant Filled(s.height, s.width, output[..], target, row, column)
      {
        var index := (row + 1) * stride + column + 1;
        var cell := row * s.width + column;
        Neighbours(s, haloed[..], row, column, index);
        InnerIndex(s, rhs[..], row, column, cell);
        JacobiFieldCell(Problem(ops, s, rhs[..]), p, haloed[..], row, column);
        var sum :=
          ops.add(ops.add(ops.add(haloed[index - stride], haloed[index + stride]), haloed[index + 1]),
                  haloed[index - 1]);
        var candidate := ops.mul(ops.quarter, ops.sub(sum, ops.mul(p.hSquared, rhs[cell])));
        ghost var before := output[..];
        output[cell] := ops.add(ops.mul(ops.sub(ops.one, p.omega), haloed[index]), ops.mul(p.omega, candidate));
        assert output[cell] == Inner(s, target, row, column);
        FilledNext(s.height, s.width, before, output[..], target, row, column);
      }
    }
    Extensional(s.height, s.width, output[..], target);
  }

  /** laplacian_into: the same for the Laplacian, with no right-hand side. */
  method LaplacianInto<V>(ops: Arith<V>, s: Shape2D, haloed: array<V>, output: array<V>, p: LaplacianParams<V>)
    returns (result: Result<()>)
    requires s.Valid() && output != haloed
    modifies output
    ensures result.Ok? <==> haloed.Length == s.haloedLen && output.Length == s.interiorLen
    ensures result.Ok? ==> output[..] == LaplacianField(ops, s, p, haloed[..])
    ensures result.Err? ==> output[..] == old(output[..])
    ensures haloed.Length != s.haloedLen ==> result == Err(LengthMismatch(Source, s.haloedLen, haloed.Length))
    ensures haloed.Length == s.haloedLen && output.Length != s.interiorLen ==>
              result == Err(LengthMismatch(Output, s.interiorLen, output.Length))
  {
    result := CheckLen(Source, s.haloedLen, haloed.Length);
    if result.Err? { return; }
    result := CheckLen(Output, s.interiorLen, output.Length);
    if result.Err? { return; }
    ghost var target := LaplacianField(ops, s, p, haloed[..]);
    var stride := s.width + 2;
    for row := 0 to s.height
      invariant Filled(s.height, s.width, output[..], target, row, 0)
    {
      for column := 0 to s.width
        invariant Filled(s.height, s.width, output[..], target, row, column)
      {
        var index := (row + 1) * stride + column + 1;
        var cell := row * s.width + column;
        Neighbours(s, haloed[..], row, column, index);
        InnerIndex(s, target, row, column, cell);
        LaplacianFieldCell(ops, s, p, haloed[..], row, column);
        var sum :=
          ops.add(ops.add(ops.add(haloed[index - stride], haloed[index + stride]), haloed[index + 1]),
                  haloed[index - 1]);
        ghost var before := output[..];
        output[cell] := ops.mul(ops.sub(sum, ops.mul(ops.four, haloed[index])), p.inverseHSquared);
        assert output[cell] == Inner(s, target, row, column);
        FilledNext(s.height, s.width, before, output[..], target, row, column);
      }
    }
    Extensional(s.height, s.width, output[..], target);
  }

  /** The rows of a haloed grid already overwritten by a finished interior, up to (row, column). */
  ghost predicate CopiedBack<V>(s: Shape2D, u: seq<V>, u': seq<V>, v: seq<V>, row: nat, column: nat)
    requires s.Valid() && |u| == s.haloedLen && |v| == s.interiorLen
  {
    && |u'| == s.haloedLen
    && forall r: nat, c: nat :: r < s.haloHeight && c < s.haloWidth ==>
         Halo(s, u', r, c) ==
         (if InInterior(s, r, c) && (r - 1 < row || (r - 1 == row && c - 1 < column)) then Inner(s, v, r - 1, c - 1)
          else Halo(s, u, r, c))
  }

  /** Copies a finished interior back into the haloed oracle, row by row. */
  method WriteBack<V>(s: Shape2D, oracle: array<V>, output: array<V>)
    requires s.Valid() && oracle != output && oracle.Length == s.haloedLen && output.Length == s.interiorLen
    modifies oracle
    ensures oracle[..] == WithInterior(s, old(oracle[..]), output[..])
  {
    ghost var u := oracle[..];
    for row := 0 to s.height
      invariant CopiedBack(s, u, oracle[..], output[..], row, 0)
    {
      var start := (row + 1) * (s.width + 2) + 1;
      for column := 0 to s.width
        invariant CopiedBack(s, u, oracle[..], output[..], row, column)
      {
        Neighbours(s, oracle[..], row, column, start + column);
        AtBounds(s.height, s.width, row, column);
        ghost var before := oracle[..];
        oracle[start + column] := output[row * s.width + column];
        CopiedNext(s, u, before, oracle[..], output[..], row, column);
      }
    }
    Extensional(s.haloHeight, s.haloWidth, oracle[..], WithInterior(s, u, output[..]));
  }

  lemma CopiedNext<V>(s: Shape2D, u: seq<V>, before: seq<V>, after: seq<V>, v: seq<V>, row: nat, column: nat)
    requires s.Valid() && |u| == s.haloedLen && |v| == s.interiorLen && row < s.height && column < s.width
    requires CopiedBack(s, u, before, v, row, column)
    requires At(s.haloWidth, row + 1, column + 1) < |before|
    requires after == before[At(s.haloWidth, row + 1, column + 1) := Inner(s, v, row, column)]
    ensures CopiedBack(s, u, after, v, row, column + 1)
  {
    assert after == Put(s.haloHeight, s.haloWidth, before, row + 1, column + 1, Inner(s, v, row, column));
  }

  /** The sequential oracle: n rounds of JacobiInto and write-back reach generation n. */
  method Oracle<V>(ops: Arith<V>, s: Shape2D, oracle: array<V>, rhs: array<V>, output: array<V>, p: JacobiParams<V>,
                   n: nat)
    requires s.Valid() && oracle.Length == s.haloedLen && rhs.Length == output.Length == s.interiorLen
    requires oracle != output && oracle != rhs && output != rhs
    modifies oracle, output
    ensures oracle[..] == Evolve(Problem(ops, s, rhs[..]), old(oracle[..]), Repeat(p, n))
  {
    ghost var pr, u := Problem(ops, s, rhs[..]), oracle[..];
    for i := 0 to n
      invariant rhs[..] == pr.forcing
      invariant oracle[..] == Evolve(pr, u, Repeat(p, i))
    {
      var _ := JacobiInto(ops, s, oracle, rhs, output, p);
      WriteBackIsStep(pr, p, oracle[..]);
      WriteBack(s, oracle, output);
      assert Repeat(p, i + 1)[..i] == Repeat(p, i);
    }
  }
}
