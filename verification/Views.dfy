/** Tensor metadata, the five directional views of a haloed source, and the 16x16 tiling of an interior. */
module Views {
  import opened Errors
  import opened Grids
  import opened Shape

  /** A backend tensor: an allocation and the metadata the backend reports for it. */
  datatype Tensor = Tensor(alloc: Alloc, dims: seq<int>, strides: seq<int>, device: nat)

  /** The metadata of a compact row-major allocation. */
  function Compact(alloc: Alloc, rows: nat, cols: nat, device: nat): Tensor {
    Tensor(alloc, [rows, cols], [cols, 1], device)
  }

  // usize::try_from(actual) == Ok(expected), on both axes
  predicate MatchesMetadata(actual: seq<int>, expected: (nat, nat)) {
    |actual| == 2 && actual[0] >= 0 && actual[0] == expected.0 && actual[1] >= 0 && actual[1] == expected.1
  }

  /** A strided, zero-copy window of an allocation. */
  datatype View = View(offset: int, dims: seq<int>, strides: seq<int>)

  /** tensor.slice(&[r0..r1, c0..c1]) */
  function SliceOf(t: Tensor, r0: nat, r1: nat, c0: nat, c1: nat): Result<View> {
    if |t.dims| != 2 || |t.strides| != 2 || r0 > r1 || r1 > t.dims[0] || c0 > c1 || c1 > t.dims[1] then
      Err(Backend(Slice))
    else Ok(View(r0 * t.strides[0] + c0 * t.strides[1], [r1 - r0, c1 - c0], t.strides))
  }

  datatype ReadViews = ReadViews(center: View, north: View, south: View, east: View, west: View)

  predicate ViewMatches(s: Shape2D, v: View) {
    MatchesMetadata(v.dims, (s.height, s.width)) && MatchesMetadata(v.strides, (s.haloWidth, 1))
  }

  function DirectionalViews(s: Shape2D, t: Tensor): Result<ReadViews> {
    var center :- SliceOf(t, 1, s.height + 1, 1, s.width + 1);
    var north :- SliceOf(t, 0, s.height, 1, s.width + 1);
    var south :- SliceOf(t, 2, s.haloHeight, 1, s.width + 1);
    var east :- SliceOf(t, 1, s.height + 1, 2, s.haloWidth);
    var west :- SliceOf(t, 1, s.height + 1, 0, s.width);
    if ViewMatches(s, center) && ViewMatches(s, north) && ViewMatches(s, south) && ViewMatches(s, east) &&
      ViewMatches(s, west) then
      Ok(ReadViews(center, north, south, east, west))
    else
      Err(Backend(Views))
  }

  /** The flat index of element (i, j) of a view. */
  function ViewIndex(v: View, i: nat, j: nat): int
    requires |v.strides| == 2
  {
    v.offset + i * v.strides[0] + j * v.strides[1]
  }

  /** Element (i, j) of a view is a cell of the haloed grid, displaced by (dr, dc). */
  ghost predicate Displaces(s: Shape2D, v: View, dr: nat, dc: nat) {
    && |v.strides| == 2
    && forall i: nat, j: nat :: i < s.height && j < s.width ==>
         ViewIndex(v, i, j) == At(s.haloWidth, i + dr, j + dc) < s.haloedLen
  }

  lemma SliceDisplaces(s: Shape2D, v: View, dr: nat, dc: nat)
    requires s.Valid() && dr <= 2 && dc <= 2 && v.offset == dr * s.haloWidth + dc && v.strides == [s.haloWidth, 1]
    ensures Displaces(s, v, dr, dc)
  {
    forall i: nat, j: nat | i < s.height && j < s.width
      ensures ViewIndex(v, i, j) == At(s.haloWidth, i + dr, j + dc) < s.haloedLen {
      AtBounds(s.haloHeight, s.haloWidth, i + dr, j + dc);
      Distributes(i, dr, s.haloWidth);
    }
  }

  /** Each view reads its own neighbour, in bounds: no two directions can be confused. */
  ghost predicate Directed(s: Shape2D, views: ReadViews) {
    && Displaces(s, views.center, 1, 1)
    && Displaces(s, views.north, 0, 1)
    && Displaces(s, views.south, 2, 1)
    && Displaces(s, views.east, 1, 2)
    && Displaces(s, views.west, 1, 0)
  }

  /** Building the views of a compact haloed source never fails. */
  lemma ViewsAreDirected(s: Shape2D, alloc: Alloc, device: nat)
    requires s.Valid()
    ensures var views := DirectionalViews(s, Compact(alloc, s.haloHeight, s.haloWidth, device));
            views.Ok? && Directed(s, views.value)
  {
    var views := DirectionalViews(s, Compact(alloc, s.haloHeight, s.haloWidth, device)).value;
    SliceDisplaces(s, views.center, 1, 1);
    SliceDisplaces(s, views.north, 0, 1);
    SliceDisplaces(s, views.south, 2, 1);
    SliceDisplaces(s, views.east, 1, 2);
    SliceDisplaces(s, views.west, 1, 0);
  }

  /** Tile (ty, tx) covers these interior cells, partial at the far edges. */
  predicate InTile(ty: nat, tx: nat, r: nat, c: nat) {
    16 * ty <= r < 16 * ty + 16 && 16 * tx <= c < 16 * tx + 16
  }

  ghost predicate IsTile(s: Shape2D, tile: (nat, nat)) { tile.0 < s.blocksY && tile.1 < s.blocksX }

  /** The launch grid partitions the interior: every cell is in exactly one tile. */
  lemma TilesPartition(s: Shape2D, r: nat, c: nat)
    requires s.Valid() && r < s.height && c < s.width
    ensures IsTile(s, (r / 16, c / 16)) && InTile(r / 16, c / 16, r, c)
    ensures forall y: nat, x: nat :: InTile(y, x, r, c) ==> y == r / 16 && x == c / 16
  {
  }

  /** No tile of the launch grid is empty. */
  lemma TilesNotEmpty(s: Shape2D, tile: (nat, nat))
    requires s.Valid() && IsTile(s, tile)
    ensures 16 * tile.0 < s.height && 16 * tile.1 < s.width
  {
  }
}
