/** Checked geometry of a 2D interior and its one-cell halo (src/shape.rs). */
module Shape {
  import opened Errors

  const TILE: nat := 16
  const MAX_BLOCKS: nat := 65_535
  const I32_MAX: nat := 0x7FFF_FFFF
  const U32_MAX: nat := 0xFFFF_FFFF
  const U16_MAX: nat := 0xFFFF

  /** A machine word, by the largest signed value it holds. */
  datatype Word = Word(isizeMax: nat) {
    function UsizeMax(): nat { 2 * isizeMax + 1 }

    // The library casts i32::MAX to usize, so a word has at least 32 bits.
    ghost predicate Supported() { I32_MAX <= isizeMax }
  }

  const WORD64 := Word(0x7FFF_FFFF_FFFF_FFFF)

  datatype Shape2D = Shape2D(
    height: nat, width: nat,
    haloHeight: nat, haloWidth: nat,
    interiorLen: nat, haloedLen: nat,
    interiorBytes: nat, haloedBytes: nat,
    blocksY: nat, blocksX: nat)
  {
    /** Every stored field has its mathematical value, and fits the type that stores it. */
    ghost predicate Valid() {
      && 1 <= height && 1 <= width
      && haloHeight == height + 2 && haloWidth == width + 2
      && interiorLen == height * width
      && haloedLen == haloHeight * haloWidth <= I32_MAX
      && interiorBytes == 4 * interiorLen
      && haloedBytes == 4 * haloedLen
      && TILE * (blocksY - 1) < height <= TILE * blocksY && blocksY <= MAX_BLOCKS
      && TILE * (blocksX - 1) < width <= TILE * blocksX && blocksX <= MAX_BLOCKS
    }
  }

  function CheckedAdd(word: Word, left: nat, right: nat, operation: Arithmetic): Result<nat> {
    if left + right > word.UsizeMax() then Err(ShapeOverflow(operation)) else Ok(left + right)
  }

  function Product(word: Word, left: nat, right: nat, operation: Arithmetic): Result<nat> {
    if left * right > word.UsizeMax() then Err(ShapeOverflow(operation)) else Ok(left * right)
  }

  function Limit(quantity: Quantity, actual: nat, maximum: nat): Result<()> {
    if actual > maximum then Err(ShapeLimit(quantity, actual, maximum)) else Ok(())
  }

  // u32::try_from
  function ElementCount(count: nat): Result<nat> {
    if count > U32_MAX then Err(ShapeLimit(QMetadataElements, count, I32_MAX)) else Ok(count)
  }

  // u16::try_from
  function BlockCount(blocks: nat): Result<nat> {
    if blocks > U16_MAX then Err(ShapeLimit(QLaunchBlocks, blocks, MAX_BLOCKS)) else Ok(blocks)
  }

  function DivCeil(count: nat, size: nat): nat
    requires size > 0
  {
    count / size + if count % size > 0 then 1 else 0
  }

  /** Validates an interior in the order the library documents. */
  function New(word: Word, height: nat, width: nat): Result<Shape2D>
    requires height <= word.UsizeMax() && width <= word.UsizeMax()
  {
    if height == 0 then Err(EmptyInterior(Height))
    else if width == 0 then Err(EmptyInterior(Width))
    else
      var haloHeight :- CheckedAdd(word, height, 2, HeightPlusTwo);
      var haloWidth :- CheckedAdd(word, width, 2, WidthPlusTwo);
      var interiorLen :- Product(word, height, width, InteriorProduct);
      var haloedLen :- Product(word, haloHeight, haloWidth, HaloedProduct);
      var interiorBytes :- Product(word, interiorLen, 4, InteriorBytes);
      var haloedBytes :- Product(word, haloedLen, 4, HaloedBytes);
      var _ :- Limit(QInteriorBytes, interiorBytes, word.isizeMax);
      var _ :- Limit(QHaloedBytes, haloedBytes, word.isizeMax);
      var _ :- Limit(QHeight, height, I32_MAX);
      var _ :- Limit(QWidth, width, I32_MAX);
      var _ :- Limit(QHaloHeight, haloHeight, I32_MAX);
      var _ :- Limit(QHaloWidth, haloWidth, I32_MAX);
      var _ :- Limit(QInteriorElements, interiorLen, I32_MAX);
      var _ :- Limit(QHaloedElements, haloedLen, I32_MAX);
      var blocksY := DivCeil(height, TILE);
      var blocksX := DivCeil(width, TILE);
      var _ :- Limit(QHeightBlocks, blocksY, MAX_BLOCKS);
      var _ :- Limit(QWidthBlocks, blocksX, MAX_BLOCKS);
      var gridY :- BlockCount(blocksY);
      var gridX :- BlockCount(blocksX);
      var h :- ElementCount(height);
      var w :- ElementCount(width);
      var hh :- ElementCount(haloHeight);
      var hw :- ElementCount(haloWidth);
      var len :- ElementCount(interiorLen);
      var hlen :- ElementCount(haloedLen);
      Ok(Shape2D(h, w, hh, hw, len, hlen, interiorBytes, haloedBytes, gridY, gridX))
  }

  /** What the chain of checks in New amounts to. */
  ghost predicate Accepted(word: Word, height: nat, width: nat) {
    && 1 <= height <= TILE * MAX_BLOCKS
    && 1 <= width <= TILE * MAX_BLOCKS
    && (height + 2) * (width + 2) <= I32_MAX
    && 4 * ((height + 2) * (width + 2)) <= word.isizeMax
  }

  // Every count the checks look at is at most the haloed count.
  lemma HaloedDominates(height: nat, width: nat)
    requires 1 <= height && 1 <= width
    ensures height * width <= (height + 2) * (width + 2)
    ensures height + 2 <= (height + 2) * (width + 2)
    ensures width + 2 <= (height + 2) * (width + 2)
  {
    assert (height + 2) * (width + 2) == height * width + 2 * height + 2 * width + 4;
    assert height * width >= 1 * width && height * width >= height * 1;
  }

  lemma DivCeilBounds(count: nat, size: nat)
    requires size > 0 && count > 0
    ensures size * (DivCeil(count, size) - 1) < count <= size * DivCeil(count, size)
    ensures forall bound: nat :: DivCeil(count, size) <= bound <==> count <= size * bound
  {
    var blocks := DivCeil(count, size);
    assert count == size * (count / size) + count % size;
    assert size * (count / size + 1) == size * (count / size) + size;
    forall bound: nat ensures blocks <= bound <==> count <= size * bound {
      if blocks <= bound {
        assert size * blocks <= size * bound;
      } else {
        assert size * bound <= size * (blocks - 1);
      }
    }
  }

  /** A shape is accepted exactly under a short predicate, and then stores the exact values. */
  lemma NewAccepts(word: Word, height: nat, width: nat)
    requires word.Supported() && height <= word.UsizeMax() && width <= word.UsizeMax()
    ensures New(word, height, width).Ok? <==> Accepted(word, height, width)
    ensures New(word, height, width).Ok? ==>
              var s := New(word, height, width).value;
              s.Valid() && s.height == height && s.width == width
  {
    if 1 <= height && 1 <= width {
      HaloedDominates(height, width);
      DivCeilBounds(height, TILE);
      DivCeilBounds(width, TILE);
    }
  }

  /** On a 64-bit word the byte limits never decide. */
  lemma NewAccepts64(height: nat, width: nat)
    requires height <= WORD64.UsizeMax() && width <= WORD64.UsizeMax()
    ensures New(WORD64, height, width).Ok? <==>
            1 <= height <= 1_048_560 && 1 <= width <= 1_048_560 && (height + 2) * (width + 2) <= 0x7FFF_FFFF
  {
    NewAccepts(WORD64, height, width);
  }

  lemma BlocksFit(count: nat)
    requires count > 0
    ensures DivCeil(count, TILE) <= MAX_BLOCKS <==> count <= TILE * MAX_BLOCKS
  {
    DivCeilBounds(count, TILE);
  }

  /** The stages in which New rejects, in the documented order. */
  datatype Rejection = Zero | Overflow | Bytes | Counts | Blocks | Casts

  function StageOf(error: Error): Option<Rejection> {
    match error
    case EmptyInterior(_) => Some(Zero)
    case ShapeOverflow(_) => Some(Overflow)
    case ShapeLimit(quantity, _, _) =>
      (match quantity
       case QInteriorBytes => Some(Bytes)
       case QHaloedBytes => Some(Bytes)
       case QHeightBlocks => Some(Blocks)
       case QWidthBlocks => Some(Blocks)
       case QMetadataElements => Some(Casts)
       case QLaunchBlocks => Some(Casts)
       case _ => Some(Counts))
    case _ => None
  }

  /** The first stage, in that order, that finds fault: stated on the haloed count alone. */
  ghost function Fault(word: Word, height: nat, width: nat): Option<Rejection> {
    var haloed := (height + 2) * (width + 2);
    if height == 0 || width == 0 then Some(Zero)
    else if 4 * haloed > word.UsizeMax() then Some(Overflow)
    else if 4 * haloed > word.isizeMax then Some(Bytes)
    else if haloed > I32_MAX then Some(Counts)
    else if height > TILE * MAX_BLOCKS || width > TILE * MAX_BLOCKS then Some(Blocks)
    else None
  }

  /** Each kind of rejection has its own exact cause; the narrowing casts never fail. */
  lemma NewRejects(word: Word, height: nat, width: nat)
    requires word.Supported() && height <= word.UsizeMax() && width <= word.UsizeMax()
    ensures var r := New(word, height, width);
            && (r.Ok? <==> Fault(word, height, width).None?)
            && (r.Err? ==> StageOf(r.error) == Fault(word, height, width) && StageOf(r.error) != Some(Casts))
            && (r.Err? && r.error.EmptyInterior? ==> r.error.axis == if height == 0 then Height else Width)
            && (r.Err? && r.error.ShapeLimit? ==> r.error.limit < r.error.actual)
  {
    if 1 <= height && 1 <= width {
      HaloedDominates(height, width);
      BlocksFit(height);
      BlocksFit(width);
    }
  }

  /** Valid shapes are the shapes New returns, so Valid may stand for "was constructed". */
  lemma ValidIsConstructible(s: Shape2D)
    requires s.Valid()
    ensures s.height <= WORD64.UsizeMax() && s.width <= WORD64.UsizeMax()
    ensures New(WORD64, s.height, s.width) == Ok(s)
  {
    var h, w := s.height, s.width;
    assert Accepted(WORD64, h, w);
    NewAccepts(WORD64, h, w);
    ValidIsDetermined(s, New(WORD64, h, w).value);
  }

  lemma ValidIsDetermined(s: Shape2D, t: Shape2D)
    requires s.Valid() && t.Valid() && s.height == t.height && s.width == t.width
    ensures s == t
  {
    assert s.haloedLen == t.haloedLen && s.interiorLen == t.interiorLen;
  }
}
