/** Conversion between block-local coordinates, as the script data stores them,
    and world coordinates, as the editor shows them.

    The world is cut into square blocks of BlockSize world units. A region edge
    is stored as a number of tiles from the origin of the current block; a prop
    position is stored as an unscaled offset from that origin. Writing a world
    coordinate that falls outside the current block resets the stored value to
    zero instead of failing. */
module Coordinates {

  /** World units spanned by one map block. */
  const BlockSize: int := 16128

  /** The editor state the transform reads: the indices of the current block
      and the width of one tile in world units. */
  datatype BlockContext = BlockContext(blockX: int, blockY: int, tileLength: int)

  /** World coordinate of the first unit of block `block` along one axis. */
  function Origin(block: int): int {
    block * BlockSize
  }

  /** A world coordinate belongs to the block when it lies between the block's
      origin and the origin of the next block, both ends included. */
  predicate InBlock(block: int, value: int) {
    Origin(block) <= value <= Origin(block) + BlockSize
  }

  /** The same membership test for a floating-point world coordinate. */
  predicate InBlockReal(block: int, value: real) {
    Origin(block) as real <= value <= (Origin(block) + BlockSize) as real
  }

  // ---------------------------------------------------------------------
  // Tile-scaled coordinates (region edges)
  // ---------------------------------------------------------------------

  /** World coordinate of a region edge stored as `local` tiles. */
  function TileToWorld(block: int, local: int, tileLength: int): int {
    Origin(block) + local * tileLength
  }

  /** Local tile count stored when a region edge is set to world coordinate
      `value`: the number of whole tiles between the block origin and `value`,
      or zero when `value` is outside the block. Only an in-block value is
      divided by the tile length, so only that case needs a positive one. */
  function WorldToTile(block: int, value: int, tileLength: int): (local: int)
    requires tileLength > 0 || !InBlock(block, value)
    ensures InBlock(block, value) ==> 0 <= local <= BlockSize / tileLength
    ensures InBlock(block, value) ==>
      TileToWorld(block, local, tileLength) <= value < TileToWorld(block, local, tileLength) + tileLength
    ensures !InBlock(block, value) ==> local == 0
  {
    if value < Origin(block) || value > Origin(block) + BlockSize then 0
    else
      DivisionBounds(value - Origin(block), tileLength);
      (value - Origin(block)) / tileLength
  }

  /** Integer division of an offset inside a block by the tile length: the
      quotient is a tile count that fits in the block and its multiple is the
      largest one not above the offset. */
  lemma DivisionBounds(offset: int, tileLength: int)
    requires 0 <= offset <= BlockSize && tileLength > 0
    ensures 0 <= offset / tileLength <= BlockSize / tileLength
    ensures (offset / tileLength) * tileLength <= offset < (offset / tileLength) * tileLength + tileLength
  {
    var q := offset / tileLength;
    if q < 0 {
      MulMonotone(q, -1, tileLength);
    }
    MonotoneQuotient(offset, BlockSize, tileLength);
  }

  lemma MulMonotone(a: int, b: int, d: int)
    requires a <= b && d > 0
    ensures a * d <= b * d
  {
    assert (b - a) * d >= 0;
  }

  lemma MonotoneQuotient(a: int, b: int, d: int)
    requires 0 <= a <= b && d > 0
    ensures a / d <= b / d
  {
    if a / d > b / d {
      MulMonotone(b / d + 1, a / d, d);
    }
  }

  /** Round trip: writing back the world coordinate that a stored tile count
      reads as stores that same count, for every count that fits in the block. */
  lemma TileRoundTrip(block: int, local: int, tileLength: int)
    requires tileLength > 0 && 0 <= local <= BlockSize / tileLength
    ensures InBlock(block, TileToWorld(block, local, tileLength))
    ensures WorldToTile(block, TileToWorld(block, local, tileLength), tileLength) == local
  {
    MulMonotone(local, BlockSize / tileLength, tileLength);
    MulMonotone(0, local, tileLength);
    var offset := local * tileLength;
    var d := offset / tileLength;
    if d < local {
      MulMonotone(d + 1, local, tileLength);
    } else if d > local {
      MulMonotone(local + 1, d, tileLength);
    }
  }

  /** The stored tile count is the largest one whose world coordinate does not
      exceed the value written: no larger count snaps below `value`. */
  lemma TileSnapIsLargest(block: int, value: int, tileLength: int, other: int)
    requires tileLength > 0 && InBlock(block, value)
    requires TileToWorld(block, other, tileLength) <= value
    ensures other <= WorldToTile(block, value, tileLength)
  {
    var local := WorldToTile(block, value, tileLength);
    if other > local {
      MulMonotone(local + 1, other, tileLength);
    }
  }

  /** Whatever world coordinate is written, the edge reads back as a
      coordinate of the current block. */
  lemma TileWriteReadsInBlock(block: int, value: int, tileLength: int)
    requires tileLength > 0 || !InBlock(block, value)
    ensures InBlock(block, TileToWorld(block, WorldToTile(block, value, tileLength), tileLength))
  {
  }

  /** Writing an edge twice, the second time with the coordinate it reads
      back after the first, stores the same tile count as writing it once. */
  lemma TileWriteIdempotent(block: int, value: int, tileLength: int)
    requires tileLength > 0
    ensures WorldToTile(block, TileToWorld(block, WorldToTile(block, value, tileLength), tileLength), tileLength)
            == WorldToTile(block, value, tileLength)
  {
    TileRoundTrip(block, WorldToTile(block, value, tileLength), tileLength);
  }

  // ---------------------------------------------------------------------
  // Unscaled coordinates (prop positions)
  // ---------------------------------------------------------------------

  /** World coordinate of a prop stored at offset `local`. */
  function PointToWorld(block: int, local: real): real {
    Origin(block) as real + local
  }

  /** Offset stored when a prop coordinate is set to world coordinate `value`:
      the exact distance from the block origin, or zero outside the block. */
  function WorldToPoint(block: int, value: real): (local: real)
    ensures InBlockReal(block, value) ==>
      0.0 <= local <= BlockSize as real && PointToWorld(block, local) == value
    ensures !InBlockReal(block, value) ==> local == 0.0
  {
    if value < Origin(block) as real || value > (Origin(block) + BlockSize) as real then 0.0
    else value - Origin(block) as real
  }

  /** Round trip: writing back the world coordinate that a stored offset reads
      as stores that same offset, for every offset inside the block. */
  lemma PointRoundTrip(block: int, local: real)
    requires 0.0 <= local <= BlockSize as real
    ensures InBlockReal(block, PointToWorld(block, local))
    ensures WorldToPoint(block, PointToWorld(block, local)) == local
  {
  }
}
