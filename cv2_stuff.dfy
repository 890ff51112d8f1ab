/** The integer arithmetic that cuts a board image into a grid of tiles
    (`get_tile_in_image`, src/utils/cv2_stuff.py). The numpy slice that
    follows it is not modelled; a tile is its four bounds. */
module Cv2Stuff {
  import opened Wrappers

  /** Python's `a // b`: the floor of a / b, for either sign of b. Dafny's own
      `/` rounds so that the remainder is non-negative, which is the floor
      only for positive divisors. */
  function FloorDiv(a: int, b: int): (q: int)
    requires b != 0
    ensures b > 0 ==> q * b <= a < q * b + b
    ensures b < 0 ==> q * b >= a > q * b + b
  {
    if b > 0 then a / b else (-a) / (-b)
  }

  /** The pixel bounds of a tile: columns x0 up to x1 and rows y0 up to y1,
      the upper bounds exclusive as in `image[y0:y1, x0:x1]`. */
  datatype Tile = Tile(x0: int, y0: int, x1: int, y1: int)

  /** `get_tile_in_image`'s bounds for an image `width` pixels wide and
      `height` high; None where Python raises ZeroDivisionError. */
  function TileBounds(width: nat, height: nat, row: int, col: int, rows: int, cols: int): (r: Option<Tile>)
    ensures r.None? <==> rows == 0 || cols == 0
  {
    if rows == 0 || cols == 0 then None
    else Some(Tile(FloorDiv(col * width, cols), FloorDiv(row * height, rows),
                   FloorDiv((col + 1) * width, cols), FloorDiv((row + 1) * height, rows)))
  }

  /** The tile index, along one axis of `count` tiles over `size` pixels,
      that holds pixel `p`. */
  function Owner(p: int, size: int, count: int): int
    requires size > 0
  {
    FloorDiv((p + 1) * count - 1, size)
  }

  // ---------------------------------------------------------------------------
  // Arithmetic helpers.

  lemma MulLeft(a: int, b: int, k: int)
    requires k >= 0 && a <= b
    ensures a * k <= b * k
  {
    assert b * k - a * k == (b - a) * k;
  }

  /** FloorDiv(a, k) is the one q with q * k <= a < (q + 1) * k. */
  lemma FloorUnique(a: int, k: int, q: int)
    requires k > 0
    requires q * k <= a < q * k + k
    ensures FloorDiv(a, k) == q
  {
    var f := FloorDiv(a, k);
    if f < q {
      MulLeft(f + 1, q, k);
    } else if f > q {
      MulLeft(q + 1, f, k);
    }
  }

  /** floor(a / k) <= x exactly when a < (x + 1) * k. */
  lemma FloorAtMost(a: int, k: int, x: int)
    requires k > 0
    ensures FloorDiv(a, k) <= x <==> a < (x + 1) * k
  {
    var f := FloorDiv(a, k);
    if f <= x {
      MulLeft(f + 1, x + 1, k);
    } else {
      MulLeft(x + 1, f, k);
    }
  }

  lemma FloorMonotone(a: int, b: int, k: int)
    requires k > 0 && a <= b
    ensures FloorDiv(a, k) <= FloorDiv(b, k)
  {
    FloorAtMost(a, k, FloorDiv(b, k));
  }

  /** Along one axis: the start of tile `index`, `index * size // count`. */
  function Start(index: int, size: int, count: int): int
    requires count > 0
  {
    FloorDiv(index * size, count)
  }

  lemma StartsMonotone(i: int, j: int, size: nat, count: int)
    requires count > 0 && i <= j
    ensures Start(i, size, count) <= Start(j, size, count)
  {
    MulLeft(i, j, size);
    FloorMonotone(i * size, j * size, count);
  }

  lemma StartAtEnds(size: nat, count: int)
    requires count > 0
    ensures Start(0, size, count) == 0
    ensures Start(count, size, count) == size
  {
    FloorUnique(0, count, 0);
    FloorUnique(count * size, count, size);
  }

  /** Along one axis, pixel p lies in tile i exactly when i is p's owner. */
  lemma {:induction false} OwnerExactly(p: int, i: int, size: int, count: int)
    requires size > 0 && count > 0
    ensures Start(i, size, count) <= p < Start(i + 1, size, count) <==> i == Owner(p, size, count)
  {
    var o := Owner(p, size, count);
    // Start(i) <= p  iff  i * size < (p + 1) * count  iff  i <= o
    FloorAtMost(i * size, count, p);
    FloorAtMost((p + 1) * count - 1, size, i - 1);
    assert Start(i, size, count) <= p <==> i * size <= (p + 1) * count - 1;
    assert o <= i - 1 <==> (p + 1) * count - 1 < i * size;
    // p < Start(i + 1)  iff  (p + 1) * count <= (i + 1) * size  iff  o <= i
    FloorAtMost((i + 1) * size, count, p);
    FloorAtMost((p + 1) * count - 1, size, i);
    assert o <= i <==> (p + 1) * count - 1 < (i + 1) * size;
    assert p < Start(i + 1, size, count) <==> (p + 1) * count <= (i + 1) * size;
  }

  lemma OwnerInRange(p: int, size: int, count: int)
    requires size > 0 && count > 0 && 0 <= p < size
    ensures 0 <= Owner(p, size, count) < count
  {
    MulLeft(1, p + 1, count);
    MulLeft(p + 1, size, count);
    FloorAtMost((p + 1) * count - 1, size, -1);
    FloorAtMost((p + 1) * count - 1, size, count - 1);
    assert (count - 1 + 1) * size == size * count;
  }

  // ---------------------------------------------------------------------------
  // The properties of the grid.

  /** Every tile of a grid lies inside the image: 0 <= x0 <= x1 <= width and
      0 <= y0 <= y1 <= height. */
  lemma TileInside(width: nat, height: nat, row: int, col: int, rows: int, cols: int)
    requires 0 <= row < rows && 0 <= col < cols
    ensures TileBounds(width, height, row, col, rows, cols).Some?
    ensures var t := TileBounds(width, height, row, col, rows, cols).value;
      0 <= t.x0 <= t.x1 <= width && 0 <= t.y0 <= t.y1 <= height
  {
    StartAtEnds(width, cols);
    StartAtEnds(height, rows);
    StartsMonotone(0, col, width, cols);
    StartsMonotone(col, col + 1, width, cols);
    StartsMonotone(col + 1, cols, width, cols);
    StartsMonotone(0, row, height, rows);
    StartsMonotone(row, row + 1, height, rows);
    StartsMonotone(row + 1, rows, height, rows);
  }

  /** The first tile starts at the image's top left corner, the last ends at
      its bottom right corner, and neighbouring tiles share their edge. */
  lemma TileEdges(width: nat, height: nat, row: int, col: int, rows: int, cols: int)
    requires rows > 0 && cols > 0
    ensures var first := TileBounds(width, height, 0, 0, rows, cols).value;
      first.x0 == 0 && first.y0 == 0
    ensures var last := TileBounds(width, height, rows - 1, cols - 1, rows, cols).value;
      last.x1 == width && last.y1 == height
    ensures TileBounds(width, height, row, col, rows, cols).value.x1 ==
            TileBounds(width, height, row, col + 1, rows, cols).value.x0
    ensures TileBounds(width, height, row, col, rows, cols).value.y1 ==
            TileBounds(width, height, row + 1, col, rows, cols).value.y0
  {
    StartAtEnds(width, cols);
    StartAtEnds(height, rows);
  }

  /** Along one axis, tiles are `size // count` or one pixel more. */
  lemma {:induction false} SpanWidth(i: int, size: nat, count: int)
    requires count > 0
    ensures var d := Start(i + 1, size, count) - Start(i, size, count);
      d == FloorDiv(size, count) || d == FloorDiv(size, count) + 1
  {
    var q := Start(i, size, count);
    var p := FloorDiv(size, count);
    // i * size = q * count + r and size = p * count + s with 0 <= r, s < count
    var r := i * size - q * count;
    var s := size - p * count;
    assert (i + 1) * size == (q + p) * count + (r + s);
    if r + s < count {
      FloorUnique((i + 1) * size, count, q + p);
    } else {
      assert (i + 1) * size == (q + p + 1) * count + (r + s - count);
      FloorUnique((i + 1) * size, count, q + p + 1);
    }
  }

  /** Each tile is `width // cols` or `width // cols + 1` pixels wide and
      `height // rows` or `height // rows + 1` pixels high. */
  lemma TileSize(width: nat, height: nat, row: int, col: int, rows: int, cols: int)
    requires rows > 0 && cols > 0
    ensures var t := TileBounds(width, height, row, col, rows, cols).value;
      && (t.x1 - t.x0 == width / cols || t.x1 - t.x0 == width / cols + 1)
      && (t.y1 - t.y0 == height / rows || t.y1 - t.y0 == height / rows + 1)
  {
    SpanWidth(col, width, cols);
    SpanWidth(row, height, rows);
  }

  /** The tiles partition the image: each pixel (x, y) lies in the tile at
      (row, col) exactly when row and col are its owners, and those are
      within the grid, so it lies in one tile and no other. */
  lemma TilesPartition(width: nat, height: nat, rows: int, cols: int, x: int, y: int, row: int, col: int)
    requires rows > 0 && cols > 0
    requires 0 <= x < width && 0 <= y < height
    ensures var t := TileBounds(width, height, row, col, rows, cols).value;
      t.x0 <= x < t.x1 && t.y0 <= y < t.y1 <==> row == Owner(y, height, rows) && col == Owner(x, width, cols)
    ensures 0 <= Owner(y, height, rows) < rows && 0 <= Owner(x, width, cols) < cols
  {
    OwnerExactly(x, col, width, cols);
    OwnerExactly(y, row, height, rows);
    OwnerInRange(x, width, cols);
    OwnerInRange(y, height, rows);
  }

  /** The enumeration of the 64 tiles of a board, `(i // 8, i % 8)`. */
  function TileOfIndex(i: int): (rc: (int, int))
    requires 0 <= i < 64
    ensures 0 <= rc.0 < 8 && 0 <= rc.1 < 8
    ensures i == rc.0 * 8 + rc.1
  {
    (FloorDiv(i, 8), i % 8)
  }

  /** The enumeration reaches every tile, each from exactly one index. */
  lemma TileOfIndexOnto(row: int, col: int)
    requires 0 <= row < 8 && 0 <= col < 8
    ensures 0 <= row * 8 + col < 64 && TileOfIndex(row * 8 + col) == (row, col)
  {
    FloorUnique(row * 8 + col, 8, row);
  }
}
