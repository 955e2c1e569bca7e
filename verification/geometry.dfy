/** Launch geometry of the filter pipeline.

    Per-pixel kernels run on a grid of 32x32 thread tiles; per-element kernels
    run on a one-dimensional grid of 1024-thread blocks. Both grid sizes are
    ceiling divisions written in C as `(n + d - 1) / d`; every operand is a
    non-negative `int`, so C's truncating division agrees with Dafny's.
 */
module Geometry {

  /** Side of the square thread tile used by the per-pixel kernels. */
  const Tile: nat := 32

  /** Threads per block of the per-element kernels (and the reduction width). */
  const BlockThreads: nat := 1024

  /** Largest value of a C `int` on the target. */
  const IntMax: int := 0x7fff_ffff

  /** The three components of a CUDA grid or block dimension. */
  datatype Dim3 = Dim3(x: nat, y: nat, z: nat)

  /** Ceiling division: the fewest blocks of `d` that hold `n` items. */
  function CeilDiv(n: nat, d: nat): (r: nat)
    requires d > 0
    ensures r * d >= n
    ensures r * d < n + d
  {
    var q := (n + d - 1) / d;
    assert q * d + (n + d - 1) % d == n + d - 1;
    q
  }

  /** `CeilDiv(n, d)` is the least block count that covers `n` items: any
      count covers `n` exactly when it is at least `CeilDiv(n, d)`. */
  lemma CeilDivIsLeast(n: nat, d: nat, k: nat)
    requires d > 0
    ensures k * d >= n <==> k >= CeilDiv(n, d)
  {
    var r := CeilDiv(n, d);
    if k >= r {
      MulMonotone(r, k, d);
    } else {
      MulMonotone(k, r - 1, d);
      assert (r - 1) * d == r * d - d;
    }
  }

  lemma MulMonotone(a: nat, b: nat, d: nat)
    requires a <= b
    ensures a * d <= b * d
  {
    assert b * d == a * d + (b - a) * d;
  }

  /** Grid of 32x32 tiles for a `rows` x `cols` plane, as launched for
      sobel_filter, blur_filter and smoothen: `(dimX + 31)/32` tiles across
      and `(dimY + 31)/32` down. It covers every pixel and overshoots by
      less than one tile in each direction. */
  function TileGrid(rows: nat, cols: nat): (g: Dim3)
    ensures cols <= g.x * Tile < cols + Tile
    ensures rows <= g.y * Tile < rows + Tile
    ensures g.z == 1
  {
    Dim3(CeilDiv(cols, Tile), CeilDiv(rows, Tile), 1)
  }

  /** One 32x32 thread block. */
  const TileBlock: Dim3 := Dim3(Tile, Tile, 1)

  /** One-dimensional grid for `n` elements, as launched for mix_channels,
      parallel_max and divide_all: `(n + 1023)/1024` blocks. It covers every
      element with fewer than 1024 surplus threads. */
  function LinearGrid(n: nat): (g: Dim3)
    ensures n <= g.x * BlockThreads < n + BlockThreads
    ensures g.y == 1 && g.z == 1
  {
    Dim3(CeilDiv(n, BlockThreads), 1, 1)
  }

  /** One block of 1024 threads. */
  const LinearBlock: Dim3 := Dim3(BlockThreads, 1, 1)

  /** Pixel (y, x) of a `rows` x `cols` plane is handled by thread
      (x % 32, y % 32) of tile (x / 32, y / 32), and that tile is inside the
      grid `TileGrid(rows, cols)`. */
  lemma EveryPixelHasThread(rows: nat, cols: nat, y: nat, x: nat)
    requires y < rows && x < cols
    ensures x / Tile < TileGrid(rows, cols).x && y / Tile < TileGrid(rows, cols).y
    ensures (x / Tile) * Tile + x % Tile == x && x % Tile < TileBlock.x
    ensures (y / Tile) * Tile + y % Tile == y && y % Tile < TileBlock.y
  {
    var g := TileGrid(rows, cols);
    CeilDivIsLeast(x + 1, Tile, x / Tile + 1);
    CeilDivIsLeast(cols, Tile, x / Tile + 1);
    CeilDivIsLeast(y + 1, Tile, y / Tile + 1);
    CeilDivIsLeast(rows, Tile, y / Tile + 1);
  }

  /** Element i < n of a one-dimensional launch is handled by thread
      i % 1024 of block i / 1024, and that block is inside `LinearGrid(n)`. */
  lemma EveryElementHasThread(n: nat, i: nat)
    requires i < n
    ensures i / BlockThreads < LinearGrid(n).x
    ensures (i / BlockThreads) * BlockThreads + i % BlockThreads == i
    ensures i % BlockThreads < LinearBlock.x
  {
    CeilDivIsLeast(n, BlockThreads, i / BlockThreads + 1);
  }
}
