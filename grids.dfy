/**
 * The grid abstraction the level generator draws on: a width-by-height board of
 * cells, each empty, a tile (wall, lava) or one placeable object, with the three
 * drawing primitives the generator calls (set one cell, draw a horizontal run,
 * draw a vertical run). Coordinates are (x, y) = (column, row).
 */
module Grids {

  datatype Option<T> = None | Some(value: T)

  datatype Pos = Pos(x: int, y: int)

  /** The content of one cell. `Door(false)` is the open door, `Key(true)` the hard key. */
  datatype Cell = Empty | Wall | Lava | Goal | Door(locked: bool) | Key(hard: bool)

  /** How many cells a run drawn from `start` covers: the given length, or up to the
      far edge of an axis of size `extent` when no length is given. */
  function RunLength(start: int, length: Option<int>, extent: int): int
  {
    if length.Some? then length.value else extent - start
  }

  /** Cell (x, y) lies on a board of the given size. */
  predicate InRect(x: int, y: int, width: int, height: int)
  {
    0 <= x < width && 0 <= y < height
  }

  class Grid {
    const width: int
    const height: int
    const cells: array2<Cell>

    ghost predicate Valid()
      reads this
    {
      cells.Length0 == width && cells.Length1 == height
    }

    predicate InBounds(x: int, y: int)
    {
      InRect(x, y, width, height)
    }

    /** A fresh grid with every cell empty. */
    constructor (width: nat, height: nat)
      ensures this.width == width && this.height == height
      ensures Valid() && fresh(cells)
      ensures forall x, y :: 0 <= x < width && 0 <= y < height ==> cells[x, y] == Empty
    {
      this.width := width;
      this.height := height;
      cells := new Cell[width, height]((x, y) => Empty);
    }

    /** Writes one cell; indices outside the grid are an assertion failure in the engine. */
    method Set(x: int, y: int, v: Cell)
      requires Valid() && InBounds(x, y)
      modifies cells
      ensures cells[x, y] == v
      ensures forall a, b :: InBounds(a, b) && (a != x || b != y) ==> cells[a, b] == old(cells[a, b])
    {
      cells[x, y] := v;
    }

    /** Sets `tile` on the cells (x + i, y) for 0 <= i < length; without a length the
        run reaches the right edge. A non-positive length draws nothing. */
    method HorzWall(x: int, y: int, length: Option<int>, tile: Cell)
      requires Valid()
      requires RunLength(x, length, width) > 0 ==>
                 0 <= x && x + RunLength(x, length, width) <= width && 0 <= y < height
      modifies cells
      ensures forall a, b :: InBounds(a, b) ==>
                cells[a, b] == if b == y && x <= a < x + RunLength(x, length, width) then tile
                               else old(cells[a, b])
    {
      var n := RunLength(x, length, width);
      var i := 0;
      while i < n
        invariant 0 <= i <= (if n > 0 then n else 0)
        invariant forall a, b :: InBounds(a, b) ==>
                    cells[a, b] == if b == y && x <= a < x + i then tile else old(cells[a, b])
      {
        Set(x + i, y, tile);
        i := i + 1;
      }
    }

    /** Sets `tile` on the cells (x, y + i) for 0 <= i < length; without a length the
        run reaches the bottom edge. A non-positive length draws nothing. */
    method VertWall(x: int, y: int, length: Option<int>, tile: Cell)
      requires Valid()
      requires RunLength(y, length, height) > 0 ==>
                 0 <= y && y + RunLength(y, length, height) <= height && 0 <= x < width
      modifies cells
      ensures forall a, b :: InBounds(a, b) ==>
                cells[a, b] == if a == x && y <= b < y + RunLength(y, length, height) then tile
                               else old(cells[a, b])
    {
      var n := RunLength(y, length, height);
      var i := 0;
      while i < n
        invariant 0 <= i <= (if n > 0 then n else 0)
        invariant forall a, b :: InBounds(a, b) ==>
                    cells[a, b] == if a == x && y <= b < y + i then tile else old(cells[a, b])
      {
        Set(x, y + i, tile);
        i := i + 1;
      }
    }
  }
}
