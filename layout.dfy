/**
 * Stage 1 of the nine-rooms generator: outer walls and the 3x3 room lattice with
 * randomly placed gaps. The rooms are visited row by row (j outer, i inner); room
 * number k = 3 * j + i is the k-th room the loop visits. `LatticeAfter(g, k, x, y)`
 * is the content of cell (x, y) once the outer walls are drawn and the first k rooms
 * have drawn their walls and carved their gaps.
 */
module Layout {
  import opened Grids

  /** The grid is square, 13 cells a side. */
  const Size: int := 13
  /** Room extent, `width // 3` and `height // 3`. */
  const RoomW: int := Size / 3
  const RoomH: int := Size / 3

  /** The cell lies on the 13x13 board. */
  predicate InGrid(p: Pos)
  {
    InRect(p.x, p.y, Size, Size)
  }

  predicate OnBorder(x: int, y: int)
  {
    x == 0 || x == Size - 1 || y == 0 || y == Size - 1
  }

  // Bounds of room (i, j): its left and right wall columns, its top and bottom wall rows.
  function XL(i: int): int { i * RoomW }
  function XR(i: int): int { XL(i) + RoomW }
  function YT(j: int): int { j * RoomH }
  function YB(j: int): int { YT(j) + RoomH }

  /** Room number k in visiting order is room (k % 3, k / 3). */
  function RoomI(k: int): int { k % 3 }
  function RoomJ(k: int): int { k / 3 }

  /** One random draw per carved gap: the row of a right-wall gap or the column of a
      bottom-wall gap, named after the room (i, j) that carves it. */
  datatype GapDraws = GapDraws(
    right00: int, bottom00: int,
    right10: int,
    right01: int, bottom01: int,
    right11: int,
    right02: int,
    right12: int)

  /** Rooms that carve a gap in both their right and their bottom wall. */
  predicate CarvesRightAndBottom(i: int, j: int)
  {
    (i == 0 && j == 0) || (i == 0 && j == 1)
  }

  /** Rooms that carve a gap in their right wall only. */
  predicate CarvesRightOnly(i: int, j: int)
  {
    (i == 1 && j == 0) || (i == 1 && j == 1) || (i == 0 && j == 2) || (i == 1 && j == 2)
  }

  predicate CarvesRight(i: int, j: int)
  {
    CarvesRightAndBottom(i, j) || CarvesRightOnly(i, j)
  }

  /** The row drawn for the right-wall gap of room (i, j). */
  function RightGapY(g: GapDraws, i: int, j: int): int
  {
    if i == 0 && j == 0 then g.right00
    else if i == 1 && j == 0 then g.right10
    else if i == 0 && j == 1 then g.right01
    else if i == 1 && j == 1 then g.right11
    else if i == 0 && j == 2 then g.right02
    else g.right12
  }

  /** The column drawn for the bottom-wall gap of room (i, j). */
  function BottomGapX(g: GapDraws, i: int, j: int): int
  {
    if j == 0 then g.bottom00 else g.bottom01
  }

  /** Every draw lies in its half-open range: `rand_int(yT + 1, yB)` for a right gap,
      `rand_int(xL + 1, xR)` for a bottom gap. */
  predicate DrawsInRange(g: GapDraws)
  {
    && YT(0) + 1 <= g.right00 < YB(0) && XL(0) + 1 <= g.bottom00 < XR(0)
    && YT(0) + 1 <= g.right10 < YB(0)
    && YT(1) + 1 <= g.right01 < YB(1) && XL(0) + 1 <= g.bottom01 < XR(0)
    && YT(1) + 1 <= g.right11 < YB(1)
    && YT(2) + 1 <= g.right02 < YB(2)
    && YT(2) + 1 <= g.right12 < YB(2)
  }

  /** Cells covered by the wall segments room (i, j) draws: its right wall
      (unless it is in the last column) and its bottom wall (unless it is in the last row). */
  predicate InRoomWalls(i: int, j: int, x: int, y: int)
  {
    || (i + 1 < 3 && x == XR(i) && YT(j) <= y < YT(j) + RoomH)
    || (j + 1 < 3 && y == YB(j) && XL(i) <= x < XL(i) + RoomW)
  }

  /** Cells room (i, j) clears after drawing its walls. */
  predicate IsRoomGap(g: GapDraws, i: int, j: int, x: int, y: int)
  {
    || (CarvesRight(i, j) && x == XR(i) && y == RightGapY(g, i, j))
    || (CarvesRightAndBottom(i, j) && y == YB(j) && x == BottomGapX(g, i, j))
  }

  /** Some of the first k rooms cleared (x, y). */
  predicate GapCarvedBefore(g: GapDraws, k: nat, x: int, y: int)
  {
    k > 0 && (GapCarvedBefore(g, k - 1, x, y) || IsRoomGap(g, RoomI(k - 1), RoomJ(k - 1), x, y))
  }

  /** Some of the first k rooms drew a wall on (x, y). */
  predicate WallDrawnBefore(k: nat, x: int, y: int)
  {
    k > 0 && (WallDrawnBefore(k - 1, x, y) || InRoomWalls(RoomI(k - 1), RoomJ(k - 1), x, y))
  }

  /** The cell once the outer walls and the first k rooms are drawn. A carved gap reads
      as empty even when a wall was drawn on it: `RoomStep` shows no wall is drawn on a
      gap after it was carved, so this is the state the loop produces. */
  function LatticeAfter(g: GapDraws, k: nat, x: int, y: int): Cell
  {
    if OnBorder(x, y) then Wall
    else if GapCarvedBefore(g, k, x, y) then Empty
    else if WallDrawnBefore(k, x, y) then Wall
    else Empty
  }

  /** The cell at the end of the room loop. */
  function LatticeCell(g: GapDraws, x: int, y: int): Cell
  {
    LatticeAfter(g, 9, x, y)
  }

  /** Before any room is visited only the outer walls stand. This is `LatticeAfter` at
      k = 0; `DrawLattice` uses it to show that the fresh `Grid` after `DrawOuterWalls`
      is in that state when the room loop starts. */
  lemma OuterWallsStage(g: GapDraws, x: int, y: int)
    ensures LatticeAfter(g, 0, x, y) == if OnBorder(x, y) then Wall else Empty
  {
  }

  /** The gap a room carves never lies on a wall segment that a later room draws. */
  lemma LaterWallsMissEarlierGaps(g: GapDraws, n: nat, m: nat, x: int, y: int)
    requires DrawsInRange(g)
    requires n < m < 9
    requires IsRoomGap(g, RoomI(n), RoomJ(n), x, y)
    ensures !InRoomWalls(RoomI(m), RoomJ(m), x, y)
  {
  }

  /** No gap carved by the first k rooms lies on the walls room m >= k draws. */
  lemma {:induction false} NoGapUnderLaterWall(g: GapDraws, k: nat, m: nat, x: int, y: int)
    requires DrawsInRange(g)
    requires k <= m < 9
    requires InRoomWalls(RoomI(m), RoomJ(m), x, y)
    ensures !GapCarvedBefore(g, k, x, y)
  {
    if k > 0 {
      NoGapUnderLaterWall(g, k - 1, m, x, y);
      if IsRoomGap(g, RoomI(k - 1), RoomJ(k - 1), x, y) {
        LaterWallsMissEarlierGaps(g, k - 1, m, x, y);
      }
    }
  }

  /** Visiting room k changes exactly its wall cells (to Wall) and then its gap cells
      (to Empty); every other cell keeps its content. */
  lemma RoomStep(g: GapDraws, k: nat, x: int, y: int)
    requires DrawsInRange(g)
    requires k < 9
    ensures LatticeAfter(g, k + 1, x, y) ==
              if IsRoomGap(g, RoomI(k), RoomJ(k), x, y) then Empty
              else if InRoomWalls(RoomI(k), RoomJ(k), x, y) then Wall
              else LatticeAfter(g, k, x, y)
  {
    if InRoomWalls(RoomI(k), RoomJ(k), x, y) {
      NoGapUnderLaterWall(g, k, k, x, y);
    }
  }

  /** The eight cells the room loop clears, one per carved wall segment. */
  function CarvedGaps(g: GapDraws): set<Pos>
  {
    {Pos(XR(0), g.right00), Pos(g.bottom00, YB(0)), Pos(XR(1), g.right10),
     Pos(XR(0), g.right01), Pos(g.bottom01, YB(1)), Pos(XR(1), g.right11),
     Pos(XR(0), g.right02), Pos(XR(1), g.right12)}
  }

  /** The internal wall lines of the lattice: columns 4 and 8, rows 4 and 8. */
  predicate OnInnerWallLine(x: int, y: int)
  {
    x == XR(0) || x == XR(1) || y == YB(0) || y == YB(1)
  }

  /** At the end of the room loop a cell is a wall exactly when it is on the border or on
      an internal wall line and is not one of the carved gaps. */
  lemma LatticeClosedForm(g: GapDraws, x: int, y: int)
    requires DrawsInRange(g)
    requires 0 <= x < Size && 0 <= y < Size
    ensures LatticeCell(g, x, y) ==
              if OnBorder(x, y) then Wall
              else if Pos(x, y) in CarvedGaps(g) then Empty
              else if OnInnerWallLine(x, y) then Wall
              else Empty
  {
    GapsAfterLoop(g, x, y);
    WallsAfterLoop(x, y);
  }

  /** The room loop clears exactly the eight cells of `CarvedGaps`. */
  lemma GapsAfterLoop(g: GapDraws, x: int, y: int)
    ensures GapCarvedBefore(g, 9, x, y) <==> Pos(x, y) in CarvedGaps(g)
  {
    assert GapCarvedBefore(g, 9, x, y) <==>
      || IsRoomGap(g, 0, 0, x, y) || IsRoomGap(g, 1, 0, x, y) || IsRoomGap(g, 2, 0, x, y)
      || IsRoomGap(g, 0, 1, x, y) || IsRoomGap(g, 1, 1, x, y) || IsRoomGap(g, 2, 1, x, y)
      || IsRoomGap(g, 0, 2, x, y) || IsRoomGap(g, 1, 2, x, y) || IsRoomGap(g, 2, 2, x, y)
    by {
      assert GapCarvedBefore(g, 3, x, y) <==> GapCarvedBefore(g, 1, x, y) || IsRoomGap(g, 1, 0, x, y) || IsRoomGap(g, 2, 0, x, y);
      assert GapCarvedBefore(g, 5, x, y) <==> GapCarvedBefore(g, 3, x, y) || IsRoomGap(g, 0, 1, x, y) || IsRoomGap(g, 1, 1, x, y);
      assert GapCarvedBefore(g, 7, x, y) <==> GapCarvedBefore(g, 5, x, y) || IsRoomGap(g, 2, 1, x, y) || IsRoomGap(g, 0, 2, x, y);
      assert GapCarvedBefore(g, 9, x, y) <==> GapCarvedBefore(g, 7, x, y) || IsRoomGap(g, 1, 2, x, y) || IsRoomGap(g, 2, 2, x, y);
    }
  }

  /** The room loop draws walls on columns 4 and 8 and rows 4 and 8, up to the last
      row and column before the outer wall. */
  lemma WallsAfterLoop(x: int, y: int)
    ensures WallDrawnBefore(9, x, y) <==>
              ((x == XR(0) || x == XR(1)) && 0 <= y < Size - 1) ||
              ((y == YB(0) || y == YB(1)) && 0 <= x < Size - 1)
  {
    assert WallDrawnBefore(9, x, y) <==>
      || InRoomWalls(0, 0, x, y) || InRoomWalls(1, 0, x, y) || InRoomWalls(2, 0, x, y)
      || InRoomWalls(0, 1, x, y) || InRoomWalls(1, 1, x, y) || InRoomWalls(2, 1, x, y)
      || InRoomWalls(0, 2, x, y) || InRoomWalls(1, 2, x, y) || InRoomWalls(2, 2, x, y)
    by {
      assert WallDrawnBefore(3, x, y) <==> WallDrawnBefore(1, x, y) || InRoomWalls(1, 0, x, y) || InRoomWalls(2, 0, x, y);
      assert WallDrawnBefore(5, x, y) <==> WallDrawnBefore(3, x, y) || InRoomWalls(0, 1, x, y) || InRoomWalls(1, 1, x, y);
      assert WallDrawnBefore(7, x, y) <==> WallDrawnBefore(5, x, y) || InRoomWalls(2, 1, x, y) || InRoomWalls(0, 2, x, y);
      assert WallDrawnBefore(9, x, y) <==> WallDrawnBefore(7, x, y) || InRoomWalls(1, 2, x, y) || InRoomWalls(2, 2, x, y);
    }
  }

  /** Corners of the lattice (where wall lines meet each other or the border) are never
      carved: every gap lies strictly inside its wall segment. */
  lemma JunctionsStayWalls(g: GapDraws, x: int, y: int)
    requires DrawsInRange(g)
    requires 0 <= x < Size && 0 <= y < Size
    requires x % RoomW == 0 && y % RoomH == 0
    ensures LatticeCell(g, x, y) == Wall
  {
    LatticeClosedForm(g, x, y);
  }

  /** Number of empty cells in a run of cells. */
  function CountEmpty(s: seq<Cell>): nat
  {
    if s == [] then 0 else (if s[0] == Empty then 1 else 0) + CountEmpty(s[1..])
  }

  lemma {:induction false} CountEmptyOne(s: seq<Cell>, k: nat)
    requires k < |s| && s[k] == Empty
    requires forall n | 0 <= n < |s| && n != k :: s[n] != Empty
    ensures CountEmpty(s) == 1
  {
    if k == 0 {
      CountEmptyNone(s[1..]);
    } else {
      CountEmptyOne(s[1..], k - 1);
    }
  }

  lemma {:induction false} CountEmptyNone(s: seq<Cell>)
    requires forall n | 0 <= n < |s| :: s[n] != Empty
    ensures CountEmpty(s) == 0
  {
    if s != [] {
      CountEmptyNone(s[1..]);
    }
  }

  /** The cells of the right wall segment of room (i, j), top to bottom. */
  function RightWallCells(g: GapDraws, i: int, j: int): seq<Cell>
  {
    seq(RoomH, n => LatticeCell(g, XR(i), YT(j) + n))
  }

  /** The cells of the bottom wall segment of room (i, j), left to right. */
  function BottomWallCells(g: GapDraws, i: int, j: int): seq<Cell>
  {
    seq(RoomW, n => LatticeCell(g, XL(i) + n, YB(j)))
  }

  /** At the end of the room loop each of the six right walls and the bottom walls of
      rooms (0,0) and (0,1) hold exactly one empty cell, away from both ends of the
      segment; the other bottom walls of the first two rows stay solid. */
  lemma OneGapPerCarvedWall(g: GapDraws, i: int, j: int)
    requires DrawsInRange(g)
    requires 0 <= i < 3 && 0 <= j < 3
    ensures CarvesRight(i, j) ==>
              && 0 < RightGapY(g, i, j) - YT(j) < RoomH
              && RightWallCells(g, i, j)[RightGapY(g, i, j) - YT(j)] == Empty
              && CountEmpty(RightWallCells(g, i, j)) == 1
    ensures CarvesRightAndBottom(i, j) ==>
              && 0 < BottomGapX(g, i, j) - XL(i) < RoomW
              && BottomWallCells(g, i, j)[BottomGapX(g, i, j) - XL(i)] == Empty
              && CountEmpty(BottomWallCells(g, i, j)) == 1
    ensures j + 1 < 3 && !CarvesRightAndBottom(i, j) ==> CountEmpty(BottomWallCells(g, i, j)) == 0
  {
    var right, bottom := RightWallCells(g, i, j), BottomWallCells(g, i, j);
    forall n | 0 <= n < RoomH
      ensures right[n] == Empty <==> CarvesRight(i, j) && YT(j) + n == RightGapY(g, i, j)
    {
      LatticeClosedForm(g, XR(i), YT(j) + n);
    }
    forall n | 0 <= n < RoomW
      ensures bottom[n] == Empty <==> CarvesRightAndBottom(i, j) && XL(i) + n == BottomGapX(g, i, j)
    {
      LatticeClosedForm(g, XL(i) + n, YB(j));
    }
    if CarvesRight(i, j) {
      CountEmptyOne(right, RightGapY(g, i, j) - YT(j));
    }
    if CarvesRightAndBottom(i, j) {
      CountEmptyOne(bottom, BottomGapX(g, i, j) - XL(i));
    } else if j + 1 < 3 {
      CountEmptyNone(bottom);
    }
  }

  datatype Room = Room(i: int, j: int)

  predicate ValidRoom(r: Room)
  {
    0 <= r.i < 3 && 0 <= r.j < 3
  }

  /** The wall between room (i, j) and its right neighbour has an empty cell. */
  ghost predicate OpenToRight(g: GapDraws, i: int, j: int)
  {
    exists y :: YT(j) <= y < YB(j) && LatticeCell(g, XR(i), y) == Empty
  }

  /** The wall between room (i, j) and the room below it has an empty cell. */
  ghost predicate OpenBelow(g: GapDraws, i: int, j: int)
  {
    exists x :: XL(i) <= x < XR(i) && LatticeCell(g, x, YB(j)) == Empty
  }

  /** Two neighbouring rooms whose shared wall has an empty cell. */
  ghost predicate Linked(g: GapDraws, a: Room, b: Room)
  {
    || (b == Room(a.i + 1, a.j) && OpenToRight(g, a.i, a.j))
    || (a == Room(b.i + 1, b.j) && OpenToRight(g, b.i, b.j))
    || (b == Room(a.i, a.j + 1) && OpenBelow(g, a.i, a.j))
    || (a == Room(b.i, b.j + 1) && OpenBelow(g, b.i, b.j))
  }

  /** A non-empty sequence of rooms, each linked to the next. */
  ghost predicate IsWalk(g: GapDraws, p: seq<Room>)
  {
    && |p| > 0
    && (forall n | 0 <= n < |p| :: ValidRoom(p[n]))
    && (forall n | 0 <= n < |p| - 1 :: Linked(g, p[n], p[n + 1]))
  }

  /** Down the first column to row j, then right along row j to column i. */
  function WalkFromOrigin(r: Room): seq<Room>
    requires ValidRoom(r)
  {
    seq(r.j + 1, n => Room(0, n)) + seq(r.i, n => Room(n + 1, r.j))
  }

  /** At the end of the room loop every room can be reached from room (0,0) through
      the carved gaps: the 3x3 room graph is connected. */
  lemma RoomGraphConnected(g: GapDraws)
    requires DrawsInRange(g)
    ensures forall r | ValidRoom(r) :: exists p :: IsWalk(g, p) && p[0] == Room(0, 0) && p[|p| - 1] == r
  {
    forall i, j | 0 <= i < 2 && 0 <= j < 3
      ensures OpenToRight(g, i, j)
    {
      OneGapPerCarvedWall(g, i, j);
      assert RightWallCells(g, i, j)[RightGapY(g, i, j) - YT(j)] == LatticeCell(g, XR(i), RightGapY(g, i, j));
    }
    forall j | 0 <= j < 2
      ensures OpenBelow(g, 0, j)
    {
      OneGapPerCarvedWall(g, 0, j);
      assert BottomWallCells(g, 0, j)[BottomGapX(g, 0, j) - XL(0)] == LatticeCell(g, BottomGapX(g, 0, j), YB(j));
    }
    forall r | ValidRoom(r)
      ensures exists p :: IsWalk(g, p) && p[0] == Room(0, 0) && p[|p| - 1] == r
    {
      var p := WalkFromOrigin(r);
      forall n | 0 <= n < |p| - 1
        ensures Linked(g, p[n], p[n + 1])
      {
        if n < r.j {
          assert p[n] == Room(0, n) && p[n + 1] == Room(0, n + 1);
        } else {
          assert p[n] == Room(n - r.j, r.j) && p[n + 1] == Room(n - r.j + 1, r.j);
        }
      }
      assert IsWalk(g, p);
    }
  }
}
