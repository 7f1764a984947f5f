/**
 * The nine-rooms environment: its construction-time settings and the level generator,
 * which rebuilds the grid cell by cell in four stages (lattice, agent and goal, door
 * and keys, lava). Each stage is a method whose postcondition gives the new grid in
 * terms of the old one; `GenGrid` chains them and ends on `Level.FinalCell`.
 */
module NineRooms {
  import opened Grids
  import opened Layout
  import opened Tasks
  import opened Level

  /** The mission string the environment reports. */
  const Mission: string := "ninerooms"

  class NineRoomsEnv {
    const size: int := Size
    const task: string
    /** The agent start given at construction; overwritten by a dispatched task's draw. */
    var agentDefaultPos: Option<Pos>
    /** The goal position given at construction; overwritten by the goal draw. */
    var goalDefaultPos: Option<Pos>
    var grid: Grid
    var agentPos: Pos
    var agentDir: int

    ghost predicate GridReady()
      reads this, grid
    {
      grid.Valid() && grid.width == Size && grid.height == Size
    }

    /** Records the optional agent and goal positions and the task. Before the first
        generation the agent is off the grid. */
    constructor (agentPos: Option<Pos>, goalPos: Option<Pos>, task: string)
      ensures this.task == task && agentDefaultPos == agentPos && goalDefaultPos == goalPos
      ensures GridReady() && fresh(grid) && fresh(grid.cells)
      ensures this.agentPos == Pos(-1, -1)
    {
      this.task := task;
      agentDefaultPos := agentPos;
      goalDefaultPos := goalPos;
      grid := new Grid(Size, Size);
      this.agentPos := Pos(-1, -1);
      agentDir := -1;
    }

    /** Generates a level: a fresh grid equal, cell by cell, to `FinalCell`, the agent at
        `AgentStart` facing the drawn direction, and the default positions updated. */
    method GenGrid(width: int, height: int, d: Draws)
      requires width == size && height == size
      requires ValidInputs(Inputs(task, agentDefaultPos, d))
      modifies this
      ensures fresh(grid) && GridReady()
      ensures forall x, y :: 0 <= x < Size && 0 <= y < Size ==>
                grid.cells[x, y] == FinalCell(Inputs(task, old(agentDefaultPos), d), x, y)
      ensures agentPos == AgentStart(Inputs(task, old(agentDefaultPos), d))
      ensures agentDir == d.dir
      ensures agentDefaultPos == if StartGroupOf(task) != Unmatched then Some(d.agent) else old(agentDefaultPos)
      ensures goalDefaultPos == Some(d.goal)
    {
      ghost var e := Inputs(task, agentDefaultPos, d);
      var doorPos := DrawLattice(width, height, d.gaps);
      PlaceAgentStart(d.agent, d.dir, d.fallback);
      assert forall x, y :: 0 <= x < Size && 0 <= y < Size ==> grid.cells[x, y] == AfterAgent(e, x, y);
      PlaceGoal(d.goal);
      PlaceDoor(doorPos);
      assert forall x, y :: 0 <= x < Size && 0 <= y < Size ==> grid.cells[x, y] == AfterDoor(e, x, y);
      PlaceKeys(d.hardKey, d.easyKey);
      assert forall x, y :: 0 <= x < Size && 0 <= y < Size ==> grid.cells[x, y] == AfterEasyKey(e, x, y);
      LayLava();
    }

    /** Stage 1: a fresh grid, the outer walls, then the room loop. Returns the door
        position, the right-wall gap of room (0,0). */
    method DrawLattice(width: int, height: int, g: GapDraws) returns (doorPos: Pos)
      requires width == Size && height == Size
      requires DrawsInRange(g)
      modifies this`grid
      ensures fresh(grid) && fresh(grid.cells) && GridReady()
      ensures doorPos == DoorPos(g)
      ensures forall x, y :: 0 <= x < Size && 0 <= y < Size ==> grid.cells[x, y] == LatticeCell(g, x, y)
    {
      var gr := new Grid(width, height);
      grid := gr;
      DrawOuterWalls();
      var roomW := width / 3;
      var roomH := height / 3;
      doorPos := Pos(-1, -1);  // unset until room (0,0) carves its right gap
      forall x, y | 0 <= x < Size && 0 <= y < Size
        ensures gr.cells[x, y] == LatticeAfter(g, 0, x, y)
      {
        OuterWallsStage(g, x, y);
      }
      var j := 0;
      while j < 3
        invariant 0 <= j <= 3
        invariant grid == gr && fresh(gr.cells) && GridReady()
        invariant j > 0 ==> doorPos == DoorPos(g)
        invariant forall x, y :: 0 <= x < Size && 0 <= y < Size ==> gr.cells[x, y] == LatticeAfter(g, 3 * j, x, y)
      {
        var i := 0;
        while i < 3
          invariant 0 <= i <= 3
          invariant grid == gr && fresh(gr.cells) && GridReady()
          invariant j > 0 || i > 0 ==> doorPos == DoorPos(g)
          invariant forall x, y :: 0 <= x < Size && 0 <= y < Size ==> gr.cells[x, y] == LatticeAfter(g, 3 * j + i, x, y)
        {
          var xL := i * roomW;
          var yT := j * roomH;
          var xR := xL + roomW;
          var yB := yT + roomH;
          assert RoomI(3 * j + i) == i && RoomJ(3 * j + i) == j;
          if i + 1 < 3 {
            gr.VertWall(xR, yT, Some(roomH), Wall);
          }
          // Bottom wall and gaps
          if j + 1 < 3 {
            gr.HorzWall(xL, yB, Some(roomW), Wall);
          }
          if (i == 0 && j == 0) || (i == 0 && j == 1) {
            var pos1 := Pos(xR, RightGapY(g, i, j));
            gr.Set(pos1.x, pos1.y, Empty);
            var pos := Pos(BottomGapX(g, i, j), yB);
            gr.Set(pos.x, pos.y, Empty);
            if i == 0 && j == 0 {
              doorPos := pos1;
            }
          }
          if (i == 1 && j == 0) || (i == 1 && j == 1) || (i == 0 && j == 2) || (i == 1 && j == 2) {
            var pos := Pos(xR, RightGapY(g, i, j));
            gr.Set(pos.x, pos.y, Empty);
          }
          forall x, y | 0 <= x < Size && 0 <= y < Size
            ensures gr.cells[x, y] == LatticeAfter(g, 3 * j + i + 1, x, y)
          {
            RoomStep(g, 3 * j + i, x, y);
          }
          i := i + 1;
        }
        j := j + 1;
      }
    }

    /** The four outer walls: row 0, row height - 1, column 0, column width - 1. */
    method DrawOuterWalls()
      requires GridReady()
      modifies grid.cells
      ensures forall x, y :: 0 <= x < Size && 0 <= y < Size ==>
                grid.cells[x, y] == if OnBorder(x, y) then Wall else old(grid.cells[x, y])
    {
      grid.HorzWall(0, 0, None, Wall);
      grid.HorzWall(0, grid.height - 1, None, Wall);
      grid.VertWall(0, 0, None, Wall);
      grid.VertWall(grid.width - 1, 0, None, Wall);
    }

    /** Stage 2a: a dispatched task replaces the default start by its draw; a known
        start is cleared and taken with the drawn direction, otherwise the engine's
        own placement puts the agent on the fallback cell. */
    method PlaceAgentStart(agentDraw: Pos, dirDraw: int, fallback: Pos)
      requires GridReady()
      requires StartGroupOf(task) != Unmatched ==> InRegion(agentDraw, StartRegion(StartGroupOf(task)))
      requires StartGroupOf(task) == Unmatched && agentDefaultPos.Some? ==> InGrid(agentDefaultPos.value)
      requires StartGroupOf(task) == Unmatched && agentDefaultPos.None? ==>
                 InGrid(fallback) && grid.cells[fallback.x, fallback.y] == Empty
      requires 0 <= dirDraw < 4
      modifies this`agentDefaultPos, this`agentPos, this`agentDir, grid.cells
      ensures agentDefaultPos == if StartGroupOf(task) != Unmatched then Some(agentDraw) else old(agentDefaultPos)
      ensures agentPos == if agentDefaultPos.Some? then agentDefaultPos.value else fallback
      ensures agentDir == dirDraw
      ensures forall x, y :: 0 <= x < Size && 0 <= y < Size ==>
                grid.cells[x, y] == if Pos(x, y) == agentPos then Empty else old(grid.cells[x, y])
    {
      if StartGroupOf(task) != Unmatched {
        agentDefaultPos := Some(agentDraw);
      }
      if agentDefaultPos.Some? {
        agentPos := agentDefaultPos.value;
        grid.Set(agentPos.x, agentPos.y, Empty);
        agentDir := dirDraw;
      } else {
        PlaceAgent(fallback, dirDraw);
      }
    }

    /** The engine's agent placement: an object-free placement anywhere on the grid. */
    method PlaceAgent(pos: Pos, dirDraw: int)
      requires GridReady()
      requires InGrid(pos) && grid.cells[pos.x, pos.y] == Empty
      requires 0 <= dirDraw < 4
      modifies this`agentPos, this`agentDir, grid.cells
      ensures agentPos == pos && agentDir == dirDraw
      ensures forall x, y :: 0 <= x < Size && 0 <= y < Size ==> grid.cells[x, y] == old(grid.cells[x, y])
    {
      agentPos := Pos(-1, -1);
      var placed := PlaceObj(Empty, Pos(0, 0), Size, Size, pos);
      agentPos := placed;
      agentDir := dirDraw;
    }

    /** The engine's object placement, reduced to the cell it finally accepts: one inside
        the sampling rectangle, empty, and not the agent's. */
    method PlaceObj(obj: Cell, top: Pos, w: int, h: int, pos: Pos) returns (placed: Pos)
      requires GridReady()
      requires InRegion(pos, PlaceRegion(top, w, h))
      requires grid.cells[pos.x, pos.y] == Empty && pos != agentPos
      modifies grid.cells
      ensures placed == pos
      ensures forall x, y :: 0 <= x < Size && 0 <= y < Size ==>
                grid.cells[x, y] == if Pos(x, y) == pos then obj else old(grid.cells[x, y])
    {
      grid.Set(pos.x, pos.y, obj);
      placed := pos;
    }

    /** The engine's object insertion at a given cell, replacing what was there. */
    method PutObj(obj: Cell, pos: Pos)
      requires GridReady() && InGrid(pos)
      modifies grid.cells
      ensures forall x, y :: 0 <= x < Size && 0 <= y < Size ==>
                grid.cells[x, y] == if Pos(x, y) == pos then obj else old(grid.cells[x, y])
    {
      grid.Set(pos.x, pos.y, obj);
    }

    /** Stage 2b: the goal always goes to its draw, which also becomes the default goal
        position. */
    method PlaceGoal(goalDraw: Pos)
      requires GridReady() && InRegion(goalDraw, GoalRegion())
      modifies this`goalDefaultPos, grid.cells
      ensures goalDefaultPos == Some(goalDraw)
      ensures forall x, y :: 0 <= x < Size && 0 <= y < Size ==>
                grid.cells[x, y] == if Pos(x, y) == goalDraw then Goal else old(grid.cells[x, y])
    {
      goalDefaultPos := Some(goalDraw);
      if goalDefaultPos.Some? {
        PutObj(Goal, goalDefaultPos.value);
      } else {
        // The default goal position was assigned just above: this branch is dead.
        assert false;
      }
    }

    /** Stage 3a: the open door for the sentinel task, the locked door otherwise. */
    method PlaceDoor(doorPos: Pos)
      requires GridReady() && InGrid(doorPos)
      modifies grid.cells
      ensures forall x, y :: 0 <= x < Size && 0 <= y < Size ==>
                grid.cells[x, y] == if Pos(x, y) == doorPos then DoorFor(task) else old(grid.cells[x, y])
    {
      if task == OpenDoorTask {
        PutObj(Door(false), doorPos);
      } else {
        PutObj(Door(true), doorPos);
      }
    }

    /** Stage 3b: the keys of the key table, the hard key first, each on the cell the
        engine's placement accepts inside its rectangle. */
    method PlaceKeys(hardKey: Pos, easyKey: Pos)
      requires GridReady()
      requires KeysFor(task).hard ==>
                 InRegion(hardKey, HardKeyRegion()) && grid.cells[hardKey.x, hardKey.y] == Empty && hardKey != agentPos
      requires KeysFor(task).easy ==>
                 && InRegion(easyKey, EasyKeyRegion()) && grid.cells[easyKey.x, easyKey.y] == Empty && easyKey != agentPos
                 && !(KeysFor(task).hard && easyKey == hardKey)
      modifies grid.cells
      ensures forall x, y :: 0 <= x < Size && 0 <= y < Size ==>
                grid.cells[x, y] ==
                  if KeysFor(task).easy && Pos(x, y) == easyKey then Key(false)
                  else if KeysFor(task).hard && Pos(x, y) == hardKey then Key(true)
                  else old(grid.cells[x, y])
    {
      var keys := KeysFor(task);
      if keys.hard {
        var _ := PlaceObj(Key(true), Pos(0, 0), RoomH, RoomW - 1, hardKey);
      }
      if keys.easy {
        var _ := PlaceObj(Key(false), Pos(Size - RoomH, Size - RoomW), RoomH, RoomW, easyKey);
      }
    }

    /** Stage 4: nine lava cells along row 6 from column 2, then four cells cleared on the
        internal wall columns; nothing else changes. */
    method LayLava()
      requires GridReady()
      modifies grid.cells
      ensures forall x, y :: 0 <= x < Size && 0 <= y < Size ==>
                grid.cells[x, y] ==
                  if ClearedAfterLava(x, y) then Empty
                  else if OnLavaStrip(x, y) then Lava
                  else old(grid.cells[x, y])
    {
      grid.HorzWall(2, 6, Some(9), Lava);
      grid.Set(4, 5, Empty);
      grid.Set(4, 7, Empty);
      grid.Set(8, 5, Empty);
      grid.Set(8, 7, Empty);
    }
  }
}
