/**
 * The level the generator produces, stated cell by cell as a function of the task,
 * the agent position given at construction, and the random draws. One function per
 * stage, each defined on top of the previous one, in the generator's order: lattice,
 * agent, goal, door, hard key, easy key, lava.
 */
module Level {
  import opened Grids
  import opened Layout
  import opened Tasks

  /** The random draws of one generation, in the order they are made. `agent` is the
      task-conditioned start, `fallback` the cell the engine's own agent placement picks
      when no start is known, `dir` the facing direction. */
  datatype Draws = Draws(
    gaps: GapDraws,
    agent: Pos,
    dir: int,
    fallback: Pos,
    goal: Pos,
    hardKey: Pos,
    easyKey: Pos)

  /** Everything one generation depends on. */
  datatype Inputs = Inputs(task: string, agentDefault: Option<Pos>, draws: Draws)

  /** The right-wall gap of room (0,0), recorded as the door position. */
  function DoorPos(g: GapDraws): Pos
  {
    Pos(XR(0), RightGapY(g, 0, 0))
  }

  /** Where the agent starts: the task-conditioned draw when the task is dispatched,
      else the position given at construction, else the engine's own placement. */
  function AgentStart(e: Inputs): Pos
  {
    if StartGroupOf(e.task) != Unmatched then e.draws.agent
    else if e.agentDefault.Some? then e.agentDefault.value
    else e.draws.fallback
  }

  function AfterAgent(e: Inputs, x: int, y: int): Cell
  {
    if Pos(x, y) == AgentStart(e) then Empty else LatticeCell(e.draws.gaps, x, y)
  }

  function AfterGoal(e: Inputs, x: int, y: int): Cell
  {
    if Pos(x, y) == e.draws.goal then Goal else AfterAgent(e, x, y)
  }

  function AfterDoor(e: Inputs, x: int, y: int): Cell
  {
    if Pos(x, y) == DoorPos(e.draws.gaps) then DoorFor(e.task) else AfterGoal(e, x, y)
  }

  function AfterHardKey(e: Inputs, x: int, y: int): Cell
  {
    if KeysFor(e.task).hard && Pos(x, y) == e.draws.hardKey then Key(true) else AfterDoor(e, x, y)
  }

  function AfterEasyKey(e: Inputs, x: int, y: int): Cell
  {
    if KeysFor(e.task).easy && Pos(x, y) == e.draws.easyKey then Key(false) else AfterHardKey(e, x, y)
  }

  /** The lava run: nine cells of row 6 from column 2. */
  predicate OnLavaStrip(x: int, y: int)
  {
    y == 6 && 2 <= x < 2 + 9
  }

  /** The four cells cleared after the lava run: (4,5), (4,7), (8,5), (8,7). */
  predicate ClearedAfterLava(x: int, y: int)
  {
    (x == 4 || x == 8) && (y == 5 || y == 7)
  }

  /** The finished level. */
  function FinalCell(e: Inputs, x: int, y: int): Cell
  {
    if ClearedAfterLava(x, y) then Empty
    else if OnLavaStrip(x, y) then Lava
    else AfterEasyKey(e, x, y)
  }

  /** What the generator demands of its draws and of the agent position it is given:
      every draw in its half-open range; an explicit start inside the grid; the engine's
      placements on a cell they accept (inside their rectangle, empty, not the agent's). */
  predicate ValidInputs(e: Inputs)
  {
    var d, grp := e.draws, StartGroupOf(e.task);
    && DrawsInRange(d.gaps)
    && (grp != Unmatched ==> InRegion(d.agent, StartRegion(grp)))
    && (grp == Unmatched && e.agentDefault.Some? ==> InGrid(e.agentDefault.value))
    && (grp == Unmatched && e.agentDefault.None? ==>
          InGrid(d.fallback) && LatticeCell(d.gaps, d.fallback.x, d.fallback.y) == Empty)
    && 0 <= d.dir < 4
    && InRegion(d.goal, GoalRegion())
    && (KeysFor(e.task).hard ==>
          && InRegion(d.hardKey, HardKeyRegion())
          && AfterDoor(e, d.hardKey.x, d.hardKey.y) == Empty
          && d.hardKey != AgentStart(e))
    && (KeysFor(e.task).easy ==>
          && InRegion(d.easyKey, EasyKeyRegion())
          && AfterHardKey(e, d.easyKey.x, d.easyKey.y) == Empty
          && d.easyKey != AgentStart(e))
  }

  /** A cell strictly inside a room is never touched by the room loop. */
  lemma RoomInteriorIsEmpty(g: GapDraws, p: Pos, r: Region, room: Room)
    requires DrawsInRange(g) && ValidRoom(room)
    requires InsideRoom(r, room) && InRegion(p, r)
    ensures LatticeCell(g, p.x, p.y) == Empty
  {
    LatticeClosedForm(g, p.x, p.y);
  }

  /** For a dispatched task the agent starts inside its group's region, on a cell that
      was empty before it was placed and is still empty in the finished level. */
  lemma AgentStartPlacement(e: Inputs)
    requires ValidInputs(e)
    requires StartGroupOf(e.task) != Unmatched
    // the draw range, restated for the start as the generator uses it
    ensures InRegion(AgentStart(e), StartRegion(StartGroupOf(e.task)))
    ensures LatticeCell(e.draws.gaps, AgentStart(e).x, AgentStart(e).y) == Empty
    ensures FinalCell(e, AgentStart(e).x, AgentStart(e).y) == Empty
  {
    var a, grp := AgentStart(e), StartGroupOf(e.task);
    RoomInteriorIsEmpty(e.draws.gaps, a, StartRegion(grp), StartRoom(grp));
  }

  /** The goal stands at its draw, inside the top-right room and on no other cell; it is
      never the door position and, for a dispatched task, never the agent's start. */
  lemma GoalPlacement(e: Inputs)
    requires ValidInputs(e)
    // the draw range, restated
    ensures InRegion(e.draws.goal, GoalRegion())
    ensures e.draws.goal != DoorPos(e.draws.gaps)
    ensures StartGroupOf(e.task) != Unmatched ==> e.draws.goal != AgentStart(e)
    ensures forall x, y :: FinalCell(e, x, y) == Goal <==> Pos(x, y) == e.draws.goal
  {
    var g, goal := e.draws.gaps, e.draws.goal;
    forall x, y
      ensures FinalCell(e, x, y) == Goal <==> Pos(x, y) == goal
    {
      if Pos(x, y) != goal && 0 <= x < Size && 0 <= y < Size {
        LatticeClosedForm(g, x, y);
      }
    }
    if StartGroupOf(e.task) != Unmatched {
      var grp := StartGroupOf(e.task);
      assert InsideRoom(StartRegion(grp), StartRoom(grp));
    }
  }

  /** The door stands at the right-wall gap of room (0,0), strictly between the ends of
      that wall, and on no other cell; it is open exactly for the task "doorgoal". */
  lemma DoorPlacement(e: Inputs)
    requires ValidInputs(e)
    ensures DoorPos(e.draws.gaps).x == RoomW && 1 <= DoorPos(e.draws.gaps).y <= RoomH - 1
    ensures LatticeCell(e.draws.gaps, DoorPos(e.draws.gaps).x, DoorPos(e.draws.gaps).y) == Empty
    ensures FinalCell(e, DoorPos(e.draws.gaps).x, DoorPos(e.draws.gaps).y) == DoorFor(e.task)
    ensures DoorFor(e.task) == Door(e.task != "doorgoal")
    ensures forall x, y :: FinalCell(e, x, y).Door? <==> Pos(x, y) == DoorPos(e.draws.gaps)
  {
    var g := e.draws.gaps;
    LatticeClosedForm(g, DoorPos(g).x, DoorPos(g).y);
    forall x, y
      ensures FinalCell(e, x, y).Door? <==> Pos(x, y) == DoorPos(g)
    {
      if Pos(x, y) != DoorPos(g) && 0 <= x < Size && 0 <= y < Size {
        LatticeClosedForm(g, x, y);
      }
    }
  }

  /** Keys follow the key table: the hard key stands at its draw exactly when the task
      lays it out, inside room (0,0), and nowhere else; likewise the easy key in room
      (2,2). */
  lemma KeysFollowTable(e: Inputs)
    requires ValidInputs(e)
    ensures forall x, y :: FinalCell(e, x, y) == Key(true) <==> KeysFor(e.task).hard && Pos(x, y) == e.draws.hardKey
    ensures forall x, y :: FinalCell(e, x, y) == Key(false) <==> KeysFor(e.task).easy && Pos(x, y) == e.draws.easyKey
    ensures KeysFor(e.task).hard ==> InsideRoom(Region(e.draws.hardKey.x, e.draws.hardKey.x + 1, e.draws.hardKey.y, e.draws.hardKey.y + 1), Room(0, 0))
    ensures KeysFor(e.task).easy ==> InsideRoom(Region(e.draws.easyKey.x, e.draws.easyKey.x + 1, e.draws.easyKey.y, e.draws.easyKey.y + 1), Room(2, 2))
  {
    var g, d := e.draws.gaps, e.draws;
    forall x, y | 0 <= x < Size && 0 <= y < Size {
      LatticeClosedForm(g, x, y);
    }
  }

  /** The outer wall survives every stage, except where a task that matches no start
      group takes the agent position given at construction and that lies on the wall. */
  lemma BorderStaysWall(e: Inputs, x: int, y: int)
    requires ValidInputs(e)
    requires StartGroupOf(e.task) == Unmatched ==> e.agentDefault != Some(Pos(x, y))
    requires 0 <= x < Size && 0 <= y < Size && OnBorder(x, y)
    ensures FinalCell(e, x, y) == Wall
  {
    var g, grp := e.draws.gaps, StartGroupOf(e.task);
    LatticeClosedForm(g, x, y);
    if grp != Unmatched {
      assert InsideRoom(StartRegion(grp), StartRoom(grp));
    } else if e.agentDefault.None? {
      LatticeClosedForm(g, e.draws.fallback.x, e.draws.fallback.y);
    }
    if KeysFor(e.task).hard {
      LatticeClosedForm(g, e.draws.hardKey.x, e.draws.hardKey.y);
    }
    if KeysFor(e.task).easy {
      LatticeClosedForm(g, e.draws.easyKey.x, e.draws.easyKey.y);
    }
  }

  /** For a dispatched task the agent, the goal, the door and the keys laid out stand on
      pairwise distinct cells. */
  lemma ObjectsOnDistinctCells(e: Inputs)
    requires ValidInputs(e)
    requires StartGroupOf(e.task) != Unmatched
    ensures |{AgentStart(e), e.draws.goal, DoorPos(e.draws.gaps)}| == 3
    ensures KeysFor(e.task).hard ==> e.draws.hardKey !in {AgentStart(e), e.draws.goal, DoorPos(e.draws.gaps)}
    ensures KeysFor(e.task).easy ==>
              e.draws.easyKey !in {AgentStart(e), e.draws.goal, DoorPos(e.draws.gaps)}
              && (KeysFor(e.task).hard ==> e.draws.easyKey != e.draws.hardKey)
  {
    var g, grp := e.draws.gaps, StartGroupOf(e.task);
    assert InsideRoom(StartRegion(grp), StartRoom(grp));
  }

  /** The lava run overrides whatever the earlier stages left on row 6, including a
      gap drawn at (4,6) or (8,6). The four cleared cells lie off the lava row, on the
      internal wall columns, where they were walls unless a gap was drawn there: they
      open those walls at rows 5 and 7. */
  lemma LavaOpensInnerWalls(e: Inputs)
    requires ValidInputs(e)
    ensures forall x | 2 <= x < 11 :: FinalCell(e, x, 6) == Lava
    ensures forall x, y :: ClearedAfterLava(x, y) ==> OnInnerWallLine(x, y) && !OnLavaStrip(x, y) && FinalCell(e, x, y) == Empty
    ensures forall x, y :: ClearedAfterLava(x, y) ==>
              LatticeCell(e.draws.gaps, x, y) == if Pos(x, y) in CarvedGaps(e.draws.gaps) then Empty else Wall
  {
    forall x, y | ClearedAfterLava(x, y) {
      LatticeClosedForm(e.draws.gaps, x, y);
    }
  }
}
