# Nine rooms level generator

A model of the level generator of the nine-rooms grid world (`NineRoomsEnv._gen_grid`)
and of the grid primitives it calls. Each episode the generator rebuilds a 13×13 grid
in four stages:

1. **Lattice.** It draws the outer walls and a 3×3 lattice of 4×4 rooms, with internal
   walls on columns 4 and 8 and rows 4 and 8. It carves one random gap in each of the
   six right walls and in the bottom walls of rooms (0,0) and (0,1). The right-wall gap
   of room (0,0) becomes the door position.
2. **Agent and goal.** The task name selects the region the agent start is drawn from.
   The goal is drawn from the top-right room, whatever the task.
3. **Door and keys.** It places a door at the door position. The door is open only for
   the task `"doorgoal"`. It lays out zero, one or two keys according to a key table.
4. **Lava.** It lays a lava run on row 6, columns 2 to 10. It then clears (4,5), (4,7),
   (8,5) and (8,7).

Modules:

- `Grids`: cells, positions and the engine's `Grid`, a class over an `array2<Cell>` with
  `Set`, `HorzWall` and `VertWall`.
- `Layout`: room geometry and the room loop. `LatticeAfter(g, k, x, y)` is the cell once
  the outer walls and the first k rooms are drawn, with rooms in visiting order
  (j outer, i inner). The lemmas here cover that loop.
- `Tasks`: the task tables. `StartGroupOf` is the agent-start dispatch, `DoorFor` the
  door rule and `KeysFor` the key dispatch. It also holds the sampling rectangles.
- `Level`: `FinalCell(e, x, y)`, the finished level, built stage by stage
  (`AfterAgent`, `AfterGoal`, `AfterDoor`, `AfterHardKey`, `AfterEasyKey`). It also
  holds `ValidInputs` (what the generator demands of its draws) and the properties of
  the level.
- `NineRooms`: the environment class. `GenGrid` runs the stages as methods on the
  grid; each method's postcondition gives the new grid in terms of the old one. GenGrid
  is proved to leave exactly `FinalCell` in every cell. The mission string is the
  constant `Mission`.

Random draws are inputs. Each has a precondition with its half-open range, as the
engine's `randint(low, high)` gives it. The engine's object placement is reduced to the
cell it finally accepts: inside its rectangle, empty, and not the agent's cell.

Behaviour reproduced as written:

- The open-door sentinel `"doorgoal"` is none of the sixteen dispatched task names, so
  every dispatched task gets a locked door (`Tasks.DispatchedTasksLockTheDoor`).
- The key dispatch lists `"hardkey2goal"` twice and never `"hardkey2room"`.
  `"room2door"` starts the agent but lays out no key (`Tasks.KeysByStartGroup`).
- The lava overrides (4,6) and (8,6), including a gap drawn there. The four cleared
  cells are off the lava row and open the wall columns at rows 5 and 7
  (`Level.LavaOpensInnerWalls`).

Behaviour worth knowing:

- The `door*` tasks start the agent in the top-middle room, with x in [5, 7) and y in
  [1, 3).
- A dispatched task's start draw replaces an agent position given at construction. The
  given position is used only when the task matches no dispatch branch.
- The goal draw always replaces a goal position given at construction, so the branch
  for a missing goal position cannot be reached.
- The lava clearing at (4,5), (4,7), (8,5) and (8,7) opens passages through the
  internal wall columns besides the one carved gap per wall. The "exactly one gap"
  property is therefore stated at the end of the room loop.

## Model

| member | source | states |
|---|---|---|
| `Grids.Grid.constructor` | envs/ninerooms2.py:83 | A new grid has the given size and every cell empty. |
| `Grids.Grid.Set` | envs/ninerooms2.py:113 | Writing a cell inside the grid changes that cell and no other. |
| `Grids.Grid.HorzWall` | envs/ninerooms2.py:109 | A horizontal run sets `length` consecutive cells of row y from x, or up to the right edge when no length is given. It changes nothing else. |
| `Grids.Grid.VertWall` | envs/ninerooms2.py:105 | A vertical run sets `length` consecutive cells of column x from y, or down to the bottom edge when no length is given. It changes nothing else. |
| `Layout.LatticeAfter` | envs/ninerooms2.py:86-121 | Defines the cell after the outer walls and the first k rooms of the loop, j outer and i inner. A room's walls go down first, then its gaps are cleared. |
| `Layout.LatticeCell` | envs/ninerooms2.py:86-121 | Defines the cell at the end of the room loop, after all nine rooms. |
| `Tasks.StartGroupOf` | envs/ninerooms2.py:123-141 | Defines the agent-start dispatch: the four groups of four task names, tested in source order, and the fall-through. |
| `Tasks.HardKeyRegion` | envs/ninerooms2.py:176-179 | Defines the hard key's rectangle: top (0, 0), size (room_h, room_w - 1), clamped as the engine clamps it. |
| `Tasks.EasyKeyRegion` | envs/ninerooms2.py:177-181 | Defines the easy key's rectangle: top (size - room_h, size - room_w), size (room_h, room_w). |
| `Tasks.DoorFor` | envs/ninerooms2.py:165-170 | Defines the door: open for the task `"doorgoal"`, locked for every other task. |
| `Tasks.KeysFor` | envs/ninerooms2.py:175-181 | Defines the key dispatch as written. The third branch lists `"hardkey2goal"` twice and not `"hardkey2room"`, and `"room2door"` is in no branch. |
| `Level.DoorPos` | envs/ninerooms2.py:112-117 | Defines the door position: room (0,0)'s right-wall gap, at column room_w. |
| `Level.AgentStart` | envs/ninerooms2.py:123-150 | Defines the agent start: a dispatched task's draw, else the position given at construction, else the cell the engine's own placement picks. |
| `Level.AfterAgent` | envs/ninerooms2.py:144-150 | Defines the grid after the agent stage: the agent's cell is cleared and the rest is the lattice. |
| `Level.AfterGoal` | envs/ninerooms2.py:153-158 | Defines the grid after the goal stage: the goal goes on its drawn cell, over whatever was there. |
| `Level.AfterDoor` | envs/ninerooms2.py:165-170 | Defines the grid after the door stage: the task's door goes on the door position. |
| `Level.AfterHardKey` | envs/ninerooms2.py:175-179 | Defines the grid after the hard key: it is placed on its cell only when the key table lays it out. |
| `Level.AfterEasyKey` | envs/ninerooms2.py:175-181 | Defines the grid after the easy key: it is placed on its cell only when the key table lays it out. |
| `Level.FinalCell` | envs/ninerooms2.py:183-190 | Defines the finished level: the four cleared cells are empty, the rest of the lava run is lava, and every other cell is as the key stage left it. |
| `Level.ValidInputs` | envs/ninerooms2.py:111-181 | States what the generator demands of its inputs. Every draw is in its `randint` range. A start given at construction is on the grid. Each engine placement is on a cell it accepts: inside the rectangle, empty, and not the agent's cell. |
| `NineRooms.Mission` | envs/ninerooms2.py:77-79 | The mission string is the constant `"ninerooms"`. |
| `Layout.OuterWallsStage` | envs/ninerooms2.py:86-89 | Before the room loop, the border cells are walls and every other cell is empty. |
| `Layout.LaterWallsMissEarlierGaps` | envs/ninerooms2.py:95-121 | A gap carved by one room never lies on a wall segment that a later room draws. |
| `Layout.NoGapUnderLaterWall` | envs/ninerooms2.py:95-121 | No gap carved by the first k rooms lies under the walls of a room visited at or after k. |
| `Layout.RoomStep` | envs/ninerooms2.py:99-121 | Visiting room k turns its gap cells empty and its wall cells into walls. Every other cell keeps its content. |
| `Layout.GapsAfterLoop` | envs/ninerooms2.py:111-121 | The room loop clears exactly the eight cells it draws gaps for. |
| `Layout.WallsAfterLoop` | envs/ninerooms2.py:104-109 | The room loop draws walls on exactly columns 4 and 8 and rows 4 and 8, up to the last row and column. |
| `Layout.LatticeClosedForm` | envs/ninerooms2.py:86-121 | After the room loop, a cell is a wall iff it is on the border, or on an internal wall line and not a carved gap. |
| `Layout.JunctionsStayWalls` | envs/ninerooms2.py:112-120 | Lattice corners and junctions, where both coordinates are multiples of 4, are never carved. |
| `Layout.OneGapPerCarvedWall` | envs/ninerooms2.py:95-121 | Each of the six right walls has exactly one empty cell, strictly inside the segment. So do the bottom walls of rooms (0,0) and (0,1). The other bottom walls of rows 0 and 1 have none. |
| `Layout.RoomGraphConnected` | envs/ninerooms2.py:95-121 | Every room can be reached from room (0,0) through a chain of neighbouring rooms whose shared wall has an empty cell. |
| `Tasks.StartRegion` | envs/ninerooms2.py:123-141 | Each start group's x and y ranges are non-empty and lie strictly inside the group's room. |
| `Tasks.GoalRegion` | envs/ninerooms2.py:153-154 | The goal's x and y ranges are non-empty and lie strictly inside the top-right room. |
| `Tasks.PlaceRegion` | envs/ninerooms2.py:176-177 | The placement rectangle for a top-left corner and a size lies inside the grid. |
| `Tasks.DispatchedTasksLockTheDoor` | envs/ninerooms2.py:165-170 | Every task that selects a start region gets the locked door. |
| `Tasks.KeysByStartGroup` | envs/ninerooms2.py:175-181 | The key table by start group: both keys for the room group except `room2door`, the hard key for the easy-key group, and the easy key for the hard-key group except `hardkey2room`. No key for the door group or any other task. |
| `Tasks.NoKeyInStartRoom` | envs/ninerooms2.py:175-181 | A key is laid out only for tasks that start the agent outside that key's room. |
| `Level.RoomInteriorIsEmpty` | envs/ninerooms2.py:95-121 | A cell strictly inside a room is empty at the end of the room loop. |
| `Level.AgentStartPlacement` | envs/ninerooms2.py:123-148 | For a dispatched task the agent starts in its group's region. That cell was empty before the agent was placed and is empty in the finished level. |
| `Level.GoalPlacement` | envs/ninerooms2.py:153-161 | The goal is on its drawn cell in the top-right room and on no other cell. It is never at the door position, and never at the agent start for a dispatched task. |
| `Level.DoorPlacement` | envs/ninerooms2.py:165-170 | The door is at (4, y) with 1 <= y <= 3, on the carved gap of room (0,0)'s right wall, and on no other cell. It is locked iff the task is not `"doorgoal"`. |
| `Level.KeysFollowTable` | envs/ninerooms2.py:172-181 | A hard key (easy key) is on a cell iff the key table lays it out and the cell is its drawn one. That cell is inside room (0,0) (room (2,2)). |
| `Level.BorderStaysWall` | envs/ninerooms2.py:86-190 | Every border cell is still a wall in the finished level. The one exception is a task that matches no start group and takes the position given at construction, when that position is on the border. |
| `Level.ObjectsOnDistinctCells` | envs/ninerooms2.py:123-181 | For a dispatched task the agent, goal, door and the keys laid out are on pairwise distinct cells. |
| `Level.LavaOpensInnerWalls` | envs/ninerooms2.py:183-190 | Row 6 from column 2 to 10 is lava. The four cleared cells are off that row, on internal wall lines, and empty. Each was a wall unless a gap had been drawn there. |
| `NineRooms.NineRoomsEnv.constructor` | envs/ninerooms2.py:60-75 | Records the task and the optional agent and goal positions. The agent starts off the grid. |
| `NineRooms.NineRoomsEnv.GenGrid` | envs/ninerooms2.py:81-190 | The new grid equals `FinalCell` in every cell. The agent is at `AgentStart`, facing the drawn direction. A dispatched task's draw replaces the default agent position, and the goal draw replaces the default goal position. |
| `NineRooms.NineRoomsEnv.DrawLattice` | envs/ninerooms2.py:83-121 | A fresh grid equal to the lattice in every cell. The returned door position is room (0,0)'s right-wall gap. |
| `NineRooms.NineRoomsEnv.DrawOuterWalls` | envs/ninerooms2.py:86-89 | Border cells become walls; nothing else changes. |
| `NineRooms.NineRoomsEnv.PlaceAgentStart` | envs/ninerooms2.py:123-150 | A dispatched task's draw replaces the default start. A known start is cleared and taken with the drawn direction. Otherwise the engine's placement is used. Only the agent's cell can change. |
| `NineRooms.NineRoomsEnv.PlaceAgent` | envs/ninerooms2.py:150 | The agent goes to the accepted empty cell with the drawn direction. The grid is unchanged. |
| `NineRooms.NineRoomsEnv.PlaceObj` | envs/ninerooms2.py:176-177 | The object goes to the accepted cell, which is inside the rectangle, empty and not the agent's. Only that cell changes, and its position is returned. |
| `NineRooms.NineRoomsEnv.PutObj` | envs/ninerooms2.py:158 | The object replaces the content of the given cell; nothing else changes. |
| `NineRooms.NineRoomsEnv.PlaceGoal` | envs/ninerooms2.py:153-161 | The goal goes to its draw, which becomes the default goal position. Only that cell changes. |
| `NineRooms.NineRoomsEnv.PlaceDoor` | envs/ninerooms2.py:165-170 | The door chosen by the task goes to the door position. Only that cell changes. |
| `NineRooms.NineRoomsEnv.PlaceKeys` | envs/ninerooms2.py:172-181 | The keys of the key table go to their accepted cells, hard key first. Only those cells change. |
| `NineRooms.NineRoomsEnv.LayLava` | envs/ninerooms2.py:183-190 | Lava on row 6 from column 2 to 10, then the four cleared cells empty. Nothing else changes. |

## Left out

- Everything the environment inherits from the engine is left out: stepping, rewards,
  termination, rendering, observations, the mission space and `max_steps`.
- Random number generation and seeding are left out. Each draw is an input with its
  range as a precondition. The two generators (NumPy's global one and the seeded one)
  are not told apart.
- The engine's placement retry loop and its retry limit are left out. Placement is
  modelled by the cell it finally accepts, so a placement that never finds a free cell
  is not modelled.
- Colours, the key labels beyond hard and easy, and the object identities are left out.
  So are the fields `doorLocked`, `doorUnlocked`, `keyHard`, `keyEasy` and
  `obstacle_type`: a cell holds a value, not a shared object.
- Each object's `init_pos` and `cur_pos` bookkeeping is left out. The goal's
  tuple-unpacking assignment at line 159 sets them to the x and the y coordinate
  respectively.
- The grid size is fixed at 13. `GenGrid` requires the width and height it is given to
  equal it, as the engine always passes them.
- The engine's cell-index assertions become preconditions: an explicit agent start
  must lie inside the grid.
- The commented-out code and the class docstring (which describes a four-room
  environment) are not modelled.
