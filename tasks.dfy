/**
 * The task identifier and what it selects: the region the agent starts in, whether
 * the door starts locked, and which keys are laid out. Also the fixed sampling
 * rectangles for the goal and the keys. Task names are compared as whole strings,
 * exactly as the generator's if/elif chains do.
 */
module Tasks {
  import opened Grids
  import opened Layout

  /** A half-open rectangle of cells: xLo <= x < xHi, yLo <= y < yHi. */
  datatype Region = Region(xLo: int, xHi: int, yLo: int, yHi: int)

  predicate InRegion(p: Pos, r: Region)
  {
    r.xLo <= p.x < r.xHi && r.yLo <= p.y < r.yHi
  }

  /** The region lies in the interior of the room, off all four of its walls. */
  predicate InsideRoom(r: Region, room: Room)
  {
    XL(room.i) < r.xLo && r.xHi <= XR(room.i) && YT(room.j) < r.yLo && r.yHi <= YB(room.j)
  }

  /** The four groups of the agent-start dispatch, and the fall-through. */
  datatype StartGroup = FromRoom | FromEasyKey | FromHardKey | FromDoor | Unmatched

  function StartGroupOf(task: string): StartGroup
  {
    if task == "room2easykey" || task == "room2hardkey" || task == "room2goal" || task == "room2door" then FromRoom
    else if task == "easykey2goal" || task == "easykey2door" || task == "easykey2hardkey" || task == "easykey2room" then FromEasyKey
    else if task == "hardkey2goal" || task == "hardkey2door" || task == "hardkey2easykey" || task == "hardkey2room" then FromHardKey
    else if task == "door2goal" || task == "door2room" || task == "door2easykey" || task == "door2hardkey" then FromDoor
    else Unmatched
  }

  /** The room each start group draws the agent from. */
  function StartRoom(grp: StartGroup): Room
    requires grp != Unmatched
  {
    match grp
    case FromRoom => Room(0, 2)
    case FromEasyKey => Room(2, 2)
    case FromHardKey => Room(0, 0)
    case FromDoor => Room(1, 0)
  }

  /** The two `randint(low, high)` ranges the agent's x and y are drawn from. Each range
      is non-empty and lies strictly inside the group's room. */
  function StartRegion(grp: StartGroup): (r: Region)
    requires grp != Unmatched
    ensures r.xLo < r.xHi && r.yLo < r.yHi
    ensures InsideRoom(r, StartRoom(grp))
  {
    match grp
    case FromRoom => Region(1, RoomW - 1, Size - RoomH, Size - 2)
    case FromEasyKey => Region(Size - RoomH, Size - 2, Size - RoomW, Size - 2)
    case FromHardKey => Region(1, RoomW - 1, 1, RoomH - 1)
    case FromDoor => Region(RoomW + 1, Size - RoomW - 2, 1, RoomH - 1)
  }

  /** The goal's x and y ranges, whatever the task: inside the top-right room. */
  function GoalRegion(): (r: Region)
    ensures r.xLo < r.xHi && r.yLo < r.yHi
    ensures InsideRoom(r, Room(2, 0))
  {
    Region(Size - RoomW, Size - 2, 1, RoomH - 1)
  }

  /** The rectangle the engine's object placement samples from, given a top-left corner
      and a size: the corner is clamped to the grid and the far edge to its size. */
  function PlaceRegion(top: Pos, w: int, h: int): (r: Region)
    ensures 0 <= r.xLo && r.xHi <= Size && 0 <= r.yLo && r.yHi <= Size
  {
    var x0 := if top.x < 0 then 0 else top.x;
    var y0 := if top.y < 0 then 0 else top.y;
    Region(x0, if x0 + w < Size then x0 + w else Size, y0, if y0 + h < Size then y0 + h else Size)
  }

  /** The hard key's rectangle: top (0, 0), size (room_h, room_w - 1). */
  function HardKeyRegion(): Region
  {
    PlaceRegion(Pos(0, 0), RoomH, RoomW - 1)
  }

  /** The easy key's rectangle: top (size - room_h, size - room_w), size (room_h, room_w). */
  function EasyKeyRegion(): Region
  {
    PlaceRegion(Pos(Size - RoomH, Size - RoomW), RoomH, RoomW)
  }

  /** The task whose door starts open. */
  const OpenDoorTask: string := "doorgoal"

  /** The door placed at the door position: open for the sentinel task, locked otherwise. */
  function DoorFor(task: string): Cell
  {
    if task == OpenDoorTask then Door(false) else Door(true)
  }

  /** Which keys the key dispatch lays out. */
  datatype KeySet = KeySet(hard: bool, easy: bool)

  function KeysFor(task: string): KeySet
  {
    if task == "room2easykey" || task == "room2hardkey" || task == "room2goal" then KeySet(true, true)
    else if task == "easykey2goal" || task == "easykey2door" || task == "easykey2hardkey" || task == "easykey2room" then KeySet(true, false)
    else if task == "hardkey2goal" || task == "hardkey2door" || task == "hardkey2easykey" || task == "hardkey2goal" then KeySet(false, true)
    else KeySet(false, false)
  }

  /** The open-door sentinel is none of the sixteen dispatched task names, so every
      task that selects a start region gets a locked door. */
  lemma DispatchedTasksLockTheDoor(task: string)
    requires StartGroupOf(task) != Unmatched
    ensures DoorFor(task) == Door(true)
  {
  }

  /** The key table seen from the start groups: both keys for the room group except
      "room2door", the hard key alone for the easy-key group, the easy key alone for the
      hard-key group except "hardkey2room", and no key for the door group or any other
      task. */
  lemma KeysByStartGroup(task: string)
    ensures StartGroupOf(task) == FromRoom ==>
              KeysFor(task) == if task == "room2door" then KeySet(false, false) else KeySet(true, true)
    ensures StartGroupOf(task) == FromEasyKey ==> KeysFor(task) == KeySet(true, false)
    ensures StartGroupOf(task) == FromHardKey ==>
              KeysFor(task) == if task == "hardkey2room" then KeySet(false, false) else KeySet(false, true)
    ensures StartGroupOf(task) in {FromDoor, Unmatched} ==> KeysFor(task) == KeySet(false, false)
  {
  }

  /** A key is never laid out in the room the agent starts from. */
  lemma NoKeyInStartRoom(task: string)
    ensures KeysFor(task).hard ==> StartGroupOf(task) in {FromRoom, FromEasyKey}
    ensures KeysFor(task).easy ==> StartGroupOf(task) in {FromRoom, FromHardKey}
  {
  }
}
