/**
 * The dungeon as the server holds it: the generator's output (a grid of cells
 * and a list of rooms), and the start and end points derived from it by
 * searching the room list for a room id.
 */
module Dungeon {

  /** A grid coordinate: column x, row y. */
  datatype Point = Point(x: int, y: int)

  /** A room as the generator reports it: id, top-left corner, size and centre. */
  datatype Room = Room(id: int, x: int, y: int, w: int, h: int, cx: int, cy: int)

  /**
   * The generator's output. maze[y][x] is 0 for a wall, 1 for a corridor and
   * the room id (2 and up) for a room cell; lastRoomId is the id the next room
   * would have received.
   */
  datatype Dungeon = Dungeon(maze: seq<seq<int>>, w: int, h: int, rooms: seq<Room>,
                             roomSize: int, lastRoomId: int)

  /** The record sent in a "dungeon data" message. */
  datatype DungeonData = DungeonData(dungeon: Dungeon, startingPoint: Point, endingPoint: Point)

  function CentreOf(r: Room): Point {
    Point(r.cx, r.cy)
  }

  /** h rows, each of w cells. */
  predicate Rectangular(grid: seq<seq<int>>, w: int, h: int) {
    |grid| == h && forall r | 0 <= r < |grid| :: |grid[r]| == w
  }

  predicate InGrid(d: Dungeon, p: Point) {
    0 <= p.y < |d.maze| && 0 <= p.x < |d.maze[p.y]|
  }

  /**
   * What the generator guarantees of its output and the server relies on
   * without checking: a rectangular grid, rooms numbered 2, 3, ... in
   * generation order, lastRoomId one past the last room, and each room's
   * centre a cell of that room.
   */
  predicate WellFormed(d: Dungeon) {
    && Rectangular(d.maze, d.w, d.h)
    && d.lastRoomId == |d.rooms| + 2
    && forall i | 0 <= i < |d.rooms| ::
         && d.rooms[i].id == i + 2
         && InGrid(d, CentreOf(d.rooms[i]))
         && d.maze[d.rooms[i].cy][d.rooms[i].cx] == d.rooms[i].id
  }

  /** Room i is the first room in the list whose id is k. */
  ghost predicate FirstWithId(rooms: seq<Room>, k: int, i: int) {
    0 <= i < |rooms| && rooms[i].id == k && forall j | 0 <= j < i :: rooms[j].id != k
  }

  /**
   * Specification of the room-centre search: the centre of the first room
   * whose id is k, or the origin when no room has that id.
   */
  function RoomCenter(rooms: seq<Room>, k: int): (p: Point)
    ensures (forall j | 0 <= j < |rooms| :: rooms[j].id != k) ==> p == Point(0, 0)
  {
    if |rooms| == 0 then Point(0, 0)
    else if rooms[0].id == k then CentreOf(rooms[0])
    else RoomCenter(rooms[1..], k)
  }

  lemma {:induction false} RoomCenterFindsFirst(rooms: seq<Room>, k: int, i: int)
    requires FirstWithId(rooms, k, i)
    ensures RoomCenter(rooms, k) == CentreOf(rooms[i])
  {
    if i > 0 {
      assert rooms[0].id != k;
      RoomCenterFindsFirst(rooms[1..], k, i - 1);
    }
  }

  lemma {:induction false} RoomCenterMissing(rooms: seq<Room>, k: int)
    requires forall j | 0 <= j < |rooms| :: rooms[j].id != k
    ensures RoomCenter(rooms, k) == Point(0, 0)
  {
    if |rooms| > 0 {
      assert rooms[0].id != k;
      RoomCenterMissing(rooms[1..], k);
    }
  }

  /**
   * The server's linear search over the room list, returning at the first
   * room whose id matches and falling back to the origin.
   */
  method FindRoomCenter(rooms: seq<Room>, k: int) returns (p: Point)
    ensures (forall j | 0 <= j < |rooms| :: rooms[j].id != k) ==> p == Point(0, 0)
    ensures forall i | FirstWithId(rooms, k, i) :: p == CentreOf(rooms[i])
    ensures p == RoomCenter(rooms, k)
  {
    p := Point(0, 0);
    var i := 0;
    while i < |rooms|
      invariant 0 <= i <= |rooms|
      invariant forall j | 0 <= j < i :: rooms[j].id != k
    {
      if rooms[i].id == k {
        p := CentreOf(rooms[i]);
        RoomCenterFindsFirst(rooms, k, i);
        assert forall m | FirstWithId(rooms, k, m) :: m == i;
        return;
      }
      i := i + 1;
    }
    RoomCenterMissing(rooms, k);
  }

  /** Where players start: the centre of room 2. */
  function StartOf(d: Dungeon): (p: Point)
    ensures WellFormed(d) && |d.rooms| >= 1 ==> p == CentreOf(d.rooms[0])
  {
    RoomCenter(d.rooms, 2)
  }

  /** The goal: the centre of room lastRoomId - 1. */
  function EndOf(d: Dungeon): (p: Point)
    ensures WellFormed(d) && |d.rooms| >= 1 ==> p == CentreOf(d.rooms[|d.rooms| - 1])
  {
    LastRoomIdFindsLastRoom(d);
    RoomCenter(d.rooms, d.lastRoomId - 1)
  }

  /** In a well-formed dungeon, id lastRoomId - 1 belongs to the last room and to no earlier one. */
  lemma LastRoomIdFindsLastRoom(d: Dungeon)
    ensures WellFormed(d) && |d.rooms| >= 1 ==>
      RoomCenter(d.rooms, d.lastRoomId - 1) == CentreOf(d.rooms[|d.rooms| - 1])
  {
    if WellFormed(d) && |d.rooms| >= 1 {
      var last := |d.rooms| - 1;
      forall j | 0 <= j < last ensures d.rooms[j].id != d.lastRoomId - 1 {
        assert d.rooms[j].id == j + 2;
      }
      RoomCenterFindsFirst(d.rooms, d.lastRoomId - 1, last);
    }
  }

  /** In a well-formed dungeon the start is the first room's centre and the end the last room's. */
  lemma StartAndEndAreFirstAndLastRoom(d: Dungeon)
    requires WellFormed(d) && |d.rooms| >= 1
    ensures StartOf(d) == CentreOf(d.rooms[0])
    ensures EndOf(d) == CentreOf(d.rooms[|d.rooms| - 1])
  {
  }

  /** Both points are cells of the grid that are not walls. */
  lemma StartAndEndAreOpen(d: Dungeon)
    requires WellFormed(d) && |d.rooms| >= 1
    ensures InGrid(d, StartOf(d)) && d.maze[StartOf(d).y][StartOf(d).x] > 0
    ensures InGrid(d, EndOf(d)) && d.maze[EndOf(d).y][EndOf(d).x] > 0
  {
    StartAndEndAreFirstAndLastRoom(d);
    assert d.rooms[0].id == 2;
    assert d.rooms[|d.rooms| - 1].id == |d.rooms| + 1;
  }

  /** With two or more rooms the start and the end are different cells. */
  lemma StartDiffersFromEnd(d: Dungeon)
    requires WellFormed(d) && |d.rooms| >= 2
    ensures StartOf(d) != EndOf(d)
  {
    StartAndEndAreFirstAndLastRoom(d);
    var first, last := d.rooms[0], d.rooms[|d.rooms| - 1];
    assert first.id == 2 && last.id == |d.rooms| + 1;
    assert d.maze[first.cy][first.cx] != d.maze[last.cy][last.cx];
  }

  /** With no rooms both searches miss, so start and end are both the origin. */
  lemma NoRoomsStartsAtOrigin(d: Dungeon)
    requires |d.rooms| == 0
    ensures StartOf(d) == Point(0, 0) && EndOf(d) == Point(0, 0)
  {
  }
}
