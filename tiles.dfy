/**
 * The client's tile classifier: from the four neighbours of a cell it works
 * out in which directions a player may move, picks one of eleven tile kinds
 * through a fixed-priority cascade, and gives the tile's place in the tile
 * sprite sheet. It is also the only wall check in the game.
 */
module Tiles {
  import opened Dungeon
  import opened Movement

  /** Which neighbours of a cell are open (inside the grid and not a wall). */
  datatype Exits = Exits(up: bool, right: bool, down: bool, left: bool)

  /** The tile kinds; Blank is the empty space type a cell with no matching case keeps. */
  datatype SpaceType =
    | AllExits | LeftWall | UpWall | RightWall | DownWall
    | VerticalCorridor | HorizontalCorridor
    | BottomRight | BottomLeft | TopRight | TopLeft
    | Blank

  /** The record identifySpaceType returns. */
  datatype Tile = Tile(spaceType: SpaceType, tilesetX: int, tilesetY: int,
                       tilesizeX: int, tilesizeY: int,
                       canMoveRight: bool, canMoveLeft: bool, canMoveUp: bool, canMoveDown: bool)

  /** The spaceType string of each kind. */
  function SpaceTypeName(k: SpaceType): string {
    match k
    case AllExits => "all_exits"
    case LeftWall => "left_wall"
    case UpWall => "up_wall"
    case RightWall => "right_wall"
    case DownWall => "down_wall"
    case VerticalCorridor => "vertical_corridor"
    case HorizontalCorridor => "horizontal_corridor"
    case BottomRight => "bottom_right"
    case BottomLeft => "bottom_left"
    case TopRight => "top_right"
    case TopLeft => "top_left"
    case Blank => ""
  }

  lemma NamesDistinct(a: SpaceType, b: SpaceType)
    ensures SpaceTypeName(a) == SpaceTypeName(b) <==> a == b
  {
  }

  /**
   * maze[row][col] > 0 as JavaScript evaluates it on an existing row: a column
   * outside the row reads undefined, which is not greater than 0.
   */
  function CellOpen(grid: seq<seq<int>>, row: int, col: int): (b: bool)
    requires 0 <= row < |grid|
    ensures 0 <= col < |grid[row]| ==> (b <==> grid[row][col] > 0)
    ensures !(0 <= col < |grid[row]|) ==> !b
  {
    0 <= col < |grid[row]| && grid[row][col] > 0
  }

  /** The four bounds-guarded neighbour tests of identifySpaceType. */
  function NeighbourExits(grid: seq<seq<int>>, w: int, h: int, x: int, y: int): (e: Exits)
    requires Rectangular(grid, w, h) && 0 <= y < h
    ensures e.left <==> 0 <= x - 1 < w && grid[y][x - 1] > 0
    ensures e.right <==> 0 <= x + 1 < w && grid[y][x + 1] > 0
    ensures e.up <==> 0 <= y - 1 && 0 <= x < w && grid[y - 1][x] > 0
    ensures e.down <==> y + 1 < h && 0 <= x < w && grid[y + 1][x] > 0
  {
    Exits(up := y - 1 >= 0 && CellOpen(grid, y - 1, x),
          right := x + 1 < w && CellOpen(grid, y, x + 1),
          down := y + 1 < h && CellOpen(grid, y + 1, x),
          left := x - 1 >= 0 && CellOpen(grid, y, x - 1))
  }

  /** The cascade of identifySpaceType: the first case whose exits are all open wins. */
  function Classify(e: Exits): (k: SpaceType)
    ensures k == Blank <==> OpenCount(e) <= 1
    ensures k != Blank ==> ExitsOf(k) == e
  {
    if e.up && e.right && e.down && e.left then AllExits
    else if e.up && e.right && e.down then LeftWall
    else if e.right && e.down && e.left then UpWall
    else if e.down && e.left && e.up then RightWall
    else if e.left && e.up && e.right then DownWall
    else if e.up && e.down then VerticalCorridor
    else if e.left && e.right then HorizontalCorridor
    else if e.up && e.left then BottomRight
    else if e.up && e.right then BottomLeft
    else if e.down && e.left then TopRight
    else if e.down && e.right then TopLeft
    else Blank
  }

  /** Where the kind's tile sits in the tile sheet; Blank keeps the default (0, 0). */
  function TilesetX(k: SpaceType): (x: int)
    ensures 0 <= x && x % 16 == 0
  {
    match k
    case AllExits => 16
    case LeftWall => 0
    case UpWall => 16
    case RightWall => 32
    case DownWall => 16
    case VerticalCorridor => 144
    case HorizontalCorridor => 112
    case BottomRight => 32
    case BottomLeft => 0
    case TopRight => 32
    case TopLeft => 0
    case Blank => 0
  }

  /** The tile's row in the sheet, on the same 16-pixel grid as its column. */
  function TilesetY(k: SpaceType): (y: int)
    ensures 0 <= y && y % 16 == 0
  {
    match k
    case AllExits => 16
    case LeftWall => 16
    case UpWall => 0
    case RightWall => 16
    case DownWall => 32
    case VerticalCorridor => 16
    case HorizontalCorridor => 32
    case BottomRight => 32
    case BottomLeft => 32
    case TopRight => 0
    case TopLeft => 0
    case Blank => 0
  }

  function OpenCount(e: Exits): nat {
    (if e.up then 1 else 0) + (if e.right then 1 else 0)
    + (if e.down then 1 else 0) + (if e.left then 1 else 0)
  }

  /** The exits a tile kind stands for: its name lists the walls, the rest are open. */
  function ExitsOf(k: SpaceType): Exits {
    match k
    case AllExits => Exits(true, true, true, true)
    case LeftWall => Exits(true, true, true, false)
    case UpWall => Exits(false, true, true, true)
    case RightWall => Exits(true, false, true, true)
    case DownWall => Exits(true, true, false, true)
    case VerticalCorridor => Exits(true, false, true, false)
    case HorizontalCorridor => Exits(false, true, false, true)
    case BottomRight => Exits(true, false, false, true)
    case BottomLeft => Exits(true, true, false, false)
    case TopRight => Exits(false, false, true, true)
    case TopLeft => Exits(false, true, true, false)
    case Blank => Exits(false, false, false, false)
  }

  /** No case matches exactly when at most one neighbour is open. */
  lemma BlankIffDeadEnd(e: Exits)
    ensures Classify(e) == Blank <==> OpenCount(e) <= 1
  {
  }

  /**
   * Every matched kind fixes the exits exactly (the priority order rules out
   * the extra exit a later, weaker case would tolerate), and each of the
   * eleven kinds is what its own exits classify as.
   */
  lemma ClassifyInverse(e: Exits, k: SpaceType)
    ensures Classify(e) != Blank ==> ExitsOf(Classify(e)) == e
    ensures k != Blank ==> Classify(ExitsOf(k)) == k
  {
  }

  /**
   * For the nine kinds of the 3 x 3 block of the tile sheet, the column is
   * picked by the side walls (left closed: 0, right closed: 32, neither: 16)
   * and the row by the top and bottom walls in the same way.
   */
  lemma TilesetIsNineSlice(e: Exits)
    requires Classify(e) !in {VerticalCorridor, HorizontalCorridor, Blank}
    ensures TilesetX(Classify(e)) == (if !e.left then 0 else if !e.right then 32 else 16)
    ensures TilesetY(Classify(e)) == (if !e.up then 0 else if !e.down then 32 else 16)
  {
  }

  /** A dead-end cell is drawn with the top-left corner tile, which no other kind uses. */
  lemma DeadEndDrawnAsTopLeft(a: SpaceType, b: SpaceType)
    ensures TilesetX(Blank) == TilesetX(TopLeft) && TilesetY(Blank) == TilesetY(TopLeft)
    ensures a != b && {a, b} != {Blank, TopLeft} ==>
      (TilesetX(a), TilesetY(a)) != (TilesetX(b), TilesetY(b))
  {
  }

  /**
   * identifySpaceType at column x of row y. The row must exist (the source
   * throws on a missing row); a column outside the grid reads as a wall.
   */
  function IdentifySpaceType(grid: seq<seq<int>>, w: int, h: int, x: int, y: int): (t: Tile)
    requires Rectangular(grid, w, h) && 0 <= y < h
    ensures t.tilesizeX == 16 && t.tilesizeY == 16
    ensures t.spaceType == Classify(NeighbourExits(grid, w, h, x, y))
    ensures t.tilesetX == TilesetX(t.spaceType) && t.tilesetY == TilesetY(t.spaceType)
    ensures var e := NeighbourExits(grid, w, h, x, y);
      && (t.spaceType == Blank <==> OpenCount(e) <= 1)
      && (t.spaceType != Blank ==>
            && ExitsOf(t.spaceType) == e
            && t.canMoveUp == e.up && t.canMoveRight == e.right
            && t.canMoveDown == e.down && t.canMoveLeft == e.left)
      && (t.spaceType == Blank ==>
            && t.tilesetX == 0 && t.tilesetY == 0
            && !t.canMoveUp && !t.canMoveRight && !t.canMoveDown && !t.canMoveLeft)
  {
    var e := NeighbourExits(grid, w, h, x, y);
    var k := Classify(e);
    BlankIffDeadEnd(e);
    ClassifyInverse(e, k);
    if k == Blank then Tile(Blank, 0, 0, 16, 16, false, false, false, false)
    else Tile(k, TilesetX(k), TilesetY(k), 16, 16, e.right, e.left, e.up, e.down)
  }

  /** The tile's permission to move in direction d. */
  function CanMove(t: Tile, d: Direction): bool {
    match d
    case Right => t.canMoveRight
    case Left => t.canMoveLeft
    case Up => t.canMoveUp
    case Down => t.canMoveDown
  }

  /**
   * A move the classifier allows leads to an open cell inside the grid; it
   * allows nothing from a cell with at most one open neighbour, even when
   * that one neighbour is open.
   */
  lemma AllowedMoveLandsOnOpenCell(grid: seq<seq<int>>, w: int, h: int, x: int, y: int, d: Direction)
    requires Rectangular(grid, w, h) && 0 <= y < h
    ensures CanMove(IdentifySpaceType(grid, w, h, x, y), d) ==>
      && 0 <= x + Dx(d) < w && 0 <= y + Dy(d) < h
      && grid[y + Dy(d)][x + Dx(d)] > 0
    ensures OpenCount(NeighbourExits(grid, w, h, x, y)) <= 1 ==>
      !CanMove(IdentifySpaceType(grid, w, h, x, y), d)
    ensures OpenCount(NeighbourExits(grid, w, h, x, y)) >= 2 ==>
      (CanMove(IdentifySpaceType(grid, w, h, x, y), d) <==>
         0 <= x + Dx(d) < w && 0 <= y + Dy(d) < h && grid[y + Dy(d)][x + Dx(d)] > 0)
  {
  }
}
