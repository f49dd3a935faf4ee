/**
 * The four move directions as the client names them in a "location_update"
 * message, the cell offset each stands for, and the sprite-sheet row the
 * server records for a player facing that way.
 */
module Movement {
  import opened Wrappers

  datatype Direction = Right | Left | Up | Down

  /** The string the client sends. */
  function Name(d: Direction): (s: string)
    ensures s in {"right", "left", "up", "down"}
  {
    match d
    case Right => "right"
    case Left => "left"
    case Up => "up"
    case Down => "down"
  }

  /**
   * The server's reading of the direction string: each of its four tests
   * clears the string once it matches, so at most one of them fires; any
   * other string matches none.
   */
  function Parse(s: string): (r: Option<Direction>)
    ensures r.Some? <==> s in {"right", "left", "up", "down"}
    ensures r.Some? ==> Name(r.value) == s
  {
    if s == "right" then Some(Right)
    else if s == "left" then Some(Left)
    else if s == "up" then Some(Up)
    else if s == "down" then Some(Down)
    else None
  }

  lemma ParseIsNameInverse(s: string, d: Direction)
    ensures Parse(s) == Some(d) <==> s == Name(d)
  {
  }

  /** Column offset: right is +1, left is -1. */
  function Dx(d: Direction): (dx: int)
    ensures -1 <= dx <= 1
    ensures dx == 0 <==> d == Up || d == Down
  {
    match d
    case Right => 1
    case Left => -1
    case _ => 0
  }

  /** Row offset: rows grow downwards, so up is -1 and down is +1. */
  function Dy(d: Direction): (dy: int)
    ensures -1 <= dy <= 1
    ensures dy == 0 <==> d == Right || d == Left
  {
    match d
    case Up => -1
    case Down => 1
    case _ => 0
  }

  /** The sprite-sheet row for a player facing d: right 3, left 2, up 1, down 0. */
  function FacingRow(d: Direction): (row: int)
    ensures 0 <= row < 4
  {
    match d
    case Right => 3
    case Left => 2
    case Up => 1
    case Down => 0
  }

  /** Distinct directions face distinct rows. */
  lemma FacingRowInjective(d: Direction, e: Direction)
    ensures FacingRow(d) == FacingRow(e) <==> d == e
  {
  }

  /** Every direction moves exactly one cell along exactly one axis. */
  lemma UnitOffset(d: Direction)
    ensures (Dx(d) == 0) != (Dy(d) == 0)
    ensures Dx(d) * Dx(d) + Dy(d) * Dy(d) == 1
  {
  }
}
