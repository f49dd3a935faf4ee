/**
 * The server's player registry: a map from player id to the record the
 * server keeps for that player, the effect of a move on it, and the roster
 * snapshot that is broadcast after every registration and every move.
 */
module Registry {
  import opened Wrappers
  import opened Dungeon
  import opened Movement

  /**
   * Player ids. The server draws them at random; the model takes each new id
   * as a parameter that is required not to be in use.
   */
  type PlayerId = nat

  /** What the registry holds for one player. */
  datatype Avatar = Avatar(x: int, y: int, spriteX: int, spriteY: int,
                           currentRow: int, currentFrame: int)

  /** One player as sent to the clients: the registry record with its id. */
  datatype PlayerView = PlayerView(id: PlayerId, x: int, y: int, spriteX: int, spriteY: int,
                                   currentRow: int, currentFrame: int)

  type Players = map<PlayerId, Avatar>

  function ViewOf(id: PlayerId, a: Avatar): (v: PlayerView)
    ensures v.id == id && v.x == a.x && v.y == a.y
    ensures v.spriteX == a.spriteX && v.spriteY == a.spriteY
    ensures v.currentRow == a.currentRow && v.currentFrame == a.currentFrame
  {
    PlayerView(id, a.x, a.y, a.spriteX, a.spriteY, a.currentRow, a.currentFrame)
  }

  function PositionOf(a: Avatar): Point {
    Point(a.x, a.y)
  }

  /** A player (re)placed at the start, facing down, at the first animation frame. */
  function StartAvatar(start: Point): (a: Avatar)
    ensures PositionOf(a) == start
    ensures a.currentRow == 0 && a.currentFrame == 0 && a.spriteX == 0 && a.spriteY == 0
  {
    Avatar(start.x, start.y, 0, 0, 0, 0)
  }

  /** The server's position update: one cell in direction d, with no wall or bounds check. */
  function Step(a: Avatar, d: Direction): (b: Avatar)
    ensures b.(x := a.x, y := a.y) == a
    ensures (b.x == a.x && (b.y == a.y - 1 || b.y == a.y + 1))
         || (b.y == a.y && (b.x == a.x - 1 || b.x == a.x + 1))
  {
    a.(x := a.x + Dx(d), y := a.y + Dy(d))
  }

  /**
   * The registry after a move: the target player steps in direction d, and
   * the player of the connection that sent the message (if that connection
   * has an id in the registry) is turned to face d.
   */
  function Moved(players: Players, mover: Option<PlayerId>, target: PlayerId, d: Direction): (r: Players)
    requires target in players
    ensures r.Keys == players.Keys
  {
    var shifted := players[target := Step(players[target], d)];
    if mover.Some? && mover.value in shifted
    then shifted[mover.value := shifted[mover.value].(currentRow := FacingRow(d))]
    else shifted
  }

  /** A move changes exactly one coordinate of the target, by one, and nothing else of anyone but the mover's facing. */
  lemma MovedEffect(players: Players, mover: Option<PlayerId>, target: PlayerId, d: Direction)
    requires target in players
    ensures Moved(players, mover, target, d).Keys == players.Keys
    ensures var after, before := Moved(players, mover, target, d)[target], players[target];
      && after.x == before.x + Dx(d) && after.y == before.y + Dy(d)
      && (after.x == before.x) != (after.y == before.y)
      && after.spriteX == before.spriteX && after.spriteY == before.spriteY
      && after.currentFrame == before.currentFrame
      && after.currentRow == (if mover == Some(target) then FacingRow(d) else before.currentRow)
    ensures mover.Some? && mover.value in players && mover.value != target ==>
      Moved(players, mover, target, d)[mover.value] == players[mover.value].(currentRow := FacingRow(d))
    ensures forall k | k in players && k != target && Some(k) != mover ::
      Moved(players, mover, target, d)[k] == players[k]
  {
    UnitOffset(d);
  }

  /**
   * roster is a snapshot of players: every record is the view of a
   * registered player, every registered player has a record, and no id
   * appears twice.
   */
  ghost predicate IsSnapshotOf(roster: seq<PlayerView>, players: Players) {
    && (forall i | 0 <= i < |roster| ::
          roster[i].id in players && roster[i] == ViewOf(roster[i].id, players[roster[i].id]))
    && (forall k | k in players :: exists i :: 0 <= i < |roster| && roster[i].id == k)
    && (forall i, j | 0 <= i < j < |roster| :: roster[i].id != roster[j].id)
  }

  /**
   * The server's roster loop: one record per registry entry, pushed in the
   * order the entries are visited (which the model leaves open).
   */
  method Snapshot(players: Players) returns (roster: seq<PlayerView>)
    ensures IsSnapshotOf(roster, players)
    ensures |roster| == |players|
  {
    roster := [];
    var remaining := players.Keys;
    while remaining != {}
      invariant remaining <= players.Keys
      invariant |roster| + |remaining| == |players.Keys|
      invariant forall i | 0 <= i < |roster| ::
        roster[i].id in players && roster[i].id !in remaining
        && roster[i] == ViewOf(roster[i].id, players[roster[i].id])
      invariant forall k | k in players && k !in remaining ::
        exists i :: 0 <= i < |roster| && roster[i].id == k
      invariant forall i, j | 0 <= i < j < |roster| :: roster[i].id != roster[j].id
      decreases remaining
    {
      var k :| k in remaining;
      ghost var before := roster;
      roster := roster + [ViewOf(k, players[k])];
      remaining := remaining - {k};
      assert roster[|before|].id == k;
      forall k' | k' in players && k' !in remaining
        ensures exists i :: 0 <= i < |roster| && roster[i].id == k'
      {
        if k' != k {
          var i :| 0 <= i < |before| && before[i].id == k';
          assert roster[i] == before[i];
        }
      }
    }
  }

  /** A snapshot carries exactly the registry's (id, x, y) triples. */
  lemma SnapshotPositions(roster: seq<PlayerView>, players: Players, id: PlayerId, x: int, y: int)
    requires IsSnapshotOf(roster, players)
    ensures (exists i :: 0 <= i < |roster| && roster[i].id == id && roster[i].x == x && roster[i].y == y)
        <==> (id in players && players[id].x == x && players[id].y == y)
  {
    if id in players && players[id].x == x && players[id].y == y {
      var i :| 0 <= i < |roster| && roster[i].id == id;
      assert roster[i].x == x && roster[i].y == y;
    }
  }
}
