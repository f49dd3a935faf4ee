/**
 * The browser client's game logic: its copy of the dungeon, its own player
 * and the roster, the move guard in front of every key, click and touch
 * handler, and the merge of a received roster into its own player.
 */
module GameClient {
  import opened Wrappers
  import opened Dungeon
  import opened Movement
  import opened Registry
  import opened Tiles

  /** Messages the client sends. */
  datatype ClientMessage =
    | IdRequest
    | LocationUpdate(player: PlayerView, direction: string)

  /** The last record in the roster carrying id, if any. */
  function LastWithId(roster: seq<PlayerView>, id: PlayerId): Option<PlayerView> {
    if |roster| == 0 then None
    else if roster[|roster| - 1].id == id then Some(roster[|roster| - 1])
    else LastWithId(roster[..|roster| - 1], id)
  }

  /**
   * The client's own player after a roster arrives: position copied from the
   * (last) record with its id, everything else kept; no own player, no change.
   */
  function MergePosition(player: Option<PlayerView>, roster: seq<PlayerView>): (r: Option<PlayerView>)
    ensures r.Some? <==> player.Some?
    ensures r.Some? ==> r.value == player.value.(x := r.value.x, y := r.value.y)
    ensures player.Some? && LastWithId(roster, player.value.id).None? ==> r == player
  {
    if player.None? then None
    else match LastWithId(roster, player.value.id)
      case None => player
      case Some(r) => Some(player.value.(x := r.x, y := r.y))
  }

  lemma {:induction false} LastWithIdIsLast(roster: seq<PlayerView>, id: PlayerId, i: int)
    requires 0 <= i < |roster| && roster[i].id == id
    requires forall j | i < j < |roster| :: roster[j].id != id
    ensures LastWithId(roster, id) == Some(roster[i])
    decreases |roster|
  {
    if i < |roster| - 1 {
      var prefix := roster[..|roster| - 1];
      assert prefix[i] == roster[i];
      LastWithIdIsLast(prefix, id, i);
    }
  }

  lemma {:induction false} LastWithIdAbsent(roster: seq<PlayerView>, id: PlayerId)
    requires forall j | 0 <= j < |roster| :: roster[j].id != id
    ensures LastWithId(roster, id) == None
    decreases |roster|
  {
    if |roster| > 0 {
      LastWithIdAbsent(roster[..|roster| - 1], id);
    }
  }

  /**
   * A roster the server built from its registry puts the client's player
   * where the registry has it, and leaves it alone when the registry has no
   * entry for it.
   */
  lemma MergeFollowsRegistry(p: PlayerView, roster: seq<PlayerView>, players: Players)
    requires IsSnapshotOf(roster, players)
    ensures p.id in players ==>
      MergePosition(Some(p), roster) == Some(p.(x := players[p.id].x, y := players[p.id].y))
    ensures p.id !in players ==> MergePosition(Some(p), roster) == Some(p)
  {
    if p.id in players {
      var i :| 0 <= i < |roster| && roster[i].id == p.id;
      LastWithIdIsLast(roster, p.id, i);
    } else {
      LastWithIdAbsent(roster, p.id);
    }
  }

  /** The arrow key codes: 39 right, 37 left, 38 up, 40 down. */
  function KeyDirection(which: int): (r: Option<Direction>)
    ensures r.Some? <==> which == 37 || which == 38 || which == 39 || which == 40
  {
    if which == 39 then Some(Right)
    else if which == 37 then Some(Left)
    else if which == 38 then Some(Up)
    else if which == 40 then Some(Down)
    else None
  }

  /**
   * The guard in front of every move: identifySpaceType at the player's
   * position decides, and only a direction it reports open is sent. With no
   * player yet, or a player outside the grid's rows, nothing is sent (the
   * source's lookup throws there).
   */
  function RequestMove(d: Dungeon, player: Option<PlayerView>, dir: Direction): (m: Option<ClientMessage>)
    requires Rectangular(d.maze, d.w, d.h)
    ensures m.Some? <==>
      && player.Some? && 0 <= player.value.y < d.h
      && CanMove(IdentifySpaceType(d.maze, d.w, d.h, player.value.x, player.value.y), dir)
    ensures m.Some? ==> m.value == LocationUpdate(player.value, Name(dir))
  {
    if player.None? || !(0 <= player.value.y < d.h) then None
    else
      var tile := IdentifySpaceType(d.maze, d.w, d.h, player.value.x, player.value.y);
      if CanMove(tile, dir) then Some(LocationUpdate(player.value, Name(dir))) else None
  }

  /** The keydown handler: an arrow key asks for a guarded move, any other key sends nothing. */
  function KeyDown(d: Dungeon, player: Option<PlayerView>, which: int): (m: Option<ClientMessage>)
    requires Rectangular(d.maze, d.w, d.h)
    ensures KeyDirection(which).None? ==> m.None?
    ensures KeyDirection(which).Some? ==> m == RequestMove(d, player, KeyDirection(which).value)
    ensures m.Some? ==> exists dir: Direction ::
      KeyDirection(which) == Some(dir) && m == RequestMove(d, player, dir)
  {
    match KeyDirection(which)
    case None => None
    case Some(dir) => RequestMove(d, player, dir)
  }

  /** Every message the guard lets through names a direction the server reads back. */
  lemma RequestedDirectionParses(d: Dungeon, player: Option<PlayerView>, dir: Direction)
    requires Rectangular(d.maze, d.w, d.h)
    ensures var m := RequestMove(d, player, dir);
      m.Some? ==> m.value.LocationUpdate? && Parse(m.value.direction) == Some(dir)
  {
    ParseIsNameInverse(Name(dir), dir);
  }

  /** Cell (x, y) is inside the grid and not a wall. */
  predicate OnOpenCell(d: Dungeon, x: int, y: int)
    requires Rectangular(d.maze, d.w, d.h)
  {
    0 <= y < d.h && 0 <= x < d.w && d.maze[y][x] > 0
  }

  /** The server's steps for a sequence of directions, applied in order. */
  function Walk(a: Avatar, dirs: seq<Direction>): Avatar
    decreases |dirs|
  {
    if |dirs| == 0 then a else Walk(Step(a, dirs[0]), dirs[1..])
  }

  /** Every step of the walk is one the client's guard allows where the player then stands. */
  predicate Guarded(d: Dungeon, a: Avatar, dirs: seq<Direction>)
    requires Rectangular(d.maze, d.w, d.h)
    decreases |dirs|
  {
    |dirs| == 0 ||
    (&& 0 <= a.y < d.h
     && CanMove(IdentifySpaceType(d.maze, d.w, d.h, a.x, a.y), dirs[0])
     && Guarded(d, Step(a, dirs[0]), dirs[1..]))
  }

  /**
   * The server checks no walls, so a player stays on open cells only as long
   * as every move it applies was allowed by the client's guard at the
   * player's current position.
   */
  lemma {:induction false} GuardedWalkStaysOpen(d: Dungeon, a: Avatar, dirs: seq<Direction>)
    requires Rectangular(d.maze, d.w, d.h)
    requires OnOpenCell(d, a.x, a.y)
    requires Guarded(d, a, dirs)
    ensures OnOpenCell(d, Walk(a, dirs).x, Walk(a, dirs).y)
    decreases |dirs|
  {
    if |dirs| > 0 {
      AllowedMoveLandsOnOpenCell(d.maze, d.w, d.h, a.x, a.y, dirs[0]);
      GuardedWalkStaysOpen(d, Step(a, dirs[0]), dirs[1..]);
    }
  }

  /** A player placed at the start of a well-formed dungeon with rooms stays on open cells under guarded moves. */
  lemma WalkFromStartStaysOpen(d: Dungeon, dirs: seq<Direction>)
    requires WellFormed(d) && |d.rooms| >= 1
    requires Guarded(d, StartAvatar(StartOf(d)), dirs)
    ensures OnOpenCell(d, Walk(StartAvatar(StartOf(d)), dirs).x, Walk(StartAvatar(StartOf(d)), dirs).y)
  {
    StartAndEndAreOpen(d);
    GuardedWalkStaysOpen(d, StartAvatar(StartOf(d)), dirs);
  }

  /** The client's state: what it has been told by the server so far. */
  class ClientState {
    var dungeonData: Option<DungeonData>
    var player: Option<PlayerView>
    var playerList: seq<PlayerView>

    constructor ()
      ensures dungeonData == None && player == None && playerList == []
    {
      dungeonData, player, playerList := None, None, [];
    }

    /** "dungeon data": keep the new dungeon and ask the server for an id. */
    method OnDungeonData(data: DungeonData) returns (m: ClientMessage)
      modifies this`dungeonData
      ensures dungeonData == Some(data) && m == IdRequest
    {
      dungeonData := Some(data);
      m := IdRequest;
    }

    /**
     * The keydown handler on this client's state: the guard reads the dungeon
     * last received and the client's own player, and the move it sends names
     * that player. Before any dungeon data has arrived there is no player
     * either (the source's handler stops on the unassigned player), and
     * nothing is sent.
     */
    method OnKeyDown(which: int) returns (m: Option<ClientMessage>)
      requires dungeonData.Some? ==>
        Rectangular(dungeonData.value.dungeon.maze, dungeonData.value.dungeon.w, dungeonData.value.dungeon.h)
      ensures dungeonData.None? ==> m.None?
      ensures dungeonData.Some? ==> m == KeyDown(dungeonData.value.dungeon, player, which)
      ensures m.Some? ==> player.Some? && m.value == LocationUpdate(player.value, m.value.direction)
    {
      if dungeonData.None? {
        m := None;
      } else {
        m := KeyDown(dungeonData.value.dungeon, player, which);
      }
    }

    /** "player_id": the reply becomes the client's own player. */
    method OnPlayerId(data: PlayerView)
      modifies this`player
      ensures player == Some(data)
    {
      player := Some(data);
    }

    /** "new_player": the roster replaces the player list. */
    method OnNewPlayer(data: seq<PlayerView>)
      modifies this`playerList
      ensures playerList == data
    {
      playerList := data;
    }

    /**
     * "updated_locations": the roster replaces the player list, and every
     * record with the own player's id copies its position into the own
     * player, so the last such record wins.
     */
    method OnUpdatedLocations(data: seq<PlayerView>)
      modifies this`player, this`playerList
      ensures playerList == data
      ensures player == MergePosition(old(player), data)
    {
      playerList := data;
      var i := 0;
      while i < |playerList|
        invariant 0 <= i <= |playerList| && playerList == data
        invariant player == MergePosition(old(player), data[..i])
      {
        assert data[..i + 1][..i] == data[..i];
        if player.Some? && playerList[i].id == player.value.id {
          player := Some(player.value.(x := playerList[i].x, y := playerList[i].y));
        }
        i := i + 1;
      }
      assert data[..i] == data;
    }
  }
}
