/**
 * The server's game state and its message handlers: the dungeon with its
 * start and end points, the player registry, and the stopwatch, held by one
 * GameSession; each connection's own state is the player id it was given.
 */
module GameServer {
  import opened Wrappers
  import opened Dungeon
  import opened Movement
  import opened Registry
  import Stopwatch
  import TimeFormat

  /** What a connection remembers between messages: the id assigned to it, if any. */
  class Connection {
    var playerId: Option<PlayerId>

    constructor ()
      ensures playerId == None
    {
      playerId := None;
    }
  }

  /** The completion record made when a player reaches the goal. */
  datatype Completion = Completion(playerId: PlayerId, time: string, newDungeon: DungeonData)

  /**
   * The outcome of a "location_update": either the handler stops at the
   * lookup of an unknown player (the source throws there), or it broadcasts
   * the roster and, when the sender stands on the goal, a completion.
   */
  datatype MoveReply =
    | UnknownPlayer
    | Broadcast(roster: seq<PlayerView>, goal: Option<Completion>)

  /** The sender has a registry entry and it stands on the goal. */
  ghost predicate ReachedGoal(players: Players, mover: Option<PlayerId>, goal: Point)
    ensures ReachedGoal(players, mover, goal) <==>
      && mover.Some? && mover.value in players
      && players[mover.value].x == goal.x && players[mover.value].y == goal.y
  {
    mover.Some? && mover.value in players && PositionOf(players[mover.value]) == goal
  }

  class GameSession {
    var dungeon: Dungeon
    var dungeonStart: Point
    var dungeonEnd: Point
    var players: Players
    var time: nat
    var elapsedSeconds: nat
    var mins: nat
    var secs: nat

    /**
     * The start and end are the centres of rooms 2 and lastRoomId - 1 of the
     * current dungeon; the two tick counters agree; and once the clock has
     * ticked since the last reset, minutes and seconds are derived from it
     * (a reset leaves the previous minutes and seconds until the next tick).
     */
    ghost predicate Valid()
      reads this
    {
      && WellFormed(dungeon)
      && dungeonStart == StartOf(dungeon)
      && dungeonEnd == EndOf(dungeon)
      && time == elapsedSeconds
      && secs < 60
      && (time > 0 ==> mins == Stopwatch.Minutes(time) && secs == Stopwatch.Seconds(time))
    }

    /** Server start-up: the first dungeon is generated, no players, the clock at zero. */
    constructor (initial: Dungeon)
      requires WellFormed(initial)
      ensures Valid()
      ensures dungeon == initial && players == map[]
      ensures time == 0 && mins == 0 && secs == 0
    {
      var start := FindRoomCenter(initial.rooms, 2);
      var end := FindRoomCenter(initial.rooms, initial.lastRoomId - 1);
      dungeon, dungeonStart, dungeonEnd := initial, start, end;
      players := map[];
      time, elapsedSeconds, mins, secs := 0, 0, 0, 0;
    }

    /** generateDungeon: swap in the generator's next dungeon and derive start and end from it. */
    method GenerateDungeon(next: Dungeon)
      requires Valid() && WellFormed(next)
      modifies this`dungeon, this`dungeonStart, this`dungeonEnd
      ensures Valid()
      ensures dungeon == next
      ensures dungeonStart == StartOf(next) && dungeonEnd == EndOf(next)
    {
      dungeon := next;
      dungeonStart := FindRoomCenter(next.rooms, 2);
      dungeonEnd := FindRoomCenter(next.rooms, next.lastRoomId - 1);
    }

    /** getDungeonData: the current dungeon with its start and end points. */
    function GetDungeonData(): (r: DungeonData)
      reads this
      requires Valid()
      ensures r.dungeon == dungeon
      ensures r.startingPoint == StartOf(r.dungeon) && r.endingPoint == EndOf(r.dungeon)
    {
      DungeonData(dungeon, dungeonStart, dungeonEnd)
    }

    /** A new connection: it has no id yet and is sent the current dungeon data. */
    method Connect() returns (conn: Connection, data: DungeonData)
      requires Valid()
      ensures fresh(conn) && conn.playerId == None
      ensures data == GetDungeonData()
    {
      conn := new Connection();
      data := GetDungeonData();
    }

    /** One 100 ms tick of the stopwatch. */
    method Tick()
      requires Valid()
      modifies this`time, this`elapsedSeconds, this`mins, this`secs
      ensures Valid()
      ensures time == old(time) + 1 && elapsedSeconds == time
      ensures mins == Stopwatch.Minutes(time) && secs == Stopwatch.Seconds(time)
    {
      time := time + 1;
      elapsedSeconds := elapsedSeconds + 1;
      mins := time / 10 / 60;
      secs := elapsedSeconds / 10 % 60;
      Stopwatch.ClockSplitsWholeSeconds(time);
    }

    /** reset: both tick counters back to zero; minutes and seconds are left as they were. */
    method Reset()
      requires Valid()
      modifies this`time, this`elapsedSeconds
      ensures Valid()
      ensures time == 0 && elapsedSeconds == 0
    {
      time := 0;
      elapsedSeconds := 0;
    }

    /**
     * "id_request": a connection without an id gets the fresh one, a
     * connection with an id keeps it; either way its player is (re)placed at
     * the start facing down, the roster is rebuilt, and the player's record
     * is the reply.
     */
    method RequestId(conn: Connection, freshId: PlayerId) returns (reply: PlayerView, roster: seq<PlayerView>)
      requires Valid()
      requires conn.playerId == None ==> freshId !in players
      modifies this`players, conn
      ensures Valid()
      ensures conn.playerId == if old(conn.playerId).Some? then old(conn.playerId) else Some(freshId)
      ensures players == old(players)[conn.playerId.value := StartAvatar(dungeonStart)]
      ensures old(conn.playerId) == None ==> |players| == |old(players)| + 1
      ensures reply == ViewOf(conn.playerId.value, StartAvatar(dungeonStart))
      ensures IsSnapshotOf(roster, players) && |roster| == |players|
    {
      if conn.playerId == None {
        conn.playerId := Some(freshId);
      }
      var id := conn.playerId.value;
      players := players[id := StartAvatar(dungeonStart)];
      roster := Snapshot(players);
      reply := ViewOf(id, players[id]);
    }

    /**
     * "location_update": move the named player one cell (no wall check), turn
     * the sender to face that way, broadcast the roster, and if the sender
     * now stands on the goal, regenerate the dungeon, record the padded
     * completion time and reset the stopwatch. next is the dungeon the
     * generator would produce.
     */
    method UpdateLocation(conn: Connection, target: PlayerId, direction: string, next: Dungeon)
      returns (reply: MoveReply)
      requires Valid() && WellFormed(next)
      modifies this`players, this`dungeon, this`dungeonStart, this`dungeonEnd,
               this`time, this`elapsedSeconds
      ensures Valid()
      ensures reply.UnknownPlayer? <==> Parse(direction).Some? && target !in old(players)
      ensures reply.UnknownPlayer? ==> unchanged(this)
      ensures reply.Broadcast? ==>
        players == if Parse(direction).Some?
                   then Moved(old(players), conn.playerId, target, Parse(direction).value)
                   else old(players)
      ensures reply.Broadcast? ==> IsSnapshotOf(reply.roster, players) && |reply.roster| == |players|
      ensures reply.Broadcast? ==>
        (reply.goal.Some? <==> ReachedGoal(players, conn.playerId, old(dungeonEnd)))
      ensures reply.Broadcast? && reply.goal.Some? ==>
        && dungeon == next && dungeonStart == StartOf(next) && dungeonEnd == EndOf(next)
        && time == 0 && elapsedSeconds == 0
        && reply.goal.value == Completion(conn.playerId.value,
                                          TimeFormat.CompletionTime(mins, secs),
                                          DungeonData(next, StartOf(next), EndOf(next)))
      ensures reply.Broadcast? && reply.goal.None? ==>
        && dungeon == old(dungeon) && dungeonStart == old(dungeonStart) && dungeonEnd == old(dungeonEnd)
        && time == old(time) && elapsedSeconds == old(elapsedSeconds)
    {
      var dir := Parse(direction);
      if dir.Some? && target !in players {
        return UnknownPlayer;
      }
      if dir.Some? {
        ApplyMove(conn.playerId, target, dir.value);
      }
      ghost var moved := players;
      assert moved == if dir.Some? then Moved(old(players), conn.playerId, target, dir.value) else old(players);
      reply := BroadcastMove(conn.playerId, next);
      assert players == moved;
    }

    /**
     * The end of "location_update" once the registry is updated: the roster
     * is snapshotted, and if the sender stands on the goal the run finishes.
     */
    method BroadcastMove(mover: Option<PlayerId>, next: Dungeon) returns (reply: MoveReply)
      requires Valid() && WellFormed(next)
      modifies this`dungeon, this`dungeonStart, this`dungeonEnd, this`time, this`elapsedSeconds
      ensures Valid()
      ensures reply.Broadcast? && IsSnapshotOf(reply.roster, players) && |reply.roster| == |players|
      ensures reply.goal.Some? <==> ReachedGoal(players, mover, old(dungeonEnd))
      ensures reply.goal.Some? ==>
        && dungeon == next && dungeonStart == StartOf(next) && dungeonEnd == EndOf(next)
        && time == 0 && elapsedSeconds == 0
        && reply.goal.value == Completion(mover.value, TimeFormat.CompletionTime(mins, secs),
                                          DungeonData(next, StartOf(next), EndOf(next)))
      ensures reply.goal.None? ==>
        && dungeon == old(dungeon) && dungeonStart == old(dungeonStart) && dungeonEnd == old(dungeonEnd)
        && time == old(time) && elapsedSeconds == old(elapsedSeconds)
    {
      var roster := Snapshot(players);
      if mover.Some? && mover.value in players && PositionOf(players[mover.value]) == dungeonEnd {
        assert ReachedGoal(players, mover, old(dungeonEnd));
        var record := FinishRun(mover.value, next);
        reply := Broadcast(roster, Some(record));
      } else {
        assert !ReachedGoal(players, mover, old(dungeonEnd));
        reply := Broadcast(roster, None);
      }
    }

    /** The registry update of "location_update" for a known player and a valid direction. */
    method ApplyMove(mover: Option<PlayerId>, target: PlayerId, d: Direction)
      requires Valid() && target in players
      modifies this`players
      ensures Valid()
      ensures players == Moved(old(players), mover, target, d)
    {
      players := Moved(players, mover, target, d);
    }

    /**
     * The goal branch of "location_update": regenerate the dungeon, record
     * the winner with the padded minutes and seconds, and reset the
     * stopwatch. The registry is left as it is.
     */
    method FinishRun(winner: PlayerId, next: Dungeon) returns (record: Completion)
      requires Valid() && WellFormed(next)
      modifies this`dungeon, this`dungeonStart, this`dungeonEnd, this`time, this`elapsedSeconds
      ensures Valid()
      ensures dungeon == next && dungeonStart == StartOf(next) && dungeonEnd == EndOf(next)
      ensures time == 0 && elapsedSeconds == 0
      ensures record == Completion(winner, TimeFormat.CompletionTime(mins, secs),
                                   DungeonData(next, StartOf(next), EndOf(next)))
    {
      GenerateDungeon(next);
      record := Completion(winner, TimeFormat.CompletionTime(mins, secs), GetDungeonData());
      Reset();
    }

    /** "disconnect": the connection's entry leaves the registry; every other entry stays. */
    method Disconnect(conn: Connection)
      requires Valid()
      modifies this`players
      ensures Valid()
      ensures players == if conn.playerId.Some? then old(players) - {conn.playerId.value} else old(players)
      ensures forall k | k in old(players) && Some(k) != conn.playerId :: k in players && players[k] == old(players)[k]
    {
      if conn.playerId.Some? {
        players := players - {conn.playerId.value};
      }
    }
  }

  /** During the first second of ticks (0 to 9), minutes and seconds are both 0 and read "00:00". */
  lemma ClockZeroInFirstSecond(ticks: nat)
    requires ticks < 10
    ensures Stopwatch.Minutes(ticks) == 0 && Stopwatch.Seconds(ticks) == 0
    ensures TimeFormat.TimerDisplay(Stopwatch.Minutes(ticks), Stopwatch.Seconds(ticks)) == "00:00"
  {
    assert TimeFormat.Decimal(0) == "0";
  }

  /**
   * Two connections that each ask for an id get different ids, and the
   * roster broadcast after the second request carries both players at the
   * start.
   */
  method TwoPlayersJoin(session: GameSession, first: PlayerId, second: PlayerId)
    returns (a: Connection, b: Connection, roster: seq<PlayerView>)
    requires session.Valid() && session.players == map[] && first != second
    modifies session
    ensures a.playerId == Some(first) && b.playerId == Some(second)
    ensures session.players.Keys == {first, second}
    ensures |roster| == 2
    ensures IsSnapshotOf(roster, session.players)
    ensures forall r | r in roster :: r.id in {first, second} && PositionOf(StartAvatar(session.dungeonStart)) == Point(r.x, r.y)
  {
    var dataA, dataB;
    a, dataA := session.Connect();
    b, dataB := session.Connect();
    var start := session.dungeonStart;
    var replyA, _ := session.RequestId(a, first);
    assert session.players == map[first := StartAvatar(start)];
    var replyB, rosterB := session.RequestId(b, second);
    assert session.players == map[first := StartAvatar(start), second := StartAvatar(start)];
    roster := rosterB;
    SnapshotOfTwoAtStart(roster, first, second, StartAvatar(start));
  }

  /** A roster of a registry whose two players stand at the same place lists only them, there. */
  lemma SnapshotOfTwoAtStart(roster: seq<PlayerView>, first: PlayerId, second: PlayerId, a: Avatar)
    requires IsSnapshotOf(roster, map[first := a, second := a])
    ensures forall r | r in roster :: r.id in {first, second} && PositionOf(a) == Point(r.x, r.y)
  {
  }

  /**
   * A reset leaves the minutes and seconds as they were; the first tick after
   * it derives them from the zeroed counter, and from then until the tenth
   * tick the client shows "00:00".
   */
  method FirstSecondAfterReset(session: GameSession, n: nat)
    requires session.Valid() && 1 <= n < 10
    modifies session
    ensures session.Valid() && session.time == n
    ensures session.mins == 0 && session.secs == 0
    ensures TimeFormat.TimerDisplay(session.mins, session.secs) == "00:00"
    ensures session.dungeon == old(session.dungeon) && session.players == old(session.players)
  {
    session.Reset();
    var i := 0;
    while i < n
      invariant 0 <= i <= n && session.Valid() && session.time == i
      invariant session.dungeon == old(session.dungeon) && session.players == old(session.players)
    {
      session.Tick();
      i := i + 1;
    }
    ClockZeroInFirstSecond(n);
  }
}
