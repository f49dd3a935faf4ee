# Dungeon game core, modelled in Dafny

This project models the game logic of a small multiplayer dungeon game. The
game has a socket.io server and a browser client. The model covers two parts.

- **The server's game state** (`DungeonServer.js`). The server holds one
  dungeon taken from a maze generator. Its start and end points are the
  centres of room 2 and of room `_lastRoomId - 1`, found by a linear search
  of the room list. The server also holds a registry from player id to player
  record and a stopwatch counted in 100 ms ticks. These become fields of the
  class `GameServer.GameSession`. Each socket handler becomes one method:
  `id_request` is `RequestId`, `location_update` is `UpdateLocation` and
  `disconnect` is `Disconnect`. The timer callbacks become `Tick` and `Reset`.
  A connection's own state is the id it was given (`GameServer.Connection`).
  The roster loop that copies the registry into a broadcast array becomes
  `Registry.Snapshot`.
- **The client's game logic** (`public/DungeonClient.js`). `identifySpaceType`
  is modelled in the module `Tiles`. It computes four bounds-guarded "can move"
  flags from a cell's neighbours and classifies the cell into one of eleven
  tile kinds through a fixed-priority cascade. It is the only wall check in
  the game. Every key, click and touch handler sends a move only when the
  matching flag is set (`GameClient.RequestMove`). The client also merges a
  received roster into its own player (`GameClient.ClientState`) and
  zero-pads the timer (`TimeFormat`).

Two behaviours of the source are kept as written, not corrected:

- The server checks no walls. A move always shifts the named player by one
  cell. A player stays on open cells only while every move was allowed by
  the client's guard at the player's current position
  (`GameClient.GuardedWalkStaysOpen`).
- A repeated `id_request` keeps the connection's id but puts the player back
  at the start, facing down.

Other details of the source that the model keeps:

- In `location_update` the coordinates of the player named in the message
  change.
- The facing row (`currentRow`) changes on the sending connection's own entry.
- The goal test looks at the sender's own position.
- `reset` zeroes only the two tick counters. The minutes and seconds keep
  their old values until the next tick.
- A cell with at most one open neighbour matches no case of the cascade. All
  its flags therefore stay false, so a player cannot leave a dead end. It is
  drawn with the top-left tile.

Two guards that a server of this kind might be expected to have are absent
from the code, and the model does not add them:

- The server re-checks no move against the walls; the client's guard is the
  only check.
- The server has no fallback when dungeon generation fails: it takes
  whatever the generator returns. The model instead requires the
  generator's output to be well formed (`Dungeon.WellFormed`).

Modules: `Wrappers` (Option), `Dungeon`, `Stopwatch`, `TimeFormat`,
`Movement`, `Registry`, `GameServer`, `Tiles`, `GameClient`.

## Model

| member | source | states |
|---|---|---|
| `Dungeon.FindRoomCenter` | DungeonServer.js:399-414 | returns the centre of the first room whose id is k, and (0, 0) when no room has id k; agrees with the specification function RoomCenter |
| `Dungeon.RoomCenter` | DungeonServer.js:399-414 | specification of the search: when no room has id k the result is the origin (0, 0); RoomCenterFindsFirst gives the first match's centre otherwise |
| `Dungeon.RoomCenterFindsFirst` | DungeonServer.js:405-411 | when room i is the first with id k, the search yields room i's centre |
| `Dungeon.RoomCenterMissing` | DungeonServer.js:400-413 | when no room has id k, the search yields the origin |
| `Dungeon.StartOf` | DungeonServer.js:431 | the start point; in a well-formed dungeon with a room it is the first room's centre |
| `Dungeon.EndOf` | DungeonServer.js:432 | the goal; in a well-formed dungeon with a room it is the last room's centre, since id lastRoomId - 1 belongs to that room alone |
| `Dungeon.StartAndEndAreFirstAndLastRoom` | DungeonServer.js:416-433 | for well-formed generator output, the start is the first room's centre and the end the last room's centre |
| `Dungeon.StartAndEndAreOpen` | DungeonServer.js:431-432 | start and end are cells of the grid that are not walls |
| `Dungeon.StartDiffersFromEnd` | DungeonServer.js:431-432 | with two or more rooms, start and end are different cells |
| `Dungeon.NoRoomsStartsAtOrigin` | DungeonServer.js:399-414 | with no rooms, both searches miss and start and end are both (0, 0) |
| `Stopwatch.ClockSplitsWholeSeconds` | DungeonServer.js:166-167 | seconds stay below 60, and 60 * minutes + seconds is the number of whole seconds, ticks div 10 |
| `Stopwatch.Minutes` | DungeonServer.js:166 | the displayed minutes m satisfy 600 * m <= ticks < 600 * (m + 1) |
| `Stopwatch.Seconds` | DungeonServer.js:167 | the displayed seconds are below 60 |
| `Stopwatch.MinutesAreWholeMinutes` | DungeonServer.js:166 | minutes = ticks div 600, the number of complete 600-tick minutes |
| `Stopwatch.TickNeverGoesBack` | DungeonServer.js:162-170 | one more tick never decreases the displayed minutes, nor the seconds within the same minute |
| `TimeFormat.Pad` | DungeonServer.js:333-338 | the padded text of n is all digits and reads back as n; below 10 it is two characters starting with "0", from 10 up it does not start with "0" (the plain decimal) |
| `TimeFormat.PadIsDigits` | DungeonServer.js:333-338 | padded text is all digits and at least two long, exactly two below 100 |
| `TimeFormat.DecimalRoundTrip` | DungeonServer.js:334 | the decimal form of a number, as the "0" + n concatenation writes it, reads back as that number |
| `TimeFormat.ClockText` | DungeonServer.js:341 | the text is the padded minutes, then the separator, then the padded seconds; minutes of 10 or more and seconds of 10 or more get no leading "0", and with a separator that has no digit at either end the text splits back into the same pair |
| `TimeFormat.TimerDisplay` | public/DungeonClient.js:446-456 | the client's text is the padded minutes, ":" and the padded seconds, and reads back as (mins, secs); minutes of 10 or more (also 100 or more) get no leading "0"; for values below 100 it is five characters, two digits, ':' at index 2 and two digits |
| `TimeFormat.CompletionTime` | DungeonServer.js:332-341 | the server's "mm : ss" completion text reads back as (mins, secs); minutes of 10 or more get no leading "0"; for values below 100 it is two digits, " : " at 2..5 and two digits |
| `TimeFormat.CompletionTimeIsPaddedJoin` | DungeonServer.js:333-341 | at any values, also from 100 minutes on, the completion text is exactly the padded minutes, " : " and the padded seconds |
| `Movement.ParseIsNameInverse` | DungeonServer.js:277-299 | the server's direction test matches exactly the string the client sends for that direction, and nothing else |
| `Movement.Name` | public/DungeonClient.js:320-347 | the client sends one of "right", "left", "up" and "down"; ParseIsNameInverse shows the server reads each back as its direction |
| `Movement.Parse` | DungeonServer.js:277-299 | a direction is recognised exactly for "right", "left", "up" and "down", and the recognised direction's name is the string received |
| `Movement.FacingRow` | DungeonServer.js:277-299 | the facing row is a row of the four-row sprite sheet |
| `Movement.FacingRowInjective` | DungeonServer.js:277-299 | the four directions face four different rows of the sprite sheet |
| `Movement.UnitOffset` | DungeonServer.js:277-299 | every direction moves exactly one cell along exactly one axis |
| `Movement.Dx` | DungeonServer.js:277-287 | the column change is -1, 0 or 1, and 0 exactly for up and down; UnitOffset and MovedEffect give the rest |
| `Movement.Dy` | DungeonServer.js:289-299 | the row change is -1, 0 or 1, and 0 exactly for right and left; UnitOffset and MovedEffect give the rest |
| `Registry.StartAvatar` | DungeonServer.js:214-219 | a (re)registered player stands on the start point with row, frame and sprite offsets 0 |
| `Registry.ViewOf` | DungeonServer.js:235-241 | a roster record carries the player's id and the entry's x, y, sprite offsets, facing row and animation frame |
| `Registry.Step` | DungeonServer.js:277-299 | a step changes x or y by one and nothing else of the player |
| `Registry.Moved` | DungeonServer.js:277-299 | a move keeps the set of ids in the registry; MovedEffect gives the rest of its effect |
| `Registry.MovedEffect` | DungeonServer.js:277-299 | a move keeps the registry's ids; the named player's x or y (exactly one) changes by the direction's offset with no wall check; only the sender's facing row changes besides; every other entry is unchanged |
| `Registry.Snapshot` | DungeonServer.js:229-242 | the roster has one record per registry entry, no id twice, each record the entry's id, x, y, sprite offsets, row and frame |
| `Registry.SnapshotPositions` | DungeonServer.js:303-312 | an (id, x, y) triple is in the roster exactly when the registry has it |
| `GameServer.GameSession.constructor` | DungeonServer.js:440-444 | start-up: the first dungeon with its start and end, an empty registry, the clock at zero |
| `GameServer.GameSession.GenerateDungeon` | DungeonServer.js:423-433 | the new dungeon replaces the old one; start and end become the centres of rooms 2 and lastRoomId - 1; the session invariant is kept |
| `GameServer.GameSession.GetDungeonData` | DungeonServer.js:141-147 | the record sent to clients carries the current dungeon with its start and end points |
| `GameServer.GameSession.Connect` | DungeonServer.js:180-202 | a new connection has no id and is sent the current dungeon data |
| `GameServer.GameSession.Tick` | DungeonServer.js:162-170 | both counters advance by one; minutes and seconds are derived from the new count |
| `GameServer.GameSession.Reset` | DungeonServer.js:375-378 | both counters become 0; the invariant still holds |
| `GameServer.GameSession.RequestId` | DungeonServer.js:205-262 | a new id only when the connection has none; the entry under the id is (re)placed at the start; a first request adds exactly one entry; the reply carries the id and start; the roster is a snapshot of the new registry |
| `GameServer.GameSession.UpdateLocation` | DungeonServer.js:265-366 | an unknown player with a valid direction stops the handler with nothing changed; otherwise the registry is moved (or untouched for any other direction), the roster is its snapshot, and exactly when the sender stands on the goal the dungeon is replaced, the padded completion time is recorded and the counters are reset |
| `GameServer.GameSession.ApplyMove` | DungeonServer.js:277-299 | the registry becomes the moved registry: the named player steps one cell, the sender faces the direction |
| `GameServer.GameSession.BroadcastMove` | DungeonServer.js:303-365 | after the registry update: the roster is a snapshot of the registry, and exactly when the sender stands on the old goal the run finishes as FinishRun states; otherwise dungeon and counters are unchanged |
| `GameServer.ReachedGoal` | DungeonServer.js:325 | the goal test holds exactly when the sender has a registry entry whose x and y equal the goal's |
| `GameServer.GameSession.FinishRun` | DungeonServer.js:324-365 | on the goal: the new dungeon with its start and end replaces the old, the completion records the winner and the padded minutes and seconds, and both counters become 0 |
| `GameServer.GameSession.Disconnect` | DungeonServer.js:369-372 | only the connection's own entry is removed; every other entry is unchanged |
| `GameServer.ClockZeroInFirstSecond` | DungeonServer.js:166-167 | for tick counts below 10, minutes and seconds are 0 and the display reads "00:00" |
| `GameServer.FirstSecondAfterReset` | DungeonServer.js:162-170 | after `reset` and then 1 to 9 ticks, the session's minutes and seconds are 0 and the client shows "00:00"; dungeon and registry are untouched |
| `GameServer.TwoPlayersJoin` | DungeonServer.js:205-262 | two fresh connections given the distinct fresh ids first and second (a precondition) get those ids, and the roster after the second request is a snapshot of a two-player registry: both players, once each, at the start |
| `Tiles.CellOpen` | public/DungeonClient.js:183-194 | a cell inside the row is open exactly when its value is greater than 0; a column outside the row (undefined in JavaScript) is never open |
| `Tiles.NeighbourExits` | public/DungeonClient.js:175-194 | each flag holds exactly when the neighbour is inside the grid and not a wall; nothing outside the grid is read |
| `Tiles.IdentifySpaceType` | public/DungeonClient.js:161-296 | tile size is always 16 x 16; the kind is what the cascade makes of the neighbour flags and the tileset offset is that kind's entry in the offset tables; a cell gets a kind exactly when at least two neighbours are open, and the kind's exits are then the neighbour flags; otherwise the kind is empty, the offset (0, 0) and all flags false |
| `Tiles.Classify` | public/DungeonClient.js:196-294 | the cascade matches no case exactly when at most one exit is open, and a matched kind's exits are the flags it was given |
| `Tiles.TilesetX` | public/DungeonClient.js:196-294 | every tile column is a non-negative multiple of 16, the tile size |
| `Tiles.TilesetY` | public/DungeonClient.js:196-294 | every tile row is a non-negative multiple of 16, the tile size |
| `Tiles.BlankIffDeadEnd` | public/DungeonClient.js:196-295 | no case of the cascade matches exactly when at most one neighbour is open |
| `Tiles.ClassifyInverse` | public/DungeonClient.js:196-294 | through the priority order each kind fixes the open exits exactly (up+right+down is "left_wall", not a corridor), and each kind is what its exits classify as |
| `Tiles.TilesetIsNineSlice` | public/DungeonClient.js:196-294 | outside the two corridors, the tile column is chosen by the left and right walls and the row by the top and bottom walls |
| `Tiles.DeadEndDrawnAsTopLeft` | public/DungeonClient.js:163-173 | a cell with no kind keeps offset (0, 0), the top-left tile's offset; all other kinds have distinct offsets |
| `Tiles.NamesDistinct` | public/DungeonClient.js:196-294 | the eleven kind names and the empty name are distinct |
| `Tiles.AllowedMoveLandsOnOpenCell` | public/DungeonClient.js:183-194 | an allowed move leads to an open cell inside the grid; nothing is allowed from a dead end; with two or more open neighbours a move is allowed exactly when its target is open |
| `GameClient.RequestMove` | public/DungeonClient.js:356-443 | a move message is sent exactly when the client has a player in the grid's rows and identifySpaceType there allows the direction; it carries the player and the direction's name |
| `GameClient.KeyDirection` | public/DungeonClient.js:320-344 | exactly the key codes 37, 38, 39 and 40 name a direction |
| `GameClient.KeyDown` | public/DungeonClient.js:314-352 | an arrow key sends exactly the guarded move for its direction (sent when the guard allows it, nothing otherwise); any other key sends nothing |
| `GameClient.ClientState.OnKeyDown` | public/DungeonClient.js:314-352 | the keydown handler guards with the client's last received dungeon and own player, and a move it sends names that player; before any dungeon data nothing is sent |
| `GameClient.RequestedDirectionParses` | public/DungeonClient.js:298-302 | the direction of every guarded message is read back by the server as that direction |
| `GameClient.GuardedWalkStaysOpen` | public/DungeonClient.js:317-349 | when every server step was allowed by the guard at the player's position, the player stays on open cells of the grid |
| `GameClient.WalkFromStartStaysOpen` | public/DungeonClient.js:317-349 | a player starting at the start of a well-formed dungeon stays on open cells under guarded moves |
| `GameClient.MergeFollowsRegistry` | public/DungeonClient.js:138-146 | merging a server roster puts the client's player at its registry position and keeps its other fields; a player absent from the registry is unchanged |
| `GameClient.MergePosition` | public/DungeonClient.js:138-146 | the own player is kept or absent as before; only its x and y can change; with no record carrying its id it is unchanged |
| `GameClient.ClientState.constructor` | public/DungeonClient.js:32-34 | the client starts with no dungeon, no player and an empty player list |
| `GameClient.ClientState.OnDungeonData` | public/DungeonClient.js:97-103 | the new dungeon data is kept and an id request is sent |
| `GameClient.ClientState.OnPlayerId` | public/DungeonClient.js:111-114 | the reply becomes the client's own player |
| `GameClient.ClientState.OnNewPlayer` | public/DungeonClient.js:126-128 | the roster replaces the player list |
| `GameClient.ClientState.OnUpdatedLocations` | public/DungeonClient.js:138-146 | the roster replaces the player list, and the own player takes the position of the last record with its id, its other fields unchanged |

## Left out

- Transport: socket.io `emit`/`on` wiring and the loops that send to every
  socket are not modelled. A broadcast is the value a handler returns: the
  roster, the reply, or the completion with the new dungeon data.
- The per-connection stopwatch loop that re-sends minutes and seconds every
  100 ms (DungeonServer.js:380-390) is I/O. Only the text the client makes of
  the values is modelled.
- `setTimeout` scheduling: one tick is one call of `Tick`.
- Express static serving and `server.listen` are plumbing.
- The server's `console.log` calls (DungeonServer.js:195, 221, 370, 430 and
  the start-up messages) only write to the console and change no state.
- The MySQL setup and insert are commented out in the source. The completion
  record that would have been inserted is returned instead.
- The internals of the dungeon generator are a third-party library. Its
  output is an input value. `Dungeon.WellFormed` states what the server
  relies on: a rectangular grid, rooms numbered 2, 3, ... in order,
  `_lastRoomId` one past the last room, and each room's centre a cell of
  that room.
- `Math.random()` ids: each new id is a parameter that must not already be
  in use. Collisions between random ids are therefore not modelled.
- The shared `player` object on the server is only a reply buffer. The reply
  is returned as a value.
- Canvas drawing, sprite animation (the client advancing `currentFrame` and
  the sprite offsets), image loading and jQuery event binding are UI work on
  floating-point pixels.
- GameServer.GameSession.UpdateLocation: the goal branch also overwrites the
  global `mins` and `secs` with their padded strings until the next tick
  (which can make the client pad them a second time). The model keeps them
  as numbers and returns the padded completion text instead.
- GameServer.GameSession.UpdateLocation: when a valid direction names an
  unknown player, the source throws a TypeError at the lookup. The model
  returns `UnknownPlayer` and changes nothing, which is the state the thrown
  handler leaves. It does not model what an uncaught exception does to the
  process.
- GameServer.GameSession.UpdateLocation: a connection's socket object is
  its registry entry in the source. The model reads the sender's position
  and facing from the registry entry. Without id collisions the two are the
  same.
- Registry.Snapshot: the order of the roster's records is left open. The
  source visits the registry's keys in insertion order.
- Stopwatch.Minutes and Stopwatch.Seconds use integer floor division. The
  source divides floating-point numbers and then floors, which gives the same
  values for the tick counts a session reaches.
- GameClient.GuardedWalkStaysOpen assumes that each move is checked against
  the player's current position. The client checks against the position in
  its last received roster, so two moves sent before an update arrives are
  both checked against the same cell. That interleaving is not modelled.
- GameClient.ClientState.OnKeyDown: before the first dungeon data, the
  source's handler throws a ReferenceError on `player`, which the client
  assigns only on the `player_id` reply. Nothing is sent, and the model
  returns no message; the exception itself is not modelled.
- GameClient.RequestMove: for a player whose row is outside the grid, the
  source's lookup throws, or finds at most one open neighbour. Either way no
  move is sent, and the model sends none.
