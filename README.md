# GameHub player registry

A Dafny model of the real-time hub of BlazorMultiplayerGame. The hub keeps
one table of connected players. The table is keyed by connection id, and each
entry is a `Player` record (Id, Name, integer X and Y). Three hub calls change
the table in place, and each sends messages after its change:

- `JoinGame(name)` places the caller at a random cell of the 10 x 10 grid.
  It stores the player under the caller's connection id and overwrites any
  earlier entry for that id. It then broadcasts `PlayerJoined` and sends the
  caller an `AllPlayers` snapshot of the table.
- `MovePlayer(x, y)` sets the caller's X and Y exactly, with no clamping, and
  broadcasts `PlayerMoved`. It does nothing for a connection that has not
  joined.
- `OnDisconnectedAsync` removes the caller's entry and broadcasts
  `PlayerLeft` with the player's id. It does nothing for an unknown
  connection, so a repeated disconnect is harmless.

Layout:

- `players.dfy`, module `Players`: the `Player` record and the table, with
  the three table updates `Joined`, `Moved` and `Removed`.
- `hub_spec.dfy`, module `HubSpec`: the hub as a value (the table plus the
  messages sent so far), one step function per hub call, runs of calls, and
  lemmas about runs.
- `game_hub.dfy`, module `Hubs`: the `GameHub` class. Its table and outbox are
  fields that its methods update in place. Each method is proved against the
  matching step function.

The calling connection's id is a method parameter. Sends are appended to the
`sent` field, each tagged with its audience: everyone, or the caller only.

## Model

| member | source | states |
|---|---|---|
| `Players.Joined` | BlazorMultiplayerGame/BlazorMultiplayerGame.Shared/Hubs/GameHub.cs:12-20 | The new entry sits under the caller's id, with Id equal to that id and the given name and position. It is insert-or-overwrite: the key set gains at most the caller's id, the count stays the same on a re-join and grows by one otherwise, and all other entries are unchanged. It keeps the id/key invariant. |
| `Players.Moved` | BlazorMultiplayerGame/BlazorMultiplayerGame.Shared/Hubs/GameHub.cs:27-30 | A known player takes exactly the requested X and Y, with no clamping, and keeps its Id and Name. An unknown id leaves the table equal to the old one. The key set and all other entries are unchanged, and the id/key invariant is kept. |
| `Players.Removed` | BlazorMultiplayerGame/BlazorMultiplayerGame.Shared/Hubs/GameHub.cs:37-39 | Exactly the caller's key is removed, if present. The count drops by one only when the key was there, the remaining entries are unchanged, and the id/key invariant is kept. |
| `Players.RemovedIdempotent` | BlazorMultiplayerGame/BlazorMultiplayerGame.Shared/Hubs/GameHub.cs:37-39 | Removing the same id twice gives the same table as removing it once. |
| `Players.JoinedThenRemoved` | BlazorMultiplayerGame/BlazorMultiplayerGame.Shared/Hubs/GameHub.cs:20-39 | A join followed by the same connection's disconnect leaves the table as if only the disconnect had happened. |
| `HubSpec.JoinStep` | BlazorMultiplayerGame/BlazorMultiplayerGame.Shared/Hubs/GameHub.cs:10-23 | The table is updated as `Joined` says. Exactly two messages are then appended after those already sent. The first is a `PlayerJoined` broadcast carrying the stored entry. The second is an `AllPlayers` message to the caller carrying the updated table's values, and it contains the new player. |
| `HubSpec.MoveStep` | BlazorMultiplayerGame/BlazorMultiplayerGame.Shared/Hubs/GameHub.cs:25-33 | For a known id, the table is updated as `Moved` says, and then one `PlayerMoved` broadcast of the updated entry is appended. For an unknown id, the whole state is unchanged and nothing is sent. |
| `HubSpec.DisconnectStep` | BlazorMultiplayerGame/BlazorMultiplayerGame.Shared/Hubs/GameHub.cs:35-41 | The caller is absent afterwards. For a known id, one `PlayerLeft` broadcast with the removed player's Id is appended after the removal. For an unknown id, nothing changes and nothing is sent. |
| `HubSpec.ApplyKeepsKeysMatchIds` | BlazorMultiplayerGame/BlazorMultiplayerGame.Shared/Hubs/GameHub.cs:14-39 | Each of the three calls keeps every entry's Id equal to its key. |
| `HubSpec.RunKeepsKeysMatchIds` | BlazorMultiplayerGame/BlazorMultiplayerGame.Shared/Hubs/GameHub.cs:8-43 | Any sequence of calls keeps every entry's Id equal to its key. |
| `HubSpec.RunOnlyAppends` | BlazorMultiplayerGame/BlazorMultiplayerGame.Shared/Hubs/GameHub.cs:21-40 | Messages already sent are never altered: a run only appends to them, at most two per call. |
| `HubSpec.RunPlayerBound` | BlazorMultiplayerGame/BlazorMultiplayerGame.Shared/Hubs/GameHub.cs:8-43 | Over any run, the table grows by at most the number of `JoinGame` calls in it. |
| `HubSpec.AbsentUntilJoin` | BlazorMultiplayerGame/BlazorMultiplayerGame.Shared/Hubs/GameHub.cs:25-41 | A connection that is not in the table stays out until it calls `JoinGame`. Moves and disconnects never create an entry. |
| `HubSpec.NoMoveStaysOnGrid` | BlazorMultiplayerGame/BlazorMultiplayerGame.Shared/Hubs/GameHub.cs:16-30 | Start from a table whose players are all on the 0..9 grid. A run of joins, with their random draws in 0..9, and disconnects leaves every player on that grid. So an off-grid position can only come from `MovePlayer`. |
| `HubSpec.DisconnectIdempotent` | BlazorMultiplayerGame/BlazorMultiplayerGame.Shared/Hubs/GameHub.cs:37-41 | A second disconnect of the same connection changes nothing and sends nothing. |
| `HubSpec.DisconnectAnnouncesCaller` | BlazorMultiplayerGame/BlazorMultiplayerGame.Shared/Hubs/GameHub.cs:37-40 | When the id/key invariant holds, the `PlayerLeft` message names the departing connection's own id. |
| `HubSpec.SnapshotOnePerEntry` | BlazorMultiplayerGame/BlazorMultiplayerGame.Shared/Hubs/GameHub.cs:22 | When every entry's Id equals its key, the `AllPlayers` snapshot holds exactly as many records as the table has entries, so no player is lost from it. |
| `HubSpec.RejoinKeepsCount` | BlazorMultiplayerGame/BlazorMultiplayerGame.Shared/Hubs/GameHub.cs:20 | A re-join under a present id keeps the player count and replaces the entry, including its name. |
| `Hubs.RandomCoordinate` | BlazorMultiplayerGame/BlazorMultiplayerGame.Shared/Hubs/GameHub.cs:16-17 | `Next(0, 10)` yields a coordinate from 0 to 9 inclusive, because its upper bound is exclusive. |
| `Hubs.GameHub.constructor` | BlazorMultiplayerGame/BlazorMultiplayerGame.Shared/Hubs/GameHub.cs:8 | The table starts empty, nothing has been sent, and the invariant holds. |
| `Hubs.GameHub.TryGetPlayer` | BlazorMultiplayerGame/BlazorMultiplayerGame.Shared/Hubs/GameHub.cs:27 | An entry is found if and only if the id is a key, and a found entry is the one stored under that id. |
| `Hubs.GameHub.JoinGame` | BlazorMultiplayerGame/BlazorMultiplayerGame.Shared/Hubs/GameHub.cs:10-23 | Afterwards the caller is present with its own id, the given name and a start position in 0..9 × 0..9. The new state is `JoinStep` of the old state at that position, and the invariant is kept. |
| `Hubs.GameHub.MovePlayer` | BlazorMultiplayerGame/BlazorMultiplayerGame.Shared/Hubs/GameHub.cs:25-33 | The new state is `MoveStep` of the old state, and the invariant is kept. |
| `Hubs.GameHub.OnDisconnected` | BlazorMultiplayerGame/BlazorMultiplayerGame.Shared/Hubs/GameHub.cs:35-43 | The new state is `DisconnectStep` of the old state, the caller is absent, and the invariant is kept. |
| `Hubs.JoinMoveLeave` | BlazorMultiplayerGame/BlazorMultiplayerGame.Shared/Hubs/GameHub.cs:10-43 | Scenario: join, a move to (25, -3), then two disconnects. Exactly four messages are sent: the move is broadcast unclamped, `PlayerLeft` names the connection, and the second disconnect sends nothing. |

## Left out

- Transport: `Clients.All`, `Clients.Caller`, `SendAsync` and `Context.ConnectionId` are not modelled as such. The connection id is a parameter, and each send is a `Send` record appended to `sent`. Delivery, serialisation and failed sends are not modelled.
- `async`/`await` and concurrency. The table is a static dictionary shared by every hub instance, with no lock. The model has one hub object whose calls run one at a time, so races between calls are not captured.
- `base.OnDisconnectedAsync(exception)` belongs to the hub framework, and the `exception` argument is unused by the hub's own logic; both are left out.
- `Random.Shared` is modelled as a nondeterministic choice in 0..9 (`Hubs.RandomCoordinate`). Distribution and seeding are not modelled.
- The `Player` object: the source mutates the stored object's X and Y in place. The model replaces the entry with an updated record. Object identity and aliasing are therefore not modelled. The message carrying the player is its state at the time of the send.
- The `AllPlayers` snapshot of `_players.Values` is modelled as a set of players. Its enumeration order is not modelled. Without the id/key invariant, entries with equal records would also merge; under the invariant the set has one record per entry (`HubSpec.SnapshotOnePerEntry`).
- C# null strings, for the player name or the connection id, are not modelled; strings are `seq<char>`.
- BlazorMultiplayerGame/BlazorMultiplayerGame.Web/Program.cs is hosting setup only (services, middleware, hub route), so it is not part of this model.
- BlazorMultiplayerGame/BlazorMultiplayerGame.Shared/Models/GameModels.cs declares data shapes only, with floating-point vectors and no behaviour, so it is not part of this model.
- GameModels.cs declares `PlayerSide`, `Ball`, `Player.Score` and `GameState.WinningScore`. GameHub.cs uses none of them and has no two-player cap, clamping, physics, goals or win condition, so none of these is modelled.
