/**
 The hub object. Its player table is one dictionary shared by every call,
 updated in place; each call first changes the table and then sends. The
 calling connection's id is a parameter and the sends are appended to
 `sent`.
 */
module Hubs {
  import opened Players
  import opened HubSpec

  datatype Option<T> = None | Some(value: T)

  /** The random generator's `Next(0, 10)`: any coordinate from 0 to 9. */
  method RandomCoordinate() returns (v: int32)
    ensures 0 <= v <= 9
  {
    v :| 0 <= v < 10;
  }

  class GameHub {
    var players: Table
    var sent: seq<Send>

    /** Every entry of the table is stored under its own id. */
    ghost predicate Valid()
      reads this
    {
      KeysMatchIds(players)
    }

    /** The abstract state the methods are specified against. */
    function State(): HubState
      reads this
    {
      HubState(players, sent)
    }

    /** The empty table, nothing sent. */
    constructor ()
      ensures Valid() && State() == Initial
    {
      players := map[];
      sent := [];
    }

    /** The dictionary's `TryGetValue`: the entry under `conn`, if there is one. */
    method TryGetPlayer(conn: string) returns (r: Option<Player>)
      ensures r.Some? <==> conn in players
      ensures r.Some? ==> r.value == players[conn]
    {
      if conn in players {
        r := Some(players[conn]);
      } else {
        r := None;
      }
    }

    /**
     Stores a player named `playerName` at a random position of the 10 x 10
     grid under `conn`, replacing any earlier entry for `conn`; then announces
     it to everyone and sends the caller a snapshot of the whole table.
     */
    method JoinGame(conn: string, playerName: string)
      requires Valid()
      modifies this
      ensures Valid()
      ensures conn in players && players[conn].id == conn && players[conn].name == playerName
      ensures OnStartGrid(players[conn])
      ensures State() == JoinStep(old(State()), conn, playerName, players[conn].x, players[conn].y)
    {
      var x := RandomCoordinate();
      var y := RandomCoordinate();
      var player := Player(conn, playerName, x, y);
      players := players[conn := player];
      sent := sent + [Send(All, PlayerJoined(player))];
      sent := sent + [Send(Caller(conn), AllPlayers(players.Values))];
    }

    /**
     Moves the player of `conn` to exactly (`x`, `y`) and announces the move;
     does nothing for a connection that has not joined.
     */
    method MovePlayer(conn: string, x: int32, y: int32)
      requires Valid()
      modifies this
      ensures Valid()
      ensures State() == MoveStep(old(State()), conn, x, y)
    {
      var found := TryGetPlayer(conn);
      if found.Some? {
        var player := found.value.(x := x, y := y);
        players := players[conn := player];
        sent := sent + [Send(All, PlayerMoved(player))];
      }
    }

    /**
     Removes the player of `conn` and announces its departure; does nothing
     for a connection that is not in the table, so a repeated disconnect is
     harmless.
     */
    method OnDisconnected(conn: string)
      requires Valid()
      modifies this
      ensures Valid()
      ensures State() == DisconnectStep(old(State()), conn)
      ensures conn !in players
    {
      var found := TryGetPlayer(conn);
      if found.Some? {
        players := players - {conn};
        sent := sent + [Send(All, PlayerLeft(found.value.id))];
      }
    }
  }

  /** A join, a move and two disconnects of one connection, end to end. */
  method JoinMoveLeave(hub: GameHub, conn: string, name: string)
    requires hub.Valid()
    modifies hub
    ensures hub.Valid() && conn !in hub.players
    ensures |hub.sent| == |old(hub.sent)| + 4 && hub.sent[..|old(hub.sent)|] == old(hub.sent)
    ensures hub.sent[|old(hub.sent)| + 2] == Send(All, PlayerMoved(Player(conn, name, 25, -3)))
    ensures hub.sent[|old(hub.sent)| + 3] == Send(All, PlayerLeft(conn))
  {
    hub.JoinGame(conn, name);
    hub.MovePlayer(conn, 25, -3);
    hub.OnDisconnected(conn);
    hub.OnDisconnected(conn);
  }
}
