/**
 The player table of the game hub: a dictionary from connection id to
 `Player` record, and the three ways the hub changes it (insert-or-overwrite
 on join, guarded update on move, guarded removal on disconnect).
 */
module Players {

  /** The 32-bit signed `int` of the hub's coordinates. */
  newtype int32 = v: int | -0x8000_0000 <= v < 0x8000_0000

  /** One connected player: connection id, display name and grid position. */
  datatype Player = Player(id: string, name: string, x: int32, y: int32)

  /** The player table, keyed by connection id. */
  type Table = map<string, Player>

  /** The table's invariant: every entry is stored under its own id. */
  ghost predicate KeysMatchIds(t: Table) {
    forall k :: k in t ==> t[k].id == k
  }

  /** A position on the 10 x 10 start grid, both coordinates in 0..9. */
  predicate OnStartGrid(p: Player) {
    0 <= p.x <= 9 && 0 <= p.y <= 9
  }

  /**
   The table after connection `conn` joins as `name` at (`x`, `y`): the new
   player is stored under `conn`, replacing an earlier entry for `conn` if
   there was one; every other entry is kept.
   */
  function Joined(t: Table, conn: string, name: string, x: int32, y: int32): (r: Table)
    ensures conn in r && r[conn].id == conn && r[conn].name == name
    ensures r[conn].x == x && r[conn].y == y
    ensures r.Keys == t.Keys + {conn}
    ensures forall k :: k in t && k != conn ==> r[k] == t[k]
    ensures |r| == if conn in t then |t| else |t| + 1
    ensures KeysMatchIds(t) ==> KeysMatchIds(r)
  {
    t[conn := Player(conn, name, x, y)]
  }

  /**
   The table after connection `conn` asks to move to (`x`, `y`): a known
   player takes exactly that position, with no clamping, and keeps its id and
   name; an unknown connection leaves the table as it is.
   */
  function Moved(t: Table, conn: string, x: int32, y: int32): (r: Table)
    ensures r.Keys == t.Keys
    ensures conn in t ==> r[conn].id == t[conn].id && r[conn].name == t[conn].name
    ensures conn in t ==> r[conn].x == x && r[conn].y == y
    ensures conn !in t ==> r == t
    ensures forall k :: k in t && k != conn ==> r[k] == t[k]
    ensures KeysMatchIds(t) ==> KeysMatchIds(r)
  {
    if conn in t then t[conn := t[conn].(x := x, y := y)] else t
  }

  /**
   The table after connection `conn` disconnects: its entry is gone if there
   was one, and every other entry is kept.
   */
  function Removed(t: Table, conn: string): (r: Table)
    ensures r.Keys == t.Keys - {conn}
    ensures forall k :: k in r ==> r[k] == t[k]
    ensures |r| == if conn in t then |t| - 1 else |t|
    ensures KeysMatchIds(t) ==> KeysMatchIds(r)
  {
    if conn in t then t - {conn} else t
  }

  /** Removing the same connection twice is the same as removing it once. */
  lemma RemovedIdempotent(t: Table, conn: string)
    ensures Removed(Removed(t, conn), conn) == Removed(t, conn)
  {
  }

  /** A join followed by the same connection's disconnect forgets the join. */
  lemma JoinedThenRemoved(t: Table, conn: string, name: string, x: int32, y: int32)
    ensures Removed(Joined(t, conn, name, x, y), conn) == Removed(t, conn)
  {
    assert Removed(Joined(t, conn, name, x, y), conn).Keys == Removed(t, conn).Keys;
  }
}
