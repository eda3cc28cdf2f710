/**
 * The room roster of `src/rooms.ts`: a table from room id to a host id and the
 * players that joined, each carrying the socket it last joined with.
 */
module Rooms {
  import opened Common

  /** An opaque connection handle; the roster only stores and compares it. */
  datatype Socket = Socket(token: nat)

  /** A roster entry. `socket` is the optional property that `getRoom` deletes. */
  datatype Player = Player(id: PlayerId, name: string, online: bool, socket: Option<Socket>)

  datatype Room = Room(hostId: PlayerId, players: seq<Player>)

  /** No two entries of a roster share an id. */
  predicate UniqueIds(ps: seq<Player>)
  {
    forall i, j :: 0 <= i < j < |ps| ==> ps[i].id != ps[j].id
  }

  /** `players.find(existing => id === existing.id)` finds an entry. */
  predicate HasPlayer(ps: seq<Player>, id: PlayerId)
  {
    exists k :: 0 <= k < |ps| && ps[k].id == id
  }

  /** The ids present in a roster. */
  ghost function Ids(ps: seq<Player>): set<PlayerId>
  {
    set k | 0 <= k < |ps| :: ps[k].id
  }

  /** What the `map` callback does to one entry when player `id` joins again. */
  function Reconnect(p: Player, id: PlayerId, socket: Socket): Player
  {
    if p.id == id then p.(socket := Some(socket), online := true) else p
  }

  /** The roster after `player` joins through `socket`. */
  function Joined(ps: seq<Player>, player: Player, socket: Socket): seq<Player>
  {
    if !HasPlayer(ps, player.id) then ps + [player.(socket := Some(socket))]
    else seq(|ps|, k requires 0 <= k < |ps| => Reconnect(ps[k], player.id, socket))
  }

  /** The roster with every `socket` property deleted. */
  function Stripped(ps: seq<Player>): seq<Player>
  {
    seq(|ps|, k requires 0 <= k < |ps| => ps[k].(socket := None))
  }

  /** A new id is appended at the end with the given socket; earlier entries stay as they were. */
  lemma JoinNewAppends(ps: seq<Player>, player: Player, socket: Socket)
    requires !HasPlayer(ps, player.id)
    ensures |Joined(ps, player, socket)| == |ps| + 1
    ensures Joined(ps, player, socket)[..|ps|] == ps
    ensures Joined(ps, player, socket)[|ps|] == player.(socket := Some(socket))
  {
  }

  /**
   * A known id keeps the roster's length; the matching entries get the new socket
   * and come back online, keeping their stored name; the other entries stay.
   */
  lemma JoinExistingReconnects(ps: seq<Player>, player: Player, socket: Socket)
    requires HasPlayer(ps, player.id)
    ensures |Joined(ps, player, socket)| == |ps|
    ensures forall k :: 0 <= k < |ps| && ps[k].id == player.id ==>
      Joined(ps, player, socket)[k] == ps[k].(socket := Some(socket), online := true)
    ensures forall k :: 0 <= k < |ps| && ps[k].id != player.id ==>
      Joined(ps, player, socket)[k] == ps[k]
  {
  }

  /** Joining adds exactly the joining id to the roster's ids. */
  lemma JoinIds(ps: seq<Player>, player: Player, socket: Socket)
    ensures Ids(Joined(ps, player, socket)) == Ids(ps) + {player.id}
  {
    var r := Joined(ps, player, socket);
    if !HasPlayer(ps, player.id) {
      forall x | x in Ids(r) ensures x in Ids(ps) + {player.id} {
        var k :| 0 <= k < |r| && r[k].id == x;
        if k < |ps| { assert ps[k].id == x; }
      }
      forall x | x in Ids(ps) ensures x in Ids(r) {
        var k :| 0 <= k < |ps| && ps[k].id == x;
        assert r[k].id == x;
      }
      assert r[|ps|].id == player.id;
    } else {
      forall x | x in Ids(r) ensures x in Ids(ps) {
        var k :| 0 <= k < |r| && r[k].id == x;
        assert ps[k].id == x;
      }
      forall x | x in Ids(ps) ensures x in Ids(r) {
        var k :| 0 <= k < |ps| && ps[k].id == x;
        assert r[k].id == x;
      }
    }
  }

  /** Joining keeps the ids of a roster pairwise distinct. */
  lemma JoinKeepsUnique(ps: seq<Player>, player: Player, socket: Socket)
    requires UniqueIds(ps)
    ensures UniqueIds(Joined(ps, player, socket))
  {
    var r := Joined(ps, player, socket);
    if !HasPlayer(ps, player.id) {
      forall i, j | 0 <= i < j < |r| ensures r[i].id != r[j].id {
        if j == |ps| {
          assert r[i] == ps[i];
        } else {
          assert r[i] == ps[i] && r[j] == ps[j];
        }
      }
    }
  }

  /** Deleting the sockets keeps every other property of every entry. */
  lemma StrippedKeepsRoster(ps: seq<Player>)
    ensures |Stripped(ps)| == |ps|
    ensures forall k :: 0 <= k < |ps| ==>
      Stripped(ps)[k].socket == None && Stripped(ps)[k] == ps[k].(socket := None)
    ensures UniqueIds(ps) ==> UniqueIds(Stripped(ps))
  {
  }

  /** The module-level `rooms` table. */
  class RoomTable {
    var rooms: map<string, Room>

    /** The roster of every room has pairwise distinct player ids. */
    ghost predicate Valid()
      reads this
    {
      forall id | id in rooms :: UniqueIds(rooms[id].players)
    }

    constructor ()
      ensures Valid() && rooms == map[]
    {
      rooms := map[];
    }

    /**
     * `createRoom`: stores an empty roster for `hostId` under `roomId`, the id the
     * original draws at random, and returns that id. An id already in use is overwritten.
     */
    method CreateRoom(hostId: PlayerId, roomId: string) returns (r: string)
      requires Valid()
      modifies this
      ensures Valid()
      ensures r == roomId && rooms == old(rooms)[roomId := Room(hostId, [])]
    {
      rooms := rooms[roomId := Room(hostId, [])];
      r := roomId;
    }

    /**
     * `joinRoom`: on an unknown room returns null and changes nothing; otherwise
     * appends a new player or reconnects a known one, and returns the roster.
     */
    method JoinRoom(roomId: string, player: Player, socket: Socket) returns (r: Option<seq<Player>>)
      requires Valid()
      modifies this
      ensures Valid()
      ensures roomId !in old(rooms) ==> r == None && rooms == old(rooms)
      ensures roomId in old(rooms) ==>
        var ps := Joined(old(rooms)[roomId].players, player, socket);
        r == Some(ps) && rooms == old(rooms)[roomId := old(rooms)[roomId].(players := ps)]
    {
      if roomId !in rooms {
        return None;
      }
      var room := rooms[roomId];
      var players := room.players;
      if !HasPlayer(players, player.id) {
        players := players + [player.(socket := Some(socket))];
      } else {
        var k := 0;
        while k < |players|
          invariant 0 <= k <= |players| == |room.players|
          invariant forall m :: 0 <= m < k ==> players[m] == Reconnect(room.players[m], player.id, socket)
          invariant forall m :: k <= m < |players| ==> players[m] == room.players[m]
        {
          if player.id == players[k].id {
            players := players[k := players[k].(socket := Some(socket), online := true)];
          }
          k := k + 1;
        }
      }
      assert players == Joined(room.players, player, socket);
      JoinKeepsUnique(room.players, player, socket);
      rooms := rooms[roomId := room.(players := players)];
      r := Some(players);
    }

    /**
     * `getRoom`: null for an unknown id; otherwise a copy of the room whose players
     * have no socket. The copy shares its players with the table, so the stored
     * entries lose their sockets too.
     */
    method GetRoom(roomId: string) returns (r: Option<Room>)
      requires Valid()
      modifies this
      ensures Valid()
      ensures roomId !in old(rooms) ==> r == None && rooms == old(rooms)
      ensures roomId in old(rooms) ==>
        var room := old(rooms)[roomId].(players := Stripped(old(rooms)[roomId].players));
        r == Some(room) && rooms == old(rooms)[roomId := room]
    {
      if roomId !in rooms {
        return None;
      }
      var room := rooms[roomId];
      var players := room.players;
      var k := 0;
      while k < |players|
        invariant 0 <= k <= |players| == |room.players|
        invariant forall m :: 0 <= m < k ==> players[m] == room.players[m].(socket := None)
        invariant forall m :: k <= m < |players| ==> players[m] == room.players[m]
      {
        players := players[k := players[k].(socket := None)];
        k := k + 1;
      }
      assert players == Stripped(room.players);
      StrippedKeepsRoster(room.players);
      rooms := rooms[roomId := room.(players := players)];
      r := Some(room.(players := players));
    }
  }
}
