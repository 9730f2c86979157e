/**
 The in-memory adapter every node extends (package socket.io-adapter), as set semantics:
 which sockets a node holds, which rooms each has joined, and which of them options pick.
 */
module Shards {
  import opened RoomNames

  type NodeId = nat

  /** A socket id; a socket lives on one node for its whole life. */
  datatype Sid = Sid(home: NodeId, serial: nat)

  datatype Opts = Opts(rooms: set<Room>, except: set<Room>)

  /** The sockets of one node, each with the rooms it has joined. */
  type Shard = map<Sid, set<Room>>

  /** In some room of `rooms`, or anywhere when that is empty, and in no room of `except`. */
  predicate Picks(joined: set<Room>, opts: Opts) {
    && (opts.rooms == {} || joined * opts.rooms != {})
    && joined * opts.except == {}
  }

  function Selected(shard: Shard, opts: Opts): set<Sid> {
    set s | s in shard && Picks(shard[s], opts)
  }

  /** The keys of the room table: a room exists while some socket is in it. */
  function RoomsOf(shard: Shard): set<Room> {
    set s, r | s in shard && r in shard[s] :: r
  }

  function AddSockets(shard: Shard, opts: Opts, rooms: set<Room>): Shard {
    map s | s in shard :: if Picks(shard[s], opts) then shard[s] + rooms else shard[s]
  }

  function DelSockets(shard: Shard, opts: Opts, rooms: set<Room>): Shard {
    map s | s in shard :: if Picks(shard[s], opts) then shard[s] - rooms else shard[s]
  }

  function DisconnectSockets(shard: Shard, opts: Opts): Shard {
    map s | s in shard && !Picks(shard[s], opts) :: shard[s]
  }

  ghost predicate Homed(shard: Shard, n: NodeId) {
    forall s | s in shard :: s.home == n
  }

  /** The part of a shard that lives on node `n`. */
  ghost function Part(shard: Shard, n: NodeId): (p: Shard)
    ensures Homed(p, n)
  {
    map s | s in shard && s.home == n :: shard[s]
  }
}
