/**
 The gateway as an object: handlers that move sockets between rooms, tell clients, and write
 the rooms table, step by step. Each is proved to do what the function of Rooms.dfy says.
 */
module RoomGateway {
  import opened Option
  import opened RoomNames
  import opened Rooms

  class RoomGateway {
    var clients: map<SocketId, Client>
    var rows: map<int, Row>
    var users: set<int>
    var nextId: int

    constructor (users: set<int>, nextId: int)
      ensures State() == World(map[], map[], users, nextId)
    {
      clients, rows, this.users, this.nextId := map[], map[], users, nextId;
    }

    function State(): World
      reads this
    {
      World(clients, rows, users, nextId)
    }

    // ----- socket.util -----

    method Emit(sid: SocketId, notice: Notice)
      modifies this`clients
      ensures clients == Tell(old(clients), {sid}, notice)
    {
      if sid in clients { clients := clients[sid := clients[sid].(inbox := clients[sid].inbox + [notice])]; }
      assert clients == Tell(old(clients), {sid}, notice);
    }

    /** `client.to(room).emit`: every member but the client. */
    method EmitToOthers(sid: SocketId, room: string, notice: Notice)
      modifies this`clients
      ensures clients == Tell(old(clients), Members(old(clients), room) - {sid}, notice)
    {
      clients := Tell(clients, Members(clients, room) - {sid}, notice);
    }

    /** `fetchSockets`, as an array in some order. */
    method FetchSockets(room: string) returns (sockets: seq<SocketId>)
      ensures forall s :: s in sockets <==> s in Members(clients, room)
      ensures |sockets| == |Members(clients, room)|
      ensures forall i, j | 0 <= i < j < |sockets| :: sockets[i] != sockets[j]
    {
      var rest := Members(clients, room);
      sockets := [];
      while rest != {}
        invariant rest <= Members(clients, room)
        invariant forall s :: s in sockets <==> s in Members(clients, room) - rest
        invariant |sockets| + |rest| == |Members(clients, room)|
        invariant forall i, j | 0 <= i < j < |sockets| :: sockets[i] != sockets[j]
        decreases |rest|
      {
        var s :| s in rest;
        assert s !in sockets;
        forall k | 0 <= k < |sockets| ensures sockets[k] != s { assert sockets[k] in sockets; }
        sockets := sockets + [s];
        rest := rest - {s};
      }
    }

    method GetAllRoomUsers(room: string) returns (roomUsers: seq<User>)
      ensures (set u | u in roomUsers) == RoomUsers(clients, room)
      ensures |roomUsers| == |Members(clients, room)|
    {
      var sockets := FetchSockets(room);
      roomUsers := [];
      for i := 0 to |sockets|
        invariant |roomUsers| == i
        invariant forall k | 0 <= k < i :: sockets[k] in clients && roomUsers[k] == User(sockets[k], clients[sockets[k]].uid)
      {
        assert sockets[i] in Members(clients, room);
        roomUsers := roomUsers + [User(sockets[i], clients[sockets[i]].uid)];
      }
      forall u ensures u in roomUsers <==> u in RoomUsers(clients, room) {
        if u in RoomUsers(clients, room) {
          var k :| 0 <= k < |sockets| && sockets[k] == u.sid;
          assert roomUsers[k] == u;
        }
      }
    }

    method GetExistingRoomMembersCount(room: string) returns (count: nat)
      ensures count == |Members(clients, room)|
    {
      var sockets := FetchSockets(room);
      count := |sockets|;
    }

    /** The first socket of the room with the given id; None stands for the exception. */
    method GetMatchingSocketsBySid(room: string, sid: SocketId) returns (socket: Option<SocketId>)
      ensures socket == if sid in Members(clients, room) then Some(sid) else None
    {
      var sockets := FetchSockets(room);
      socket := None;
      for i := 0 to |sockets|
        invariant socket == if sid in sockets[..i] then Some(sid) else None
      {
        if sockets[i] == sid { socket := Some(sockets[i]); }
        assert sockets[..i + 1] == sockets[..i] + [sockets[i]];
      }
      assert sockets[..|sockets|] == sockets;
    }

    method JoinClientToRoom(sid: SocketId, room: string, existing: seq<User>)
      requires sid in clients
      modifies this`clients
      ensures clients == Tell(Tell(Enter(old(clients), sid, room), {sid}, JoinedRoom(room)), {sid},
                              ExistingUsers(room, set u | u in existing))
    {
      clients := clients[sid := clients[sid].(rooms := clients[sid].rooms + {room})];
      Emit(sid, JoinedRoom(room));
      Emit(sid, ExistingUsers(room, set u | u in existing));
    }

    // ----- rooms-database.helper -----

    /** False stands for the exception raised when there is no such row. */
    method UpdateRoomInfoByDelta(id: Option<int>, existing: int, delta: int) returns (found: bool)
      modifies this`rows
      ensures found == (id.Some? && id.value in old(rows))
      ensures rows == if found then Store(old(rows), id.value, existing, delta) else old(rows)
    {
      if id.None? || id.value !in rows { return false; }
      rows := rows[id.value := rows[id.value].(current := existing + delta)];
      if rows[id.value].current < 0 {
        rows := rows[id.value := rows[id.value].(current := 0)];
      }
      found := true;
    }

    method CreateRoom(moderator: int, total: int, isPublic: bool) returns (id: int)
      modifies this`rows, this`nextId
      ensures State() == Create(old(State()), moderator, total, isPublic) && id == old(nextId)
    {
      id := nextId;
      rows := rows[id := Row(moderator, total, 0, isPublic)];
      nextId := nextId + 1;
    }

    /** Whether the row went; false also stands for the two refusals. */
    method DeleteRoomById(uid: int, id: int) returns (deleted: bool)
      modifies this`rows
      ensures State() == Delete(old(State()), uid, id)
      ensures deleted == (id in old(rows) && id !in rows)
    {
      if id !in rows || rows[id].moderator != uid { return false; }
      if rows[id].current > 0 { return false; }
      rows := rows - {id};
      deleted := true;
    }

    // ----- Handlers -----

    method OnConnection(sid: SocketId, uid: int, node: nat)
      requires sid !in clients
      modifies this`clients
      ensures State() == Connect(old(State()), sid, uid, node)
    {
      clients := clients[sid := Client(uid, node, {sid}, [])];
      clients := clients[sid := clients[sid].(rooms := clients[sid].rooms + {Show(uid)})];
      assert {sid} + {Show(uid)} == {sid, Show(uid)};
    }

    method ValidateJoinRoomPayload(sid: SocketId, room: string, password: bool) returns (error: Option<JoinError>)
      requires sid in clients
      ensures error == Validate(State(), sid, room, password)
    {
      if room in clients[sid].rooms { return Some(AlreadyJoined); }
      var id := ParseInt(room);
      if id.None? { return Some(NotANumber); }
      if id.value !in rows { return Some(NoRoom); }
      var roomData := rows[id.value];
      var roomCurrentCount := |LocalMembers(clients, clients[sid].node, room)|;
      if roomCurrentCount >= roomData.total { return Some(RoomFull); }
      if roomData.isPublic { return None; }
      if !password { return Some(InvalidPassword); }
      error := None;
    }

    method OnJoinRoom(sid: SocketId, room: string, uid: int, password: bool) returns (error: Option<JoinError>)
      requires sid in clients
      modifies this`clients, this`rows
      ensures error == Validate(old(State()), sid, room, password)
      ensures State() == Join(old(State()), sid, room, uid, password)
    {
      error := ValidateJoinRoomPayload(sid, room, password);
      if error.Some? { return; }
      var existing := GetAllRoomUsers(room);
      JoinClientToRoom(sid, room, existing);
      EmitToOthers(sid, room, NewUser(room, User(sid, uid)));
      var found := UpdateRoomInfoByDelta(ParseInt(room), |existing|, 1);
    }

    /** `told` is false when the row is missing and the handler ends in an exception. */
    method OnLeaveRoom(sid: SocketId, room: string) returns (told: bool)
      requires sid in clients
      modifies this`clients, this`rows
      ensures told == HasRow(old(State()), room)
      ensures State() == Leave(old(State()), sid, room)
    {
      clients := clients[sid := clients[sid].(rooms := clients[sid].rooms - {room})];
      var count := GetExistingRoomMembersCount(room);
      told := UpdateRoomInfoByDelta(ParseInt(room), count, 0);
      if !told { return; }
      Emit(sid, LeftRoom(room, sid));
      EmitToOthers(sid, room, LeftRoom(room, sid));
    }

    method GetUserToKick(sid: SocketId, room: string, uid: Option<int>, target: SocketId)
      returns (error: Option<KickError>)
      requires sid in clients
      ensures error == ValidateKick(State(), sid, room, uid, target)
    {
      if room !in clients[sid].rooms { return Some(UserNotInRoom); }
      if uid.None? { return Some(NoSession); }
      if uid.value !in users { return Some(InvalidTarget); }
      var id := ParseIntAnyBase(room);
      if id.None? { return Some(InvalidRoom); }
      if id.value !in rows || rows[id.value].moderator != clients[sid].uid { return Some(NotModerator); }
      var socket := GetMatchingSocketsBySid(room, target);
      if socket.None? { return Some(NoMatchingUser); }
      if uid.value == clients[sid].uid || socket.value == sid { return Some(IsModerator); }
      error := None;
    }

    /** `recounted` is false when a check failed, or the row is missing and the handler ends in an exception. */
    method OnKickUser(sid: SocketId, room: string, uid: Option<int>, target: SocketId)
      returns (error: Option<KickError>, recounted: bool)
      requires sid in clients
      modifies this`clients, this`rows
      ensures error == ValidateKick(old(State()), sid, room, uid, target)
      ensures recounted == (error.None? && HasRow(old(State()), room))
      ensures State() == Kick(old(State()), sid, room, uid, target)
    {
      recounted := false;
      error := GetUserToKick(sid, room, uid, target);
      if error.Some? { return; }
      clients := Tell(clients, Members(clients, room), KickUser(room, uid.value));
      clients := clients[target := clients[target].(rooms := clients[target].rooms - {room})];
      var count := GetExistingRoomMembersCount(room);
      recounted := UpdateRoomInfoByDelta(ParseInt(room), count, 0);
    }

    method LeaveOnDisconnect(sid: SocketId, room: string)
      modifies this`clients, this`rows
      ensures State() == Goodbye(old(State()), sid, room)
    {
      var count := GetExistingRoomMembersCount(room);
      var found := UpdateRoomInfoByDelta(ParseInt(room), count, -1);
      if !found { return; }
      EmitToOthers(sid, room, LeftRoom(room, sid));
    }

    /** The rooms are visited in some order; then the socket is gone. */
    method OnDisconnecting(sid: SocketId) returns (ghost order: seq<string>)
      requires sid in clients
      modifies this`clients, this`rows
      ensures Lists(order, RoomsToLeave(old(State()), sid))
      ensures State() == Disconnect(old(State()), sid, order)
    {
      var rest := RoomsToLeave(State(), sid);
      order := [];
      while rest != {}
        invariant rest <= RoomsToLeave(old(State()), sid)
        invariant Lists(order, RoomsToLeave(old(State()), sid) - rest)
        invariant State() == Goodbyes(old(State()), sid, order)
        decreases |rest|
      {
        var room :| room in rest;
        LeaveOnDisconnect(sid, room);
        assert (order + [room])[..|order|] == order;
        order := order + [room];
        rest := rest - {room};
      }
      assert RoomsToLeave(old(State()), sid) - rest == RoomsToLeave(old(State()), sid);
      clients := clients - {sid};
    }
  }
}
