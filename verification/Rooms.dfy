/**
 The room gateway: what each handler does, as functions of the world it works on.

 The world has the connected sockets with the rooms each has joined and what each has been
 told, and the rooms table. A handler is one step here; RoomCapacity.dfy splits a join at its
 awaits. `parseInt` turns a room name into a row id, and nothing makes the name the
 canonical text of that id; and every client is in a room named by its own user id. Fair is
 the hypothesis, for one room id, that neither gets in the way of that room.
 */
module Rooms {
  import opened Option
  import opened RoomNames

  type SocketId = string

  datatype User = User(sid: SocketId, uid: int)

  /** What a client is told. A leftRoom event carries no room; the model tags it with one. */
  datatype Notice =
    | JoinedRoom(room: string)
    | ExistingUsers(room: string, users: set<User>)
    | NewUser(room: string, user: User)
    | LeftRoom(room: string, sid: SocketId)
    | KickUser(room: string, uid: int)

  datatype Client = Client(uid: int, node: nat, rooms: set<string>, inbox: seq<Notice>)

  datatype Row = Row(moderator: int, total: int, current: int, isPublic: bool)

  datatype World = World(clients: map<SocketId, Client>, rows: map<int, Row>, users: set<int>, nextId: int)

  datatype JoinError = AlreadyJoined | NotANumber | NoRoom | RoomFull | InvalidPassword

  datatype KickError =
    UserNotInRoom | NoSession | InvalidTarget | InvalidRoom | NotModerator | NoMatchingUser | IsModerator

  // ----- Parts -----

  function Members(clients: map<SocketId, Client>, room: string): set<SocketId> {
    set s | s in clients && room in clients[s].rooms
  }

  /** `adapter.rooms.get(room)`: the sockets of one node. */
  function LocalMembers(clients: map<SocketId, Client>, node: nat, room: string): set<SocketId> {
    set s | s in clients && clients[s].node == node && room in clients[s].rooms
  }

  function RoomUsers(clients: map<SocketId, Client>, room: string): set<User> {
    set s | s in Members(clients, room) :: User(s, clients[s].uid)
  }

  function Tell(clients: map<SocketId, Client>, to: set<SocketId>, notice: Notice): map<SocketId, Client> {
    map s | s in clients ::
      if s in to then clients[s].(inbox := clients[s].inbox + [notice]) else clients[s]
  }

  function Enter(clients: map<SocketId, Client>, sid: SocketId, room: string): map<SocketId, Client>
    requires sid in clients
  {
    clients[sid := clients[sid].(rooms := clients[sid].rooms + {room})]
  }

  function Exit(clients: map<SocketId, Client>, sid: SocketId, room: string): map<SocketId, Client>
    requires sid in clients
  {
    clients[sid := clients[sid].(rooms := clients[sid].rooms - {room})]
  }

  /** `updateRoomInfoByDelta` on an existing row: write, then write zero if that was negative. */
  function Store(rows: map<int, Row>, id: int, existing: int, delta: int): map<int, Row>
    requires id in rows
  {
    rows[id := rows[id].(current := if existing + delta < 0 then 0 else existing + delta)]
  }

  // ----- Handlers -----

  function Connect(w: World, sid: SocketId, uid: int, node: nat): World {
    w.(clients := w.clients[sid := Client(uid, node, {sid, Show(uid)}, [])])
  }

  function Validate(w: World, sid: SocketId, room: string, password: bool): Option<JoinError>
    requires sid in w.clients
  {
    var id := ParseInt(room);
    if room in w.clients[sid].rooms then Some(AlreadyJoined)
    else if id.None? then Some(NotANumber)
    else if id.value !in w.rows then Some(NoRoom)
    else if |LocalMembers(w.clients, w.clients[sid].node, room)| >= w.rows[id.value].total then Some(RoomFull)
    else if !w.rows[id.value].isPublic && !password then Some(InvalidPassword)
    else None
  }

  /** Entering a room, and everything said about it: to the client first, then to the others. */
  function Greet(clients: map<SocketId, Client>, sid: SocketId, room: string, uid: int, existing: set<User>)
    : map<SocketId, Client>
    requires sid in clients
  {
    var entered := Enter(clients, sid, room);
    var joined := Tell(entered, {sid}, JoinedRoom(room));
    var welcomed := Tell(joined, {sid}, ExistingUsers(room, existing));
    Tell(welcomed, Members(welcomed, room) - {sid}, NewUser(room, User(sid, uid)))
  }

  function Welcome(clients: map<SocketId, Client>, sid: SocketId, room: string, uid: int): map<SocketId, Client>
    requires sid in clients
  {
    Greet(clients, sid, room, uid, RoomUsers(clients, room))
  }

  function Join(w: World, sid: SocketId, room: string, uid: int, password: bool): World
    requires sid in w.clients
  {
    if Validate(w, sid, room, password).Some? then w
    else
      w.(clients := Welcome(w.clients, sid, room, uid),
         rows := Store(w.rows, ParseInt(room).value, |Members(w.clients, room)|, 1))
  }

  /** The row of the room the client leaves is found. */
  predicate HasRow(w: World, room: string) {
    ParseInt(room).Some? && ParseInt(room).value in w.rows
  }

  /** The socket leaves first; a missing row is an error after that, and nobody is told. */
  function Leave(w: World, sid: SocketId, room: string): World
    requires sid in w.clients
  {
    var left := Exit(w.clients, sid, room);
    if !HasRow(w, room) then w.(clients := left)
    else
      var confirmed := Tell(left, {sid}, LeftRoom(room, sid));
      var notified := Tell(confirmed, Members(confirmed, room) - {sid}, LeftRoom(room, sid));
      w.(clients := notified, rows := Store(w.rows, ParseInt(room).value, |Members(left, room)|, 0))
  }

  /**
   `uid` is None when the payload's user id is not a number. Here the base of the room id is
   left to `parseInt`, which the recount afterwards does not do.
   */
  function ValidateKick(w: World, sid: SocketId, room: string, uid: Option<int>, target: SocketId): Option<KickError>
    requires sid in w.clients
  {
    var id := ParseIntAnyBase(room);
    if room !in w.clients[sid].rooms then Some(UserNotInRoom)
    else if uid.None? then Some(NoSession)
    else if uid.value !in w.users then Some(InvalidTarget)
    else if id.None? then Some(InvalidRoom)
    else if id.value !in w.rows || w.rows[id.value].moderator != w.clients[sid].uid then Some(NotModerator)
    else if target !in Members(w.clients, room) then Some(NoMatchingUser)
    else if uid.value == w.clients[sid].uid || target == sid then Some(IsModerator)
    else None
  }

  /** The target is told and taken out first; a missing row is an error after that. */
  function Kick(w: World, sid: SocketId, room: string, uid: Option<int>, target: SocketId): World
    requires sid in w.clients
  {
    if ValidateKick(w, sid, room, uid, target).Some? then w
    else
      var notified := Tell(w.clients, Members(w.clients, room), KickUser(room, uid.value));
      var left := Exit(notified, target, room);
      w.(clients := left,
         rows := if HasRow(w, room) then Store(w.rows, ParseInt(room).value, |Members(left, room)|, 0) else w.rows)
  }

  /** One room of a disconnecting client, which is still in it. A missing row leaves it at that. */
  function Goodbye(w: World, sid: SocketId, room: string): World {
    if !HasRow(w, room) then w
    else
      w.(rows := Store(w.rows, ParseInt(room).value, |Members(w.clients, room)|, -1),
         clients := Tell(w.clients, Members(w.clients, room) - {sid}, LeftRoom(room, sid)))
  }

  function Goodbyes(w: World, sid: SocketId, order: seq<string>): World {
    if order == [] then w
    else Goodbye(Goodbyes(w, sid, order[..|order| - 1]), sid, order[|order| - 1])
  }

  /** The rooms a disconnecting client is announced in: not its own two. */
  function RoomsToLeave(w: World, sid: SocketId): set<string>
    requires sid in w.clients
  {
    w.clients[sid].rooms - {sid, Show(w.clients[sid].uid)}
  }

  /** `order` lists the rooms to leave in the order they are visited. */
  function Disconnect(w: World, sid: SocketId, order: seq<string>): World {
    var done := Goodbyes(w, sid, order);
    done.(clients := done.clients - {sid})
  }

  function Create(w: World, moderator: int, total: int, isPublic: bool): World {
    w.(rows := w.rows[w.nextId := Row(moderator, total, 0, isPublic)], nextId := w.nextId + 1)
  }

  predicate CanDelete(w: World, uid: int, id: int) {
    id in w.rows && w.rows[id].moderator == uid && w.rows[id].current <= 0
  }

  function Delete(w: World, uid: int, id: int): World {
    if CanDelete(w, uid, id) then w.(rows := w.rows - {id}) else w
  }

  // ----- Runs -----

  datatype Event =
    | Connecting(sid: SocketId, uid: int, node: nat)
    | Joining(sid: SocketId, room: string, uid: int, password: bool)
    | Leaving(sid: SocketId, room: string)
    | Kicking(sid: SocketId, room: string, target: Option<int>, targetSid: SocketId)
    | Disconnecting(sid: SocketId, order: seq<string>)
    | Creating(uid: int, total: int, isPublic: bool)
    | Deleting(uid: int, id: int)

  ghost predicate Lists(order: seq<string>, rooms: set<string>) {
    && (forall r | r in order :: r in rooms)
    && (forall r | r in rooms :: r in order)
    && forall i, j | 0 <= i < j < |order| :: order[i] != order[j]
  }

  ghost predicate Possible(w: World, e: Event) {
    match e
    case Connecting(sid, uid, _) => sid !in w.clients && uid in w.users
    case Joining(sid, _, _, _) => sid in w.clients
    case Leaving(sid, _) => sid in w.clients
    case Kicking(sid, _, _, _) => sid in w.clients
    case Disconnecting(sid, order) => sid in w.clients && Lists(order, RoomsToLeave(w, sid))
    case Creating(_, _, _) => true
    case Deleting(_, _) => true
  }

  ghost function Next(w: World, e: Event): World
    requires Possible(w, e)
  {
    match e
    case Connecting(sid, uid, node) => Connect(w, sid, uid, node)
    case Joining(sid, room, uid, password) => Join(w, sid, room, uid, password)
    case Leaving(sid, room) => Leave(w, sid, room)
    case Kicking(sid, room, uid, target) => Kick(w, sid, room, uid, target)
    case Disconnecting(sid, order) => Disconnect(w, sid, order)
    case Creating(uid, total, isPublic) => Create(w, uid, total, isPublic)
    case Deleting(uid, id) => Delete(w, uid, id)
  }

  /** The room name is the canonical decimal of the id `parseInt` reads from it, if any. */
  predicate CanonicalRoom(room: string) {
    ParseInt(room).Some? ==> room == Show(ParseInt(room).value)
  }

  /** A name that is read as `id` is the canonical text of `id`. */
  predicate NamesOnly(room: string, id: int) { ParseInt(room) == Some(id) ==> room == Show(id) }

  ghost predicate IsNumeral(s: string) { exists n: int :: s == Show(n) }

  /** Nobody who is connected now has this user id. */
  ghost predicate NobodysId(w: World, uid: int) { forall s | s in w.clients :: w.clients[s].uid != uid }

  /**
   A step does not make the room of row `id` anyone's own room: no socket comes with that id,
   no user of that id connects while there is the row, and none is connected when it is made.
   */
  ghost predicate KeepsApart(w: World, e: Event, id: int) {
    match e
    case Connecting(sid, uid, _) => sid != Show(id) && (uid == id ==> id !in w.rows)
    case Creating(_, _, _) => w.nextId == id ==> NobodysId(w, id)
    case _ => true
  }

  /** A leave, or a join or kick that gets past its checks, speaks of the room of row `id` by its canonical name. */
  predicate NamesRight(w: World, e: Event, id: int) {
    match e
    case Joining(sid, room, _, password) =>
      sid in w.clients && Validate(w, sid, room, password).None? ==> NamesOnly(room, id)
    case Leaving(_, room) => NamesOnly(room, id)
    case Kicking(sid, room, uid, target) =>
      sid in w.clients && ValidateKick(w, sid, room, uid, target).None? ==> NamesOnly(room, id)
    case _ => true
  }

  ghost predicate Fair(w: World, e: Event, id: int) { KeepsApart(w, e, id) && NamesRight(w, e, id) }

  ghost predicate Init(w: World) { w == World(map[], map[], w.users, w.nextId) }

  ghost predicate Run(t: seq<World>, es: seq<Event>) {
    && |t| == |es| + 1
    && Init(t[0])
    && forall i | 0 <= i < |es| :: Possible(t[i], es[i]) && t[i + 1] == Next(t[i], es[i])
  }

  /** A run that is fair to the room of row `id`, whatever it does to others. */
  ghost predicate FairRun(t: seq<World>, es: seq<Event>, id: int) {
    Run(t, es) && forall i | 0 <= i < |es| :: Fair(t[i], es[i], id)
  }
}
