/**
 What each handler of the room gateway does, client by client and row by row: who is where
 afterwards, who is told what in which order, and which fields of which row change. Rooms.dfy
 computes the same in the steps of the code.
 */
module RoomHandlers {
  import opened Option
  import opened RoomNames
  import opened Rooms

  // ----- Rooms and rows, read off the world -----

  ghost predicate IsIn(w: World, s: SocketId, room: string) {
    s in w.clients && room in w.clients[s].rooms
  }

  /** The sockets in a room, on all nodes. */
  ghost function Crowd(w: World, room: string): set<SocketId> {
    set s | s in w.clients && IsIn(w, s, room)
  }

  /** The sockets in a room that are on one node. */
  ghost function CrowdOn(w: World, node: nat, room: string): set<SocketId> {
    set s | s in w.clients && IsIn(w, s, room) && w.clients[s].node == node
  }

  /** Every socket in a room, with its user. */
  ghost function Company(w: World, room: string): set<User> {
    set s | s in w.clients && IsIn(w, s, room) :: User(s, w.clients[s].uid)
  }

  /** The room is read as the id of this row. */
  ghost predicate Reads(w: World, room: string, id: int) {
    ParseInt(room) == Some(id) && id in w.rows
  }

  lemma CrowdIsMembers(w: World, room: string)
    ensures Crowd(w, room) == Members(w.clients, room)
    ensures Company(w, room) == RoomUsers(w.clients, room)
    ensures forall node :: CrowdOn(w, node, room) == LocalMembers(w.clients, node, room)
  {
    assert Crowd(w, room) == Members(w.clients, room);
  }

  /** Client `s` is afterwards in `rooms`, and has been told `news`, in this order, and nothing else. */
  ghost predicate Finds(w: World, after: World, s: SocketId, rooms: set<string>, news: seq<Notice>)
    requires s in w.clients
  {
    s in after.clients &&
    after.clients[s] == Client(w.clients[s].uid, w.clients[s].node, rooms, w.clients[s].inbox + news)
  }

  /** Of the rows only that of the room, if there is one, is changed, and only its count. */
  ghost predicate Recounts(w: World, after: World, room: string, count: int) {
    && after.rows.Keys == w.rows.Keys && after.nextId == w.nextId && after.users == w.users
    && forall id | id in w.rows ::
         after.rows[id] ==
           Row(w.rows[id].moderator, w.rows[id].total, if Reads(w, room, id) then count else w.rows[id].current,
               w.rows[id].isPublic)
  }

  // ----- Joining -----

  /** A check of a join fails, and none before it does. */
  ghost predicate Refuses(w: World, sid: SocketId, room: string, password: bool, error: JoinError)
    requires sid in w.clients
  {
    if IsIn(w, sid, room) then error == AlreadyJoined
    else if ParseInt(room).None? then error == NotANumber
    else if forall id :: !Reads(w, room, id) then error == NoRoom
    else
      exists id :: Reads(w, room, id) &&
        if |CrowdOn(w, w.clients[sid].node, room)| >= w.rows[id].total then error == RoomFull
        else !w.rows[id].isPublic && !password && error == InvalidPassword
  }

  /** A join is let through. */
  ghost predicate MayJoin(w: World, sid: SocketId, room: string, password: bool)
    requires sid in w.clients
  {
    && !IsIn(w, sid, room)
    && exists id :: Reads(w, room, id) && |CrowdOn(w, w.clients[sid].node, room)| < w.rows[id].total &&
                    (w.rows[id].isPublic || password)
  }

  lemma JoinChecks(w: World, sid: SocketId, room: string, password: bool, error: JoinError)
    requires sid in w.clients
    ensures Validate(w, sid, room, password) == Some(error) <==> Refuses(w, sid, room, password, error)
    ensures Validate(w, sid, room, password).None? <==> MayJoin(w, sid, room, password)
  {
    CrowdIsMembers(w, room);
    var id := ParseInt(room);
    if id.Some? && id.value in w.rows { assert Reads(w, room, id.value); }
  }

  /** What a client is told of a join: whoever joins, that it has and who is there; whoever is there, who came. */
  ghost function JoinNews(w: World, sid: SocketId, room: string, uid: int, s: SocketId): seq<Notice> {
    if s == sid then [JoinedRoom(room), ExistingUsers(room, Company(w, room))]
    else if IsIn(w, s, room) then [NewUser(room, User(sid, uid))] else []
  }

  /** A join that is let through. */
  ghost predicate Joined(w: World, after: World, sid: SocketId, room: string, uid: int) {
    && after.clients.Keys == w.clients.Keys
    && (forall s | s in w.clients ::
          Finds(w, after, s, w.clients[s].rooms + (if s == sid then {room} else {}), JoinNews(w, sid, room, uid, s)))
    && Recounts(w, after, room, |Crowd(w, room)| + 1)
  }

  lemma WelcomeTells(w: World, sid: SocketId, room: string, uid: int, s: SocketId)
    requires sid in w.clients && s in w.clients
    ensures var after := Welcome(w.clients, sid, room, uid);
            s in after &&
            after[s] == Client(w.clients[s].uid, w.clients[s].node,
                               w.clients[s].rooms + (if s == sid then {room} else {}),
                               w.clients[s].inbox + JoinNews(w, sid, room, uid, s))
  {
    CrowdIsMembers(w, room);
    var inbox := w.clients[s].inbox;
    var joined, existing := JoinedRoom(room), ExistingUsers(room, Company(w, room));
    assert inbox + [joined] + [existing] == inbox + [joined, existing];
    assert inbox + [] == inbox;
    assert w.clients[s].rooms + {} == w.clients[s].rooms;
  }

  lemma LetIn(w: World, sid: SocketId, room: string, uid: int, password: bool)
    requires sid in w.clients && Validate(w, sid, room, password).None?
    ensures Joined(w, Join(w, sid, room, uid, password), sid, room, uid)
  {
    CrowdIsMembers(w, room);
    forall s | s in w.clients
      ensures Finds(w, Join(w, sid, room, uid, password), s,
                    w.clients[s].rooms + (if s == sid then {room} else {}), JoinNews(w, sid, room, uid, s))
    {
      WelcomeTells(w, sid, room, uid, s);
    }
  }

  /** A join that is refused changes nothing; one that is let through does exactly this. */
  lemma JoinDoes(w: World, sid: SocketId, room: string, uid: int, password: bool)
    requires sid in w.clients
    ensures var after := Next(w, Joining(sid, room, uid, password));
            if MayJoin(w, sid, room, password) then Joined(w, after, sid, room, uid) else after == w
  {
    JoinChecks(w, sid, room, password, RoomFull);
    if MayJoin(w, sid, room, password) { LetIn(w, sid, room, uid, password); }
  }

  // ----- Leaving -----

  /** Whoever leaves, and everyone still there, is told that it left, if the room has a row. */
  ghost function LeaveNews(w: World, sid: SocketId, room: string, s: SocketId): seq<Notice> {
    if (exists id :: Reads(w, room, id)) && (s == sid || IsIn(w, s, room)) then [LeftRoom(room, sid)] else []
  }

  lemma LeaveDoes(w: World, sid: SocketId, room: string)
    requires sid in w.clients
    ensures var after := Next(w, Leaving(sid, room));
            && after.clients.Keys == w.clients.Keys
            && (forall s | s in w.clients ::
                  Finds(w, after, s, w.clients[s].rooms - (if s == sid then {room} else {}), LeaveNews(w, sid, room, s)))
            && Recounts(w, after, room, |Crowd(w, room) - {sid}|)
  {
    var after := Next(w, Leaving(sid, room));
    var left := Exit(w.clients, sid, room);
    assert HasRow(w, room) <==> exists id :: Reads(w, room, id) by {
      if HasRow(w, room) { assert Reads(w, room, ParseInt(room).value); }
    }
    assert Members(left, room) == Crowd(w, room) - {sid};
    forall s | s in w.clients
      ensures Finds(w, after, s, w.clients[s].rooms - (if s == sid then {room} else {}), LeaveNews(w, sid, room, s))
    {
      assert w.clients[s].inbox + [] == w.clients[s].inbox;
      assert w.clients[s].rooms - {} == w.clients[s].rooms;
    }
  }

  // ----- Kicking -----

  ghost predicate Moderates(w: World, sid: SocketId, room: string)
    requires sid in w.clients
  {
    exists id :: ParseIntAnyBase(room) == Some(id) && id in w.rows && w.rows[id].moderator == w.clients[sid].uid
  }

  /** A check of a kick fails, and none before it does. The room's id is read in any base. */
  ghost predicate RefusesKick(w: World, sid: SocketId, room: string, uid: Option<int>, target: SocketId, error: KickError)
    requires sid in w.clients
  {
    if !IsIn(w, sid, room) then error == UserNotInRoom
    else if uid.None? then error == NoSession
    else if uid.value !in w.users then error == InvalidTarget
    else if ParseIntAnyBase(room).None? then error == InvalidRoom
    else if !Moderates(w, sid, room) then error == NotModerator
    else if !IsIn(w, target, room) then error == NoMatchingUser
    else (uid == Some(w.clients[sid].uid) || target == sid) && error == IsModerator
  }

  /** The room's moderator, in it, kicks another socket in it, for a known user that is not the moderator. */
  ghost predicate MayKick(w: World, sid: SocketId, room: string, uid: Option<int>, target: SocketId)
    requires sid in w.clients
  {
    && IsIn(w, sid, room) && IsIn(w, target, room) && target != sid && Moderates(w, sid, room)
    && uid.Some? && uid.value in w.users && uid.value != w.clients[sid].uid
  }

  lemma KickChecks(w: World, sid: SocketId, room: string, uid: Option<int>, target: SocketId, error: KickError)
    requires sid in w.clients
    ensures ValidateKick(w, sid, room, uid, target) == Some(error) <==> RefusesKick(w, sid, room, uid, target, error)
    ensures ValidateKick(w, sid, room, uid, target).None? <==> MayKick(w, sid, room, uid, target)
  {
  }

  /** Everyone in the room is told of the kick, the target and the moderator too. */
  ghost function KickNews(w: World, room: string, uid: int, s: SocketId): seq<Notice> {
    if IsIn(w, s, room) then [KickUser(room, uid)] else []
  }

  ghost predicate KickedOut(w: World, after: World, room: string, uid: int, target: SocketId) {
    && after.clients.Keys == w.clients.Keys
    && (forall s | s in w.clients ::
          Finds(w, after, s, w.clients[s].rooms - (if s == target then {room} else {}), KickNews(w, room, uid, s)))
    && Recounts(w, after, room, |Crowd(w, room) - {target}|)
  }

  lemma KickDoes(w: World, sid: SocketId, room: string, uid: Option<int>, target: SocketId)
    requires sid in w.clients
    ensures var after := Next(w, Kicking(sid, room, uid, target));
            if MayKick(w, sid, room, uid, target) then KickedOut(w, after, room, uid.value, target) else after == w
  {
    KickChecks(w, sid, room, uid, target, InvalidRoom);
    if MayKick(w, sid, room, uid, target) {
      var after := Next(w, Kicking(sid, room, uid, target));
      var notified := Tell(w.clients, Members(w.clients, room), KickUser(room, uid.value));
      assert Members(Exit(notified, target, room), room) == Crowd(w, room) - {target};
      forall s | s in w.clients
        ensures Finds(w, after, s, w.clients[s].rooms - (if s == target then {room} else {}),
                      KickNews(w, room, uid.value, s))
      {
        assert w.clients[s].inbox + [] == w.clients[s].inbox;
        assert w.clients[s].rooms - {} == w.clients[s].rooms;
      }
    }
  }

  // ----- Disconnecting -----

  /** That `sid` left the room, if it has a row and `s` is in it too. */
  ghost function Farewell(w: World, sid: SocketId, room: string, s: SocketId): seq<Notice> {
    if (exists id :: Reads(w, room, id)) && IsIn(w, s, room) then [LeftRoom(room, sid)] else []
  }

  /** For each of the rooms, in the order they are visited. */
  ghost function Farewells(w: World, sid: SocketId, order: seq<string>, s: SocketId): seq<Notice> {
    if order == [] then []
    else
      Farewells(w, sid, order[..|order| - 1], s) + Farewell(w, sid, order[|order| - 1], s)
  }

  /** Of the rows only counts are changed, and only of rows whose id a visited room is read as. */
  ghost predicate RecountsAll(w: World, after: World, order: seq<string>) {
    && after.rows.Keys == w.rows.Keys && after.nextId == w.nextId && after.users == w.users
    && forall id | id in w.rows ::
         && after.rows[id].moderator == w.rows[id].moderator && after.rows[id].total == w.rows[id].total
         && after.rows[id].isPublic == w.rows[id].isPublic
         && ((forall room | room in order :: !Reads(w, room, id)) ==> after.rows[id] == w.rows[id])
  }

  lemma GoodbyeRecounts(w: World, sid: SocketId, room: string)
    ensures RecountsAll(w, Goodbye(w, sid, room), [room])
  {
    assert room in [room];
  }

  lemma RecountsMore(w: World, before: World, after: World, order: seq<string>)
    requires order != [] && RecountsAll(w, before, order[..|order| - 1])
    requires RecountsAll(before, after, [order[|order| - 1]])
    ensures RecountsAll(w, after, order)
  {
    var front, room := order[..|order| - 1], order[|order| - 1];
    forall id | id in w.rows && forall r | r in order :: !Reads(w, r, id) ensures after.rows[id] == w.rows[id] {
      assert room in order && forall r | r in front :: r in order;
      forall r | r in [room] ensures !Reads(before, r, id) {}
    }
  }

  lemma {:induction false} GoodbyesRecount(w: World, sid: SocketId, order: seq<string>)
    ensures RecountsAll(w, Goodbyes(w, sid, order), order)
  {
    if order != [] {
      var front, room := order[..|order| - 1], order[|order| - 1];
      GoodbyesRecount(w, sid, front);
      GoodbyeRecounts(Goodbyes(w, sid, front), sid, room);
      RecountsMore(w, Goodbyes(w, sid, front), Goodbyes(w, sid, order), order);
    }
  }

  lemma GoodbyeTells(w: World, sid: SocketId, room: string, s: SocketId)
    requires s in w.clients
    ensures Goodbye(w, sid, room).clients.Keys == w.clients.Keys
    ensures Goodbye(w, sid, room).clients[s].rooms == w.clients[s].rooms
    ensures s != sid ==> Finds(w, Goodbye(w, sid, room), s, w.clients[s].rooms, Farewell(w, sid, room, s))
  {
    assert w.clients[s].inbox + [] == w.clients[s].inbox;
    if HasRow(w, room) { assert Reads(w, room, ParseInt(room).value); }
  }

  lemma FindsTwice(w: World, before: World, after: World, s: SocketId, rooms: set<string>, a: seq<Notice>, b: seq<Notice>)
    requires s in w.clients && Finds(w, before, s, rooms, a) && Finds(before, after, s, rooms, b)
    ensures Finds(w, after, s, rooms, a + b)
  {
    assert w.clients[s].inbox + (a + b) == w.clients[s].inbox + a + b;
  }

  lemma SameFarewell(w: World, before: World, sid: SocketId, room: string, s: SocketId)
    requires s in w.clients && s in before.clients && before.clients[s].rooms == w.clients[s].rooms
    requires before.rows.Keys == w.rows.Keys
    ensures Farewell(before, sid, room, s) == Farewell(w, sid, room, s)
  {
    assert forall id :: Reads(before, room, id) <==> Reads(w, room, id);
  }

  lemma {:induction false} GoodbyesTell(w: World, sid: SocketId, order: seq<string>, s: SocketId)
    requires s in w.clients
    ensures Goodbyes(w, sid, order).clients.Keys == w.clients.Keys
    ensures Goodbyes(w, sid, order).clients[s].rooms == w.clients[s].rooms
    ensures s != sid ==> Finds(w, Goodbyes(w, sid, order), s, w.clients[s].rooms, Farewells(w, sid, order, s))
  {
    if order == [] {
      assert w.clients[s].inbox + [] == w.clients[s].inbox;
    } else {
      var front, room := order[..|order| - 1], order[|order| - 1];
      var before := Goodbyes(w, sid, front);
      GoodbyesTell(w, sid, front, s);
      GoodbyesRecount(w, sid, front);
      GoodbyeTells(before, sid, room, s);
      SameFarewell(w, before, sid, room, s);
      if s != sid {
        FindsTwice(w, before, Goodbyes(w, sid, order), s, w.clients[s].rooms,
                   Farewells(w, sid, front, s), Farewell(w, sid, room, s));
      }
    }
  }

  /**
   A disconnect: the socket is gone, everyone else is where it was and is told of each room
   left that it shares, and only counts of those rooms change (RoomRuns has their values).
   */
  lemma DisconnectDoes(w: World, sid: SocketId, order: seq<string>)
    requires sid in w.clients && Lists(order, RoomsToLeave(w, sid))
    ensures var after := Next(w, Disconnecting(sid, order));
            && (forall s :: s in after.clients <==> s in w.clients && s != sid)
            && (forall s | s in w.clients && s != sid ::
                  Finds(w, after, s, w.clients[s].rooms, Farewells(w, sid, order, s)))
            && RecountsAll(w, after, order)
    ensures forall room :: room in order <==> IsIn(w, sid, room) && room != sid && room != Show(w.clients[sid].uid)
  {
    GoodbyesRecount(w, sid, order);
    GoodbyesTell(w, sid, order, sid);
    forall s | s in w.clients && s != sid
      ensures Finds(w, Next(w, Disconnecting(sid, order)), s, w.clients[s].rooms, Farewells(w, sid, order, s))
    {
      GoodbyesTell(w, sid, order, s);
    }
  }

  // ----- Connecting, creating, deleting -----

  lemma ConnectDoes(w: World, sid: SocketId, uid: int, node: nat)
    requires sid !in w.clients && uid in w.users
    ensures var after := Next(w, Connecting(sid, uid, node));
            && (forall s :: s in after.clients <==> s in w.clients || s == sid)
            && (forall s | s in w.clients :: after.clients[s] == w.clients[s])
            && (forall room :: IsIn(after, sid, room) <==> room == sid || room == Show(uid))
            && after.clients[sid].inbox == [] && after.clients[sid].uid == uid && after.clients[sid].node == node
            && after.rows == w.rows && after.nextId == w.nextId && after.users == w.users
  {
  }

  /** A row is made at this step: its id is drawn now, and it says what its creator asked for. */
  ghost predicate CreatesRow(w: World, e: Event, id: int) { e.Creating? && w.nextId == id }

  /** A row is deleted at this step: by its moderator, with nobody counted in it. */
  ghost predicate DeletesRow(w: World, e: Event, id: int) {
    e.Deleting? && e.id == id && id in w.rows && w.rows[id].moderator == e.uid && w.rows[id].current <= 0
  }

  /** The terms of a row, which no handler changes. */
  ghost predicate SameTerms(row: Row, moderator: int, total: int, isPublic: bool) {
    row.moderator == moderator && row.total == total && row.isPublic == isPublic
  }

  ghost predicate StepsRow(w: World, e: Event, after: World, id: int) {
    && (id in after.rows <==> CreatesRow(w, e, id) || (id in w.rows && !DeletesRow(w, e, id)))
    && (CreatesRow(w, e, id) && id in after.rows ==>
          SameTerms(after.rows[id], e.uid, e.total, e.isPublic) && after.rows[id].current == 0)
    && (!CreatesRow(w, e, id) && id in after.rows && id in w.rows ==>
          SameTerms(after.rows[id], w.rows[id].moderator, w.rows[id].total, w.rows[id].isPublic))
    && after.nextId == w.nextId + if e.Creating? then 1 else 0
  }

  lemma StepRow(w: World, e: Event, id: int)
    requires Possible(w, e)
    ensures StepsRow(w, e, Next(w, e), id)
  {
    match e {
      case Connecting(sid, uid, node) =>
      case Joining(sid, room, uid, password) => JoinDoes(w, sid, room, uid, password);
      case Leaving(sid, room) => LeaveDoes(w, sid, room);
      case Kicking(sid, room, uid, target) => KickDoes(w, sid, room, uid, target);
      case Disconnecting(sid, order) => DisconnectDoes(w, sid, order);
      case Creating(uid, total, isPublic) =>
      case Deleting(uid, gone) =>
    }
  }

  /** The row was made at step `a` and has not been deleted up to step `i`. */
  ghost predicate StandsSince(t: seq<World>, es: seq<Event>, a: nat, i: nat, id: int) {
    && a < i <= |es| && i < |t| && CreatesRow(t[a], es[a], id)
    && forall b | a < b < i :: !DeletesRow(t[b], es[b], id)
  }

  lemma {:induction false} NextIdGrows(t: seq<World>, es: seq<Event>, a: nat, i: nat)
    requires Run(t, es) && a <= i < |t|
    ensures t[a].nextId <= t[i].nextId
    ensures a < i && es[a].Creating? ==> t[a].nextId < t[i].nextId
    decreases i
  {
    if a < i {
      NextIdGrows(t, es, a, i - 1);
      StepRow(t[i - 1], es[i - 1], 0);
    }
  }

  /**
   In every run a row is there if and only if it was created and its moderator has not deleted
   it, empty, since; and it has the moderator, the total and the visibility it was created with.
   */
  lemma {:induction false} RowStandsIff(t: seq<World>, es: seq<Event>, i: nat, id: int)
    requires Run(t, es) && i < |t|
    ensures id in t[i].rows <==> exists a: nat :: StandsSince(t, es, a, i, id)
    ensures forall a: nat | StandsSince(t, es, a, i, id) && id in t[i].rows ::
              SameTerms(t[i].rows[id], es[a].uid, es[a].total, es[a].isPublic)
  {
    if i > 0 {
      var j: nat := i - 1;
      RowStandsIff(t, es, j, id);
      StepRow(t[j], es[j], id);
      if a: nat :| StandsSince(t, es, a, j, id) {
        NextIdGrows(t, es, a, j);
        if !DeletesRow(t[j], es[j], id) { assert StandsSince(t, es, a, i, id); }
      }
      if CreatesRow(t[j], es[j], id) { assert StandsSince(t, es, j, i, id); }
      forall a: nat | StandsSince(t, es, a, i, id)
        ensures id in t[i].rows && SameTerms(t[i].rows[id], es[a].uid, es[a].total, es[a].isPublic)
      {
        if a < j {
          assert StandsSince(t, es, a, j, id);
          NextIdGrows(t, es, a, j);
        }
      }
    }
  }
}
