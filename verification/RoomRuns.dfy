/**
 What every run of atomic handlers keeps: the stored counter is the number of members, an
 occupied room has its row, and every member has been told exactly who else is there. Each is
 said of one room, in runs that are fair to that room.
 */
module RoomRuns {
  import opened Option
  import opened RoomNames
  import opened Rooms

  // ----- Membership -----

  lemma MembersTell(clients: map<SocketId, Client>, to: set<SocketId>, notice: Notice, room: string)
    ensures Members(Tell(clients, to, notice), room) == Members(clients, room)
  {
  }

  lemma MembersEnter(clients: map<SocketId, Client>, sid: SocketId, room: string, r: string)
    requires sid in clients
    ensures Members(Enter(clients, sid, room), r) == Members(clients, r) + if r == room then {sid} else {}
  {
  }

  lemma MembersExit(clients: map<SocketId, Client>, sid: SocketId, room: string, r: string)
    requires sid in clients
    ensures Members(Exit(clients, sid, room), r) == Members(clients, r) - if r == room then {sid} else {}
  {
  }

  /** Rooms and users of every client are the same; only what they were told may differ. */
  ghost predicate OnlyTold(a: map<SocketId, Client>, b: map<SocketId, Client>) {
    a.Keys == b.Keys && forall s | s in a :: b[s] == a[s].(inbox := b[s].inbox)
  }

  lemma SameMembers(a: map<SocketId, Client>, b: map<SocketId, Client>, room: string)
    requires OnlyTold(a, b)
    ensures Members(b, room) == Members(a, room)
  {
  }

  /** After a successful join, membership is that of entering the room. */
  lemma JoinMembers(w: World, sid: SocketId, room: string, uid: int, password: bool)
    requires sid in w.clients && Validate(w, sid, room, password).None?
    ensures OnlyTold(Enter(w.clients, sid, room), Join(w, sid, room, uid, password).clients)
  {
  }

  lemma LeaveMembers(w: World, sid: SocketId, room: string)
    requires sid in w.clients
    ensures OnlyTold(Exit(w.clients, sid, room), Leave(w, sid, room).clients)
  {
  }

  lemma KickMembers(w: World, sid: SocketId, room: string, uid: Option<int>, target: SocketId)
    requires sid in w.clients && ValidateKick(w, sid, room, uid, target).None?
    ensures OnlyTold(Exit(w.clients, target, room), Kick(w, sid, room, uid, target).clients)
  {
  }

  lemma {:induction false} GoodbyesMembers(w: World, sid: SocketId, order: seq<string>)
    ensures OnlyTold(w.clients, Goodbyes(w, sid, order).clients)
    ensures Goodbyes(w, sid, order).rows.Keys == w.rows.Keys
    ensures forall id | id in w.rows ::
              Goodbyes(w, sid, order).rows[id] == w.rows[id].(current := Goodbyes(w, sid, order).rows[id].current)
    ensures Goodbyes(w, sid, order).users == w.users && Goodbyes(w, sid, order).nextId == w.nextId
  {
    if order != [] { GoodbyesMembers(w, sid, order[..|order| - 1]); }
  }

  // ----- The counter -----

  /** The row of `id`, if there is one, counts the sockets in the room of that name. */
  ghost predicate AgreesOn(w: World, id: int) {
    id in w.rows ==> w.rows[id].current == |Members(w.clients, Show(id))|
  }

  lemma AddMember(s: set<SocketId>, sid: SocketId)
    requires sid !in s
    ensures |s + {sid}| == |s| + 1
  {
  }

  lemma RemoveMember(s: set<SocketId>, sid: SocketId)
    requires sid in s
    ensures |s - {sid}| == |s| - 1
  {
    assert s == (s - {sid}) + {sid};
  }

  /**
   From any state, right or wrong, a successful join leaves the counter right if and only if
   the room name is the canonical text of the id, or the two rooms happened to be one apart.
   */
  lemma JoinAgreesIff(w: World, sid: SocketId, room: string, uid: int, password: bool)
    requires sid in w.clients && Validate(w, sid, room, password).None?
    ensures var id := ParseInt(room).value;
            AgreesOn(Join(w, sid, room, uid, password), id) <==>
              room == Show(id) || |Members(w.clients, Show(id))| == |Members(w.clients, room)| + 1
  {
    var id := ParseInt(room).value;
    JoinMembers(w, sid, room, uid, password);
    SameMembers(Enter(w.clients, sid, room), Join(w, sid, room, uid, password).clients, Show(id));
    MembersEnter(w.clients, sid, room, Show(id));
    AddMember(Members(w.clients, room), sid);
  }

  /** The same for a leave, whether or not the client was a member. */
  lemma LeaveAgreesIff(w: World, sid: SocketId, room: string)
    requires sid in w.clients && HasRow(w, room)
    ensures var id := ParseInt(room).value;
            AgreesOn(Leave(w, sid, room), id) <==>
              room == Show(id) || |Members(w.clients, Show(id))| == |Members(w.clients, room) - {sid}|
  {
    var id := ParseInt(room).value;
    LeaveMembers(w, sid, room);
    SameMembers(Exit(w.clients, sid, room), Leave(w, sid, room).clients, Show(id));
    MembersExit(w.clients, sid, room, Show(id));
    MembersExit(w.clients, sid, room, room);
  }

  lemma KickCount(w: World, sid: SocketId, room: string, uid: Option<int>, target: SocketId)
    requires sid in w.clients && ValidateKick(w, sid, room, uid, target).None? && HasRow(w, room)
    ensures Kick(w, sid, room, uid, target).rows ==
              Store(w.rows, ParseInt(room).value, |Members(w.clients, room) - {target}|, 0)
  {
    var notified := Tell(w.clients, Members(w.clients, room), KickUser(room, uid.value));
    MembersTell(w.clients, Members(w.clients, room), KickUser(room, uid.value), room);
    MembersExit(notified, target, room, room);
  }

  lemma KickAgreesIff(w: World, sid: SocketId, room: string, uid: Option<int>, target: SocketId)
    requires sid in w.clients && ValidateKick(w, sid, room, uid, target).None? && HasRow(w, room)
    ensures var id := ParseInt(room).value;
            AgreesOn(Kick(w, sid, room, uid, target), id) <==>
              room == Show(id) || |Members(w.clients, Show(id))| == |Members(w.clients, room)| - 1
  {
    var id := ParseInt(room).value;
    var after := Kick(w, sid, room, uid, target).clients;
    KickMembers(w, sid, room, uid, target);
    SameMembers(Exit(w.clients, target, room), after, Show(id));
    SameMembers(Exit(w.clients, target, room), after, room);
    MembersExit(w.clients, target, room, Show(id));
    MembersExit(w.clients, target, room, room);
    RemoveMember(Members(w.clients, room), target);
    KickCount(w, sid, room, uid, target);
  }

  lemma GoodbyesKeepMembers(w: World, sid: SocketId, order: seq<string>, room: string)
    ensures Members(Goodbyes(w, sid, order).clients, room) == Members(w.clients, room)
    ensures HasRow(Goodbyes(w, sid, order), room) == HasRow(w, room)
    ensures Goodbyes(w, sid, order).clients.Keys == w.clients.Keys
  {
    GoodbyesMembers(w, sid, order);
    SameMembers(w.clients, Goodbyes(w, sid, order).clients, room);
  }

  /** The last of the rooms visited whose name reads as `id`. */
  ghost function LastNamed(order: seq<string>, id: int): Option<string> {
    if order == [] then None
    else if ParseInt(order[|order| - 1]) == Some(id) then Some(order[|order| - 1])
    else LastNamed(order[..|order| - 1], id)
  }

  lemma GoodbyeRow(w: World, sid: SocketId, room: string, id: int)
    requires id in w.rows && sid in Members(w.clients, room)
    ensures id in Goodbye(w, sid, room).rows
    ensures Goodbye(w, sid, room).rows[id].current ==
              if ParseInt(room) == Some(id) then |Members(w.clients, room)| - 1 else w.rows[id].current
  {
  }

  /** Whatever the rooms are called, a row ends with the count of the last one that reads as its id. */
  lemma {:induction false} GoodbyesRows(w: World, sid: SocketId, order: seq<string>, id: int)
    requires id in w.rows && sid in w.clients
    requires forall r | r in order :: r in w.clients[sid].rooms
    ensures id in Goodbyes(w, sid, order).rows
    ensures Goodbyes(w, sid, order).rows[id].current ==
              match LastNamed(order, id)
              case None => w.rows[id].current
              case Some(room) => |Members(w.clients, room)| - 1
  {
    if order != [] {
      var front := order[..|order| - 1];
      var last := order[|order| - 1];
      assert order == front + [last] && last in order;
      GoodbyesRows(w, sid, front, id);
      GoodbyesKeepMembers(w, sid, front, last);
      assert sid in Members(w.clients, last);
      GoodbyeRow(Goodbyes(w, sid, front), sid, last, id);
    }
  }

  lemma {:induction false} LastNamedAmong(order: seq<string>, id: int, name: string)
    requires ParseInt(name) == Some(id)
    requires forall r | r in order && ParseInt(r) == Some(id) :: r == name
    ensures LastNamed(order, id) == if name in order then Some(name) else None
  {
    if order != [] {
      var front, last := order[..|order| - 1], order[|order| - 1];
      assert order == front + [last] && last in order;
      forall r | r in front ensures r in order {}
      LastNamedAmong(front, id, name);
      assert ParseInt(last) == Some(id) <==> last == name;
    }
  }

  lemma LastNamedIs(order: seq<string>, id: int)
    requires forall r | r in order && ParseInt(r) == Some(id) :: r == Show(id)
    ensures LastNamed(order, id) == if Show(id) in order then Some(Show(id)) else None
  {
    ShowRoundTrip(id);
    LastNamedAmong(order, id, Show(id));
  }

  /** When a row is written for a disconnecting client, the count is at least one: the clamp never fires. */
  lemma ClampNeverFires(w: World, sid: SocketId, order: seq<string>, k: nat)
    requires Possible(w, Disconnecting(sid, order)) && k < |order|
    ensures |Members(Goodbyes(w, sid, order[..k]).clients, order[k])| - 1 >= 0
  {
    GoodbyesMembers(w, sid, order[..k]);
    SameMembers(w.clients, Goodbyes(w, sid, order[..k]).clients, order[k]);
    assert order[k] in order;
    assert sid in Members(w.clients, order[k]);
  }

  lemma DisconnectMembers(w: World, sid: SocketId, order: seq<string>, room: string)
    ensures Members(Disconnect(w, sid, order).clients, room) == Members(w.clients, room) - {sid}
  {
    GoodbyesMembers(w, sid, order);
    SameMembers(w.clients, Goodbyes(w, sid, order).clients, room);
  }

  /**
   From any state, and whatever the rooms are called, a disconnecting client leaves a counter
   right if and only if the last room it left that reads as the id (or the counter as it was,
   if none did) counts what the room of that id has without it.
   */
  lemma DisconnectAgreesIff(w: World, sid: SocketId, order: seq<string>, id: int)
    requires Possible(w, Disconnecting(sid, order)) && id in w.rows
    ensures var left := |Members(w.clients, Show(id)) - {sid}|;
            AgreesOn(Disconnect(w, sid, order), id) <==>
              match LastNamed(order, id)
              case None => w.rows[id].current == left
              case Some(room) => |Members(w.clients, room)| - 1 == left
  {
    GoodbyesRows(w, sid, order, id);
    DisconnectMembers(w, sid, order, Show(id));
  }

  /**
   So from any state a member's disconnecting makes the counter of a room it leaves right, if
   it is in no other room whose name reads as the same id.
   */
  lemma DisconnectRestores(w: World, sid: SocketId, order: seq<string>, id: int)
    requires Possible(w, Disconnecting(sid, order))
    requires forall r | r in order && ParseInt(r) == Some(id) :: r == Show(id)
    requires Show(id) in order && id in w.rows
    ensures AgreesOn(Disconnect(w, sid, order), id)
  {
    LastNamedIs(order, id);
    DisconnectAgreesIff(w, sid, order, id);
    RemoveMember(Members(w.clients, Show(id)), sid);
  }

  // ----- The invariant -----

  /** The only members are users of that id, in their own rooms. */
  ghost predicate OnlyPersonal(w: World, id: int) {
    forall s | s in Members(w.clients, Show(id)) :: w.clients[s].uid == id
  }

  /** The room of row `id`, while there is one, is nobody's own room. */
  ghost predicate Apart(w: World, id: int) {
    && (id in w.rows ==> id < w.nextId)
    && forall s | s in w.clients :: s != Show(id) && (id in w.rows ==> w.clients[s].uid != id)
  }

  /** Nobody is in a room that is read as `id` by another name, but for a socket's own. */
  ghost predicate OneName(w: World, id: int) {
    forall s, r | s in w.clients && r in w.clients[s].rooms :: r == s || NamesOnly(r, id)
  }

  ghost predicate Agrees(w: World) { forall id | id in w.rows :: AgreesOn(w, id) }

  ghost predicate Good(w: World, id: int) {
    AgreesOn(w, id) && Apart(w, id) && OneName(w, id) && (id !in w.rows ==> OnlyPersonal(w, id))
  }

  /** A room with a row is nobody's own room. */
  lemma NotPersonal(w: World, s: SocketId, id: int)
    requires Apart(w, id) && s in w.clients && id in w.rows
    ensures Show(id) != s && Show(id) != Show(w.clients[s].uid)
  {
    if Show(id) == Show(w.clients[s].uid) { ShowInjective(id, w.clients[s].uid); }
  }

  /** Clients keep user and rooms, but for `room` possibly gained or lost by `sid`; rows keep but `current`. */
  ghost predicate Shifts(w: World, v: World, sid: SocketId, room: string, id: int) {
    && v.clients.Keys == w.clients.Keys && v.rows.Keys == w.rows.Keys && v.nextId == w.nextId
    && (forall s | s in w.clients :: v.clients[s].uid == w.clients[s].uid)
    && (forall s, r | s in w.clients && r in v.clients[s].rooms :: r in w.clients[s].rooms || (s == sid && r == room))
    && (room != Show(id) ==>
          Members(v.clients, Show(id)) == Members(w.clients, Show(id)) && (id in w.rows ==> v.rows[id] == w.rows[id]))
  }

  lemma ShiftsGood(w: World, v: World, sid: SocketId, room: string, id: int)
    requires Shifts(w, v, sid, room, id) && Good(w, id) && NamesOnly(room, id)
    requires room == Show(id) ==>
               AgreesOn(v, id) && (id in w.rows || Members(v.clients, Show(id)) <= Members(w.clients, Show(id)))
    ensures Good(v, id)
  {
    forall s, r | s in v.clients && r in v.clients[s].rooms ensures r == s || NamesOnly(r, id) {
      if r != room { assert r in w.clients[s].rooms; }
    }
  }

  lemma JoinShifts(w: World, sid: SocketId, room: string, uid: int, password: bool, id: int)
    requires sid in w.clients && Validate(w, sid, room, password).None? && NamesOnly(room, id)
    ensures Shifts(w, Join(w, sid, room, uid, password), sid, room, id)
  {
    var v := Join(w, sid, room, uid, password);
    JoinMembers(w, sid, room, uid, password);
    SameMembers(Enter(w.clients, sid, room), v.clients, Show(id));
    MembersEnter(w.clients, sid, room, Show(id));
  }

  lemma ExitElsewhere(a: map<SocketId, Client>, b: map<SocketId, Client>, sid: SocketId, room: string, r: string)
    requires sid in a && OnlyTold(Exit(a, sid, room), b)
    ensures Members(b, r) == Members(a, r) - if r == room then {sid} else {}
  {
    SameMembers(Exit(a, sid, room), b, r);
    MembersExit(a, sid, room, r);
  }

  lemma LeaveShifts(w: World, sid: SocketId, room: string, id: int)
    requires sid in w.clients && NamesOnly(room, id)
    ensures Shifts(w, Leave(w, sid, room), sid, room, id)
  {
    LeaveMembers(w, sid, room);
    ExitElsewhere(w.clients, Leave(w, sid, room).clients, sid, room, Show(id));
  }

  /** A canonical name is read alike in base ten and with the base left open. */
  lemma CanonicalReads(room: string)
    requires CanonicalRoom(room)
    ensures ParseIntAnyBase(room) == ParseInt(room)
  {
    if ParseInt(room).Some? { ShowRoundTrip(ParseInt(room).value); } else { UnreadInEveryBase(room); }
  }

  lemma KickShifts(w: World, sid: SocketId, room: string, uid: Option<int>, target: SocketId, id: int)
    requires sid in w.clients && ValidateKick(w, sid, room, uid, target).None? && NamesOnly(room, id)
    ensures Shifts(w, Kick(w, sid, room, uid, target), target, room, id)
  {
    KickMembers(w, sid, room, uid, target);
    ExitElsewhere(w.clients, Kick(w, sid, room, uid, target).clients, target, room, Show(id));
  }

  lemma JoinKeepsGood(w: World, sid: SocketId, room: string, uid: int, password: bool, id: int)
    requires Good(w, id) && sid in w.clients && (Validate(w, sid, room, password).None? ==> NamesOnly(room, id))
    ensures Good(Join(w, sid, room, uid, password), id)
  {
    if Validate(w, sid, room, password).None? {
      ShowRoundTrip(id);
      JoinShifts(w, sid, room, uid, password, id);
      JoinAgreesIff(w, sid, room, uid, password);
      ShiftsGood(w, Join(w, sid, room, uid, password), sid, room, id);
    }
  }

  lemma LeaveKeepsGood(w: World, sid: SocketId, room: string, id: int)
    requires Good(w, id) && sid in w.clients && NamesOnly(room, id)
    ensures Good(Leave(w, sid, room), id)
  {
    ShowRoundTrip(id);
    LeaveShifts(w, sid, room, id);
    LeaveMembers(w, sid, room);
    ExitElsewhere(w.clients, Leave(w, sid, room).clients, sid, room, Show(id));
    if HasRow(w, room) { LeaveAgreesIff(w, sid, room); }
    ShiftsGood(w, Leave(w, sid, room), sid, room, id);
  }

  lemma KickKeepsGood(w: World, sid: SocketId, room: string, uid: Option<int>, target: SocketId, id: int)
    requires Good(w, id) && sid in w.clients && (ValidateKick(w, sid, room, uid, target).None? ==> NamesOnly(room, id))
    ensures Good(Kick(w, sid, room, uid, target), id)
  {
    if ValidateKick(w, sid, room, uid, target).None? {
      ShowRoundTrip(id);
      KickShifts(w, sid, room, uid, target, id);
      KickMembers(w, sid, room, uid, target);
      ExitElsewhere(w.clients, Kick(w, sid, room, uid, target).clients, target, room, Show(id));
      if HasRow(w, room) { KickAgreesIff(w, sid, room, uid, target); }
      ShiftsGood(w, Kick(w, sid, room, uid, target), target, room, id);
    }
  }

  lemma DisconnectAgrees(w: World, sid: SocketId, order: seq<string>, id: int)
    requires Good(w, id) && Possible(w, Disconnecting(sid, order)) && id in w.rows
    ensures AgreesOn(Disconnect(w, sid, order), id)
  {
    forall r | r in order ensures NamesOnly(r, id) { assert r in w.clients[sid].rooms && r != sid; }
    if Show(id) in order {
      DisconnectRestores(w, sid, order, id);
    } else {
      NotPersonal(w, sid, id);
      LastNamedIs(order, id);
      DisconnectAgreesIff(w, sid, order, id);
      assert sid !in Members(w.clients, Show(id));
      assert Members(w.clients, Show(id)) - {sid} == Members(w.clients, Show(id));
    }
  }

  lemma DisconnectKeepsGood(w: World, sid: SocketId, order: seq<string>, id: int)
    requires Good(w, id) && Possible(w, Disconnecting(sid, order))
    ensures Good(Disconnect(w, sid, order), id)
  {
    var v := Disconnect(w, sid, order);
    GoodbyesMembers(w, sid, order);
    if id in w.rows { DisconnectAgrees(w, sid, order, id); }
    DisconnectMembers(w, sid, order, Show(id));
    forall s, r | s in v.clients && r in v.clients[s].rooms ensures r == s || NamesOnly(r, id) {
      assert r in w.clients[s].rooms;
    }
  }

  /** Connecting keeps every counter right if and only if the user's id is not a room id. */
  lemma ConnectAgreesIff(w: World, sid: SocketId, uid: int, node: nat)
    requires Agrees(w) && sid !in w.clients && !IsNumeral(sid)
    ensures Agrees(Connect(w, sid, uid, node)) <==> uid !in w.rows
  {
    var v := Connect(w, sid, uid, node);
    forall id | id in w.rows ensures AgreesOn(v, id) <==> id != uid {
      assert AgreesOn(w, id);
      if id == uid {
        assert Members(v.clients, Show(id)) == Members(w.clients, Show(id)) + {sid};
        AddMember(Members(w.clients, Show(id)), sid);
      } else {
        if Show(id) == Show(uid) { ShowInjective(id, uid); }
        assert Members(v.clients, Show(id)) == Members(w.clients, Show(id));
      }
    }
  }

  lemma ConnectMembers(w: World, sid: SocketId, uid: int, node: nat, id: int)
    requires sid !in w.clients && sid != Show(id)
    ensures Members(Connect(w, sid, uid, node).clients, Show(id)) ==
              Members(w.clients, Show(id)) + if uid == id then {sid} else {}
  {
    if Show(id) == Show(uid) { ShowInjective(id, uid); }
  }

  lemma ConnectNames(w: World, sid: SocketId, uid: int, node: nat, id: int)
    requires OneName(w, id)
    ensures OneName(Connect(w, sid, uid, node), id)
  {
    var v := Connect(w, sid, uid, node);
    ShowRoundTrip(uid);
    assert NamesOnly(Show(uid), id);
    forall s, r | s in v.clients && r in v.clients[s].rooms ensures r == s || NamesOnly(r, id) {
      if s != sid { assert r in w.clients[s].rooms; }
    }
  }

  lemma ConnectKeepsGood(w: World, sid: SocketId, uid: int, node: nat, id: int)
    requires Good(w, id) && sid !in w.clients && KeepsApart(w, Connecting(sid, uid, node), id)
    ensures Good(Connect(w, sid, uid, node), id)
  {
    ConnectMembers(w, sid, uid, node, id);
    ConnectNames(w, sid, uid, node, id);
  }

  lemma NobodyInNewRoom(w: World, id: int)
    requires OnlyPersonal(w, id) && NobodysId(w, id)
    ensures Members(w.clients, Show(id)) == {}
  {
  }

  /** A new room keeps every counter right if and only if nobody is in a room of that name already. */
  lemma CreateAgreesIff(w: World, moderator: int, total: int, isPublic: bool)
    requires Agrees(w) && w.nextId !in w.rows
    ensures Agrees(Create(w, moderator, total, isPublic)) <==> Members(w.clients, Show(w.nextId)) == {}
  {
    var v := Create(w, moderator, total, isPublic);
    forall id | id in w.rows ensures AgreesOn(v, id) { assert AgreesOn(w, id); }
    assert AgreesOn(v, w.nextId) <==> |Members(w.clients, Show(w.nextId))| == 0;
  }

  lemma CreateKeepsGood(w: World, moderator: int, total: int, isPublic: bool, id: int)
    requires Good(w, id) && KeepsApart(w, Creating(moderator, total, isPublic), id)
    ensures Good(Create(w, moderator, total, isPublic), id)
  {
    if w.nextId == id { NobodyInNewRoom(w, id); }
  }

  lemma DeleteKeepsGood(w: World, uid: int, gone: int, id: int)
    requires Good(w, id)
    ensures Good(Delete(w, uid, gone), id)
  {
    if CanDelete(w, uid, gone) && gone == id { assert Members(w.clients, Show(id)) == {}; }
  }

  lemma GoodKept(w: World, e: Event, id: int)
    requires Good(w, id) && Possible(w, e) && Fair(w, e, id)
    ensures Good(Next(w, e), id)
  {
    match e
    case Connecting(sid, uid, node) => ConnectKeepsGood(w, sid, uid, node, id);
    case Joining(sid, room, uid, password) => JoinKeepsGood(w, sid, room, uid, password, id);
    case Leaving(sid, room) => LeaveKeepsGood(w, sid, room, id);
    case Kicking(sid, room, uid, target) => KickKeepsGood(w, sid, room, uid, target, id);
    case Disconnecting(sid, order) => DisconnectKeepsGood(w, sid, order, id);
    case Creating(uid, total, isPublic) => CreateKeepsGood(w, uid, total, isPublic, id);
    case Deleting(uid, gone) => DeleteKeepsGood(w, uid, gone, id);
  }

  lemma {:induction false} GoodAlways(t: seq<World>, es: seq<Event>, i: nat, id: int)
    requires FairRun(t, es, id) && i < |t|
    ensures Good(t[i], id)
  {
    if i > 0 {
      GoodAlways(t, es, i - 1, id);
      GoodKept(t[i - 1], es[i - 1], id);
    }
  }

  // ----- The theorems -----

  /** In every state of a run fair to the room, the stored counter is the number of sockets in the room. */
  lemma CounterIsMembers(t: seq<World>, es: seq<Event>, i: nat, id: int)
    requires FairRun(t, es, id) && i < |t| && id in t[i].rows
    ensures t[i].rows[id].current == |Members(t[i].clients, Show(id))|
  {
    GoodAlways(t, es, i, id);
  }

  /** Nobody is in a room whose name is no number, but for a socket's own. */
  ghost predicate NumbersOnly(w: World) {
    forall s, r | s in w.clients && r in w.clients[s].rooms :: r == s || ParseInt(r).Some?
  }

  lemma NumbersKept(w: World, e: Event)
    requires NumbersOnly(w) && Possible(w, e)
    ensures NumbersOnly(Next(w, e))
  {
    match e
    case Connecting(sid, uid, node) => ShowRoundTrip(uid);
    case Joining(sid, room, uid, password) =>
      if Validate(w, sid, room, password).None? { JoinMembers(w, sid, room, uid, password); }
    case Leaving(sid, room) => LeaveMembers(w, sid, room);
    case Kicking(sid, room, uid, target) =>
      if ValidateKick(w, sid, room, uid, target).None? { KickMembers(w, sid, room, uid, target); }
    case Disconnecting(sid, order) => GoodbyesMembers(w, sid, order);
    case Creating(uid, total, isPublic) =>
    case Deleting(uid, id) =>
  }

  lemma {:induction false} NumbersAlways(t: seq<World>, es: seq<Event>, i: nat)
    requires Run(t, es) && i < |t|
    ensures NumbersOnly(t[i])
  {
    if i > 0 {
      NumbersAlways(t, es, i - 1);
      NumbersKept(t[i - 1], es[i - 1]);
    }
  }

  /**
   An occupied room always has its row. So neither a kick nor any of the updates a
   disconnecting client makes ever misses it, and every room it leaves is told.
   */
  lemma OccupiedHasRow(t: seq<World>, es: seq<Event>, i: nat, s: SocketId, room: string)
    requires Run(t, es) && (ParseInt(room).Some? ==> FairRun(t, es, ParseInt(room).value))
    requires i < |t| && s in t[i].clients && room in t[i].clients[s].rooms
    requires room != s && room != Show(t[i].clients[s].uid)
    ensures HasRow(t[i], room) && CanonicalRoom(room)
    ensures t[i].rows[ParseInt(room).value].current > 0
  {
    NumbersAlways(t, es, i);
    var id := ParseInt(room).value;
    GoodAlways(t, es, i, id);
    assert NamesOnly(room, id);
    assert s in Members(t[i].clients, room);
  }

  /** `s` may leave `room` by this step: it leaves, disconnects, or the room's moderator, another member, kicks it. */
  predicate MayRemove(w: World, e: Event, s: SocketId, room: string) {
    || (e.Leaving? && e.sid == s && e.room == room)
    || (e.Disconnecting? && e.sid == s)
    || (e.Kicking? && e.targetSid == s && e.room == room && e.sid != s && e.sid in Members(w.clients, room) &&
        HasRow(w, room) && w.rows[ParseInt(room).value].moderator == w.clients[e.sid].uid)
  }

  /** `s` may enter `room` by this step: it joins, finds its node's members below the total, and may know the password. */
  predicate MayAdd(w: World, e: Event, s: SocketId, room: string) {
    && e.Joining? && e.sid == s && e.room == room && s in w.clients && HasRow(w, room)
    && |LocalMembers(w.clients, w.clients[s].node, room)| < w.rows[ParseInt(room).value].total
    && (w.rows[ParseInt(room).value].isPublic || e.password)
  }

  lemma JoinAdds(w: World, sid: SocketId, room: string, uid: int, password: bool, r: string)
    requires sid in w.clients && Validate(w, sid, room, password).None?
    ensures Members(Join(w, sid, room, uid, password).clients, r) ==
              Members(w.clients, r) + if r == room then {sid} else {}
    ensures MayAdd(w, Joining(sid, room, uid, password), sid, room)
  {
    JoinMembers(w, sid, room, uid, password);
    SameMembers(Enter(w.clients, sid, room), Join(w, sid, room, uid, password).clients, r);
    MembersEnter(w.clients, sid, room, r);
  }

  lemma LeaveRemoves(w: World, sid: SocketId, room: string, r: string)
    requires sid in w.clients
    ensures Members(Leave(w, sid, room).clients, r) == Members(w.clients, r) - if r == room then {sid} else {}
  {
    LeaveMembers(w, sid, room);
    SameMembers(Exit(w.clients, sid, room), Leave(w, sid, room).clients, r);
    MembersExit(w.clients, sid, room, r);
  }

  lemma KickRemoves(w: World, sid: SocketId, room: string, uid: Option<int>, target: SocketId, r: string)
    requires sid in w.clients && ValidateKick(w, sid, room, uid, target).None?
    ensures Members(Kick(w, sid, room, uid, target).clients, r) ==
              Members(w.clients, r) - if r == room then {target} else {}
    ensures CanonicalRoom(room) ==> MayRemove(w, Kicking(sid, room, uid, target), target, room)
  {
    if CanonicalRoom(room) { CanonicalReads(room); }
    KickMembers(w, sid, room, uid, target);
    SameMembers(Exit(w.clients, target, room), Kick(w, sid, room, uid, target).clients, r);
    MembersExit(w.clients, target, room, r);
  }

  lemma StepMembers(w: World, e: Event, id: int, s: SocketId)
    requires Good(w, id) && Possible(w, e) && Fair(w, e, id) && id in w.rows
    ensures s in Members(w.clients, Show(id)) && s !in Members(Next(w, e).clients, Show(id)) ==> MayRemove(w, e, s, Show(id))
    ensures s !in Members(w.clients, Show(id)) && s in Members(Next(w, e).clients, Show(id)) ==> MayAdd(w, e, s, Show(id))
  {
    match e
    case Connecting(sid, uid, node) => ConnectMembers(w, sid, uid, node, id);
    case Joining(sid, room, uid, password) =>
      if Validate(w, sid, room, password).None? { JoinAdds(w, sid, room, uid, password, Show(id)); }
    case Leaving(sid, room) => LeaveRemoves(w, sid, room, Show(id));
    case Kicking(sid, room, uid, target) =>
      ShowRoundTrip(id);
      if ValidateKick(w, sid, room, uid, target).None? { KickRemoves(w, sid, room, uid, target, Show(id)); }
    case Disconnecting(sid, order) => DisconnectMembers(w, sid, order, Show(id));
    case Creating(_, _, _) =>
    case Deleting(_, _) =>
  }

  /**
   Nobody is moved behind its back. In every run a socket enters a room only by its own join
   that found space and was allowed, and goes only by its own leave or disconnect, or by a
   kick of the room's moderator, who is another member.
   */
  lemma MembershipChanges(t: seq<World>, es: seq<Event>, i: nat, id: int, s: SocketId)
    requires FairRun(t, es, id) && i < |es| && id in t[i].rows
    ensures var before, after := Members(t[i].clients, Show(id)), Members(t[i + 1].clients, Show(id));
            && (s in before && s !in after ==> MayRemove(t[i], es[i], s, Show(id)))
            && (s !in before && s in after ==> MayAdd(t[i], es[i], s, Show(id)))
  {
    GoodAlways(t, es, i, id);
    StepMembers(t[i], es[i], id, s);
  }

  /** A row goes only by its moderator's delete, and only while no socket is in the room. */
  lemma RowsGoOnlyEmpty(t: seq<World>, es: seq<Event>, i: nat, id: int)
    requires FairRun(t, es, id) && i < |es| && id in t[i].rows && id !in t[i + 1].rows
    ensures es[i] == Deleting(t[i].rows[id].moderator, id)
    ensures Members(t[i].clients, Show(id)) == {}
  {
    GoodAlways(t, es, i, id);
    if es[i].Disconnecting? { GoodbyesMembers(t[i], es[i].sid, es[i].order); }
  }

  // ----- What each client has been told -----

  ghost function Heard(view: set<SocketId>, notice: Notice, room: string): set<SocketId> {
    if notice.room != room then view
    else if notice.ExistingUsers? then (set u | u in notice.users :: u.sid)
    else if notice.NewUser? then view + {notice.user.sid}
    else if notice.LeftRoom? then view - {notice.sid}
    else view
  }

  /** Who else is in the room, as a client reads it from what it was told. */
  ghost function View(inbox: seq<Notice>, room: string): set<SocketId> {
    if inbox == [] then {} else Heard(View(inbox[..|inbox| - 1], room), inbox[|inbox| - 1], room)
  }

  lemma ViewMore(inbox: seq<Notice>, notice: Notice, room: string)
    ensures View(inbox + [notice], room) == Heard(View(inbox, room), notice, room)
  {
    assert (inbox + [notice])[..|inbox|] == inbox;
  }

  ghost predicate ViewOk(clients: map<SocketId, Client>, s: SocketId, room: string)
    requires s in clients
  {
    View(clients[s].inbox, room) == Members(clients, room) - {s}
  }

  ghost predicate ViewsOk(clients: map<SocketId, Client>, room: string) {
    forall s | s in Members(clients, room) :: ViewOk(clients, s, room)
  }

  /** No client's view of `room` changed, nor who is in it. */
  ghost predicate SameViews(a: map<SocketId, Client>, b: map<SocketId, Client>, room: string) {
    a.Keys == b.Keys && Members(b, room) == Members(a, room) &&
    forall s | s in a :: View(b[s].inbox, room) == View(a[s].inbox, room)
  }

  lemma TellElsewhere(clients: map<SocketId, Client>, to: set<SocketId>, notice: Notice, room: string)
    requires notice.room != room || notice.JoinedRoom? || notice.KickUser?
    ensures SameViews(clients, Tell(clients, to, notice), room)
  {
    forall s | s in clients ensures View(Tell(clients, to, notice)[s].inbox, room) == View(clients[s].inbox, room) {
      ViewMore(clients[s].inbox, notice, room);
    }
  }

  lemma SameViewsTwice(a: map<SocketId, Client>, b: map<SocketId, Client>, c: map<SocketId, Client>, room: string)
    requires SameViews(a, b, room) && SameViews(b, c, room)
    ensures SameViews(a, c, room)
  {
  }

  lemma EnterElsewhere(clients: map<SocketId, Client>, sid: SocketId, room: string, other: string)
    requires sid in clients && other != room
    ensures SameViews(clients, Enter(clients, sid, room), other)
  {
    MembersEnter(clients, sid, room, other);
  }

  lemma TwiceElsewhere(clients: map<SocketId, Client>, sid: SocketId, one: Notice, two: Notice, other: string)
    requires one.room != other && two.room != other
    ensures SameViews(clients, Tell(Tell(clients, {sid}, one), {sid}, two), other)
  {
    var told := Tell(clients, {sid}, one);
    TellElsewhere(clients, {sid}, one, other);
    TellElsewhere(told, {sid}, two, other);
    SameViewsTwice(clients, told, Tell(told, {sid}, two), other);
  }

  lemma WelcomeElsewhere(clients: map<SocketId, Client>, sid: SocketId, room: string, uid: int, other: string)
    requires sid in clients && other != room
    ensures SameViews(clients, Welcome(clients, sid, room, uid), other)
  {
    var one, two := JoinedRoom(room), ExistingUsers(room, RoomUsers(clients, room));
    var entered := Enter(clients, sid, room);
    var welcomed := Tell(Tell(entered, {sid}, one), {sid}, two);
    EnterElsewhere(clients, sid, room, other);
    TwiceElsewhere(entered, sid, one, two, other);
    SameViewsTwice(clients, entered, welcomed, other);
    var others := Members(welcomed, room) - {sid};
    TellElsewhere(welcomed, others, NewUser(room, User(sid, uid)), other);
    SameViewsTwice(clients, welcomed, Tell(welcomed, others, NewUser(room, User(sid, uid))), other);
  }

  lemma ExistingSids(clients: map<SocketId, Client>, room: string)
    ensures (set u | u in RoomUsers(clients, room) :: u.sid) == Members(clients, room)
  {
    forall s | s in Members(clients, room) ensures s in (set u | u in RoomUsers(clients, room) :: u.sid) {
      assert User(s, clients[s].uid) in RoomUsers(clients, room);
    }
  }

  lemma JoinOwnView(w: World, sid: SocketId, room: string, uid: int, password: bool)
    requires sid in w.clients && Validate(w, sid, room, password).None?
    ensures View(Join(w, sid, room, uid, password).clients[sid].inbox, room) == Members(w.clients, room)
  {
    var inbox := w.clients[sid].inbox;
    var existing := RoomUsers(w.clients, room);
    assert Join(w, sid, room, uid, password).clients[sid].inbox ==
             (inbox + [JoinedRoom(room)]) + [ExistingUsers(room, existing)];
    ViewMore(inbox + [JoinedRoom(room)], ExistingUsers(room, existing), room);
    ExistingSids(w.clients, room);
  }

  lemma JoinOtherView(w: World, sid: SocketId, room: string, uid: int, password: bool, s: SocketId)
    requires sid in w.clients && Validate(w, sid, room, password).None? && s in Members(w.clients, room)
    ensures View(Join(w, sid, room, uid, password).clients[s].inbox, room) == View(w.clients[s].inbox, room) + {sid}
  {
    ViewMore(w.clients[s].inbox, NewUser(room, User(sid, uid)), room);
  }

  lemma LeaveView(w: World, sid: SocketId, room: string, s: SocketId, other: string)
    requires sid in w.clients && s in w.clients
    ensures var v := Leave(w, sid, room).clients;
            && s in v
            && (other != room ==> View(v[s].inbox, other) == View(w.clients[s].inbox, other))
            && (HasRow(w, room) && s != sid && s in Members(w.clients, room) ==>
                  View(v[s].inbox, room) == View(w.clients[s].inbox, room) - {sid})
  {
    ViewMore(w.clients[s].inbox, LeftRoom(room, sid), room);
    ViewMore(w.clients[s].inbox, LeftRoom(room, sid), other);
  }

  /**
   What a kick does to views: the notice names a user and no socket, so everyone left in the
   room still counts the socket that is gone.
   */
  lemma KickLeavesStaleViews(w: World, sid: SocketId, room: string, uid: Option<int>, target: SocketId, s: SocketId)
    requires sid in w.clients && ValidateKick(w, sid, room, uid, target).None? && ViewsOk(w.clients, room)
    requires s in Members(w.clients, room) && s != target
    ensures var v := Kick(w, sid, room, uid, target).clients;
            View(v[s].inbox, room) == (Members(v, room) - {s}) + {target}
  {
    var v := Kick(w, sid, room, uid, target).clients;
    assert ViewOk(w.clients, s, room);
    KickMembers(w, sid, room, uid, target);
    SameMembers(Exit(w.clients, target, room), v, room);
    MembersExit(w.clients, target, room, room);
    TellElsewhere(w.clients, Members(w.clients, room), KickUser(room, uid.value), room);
  }

  lemma GoodbyeView(w: World, sid: SocketId, last: string, s: SocketId, room: string)
    requires s in Members(w.clients, room) && s != sid && (room == last ==> HasRow(w, last))
    ensures s in Goodbye(w, sid, last).clients
    ensures View(Goodbye(w, sid, last).clients[s].inbox, room) ==
              View(w.clients[s].inbox, room) - if room == last then {sid} else {}
  {
    ViewMore(w.clients[s].inbox, LeftRoom(last, sid), room);
  }

  lemma GoodbyesViewStep(w: World, sid: SocketId, front: seq<string>, last: string, s: SocketId, room: string)
    requires s in Members(w.clients, room) && s != sid && HasRow(w, room)
    ensures var before := Goodbyes(w, sid, front);
            var after := Goodbye(before, sid, last);
            && s in before.clients && s in after.clients
            && View(after.clients[s].inbox, room) ==
                 View(before.clients[s].inbox, room) - if room == last then {sid} else {}
  {
    GoodbyesKeepMembers(w, sid, front, last);
    GoodbyesKeepMembers(w, sid, front, room);
    GoodbyeView(Goodbyes(w, sid, front), sid, last, s, room);
  }

  lemma {:induction false} GoodbyesView(w: World, sid: SocketId, order: seq<string>, s: SocketId, room: string)
    requires s in Members(w.clients, room) && s != sid && HasRow(w, room)
    ensures s in Goodbyes(w, sid, order).clients
    ensures View(Goodbyes(w, sid, order).clients[s].inbox, room) ==
              View(w.clients[s].inbox, room) - if room in order then {sid} else {}
  {
    if order != [] {
      var front := order[..|order| - 1];
      var last := order[|order| - 1];
      GoodbyesView(w, sid, front, s, room);
      assert order == front + [last];
      assert room in order <==> room in front || room == last;
      GoodbyesViewStep(w, sid, front, last, s, room);
    }
  }

  // ----- One step, seen by a member that stays -----

  /** Who enters `room` by a step, who is announced to have left it, and who is kicked from it. */
  ghost function Arrivals(w: World, e: Event, room: string): set<SocketId>
    requires Possible(w, e)
  {
    if e.Joining? && e.room == room && Validate(w, e.sid, room, e.password).None? then {e.sid} else {}
  }

  ghost function Departures(w: World, e: Event, room: string): set<SocketId>
    requires Possible(w, e)
  {
    if e.Leaving? && e.room == room then {e.sid}
    else if e.Disconnecting? && room in e.order then {e.sid}
    else {}
  }

  ghost function Kicked(w: World, e: Event, room: string): set<SocketId>
    requires Possible(w, e)
  {
    if e.Kicking? && e.room == room && ValidateKick(w, e.sid, room, e.target, e.targetSid).None?
    then {e.targetSid} else {}
  }

  lemma DisconnectOrder(w: World, sid: SocketId, order: seq<string>, id: int)
    requires Good(w, id) && Possible(w, Disconnecting(sid, order)) && id in w.rows
    ensures Show(id) in order <==> sid in Members(w.clients, Show(id))
  {
    NotPersonal(w, sid, id);
  }

  lemma DisconnectMembersAre(w: World, sid: SocketId, order: seq<string>, id: int)
    requires Good(w, id) && Possible(w, Disconnecting(sid, order)) && id in w.rows
    ensures Members(Disconnect(w, sid, order).clients, Show(id)) ==
              Members(w.clients, Show(id)) - if Show(id) in order then {sid} else {}
  {
    DisconnectMembers(w, sid, order, Show(id));
    DisconnectOrder(w, sid, order, id);
  }

  lemma JoinStep(w: World, e: Event, room: string)
    requires e.Joining? && Possible(w, e)
    ensures Members(Next(w, e).clients, room) == Members(w.clients, room) + Arrivals(w, e, room)
  {
    if Validate(w, e.sid, e.room, e.password).None? { JoinAdds(w, e.sid, e.room, e.uid, e.password, room); }
  }

  lemma LeaveStep(w: World, e: Event, room: string)
    requires e.Leaving? && Possible(w, e)
    ensures Members(Next(w, e).clients, room) == Members(w.clients, room) - Departures(w, e, room)
  {
    LeaveRemoves(w, e.sid, e.room, room);
  }

  lemma KickStep(w: World, e: Event, room: string)
    requires e.Kicking? && Possible(w, e)
    ensures Members(Next(w, e).clients, room) == Members(w.clients, room) - Kicked(w, e, room)
  {
    if ValidateKick(w, e.sid, e.room, e.target, e.targetSid).None? {
      KickRemoves(w, e.sid, e.room, e.target, e.targetSid, room);
    }
  }

  lemma ConnectStep(w: World, e: Event, id: int)
    requires e.Connecting? && Possible(w, e) && KeepsApart(w, e, id) && id in w.rows
    ensures Members(Next(w, e).clients, Show(id)) == Members(w.clients, Show(id))
  {
    ConnectMembers(w, e.sid, e.uid, e.node, id);
  }

  lemma RowsStep(w: World, e: Event, room: string)
    requires (e.Creating? || e.Deleting?) && Possible(w, e)
    ensures Members(Next(w, e).clients, room) == Members(w.clients, room)
  {
  }

  lemma StepMembersAre(w: World, e: Event, id: int)
    requires Good(w, id) && Possible(w, e) && Fair(w, e, id) && id in w.rows
    ensures Members(Next(w, e).clients, Show(id)) ==
              Members(w.clients, Show(id)) + Arrivals(w, e, Show(id)) - Departures(w, e, Show(id)) - Kicked(w, e, Show(id))
  {
    if e.Connecting? { ConnectStep(w, e, id); }
    else if e.Joining? { JoinStep(w, e, Show(id)); }
    else if e.Leaving? { LeaveStep(w, e, Show(id)); }
    else if e.Kicking? { KickStep(w, e, Show(id)); }
    else if e.Disconnecting? { DisconnectMembersAre(w, e.sid, e.order, id); }
    else { RowsStep(w, e, Show(id)); }
  }

  /** `s` has been told of exactly the arrivals and the announced departures. */
  ghost predicate ToldOf(w: World, e: Event, room: string, s: SocketId)
    requires Possible(w, e) && s in w.clients && s in Next(w, e).clients
  {
    View(Next(w, e).clients[s].inbox, room) ==
      View(w.clients[s].inbox, room) + Arrivals(w, e, room) - Departures(w, e, room)
  }

  /** What a join adds to the view of a member of any room. */
  lemma JoinView(w: World, sid: SocketId, room: string, uid: int, password: bool, other: string, s: SocketId)
    requires sid in w.clients && Validate(w, sid, room, password).None? && s in Members(w.clients, other)
    ensures s in Join(w, sid, room, uid, password).clients
    ensures View(Join(w, sid, room, uid, password).clients[s].inbox, other) ==
              View(w.clients[s].inbox, other) + if other == room then {sid} else {}
  {
    if other == room { JoinOtherView(w, sid, room, uid, password, s); }
    else { WelcomeElsewhere(w.clients, sid, room, uid, other); }
  }

  lemma JoinTells(w: World, e: Event, room: string, s: SocketId)
    requires e.Joining? && Possible(w, e) && s in Members(w.clients, room)
    ensures s in Next(w, e).clients && ToldOf(w, e, room, s)
  {
    if Validate(w, e.sid, e.room, e.password).None? { JoinView(w, e.sid, e.room, e.uid, e.password, room, s); }
  }

  lemma LeaveTells(w: World, e: Event, id: int, s: SocketId)
    requires e.Leaving? && Possible(w, e) && id in w.rows && s in Members(w.clients, Show(id))
    requires !(e.sid == s && e.room == Show(id))
    ensures s in Next(w, e).clients && ToldOf(w, e, Show(id), s)
  {
    ShowRoundTrip(id);
    LeaveView(w, e.sid, e.room, s, Show(id));
  }

  lemma KickTells(w: World, e: Event, room: string, s: SocketId)
    requires e.Kicking? && Possible(w, e) && s in Members(w.clients, room)
    ensures s in Next(w, e).clients && ToldOf(w, e, room, s)
  {
    if ValidateKick(w, e.sid, e.room, e.target, e.targetSid).None? {
      ViewMore(w.clients[s].inbox, KickUser(e.room, e.target.value), room);
    }
  }

  lemma DisconnectTells(w: World, e: Event, room: string, s: SocketId)
    requires e.Disconnecting? && Possible(w, e) && s in Members(w.clients, room) && s != e.sid && HasRow(w, room)
    ensures s in Next(w, e).clients && ToldOf(w, e, room, s)
  {
    GoodbyesView(w, e.sid, e.order, s, room);
  }

  lemma StayingIsTold(w: World, e: Event, id: int, s: SocketId)
    requires Good(w, id) && Possible(w, e) && Fair(w, e, id) && id in w.rows
    requires s in Members(w.clients, Show(id)) && s in Members(Next(w, e).clients, Show(id))
    ensures ToldOf(w, e, Show(id), s)
  {
    StepMembersAre(w, e, id);
    if e.Joining? { JoinTells(w, e, Show(id), s); }
    else if e.Leaving? { LeaveTells(w, e, id, s); }
    else if e.Kicking? { KickTells(w, e, Show(id), s); }
    else if e.Disconnecting? { ShowRoundTrip(id); DisconnectTells(w, e, Show(id), s); }
  }

  /** Whoever enters is told who was there. */
  lemma EnteringIsTold(w: World, e: Event, id: int, s: SocketId)
    requires Good(w, id) && Possible(w, e) && Fair(w, e, id) && id in w.rows
    requires s !in Members(w.clients, Show(id)) && s in Members(Next(w, e).clients, Show(id))
    ensures ViewOk(Next(w, e).clients, s, Show(id))
  {
    StepMembers(w, e, id, s);
    StepMembersAre(w, e, id);
    JoinOwnView(w, s, Show(id), e.uid, e.password);
  }

  // ----- Views over whole runs -----

  /**
   The sockets `s` still counts in `room` although they were kicked: kicked since `s` entered,
   and neither back since nor announced as leaving.
   */
  ghost function Stale(t: seq<World>, es: seq<Event>, i: nat, room: string, s: SocketId): set<SocketId>
    requires Run(t, es) && i < |t|
  {
    if i == 0 || s !in Members(t[i - 1].clients, room) then {}
    else
      var w, e := t[i - 1], es[i - 1];
      Stale(t, es, i - 1, room, s) + Kicked(w, e, room) - Arrivals(w, e, room) - Departures(w, e, room)
  }

  lemma RowWasThere(w: World, e: Event, id: int, s: SocketId)
    requires Good(w, id) && Possible(w, e) && Fair(w, e, id)
    requires id in Next(w, e).rows && s in Members(Next(w, e).clients, Show(id))
    ensures id in w.rows
  {
    if e.Disconnecting? { GoodbyesMembers(w, e.sid, e.order); }
    if e.Creating? && w.nextId == id && id !in w.rows { NobodyInNewRoom(w, id); }
  }

  lemma {:induction false} StaleAreGone(t: seq<World>, es: seq<Event>, i: nat, id: int, s: SocketId)
    requires FairRun(t, es, id) && i < |t| && id in t[i].rows && s in Members(t[i].clients, Show(id))
    ensures Stale(t, es, i, Show(id), s) !! Members(t[i].clients, Show(id))
  {
    if i > 0 {
      GoodAlways(t, es, i - 1, id);
      RowWasThere(t[i - 1], es[i - 1], id, s);
      if s in Members(t[i - 1].clients, Show(id)) {
        StaleAreGone(t, es, i - 1, id, s);
        StepMembersAre(t[i - 1], es[i - 1], id);
      }
    }
  }

  lemma StayingSet(members: set<SocketId>, stale: set<SocketId>, a: set<SocketId>, d: set<SocketId>, k: set<SocketId>,
                   s: SocketId)
    requires s in members && s !in d + k && s !in a && k <= members && (k == {} || a + d == {})
    ensures (members - {s}) + stale + a - d == (members + a - d - k - {s}) + (stale + k - a - d)
  {
  }

  lemma MembersDoNotArrive(w: World, e: Event, room: string, s: SocketId)
    requires Possible(w, e) && s in Members(w.clients, room)
    ensures s !in Arrivals(w, e, room)
  {
  }

  lemma KickedAreMembers(w: World, e: Event, room: string)
    requires Possible(w, e)
    ensures Kicked(w, e, room) <= Members(w.clients, room)
    ensures Kicked(w, e, room) == {} || Arrivals(w, e, room) + Departures(w, e, room) == {}
  {
  }

  lemma StepSets(w: World, e: Event, id: int, s: SocketId)
    requires Good(w, id) && Possible(w, e) && Fair(w, e, id) && id in w.rows
    requires s in Members(w.clients, Show(id)) && s in Members(Next(w, e).clients, Show(id))
    ensures s !in Departures(w, e, Show(id)) + Kicked(w, e, Show(id)) && s !in Arrivals(w, e, Show(id))
    ensures Kicked(w, e, Show(id)) <= Members(w.clients, Show(id))
    ensures Kicked(w, e, Show(id)) == {} || Arrivals(w, e, Show(id)) + Departures(w, e, Show(id)) == {}
  {
    StepMembersAre(w, e, id);
    MembersDoNotArrive(w, e, Show(id), s);
    KickedAreMembers(w, e, Show(id));
  }

  lemma StepView(w: World, e: Event, id: int, s: SocketId, stale: set<SocketId>)
    requires Good(w, id) && Possible(w, e) && Fair(w, e, id) && id in w.rows
    requires s in Members(w.clients, Show(id)) && s in Members(Next(w, e).clients, Show(id))
    requires View(w.clients[s].inbox, Show(id)) == (Members(w.clients, Show(id)) - {s}) + stale
    ensures var room := Show(id);
            View(Next(w, e).clients[s].inbox, room) ==
              (Members(Next(w, e).clients, room) - {s}) +
              (stale + Kicked(w, e, room) - Arrivals(w, e, room) - Departures(w, e, room))
  {
    var room := Show(id);
    StepMembersAre(w, e, id);
    StayingIsTold(w, e, id, s);
    StepSets(w, e, id, s);
    StayingSet(Members(w.clients, room), stale, Arrivals(w, e, room), Departures(w, e, room), Kicked(w, e, room), s);
  }

  lemma StayingView(t: seq<World>, es: seq<Event>, j: nat, i: nat, id: int, s: SocketId)
    requires FairRun(t, es, id) && i < |t| && i == j + 1 && Good(t[j], id) && id in t[j].rows
    requires s in Members(t[j].clients, Show(id)) && s in Members(t[i].clients, Show(id))
    requires View(t[j].clients[s].inbox, Show(id)) ==
               (Members(t[j].clients, Show(id)) - {s}) + Stale(t, es, j, Show(id), s)
    ensures View(t[i].clients[s].inbox, Show(id)) ==
              (Members(t[i].clients, Show(id)) - {s}) + Stale(t, es, i, Show(id), s)
  {
    StepView(t[j], es[j], id, s, Stale(t, es, j, Show(id), s));
  }

  /**
   Exactly what a member's view is, over every run, kicks included: the other members, and
   the sockets kicked since it entered that neither came back nor were announced as leaving.
   */
  lemma {:induction false} ViewIsMembersAndStale(t: seq<World>, es: seq<Event>, i: nat, id: int, s: SocketId)
    requires FairRun(t, es, id) && i < |t| && id in t[i].rows && s in Members(t[i].clients, Show(id))
    ensures View(t[i].clients[s].inbox, Show(id)) ==
              (Members(t[i].clients, Show(id)) - {s}) + Stale(t, es, i, Show(id), s)
    ensures Stale(t, es, i, Show(id), s) !! Members(t[i].clients, Show(id))
  {
    StaleAreGone(t, es, i, id, s);
    if i > 0 {
      GoodAlways(t, es, i - 1, id);
      RowWasThere(t[i - 1], es[i - 1], id, s);
      if s in Members(t[i - 1].clients, Show(id)) {
        ViewIsMembersAndStale(t, es, i - 1, id, s);
        StayingView(t, es, i - 1, i, id, s);
      } else {
        EnteringIsTold(t[i - 1], es[i - 1], id, s);
      }
    }
  }

  lemma {:induction false} NoKicksNoStale(t: seq<World>, es: seq<Event>, i: nat, room: string, s: SocketId)
    requires Run(t, es) && i < |t|
    requires forall j | 0 <= j < i :: es[j].Kicking? ==> es[j].room != room
    ensures Stale(t, es, i, room, s) == {}
  {
    if i > 0 { NoKicksNoStale(t, es, i - 1, room, s); }
  }

  /**
   Every member of a room, over any run of joins, leaves and disconnects (and of kicks in
   other rooms), reads from what it was told exactly the current members but itself.
   */
  lemma EveryViewIsRight(t: seq<World>, es: seq<Event>, i: nat, id: int, s: SocketId)
    requires FairRun(t, es, id) && i < |t| && id in t[i].rows && s in Members(t[i].clients, Show(id))
    requires forall j | 0 <= j < i :: es[j].Kicking? ==> es[j].room != Show(id)
    ensures View(t[i].clients[s].inbox, Show(id)) == Members(t[i].clients, Show(id)) - {s}
  {
    ViewIsMembersAndStale(t, es, i, id, s);
    NoKicksNoStale(t, es, i, Show(id), s);
  }

  // ----- Why the hypotheses are needed -----

  /** Room 7 exists, and one client is connected. */
  ghost function Room7(sid: SocketId): World {
    World(map[sid := Client(1, 0, {sid, Show(1)}, [])], map[7 := Row(1, 4, 0, true)], {1, 7}, 8)
  }

  lemma Read07()
    ensures ParseInt("07") == Some(7) && Show(7) == "7"
  {
    assert "07"[..1] == "0" && "0"[..0] == "";
    assert DigitsValue("0") == 0 && DigitsValue("07") == 7;
    ParseIntOfDigits("07");
    assert ShowNat(7) == "7";
  }

  lemma Room7Lets07In(sid: SocketId)
    requires sid != "07"
    ensures Validate(Room7(sid), sid, "07", true).None?
  {
    Read07();
    assert Show(1) == "1" by { assert ShowNat(1) == "1"; }
    assert LocalMembers(Room7(sid).clients, 0, "07") == {};
  }

  lemma Room7Empty(sid: SocketId)
    requires sid != "7" && sid != "07"
    ensures Members(Room7(sid).clients, "7") == {} && Members(Room7(sid).clients, "07") == {}
  {
    assert Show(1) == "1" by { assert ShowNat(1) == "1"; }
  }

  /** A join by the name "07" counts a member in row 7 that the room named by the row does not have. */
  lemma LeadingZeroMiscounts(sid: SocketId)
    requires sid != "7" && sid != "07"
    ensures Agrees(Room7(sid)) && !AgreesOn(Join(Room7(sid), sid, "07", 1, true), 7)
  {
    Read07();
    Room7Empty(sid);
    Room7Lets07In(sid);
    JoinAgreesIff(Room7(sid), sid, "07", 1, true);
  }

  /** User 7 connects while there is a room 7: its personal room makes the counter wrong. */
  lemma PersonalRoomMiscounts(sid: SocketId, other: SocketId)
    requires sid != "7" && other != sid && !IsNumeral(other)
    ensures Agrees(Room7(sid)) && Possible(Room7(sid), Connecting(other, 7, 0))
    ensures !Agrees(Next(Room7(sid), Connecting(other, 7, 0)))
  {
    Read07();
    assert Show(1) == "1" by { assert ShowNat(1) == "1"; }
    assert Members(Room7(sid).clients, "7") == {};
    ConnectAgreesIff(Room7(sid), other, 7, 0);
  }
}
