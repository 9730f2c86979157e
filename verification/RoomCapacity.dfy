/**
 A join split at its awaits: check, fetch who is there, enter, store the counter.

 Other handlers stay one step each. Between the check and the entering of one client others
 may check too, and every one of them saw the room before the others entered.
 */
module RoomCapacity {
  import opened Option
  import opened RoomNames
  import opened Rooms
  import opened Sets
  import opened RoomRuns

  datatype Stage = Checked | Fetched(existing: set<User>, count: nat) | Entered(count: nat)

  /** A join under way. */
  datatype Attempt = Attempt(sid: SocketId, room: string, uid: int, stage: Stage)

  datatype Split = Split(world: World, attempts: map<nat, Attempt>)

  datatype Step =
    | Check(ticket: nat, sid: SocketId, room: string, uid: int, password: bool)
    | Fetch(ticket: nat)
    | EnterRoom(ticket: nat)
    | StoreCount(ticket: nat)
    | Abandon(ticket: nat)
    | Whole(event: Event)

  /** The joins of a room between their check and their entering. */
  function Pending(s: Split, room: string): set<nat> {
    set k | k in s.attempts && s.attempts[k].room == room && !s.attempts[k].stage.Entered?
  }

  ghost predicate CanStep(s: Split, e: Step) {
    match e
    case Check(k, sid, room, _, password) =>
      k !in s.attempts && sid in s.world.clients && Validate(s.world, sid, room, password).None?
    case Fetch(k) => k in s.attempts && s.attempts[k].stage.Checked?
    case EnterRoom(k) =>
      k in s.attempts && s.attempts[k].stage.Fetched? && s.attempts[k].sid in s.world.clients
    case StoreCount(k) => k in s.attempts && s.attempts[k].stage.Entered?
    case Abandon(k) => k in s.attempts
    case Whole(event) => !event.Joining? && Possible(s.world, event)
  }

  ghost function Do(s: Split, e: Step): Split
    requires CanStep(s, e)
  {
    match e
    case Check(k, sid, room, uid, _) => s.(attempts := s.attempts[k := Attempt(sid, room, uid, Checked)])
    case Fetch(k) =>
      var room := s.attempts[k].room;
      var stage := Fetched(RoomUsers(s.world.clients, room), |Members(s.world.clients, room)|);
      s.(attempts := s.attempts[k := s.attempts[k].(stage := stage)])
    case EnterRoom(k) =>
      var a := s.attempts[k];
      Split(s.world.(clients := Greet(s.world.clients, a.sid, a.room, a.uid, a.stage.existing)),
            s.attempts[k := a.(stage := Entered(a.stage.count))])
    case StoreCount(k) =>
      var a := s.attempts[k];
      var rows := if HasRow(s.world, a.room) then Store(s.world.rows, ParseInt(a.room).value, a.stage.count, 1)
                  else s.world.rows;
      Split(s.world.(rows := rows), s.attempts - {k})
    case Abandon(k) => s.(attempts := s.attempts - {k})
    case Whole(event) => s.(world := Next(s.world, event))
  }

  /** The hypotheses: whole handlers keep the room apart, and there is a single node. */
  ghost predicate FairStep(s: Split, e: Step, id: int) {
    e.Whole? ==> KeepsApart(s.world, e.event, id) && (e.event.Connecting? ==> e.event.node == 0)
  }

  ghost predicate OneNode(w: World) {
    forall s | s in w.clients :: w.clients[s].node == 0
  }

  /** A run may start with the room apart and within capacity, and no join under way. */
  ghost predicate Start(s: Split, id: int) {
    && s.attempts == map[] && OneNode(s.world) && Apart(s.world, id)
    && (id >= s.world.nextId ==> OnlyPersonal(s.world, id))
    && (id in s.world.rows ==>
          var members := Members(s.world.clients, Show(id));
          members == {} || |members| <= s.world.rows[id].total)
  }

  /** Step `i` leads from state `i` to the next. */
  ghost predicate Passes(t: seq<Split>, es: seq<Step>, i: nat) {
    i < |es| && i + 1 < |t| && CanStep(t[i], es[i]) && t[i + 1] == Do(t[i], es[i])
  }

  /** `t` passes through the steps `es`, one after the other. */
  ghost predicate Steps(t: seq<Split>, es: seq<Step>) {
    |t| == |es| + 1 && forall i: nat | i < |es| :: Passes(t, es, i)
  }

  ghost predicate FairAt(t: seq<Split>, es: seq<Step>, i: nat, id: int) {
    i < |es| && i < |t| && FairStep(t[i], es[i], id)
  }

  ghost predicate SplitRun(t: seq<Split>, es: seq<Step>, id: int) {
    Steps(t, es) && Start(t[0], id) && forall i: nat | i < |es| :: FairAt(t, es, i, id)
  }

  // ----- Entering -----

  lemma GreetMembers(clients: map<SocketId, Client>, sid: SocketId, room: string, uid: int, existing: set<User>, r: string)
    requires sid in clients
    ensures Members(Greet(clients, sid, room, uid, existing), r) == Members(clients, r) + if r == room then {sid} else {}
  {
    MembersEnter(clients, sid, room, r);
    SameMembers(Enter(clients, sid, room), Greet(clients, sid, room, uid, existing), r);
  }

  // ----- The invariant -----

  function Load(s: Split, room: string): nat {
    |Members(s.world.clients, room)| + |Pending(s, room)|
  }

  ghost predicate Bounded(s: Split, id: int, k: nat) {
    id in s.world.rows ==>
      Load(s, Show(id)) == 0 || Load(s, Show(id)) <= s.world.rows[id].total - 1 + k
  }

  /** While the id is not issued, nobody joins the room, and its only members are personal. */
  ghost predicate Unissued(s: Split, id: int) {
    OnlyPersonal(s.world, id) && forall k | k in s.attempts :: s.attempts[k].room != Show(id)
  }

  ghost predicate Inv(s: Split, id: int) {
    OneNode(s.world) && Apart(s.world, id) && (id >= s.world.nextId ==> Unissued(s, id))
  }

  lemma CheckInv(s: Split, e: Step, id: int)
    requires Inv(s, id) && e.Check? && CanStep(s, e)
    ensures Inv(Do(s, e), id)
  {
    ShowRoundTrip(id);
  }

  lemma EnterInv(s: Split, k: nat, id: int)
    requires Inv(s, id) && CanStep(s, EnterRoom(k))
    ensures Inv(Do(s, EnterRoom(k)), id)
  {
    var a := s.attempts[k];
    GreetMembers(s.world.clients, a.sid, a.room, a.uid, a.stage.existing, Show(id));
  }

  lemma AttemptInv(s: Split, e: Step, id: int)
    requires Inv(s, id) && (e.Fetch? || e.StoreCount? || e.Abandon?) && CanStep(s, e)
    ensures Inv(Do(s, e), id)
  {
  }

  /** Nobody comes, nobody gains a room, no row appears. */
  ghost predicate Shrinks(w: World, v: World) {
    && v.users == w.users && v.nextId == w.nextId
    && (forall x | x in v.clients ::
          x in w.clients && v.clients[x].uid == w.clients[x].uid && v.clients[x].node == w.clients[x].node &&
          v.clients[x].rooms <= w.clients[x].rooms)
    && forall id | id in v.rows :: id in w.rows && v.rows[id].total == w.rows[id].total
  }

  lemma LeaveShrinks(w: World, sid: SocketId, room: string)
    requires sid in w.clients
    ensures Shrinks(w, Leave(w, sid, room))
  {
  }

  lemma KickShrinks(w: World, sid: SocketId, room: string, uid: Option<int>, target: SocketId)
    requires sid in w.clients
    ensures Shrinks(w, Kick(w, sid, room, uid, target))
  {
  }

  lemma DisconnectShrinks(w: World, sid: SocketId, order: seq<string>)
    ensures Shrinks(w, Disconnect(w, sid, order))
  {
    GoodbyesMembers(w, sid, order);
  }

  lemma DeleteShrinks(w: World, uid: int, id: int)
    ensures Shrinks(w, Delete(w, uid, id))
  {
  }

  lemma WholeShrinks(w: World, e: Event)
    requires Possible(w, e) && (e.Leaving? || e.Kicking? || e.Disconnecting? || e.Deleting?)
    ensures Shrinks(w, Next(w, e))
  {
    match e {
      case Leaving(sid, room) => LeaveShrinks(w, sid, room);
      case Kicking(sid, room, uid, target) => KickShrinks(w, sid, room, uid, target);
      case Disconnecting(sid, order) => DisconnectShrinks(w, sid, order);
      case Deleting(uid, id) => DeleteShrinks(w, uid, id);
    }
  }

  lemma ShrinkingMembers(w: World, v: World, room: string)
    requires Shrinks(w, v)
    ensures Members(v.clients, room) <= Members(w.clients, room)
  {
  }

  lemma ShrinkingInv(s: Split, v: World, id: int)
    requires Inv(s, id) && Shrinks(s.world, v)
    ensures Inv(s.(world := v), id)
  {
    ShrinkingMembers(s.world, v, Show(id));
  }

  lemma ConnectInv(s: Split, sid: SocketId, uid: int, node: nat, id: int)
    requires Inv(s, id) && sid !in s.world.clients && KeepsApart(s.world, Connecting(sid, uid, node), id) && node == 0
    ensures Inv(s.(world := Connect(s.world, sid, uid, node)), id)
  {
    ConnectMembers(s.world, sid, uid, node, id);
  }

  lemma WholeInv(s: Split, e: Event, id: int)
    requires Inv(s, id) && Possible(s.world, e) && FairStep(s, Whole(e), id) && !e.Joining?
    ensures Inv(s.(world := Next(s.world, e)), id)
  {
    if e.Connecting? {
      ConnectInv(s, e.sid, e.uid, e.node, id);
    } else if !e.Creating? {
      WholeShrinks(s.world, e);
      ShrinkingInv(s, Next(s.world, e), id);
    }
  }

  lemma InvKept(s: Split, e: Step, id: int)
    requires Inv(s, id) && CanStep(s, e) && FairStep(s, e, id)
    ensures Inv(Do(s, e), id)
  {
    if e.Check? { CheckInv(s, e, id); }
    else if e.EnterRoom? { EnterInv(s, e.ticket, id); }
    else if e.Whole? { WholeInv(s, e.event, id); }
    else { AttemptInv(s, e, id); }
  }

  // ----- The bound -----

  lemma LocalIsAll(w: World, sid: SocketId, room: string)
    requires OneNode(w) && sid in w.clients
    ensures LocalMembers(w.clients, w.clients[sid].node, room) == Members(w.clients, room)
  {
  }

  /** A check that passes found fewer members than the total. */
  lemma CheckBound(s: Split, e: Step, id: int, k: nat)
    requires Inv(s, id) && e.Check? && CanStep(s, e) && id in s.world.rows && e.room == Show(id)
    requires |Pending(Do(s, e), Show(id))| <= k
    ensures Load(Do(s, e), Show(id)) <= s.world.rows[id].total - 1 + k
  {
    LocalIsAll(s.world, e.sid, e.room);
    ShowRoundTrip(id);
  }

  lemma CheckElsewhere(s: Split, e: Step, room: string)
    requires e.Check? && CanStep(s, e) && e.room != room
    ensures Load(Do(s, e), room) == Load(s, room)
  {
    assert Pending(Do(s, e), room) == Pending(s, room);
  }

  lemma EnterPending(s: Split, k: nat, room: string)
    requires CanStep(s, EnterRoom(k))
    ensures |Pending(Do(s, EnterRoom(k)), room)| == |Pending(s, room)| - if room == s.attempts[k].room then 1 else 0
  {
    var v := Do(s, EnterRoom(k));
    if room == s.attempts[k].room {
      assert k in Pending(s, room);
      assert Pending(v, room) == Pending(s, room) - {k};
    } else {
      assert Pending(v, room) == Pending(s, room);
    }
  }

  lemma EnterMembers(clients: map<SocketId, Client>, sid: SocketId, room: string, uid: int, existing: set<User>, r: string)
    requires sid in clients
    ensures |Members(Greet(clients, sid, room, uid, existing), r)| <=
              |Members(clients, r)| + if r == room then 1 else 0
  {
    GreetMembers(clients, sid, room, uid, existing, r);
    if r == room && sid !in Members(clients, r) { AddMember(Members(clients, r), sid); }
    if sid in Members(clients, r) { assert Members(clients, r) + {sid} == Members(clients, r); }
  }

  /** Entering turns a pending join into a member. */
  lemma EnterLoad(s: Split, k: nat, room: string)
    requires CanStep(s, EnterRoom(k))
    ensures Load(Do(s, EnterRoom(k)), room) <= Load(s, room)
  {
    var a := s.attempts[k];
    EnterMembers(s.world.clients, a.sid, a.room, a.uid, a.stage.existing, room);
    EnterPending(s, k, room);
  }

  lemma AttemptLoad(s: Split, e: Step, room: string)
    requires (e.Fetch? || e.StoreCount? || e.Abandon?) && CanStep(s, e)
    ensures Load(Do(s, e), room) <= Load(s, room)
  {
    SubsetSize(Pending(Do(s, e), room), Pending(s, room));
  }

  lemma WholeLoad(s: Split, e: Event, id: int)
    requires Possible(s.world, e) && FairStep(s, Whole(e), id) && !e.Joining? && id in s.world.rows
    ensures Load(s.(world := Next(s.world, e)), Show(id)) <= Load(s, Show(id))
  {
    var v := s.(world := Next(s.world, e));
    assert Pending(v, Show(id)) == Pending(s, Show(id));
    if e.Connecting? {
      ConnectMembers(s.world, e.sid, e.uid, e.node, id);
    } else if !e.Creating? {
      WholeShrinks(s.world, e);
      ShrinkingMembers(s.world, v.world, Show(id));
      SubsetSize(Members(v.world.clients, Show(id)), Members(s.world.clients, Show(id)));
    }
  }

  /** Only a check can raise the load of a room. */
  lemma StepLoad(s: Split, e: Step, id: int)
    requires CanStep(s, e) && FairStep(s, e, id) && id in s.world.rows
    requires !(e.Check? && e.room == Show(id))
    ensures Load(Do(s, e), Show(id)) <= Load(s, Show(id))
  {
    if e.Check? { CheckElsewhere(s, e, Show(id)); }
    else if e.EnterRoom? { EnterLoad(s, e.ticket, Show(id)); }
    else if e.Whole? { WholeLoad(s, e.event, id); }
    else { AttemptLoad(s, e, Show(id)); }
  }

  lemma TotalStays(s: Split, e: Step, id: int)
    requires CanStep(s, e) && id in s.world.rows && id in Do(s, e).world.rows && id < s.world.nextId
    ensures Do(s, e).world.rows[id].total == s.world.rows[id].total
  {
    if e.Whole? && !e.event.Connecting? && !e.event.Creating? { WholeShrinks(s.world, e.event); }
  }

  lemma NewRowIsEmpty(s: Split, e: Step, id: int)
    requires Inv(s, id) && CanStep(s, e) && FairStep(s, e, id) && id !in s.world.rows && id in Do(s, e).world.rows
    ensures Load(Do(s, e), Show(id)) == 0
  {
    if e.Whole? && !e.event.Creating? && !e.event.Connecting? {
      WholeShrinks(s.world, e.event);
    } else {
      assert e.Whole? && id == s.world.nextId;
      NobodyInNewRoom(s.world, id);
      assert Pending(Do(s, e), Show(id)) == {};
    }
  }

  lemma BoundKept(s: Split, e: Step, id: int, k: nat)
    requires Inv(s, id) && CanStep(s, e) && FairStep(s, e, id) && Bounded(s, id, k)
    requires |Pending(Do(s, e), Show(id))| <= k
    ensures Bounded(Do(s, e), id, k)
  {
    if id in Do(s, e).world.rows {
      if id !in s.world.rows {
        NewRowIsEmpty(s, e, id);
      } else {
        TotalStays(s, e, id);
        if e.Check? && e.room == Show(id) { CheckBound(s, e, id, k); } else { StepLoad(s, e, id); }
      }
    }
  }

  lemma BoundAtStart(s: Split, id: int, k: nat)
    requires Start(s, id) && k >= 1
    ensures Inv(s, id) && Bounded(s, id, k)
  {
    assert Pending(s, Show(id)) == {};
  }

  /** Up to state `i` there were never more than `k` joins of the room between check and entering. */
  ghost predicate PendingUpTo(t: seq<Split>, i: nat, id: int, k: nat) {
    i < |t| && forall j | 0 <= j <= i :: |Pending(t[j], Show(id))| <= k
  }

  lemma BoundStep(t: seq<Split>, es: seq<Step>, i: nat, id: int, k: nat)
    requires SplitRun(t, es, id) && i < |es| && Inv(t[i], id) && Bounded(t[i], id, k)
    requires PendingUpTo(t, i + 1, id, k)
    ensures Inv(t[i + 1], id) && Bounded(t[i + 1], id, k)
  {
    assert Passes(t, es, i) && FairAt(t, es, i, id);
    InvKept(t[i], es[i], id);
    BoundKept(t[i], es[i], id, k);
  }

  lemma {:induction false} BoundAlways(t: seq<Split>, es: seq<Step>, i: nat, id: int, k: nat)
    requires SplitRun(t, es, id) && i < |t| && k >= 1 && PendingUpTo(t, i, id, k)
    ensures Inv(t[i], id) && Bounded(t[i], id, k)
  {
    if i == 0 {
      BoundAtStart(t[0], id, k);
    } else {
      BoundAlways(t, es, i - 1, id, k);
      BoundStep(t, es, i - 1, id, k);
    }
  }

  // ----- The theorems -----

  /**
   On one node, with never more than `k` joins of a room between check and entering, members
   and pending joins together never exceed total - 1 + k; with at most one, the room never
   exceeds its total.
   */
  lemma CapacityUnderInterleaving(t: seq<Split>, es: seq<Step>, i: nat, id: int, k: nat)
    requires SplitRun(t, es, id) && i < |t| && k >= 1 && id in t[i].world.rows && PendingUpTo(t, i, id, k)
    ensures var members := |Members(t[i].world.clients, Show(id))|;
            var pending := |Pending(t[i], Show(id))|;
            var total := t[i].world.rows[id].total;
            && (members + pending == 0 || members + pending <= total - 1 + k)
            && (k == 1 ==> members == 0 || members <= total)
  {
    BoundAlways(t, es, i, id, k);
  }

  /**
   Across nodes the check sees only its own node's members. A join that is otherwise fine
   overfills the room if and only if the room is full but not on the client's node.
   */
  lemma JoinOverfillsIff(w: World, sid: SocketId, room: string, uid: int, password: bool)
    requires sid in w.clients && room !in w.clients[sid].rooms && HasRow(w, room)
    requires w.rows[ParseInt(room).value].isPublic || password
    ensures var total := w.rows[ParseInt(room).value].total;
            var v := Join(w, sid, room, uid, password);
            sid in Members(v.clients, room) && |Members(v.clients, room)| > total <==>
              |LocalMembers(w.clients, w.clients[sid].node, room)| < total <= |Members(w.clients, room)|
  {
    if Validate(w, sid, room, password).None? {
      GreetMembers(w.clients, sid, room, uid, RoomUsers(w.clients, room), room);
      AddMember(Members(w.clients, room), sid);
    }
  }

  // ----- Two nodes -----

  /** User 1 makes room 7, for one; its socket `a` is on node 0, and `b`, of user 2, on node 1. */
  ghost function TwoNodes(a: SocketId, b: SocketId): World {
    Connect(Connect(Create(World(map[], map[], {1, 2}, 7), 1, 1, true), a, 1, 0), b, 2, 1)
  }

  lemma TwoNodesRooms(a: SocketId, b: SocketId)
    requires a != b && !IsNumeral(a) && !IsNumeral(b)
    ensures TwoNodes(a, b) == World(map[a := Client(1, 0, {a, Show(1)}, []), b := Client(2, 1, {b, Show(2)}, [])],
                                    map[7 := Row(1, 1, 0, true)], {1, 2}, 8)
    ensures Members(TwoNodes(a, b).clients, Show(7)) == {} && CanonicalRoom(Show(7))
    ensures ParseInt(Show(7)) == Some(7)
  {
    ShowRoundTrip(7);
    if Show(7) == Show(1) { ShowInjective(7, 1); }
    if Show(7) == Show(2) { ShowInjective(7, 2); }
  }

  lemma FirstIn(a: SocketId, b: SocketId)
    requires a != b && !IsNumeral(a) && !IsNumeral(b)
    ensures var w := TwoNodes(a, b);
            var v := Join(w, a, Show(7), 1, true);
            && Validate(w, a, Show(7), true).None? && Members(v.clients, Show(7)) == {a}
            && v.clients.Keys == {a, b} && v.clients[a].node == 0 && v.clients[b].node == 1
            && 7 in v.rows && v.rows[7].total == 1 && v.rows[7].isPublic
  {
    var w := TwoNodes(a, b);
    TwoNodesRooms(a, b);
    assert LocalMembers(w.clients, 0, Show(7)) <= Members(w.clients, Show(7));
    GreetMembers(w.clients, a, Show(7), 1, RoomUsers(w.clients, Show(7)), Show(7));
  }

  /** From a world with `a` inside on node 0 and `b` outside on node 1, `b` gets in. */
  lemma SecondEnters(v: World, a: SocketId, b: SocketId)
    requires a != b && v.clients.Keys == {a, b} && v.clients[a].node == 0 && v.clients[b].node == 1
    requires Members(v.clients, Show(7)) == {a} && ParseInt(Show(7)) == Some(7)
    requires 7 in v.rows && v.rows[7].total == 1 && v.rows[7].isPublic
    ensures Validate(v, b, Show(7), true).None?
    ensures Members(Join(v, b, Show(7), 2, true).clients, Show(7)) == {a, b}
    ensures 7 in Join(v, b, Show(7), 2, true).rows && Join(v, b, Show(7), 2, true).rows[7].total == 1
  {
    assert b !in Members(v.clients, Show(7));
    assert LocalMembers(v.clients, 1, Show(7)) == {} by {
      forall s | s in v.clients && v.clients[s].node == 1 ensures Show(7) !in v.clients[s].rooms { assert s == b; }
    }
    GreetMembers(v.clients, b, Show(7), 2, RoomUsers(v.clients, Show(7)), Show(7));
  }

  lemma SecondIn(a: SocketId, b: SocketId)
    requires a != b && !IsNumeral(a) && !IsNumeral(b)
    ensures var v := Join(TwoNodes(a, b), a, Show(7), 1, true);
            && b in v.clients && Validate(v, b, Show(7), true).None?
            && Members(Join(v, b, Show(7), 2, true).clients, Show(7)) == {a, b}
            && 7 in Join(v, b, Show(7), 2, true).rows && Join(v, b, Show(7), 2, true).rows[7].total == 1
  {
    TwoNodesRooms(a, b);
    FirstIn(a, b);
    SecondEnters(Join(TwoNodes(a, b), a, Show(7), 1, true), a, b);
  }

  ghost predicate Goes(w: World, e: Event, v: World) {
    Possible(w, e) && Fair(w, e, 7) && v == Next(w, e)
  }

  lemma GoesOn(t: seq<World>, es: seq<Event>, e: Event, v: World) returns (ws: seq<World>, fs: seq<Event>)
    requires FairRun(t, es, 7) && Goes(t[|es|], e, v)
    ensures FairRun(ws, fs, 7) && fs == es + [e] && ws[|fs|] == v
  {
    ws, fs := t + [v], es + [e];
    forall i | 0 <= i < |fs| ensures Possible(ws[i], fs[i]) && ws[i + 1] == Next(ws[i], fs[i]) && Fair(ws[i], fs[i], 7) {
      if i < |es| { assert ws[i] == t[i] && ws[i + 1] == t[i + 1] && fs[i] == es[i]; }
    }
  }

  lemma JoinGoes(w: World, sid: SocketId, room: string, uid: int)
    requires sid in w.clients && NamesOnly(room, 7)
    ensures Goes(w, Joining(sid, room, uid, true), Join(w, sid, room, uid, true))
  {
  }

  lemma MadeAndConnected(a: SocketId, b: SocketId)
    requires a != b && !IsNumeral(a) && !IsNumeral(b)
    ensures var none := World(map[], map[], {1, 2}, 7);
            var made := Create(none, 1, 1, true);
            && Init(none) && Goes(none, Creating(1, 1, true), made)
            && Goes(made, Connecting(a, 1, 0), Connect(made, a, 1, 0))
            && Goes(Connect(made, a, 1, 0), Connecting(b, 2, 1), TwoNodes(a, b))
  {
  }

  lemma ThreeSteps(w0: World, e0: Event, w1: World, e1: Event, w2: World, e2: Event, w3: World)
    returns (t: seq<World>, es: seq<Event>)
    requires Init(w0) && Goes(w0, e0, w1) && Goes(w1, e1, w2) && Goes(w2, e2, w3)
    ensures FairRun(t, es, 7) && |es| == 3 && t[3] == w3
  {
    t, es := GoesOn([w0], [], e0, w1);
    t, es := GoesOn(t, es, e1, w2);
    t, es := GoesOn(t, es, e2, w3);
  }

  /** The two joins, from the state they start in. */
  lemma TwoJoinsGo(w: World, a: SocketId, b: SocketId) returns (first: World, second: World)
    requires a in w.clients && b in w.clients
    ensures first == Join(w, a, Show(7), 1, true) && b in first.clients
    ensures second == Join(first, b, Show(7), 2, true)
    ensures Goes(w, Joining(a, Show(7), 1, true), first) && Goes(first, Joining(b, Show(7), 2, true), second)
  {
    first := Join(w, a, Show(7), 1, true);
    second := Join(first, b, Show(7), 2, true);
    JoinGoes(w, a, Show(7), 1);
    JoinGoes(first, b, Show(7), 2);
  }

  lemma TwoNodesSteps(a: SocketId, b: SocketId) returns (t: seq<World>, es: seq<Event>)
    requires a != b && !IsNumeral(a) && !IsNumeral(b)
    ensures |es| == 5 && FairRun(t, es, 7)
    ensures a in TwoNodes(a, b).clients && b in Join(TwoNodes(a, b), a, Show(7), 1, true).clients
    ensures t[5] == Join(Join(TwoNodes(a, b), a, Show(7), 1, true), b, Show(7), 2, true)
    ensures es[3] == Joining(a, Show(7), 1, true) && es[4] == Joining(b, Show(7), 2, true)
  {
    var none := World(map[], map[], {1, 2}, 7);
    var made := Create(none, 1, 1, true);
    TwoNodesRooms(a, b);
    MadeAndConnected(a, b);
    var two := TwoNodes(a, b);
    t, es := ThreeSteps(none, Creating(1, 1, true), made, Connecting(a, 1, 0), Connect(made, a, 1, 0),
                        Connecting(b, 2, 1), two);
    var first, second := TwoJoinsGo(two, a, b);
    t, es := GoesOn(t, es, Joining(a, Show(7), 1, true), first);
    t, es := GoesOn(t, es, Joining(b, Show(7), 2, true), second);
  }

  /**
   An input at which the check fails across nodes: in a run of whole handlers that is fair to
   it, a room for one ends with two members, one on each of two nodes, each let in by its own
   node's check.
   */
  lemma TwoNodesOverfill(a: SocketId, b: SocketId) returns (t: seq<World>, es: seq<Event>)
    requires a != b && !IsNumeral(a) && !IsNumeral(b)
    ensures FairRun(t, es, 7) && |es| == 5
    ensures es[3] == Joining(a, Show(7), 1, true) && es[4] == Joining(b, Show(7), 2, true)
    ensures 7 in t[5].rows && t[5].rows[7].total == 1 && Members(t[5].clients, Show(7)) == {a, b}
  {
    t, es := TwoNodesSteps(a, b);
    SecondIn(a, b);
  }

  // ----- Two joins that overlap -----

  lemma StepsJoined(first: seq<Split>, es: seq<Step>, second: seq<Split>, fs: seq<Step>)
    requires Steps(first, es) && Steps(second, fs) && first[|es|] == second[0]
    ensures Steps(first[..|es|] + second, es + fs)
  {
    var t, gs := first[..|es|] + second, es + fs;
    forall i: nat | i < |gs| ensures Passes(t, gs, i) {
      if i < |es| {
        assert Passes(first, es, i);
      } else {
        assert Passes(second, fs, i - |es|);
      }
    }
  }

  /** Two joins: each checks and fetches before either enters. */
  ghost function BothFetch(a: SocketId, b: SocketId, room: string, uid: int, password: bool): seq<Step> {
    [Check(0, a, room, uid, password), Check(1, b, room, uid, password), Fetch(0), Fetch(1)]
  }

  ghost function BothEnter(): seq<Step> { [EnterRoom(0), EnterRoom(1), StoreCount(0), StoreCount(1)] }

  /** Both have fetched, nobody entered. */
  ghost function BothFetched(w: World, a: SocketId, b: SocketId, room: string, uid: int): Split {
    var seen := Fetched(RoomUsers(w.clients, room), |Members(w.clients, room)|);
    Split(w, map[0 := Attempt(a, room, uid, seen), 1 := Attempt(b, room, uid, seen)])
  }

  lemma FourSteps(s0: Split, e0: Step, s1: Split, e1: Step, s2: Split, e2: Step, s3: Split, e3: Step, s4: Split)
    requires CanStep(s0, e0) && s1 == Do(s0, e0)
    requires CanStep(s1, e1) && s2 == Do(s1, e1)
    requires CanStep(s2, e2) && s3 == Do(s2, e2)
    requires CanStep(s3, e3) && s4 == Do(s3, e3)
    ensures Steps([s0, s1, s2, s3, s4], [e0, e1, e2, e3])
  {
    var t, es := [s0, s1, s2, s3, s4], [e0, e1, e2, e3];
    forall i: nat | i < |es| ensures Passes(t, es, i) {
      if i == 0 {} else if i == 1 {} else if i == 2 {} else { assert i == 3; }
    }
  }

  lemma CheckStep(w: World, attempts: map<nat, Attempt>, k: nat, sid: SocketId, room: string, uid: int, password: bool)
    requires k !in attempts && sid in w.clients && Validate(w, sid, room, password).None?
    ensures CanStep(Split(w, attempts), Check(k, sid, room, uid, password))
    ensures Do(Split(w, attempts), Check(k, sid, room, uid, password)) ==
              Split(w, attempts[k := Attempt(sid, room, uid, Checked)])
  {
  }

  lemma FetchStep(w: World, attempts: map<nat, Attempt>, k: nat)
    requires k in attempts && attempts[k].stage.Checked?
    ensures CanStep(Split(w, attempts), Fetch(k))
    ensures var room := attempts[k].room;
            var seen := Fetched(RoomUsers(w.clients, room), |Members(w.clients, room)|);
            Do(Split(w, attempts), Fetch(k)) == Split(w, attempts[k := attempts[k].(stage := seen)])
  {
  }

  lemma ChecksAndFetches(w: World, one: Attempt, two: Attempt, password: bool, seen: Stage) returns (t: seq<Split>)
    requires one.sid in w.clients && Validate(w, one.sid, one.room, password).None? && one.stage.Checked?
    requires two.sid in w.clients && Validate(w, two.sid, two.room, password).None? && two.stage.Checked?
    requires one.room == two.room && one.uid == two.uid
    requires seen == Fetched(RoomUsers(w.clients, one.room), |Members(w.clients, one.room)|)
    ensures Steps(t, BothFetch(one.sid, two.sid, one.room, one.uid, password)) && t[0] == Split(w, map[])
    ensures t[4] == Split(w, map[][0 := one][1 := two][0 := one.(stage := seen)][1 := two.(stage := seen)])
  {
    var s0 := Split(w, map[]);
    var s1 := Split(w, s0.attempts[0 := one]);
    var s2 := Split(w, s1.attempts[1 := two]);
    var s3 := Split(w, s2.attempts[0 := one.(stage := seen)]);
    var s4 := Split(w, s3.attempts[1 := two.(stage := seen)]);
    CheckStep(w, s0.attempts, 0, one.sid, one.room, one.uid, password);
    CheckStep(w, s1.attempts, 1, two.sid, two.room, two.uid, password);
    FetchStep(w, s2.attempts, 0);
    FetchStep(w, s3.attempts, 1);
    FourSteps(s0, Check(0, one.sid, one.room, one.uid, password), s1, Check(1, two.sid, two.room, two.uid, password),
              s2, Fetch(0), s3, Fetch(1), s4);
    t := [s0, s1, s2, s3, s4];
  }

  lemma FirstHalf(w: World, a: SocketId, b: SocketId, room: string, uid: int, password: bool) returns (t: seq<Split>)
    requires a in w.clients && b in w.clients
    requires Validate(w, a, room, password).None? && Validate(w, b, room, password).None?
    ensures Steps(t, BothFetch(a, b, room, uid, password))
    ensures t[0] == Split(w, map[]) && t[4] == BothFetched(w, a, b, room, uid)
  {
    var seen := Fetched(RoomUsers(w.clients, room), |Members(w.clients, room)|);
    var one := Attempt(a, room, uid, Checked);
    var two := Attempt(b, room, uid, Checked);
    var none: map<nat, Attempt> := map[];
    t := ChecksAndFetches(w, one, two, password, seen);
    assert none[0 := one][1 := two][0 := one.(stage := seen)][1 := two.(stage := seen)] ==
             map[0 := one.(stage := seen), 1 := two.(stage := seen)];
  }

  ghost function AfterBoth(w: World, a: SocketId, b: SocketId, room: string, uid: int): map<SocketId, Client>
    requires a in w.clients && b in w.clients
  {
    var existing := RoomUsers(w.clients, room);
    Greet(Greet(w.clients, a, room, uid, existing), b, room, uid, existing)
  }

  lemma SecondHalf(w: World, a: SocketId, b: SocketId, room: string, uid: int) returns (t: seq<Split>)
    requires a in w.clients && b in w.clients && HasRow(w, room)
    ensures Steps(t, BothEnter()) && t[0] == BothFetched(w, a, b, room, uid)
    ensures t[4].world.clients == AfterBoth(w, a, b, room, uid)
    ensures ParseInt(room).value in t[4].world.rows
    ensures t[4].world.rows[ParseInt(room).value].current == |Members(w.clients, room)| + 1
  {
    var es := BothEnter();
    var one := Do(BothFetched(w, a, b, room, uid), es[0]);
    var two := Do(one, es[1]);
    var three := Do(two, es[2]);
    FourSteps(BothFetched(w, a, b, room, uid), es[0], one, es[1], two, es[2], three, es[3], Do(three, es[3]));
    t := [BothFetched(w, a, b, room, uid), one, two, three, Do(three, es[3])];
  }

  lemma OverlapEnds(w: World, a: SocketId, b: SocketId, room: string, uid: int)
    requires a in w.clients && b in w.clients && a != b
    requires a !in Members(w.clients, room) && b !in Members(w.clients, room)
    ensures Members(AfterBoth(w, a, b, room, uid), room) == Members(w.clients, room) + {a, b}
    ensures |Members(w.clients, room) + {a, b}| == |Members(w.clients, room)| + 2
  {
    var existing := RoomUsers(w.clients, room);
    var members := Members(w.clients, room);
    GreetMembers(w.clients, a, room, uid, existing, room);
    GreetMembers(Greet(w.clients, a, room, uid, existing), b, room, uid, existing, room);
    AddMember(members, a);
    AddMember(members + {a}, b);
    assert members + {a, b} == members + {a} + {b};
  }

  lemma LateView(w: World, a: SocketId, b: SocketId, room: string, uid: int)
    requires a in w.clients && b in w.clients && a != b && room !in w.clients[b].rooms
    ensures b in AfterBoth(w, a, b, room, uid)
    ensures View(AfterBoth(w, a, b, room, uid)[b].inbox, room) == Members(w.clients, room)
  {
    var existing := RoomUsers(w.clients, room);
    var entered := Greet(w.clients, a, room, uid, existing);
    var inbox := w.clients[b].inbox;
    assert entered[b] == w.clients[b];
    assert AfterBoth(w, a, b, room, uid)[b].inbox == (inbox + [JoinedRoom(room)]) + [ExistingUsers(room, existing)];
    ViewMore(inbox + [JoinedRoom(room)], ExistingUsers(room, existing), room);
    ExistingSids(w.clients, room);
  }

  /**
   Why joins must not overlap. From any state, two clients whose checks pass may both fetch
   before either enters: then the room has two more members, the counter says one more, and
   the second has not been told of the first.
   */
  lemma OverlappingJoins(w: World, a: SocketId, b: SocketId, room: string, uid: int, password: bool)
    returns (t: seq<Split>)
    requires a in w.clients && b in w.clients && a != b
    requires Validate(w, a, room, password).None? && Validate(w, b, room, password).None?
    ensures Steps(t, BothFetch(a, b, room, uid, password) + BothEnter()) && t[0] == Split(w, map[])
    ensures var end := t[8].world;
            && Members(end.clients, room) == Members(w.clients, room) + {a, b}
            && |Members(w.clients, room) + {a, b}| == |Members(w.clients, room)| + 2
            && ParseInt(room).value in end.rows
            && end.rows[ParseInt(room).value].current == |Members(w.clients, room)| + 1
            && b in end.clients && View(end.clients[b].inbox, room) == Members(w.clients, room)
  {
    var first := FirstHalf(w, a, b, room, uid, password);
    var second := SecondHalf(w, a, b, room, uid);
    t := first[..4] + second;
    StepsJoined(first, BothFetch(a, b, room, uid, password), second, BothEnter());
    assert t[8] == second[4] && t[0] == first[0];
    OverlapEnds(w, a, b, room, uid);
    LateView(w, a, b, room, uid);
  }
}
