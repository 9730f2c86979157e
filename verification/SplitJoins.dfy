/**
 When a join split at its awaits is as good as a whole one.

 Undisturbed, its four steps are the whole handler. Otherwise the counter it stores is right
 exactly when the others' comings and goings since its fetch cancel out, the view its client
 starts with is right exactly when the room is as it was fetched, and the capacity bound is
 reached by as many joins as overlap.
 */
module SplitJoins {
  import opened Option
  import opened RoomNames
  import opened Rooms
  import opened Sets
  import opened RoomRuns
  import opened RoomCapacity

  // ----- Undisturbed -----

  lemma EnterStep(w: World, attempts: map<nat, Attempt>, k: nat)
    requires k in attempts && attempts[k].stage.Fetched? && attempts[k].sid in w.clients
    ensures var a := attempts[k];
            var entered := w.(clients := Greet(w.clients, a.sid, a.room, a.uid, a.stage.existing));
            && CanStep(Split(w, attempts), EnterRoom(k))
            && Do(Split(w, attempts), EnterRoom(k)) ==
                 Split(entered, attempts[k := a.(stage := Entered(a.stage.count))])
  {
  }

  lemma StoreStep(w: World, attempts: map<nat, Attempt>, k: nat)
    requires k in attempts && attempts[k].stage.Entered? && HasRow(w, attempts[k].room)
    ensures var a := attempts[k];
            && CanStep(Split(w, attempts), StoreCount(k))
            && Do(Split(w, attempts), StoreCount(k)) ==
                 Split(w.(rows := Store(w.rows, ParseInt(a.room).value, a.stage.count, 1)), attempts - {k})
  {
  }

  /** Check, fetch, enter and store in a row, whatever other joins are under way, are exactly the whole join. */
  lemma JoinInARow(w: World, attempts: map<nat, Attempt>, k: nat, sid: SocketId, room: string, uid: int, password: bool)
    returns (t: seq<Split>)
    requires k !in attempts && sid in w.clients && Validate(w, sid, room, password).None?
    ensures Steps(t, [Check(k, sid, room, uid, password), Fetch(k), EnterRoom(k), StoreCount(k)])
    ensures t[0] == Split(w, attempts) && t[4] == Split(Join(w, sid, room, uid, password), attempts)
  {
    var a := Attempt(sid, room, uid, Checked);
    var count := |Members(w.clients, room)|;
    var seen := Fetched(RoomUsers(w.clients, room), count);
    var s0 := Split(w, attempts);
    var s1 := Split(w, attempts[k := a]);
    var s2 := Split(w, s1.attempts[k := a.(stage := seen)]);
    var inside := w.(clients := Welcome(w.clients, sid, room, uid));
    var s3 := Split(inside, s2.attempts[k := a.(stage := Entered(count))]);
    var s4 := Split(inside.(rows := Store(w.rows, ParseInt(room).value, count, 1)), s3.attempts - {k});
    CheckStep(w, attempts, k, sid, room, uid, password);
    FetchStep(w, s1.attempts, k);
    EnterStep(w, s2.attempts, k);
    StoreStep(inside, s3.attempts, k);
    FourSteps(s0, Check(k, sid, room, uid, password), s1, Fetch(k), s2, EnterRoom(k), s3, StoreCount(k), s4);
    assert s3.attempts - {k} == attempts;
    t := [s0, s1, s2, s3, s4];
  }

  // ----- Where an attempt was fetched, and where it entered -----

  /** Attempt `k`, as it stands at `q`, was fetched at step `p`, with the room's members of that moment. */
  ghost predicate FetchedAt(t: seq<Split>, es: seq<Step>, p: nat, q: nat, k: nat) {
    && p < q < |t| && p < |es| && es[p] == Fetch(k) && k in t[q].attempts
    && var a := t[q].attempts[k];
       match a.stage
       case Checked => false
       case Fetched(existing, count) =>
         existing == RoomUsers(t[p].world.clients, a.room) && count == |Members(t[p].world.clients, a.room)|
       case Entered(count) => count == |Members(t[p].world.clients, a.room)|
  }

  ghost predicate NotEntered(es: seq<Step>, p: nat, q: nat, k: nat) {
    forall j | p <= j < q && j < |es| :: es[j] != EnterRoom(k)
  }

  lemma AttemptStays(s: Split, e: Step, k: nat)
    requires CanStep(s, e) && k in Do(s, e).attempts
    requires e != Fetch(k) && e != EnterRoom(k) && !Do(s, e).attempts[k].stage.Checked?
    ensures k in s.attempts && s.attempts[k] == Do(s, e).attempts[k]
  {
  }

  lemma {:induction false} FetchOf(t: seq<Split>, es: seq<Step>, q: nat, k: nat) returns (p: nat)
    requires Steps(t, es) && t[0].attempts == map[] && q < |t|
    requires k in t[q].attempts && t[q].attempts[k].stage.Fetched?
    ensures FetchedAt(t, es, p, q, k) && NotEntered(es, p, q, k)
    decreases q
  {
    if q > 0 {
      assert Passes(t, es, q - 1);
      if es[q - 1] == Fetch(k) {
        p := q - 1;
      } else {
        AttemptStays(t[q - 1], es[q - 1], k);
        p := FetchOf(t, es, q - 1, k);
      }
    }
  }

  /** The step at which attempt `k` entered, the only one since its fetch. */
  lemma {:induction false} EnterOf(t: seq<Split>, es: seq<Step>, q: nat, k: nat) returns (p: nat, e: nat)
    requires Steps(t, es) && t[0].attempts == map[] && q < |t|
    requires k in t[q].attempts && t[q].attempts[k].stage.Entered?
    ensures FetchedAt(t, es, p, q, k) && p < e < q && es[e] == EnterRoom(k)
    ensures NotEntered(es, p, e, k) && NotEntered(es, e + 1, q, k)
    ensures k in t[e].attempts && t[e].attempts[k].stage.Fetched? && FetchedAt(t, es, p, e, k)
    ensures t[e].attempts[k].sid == t[q].attempts[k].sid && t[e].attempts[k].room == t[q].attempts[k].room
    ensures t[e].attempts[k].uid == t[q].attempts[k].uid
    decreases q
  {
    if q > 0 {
      assert Passes(t, es, q - 1);
      if es[q - 1] == EnterRoom(k) {
        e := q - 1;
        p := FetchOf(t, es, e, k);
      } else {
        AttemptStays(t[q - 1], es[q - 1], k);
        p, e := EnterOf(t, es, q - 1, k);
      }
    }
  }

  // ----- The stored counter -----

  function Size(s: Split, room: string): nat { |Members(s.world.clients, room)| }

  /** How much the steps from `lo` up to `hi`, but for step `own`, changed the number of members. */
  ghost function OthersNet(t: seq<Split>, lo: nat, hi: nat, own: nat, room: string): int
    requires lo <= hi < |t|
    decreases hi
  {
    if lo == hi then 0
    else
      OthersNet(t, lo, hi - 1, own, room) +
      if hi - 1 == own then 0 else Size(t[hi], room) - Size(t[hi - 1], room)
  }

  lemma {:induction false} NetAddsUp(t: seq<Split>, lo: nat, hi: nat, own: nat, room: string)
    requires lo <= hi < |t| && own < |t| - 1
    ensures Size(t[hi], room) == Size(t[lo], room) + OthersNet(t, lo, hi, own, room) +
                                 if lo <= own < hi then Size(t[own + 1], room) - Size(t[own], room) else 0
    decreases hi
  {
    if lo < hi { NetAddsUp(t, lo, hi - 1, own, room); }
  }

  /** Entering adds a member, unless the socket is one already. */
  lemma EnterSize(s: Split, k: nat)
    requires CanStep(s, EnterRoom(k))
    ensures var a := s.attempts[k];
            Size(Do(s, EnterRoom(k)), a.room) ==
              Size(s, a.room) + if a.sid in Members(s.world.clients, a.room) then 0 else 1
  {
    var a := s.attempts[k];
    GreetMembers(s.world.clients, a.sid, a.room, a.uid, a.stage.existing, a.room);
    if a.sid in Members(s.world.clients, a.room) {
      assert Members(s.world.clients, a.room) + {a.sid} == Members(s.world.clients, a.room);
    } else {
      AddMember(Members(s.world.clients, a.room), a.sid);
    }
  }

  lemma StoredAgrees(s: Split, k: nat, id: int)
    requires CanStep(s, StoreCount(k)) && ParseInt(s.attempts[k].room) == Some(id) && id in s.world.rows
    ensures AgreesOn(Do(s, StoreCount(k)).world, id) <==> s.attempts[k].stage.count + 1 == Size(s, Show(id))
  {
  }

  lemma SizeAtEnter(t: seq<Split>, es: seq<Step>, e: nat, k: nat)
    requires Steps(t, es) && e < |es| && es[e] == EnterRoom(k)
    ensures k in t[e].attempts && t[e].attempts[k].stage.Fetched?
    ensures var a := t[e].attempts[k];
            Size(t[e + 1], a.room) == Size(t[e], a.room) + if a.sid in Members(t[e].world.clients, a.room) then 0 else 1
  {
    assert Passes(t, es, e);
    EnterSize(t[e], k);
  }

  /**
   The exact condition, for any steps of split joins and whole handlers, on any nodes and from
   any world without joins under way. A join that stores its count leaves the counter right if
   and only if, from its fetch to its store, the other steps changed the number of members by
   nothing (or by one, if its socket had got in otherwise). A room by another name than the
   row's has to be one member short of the row's own room besides.
   */
  lemma StoreAgreesIff(t: seq<Split>, es: seq<Step>, q: nat, k: nat, id: int) returns (p: nat, e: nat)
    requires Steps(t, es) && t[0].attempts == map[] && q < |es| && es[q] == StoreCount(k) && k in t[q].attempts
    requires ParseInt(t[q].attempts[k].room) == Some(id) && id in t[q].world.rows
    ensures p < e < q && es[p] == Fetch(k) && es[e] == EnterRoom(k) && NotEntered(es, e + 1, q, k)
    ensures var room := t[q].attempts[k].room;
            var own := if t[q].attempts[k].sid in Members(t[e].world.clients, room) then 0 else 1;
            AgreesOn(t[q + 1].world, id) <==>
              OthersNet(t, p, q, e, room) + own == 1 + Size(t[q], room) - Size(t[q], Show(id))
  {
    assert Passes(t, es, q);
    p, e := EnterOf(t, es, q, k);
    StoredAgrees(t[q], k, id);
    SizeAtEnter(t, es, e, k);
    NetAddsUp(t, p, q, e, t[q].attempts[k].room);
  }

  /** Step `j` leaves the members of the room as they are. */
  ghost predicate Quiet(t: seq<Split>, j: nat, room: string) {
    j + 1 < |t| && Members(t[j + 1].world.clients, room) == Members(t[j].world.clients, room)
  }

  lemma {:induction false} QuietNet(t: seq<Split>, lo: nat, hi: nat, own: nat, room: string)
    requires lo <= hi < |t| && forall j: nat | lo <= j < hi && j != own :: Quiet(t, j, room)
    ensures OthersNet(t, lo, hi, own, room) == 0
    decreases hi
  {
    if lo < hi {
      QuietNet(t, lo, hi - 1, own, room);
      if hi - 1 != own { assert Quiet(t, hi - 1, room); }
    }
  }

  lemma {:induction false} QuietMembers(t: seq<Split>, lo: nat, hi: nat, room: string)
    requires lo <= hi < |t| && forall j: nat | lo <= j < hi :: Quiet(t, j, room)
    ensures Members(t[hi].world.clients, room) == Members(t[lo].world.clients, room)
    decreases hi
  {
    if lo < hi {
      QuietMembers(t, lo, hi - 1, room);
      assert Quiet(t, hi - 1, room);
    }
  }

  /**
   In particular a join of a socket outside the room leaves the counter right when no other
   step touches the room's members between its fetch and its store.
   */
  lemma QuietJoinAgrees(t: seq<Split>, es: seq<Step>, q: nat, k: nat, id: int, p: nat, e: nat)
    requires Steps(t, es) && q < |es| && es[q] == StoreCount(k) && k in t[q].attempts
    requires t[q].attempts[k].room == Show(id) && id in t[q].world.rows
    requires p < e < q && es[p] == Fetch(k) && es[e] == EnterRoom(k) && FetchedAt(t, es, p, q, k)
    requires k in t[e].attempts && t[e].attempts[k].sid == t[q].attempts[k].sid && t[e].attempts[k].room == Show(id)
    requires t[q].attempts[k].sid !in Members(t[p].world.clients, Show(id))
    requires forall j: nat | p <= j < q && j != e :: Quiet(t, j, Show(id))
    ensures AgreesOn(t[q + 1].world, id)
  {
    assert Passes(t, es, q);
    ShowRoundTrip(id);
    StoredAgrees(t[q], k, id);
    SizeAtEnter(t, es, e, k);
    NetAddsUp(t, p, q, e, Show(id));
    QuietNet(t, p, q, e, Show(id));
    QuietMembers(t, p, e, Show(id));
  }

  // ----- The first view -----

  lemma GreetOwnView(clients: map<SocketId, Client>, sid: SocketId, room: string, uid: int, existing: set<User>)
    requires sid in clients
    ensures sid in Greet(clients, sid, room, uid, existing)
    ensures View(Greet(clients, sid, room, uid, existing)[sid].inbox, room) == set u | u in existing :: u.sid
  {
    var inbox := clients[sid].inbox;
    assert Greet(clients, sid, room, uid, existing)[sid].inbox ==
             (inbox + [JoinedRoom(room)]) + [ExistingUsers(room, existing)];
    ViewMore(inbox + [JoinedRoom(room)], ExistingUsers(room, existing), room);
  }

  lemma EnterView(s: Split, k: nat)
    requires CanStep(s, EnterRoom(k))
    ensures var a := s.attempts[k];
            var after := Do(s, EnterRoom(k)).world.clients;
            && a.sid in after
            && View(after[a.sid].inbox, a.room) == (set u | u in a.stage.existing :: u.sid)
            && Members(after, a.room) == Members(s.world.clients, a.room) + {a.sid}
  {
    var a := s.attempts[k];
    GreetOwnView(s.world.clients, a.sid, a.room, a.uid, a.stage.existing);
    GreetMembers(s.world.clients, a.sid, a.room, a.uid, a.stage.existing, a.room);
  }

  /**
   For any steps from any world without joins under way, the client that enters at step `e` has
   the right view if and only if the members of the room, itself aside, are those of its fetch
   at step `p`.
   */
  lemma EnterViewIff(t: seq<Split>, es: seq<Step>, e: nat, k: nat) returns (p: nat)
    requires Steps(t, es) && t[0].attempts == map[] && e < |es| && es[e] == EnterRoom(k) && k in t[e].attempts
    ensures FetchedAt(t, es, p, e, k) && t[e].attempts[k].sid in t[e + 1].world.clients
    ensures var a := t[e].attempts[k];
            ViewOk(t[e + 1].world.clients, a.sid, a.room) <==>
              Members(t[e].world.clients, a.room) - {a.sid} == Members(t[p].world.clients, a.room)
  {
    assert Passes(t, es, e);
    p := FetchOf(t, es, e, k);
    EnterView(t[e], k);
    ExistingSids(t[p].world.clients, t[e].attempts[k].room);
  }

  // ----- The capacity bound is reached -----

  ghost predicate Distinct(sids: seq<SocketId>) {
    forall i, j | 0 <= i < j < |sids| :: sids[i] != sids[j]
  }

  ghost function SetOf(sids: seq<SocketId>): set<SocketId> { set s | s in sids }

  /** All of `sids` may join, seen from `w`. */
  ghost predicate AllPass(w: World, sids: seq<SocketId>, room: string) {
    forall i | 0 <= i < |sids| :: sids[i] in w.clients && Validate(w, sids[i], room, true).None?
  }

  /** One ticket for each of the first `n`, all checked. */
  ghost function Tickets(sids: seq<SocketId>, room: string, n: nat): map<nat, Attempt>
    requires n <= |sids|
  {
    map i: nat | i < n :: Attempt(sids[i], room, 0, Checked)
  }

  lemma StepsOne(s: Split)
    ensures Steps([s], [])
  {
  }

  lemma StepsGrow(t: seq<Split>, es: seq<Step>, e: Step, d: Split)
    requires Steps(t, es) && CanStep(t[|es|], e) && d == Do(t[|es|], e)
    ensures Steps(t + [d], es + [e])
  {
    forall i: nat | i < |es + [e]| ensures Passes(t + [d], es + [e], i) {
      if i < |es| { assert Passes(t, es, i); }
    }
  }

  /** Never more than `k` attempts at once, and only steps of joins into `room`. */
  ghost predicate OnlyJoins(t: seq<Split>, es: seq<Step>, room: string, k: nat) {
    && (forall j | 0 <= j < |t| :: |t[j].attempts| <= k)
    && forall j | 0 <= j < |es| :: !es[j].Whole? && (es[j].Check? ==> es[j].room == room)
  }

  lemma OnlyJoinsGrow(t: seq<Split>, es: seq<Step>, room: string, k: nat, e: Step, d: Split, more: nat)
    requires OnlyJoins(t, es, room, k) && k <= more && |d.attempts| <= more
    requires !e.Whole? && (e.Check? ==> e.room == room)
    ensures OnlyJoins(t + [d], es + [e], room, more)
  {
  }

  lemma TicketsMore(sids: seq<SocketId>, room: string, n: nat)
    requires n < |sids|
    ensures Tickets(sids, room, n + 1) == Tickets(sids, room, n)[n := Attempt(sids[n], room, 0, Checked)]
    ensures n !in Tickets(sids, room, n)
  {
  }

  lemma {:induction false} TicketCount(sids: seq<SocketId>, room: string, n: nat)
    requires n <= |sids|
    ensures |Tickets(sids, room, n)| == n
  {
    if n == 0 {
      assert Tickets(sids, room, 0) == map[];
    } else {
      TicketCount(sids, room, n - 1);
      TicketsMore(sids, room, n - 1);
    }
  }

  lemma OneChecks(w: World, sids: seq<SocketId>, room: string, n: nat)
    requires n < |sids| && AllPass(w, sids, room)
    ensures var s, e := Split(w, Tickets(sids, room, n)), Check(n, sids[n], room, 0, true);
            CanStep(s, e) && Do(s, e) == Split(w, Tickets(sids, room, n + 1))
  {
    TicketsMore(sids, room, n);
    CheckStep(w, Tickets(sids, room, n), n, sids[n], room, 0, true);
  }

  lemma OneMoreChecked(w: World, sids: seq<SocketId>, room: string, n: nat, t: seq<Split>, es: seq<Step>)
    returns (more: seq<Split>, steps: seq<Step>)
    requires n < |sids| && AllPass(w, sids, room)
    requires Steps(t, es) && OnlyJoins(t, es, room, n) && t[|es|] == Split(w, Tickets(sids, room, n))
    ensures Steps(more, steps) && OnlyJoins(more, steps, room, n + 1) && more[0] == t[0]
    ensures more[|steps|] == Split(w, Tickets(sids, room, n + 1))
  {
    var e := Check(n, sids[n], room, 0, true);
    var d := Split(w, Tickets(sids, room, n + 1));
    TicketCount(sids, room, n + 1);
    OneChecks(w, sids, room, n);
    StepsGrow(t, es, e, d);
    OnlyJoinsGrow(t, es, room, n, e, d, n + 1);
    more, steps := t + [d], es + [e];
  }

  lemma {:induction false} AllCheck(w: World, sids: seq<SocketId>, room: string, n: nat)
    returns (t: seq<Split>, es: seq<Step>)
    requires n <= |sids| && AllPass(w, sids, room)
    ensures Steps(t, es) && t[0] == Split(w, map[]) && t[|es|] == Split(w, Tickets(sids, room, n))
    ensures OnlyJoins(t, es, room, n)
  {
    if n == 0 {
      t, es := [Split(w, map[])], [];
      StepsOne(t[0]);
      assert Tickets(sids, room, 0) == map[];
    } else {
      t, es := AllCheck(w, sids, room, n - 1);
      t, es := OneMoreChecked(w, sids, room, n - 1, t, es);
    }
  }

  /** The first `n` tickets have entered, the others are still checked. */
  ghost predicate Inside(w: World, s: Split, sids: seq<SocketId>, room: string, n: nat)
    requires n <= |sids|
  {
    && s.world.rows == w.rows && s.world.clients.Keys == w.clients.Keys
    && Members(s.world.clients, room) == Members(w.clients, room) + SetOf(sids[..n])
    && s.attempts.Keys == Tickets(sids, room, |sids|).Keys
    && forall i: nat | n <= i < |sids| :: s.attempts[i] == Attempt(sids[i], room, 0, Checked)
  }

  /** After ticket `k` has fetched, and after it has entered. */
  ghost function AfterFetch(s: Split, k: nat): Split
    requires k in s.attempts
  {
    var room := s.attempts[k].room;
    var seen := Fetched(RoomUsers(s.world.clients, room), |Members(s.world.clients, room)|);
    Split(s.world, s.attempts[k := s.attempts[k].(stage := seen)])
  }

  ghost function AfterEnter(s: Split, k: nat): Split
    requires k in s.attempts && s.attempts[k].sid in s.world.clients
  {
    var a := s.attempts[k];
    var existing := RoomUsers(s.world.clients, a.room);
    Split(s.world.(clients := Greet(s.world.clients, a.sid, a.room, a.uid, existing)),
          s.attempts[k := a.(stage := Entered(|Members(s.world.clients, a.room)|))])
  }

  lemma AfterEnterKeys(s: Split, k: nat)
    requires k in s.attempts && s.attempts[k].sid in s.world.clients
    ensures AfterEnter(s, k).world.clients.Keys == s.world.clients.Keys
    ensures AfterEnter(s, k).attempts.Keys == s.attempts.Keys && AfterEnter(s, k).world.rows == s.world.rows
  {
  }

  lemma FetchAndEnter(s: Split, k: nat)
    requires k in s.attempts && s.attempts[k].stage.Checked? && s.attempts[k].sid in s.world.clients
    ensures CanStep(s, Fetch(k)) && Do(s, Fetch(k)) == AfterFetch(s, k)
    ensures CanStep(AfterFetch(s, k), EnterRoom(k)) && Do(AfterFetch(s, k), EnterRoom(k)) == AfterEnter(s, k)
  {
    FetchStep(s.world, s.attempts, k);
    EnterStep(s.world, AfterFetch(s, k).attempts, k);
  }

  lemma OneMoreMember(s: Split, members: set<SocketId>, sids: seq<SocketId>, room: string, n: nat)
    requires n < |sids| && n in s.attempts && s.attempts[n] == Attempt(sids[n], room, 0, Checked)
    requires sids[n] in s.world.clients && Members(s.world.clients, room) == members + SetOf(sids[..n])
    ensures Members(AfterEnter(s, n).world.clients, room) == members + SetOf(sids[..n + 1])
  {
    GreetMembers(s.world.clients, sids[n], room, 0, RoomUsers(s.world.clients, room), room);
    assert sids[..n + 1] == sids[..n] + [sids[n]];
    assert SetOf(sids[..n + 1]) == SetOf(sids[..n]) + {sids[n]};
  }

  lemma OneEnters(w: World, s: Split, sids: seq<SocketId>, room: string, n: nat)
    requires n < |sids| && Inside(w, s, sids, room, n) && sids[n] in w.clients
    ensures n in s.attempts && s.attempts[n] == Attempt(sids[n], room, 0, Checked)
    ensures Inside(w, AfterEnter(s, n), sids, room, n + 1)
  {
    assert n in Tickets(sids, room, |sids|);
    OneMoreMember(s, Members(w.clients, room), sids, room, n);
    AfterEnterKeys(s, n);
  }

  lemma SameCount(s: Split, attempts: map<nat, Attempt>)
    requires s.attempts.Keys == attempts.Keys
    ensures |s.attempts| == |attempts|
  {
    assert |s.attempts.Keys| == |attempts.Keys|;
  }

  lemma AttemptsBounded(s: Split, one: Split, two: Split, sids: seq<SocketId>, room: string, n: nat)
    requires s.attempts.Keys == Tickets(sids, room, |sids|).Keys && n in s.attempts
    requires one.attempts.Keys == s.attempts.Keys && two.attempts.Keys == s.attempts.Keys
    ensures |one.attempts| == |sids| && |two.attempts| == |sids|
  {
    TicketCount(sids, room, |sids|);
    SameCount(one, Tickets(sids, room, |sids|));
    SameCount(two, Tickets(sids, room, |sids|));
  }

  lemma TwoMore(t: seq<Split>, es: seq<Step>, room: string, k: nat, n: nat, one: Split, two: Split)
    requires Steps(t, es) && OnlyJoins(t, es, room, k) && |one.attempts| <= k && |two.attempts| <= k
    requires CanStep(t[|es|], Fetch(n)) && one == Do(t[|es|], Fetch(n))
    requires CanStep(one, EnterRoom(n)) && two == Do(one, EnterRoom(n))
    ensures Steps(t + [one] + [two], es + [Fetch(n)] + [EnterRoom(n)])
    ensures OnlyJoins(t + [one] + [two], es + [Fetch(n)] + [EnterRoom(n)], room, k)
  {
    StepsGrow(t, es, Fetch(n), one);
    StepsGrow(t + [one], es + [Fetch(n)], EnterRoom(n), two);
    OnlyJoinsGrow(t, es, room, k, Fetch(n), one, k);
    OnlyJoinsGrow(t + [one], es + [Fetch(n)], room, k, EnterRoom(n), two, k);
  }

  lemma OneMoreInside(w: World, sids: seq<SocketId>, room: string, n: nat, t: seq<Split>, es: seq<Step>)
    returns (more: seq<Split>, steps: seq<Step>)
    requires n < |sids| && AllPass(w, sids, room)
    requires Steps(t, es) && OnlyJoins(t, es, room, |sids|) && Inside(w, t[|es|], sids, room, n)
    ensures Steps(more, steps) && OnlyJoins(more, steps, room, |sids|) && more[0] == t[0]
    ensures Inside(w, more[|steps|], sids, room, n + 1)
  {
    var s := t[|es|];
    OneEnters(w, s, sids, room, n);
    FetchAndEnter(s, n);
    var one, two := AfterFetch(s, n), AfterEnter(s, n);
    AttemptsBounded(s, one, two, sids, room, n);
    TwoMore(t, es, room, |sids|, n, one, two);
    more, steps := t + [one] + [two], es + [Fetch(n)] + [EnterRoom(n)];
  }

  lemma {:induction false} AllEnter(w: World, sids: seq<SocketId>, room: string, n: nat, t0: seq<Split>, es0: seq<Step>)
    returns (t: seq<Split>, es: seq<Step>)
    requires n <= |sids| && AllPass(w, sids, room)
    requires Steps(t0, es0) && OnlyJoins(t0, es0, room, |sids|) && t0[|es0|] == Split(w, Tickets(sids, room, |sids|))
    ensures Steps(t, es) && OnlyJoins(t, es, room, |sids|) && t[0] == t0[0] && Inside(w, t[|es|], sids, room, n)
  {
    if n == 0 {
      t, es := t0, es0;
      assert SetOf(sids[..0]) == {};
    } else {
      t, es := AllEnter(w, sids, room, n - 1, t0, es0);
      t, es := OneMoreInside(w, sids, room, n - 1, t, es);
    }
  }

  lemma {:induction false} SetOfSize(members: set<SocketId>, sids: seq<SocketId>)
    requires Distinct(sids) && forall i | 0 <= i < |sids| :: sids[i] !in members
    ensures |members + SetOf(sids)| == |members| + |sids|
  {
    if sids == [] {
      assert members + SetOf(sids) == members;
    } else {
      var front, last := sids[..|sids| - 1], sids[|sids| - 1];
      SetOfSize(members, front);
      assert sids == front + [last];
      assert members + SetOf(sids) == members + SetOf(front) + {last};
      AddMember(members + SetOf(front), last);
    }
  }

  lemma PendingAtMost(t: seq<Split>, es: seq<Step>, room: string, k: nat, j: nat)
    requires OnlyJoins(t, es, room, k) && j < |t|
    ensures |Pending(t[j], room)| <= k
  {
    SubsetSize(Pending(t[j], room), t[j].attempts.Keys);
    assert |t[j].attempts.Keys| == |t[j].attempts|;
  }

  /**
   The bound of CapacityUnderInterleaving is reached for every k: from any allowed start one
   short of the total, k clients that may join get in together.
   */
  lemma BoundIsReached(w: World, sids: seq<SocketId>, id: int) returns (t: seq<Split>, es: seq<Step>)
    requires Start(Split(w, map[]), id) && id in w.rows && |Members(w.clients, Show(id))| == w.rows[id].total - 1
    requires Distinct(sids) && AllPass(w, sids, Show(id))
    ensures SplitRun(t, es, id) && t[0] == Split(w, map[]) && t[|es|].world.rows == w.rows
    ensures forall j | 0 <= j < |t| :: |Pending(t[j], Show(id))| <= |sids|
    ensures |Members(t[|es|].world.clients, Show(id))| == w.rows[id].total - 1 + |sids|
  {
    var room := Show(id);
    var t0, es0 := AllCheck(w, sids, room, |sids|);
    t, es := AllEnter(w, sids, room, |sids|, t0, es0);
    forall j | 0 <= j < |t| ensures |Pending(t[j], room)| <= |sids| { PendingAtMost(t, es, room, |sids|, j); }
    ShowRoundTrip(id);
    forall i: nat | i < |es| ensures FairAt(t, es, i, id) {}
    assert sids[..|sids|] == sids;
    SetOfSize(Members(w.clients, room), sids);
  }

  // ----- Such a start, for every k -----

  function CrowdSid(i: nat): SocketId { "s" + Show(i) }

  /** `k` clients of one user, none in any room but its own. */
  ghost function Crowd(k: nat): map<SocketId, Client> {
    if k == 0 then map[]
    else Crowd(k - 1)[CrowdSid(k - 1) := Client(1, 0, {CrowdSid(k - 1), Show(1)}, [])]
  }

  /** Room 7 is for one. */
  ghost function CrowdWorld(k: nat): World { World(Crowd(k), map[7 := Row(1, 1, 0, true)], {1}, 8) }

  lemma ShowStart(n: int)
    ensures Show(n) != [] && Show(n)[0] != 's'
  {
  }

  lemma CrowdSidIsNone(i: nat)
    ensures !IsNumeral(CrowdSid(i))
  {
    forall n: int ensures CrowdSid(i) != Show(n) { ShowStart(n); }
  }

  lemma CrowdSids(i: nat, j: nat)
    ensures CrowdSid(i) == CrowdSid(j) ==> i == j
    ensures !IsNumeral(CrowdSid(i))
  {
    if CrowdSid(i) == CrowdSid(j) {
      assert CrowdSid(i)[1..] == Show(i) && CrowdSid(j)[1..] == Show(j);
      ShowInjective(i, j);
    }
    CrowdSidIsNone(i);
  }

  lemma {:induction false} CrowdIs(k: nat)
    ensures forall i: nat | i < k :: CrowdSid(i) in Crowd(k)
    ensures forall s | s in Crowd(k) :: Crowd(k)[s] == Client(1, 0, {s, Show(1)}, []) && !IsNumeral(s)
  {
    if k > 0 {
      CrowdIs(k - 1);
      CrowdSidIsNone(k - 1);
    }
  }

  lemma NobodyIn7(k: nat)
    ensures Members(Crowd(k), Show(7)) == {}
  {
    CrowdIs(k);
    if Show(7) == Show(1) { ShowInjective(7, 1); }
    forall s | s in Crowd(k) ensures Show(7) !in Crowd(k)[s].rooms {
      assert s != Show(7);
    }
  }

  lemma CrowdStarts(k: nat)
    ensures Start(Split(CrowdWorld(k), map[]), 7)
  {
    CrowdIs(k);
    NobodyIn7(k);
  }

  /** An empty public room for at least one lets everybody in. */
  lemma EmptyRoomPasses(w: World, sid: SocketId, id: int)
    requires sid in w.clients && Members(w.clients, Show(id)) == {}
    requires id in w.rows && w.rows[id].total > 0 && w.rows[id].isPublic
    ensures Validate(w, sid, Show(id), true).None?
  {
    ShowRoundTrip(id);
    assert sid !in Members(w.clients, Show(id));
    assert LocalMembers(w.clients, w.clients[sid].node, Show(id)) <= Members(w.clients, Show(id));
  }

  lemma CrowdPasses(k: nat, i: nat)
    requires i < k
    ensures CrowdSid(i) in Crowd(k) && Validate(CrowdWorld(k), CrowdSid(i), Show(7), true).None?
  {
    CrowdIs(k);
    NobodyIn7(k);
    EmptyRoomPasses(CrowdWorld(k), CrowdSid(i), 7);
  }

  /** For every k there is a run with at most k joins under way in which a room for one has k members. */
  lemma CapacityIsTight(k: nat) returns (t: seq<Split>, es: seq<Step>)
    ensures SplitRun(t, es, 7) && 7 in t[|es|].world.rows && t[|es|].world.rows[7].total == 1
    ensures forall j | 0 <= j < |t| :: |Pending(t[j], Show(7))| <= k
    ensures |Members(t[|es|].world.clients, Show(7))| == k
  {
    var sids := seq(k, i requires 0 <= i < k => CrowdSid(i));
    var w := CrowdWorld(k);
    CrowdStarts(k);
    NobodyIn7(k);
    forall i | 0 <= i < |sids| ensures sids[i] in w.clients && Validate(w, sids[i], Show(7), true).None? {
      CrowdPasses(k, i);
    }
    forall i, j | 0 <= i < j < |sids| ensures sids[i] != sids[j] { CrowdSids(i, j); }
    t, es := BoundIsReached(w, sids, 7);
  }
}
