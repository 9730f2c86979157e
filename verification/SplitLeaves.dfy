/**
 A leave and a disconnect split at their awaits: go or stay, count the room, store.

 A leaving client is out of the room when the members are counted. A disconnecting one is still
 in, is counted and subtracted, and its socket goes while the store is awaited. Either may
 overlap with any step of split joins and whole handlers.
 */
module SplitLeaves {
  import opened Option
  import opened RoomNames
  import opened Rooms
  import opened RoomRuns
  import opened RoomCapacity
  import opened SplitJoins

  /** A recount under way; `left`: the client had left the room before, and is told too. */
  datatype Recount = Recount(sid: SocketId, room: string, left: bool, count: Option<nat>)

  datatype Shared = Shared(split: Split, recounts: map<nat, Recount>)

  datatype Act =
    | Other(step: Step)
    | Depart(ticket: nat, sid: SocketId, room: string)
    | Visit(ticket: nat, sid: SocketId, room: string)
    | CountNow(ticket: nat)
    | StoreNow(ticket: nat)
    | Vanish(sid: SocketId)

  function Delta(r: Recount): int { if r.left then 0 else -1 }

  ghost predicate CanAct(s: Shared, a: Act) {
    match a
    case Other(step) => CanStep(s.split, step)
    case Depart(k, sid, _) => k !in s.recounts && sid in s.split.world.clients
    case Visit(k, sid, room) =>
      k !in s.recounts && sid in s.split.world.clients && room in RoomsToLeave(s.split.world, sid)
    case CountNow(k) => k in s.recounts && s.recounts[k].count.None?
    case StoreNow(k) => k in s.recounts && s.recounts[k].count.Some?
    case Vanish(sid) => sid in s.split.world.clients
  }

  /** The store, and who is told of it; a missing row leaves it at that. */
  ghost function Stored(w: World, r: Recount): World
    requires r.count.Some?
  {
    if !HasRow(w, r.room) then w
    else
      var notice := LeftRoom(r.room, r.sid);
      var confirmed := if r.left then Tell(w.clients, {r.sid}, notice) else w.clients;
      w.(clients := Tell(confirmed, Members(confirmed, r.room) - {r.sid}, notice),
         rows := Store(w.rows, ParseInt(r.room).value, r.count.value, Delta(r)))
  }

  function InWorld(s: Shared, w: World): Shared { s.(split := s.split.(world := w)) }

  ghost function After(s: Shared, a: Act): Shared
    requires CanAct(s, a)
  {
    var w := s.split.world;
    match a
    case Other(step) => s.(split := Do(s.split, step))
    case Depart(k, sid, room) =>
      InWorld(s, w.(clients := Exit(w.clients, sid, room))).(
        recounts := s.recounts[k := Recount(sid, room, true, None)])
    case Visit(k, sid, room) => s.(recounts := s.recounts[k := Recount(sid, room, false, None)])
    case CountNow(k) =>
      var r := s.recounts[k];
      s.(recounts := s.recounts[k := r.(count := Some(|Members(w.clients, r.room)|))])
    case StoreNow(k) => InWorld(s, Stored(w, s.recounts[k])).(recounts := s.recounts - {k})
    case Vanish(sid) => InWorld(s, w.(clients := w.clients - {sid}))
  }

  ghost predicate ActsAt(t: seq<Shared>, acts: seq<Act>, i: nat) {
    i < |acts| && i + 1 < |t| && CanAct(t[i], acts[i]) && t[i + 1] == After(t[i], acts[i])
  }

  /** `t` passes through `acts`, one after the other. */
  ghost predicate Acts(t: seq<Shared>, acts: seq<Act>) {
    |t| == |acts| + 1 && forall i: nat | i < |acts| :: ActsAt(t, acts, i)
  }

  // ----- Undisturbed -----

  lemma EarlyAct(first: seq<Shared>, acts: seq<Act>, second: seq<Shared>, more: seq<Act>, i: nat)
    requires Acts(first, acts) && |second| > 0 && first[|acts|] == second[0] && i < |acts|
    ensures ActsAt(first[..|acts|] + second, acts + more, i)
  {
    assert ActsAt(first, acts, i);
  }

  lemma LateAct(first: seq<Shared>, acts: seq<Act>, second: seq<Shared>, more: seq<Act>, i: nat)
    requires |first| == |acts| + 1 && Acts(second, more) && i < |more|
    ensures ActsAt(first[..|acts|] + second, acts + more, |acts| + i)
  {
    assert ActsAt(second, more, i);
  }

  lemma ActsJoined(first: seq<Shared>, acts: seq<Act>, second: seq<Shared>, more: seq<Act>)
    requires Acts(first, acts) && Acts(second, more) && first[|acts|] == second[0]
    ensures Acts(first[..|acts|] + second, acts + more)
    ensures (first[..|acts|] + second)[0] == first[0] && (first[..|acts|] + second)[|acts + more|] == second[|more|]
  {
    forall i: nat | i < |acts + more| ensures ActsAt(first[..|acts|] + second, acts + more, i) {
      if i < |acts| { EarlyAct(first, acts, second, more, i); } else { LateAct(first, acts, second, more, i - |acts|); }
    }
  }

  lemma ThreeActs(s0: Shared, a0: Act, s1: Shared, a1: Act, s2: Shared, a2: Act, s3: Shared)
    requires CanAct(s0, a0) && s1 == After(s0, a0)
    requires CanAct(s1, a1) && s2 == After(s1, a1)
    requires CanAct(s2, a2) && s3 == After(s2, a2)
    ensures Acts([s0, s1, s2, s3], [a0, a1, a2])
  {
    var t, acts := [s0, s1, s2, s3], [a0, a1, a2];
    forall i: nat | i < |acts| ensures ActsAt(t, acts, i) {
      if i == 0 {} else if i == 1 {} else { assert i == 2; }
    }
  }

  /** Count and store in a row. */
  lemma CountAndStore(s: Shared, k: nat, r: Recount)
    requires k in s.recounts && s.recounts[k] == r && r.count.None?
    ensures var counted := r.(count := Some(|Members(s.split.world.clients, r.room)|));
            var mid := s.(recounts := s.recounts[k := counted]);
            && CanAct(s, CountNow(k)) && After(s, CountNow(k)) == mid
            && CanAct(mid, StoreNow(k))
            && After(mid, StoreNow(k)) == Shared(Split(Stored(s.split.world, counted), s.split.attempts), s.recounts - {k})
  {
    var counted := r.(count := Some(|Members(s.split.world.clients, r.room)|));
    assert s.recounts[k := counted] - {k} == s.recounts - {k};
  }

  /** Depart, count and store in a row are exactly the whole leave. */
  lemma LeaveInARow(w: World, attempts: map<nat, Attempt>, recounts: map<nat, Recount>, k: nat, sid: SocketId, room: string)
    returns (t: seq<Shared>)
    requires k !in recounts && sid in w.clients
    ensures Acts(t, [Depart(k, sid, room), CountNow(k), StoreNow(k)])
    ensures t[0] == Shared(Split(w, attempts), recounts)
    ensures t[3] == Shared(Split(Leave(w, sid, room), attempts), recounts)
  {
    var s0 := Shared(Split(w, attempts), recounts);
    var r := Recount(sid, room, true, None);
    var s1 := Shared(Split(w.(clients := Exit(w.clients, sid, room)), attempts), recounts[k := r]);
    CountAndStore(s1, k, r);
    assert recounts[k := r] - {k} == recounts;
    var s2 := After(s1, CountNow(k));
    ThreeActs(s0, Depart(k, sid, room), s1, CountNow(k), s2, StoreNow(k), After(s2, StoreNow(k)));
    t := [s0, s1, s2, After(s2, StoreNow(k))];
  }

  /** Visit, count and store in a row are exactly what a disconnect does to one room. */
  lemma GoodbyeInARow(w: World, attempts: map<nat, Attempt>, recounts: map<nat, Recount>, k: nat, sid: SocketId,
                      room: string)
    returns (t: seq<Shared>)
    requires k !in recounts && sid in w.clients && room in RoomsToLeave(w, sid)
    ensures Acts(t, [Visit(k, sid, room), CountNow(k), StoreNow(k)])
    ensures t[0] == Shared(Split(w, attempts), recounts)
    ensures t[3] == Shared(Split(Goodbye(w, sid, room), attempts), recounts)
  {
    var s0 := Shared(Split(w, attempts), recounts);
    var r := Recount(sid, room, false, None);
    var s1 := Shared(Split(w, attempts), recounts[k := r]);
    CountAndStore(s1, k, r);
    assert recounts[k := r] - {k} == recounts;
    var s2 := After(s1, CountNow(k));
    ThreeActs(s0, Visit(k, sid, room), s1, CountNow(k), s2, StoreNow(k), After(s2, StoreNow(k)));
    t := [s0, s1, s2, After(s2, StoreNow(k))];
  }

  lemma GoodbyesKeepRooms(w: World, sid: SocketId, order: seq<string>)
    requires sid in w.clients
    ensures sid in Goodbyes(w, sid, order).clients
    ensures RoomsToLeave(Goodbyes(w, sid, order), sid) == RoomsToLeave(w, sid)
  {
    GoodbyesMembers(w, sid, order);
  }

  lemma {:induction false} GoodbyesInARow(w: World, attempts: map<nat, Attempt>, recounts: map<nat, Recount>, k: nat,
                                          sid: SocketId, order: seq<string>)
    returns (t: seq<Shared>, acts: seq<Act>)
    requires k !in recounts && sid in w.clients && forall r | r in order :: r in RoomsToLeave(w, sid)
    ensures Acts(t, acts) && t[0] == Shared(Split(w, attempts), recounts)
    ensures t[|acts|] == Shared(Split(Goodbyes(w, sid, order), attempts), recounts)
  {
    if order == [] {
      t, acts := [Shared(Split(w, attempts), recounts)], [];
    } else {
      var front, last := order[..|order| - 1], order[|order| - 1];
      forall r | r in front ensures r in order {}
      var t0, acts0 := GoodbyesInARow(w, attempts, recounts, k, sid, front);
      GoodbyesKeepRooms(w, sid, front);
      var t1 := GoodbyeInARow(Goodbyes(w, sid, front), attempts, recounts, k, sid, last);
      ActsJoined(t0, acts0, t1, [Visit(k, sid, last), CountNow(k), StoreNow(k)]);
      t, acts := t0[..|acts0|] + t1, acts0 + [Visit(k, sid, last), CountNow(k), StoreNow(k)];
    }
  }

  lemma VanishActs(s: Shared, sid: SocketId)
    requires sid in s.split.world.clients
    ensures Acts([s, After(s, Vanish(sid))], [Vanish(sid)])
  {
  }

  /** Room after room in a row, and then the socket gone, are exactly the whole disconnect. */
  lemma DisconnectInARow(w: World, attempts: map<nat, Attempt>, recounts: map<nat, Recount>, k: nat, sid: SocketId,
                         order: seq<string>)
    returns (t: seq<Shared>, acts: seq<Act>)
    requires k !in recounts && Possible(w, Disconnecting(sid, order))
    ensures Acts(t, acts) && t[0] == Shared(Split(w, attempts), recounts)
    ensures t[|acts|] == Shared(Split(Disconnect(w, sid, order), attempts), recounts)
  {
    var t0, acts0 := GoodbyesInARow(w, attempts, recounts, k, sid, order);
    GoodbyesKeepRooms(w, sid, order);
    var s := t0[|acts0|];
    VanishActs(s, sid);
    ActsJoined(t0, acts0, [s, After(s, Vanish(sid))], [Vanish(sid)]);
    t, acts := t0[..|acts0|] + [s, After(s, Vanish(sid))], acts0 + [Vanish(sid)];
  }

  // ----- When the stored count is right -----

  lemma RecountStays(s: Shared, a: Act, k: nat)
    requires CanAct(s, a) && k in After(s, a).recounts && After(s, a).recounts[k].count.Some? && a != CountNow(k)
    ensures k in s.recounts && s.recounts[k] == After(s, a).recounts[k]
  {
  }

  /** The step at which recount `k` was counted. */
  lemma {:induction false} CountOf(t: seq<Shared>, acts: seq<Act>, q: nat, k: nat) returns (p: nat)
    requires Acts(t, acts) && t[0].recounts == map[] && q < |t|
    requires k in t[q].recounts && t[q].recounts[k].count.Some?
    ensures p < q && acts[p] == CountNow(k)
    ensures t[q].recounts[k].count.value == |Members(t[p].split.world.clients, t[q].recounts[k].room)|
    decreases q
  {
    if q > 0 {
      assert ActsAt(t, acts, q - 1);
      if acts[q - 1] == CountNow(k) {
        p := q - 1;
      } else {
        RecountStays(t[q - 1], acts[q - 1], k);
        p := CountOf(t, acts, q - 1, k);
      }
    }
  }

  ghost function Splits(t: seq<Shared>): seq<Split> { seq(|t|, i requires 0 <= i < |t| => t[i].split) }

  lemma StoredMembers(w: World, r: Recount, room: string)
    requires r.count.Some?
    ensures Members(Stored(w, r).clients, room) == Members(w.clients, room)
  {
  }

  lemma StoredAgreesOn(w: World, r: Recount, id: int)
    requires r.count.Some? && ParseInt(r.room) == Some(id) && id in w.rows
    ensures AgreesOn(Stored(w, r), id) <==>
              (if r.count.value + Delta(r) < 0 then 0 else r.count.value + Delta(r)) == |Members(w.clients, Show(id))|
  {
    StoredMembers(w, r, Show(id));
  }

  /** Recount `k` is stored at step `q`, in the row of `id`. */
  ghost predicate StoresAt(t: seq<Shared>, acts: seq<Act>, q: nat, k: nat, id: int) {
    && Acts(t, acts) && t[0].recounts == map[] && q < |acts| && acts[q] == StoreNow(k)
    && k in t[q].recounts && ParseInt(t[q].recounts[k].room) == Some(id) && id in t[q].split.world.rows
  }

  /**
   The counter is right after step `q` if and only if, from step `p` to step `q`, the steps but
   `own` changed the room's members in number by nothing. A room by another name than the
   row's has to have as many members as the row's own room besides.
   */
  ghost predicate RightIffStill(t: seq<Shared>, p: nat, q: nat, own: nat, room: string, id: int)
    requires p <= q && q + 1 < |t|
  {
    AgreesOn(t[q + 1].split.world, id) <==>
      OthersNet(Splits(t), p, q, own, room) == Size(t[q].split, room) - Size(t[q].split, Show(id))
  }

  /**
   A leave whose store comes at step `q`, among any steps of other leaves, disconnects, joins
   and whole handlers, from any world: the counter is right if and only if, since the members
   were counted at step `p`, they changed in number by nothing.
   */
  lemma {:induction false} LeaveAgreesIffStill(t: seq<Shared>, acts: seq<Act>, q: nat, k: nat, id: int) returns (p: nat)
    requires StoresAt(t, acts, q, k, id) && t[q].recounts[k].left
    ensures p < q && acts[p] == CountNow(k) && RightIffStill(t, p, q, q, t[q].recounts[k].room, id)
  {
    assert ActsAt(t, acts, q);
    p := CountOf(t, acts, q, k);
    StoredAgreesOn(t[q].split.world, t[q].recounts[k], id);
    NetAddsUp(Splits(t), p, q, q, t[q].recounts[k].room);
  }

  ghost predicate IsIn(t: seq<Shared>, p: nat, sid: SocketId, room: string) {
    p < |t| && sid in Members(t[p].split.world.clients, room)
  }

  /** At step `e`, before step `q`, the socket goes, out of the room too. */
  ghost predicate GoesAt(t: seq<Shared>, acts: seq<Act>, e: nat, q: nat, sid: SocketId, room: string) {
    e < q && e < |acts| && e < |t| && acts[e] == Vanish(sid) && IsIn(t, e, sid, room)
  }

  lemma VanishSize(s: Shared, sid: SocketId, room: string)
    requires sid in Members(s.split.world.clients, room)
    ensures CanAct(s, Vanish(sid)) && Size(After(s, Vanish(sid)).split, room) == Size(s.split, room) - 1
  {
    var members := Members(s.split.world.clients, room);
    assert Members(After(s, Vanish(sid)).split.world.clients, room) == members - {sid};
    RemoveMember(members, sid);
  }

  /**
   A disconnect whose socket went at step `e`, before the store at step `q`: if it was a member
   when the members were counted at step `p`, before it went, the counter is right if and only
   if the other steps from the count to the store changed the number of members by nothing.
   */
  lemma {:induction false} DisconnectAgreesIffStill(t: seq<Shared>, acts: seq<Act>, e: nat, q: nat, k: nat, id: int)
    returns (p: nat)
    requires StoresAt(t, acts, q, k, id) && !t[q].recounts[k].left
    requires GoesAt(t, acts, e, q, t[q].recounts[k].sid, t[q].recounts[k].room)
    ensures p < q && acts[p] == CountNow(k)
    ensures var r := t[q].recounts[k];
            p < e && IsIn(t, p, r.sid, r.room) ==> RightIffStill(t, p, q, e, r.room, id)
  {
    var r := t[q].recounts[k];
    assert ActsAt(t, acts, q) && ActsAt(t, acts, e);
    p := CountOf(t, acts, q, k);
    StoredAgreesOn(t[q].split.world, r, id);
    if p < e && IsIn(t, p, r.sid, r.room) {
      assert Size(t[p].split, r.room) > 0;
      NetAddsUp(Splits(t), p, q, e, r.room);
      VanishSize(t[e], r.sid, r.room);
    }
  }
}
