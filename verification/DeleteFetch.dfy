/**
 A delete followed by a fetch.

 `delSockets` only publishes a command, which each node applies when it reads it; a fetch
 published later is read later. So every other node answers the fetch after the delete. The
 caller takes its own part at once, without waiting for its own command: its part reflects
 the delete exactly when it had already read it.
 */
module DeleteFetch {
  import opened Option
  import opened RoomNames
  import opened Shards
  import opened AdapterNode
  import opened Cluster
  import opened ClusterInvariants
  import opened ClusterLedger
  import opened ClusterMail
  import opened Gathers
  import opened ClusterTheorems
  import opened Refinement

  // ----- In and out of a room -----

  ghost predicate InRoom(c: Cluster, m: NodeId, sid: Sid, room: Room) {
    m in c.members && sid in c.members[m].node.shard && room in c.members[m].node.shard[sid]
  }

  lemma {:induction false} Crossing(t: seq<Cluster>, a: nat, b: nat, m: NodeId, sid: Sid, room: Room) returns (k: nat)
    requires a < b < |t| && !InRoom(t[a], m, sid, room) && InRoom(t[b], m, sid, room)
    ensures a <= k < b && !InRoom(t[k], m, sid, room) && InRoom(t[k + 1], m, sid, room)
    decreases b
  {
    if InRoom(t[b - 1], m, sid, room) { k := Crossing(t, a, b - 1, m, sid, room); } else { k := b - 1; }
  }

  /** A snapshot lists a picked socket with the rooms it is in, and only such. */
  lemma ListedIff(shard: Shard, opts: Opts, part: Answer, info: SocketInfo)
    requires IsSnapshot(Fetch(opts), shard, part)
    ensures info in part.sockets <==> info.sid in Selected(shard, opts) && info == SocketInfo(info.sid, shard[info.sid])
  {
    var listed := set x | x in part.sockets;
    assert info in part.sockets <==> info in listed;
    assert listed == set s | s in Selected(shard, opts) :: SocketInfo(s, shard[s]);
  }

  lemma ListedIsInRoom(c: Cluster, m: NodeId, body: Body, part: Answer, info: SocketInfo, room: Room)
    requires m in c.members && body.Fetch? && IsSnapshot(body, c.members[m].node.shard, part)
    requires info in part.sockets && room in info.rooms
    ensures InRoom(c, m, info.sid, room)
  {
    ListedIff(c.members[m].node.shard, body.opts, part, info);
  }

  // ----- A part taken after the delete -----

  /** At step `x` node `m` reads the command at place `del` and takes the picked sockets out of the rooms. */
  ghost predicate DeletesAt(t: seq<Cluster>, es: seq<Event>, x: nat, m: NodeId, del: nat, command: Body)
    requires command.LeaveAll?
  {
    && Reads(t, es, x, m, del) && t[x].log[del].body == command
    && x + 1 < |t| && m in t[x + 1].members
    && t[x + 1].members[m].node.shard == DelSockets(t[x].members[m].node.shard, command.opts, command.left)
  }

  /** A socket taken out of a room at step `x` is listed in it at step `y` only if it came in between. */
  ghost predicate ListsOnlyRejoined(t: seq<Cluster>, x: nat, y: nat, m: NodeId, command: Body, part: Answer)
    requires command.LeaveAll? && part.SocketArray? && x < |t| && m in t[x].members
  {
    forall info, room |
      info in part.sockets && info.sid in Selected(t[x].members[m].node.shard, command.opts) &&
      room in command.left && room in info.rooms ::
      exists k :: x < k < y < |t| && !InRoom(t[k], m, info.sid, room) && InRoom(t[k + 1], m, info.sid, room)
  }

  /** Reading a message applies its effect to the node's sockets. */
  lemma ReadApplies(t: seq<Cluster>, es: seq<Event>, x: nat, m: NodeId, k: nat)
    requires Run(t, es) && Reads(t, es, x, m, k)
    ensures m in t[x + 1].members
    ensures t[x + 1].members[m].node.shard == Effect(t[x].log[k].body, t[x].members[m].node.shard)
  {
    MailAlways(t, es, x);
    assert Stepped(t, es, x);
    ConsumeTurn(t[x], m, es[x].answer);
  }

  lemma PartAfterDelete(t: seq<Cluster>, es: seq<Event>, x: nat, y: nat, m: NodeId, del: nat, body: Body, part: Answer)
    requires Run(t, es) && Reads(t, es, x, m, del) && x < y < |t| && t[x].log[del].body.LeaveAll?
    requires m in t[y].members && body.Fetch? && IsSnapshot(body, t[y].members[m].node.shard, part)
    ensures DeletesAt(t, es, x, m, del, t[x].log[del].body)
    ensures ListsOnlyRejoined(t, x, y, m, t[x].log[del].body, part)
  {
    ReadApplies(t, es, x, m, del);
    var command := t[x].log[del].body;
    forall info, room |
        info in part.sockets && info.sid in Selected(t[x].members[m].node.shard, command.opts) &&
        room in command.left && room in info.rooms
      ensures exists k :: x < k < y < |t| && !InRoom(t[k], m, info.sid, room) && InRoom(t[k + 1], m, info.sid, room)
    {
      ListedIsInRoom(t[y], m, body, part, info, room);
      assert !InRoom(t[x + 1], m, info.sid, room);
      var k := Crossing(t, x + 1, y, m, info.sid, room);
    }
  }

  /**
   The log holds a delete at place `del`, before the request of a fetch. A node that answered
   the fetch at step `y` had read the delete at an earlier step `x`, and the part it answered
   with lists a socket in a room it had been taken out of only if it came back in between.
   */
  lemma DeleteReadFirst(t: seq<Cluster>, es: seq<Event>, id: Id, m: NodeId, body: Body, part: Answer, y: nat,
                        del: nat, command: Body)
    returns (x: nat)
    requires Run(t, es) && SnapshotAt(t, es, y, m, id, body, part) && body.Fetch? && y < |t|
    requires del < t[y].issued[id] && t[y].issued[id] < |t[y].log|
    requires command.LeaveAll? && t[y].log[del].body == command
    ensures x < y && DeletesAt(t, es, x, m, del, command) && ListsOnlyRejoined(t, x, y, m, command, part)
  {
    x := ConsumedBefore(t, es, y, m, del);
    RunAdds(t, es, x, y);
    assert t[x].log[del] == t[y].log[del];
    PartAfterDelete(t, es, x, y, m, del, body, part);
  }

  /** Node `m`'s part of fetch `id` was taken at a step after `m` read the delete published at step `p`. */
  ghost predicate TakenAfterDelete(t: seq<Cluster>, es: seq<Event>, p: nat, i: nat, id: Id, m: NodeId, body: Body,
                                   command: Body, part: Answer)
    requires p < |t| && command.LeaveAll? && part.SocketArray?
  {
    exists x: nat, y: nat ::
      && p < x < y < i
      && DeletesAt(t, es, x, m, |t[p].log|, command)
      && SnapshotAt(t, es, y, m, id, body, part)
      && ListsOnlyRejoined(t, x, y, m, command, part)
  }

  lemma CommandIsLogged(t: seq<Cluster>, es: seq<Event>, p: nat, q: nat)
    requires Run(t, es) && p < |es| && es[p].Command? && p < q < |t|
    ensures |t[p].log| < |t[q].log| && t[q].log[|t[p].log|] == Message(es[p].n, None, es[p].body)
  {
    assert Stepped(t, es, p);
    RunAdds(t, es, p + 1, q);
  }

  lemma NotYetIssued(t: seq<Cluster>, es: seq<Event>, q: nat)
    requires Run(t, es) && q < |es| && es[q].Issue?
    ensures es[q].id !in t[q].issued
  {
    assert Stepped(t, es, q);
  }

  lemma StaysIssued(t: seq<Cluster>, es: seq<Event>, y: nat, a: nat, q: nat, id: Id)
    requires Run(t, es) && a < y < |t| && a < q < |t| && id in t[y].issued && id in t[a + 1].issued
    ensures id in t[q].issued
  {
    RunAdds(t, es, a + 1, q);
  }

  /** The request of a fetch issued after step `p` stands behind everything logged by then. */
  lemma IssuedLater(t: seq<Cluster>, es: seq<Event>, p: nat, q: nat, y: nat, id: Id)
    requires Run(t, es) && p < q < |es| && es[q] == Issue(id) && y < |t| && id in t[y].issued && es[p].Command?
    ensures t[y].issued[id] > |t[p].log| && y > q
  {
    MailAlways(t, es, y);
    var a := IssuedAt(t, es, y, id);
    NotYetIssued(t, es, q);
    if a < q { StaysIssued(t, es, y, a, q, id); }
    CommandIsLogged(t, es, p, q);
    RunAdds(t, es, q, a);
  }

  lemma LogReached(t: seq<Cluster>, es: seq<Event>, x: nat, p: nat)
    requires Run(t, es) && x < |t| && p < |t| && |t[p].log| < |t[x].log|
    ensures p < x
  {
    if x <= p { RunAdds(t, es, x, p); }
  }

  lemma OtherPart(t: seq<Cluster>, es: seq<Event>, p: nat, q: nat, i: nat, id: Id, m: NodeId, body: Body, part: Answer)
    requires Run(t, es) && p < q < |es| && es[p].Command? && es[p].body.LeaveAll? && es[q] == Issue(id)
    requires body.Fetch? && part.SocketArray? && i < |t|
    requires exists y: nat :: y < i && SnapshotAt(t, es, y, m, id, body, part)
    ensures TakenAfterDelete(t, es, p, i, id, m, body, es[p].body, part)
  {
    var y: nat :| y < i && SnapshotAt(t, es, y, m, id, body, part);
    IssuedLater(t, es, p, q, y, id);
    CommandIsLogged(t, es, p, y);
    MailAlways(t, es, y);
    var x := DeleteReadFirst(t, es, id, m, body, part, y, |t[p].log|, es[p].body);
    LogReached(t, es, x, p);
  }

  lemma SnapshotIsArray(t: seq<Cluster>, es: seq<Event>, i: nat, id: Id, body: Body, parts: map<NodeId, Answer>)
    requires Snapshots(t, es, i, id, body, parts) && body.Fetch?
    ensures forall m | m in parts :: parts[m].SocketArray?
  {
    forall m | m in parts ensures parts[m].SocketArray? {
      var b: nat :| b < i && SnapshotAt(t, es, b, m, id, body, parts[m]);
    }
  }

  lemma CallsAgree(t: seq<Cluster>, es: seq<Event>, q: nat, i: nat, id: Id)
    requires Run(t, es) && q < |t| && i < |t| && id in t[q].calls && id in t[i].calls
    ensures t[i].calls[id] == t[q].calls[id]
  {
    if q <= i { RunAdds(t, es, q, i); } else { RunAdds(t, es, i, q); }
  }

  /**
   Delete, then fetch, end to end. A node publishes a delete at step `p`, a fetch is issued at
   a later step `q`, and the fetch has resolved. Then the part of every node other than the
   caller was taken after that node had read this very delete and applied it, and lists a
   socket in a room it was taken out of only if it came back in between.
   */
  lemma DeleteThenFetch(t: seq<Cluster>, es: seq<Event>, p: nat, q: nat, i: nat, s: nat)
    returns (a: nat, parts: map<NodeId, Answer>)
    requires Run(t, es) && p < q < |es| && es[p].Command? && es[p].body.LeaveAll? && es[q].Issue?
    requires es[q].id in t[q].calls && t[q].calls[es[q].id].body.Fetch?
    requires i < |t| && s < |t[i].settled| && t[i].settled[s].id == es[q].id && t[i].settled[s].result.Gathered?
    ensures GatherIsComplete(t, es, i, es[q].id, t[i].settled[s].result.answer, a, parts)
    ensures forall m | m in parts ::
              parts[m].SocketArray? &&
              TakenAfterDelete(t, es, p, i, es[q].id, m, t[i].calls[es[q].id].body, es[p].body, parts[m])
  {
    var id := es[q].id;
    a, parts := GatherComplete(t, es, i, s);
    CallsAgree(t, es, q, i, id);
    SnapshotIsArray(t, es, i, id, t[i].calls[id].body, parts);
    forall m | m in parts
      ensures TakenAfterDelete(t, es, p, i, id, m, t[i].calls[id].body, es[p].body, parts[m])
    {
      OtherPart(t, es, p, q, i, id, m, t[i].calls[id].body, parts[m]);
    }
  }

  // ----- The caller's own part -----

  /**
   The caller's snapshot, taken when the call begins at step `a`, was taken after the caller
   read the message at place `del` if and only if it was past that place by then.
   */
  lemma OwnPartIff(t: seq<Cluster>, es: seq<Event>, a: nat, del: nat)
    requires Run(t, es) && a < |es| && es[a].Begin? && es[a].n in t[a].members
    ensures (exists x: nat :: x < a && Reads(t, es, x, es[a].n, del)) <==> t[a].members[es[a].n].seen > del
  {
    var n := es[a].n;
    if x: nat :| x < a && Reads(t, es, x, n, del) { ReadIsPast(t, es, x, n, del, a); }
    if t[a].members[n].seen > del { var x := ConsumedBefore(t, es, a, n, del); }
  }

  /** Past it, the own part is like any other: it was taken after the delete. */
  lemma OwnPartAfterDelete(t: seq<Cluster>, es: seq<Event>, a: nat, del: nat, command: Body) returns (x: nat)
    requires Run(t, es) && a < |es| && es[a].Begin? && es[a].body.Fetch? && es[a].n in t[a].members
    requires command.LeaveAll? && t[a].members[es[a].n].seen > del
    requires del < |t[a].log| && t[a].log[del].body == command
    ensures x < a && es[a].answer.SocketArray? && DeletesAt(t, es, x, es[a].n, del, command)
    ensures ListsOnlyRejoined(t, x, a, es[a].n, command, es[a].answer)
  {
    x := ConsumedBefore(t, es, a, es[a].n, del);
    RunAdds(t, es, x, a);
    assert t[x].log[del] == t[a].log[del];
    assert Stepped(t, es, a);
    PartAfterDelete(t, es, x, a, es[a].n, del, es[a].body, es[a].answer);
  }

  /** In a step node `n` neither changes its sockets locally nor reads a command or an operation on a socket. */
  ghost predicate Idle(t: seq<Cluster>, es: seq<Event>, k: nat, n: NodeId) {
    && k < |es| && k < |t|
    && !(IsLocalChange(t[k], es[k]) && es[k].n == n)
    && (es[k].Consume? && es[k].n == n && n in t[k].members && t[k].members[n].seen < |t[k].log| ==>
          var body := t[k].log[t[k].members[n].seen].body; !IsCommand(body) && !IsOne(body))
  }

  lemma IdleStep(t: seq<Cluster>, es: seq<Event>, k: nat, n: NodeId)
    requires Run(t, es) && Idle(t, es, k, n) && n in t[k].members
    ensures k + 1 < |t| && n in t[k + 1].members
    ensures t[k + 1].members[n].node.shard == t[k].members[n].node.shard
  {
    StepMovesAt(t, es, k, n);
  }

  lemma {:induction false} IdleKeeps(t: seq<Cluster>, es: seq<Event>, p: nat, a: nat, n: NodeId)
    requires Run(t, es) && p <= a < |t| && n in t[p].members
    requires forall k | p <= k < a :: Idle(t, es, k, n)
    ensures n in t[a].members && t[a].members[n].node.shard == t[p].members[n].node.shard
    decreases a
  {
    if p < a {
      IdleKeeps(t, es, p, a - 1, n);
      IdleStep(t, es, a - 1, n);
    }
  }

  /**
   Not past it, and with nothing else moving the caller's sockets since the delete was
   published, the delete is not seen at all: every socket of the caller it picks, and the
   fetch picks, is listed in every room it was to leave.
   */
  lemma OwnPartBeforeDelete(t: seq<Cluster>, es: seq<Event>, p: nat, a: nat, sid: Sid)
    requires Run(t, es) && p < a < |es| && es[p].Command? && es[p].body.LeaveAll?
    requires es[a].Begin? && es[a].body.Fetch? && es[a].n in t[p].members
    requires forall k | p <= k < a :: Idle(t, es, k, es[a].n)
    requires var shard := t[p].members[es[a].n].node.shard;
             sid in Selected(shard, es[p].body.opts) && sid in Selected(shard, es[a].body.opts)
    ensures es[a].n in t[a].members && t[a].members[es[a].n].seen <= |t[p].log|
    ensures es[a].answer.SocketArray?
    ensures SocketInfo(sid, t[p].members[es[a].n].node.shard[sid]) in es[a].answer.sockets
  {
    var n := es[a].n;
    var shard := t[p].members[n].node.shard;
    IdleKeeps(t, es, p, a, n);
    assert Stepped(t, es, a);
    ListedIff(shard, es[a].body.opts, es[a].answer, SocketInfo(sid, shard[sid]));
    if t[a].members[n].seen > |t[p].log| {
      var x := ConsumedBefore(t, es, a, n, |t[p].log|);
      LogReached(t, es, x, p);
      CommandIsLogged(t, es, p, x);
      var idle := Idle(t, es, x, n);
    }
  }

  /** In a step node `n` is idle, or reads the message at place `del`. */
  ghost predicate IdleBut(t: seq<Cluster>, es: seq<Event>, k: nat, n: NodeId, del: nat) {
    Idle(t, es, k, n) || Reads(t, es, k, n, del)
  }

  /** The part lists the socket, in this room. */
  ghost predicate Lists(part: Answer, sid: Sid, room: Room) {
    part.SocketArray? && exists info :: info in part.sockets && info.sid == sid && room in info.rooms
  }

  lemma IdleUntil(t: seq<Cluster>, es: seq<Event>, p: nat, a: nat, n: NodeId, del: nat)
    requires Run(t, es) && p < a < |t| && n in t[a].members && t[a].members[n].seen <= del
    requires forall k | p <= k < a :: IdleBut(t, es, k, n, del)
    ensures forall k | p <= k < a :: Idle(t, es, k, n)
  {
    forall k | p <= k < a ensures Idle(t, es, k, n) {
      assert IdleBut(t, es, k, n, del);
      if Reads(t, es, k, n, del) { ReadIsPast(t, es, k, n, del, a); }
    }
  }

  /** Idle after the reading, the socket does not come back. */
  lemma NotBack(t: seq<Cluster>, es: seq<Event>, p: nat, x: nat, a: nat, n: NodeId, del: nat, sid: Sid, room: Room)
    requires Run(t, es) && p <= x < a < |t| && Reads(t, es, x, n, del)
    requires forall k | p <= k < a :: IdleBut(t, es, k, n, del)
    ensures !exists k :: x < k < a < |t| && !InRoom(t[k], n, sid, room) && InRoom(t[k + 1], n, sid, room)
  {
    forall k | x < k < a ensures InRoom(t[k + 1], n, sid, room) ==> InRoom(t[k], n, sid, room) {
      assert IdleBut(t, es, k, n, del);
      if Reads(t, es, k, n, del) { ReadIsPast(t, es, x, n, del, k); }
      RunAdds(t, es, x, k);
      IdleStep(t, es, k, n);
    }
  }

  /** Up to the reading of the delete the sockets stay as they were. */
  lemma StillPicked(t: seq<Cluster>, es: seq<Event>, p: nat, x: nat, a: nat, n: NodeId, del: nat)
    requires Run(t, es) && p < x < a < |t| && n in t[p].members && Reads(t, es, x, n, del)
    requires forall k | p <= k < a :: IdleBut(t, es, k, n, del)
    ensures n in t[x].members && t[x].members[n].node.shard == t[p].members[n].node.shard
  {
    IdleUntil(t, es, p, x, n, del);
    IdleKeeps(t, es, p, x, n);
  }

  lemma OwnPartHides(t: seq<Cluster>, es: seq<Event>, p: nat, a: nat, sid: Sid, room: Room)
    requires Run(t, es) && p < a < |es| && es[p].Command? && es[p].body.LeaveAll?
    requires es[a].Begin? && es[a].body.Fetch? && es[a].n in t[p].members && es[a].n in t[a].members
    requires forall k | p <= k < a :: IdleBut(t, es, k, es[a].n, |t[p].log|)
    requires sid in Selected(t[p].members[es[a].n].node.shard, es[p].body.opts) && room in es[p].body.left
    requires t[a].members[es[a].n].seen > |t[p].log|
    ensures !Lists(es[a].answer, sid, room)
  {
    var n, del := es[a].n, |t[p].log|;
    CommandIsLogged(t, es, p, a);
    var x := OwnPartAfterDelete(t, es, a, del, es[p].body);
    LogReached(t, es, x, p);
    StillPicked(t, es, p, x, a, n, del);
    NotBack(t, es, p, x, a, n, del, sid, room);
  }

  /**
   So, exactly when the own part shows the delete. A delete was published at step `p`, a fetch
   began at step `a`, and between them nothing moved the caller's sockets but, if it came to
   that, its reading of the delete. A socket both calls pick, and a room it was in and was to
   leave: the caller's part lists the one in the other if and only if the caller had not read
   the delete when the fetch began.
   */
  lemma OwnPartListsIff(t: seq<Cluster>, es: seq<Event>, p: nat, a: nat, sid: Sid, room: Room)
    requires Run(t, es) && p < a < |es| && es[p].Command? && es[p].body.LeaveAll?
    requires es[a].Begin? && es[a].body.Fetch? && es[a].n in t[p].members && es[a].n in t[a].members
    requires forall k | p <= k < a :: IdleBut(t, es, k, es[a].n, |t[p].log|)
    requires var shard := t[p].members[es[a].n].node.shard;
             && sid in Selected(shard, es[p].body.opts) && sid in Selected(shard, es[a].body.opts)
             && room in es[p].body.left && room in shard[sid]
    ensures Lists(es[a].answer, sid, room) <==> t[a].members[es[a].n].seen <= |t[p].log|
  {
    var n, del := es[a].n, |t[p].log|;
    if t[a].members[n].seen <= del {
      IdleUntil(t, es, p, a, n, del);
      OwnPartBeforeDelete(t, es, p, a, sid);
    } else {
      OwnPartHides(t, es, p, a, sid, room);
    }
  }

  /** What the own part lists, the resolved fetch lists. */
  lemma OwnPartIsInAnswer(t: seq<Cluster>, es: seq<Event>, i: nat, s: nat, info: SocketInfo)
    requires Run(t, es) && i < |t| && s < |t[i].settled| && t[i].settled[s].result.Gathered?
    requires t[i].settled[s].id in t[i].calls && t[i].calls[t[i].settled[s].id].answer.SocketArray?
    requires info in t[i].calls[t[i].settled[s].id].answer.sockets
    ensures t[i].settled[s].result.answer.SocketArray? && info in t[i].settled[s].result.answer.sockets
  {
    var answer := t[i].settled[s].result.answer;
    var a, parts := GatherComplete(t, es, i, s);
    assert SocketItem(info) in Items(t[i].calls[t[i].settled[s].id].answer);
    assert SocketItem(info) in Items(answer);
  }

  // ----- A run in which the own part misses the delete -----

  /** Two nodes; the socket lives on the first, which deletes and fetches. `stage` counts the steps. */
  ghost function Pair(sid: Sid, m: NodeId, room: Room, stage: nat): Cluster {
    var n := sid.home;
    var opts := Opts({room}, {});
    var listed := SocketArray([SocketInfo(sid, {room})]);
    var entry := Gather(2, 1, listed);
    var waiting: map<Id, Pending> := if 3 <= stage <= 5 then map[0 := entry] else map[];
    var del := Message(n, None, LeaveAll(opts, {room}));
    var request := Message(n, Some(0), Fetch(opts));
    var calls: map<Id, Call> := if stage >= 2 then map[0 := Call(n, Fetch(opts), listed)] else map[];
    var issued: map<Id, nat> := if stage >= 3 then map[0 := 1] else map[];
    Cluster(
      map[n := Member(Node(map[sid := {room}], waiting, {}, {}, {}), 0),
          m := Member(Node(map[], map[], {}, {}, {}), if stage <= 3 then 0 else if stage == 4 then 1 else 2)],
      {},
      if stage == 0 then [] else if stage <= 2 then [del] else [del, request],
      issued,
      calls.Keys,
      calls,
      if stage >= 5 then [Envelope(m, Shared, Response(0, Answered(SocketArray([]))))] else [],
      if stage >= 6 then {(n, 0)} else {},
      if stage >= 6 then [Settlement(0, Gathered(listed))] else [],
      multiset{},
      [])
  }

  ghost function PairEvent(sid: Sid, m: NodeId, room: Room, stage: nat): Event {
    var opts := Opts({room}, {});
    if stage == 0 then Command(sid.home, LeaveAll(opts, {room}))
    else if stage == 1 then Begin(sid.home, 0, Fetch(opts), SocketArray([SocketInfo(sid, {room})]))
    else if stage == 2 then Issue(0)
    else if stage == 3 then Consume(m, SocketArray([]))
    else if stage == 4 then Consume(m, SocketArray([]))
    else Deliver(sid.home, 0)
  }

  ghost predicate PairSteps(sid: Sid, m: NodeId, room: Room, stage: nat) {
    && Enabled(Pair(sid, m, room, stage), PairEvent(sid, m, room, stage))
    && var next := stage + 1;
       Next(Pair(sid, m, room, stage), PairEvent(sid, m, room, stage)) == Pair(sid, m, room, next)
  }

  lemma PairCommands(sid: Sid, m: NodeId, room: Room)
    requires m != sid.home
    ensures Init(Pair(sid, m, room, 0)) && PairSteps(sid, m, room, 0)
  {
    assert sid.home in Pair(sid, m, room, 0).members;
  }

  lemma PairSnapshots(sid: Sid, room: Room)
    ensures IsSnapshot(Fetch(Opts({room}, {})), map[sid := {room}], SocketArray([SocketInfo(sid, {room})]))
    ensures IsSnapshot(Fetch(Opts({room}, {})), map[], SocketArray([]))
  {
    var shard: Shard := map[sid := {room}];
    assert Selected(shard, Opts({room}, {})) == {sid} by { assert {room} * {room} == {room}; }
    assert (set s | s in {sid} :: SocketInfo(s, shard[s])) == {SocketInfo(sid, {room})};
    assert (set x | x in [SocketInfo(sid, {room})]) == {SocketInfo(sid, {room})};
  }

  lemma PairBegins(sid: Sid, m: NodeId, room: Room)
    requires m != sid.home
    ensures PairSteps(sid, m, room, 1)
  {
    PairSnapshots(sid, room);
    assert Pair(sid, m, room, 1).used + {0} == {0};
  }

  lemma PairIssues(sid: Sid, m: NodeId, room: Room)
    requires m != sid.home
    ensures PairSteps(sid, m, room, 2)
  {
    var c, d := Pair(sid, m, room, 2), Pair(sid, m, room, 3);
    assert c.members.Keys == {sid.home, m};
    assert |c.members| == 2;
    assert Next(c, Issue(0)).members == d.members;
  }

  lemma PairDeletes(sid: Sid, m: NodeId, room: Room)
    requires m != sid.home
    ensures PairSteps(sid, m, room, 3)
  {
    var c, d := Pair(sid, m, room, 3), Pair(sid, m, room, 4);
    var shard: Shard := map[];
    assert Effect(c.log[0].body, shard) == shard;
    assert Next(c, PairEvent(sid, m, room, 3)).members == d.members;
  }

  lemma PairAnswers(sid: Sid, m: NodeId, room: Room)
    requires m != sid.home
    ensures PairSteps(sid, m, room, 4)
  {
    var c, d := Pair(sid, m, room, 4), Pair(sid, m, room, 5);
    PairSnapshots(sid, room);
    assert Next(c, PairEvent(sid, m, room, 4)).members == d.members;
    assert Send(c.sends, 0, {}) == c.sends;
  }

  lemma PairResolves(sid: Sid, m: NodeId, room: Room)
    requires m != sid.home
    ensures PairSteps(sid, m, room, 5)
  {
    var c, d := Pair(sid, m, room, 5), Pair(sid, m, room, 6);
    assert [SocketInfo(sid, {room})] + [] == [SocketInfo(sid, {room})];
    assert Next(c, PairEvent(sid, m, room, 5)).members == d.members;
  }

  lemma PairStepped(t: seq<Cluster>, es: seq<Event>, sid: Sid, m: NodeId, room: Room, k: nat)
    requires k < |es| && k + 1 < |t| && PairSteps(sid, m, room, k)
    requires t[k] == Pair(sid, m, room, k) && es[k] == PairEvent(sid, m, room, k)
    requires var next := k + 1; t[next] == Pair(sid, m, room, next)
    ensures Stepped(t, es, k)
  {
  }

  lemma AllPairSteps(sid: Sid, m: NodeId, room: Room, k: nat)
    requires m != sid.home && k < 6
    ensures PairSteps(sid, m, room, k)
  {
    PairCommands(sid, m, room);
    PairBegins(sid, m, room);
    PairIssues(sid, m, room);
    PairDeletes(sid, m, room);
    PairAnswers(sid, m, room);
    PairResolves(sid, m, room);
    if k == 0 {} else if k == 1 {} else if k == 2 {} else if k == 3 {} else if k == 4 {} else { assert k == 5; }
  }

  lemma PairRuns(sid: Sid, m: NodeId, room: Room) returns (t: seq<Cluster>, es: seq<Event>)
    requires m != sid.home
    ensures Run(t, es) && |es| == 6
    ensures forall k | 0 <= k <= 6 :: t[k] == Pair(sid, m, room, k)
    ensures forall k | 0 <= k < 6 :: es[k] == PairEvent(sid, m, room, k)
  {
    t := seq(7, k requires 0 <= k < 7 => Pair(sid, m, room, k));
    es := seq(6, k requires 0 <= k < 6 => PairEvent(sid, m, room, k));
    PairCommands(sid, m, room);
    forall k: nat | k < |es| ensures Stepped(t, es, k) {
      AllPairSteps(sid, m, room, k);
      PairStepped(t, es, sid, m, room, k);
    }
  }

  /**
   A node deletes a socket of its own from a room, fetches, gathers the other node's answer,
   taken after that node read the delete, and resolves with the socket still in the room.
   */
  lemma OwnPartMayPrecedeDelete(sid: Sid, m: NodeId, room: Room) returns (t: seq<Cluster>, es: seq<Event>)
    requires m != sid.home
    ensures Run(t, es) && |es| == 6
    ensures es[0] == Command(sid.home, LeaveAll(Opts({room}, {}), {room})) && es[2] == Issue(0)
    ensures DeletesAt(t, es, 3, m, 0, es[0].body)
    ensures sid.home in t[5].members && 0 in t[5].members[sid.home].node.requests
    ensures t[6].settled == [Settlement(0, Gathered(SocketArray([SocketInfo(sid, {room})])))]
  {
    t, es := PairRuns(sid, m, room);
    assert t[3] == Pair(sid, m, room, 3) && t[4] == Pair(sid, m, room, 4);
    assert t[5] == Pair(sid, m, room, 5) && t[6] == Pair(sid, m, room, 6);
    ReadApplies(t, es, 3, m, 0);
  }
}
