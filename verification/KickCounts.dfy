/**
 The count a kick stores.

 A kick publishes a command that takes the target out of the room, and then stores how many
 sockets a fetch of that room lists. The other nodes read the command before the fetch, but
 the caller takes its own part without waiting to read its own command.
 */
module KickCounts {
  import opened Option
  import opened RoomNames
  import opened Shards
  import opened AdapterNode
  import opened Cluster
  import opened ClusterInvariants
  import opened ClusterMail
  import opened Gathers
  import opened ClusterTheorems
  import opened DeleteFetch

  // ----- The sockets of a room -----

  /** The sockets of node `m` in the room. */
  ghost function MembersOn(c: Cluster, m: NodeId, room: Room): set<Sid>
    requires m in c.members
  {
    set s | s in c.members[m].node.shard && room in c.members[m].node.shard[s]
  }

  /** All sockets of the cluster in the room. */
  ghost function MembersIn(c: Cluster, room: Room): set<Sid> {
    set m, s | m in c.members && s in MembersOn(c, m, room) :: s
  }

  ghost function Sids(sockets: seq<SocketInfo>): set<Sid> { set x | x in sockets :: x.sid }

  lemma RoomIsSelected(shard: Shard, room: Room)
    ensures Selected(shard, Opts({room}, {})) == set s | s in shard && room in shard[s]
  {
    forall s | s in shard ensures Picks(shard[s], Opts({room}, {})) <==> room in shard[s] {
      assert room in shard[s] ==> room in shard[s] * {room};
    }
  }

  /** Taking the sockets of room `own` out of another room. */
  lemma LeavesRoom(shard: Shard, own: Room, room: Room)
    requires own != room
    ensures (set s | s in DelSockets(shard, Opts({own}, {}), {room}) && room in DelSockets(shard, Opts({own}, {}), {room})[s]) ==
              (set s | s in shard && room in shard[s]) - set s | s in shard && own in shard[s]
  {
    RoomIsSelected(shard, own);
    forall s | s in shard ensures Picks(shard[s], Opts({own}, {})) <==> own in shard[s] {
      assert s in Selected(shard, Opts({own}, {})) <==> Picks(shard[s], Opts({own}, {}));
    }
  }

  /** A snapshot of a fetch of the room lists exactly the sockets in it. */
  lemma ListsMembers(c: Cluster, m: NodeId, room: Room, part: Answer)
    requires m in c.members && IsSnapshot(Fetch(Opts({room}, {})), c.members[m].node.shard, part)
    ensures part.SocketArray? && Sids(part.sockets) == MembersOn(c, m, room)
  {
    var shard := c.members[m].node.shard;
    RoomIsSelected(shard, room);
    forall s ensures s in Sids(part.sockets) <==> s in MembersOn(c, m, room) {
      if s in shard { ListedIff(shard, Opts({room}, {}), part, SocketInfo(s, shard[s])); }
      if x :| x in part.sockets && x.sid == s { ListedIff(shard, Opts({room}, {}), part, x); }
    }
  }

  lemma {:induction false} CountIsSids(sockets: seq<SocketInfo>)
    requires DistinctSids(sockets)
    ensures |sockets| == |Sids(sockets)|
  {
    if sockets == [] {
      assert Sids(sockets) == {};
    } else {
      var front, last := sockets[..|sockets| - 1], sockets[|sockets| - 1];
      CountIsSids(front);
      assert sockets == front + [last];
      assert Sids(sockets) == Sids(front) + {last.sid};
      assert last.sid !in Sids(front);
    }
  }

  // ----- A node before and after it reads the command -----

  /** The command of a kick: the sockets of the target's own room leave the room. */
  function KickBody(own: Room, room: Room): Body { LeaveAll(Opts({own}, {}), {room}) }

  /** From step `p` to step `y` the node's sockets moved by the reading of the command only. */
  ghost predicate OnlyKicks(t: seq<Cluster>, es: seq<Event>, p: nat, y: nat, m: NodeId) {
    p < |t| && forall k | p <= k < y :: IdleBut(t, es, k, m, |t[p].log|)
  }

  lemma ShardAfter(t: seq<Cluster>, es: seq<Event>, p: nat, x: nat, y: nat, m: NodeId)
    requires Run(t, es) && p < x < y < |t| && es[p].Command? && m in t[p].members
    requires Reads(t, es, x, m, |t[p].log|) && OnlyKicks(t, es, p, y, m)
    ensures m in t[y].members && t[y].members[m].node.shard == Effect(es[p].body, t[p].members[m].node.shard)
  {
    var del := |t[p].log|;
    StillPicked(t, es, p, x, y, m, del);
    CommandIsLogged(t, es, p, x);
    ReadApplies(t, es, x, m, del);
    forall k | x + 1 <= k < y ensures Idle(t, es, k, m) {
      assert IdleBut(t, es, k, m, del);
      if Reads(t, es, k, m, del) { ReadIsPast(t, es, x, m, del, k); }
    }
    IdleKeeps(t, es, x + 1, y, m);
  }

  lemma MembersAfter(t: seq<Cluster>, es: seq<Event>, p: nat, x: nat, y: nat, m: NodeId, own: Room, room: Room)
    requires Run(t, es) && p < x < y < |t| && es[p].Command? && es[p].body == KickBody(own, room) && own != room
    requires m in t[p].members && Reads(t, es, x, m, |t[p].log|) && OnlyKicks(t, es, p, y, m)
    ensures m in t[y].members && MembersOn(t[y], m, room) == MembersOn(t[p], m, room) - MembersOn(t[p], m, own)
  {
    ShardAfter(t, es, p, x, y, m);
    LeavesRoom(t[p].members[m].node.shard, own, room);
  }

  /** Another node's part of the fetch does not list who was to leave. */
  lemma OtherPartCounts(t: seq<Cluster>, es: seq<Event>, p: nat, i: nat, id: Id, m: NodeId, own: Room, room: Room,
                        part: Answer)
    requires Run(t, es) && p < i < |t| && p < |es| && es[p].Command? && es[p].body == KickBody(own, room) && own != room
    requires part.SocketArray? && m in t[p].members && OnlyKicks(t, es, p, i, m)
    requires TakenAfterDelete(t, es, p, i, id, m, Fetch(Opts({room}, {})), es[p].body, part)
    ensures Sids(part.sockets) == MembersOn(t[p], m, room) - MembersOn(t[p], m, own)
  {
    var x: nat, y: nat :|
      && p < x < y < i
      && DeletesAt(t, es, x, m, |t[p].log|, es[p].body)
      && SnapshotAt(t, es, y, m, id, Fetch(Opts({room}, {})), part)
      && ListsOnlyRejoined(t, x, y, m, es[p].body, part);
    MembersAfter(t, es, p, x, y, m, own, room);
    ListsMembers(t[y], m, room, part);
  }

  /** The caller's own part still does if the caller has not read its own command. */
  lemma OwnPartCounts(t: seq<Cluster>, es: seq<Event>, p: nat, a: nat, own: Room, room: Room)
    requires Run(t, es) && p < a < |es| && es[p].Command? && es[p].body == KickBody(own, room) && own != room
    requires es[a].Begin? && es[a].body == Fetch(Opts({room}, {})) && es[a].n in t[p].members
    requires OnlyKicks(t, es, p, a, es[a].n)
    ensures es[a].n in t[a].members && es[a].answer.SocketArray?
    ensures var n := es[a].n;
            Sids(es[a].answer.sockets) ==
              if t[a].members[n].seen <= |t[p].log| then MembersOn(t[p], n, room)
              else MembersOn(t[p], n, room) - MembersOn(t[p], n, own)
  {
    var n, del := es[a].n, |t[p].log|;
    RunAdds(t, es, p, a);
    assert Stepped(t, es, a);
    ListsMembers(t[a], n, room, es[a].answer);
    if t[a].members[n].seen <= del {
      IdleUntil(t, es, p, a, n, del);
      IdleKeeps(t, es, p, a, n);
    } else {
      var x := ConsumedBefore(t, es, a, n, del);
      LogReached(t, es, x, p);
      MembersAfter(t, es, p, x, a, n, own, room);
    }
  }

  // ----- The whole answer -----

  lemma SidsOfItems(answer: Answer, own: Answer, parts: map<NodeId, Answer>, s: Sid)
    requires answer.SocketArray? && own.SocketArray? && forall m | m in parts :: parts[m].SocketArray?
    requires Items(answer) == Items(own) + AllItems(parts)
    ensures s in Sids(answer.sockets) <==> s in Sids(own.sockets) || exists m :: m in parts && s in Sids(parts[m].sockets)
  {
    if x :| x in answer.sockets && x.sid == s {
      assert SocketItem(x) in Items(answer);
      if SocketItem(x) in AllItems(parts) {
        var m :| m in parts && SocketItem(x) in Items(parts[m]);
        assert s in Sids(parts[m].sockets);
      }
    }
    if x :| x in own.sockets && x.sid == s { assert SocketItem(x) in Items(answer); }
    if m :| m in parts && s in Sids(parts[m].sockets) {
      var x :| x in parts[m].sockets && x.sid == s;
      assert SocketItem(x) in Items(parts[m]);
      assert SocketItem(x) in Items(answer);
    }
  }

  lemma BeginCalls(t: seq<Cluster>, es: seq<Event>, a: nat)
    requires Run(t, es) && a < |es| && es[a].Begin?
    ensures es[a].id !in t[a].calls && es[a].n in t[a].members
    ensures es[a].id in t[a + 1].calls && t[a + 1].calls[es[a].id] == Call(es[a].n, es[a].body, es[a].answer)
  {
    assert Stepped(t, es, a);
    MailAlways(t, es, a);
    assert CallsOk(t[a]);
  }

  /** An id begins once. */
  lemma OneBegin(t: seq<Cluster>, es: seq<Event>, a: nat, b: nat)
    requires Run(t, es) && a < |es| && b < |es| && es[a].Begin? && es[b].Begin? && es[a].id == es[b].id
    ensures a == b
  {
    BeginCalls(t, es, a);
    BeginCalls(t, es, b);
    if a < b { RunAdds(t, es, a + 1, b); } else if b < a { RunAdds(t, es, b + 1, a); }
  }

  /** The target is the only socket in its own room, and it is in the room it is kicked from. */
  ghost predicate IsTarget(c: Cluster, target: Sid, own: Room, room: Room) {
    && target.home in c.members && target in MembersOn(c, target.home, room)
    && forall m | m in c.members :: MembersOn(c, m, own) == if m == target.home then {target} else {}
  }

  /** Up to state `i` every node's sockets moved by the reading of the kick's command only. */
  ghost predicate QuietBut(t: seq<Cluster>, es: seq<Event>, p: nat, i: nat) {
    p < |t| && forall m | m in t[p].members :: OnlyKicks(t, es, p, i, m)
  }

  lemma OnlyKicksUntil(t: seq<Cluster>, es: seq<Event>, p: nat, i: nat, y: nat, m: NodeId)
    requires QuietBut(t, es, p, i) && m in t[p].members && y <= i
    ensures OnlyKicks(t, es, p, y, m)
  {
    assert OnlyKicks(t, es, p, i, m);
  }

  lemma HomeOnly(c: Cluster, target: Sid, room: Room, m: NodeId)
    requires MembersOk(c) && m in c.members && m != target.home
    ensures target !in MembersOn(c, m, room)
  {
  }

  /** Another node's part lists the room's sockets there, without the target. */
  lemma OtherPartIs(t: seq<Cluster>, es: seq<Event>, p: nat, i: nat, id: Id, m: NodeId, target: Sid, own: Room,
                    room: Room, part: Answer)
    requires Run(t, es) && p < i < |t| && p < |es| && es[p].Command? && es[p].body == KickBody(own, room) && own != room
    requires QuietBut(t, es, p, i) && IsTarget(t[p], target, own, room) && m in t[p].members && part.SocketArray?
    requires TakenAfterDelete(t, es, p, i, id, m, Fetch(Opts({room}, {})), es[p].body, part)
    ensures Sids(part.sockets) == MembersOn(t[p], m, room) - {target}
  {
    MailAlways(t, es, p);
    OnlyKicksUntil(t, es, p, i, i, m);
    OtherPartCounts(t, es, p, i, id, m, own, room, part);
    if m != target.home { HomeOnly(t[p], target, room, m); }
  }

  /** The caller is late: it had not read its own command when the fetch began, and the target is its own. */
  ghost predicate Late(t: seq<Cluster>, es: seq<Event>, p: nat, a: nat, target: Sid)
    requires p < |t| && a < |t| && a < |es| && es[a].Begin?
  {
    target.home == es[a].n && es[a].n in t[a].members && t[a].members[es[a].n].seen <= |t[p].log|
  }

  /** The caller's part too, unless it is late. */
  lemma OwnPartIs(t: seq<Cluster>, es: seq<Event>, p: nat, a: nat, target: Sid, own: Room, room: Room)
    requires Run(t, es) && p < a < |es| && es[p].Command? && es[p].body == KickBody(own, room) && own != room
    requires es[a].Begin? && es[a].body == Fetch(Opts({room}, {})) && es[a].n in t[p].members
    requires OnlyKicks(t, es, p, a, es[a].n) && IsTarget(t[p], target, own, room)
    ensures es[a].n in t[a].members && es[a].answer.SocketArray?
    ensures Sids(es[a].answer.sockets) ==
              MembersOn(t[p], es[a].n, room) - if Late(t, es, p, a, target) then {} else {target}
  {
    MailAlways(t, es, p);
    OwnPartCounts(t, es, p, a, own, room);
    if es[a].n != target.home { HomeOnly(t[p], target, room, es[a].n); }
  }

  lemma AnswerSids(c: Cluster, n: NodeId, room: Room, target: Sid, late: bool, answer: Answer, own: Answer,
                   parts: map<NodeId, Answer>)
    requires n in c.members && parts.Keys == c.members.Keys - {n}
    requires answer.SocketArray? && own.SocketArray? && forall m | m in parts :: parts[m].SocketArray?
    requires Items(answer) == Items(own) + AllItems(parts)
    requires forall m | m in parts :: Sids(parts[m].sockets) == MembersOn(c, m, room) - {target}
    requires Sids(own.sockets) == MembersOn(c, n, room) - if late then {} else {target}
    requires late ==> target in MembersOn(c, n, room)
    ensures Sids(answer.sockets) == MembersIn(c, room) - if late then {} else {target}
  {
    forall s ensures s in Sids(answer.sockets) <==> s in MembersIn(c, room) - if late then {} else {target} {
      SidsOfItems(answer, own, parts, s);
      if s in MembersIn(c, room) {
        var m :| m in c.members && s in MembersOn(c, m, room);
        assert m == n || m in parts;
      }
      if m :| m in parts && s in Sids(parts[m].sockets) { assert s in MembersOn(c, m, room); }
    }
  }

  lemma RemoveOne(all: set<Sid>, target: Sid)
    requires target in all
    ensures |all - {target}| == |all| - 1
  {
    assert all == (all - {target}) + {target};
  }

  lemma BegunCall(t: seq<Cluster>, es: seq<Event>, a: nat, q: nat)
    requires Run(t, es) && a < q < |es| && es[a].Begin?
    ensures es[a].id in t[q].calls && t[q].calls[es[a].id] == Call(es[a].n, es[a].body, es[a].answer)
  {
    BeginCalls(t, es, a);
    RunAdds(t, es, a + 1, q);
  }

  /** Issued at step `q`, a call settles later, and is still the one that began at step `a`. */
  lemma SettledCall(t: seq<Cluster>, es: seq<Event>, a: nat, i: nat, b: nat, parts: map<NodeId, Answer>, answer: Answer)
    requires Run(t, es) && a < |es| && es[a].Begin? && i < |t|
    requires GatherIsComplete(t, es, i, es[a].id, answer, b, parts)
    ensures a == b && t[i].calls[es[a].id] == Call(es[a].n, es[a].body, es[a].answer)
  {
    OneBegin(t, es, a, b);
  }

  /** The parts of the resolved fetch, taken as DeleteThenFetch says. */
  lemma KickParts(t: seq<Cluster>, es: seq<Event>, p: nat, a: nat, q: nat, i: nat, s: nat, own: Room, room: Room)
    returns (parts: map<NodeId, Answer>)
    requires Run(t, es) && p < a < q < |es| && i < |t| && s < |t[i].settled| && t[i].settled[s].result.Gathered?
    requires es[p].Command? && es[p].body == KickBody(own, room)
    requires es[a].Begin? && es[a].body == Fetch(Opts({room}, {}))
    requires es[q] == Issue(es[a].id) && t[i].settled[s].id == es[a].id
    ensures GatherIsComplete(t, es, i, es[a].id, t[i].settled[s].result.answer, a, parts)
    ensures t[i].calls[es[a].id] == Call(es[a].n, es[a].body, es[a].answer)
    ensures forall m | m in parts ::
              parts[m].SocketArray? && TakenAfterDelete(t, es, p, i, es[a].id, m, es[a].body, es[p].body, parts[m])
  {
    BegunCall(t, es, a, q);
    var b;
    b, parts := DeleteThenFetch(t, es, p, q, i, s);
    SettledCall(t, es, a, i, b, parts, t[i].settled[s].result.answer);
  }

  /**
   When the count a kick stores is right, over every run. A node publishes the kick's command
   at step `p`, begins the fetch of the room at step `a` and issues it at step `q`, the fetch
   has resolved by state `i`, and in between nothing moved a socket but the reading of the
   command. Then the fetch lists the members without the target, or one too many if and only
   if the target is on the caller's node and the caller had not read its own command when the
   fetch began.
   */
  lemma KickCountIff(t: seq<Cluster>, es: seq<Event>, p: nat, a: nat, q: nat, i: nat, s: nat,
                     target: Sid, own: Room, room: Room)
    requires Run(t, es) && p < a < q < |es| && i < |t| && s < |t[i].settled| && t[i].settled[s].result.Gathered?
    requires es[p].Command? && es[p].body == KickBody(own, room) && own != room
    requires es[a].Begin? && es[a].body == Fetch(Opts({room}, {}))
    requires es[q] == Issue(es[a].id) && t[i].settled[s].id == es[a].id
    requires QuietBut(t, es, p, i) && IsTarget(t[p], target, own, room)
    ensures t[i].settled[s].result.answer.SocketArray?
    ensures |t[i].settled[s].result.answer.sockets| ==
              |MembersIn(t[p], room) - {target}| + if Late(t, es, p, a, target) then 1 else 0
  {
    var answer := t[i].settled[s].result.answer;
    var parts := KickParts(t, es, p, a, q, i, s, own, room);
    RunAdds(t, es, p, i);
    BeginCalls(t, es, a);
    RunAdds(t, es, p, a);
    OnlyKicksUntil(t, es, p, i, a, es[a].n);
    OwnPartIs(t, es, p, a, target, own, room);
    forall m | m in parts ensures Sids(parts[m].sockets) == MembersOn(t[p], m, room) - {target} {
      OtherPartIs(t, es, p, i, es[a].id, m, target, own, room, parts[m]);
    }
    AnswerSids(t[p], es[a].n, room, target, Late(t, es, p, a, target), answer, es[a].answer, parts);
    CountIsSids(answer.sockets);
    RemoveOne(MembersIn(t[p], room), target);
  }
}
