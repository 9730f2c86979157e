/**
 Which sockets a broadcast with acknowledgements is written to, and how often.

 The origin writes to its own sockets in the step of the call, every other node in the step
 in which it reads the request. The origin reads its own copy too. It tells it by the entry in
 `ackRequests`, which a timer removes, and a copy read after that it treats like anyone's.
 */
module BroadcastWrites {
  import opened Option
  import opened RoomNames
  import opened Shards
  import opened AdapterNode
  import opened Cluster
  import opened ClusterInvariants
  import opened ClusterLedger
  import opened ClusterMail
  import opened Gathers
  import opened ClusterTheorems

  // ----- One step -----

  /** The call: a node broadcasts `id`, and the options pick `sid` there. */
  ghost predicate WrittenByCall(c: Cluster, e: Event, id: Id, sid: Sid) {
    e.Broadcast? && e.id == id && e.n in c.members && sid in Selected(c.members[e.n].node.shard, e.opts)
  }

  /** A node reads the request of broadcast `id` and has no entry for it. */
  ghost predicate Handles(c: Cluster, e: Event, id: Id) {
    && e.Consume? && e.n in c.members && c.members[e.n].seen < |c.log|
    && c.log[c.members[e.n].seen].id == Some(id) && c.log[c.members[e.n].seen].body.BroadcastWithAck?
    && id !in c.members[e.n].node.ackRequests
  }

  ghost predicate WrittenByRead(c: Cluster, e: Event, id: Id, sid: Sid) {
    Handles(c, e, id) && sid in Selected(c.members[e.n].node.shard, c.log[c.members[e.n].seen].body.opts)
  }

  lemma SendMember(sends: multiset<(Id, Sid)>, id: Id, targets: set<Sid>, p: (Id, Sid))
    ensures Send(sends, id, targets)[p] == sends[p] + if p.0 == id && p.1 in targets then 1 else 0
  {
    var sent := set s | s in targets :: (id, s);
    assert p in sent <==> p.0 == id && p.1 in targets;
  }

  lemma WhoIsSent(uid: NodeId, node: Node, message: Message, answer: Answer)
    ensures OnRequest(uid, node, message, answer).sent ==
              if message.body.BroadcastWithAck? && message.id.Some? && message.id.value !in node.ackRequests
              then Selected(node.shard, message.body.opts) else {}
  {
  }

  lemma ConsumeSends(c: Cluster, n: NodeId, answer: Answer, id: Id, sid: Sid)
    requires Mail(c) && Enabled(c, Consume(n, answer))
    ensures Next(c, Consume(n, answer)).sends[(id, sid)] ==
              c.sends[(id, sid)] + if WrittenByRead(c, Consume(n, answer), id, sid) then 1 else 0
  {
    var message := c.log[c.members[n].seen];
    ConsumeSummary(c, n, answer);
    WhoIsSent(n, c.members[n].node, message, answer);
    if message.id.Some? {
      SendMember(c.sends, message.id.value, OnRequest(n, c.members[n].node, message, answer).sent, (id, sid));
    }
  }

  /**
   When the origin's own copy writes. At the step where the origin reads its own broadcast, the
   packet is written to a socket if and only if the entry in `ackRequests` is already gone and
   the options pick the socket.
   */
  lemma OwnCopySendsIff(c: Cluster, n: NodeId, answer: Answer, sid: Sid)
    requires Mail(c) && Enabled(c, Consume(n, answer))
    requires var message := c.log[c.members[n].seen]; message.uid == n && message.body.BroadcastWithAck?
    ensures var message := c.log[c.members[n].seen];
            && message.id.Some?
            && var id := message.id.value;
               Next(c, Consume(n, answer)).sends[(id, sid)] > c.sends[(id, sid)] <==>
                 id !in c.members[n].node.ackRequests &&
                 sid in Selected(c.members[n].node.shard, message.body.opts)
  {
    ConsumeSends(c, n, answer, c.log[c.members[n].seen].id.value, sid);
  }

  lemma BroadcastSends(c: Cluster, n: NodeId, x: Id, opts: Opts, id: Id, sid: Sid)
    requires Enabled(c, Broadcast(n, x, opts))
    ensures Next(c, Broadcast(n, x, opts)).sends[(id, sid)] ==
              c.sends[(id, sid)] + if WrittenByCall(c, Broadcast(n, x, opts), id, sid) then 1 else 0
  {
    BroadcastSummary(c, n, x, opts);
    SendMember(c.sends, x, Selected(c.members[n].node.shard, opts), (id, sid));
  }

  lemma CallSends(c: Cluster, e: Event)
    requires IsCall(e) && Enabled(c, e)
    ensures Next(c, e).sends == c.sends && Next(c, e).ackCalls == c.ackCalls
  {
  }

  lemma NothingSent(c: Cluster, e: Event)
    requires Enabled(c, e) && !e.Consume? && !e.Broadcast?
    ensures Next(c, e).sends == c.sends
  {
    if IsCall(e) { CallSends(c, e); }
  }

  /** A step writes the packet to a socket at most once, and exactly in these two cases. */
  lemma StepSends(c: Cluster, e: Event, id: Id, sid: Sid)
    requires Mail(c) && Enabled(c, e)
    ensures Next(c, e).sends[(id, sid)] ==
              c.sends[(id, sid)] + if WrittenByCall(c, e, id, sid) || WrittenByRead(c, e, id, sid) then 1 else 0
  {
    if e.Consume? { ConsumeSends(c, e.n, e.answer, id, sid); }
    else if e.Broadcast? { BroadcastSends(c, e.n, e.id, e.opts, id, sid); }
    else { NothingSent(c, e); }
  }

  // ----- A run -----

  /** The call at step `a` writes the packet to `sid`. */
  ghost predicate CallAt(t: seq<Cluster>, es: seq<Event>, a: nat, id: Id, sid: Sid) {
    a < |es| && a < |t| && WrittenByCall(t[a], es[a], id, sid)
  }

  /** The reading at step `b` writes the packet to `sid`. */
  ghost predicate ReadAt(t: seq<Cluster>, es: seq<Event>, b: nat, id: Id, sid: Sid) {
    b < |es| && b < |t| && WrittenByRead(t[b], es[b], id, sid)
  }

  ghost predicate CalledBefore(t: seq<Cluster>, es: seq<Event>, i: nat, id: Id, sid: Sid) {
    exists a: nat :: a < i && CallAt(t, es, a, id, sid)
  }

  ghost predicate ReadBefore(t: seq<Cluster>, es: seq<Event>, i: nat, id: Id, sid: Sid) {
    exists b: nat :: b < i && ReadAt(t, es, b, id, sid)
  }

  /** A call is the first anyone hears of its id, and publishes its request. */
  lemma CallPublishes(t: seq<Cluster>, es: seq<Event>, a: nat)
    requires Run(t, es) && a < |es| && es[a].Broadcast?
    ensures Shape(t[a]) && Shape(t[a + 1]) && es[a].id !in t[a].issued && es[a].id in t[a + 1].issued
    ensures es[a].n in t[a].members
    ensures Req(t[a + 1], es[a].id) == Message(es[a].n, Some(es[a].id), BroadcastWithAck(es[a].opts))
  {
    MailAlways(t, es, a);
    MailAlways(t, es, a + 1);
    assert Stepped(t, es, a);
    BroadcastSummary(t[a], es[a].n, es[a].id, es[a].opts);
  }

  lemma CallIsRequest(t: seq<Cluster>, es: seq<Event>, a: nat, i: nat)
    requires Run(t, es) && a < i < |t| && a < |es| && es[a].Broadcast?
    ensures Shape(t[i]) && es[a].id in t[i].issued
    ensures Req(t[i], es[a].id) == Message(es[a].n, Some(es[a].id), BroadcastWithAck(es[a].opts))
  {
    CallPublishes(t, es, a);
    MailAlways(t, es, i);
    RunAdds(t, es, a + 1, i);
    ReqStays(t[a + 1], t[i], es[a].id);
  }

  /** An id is drawn once. */
  lemma OneCall(t: seq<Cluster>, es: seq<Event>, a: nat, b: nat)
    requires Run(t, es) && a < |es| && b < |es| && es[a].Broadcast? && es[b].Broadcast? && es[a].id == es[b].id
    ensures a == b
  {
    CallPublishes(t, es, a);
    CallPublishes(t, es, b);
    if a < b { CallIsRequest(t, es, a, b); } else if b < a { CallIsRequest(t, es, b, a); }
  }

  /** Whoever writes to a socket is its node; a reading node reads the place of the request. */
  lemma ReadByHome(t: seq<Cluster>, es: seq<Event>, b: nat, id: Id, sid: Sid)
    requires Run(t, es) && ReadAt(t, es, b, id, sid)
    ensures es[b].n == sid.home && Shape(t[b]) && id in t[b].issued && Reads(t, es, b, sid.home, t[b].issued[id])
  {
    MailAlways(t, es, b);
    assert LogOk(t[b]);
  }

  lemma CallByHome(t: seq<Cluster>, es: seq<Event>, a: nat, id: Id, sid: Sid)
    requires Run(t, es) && CallAt(t, es, a, id, sid)
    ensures es[a].n == sid.home
  {
    MailAlways(t, es, a);
  }

  lemma NotReadAgain(t: seq<Cluster>, es: seq<Event>, a: nat, b: nat, id: Id, sid: Sid)
    requires Run(t, es) && a < b && ReadAt(t, es, a, id, sid)
    ensures !ReadAt(t, es, b, id, sid)
  {
    if ReadAt(t, es, b, id, sid) {
      ReadByHome(t, es, a, id, sid);
      ReadByHome(t, es, b, id, sid);
      RunAdds(t, es, a, b);
      ReadIsPast(t, es, a, sid.home, t[a].issued[id], b);
    }
  }

  /** A socket's own node reads the request only after the call. */
  lemma CallBeforeRead(t: seq<Cluster>, es: seq<Event>, a: nat, b: nat, id: Id, sid: Sid)
    requires Run(t, es) && CallAt(t, es, a, id, sid) && ReadAt(t, es, b, id, sid)
    ensures a < b
  {
    CallPublishes(t, es, a);
    ReadByHome(t, es, b, id, sid);
    if b <= a { RunAdds(t, es, b, a); }
  }

  lemma CalledMore(t: seq<Cluster>, es: seq<Event>, j: nat, id: Id, sid: Sid)
    requires Run(t, es) && j < |es|
    ensures CalledBefore(t, es, j + 1, id, sid) <==> CalledBefore(t, es, j, id, sid) || CallAt(t, es, j, id, sid)
    ensures !(CalledBefore(t, es, j, id, sid) && CallAt(t, es, j, id, sid))
  {
    if a: nat :| a < j && CallAt(t, es, a, id, sid) {
      if CallAt(t, es, j, id, sid) { OneCall(t, es, a, j); }
    }
  }

  lemma ReadMore(t: seq<Cluster>, es: seq<Event>, j: nat, id: Id, sid: Sid)
    requires Run(t, es) && j < |es|
    ensures ReadBefore(t, es, j + 1, id, sid) <==> ReadBefore(t, es, j, id, sid) || ReadAt(t, es, j, id, sid)
    ensures !(ReadBefore(t, es, j, id, sid) && ReadAt(t, es, j, id, sid))
  {
    if b: nat :| b < j && ReadAt(t, es, b, id, sid) { NotReadAgain(t, es, b, j, id, sid); }
  }

  /**
   How often, in every run: once for a call that picked the socket and once for a reading that
   did, neither of which happens twice.
   */
  lemma {:induction false} TimesWritten(t: seq<Cluster>, es: seq<Event>, i: nat, id: Id, sid: Sid)
    requires Run(t, es) && i < |t|
    ensures t[i].sends[(id, sid)] ==
              (if CalledBefore(t, es, i, id, sid) then 1 else 0) + (if ReadBefore(t, es, i, id, sid) then 1 else 0)
  {
    if i > 0 {
      var j := i - 1;
      TimesWritten(t, es, j, id, sid);
      MailAlways(t, es, j);
      assert Stepped(t, es, j);
      StepSends(t[j], es[j], id, sid);
      CalledMore(t, es, j, id, sid);
      ReadMore(t, es, j, id, sid);
    }
  }

  // ----- Once or twice -----

  /**
   The call at step `a` wrote the packet to `sid`, and at step `b` the node that called reads
   its own copy, when its entry is gone and the options pick `sid` once more.
   */
  ghost predicate LateOwnCopy(t: seq<Cluster>, es: seq<Event>, a: nat, b: nat, id: Id, sid: Sid) {
    a < b && CallAt(t, es, a, id, sid) && ReadAt(t, es, b, id, sid) && es[b].n == es[a].n
  }

  /** Exactly when a socket is sent a packet no more than once, over every run. */
  lemma PacketSentOnceIff(t: seq<Cluster>, es: seq<Event>, i: nat, id: Id, sid: Sid)
    requires Run(t, es) && i < |t|
    ensures t[i].sends[(id, sid)] <= 1 <==>
              !exists a: nat, b: nat :: b < i && LateOwnCopy(t, es, a, b, id, sid)
    ensures t[i].sends[(id, sid)] <= 2
  {
    TimesWritten(t, es, i, id, sid);
    if CalledBefore(t, es, i, id, sid) && ReadBefore(t, es, i, id, sid) {
      var a: nat :| a < i && CallAt(t, es, a, id, sid);
      var b: nat :| b < i && ReadAt(t, es, b, id, sid);
      CallBeforeRead(t, es, a, b, id, sid);
      CallByHome(t, es, a, id, sid);
      ReadByHome(t, es, b, id, sid);
      assert LateOwnCopy(t, es, a, b, id, sid);
    }
  }

  lemma NotCalledElsewhere(t: seq<Cluster>, es: seq<Event>, i: nat, id: Id, sid: Sid)
    requires Run(t, es) && i < |t| && Shape(t[i]) && id in t[i].issued && sid.home != Req(t[i], id).uid
    ensures !CalledBefore(t, es, i, id, sid)
  {
    if a: nat :| a < i && CallAt(t, es, a, id, sid) {
      CallIsRequest(t, es, a, i);
      CallByHome(t, es, a, id, sid);
    }
  }

  /** A socket on any node but the origin is never sent a packet twice. */
  lemma ElsewhereSentOnce(t: seq<Cluster>, es: seq<Event>, i: nat, id: Id, sid: Sid)
    requires Run(t, es) && i < |t| && Shape(t[i]) && id in t[i].issued && sid.home != Req(t[i], id).uid
    ensures t[i].sends[(id, sid)] <= 1
  {
    TimesWritten(t, es, i, id, sid);
    NotCalledElsewhere(t, es, i, id, sid);
  }

  // ----- Who the targets are -----

  /** The sockets of node `m` that were sent the packet. */
  ghost function Targets(c: Cluster, id: Id, m: NodeId): set<Sid> {
    set p | p in c.sends && p.0 == id && p.1.home == m :: p.1
  }

  /** All sockets that were sent the packet. */
  ghost function AllTargets(c: Cluster, id: Id): set<Sid> {
    set p | p in c.sends && p.0 == id :: p.1
  }

  lemma IsTarget(c: Cluster, id: Id, m: NodeId, sid: Sid)
    ensures sid in Targets(c, id, m) <==> sid.home == m && c.sends[(id, sid)] > 0
    ensures sid in AllTargets(c, id) <==> c.sends[(id, sid)] > 0
  {
    if c.sends[(id, sid)] > 0 { assert (id, sid) in c.sends; }
  }

  /** A target is a socket some node of the cluster was holding. */
  lemma TargetLives(t: seq<Cluster>, es: seq<Event>, i: nat, id: Id, sid: Sid)
    requires Run(t, es) && i < |t| && sid in AllTargets(t[i], id)
    ensures sid.home in t[i].members
  {
    IsTarget(t[i], id, sid.home, sid);
    TimesWritten(t, es, i, id, sid);
    if a: nat :| a < i && CallAt(t, es, a, id, sid) {
      CallByHome(t, es, a, id, sid);
      RunAdds(t, es, a, i);
    } else {
      var b: nat :| b < i && ReadAt(t, es, b, id, sid);
      ReadByHome(t, es, b, id, sid);
      RunAdds(t, es, b, i);
    }
  }

  lemma AckIsMine(c: Cluster, n: NodeId, id: Id)
    requires Mail(c) && n in c.members && id in c.members[n].node.ackRequests
    ensures id in c.issued && Req(c, id).uid == n
  {
    assert AckOk(c, n, id);
  }

  /** At the step where a node reads a request, it is already issued. */
  lemma RequestRead(t: seq<Cluster>, es: seq<Event>, b: nat, i: nat, id: Id, m: NodeId)
    requires Run(t, es) && b < i < |t| && Shape(t[i]) && id in t[i].issued && Reads(t, es, b, m, t[i].issued[id])
    ensures Shape(t[b]) && id in t[b].issued && t[b].issued[id] == t[i].issued[id] && Req(t[b], id) == Req(t[i], id)
  {
    MailAlways(t, es, b);
    RunAdds(t, es, b, i);
    assert t[b].log[t[i].issued[id]] == t[i].log[t[i].issued[id]];
    ReqStays(t[b], t[i], id);
  }

  lemma ReadTwice(t: seq<Cluster>, es: seq<Event>, a: nat, b: nat, m: NodeId, k: nat)
    requires Run(t, es) && Reads(t, es, a, m, k) && Reads(t, es, b, m, k)
    ensures a == b
  {
    if a < b { ReadIsPast(t, es, a, m, k, b); } else if b < a { ReadIsPast(t, es, b, m, k, a); }
  }

  /** Of the readings up to step `i`, only the one at `b` is this node's reading of this request. */
  lemma ReadBeforeIs(t: seq<Cluster>, es: seq<Event>, b: nat, i: nat, id: Id, sid: Sid)
    requires Run(t, es) && b < i < |t| && Shape(t[i]) && id in t[i].issued
    requires Reads(t, es, b, sid.home, t[i].issued[id])
    ensures ReadBefore(t, es, i, id, sid) <==> ReadAt(t, es, b, id, sid)
  {
    if a: nat :| a < i && ReadAt(t, es, a, id, sid) {
      ReadByHome(t, es, a, id, sid);
      RunAdds(t, es, a, i);
      ReadTwice(t, es, a, b, sid.home, t[i].issued[id]);
    }
  }

  /** The packet of broadcast `id` has been written by node `m` to exactly what `opts` picked at step `b`. */
  ghost predicate WroteAt(t: seq<Cluster>, b: nat, i: nat, id: Id, m: NodeId, opts: Opts) {
    b < i < |t| && m in t[b].members && Targets(t[i], id, m) == Selected(t[b].members[m].node.shard, opts)
  }

  lemma TargetsSince(t: seq<Cluster>, es: seq<Event>, b: nat, i: nat, id: Id, m: NodeId)
    requires Run(t, es) && b < i < |t| && Shape(t[i])
    requires id in t[i].issued && Req(t[i], id).body.BroadcastWithAck? && m != Req(t[i], id).uid
    requires Reads(t, es, b, m, t[i].issued[id])
    ensures WroteAt(t, b, i, id, m, Req(t[i], id).body.opts)
  {
    MailAlways(t, es, b);
    RequestRead(t, es, b, i, id, m);
    if id in t[b].members[m].node.ackRequests { AckIsMine(t[b], m, id); }
    var picked := Selected(t[b].members[m].node.shard, Req(t[i], id).body.opts);
    forall sid ensures sid in Targets(t[i], id, m) <==> sid in picked {
      IsTarget(t[i], id, m, sid);
      if sid.home == m {
        TimesWritten(t, es, i, id, sid);
        NotCalledElsewhere(t, es, i, id, sid);
        ReadBeforeIs(t, es, b, i, id, sid);
      }
    }
  }

  /**
   Who gets the packet on another node: once it has read the request, exactly the sockets the
   options picked there at the step `b` at which it read it.
   */
  lemma TargetsAreSelected(t: seq<Cluster>, es: seq<Event>, i: nat, id: Id, m: NodeId) returns (b: nat)
    requires Run(t, es) && i < |t| && Shape(t[i])
    requires id in t[i].issued && Req(t[i], id).body.BroadcastWithAck? && m in t[i].members
    requires m != Req(t[i], id).uid && t[i].members[m].seen > t[i].issued[id]
    ensures Reads(t, es, b, m, t[i].issued[id]) && WroteAt(t, b, i, id, m, Req(t[i], id).body.opts)
  {
    b := ConsumedBefore(t, es, i, m, t[i].issued[id]);
    TargetsSince(t, es, b, i, id, m);
  }

  /** Before it has read the request, nobody there. */
  lemma NoTargetsYet(t: seq<Cluster>, es: seq<Event>, i: nat, id: Id, m: NodeId)
    requires Run(t, es) && i < |t| && Shape(t[i]) && id in t[i].issued && m in t[i].members
    requires m != Req(t[i], id).uid && t[i].members[m].seen <= t[i].issued[id]
    ensures Targets(t[i], id, m) == {}
  {
    forall sid ensures sid !in Targets(t[i], id, m) {
      IsTarget(t[i], id, m, sid);
      if sid.home == m {
        TimesWritten(t, es, i, id, sid);
        NotCalledElsewhere(t, es, i, id, sid);
        if b: nat :| b < i && ReadAt(t, es, b, id, sid) {
          ReadByHome(t, es, b, id, sid);
          ReadIsPast(t, es, b, m, t[b].issued[id], i);
          RunAdds(t, es, b, i);
        }
      }
    }
  }

  lemma CalledBeforeIs(t: seq<Cluster>, es: seq<Event>, a: nat, i: nat, id: Id, sid: Sid)
    requires Run(t, es) && a < i < |t| && a < |es| && es[a].Broadcast? && es[a].id == id && es[a].n in t[a].members
    ensures CalledBefore(t, es, i, id, sid) <==> sid in Selected(t[a].members[es[a].n].node.shard, es[a].opts)
    ensures CalledBefore(t, es, i, id, sid) ==> sid.home == es[a].n
  {
    if sid in Selected(t[a].members[es[a].n].node.shard, es[a].opts) { assert CallAt(t, es, a, id, sid); }
    if b: nat :| b < i && CallAt(t, es, b, id, sid) {
      OneCall(t, es, a, b);
      CallByHome(t, es, a, id, sid);
    }
  }

  /**
   Who gets it on the origin: exactly the sockets the options picked there at the call itself,
   step `a`, and those a late own copy picked.
   */
  lemma OriginTargets(t: seq<Cluster>, es: seq<Event>, i: nat, id: Id) returns (a: nat)
    requires Run(t, es) && i < |t| && Shape(t[i])
    requires id in t[i].issued && Req(t[i], id).body.BroadcastWithAck?
    ensures var request := Req(t[i], id);
            && a < i && es[a] == Broadcast(request.uid, id, request.body.opts) && request.uid in t[a].members
            && forall sid :: sid in Targets(t[i], id, request.uid) <==>
                 sid in Selected(t[a].members[request.uid].node.shard, request.body.opts) ||
                 (sid.home == request.uid && ReadBefore(t, es, i, id, sid))
  {
    var request := Req(t[i], id);
    a := IssuedAt(t, es, i, id);
    CallPublishes(t, es, a);
    forall sid ensures sid in Targets(t[i], id, request.uid) <==>
                         sid in Selected(t[a].members[request.uid].node.shard, request.body.opts) ||
                         (sid.home == request.uid && ReadBefore(t, es, i, id, sid))
    {
      IsTarget(t[i], id, request.uid, sid);
      TimesWritten(t, es, i, id, sid);
      CalledBeforeIs(t, es, a, i, id, sid);
    }
  }

  // ----- A run in which it is sent twice -----

  /** A lone node with one socket, before and after it broadcasts, and after its timer. */
  ghost function Alone(sid: Sid): Cluster {
    Cluster(map[sid.home := Member(Node(map[sid := {}], map[], {}, {}, {}), 0)],
            {}, [], map[], {}, map[], [], {}, [], multiset{}, [])
  }

  ghost function AloneWaiting(sid: Sid, waiting: bool): Cluster {
    var node := Node(map[sid := {}], map[], if waiting then {0} else {}, {}, {Owed(0, sid, true)});
    Cluster(map[sid.home := Member(node, 0)],
            {}, [Message(sid.home, Some(0), BroadcastWithAck(Opts({}, {})))], map[0 := 0], {0}, map[], [], {}, [],
            multiset{(0, sid)}, [CountCall(0, sid.home, 1)])
  }

  lemma AloneSelects(sid: Sid)
    ensures Selected(map[sid := {}], Opts({}, {})) == {sid}
    ensures (set s | s in {sid} :: Owed(0, s, true)) == {Owed(0, sid, true)}
    ensures Send(multiset{}, 0, {sid}) == multiset{(0, sid)}
    ensures Send(multiset{(0, sid)}, 0, {sid})[(0, sid)] == 2
  {
    assert (set s | s in {sid} :: (0, s)) == {(0, sid)};
    SendMember(multiset{(0, sid)}, 0, {sid}, (0, sid));
  }

  lemma AloneBroadcasts(sid: Sid)
    ensures Init(Alone(sid)) && Enabled(Alone(sid), Broadcast(sid.home, 0, Opts({}, {})))
    ensures Next(Alone(sid), Broadcast(sid.home, 0, Opts({}, {}))) == AloneWaiting(sid, true)
  {
    var d := Next(Alone(sid), Broadcast(sid.home, 0, Opts({}, {})));
    AloneSelects(sid);
    BroadcastSummary(Alone(sid), sid.home, 0, Opts({}, {}));
    assert d.members[sid.home] == AloneWaiting(sid, true).members[sid.home];
    assert d.members == AloneWaiting(sid, true).members;
  }

  lemma AloneTimesOut(sid: Sid)
    ensures Enabled(AloneWaiting(sid, true), AckTimeout(sid.home, 0))
    ensures Next(AloneWaiting(sid, true), AckTimeout(sid.home, 0)) == AloneWaiting(sid, false)
  {
    var d := Next(AloneWaiting(sid, true), AckTimeout(sid.home, 0));
    assert d.members[sid.home].node.ackRequests == {};
    assert d.members == AloneWaiting(sid, false).members;
  }

  lemma AloneRereads(sid: Sid)
    ensures Enabled(AloneWaiting(sid, false), Consume(sid.home, SidSet({})))
    ensures Next(AloneWaiting(sid, false), Consume(sid.home, SidSet({}))).sends[(0, sid)] == 2
  {
    var c := AloneWaiting(sid, false);
    AloneSelects(sid);
    assert OnRequest(sid.home, c.members[sid.home].node, c.log[0], SidSet({})).sent == {sid};
  }

  /** A late own copy sends the packet twice to every socket that is still picked: a run of a lone node. */
  lemma LateOwnCopyDuplicates(sid: Sid) returns (t: seq<Cluster>, es: seq<Event>)
    ensures Run(t, es) && |es| == 3 && t[3].sends[(0, sid)] == 2
  {
    AloneBroadcasts(sid);
    AloneTimesOut(sid);
    AloneRereads(sid);
    var broadcast, timeout := Broadcast(sid.home, 0, Opts({}, {})), AckTimeout(sid.home, 0);
    var reread := Consume(sid.home, SidSet({}));
    var end := Next(AloneWaiting(sid, false), reread);
    RunStarts(Alone(sid));
    RunGrows([Alone(sid)], [], broadcast, AloneWaiting(sid, true));
    RunGrows([Alone(sid)] + [AloneWaiting(sid, true)], [] + [broadcast], timeout, AloneWaiting(sid, false));
    t := [Alone(sid)] + [AloneWaiting(sid, true)] + [AloneWaiting(sid, false)];
    RunGrows(t, [] + [broadcast] + [timeout], reread, end);
    t, es := t + [end], [] + [broadcast] + [timeout] + [reread];
  }
}
