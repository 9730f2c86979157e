/**
 What waiting calls wait for. The other results of the cluster say that nothing wrong is ever
 returned; these say that the nodes do their part: whoever has read a request has answered it,
 and an unsettled call always waits for something that can still happen.
 */
module Progress {
  import opened Option
  import opened RoomNames
  import opened Shards
  import opened AdapterNode
  import opened Cluster
  import opened ClusterInvariants
  import opened ClusterLedger
  import opened ClusterMail
  import opened Gathers
  import opened ClusterTheorems
  import opened ClusterOutcomes

  // ----- Everyone who has read a request has done its part -----

  ghost predicate HasCounted(c: Cluster, id: Id, m: NodeId) {
    exists j :: 0 <= j < |c.sent| && c.sent[j].from == m &&
                c.sent[j].response.id == id && c.sent[j].response.payload.ClientCount?
  }

  /** Node `m` has the callback of emit `id` in its hands, not called yet. */
  ghost predicate HoldsCallback(c: Cluster, id: Id, m: NodeId) {
    m in c.members && id in c.members[m].node.callbacks
  }

  /** Node `m`, not the origin, has answered, counted, or handed the callback to its application. */
  ghost predicate DidItsPart(c: Cluster, id: Id, m: NodeId)
    requires IssuedOk(c) && id in c.issued
  {
    var body := Req(c, id).body;
    && (IsGather(body) ==> HasAnswered(c, id, m))
    && (body.ServerSideEmit? ==> HoldsCallback(c, id, m) || HasAnswered(c, id, m))
    && (body.BroadcastWithAck? ==> HasCounted(c, id, m))
  }

  ghost predicate HasRead(c: Cluster, id: Id, m: NodeId)
    requires id in c.issued
  {
    m in c.members && c.members[m].seen > c.issued[id]
  }

  ghost predicate Parts(c: Cluster)
    requires IssuedOk(c)
  {
    forall id, m | id in c.issued && HasRead(c, id, m) && m != Req(c, id).uid :: DidItsPart(c, id, m)
  }

  // ----- A step -----

  lemma RequestCallbacks(uid: NodeId, node: Node, message: Message, answer: Answer)
    ensures var after := OnRequest(uid, node, message, answer).node.callbacks;
            && node.callbacks <= after
            && (message.body.ServerSideEmit? && message.uid != uid && message.id.Some? ==> message.id.value in after)
  {
  }

  lemma CallKeepsCallbacks(c: Cluster, e: Event)
    requires Mail(c) && IsCall(e) && Enabled(c, e)
    ensures forall id, m | HoldsCallback(c, id, m) :: HoldsCallback(Next(c, e), id, m)
  {
    CallSummary(c, e);
  }

  lemma ConsumeKeepsCallbacks(c: Cluster, n: NodeId, answer: Answer)
    requires Mail(c) && Enabled(c, Consume(n, answer))
    ensures forall id, m | HoldsCallback(c, id, m) :: HoldsCallback(Next(c, Consume(n, answer)), id, m)
  {
    ConsumeTurn(c, n, answer);
    RequestCallbacks(n, c.members[n].node, c.log[c.members[n].seen], answer);
  }

  lemma RestKeepsCallbacks(c: Cluster, e: Event)
    requires Enabled(c, e) && (e.Local? || e.Begin? || e.Command? || e.SocketAck? || e.AckTimeout?)
    ensures forall id, m | HoldsCallback(c, id, m) :: HoldsCallback(Next(c, e), id, m)
  {
  }

  lemma CallbackAnswers(c: Cluster, n: NodeId, x: Id, data: int, id: Id, m: NodeId)
    requires Mail(c) && Enabled(c, Callback(n, x, data)) && HoldsCallback(c, id, m)
    ensures var d := Next(c, Callback(n, x, data)); HoldsCallback(d, id, m) || HasAnswered(d, id, m)
  {
    var d := Next(c, Callback(n, x, data));
    CallbackAdds(c, n, x, data);
    if n == m && x == id { assert d.sent[|c.sent|].response.id == id && d.sent[|c.sent|].from == m; }
  }

  /** A callback stays in hand until it is called, and the call publishes its answer. */
  lemma CallbackStays(c: Cluster, e: Event, id: Id, m: NodeId)
    requires Mail(c) && Enabled(c, e) && HoldsCallback(c, id, m)
    ensures HoldsCallback(Next(c, e), id, m) || HasAnswered(Next(c, e), id, m)
  {
    if IsCall(e) { CallKeepsCallbacks(c, e); }
    else if e.Consume? { ConsumeKeepsCallbacks(c, e.n, e.answer); }
    else if e.Callback? { CallbackAnswers(c, e.n, e.id, e.data, id, m); }
    else if e.Deliver? { DeliverTurn(c, e.n, e.j); }
    else if e.Timeout? { TimeoutTurn(c, e.n, e.id); }
    else if e.Broadcast? { BroadcastSummary(c, e.n, e.id, e.opts); }
    else { RestKeepsCallbacks(c, e); }
  }

  lemma CountedStays(c: Cluster, d: Cluster, id: Id, m: NodeId)
    requires c.sent <= d.sent && HasCounted(c, id, m)
    ensures HasCounted(d, id, m)
  {
    var j :| 0 <= j < |c.sent| && c.sent[j].from == m &&
             c.sent[j].response.id == id && c.sent[j].response.payload.ClientCount?;
    assert d.sent[j] == c.sent[j];
  }

  lemma PartStays(c: Cluster, e: Event, id: Id, m: NodeId)
    requires Mail(c) && Enabled(c, e) && Mail(Next(c, e)) && Extends(c, Next(c, e))
    requires id in c.issued && DidItsPart(c, id, m)
    ensures DidItsPart(Next(c, e), id, m)
  {
    ReqStays(c, Next(c, e), id);
    if HasAnswered(c, id, m) { AnsweredStays(c, Next(c, e), id, m); }
    if HasCounted(c, id, m) { CountedStays(c, Next(c, e), id, m); }
    if HoldsCallback(c, id, m) { CallbackStays(c, e, id, m); }
  }

  lemma NotTheOrigin(c: Cluster, m: NodeId, id: Id)
    requires Mail(c) && m in c.members && id in c.issued && Req(c, id).uid != m
    ensures id !in c.members[m].node.requests && id !in c.members[m].node.ackRequests
  {
  }

  /** The reply to the request just read. */
  lemma ReadDoesPart(c: Cluster, m: NodeId, answer: Answer, id: Id)
    requires Shape(c) && Enabled(c, Consume(m, answer)) && IssuedOk(Next(c, Consume(m, answer)))
    requires id in c.issued && c.issued[id] == c.members[m].seen && Req(c, id).uid != m
    requires id !in c.members[m].node.requests && id !in c.members[m].node.ackRequests
    ensures var d := Next(c, Consume(m, answer)); id in d.issued && DidItsPart(d, id, m)
  {
    var d := Next(c, Consume(m, answer));
    ConsumeTurn(c, m, answer);
    ConsumeSummary(c, m, answer);
    RequestCallbacks(m, c.members[m].node, c.log[c.members[m].seen], answer);
    assert Req(d, id) == Req(c, id) == c.log[c.members[m].seen];
    if IsGather(Req(c, id).body) || Req(c, id).body.BroadcastWithAck? {
      assert d.sent[|c.sent|].response.id == id && d.sent[|c.sent|].from == m;
    }
  }

  lemma PartKept(c: Cluster, e: Event, id: Id, m: NodeId)
    requires Mail(c) && Parts(c) && Enabled(c, e) && Mail(Next(c, e)) && Extends(c, Next(c, e))
    requires id in Next(c, e).issued && HasRead(Next(c, e), id, m) && m != Req(Next(c, e), id).uid
    ensures DidItsPart(Next(c, e), id, m)
  {
    SeenMoves(c, e, m);
    if id !in c.issued {
      IssuedBy(c, e, id);
    } else {
      ReqStays(c, Next(c, e), id);
      if HasRead(c, id, m) { PartStays(c, e, id, m); }
      else { NotTheOrigin(c, m, id); ReadDoesPart(c, m, e.answer, id); }
    }
  }

  lemma PartsKept(c: Cluster, e: Event)
    requires Mail(c) && Parts(c) && Enabled(c, e)
    ensures Mail(Next(c, e)) && Parts(Next(c, e))
  {
    MailKept(c, e);
    ExtendsKept(c, e);
    forall id, m | id in Next(c, e).issued && HasRead(Next(c, e), id, m) && m != Req(Next(c, e), id).uid
      ensures DidItsPart(Next(c, e), id, m)
    {
      PartKept(c, e, id, m);
    }
  }

  /**
   In every run, every node but the origin that has read a request has done its part: answered
   a gather, handed the callback of an emit to its application or passed on its answer, or
   counted the sockets of a broadcast.
   */
  lemma {:induction false} PartsAlways(t: seq<Cluster>, es: seq<Event>, i: nat)
    requires Run(t, es) && i < |t|
    ensures Mail(t[i]) && Parts(t[i])
  {
    if i == 0 {
      MailAtStart(t[0]);
    } else {
      PartsAlways(t, es, i - 1);
      assert Stepped(t, es, i - 1);
      PartsKept(t[i - 1], es[i - 1]);
    }
  }

  // ----- What an unsettled call waits for -----

  /** A response of node `m` for request `id` that the origin can receive now. */
  ghost predicate IsComing(c: Cluster, id: Id, m: NodeId)
    requires IssuedOk(c) && id in c.issued
  {
    exists j: nat :: j < |c.sent| && c.sent[j].response.id == id && c.sent[j].from == m &&
                     Enabled(c, Deliver(Req(c, id).uid, j))
  }

  /** Node `m` is not past the request, and can go on reading. */
  ghost predicate ReadsOn(c: Cluster, id: Id, m: NodeId)
    requires id in c.issued
  {
    m in c.members && c.members[m].seen <= c.issued[id] && exists answer :: Enabled(c, Consume(m, answer))
  }

  lemma {:induction false} ArrayOf(shard: Shard, sids: set<Sid>) returns (sockets: seq<SocketInfo>)
    requires sids <= shard.Keys
    ensures DistinctSids(sockets) && forall x :: x in sockets <==> x.sid in sids && x == SocketInfo(x.sid, shard[x.sid])
    decreases |sids|
  {
    if sids == {} {
      sockets := [];
    } else {
      var s :| s in sids;
      var rest := ArrayOf(shard, sids - {s});
      forall i | 0 <= i < |rest| ensures rest[i].sid != s { assert rest[i] in rest; }
      sockets := rest + [SocketInfo(s, shard[s])];
    }
  }

  /** Every node can take a snapshot whenever it is asked for one. */
  lemma SnapshotExists(body: Body, shard: Shard) returns (answer: Answer)
    requires IsGather(body)
    ensures IsSnapshot(body, shard, answer)
  {
    match body
    case Sockets(rooms) => answer := SidSet(Selected(shard, Opts(rooms, {})));
    case AllRooms => answer := RoomSet(RoomsOf(shard));
    case Fetch(opts) =>
      var sockets := ArrayOf(shard, Selected(shard, opts));
      answer := SocketArray(sockets);
      var wanted := set s | s in Selected(shard, opts) :: SocketInfo(s, shard[s]);
      assert (set x | x in sockets) == wanted;
  }

  lemma UnreadReadsOn(c: Cluster, id: Id, m: NodeId)
    requires IssuedOk(c) && id in c.issued && m in c.members && c.members[m].seen <= c.issued[id]
    ensures ReadsOn(c, id, m)
  {
    var body := c.log[c.members[m].seen].body;
    var answer := RoomSet({});
    if IsGather(body) { answer := SnapshotExists(body, c.members[m].node.shard); }
    assert Enabled(c, Consume(m, answer));
  }

  /** What a gather or an emit can wait for at node `m`. */
  ghost predicate IsAwaited(c: Cluster, id: Id, m: NodeId)
    requires IssuedOk(c) && id in c.issued
  {
    && m in c.members && m != Req(c, id).uid
    && (ReadsOn(c, id, m) || IsComing(c, id, m) ||
        (Req(c, id).body.ServerSideEmit? && forall data :: Enabled(c, Callback(m, id, data))))
  }

  lemma UnheardIsComing(c: Cluster, id: Id, m: NodeId)
    requires Mail(c) && id in c.issued && HasAnswered(c, id, m) && m !in HeardFrom(c, Req(c, id).uid, id)
    ensures IsComing(c, id, m)
  {
    var n := Req(c, id).uid;
    var j: nat :| j < |c.sent| && c.sent[j].response.id == id && c.sent[j].from == m;
    assert EnvelopeOk(c, c.sent[j]) && LogOk(c);
    assert (n, j) in c.heard ==> j in HeardIdx(c, n, id);
  }

  /**
   An unsettled gather or emit waits for some other node, and for something that can happen at
   once: the node reads on towards the request, its application calls the callback, or its
   response is received.
   */
  lemma UnsettledAwaits(t: seq<Cluster>, es: seq<Event>, i: nat, id: Id) returns (m: NodeId)
    requires Run(t, es) && i < |t| && Shape(t[i]) && id in t[i].issued && !IsSettled(t[i], id)
    requires Counted(Req(t[i], id).body)
    ensures IsAwaited(t[i], id, m)
  {
    var c := t[i];
    UnsettledLacksResponse(t, es, i, id);
    PartsAlways(t, es, i);
    m :| m in c.members && m != Req(c, id).uid && m !in HeardFrom(c, Req(c, id).uid, id);
    if HasRead(c, id, m) {
      assert DidItsPart(c, id, m);
      if HasAnswered(c, id, m) { UnheardIsComing(c, id, m); }
    } else {
      UnreadReadsOn(c, id, m);
    }
  }

  // ----- An operation on one socket -----

  lemma HolderReplies(c: Cluster, m: NodeId, answer: Answer, id: Id)
    requires Shape(c) && Enabled(c, Consume(m, answer)) && c.log[c.members[m].seen].id == Some(id)
    requires var body := c.log[c.members[m].seen].body; IsOne(body) && body.sid in c.members[m].node.shard
    ensures HasAnswered(Next(c, Consume(m, answer)), id, m)
  {
    var d := Next(c, Consume(m, answer));
    ConsumeSummary(c, m, answer);
    assert d.sent[|c.sent|].response.id == id && d.sent[|c.sent|].from == m;
  }

  lemma HolderRepliesAt(t: seq<Cluster>, es: seq<Event>, b: nat, m: NodeId, k: nat, id: Id)
    requires Run(t, es) && Reads(t, es, b, m, k) && t[b].log[k].id == Some(id)
    requires IsOne(t[b].log[k].body) && t[b].log[k].body.sid in t[b].members[m].node.shard
    ensures HasAnswered(t[b + 1], id, m)
  {
    MailAlways(t, es, b);
    assert Stepped(t, es, b);
    HolderReplies(t[b], m, es[b].answer, id);
  }

  /** At step `b` the node holding the socket reads the request, and publishes that it is done. */
  lemma HolderAnswers(t: seq<Cluster>, es: seq<Event>, b: nat, i: nat, id: Id)
    requires Run(t, es) && b < i < |t| && Shape(t[i]) && id in t[i].issued && IsOne(Req(t[i], id).body)
    requires var sid := Req(t[i], id).body.sid;
             Reads(t, es, b, sid.home, t[i].issued[id]) && sid in t[b].members[sid.home].node.shard
    ensures HasAnswered(t[i], id, Req(t[i], id).body.sid.home)
  {
    var m := Req(t[i], id).body.sid.home;
    RunAdds(t, es, b, i);
    assert t[b].log[t[i].issued[id]] == Req(t[i], id);
    HolderRepliesAt(t, es, b, m, t[i].issued[id], id);
    RunAdds(t, es, b + 1, i);
    AnsweredStays(t[b + 1], t[i], id, m);
  }

  /**
   An unsettled remote operation: the socket's node is not in the cluster, can read on towards
   the request, did not hold the socket when it read it, or has sent a response that can be
   received.
   */
  lemma UnsettledOneAwaits(t: seq<Cluster>, es: seq<Event>, i: nat, id: Id)
    requires Run(t, es) && i < |t| && Shape(t[i]) && id in t[i].issued && !IsSettled(t[i], id)
    requires IsOne(Req(t[i], id).body)
    ensures var sid := Req(t[i], id).body.sid;
            sid.home !in t[i].members || ReadsOn(t[i], id, sid.home) || IsComing(t[i], id, sid.home) ||
            exists b: nat :: b < i && Reads(t, es, b, sid.home, t[i].issued[id]) &&
                             sid !in t[b].members[sid.home].node.shard
  {
    var c := t[i];
    var sid := Req(c, id).body.sid;
    UnsettledLacksResponse(t, es, i, id);
    MailAlways(t, es, i);
    if sid.home in c.members && !HasRead(c, id, sid.home) { UnreadReadsOn(c, id, sid.home); }
    if HasRead(c, id, sid.home) {
      var b := ConsumedBefore(t, es, i, sid.home, c.issued[id]);
      if sid in t[b].members[sid.home].node.shard {
        HolderAnswers(t, es, b, i, id);
        assert HeardFrom(c, Req(c, id).uid, id) == {};
        UnheardIsComing(c, id, sid.home);
      }
    }
  }

  // ----- The timer -----

  /** The responses are those of the entry: exactly what has been heard. */
  ghost predicate AllHeard(c: Cluster, n: NodeId, id: Id, responses: seq<Option<int>>) {
    exists js :: Answers(c, id, js, responses) && Lists(js, HeardIdx(c, n, id))
  }

  lemma TimerReacts(c: Cluster, n: NodeId, id: Id)
    requires IssuedOk(c) && id in c.issued && Enabled(c, Timeout(n, id)) && id in c.members[n].node.requests
    requires var entry := c.members[n].node.requests[id];
             CountOk(c, n, id, entry) && KindOk(Req(c, id).body, entry)
    ensures var d := Next(c, Timeout(n, id));
            && |d.settled| == |c.settled| + 1 && c.settled <= d.settled && d.settled[|c.settled|].id == id
            && var result := d.settled[|c.settled|].result;
               if Req(c, id).body.ServerSideEmit?
               then result.AckedSome? && AllHeard(c, n, id, result.responses) else result.Rejected?
  {
    TimeoutReacts(c, n, id);
  }

  lemma EntryCounts(c: Cluster, n: NodeId, id: Id)
    requires Books(c) && id in c.issued && Req(c, id).uid == n && Waits(Req(c, id).body) && !IsSettled(c, id)
    ensures n in c.members && id in c.members[n].node.requests
    ensures var entry := c.members[n].node.requests[id];
            CountOk(c, n, id, entry) && KindOk(Req(c, id).body, entry)
  {
    assert LogOk(c);
  }

  /**
   A timer that runs out at the origin of an unsettled call: an emit is acknowledged with every
   response heard so far, and anything else is rejected.
   */
  lemma TimerKeepsResponses(t: seq<Cluster>, es: seq<Event>, i: nat, n: NodeId, id: Id)
    requires Run(t, es) && i < |es| && es[i] == Timeout(n, id) && Shape(t[i]) && id in t[i].issued
    requires Req(t[i], id).uid == n && Waits(Req(t[i], id).body) && !IsSettled(t[i], id)
    ensures |t[i + 1].settled| == |t[i].settled| + 1 && t[i].settled <= t[i + 1].settled
    ensures var s := t[i + 1].settled[|t[i].settled|];
            s.id == id &&
            if Req(t[i], id).body.ServerSideEmit?
            then s.result.AckedSome? && AllHeard(t[i], n, id, s.result.responses) else s.result.Rejected?
  {
    BooksAlways(t, es, i);
    assert Stepped(t, es, i);
    EntryCounts(t[i], n, id);
    TimerReacts(t[i], n, id);
  }
}
