/** What every step of the cluster keeps: the bookkeeping all the theorems stand on. */
module ClusterInvariants {
  import opened Option
  import opened RoomNames
  import opened Shards
  import opened AdapterNode
  import opened Cluster

  // ----- The log and the ids -----

  ghost predicate MembersOk(c: Cluster) {
    forall n | n in c.members :: c.members[n].seen <= |c.log| && Homed(c.members[n].node.shard, n)
  }

  ghost predicate LogOk(c: Cluster) {
    forall k | 0 <= k < |c.log| ::
      && c.log[k].uid in c.members
      && (c.log[k].id.None? <==> IsCommand(c.log[k].body))
      && (c.log[k].id.Some? ==> c.log[k].id.value in c.issued && c.issued[c.log[k].id.value] == k)
  }

  ghost predicate IssuedOk(c: Cluster) {
    forall id | id in c.issued ::
      id in c.used && c.issued[id] < |c.log| && c.log[c.issued[id]].id == Some(id)
  }

  /** A snapshot of node `n`: of the right kind, listing only that node's sockets, each once. */
  ghost predicate GoodAnswer(body: Body, answer: Answer, n: NodeId) {
    match body
    case Sockets(_) => answer.SidSet?
    case AllRooms => answer.RoomSet?
    case Fetch(_) =>
      answer.SocketArray? && DistinctSids(answer.sockets) && forall x | x in answer.sockets :: x.sid.home == n
    case _ => false
  }

  lemma SnapshotIsGood(body: Body, shard: Shard, answer: Answer, n: NodeId)
    requires IsGather(body) && Homed(shard, n) && IsSnapshot(body, shard, answer)
    ensures GoodAnswer(body, answer, n)
  {
    if body.Fetch? {
      forall x | x in answer.sockets ensures x.sid.home == n {
        var listed := set y | y in answer.sockets;
        assert x in listed;
        assert listed == set s | s in Selected(shard, body.opts) :: SocketInfo(s, shard[s]);
      }
    }
  }

  ghost function Req(c: Cluster, id: Id): Message
    requires IssuedOk(c) && id in c.issued
  {
    c.log[c.issued[id]]
  }

  ghost predicate CallsOk(c: Cluster)
    requires IssuedOk(c)
  {
    && (forall id | id in c.calls ::
          && id in c.used && c.calls[id].node in c.members
          && IsGather(c.calls[id].body)
          && GoodAnswer(c.calls[id].body, c.calls[id].answer, c.calls[id].node))
    && (forall id | id in c.issued ::
          if id in c.calls then
            c.calls[id].node == Req(c, id).uid && c.calls[id].body == Req(c, id).body
          else !IsGather(Req(c, id).body))
  }

  ghost predicate Shape(c: Cluster) {
    MembersOk(c) && LogOk(c) && IssuedOk(c) && CallsOk(c)
  }

  /** No message was published, no id drawn, and no node but by its own doing changed its shard. */
  ghost predicate Quiet(c: Cluster, d: Cluster) {
    && d.members.Keys == c.members.Keys
    && d.log == c.log && d.issued == c.issued && d.used == c.used && d.calls == c.calls
    && forall n | n in c.members ::
         c.members[n].seen <= d.members[n].seen <= |c.log| && Homed(d.members[n].node.shard, n)
  }

  lemma ShapeQuiet(c: Cluster, d: Cluster)
    requires Shape(c) && Quiet(c, d)
    ensures Shape(d)
  {
    forall id | id in d.issued ensures Req(d, id) == Req(c, id) {}
  }

  lemma EffectHomed(body: Body, shard: Shard, n: NodeId)
    requires Homed(shard, n)
    ensures Homed(Effect(body, shard), n)
  {
  }

  lemma ShapePublish(c: Cluster, message: Message, d: Cluster)
    requires Shape(c) && message.uid in c.members
    requires message.id.None? <==> IsCommand(message.body)
    requires message.id.Some? ==>
      var id := message.id.value;
      id !in c.issued &&
      if id in c.calls then c.calls[id].node == message.uid && c.calls[id].body == message.body
      else !IsGather(message.body)
    requires d.log == c.log + [message] && d.members.Keys == c.members.Keys && d.calls == c.calls
    requires d.issued == if message.id.Some? then c.issued[message.id.value := |c.log|] else c.issued
    requires d.used >= c.used && (message.id.Some? ==> message.id.value in d.used)
    requires forall n | n in c.members ::
      d.members[n].seen == c.members[n].seen && Homed(d.members[n].node.shard, n)
    ensures Shape(d)
  {
    forall id | id in c.issued ensures id in d.issued && d.log[d.issued[id]] == c.log[c.issued[id]] {}
    forall k | 0 <= k < |c.log| ensures d.log[k] == c.log[k] {}
    assert IssuedOk(d);
    forall id | id in d.issued
      ensures if id in d.calls then
                d.calls[id].node == Req(d, id).uid && d.calls[id].body == Req(d, id).body
              else !IsGather(Req(d, id).body)
    {
      if id in c.issued { assert Req(d, id) == Req(c, id); }
    }
  }

  /** Handling a request applies its effect to the sockets, and leaves both maps alone. */
  lemma RequestFrame(uid: NodeId, node: Node, message: Message, answer: Answer)
    ensures var after := OnRequest(uid, node, message, answer).node;
            && after.shard == Effect(message.body, node.shard)
            && after.requests == node.requests
            && after.ackRequests == node.ackRequests
  {
  }

  /** A response or a timer changes nothing of a node but one entry of `requests`. */
  lemma ReactionFrame(node: Node, response: Response, id: Id)
    ensures var after := OnResponse(node, response).node;
            after == node.(requests := after.requests)
    ensures var after := OnTimeout(node, id).node;
            after == node.(requests := after.requests)
  {
  }

  /** Only node `n` changed, and nothing was published or drawn. */
  ghost predicate Turn(c: Cluster, d: Cluster, n: NodeId) {
    && n in c.members
    && d.members.Keys == c.members.Keys
    && (forall m | m in c.members && m != n :: d.members[m] == c.members[m])
    && d.log == c.log && d.issued == c.issued && d.used == c.used && d.calls == c.calls
  }

  lemma ShapeTurn(c: Cluster, d: Cluster, n: NodeId)
    requires Shape(c) && Turn(c, d, n)
    requires c.members[n].seen <= d.members[n].seen <= |c.log| && Homed(d.members[n].node.shard, n)
    ensures Shape(d)
  {
    assert Quiet(c, d);
    ShapeQuiet(c, d);
  }

  lemma ConsumeTurn(c: Cluster, n: NodeId, answer: Answer)
    requires Enabled(c, Consume(n, answer))
    ensures var d := Next(c, Consume(n, answer));
            var message := c.log[c.members[n].seen];
            && Turn(c, d, n)
            && d.members[n].seen == c.members[n].seen + 1
            && d.members[n].node == OnRequest(n, c.members[n].node, message, answer).node
            && d.members[n].node.shard == Effect(message.body, c.members[n].node.shard)
            && d.settled == c.settled && d.heard == c.heard
  {
    RequestFrame(n, c.members[n].node, c.log[c.members[n].seen], answer);
  }

  lemma DeliverTurn(c: Cluster, n: NodeId, j: nat)
    requires Enabled(c, Deliver(n, j))
    ensures var d := Next(c, Deliver(n, j));
            && Turn(c, d, n)
            && d.members[n].seen == c.members[n].seen
            && d.members[n].node == OnResponse(c.members[n].node, c.sent[j].response).node
            && d.members[n].node == c.members[n].node.(requests := d.members[n].node.requests)
            && d.sent == c.sent && d.heard == c.heard + {(n, j)}
  {
    ReactionFrame(c.members[n].node, c.sent[j].response, 0);
  }

  /** Node `n` received response `j`: what changed, without how the step computes it. */
  ghost predicate Received(c: Cluster, d: Cluster, n: NodeId, j: nat) {
    && n in c.members && j < |c.sent| && (n, j) !in c.heard
    && Turn(c, d, n)
    && var reaction := OnResponse(c.members[n].node, c.sent[j].response);
       && d.members[n] == Member(reaction.node, c.members[n].seen)
       && d.sent == c.sent && d.heard == c.heard + {(n, j)}
       && d.settled == (if reaction.settled.None? then c.settled
                        else c.settled + [Settlement(c.sent[j].response.id, reaction.settled.value)])
  }

  lemma DeliverReceives(c: Cluster, n: NodeId, j: nat)
    requires Enabled(c, Deliver(n, j))
    ensures Received(c, Next(c, Deliver(n, j)), n, j)
  {
  }

  lemma TimeoutTurn(c: Cluster, n: NodeId, id: Id)
    requires Enabled(c, Timeout(n, id))
    ensures var d := Next(c, Timeout(n, id));
            && Turn(c, d, n)
            && d.members[n].seen == c.members[n].seen
            && d.members[n].node == OnTimeout(c.members[n].node, id).node
            && d.members[n].node == c.members[n].node.(requests := d.members[n].node.requests)
            && d.sent == c.sent && d.heard == c.heard
  {
    ReactionFrame(c.members[n].node, Response(id, Done), id);
  }

  lemma ConsumeKeepsShape(c: Cluster, n: NodeId, answer: Answer)
    requires Shape(c) && Enabled(c, Consume(n, answer))
    ensures Shape(Next(c, Consume(n, answer)))
  {
    ConsumeTurn(c, n, answer);
    EffectHomed(c.log[c.members[n].seen].body, c.members[n].node.shard, n);
    ShapeTurn(c, Next(c, Consume(n, answer)), n);
  }

  lemma BeginKeepsShape(c: Cluster, n: NodeId, id: Id, body: Body, answer: Answer)
    requires Shape(c) && Enabled(c, Begin(n, id, body, answer))
    ensures Shape(Next(c, Begin(n, id, body, answer)))
  {
    var d := Next(c, Begin(n, id, body, answer));
    SnapshotIsGood(body, c.members[n].node.shard, answer, n);
    assert forall i | i in d.issued :: Req(d, i) == Req(c, i);
  }

  lemma BroadcastKeepsShape(c: Cluster, n: NodeId, id: Id, opts: Opts)
    requires Shape(c) && Enabled(c, Broadcast(n, id, opts))
    ensures Shape(Next(c, Broadcast(n, id, opts)))
  {
    ShapePublish(c, Message(n, Some(id), BroadcastWithAck(opts)), Next(c, Broadcast(n, id, opts)));
  }

  predicate IsSmall(e: Event) { e.Local? || e.Callback? || e.SocketAck? || e.AckTimeout? }

  /** The steps that touch neither `requests` nor the log. */
  lemma SmallTurn(c: Cluster, e: Event)
    requires IsSmall(e) && Enabled(c, e)
    ensures var d := Next(c, e);
            && Turn(c, d, e.n)
            && d.members[e.n].seen == c.members[e.n].seen
            && d.members[e.n].node.requests == c.members[e.n].node.requests
            && d.members[e.n].node.shard == (if e.Local? then e.shard else c.members[e.n].node.shard)
            && d.settled == c.settled && d.heard == c.heard
  {
  }

  lemma SmallKeepsShape(c: Cluster, e: Event)
    requires Shape(c) && IsSmall(e) && Enabled(c, e)
    ensures Shape(Next(c, e))
  {
    SmallTurn(c, e);
    ShapeTurn(c, Next(c, e), e.n);
  }

  lemma ReactKeepsShape(c: Cluster, e: Event)
    requires Shape(c) && (e.Deliver? || e.Timeout?) && Enabled(c, e)
    ensures Shape(Next(c, e))
  {
    if e.Deliver? { DeliverTurn(c, e.n, e.j); } else { TimeoutTurn(c, e.n, e.id); }
    ShapeTurn(c, Next(c, e), e.n);
  }

  lemma CommandKeepsShape(c: Cluster, n: NodeId, body: Body)
    requires Shape(c) && Enabled(c, Command(n, body))
    ensures Shape(Next(c, Command(n, body)))
  {
    ShapePublish(c, Message(n, None, body), Next(c, Command(n, body)));
  }

  lemma IssueKeepsShape(c: Cluster, id: Id)
    requires Shape(c) && Enabled(c, Issue(id))
    ensures Shape(Next(c, Issue(id)))
  {
    var d := Next(c, Issue(id));
    var call := c.calls[id];
    if |c.members| <= 1 { ShapeQuiet(c, d); }
    else { ShapePublish(c, Message(call.node, Some(id), call.body), d); }
  }

  /** Drawing a fresh id for nothing keeps the shape. */
  lemma ShapeDraw(c: Cluster, id: Id)
    requires Shape(c)
    ensures Shape(c.(used := c.used + {id}))
  {
    var d := c.(used := c.used + {id});
    assert forall i | i in d.issued :: Req(d, i) == Req(c, i);
  }

  lemma OneKeepsShape(c: Cluster, n: NodeId, id: Id, body: Body)
    requires Shape(c) && Enabled(c, One(n, id, body))
    ensures Shape(Next(c, One(n, id, body)))
  {
    var d := Next(c, One(n, id, body));
    ShapeDraw(c, id);
    if body.sid in c.members[n].node.shard {
      EffectHomed(body, c.members[n].node.shard, n);
      ShapeQuiet(c.(used := c.used + {id}), d);
    } else {
      ShapePublish(c, Message(n, Some(id), body), d);
    }
  }

  /** Without other nodes an emit only draws an id. */
  lemma EmitAlone(c: Cluster, n: NodeId, id: Id)
    requires Shape(c) && Enabled(c, Emit(n, id)) && |c.members| - 1 <= 0
    ensures Shape(Next(c, Emit(n, id)))
  {
    ShapeDraw(c, id);
    ShapeQuiet(c.(used := c.used + {id}), Next(c, Emit(n, id)));
  }

  lemma EmitPublishes(c: Cluster, n: NodeId, id: Id)
    requires Shape(c) && Enabled(c, Emit(n, id)) && |c.members| - 1 > 0
    ensures Shape(Next(c, Emit(n, id)))
  {
    assert id !in c.issued && id !in c.calls;
    ShapePublish(c, Message(n, Some(id), ServerSideEmit), Next(c, Emit(n, id)));
  }

  lemma EmitKeepsShape(c: Cluster, n: NodeId, id: Id)
    requires Shape(c) && Enabled(c, Emit(n, id))
    ensures Shape(Next(c, Emit(n, id)))
  {
    if |c.members| - 1 <= 0 { EmitAlone(c, n, id); } else { EmitPublishes(c, n, id); }
  }

  lemma ShapeKept(c: Cluster, e: Event)
    requires Shape(c) && Enabled(c, e)
    ensures Shape(Next(c, e))
  {
    if IsSmall(e) { SmallKeepsShape(c, e); }
    else if e.Deliver? || e.Timeout? { ReactKeepsShape(c, e); }
    else {
      match e {
        case Begin(n, id, body, answer) => BeginKeepsShape(c, n, id, body, answer);
        case Issue(id) => IssueKeepsShape(c, id);
        case One(n, id, body) => OneKeepsShape(c, n, id, body);
        case Command(n, body) => CommandKeepsShape(c, n, body);
        case Emit(n, id) => EmitKeepsShape(c, n, id);
        case Broadcast(n, id, opts) => BroadcastKeepsShape(c, n, id, opts);
        case Consume(n, answer) => ConsumeKeepsShape(c, n, answer);
      }
    }
  }
}
