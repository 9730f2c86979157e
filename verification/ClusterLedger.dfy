/**
 The `requests` maps against what has been settled: an id is pending exactly while its
 promise or acknowledgement is unsettled, and it is settled at most once.
 */
module ClusterLedger {
  import opened Option
  import opened RoomNames
  import opened Shards
  import opened AdapterNode
  import opened Cluster
  import opened ClusterInvariants

  /** The requests whose caller waits for an outcome. */
  predicate Waits(body: Body) { IsGather(body) || IsOne(body) || body.ServerSideEmit? }

  predicate KindOk(body: Body, entry: Pending) {
    match entry
    case Gather(_, _, _) => IsGather(body)
    case Remote => IsOne(body)
    case EmitWait(_, _) => body.ServerSideEmit?
  }

  ghost predicate EntriesOk(c: Cluster)
    requires IssuedOk(c)
  {
    forall n, id | n in c.members && id in c.members[n].node.requests ::
      && id in c.issued && Req(c, id).uid == n
      && KindOk(Req(c, id).body, c.members[n].node.requests[id])
      && !IsSettled(c, id)
  }

  ghost predicate SettledOnce(c: Cluster) {
    && (forall i, j | 0 <= i < j < |c.settled| :: c.settled[i].id != c.settled[j].id)
    && forall i | 0 <= i < |c.settled| :: c.settled[i].id in c.used
  }

  /** Nothing is lost: a published request is still pending at its origin or has been settled. */
  ghost predicate NoneLost(c: Cluster)
    requires LogOk(c) && IssuedOk(c)
  {
    forall id | id in c.issued && Waits(Req(c, id).body) ::
      id in c.members[Req(c, id).uid].node.requests || IsSettled(c, id)
  }

  ghost predicate Ledger(c: Cluster) {
    Shape(c) && EntriesOk(c) && SettledOnce(c) && NoneLost(c)
  }

  // ----- The three ways a step can change the ledger -----

  /** A request is published and its entry made. */
  ghost predicate Opens(c: Cluster, d: Cluster, n: NodeId, id: Id, entry: Pending, body: Body) {
    && n in c.members
    && d.members == c.members[n := c.members[n].(node := c.members[n].node.(
                                     requests := c.members[n].node.requests[id := entry]))]
    && d.log == c.log + [Message(n, Some(id), body)]
    && d.issued == c.issued[id := |c.log|]
    && d.settled == c.settled && d.sent == c.sent && d.heard == c.heard && d.calls == c.calls
    && d.used >= c.used && id in d.used
  }

  /** The call is settled at once, without a request. */
  ghost predicate Resolves(c: Cluster, d: Cluster, id: Id, result: Result) {
    && d.members.Keys == c.members.Keys
    && (forall n | n in c.members ::
          && d.members[n].node == c.members[n].node.(shard := d.members[n].node.shard)
          && d.members[n].seen == c.members[n].seen)
    && d.log == c.log && d.issued == c.issued && d.sent == c.sent && d.heard == c.heard && d.calls == c.calls
    && d.used >= c.used && id in d.used
    && d.settled == c.settled + [Settlement(id, result)]
  }

  /** The ledger stands still; a message without a waiting caller may have been published. */
  ghost predicate Still(c: Cluster, d: Cluster) {
    && d.members.Keys == c.members.Keys
    && (forall n | n in c.members :: d.members[n].node.requests == c.members[n].node.requests)
    && d.settled == c.settled && d.used >= c.used
    && c.log <= d.log
    && (forall id | id in c.issued :: id in d.issued && d.issued[id] == c.issued[id])
    && (forall id | id in d.issued && id !in c.issued ::
          d.issued[id] < |d.log| && !Waits(d.log[d.issued[id]].body))
  }

  lemma ReqStays(c: Cluster, d: Cluster, id: Id)
    requires IssuedOk(c) && IssuedOk(d) && c.log <= d.log
    requires id in c.issued && id in d.issued && d.issued[id] == c.issued[id]
    ensures Req(d, id) == Req(c, id)
  {
  }

  lemma SettledGrows(c: Cluster, d: Cluster, id: Id)
    requires c.settled <= d.settled && IsSettled(c, id)
    ensures IsSettled(d, id)
  {
    var i :| 0 <= i < |c.settled| && c.settled[i].id == id;
    assert d.settled[i] == c.settled[i];
  }

  lemma SettledOne(c: Cluster, d: Cluster, id: Id, result: Result)
    requires d.settled == c.settled + [Settlement(id, result)]
    ensures forall x :: IsSettled(d, x) <==> x == id || IsSettled(c, x)
  {
    forall x ensures IsSettled(d, x) <==> x == id || IsSettled(c, x) {
      assert d.settled[|c.settled|].id == id;
      if IsSettled(c, x) { SettledGrows(c, d, x); }
    }
  }

  lemma SettledSame(c: Cluster, d: Cluster)
    requires d.settled == c.settled
    ensures forall x :: IsSettled(d, x) == IsSettled(c, x)
  {
    forall x ensures IsSettled(d, x) == IsSettled(c, x) {}
  }

  lemma ReqsStay(c: Cluster, d: Cluster)
    requires IssuedOk(c) && IssuedOk(d) && c.log <= d.log
    requires forall id | id in c.issued :: id in d.issued && d.issued[id] == c.issued[id]
    ensures forall id | id in c.issued :: Req(d, id) == Req(c, id)
  {
    forall id | id in c.issued ensures Req(d, id) == Req(c, id) { ReqStays(c, d, id); }
  }

  lemma LedgerStill(c: Cluster, d: Cluster)
    requires Ledger(c) && Shape(d) && Still(c, d)
    ensures Ledger(d)
  {
    ReqsStay(c, d);
    SettledSame(c, d);
  }

  lemma OldEntryStays(c: Cluster, d: Cluster, n: NodeId, id: Id, entry: Pending, body: Body, m: NodeId, x: Id)
    requires Ledger(c) && Shape(d) && Opens(c, d, n, id, entry, body)
    requires m in d.members && x in d.members[m].node.requests && (x != id || m != n)
    ensures x in c.issued && x in d.issued && Req(d, x).uid == m
    ensures KindOk(Req(d, x).body, d.members[m].node.requests[x]) && !IsSettled(c, x)
  {
    assert x in c.members[m].node.requests;
    ReqStays(c, d, x);
  }

  lemma EntriesOpens(c: Cluster, d: Cluster, n: NodeId, id: Id, entry: Pending, body: Body)
    requires Ledger(c) && Shape(d) && Opens(c, d, n, id, entry, body)
    requires id !in c.issued && !IsSettled(c, id) && KindOk(body, entry)
    ensures EntriesOk(d)
  {
    SettledSame(c, d);
    assert Req(d, id) == Message(n, Some(id), body);
    forall m, x | m in d.members && x in d.members[m].node.requests
      ensures x in d.issued && Req(d, x).uid == m &&
              KindOk(Req(d, x).body, d.members[m].node.requests[x]) && !IsSettled(d, x)
    {
      if x != id || m != n { OldEntryStays(c, d, n, id, entry, body, m, x); }
    }
  }

  lemma LedgerOpens(c: Cluster, d: Cluster, n: NodeId, id: Id, entry: Pending, body: Body)
    requires Ledger(c) && Shape(d) && Opens(c, d, n, id, entry, body)
    requires id !in c.issued && !IsSettled(c, id) && KindOk(body, entry)
    ensures Ledger(d)
  {
    EntriesOpens(c, d, n, id, entry, body);
    ReqsStay(c, d);
    SettledSame(c, d);
    forall x | x in d.issued && Waits(Req(d, x).body)
      ensures x in d.members[Req(d, x).uid].node.requests || IsSettled(d, x)
    {
      if x != id { assert Req(d, x) == Req(c, x); }
    }
  }

  lemma LedgerResolves(c: Cluster, d: Cluster, id: Id, result: Result)
    requires Ledger(c) && Shape(d) && Resolves(c, d, id, result)
    requires id !in c.issued && !IsSettled(c, id)
    ensures Ledger(d)
  {
    ReqsStay(c, d);
    SettledOne(c, d, id, result);
    forall i | 0 <= i < |c.settled| ensures c.settled[i].id != id {}
  }

  /** A response or a timer at node `n`: the entry goes exactly when the id is settled. */
  ghost predicate Reacts(c: Cluster, d: Cluster, n: NodeId, id: Id, settled: Option<Result>) {
    && Turn(c, d, n)
    && d.settled == (if settled.None? then c.settled else c.settled + [Settlement(id, settled.value)])
    && var before := c.members[n].node.requests;
       var after := d.members[n].node.requests;
       && (forall x | x != id :: (x in after <==> x in before) && (x in after ==> after[x] == before[x]))
       && (settled.Some? ==> id in before && id !in after)
       && (settled.None? ==> (id in after <==> id in before))
       && (id in after ==>
             (after[id].Gather? <==> before[id].Gather?) && (after[id].Remote? <==> before[id].Remote?))
  }

  lemma SettledReacts(c: Cluster, d: Cluster, n: NodeId, id: Id, settled: Option<Result>)
    requires Ledger(c) && Reacts(c, d, n, id, settled)
    ensures SettledOnce(d)
    ensures forall x :: IsSettled(d, x) <==> IsSettled(c, x) || (x == id && settled.Some?)
  {
    if settled.Some? {
      SettledOne(c, d, id, settled.value);
      assert !IsSettled(c, id);
      forall i | 0 <= i < |c.settled| ensures c.settled[i].id != id {}
    } else {
      SettledSame(c, d);
    }
  }

  lemma LeftEntryStays(c: Cluster, d: Cluster, n: NodeId, id: Id, settled: Option<Result>, m: NodeId, x: Id)
    requires Ledger(c) && Shape(d) && Reacts(c, d, n, id, settled)
    requires m in d.members && x in d.members[m].node.requests
    ensures m in c.members && x in c.members[m].node.requests && x in d.issued && Req(d, x).uid == m
    ensures KindOk(Req(d, x).body, d.members[m].node.requests[x]) && !IsSettled(c, x)
  {
    assert x in c.members[m].node.requests;
    ReqStays(c, d, x);
  }

  lemma EntriesReacts(c: Cluster, d: Cluster, n: NodeId, id: Id, settled: Option<Result>)
    requires Ledger(c) && Shape(d) && Reacts(c, d, n, id, settled)
    ensures EntriesOk(d)
  {
    SettledReacts(c, d, n, id, settled);
    forall m, x | m in d.members && x in d.members[m].node.requests
      ensures x in d.issued && Req(d, x).uid == m &&
              KindOk(Req(d, x).body, d.members[m].node.requests[x]) && !IsSettled(d, x)
    {
      LeftEntryStays(c, d, n, id, settled, m, x);
    }
  }

  lemma LedgerReacts(c: Cluster, d: Cluster, n: NodeId, id: Id, settled: Option<Result>)
    requires Ledger(c) && Shape(d) && Reacts(c, d, n, id, settled)
    ensures Ledger(d)
  {
    EntriesReacts(c, d, n, id, settled);
    SettledReacts(c, d, n, id, settled);
    ReqsStay(c, d);
    forall x | x in d.issued && Waits(Req(d, x).body)
      ensures x in d.members[Req(d, x).uid].node.requests || IsSettled(d, x)
    {
      assert Req(d, x) == Req(c, x);
    }
  }

  // ----- Which step does which -----

  lemma ReceivedReacts(c: Cluster, d: Cluster, n: NodeId, j: nat)
    requires Received(c, d, n, j)
    ensures var response := c.sent[j].response;
            Reacts(c, d, n, response.id, OnResponse(c.members[n].node, response).settled)
  {
    SettlingRemoves(c.members[n].node, c.sent[j].response);
  }

  lemma DeliverReacts(c: Cluster, n: NodeId, j: nat)
    requires Enabled(c, Deliver(n, j))
    ensures var response := c.sent[j].response;
            Reacts(c, Next(c, Deliver(n, j)), n, response.id, OnResponse(c.members[n].node, response).settled)
  {
    DeliverReceives(c, n, j);
    ReceivedReacts(c, Next(c, Deliver(n, j)), n, j);
  }

  lemma TimeoutReacts(c: Cluster, n: NodeId, id: Id)
    requires Enabled(c, Timeout(n, id))
    ensures Reacts(c, Next(c, Timeout(n, id)), n, id, OnTimeout(c.members[n].node, id).settled)
  {
    TimeoutTurn(c, n, id);
  }

  /** The three calls that wait for an outcome. */
  predicate IsCall(e: Event) { e.Issue? || e.One? || e.Emit? }

  function CallBody(c: Cluster, e: Event): Body
    requires IsCall(e) && (e.Issue? ==> e.id in c.calls)
  {
    match e
    case Issue(id) => c.calls[id].body
    case One(_, _, body) => body
    case Emit(_, _) => ServerSideEmit
  }

  function CallNode(c: Cluster, e: Event): NodeId
    requires IsCall(e) && (e.Issue? ==> e.id in c.calls)
  {
    if e.Issue? then c.calls[e.id].node else e.n
  }

  function CallEntry(c: Cluster, e: Event): Pending
    requires IsCall(e) && (e.Issue? ==> e.id in c.calls)
  {
    match e
    case Issue(id) => Gather(|c.members|, 1, c.calls[id].answer)
    case One(_, _, _) => Remote
    case Emit(_, _) => EmitWait(|c.members| - 1, [])
  }

  function CallResult(c: Cluster, e: Event): Result
    requires IsCall(e) && (e.Issue? ==> e.id in c.calls)
  {
    match e
    case Issue(id) => Gathered(c.calls[id].answer)
    case One(_, _, _) => Completed
    case Emit(_, _) => AckedAll([])
  }

  /** The caller holds the answer itself: a lone node, or a socket of its own. */
  predicate AtOnce(c: Cluster, e: Event)
    requires IsCall(e) && (e.One? ==> e.n in c.members && IsOne(e.body))
  {
    match e
    case Issue(_) => |c.members| <= 1
    case One(n, _, body) => body.sid in c.members[n].node.shard
    case Emit(_, _) => |c.members| - 1 <= 0
  }

  lemma CallSummary(c: Cluster, e: Event)
    requires Shape(c) && IsCall(e) && Enabled(c, e)
    ensures var d := Next(c, e);
            if AtOnce(c, e) then Resolves(c, d, e.id, CallResult(c, e))
            else Opens(c, d, CallNode(c, e), e.id, CallEntry(c, e), CallBody(c, e))
  {
  }

  lemma CallFresh(c: Cluster, e: Event)
    requires Ledger(c) && IsCall(e) && Enabled(c, e)
    ensures e.id !in c.issued && !IsSettled(c, e.id) && KindOk(CallBody(c, e), CallEntry(c, e))
  {
  }

  lemma SmallStill(c: Cluster, e: Event)
    requires Shape(c) && IsSmall(e) && Enabled(c, e)
    ensures Still(c, Next(c, e))
  {
    SmallTurn(c, e);
  }

  lemma BeginStill(c: Cluster, n: NodeId, id: Id, body: Body, answer: Answer)
    requires Shape(c) && Enabled(c, Begin(n, id, body, answer))
    ensures Still(c, Next(c, Begin(n, id, body, answer)))
  {
  }

  lemma CommandStill(c: Cluster, n: NodeId, body: Body)
    requires Shape(c) && Enabled(c, Command(n, body))
    ensures Still(c, Next(c, Command(n, body)))
  {
  }

  lemma ConsumeStill(c: Cluster, n: NodeId, answer: Answer)
    requires Enabled(c, Consume(n, answer))
    ensures Still(c, Next(c, Consume(n, answer)))
  {
    ConsumeTurn(c, n, answer);
    RequestFrame(n, c.members[n].node, c.log[c.members[n].seen], answer);
  }

  /** What publishing a broadcast changes. */
  ghost predicate BroadcastDone(c: Cluster, d: Cluster, n: NodeId, id: Id, opts: Opts) {
    && n in c.members
    && var node := c.members[n].node;
       var targets := Selected(node.shard, opts);
       && d.members == c.members[n := c.members[n].(node := node.(
             ackRequests := node.ackRequests + {id},
             awaiting := node.awaiting + set s | s in targets :: Owed(id, s, true)))]
       && d.log == c.log + [Message(n, Some(id), BroadcastWithAck(opts))]
       && d.issued == c.issued[id := |c.log|]
       && d.used == c.used + {id} && d.calls == c.calls
       && d.settled == c.settled && d.sent == c.sent && d.heard == c.heard
       && d.sends == Send(c.sends, id, targets)
       && d.ackCalls == c.ackCalls + [CountCall(id, n, |targets|)]
  }

  lemma BroadcastSummary(c: Cluster, n: NodeId, id: Id, opts: Opts)
    requires Enabled(c, Broadcast(n, id, opts))
    ensures BroadcastDone(c, Next(c, Broadcast(n, id, opts)), n, id, opts)
  {
  }

  /** A broadcast with acknowledgements makes no entry in `requests`. */
  lemma BroadcastStill(c: Cluster, n: NodeId, id: Id, opts: Opts)
    requires Shape(c) && Enabled(c, Broadcast(n, id, opts))
    ensures Still(c, Next(c, Broadcast(n, id, opts)))
  {
    BroadcastSummary(c, n, id, opts);
    assert id !in c.issued;
  }

  lemma CallKeepsLedger(c: Cluster, e: Event)
    requires Ledger(c) && IsCall(e) && Enabled(c, e)
    ensures Ledger(Next(c, e))
  {
    ShapeKept(c, e);
    CallSummary(c, e);
    CallFresh(c, e);
    if AtOnce(c, e) { LedgerResolves(c, Next(c, e), e.id, CallResult(c, e)); }
    else { LedgerOpens(c, Next(c, e), CallNode(c, e), e.id, CallEntry(c, e), CallBody(c, e)); }
  }

  lemma StillKeepsLedger(c: Cluster, e: Event)
    requires Ledger(c) && Enabled(c, e)
    requires IsSmall(e) || e.Begin? || e.Command? || e.Consume? || e.Broadcast?
    ensures Ledger(Next(c, e))
  {
    ShapeKept(c, e);
    if IsSmall(e) { SmallStill(c, e); }
    else if e.Begin? { BeginStill(c, e.n, e.id, e.body, e.answer); }
    else if e.Command? { CommandStill(c, e.n, e.body); }
    else if e.Consume? { ConsumeStill(c, e.n, e.answer); }
    else { BroadcastStill(c, e.n, e.id, e.opts); }
    LedgerStill(c, Next(c, e));
  }

  lemma ReactionKeepsLedger(c: Cluster, e: Event)
    requires Ledger(c) && Enabled(c, e) && (e.Deliver? || e.Timeout?)
    ensures Ledger(Next(c, e))
  {
    ShapeKept(c, e);
    var node := c.members[e.n].node;
    if e.Deliver? {
      var response := c.sent[e.j].response;
      DeliverReacts(c, e.n, e.j);
      LedgerReacts(c, Next(c, e), e.n, response.id, OnResponse(node, response).settled);
    } else {
      TimeoutReacts(c, e.n, e.id);
      LedgerReacts(c, Next(c, e), e.n, e.id, OnTimeout(node, e.id).settled);
    }
  }

  /** Every step keeps the ledger. */
  lemma LedgerKept(c: Cluster, e: Event)
    requires Ledger(c) && Enabled(c, e)
    ensures Ledger(Next(c, e))
  {
    if IsCall(e) { CallKeepsLedger(c, e); }
    else if e.Deliver? || e.Timeout? { ReactionKeepsLedger(c, e); }
    else { StillKeepsLedger(c, e); }
  }
}
