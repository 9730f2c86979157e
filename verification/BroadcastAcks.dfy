/**
 The callbacks of a broadcast with acknowledgements: the counts and the clients' answers.

 Every node counts the sockets it wrote to and passes on what their clients acknowledge, the
 origin straight to its callbacks, the others in responses, which the origin takes while its
 entry is in `ackRequests`. A late own copy makes the origin answer itself, but only when that
 entry is gone, so such answers are never taken.
 */
module BroadcastAcks {
  import opened Option
  import opened RoomNames
  import opened Sets
  import opened Shards
  import opened AdapterNode
  import opened Cluster
  import opened ClusterInvariants
  import opened ClusterLedger
  import opened ClusterMail
  import opened Gathers
  import opened ClusterTheorems
  import opened BroadcastWrites

  // ----- The invariant -----

  predicate IsAck(e: Envelope, id: Id, sid: Sid) {
    e.response == Response(id, ClientAck(sid))
  }

  ghost predicate NoAck(c: Cluster, id: Id, sid: Sid) {
    forall j | 0 <= j < |c.sent| :: !IsAck(c.sent[j], id, sid)
  }

  /** Node `n` holds no entry for broadcast `id`. */
  ghost predicate NoEntry(c: Cluster, n: NodeId, id: Id) {
    n in c.members && id !in c.members[n].node.ackRequests
  }

  /** What is still owed has been neither called back nor published. */
  ghost predicate OwedGood(c: Cluster, n: NodeId, owed: Owed)
    requires IssuedOk(c)
  {
    && (owed.id, owed.sid) in c.sends && owed.sid.home == n && owed.id in c.issued
    && if owed.direct then Req(c, owed.id).uid == n && ValueCall(owed.id, owed.sid) !in c.ackCalls
       else NoAck(c, owed.id, owed.sid) && NoEntry(c, n, owed.id)
  }

  ghost predicate OwedOk(c: Cluster)
    requires IssuedOk(c)
  {
    forall n, owed | n in c.members && owed in c.members[n].node.awaiting :: OwedGood(c, n, owed)
  }

  predicate AboutAck(e: Envelope) { e.response.payload.ClientAck? || e.response.payload.ClientCount? }

  /** A node that publishes a count or an acknowledgement holds no entry for the broadcast. */
  ghost predicate AckEnvelopeOk(c: Cluster, e: Envelope)
    requires IssuedOk(c)
  {
    && (AboutAck(e) ==> e.response.id in c.issued && NoEntry(c, e.from, e.response.id))
    && (e.response.payload.ClientAck? ==>
          e.response.payload.value.home == e.from && (e.response.id, e.response.payload.value) in c.sends)
  }

  ghost predicate AckMailOk(c: Cluster)
    requires IssuedOk(c)
  {
    && (forall j | 0 <= j < |c.sent| :: AckEnvelopeOk(c, c.sent[j]))
    && forall i, j | 0 <= i < j < |c.sent| && c.sent[i].response.payload.ClientAck? ::
         c.sent[i].response != c.sent[j].response
  }

  /** Node `n` has heard this response from node `m`. */
  ghost predicate HeardReply(c: Cluster, n: NodeId, m: NodeId, response: Response) {
    exists j :: 0 <= j < |c.sent| && (n, j) in c.heard && c.sent[j].from == m && c.sent[j].response == response
  }

  ghost predicate CallOk(c: Cluster, call: AckCall)
    requires IssuedOk(c)
  {
    && call.id in c.issued
    && match call
       case ValueCall(id, sid) =>
         && (id, sid) in c.sends
         && (sid.home == Req(c, id).uid || HeardReply(c, Req(c, id).uid, sid.home, Response(id, ClientAck(sid))))
       case CountCall(id, m, count) =>
         && m in c.members
         && (m == Req(c, id).uid || HeardReply(c, Req(c, id).uid, m, Response(id, ClientCount(count))))
  }

  predicate SameCall(a: AckCall, b: AckCall) {
    a.id == b.id &&
    if a.ValueCall? then b.ValueCall? && a.sid == b.sid else b.CountCall? && a.from == b.from
  }

  ghost predicate AckCallsOk(c: Cluster)
    requires IssuedOk(c)
  {
    && (forall i | 0 <= i < |c.ackCalls| :: CallOk(c, c.ackCalls[i]))
    && forall i, j | 0 <= i < j < |c.ackCalls| :: !SameCall(c.ackCalls[i], c.ackCalls[j])
  }

  ghost predicate Acks(c: Cluster) {
    Mail(c) && OwedOk(c) && AckMailOk(c) && AckCallsOk(c)
  }

  // ----- What every step does -----

  /** Entries appear only for ids that were not issued before. */
  ghost predicate EntriesOnlyNew(c: Cluster, d: Cluster) {
    forall n, id | n in d.members && id in d.members[n].node.ackRequests ::
      n in c.members && (id in c.members[n].node.ackRequests || id !in c.issued)
  }

  /** Everything is only added to, at most one response and one callback at a time. */
  ghost predicate Grows(c: Cluster, d: Cluster) {
    && IssuedOk(c) && IssuedOk(d) && Extends(c, d) && EntriesOnlyNew(c, d)
    && c.heard <= d.heard && c.ackCalls <= d.ackCalls
    && |d.sent| <= |c.sent| + 1 && |d.ackCalls| <= |c.ackCalls| + 1
    && forall p | p in c.sends :: p in d.sends
  }

  /** Nothing was heard, calls were only added, and no entry appeared. */
  ghost predicate Unheard(c: Cluster, d: Cluster) {
    && d.heard == c.heard && c.sent <= d.sent && c.ackCalls <= d.ackCalls
    && forall n | n in d.members ::
         n in c.members && d.members[n].node.ackRequests <= c.members[n].node.ackRequests
  }

  lemma CallUnheard(c: Cluster, e: Event)
    requires Mail(c) && IsCall(e) && Enabled(c, e)
    ensures Unheard(c, Next(c, e))
  {
    CallSummary(c, e);
  }

  lemma TimeoutUnheard(c: Cluster, n: NodeId, id: Id)
    requires Enabled(c, Timeout(n, id))
    ensures Unheard(c, Next(c, Timeout(n, id)))
  {
    ReactionFrame(c.members[n].node, Response(id, Done), id);
  }

  lemma SocketAckUnheard(c: Cluster, n: NodeId, owed: Owed)
    requires Enabled(c, SocketAck(n, owed))
    ensures Unheard(c, Next(c, SocketAck(n, owed)))
  {
  }

  lemma RestUnheard(c: Cluster, e: Event)
    requires Enabled(c, e)
    requires e.Local? || e.Begin? || e.Command? || e.Callback? || e.AckTimeout?
    ensures Unheard(c, Next(c, e))
  {
  }

  lemma ConsumeUnheard(c: Cluster, n: NodeId, answer: Answer)
    requires Mail(c) && Enabled(c, Consume(n, answer))
    ensures Unheard(c, Next(c, Consume(n, answer)))
  {
    ConsumeTurn(c, n, answer);
    ConsumeSummary(c, n, answer);
    RequestFrame(n, c.members[n].node, c.log[c.members[n].seen], answer);
  }

  lemma UnheardSteps(c: Cluster, e: Event)
    requires Mail(c) && Enabled(c, e) && !e.Deliver? && !e.Broadcast?
    ensures Unheard(c, Next(c, e))
  {
    if IsCall(e) { CallUnheard(c, e); }
    else if e.Timeout? { TimeoutUnheard(c, e.n, e.id); }
    else if e.Consume? { ConsumeUnheard(c, e.n, e.answer); }
    else if e.SocketAck? { SocketAckUnheard(c, e.n, e.owed); }
    else { RestUnheard(c, e); }
  }

  /** Response `j` arrives at node `n`, which calls back if it holds the entry. */
  ghost predicate ArrivedCall(c: Cluster, d: Cluster, n: NodeId, j: nat) {
    && j < |c.sent| && (n, j) !in c.heard && n in c.members
    && d.sent == c.sent && d.heard == c.heard + {(n, j)}
    && if OnResponse(c.members[n].node, c.sent[j].response).acked
       then d.ackCalls == c.ackCalls + [AckCallOf(c.sent[j])] else d.ackCalls == c.ackCalls
  }

  ghost predicate OwedSame(c: Cluster, d: Cluster) {
    forall n | n in d.members :: n in c.members && d.members[n].node.awaiting <= c.members[n].node.awaiting
  }

  lemma DeliverArrives(c: Cluster, n: NodeId, j: nat)
    requires Enabled(c, Deliver(n, j))
    ensures ArrivedCall(c, Next(c, Deliver(n, j)), n, j) && OwedSame(c, Next(c, Deliver(n, j)))
  {
    ReactionFrame(c.members[n].node, c.sent[j].response, 0);
  }

  lemma DeliverKeepsEntries(c: Cluster, n: NodeId, j: nat)
    requires Enabled(c, Deliver(n, j))
    ensures var d := Next(c, Deliver(n, j));
            forall m | m in d.members ::
              m in c.members && d.members[m].node.ackRequests == c.members[m].node.ackRequests
  {
    ReactionFrame(c.members[n].node, c.sent[j].response, 0);
  }

  lemma StepSizes(c: Cluster, e: Event)
    requires Mail(c) && Enabled(c, e)
    ensures |Next(c, e).sent| <= |c.sent| + 1 && |Next(c, e).ackCalls| <= |c.ackCalls| + 1
  {
    WhoPublishes(c, e);
    if IsCall(e) { CallSends(c, e); }
    else if e.Consume? { ConsumeSummary(c, e.n, e.answer); }
    else if e.Broadcast? { BroadcastSummary(c, e.n, e.id, e.opts); }
    else if e.Deliver? { DeliverArrives(c, e.n, e.j); }
  }

  lemma BroadcastEntries(c: Cluster, n: NodeId, id: Id, opts: Opts)
    requires Mail(c) && Enabled(c, Broadcast(n, id, opts))
    ensures var d := Next(c, Broadcast(n, id, opts));
            EntriesOnlyNew(c, d) && c.heard <= d.heard && c.ackCalls <= d.ackCalls
  {
    BroadcastSummary(c, n, id, opts);
    assert id !in c.issued;
  }

  lemma DeliverEntries(c: Cluster, n: NodeId, j: nat)
    requires Enabled(c, Deliver(n, j))
    ensures var d := Next(c, Deliver(n, j));
            EntriesOnlyNew(c, d) && c.heard <= d.heard && c.ackCalls <= d.ackCalls
  {
    DeliverArrives(c, n, j);
    DeliverKeepsEntries(c, n, j);
  }

  lemma StepEntries(c: Cluster, e: Event)
    requires Mail(c) && Enabled(c, e)
    ensures EntriesOnlyNew(c, Next(c, e)) && c.heard <= Next(c, e).heard && c.ackCalls <= Next(c, e).ackCalls
  {
    if e.Broadcast? { BroadcastEntries(c, e.n, e.id, e.opts); }
    else if e.Deliver? { DeliverEntries(c, e.n, e.j); }
    else { UnheardSteps(c, e); }
  }

  lemma StepGrows(c: Cluster, e: Event)
    requires Mail(c) && Enabled(c, e)
    ensures Grows(c, Next(c, e)) && Mail(Next(c, e))
  {
    MailKept(c, e);
    ExtendsKept(c, e);
    StepSizes(c, e);
    StepEntries(c, e);
    forall p | p in c.sends ensures p in Next(c, e).sends { StepSends(c, e, p.0, p.1); }
  }

  // ----- What is kept while everything grows -----

  lemma OwedStays(c: Cluster, d: Cluster, n: NodeId, owed: Owed)
    requires Grows(c, d) && OwedGood(c, n, owed)
    requires if owed.direct then ValueCall(owed.id, owed.sid) !in d.ackCalls else NoAck(d, owed.id, owed.sid)
    ensures OwedGood(d, n, owed)
  {
    ReqStays(c, d, owed.id);
  }

  lemma EnvelopeAckStays(c: Cluster, d: Cluster, e: Envelope)
    requires Grows(c, d) && AckEnvelopeOk(c, e)
    ensures AckEnvelopeOk(d, e)
  {
  }

  lemma HeardStays(c: Cluster, d: Cluster, n: NodeId, m: NodeId, response: Response)
    requires c.sent <= d.sent && c.heard <= d.heard && HeardReply(c, n, m, response)
    ensures HeardReply(d, n, m, response)
  {
    var j :| 0 <= j < |c.sent| && (n, j) in c.heard && c.sent[j].from == m && c.sent[j].response == response;
    assert d.sent[j] == c.sent[j];
  }

  lemma CallStays(c: Cluster, d: Cluster, call: AckCall)
    requires Grows(c, d) && CallOk(c, call)
    ensures CallOk(d, call)
  {
    ReqStays(c, d, call.id);
    var uid := Req(c, call.id).uid;
    match call {
      case ValueCall(id, sid) =>
        if sid.home != uid { HeardStays(c, d, uid, sid.home, Response(id, ClientAck(sid))); }
      case CountCall(id, m, count) =>
        if m != uid { HeardStays(c, d, uid, m, Response(id, ClientCount(count))); }
    }
  }

  /** A new response is in order, and no acknowledgement that was published before. */
  ghost predicate NewMailOk(c: Cluster, d: Cluster)
    requires IssuedOk(d)
  {
    |d.sent| == |c.sent| + 1 ==>
      var e := d.sent[|c.sent|];
      AckEnvelopeOk(d, e) && (e.response.payload.ClientAck? ==> NoAck(c, e.response.id, e.response.payload.value))
  }

  lemma AckMailGrows(c: Cluster, d: Cluster)
    requires Grows(c, d) && AckMailOk(c) && NewMailOk(c, d)
    ensures AckMailOk(d)
  {
    forall j | 0 <= j < |d.sent| ensures AckEnvelopeOk(d, d.sent[j]) {
      if j < |c.sent| {
        assert d.sent[j] == c.sent[j] && AckEnvelopeOk(c, c.sent[j]);
        EnvelopeAckStays(c, d, c.sent[j]);
      }
    }
    forall i, j | 0 <= i < j < |d.sent| && d.sent[i].response.payload.ClientAck?
      ensures d.sent[i].response != d.sent[j].response
    {
      assert d.sent[i] == c.sent[i];
      if j < |c.sent| {
        assert d.sent[j] == c.sent[j];
      } else if d.sent[j].response.payload.ClientAck? {
        assert !IsAck(c.sent[i], d.sent[j].response.id, d.sent[j].response.payload.value);
      }
    }
  }

  /** A new callback is justified, and not called before. */
  ghost predicate NewCallOk(c: Cluster, d: Cluster)
    requires IssuedOk(d)
  {
    |d.ackCalls| == |c.ackCalls| + 1 ==>
      var call := d.ackCalls[|c.ackCalls|];
      CallOk(d, call) && forall i | 0 <= i < |c.ackCalls| :: !SameCall(c.ackCalls[i], call)
  }

  lemma AckCallsGrow(c: Cluster, d: Cluster)
    requires Grows(c, d) && AckCallsOk(c) && NewCallOk(c, d)
    ensures AckCallsOk(d)
  {
    forall i | 0 <= i < |d.ackCalls| ensures CallOk(d, d.ackCalls[i]) {
      if i < |c.ackCalls| {
        assert d.ackCalls[i] == c.ackCalls[i] && CallOk(c, c.ackCalls[i]);
        CallStays(c, d, c.ackCalls[i]);
      }
    }
    forall i, j | 0 <= i < j < |d.ackCalls| ensures !SameCall(d.ackCalls[i], d.ackCalls[j]) {
      assert d.ackCalls[i] == c.ackCalls[i];
      if j < |c.ackCalls| { assert d.ackCalls[j] == c.ackCalls[j]; }
    }
  }

  lemma NoAckStays(c: Cluster, d: Cluster, id: Id, sid: Sid)
    requires c.sent <= d.sent && |d.sent| <= |c.sent| + 1 && NoAck(c, id, sid)
    requires |d.sent| == |c.sent| + 1 ==> !IsAck(d.sent[|c.sent|], id, sid)
    ensures NoAck(d, id, sid)
  {
    forall j | 0 <= j < |d.sent| ensures !IsAck(d.sent[j], id, sid) {
      if j < |c.sent| { assert d.sent[j] == c.sent[j]; }
    }
  }

  lemma NotCalledStays(c: Cluster, d: Cluster, call: AckCall)
    requires c.ackCalls <= d.ackCalls && |d.ackCalls| <= |c.ackCalls| + 1 && call !in c.ackCalls
    requires |d.ackCalls| == |c.ackCalls| + 1 ==> d.ackCalls[|c.ackCalls|] != call
    ensures call !in d.ackCalls
  {
    forall i | 0 <= i < |d.ackCalls| ensures d.ackCalls[i] != call {
      if i < |c.ackCalls| { assert d.ackCalls[i] == c.ackCalls[i]; }
    }
  }

  /** The step neither publishes nor calls what is owed. */
  ghost predicate StillOwed(c: Cluster, d: Cluster, owed: Owed) {
    && (|d.sent| == |c.sent| + 1 && !owed.direct ==> !IsAck(d.sent[|c.sent|], owed.id, owed.sid))
    && (|d.ackCalls| == |c.ackCalls| + 1 && owed.direct ==> d.ackCalls[|c.ackCalls|] != ValueCall(owed.id, owed.sid))
  }

  lemma OneOwedGrows(c: Cluster, d: Cluster, n: NodeId, owed: Owed)
    requires Grows(c, d) && OwedGood(c, n, owed) && StillOwed(c, d, owed)
    ensures OwedGood(d, n, owed)
  {
    if owed.direct { NotCalledStays(c, d, ValueCall(owed.id, owed.sid)); }
    else { NoAckStays(c, d, owed.id, owed.sid); }
    OwedStays(c, d, n, owed);
  }

  lemma OwedGrows(c: Cluster, d: Cluster)
    requires Grows(c, d) && OwedOk(c) && OwedSame(c, d)
    requires forall n, owed | n in d.members && owed in d.members[n].node.awaiting :: StillOwed(c, d, owed)
    ensures OwedOk(d)
  {
    forall n, owed | n in d.members && owed in d.members[n].node.awaiting ensures OwedGood(d, n, owed) {
      assert OwedGood(c, n, owed);
      OneOwedGrows(c, d, n, owed);
    }
  }

  // ----- Steps that have nothing to do with broadcasts -----

  ghost predicate Aside(c: Cluster, d: Cluster) {
    && OwedSame(c, d) && d.ackCalls == c.ackCalls
    && (|d.sent| == |c.sent| + 1 ==> !AboutAck(d.sent[|c.sent|]))
  }

  lemma AcksAside(c: Cluster, d: Cluster)
    requires Acks(c) && Mail(d) && Grows(c, d) && Aside(c, d)
    ensures Acks(d)
  {
    OwedGrows(c, d);
    AckMailGrows(c, d);
    AckCallsGrow(c, d);
  }

  lemma CallIsAside(c: Cluster, e: Event)
    requires Mail(c) && IsCall(e) && Enabled(c, e)
    ensures Aside(c, Next(c, e))
  {
    CallSummary(c, e);
    CallSends(c, e);
  }

  lemma RestIsAside(c: Cluster, e: Event)
    requires Mail(c) && Enabled(c, e)
    requires !IsCall(e) && !e.Consume? && !e.Broadcast? && !e.SocketAck? && !e.Deliver?
    ensures Aside(c, Next(c, e))
  {
    if e.Timeout? { TimeoutTurn(c, e.n, e.id); }
  }

  /** The message is no broadcast, or one whose entry the node holds. */
  predicate Ignores(node: Node, message: Message) {
    message.body.BroadcastWithAck? ==> message.id.Some? && message.id.value in node.ackRequests
  }

  lemma IgnoredOwes(uid: NodeId, node: Node, message: Message, answer: Answer)
    requires Ignores(node, message)
    ensures OnRequest(uid, node, message, answer).node.awaiting == node.awaiting
  {
  }

  lemma IgnoredSays(c: Cluster, n: NodeId, answer: Answer)
    requires Mail(c) && Enabled(c, Consume(n, answer)) && Ignores(c.members[n].node, c.log[c.members[n].seen])
    ensures var d := Next(c, Consume(n, answer));
            d.ackCalls == c.ackCalls && (|d.sent| == |c.sent| + 1 ==> !AboutAck(d.sent[|c.sent|]))
  {
    ConsumeSummary(c, n, answer);
  }

  lemma IgnoredIsAside(c: Cluster, n: NodeId, answer: Answer)
    requires Mail(c) && Enabled(c, Consume(n, answer)) && Ignores(c.members[n].node, c.log[c.members[n].seen])
    ensures Aside(c, Next(c, Consume(n, answer)))
  {
    ConsumeTurn(c, n, answer);
    IgnoredSays(c, n, answer);
    IgnoredOwes(n, c.members[n].node, c.log[c.members[n].seen], answer);
  }

  // ----- A client acknowledges -----

  /** A client of node `n` acknowledged: straight to the callback, or in a response. */
  ghost predicate Acknowledged(c: Cluster, d: Cluster, n: NodeId, owed: Owed) {
    && n in c.members && owed in c.members[n].node.awaiting
    && n in d.members && owed !in d.members[n].node.awaiting && OwedSame(c, d)
    && if owed.direct then d.sent == c.sent && d.ackCalls == c.ackCalls + [ValueCall(owed.id, owed.sid)]
       else d.ackCalls == c.ackCalls && |d.sent| == |c.sent| + 1 &&
            d.sent[|c.sent|].from == n && IsAck(d.sent[|c.sent|], owed.id, owed.sid)
  }

  lemma SocketAckMoves(c: Cluster, n: NodeId, owed: Owed)
    requires Mail(c) && Enabled(c, SocketAck(n, owed))
    ensures Acknowledged(c, Next(c, SocketAck(n, owed)), n, owed)
  {
  }

  /** The other ones owed are still to come. */
  lemma OwedAcked(c: Cluster, d: Cluster, n: NodeId, gone: Owed)
    requires Grows(c, d) && Acknowledged(c, d, n, gone) && OwedOk(c)
    ensures OwedOk(d)
  {
    assert OwedGood(c, n, gone);
    forall m, owed | m in d.members && owed in d.members[m].node.awaiting ensures StillOwed(c, d, owed) {
      assert OwedGood(c, m, owed);
      assert owed != gone;
    }
    OwedGrows(c, d);
  }

  lemma SocketAckMail(c: Cluster, d: Cluster, n: NodeId, owed: Owed)
    requires Grows(c, d) && Acknowledged(c, d, n, owed) && OwedOk(c) && AckMailOk(c)
    ensures AckMailOk(d)
  {
    assert OwedGood(c, n, owed);
    AckMailGrows(c, d);
  }

  lemma SocketAckCalls(c: Cluster, d: Cluster, n: NodeId, owed: Owed)
    requires Grows(c, d) && Acknowledged(c, d, n, owed) && OwedOk(c) && AckCallsOk(c)
    ensures AckCallsOk(d)
  {
    assert OwedGood(c, n, owed);
    ReqStays(c, d, owed.id);
    if owed.direct {
      forall i | 0 <= i < |c.ackCalls| ensures !SameCall(c.ackCalls[i], ValueCall(owed.id, owed.sid)) {
        assert c.ackCalls[i] in c.ackCalls;
      }
    }
    AckCallsGrow(c, d);
  }

  lemma SocketAckKeepsAcks(c: Cluster, n: NodeId, owed: Owed)
    requires Acks(c) && Enabled(c, SocketAck(n, owed))
    ensures Acks(Next(c, SocketAck(n, owed)))
  {
    var d := Next(c, SocketAck(n, owed));
    StepGrows(c, SocketAck(n, owed));
    SocketAckMoves(c, n, owed);
    OwedAcked(c, d, n, owed);
    SocketAckMail(c, d, n, owed);
    SocketAckCalls(c, d, n, owed);
  }

  // ----- An acknowledgement or a count arrives -----

  /** What is taken was published by another node, and is called back for the first time. */
  lemma TakenIsOthers(c: Cluster, n: NodeId, j: nat)
    requires Acks(c) && n in c.members && j < |c.sent| && OnResponse(c.members[n].node, c.sent[j].response).acked
    ensures AboutAck(c.sent[j]) && c.sent[j].from in c.members && c.sent[j].from != n
    ensures c.sent[j].response.id in c.issued && Req(c, c.sent[j].response.id).uid == n
  {
    assert AckEnvelopeOk(c, c.sent[j]);
    AckIsMine(c, n, c.sent[j].response.id);
  }

  /** One response of a kind comes from one node once. */
  lemma ReplyHeardOnce(c: Cluster, n: NodeId, j: nat, response: Response)
    requires Acks(c) && j < |c.sent| && AboutAck(c.sent[j]) && HeardReply(c, n, c.sent[j].from, response)
    requires if c.sent[j].response.payload.ClientAck? then response == c.sent[j].response
             else response.id == c.sent[j].response.id && response.payload.ClientCount?
    ensures (n, j) in c.heard
  {
    var k :| 0 <= k < |c.sent| && (n, k) in c.heard && c.sent[k].from == c.sent[j].from && c.sent[k].response == response;
    if c.sent[j].response.payload.ClientCount? { FromOnce(c, j, k); }
  }

  lemma ArrivedIsNew(c: Cluster, n: NodeId, j: nat, i: nat)
    requires Acks(c) && n in c.members && j < |c.sent| && (n, j) !in c.heard && i < |c.ackCalls|
    requires OnResponse(c.members[n].node, c.sent[j].response).acked
    ensures !SameCall(c.ackCalls[i], AckCallOf(c.sent[j]))
  {
    var e, call := c.sent[j], c.ackCalls[i];
    TakenIsOthers(c, n, j);
    assert CallOk(c, call) && AckEnvelopeOk(c, e);
    if SameCall(call, AckCallOf(e)) {
      ReplyHeardOnce(c, n, j, if call.ValueCall? then e.response else Response(e.response.id, ClientCount(call.count)));
    }
  }

  lemma ArrivedIsOk(c: Cluster, d: Cluster, n: NodeId, j: nat)
    requires Acks(c) && Grows(c, d) && ArrivedCall(c, d, n, j)
    requires OnResponse(c.members[n].node, c.sent[j].response).acked
    ensures CallOk(d, AckCallOf(c.sent[j]))
  {
    var e := c.sent[j];
    TakenIsOthers(c, n, j);
    assert AckEnvelopeOk(c, e);
    ReqStays(c, d, e.response.id);
    assert (n, j) in d.heard && d.sent[j] == e;
    assert HeardReply(d, n, e.from, e.response);
  }

  ghost predicate NewTo(c: Cluster, call: AckCall) {
    forall i | 0 <= i < |c.ackCalls| :: !SameCall(c.ackCalls[i], call)
  }

  lemma OneMoreCall(c: Cluster, d: Cluster, call: AckCall)
    requires Grows(c, d) && AckCallsOk(c) && d.ackCalls == c.ackCalls + [call] && CallOk(d, call)
    requires NewTo(c, call)
    ensures AckCallsOk(d)
  {
    AckCallsGrow(c, d);
  }

  lemma ArrivedIsNewest(c: Cluster, n: NodeId, j: nat)
    requires Acks(c) && n in c.members && j < |c.sent| && (n, j) !in c.heard
    requires OnResponse(c.members[n].node, c.sent[j].response).acked
    ensures NewTo(c, AckCallOf(c.sent[j]))
  {
    forall i | 0 <= i < |c.ackCalls| ensures !SameCall(c.ackCalls[i], AckCallOf(c.sent[j])) {
      ArrivedIsNew(c, n, j, i);
    }
  }

  lemma TakenCalls(c: Cluster, d: Cluster, n: NodeId, j: nat)
    requires Acks(c) && Grows(c, d) && ArrivedCall(c, d, n, j)
    requires OnResponse(c.members[n].node, c.sent[j].response).acked
    ensures AckCallsOk(d)
  {
    ArrivedIsOk(c, d, n, j);
    ArrivedIsNewest(c, n, j);
    OneMoreCall(c, d, AckCallOf(c.sent[j]));
  }

  lemma ArrivedCalls(c: Cluster, d: Cluster, n: NodeId, j: nat)
    requires Acks(c) && Grows(c, d) && ArrivedCall(c, d, n, j)
    ensures AckCallsOk(d)
  {
    if OnResponse(c.members[n].node, c.sent[j].response).acked {
      TakenCalls(c, d, n, j);
    } else {
      AckCallsGrow(c, d);
    }
  }

  /** An acknowledgement owed straight to the callback is not what arrives. */
  lemma ArrivedOwed(c: Cluster, d: Cluster, n: NodeId, j: nat)
    requires Acks(c) && Grows(c, d) && OwedSame(c, d) && ArrivedCall(c, d, n, j)
    ensures OwedOk(d)
  {
    forall m, owed | m in d.members && owed in d.members[m].node.awaiting ensures StillOwed(c, d, owed) {
      assert OwedGood(c, m, owed);
      if OnResponse(c.members[n].node, c.sent[j].response).acked {
        TakenIsOthers(c, n, j);
        assert AckEnvelopeOk(c, c.sent[j]);
      }
    }
    OwedGrows(c, d);
  }

  lemma DeliverKeepsAcks(c: Cluster, n: NodeId, j: nat)
    requires Acks(c) && Enabled(c, Deliver(n, j))
    ensures Acks(Next(c, Deliver(n, j)))
  {
    var d := Next(c, Deliver(n, j));
    StepGrows(c, Deliver(n, j));
    DeliverArrives(c, n, j);
    ArrivedOwed(c, d, n, j);
    AckMailGrows(c, d);
    ArrivedCalls(c, d, n, j);
  }

  // ----- The packet is written to the sockets of one node -----

  /** Only acknowledgements of `id`, on node `m`, for the sockets written to, came to be owed. */
  ghost predicate OwedMore(c: Cluster, d: Cluster, m: NodeId, id: Id, direct: bool) {
    forall n, owed | n in d.members && owed in d.members[n].node.awaiting ::
      n in c.members &&
      (owed in c.members[n].node.awaiting ||
       (n == m && owed.id == id && owed.direct == direct && owed.sid.home == m && (id, owed.sid) in d.sends))
  }

  lemma OldOwed(c: Cluster, d: Cluster, n: NodeId, owed: Owed)
    requires Grows(c, d) && OwedOk(c) && n in c.members && owed in c.members[n].node.awaiting
    requires |d.sent| == |c.sent| + 1 ==> !d.sent[|c.sent|].response.payload.ClientAck?
    requires |d.ackCalls| == |c.ackCalls| + 1 ==> !d.ackCalls[|c.ackCalls|].ValueCall?
    ensures OwedGood(d, n, owed)
  {
    assert OwedGood(c, n, owed);
    OneOwedGrows(c, d, n, owed);
  }

  lemma FreshUncalled(c: Cluster, id: Id, call: AckCall)
    requires IssuedOk(c) && AckCallsOk(c) && id !in c.issued && call.id == id
    ensures call !in c.ackCalls
  {
    forall i | 0 <= i < |c.ackCalls| ensures c.ackCalls[i] != call { assert CallOk(c, c.ackCalls[i]); }
  }

  lemma BroadcastOwed(c: Cluster, d: Cluster, n: NodeId, id: Id)
    requires Acks(c) && Grows(c, d) && OwedMore(c, d, n, id, true) && d.sent == c.sent
    requires id !in c.issued && id in d.issued && Req(d, id).uid == n
    requires |d.ackCalls| == |c.ackCalls| + 1 && !d.ackCalls[|c.ackCalls|].ValueCall?
    ensures OwedOk(d)
  {
    forall m, owed | m in d.members && owed in d.members[m].node.awaiting ensures OwedGood(d, m, owed) {
      if owed in c.members[m].node.awaiting { OldOwed(c, d, m, owed); }
      else { FreshUncalled(c, id, ValueCall(id, owed.sid)); NotCalledStays(c, d, ValueCall(id, owed.sid)); }
    }
  }

  lemma BroadcastOwes(c: Cluster, n: NodeId, id: Id, opts: Opts)
    requires Mail(c) && Enabled(c, Broadcast(n, id, opts))
    ensures OwedMore(c, Next(c, Broadcast(n, id, opts)), n, id, true)
  {
    var d := Next(c, Broadcast(n, id, opts));
    BroadcastSummary(c, n, id, opts);
    forall sid | sid in Selected(c.members[n].node.shard, opts) ensures (id, sid) in d.sends {
      BroadcastSends(c, n, id, opts, id, sid);
    }
  }

  lemma BroadcastKeepsAcks(c: Cluster, n: NodeId, id: Id, opts: Opts)
    requires Acks(c) && Enabled(c, Broadcast(n, id, opts))
    ensures Acks(Next(c, Broadcast(n, id, opts)))
  {
    var d := Next(c, Broadcast(n, id, opts));
    StepGrows(c, Broadcast(n, id, opts));
    BroadcastSummary(c, n, id, opts);
    BroadcastOwes(c, n, id, opts);
    assert id !in c.issued && Req(d, id) == Message(n, Some(id), BroadcastWithAck(opts));
    BroadcastOwed(c, d, n, id);
    AckMailGrows(c, d);
    var call := d.ackCalls[|c.ackCalls|];
    forall i | 0 <= i < |c.ackCalls| ensures !SameCall(c.ackCalls[i], call) { assert CallOk(c, c.ackCalls[i]); }
    AckCallsGrow(c, d);
  }

  // ----- A node handles a broadcast it reads -----

  /** Its first word about it is the count. */
  lemma UnreadNoAck(c: Cluster, m: NodeId, id: Id, sid: Sid)
    requires Acks(c) && m in c.members && id in c.issued && c.members[m].seen <= c.issued[id] && sid.home == m
    ensures NoAck(c, id, sid)
  {
    UnseenUnanswered(c, m, id);
    forall j | 0 <= j < |c.sent| ensures !IsAck(c.sent[j], id, sid) { assert AckEnvelopeOk(c, c.sent[j]); }
  }

  lemma HandledOwes(uid: NodeId, node: Node, message: Message, answer: Answer)
    ensures forall owed | owed in OnRequest(uid, node, message, answer).node.awaiting ::
              owed in node.awaiting ||
              (message.id == Some(owed.id) && !owed.direct && owed.sid in OnRequest(uid, node, message, answer).sent)
  {
  }

  lemma ConsumeOwes(c: Cluster, m: NodeId, answer: Answer, id: Id)
    requires Mail(c) && Enabled(c, Consume(m, answer)) && Handles(c, Consume(m, answer), id)
    ensures OwedMore(c, Next(c, Consume(m, answer)), m, id, false)
  {
    var d := Next(c, Consume(m, answer));
    var message := c.log[c.members[m].seen];
    ConsumeTurn(c, m, answer);
    HandledOwes(m, c.members[m].node, message, answer);
    WhoIsSent(m, c.members[m].node, message, answer);
    forall sid | sid in Selected(c.members[m].node.shard, message.body.opts) ensures (id, sid) in d.sends {
      ConsumeSends(c, m, answer, id, sid);
    }
  }

  /** Node `m`, without an entry, handled broadcast `id` when it read it, and published the count. */
  ghost predicate Handled(c: Cluster, d: Cluster, m: NodeId, id: Id) {
    && m in c.members && id in c.issued && c.members[m].seen <= c.issued[id] && NoEntry(d, m, id)
    && OwedMore(c, d, m, id, false) && d.ackCalls == c.ackCalls
    && |d.sent| == |c.sent| + 1 && d.sent[|c.sent|].from == m
    && d.sent[|c.sent|].response.id == id && d.sent[|c.sent|].response.payload.ClientCount?
  }

  lemma ConsumeHandles(c: Cluster, m: NodeId, answer: Answer, id: Id)
    requires Mail(c) && Enabled(c, Consume(m, answer)) && Handles(c, Consume(m, answer), id)
    ensures Handled(c, Next(c, Consume(m, answer)), m, id)
  {
    ConsumeTurn(c, m, answer);
    ConsumeSummary(c, m, answer);
    ConsumeOwes(c, m, answer, id);
    RequestFrame(m, c.members[m].node, c.log[c.members[m].seen], answer);
  }

  lemma HandledOwed(c: Cluster, d: Cluster, m: NodeId, id: Id)
    requires Acks(c) && Grows(c, d) && Handled(c, d, m, id)
    ensures OwedOk(d)
  {
    forall n, owed | n in d.members && owed in d.members[n].node.awaiting ensures OwedGood(d, n, owed) {
      if owed in c.members[n].node.awaiting {
        OldOwed(c, d, n, owed);
      } else {
        UnreadNoAck(c, m, id, owed.sid);
        NoAckStays(c, d, id, owed.sid);
      }
    }
  }

  lemma HandledKeepsAcks(c: Cluster, d: Cluster, m: NodeId, id: Id)
    requires Acks(c) && Mail(d) && Grows(c, d) && Handled(c, d, m, id)
    ensures Acks(d)
  {
    HandledOwed(c, d, m, id);
    AckMailGrows(c, d);
    AckCallsGrow(c, d);
  }

  lemma ConsumeKeepsAcks(c: Cluster, m: NodeId, answer: Answer)
    requires Acks(c) && Enabled(c, Consume(m, answer))
    ensures Acks(Next(c, Consume(m, answer)))
  {
    var d := Next(c, Consume(m, answer));
    StepGrows(c, Consume(m, answer));
    var message := c.log[c.members[m].seen];
    if Ignores(c.members[m].node, message) {
      IgnoredIsAside(c, m, answer);
      AcksAside(c, d);
    } else {
      assert LogOk(c) && message.id.Some?;
      ConsumeHandles(c, m, answer, message.id.value);
      HandledKeepsAcks(c, d, m, message.id.value);
    }
  }

  // ----- Every step -----

  lemma AcksKept(c: Cluster, e: Event)
    requires Acks(c) && Enabled(c, e)
    ensures Acks(Next(c, e))
  {
    if e.Consume? { ConsumeKeepsAcks(c, e.n, e.answer); }
    else if e.Broadcast? { BroadcastKeepsAcks(c, e.n, e.id, e.opts); }
    else if e.SocketAck? { SocketAckKeepsAcks(c, e.n, e.owed); }
    else if e.Deliver? { DeliverKeepsAcks(c, e.n, e.j); }
    else {
      StepGrows(c, e);
      if IsCall(e) { CallIsAside(c, e); } else { RestIsAside(c, e); }
      AcksAside(c, Next(c, e));
    }
  }

  lemma {:induction false} AcksAlways(t: seq<Cluster>, es: seq<Event>, i: nat)
    requires Run(t, es) && i < |t|
    ensures Acks(t[i])
  {
    if i == 0 {
      MailAtStart(t[0]);
    } else {
      AcksAlways(t, es, i - 1);
      assert Stepped(t, es, i - 1);
      AcksKept(t[i - 1], es[i - 1]);
    }
  }

  // ----- The acknowledgements -----

  ghost function ValuesFor(calls: seq<AckCall>, id: Id): nat {
    if calls == [] then 0
    else
      var last := calls[|calls| - 1];
      ValuesFor(calls[..|calls| - 1], id) + if last.ValueCall? && last.id == id then 1 else 0
  }

  ghost function CountsFor(calls: seq<AckCall>, id: Id): nat {
    if calls == [] then 0
    else
      var last := calls[|calls| - 1];
      CountsFor(calls[..|calls| - 1], id) + if last.CountCall? && last.id == id then last.count else 0
  }

  ghost function Acked(calls: seq<AckCall>, id: Id): set<Sid> {
    set x | x in calls && x.ValueCall? && x.id == id :: x.sid
  }

  ghost function Reporters(calls: seq<AckCall>, id: Id): set<NodeId> {
    set x | x in calls && x.CountCall? && x.id == id :: x.from
  }

  ghost predicate DistinctCalls(calls: seq<AckCall>) {
    forall i, j | 0 <= i < j < |calls| :: !SameCall(calls[i], calls[j])
  }

  lemma LastIsNew(calls: seq<AckCall>, front: seq<AckCall>, last: AckCall)
    requires DistinctCalls(calls) && calls == front + [last]
    ensures DistinctCalls(front) && forall x | x in front :: !SameCall(x, last)
  {
    forall i | 0 <= i < |front| ensures calls[i] == front[i] {}
    forall x | x in front ensures !SameCall(x, last) {
      var i :| 0 <= i < |front| && front[i] == x;
      assert calls[i] == x && calls[|front|] == last;
    }
  }

  lemma AckedMore(front: seq<AckCall>, last: AckCall, id: Id)
    requires forall x | x in front :: !SameCall(x, last)
    ensures |Acked(front + [last], id)| == |Acked(front, id)| + if last.ValueCall? && last.id == id then 1 else 0
  {
    if last.ValueCall? && last.id == id {
      assert Acked(front + [last], id) == Acked(front, id) + {last.sid};
    } else {
      assert Acked(front + [last], id) == Acked(front, id);
    }
  }

  lemma {:induction false} ValuesAreSockets(calls: seq<AckCall>, id: Id)
    requires DistinctCalls(calls)
    ensures ValuesFor(calls, id) == |Acked(calls, id)|
  {
    if calls == [] {
      assert Acked(calls, id) == {};
    } else {
      var front := calls[..|calls| - 1];
      var last := calls[|calls| - 1];
      assert calls == front + [last];
      LastIsNew(calls, front, last);
      ValuesAreSockets(front, id);
      AckedMore(front, last, id);
    }
  }

  /** In every run, the `ack` callback is never called more often than there are sockets that got the packet. */
  lemma AcksNeverExceedTargets(t: seq<Cluster>, es: seq<Event>, i: nat, id: Id)
    requires Run(t, es) && i < |t|
    ensures ValuesFor(t[i].ackCalls, id) <= |AllTargets(t[i], id)|
    ensures Acked(t[i].ackCalls, id) <= AllTargets(t[i], id)
    ensures ValuesFor(t[i].ackCalls, id) == |Acked(t[i].ackCalls, id)|
  {
    var c := t[i];
    AcksAlways(t, es, i);
    ValuesAreSockets(c.ackCalls, id);
    forall s | s in Acked(c.ackCalls, id) ensures s in AllTargets(c, id) {
      var k :| 0 <= k < |c.ackCalls| && c.ackCalls[k] == ValueCall(id, s);
      assert CallOk(c, c.ackCalls[k]);
      assert (id, s) in c.sends;
    }
    SubsetSize(Acked(c.ackCalls, id), AllTargets(c, id));
  }

  // ----- The counts -----

  /** The step that publishes a count is the one that reads and handles the request. */
  lemma CountBorn(c: Cluster, e: Event, j: nat)
    requires Mail(c) && Enabled(c, e)
    requires |c.sent| <= j < |Next(c, e).sent| && Next(c, e).sent[j].response.payload.ClientCount?
    ensures var r := Next(c, e).sent[j];
            && Handles(c, e, r.response.id) && r.from == e.n
            && r.response.payload.count ==
                 |Selected(c.members[e.n].node.shard, c.log[c.members[e.n].seen].body.opts)|
  {
    WhoPublishes(c, e);
    if e.Consume? { ConsumeSummary(c, e.n, e.answer); }
  }

  lemma CountBornAt(t: seq<Cluster>, es: seq<Event>, b: nat, j: nat)
    requires Run(t, es) && Born(t, b, j) && t[b + 1].sent[j].response.payload.ClientCount?
    ensures var r := t[b + 1].sent[j];
            && Shape(t[b]) && r.response.id in t[b].issued && Reads(t, es, b, r.from, t[b].issued[r.response.id])
            && Req(t[b], r.response.id).body.BroadcastWithAck?
            && r.response.payload.count ==
                 |Selected(t[b].members[r.from].node.shard, Req(t[b], r.response.id).body.opts)|
  {
    MailAlways(t, es, b);
    assert Stepped(t, es, b);
    CountBorn(t[b], es[b], j);
    assert LogOk(t[b]);
  }

  /** Another node's count is the number of sockets it wrote to. */
  lemma CountIsTargets(t: seq<Cluster>, es: seq<Event>, i: nat, j: nat)
    requires Run(t, es) && i < |t| && Mail(t[i]) && j < |t[i].sent|
    requires t[i].sent[j].response.payload.ClientCount? && t[i].sent[j].response.id in t[i].issued
    requires t[i].sent[j].from != Req(t[i], t[i].sent[j].response.id).uid
    ensures var e := t[i].sent[j]; e.response.payload.count == |Targets(t[i], e.response.id, e.from)|
  {
    var e := t[i].sent[j];
    var b := BirthStep(t, es, i, j);
    RunAdds(t, es, b + 1, i);
    assert t[b + 1].sent[j] == e;
    CountBornAt(t, es, b, j);
    RunAdds(t, es, b, i);
    ReqStays(t[b], t[i], e.response.id);
    TargetsSince(t, es, b, i, e.response.id, e.from);
  }

  ghost predicate CallBorn(t: seq<Cluster>, b: nat, k: nat) {
    b + 1 < |t| && |t[b].ackCalls| <= k < |t[b + 1].ackCalls| && t[b].ackCalls <= t[b + 1].ackCalls
  }

  lemma {:induction false} CallBirth(t: seq<Cluster>, es: seq<Event>, i: nat, k: nat) returns (b: nat)
    requires Run(t, es) && i < |t| && k < |t[i].ackCalls|
    ensures b < i && CallBorn(t, b, k) && t[b + 1].ackCalls[k] == t[i].ackCalls[k]
    decreases i
  {
    if i > 0 {
      MailAlways(t, es, i - 1);
      assert Stepped(t, es, i - 1);
      StepEntries(t[i - 1], es[i - 1]);
      if k < |t[i - 1].ackCalls| { b := CallBirth(t, es, i - 1, k); } else { b := i - 1; }
    }
  }

  lemma WhoCallsBack(c: Cluster, e: Event)
    requires Mail(c) && Enabled(c, e)
    ensures e.Broadcast? || e.Deliver? || e.SocketAck? || Next(c, e).ackCalls == c.ackCalls
  {
    if e.Consume? { ConsumeSummary(c, e.n, e.answer); }
    else if IsCall(e) { CallSends(c, e); }
  }

  /** What arrives is another node's word. */
  lemma ArrivedFromOther(c: Cluster, n: NodeId, j: nat)
    requires Acks(c) && Enabled(c, Deliver(n, j)) && IssuedOk(Next(c, Deliver(n, j)))
    requires |Next(c, Deliver(n, j)).ackCalls| > |c.ackCalls|
    ensures var d, call := Next(c, Deliver(n, j)), AckCallOf(c.sent[j]);
            && d.ackCalls == c.ackCalls + [call] && call.id in d.issued
            && (call.CountCall? ==> call.from != Req(d, call.id).uid)
  {
    DeliverArrives(c, n, j);
    TakenIsOthers(c, n, j);
    ExtendsKept(c, Deliver(n, j));
    ReqStays(c, Next(c, Deliver(n, j)), c.sent[j].response.id);
  }

  /** The origin's own count is called in the step of the call. */
  lemma OwnCountBorn(c: Cluster, e: Event, k: nat)
    requires Acks(c) && Enabled(c, e) && Acks(Next(c, e))
    requires |c.ackCalls| <= k < |Next(c, e).ackCalls| && Next(c, e).ackCalls[k].CountCall?
    requires Next(c, e).ackCalls[k].id in Next(c, e).issued
    requires Next(c, e).ackCalls[k].from == Req(Next(c, e), Next(c, e).ackCalls[k].id).uid
    ensures var call := Next(c, e).ackCalls[k];
            && e.Broadcast? && e.n == call.from && e.id == call.id && e.n in c.members
            && call.count == |Selected(c.members[e.n].node.shard, e.opts)|
  {
    WhoCallsBack(c, e);
    if e.Broadcast? { BroadcastSummary(c, e.n, e.id, e.opts); }
    else if e.Deliver? { ArrivedFromOther(c, e.n, e.j); }
    else if e.SocketAck? { SocketAckMoves(c, e.n, e.owed); }
  }

  lemma OwnCountBornAt(t: seq<Cluster>, es: seq<Event>, a: nat, k: nat, call: AckCall)
    requires Run(t, es) && CallBorn(t, a, k) && t[a + 1].ackCalls[k] == call && call.CountCall?
    requires Acks(t[a + 1]) && call.id in t[a + 1].issued && call.from == Req(t[a + 1], call.id).uid
    ensures a < |es| && es[a].Broadcast? && es[a].n == call.from && es[a].id == call.id && es[a].n in t[a].members
    ensures call.count == |Selected(t[a].members[es[a].n].node.shard, es[a].opts)|
  {
    AcksAlways(t, es, a);
    assert Stepped(t, es, a);
    OwnCountBorn(t[a], es[a], k);
  }

  /** A callback belongs to a request that is still the one it was. */
  lemma CalledRequest(t: seq<Cluster>, es: seq<Event>, b: nat, i: nat, k: nat)
    requires Run(t, es) && b <= i < |t| && k < |t[b].ackCalls| && Acks(t[b]) && Acks(t[i])
    ensures var id := t[b].ackCalls[k].id;
            id in t[b].issued && id in t[i].issued && Req(t[b], id) == Req(t[i], id)
  {
    assert CallOk(t[b], t[b].ackCalls[k]);
    RunAdds(t, es, b, i);
    ReqStays(t[b], t[i], t[b].ackCalls[k].id);
  }

  /** The origin's own count is the number of sockets its options picked there at the call. */
  lemma OwnCountIs(t: seq<Cluster>, es: seq<Event>, i: nat, k: nat) returns (a: nat)
    requires Run(t, es) && i < |t| && Acks(t[i]) && k < |t[i].ackCalls| && t[i].ackCalls[k].CountCall?
    requires t[i].ackCalls[k].id in t[i].issued && t[i].ackCalls[k].from == Req(t[i], t[i].ackCalls[k].id).uid
    ensures var call := t[i].ackCalls[k];
            && a < i && es[a].Broadcast? && es[a].n == call.from && es[a].id == call.id && es[a].n in t[a].members
            && call.count == |Selected(t[a].members[es[a].n].node.shard, es[a].opts)|
  {
    a := CallBirth(t, es, i, k);
    AcksAlways(t, es, a + 1);
    CalledRequest(t, es, a + 1, i, k);
    OwnCountBornAt(t, es, a, k, t[i].ackCalls[k]);
  }

  /** The sockets that the nodes in `some` told of. */
  ghost function Told(told: map<NodeId, set<Sid>>, some: set<NodeId>): set<Sid> {
    set m, s | m in some && m in told && s in told[m] :: s
  }

  ghost predicate AllHome(targets: set<Sid>, m: NodeId) { forall s | s in targets :: s.home == m }

  ghost predicate EachHome(told: map<NodeId, set<Sid>>) { forall m | m in told :: AllHome(told[m], m) }

  lemma ToldMore(told: map<NodeId, set<Sid>>, some: set<NodeId>, m: NodeId)
    requires EachHome(told) && m in told && m !in some
    ensures |Told(told, some + {m})| == |Told(told, some)| + |told[m]|
  {
    assert Told(told, some + {m}) == Told(told, some) + told[m];
    assert Told(told, some) !! told[m];
  }

  lemma {:induction false} CountsAreTold(calls: seq<AckCall>, id: Id, told: map<NodeId, set<Sid>>)
    requires DistinctCalls(calls) && EachHome(told)
    requires forall x | x in calls && x.CountCall? && x.id == id :: x.from in told && x.count == |told[x.from]|
    ensures CountsFor(calls, id) == |Told(told, Reporters(calls, id))|
  {
    if calls == [] {
      assert Told(told, Reporters(calls, id)) == {};
    } else {
      var front := calls[..|calls| - 1];
      var last := calls[|calls| - 1];
      assert calls == front + [last];
      LastIsNew(calls, front, last);
      CountsAreTold(front, id, told);
      if last.CountCall? && last.id == id {
        assert Reporters(calls, id) == Reporters(front, id) + {last.from};
        ToldMore(told, Reporters(front, id), last.from);
      } else {
        assert Reporters(calls, id) == Reporters(front, id);
      }
    }
  }

  /** What each node told of: the origin of what it picked at the call, the others of all they wrote to. */
  ghost function ToldOf(c: Cluster, id: Id, origin: NodeId, own: set<Sid>): map<NodeId, set<Sid>> {
    map m | m in c.members :: if m == origin then own else Targets(c, id, m)
  }

  lemma CountIsTold(t: seq<Cluster>, es: seq<Event>, i: nat, id: Id, x: AckCall, a: nat)
    requires Run(t, es) && i < |t| && Acks(t[i]) && x in t[i].ackCalls && x.CountCall? && x.id == id
    requires a < i && a < |es| && es[a].Broadcast? && es[a].id == id && es[a].n in t[a].members
    ensures var told := ToldOf(t[i], id, es[a].n, Selected(t[a].members[es[a].n].node.shard, es[a].opts));
            x.from in told && x.count == |told[x.from]|
  {
    var c := t[i];
    var k :| 0 <= k < |c.ackCalls| && c.ackCalls[k] == x;
    assert CallOk(c, c.ackCalls[k]);
    CallIsRequest(t, es, a, i);
    if x.from == es[a].n {
      var b := OwnCountIs(t, es, i, k);
      OneCall(t, es, a, b);
    } else {
      var j :| 0 <= j < |c.sent| && (es[a].n, j) in c.heard && c.sent[j].from == x.from &&
               c.sent[j].response == Response(id, ClientCount(x.count));
      CountIsTargets(t, es, i, j);
    }
  }

  /** What the origin picked at the call, it wrote to. */
  lemma OwnIsWritten(t: seq<Cluster>, es: seq<Event>, a: nat, i: nat, id: Id)
    requires Run(t, es) && a < i < |t| && a < |es| && es[a].Broadcast? && es[a].id == id && es[a].n in t[a].members
    ensures Selected(t[a].members[es[a].n].node.shard, es[a].opts) <= Targets(t[i], id, es[a].n)
  {
    forall sid | sid in Selected(t[a].members[es[a].n].node.shard, es[a].opts)
      ensures sid in Targets(t[i], id, es[a].n)
    {
      CalledBeforeIs(t, es, a, i, id, sid);
      TimesWritten(t, es, i, id, sid);
      IsTarget(t[i], id, es[a].n, sid);
    }
  }

  lemma TargetsByNode(t: seq<Cluster>, es: seq<Event>, i: nat, id: Id)
    requires Run(t, es) && i < |t|
    ensures forall sid | sid in AllTargets(t[i], id) ::
              sid.home in t[i].members && sid in Targets(t[i], id, sid.home)
    ensures forall m, sid | sid in Targets(t[i], id, m) :: sid in AllTargets(t[i], id) && sid.home == m
  {
    forall sid | sid in AllTargets(t[i], id)
      ensures sid.home in t[i].members && sid in Targets(t[i], id, sid.home)
    {
      TargetLives(t, es, i, id, sid);
      IsTarget(t[i], id, sid.home, sid);
    }
    forall m, sid | sid in Targets(t[i], id, m) ensures sid in AllTargets(t[i], id) && sid.home == m {
      IsTarget(t[i], id, m, sid);
    }
  }

  lemma ToldSets(c: Cluster, id: Id, n: NodeId, own: set<Sid>)
    requires n in c.members && own <= Targets(c, id, n)
    requires forall sid | sid in AllTargets(c, id) :: sid.home in c.members && sid in Targets(c, id, sid.home)
    requires forall m, sid | sid in Targets(c, id, m) :: sid in AllTargets(c, id) && sid.home == m
    ensures EachHome(ToldOf(c, id, n, own)) && Told(ToldOf(c, id, n, own), c.members.Keys) <= AllTargets(c, id)
    ensures Told(ToldOf(c, id, n, own), c.members.Keys) == AllTargets(c, id) <==> Targets(c, id, n) <= own
  {
    var told := ToldOf(c, id, n, own);
    forall sid ensures sid in Told(told, c.members.Keys) <==>
                         sid in AllTargets(c, id) && (sid.home == n ==> sid in own)
    {
      if sid in AllTargets(c, id) && (sid.home == n ==> sid in own) { assert sid in told[sid.home]; }
    }
  }

  lemma ToldIsSome(t: seq<Cluster>, es: seq<Event>, i: nat, id: Id, a: nat)
    requires Run(t, es) && a < i < |t| && a < |es| && es[a].Broadcast? && es[a].id == id && es[a].n in t[a].members
    ensures var own := Selected(t[a].members[es[a].n].node.shard, es[a].opts);
            var told := ToldOf(t[i], id, es[a].n, own);
            && EachHome(told) && Told(told, t[i].members.Keys) <= AllTargets(t[i], id)
            && (Told(told, t[i].members.Keys) == AllTargets(t[i], id) <==> Targets(t[i], id, es[a].n) <= own)
  {
    var own := Selected(t[a].members[es[a].n].node.shard, es[a].opts);
    RunAdds(t, es, a, i);
    OwnIsWritten(t, es, a, i, id);
    TargetsByNode(t, es, i, id);
    ToldSets(t[i], id, es[a].n, own);
  }

  lemma SameSize<T>(a: set<T>, b: set<T>)
    requires a <= b
    ensures |a| <= |b| && (|a| == |b| <==> a == b)
  {
    assert b == a + (b - a);
  }

  lemma SomeReport(c: Cluster, id: Id, m: NodeId) returns (k: nat)
    requires m in Reporters(c.ackCalls, id)
    ensures k < |c.ackCalls| && c.ackCalls[k].CountCall? && c.ackCalls[k].id == id && c.ackCalls[k].from == m
  {
    var x :| x in c.ackCalls && x.CountCall? && x.id == id && x.from == m;
    k :| 0 <= k < |c.ackCalls| && c.ackCalls[k] == x;
  }

  lemma SomeoneThere(c: Cluster, d: Cluster) returns (m: NodeId)
    requires Init(c) && Extends(c, d)
    ensures m in d.members
  {
    m :| m in c.members;
  }

  lemma SomeCount(t: seq<Cluster>, es: seq<Event>, i: nat, id: Id) returns (a: nat)
    requires Run(t, es) && i < |t| && Reporters(t[i].ackCalls, id) == t[i].members.Keys
    ensures a < i && a < |es| && es[a].Broadcast? && es[a].id == id && es[a].n in t[a].members
  {
    AcksAlways(t, es, i);
    RunAdds(t, es, 0, i);
    var m := SomeoneThere(t[0], t[i]);
    var j := SomeReport(t[i], id, m);
    assert CallOk(t[i], t[i].ackCalls[j]) && LogOk(t[i]);
    var k := SomeReport(t[i], id, Req(t[i], id).uid);
    a := OwnCountIs(t, es, i, k);
  }

  /** At step `b` the node that called at step `a` reads its own copy late, and the options pick `sid` there. */
  ghost predicate LatePick(t: seq<Cluster>, es: seq<Event>, a: nat, b: nat, id: Id, sid: Sid) {
    a < |es| && ReadAt(t, es, b, id, sid) && es[a].Broadcast? && es[b].n == es[a].n
  }

  lemma OwnTargetsIff(t: seq<Cluster>, es: seq<Event>, i: nat, id: Id, a: nat)
    requires Run(t, es) && a < i < |t| && a < |es| && es[a].Broadcast? && es[a].id == id && es[a].n in t[a].members
    ensures Targets(t[i], id, es[a].n) <= Selected(t[a].members[es[a].n].node.shard, es[a].opts) <==>
              forall b: nat, sid | b < i && LatePick(t, es, a, b, id, sid) ::
                sid in Selected(t[a].members[es[a].n].node.shard, es[a].opts)
  {
    var own := Selected(t[a].members[es[a].n].node.shard, es[a].opts);
    forall b: nat, sid | b < i && LatePick(t, es, a, b, id, sid) ensures sid in Targets(t[i], id, es[a].n) {
      ReadByHome(t, es, b, id, sid);
      TimesWritten(t, es, i, id, sid);
      IsTarget(t[i], id, es[a].n, sid);
    }
    forall sid | sid in Targets(t[i], id, es[a].n) && sid !in own
      ensures exists b: nat :: b < i && LatePick(t, es, a, b, id, sid)
    {
      IsTarget(t[i], id, es[a].n, sid);
      TimesWritten(t, es, i, id, sid);
      CalledBeforeIs(t, es, a, i, id, sid);
      var b: nat :| b < i && ReadAt(t, es, b, id, sid);
      ReadByHome(t, es, b, id, sid);
      assert LatePick(t, es, a, b, id, sid);
    }
  }

  /**
   The counts, in every run. Once every node's count has been called, they add up to no more
   than the sockets that got the packet, and to exactly those if and only if the origin did
   not, reading its own copy late, write to a socket it had not picked at the call, step `a`.
   */
  lemma CountsAddUpIff(t: seq<Cluster>, es: seq<Event>, i: nat, id: Id) returns (a: nat)
    requires Run(t, es) && i < |t| && Reporters(t[i].ackCalls, id) == t[i].members.Keys
    ensures a < i && a < |es| && es[a].Broadcast? && es[a].id == id && es[a].n in t[a].members
    ensures CountsFor(t[i].ackCalls, id) <= |AllTargets(t[i], id)|
    ensures CountsFor(t[i].ackCalls, id) == |AllTargets(t[i], id)| <==>
              forall b: nat, sid | b < i && LatePick(t, es, a, b, id, sid) ::
                sid in Selected(t[a].members[es[a].n].node.shard, es[a].opts)
  {
    a := SomeCount(t, es, i, id);
    var c := t[i];
    var own := Selected(t[a].members[es[a].n].node.shard, es[a].opts);
    var told := ToldOf(c, id, es[a].n, own);
    AcksAlways(t, es, i);
    ToldIsSome(t, es, i, id, a);
    forall x | x in c.ackCalls && x.CountCall? && x.id == id ensures x.from in told && x.count == |told[x.from]| {
      CountIsTold(t, es, i, id, x, a);
    }
    CountsAreTold(c.ackCalls, id, told);
    SameSize(Told(told, c.members.Keys), AllTargets(c, id));
    OwnTargetsIff(t, es, i, id, a);
  }

  // ----- Nothing that arrives in time is lost -----

  ghost predicate HeardAck(c: Cluster, n: NodeId, id: Id, sid: Sid) {
    exists j :: 0 <= j < |c.sent| && (n, j) in c.heard && IsAck(c.sent[j], id, sid)
  }

  ghost predicate HeardCount(c: Cluster, n: NodeId, id: Id, m: NodeId) {
    exists j :: 0 <= j < |c.sent| && (n, j) in c.heard && c.sent[j].from == m &&
                c.sent[j].response.id == id && c.sent[j].response.payload.ClientCount?
  }

  /** While the entry is there, its own count and every count and acknowledgement heard have been called. */
  ghost predicate CalledOne(c: Cluster, n: NodeId, id: Id) {
    && n in Reporters(c.ackCalls, id)
    && (forall m | HeardCount(c, n, id, m) :: m in Reporters(c.ackCalls, id))
    && (forall sid | HeardAck(c, n, id, sid) :: sid in Acked(c.ackCalls, id))
  }

  ghost predicate Called(c: Cluster) {
    forall n, id | n in c.members && id in c.members[n].node.ackRequests :: CalledOne(c, n, id)
  }

  lemma HeardNoMore(c: Cluster, d: Cluster, n: NodeId, id: Id)
    requires HeardOk(c) && d.heard == c.heard && c.sent <= d.sent
    ensures forall m | HeardCount(d, n, id, m) :: HeardCount(c, n, id, m)
    ensures forall sid | HeardAck(d, n, id, sid) :: HeardAck(c, n, id, sid)
  {
    forall m | HeardCount(d, n, id, m) ensures HeardCount(c, n, id, m) {
      var j :| 0 <= j < |d.sent| && (n, j) in d.heard && d.sent[j].from == m &&
               d.sent[j].response.id == id && d.sent[j].response.payload.ClientCount?;
      assert c.sent[j] == d.sent[j];
    }
    forall sid | HeardAck(d, n, id, sid) ensures HeardAck(c, n, id, sid) {
      var j :| 0 <= j < |d.sent| && (n, j) in d.heard && IsAck(d.sent[j], id, sid);
      assert c.sent[j] == d.sent[j];
    }
  }

  lemma CallsGrow(c: Cluster, d: Cluster, id: Id)
    requires c.ackCalls <= d.ackCalls
    ensures Reporters(c.ackCalls, id) <= Reporters(d.ackCalls, id)
    ensures Acked(c.ackCalls, id) <= Acked(d.ackCalls, id)
  {
    forall x | x in c.ackCalls ensures x in d.ackCalls {
      var i :| 0 <= i < |c.ackCalls| && c.ackCalls[i] == x;
      assert d.ackCalls[i] == x;
    }
  }

  lemma CalledOneStays(c: Cluster, d: Cluster, n: NodeId, id: Id)
    requires CalledOne(c, n, id) && HeardOk(c)
    requires d.heard == c.heard && c.sent <= d.sent && c.ackCalls <= d.ackCalls
    ensures CalledOne(d, n, id)
  {
    HeardNoMore(c, d, n, id);
    CallsGrow(c, d, id);
  }

  lemma CalledUnheard(c: Cluster, d: Cluster)
    requires Called(c) && HeardOk(c) && Unheard(c, d)
    ensures Called(d)
  {
    forall n, id | n in d.members && id in d.members[n].node.ackRequests ensures CalledOne(d, n, id) {
      CalledOneStays(c, d, n, id);
    }
  }

  lemma FreshIsCalled(c: Cluster, d: Cluster, n: NodeId, id: Id, opts: Opts)
    requires Mail(c) && BroadcastDone(c, d, n, id, opts) && id !in c.issued
    ensures CalledOne(d, n, id)
  {
    var call := CountCall(id, n, |Selected(c.members[n].node.shard, opts)|);
    assert d.ackCalls[|c.ackCalls|] == call && call in d.ackCalls;
    forall j | 0 <= j < |d.sent| ensures d.sent[j].response.id != id { assert EnvelopeOk(c, c.sent[j]); }
  }

  lemma CalledBroadcast(c: Cluster, n: NodeId, id: Id, opts: Opts)
    requires Mail(c) && Called(c) && Enabled(c, Broadcast(n, id, opts))
    ensures Called(Next(c, Broadcast(n, id, opts)))
  {
    var d := Next(c, Broadcast(n, id, opts));
    BroadcastSummary(c, n, id, opts);
    assert id !in c.issued;
    forall m, x | m in d.members && x in d.members[m].node.ackRequests ensures CalledOne(d, m, x) {
      if x in c.members[m].node.ackRequests {
        CalledOneStays(c, d, m, x);
      } else {
        FreshIsCalled(c, d, n, id, opts);
      }
    }
  }

  lemma ArrivedIsCalled(c: Cluster, d: Cluster, n: NodeId, j: nat)
    requires ArrivedCall(c, d, n, j) && c.sent[j].response.id in c.members[n].node.ackRequests
    requires c.sent[j].response.payload.ClientCount? || c.sent[j].response.payload.ClientAck?
    ensures AckCallOf(c.sent[j]) in d.ackCalls
  {
    assert d.ackCalls[|c.ackCalls|] == AckCallOf(c.sent[j]);
  }

  lemma CountsArrived(c: Cluster, d: Cluster, n: NodeId, j: nat, m: NodeId, id: Id)
    requires ArrivedCall(c, d, n, j) && m in c.members && id in c.members[m].node.ackRequests && CalledOne(c, m, id)
    ensures forall f | HeardCount(d, m, id, f) :: f in Reporters(d.ackCalls, id)
  {
    CallsGrow(c, d, id);
    forall f | HeardCount(d, m, id, f) ensures f in Reporters(d.ackCalls, id) {
      var k :| 0 <= k < |d.sent| && (m, k) in d.heard && d.sent[k].from == f &&
               d.sent[k].response.id == id && d.sent[k].response.payload.ClientCount?;
      if (m, k) in c.heard {
        assert HeardCount(c, m, id, f);
      } else {
        ArrivedIsCalled(c, d, n, j);
      }
    }
  }

  lemma AcksArrived(c: Cluster, d: Cluster, n: NodeId, j: nat, m: NodeId, id: Id)
    requires ArrivedCall(c, d, n, j) && m in c.members && id in c.members[m].node.ackRequests && CalledOne(c, m, id)
    ensures forall sid | HeardAck(d, m, id, sid) :: sid in Acked(d.ackCalls, id)
  {
    CallsGrow(c, d, id);
    forall sid | HeardAck(d, m, id, sid) ensures sid in Acked(d.ackCalls, id) {
      var k :| 0 <= k < |d.sent| && (m, k) in d.heard && IsAck(d.sent[k], id, sid);
      if (m, k) in c.heard {
        assert HeardAck(c, m, id, sid);
      } else {
        ArrivedIsCalled(c, d, n, j);
      }
    }
  }

  lemma CalledDeliver(c: Cluster, d: Cluster, n: NodeId, j: nat)
    requires Called(c) && ArrivedCall(c, d, n, j)
    requires forall m | m in d.members ::
               m in c.members && d.members[m].node.ackRequests == c.members[m].node.ackRequests
    ensures Called(d)
  {
    forall m, id | m in d.members && id in d.members[m].node.ackRequests ensures CalledOne(d, m, id) {
      assert CalledOne(c, m, id);
      CallsGrow(c, d, id);
      CountsArrived(c, d, n, j, m, id);
      AcksArrived(c, d, n, j, m, id);
    }
  }

  lemma CalledKept(c: Cluster, e: Event)
    requires Mail(c) && Called(c) && Enabled(c, e)
    ensures Called(Next(c, e))
  {
    if e.Broadcast? {
      CalledBroadcast(c, e.n, e.id, e.opts);
    } else if e.Deliver? {
      DeliverArrives(c, e.n, e.j);
      DeliverKeepsEntries(c, e.n, e.j);
      CalledDeliver(c, Next(c, e), e.n, e.j);
    } else {
      UnheardSteps(c, e);
      CalledUnheard(c, Next(c, e));
    }
  }

  lemma {:induction false} CalledAlways(t: seq<Cluster>, es: seq<Event>, i: nat)
    requires Run(t, es) && i < |t|
    ensures Called(t[i])
  {
    if i > 0 {
      CalledAlways(t, es, i - 1);
      MailAlways(t, es, i - 1);
      assert Stepped(t, es, i - 1);
      CalledKept(t[i - 1], es[i - 1]);
    }
  }

  lemma ReportersAreMembers(c: Cluster, id: Id)
    requires IssuedOk(c) && AckCallsOk(c)
    ensures Reporters(c.ackCalls, id) <= c.members.Keys
  {
    forall x | x in c.ackCalls && x.CountCall? ensures x.from in c.members {
      var k :| 0 <= k < |c.ackCalls| && c.ackCalls[k] == x;
      assert CallOk(c, c.ackCalls[k]);
    }
  }

  /** An entry that is gone stays gone. */
  lemma {:induction false} NoEntryStays(t: seq<Cluster>, es: seq<Event>, b: nat, i: nat, n: NodeId, id: Id)
    requires Run(t, es) && b <= i < |t| && id in t[b].issued && NoEntry(t[b], n, id)
    ensures NoEntry(t[i], n, id)
    decreases i
  {
    if b < i {
      NoEntryStays(t, es, b, i - 1, n, id);
      RunAdds(t, es, b, i - 1);
      MailAlways(t, es, i - 1);
      assert Stepped(t, es, i - 1);
      StepGrows(t[i - 1], es[i - 1]);
    }
  }

  /** While the entry is there, the origin has not read its own copy late. */
  lemma NotPickedLate(t: seq<Cluster>, es: seq<Event>, a: nat, b: nat, i: nat, n: NodeId, id: Id, sid: Sid)
    requires Run(t, es) && a < |es| && b < i < |t| && es[a].Broadcast? && es[a].n == n
    requires n in t[i].members && id in t[i].members[n].node.ackRequests
    ensures !LatePick(t, es, a, b, id, sid)
  {
    if LatePick(t, es, a, b, id, sid) {
      ReadByHome(t, es, b, id, sid);
      NoEntryStays(t, es, b, i, n, id);
    }
  }

  /**
   When every other node's count has reached the origin before its timer, the counts called
   back add up to the number of sockets that were sent the packet, and every client
   acknowledgement that has reached it has been called back.
   */
  lemma InTimeCountsAddUp(t: seq<Cluster>, es: seq<Event>, i: nat, n: NodeId, id: Id)
    requires Run(t, es) && i < |t|
    requires n in t[i].members && id in t[i].members[n].node.ackRequests
    requires forall m | m in t[i].members && m != n :: HeardCount(t[i], n, id, m)
    ensures CountsFor(t[i].ackCalls, id) == |AllTargets(t[i], id)|
    ensures forall sid | HeardAck(t[i], n, id, sid) :: sid in Acked(t[i].ackCalls, id)
  {
    var c := t[i];
    CalledAlways(t, es, i);
    AcksAlways(t, es, i);
    assert CalledOne(c, n, id);
    ReportersAreMembers(c, id);
    assert Reporters(c.ackCalls, id) == c.members.Keys;
    var a := CountsAddUpIff(t, es, i, id);
    AckIsMine(c, n, id);
    CallIsRequest(t, es, a, i);
    forall b: nat, sid | b < i ensures !LatePick(t, es, a, b, id, sid) {
      NotPickedLate(t, es, a, b, i, n, id, sid);
    }
  }
}
