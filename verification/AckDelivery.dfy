/**
 No acknowledgement of a broadcast is lost. Each time the packet was written to a socket, its
 client owes one answer, until that answer is published or called; and while the origin keeps
 its entry, what is published arrives at the callback.
 */
module AckDelivery {
  import opened Option
  import opened RoomNames
  import opened Shards
  import opened AdapterNode
  import opened Cluster
  import opened ClusterInvariants
  import opened ClusterLedger
  import opened ClusterMail
  import opened Gathers
  import opened ClusterTheorems
  import opened BroadcastWrites
  import opened BroadcastAcks

  // ----- Where an answer can be -----

  /** The client of `sid` has still to answer, straight to the callback or by a response. */
  ghost predicate IsOwed(c: Cluster, id: Id, sid: Sid, direct: bool) {
    sid.home in c.members && Owed(id, sid, direct) in c.members[sid.home].node.awaiting
  }

  ghost predicate IsPublished(c: Cluster, id: Id, sid: Sid) {
    exists j :: 0 <= j < |c.sent| && IsAck(c.sent[j], id, sid)
  }

  /** The callback has been called on the socket's own node, which is the origin. */
  ghost predicate IsCalledAtHome(c: Cluster, id: Id, sid: Sid)
    requires IssuedOk(c)
  {
    id in c.issued && Req(c, id).uid == sid.home && ValueCall(id, sid) in c.ackCalls
  }

  ghost function Times(b: bool): nat { if b then 1 else 0 }

  /** In how many of these places the answer of `sid` is. */
  ghost function Places(c: Cluster, id: Id, sid: Sid): nat
    requires IssuedOk(c)
  {
    Times(IsOwed(c, id, sid, true)) + Times(IsOwed(c, id, sid, false)) +
    Times(IsPublished(c, id, sid)) + Times(IsCalledAtHome(c, id, sid))
  }

  // ----- Steps that leave the answers where they are -----

  ghost predicate AwaitingKept(c: Cluster, d: Cluster) {
    && d.members.Keys == c.members.Keys
    && forall n | n in c.members :: d.members[n].node.awaiting == c.members[n].node.awaiting
  }

  lemma CallAwaits(c: Cluster, e: Event)
    requires Mail(c) && IsCall(e) && Enabled(c, e)
    ensures AwaitingKept(c, Next(c, e))
  {
    CallSummary(c, e);
  }

  lemma RestAwaits(c: Cluster, e: Event)
    requires Mail(c) && Enabled(c, e)
    requires !IsCall(e) && !e.Consume? && !e.Broadcast? && !e.SocketAck?
    ensures AwaitingKept(c, Next(c, e))
  {
    if e.Timeout? { TimeoutTurn(c, e.n, e.id); }
    else if e.Deliver? { DeliverTurn(c, e.n, e.j); }
  }

  lemma IgnoredAwaits(c: Cluster, n: NodeId, answer: Answer)
    requires Mail(c) && Enabled(c, Consume(n, answer)) && Ignores(c.members[n].node, c.log[c.members[n].seen])
    ensures AwaitingKept(c, Next(c, Consume(n, answer)))
  {
    ConsumeTurn(c, n, answer);
    IgnoredOwes(n, c.members[n].node, c.log[c.members[n].seen], answer);
  }

  lemma PublishedSame(c: Cluster, d: Cluster, id: Id, sid: Sid)
    requires c.sent <= d.sent && |d.sent| <= |c.sent| + 1
    requires |d.sent| == |c.sent| + 1 ==> !d.sent[|c.sent|].response.payload.ClientAck?
    ensures IsPublished(d, id, sid) <==> IsPublished(c, id, sid)
  {
    if j :| 0 <= j < |c.sent| && IsAck(c.sent[j], id, sid) { assert IsAck(d.sent[j], id, sid); }
    if j :| 0 <= j < |d.sent| && IsAck(d.sent[j], id, sid) { assert IsAck(c.sent[j], id, sid); }
  }

  /** A callback called belongs to a request that is there, and stays the one it is. */
  lemma CalledAtHomeSame(c: Cluster, d: Cluster, id: Id, sid: Sid)
    requires IssuedOk(c) && AckCallsOk(c) && Grows(c, d)
    requires ValueCall(id, sid) in d.ackCalls ==> ValueCall(id, sid) in c.ackCalls
    ensures IsCalledAtHome(d, id, sid) <==> IsCalledAtHome(c, id, sid)
  {
    if ValueCall(id, sid) in c.ackCalls {
      var k :| 0 <= k < |c.ackCalls| && c.ackCalls[k] == ValueCall(id, sid);
      assert CallOk(c, c.ackCalls[k]) && d.ackCalls[k] == c.ackCalls[k];
      ReqStays(c, d, id);
    }
  }

  lemma PlacesAside(c: Cluster, d: Cluster, id: Id, sid: Sid)
    requires Acks(c) && Grows(c, d) && AwaitingKept(c, d) && Aside(c, d)
    ensures Places(d, id, sid) == Places(c, id, sid)
  {
    PublishedSame(c, d, id, sid);
    CalledAtHomeSame(c, d, id, sid);
  }

  /** What arrives was published by another node, so it is not called at the socket's home. */
  /** If it is about a socket, then about one of another node than the origin's. */
  ghost predicate NotFromHome(c: Cluster, call: AckCall)
    requires IssuedOk(c)
  {
    call.ValueCall? ==> call.id in c.issued && Req(c, call.id).uid != call.sid.home
  }

  lemma TakenFromAway(c: Cluster, n: NodeId, j: nat)
    requires Acks(c) && n in c.members && j < |c.sent| && OnResponse(c.members[n].node, c.sent[j].response).acked
    ensures AboutAck(c.sent[j]) && NotFromHome(c, AckCallOf(c.sent[j]))
  {
    TakenIsOthers(c, n, j);
    assert AckEnvelopeOk(c, c.sent[j]);
  }

  lemma CalledFromAway(c: Cluster, d: Cluster, call: AckCall, id: Id, sid: Sid)
    requires IssuedOk(c) && AckCallsOk(c) && Grows(c, d) && d.ackCalls == c.ackCalls + [call]
    requires NotFromHome(c, call)
    ensures IsCalledAtHome(d, id, sid) <==> IsCalledAtHome(c, id, sid)
  {
    if call == ValueCall(id, sid) { ReqStays(c, d, id); } else { CalledAtHomeSame(c, d, id, sid); }
  }

  lemma ArrivedAtHome(c: Cluster, d: Cluster, n: NodeId, j: nat, id: Id, sid: Sid)
    requires IssuedOk(c) && AckCallsOk(c) && Grows(c, d) && ArrivedCall(c, d, n, j)
    requires OnResponse(c.members[n].node, c.sent[j].response).acked ==>
               AboutAck(c.sent[j]) && NotFromHome(c, AckCallOf(c.sent[j]))
    ensures IsCalledAtHome(d, id, sid) <==> IsCalledAtHome(c, id, sid)
  {
    if OnResponse(c.members[n].node, c.sent[j].response).acked {
      CalledFromAway(c, d, AckCallOf(c.sent[j]), id, sid);
    } else {
      CalledAtHomeSame(c, d, id, sid);
    }
  }

  lemma PlacesDeliver(c: Cluster, d: Cluster, n: NodeId, j: nat, id: Id, sid: Sid)
    requires IssuedOk(c) && AckCallsOk(c) && Grows(c, d) && AwaitingKept(c, d) && ArrivedCall(c, d, n, j)
    requires OnResponse(c.members[n].node, c.sent[j].response).acked ==>
               AboutAck(c.sent[j]) && NotFromHome(c, AckCallOf(c.sent[j]))
    ensures Places(d, id, sid) == Places(c, id, sid)
  {
    ArrivedAtHome(c, d, n, j, id, sid);
  }

  // ----- Steps that write the packet -----

  lemma NotOwedYet(c: Cluster, id: Id, sid: Sid)
    requires Mail(c) && id !in c.issued
    ensures !IsOwed(c, id, sid, true) && !IsOwed(c, id, sid, false)
  {
  }

  lemma UnreadNotOwed(c: Cluster, id: Id, sid: Sid)
    requires Mail(c) && id in c.issued && sid.home in c.members && c.members[sid.home].seen <= c.issued[id]
    ensures !IsOwed(c, id, sid, false)
  {
  }

  lemma WrittenOwes(c: Cluster, d: Cluster, n: NodeId, x: Id, opts: Opts, id: Id, sid: Sid, direct: bool)
    requires MembersOk(c) && BroadcastDone(c, d, n, x, opts)
    ensures IsOwed(d, id, sid, direct) <==>
              IsOwed(c, id, sid, direct) || (direct && WrittenByCall(c, Broadcast(n, x, opts), id, sid))
  {
  }

  lemma PlacesBroadcast(c: Cluster, n: NodeId, x: Id, opts: Opts, id: Id, sid: Sid)
    requires Acks(c) && Enabled(c, Broadcast(n, x, opts)) && Grows(c, Next(c, Broadcast(n, x, opts)))
    ensures Places(Next(c, Broadcast(n, x, opts)), id, sid) ==
              Places(c, id, sid) + Times(WrittenByCall(c, Broadcast(n, x, opts), id, sid))
  {
    var d := Next(c, Broadcast(n, x, opts));
    BroadcastSummary(c, n, x, opts);
    WrittenOwes(c, d, n, x, opts, id, sid, true);
    WrittenOwes(c, d, n, x, opts, id, sid, false);
    PublishedSame(c, d, id, sid);
    CalledAtHomeSame(c, d, id, sid);
    NotOwedYet(c, x, sid);
  }

  lemma ReadOwes(uid: NodeId, node: Node, message: Message, answer: Answer)
    requires message.body.BroadcastWithAck? && message.id.Some? && message.id.value !in node.ackRequests
    ensures OnRequest(uid, node, message, answer).node.awaiting ==
              node.awaiting + set s | s in Selected(node.shard, message.body.opts) :: Owed(message.id.value, s, false)
  {
  }

  lemma ReadAwaits(c: Cluster, m: NodeId, answer: Answer, x: Id, id: Id, sid: Sid, direct: bool)
    requires Mail(c) && Enabled(c, Consume(m, answer)) && Handles(c, Consume(m, answer), x)
    ensures IsOwed(Next(c, Consume(m, answer)), id, sid, direct) <==>
              IsOwed(c, id, sid, direct) || (!direct && WrittenByRead(c, Consume(m, answer), id, sid))
  {
    ConsumeTurn(c, m, answer);
    ReadOwes(m, c.members[m].node, c.log[c.members[m].seen], answer);
    assert Homed(c.members[m].node.shard, m);
  }

  lemma PlacesRead(c: Cluster, m: NodeId, answer: Answer, x: Id, id: Id, sid: Sid)
    requires Acks(c) && Enabled(c, Consume(m, answer)) && Handles(c, Consume(m, answer), x)
    requires Grows(c, Next(c, Consume(m, answer)))
    ensures Places(Next(c, Consume(m, answer)), id, sid) ==
              Places(c, id, sid) + Times(WrittenByRead(c, Consume(m, answer), id, sid))
  {
    var d := Next(c, Consume(m, answer));
    ConsumeHandles(c, m, answer, x);
    ReadAwaits(c, m, answer, x, id, sid, true);
    ReadAwaits(c, m, answer, x, id, sid, false);
    PublishedSame(c, d, id, sid);
    CalledAtHomeSame(c, d, id, sid);
    if WrittenByRead(c, Consume(m, answer), id, sid) {
      assert Homed(c.members[m].node.shard, m);
      UnreadNotOwed(c, id, sid);
    }
  }

  lemma ConsumePlaces(c: Cluster, m: NodeId, answer: Answer, id: Id, sid: Sid)
    requires Acks(c) && Enabled(c, Consume(m, answer)) && Grows(c, Next(c, Consume(m, answer)))
    ensures Places(Next(c, Consume(m, answer)), id, sid) ==
              Places(c, id, sid) + Times(WrittenByRead(c, Consume(m, answer), id, sid))
  {
    var message := c.log[c.members[m].seen];
    if Ignores(c.members[m].node, message) {
      IgnoredIsAside(c, m, answer);
      IgnoredAwaits(c, m, answer);
      PlacesAside(c, Next(c, Consume(m, answer)), id, sid);
    } else {
      assert LogOk(c) && message.id.Some?;
      PlacesRead(c, m, answer, message.id.value, id, sid);
    }
  }

  // ----- The step in which a client answers -----

  lemma AnswerAwaits(c: Cluster, n: NodeId, owed: Owed)
    requires Enabled(c, SocketAck(n, owed))
    ensures var d := Next(c, SocketAck(n, owed));
            && d.members.Keys == c.members.Keys
            && forall m | m in c.members ::
                 d.members[m].node.awaiting == c.members[m].node.awaiting - if m == n then {owed} else {}
  {
  }

  /** What is owed has been neither published nor called. */
  lemma IsNowhereElse(c: Cluster, n: NodeId, owed: Owed)
    requires Mail(c) && OwedGood(c, n, owed) && n in c.members && owed in c.members[n].node.awaiting
    ensures IsOwed(c, owed.id, owed.sid, owed.direct)
    ensures !owed.direct ==> !IsPublished(c, owed.id, owed.sid)
    ensures owed.direct ==> !IsCalledAtHome(c, owed.id, owed.sid)
  {
  }

  lemma AnswerOwes(c: Cluster, n: NodeId, owed: Owed, id: Id, sid: Sid, direct: bool)
    requires Mail(c) && Enabled(c, SocketAck(n, owed))
    ensures IsOwed(Next(c, SocketAck(n, owed)), id, sid, direct) <==>
              IsOwed(c, id, sid, direct) && owed != Owed(id, sid, direct)
  {
    AnswerAwaits(c, n, owed);
    assert AwaitOk(c, n, owed);
  }

  lemma AnswerPublishes(c: Cluster, d: Cluster, n: NodeId, owed: Owed, id: Id, sid: Sid)
    requires Acknowledged(c, d, n, owed) && c.sent <= d.sent
    ensures IsPublished(d, id, sid) <==> IsPublished(c, id, sid) || owed == Owed(id, sid, false)
  {
    if owed == Owed(id, sid, false) { assert IsAck(d.sent[|c.sent|], id, sid); }
    if j :| 0 <= j < |c.sent| && IsAck(c.sent[j], id, sid) { assert IsAck(d.sent[j], id, sid); }
    if j :| 0 <= j < |d.sent| && IsAck(d.sent[j], id, sid) {
      if j < |c.sent| { assert IsAck(c.sent[j], id, sid); }
    }
  }

  lemma AnswerCalls(c: Cluster, d: Cluster, n: NodeId, owed: Owed, id: Id, sid: Sid)
    requires IssuedOk(c) && OwedGood(c, n, owed) && AckCallsOk(c) && Grows(c, d) && Acknowledged(c, d, n, owed)
    ensures IsCalledAtHome(d, id, sid) <==> IsCalledAtHome(c, id, sid) || owed == Owed(id, sid, true)
  {
    if owed == Owed(id, sid, true) {
      assert d.ackCalls[|c.ackCalls|] == ValueCall(id, sid);
      ReqStays(c, d, id);
    } else {
      CalledAtHomeSame(c, d, id, sid);
    }
  }

  lemma PlacesAnswer(c: Cluster, n: NodeId, owed: Owed, id: Id, sid: Sid)
    requires Acks(c) && Enabled(c, SocketAck(n, owed)) && Grows(c, Next(c, SocketAck(n, owed)))
    ensures Places(Next(c, SocketAck(n, owed)), id, sid) == Places(c, id, sid)
  {
    var d := Next(c, SocketAck(n, owed));
    SocketAckMoves(c, n, owed);
    assert OwedGood(c, n, owed);
    AnswerOwes(c, n, owed, id, sid, true);
    AnswerOwes(c, n, owed, id, sid, false);
    AnswerPublishes(c, d, n, owed, id, sid);
    AnswerCalls(c, d, n, owed, id, sid);
    IsNowhereElse(c, n, owed);
  }

  // ----- Conservation -----

  lemma DeliverPlaces(c: Cluster, n: NodeId, j: nat, id: Id, sid: Sid)
    requires Acks(c) && Enabled(c, Deliver(n, j)) && Grows(c, Next(c, Deliver(n, j)))
    ensures Places(Next(c, Deliver(n, j)), id, sid) == Places(c, id, sid)
  {
    RestAwaits(c, Deliver(n, j));
    DeliverArrives(c, n, j);
    if OnResponse(c.members[n].node, c.sent[j].response).acked { TakenFromAway(c, n, j); }
    PlacesDeliver(c, Next(c, Deliver(n, j)), n, j, id, sid);
  }

  lemma OtherPlaces(c: Cluster, e: Event, id: Id, sid: Sid)
    requires Acks(c) && Enabled(c, e) && Grows(c, Next(c, e))
    requires !e.Consume? && !e.Broadcast? && !e.SocketAck? && !e.Deliver?
    ensures Places(Next(c, e), id, sid) == Places(c, id, sid)
  {
    if IsCall(e) { CallAwaits(c, e); CallIsAside(c, e); } else { RestAwaits(c, e); RestIsAside(c, e); }
    PlacesAside(c, Next(c, e), id, sid);
  }

  lemma StepPlaces(c: Cluster, e: Event, id: Id, sid: Sid)
    requires Acks(c) && Enabled(c, e) && IssuedOk(Next(c, e))
    ensures Places(Next(c, e), id, sid) ==
              Places(c, id, sid) + Times(WrittenByCall(c, e, id, sid) || WrittenByRead(c, e, id, sid))
  {
    StepGrows(c, e);
    if e.Broadcast? {
      PlacesBroadcast(c, e.n, e.id, e.opts, id, sid);
    } else if e.SocketAck? {
      PlacesAnswer(c, e.n, e.owed, id, sid);
    } else if e.Deliver? {
      DeliverPlaces(c, e.n, e.j, id, sid);
    } else if e.Consume? {
      ConsumePlaces(c, e.n, e.answer, id, sid);
    } else {
      OtherPlaces(c, e, id, sid);
    }
  }

  lemma StepPlacesAt(t: seq<Cluster>, es: seq<Event>, i: nat, id: Id, sid: Sid)
    requires Run(t, es) && i < |es| && IssuedOk(t[i]) && IssuedOk(t[i + 1])
    ensures Places(t[i + 1], id, sid) + t[i].sends[(id, sid)] == Places(t[i], id, sid) + t[i + 1].sends[(id, sid)]
  {
    AcksAlways(t, es, i);
    assert Stepped(t, es, i);
    StepPlaces(t[i], es[i], id, sid);
    StepSends(t[i], es[i], id, sid);
  }

  lemma {:induction false} PlacesAreWrites(t: seq<Cluster>, es: seq<Event>, i: nat, id: Id, sid: Sid)
    requires Run(t, es) && i < |t|
    ensures IssuedOk(t[i]) && Places(t[i], id, sid) == t[i].sends[(id, sid)]
  {
    MailAlways(t, es, i);
    if i > 0 {
      PlacesAreWrites(t, es, i - 1, id, sid);
      StepPlacesAt(t, es, i - 1, id, sid);
    }
  }

  /**
   Conservation of acknowledgements, in every run: the answer of a socket is owed straight to
   the callback, owed as a response, published, or called at the socket's own node, and counted
   over these it is there once for each time the packet was written to the socket.
   */
  lemma AcksConserved(t: seq<Cluster>, es: seq<Event>, i: nat, id: Id, sid: Sid)
    requires Run(t, es) && i < |t|
    ensures IssuedOk(t[i])
    ensures Times(IsOwed(t[i], id, sid, true)) + Times(IsOwed(t[i], id, sid, false)) +
            Times(IsPublished(t[i], id, sid)) + Times(IsCalledAtHome(t[i], id, sid)) == t[i].sends[(id, sid)]
  {
    PlacesAreWrites(t, es, i, id, sid);
  }

  // ----- While the origin waits -----

  /** Delivered to node `n`, response `j` calls the callback with the acknowledgement of `sid`. */
  ghost predicate Arriving(c: Cluster, n: NodeId, j: nat, id: Id, sid: Sid) {
    && j < |c.sent| && IsAck(c.sent[j], id, sid) && c.sent[j].from == sid.home
    && Enabled(c, Deliver(n, j)) && Next(c, Deliver(n, j)).ackCalls == c.ackCalls + [ValueCall(id, sid)]
  }

  ghost predicate IsOnItsWay(c: Cluster, n: NodeId, id: Id, sid: Sid) {
    exists j: nat :: Arriving(c, n, j, id, sid)
  }

  /** The client may answer now, and then the callback is called, or the answer is on its way. */
  ghost predicate MayAnswer(c: Cluster, n: NodeId, id: Id, sid: Sid) {
    var owed := Owed(id, sid, sid.home == n);
    && Enabled(c, SocketAck(sid.home, owed))
    && var d := Next(c, SocketAck(sid.home, owed));
       if sid.home == n then d.ackCalls == c.ackCalls + [ValueCall(id, sid)] else IsOnItsWay(d, n, id, sid)
  }

  ghost predicate IsCalled(c: Cluster, id: Id, sid: Sid) { ValueCall(id, sid) in c.ackCalls }

  predicate ExactlyOne(a: bool, b: bool, c: bool) {
    (a || b || c) && !(a && b) && !(a && c) && !(b && c)
  }

  ghost predicate HoldsEntry(c: Cluster, n: NodeId, id: Id) {
    n in c.members && id in c.members[n].node.ackRequests
  }

  /** A published acknowledgement that the origin has not heard is on its way to it. */
  lemma UnheardIsOnItsWay(c: Cluster, n: NodeId, j: nat, id: Id, sid: Sid)
    requires Acks(c) && HoldsEntry(c, n, id) && j < |c.sent| && IsAck(c.sent[j], id, sid) && (n, j) !in c.heard
    ensures IsOnItsWay(c, n, id, sid)
  {
    AckIsMine(c, n, id);
    assert EnvelopeOk(c, c.sent[j]) && AckEnvelopeOk(c, c.sent[j]);
    DeliverArrives(c, n, j);
    assert Arriving(c, n, j, id, sid);
  }

  lemma AnswerKeepsEntry(c: Cluster, m: NodeId, owed: Owed, n: NodeId, id: Id)
    requires Enabled(c, SocketAck(m, owed)) && HoldsEntry(c, n, id)
    ensures HoldsEntry(Next(c, SocketAck(m, owed)), n, id) && Next(c, SocketAck(m, owed)).heard == c.heard
  {
  }

  lemma OwedMayAnswer(c: Cluster, n: NodeId, id: Id, sid: Sid)
    requires Acks(c) && HoldsEntry(c, n, id) && IsOwed(c, id, sid, sid.home == n)
    ensures MayAnswer(c, n, id, sid)
  {
    var owed := Owed(id, sid, sid.home == n);
    var d := Next(c, SocketAck(sid.home, owed));
    SocketAckMoves(c, sid.home, owed);
    if sid.home != n {
      AcksKept(c, SocketAck(sid.home, owed));
      AnswerKeepsEntry(c, sid.home, owed, n, id);
      UnheardIsOnItsWay(d, n, |c.sent|, id, sid);
    }
  }

  /** While the origin holds its entry, its own sockets answer directly and all others do not. */
  lemma OneWayToAnswer(c: Cluster, n: NodeId, id: Id, sid: Sid)
    requires Acks(c) && HoldsEntry(c, n, id)
    ensures sid.home == n ==> !IsOwed(c, id, sid, false) && !IsPublished(c, id, sid)
    ensures sid.home != n ==> !IsOwed(c, id, sid, true) && !IsCalledAtHome(c, id, sid)
    ensures sid.home == n && IsCalled(c, id, sid) ==> IsCalledAtHome(c, id, sid)
  {
    AckIsMine(c, n, id);
    if j :| 0 <= j < |c.sent| && IsAck(c.sent[j], id, sid) { assert AckEnvelopeOk(c, c.sent[j]); }
    if IsOwed(c, id, sid, true) { assert OwedGood(c, sid.home, Owed(id, sid, true)); }
  }

  /** For a socket elsewhere: called is heard, and heard is called. */
  lemma CalledIffHeard(c: Cluster, n: NodeId, id: Id, sid: Sid)
    requires Acks(c) && Called(c) && HoldsEntry(c, n, id) && sid.home != n
    ensures IsCalled(c, id, sid) <==> HeardAck(c, n, id, sid)
  {
    AckIsMine(c, n, id);
    if IsCalled(c, id, sid) {
      var k :| 0 <= k < |c.ackCalls| && c.ackCalls[k] == ValueCall(id, sid);
      assert CallOk(c, c.ackCalls[k]);
      var j :| 0 <= j < |c.sent| && (n, j) in c.heard && c.sent[j].response == Response(id, ClientAck(sid));
      assert IsAck(c.sent[j], id, sid);
    }
    if HeardAck(c, n, id, sid) { assert CalledOne(c, n, id) && sid in Acked(c.ackCalls, id); }
  }

  lemma MayAnswerIsOwed(c: Cluster, n: NodeId, id: Id, sid: Sid)
    requires MayAnswer(c, n, id, sid)
    ensures IsOwed(c, id, sid, sid.home == n)
  {
  }

  /** No acknowledgement is published twice. */
  ghost predicate AckMailDistinct(c: Cluster) {
    forall i, j | 0 <= i < j < |c.sent| && c.sent[i].response.payload.ClientAck? ::
      c.sent[i].response != c.sent[j].response
  }

  lemma OnItsWayIsUnheard(c: Cluster, n: NodeId, id: Id, sid: Sid)
    requires AckMailDistinct(c) && IsOnItsWay(c, n, id, sid)
    ensures IsPublished(c, id, sid) && !HeardAck(c, n, id, sid)
  {
    var j: nat :| Arriving(c, n, j, id, sid);
    forall k | 0 <= k < |c.sent| && IsAck(c.sent[k], id, sid) ensures k == j {}
  }

  lemma DirectGetsThrough(c: Cluster, n: NodeId, id: Id, sid: Sid)
    requires Acks(c) && HoldsEntry(c, n, id) && sid.home == n && Places(c, id, sid) > 0
    ensures ExactlyOne(MayAnswer(c, n, id, sid), IsOnItsWay(c, n, id, sid), IsCalled(c, id, sid))
  {
    OneWayToAnswer(c, n, id, sid);
    if IsOwed(c, id, sid, true) {
      IsNowhereElse(c, n, Owed(id, sid, true));
      OwedMayAnswer(c, n, id, sid);
    }
    if MayAnswer(c, n, id, sid) { MayAnswerIsOwed(c, n, id, sid); }
    if IsOnItsWay(c, n, id, sid) { OnItsWayIsUnheard(c, n, id, sid); }
  }

  lemma ResponseGetsThrough(c: Cluster, n: NodeId, id: Id, sid: Sid)
    requires Acks(c) && Called(c) && HoldsEntry(c, n, id) && sid.home != n && Places(c, id, sid) > 0
    ensures ExactlyOne(MayAnswer(c, n, id, sid), IsOnItsWay(c, n, id, sid), IsCalled(c, id, sid))
  {
    OneWayToAnswer(c, n, id, sid);
    CalledIffHeard(c, n, id, sid);
    if IsOwed(c, id, sid, false) {
      IsNowhereElse(c, sid.home, Owed(id, sid, false));
      OwedMayAnswer(c, n, id, sid);
    }
    if j :| 0 <= j < |c.sent| && IsAck(c.sent[j], id, sid) {
      if (n, j) !in c.heard { UnheardIsOnItsWay(c, n, j, id, sid); }
    }
    if MayAnswer(c, n, id, sid) { MayAnswerIsOwed(c, n, id, sid); }
    if IsOnItsWay(c, n, id, sid) { OnItsWayIsUnheard(c, n, id, sid); }
  }

  /**
   Every answer gets through, in every run. While the origin holds its entry, each socket that
   was sent the packet, on whichever node, is in exactly one of three states: its client may
   answer, and that calls the callback or puts the answer on its way; the answer is on its way,
   and its arrival calls the callback; or the callback has been called with it.
   */
  lemma AnswersGetThrough(t: seq<Cluster>, es: seq<Event>, i: nat, n: NodeId, id: Id, sid: Sid)
    requires Run(t, es) && i < |t| && HoldsEntry(t[i], n, id) && (id, sid) in t[i].sends
    ensures ExactlyOne(MayAnswer(t[i], n, id, sid), IsOnItsWay(t[i], n, id, sid), IsCalled(t[i], id, sid))
  {
    AcksAlways(t, es, i);
    CalledAlways(t, es, i);
    PlacesAreWrites(t, es, i, id, sid);
    if sid.home == n { DirectGetsThrough(t[i], n, id, sid); } else { ResponseGetsThrough(t[i], n, id, sid); }
  }

  /** With or without the entry, whoever was sent the packet has answered or may still do so. */
  lemma SentMayAnswer(t: seq<Cluster>, es: seq<Event>, i: nat, id: Id, sid: Sid)
    requires Run(t, es) && i < |t| && (id, sid) in t[i].sends
    ensures IssuedOk(t[i])
    ensures IsPublished(t[i], id, sid) || IsCalledAtHome(t[i], id, sid) ||
            exists direct :: Enabled(t[i], SocketAck(sid.home, Owed(id, sid, direct)))
  {
    AcksAlways(t, es, i);
    PlacesAreWrites(t, es, i, id, sid);
    if IsOwed(t[i], id, sid, true) { assert Enabled(t[i], SocketAck(sid.home, Owed(id, sid, true))); }
    if IsOwed(t[i], id, sid, false) { assert Enabled(t[i], SocketAck(sid.home, Owed(id, sid, false))); }
  }

  // ----- How long the origin waits -----

  /** Node `n` broadcast `id` at step `a`, and its timer for it has not run out up to step `i`. */
  ghost predicate WaitsSince(es: seq<Event>, a: nat, i: nat, n: NodeId, id: Id) {
    && a < i <= |es| && es[a].Broadcast? && es[a].n == n && es[a].id == id
    && forall b | a < b < i :: es[b] != AckTimeout(n, id)
  }

  lemma CallEntries(c: Cluster, e: Event, n: NodeId, id: Id)
    requires Mail(c) && IsCall(e) && Enabled(c, e)
    ensures HoldsEntry(Next(c, e), n, id) <==> HoldsEntry(c, n, id)
  {
    CallSummary(c, e);
  }

  lemma ReadEntries(c: Cluster, m: NodeId, answer: Answer, n: NodeId, id: Id)
    requires Mail(c) && Enabled(c, Consume(m, answer))
    ensures HoldsEntry(Next(c, Consume(m, answer)), n, id) <==> HoldsEntry(c, n, id)
  {
    ConsumeTurn(c, m, answer);
    RequestFrame(m, c.members[m].node, c.log[c.members[m].seen], answer);
  }

  lemma RestEntries(c: Cluster, e: Event, n: NodeId, id: Id)
    requires Enabled(c, e) && !IsCall(e) && !e.Deliver? && !e.Timeout? && !e.Broadcast? && !e.Consume?
    ensures HoldsEntry(Next(c, e), n, id) <==> HoldsEntry(c, n, id) && e != AckTimeout(n, id)
  {
  }

  lemma EntryMoves(c: Cluster, e: Event, n: NodeId, id: Id)
    requires Mail(c) && Enabled(c, e)
    ensures HoldsEntry(Next(c, e), n, id) <==>
              (e.Broadcast? && e.n == n && e.id == id) || (HoldsEntry(c, n, id) && e != AckTimeout(n, id))
  {
    if IsCall(e) { CallEntries(c, e, n, id); }
    else if e.Deliver? { DeliverTurn(c, e.n, e.j); }
    else if e.Timeout? { TimeoutTurn(c, e.n, e.id); }
    else if e.Broadcast? { BroadcastSummary(c, e.n, e.id, e.opts); }
    else if e.Consume? { ReadEntries(c, e.n, e.answer, n, id); }
    else { RestEntries(c, e, n, id); }
  }

  lemma EntryMovesAt(t: seq<Cluster>, es: seq<Event>, i: nat, n: NodeId, id: Id)
    requires Run(t, es) && i < |es|
    ensures HoldsEntry(t[i + 1], n, id) <==>
              (es[i].Broadcast? && es[i].n == n && es[i].id == id) ||
              (HoldsEntry(t[i], n, id) && es[i] != AckTimeout(n, id))
  {
    MailAlways(t, es, i);
    assert Stepped(t, es, i);
    EntryMoves(t[i], es[i], n, id);
  }

  ghost predicate IsWaiting(es: seq<Event>, i: nat, n: NodeId, id: Id) {
    exists a: nat :: WaitsSince(es, a, i, n, id)
  }

  lemma WaitsOn(es: seq<Event>, i: nat, n: NodeId, id: Id)
    requires i < |es|
    ensures IsWaiting(es, i + 1, n, id) <==>
              (es[i].Broadcast? && es[i].n == n && es[i].id == id) ||
              (IsWaiting(es, i, n, id) && es[i] != AckTimeout(n, id))
  {
    var j := i + 1;
    if a: nat :| WaitsSince(es, a, i, n, id) {
      if es[i] != AckTimeout(n, id) { assert WaitsSince(es, a, j, n, id); }
    }
    if a: nat :| WaitsSince(es, a, j, n, id) {
      if a < i { assert WaitsSince(es, a, i, n, id); }
    }
    if es[i].Broadcast? && es[i].n == n && es[i].id == id { assert WaitsSince(es, i, j, n, id); }
  }

  /** The origin holds its entry from the call until its timer runs out, and nobody else does. */
  lemma {:induction false} EntryUntilTimer(t: seq<Cluster>, es: seq<Event>, i: nat, n: NodeId, id: Id)
    requires Run(t, es) && i < |t|
    ensures HoldsEntry(t[i], n, id) <==> IsWaiting(es, i, n, id)
  {
    if i > 0 {
      EntryUntilTimer(t, es, i - 1, n, id);
      EntryMovesAt(t, es, i - 1, n, id);
      WaitsOn(es, i - 1, n, id);
    }
  }
}
