/**
 The responses ever published: each belongs to a request its sender has consumed, says what
 that request asks for, and no node answers the same request twice.
 */
module ClusterMail {
  import opened Option
  import opened RoomNames
  import opened Shards
  import opened AdapterNode
  import opened Cluster
  import opened ClusterInvariants
  import opened ClusterLedger

  ghost predicate PayloadOk(body: Body, payload: Payload, from: NodeId) {
    match body
    case Sockets(_) => payload.Answered? && GoodAnswer(body, payload.answer, from)
    case AllRooms => payload.Answered? && GoodAnswer(body, payload.answer, from)
    case Fetch(_) => payload.Answered? && GoodAnswer(body, payload.answer, from)
    case JoinOne(_, _) => payload.Done?
    case LeaveOne(_, _) => payload.Done?
    case DisconnectOne(_) => payload.Done?
    case ServerSideEmit => payload.EmitData?
    case BroadcastWithAck(_) => payload.ClientCount? || payload.ClientAck?
    case _ => false
  }

  /**
   The sender consumed the request. A node that answers its own gather, or its own emit,
   does so only when it no longer waits for it.
   */
  ghost predicate EnvelopeOk(c: Cluster, e: Envelope)
    requires IssuedOk(c)
  {
    && e.response.id in c.issued
    && e.from in c.members
    && c.members[e.from].seen > c.issued[e.response.id]
    && PayloadOk(Req(c, e.response.id).body, e.response.payload, e.from)
    && Reaches(e.channel, Req(c, e.response.id).uid)
    && (Req(c, e.response.id).body.ServerSideEmit? ==> e.from != Req(c, e.response.id).uid)
    && (IsGather(Req(c, e.response.id).body) && e.from == Req(c, e.response.id).uid ==>
          e.response.id !in c.members[e.from].node.requests)
  }

  predicate SameSender(a: Envelope, b: Envelope) {
    a.response.id == b.response.id && a.from == b.from
    && !a.response.payload.ClientAck? && !b.response.payload.ClientAck?
  }

  ghost predicate EnvelopesOk(c: Cluster)
    requires IssuedOk(c)
  {
    && (forall j | 0 <= j < |c.sent| :: EnvelopeOk(c, c.sent[j]))
    && forall i, j | 0 <= i < j < |c.sent| :: !SameSender(c.sent[i], c.sent[j])
  }

  ghost predicate NoResponse(c: Cluster, id: Id, n: NodeId) {
    forall j | 0 <= j < |c.sent| :: !(c.sent[j].response.id == id && c.sent[j].from == n)
  }

  ghost predicate CallbackOk(c: Cluster, n: NodeId, id: Id)
    requires IssuedOk(c) && n in c.members
  {
    && id in c.issued && Req(c, id).body.ServerSideEmit? && Req(c, id).uid != n
    && c.members[n].seen > c.issued[id]
    && NoResponse(c, id, n)
  }

  /** An uncalled server-side-emit callback has not produced a response. */
  ghost predicate CallbacksOk(c: Cluster)
    requires IssuedOk(c)
  {
    forall n, id | n in c.members && id in c.members[n].node.callbacks :: CallbackOk(c, n, id)
  }

  /** An entry of `ackRequests` belongs to a broadcast this node published. */
  ghost predicate AckOk(c: Cluster, n: NodeId, id: Id)
    requires IssuedOk(c)
  {
    id in c.issued && Req(c, id).body.BroadcastWithAck? && Req(c, id).uid == n
  }

  ghost predicate AwaitOk(c: Cluster, n: NodeId, owed: Owed)
    requires IssuedOk(c) && n in c.members
  {
    && owed.sid.home == n
    && owed.id in c.issued && Req(c, owed.id).body.BroadcastWithAck?
    && (if owed.direct then Req(c, owed.id).uid == n else c.members[n].seen > c.issued[owed.id])
  }

  /** A client acknowledgement is owed only for a broadcast its node has handled. */
  ghost predicate AwaitingOk(c: Cluster)
    requires IssuedOk(c)
  {
    && (forall n, owed | n in c.members && owed in c.members[n].node.awaiting :: AwaitOk(c, n, owed))
    && forall n, id | n in c.members && id in c.members[n].node.ackRequests :: AckOk(c, n, id)
  }

  ghost predicate HeardOk(c: Cluster) {
    forall h | h in c.heard :: h.1 < |c.sent|
  }

  ghost predicate Mail(c: Cluster) {
    Ledger(c) && EnvelopesOk(c) && CallbacksOk(c) && AwaitingOk(c) && HeardOk(c)
  }

  // ----- Steps that publish no response -----

  /** Nothing was published on a response channel, and no entry reappeared. */
  ghost predicate Silent(c: Cluster, d: Cluster) {
    && d.members.Keys == c.members.Keys
    && c.log <= d.log
    && (forall id | id in c.issued :: id in d.issued && d.issued[id] == c.issued[id])
    && (forall n | n in c.members :: d.members[n].seen >= c.members[n].seen)
    && (forall n, id | n in c.members && id in c.issued && id in d.members[n].node.requests ::
          id in c.members[n].node.requests)
    && d.sent == c.sent && c.heard <= d.heard
  }

  lemma EnvelopeStays(c: Cluster, d: Cluster, e: Envelope)
    requires IssuedOk(c) && IssuedOk(d) && EnvelopeOk(c, e)
    requires d.members.Keys == c.members.Keys && c.log <= d.log
    requires forall id | id in c.issued :: id in d.issued && d.issued[id] == c.issued[id]
    requires forall n | n in c.members :: d.members[n].seen >= c.members[n].seen
    requires forall n, id | n in c.members && id in c.issued && id in d.members[n].node.requests ::
          id in c.members[n].node.requests
    ensures EnvelopeOk(d, e)
  {
    ReqStays(c, d, e.response.id);
  }

  lemma EnvelopesSilent(c: Cluster, d: Cluster)
    requires Mail(c) && Shape(d) && Silent(c, d)
    ensures EnvelopesOk(d)
  {
    forall j | 0 <= j < |d.sent| ensures EnvelopeOk(d, d.sent[j]) {
      EnvelopeStays(c, d, c.sent[j]);
    }
  }

  ghost predicate CallbacksSame(c: Cluster, d: Cluster) {
    forall n | n in c.members && n in d.members ::
      d.members[n].node.callbacks == c.members[n].node.callbacks
  }

  lemma CallbacksSilent(c: Cluster, d: Cluster)
    requires Mail(c) && Shape(d) && Silent(c, d) && CallbacksSame(c, d)
    ensures CallbacksOk(d)
  {
    forall n, id | n in d.members && id in d.members[n].node.callbacks
      ensures CallbackOk(d, n, id)
    {
      assert CallbackOk(c, n, id) && NoResponse(c, id, n);
      ReqStays(c, d, id);
    }
  }

  ghost predicate AwaitingSame(c: Cluster, d: Cluster) {
    forall n | n in c.members && n in d.members ::
      && d.members[n].node.awaiting <= c.members[n].node.awaiting
      && d.members[n].node.ackRequests <= c.members[n].node.ackRequests
  }

  lemma AwaitingSilent(c: Cluster, d: Cluster)
    requires Shape(c) && AwaitingOk(c) && Shape(d) && AwaitingSame(c, d)
    requires d.members.Keys == c.members.Keys && c.log <= d.log
    requires forall id | id in c.issued :: id in d.issued && d.issued[id] == c.issued[id]
    requires forall n | n in c.members :: d.members[n].seen >= c.members[n].seen
    ensures AwaitingOk(d)
  {
    forall n, owed | n in d.members && owed in d.members[n].node.awaiting
      ensures AwaitOk(d, n, owed)
    {
      assert AwaitOk(c, n, owed);
      ReqStays(c, d, owed.id);
    }
    forall n, id | n in d.members && id in d.members[n].node.ackRequests ensures AckOk(d, n, id) {
      assert AckOk(c, n, id);
      ReqStays(c, d, id);
    }
  }

  lemma MailSilent(c: Cluster, d: Cluster)
    requires Mail(c) && Ledger(d) && Silent(c, d) && CallbacksSame(c, d) && AwaitingSame(c, d)
    requires HeardOk(d)
    ensures Mail(d)
  {
    EnvelopesSilent(c, d);
    CallbacksSilent(c, d);
    AwaitingSilent(c, d);
  }

  // ----- One more response -----

  /** A response for a consumed request was published by a node that had not answered it. */
  ghost predicate Adds(c: Cluster, d: Cluster, e: Envelope) {
    && d.members.Keys == c.members.Keys
    && d.log == c.log && d.issued == c.issued && d.heard == c.heard
    && (forall n | n in c.members :: d.members[n].seen >= c.members[n].seen
          && d.members[n].node.requests == c.members[n].node.requests)
    && d.sent == c.sent + [e]
  }

  ghost predicate NoResponseButAcks(c: Cluster, id: Id, n: NodeId) {
    forall j | 0 <= j < |c.sent| :: c.sent[j].response.id == id && c.sent[j].from == n ==>
                                      c.sent[j].response.payload.ClientAck?
  }

  lemma EnvelopesAdds(c: Cluster, d: Cluster, e: Envelope)
    requires Mail(c) && Shape(d) && Adds(c, d, e) && EnvelopeOk(d, e)
    requires e.response.payload.ClientAck? || NoResponseButAcks(c, e.response.id, e.from)
    ensures EnvelopesOk(d)
  {
    forall j | 0 <= j < |d.sent| ensures EnvelopeOk(d, d.sent[j]) {
      if j < |c.sent| { EnvelopeStays(c, d, c.sent[j]); }
    }
    forall i, j | 0 <= i < j < |d.sent| ensures !SameSender(d.sent[i], d.sent[j]) {
      if j < |c.sent| { assert !SameSender(c.sent[i], c.sent[j]); }
    }
  }

  /** A node that has not consumed a request has not answered it. */
  lemma UnseenUnanswered(c: Cluster, n: NodeId, id: Id)
    requires Mail(c) && n in c.members && id in c.issued && c.members[n].seen <= c.issued[id]
    ensures NoResponse(c, id, n)
  {
    forall j | 0 <= j < |c.sent| ensures !(c.sent[j].response.id == id && c.sent[j].from == n) {
      assert EnvelopeOk(c, c.sent[j]);
    }
  }

  /** What consuming a message publishes. */
  ghost predicate Replies(c: Cluster, n: NodeId, message: Message, answer: Answer, payloads: seq<Payload>)
    requires n in c.members
  {
    var node := c.members[n].node;
    match message.body
    case BroadcastWithAck(opts) =>
      payloads == if message.id.Some? && message.id.value !in node.ackRequests
                  then [ClientCount(|Selected(node.shard, opts)|)] else []
    case ServerSideEmit => payloads == []
    case JoinOne(sid, _) => payloads == if sid in node.shard then [Done] else []
    case LeaveOne(sid, _) => payloads == if sid in node.shard then [Done] else []
    case DisconnectOne(sid) => payloads == if sid in node.shard then [Done] else []
    case _ =>
      payloads == if IsGather(message.body) && message.id.Some? && message.id.value !in node.requests
                  then [Answered(answer)] else []
  }

  lemma ConsumeSummary(c: Cluster, n: NodeId, answer: Answer)
    requires Shape(c) && Enabled(c, Consume(n, answer))
    ensures var d := Next(c, Consume(n, answer));
            var message := c.log[c.members[n].seen];
            var handled := OnRequest(n, c.members[n].node, message, answer);
            && Replies(c, n, message, answer, handled.replies)
            && (if message.id.None? || handled.replies == [] then d.sent == c.sent
                else d.sent == c.sent + [Envelope(n, ReplyChannel(n in c.specific, message),
                                                  Response(message.id.value, handled.replies[0]))])
            && d.sends == (if message.id.None? then c.sends else Send(c.sends, message.id.value, handled.sent))
            && d.ackCalls == c.ackCalls
  {
    var message := c.log[c.members[n].seen];
    var handled := OnRequest(n, c.members[n].node, message, answer);
    assert Replies(c, n, message, answer, handled.replies);
    if message.id.Some? {
      assert |handled.replies| <= 1;
      assert c.sent + [] == c.sent;
    }
  }

  /** Consuming changes callbacks and owed acknowledgements for its own message only. */
  lemma ConsumeExtras(c: Cluster, n: NodeId, answer: Answer)
    requires Shape(c) && Enabled(c, Consume(n, answer))
    ensures var node := c.members[n].node;
            var message := c.log[c.members[n].seen];
            var after := OnRequest(n, node, message, answer).node;
            && (forall id | id in after.callbacks && id !in node.callbacks ::
                  message.id == Some(id) && message.body.ServerSideEmit? && message.uid != n)
            && (forall owed | owed in after.awaiting && owed !in node.awaiting ::
                  message.id == Some(owed.id) && message.body.BroadcastWithAck? &&
                  !owed.direct && owed.sid in node.shard)
  {
  }

  lemma ConsumeSilent(c: Cluster, n: NodeId, answer: Answer)
    requires Mail(c) && Enabled(c, Consume(n, answer))
    requires var message := c.log[c.members[n].seen];
             message.id.None? || OnRequest(n, c.members[n].node, message, answer).replies == []
    ensures Silent(c, Next(c, Consume(n, answer)))
  {
    ConsumeTurn(c, n, answer);
    ConsumeSummary(c, n, answer);
    RequestFrame(n, c.members[n].node, c.log[c.members[n].seen], answer);
  }

  lemma ConsumeAdds(c: Cluster, n: NodeId, answer: Answer, message: Message, reply: Payload)
    requires Mail(c) && Enabled(c, Consume(n, answer)) && message == c.log[c.members[n].seen] && message.id.Some?
    requires var replies := OnRequest(n, c.members[n].node, message, answer).replies; replies != [] && replies[0] == reply
    ensures var d := Next(c, Consume(n, answer));
            && Adds(c, d, Envelope(n, ReplyChannel(n in c.specific, message), Response(message.id.value, reply)))
            && d.members[n].seen == c.members[n].seen + 1
  {
    ConsumeTurn(c, n, answer);
    ConsumeSummary(c, n, answer);
    RequestFrame(n, c.members[n].node, message, answer);
  }

  /** The reply to a message just consumed keeps the envelopes in order. */
  lemma AddedReply(c: Cluster, d: Cluster, n: NodeId, message: Message, e: Envelope)
    requires Mail(c) && Shape(d) && Adds(c, d, e) && n in c.members && c.members[n].seen < |c.log|
    requires d.members[n].seen == c.members[n].seen + 1
    requires message == c.log[c.members[n].seen] && message.id == Some(e.response.id) && e.from == n
    requires Reaches(e.channel, message.uid) && PayloadOk(message.body, e.response.payload, n)
    requires !message.body.ServerSideEmit? && (IsGather(message.body) ==> e.response.id !in c.members[n].node.requests)
    ensures EnvelopesOk(d)
  {
    var id := e.response.id;
    assert c.issued[id] == c.members[n].seen && Req(d, id) == message;
    UnseenUnanswered(c, n, id);
    EnvelopesAdds(c, d, e);
  }

  lemma ReplyIsOk(c: Cluster, n: NodeId, message: Message, answer: Answer, replies: seq<Payload>)
    requires n in c.members && Replies(c, n, message, answer, replies) && replies != []
    requires Homed(c.members[n].node.shard, n)
    requires IsGather(message.body) ==> IsSnapshot(message.body, c.members[n].node.shard, answer)
    ensures PayloadOk(message.body, replies[0], n) && !message.body.ServerSideEmit?
    ensures IsGather(message.body) ==> message.id.Some? && message.id.value !in c.members[n].node.requests
  {
    if IsGather(message.body) { SnapshotIsGood(message.body, c.members[n].node.shard, answer, n); }
  }

  lemma ConsumeEnvelopes(c: Cluster, n: NodeId, answer: Answer)
    requires Mail(c) && Enabled(c, Consume(n, answer)) && Shape(Next(c, Consume(n, answer)))
    ensures EnvelopesOk(Next(c, Consume(n, answer)))
  {
    var message := c.log[c.members[n].seen];
    var replies := OnRequest(n, c.members[n].node, message, answer).replies;
    if message.id.None? || replies == [] {
      ConsumeSilent(c, n, answer);
      EnvelopesSilent(c, Next(c, Consume(n, answer)));
    } else {
      var e := Envelope(n, ReplyChannel(n in c.specific, message), Response(message.id.value, replies[0]));
      ConsumeAdds(c, n, answer, message, replies[0]);
      ConsumeSummary(c, n, answer);
      ReplyIsOk(c, n, message, answer, replies);
      AddedReply(c, Next(c, Consume(n, answer)), n, message, e);
    }
  }

  /** The response a consume publishes, if any, is by `n` and for the message consumed. */
  lemma ConsumeSilentElsewhere(c: Cluster, n: NodeId, answer: Answer, id: Id, m: NodeId)
    requires Mail(c) && Enabled(c, Consume(n, answer)) && NoResponse(c, id, m)
    requires m == n ==> c.log[c.members[n].seen].id != Some(id) || c.log[c.members[n].seen].body.ServerSideEmit?
    ensures NoResponse(Next(c, Consume(n, answer)), id, m)
  {
    ConsumeSummary(c, n, answer);
  }

  lemma ConsumeCallback(c: Cluster, n: NodeId, answer: Answer, m: NodeId, id: Id)
    requires Mail(c) && Enabled(c, Consume(n, answer)) && Shape(Next(c, Consume(n, answer)))
    requires m in c.members && id in Next(c, Consume(n, answer)).members[m].node.callbacks
    ensures CallbackOk(Next(c, Consume(n, answer)), m, id)
  {
    var d := Next(c, Consume(n, answer));
    var message := c.log[c.members[n].seen];
    ConsumeTurn(c, n, answer);
    if id in c.members[m].node.callbacks {
      assert CallbackOk(c, m, id);
    } else {
      ConsumeExtras(c, n, answer);
      assert m == n && message.id == Some(id);
      UnseenUnanswered(c, n, id);
    }
    ReqStays(c, d, id);
    ConsumeSilentElsewhere(c, n, answer, id, m);
  }

  lemma ConsumeCallbacks(c: Cluster, n: NodeId, answer: Answer)
    requires Mail(c) && Enabled(c, Consume(n, answer)) && Shape(Next(c, Consume(n, answer)))
    ensures CallbacksOk(Next(c, Consume(n, answer)))
  {
    var d := Next(c, Consume(n, answer));
    forall m, id | m in d.members && id in d.members[m].node.callbacks
      ensures CallbackOk(d, m, id)
    {
      ConsumeTurn(c, n, answer);
      ConsumeCallback(c, n, answer, m, id);
    }
  }

  lemma ConsumeAwaiting(c: Cluster, n: NodeId, answer: Answer)
    requires Mail(c) && Enabled(c, Consume(n, answer)) && Shape(Next(c, Consume(n, answer)))
    ensures AwaitingOk(Next(c, Consume(n, answer)))
  {
    var d := Next(c, Consume(n, answer));
    ConsumeTurn(c, n, answer);
    ConsumeExtras(c, n, answer);
    ReqsStay(c, d);
    forall m, owed | m in d.members && owed in d.members[m].node.awaiting
      ensures AwaitOk(d, m, owed)
    {
      if owed in c.members[m].node.awaiting { assert AwaitOk(c, m, owed); }
    }
    RequestFrame(n, c.members[n].node, c.log[c.members[n].seen], answer);
    forall m, id | m in d.members && id in d.members[m].node.ackRequests ensures AckOk(d, m, id) {
      assert AckOk(c, m, id);
    }
  }

  lemma ConsumeKeepsMail(c: Cluster, n: NodeId, answer: Answer)
    requires Mail(c) && Enabled(c, Consume(n, answer))
    ensures Mail(Next(c, Consume(n, answer)))
  {
    LedgerKept(c, Consume(n, answer));
    ConsumeTurn(c, n, answer);
    ConsumeSummary(c, n, answer);
    ConsumeEnvelopes(c, n, answer);
    ConsumeCallbacks(c, n, answer);
    ConsumeAwaiting(c, n, answer);
  }

  // ----- The other steps -----

  lemma OpensSilent(c: Cluster, d: Cluster, n: NodeId, id: Id, entry: Pending, body: Body)
    requires Mail(c) && Opens(c, d, n, id, entry, body) && id !in c.issued
    ensures Silent(c, d) && CallbacksSame(c, d) && AwaitingSame(c, d) && HeardOk(d)
  {
  }

  lemma CallOpensSilent(c: Cluster, e: Event)
    requires Mail(c) && IsCall(e) && Enabled(c, e) && !AtOnce(c, e)
    ensures var d := Next(c, e);
            Silent(c, d) && CallbacksSame(c, d) && AwaitingSame(c, d) && HeardOk(d)
  {
    CallSummary(c, e);
    CallFresh(c, e);
    OpensSilent(c, Next(c, e), CallNode(c, e), e.id, CallEntry(c, e), CallBody(c, e));
  }

  lemma CallAtOnceSilent(c: Cluster, e: Event)
    requires Mail(c) && IsCall(e) && Enabled(c, e) && AtOnce(c, e)
    ensures var d := Next(c, e);
            Silent(c, d) && CallbacksSame(c, d) && AwaitingSame(c, d) && HeardOk(d)
  {
    CallSummary(c, e);
  }

  lemma CallKeepsMail(c: Cluster, e: Event)
    requires Mail(c) && IsCall(e) && Enabled(c, e)
    ensures Mail(Next(c, e))
  {
    LedgerKept(c, e);
    if AtOnce(c, e) { CallAtOnceSilent(c, e); } else { CallOpensSilent(c, e); }
    MailSilent(c, Next(c, e));
  }

  /** A response or a timer at one node, with every other field of every node kept. */
  lemma TurnSilent(c: Cluster, d: Cluster, n: NodeId)
    requires Mail(c) && Turn(c, d, n) && d.sent == c.sent && c.heard <= d.heard && HeardOk(d)
    requires d.members[n].seen == c.members[n].seen
    requires d.members[n].node == c.members[n].node.(requests := d.members[n].node.requests)
    requires d.members[n].node.requests.Keys <= c.members[n].node.requests.Keys
    ensures Silent(c, d) && CallbacksSame(c, d) && AwaitingSame(c, d)
  {
  }

  /** Neither a response nor a timer makes an entry. */
  lemma ReactionKeys(node: Node, response: Response)
    ensures OnResponse(node, response).node.requests.Keys <= node.requests.Keys
    ensures OnTimeout(node, response.id).node.requests.Keys <= node.requests.Keys
  {
  }

  lemma ReactionSilent(c: Cluster, e: Event)
    requires Mail(c) && (e.Deliver? || e.Timeout?) && Enabled(c, e)
    ensures var d := Next(c, e);
            Silent(c, d) && CallbacksSame(c, d) && AwaitingSame(c, d) && HeardOk(d)
  {
    if e.Deliver? { DeliverTurn(c, e.n, e.j); } else { TimeoutTurn(c, e.n, e.id); }
    ReactionKeys(c.members[e.n].node, if e.Deliver? then c.sent[e.j].response else Response(e.id, Done));
    TurnSilent(c, Next(c, e), e.n);
  }

  lemma ReactionKeepsMail(c: Cluster, e: Event)
    requires Mail(c) && (e.Deliver? || e.Timeout?) && Enabled(c, e)
    ensures Mail(Next(c, e))
  {
    LedgerKept(c, e);
    ReactionSilent(c, e);
    MailSilent(c, Next(c, e));
  }

  lemma QuietSilent(c: Cluster, e: Event)
    requires (e.Local? || e.AckTimeout? || e.Begin? || e.Command?) && Enabled(c, e)
    ensures Silent(c, Next(c, e)) && CallbacksSame(c, Next(c, e)) && AwaitingSame(c, Next(c, e))
    ensures Next(c, e).heard == c.heard
  {
  }

  lemma QuietKeepsMail(c: Cluster, e: Event)
    requires Mail(c) && (e.Local? || e.AckTimeout? || e.Begin? || e.Command?) && Enabled(c, e)
    ensures Mail(Next(c, e))
  {
    LedgerKept(c, e);
    QuietSilent(c, e);
    MailSilent(c, Next(c, e));
  }

  lemma BroadcastAwaiting(c: Cluster, d: Cluster, n: NodeId, id: Id, opts: Opts)
    requires Shape(c) && Shape(d) && AwaitingOk(c) && BroadcastDone(c, d, n, id, opts) && id !in c.issued
    ensures AwaitingOk(d)
  {
    forall m, owed | m in d.members && owed in d.members[m].node.awaiting ensures AwaitOk(d, m, owed) {
      if owed in c.members[m].node.awaiting {
        assert AwaitOk(c, m, owed);
        ReqStays(c, d, owed.id);
      }
    }
    forall m, x | m in d.members && x in d.members[m].node.ackRequests ensures AckOk(d, m, x) {
      if x in c.members[m].node.ackRequests {
        assert AckOk(c, m, x);
        ReqStays(c, d, x);
      }
    }
  }

  lemma BroadcastSilent(c: Cluster, n: NodeId, id: Id, opts: Opts)
    requires Mail(c) && Enabled(c, Broadcast(n, id, opts))
    ensures var d := Next(c, Broadcast(n, id, opts));
            Silent(c, d) && CallbacksSame(c, d) && HeardOk(d)
  {
    BroadcastSummary(c, n, id, opts);
    assert id !in c.issued;
  }

  lemma BroadcastKeepsMail(c: Cluster, n: NodeId, id: Id, opts: Opts)
    requires Mail(c) && Enabled(c, Broadcast(n, id, opts))
    ensures Mail(Next(c, Broadcast(n, id, opts)))
  {
    var d := Next(c, Broadcast(n, id, opts));
    LedgerKept(c, Broadcast(n, id, opts));
    BroadcastSilent(c, n, id, opts);
    EnvelopesSilent(c, d);
    CallbacksSilent(c, d);
    BroadcastSummary(c, n, id, opts);
    assert id !in c.issued;
    BroadcastAwaiting(c, d, n, id, opts);
  }

  /** One more response leaves the callbacks in order, unless it is the answer of one of them. */
  lemma CallbacksAdds(c: Cluster, d: Cluster, e: Envelope)
    requires Mail(c) && Shape(d) && Adds(c, d, e)
    requires forall n | n in c.members :: d.members[n].node.callbacks <= c.members[n].node.callbacks
    requires e.from in c.members && e.response.id !in d.members[e.from].node.callbacks
    ensures CallbacksOk(d)
  {
    forall m, id | m in d.members && id in d.members[m].node.callbacks ensures CallbackOk(d, m, id) {
      assert CallbackOk(c, m, id) && NoResponse(c, id, m);
      ReqStays(c, d, id);
    }
  }

  lemma CallbackAdds(c: Cluster, n: NodeId, id: Id, data: int)
    requires Enabled(c, Callback(n, id, data))
    ensures var d := Next(c, Callback(n, id, data));
            && Adds(c, d, Envelope(n, Shared, Response(id, EmitData(data))))
            && AwaitingSame(c, d)
            && id !in d.members[n].node.callbacks
            && forall m | m in c.members :: d.members[m].node.callbacks <= c.members[m].node.callbacks
  {
  }

  lemma CallbackKeepsMail(c: Cluster, n: NodeId, id: Id, data: int)
    requires Mail(c) && Enabled(c, Callback(n, id, data))
    ensures Mail(Next(c, Callback(n, id, data)))
  {
    var d := Next(c, Callback(n, id, data));
    var e := Envelope(n, Shared, Response(id, EmitData(data)));
    LedgerKept(c, Callback(n, id, data));
    CallbackAdds(c, n, id, data);
    assert CallbackOk(c, n, id) && NoResponse(c, id, n);
    ReqStays(c, d, id);
    EnvelopesAdds(c, d, e);
    CallbacksAdds(c, d, e);
    AwaitingSilent(c, d);
  }

  lemma SocketAckAdds(c: Cluster, n: NodeId, owed: Owed)
    requires IssuedOk(c) && Enabled(c, SocketAck(n, owed)) && !owed.direct
    ensures var d := Next(c, SocketAck(n, owed));
            var channel := ReplyChannel(n in c.specific, Req(c, owed.id));
            Adds(c, d, Envelope(n, channel, Response(owed.id, ClientAck(owed.sid))))
  {
  }

  lemma SocketAckSame(c: Cluster, n: NodeId, owed: Owed)
    requires IssuedOk(c) && Enabled(c, SocketAck(n, owed))
    ensures AwaitingSame(c, Next(c, SocketAck(n, owed))) && CallbacksSame(c, Next(c, SocketAck(n, owed)))
  {
  }

  lemma SocketAckKeepsMail(c: Cluster, n: NodeId, owed: Owed)
    requires Mail(c) && Enabled(c, SocketAck(n, owed))
    ensures Mail(Next(c, SocketAck(n, owed)))
  {
    var d := Next(c, SocketAck(n, owed));
    LedgerKept(c, SocketAck(n, owed));
    if owed.direct {
      MailSilent(c, d);
    } else {
      var e := Envelope(n, ReplyChannel(n in c.specific, Req(c, owed.id)), Response(owed.id, ClientAck(owed.sid)));
      SocketAckAdds(c, n, owed);
      SocketAckSame(c, n, owed);
      assert AwaitOk(c, n, owed);
      ReqStays(c, d, owed.id);
      EnvelopesAdds(c, d, e);
      AwaitingSilent(c, d);
      assert owed.id in c.members[n].node.callbacks ==> CallbackOk(c, n, owed.id);
      CallbacksAdds(c, d, e);
    }
  }

  /** Every step keeps the mail. */
  lemma MailKept(c: Cluster, e: Event)
    requires Mail(c) && Enabled(c, e)
    ensures Mail(Next(c, e))
  {
    if IsCall(e) { CallKeepsMail(c, e); }
    else if e.Deliver? || e.Timeout? { ReactionKeepsMail(c, e); }
    else if e.Consume? { ConsumeKeepsMail(c, e.n, e.answer); }
    else if e.Broadcast? { BroadcastKeepsMail(c, e.n, e.id, e.opts); }
    else if e.Callback? { CallbackKeepsMail(c, e.n, e.id, e.data); }
    else if e.SocketAck? { SocketAckKeepsMail(c, e.n, e.owed); }
    else { QuietKeepsMail(c, e); }
  }

  lemma MailAtStart(c: Cluster)
    requires Init(c)
    ensures Mail(c)
  {
  }

  /** The mail is in order in every state of every run. */
  lemma {:induction false} MailAlways(t: seq<Cluster>, es: seq<Event>, i: nat)
    requires Run(t, es) && i < |t|
    ensures Mail(t[i])
  {
    if i == 0 {
      MailAtStart(t[0]);
    } else {
      MailAlways(t, es, i - 1);
      assert Stepped(t, es, i - 1);
      MailKept(t[i - 1], es[i - 1]);
    }
  }
}
