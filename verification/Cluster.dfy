/**
 The cluster: every node's adapter, the request channel and the response channels.

 The request channel is a log that every node reads in publish order, its own messages
 included. Responses may reach a node in any order, late, or never; each reaches it once.
 Timers may fire at any step and for any id. Local changes to a shard (a socket connecting,
 joining, leaving, disconnecting, or an operation flagged local) may happen at any step.
 The number of subscribers is the number of nodes, which is fixed.
 */
module Cluster {
  import opened Option
  import opened RoomNames
  import opened Shards
  import opened AdapterNode

  /** A response on its way, with the node that published it (no handler reads `from`). */
  datatype Envelope = Envelope(from: NodeId, channel: Channel, response: Response)

  /** A gather in progress before its request is published: the caller's own snapshot. */
  datatype Call = Call(node: NodeId, body: Body, answer: Answer)

  datatype Settlement = Settlement(id: Id, result: Result)

  /** A callback of a broadcast with acknowledgements was called at its origin. */
  datatype AckCall = CountCall(id: Id, from: NodeId, count: nat) | ValueCall(id: Id, sid: Sid)

  /** A node and how many messages of the log it has consumed. */
  datatype Member = Member(node: Node, seen: nat)

  /**
   `issued` maps the id of a published request to its place in the log, `used` holds every id
   ever drawn. `sends` counts how often each broadcast was written to each socket.
   */
  datatype Cluster = Cluster(
    members: map<NodeId, Member>,
    specific: set<NodeId>,
    log: seq<Message>,
    issued: map<Id, nat>,
    used: set<Id>,
    calls: map<Id, Call>,
    sent: seq<Envelope>,
    heard: set<(NodeId, nat)>,
    settled: seq<Settlement>,
    sends: multiset<(Id, Sid)>,
    ackCalls: seq<AckCall>
  )

  datatype Event =
    | Local(n: NodeId, shard: Shard)
    | Begin(n: NodeId, id: Id, body: Body, answer: Answer)
    | Issue(id: Id)
    | One(n: NodeId, id: Id, body: Body)
    | Command(n: NodeId, body: Body)
    | Emit(n: NodeId, id: Id)
    | Broadcast(n: NodeId, id: Id, opts: Opts)
    | Consume(n: NodeId, answer: Answer)
    | Callback(n: NodeId, id: Id, data: int)
    | SocketAck(n: NodeId, owed: Owed)
    | Deliver(n: NodeId, j: nat)
    | Timeout(n: NodeId, id: Id)
    | AckTimeout(n: NodeId, id: Id)

  ghost predicate Init(c: Cluster) {
    && c.members != map[]
    && (forall n | n in c.members ::
          && Homed(c.members[n].node.shard, n)
          && c.members[n] == Member(Node(c.members[n].node.shard, map[], {}, {}, {}), 0))
    && c == Cluster(c.members, c.specific, [], map[], {}, map[], [], {}, [], multiset{}, [])
  }

  // ----- Steps -----

  function Update(c: Cluster, n: NodeId, node: Node): Cluster
    requires n in c.members
  {
    c.(members := c.members[n := c.members[n].(node := node)])
  }

  function Publish(c: Cluster, message: Message): Cluster {
    c.(log := c.log + [message],
       issued := if message.id.Some? then c.issued[message.id.value := |c.log|] else c.issued)
  }

  function SettleAs(c: Cluster, id: Id, result: Result): Cluster {
    c.(settled := c.settled + [Settlement(id, result)])
  }

  function SettleIf(c: Cluster, id: Id, result: Option<Result>): Cluster {
    if result.None? then c else SettleAs(c, id, result.value)
  }

  function DoBegin(c: Cluster, n: NodeId, id: Id, body: Body, answer: Answer): Cluster {
    c.(used := c.used + {id}, calls := c.calls[id := Call(n, body, answer)])
  }

  /** Node `n` starts a call as the adapter does: its state, what it publishes, what it settles. */
  function StartCall(c: Cluster, n: NodeId, id: Id, s: Started): Cluster
    requires n in c.members
  {
    var d := Update(c, n, s.node);
    SettleIf(if s.published.None? then d else Publish(d, s.published.value), id, s.result)
  }

  /** The rest of `sockets`, `allRooms` and `fetchSockets`, after the subscriber count is known. */
  function DoIssue(c: Cluster, id: Id): Cluster
    requires id in c.calls && c.calls[id].node in c.members
  {
    var call := c.calls[id];
    StartCall(c, call.node, id,
              StartGather(call.node, c.members[call.node].node, id, call.body, call.answer, |c.members|))
  }

  /** `remoteJoin`, `remoteLeave`, `remoteDisconnect`. */
  function DoOne(c: Cluster, n: NodeId, id: Id, body: Body): Cluster
    requires n in c.members && IsOne(body)
  {
    StartCall(c.(used := c.used + {id}), n, id, StartOne(n, c.members[n].node, id, body))
  }

  /** `serverSideEmitWithAck`; the caller does not count itself. */
  function DoEmit(c: Cluster, n: NodeId, id: Id): Cluster
    requires n in c.members
  {
    StartCall(c.(used := c.used + {id}), n, id, StartEmit(n, c.members[n].node, id, |c.members|))
  }

  function Send(sends: multiset<(Id, Sid)>, id: Id, targets: set<Sid>): multiset<(Id, Sid)> {
    sends + multiset(set s | s in targets :: (id, s))
  }

  /** `broadcastWithAck`: publish, remember the callbacks, then broadcast locally. */
  function DoBroadcast(c: Cluster, n: NodeId, id: Id, opts: Opts): Cluster
    requires n in c.members
  {
    var node := c.members[n].node;
    var handled := LocalBroadcast(node.(ackRequests := node.ackRequests + {id}), id, opts, true);
    var d := Publish(Update(c.(used := c.used + {id}), n, handled.node),
                     Message(n, Some(id), BroadcastWithAck(opts)));
    d.(sends := Send(d.sends, id, handled.sent),
       ackCalls := d.ackCalls + [CountCall(id, n, |handled.sent|)])
  }

  function Reply(c: Cluster, n: NodeId, channel: Channel, id: Id, payloads: seq<Payload>): Cluster {
    c.(sent := c.sent + seq(|payloads|, i requires 0 <= i < |payloads| =>
                              Envelope(n, channel, Response(id, payloads[i]))))
  }

  /** A node reads the next message of the request channel. */
  function DoConsume(c: Cluster, n: NodeId, answer: Answer): Cluster
    requires n in c.members && c.members[n].seen < |c.log|
  {
    var message := c.log[c.members[n].seen];
    var handled := OnRequest(n, c.members[n].node, message, answer);
    var d := c.(members := c.members[n := Member(handled.node, c.members[n].seen + 1)]);
    if message.id.None? then d
    else
      Reply(d.(sends := Send(d.sends, message.id.value, handled.sent)), n,
            ReplyChannel(n in c.specific, message), message.id.value, handled.replies)
  }

  /** The application calls the callback of a server-side emit; later calls do nothing. */
  function DoCallback(c: Cluster, n: NodeId, id: Id, data: int): Cluster
    requires n in c.members
  {
    var node := c.members[n].node;
    Reply(Update(c, n, node.(callbacks := node.callbacks - {id})), n, Shared, id, [EmitData(data)])
  }

  /** A client acknowledges a packet: at the origin's own sockets the callback is called directly. */
  function DoSocketAck(c: Cluster, n: NodeId, owed: Owed): Cluster
    requires n in c.members && owed.id in c.issued && c.issued[owed.id] < |c.log|
  {
    var node := c.members[n].node;
    var d := Update(c, n, node.(awaiting := node.awaiting - {owed}));
    if owed.direct then d.(ackCalls := d.ackCalls + [ValueCall(owed.id, owed.sid)])
    else Reply(d, n, ReplyChannel(n in c.specific, c.log[c.issued[owed.id]]), owed.id, [ClientAck(owed.sid)])
  }

  function AckCallOf(e: Envelope): AckCall
    requires e.response.payload.ClientCount? || e.response.payload.ClientAck?
  {
    match e.response.payload
    case ClientCount(count) => CountCall(e.response.id, e.from, count)
    case ClientAck(sid) => ValueCall(e.response.id, sid)
  }

  function DoDeliver(c: Cluster, n: NodeId, j: nat): Cluster
    requires n in c.members && j < |c.sent|
  {
    var reaction := OnResponse(c.members[n].node, c.sent[j].response);
    var d := SettleIf(Update(c, n, reaction.node), c.sent[j].response.id, reaction.settled);
    d.(heard := d.heard + {(n, j)},
       ackCalls := if reaction.acked then d.ackCalls + [AckCallOf(c.sent[j])] else d.ackCalls)
  }

  function DoTimeout(c: Cluster, n: NodeId, id: Id): Cluster
    requires n in c.members
  {
    var reaction := OnTimeout(c.members[n].node, id);
    SettleIf(Update(c, n, reaction.node), id, reaction.settled)
  }

  function DoAckTimeout(c: Cluster, n: NodeId, id: Id): Cluster
    requires n in c.members
  {
    var node := c.members[n].node;
    Update(c, n, node.(ackRequests := node.ackRequests - {id}))
  }

  // ----- When a step can happen -----

  predicate Reaches(channel: Channel, n: NodeId) { channel.Shared? || channel.uid == n }

  /** A reply reaches the asking node, and any other only if it goes out on the shared channel. */
  lemma ReplyReaches(specific: bool, request: Message, n: NodeId)
    ensures Reaches(ReplyChannel(specific, request), n) <==> n == request.uid || !specific
  {
  }

  ghost predicate IsSettled(c: Cluster, id: Id) {
    exists i :: 0 <= i < |c.settled| && c.settled[i].id == id
  }

  ghost predicate Enabled(c: Cluster, e: Event) {
    match e
    case Local(n, shard) => n in c.members && Homed(shard, n)
    case Begin(n, id, body, answer) =>
      n in c.members && id !in c.used && IsGather(body) && IsSnapshot(body, c.members[n].node.shard, answer)
    case Issue(id) =>
      id in c.calls && c.calls[id].node in c.members && id !in c.issued && !IsSettled(c, id)
    case One(n, id, body) => n in c.members && id !in c.used && IsOne(body)
    case Command(n, body) => n in c.members && IsCommand(body)
    case Emit(n, id) => n in c.members && id !in c.used
    case Broadcast(n, id, opts) => n in c.members && id !in c.used
    case Consume(n, answer) =>
      && n in c.members && c.members[n].seen < |c.log|
      && var body := c.log[c.members[n].seen].body;
         IsGather(body) ==> IsSnapshot(body, c.members[n].node.shard, answer)
    case Callback(n, id, data) => n in c.members && id in c.members[n].node.callbacks
    case SocketAck(n, owed) =>
      && n in c.members && owed in c.members[n].node.awaiting
      && owed.id in c.issued && c.issued[owed.id] < |c.log|
    case Deliver(n, j) =>
      n in c.members && j < |c.sent| && (n, j) !in c.heard && Reaches(c.sent[j].channel, n)
    case Timeout(n, id) => n in c.members
    case AckTimeout(n, id) => n in c.members
  }

  ghost function Next(c: Cluster, e: Event): Cluster
    requires Enabled(c, e)
  {
    match e
    case Local(n, shard) => Update(c, n, c.members[n].node.(shard := shard))
    case Begin(n, id, body, answer) => DoBegin(c, n, id, body, answer)
    case Issue(id) => DoIssue(c, id)
    case One(n, id, body) => DoOne(c, n, id, body)
    case Command(n, body) => Publish(c, Message(n, None, body))
    case Emit(n, id) => DoEmit(c, n, id)
    case Broadcast(n, id, opts) => DoBroadcast(c, n, id, opts)
    case Consume(n, answer) => DoConsume(c, n, answer)
    case Callback(n, id, data) => DoCallback(c, n, id, data)
    case SocketAck(n, owed) => DoSocketAck(c, n, owed)
    case Deliver(n, j) => DoDeliver(c, n, j)
    case Timeout(n, id) => DoTimeout(c, n, id)
    case AckTimeout(n, id) => DoAckTimeout(c, n, id)
  }

  /** Step `i` leads from state `i` to the next. */
  ghost predicate Stepped(t: seq<Cluster>, es: seq<Event>, i: nat) {
    i < |es| && i + 1 < |t| && Enabled(t[i], es[i]) && t[i + 1] == Next(t[i], es[i])
  }

  /** A run: the states passed through and the events between them. */
  ghost predicate Run(t: seq<Cluster>, es: seq<Event>) {
    && |t| == |es| + 1
    && Init(t[0])
    && forall i: nat | i < |es| :: Stepped(t, es, i)
  }

  lemma RunStarts(c: Cluster)
    requires Init(c)
    ensures Run([c], [])
  {
  }

  lemma RunGrows(t: seq<Cluster>, es: seq<Event>, e: Event, d: Cluster)
    requires Run(t, es) && Enabled(t[|es|], e) && d == Next(t[|es|], e)
    ensures Run(t + [d], es + [e])
  {
    forall i: nat | i < |es + [e]| ensures Stepped(t + [d], es + [e], i) {
      if i < |es| { assert Stepped(t, es, i); }
    }
  }
}
