/**
 What one RedisAdapter does on each event, as functions of its state.

 These functions are the specification: the class in RedisAdapter.dfy is proved to compute
 them, and the cluster in Cluster.dfy runs many of them against each other.
 */
module AdapterNode {
  import opened Option
  import opened RoomNames
  import opened Shards

  type Id = nat

  /** The requests published on the request channel. Only some of them carry an id. */
  datatype Body =
    | Sockets(rooms: set<Room>)
    | AllRooms
    | Fetch(opts: Opts)
    | JoinOne(sid: Sid, room: Room)
    | LeaveOne(sid: Sid, room: Room)
    | DisconnectOne(sid: Sid)
    | JoinAll(opts: Opts, joined: set<Room>)
    | LeaveAll(opts: Opts, left: set<Room>)
    | DisconnectAll(opts: Opts)
    | ServerSideEmit
    | BroadcastWithAck(opts: Opts)

  predicate IsGather(body: Body) { body.Sockets? || body.AllRooms? || body.Fetch? }

  predicate IsOne(body: Body) { body.JoinOne? || body.LeaveOne? || body.DisconnectOne? }

  predicate IsCommand(body: Body) { body.JoinAll? || body.LeaveAll? || body.DisconnectAll? }

  datatype Message = Message(uid: NodeId, id: Option<Id>, body: Body)

  datatype SocketInfo = SocketInfo(sid: Sid, rooms: set<Room>)

  /** The value a gather collects: two kinds grow a set, one grows an array. */
  datatype Answer =
    | SidSet(sids: set<Sid>)
    | RoomSet(rooms: set<Room>)
    | SocketArray(sockets: seq<SocketInfo>)

  datatype Payload =
    | Answered(answer: Answer)
    | Done
    | EmitData(data: int)
    | ClientCount(count: nat)
    | ClientAck(value: Sid)

  datatype Response = Response(id: Id, payload: Payload)

  datatype Channel = Shared | Specific(uid: NodeId)

  /** An entry of the `requests` map. */
  datatype Pending =
    | Gather(numSub: int, msgCount: int, acc: Answer)
    | Remote
    | EmitWait(numSub: int, responses: seq<Option<int>>)

  /** How a promise or an acknowledgement was settled. */
  datatype Result =
    | Gathered(answer: Answer)
    | Completed
    | AckedAll(responses: seq<Option<int>>)
    | AckedSome(responses: seq<Option<int>>)
    | Rejected

  /**
   A client acknowledgement still owed, either straight to the callback of the caller
   (`direct`) or as a response to be published.
   */
  datatype Owed = Owed(id: Id, sid: Sid, direct: bool)

  /**
   `requests` and `ackRequests` are the two maps of the class. `callbacks` holds the ids whose
   server-side-emit callback was handed to the application and not called yet; `awaiting`
   holds the client acknowledgements this node's sockets still owe.
   */
  datatype Node = Node(
    shard: Shard,
    requests: map<Id, Pending>,
    ackRequests: set<Id>,
    callbacks: set<Id>,
    awaiting: set<Owed>
  )

  /** `acked`: a callback stored in `ackRequests` is called with the response's payload. */
  datatype Reaction = Reaction(node: Node, settled: Option<Result>, acked: bool)

  predicate SameKind(a: Answer, b: Answer) {
    (a.SidSet? && b.SidSet?) || (a.RoomSet? && b.RoomSet?) || (a.SocketArray? && b.SocketArray?)
  }

  function Merge(acc: Answer, more: Answer): Answer
    requires SameKind(acc, more)
  {
    match acc
    case SidSet(sids) => SidSet(sids + more.sids)
    case RoomSet(rooms) => RoomSet(rooms + more.rooms)
    case SocketArray(sockets) => SocketArray(sockets + more.sockets)
  }

  /** The response has the array the entry's type asks for. */
  predicate HasKey(acc: Answer, payload: Payload) {
    payload.Answered? && SameKind(acc, payload.answer)
  }

  function Forget(node: Node, id: Id): Node {
    node.(requests := node.requests - {id})
  }

  /** A response to a pending gather. The counter moves before the key is looked for. */
  function OnAnswer(node: Node, id: Id, entry: Pending, payload: Payload): Reaction
    requires entry.Gather?
  {
    var count := entry.msgCount + 1;
    if !HasKey(entry.acc, payload) then
      Reaction(node.(requests := node.requests[id := entry.(msgCount := count)]), None, false)
    else
      var acc := Merge(entry.acc, payload.answer);
      if count == entry.numSub then
        Reaction(Forget(node, id), Some(Gathered(acc)), false)
      else
        Reaction(node.(requests := node.requests[id := Gather(entry.numSub, count, acc)]), None, false)
  }

  function DataOf(payload: Payload): Option<int> {
    if payload.EmitData? then Some(payload.data) else None
  }

  function OnEmitData(node: Node, id: Id, entry: Pending, payload: Payload): Reaction
    requires entry.EmitWait?
  {
    var responses := entry.responses + [DataOf(payload)];
    if |responses| == entry.numSub then
      Reaction(Forget(node, id), Some(AckedAll(responses)), false)
    else
      Reaction(node.(requests := node.requests[id := entry.(responses := responses)]), None, false)
  }

  function OnResponse(node: Node, response: Response): Reaction {
    var id := response.id;
    if id in node.ackRequests then
      Reaction(node, None, response.payload.ClientCount? || response.payload.ClientAck?)
    else if id !in node.requests then
      Reaction(node, None, false)
    else
      var entry := node.requests[id];
      match entry
      case Gather(_, _, _) => OnAnswer(node, id, entry, response.payload)
      case Remote => Reaction(Forget(node, id), Some(Completed), false)
      case EmitWait(_, _) => OnEmitData(node, id, entry, response.payload)
  }

  /** The timer of a pending request fires, however late. */
  function OnTimeout(node: Node, id: Id): Reaction {
    if id !in node.requests then Reaction(node, None, false)
    else
      var entry := node.requests[id];
      Reaction(Forget(node, id),
               Some(if entry.EmitWait? then AckedSome(entry.responses) else Rejected),
               false)
  }

  predicate DistinctSids(sockets: seq<SocketInfo>) {
    forall i, j | 0 <= i < j < |sockets| :: sockets[i].sid != sockets[j].sid
  }

  /** `answer` is what this shard reports for a gather; an array may list sockets in any order. */
  ghost predicate IsSnapshot(body: Body, shard: Shard, answer: Answer)
    requires IsGather(body)
  {
    match body
    case Sockets(rooms) => answer == SidSet(Selected(shard, Opts(rooms, {})))
    case AllRooms => answer == RoomSet(RoomsOf(shard))
    case Fetch(opts) =>
      && answer.SocketArray?
      && DistinctSids(answer.sockets)
      && (set x | x in answer.sockets) == (set s | s in Selected(shard, opts) :: SocketInfo(s, shard[s]))
  }

  /** What applying a request does to the sockets of a node. */
  function Effect(body: Body, shard: Shard): Shard {
    match body
    case JoinOne(sid, room) => if sid in shard then shard[sid := shard[sid] + {room}] else shard
    case LeaveOne(sid, room) => if sid in shard then shard[sid := shard[sid] - {room}] else shard
    case DisconnectOne(sid) => shard - {sid}
    case JoinAll(opts, joined) => AddSockets(shard, opts, joined)
    case LeaveAll(opts, left) => DelSockets(shard, opts, left)
    case DisconnectAll(opts) => DisconnectSockets(shard, opts)
    case _ => shard
  }

  /** Handling a request: the new state, the replies published, the sockets sent the packet. */
  datatype Handled = Handled(node: Node, replies: seq<Payload>, sent: set<Sid>)

  /** The parent's broadcast with acknowledgements, on this node's sockets only. */
  function LocalBroadcast(node: Node, id: Id, opts: Opts, direct: bool): Handled {
    var targets := Selected(node.shard, opts);
    Handled(node.(awaiting := node.awaiting + set s | s in targets :: Owed(id, s, direct)),
            [ClientCount(|targets|)], targets)
  }

  function OnGather(node: Node, message: Message, answer: Answer): Handled {
    if message.id.None? || message.id.value in node.requests then Handled(node, [], {})
    else Handled(node, [Answered(answer)], {})
  }

  function OnOne(node: Node, body: Body, sid: Sid): Handled {
    if sid !in node.shard then Handled(node, [], {})
    else Handled(node.(shard := Effect(body, node.shard)), [Done], {})
  }

  /** `answer` is the snapshot used when the request is a gather. */
  function OnRequest(uid: NodeId, node: Node, message: Message, answer: Answer): Handled {
    match message.body
    case Sockets(_) => OnGather(node, message, answer)
    case AllRooms => OnGather(node, message, answer)
    case Fetch(_) => OnGather(node, message, answer)
    case JoinOne(sid, _) => OnOne(node, message.body, sid)
    case LeaveOne(sid, _) => OnOne(node, message.body, sid)
    case DisconnectOne(sid) => OnOne(node, message.body, sid)
    case ServerSideEmit =>
      if message.uid == uid || message.id.None? then Handled(node, [], {})
      else Handled(node.(callbacks := node.callbacks + {message.id.value}), [], {})
    case BroadcastWithAck(opts) =>
      if message.id.None? || message.id.value in node.ackRequests then Handled(node, [], {})
      else LocalBroadcast(node, message.id.value, opts, false)
    case _ => Handled(node.(shard := Effect(message.body, node.shard)), [], {})
  }

  /** The channel replies go to; a server-side-emit callback always uses the shared one. */
  function ReplyChannel(specific: bool, request: Message): Channel {
    if specific then Specific(request.uid) else Shared
  }

  // ----- Starting a call -----

  /** Starting a call: the new state, the request published, and the result when there is one already. */
  datatype Started = Started(node: Node, published: Option<Message>, result: Option<Result>)

  /** `sockets`, `allRooms`, `fetchSockets` once the subscribers are counted. */
  function StartGather(uid: NodeId, node: Node, id: Id, body: Body, local: Answer, numSub: int): Started {
    if numSub <= 1 then Started(node, None, Some(Gathered(local)))
    else
      Started(node.(requests := node.requests[id := Gather(numSub, 1, local)]), Some(Message(uid, Some(id), body)), None)
  }

  /** `remoteJoin`, `remoteLeave`, `remoteDisconnect`. */
  function StartOne(uid: NodeId, node: Node, id: Id, body: Body): Started
    requires IsOne(body)
  {
    if body.sid in node.shard then
      Started(node.(shard := Effect(body, node.shard)), None, Some(Completed))
    else
      Started(node.(requests := node.requests[id := Remote]), Some(Message(uid, Some(id), body)), None)
  }

  /** `serverSideEmit` with a callback. */
  function StartEmit(uid: NodeId, node: Node, id: Id, subscribers: int): Started {
    var numSub := subscribers - 1;
    if numSub <= 0 then Started(node, None, Some(AckedAll([])))
    else
      Started(node.(requests := node.requests[id := EmitWait(numSub, [])]), Some(Message(uid, Some(id), ServerSideEmit)), None)
  }

  // ----- Late events -----

  /**
   Once an id is in neither map, nothing that arrives for it changes the node: not a
   response, not its timer. And a response or timer for one id leaves other entries alone.
   */
  lemma LateEventsAreInert(node: Node, response: Response)
    requires response.id !in node.requests && response.id !in node.ackRequests
    ensures OnResponse(node, response) == Reaction(node, None, false)
    ensures OnTimeout(node, response.id) == Reaction(node, None, false)
  {
  }

  lemma OtherEntriesUntouched(node: Node, response: Response, other: Id)
    requires other != response.id
    ensures var after := OnResponse(node, response).node.requests;
            (other in after <==> other in node.requests) &&
            (other in after ==> after[other] == node.requests[other])
    ensures var after := OnTimeout(node, response.id).node.requests;
            (other in after <==> other in node.requests) &&
            (other in after ==> after[other] == node.requests[other])
  {
  }

  /** A response settles its id exactly when it removes the entry. */
  lemma SettlingRemoves(node: Node, response: Response)
    ensures var r := OnResponse(node, response);
            r.settled.Some? <==> response.id in node.requests && response.id !in r.node.requests
  {
  }

  // ----- Why responses must be well formed -----

  /** The node after `payloads` arrived for `id`, in order. */
  ghost function Feed(node: Node, id: Id, payloads: seq<Payload>): Node {
    if payloads == [] then node
    else OnResponse(Feed(node, id, payloads[..|payloads| - 1]), Response(id, payloads[|payloads| - 1])).node
  }

  /** The answers among `payloads` that have the array asked for, merged into `acc`. */
  ghost function MergeKeyed(acc: Answer, payloads: seq<Payload>): (merged: Answer)
    ensures SameKind(acc, merged)
  {
    if payloads == [] then acc
    else
      var before := MergeKeyed(acc, payloads[..|payloads| - 1]);
      var last := payloads[|payloads| - 1];
      if HasKey(acc, last) then Merge(before, last.answer) else before
  }

  lemma {:induction false} FedEntry(node: Node, id: Id, numSub: int, acc: Answer, payloads: seq<Payload>)
    requires id in node.requests && id !in node.ackRequests && node.requests[id] == Gather(numSub, 1, acc)
    requires |payloads| < numSub - 1
    ensures var fed := Feed(node, id, payloads);
            id !in fed.ackRequests && id in fed.requests &&
            fed.requests[id] == Gather(numSub, 1 + |payloads|, MergeKeyed(acc, payloads))
  {
    if payloads != [] { FedEntry(node, id, numSub, acc, payloads[..|payloads| - 1]); }
  }

  /**
   The counter moves before the array is looked for. So of the responses a gather waits for,
   only the last decides whether it resolves, and the ones without the array are counted but
   missing from the result. With every response well formed it always resolves, complete.
   */
  lemma GatherResolvesIff(node: Node, id: Id, numSub: int, acc: Answer, payloads: seq<Payload>)
    requires id in node.requests && id !in node.ackRequests && node.requests[id] == Gather(numSub, 1, acc)
    requires |payloads| == numSub - 1 && payloads != []
    ensures var last := payloads[|payloads| - 1];
            var r := OnResponse(Feed(node, id, payloads[..|payloads| - 1]), Response(id, last));
            r.settled == if HasKey(acc, last) then Some(Gathered(MergeKeyed(acc, payloads))) else None
  {
    FedEntry(node, id, numSub, acc, payloads[..|payloads| - 1]);
  }

  // ----- Responses keep the order they came in -----

  ghost predicate AllData(payloads: seq<Payload>) { forall p | p in payloads :: p.EmitData? }

  /** One response for each, in order. */
  ghost predicate DataInOrder(responses: seq<Option<int>>, payloads: seq<Payload>)
    requires AllData(payloads)
  {
    |responses| == |payloads| && forall k | 0 <= k < |payloads| :: responses[k] == Some(payloads[k].data)
  }

  lemma {:induction false} FedEmit(node: Node, id: Id, numSub: int, payloads: seq<Payload>)
    requires id in node.requests && id !in node.ackRequests && node.requests[id] == EmitWait(numSub, [])
    requires |payloads| < numSub && AllData(payloads)
    ensures var fed := Feed(node, id, payloads);
            && id !in fed.ackRequests && id in fed.requests && fed.requests[id].EmitWait?
            && fed.requests[id].numSub == numSub && DataInOrder(fed.requests[id].responses, payloads)
  {
    if payloads != [] { FedEmit(node, id, numSub, payloads[..|payloads| - 1]); }
  }

  lemma LastData(node: Node, id: Id, responses: seq<Option<int>>, data: int)
    requires id in node.requests && id !in node.ackRequests
    requires node.requests[id] == EmitWait(|responses| + 1, responses)
    ensures OnResponse(node, Response(id, EmitData(data))).settled == Some(AckedAll(responses + [Some(data)]))
  {
  }

  /** An emit is acknowledged by the last of the responses expected, with all of them in the order they came. */
  lemma EmitKeepsOrder(node: Node, id: Id, numSub: int, payloads: seq<Payload>)
    requires id in node.requests && id !in node.ackRequests && node.requests[id] == EmitWait(numSub, [])
    requires |payloads| == numSub && payloads != [] && AllData(payloads)
    ensures var r := OnResponse(Feed(node, id, payloads[..numSub - 1]), Response(id, payloads[numSub - 1]));
            r.settled.Some? && r.settled.value.AckedAll? && DataInOrder(r.settled.value.responses, payloads)
  {
    var front, last := payloads[..numSub - 1], payloads[numSub - 1];
    assert forall p | p in front :: p in payloads;
    FedEmit(node, id, numSub, front);
    var fed := Feed(node, id, front);
    LastData(fed, id, fed.requests[id].responses, last.data);
  }

  ghost predicate AllArrays(payloads: seq<Payload>) {
    forall p | p in payloads :: p.Answered? && p.answer.SocketArray?
  }

  /** The arrays one after the other. */
  ghost function Listed(payloads: seq<Payload>): seq<SocketInfo>
    requires AllArrays(payloads)
  {
    if payloads == [] then [] else payloads[0].answer.sockets + Listed(payloads[1..])
  }

  lemma {:induction false} ListedMore(payloads: seq<Payload>, last: Payload)
    requires AllArrays(payloads) && last.Answered? && last.answer.SocketArray?
    ensures Listed(payloads + [last]) == Listed(payloads) + last.answer.sockets
  {
    if payloads == [] {
      assert (payloads + [last])[1..] == [];
    } else {
      assert (payloads + [last])[1..] == payloads[1..] + [last];
      ListedMore(payloads[1..], last);
    }
  }

  /** A fetch lists the caller's own sockets first, and then the arrays in the order they came. */
  lemma {:induction false} FetchKeepsOrder(own: seq<SocketInfo>, payloads: seq<Payload>)
    requires AllArrays(payloads)
    ensures MergeKeyed(SocketArray(own), payloads) == SocketArray(own + Listed(payloads))
  {
    if payloads == [] {
      assert own + [] == own;
    } else {
      var front, last := payloads[..|payloads| - 1], payloads[|payloads| - 1];
      FetchKeepsOrder(own, front);
      ListedMore(front, last);
      assert payloads == front + [last];
    }
  }
}
