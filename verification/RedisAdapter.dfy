/**
 The adapter as an object: two maps updated in place, entries grown in place by responses,
 messages published, promises settled. Every method is proved to compute the functions of
 AdapterNode and PacketBroadcast, which the cluster is built from.
 */
module RedisAdapter {
  import opened Option
  import opened RoomNames
  import opened Shards
  import opened AdapterNode
  import opened PacketBroadcast
  import opened RequestEffects

  datatype Kind = SocketsKind | RoomsKind | FetchKind | RemoteKind | EmitKind

  /** An entry of `requests`; which of the collections is used depends on the kind. */
  class Request {
    const kind: Kind
    const numSub: int
    var msgCount: int
    var sids: set<Sid>
    var rooms: set<Room>
    var sockets: seq<SocketInfo>
    var responses: seq<Option<int>>

    constructor Gathering(local: Answer, subscribers: int)
      ensures Value() == Gather(subscribers, 1, local)
      ensures Collects()
    {
      kind := if local.SidSet? then SocketsKind else if local.RoomSet? then RoomsKind else FetchKind;
      numSub := subscribers;
      msgCount := 1;
      sids := if local.SidSet? then local.sids else {};
      rooms := if local.RoomSet? then local.rooms else {};
      sockets := if local.SocketArray? then local.sockets else [];
      responses := [];
    }

    constructor Remoting()
      ensures Value() == Remote
    {
      kind, numSub, msgCount := RemoteKind, 0, 0;
      sids, rooms, sockets, responses := {}, {}, [], [];
    }

    constructor Emitting(others: int)
      ensures Value() == EmitWait(others, [])
    {
      kind, numSub, msgCount := EmitKind, others, 0;
      sids, rooms, sockets, responses := {}, {}, [], [];
    }

    predicate Collects() { kind.SocketsKind? || kind.RoomsKind? || kind.FetchKind? }

    function Collected(): Answer
      reads this
    {
      if kind.SocketsKind? then SidSet(sids)
      else if kind.RoomsKind? then RoomSet(rooms)
      else SocketArray(sockets)
    }

    function Value(): Pending
      reads this
    {
      if kind.RemoteKind? then Remote
      else if kind.EmitKind? then EmitWait(numSub, responses)
      else Gather(numSub, msgCount, Collected())
    }

    /** One array's elements go into the entry's set or onto its array, element by element. */
    method Collect(more: Answer)
      requires Collects() && SameKind(Collected(), more)
      modifies this
      ensures msgCount == old(msgCount) && Collected() == Merge(old(Collected()), more)
    {
      match more
      case SidSet(listed) => AddSids(listed);
      case RoomSet(listed) => AddRooms(listed);
      case SocketArray(listed) => PushSockets(listed);
    }

    method AddSids(listed: set<Sid>)
      modifies this`sids
      ensures sids == old(sids) + listed
    {
      var rest := listed;
      while rest != {}
        invariant rest <= listed && sids == old(sids) + (listed - rest)
        decreases |rest|
      {
        var s :| s in rest;
        sids := sids + {s};
        rest := rest - {s};
      }
    }

    method AddRooms(listed: set<Room>)
      modifies this`rooms
      ensures rooms == old(rooms) + listed
    {
      var rest := listed;
      while rest != {}
        invariant rest <= listed && rooms == old(rooms) + (listed - rest)
        decreases |rest|
      {
        var r :| r in rest;
        rooms := rooms + {r};
        rest := rest - {r};
      }
    }

    method PushSockets(listed: seq<SocketInfo>)
      modifies this`sockets
      ensures sockets == old(sockets) + listed
    {
      for i := 0 to |listed|
        invariant sockets == old(sockets) + listed[..i]
      {
        sockets := sockets + [listed[i]];
      }
      assert listed[..|listed|] == listed;
    }
  }

  /** Anything a node publishes. */
  datatype Published =
    | Asked(message: Message)
    | Replied(channel: Channel, response: Response)
    | Packets(publication: Publication)

  function AsksFor(published: Option<Message>): seq<Published> {
    if published.None? then [] else [Asked(published.value)]
  }

  function SettlesAs(id: Id, result: Option<Result>): seq<(Id, Result)> {
    if result.None? then [] else [(id, result.value)]
  }

  function RepliesAs(channel: Channel, id: Id, payloads: seq<Payload>): seq<Published> {
    if payloads == [] then []
    else RepliesAs(channel, id, payloads[..|payloads| - 1]) +
         [Replied(channel, Response(id, payloads[|payloads| - 1]))]
  }

  /** `sockets` lists each of `sids` once, with its rooms, and nothing else. */
  ghost predicate ListsExactly(sockets: seq<SocketInfo>, shard: Shard, sids: set<Sid>) {
    && sids <= shard.Keys
    && DistinctSids(sockets)
    && (forall x | x in sockets :: x.sid in sids && x == SocketInfo(x.sid, shard[x.sid]))
    && forall s | s in sids :: SocketInfo(s, shard[s]) in sockets
  }

  lemma ListsOneMore(sockets: seq<SocketInfo>, shard: Shard, sids: set<Sid>, s: Sid)
    requires ListsExactly(sockets, shard, sids) && s in shard && s !in sids
    ensures ListsExactly(sockets + [SocketInfo(s, shard[s])], shard, sids + {s})
  {
    forall x | x in sockets ensures x.sid != s {}
  }

  lemma ListedIsSnapshot(sockets: seq<SocketInfo>, shard: Shard, opts: Opts)
    requires ListsExactly(sockets, shard, Selected(shard, opts))
    ensures IsSnapshot(Fetch(opts), shard, SocketArray(sockets))
  {
    var listed := set x | x in sockets;
    var wanted := set s | s in Selected(shard, opts) :: SocketInfo(s, shard[s]);
    forall x | x in listed ensures x in wanted {}
    forall x | x in wanted ensures x in listed {}
  }

  class RedisAdapter {
    const uid: NodeId
    const specific: bool
    const prefix: string
    const nsp: string
    var shard: Shard
    var requests: map<Id, Request>
    var ackRequests: set<Id>
    var callbacks: set<Id>
    var awaiting: set<Owed>
    /** What has been published, settled and called back so far, and the packets written. */
    var outbox: seq<Published>
    var settled: seq<(Id, Result)>
    var ackCalls: seq<Response>
    var written: multiset<Sid>

    constructor (uid: NodeId, specific: bool, prefix: string, nsp: string)
      ensures Valid() && State() == Node(map[], map[], {}, {}, {})
      ensures this.uid == uid && this.specific == specific && this.prefix == prefix && this.nsp == nsp
      ensures outbox == [] && settled == [] && ackCalls == [] && written == multiset{}
    {
      this.uid, this.specific, this.prefix, this.nsp := uid, specific, prefix, nsp;
      shard, requests, ackRequests, callbacks, awaiting := map[], map[], {}, {}, {};
      outbox, settled, ackCalls, written := [], [], [], multiset{};
      new;
      assert State().requests == map[];
    }

    /** No two ids share an entry. */
    ghost predicate Valid()
      reads this
    {
      forall a, b | a in requests && b in requests && a != b :: requests[a] != requests[b]
    }

    ghost function Entries(): map<Id, Pending>
      reads this, requests.Values
    {
      map id | id in requests :: requests[id].Value()
    }

    ghost function State(): Node
      reads this, requests.Values
    {
      Node(shard, Entries(), ackRequests, callbacks, awaiting)
    }

    ghost function AsStation(): Station
      reads this
    {
      Station(uid, nsp, shard)
    }

    // ----- Responses and timers -----

    method Settle(id: Id, result: Result)
      requires Valid() && id in requests
      modifies this`requests, this`settled
      ensures Valid() && requests == old(requests) - {id}
      ensures settled == old(settled) + [(id, result)]
    {
      settled := settled + [(id, result)];
      requests := requests - {id};
    }

    method OnResponse(response: Response)
      requires Valid()
      modifies this`requests, this`settled, this`ackCalls, requests.Values
      ensures Valid() && requests.Values <= old(requests.Values)
      ensures var r := AdapterNode.OnResponse(old(State()), response);
              && State() == r.node
              && settled == old(settled) + SettlesAs(response.id, r.settled)
              && ackCalls == old(ackCalls) + if r.acked then [response] else []
    {
      var id := response.id;
      if id in ackRequests {
        match response.payload {
          case ClientCount(_) => ackCalls := ackCalls + [response];
          case ClientAck(_) => ackCalls := ackCalls + [response];
          case _ =>
        }
        return;
      }
      if id !in requests { return; }
      var request := requests[id];
      if request.kind.RemoteKind? {
        Settle(id, Completed);
      } else if request.kind.EmitKind? {
        OnEmitResponse(id, request, response.payload);
      } else {
        OnGatherResponse(id, request, response.payload);
      }
    }

    method OnGatherResponse(id: Id, request: Request, payload: Payload)
      requires Valid() && id in requests && requests[id] == request && request.Collects()
      modifies this`requests, this`settled, request
      ensures Valid() && requests.Values <= old(requests.Values)
      ensures var r := OnAnswer(old(State()), id, old(request.Value()), payload);
              && State() == r.node
              && settled == old(settled) + SettlesAs(id, r.settled)
    {
      ghost var before := Entries();
      request.msgCount := request.msgCount + 1;
      if payload.Answered? && SameKind(request.Collected(), payload.answer) {
        request.Collect(payload.answer);
        assert request.Collected() == Merge(old(request.Collected()), payload.answer);
        if request.msgCount == request.numSub {
          Settle(id, Gathered(request.Collected()));
          assert Entries() == before - {id};
          return;
        }
      }
      assert Entries() == before[id := request.Value()];
    }

    method OnEmitResponse(id: Id, request: Request, payload: Payload)
      requires Valid() && id in requests && requests[id] == request && request.kind.EmitKind?
      modifies this`requests, this`settled, request
      ensures Valid() && requests.Values <= old(requests.Values)
      ensures var r := OnEmitData(old(State()), id, old(request.Value()), payload);
              && State() == r.node
              && settled == old(settled) + SettlesAs(id, r.settled)
    {
      ghost var before := Entries();
      request.responses := request.responses + [DataOf(payload)];
      if |request.responses| == request.numSub {
        Settle(id, AckedAll(request.responses));
        assert Entries() == before - {id};
      } else {
        assert Entries() == before[id := request.Value()];
      }
    }

    /** The timer of a request. Clearing a timer is not needed: a late one finds no entry. */
    method TimerFires(id: Id)
      requires Valid()
      modifies this`requests, this`settled
      ensures Valid() && requests.Values <= old(requests.Values)
      ensures var r := OnTimeout(old(State()), id);
              && State() == r.node
              && settled == old(settled) + SettlesAs(id, r.settled)
    {
      if id in requests {
        var request := requests[id];
        ghost var before := Entries();
        Settle(id, if request.kind.EmitKind? then AckedSome(request.responses) else Rejected);
        assert Entries() == before - {id};
      }
    }

    method AckTimerFires(id: Id)
      modifies this`ackRequests
      ensures ackRequests == old(ackRequests) - {id}
    {
      ackRequests := ackRequests - {id};
    }

    // ----- Starting calls -----

    method StartEntry(id: Id, request: Request, body: Body)
      requires Valid() && request !in requests.Values
      modifies this`requests, this`outbox
      ensures Valid() && requests == old(requests)[id := request]
      ensures Entries() == old(Entries())[id := request.Value()]
      ensures outbox == old(outbox) + [Asked(Message(uid, Some(id), body))]
    {
      requests := requests[id := request];
      outbox := outbox + [Asked(Message(uid, Some(id), body))];
    }

    /** The second half of `sockets`, `allRooms` and `fetchSockets`: `local` was taken before the count came. */
    method GatherAll(id: Id, body: Body, local: Answer, numSub: int)
      requires Valid() && IsGather(body)
      modifies this`requests, this`outbox, this`settled
      ensures Valid() && fresh(requests.Values - old(requests.Values))
      ensures var s := StartGather(uid, old(State()), id, body, local, numSub);
              && State() == s.node
              && outbox == old(outbox) + AsksFor(s.published)
              && settled == old(settled) + SettlesAs(id, s.result)
    {
      if numSub <= 1 {
        settled := settled + [(id, Gathered(local))];
        return;
      }
      var request := new Request.Gathering(local, numSub);
      StartEntry(id, request, body);
    }

    /** The socket-set half of `remoteJoin`, `remoteLeave` and `remoteDisconnect`, on a socket of this node. */
    method ApplyOne(body: Body)
      requires IsOne(body) && body.sid in shard
      modifies this`shard
      ensures shard == Effect(body, old(shard)) && Obeys(body, old(shard), shard)
    {
      EffectObeys(body, shard);
      match body
      case JoinOne(sid, room) => shard := shard[sid := shard[sid] + {room}];
      case LeaveOne(sid, room) => shard := shard[sid := shard[sid] - {room}];
      case DisconnectOne(sid) => shard := shard - {sid};
    }

    method RemoteOne(id: Id, body: Body)
      requires Valid() && IsOne(body)
      modifies this`shard, this`requests, this`outbox, this`settled
      ensures Valid() && fresh(requests.Values - old(requests.Values))
      ensures var s := StartOne(uid, old(State()), id, body);
              && State() == s.node
              && outbox == old(outbox) + AsksFor(s.published)
              && settled == old(settled) + SettlesAs(id, s.result)
      ensures if body.sid in old(shard)
              then Obeys(body, old(shard), shard) && outbox == old(outbox) && settled == old(settled) + [(id, Completed)]
              else shard == old(shard) && outbox == old(outbox) + [Asked(Message(uid, Some(id), body))] &&
                   settled == old(settled)
    {
      if body.sid in shard {
        ApplyOne(body);
        settled := settled + [(id, Completed)];
        return;
      }
      var request := new Request.Remoting();
      StartEntry(id, request, body);
    }

    method ServerSideEmitWithAck(id: Id, subscribers: int)
      requires Valid()
      modifies this`requests, this`outbox, this`settled
      ensures Valid() && fresh(requests.Values - old(requests.Values))
      ensures var s := StartEmit(uid, old(State()), id, subscribers);
              && State() == s.node
              && outbox == old(outbox) + AsksFor(s.published)
              && settled == old(settled) + SettlesAs(id, s.result)
    {
      var numSub := subscribers - 1;
      if numSub <= 0 {
        settled := settled + [(id, AckedAll([]))];
        return;
      }
      var request := new Request.Emitting(numSub);
      StartEntry(id, request, ServerSideEmit);
    }

    /** `addSockets`, `delSockets`, `disconnectSockets`: published for every node, unless flagged local. */
    method EditSockets(body: Body, local: bool)
      requires IsCommand(body)
      modifies this`shard, this`outbox
      ensures if local then shard == Effect(body, old(shard)) && Obeys(body, old(shard), shard) else shard == old(shard)
      ensures outbox == old(outbox) + if local then [] else [Asked(Message(uid, None, body))]
    {
      if local {
        EffectObeys(body, shard);
        shard := Effect(body, shard);
      } else {
        outbox := outbox + [Asked(Message(uid, None, body))];
      }
    }

    // ----- Requests -----

    /** The parent's `fetchSockets`: the picked sockets, in some order. */
    method LocalFetch(opts: Opts) returns (sockets: seq<SocketInfo>)
      ensures IsSnapshot(Fetch(opts), shard, SocketArray(sockets))
    {
      ghost var picked := Selected(shard, opts);
      var rest := Selected(shard, opts);
      sockets := [];
      while rest != {}
        invariant rest <= picked <= shard.Keys
        invariant ListsExactly(sockets, shard, picked - rest)
        decreases |rest|
      {
        var s :| s in rest;
        ListsOneMore(sockets, shard, picked - rest, s);
        assert picked - (rest - {s}) == (picked - rest) + {s};
        sockets := sockets + [SocketInfo(s, shard[s])];
        rest := rest - {s};
      }
      assert picked - rest == picked;
      ListedIsSnapshot(sockets, shard, opts);
    }

    method Snapshot(body: Body) returns (answer: Answer)
      requires IsGather(body)
      ensures IsSnapshot(body, shard, answer)
    {
      match body
      case Sockets(rooms) => answer := SidSet(Selected(shard, Opts(rooms, {})));
      case AllRooms => answer := RoomSet(RoomsOf(shard));
      case Fetch(opts) =>
        var sockets := LocalFetch(opts);
        answer := SocketArray(sockets);
    }

    method PublishResponse(request: Message, payload: Payload)
      requires request.id.Some?
      modifies this`outbox
      ensures outbox == old(outbox) + [Replied(ReplyChannel(specific, request), Response(request.id.value, payload))]
      ensures outbox[|outbox| - 1].channel == if specific then Specific(request.uid) else Shared
    {
      outbox := outbox + [Replied(if specific then Specific(request.uid) else Shared,
                                   Response(request.id.value, payload))];
    }

    /** The parent's broadcast with acknowledgements, on this node's sockets. */
    method LocalBroadcastWithAck(id: Id, opts: Opts, direct: bool) returns (clientCount: nat)
      modifies this`awaiting, this`written
      ensures var handled := LocalBroadcast(old(State()), id, opts, direct);
              && State() == handled.node && handled.replies == [ClientCount(clientCount)]
              && written == old(written) + multiset(handled.sent)
    {
      var targets := Selected(shard, opts);
      awaiting := awaiting + set s | s in targets :: Owed(id, s, direct);
      written := written + multiset(targets);
      clientCount := |targets|;
    }

    /** `answer` is the snapshot taken, when the request is a gather that is answered. */
    method OnRequest(message: Message) returns (ghost answer: Answer)
      requires message.id.None? ==> IsCommand(message.body) || message.body.ServerSideEmit?
      modifies this`shard, this`callbacks, this`awaiting, this`outbox, this`written
      ensures IsGather(message.body) && message.id.value !in requests ==> IsSnapshot(message.body, old(shard), answer)
      ensures var handled := AdapterNode.OnRequest(uid, old(State()), message, answer);
              && State() == handled.node
              && written == old(written) + multiset(handled.sent)
              && outbox == old(outbox) +
                   if message.id.None? then []
                   else RepliesAs(ReplyChannel(specific, message), message.id.value, handled.replies)
    {
      answer := RoomSet({});
      match message.body {
        case JoinAll(_, _) => OnCommandRequest(message);
        case LeaveAll(_, _) => OnCommandRequest(message);
        case DisconnectAll(_) => OnCommandRequest(message);
        case JoinOne(sid, _) => OnOneRequest(message);
        case LeaveOne(sid, _) => OnOneRequest(message);
        case DisconnectOne(sid) => OnOneRequest(message);
        case ServerSideEmit =>
          if message.uid != uid && message.id.Some? { callbacks := callbacks + {message.id.value}; }
        case BroadcastWithAck(_) => OnBroadcastRequest(message);
        case _ =>
          answer := OnGatherRequest(message);
      }
    }

    method OnBroadcastRequest(message: Message)
      requires message.body.BroadcastWithAck? && message.id.Some?
      modifies this`awaiting, this`outbox, this`written
      ensures var handled := AdapterNode.OnRequest(uid, old(State()), message, RoomSet({}));
              && State() == handled.node
              && written == old(written) + multiset(handled.sent)
              && outbox == old(outbox) + RepliesAs(ReplyChannel(specific, message), message.id.value, handled.replies)
    {
      if message.id.value in ackRequests { return; }
      var clientCount := LocalBroadcastWithAck(message.id.value, message.body.opts, false);
      PublishResponse(message, ClientCount(clientCount));
      OneReply(ReplyChannel(specific, message), message.id.value, ClientCount(clientCount));
    }

    method OnCommandRequest(message: Message)
      requires IsCommand(message.body)
      modifies this`shard
      ensures shard == Effect(message.body, old(shard))
    {
      match message.body
      case JoinAll(opts, joined) => shard := AddSockets(shard, opts, joined);
      case LeaveAll(opts, left) => shard := DelSockets(shard, opts, left);
      case DisconnectAll(opts) => shard := DisconnectSockets(shard, opts);
    }

    lemma OneReply(channel: Channel, id: Id, payload: Payload)
      ensures RepliesAs(channel, id, [payload]) == [Replied(channel, Response(id, payload))]
    {
      assert [payload][..0] == [];
    }

    method OnOneRequest(message: Message)
      requires IsOne(message.body) && message.id.Some?
      modifies this`shard, this`outbox
      ensures var handled := OnOne(old(State()), message.body, message.body.sid);
              && State() == handled.node
              && outbox == old(outbox) + RepliesAs(ReplyChannel(specific, message), message.id.value, handled.replies)
      ensures if message.body.sid in old(shard)
              then Obeys(message.body, old(shard), shard) &&
                   outbox == old(outbox) + [Replied(ReplyChannel(specific, message), Response(message.id.value, Done))]
              else shard == old(shard) && outbox == old(outbox)
    {
      if message.body.sid !in shard { return; }
      ApplyOne(message.body);
      PublishResponse(message, Done);
      OneReply(ReplyChannel(specific, message), message.id.value, Done);
    }

    method OnGatherRequest(message: Message) returns (ghost answer: Answer)
      requires IsGather(message.body) && message.id.Some?
      modifies this`outbox
      ensures message.id.value !in requests ==> IsSnapshot(message.body, shard, answer)
      ensures var handled := OnGather(old(State()), message, answer);
              && State() == handled.node
              && outbox == old(outbox) + RepliesAs(ReplyChannel(specific, message), message.id.value, handled.replies)
    {
      answer := RoomSet({});
      if message.id.value in requests { return; }
      var local := Snapshot(message.body);
      answer := local;
      PublishResponse(message, Answered(local));
      OneReply(ReplyChannel(specific, message), message.id.value, Answered(local));
    }

    /** The application calls the callback of a server-side emit; only the first call publishes. */
    method CallbackCalled(id: Id, data: int)
      modifies this`callbacks, this`outbox
      ensures callbacks == old(callbacks) - {id}
      ensures outbox == old(outbox) +
                if id in old(callbacks) then [Replied(Shared, Response(id, EmitData(data)))] else []
    {
      if id !in callbacks { return; }
      callbacks := callbacks - {id};
      outbox := outbox + [Replied(Shared, Response(id, EmitData(data)))];
    }

    // ----- Broadcasts -----

    method BroadcastWithAck(id: Id, opts: Opts, local: bool) returns (clientCount: nat)
      modifies this`ackRequests, this`awaiting, this`outbox, this`written
      ensures var start := if local then old(State()) else old(State()).(ackRequests := old(ackRequests) + {id});
              var handled := LocalBroadcast(start, id, opts, true);
              && State() == handled.node && handled.replies == [ClientCount(clientCount)]
              && written == old(written) + multiset(handled.sent)
      ensures outbox == old(outbox) + if local then [] else [Asked(Message(uid, Some(id), Body.BroadcastWithAck(opts)))]
    {
      if !local {
        outbox := outbox + [Asked(Message(uid, Some(id), Body.BroadcastWithAck(opts)))];
        ackRequests := ackRequests + {id};
      }
      clientCount := LocalBroadcastWithAck(id, opts, true);
    }

    method ChannelOf(opts: Opts) returns (channel: string)
      ensures channel == ChannelFor(Base(prefix, nsp), opts)
      ensures forall room | opts.rooms == {room} :: channel == prefix + "#" + nsp + "#" + ShowRoom(room) + "#"
      ensures |opts.rooms| != 1 ==> channel == prefix + "#" + nsp + "#"
    {
      channel := Base(prefix, nsp);
      if |opts.rooms| == 1 {
        var room :| room in opts.rooms;
        OnlyMember(opts.rooms, room);
        channel := channel + ShowRoom(room) + "#";
      }
    }

    method Broadcast(data: int, opts: Opts, local: bool)
      modifies this`outbox, this`written
      ensures outbox == old(outbox) + if local then [] else [Packets(Publish(prefix, AsStation(), data, opts))]
      ensures written == old(written) + multiset(Selected(shard, opts))
    {
      if !local {
        var channel := ChannelOf(opts);
        outbox := outbox + [Packets(Publication(channel, uid, Some(Packet(Some(nsp), data)), opts))];
      }
      written := written + multiset(Selected(shard, opts));
    }

    method OnMessage(p: Publication)
      modifies this`written
      ensures written == old(written) + multiset(Receive(prefix, AsStation(), p))
    {
      var base := Base(prefix, nsp);
      if !(base <= p.channel) { return; }
      var room := RoomPart(base, p.channel);
      if room != "" && !HasRoom(shard, room) { return; }
      if uid == p.uid { return; }
      if p.packet.None? || NspOf(p.packet.value) != nsp { return; }
      written := written + multiset(Selected(shard, p.opts));
    }
  }
}
