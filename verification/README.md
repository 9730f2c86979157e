# A verified model of the server's adapter, rooms, recorder, mailbox and friendships

This project models, in Dafny, the parts of the repository whose correctness is spread over
several functions, several processes or a whole run, and proves what they promise together.
`dafny verify dfyconfig.toml` checks all of it.

## What is modelled

**The cluster adapter** (`src/adapters/custom-adpater.ts`). Several nodes share sockets and
rooms over Redis: they gather answers from each other, send commands to each other's sockets,
broadcast, and broadcast with acknowledgements.

- `AdapterNode` is what one node does on each event, as functions of its state; `RedisAdapter`
  is the class, with its two maps and in-place entries, and every method is proved to compute
  those functions.
- `Cluster` runs many nodes against each other: a request log every node reads in publish
  order (its own messages included), response channels that may delay, reorder or lose,
  timers that may fire at any step, applications that change local sockets, answer a
  server-side emit or acknowledge a packet at any step. A *run* is any sequence of such steps.
  The calling steps are built from the same functions the class is proved to compute.
- `ClusterInvariants`, `ClusterLedger`, `ClusterMail` and `Gathers` are what every step keeps;
  `ClusterTheorems`, `ClusterOutcomes`, `DeleteFetch`, `KickCounts`, `Refinement`,
  `BroadcastWrites` (who is sent a packet, and how often), `BroadcastAcks` (its counts and
  acknowledgements) and `AckDelivery` (none of these is lost) are the results. `Progress` says
  that nodes do their part, so that a waiting call always waits for something possible.
- `RequestEffects` says socket by socket what a request does and what a node reports, without
  the set operations the model computes with; `ShardMoves` carries it over all runs.
- `PacketBroadcast` is plain broadcast with the per-room channel and the skip filter, over
  `RoomNames` (text of room keys, `parseInt`, `parseFloat`, `isNumeric`) and `Shards` (the
  parent adapter as sets).

**Rooms** (`room.gateway.service.ts`, `socket.util.ts`, `rooms-database.helper.ts`). `Rooms`
gives every handler as one step on a world of sockets, notices and rows; `RoomGateway` is the
class; `RoomHandlers` says client by client and row by row what a handler does; `RoomRuns`
proves what all runs keep; `RoomCapacity` splits a join at its awaits, and `SplitJoins` and
`SplitLeaves` say when a split join, leave or disconnect still comes out right.
`Sets` and `Option` are shared helpers.

**Three smaller cores.** `Records` (the time recorder is a greedy algorithm, and optimal),
`MessageStore` (two copies of a conversation under whole-list expiry), `Friends` with
`ConnectionSync` (the friendship table, and the list a client is sent when it connects).

## Assumptions

- The set of nodes is fixed, every node is subscribed, and the subscriber count is the number
  of nodes. Request ids and node ids are fresh. A socket lives on one node for its whole life.
- Each node reads the request channel in publish order, its own messages included. Publishing
  is one step; delay before a message reaches the channel is folded into delivery. A response
  reaches a node at most once, in any order, at any time, or never.
- Responses are well formed. What happens otherwise is `AdapterNode.GatherResolvesIff`: the
  counter moves before the array is looked for.
- A caller's own part of `fetchSockets` holds live sockets, where another node's part is a copy
  (`custom-adpater.ts:891`, `353-365`). Which sockets it lists is fixed when the call begins;
  the model records their rooms of that moment too, where the source reads them when the result
  is used.
- The parent adapter is its set semantics: options pick the sockets that are in some room of
  `rooms` (all, if that is empty) and in no room of `except`.
- Room handlers are single steps in `RoomRuns`. In particular the member count after a kick is
  taken after the kick has been applied; across nodes `KickCounts.KickCountIff` says exactly when
  that is so, from `DeleteFetch.DeleteThenFetch` for the parts of the other nodes and
  `DeleteFetch.OwnPartListsIff` for the caller's own.
- What runs of room handlers keep is said of one room at a time, in runs that are *fair* to it
  (`Rooms.FairRun`): joins, leaves and kicks that are read as its id name it by the canonical
  decimal, if they get past their checks, and it is nobody's personal room: no socket has it for an id, no user of that id
  connects while there is the row, and none is connected when the row is made. Whatever happens
  to other rooms is free, since room ids and user ids are both counted from 1 and often meet.
  The exact role of these hypotheses is in `RoomRuns.JoinAgreesIff`, `LeaveAgreesIff`,
  `KickAgreesIff`, `DisconnectAgreesIff`, `ConnectAgreesIff` and `CreateAgreesIff`, with
  `LeadingZeroMiscounts` and `PersonalRoomMiscounts` as inputs on which the code fails without.
- The user of a socket is the user of its handshake, and is known when it disconnects.
- `leftRoom` events carry no room; the model tags them with one.
- A record's `updatedAt` is the time of the call that wrote it.

## Where code and intention differ (the model follows the code)

- `addFriend` catches its own refusals, logs them and returns nothing; and since it does not
  await the insert, the duplicate error it means to translate escapes untranslated. The model
  has the three outcomes `Created`, `Refused` and `AlreadySent`.
- A leave of a room without a row takes the socket out of the room first and raises after, so
  nobody is told; the model does the same.
- The check of a kick compares the payload's user id with the moderator's but never with the
  target socket's; the kick acts on the socket, the notice names the user id.
- That check reads the room id with `parseInt` in any base, the recount in base ten. Of a room
  named in base sixteen the check may find a row; the recount reads a leading zero, and if
  there is no row 0 it fails after the target is already out.
- The capacity check counts the members on the client's own node only
  (`RoomCapacity.JoinOverfillsIff`).
- `updateRoomInfoByDelta` writes a negative count before correcting it; the model has the
  corrected value, and `RoomRuns.ClampNeverFires` shows that the correction is never needed.

## Model

| member | source | states |
|---|---|---|
| RoomNames.ShowRoundTrip | src/adapters/custom-adpater.ts:42 | the text of an integer is numeric and reads back as the same number, by `parseFloat`, by `parseInt` in base ten and by `parseInt` in any base, although `isNumeric` accepts decimals, exponents, blanks and other bases too |
| RoomNames.ParseIntIff | src/gateways/room.gateway.service.ts:608-612 | `parseInt` in base ten reads a number from a text if and only if the text is blanks, a sign or none, digits of that number, and then anything but another digit; so one id has many names |
| RoomNames.HexNameDiffers | src/gateways/room.gateway.service.ts:365 | a name in base sixteen is read as its number by `parseInt` in any base and as 0 in base ten |
| RequestEffects.SelectedArePicked | src/adapters/custom-adpater.ts:347-351 | options pick exactly the sockets that are in some room of `rooms`, or any if none is named, and in no excepted room |
| RequestEffects.EffectObeys | src/adapters/custom-adpater.ts:273-333 | socket by socket and room by room: a join adds its rooms to the named or picked sockets, a leave takes them away, a disconnect removes these sockets, and every other socket and room stays |
| RequestEffects.ObeyedOneWay | src/adapters/custom-adpater.ts:273-333 | and that determines the sockets afterwards: no other outcome does what the request asks |
| RequestEffects.SnapshotReports | src/adapters/custom-adpater.ts:245-368 | what a node reports is a snapshot if and only if it lists the sockets in some asked room, the rooms somebody is in, or each picked socket once with all its rooms |
| AdapterNode.LateEventsAreInert | src/adapters/custom-adpater.ts:500-506 | for an id in neither map, a response and a timer change nothing |
| AdapterNode.OtherEntriesUntouched | src/adapters/custom-adpater.ts:510-582 | a response or timer for one id leaves every other pending entry as it was |
| AdapterNode.SettlingRemoves | src/adapters/custom-adpater.ts:526-577 | a response settles its id exactly when it removes the entry |
| AdapterNode.GatherResolvesIff | src/adapters/custom-adpater.ts:512-550 | after the expected number of responses the gather resolves if and only if the last one had the array asked for, with the answers of exactly those that had it |
| AdapterNode.FetchKeepsOrder | src/adapters/custom-adpater.ts:520-524 | a fetched array is the caller's own sockets and then the arrays of the responses, in the order they came |
| AdapterNode.EmitKeepsOrder | src/adapters/custom-adpater.ts:562-577 | the last expected response acknowledges an emit with all the data, in the order it came |
| RedisAdapter.Request.Collect | src/adapters/custom-adpater.ts:520-524 | looping over a response's array adds exactly its elements to the set, or appends them in order |
| RedisAdapter.RedisAdapter.OnResponse | src/adapters/custom-adpater.ts:466-582 | state, settlements and acknowledgement callbacks after a response, in every case |
| RedisAdapter.RedisAdapter.OnGatherResponse | src/adapters/custom-adpater.ts:512-550 | counter first, then the key check, then collect and resolve on the last response |
| RedisAdapter.RedisAdapter.OnEmitResponse | src/adapters/custom-adpater.ts:562-577 | a server-side-emit response is appended, and the last one calls the acknowledgement |
| RedisAdapter.RedisAdapter.TimerFires | src/adapters/custom-adpater.ts:1032-1043 | a timer rejects, or acknowledges with what has arrived, only if the entry is still there |
| RedisAdapter.RedisAdapter.AckTimerFires | src/adapters/custom-adpater.ts:650-652 | the broadcast's callbacks are forgotten, nothing else changes |
| RedisAdapter.RedisAdapter.GatherAll | src/adapters/custom-adpater.ts:665-703 | alone, the local snapshot is the result; otherwise a pending entry counting itself, and one request published |
| RedisAdapter.RedisAdapter.RemoteOne | src/adapters/custom-adpater.ts:758-793 | on an own socket the room is entered or left, or the socket gone, at once, and nothing is published; else the sockets stay and the request is pending and published |
| RedisAdapter.RedisAdapter.ServerSideEmitWithAck | src/adapters/custom-adpater.ts:1014-1054 | the caller does not wait for itself; alone, it acknowledges at once |
| RedisAdapter.RedisAdapter.EditSockets | src/adapters/custom-adpater.ts:941-993 | flagged local the picked sockets, and only they, enter, leave or go, and nothing is published; otherwise it only publishes |
| RedisAdapter.RedisAdapter.LocalFetch | src/adapters/custom-adpater.ts:351-365 | the local array lists each picked socket once with its rooms, and no other |
| RedisAdapter.RedisAdapter.OnRequest | src/adapters/custom-adpater.ts:217-445 | new state, replies and packets written for every kind of request |
| RedisAdapter.RedisAdapter.OnGatherRequest | src/adapters/custom-adpater.ts:245-271 | a node answers with a snapshot unless it is itself waiting for that id |
| RedisAdapter.RedisAdapter.OnOneRequest | src/adapters/custom-adpater.ts:282-293 | the node holding the socket puts it into the room, takes it out or disconnects it, and answers; any other node does neither |
| RedisAdapter.RedisAdapter.OnBroadcastRequest | src/adapters/custom-adpater.ts:401-440 | the own copy is recognised by `ackRequests`; otherwise the local targets are written, counted, and each owes an acknowledgement |
| Cluster.ReplyReaches | src/adapters/custom-adpater.ts:453-459 | with a channel of its own a reply reaches the asking node and no other, on the shared one every node |
| RedisAdapter.RedisAdapter.PublishResponse | src/adapters/custom-adpater.ts:453-459 | the reply goes to the asking node's channel or the shared one |
| RedisAdapter.RedisAdapter.CallbackCalled | src/adapters/custom-adpater.ts:380-396 | only the first call of an emit callback publishes |
| RedisAdapter.RedisAdapter.BroadcastWithAck | src/adapters/custom-adpater.ts:614-656 | publishes and remembers the callbacks unless local; writes and counts the local targets |
| RedisAdapter.RedisAdapter.ChannelOf | src/adapters/custom-adpater.ts:604-607 | exactly one room puts the room's text into the channel |
| RedisAdapter.RedisAdapter.Broadcast | src/adapters/custom-adpater.ts:592-612 | publishes once unless local, and writes to the picked local sockets |
| RedisAdapter.RedisAdapter.OnMessage | src/adapters/custom-adpater.ts:174-203 | writes to the picked sockets exactly when every check passes |
| ClusterLedger.LedgerKept | src/adapters/custom-adpater.ts:682-702 | every step keeps: pending entries belong to issued, unsettled requests of their node, no id is settled twice, none is lost |
| ClusterMail.MailKept | src/adapters/custom-adpater.ts:217-459 | every step keeps: each response is by a node that has read the request, is of its kind, reaches the asker, and no node answers twice |
| Gathers.BooksKept | src/adapters/custom-adpater.ts:512-577 | every step keeps: each entry has counted and collected exactly the responses heard, each result is right |
| ClusterTheorems.PendingIffUnsettled | src/adapters/custom-adpater.ts:466-582 | in every run an id is in its origin's `requests`, and in nobody else's, if and only if it is unsettled; no id is settled twice |
| ClusterTheorems.SettledForever | src/adapters/custom-adpater.ts:682-702 | a settlement is never changed or repeated in the rest of a run |
| ClusterTheorems.LateChangesNothing | src/adapters/custom-adpater.ts:500-506 | after settlement a late response, timer or own copy settles nothing and makes no entry |
| ClusterTheorems.TimerSettles | src/adapters/custom-adpater.ts:775-782 | once its timer has run out a request is settled |
| ClusterTheorems.UnsettledLacksResponse | src/adapters/custom-adpater.ts:526-577 | while a gather or an emit is unsettled some other node's response has not been heard, and while an operation on one socket is, none has: once all are heard it is settled |
| ClusterTheorems.AnswerIsSnapshot | src/adapters/custom-adpater.ts:245-271 | every answer in flight is what its sender held when it read the request |
| ClusterTheorems.OneSnapshot | src/adapters/custom-adpater.ts:342-368 | a node takes one snapshot for a request, never two |
| ClusterTheorems.GatherComplete | src/adapters/custom-adpater.ts:890-939 | whenever a gather resolves, its value is the caller's snapshot plus exactly one snapshot of every other node, an array without duplicates |
| ClusterOutcomes.RemoteResolvesApplied | src/adapters/custom-adpater.ts:758-839 | a remote operation resolves only after the node holding the socket applied it, so that the socket entered or left the room or is gone and nothing else of that node changed, in the call's own step or in the later step in which that node read this very request; else it is rejected |
| ClusterOutcomes.NowhereOnlyTimesOut | src/adapters/custom-adpater.ts:775-782 | if no node ever holds the socket, only the timer can settle the call |
| ClusterOutcomes.OneAnswers | src/adapters/custom-adpater.ts:282-317 | at most one response is ever published for a remote operation |
| ClusterOutcomes.EmitAcknowledged | src/adapters/custom-adpater.ts:1014-1054 | an emit's callback gets one response from each node but the one that emitted, or with an error strictly fewer, each from a different such node |
| Progress.PartsAlways | src/adapters/custom-adpater.ts:244-440 | in every run every node but the origin that has read a request has answered a gather, counted a broadcast, or handed the callback of an emit to its application or passed on its answer |
| Progress.UnsettledAwaits | src/adapters/custom-adpater.ts:512-577 | in every run an unsettled gather or emit waits for another node and for a step that can happen at once: that node reads on, its application calls the callback, or its response is received |
| Progress.UnsettledOneAwaits | src/adapters/custom-adpater.ts:282-317 | in every run an unsettled operation on one socket waits for the socket's node to read on or for its response, which can be received, unless that node did not hold the socket when it read the request |
| Progress.TimerKeepsResponses | src/adapters/custom-adpater.ts:1032-1043 | in every run a timer that finds its request unsettled acknowledges an emit with all responses heard so far, and rejects anything else |
| ShardMoves.CommandObeyed | src/adapters/custom-adpater.ts:941-993 | in every run each node past a published command has done to its sockets what the command asks, once, at the step in which it read it |
| ShardMoves.MovesAlways | src/adapters/custom-adpater.ts:273-333 | in every run and at every step the sockets of a node change only by a local change, by its own operation on a socket it holds, or by what the message it reads asks |
| DeleteFetch.DeleteThenFetch | src/adapters/custom-adpater.ts:959-975 | a delete is published, then a fetch is issued, and the fetch resolves: the part of every other node was taken after that node read this very delete and applied it, and lists a socket in a room it left only if it came back in between |
| DeleteFetch.OwnPartIff | src/adapters/custom-adpater.ts:890-902 | the caller's own part was taken after it read a message if and only if it was past that message when the call began |
| DeleteFetch.OwnPartAfterDelete | src/adapters/custom-adpater.ts:890-902 | past the delete, the own part lists a socket in a room it left only if it came back in between |
| DeleteFetch.OwnPartBeforeDelete | src/adapters/custom-adpater.ts:890-902 | not past it, and with nothing else touching the caller's sockets since it was published, every socket that both calls pick is still listed in all its rooms |
| DeleteFetch.OwnPartListsIff | src/adapters/custom-adpater.ts:890-902 | when nothing but the reading of the delete moves the caller's sockets after it is published, the own part lists a socket both calls pick in a room it was to leave if and only if the caller had not read the delete when the call began |
| DeleteFetch.OwnPartIsInAnswer | src/adapters/custom-adpater.ts:934-935 | what the own part lists, the resolved fetch lists |
| DeleteFetch.OwnPartMayPrecedeDelete | src/adapters/custom-adpater.ts:890-939 | a run of two nodes in which a gather is answered and resolves, still listing the socket its caller had told to leave |
| KickCounts.KickCountIff | src/gateways/room.gateway.service.ts:266-281 | in every run in which nothing but the kick's own command moves sockets, the fetch after it lists the members without the target, and one too many if and only if the target is on the caller's node and the caller had not read its own command when the fetch began |
| Refinement.EffectOnPart | src/adapters/custom-adpater.ts:273-326 | an operation on one big adapter, restricted to a node, is the operation on that node's shard |
| Refinement.ShardedRefinesUnsharded | src/adapters/custom-adpater.ts:941-993 | in every state of every run, each node's sockets are its part of one unsharded adapter's history: the log in order and, after its first k messages, exactly the local changes each node made when it had read k, an operation on an own socket being that operation on the whole |
| Refinement.UnionWithLocalChanges | src/adapters/custom-adpater.ts:273-326 | in any run, once every node has read the first k messages, the union of the shards is the one unsharded adapter after those k messages, with each node's local changes at the places where it made them |
| Refinement.UnionOfShards | src/adapters/custom-adpater.ts:273-326 | in a run without local changes, once every node has read the first k messages, the union of the shards is those k commands run on one adapter |
| BroadcastWrites.TimesWritten | src/adapters/custom-adpater.ts:614-656 | in every run a packet is written to a socket once for a call that picked it and once for a reading of the request, without an entry, that picked it, and neither happens twice |
| BroadcastWrites.PacketSentOnceIff | src/adapters/custom-adpater.ts:401-405 | in every run a socket is sent a packet at most once if and only if the origin did not, reading its own copy after its entry was gone, pick a socket it had picked at the call; it is never sent it three times |
| BroadcastWrites.ElsewhereSentOnce | src/adapters/custom-adpater.ts:406-412 | in every run a socket on any node but the origin is sent a packet at most once |
| BroadcastWrites.TargetsAreSelected | src/adapters/custom-adpater.ts:407-412 | in every run another node that has read the request has written the packet to exactly the sockets the options picked there in the step in which it read it |
| BroadcastWrites.NoTargetsYet | src/adapters/custom-adpater.ts:407-412 | in every run a node other than the origin that has not read the request has written the packet to nobody |
| BroadcastWrites.OriginTargets | src/adapters/custom-adpater.ts:614-656 | in every run the origin has written it to exactly the sockets the options picked there in the step of the call and those a late own copy picked |
| BroadcastWrites.OwnCopySendsIff | src/adapters/custom-adpater.ts:402-405 | the origin's own copy writes to a socket if and only if the entry is already gone and the options pick it then |
| BroadcastWrites.LateOwnCopyDuplicates | src/adapters/custom-adpater.ts:648-652 | a run in which a late own copy sends the packet twice |
| BroadcastAcks.AcksKept | src/adapters/custom-adpater.ts:401-440 | every step keeps: each acknowledgement is owed, published or called once, and only for a socket that was sent the packet; counts and acknowledgements come from nodes that hold no entry, so the origin never takes its own |
| BroadcastAcks.AcksNeverExceedTargets | src/adapters/custom-adpater.ts:483-498 | in every run the callback is called for different sockets that were sent the packet, so never more often than there are |
| BroadcastAcks.CountsAddUpIff | src/adapters/custom-adpater.ts:412-425 | in every run, once every node's count has been called, the counts sum to no more than the sockets that were sent the packet, and to exactly those if and only if no late own copy picked a socket the call had not |
| BroadcastAcks.CalledKept | src/adapters/custom-adpater.ts:483-498 | every step keeps: while the entry is there, each count and acknowledgement heard has been called back |
| BroadcastAcks.InTimeCountsAddUp | src/adapters/custom-adpater.ts:614-656 | in every run, when every other node's count is heard before the origin's timer, the counts sum to the number of sockets that were sent the packet, and no acknowledgement heard is lost |
| AckDelivery.AcksConserved | src/adapters/custom-adpater.ts:412-438 | in every run, for each socket, the times the packet was written to it are the acknowledgements of it owed, published, or called on its own node: none is lost and none is made up |
| AckDelivery.AnswersGetThrough | src/adapters/custom-adpater.ts:426-437 | in every run, while the origin holds its entry, each socket that was sent the packet, on any node, is in exactly one of three states: its client may answer, which calls the callback or publishes the answer; its answer can be received, which calls the callback; or the callback was called with it |
| AckDelivery.SentMayAnswer | src/adapters/custom-adpater.ts:426-437 | in every run a socket that was sent the packet has answered or can do so now, with or without the entry |
| AckDelivery.EntryUntilTimer | src/adapters/custom-adpater.ts:643-652 | in every run a node holds the entry of a broadcast if and only if it made the call and the timer of it has not run out |
| PacketBroadcast.JoinedRoomIsFound | src/adapters/custom-adpater.ts:205-210 | a joined room is found by its text, whether its key is a string or a number |
| PacketBroadcast.RoomIsFoundIff | src/adapters/custom-adpater.ts:205-210 | a text is found if and only if some socket has joined the room of that name or the room of the number it is read as |
| PacketBroadcast.ChannelNamesOneRoom | src/adapters/custom-adpater.ts:604-607 | the channel is the namespace's, with the text of the room when there is exactly one |
| PacketBroadcast.NamelessIsMain | src/adapters/custom-adpater.ts:192-198 | a packet without a namespace is written only in the main one |
| PacketBroadcast.FilterLosesNothing | src/adapters/custom-adpater.ts:182-185 | with or without the filter a node of the namespace writes to the same sockets |
| PacketBroadcast.DeliversExactlyTheTargets | src/adapters/custom-adpater.ts:592-612 | each picked socket of the namespace, on any node, gets the packet exactly once, no other socket gets it, for 0, 1 or many rooms |
| RoomGateway.RoomGateway.OnConnection | src/gateways/room.gateway.service.ts:98-99 | a new socket is in its own room and its user's |
| RoomGateway.RoomGateway.FetchSockets | src/gateways/helper/socket.util.ts:7-9 | lists each member of the room once |
| RoomGateway.RoomGateway.GetAllRoomUsers | src/gateways/helper/socket.util.ts:25-35 | one entry per member, with its user |
| RoomGateway.RoomGateway.GetExistingRoomMembersCount | src/gateways/helper/socket.util.ts:16-22 | the number of members |
| RoomGateway.RoomGateway.GetMatchingSocketsBySid | src/gateways/helper/socket.util.ts:37-52 | finds the socket if and only if it is a member |
| RoomGateway.RoomGateway.JoinClientToRoom | src/gateways/helper/socket.util.ts:60-74 | enters, then tells the client that it joined and who was there |
| RoomGateway.RoomGateway.UpdateRoomInfoByDelta | src/rooms/helper/rooms-database.helper.ts:102-127 | writes the sum, or zero if negative, to an existing row only |
| RoomGateway.RoomGateway.CreateRoom | src/rooms/helper/rooms-database.helper.ts:11-46 | a fresh row with no members |
| RoomGateway.RoomGateway.DeleteRoomById | src/rooms/rooms.service.ts:59-72 | the row goes only for its moderator and only at count zero |
| RoomGateway.RoomGateway.ValidateJoinRoomPayload | src/gateways/room.gateway.service.ts:595-640 | the first failing check, in order, or none |
| RoomGateway.RoomGateway.OnJoinRoom | src/gateways/room.gateway.service.ts:213-233 | membership, notices and counter after a join, and nothing on a failed check |
| RoomGateway.RoomGateway.OnLeaveRoom | src/gateways/room.gateway.service.ts:406-429 | membership first, then counter, then notices; a missing row stops after the first |
| RoomGateway.RoomGateway.GetUserToKick | src/gateways/room.gateway.service.ts:341-396 | the first failing check of a kick, in order, or none; the room id is read with `parseInt` in any base |
| RoomGateway.RoomGateway.OnKickUser | src/gateways/room.gateway.service.ts:254-281 | notice, removal and recount in base ten, nothing on a failed check, and an error after the removal when the recount finds no row |
| RoomGateway.RoomGateway.OnDisconnecting | src/gateways/room.gateway.service.ts:557-588 | each room but the client's own two is visited once: recount, notice; then the socket is gone |
| RoomHandlers.JoinChecks | src/gateways/room.gateway.service.ts:595-640 | a join is refused with an error if and only if that check fails and those before it pass, and let through exactly for a socket not yet in a room that has a row, has space on its node, and is public or has the password given |
| RoomHandlers.JoinDoes | src/gateways/room.gateway.service.ts:213-233 | a join let through puts that socket into the room, tells it that it joined and who was there, tells whoever was there, and nobody else, who came, and stores one more than were there; refused it changes nothing |
| RoomHandlers.LeaveDoes | src/gateways/room.gateway.service.ts:406-429 | a leave takes that socket out of the room, tells it and everyone still there, if there is a row, and stores how many are left |
| RoomHandlers.KickChecks | src/gateways/room.gateway.service.ts:341-396 | a kick is refused with an error if and only if that check fails and those before it pass, and let through exactly for the room's moderator, in it, and another socket in it |
| RoomHandlers.KickDoes | src/gateways/room.gateway.service.ts:254-281 | a kick let through takes the target out, tells everyone who was in the room, the target and the moderator too, and nobody else, and stores how many are left; refused it changes nothing |
| RoomHandlers.DisconnectDoes | src/gateways/room.gateway.service.ts:557-588 | the socket goes; everyone else stays and is told, once for each shared room with a row and in the order of the visits, that it left; only counts of visited rooms change |
| RoomHandlers.ConnectDoes | src/gateways/room.gateway.service.ts:98-99 | a new socket is in its own room and its user's, and no other; nothing else changes |
| RoomHandlers.RowStandsIff | src/rooms/rooms.service.ts:59-72 | in every run a row is there if and only if it was created and its moderator has not deleted it, with nobody counted, since; it keeps the moderator, total and visibility it was created with |
| RoomRuns.JoinAgreesIff | src/gateways/room.gateway.service.ts:219-232 | from any state a join leaves the counter right if and only if the room is named canonically, or the two rooms were one apart |
| RoomRuns.LeaveAgreesIff | src/gateways/room.gateway.service.ts:410-421 | from any state a leave leaves the counter right under exactly that condition |
| RoomRuns.KickAgreesIff | src/gateways/room.gateway.service.ts:269-281 | from any state a kick whose recount finds a row leaves its counter right under exactly that condition |
| RoomRuns.DisconnectAgreesIff | src/gateways/room.gateway.service.ts:557-581 | from any state and for any room names, a disconnect leaves a counter right if and only if the last room left that reads as its id, or the counter as it was if none does, counts what the room of that id has left |
| RoomRuns.DisconnectRestores | src/gateways/room.gateway.service.ts:557-581 | from any state a member's disconnecting makes the counter of a room it leaves right, if it is in no other room whose name reads as the same id |
| RoomRuns.ConnectAgreesIff | src/gateways/room.gateway.service.ts:98-99 | connecting keeps all counters right if and only if the user's id is not a room id |
| RoomRuns.CreateAgreesIff | src/rooms/helper/rooms-database.helper.ts:11-46 | a new room keeps all counters right if and only if nobody is in a room of that name already |
| RoomRuns.ClampNeverFires | src/rooms/helper/rooms-database.helper.ts:117-124 | the count written for a disconnecting client is never negative |
| RoomRuns.GoodKept | src/gateways/room.gateway.service.ts:213-588 | every handler that is fair to a room keeps: its counter right, nobody in it without a row but users of its id, nobody in a room that is read as its id by another name |
| RoomRuns.CounterIsMembers | src/gateways/room.gateway.service.ts:219-232 | in every state of every run fair to a room the stored counter is the number of sockets in it |
| RoomRuns.OccupiedHasRow | src/rooms/helper/rooms-database.helper.ts:62-66 | in every state of every run fair to it a joined room has its row, with a positive counter, so no recount ever misses it |
| RoomRuns.MembershipChanges | src/gateways/room.gateway.service.ts:341-396 | in every run fair to the room a socket enters it only by its own allowed join, and goes only by its own leave or disconnect or a kick by the room's moderator, another member |
| RoomRuns.RowsGoOnlyEmpty | src/rooms/helper/rooms-database.helper.ts:185-197 | in every run fair to the room its row goes only by its moderator's delete, while no socket is in it |
| RoomRuns.ViewIsMembersAndStale | src/gateways/helper/socket.util.ts:60-114 | in every run fair to the room, kicks included, what a member was told adds up to exactly the other members plus the sockets kicked since it entered that neither came back nor were announced as leaving |
| RoomRuns.EveryViewIsRight | src/gateways/helper/socket.util.ts:60-98 | in every run fair to the room without a kick in it, what a member was told adds up to exactly the other members |
| RoomRuns.KickLeavesStaleViews | src/gateways/helper/socket.util.ts:106-114 | after a kick everyone left still counts the socket that is gone |
| RoomRuns.LeadingZeroMiscounts | src/gateways/room.gateway.service.ts:608-612 | joining "07" makes the counter of room 7 wrong |
| RoomRuns.PersonalRoomMiscounts | src/gateways/room.gateway.service.ts:98-99 | user 7 connecting makes the counter of room 7 wrong |
| RoomCapacity.CapacityUnderInterleaving | src/gateways/room.gateway.service.ts:213-233 | on one node with at most k joins of a room under way, and the room nobody's own, members and pending joins never exceed total - 1 + k; with one, the total is never exceeded |
| RoomCapacity.JoinOverfillsIff | src/gateways/room.gateway.service.ts:617-624 | a join exceeds the total if and only if the room is full but not on the client's node |
| RoomCapacity.TwoNodesOverfill | src/gateways/room.gateway.service.ts:617-624 | a fair run of whole handlers on two nodes after which a room for one has two members |
| RoomCapacity.OverlappingJoins | src/gateways/room.gateway.service.ts:213-233 | from any state two overlapping joins add two members, count one, and leave the second unaware of the first |
| SplitJoins.JoinInARow | src/gateways/room.gateway.service.ts:213-233 | check, fetch, enter and store in a row, whatever other joins are under way, are exactly the whole join |
| SplitJoins.StoreAgreesIff | src/gateways/room.gateway.service.ts:219-232 | for any steps on any nodes, from any world, a split join leaves its row's counter right if and only if, between its fetch and its store, the other steps changed the member count by nothing, or by one if its socket was in already when it entered; for a room by another name than the row's, the sizes of the two rooms at the store enter the equation |
| SplitJoins.QuietJoinAgrees | src/gateways/room.gateway.service.ts:219-232 | so when no other step touches the room's members between fetch and store, the counter is right, from any world |
| SplitJoins.EnterViewIff | src/gateways/helper/socket.util.ts:60-74 | for any steps, from any world, a client enters with the right view if and only if the members, itself aside, are those of its fetch |
| SplitJoins.BoundIsReached | src/gateways/room.gateway.service.ts:213-233 | from any allowed start one short of the total, k clients that may join get in together: total - 1 + k members |
| SplitJoins.CapacityIsTight | src/gateways/room.gateway.service.ts:617-624 | for every k there is a run with at most k joins under way after which a room for one has k members |
| SplitLeaves.LeaveInARow | src/gateways/room.gateway.service.ts:406-429 | leave, count and store in a row, whatever else is under way, are exactly the whole leave |
| SplitLeaves.DisconnectInARow | src/gateways/room.gateway.service.ts:557-588 | count and store for room after room, and then the socket gone, are exactly the whole disconnect |
| SplitLeaves.LeaveAgreesIffStill | src/gateways/room.gateway.service.ts:410-421 | for any overlapping steps, from any world, a leave leaves its row's counter right if and only if the members changed in number by nothing from the count to the store; for a room by another name than the row's, the sizes of the two rooms at the store enter the equation |
| SplitLeaves.DisconnectAgreesIffStill | src/gateways/room.gateway.service.ts:572-581 | for any overlapping steps, from any world, a disconnect whose socket was counted and went before the store leaves the counter right under the same condition on all other steps |
| Records.RecordsService.RecordTime | src/records/records.service.ts:10-53 | the first call makes the user's one row; later calls count when 55 seconds have passed |
| Records.RecordsService.LongerThen1min | src/records/records.service.ts:102-127 | the test on the user's row: true exactly when 55,000 milliseconds have passed, though the time is rounded down to minutes after adding five seconds |
| Records.LongerIff | src/records/records.service.ts:117-123 | a call counts if and only if 55,000 milliseconds have passed since the last one that counted |
| Records.RecordsService.DeleteAllRecords | src/records/records.service.ts:81-89 | the user's rows go, no other |
| Records.EveryRowIsGreedy | src/records/records.service.ts:10-53 | over any run no user has two rows, and a row holds the greedy tally of the user's calls since the last delete |
| Records.GreedyIsOptimal | src/records/records.service.ts:102-127 | for nondecreasing times, and for any in which no call is earlier than the last one counted before it, the greedy tally is the size of a largest choice of calls pairwise at least 55,000 milliseconds apart |
| Records.DurationBound | src/records/records.service.ts:102-127 | for such times the tally is at most one plus the whole 55-second spans between first and last call |
| Records.StoredDurationIsOptimal | src/records/records.service.ts:10-53 | the stored duration is that optimum, for any run with such times |
| Records.OptimalIff | src/records/records.service.ts:102-127 | for call times in any order, a largest spaced choice has as many calls as greedy counts on the times sorted, so the tally is optimal if and only if sorting the calls would not raise it |
| Records.EarlyCallLoses | src/records/records.service.ts:117-123 | with a call at least 55 seconds earlier than every call before it, some spaced choice is larger than the tally, whatever else is called |
| Records.ClockSteppingBackLoses | src/records/records.service.ts:117-123 | call times out of order for which greedy is not optimal |
| MessageStore.RedisMessageStore.SaveMessage | src/gateways/class/redis-message.store.ts:13-28 | both lists get the message at the end, twice if it is to oneself, and live another 86,400 seconds |
| MessageStore.RedisMessageStore.FindMessagesForUser | src/gateways/class/redis-message.store.ts:30-38 | the live list, or nothing |
| MessageStore.MailboxSinceLapse | src/gateways/class/redis-message.store.ts:13-38 | a mailbox is exactly what touched its user since the user's last day of silence |
| MessageStore.CopiesAreSuffixes | src/gateways/class/redis-message.store.ts:13-38 | both copies of a conversation are suffixes of its history, so one of the other; without a lapse they are equal |
| MessageStore.CopyIsWholeIff | src/gateways/class/redis-message.store.ts:25-26 | a copy is whole if and only if its user never lapsed at or after a message of the pair |
| MessageStore.OneCopyExpires | src/gateways/class/redis-message.store.ts:25-26 | a history after which one copy is whole and the other empty |
| Friends.FriendsService.ValidateAddFriendParams | src/friends/helper/friend.util.ts:4-20 | passes exactly for another, known user |
| Friends.FriendsService.AddFriend | src/friends/friends.service.ts:39-63 | outcome and table, for each refusal, the duplicate and the creation |
| Friends.FriendsService.AcceptFriendRequest | src/friends/friends.service.ts:70-98 | the receiver of a request makes its row accepted and no other row changes; anyone else is refused and changes nothing |
| Friends.FriendsService.GetFriendshipByFriendUid | src/friends/friends.service.ts:260-307 | the row in either direction, seen from the user's side |
| Friends.FriendsService.DeleteFriendshipByFriendUid | src/friends/friends.service.ts:105-145 | the row found goes, by the role the user has in it |
| Friends.FriendsService.GetFriendshipsByStatus | src/friends/helper/friends-database.helper.ts:23-62 | each row of the user with the status, once |
| Friends.FriendsService.FormatResults | src/friends/friends.service.ts:363-390 | one result per row, in order, with the user's role |
| Friends.AddCreatesIff | src/friends/helper/friends-database.helper.ts:64-89 | from any table, a row appears exactly for a known other user when neither direction was there |
| Friends.AcceptingAccepts | src/friends/friends.service.ts:70-98 | from any table, accepting makes the row of the request accepted, if there is one and not to oneself, and leaves every other row and the set of rows as they were |
| Friends.OneDirectionAlways | src/friends/friends.service.ts:39-145 | over all runs never both directions and never a row to oneself |
| Friends.BothSeeTheSame | src/friends/friends.service.ts:372-390 | both users see the same status with opposite roles, or both nothing |
| Friends.AcceptedByReceiver | src/friends/friends.service.ts:70-98 | in every run a row is accepted if and only if its receiver accepted it since its creation |
| Friends.DeleteClearsIff | src/friends/friends.service.ts:105-132 | a delete clears the pair if and only if not both directions were there |
| Friends.DeleteClears | src/friends/friends.service.ts:105-145 | in every run a delete by either clears the pair and nothing else |
| ConnectionSync.GroupMessages | src/gateways/room.gateway.service.ts:103-112 | the dictionary has exactly the nonempty groups, each in mailbox order |
| ConnectionSync.SyncAll | src/gateways/room.gateway.service.ts:119-139 | one entry per row, with connection and group |
| ConnectionSync.GroupKeepsAll | src/gateways/room.gateway.service.ts:105-112 | grouping loses and duplicates no message |
| ConnectionSync.GroupKeepsOrder | src/gateways/room.gateway.service.ts:105-112 | grouping reorders no message |
| ConnectionSync.ListedTwiceIff | src/gateways/room.gateway.service.ts:120-126 | a friend is listed twice if and only if both directions are accepted rows |
| ConnectionSync.OneEntryPerFriend | src/gateways/room.gateway.service.ts:103-139 | in every reachable table exactly one entry per accepted friend, holding exactly the stored conversation |
| ConnectionSync.ListIsFriends | src/gateways/room.gateway.service.ts:103-139 | in every reachable table the list sent has one entry for each accepted friend and nobody else, saying whether it is connected and holding exactly the stored conversation |

## Left out

- Redis clients, subscriptions, encoding, error handlers and version branches: input and output; messages are values.
- `serverSideEmit` without an acknowledgement, as a call: one publish with nothing kept.
- Several namespaces in the cluster machine: one namespace is modelled there; `PacketBroadcast` has several.
- DeliversExactlyTheTargets: for a fixed room assignment, since a packet in flight meets whatever rooms a node then has; numeric room keys are integers, printed in plain decimal.
- EveryViewIsRight: kicks in the same room are left out, because the notice names no socket; ViewIsMembersAndStale is the exact statement with them.
- CapacityUnderInterleaving: for one node; JoinOverfillsIff has the exact condition across nodes, and TwoNodesOverfill a run that breaks the bound there.
- ValidateJoinRoomPayload: the password check is an arbitrary boolean, and a missing password and a wrong one are one error.
- `onCanJoinRoom`: only the check of a join, reported to the client.
- OnJoinRoom: the events that tell the client itself of a refusal are the returned error.
- `parseFloat` of numerals beyond the range of a double: the model reads the exact real.
- RecordTime: one call is one step; two calls of one user at once are not modelled.
- AddFriend: one call is one step; a user who is deleted takes its rows along, which is not modelled.
- SyncAll: sessions are given; sending the list and announcing the connection have no kept state.
- Redis sessions, chat and media relays, playlists, lobby, users, authentication, email, configuration and shutdown: single calls with little or no kept state.
