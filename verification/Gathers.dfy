/**
 Counting responses: what a pending entry has collected, and what a settled request returned.

 The main result is BooksKept: every step keeps each entry equal to what its node has heard,
 and each settled result right. GatherComplete in ClusterTheorems.dfy reads it over runs.
 */
module Gathers {
  import opened Option
  import opened RoomNames
  import opened Shards
  import opened AdapterNode
  import opened Cluster
  import opened ClusterInvariants
  import opened ClusterLedger
  import opened ClusterMail

  datatype Item = SidItem(sid: Sid) | RoomItem(room: Room) | SocketItem(info: SocketInfo)

  ghost function Items(answer: Answer): set<Item> {
    match answer
    case SidSet(sids) => set s | s in sids :: SidItem(s)
    case RoomSet(rooms) => set r | r in rooms :: RoomItem(r)
    case SocketArray(sockets) => set x | x in sockets :: SocketItem(x)
  }

  lemma ItemsOfMerge(a: Answer, b: Answer)
    requires SameKind(a, b)
    ensures Items(Merge(a, b)) == Items(a) + Items(b)
  {
  }

  /** The responses for `id` that node `n` has received. */
  ghost function HeardIdx(c: Cluster, n: NodeId, id: Id): set<nat> {
    set h | h in c.heard && h.0 == n && h.1 < |c.sent| && c.sent[h.1].response.id == id :: h.1
  }

  ghost function HeardFrom(c: Cluster, n: NodeId, id: Id): set<NodeId> {
    set j | j in HeardIdx(c, n, id) :: c.sent[j].from
  }

  ghost function AnswerItems(e: Envelope): set<Item> {
    if e.response.payload.Answered? then Items(e.response.payload.answer) else {}
  }

  ghost function HeardItems(c: Cluster, n: NodeId, id: Id): set<Item> {
    set j, x | j in HeardIdx(c, n, id) && x in AnswerItems(c.sent[j]) :: x
  }

  /** The data of the responses at `js`, in that order, each from a different node. */
  ghost predicate Answers(c: Cluster, id: Id, js: seq<nat>, responses: seq<Option<int>>) {
    && |js| == |responses|
    && (forall i | 0 <= i < |js| ::
          && js[i] < |c.sent| && c.sent[js[i]].response.id == id
          && c.sent[js[i]].response.payload.EmitData?
          && responses[i] == Some(c.sent[js[i]].response.payload.data))
    && forall i, k | 0 <= i < k < |js| :: c.sent[js[i]].from != c.sent[js[k]].from
  }

  /** The members of `js` are the members of `s`. */
  ghost predicate Lists(js: seq<nat>, s: set<nat>) {
    forall i :: i in js <==> i in s
  }

  lemma ListsMore(js: seq<nat>, s: set<nat>, j: nat)
    requires Lists(js, s)
    ensures Lists(js + [j], s + {j})
  {
  }

  ghost predicate GatherCount(c: Cluster, n: NodeId, id: Id, entry: Pending)
    requires entry.Gather?
  {
    && entry.numSub == |c.members|
    && entry.msgCount == 1 + |HeardFrom(c, n, id)|
    && entry.msgCount < entry.numSub
    && id in c.calls && c.calls[id].node == n
    && SameKind(entry.acc, c.calls[id].answer)
    && Items(entry.acc) == Items(c.calls[id].answer) + HeardItems(c, n, id)
    && (entry.acc.SocketArray? ==> DistinctSids(entry.acc.sockets))
  }

  ghost predicate EmitCount(c: Cluster, n: NodeId, id: Id, entry: Pending)
    requires entry.EmitWait?
  {
    && entry.numSub == |c.members| - 1
    && |entry.responses| == |HeardFrom(c, n, id)|
    && |entry.responses| < entry.numSub
    && exists js :: Answers(c, id, js, entry.responses) && Lists(js, HeardIdx(c, n, id))
  }

  ghost predicate CountOk(c: Cluster, n: NodeId, id: Id, entry: Pending) {
    match entry
    case Gather(_, _, _) => GatherCount(c, n, id, entry)
    case Remote => HeardIdx(c, n, id) == {}
    case EmitWait(_, _) => EmitCount(c, n, id, entry)
  }

  ghost predicate Counts(c: Cluster) {
    forall n, id | n in c.members && id in c.members[n].node.requests ::
      CountOk(c, n, id, c.members[n].node.requests[id])
  }

  // ----- A response that is counted -----

  /** Only envelopes of broadcasts carry acknowledgements or counts. */
  predicate Counted(body: Body) { IsGather(body) || body.ServerSideEmit? }

  /** A node answers a request once. */
  lemma FromOnce(c: Cluster, i: nat, j: nat)
    requires Mail(c) && i < |c.sent| && j < |c.sent| && SameSender(c.sent[i], c.sent[j])
    ensures i == j
  {
  }

  lemma AckIsBroadcast(c: Cluster, n: NodeId, id: Id)
    requires Mail(c) && n in c.members && id in c.members[n].node.ackRequests
    ensures id in c.issued && Req(c, id).body.BroadcastWithAck?
  {
    assert AckOk(c, n, id);
  }

  lemma HeardBefore(c: Cluster, n: NodeId, j: nat)
    requires Mail(c) && j < |c.sent| && !c.sent[j].response.payload.ClientAck?
    requires c.sent[j].from in HeardFrom(c, n, c.sent[j].response.id)
    requires c.sent[j].response.id in c.issued && !Req(c, c.sent[j].response.id).body.BroadcastWithAck?
    ensures (n, j) in c.heard
  {
    var i :| i in HeardIdx(c, n, c.sent[j].response.id) && c.sent[i].from == c.sent[j].from;
    assert EnvelopeOk(c, c.sent[i]);
    FromOnce(c, i, j);
  }

  /** While `n` waits for `id`, a response for it comes from another node, the first from there. */
  lemma CountedIsNew(c: Cluster, n: NodeId, j: nat)
    requires Mail(c) && n in c.members && j < |c.sent| && (n, j) !in c.heard
    requires c.sent[j].response.id in c.members[n].node.requests
    ensures var e := c.sent[j]; var id := e.response.id;
            && id in c.issued && Req(c, id).uid == n
            && PayloadOk(Req(c, id).body, e.response.payload, e.from)
            && id !in c.members[n].node.ackRequests
            && (Counted(Req(c, id).body) ==>
                  e.from in c.members && e.from != n && e.from !in HeardFrom(c, n, id))
  {
    var e := c.sent[j];
    var id := e.response.id;
    assert EnvelopeOk(c, e);
    if id in c.members[n].node.ackRequests { AckIsBroadcast(c, n, id); }
    if Counted(Req(c, id).body) && e.from in HeardFrom(c, n, id) {
      HeardBefore(c, n, j);
    }
  }

  /** All senders heard while waiting are other nodes. */
  lemma HeardAreOthers(c: Cluster, n: NodeId, id: Id)
    requires Mail(c) && n in c.members && id in c.members[n].node.requests && Counted(Req(c, id).body)
    ensures HeardFrom(c, n, id) <= c.members.Keys - {n}
  {
    forall m | m in HeardFrom(c, n, id) ensures m in c.members && m != n {
      var j :| j in HeardIdx(c, n, id) && c.sent[j].from == m;
      assert EnvelopeOk(c, c.sent[j]);
    }
  }

  /** After delivering `j` the set heard has grown by `j`, for its id and receiver only. */
  lemma HeardAfter(c: Cluster, d: Cluster, n: NodeId, j: nat, m: NodeId, id: Id)
    requires Received(c, d, n, j)
    ensures HeardIdx(d, m, id) == HeardIdx(c, m, id) +
              (if m == n && id == c.sent[j].response.id then {j} else {})
    ensures HeardFrom(d, m, id) == HeardFrom(c, m, id) +
              (if m == n && id == c.sent[j].response.id then {c.sent[j].from} else {})
    ensures HeardItems(d, m, id) == HeardItems(c, m, id) +
              (if m == n && id == c.sent[j].response.id then AnswerItems(c.sent[j]) else {})
  {
    var more: set<nat> := if m == n && id == c.sent[j].response.id then {j} else {};
    forall i | i in HeardIdx(d, m, id) ensures i in HeardIdx(c, m, id) + more {
      assert (m, i) in d.heard;
    }
    forall i | i in HeardIdx(c, m, id) + more ensures i in HeardIdx(d, m, id) {
      if i in HeardIdx(c, m, id) { assert (m, i) in c.heard; }
      assert (m, i) in d.heard;
    }
  }

  lemma HeardSame(c: Cluster, d: Cluster, n: NodeId, id: Id)
    requires HeardOk(c) && d.heard == c.heard && c.sent <= d.sent
    ensures HeardIdx(d, n, id) == HeardIdx(c, n, id)
    ensures HeardFrom(d, n, id) == HeardFrom(c, n, id)
    ensures HeardItems(d, n, id) == HeardItems(c, n, id)
  {
    assert forall h | h in c.heard :: d.sent[h.1] == c.sent[h.1];
  }

  // ----- Results -----

  /** What the nodes other than `n` answered to `id`. */
  ghost function OtherItems(c: Cluster, n: NodeId, id: Id): set<Item> {
    set j, x | 0 <= j < |c.sent| && c.sent[j].response.id == id && c.sent[j].from != n
               && x in AnswerItems(c.sent[j]) :: x
  }

  ghost predicate HasAnswered(c: Cluster, id: Id, m: NodeId) {
    exists j :: 0 <= j < |c.sent| && c.sent[j].response.id == id && c.sent[j].from == m
  }

  /** A gather that resolved: every other node answered, and the value is exactly the union. */
  ghost predicate Complete(c: Cluster, id: Id, answer: Answer) {
    && id in c.calls
    && SameKind(answer, c.calls[id].answer)
    && (answer.SocketArray? ==> DistinctSids(answer.sockets))
    && (forall m | m in c.members && m != c.calls[id].node :: HasAnswered(c, id, m))
    && Items(answer) == Items(c.calls[id].answer) + OtherItems(c, c.calls[id].node, id)
  }

  ghost predicate GatherResult(c: Cluster, id: Id, answer: Answer) {
    && id in c.calls
    && if id in c.issued then Complete(c, id, answer)
       else |c.members| <= 1 && answer == c.calls[id].answer
  }

  ghost predicate AnswersOfOthers(c: Cluster, id: Id, js: seq<nat>, responses: seq<Option<int>>)
    requires IssuedOk(c) && id in c.issued
  {
    Answers(c, id, js, responses) && forall i | 0 <= i < |js| :: c.sent[js[i]].from != Req(c, id).uid
  }

  ghost predicate EmitResult(c: Cluster, id: Id, responses: seq<Option<int>>)
    requires IssuedOk(c)
  {
    if id in c.issued then Req(c, id).body.ServerSideEmit? && exists js :: AnswersOfOthers(c, id, js, responses)
    else responses == []
  }

  ghost predicate ResultOk(c: Cluster, s: Settlement)
    requires IssuedOk(c)
  {
    match s.result
    case Gathered(answer) => GatherResult(c, s.id, answer)
    case Completed => s.id in c.issued ==> IsOne(Req(c, s.id).body) && exists m :: HasAnswered(c, s.id, m)
    case AckedAll(responses) =>
      && |responses| == |c.members| - 1
      && EmitResult(c, s.id, responses)
    case AckedSome(responses) =>
      |responses| < |c.members| - 1 && s.id in c.issued && EmitResult(c, s.id, responses)
    case Rejected => s.id in c.issued && !Req(c, s.id).body.ServerSideEmit?
  }

  ghost predicate Results(c: Cluster)
    requires IssuedOk(c)
  {
    forall i | 0 <= i < |c.settled| :: ResultOk(c, c.settled[i])
  }

  ghost predicate Books(c: Cluster) {
    Mail(c) && Counts(c) && Results(c) && c.members != map[]
  }

  // ----- Results stay true -----

  /** Responses only grow, and no request changes. */
  ghost predicate Extends(c: Cluster, d: Cluster) {
    && d.members.Keys == c.members.Keys
    && c.log <= d.log && c.sent <= d.sent
    && (forall id | id in c.issued :: id in d.issued && d.issued[id] == c.issued[id])
    && (forall id | id in c.calls :: id in d.calls && d.calls[id] == c.calls[id])
  }

  lemma AnsweredStays(c: Cluster, d: Cluster, id: Id, m: NodeId)
    requires c.sent <= d.sent && HasAnswered(c, id, m)
    ensures HasAnswered(d, id, m)
  {
    var j :| 0 <= j < |c.sent| && c.sent[j].response.id == id && c.sent[j].from == m;
    assert d.sent[j] == c.sent[j];
  }

  lemma AnswersStay(c: Cluster, d: Cluster, id: Id, js: seq<nat>, responses: seq<Option<int>>)
    requires c.sent <= d.sent && Answers(c, id, js, responses)
    ensures Answers(d, id, js, responses)
    ensures forall i | 0 <= i < |js| :: d.sent[js[i]] == c.sent[js[i]]
  {
  }

  lemma EmitResultStays(c: Cluster, d: Cluster, id: Id, responses: seq<Option<int>>)
    requires Mail(c) && Mail(d) && Extends(c, d) && EmitResult(c, id, responses) && id in c.issued
    ensures EmitResult(d, id, responses)
  {
    ReqStays(c, d, id);
    var js :| AnswersOfOthers(c, id, js, responses);
    AnswersStay(c, d, id, js, responses);
    assert AnswersOfOthers(d, id, js, responses);
  }

  lemma OtherItemsSame(c: Cluster, d: Cluster, n: NodeId, id: Id)
    requires c.sent <= d.sent
    requires forall j | |c.sent| <= j < |d.sent| && d.sent[j].response.id == id :: d.sent[j].from == n
    ensures OtherItems(d, n, id) == OtherItems(c, n, id)
  {
    forall j | 0 <= j < |c.sent| ensures d.sent[j] == c.sent[j] {}
  }

  lemma LateIsOwn(c: Cluster, d: Cluster, id: Id, j: nat)
    requires Mail(c) && Mail(d) && Extends(c, d) && id in c.calls && id in c.issued
    requires forall m | m in c.members && m != c.calls[id].node :: HasAnswered(c, id, m)
    requires |c.sent| <= j < |d.sent| && d.sent[j].response.id == id
    ensures d.sent[j].from == c.calls[id].node
  {
    ReqStays(c, d, id);
    assert EnvelopeOk(d, d.sent[j]);
    var m := d.sent[j].from;
    if m != c.calls[id].node {
      assert HasAnswered(c, id, m);
      var i :| 0 <= i < |c.sent| && c.sent[i].response.id == id && c.sent[i].from == m;
      assert d.sent[i] == c.sent[i];
      assert EnvelopeOk(d, d.sent[i]);
      FromOnce(d, i, j);
    }
  }

  /** When every other node has answered, no later response can add to the answers. */
  lemma CompleteStays(c: Cluster, d: Cluster, id: Id, answer: Answer)
    requires Mail(c) && Mail(d) && Extends(c, d) && Complete(c, id, answer) && id in c.issued
    ensures Complete(d, id, answer)
  {
    var n := c.calls[id].node;
    assert id in c.calls && id in c.issued ==> IsGather(Req(c, id).body);
    forall m | m in d.members && m != n ensures HasAnswered(d, id, m) { AnsweredStays(c, d, id, m); }
    forall j | |c.sent| <= j < |d.sent| && d.sent[j].response.id == id ensures d.sent[j].from == n {
      LateIsOwn(c, d, id, j);
    }
    OtherItemsSame(c, d, n, id);
  }

  lemma ResultStays(c: Cluster, d: Cluster, s: Settlement)
    requires Mail(c) && Mail(d) && Extends(c, d) && ResultOk(c, s)
    requires s.id !in c.issued ==> s.id !in d.issued
    ensures ResultOk(d, s)
  {
    assert |d.members| == |c.members| by { assert |d.members.Keys| == |c.members.Keys|; }
    if s.id in c.issued {
      ReqStays(c, d, s.id);
      match s.result {
        case Gathered(answer) => CompleteStays(c, d, s.id, answer);
        case Completed =>
          var m :| HasAnswered(c, s.id, m);
          AnsweredStays(c, d, s.id, m);
        case AckedAll(responses) => EmitResultStays(c, d, s.id, responses);
        case AckedSome(responses) => EmitResultStays(c, d, s.id, responses);
        case Rejected =>
      }
    }
  }

  /** A settled id is never published afterwards. */
  lemma SettledStaysUnissued(c: Cluster, e: Event, i: nat)
    requires Ledger(c) && Enabled(c, e) && i < |c.settled|
    ensures c.settled[i].id !in c.issued ==> c.settled[i].id !in Next(c, e).issued
  {
    assert IsSettled(c, c.settled[i].id);
    if IsCall(e) { CallSummary(c, e); CallFresh(c, e); }
    else if e.Broadcast? { BroadcastSummary(c, e.n, e.id, e.opts); }
    else if e.Consume? { ConsumeTurn(c, e.n, e.answer); }
    else if e.Deliver? { DeliverTurn(c, e.n, e.j); }
    else if e.Timeout? { TimeoutTurn(c, e.n, e.id); }
    else if IsSmall(e) { SmallTurn(c, e); }
  }

  lemma SmallSent(c: Cluster, e: Event)
    requires Mail(c) && IsSmall(e) && Enabled(c, e)
    ensures c.sent <= Next(c, e).sent
  {
  }

  lemma ExtendsKept(c: Cluster, e: Event)
    requires Mail(c) && Enabled(c, e)
    ensures Extends(c, Next(c, e))
  {
    if IsCall(e) { CallSummary(c, e); CallFresh(c, e); }
    else if e.Deliver? { DeliverTurn(c, e.n, e.j); }
    else if e.Timeout? { TimeoutTurn(c, e.n, e.id); }
    else if e.Consume? { ConsumeTurn(c, e.n, e.answer); ConsumeSummary(c, e.n, e.answer); }
    else if e.Broadcast? { BroadcastSummary(c, e.n, e.id, e.opts); assert e.id !in c.issued; }
    else if IsSmall(e) { SmallTurn(c, e); SmallSent(c, e); }
  }

  // ----- Counts stay true -----

  /** An entry whose responses heard are unchanged keeps its count. */
  lemma CountStays(c: Cluster, d: Cluster, n: NodeId, id: Id, entry: Pending)
    requires Mail(c) && Extends(c, d) && CountOk(c, n, id, entry)
    requires HeardIdx(d, n, id) == HeardIdx(c, n, id)
    requires HeardFrom(d, n, id) == HeardFrom(c, n, id)
    requires HeardItems(d, n, id) == HeardItems(c, n, id)
    ensures CountOk(d, n, id, entry)
  {
    assert |d.members| == |c.members| by { assert |d.members.Keys| == |c.members.Keys|; }
    if entry.EmitWait? {
      var js :| Answers(c, id, js, entry.responses) && Lists(js, HeardIdx(c, n, id));
      AnswersStay(c, d, id, js, entry.responses);
    }
  }

  /** A new entry has heard nothing. */
  lemma NewEntryCount(c: Cluster, e: Event)
    requires Mail(c) && IsCall(e) && Enabled(c, e) && !AtOnce(c, e)
    requires c.members != map[]
    ensures CountOk(Next(c, e), CallNode(c, e), e.id, CallEntry(c, e))
  {
    var d := Next(c, e);
    var n := CallNode(c, e);
    CallSummary(c, e);
    CallFresh(c, e);
    forall j | 0 <= j < |c.sent| ensures c.sent[j].response.id != e.id { assert EnvelopeOk(c, c.sent[j]); }
    assert HeardIdx(d, n, e.id) == {};
    assert HeardFrom(d, n, e.id) == {} && HeardItems(d, n, e.id) == {};
    assert |d.members| == |c.members| by { assert |d.members.Keys| == |c.members.Keys|; }
    if e.Emit? {
      assert Answers(d, e.id, [], []);
    }
  }

  lemma CountsCall(c: Cluster, e: Event)
    requires Books(c) && IsCall(e) && Enabled(c, e)
    ensures Counts(Next(c, e))
  {
    var d := Next(c, e);
    CallSummary(c, e);
    ExtendsKept(c, e);
    if !AtOnce(c, e) { NewEntryCount(c, e); }
    forall n, id | n in d.members && id in d.members[n].node.requests
      ensures CountOk(d, n, id, d.members[n].node.requests[id])
    {
      if AtOnce(c, e) || n != CallNode(c, e) || id != e.id {
        HeardSame(c, d, n, id);
        CountStays(c, d, n, id, c.members[n].node.requests[id]);
      }
    }
  }

  lemma StillHeard(c: Cluster, e: Event)
    requires Mail(c) && Enabled(c, e) && !IsCall(e) && !e.Deliver? && !e.Timeout?
    ensures var d := Next(c, e);
            && d.heard == c.heard && d.settled == c.settled
            && forall n | n in d.members :: n in c.members &&
                 d.members[n].node.requests == c.members[n].node.requests
  {
    if e.Consume? {
      ConsumeTurn(c, e.n, e.answer);
      RequestFrame(e.n, c.members[e.n].node, c.log[c.members[e.n].seen], e.answer);
    } else if e.Broadcast? { BroadcastSummary(c, e.n, e.id, e.opts); }
    else if IsSmall(e) { SmallTurn(c, e); }
  }

  lemma CountsStill(c: Cluster, e: Event)
    requires Books(c) && Enabled(c, e) && !IsCall(e) && !e.Deliver? && !e.Timeout?
    ensures Counts(Next(c, e))
  {
    var d := Next(c, e);
    ExtendsKept(c, e);
    StillHeard(c, e);
    forall n, id | n in d.members && id in d.members[n].node.requests
      ensures CountOk(d, n, id, d.members[n].node.requests[id])
    {
      HeardSame(c, d, n, id);
      CountStays(c, d, n, id, c.members[n].node.requests[id]);
    }
  }

  lemma CountsTimeout(c: Cluster, n: NodeId, id: Id)
    requires Books(c) && Enabled(c, Timeout(n, id))
    ensures Counts(Next(c, Timeout(n, id)))
  {
    var d := Next(c, Timeout(n, id));
    ExtendsKept(c, Timeout(n, id));
    TimeoutTurn(c, n, id);
    forall m, x | m in d.members && x in d.members[m].node.requests
      ensures CountOk(d, m, x, d.members[m].node.requests[x])
    {
      HeardSame(c, d, m, x);
      CountStays(c, d, m, x, c.members[m].node.requests[x]);
    }
  }

  /** Every socket collected so far lives on the caller or on a node already heard. */
  lemma CollectedHomes(c: Cluster, n: NodeId, id: Id, entry: Pending)
    requires Mail(c) && n in c.members && id in c.members[n].node.requests && id in c.issued
    requires entry.Gather? && GatherCount(c, n, id, entry) && entry.acc.SocketArray?
    ensures forall x | x in entry.acc.sockets :: x.sid.home == n || x.sid.home in HeardFrom(c, n, id)
  {
    forall x | x in entry.acc.sockets ensures x.sid.home == n || x.sid.home in HeardFrom(c, n, id) {
      assert SocketItem(x) in Items(entry.acc);
      if SocketItem(x) in Items(c.calls[id].answer) {
        assert c.calls[id].body.Fetch?;
      } else {
        var j :| j in HeardIdx(c, n, id) && SocketItem(x) in AnswerItems(c.sent[j]);
        assert EnvelopeOk(c, c.sent[j]);
        assert c.sent[j].from in HeardFrom(c, n, id);
      }
    }
  }

  lemma DistinctJoin(a: seq<SocketInfo>, b: seq<SocketInfo>)
    requires DistinctSids(a) && DistinctSids(b)
    requires forall x, y | x in a && y in b :: x.sid.home != y.sid.home
    ensures DistinctSids(a + b)
  {
    forall i, j | 0 <= i < j < |a + b| ensures (a + b)[i].sid != (a + b)[j].sid {
      if i < |a| <= j { assert a[i] in a && b[j - |a|] in b; }
    }
  }

  /** The collected value and the answer of another node are of one kind, and share no socket. */
  lemma MergeDistinct(c: Cluster, d: Cluster, n: NodeId, j: nat, entry: Pending)
    requires Mail(c) && Received(c, d, n, j)
    requires var id := c.sent[j].response.id;
             id in c.members[n].node.requests && c.members[n].node.requests[id] == entry &&
             id in c.issued && IsGather(Req(c, id).body)
    requires entry.Gather? && GatherCount(c, n, c.sent[j].response.id, entry)
    ensures HasKey(entry.acc, c.sent[j].response.payload)
    ensures var acc := Merge(entry.acc, c.sent[j].response.payload.answer);
            acc.SocketArray? ==> DistinctSids(acc.sockets)
  {
    var e := c.sent[j];
    var id := e.response.id;
    CountedIsNew(c, n, j);
    assert c.calls[id].body == Req(c, id).body;
    assert GoodAnswer(c.calls[id].body, c.calls[id].answer, n);
    if entry.acc.SocketArray? {
      CollectedHomes(c, n, id, entry);
      DistinctJoin(entry.acc.sockets, e.response.payload.answer.sockets);
    }
  }

  /** One more node has been heard. */
  lemma CollectedFrom(c: Cluster, d: Cluster, n: NodeId, j: nat)
    requires Mail(c) && Received(c, d, n, j)
    requires var id := c.sent[j].response.id;
             id in c.members[n].node.requests && id in c.issued && Counted(Req(c, id).body)
    ensures var id := c.sent[j].response.id;
            && |HeardFrom(d, n, id)| == |HeardFrom(c, n, id)| + 1
            && HeardFrom(d, n, id) <= c.members.Keys - {n}
  {
    var e := c.sent[j];
    var id := e.response.id;
    CountedIsNew(c, n, j);
    HeardAfter(c, d, n, j, n, id);
    HeardAreOthers(c, n, id);
    assert |HeardFrom(c, n, id) + {e.from}| == |HeardFrom(c, n, id)| + 1;
  }

  lemma CollectedItems(c: Cluster, d: Cluster, n: NodeId, j: nat, entry: Pending)
    requires Received(c, d, n, j) && n in c.members && entry.Gather?
    requires GatherCount(c, n, c.sent[j].response.id, entry) && HasKey(entry.acc, c.sent[j].response.payload)
    ensures var e := c.sent[j];
            var acc := Merge(entry.acc, e.response.payload.answer);
            && SameKind(acc, c.calls[e.response.id].answer)
            && Items(acc) == Items(c.calls[e.response.id].answer) + HeardItems(d, n, e.response.id)
  {
    var e := c.sent[j];
    HeardAfter(c, d, n, j, n, e.response.id);
    ItemsOfMerge(entry.acc, e.response.payload.answer);
  }

  /** After a response to a pending gather, the value is the union of all heard so far. */
  lemma Collected(c: Cluster, d: Cluster, n: NodeId, j: nat, entry: Pending)
    requires Mail(c) && Counts(c) && Received(c, d, n, j)
    requires var id := c.sent[j].response.id;
             id in c.members[n].node.requests && c.members[n].node.requests[id] == entry
    requires entry.Gather?
    ensures var e := c.sent[j]; var id := e.response.id;
            && id in c.issued && id in c.calls && c.calls[id].node == n && entry.numSub == |c.members|
            && HasKey(entry.acc, e.response.payload)
            && id !in c.members[n].node.ackRequests
            && var acc := Merge(entry.acc, e.response.payload.answer);
               && SameKind(acc, c.calls[id].answer)
               && Items(acc) == Items(c.calls[id].answer) + HeardItems(d, n, id)
               && (acc.SocketArray? ==> DistinctSids(acc.sockets))
               && entry.msgCount + 1 == 1 + |HeardFrom(d, n, id)|
               && HeardFrom(d, n, id) <= c.members.Keys - {n}
  {
    var e := c.sent[j];
    var id := e.response.id;
    assert CountOk(c, n, id, entry) && KindOk(Req(c, id).body, entry);
    MergeDistinct(c, d, n, j, entry);
    CountedIsNew(c, n, j);
    CollectedFrom(c, d, n, j);
    CollectedItems(c, d, n, j, entry);
  }

  lemma OthersCount(all: set<NodeId>, n: NodeId, some: set<NodeId>)
    requires n in all && some <= all - {n}
    ensures |some| <= |all| - 1
    ensures |some| == |all| - 1 ==> some == all - {n}
  {
    var others := all - {n};
    assert |others| == |all| - 1;
    assert some + (others - some) == others;
    assert |some + (others - some)| == |some| + |others - some|;
  }

  lemma HeardIsAll(d: Cluster, n: NodeId, id: Id)
    requires forall i | 0 <= i < |d.sent| && d.sent[i].response.id == id ::
               i in HeardIdx(d, n, id) <==> d.sent[i].from != n
    requires HeardFrom(d, n, id) == d.members.Keys - {n}
    ensures HeardItems(d, n, id) == OtherItems(d, n, id)
    ensures forall m | m in d.members && m != n :: HasAnswered(d, id, m)
  {
    forall m | m in d.members && m != n ensures HasAnswered(d, id, m) {
      assert m in HeardFrom(d, n, id);
      var i :| i in HeardIdx(d, n, id) && d.sent[i].from == m;
    }
    forall x | x in OtherItems(d, n, id) ensures x in HeardItems(d, n, id) {
      var i :| 0 <= i < |d.sent| && d.sent[i].response.id == id && d.sent[i].from != n && x in AnswerItems(d.sent[i]);
      assert i in HeardIdx(d, n, id);
    }
    forall x | x in HeardItems(d, n, id) ensures x in OtherItems(d, n, id) {
      var i :| i in HeardIdx(d, n, id) && x in AnswerItems(d.sent[i]);
    }
  }

  lemma HeardIffOther(d: Cluster, n: NodeId, id: Id, i: nat)
    requires Mail(d) && id in d.issued && Counted(Req(d, id).body) && i < |d.sent| && d.sent[i].response.id == id
    requires HeardFrom(d, n, id) == d.members.Keys - {n}
    ensures i in HeardIdx(d, n, id) <==> d.sent[i].from != n
  {
    assert EnvelopeOk(d, d.sent[i]);
    if i in HeardIdx(d, n, id) {
      assert d.sent[i].from in HeardFrom(d, n, id);
    } else if d.sent[i].from != n {
      assert d.sent[i].from in HeardFrom(d, n, id);
      HeardBefore(d, n, i);
    }
  }

  /** When every other node has been heard, what was heard is all that was answered. */
  lemma AllHeard(c: Cluster, d: Cluster, n: NodeId, j: nat)
    requires Mail(c) && Received(c, d, n, j) && Mail(d)
    requires var id := c.sent[j].response.id;
             id in c.issued && Counted(Req(c, id).body) && Req(c, id).uid == n &&
             HeardFrom(d, n, id) == d.members.Keys - {n}
    ensures var id := c.sent[j].response.id;
            && HeardItems(d, n, id) == OtherItems(d, n, id)
            && forall m | m in d.members && m != n :: HasAnswered(d, id, m)
  {
    var id := c.sent[j].response.id;
    ReqStays(c, d, id);
    forall i | 0 <= i < |d.sent| && d.sent[i].response.id == id
      ensures i in HeardIdx(d, n, id) <==> d.sent[i].from != n
    {
      HeardIffOther(d, n, id, i);
    }
    HeardIsAll(d, n, id);
  }

  lemma CountedGather(c: Cluster, d: Cluster, n: NodeId, j: nat)
    requires Mail(c) && Counts(c) && Received(c, d, n, j) && Mail(d)
    requires var id := c.sent[j].response.id;
             id in c.members[n].node.requests && c.members[n].node.requests[id].Gather?
    ensures var id := c.sent[j].response.id;
            id in d.members[n].node.requests ==> CountOk(d, n, id, d.members[n].node.requests[id])
    ensures var e := c.sent[j];
            e.response.id !in d.members[n].node.requests ==>
              exists acc :: d.settled == c.settled + [Settlement(e.response.id, Gathered(acc))] &&
                            Complete(d, e.response.id, acc)
  {
    var e := c.sent[j];
    var id := e.response.id;
    var entry := c.members[n].node.requests[id];
    Collected(c, d, n, j, entry);
    assert |d.members| == |c.members| by { assert |d.members.Keys| == |c.members.Keys|; }
    var acc := Merge(entry.acc, e.response.payload.answer);
    OthersCount(c.members.Keys, n, HeardFrom(d, n, id));
    if entry.msgCount + 1 == entry.numSub {
      assert HeardFrom(d, n, id) == d.members.Keys - {n};
      AllHeard(c, d, n, j);
      assert d.settled == c.settled + [Settlement(id, Gathered(acc))];
      assert Complete(d, id, acc);
    }
  }

  // ----- Server-side emit -----

  ghost predicate EmitAnswersAt(d: Cluster, n: NodeId, id: Id, js: seq<nat>, responses: seq<Option<int>>) {
    && Answers(d, id, js, responses)
    && Lists(js, HeardIdx(d, n, id))
    && forall i | 0 <= i < |js| :: d.sent[js[i]].from != n
  }

  ghost predicate EmitAnswersSoFar(d: Cluster, n: NodeId, id: Id, responses: seq<Option<int>>) {
    exists js :: EmitAnswersAt(d, n, id, js, responses)
  }

  lemma MoreAnswers(c: Cluster, d: Cluster, n: NodeId, j: nat, js: seq<nat>, responses: seq<Option<int>>)
    requires Mail(c) && Received(c, d, n, j)
    requires var e := c.sent[j]; var id := e.response.id;
             && id in c.members[n].node.requests && id in c.issued
             && Req(c, id).body.ServerSideEmit?
             && Answers(c, id, js, responses) && Lists(js, HeardIdx(c, n, id))
    ensures var e := c.sent[j];
            EmitAnswersAt(d, n, e.response.id, js + [j], responses + [DataOf(e.response.payload)])
  {
    var e := c.sent[j];
    var id := e.response.id;
    var all := js + [j];
    CountedIsNew(c, n, j);
    HeardAfter(c, d, n, j, n, id);
    ListsMore(js, HeardIdx(c, n, id), j);
    forall i | 0 <= i < |js| ensures c.sent[js[i]].from != e.from && c.sent[js[i]].from != n {
      assert js[i] in js && js[i] in HeardIdx(c, n, id);
      assert c.sent[js[i]].from in HeardFrom(c, n, id);
      HeardAreOthers(c, n, id);
    }
  }

  lemma CollectedAnswers(c: Cluster, d: Cluster, n: NodeId, j: nat, entry: Pending)
    requires Mail(c) && Received(c, d, n, j)
    requires var id := c.sent[j].response.id;
             id in c.members[n].node.requests && id in c.issued && Req(c, id).body.ServerSideEmit? &&
             entry.EmitWait? && EmitCount(c, n, id, entry)
    ensures var e := c.sent[j];
            EmitAnswersSoFar(d, n, e.response.id, entry.responses + [DataOf(e.response.payload)])
  {
    var e := c.sent[j];
    var id := e.response.id;
    var js :| Answers(c, id, js, entry.responses) && Lists(js, HeardIdx(c, n, id));
    MoreAnswers(c, d, n, j, js, entry.responses);
  }

  lemma PendingEmit(c: Cluster, n: NodeId, id: Id, entry: Pending)
    requires Mail(c) && Counts(c) && n in c.members
    requires id in c.members[n].node.requests && c.members[n].node.requests[id] == entry && entry.EmitWait?
    ensures EmitCount(c, n, id, entry) && id in c.issued && Req(c, id).body.ServerSideEmit?
  {
    assert CountOk(c, n, id, entry) && KindOk(Req(c, id).body, entry);
  }

  /** After a response to a pending emit: one response from each node heard, in order. */
  lemma CollectedEmit(c: Cluster, d: Cluster, n: NodeId, j: nat, entry: Pending)
    requires Mail(c) && Counts(c) && Received(c, d, n, j)
    requires var id := c.sent[j].response.id;
             id in c.members[n].node.requests && c.members[n].node.requests[id] == entry && entry.EmitWait?
    ensures var e := c.sent[j]; var id := e.response.id;
            var responses := entry.responses + [DataOf(e.response.payload)];
            && id in c.issued && Req(c, id).uid == n && Req(c, id).body.ServerSideEmit?
            && id !in c.members[n].node.ackRequests
            && entry.numSub == |c.members| - 1
            && |responses| == |HeardFrom(d, n, id)| && HeardFrom(d, n, id) <= c.members.Keys - {n}
            && EmitAnswersSoFar(d, n, id, responses)
  {
    var e := c.sent[j];
    var id := e.response.id;
    PendingEmit(c, n, id, entry);
    CountedIsNew(c, n, j);
    HeardAfter(c, d, n, j, n, id);
    HeardAreOthers(c, n, id);
    CollectedAnswers(c, d, n, j, entry);
  }

  /** What the last response does to a pending emit. */
  lemma EmitReaction(c: Cluster, d: Cluster, n: NodeId, j: nat, entry: Pending)
    requires Received(c, d, n, j)
    requires var id := c.sent[j].response.id;
             id in c.members[n].node.requests && c.members[n].node.requests[id] == entry && entry.EmitWait? &&
             id !in c.members[n].node.ackRequests
    ensures var e := c.sent[j]; var id := e.response.id;
            var responses := entry.responses + [DataOf(e.response.payload)];
            if |responses| == entry.numSub then
              id !in d.members[n].node.requests && d.settled == c.settled + [Settlement(id, AckedAll(responses))]
            else
              id in d.members[n].node.requests &&
              d.members[n].node.requests[id] == entry.(responses := responses)
  {
  }

  /** A counted response to an emit leaves a good entry, or settles it with a full set of responses. */
  ghost predicate EmitOutcome(c: Cluster, d: Cluster, n: NodeId, j: nat)
    requires IssuedOk(d) && j < |c.sent| && n in d.members
  {
    var id := c.sent[j].response.id;
    if id in d.members[n].node.requests then CountOk(d, n, id, d.members[n].node.requests[id])
    else exists responses :: d.settled == c.settled + [Settlement(id, AckedAll(responses))] &&
                             |responses| == |d.members| - 1 && EmitResult(d, id, responses)
  }

  lemma EmitCountNow(d: Cluster, n: NodeId, id: Id, entry: Pending)
    requires entry.EmitWait? && entry.numSub == |d.members| - 1 && |entry.responses| < entry.numSub
    requires |entry.responses| == |HeardFrom(d, n, id)| && EmitAnswersSoFar(d, n, id, entry.responses)
    ensures CountOk(d, n, id, entry)
  {
    var js :| EmitAnswersAt(d, n, id, js, entry.responses);
  }

  lemma EmitResultNow(c: Cluster, d: Cluster, n: NodeId, id: Id, responses: seq<Option<int>>)
    requires IssuedOk(c) && IssuedOk(d) && d.log == c.log && d.issued == c.issued
    requires id in c.issued && Req(c, id).uid == n && Req(c, id).body.ServerSideEmit?
    requires EmitAnswersSoFar(d, n, id, responses)
    ensures EmitResult(d, id, responses)
  {
    var js :| EmitAnswersAt(d, n, id, js, responses);
    assert Req(d, id) == Req(c, id);
    assert AnswersOfOthers(d, id, js, responses);
  }

  lemma EmitStep(c: Cluster, d: Cluster, n: NodeId, j: nat, entry: Pending)
    requires IssuedOk(c) && IssuedOk(d) && Received(c, d, n, j) && entry.EmitWait?
    requires var e := c.sent[j]; var id := e.response.id;
             var responses := entry.responses + [DataOf(e.response.payload)];
             && id in c.members[n].node.requests && c.members[n].node.requests[id] == entry
             && id in c.issued && Req(c, id).uid == n && Req(c, id).body.ServerSideEmit?
             && id !in c.members[n].node.ackRequests
             && entry.numSub == |c.members| - 1
             && |responses| == |HeardFrom(d, n, id)| && HeardFrom(d, n, id) <= c.members.Keys - {n}
             && EmitAnswersSoFar(d, n, id, responses)
    ensures EmitOutcome(c, d, n, j)
  {
    var e := c.sent[j];
    var id := e.response.id;
    var responses := entry.responses + [DataOf(e.response.payload)];
    EmitReaction(c, d, n, j, entry);
    assert |d.members| == |c.members| by { assert |d.members.Keys| == |c.members.Keys|; }
    OthersCount(c.members.Keys, n, HeardFrom(d, n, id));
    if |responses| == entry.numSub {
      EmitResultNow(c, d, n, id, responses);
    } else {
      EmitCountNow(d, n, id, entry.(responses := responses));
    }
  }

  lemma CountedEmit(c: Cluster, d: Cluster, n: NodeId, j: nat)
    requires Mail(c) && Counts(c) && Received(c, d, n, j) && Mail(d)
    requires var id := c.sent[j].response.id;
             id in c.members[n].node.requests && c.members[n].node.requests[id].EmitWait?
    ensures EmitOutcome(c, d, n, j)
  {
    var entry := c.members[n].node.requests[c.sent[j].response.id];
    CollectedEmit(c, d, n, j, entry);
    EmitStep(c, d, n, j, entry);
  }

  // ----- Every step keeps the books -----

  /** Any response to a remote join, leave or disconnect settles it. */
  lemma RemoteSettles(c: Cluster, d: Cluster, n: NodeId, j: nat)
    requires Mail(c) && Received(c, d, n, j)
    requires var id := c.sent[j].response.id;
             id in c.members[n].node.requests && c.members[n].node.requests[id].Remote?
    ensures var id := c.sent[j].response.id;
            && id !in d.members[n].node.requests && d.settled == c.settled + [Settlement(id, Completed)]
            && d.sent == c.sent && d.log == c.log && d.issued == c.issued
  {
    CountedIsNew(c, n, j);
  }

  /** The entry a response counts into, when it does not settle it. */
  lemma CountedEntry(c: Cluster, d: Cluster, n: NodeId, j: nat)
    requires Mail(c) && Counts(c) && Received(c, d, n, j) && Mail(d)
    requires var id := c.sent[j].response.id;
             id in c.members[n].node.requests &&
             id in d.members[n].node.requests
    ensures var id := c.sent[j].response.id;
            CountOk(d, n, id, d.members[n].node.requests[id])
  {
    match c.members[n].node.requests[c.sent[j].response.id] {
      case Gather(_, _, _) => CountedGather(c, d, n, j);
      case Remote => RemoteSettles(c, d, n, j);
      case EmitWait(_, _) => CountedEmit(c, d, n, j);
    }
  }

  lemma OtherCountDelivered(c: Cluster, d: Cluster, n: NodeId, j: nat, m: NodeId, x: Id)
    requires Mail(c) && Counts(c) && Received(c, d, n, j)
    requires m in c.members && x in c.members[m].node.requests
    requires m != n || x != c.sent[j].response.id
    ensures CountOk(d, m, x, c.members[m].node.requests[x])
  {
    HeardAfter(c, d, n, j, m, x);
    CountStays(c, d, m, x, c.members[m].node.requests[x]);
  }

  lemma CountDelivered(c: Cluster, d: Cluster, n: NodeId, j: nat, m: NodeId, x: Id)
    requires Mail(c) && Counts(c) && Received(c, d, n, j) && Mail(d)
    requires m in c.members && x in d.members[m].node.requests
    ensures CountOk(d, m, x, d.members[m].node.requests[x])
  {
    ReceivedReacts(c, d, n, j);
    if m == n && x == c.sent[j].response.id { CountedEntry(c, d, n, j); }
    else { OtherCountDelivered(c, d, n, j, m, x); }
  }

  lemma CountsDeliver(c: Cluster, d: Cluster, n: NodeId, j: nat)
    requires Mail(c) && Counts(c) && Received(c, d, n, j) && Mail(d)
    ensures Counts(d)
  {
    forall m, x | m in d.members && x in d.members[m].node.requests
      ensures CountOk(d, m, x, d.members[m].node.requests[x])
    {
      CountDelivered(c, d, n, j, m, x);
    }
  }

  lemma CountsKept(c: Cluster, e: Event)
    requires Books(c) && Enabled(c, e)
    ensures Counts(Next(c, e))
  {
    if IsCall(e) { CountsCall(c, e); }
    else if e.Deliver? {
      MailKept(c, e);
      DeliverReceives(c, e.n, e.j);
      CountsDeliver(c, Next(c, e), e.n, e.j);
    }
    else if e.Timeout? { CountsTimeout(c, e.n, e.id); }
    else { CountsStill(c, e); }
  }

  lemma NewResultCall(c: Cluster, e: Event)
    requires Books(c) && IsCall(e) && Enabled(c, e) && Mail(Next(c, e))
    ensures var d := Next(c, e);
            d.settled == c.settled ||
            exists s :: d.settled == c.settled + [s] && ResultOk(d, s)
  {
    var d := Next(c, e);
    CallSummary(c, e);
    CallFresh(c, e);
    assert |d.members| == |c.members| by { assert |d.members.Keys| == |c.members.Keys|; }
    if AtOnce(c, e) {
      var s := Settlement(e.id, CallResult(c, e));
      assert |c.members| >= 1 by { var n :| n in c.members; assert n in c.members.Keys; }
      assert d.settled == c.settled + [s] && ResultOk(d, s);
    }
  }

  lemma NewResultGather(c: Cluster, d: Cluster, n: NodeId, j: nat)
    requires Mail(c) && Counts(c) && Received(c, d, n, j) && Mail(d)
    requires var id := c.sent[j].response.id;
             id in c.members[n].node.requests && c.members[n].node.requests[id].Gather? &&
             id !in d.members[n].node.requests
    ensures exists s :: d.settled == c.settled + [s] && ResultOk(d, s)
  {
    var id := c.sent[j].response.id;
    CountedIsNew(c, n, j);
    CountedGather(c, d, n, j);
    var acc :| d.settled == c.settled + [Settlement(id, Gathered(acc))] && Complete(d, id, acc);
    assert ResultOk(d, Settlement(id, Gathered(acc)));
  }

  lemma CompletedOk(c: Cluster, d: Cluster, n: NodeId, j: nat)
    requires Ledger(c) && IssuedOk(d) && Received(c, d, n, j)
    requires var id := c.sent[j].response.id;
             id in c.members[n].node.requests && c.members[n].node.requests[id].Remote?
    ensures ResultOk(d, Settlement(c.sent[j].response.id, Completed))
  {
    var id := c.sent[j].response.id;
    assert KindOk(Req(c, id).body, c.members[n].node.requests[id]);
    ReqStays(c, d, id);
    assert HasAnswered(d, id, c.sent[j].from);
  }

  lemma NewResultOne(c: Cluster, d: Cluster, n: NodeId, j: nat)
    requires Mail(c) && Received(c, d, n, j) && Mail(d)
    requires var id := c.sent[j].response.id;
             id in c.members[n].node.requests && c.members[n].node.requests[id].Remote?
    ensures exists s :: d.settled == c.settled + [s] && ResultOk(d, s)
  {
    var id := c.sent[j].response.id;
    CountedIsNew(c, n, j);
    RemoteSettles(c, d, n, j);
    CompletedOk(c, d, n, j);
    assert ResultOk(d, Settlement(id, Completed));
  }

  lemma NewResultEmit(c: Cluster, d: Cluster, n: NodeId, j: nat)
    requires Mail(c) && Counts(c) && Received(c, d, n, j) && Mail(d)
    requires var id := c.sent[j].response.id;
             id in c.members[n].node.requests && c.members[n].node.requests[id].EmitWait? &&
             id !in d.members[n].node.requests
    ensures exists s :: d.settled == c.settled + [s] && ResultOk(d, s)
  {
    var id := c.sent[j].response.id;
    CountedEmit(c, d, n, j);
    var responses :| d.settled == c.settled + [Settlement(id, AckedAll(responses))] &&
                     |responses| == |d.members| - 1 && EmitResult(d, id, responses);
    assert ResultOk(d, Settlement(id, AckedAll(responses)));
  }

  lemma NewResultDeliver(c: Cluster, d: Cluster, n: NodeId, j: nat)
    requires Mail(c) && Counts(c) && Received(c, d, n, j) && Mail(d)
    ensures d.settled == c.settled ||
            exists s :: d.settled == c.settled + [s] && ResultOk(d, s)
  {
    var id := c.sent[j].response.id;
    ReceivedReacts(c, d, n, j);
    if id in c.members[n].node.requests && id !in d.members[n].node.requests {
      match c.members[n].node.requests[id] {
        case Gather(_, _, _) => NewResultGather(c, d, n, j);
        case Remote => NewResultOne(c, d, n, j);
        case EmitWait(_, _) => NewResultEmit(c, d, n, j);
      }
    }
  }

  lemma TimeoutRejects(c: Cluster, d: Cluster, n: NodeId, id: Id, entry: Pending)
    requires Ledger(c) && IssuedOk(d) && Extends(c, d) && n in c.members && !entry.EmitWait?
    requires id in c.members[n].node.requests && c.members[n].node.requests[id] == entry
    ensures ResultOk(d, Settlement(id, Rejected))
  {
    assert KindOk(Req(c, id).body, entry);
    ReqStays(c, d, id);
  }

  /** A pending emit lacks at least one response. */
  lemma PendingEmitIsShort(c: Cluster, d: Cluster, n: NodeId, id: Id, entry: Pending)
    requires Counts(c) && d.members.Keys == c.members.Keys && n in c.members && entry.EmitWait?
    requires id in c.members[n].node.requests && c.members[n].node.requests[id] == entry
    ensures |entry.responses| < |d.members| - 1
  {
    assert CountOk(c, n, id, entry);
    assert |d.members| == |c.members| by { assert |d.members.Keys| == |c.members.Keys|; }
  }

  lemma ListedAreOthers(c: Cluster, n: NodeId, id: Id, js: seq<nat>, responses: seq<Option<int>>)
    requires IssuedOk(c) && id in c.issued && Req(c, id).uid == n && n !in HeardFrom(c, n, id)
    requires Answers(c, id, js, responses) && Lists(js, HeardIdx(c, n, id))
    ensures AnswersOfOthers(c, id, js, responses)
  {
    forall i | 0 <= i < |js| ensures c.sent[js[i]].from != n {
      assert js[i] in js;
      assert c.sent[js[i]].from in HeardFrom(c, n, id);
    }
  }

  /** The responses of a pending emit come from other nodes. */
  lemma PendingEmitAnswers(c: Cluster, n: NodeId, id: Id, entry: Pending)
    requires Books(c) && n in c.members
    requires id in c.members[n].node.requests && c.members[n].node.requests[id] == entry && entry.EmitWait?
    ensures id in c.issued && EmitResult(c, id, entry.responses)
  {
    assert CountOk(c, n, id, entry) && KindOk(Req(c, id).body, entry);
    HeardAreOthers(c, n, id);
    var js :| Answers(c, id, js, entry.responses) && Lists(js, HeardIdx(c, n, id));
    ListedAreOthers(c, n, id, js, entry.responses);
  }

  lemma TimeoutAcksSome(c: Cluster, d: Cluster, n: NodeId, id: Id, entry: Pending)
    requires Books(c) && Mail(d) && Extends(c, d) && n in c.members && entry.EmitWait?
    requires id in c.members[n].node.requests && c.members[n].node.requests[id] == entry
    ensures ResultOk(d, Settlement(id, AckedSome(entry.responses)))
  {
    PendingEmitIsShort(c, d, n, id, entry);
    PendingEmitAnswers(c, n, id, entry);
    EmitResultStays(c, d, id, entry.responses);
  }

  lemma NewResultTimeout(c: Cluster, n: NodeId, id: Id)
    requires Books(c) && Enabled(c, Timeout(n, id)) && Mail(Next(c, Timeout(n, id)))
    ensures var d := Next(c, Timeout(n, id));
            d.settled == c.settled ||
            exists s :: d.settled == c.settled + [s] && ResultOk(d, s)
  {
    TimeoutReacts(c, n, id);
    ExtendsKept(c, Timeout(n, id));
    if id in c.members[n].node.requests {
      var entry := c.members[n].node.requests[id];
      if entry.EmitWait? {
        TimeoutAcksSome(c, Next(c, Timeout(n, id)), n, id, entry);
      } else {
        TimeoutRejects(c, Next(c, Timeout(n, id)), n, id, entry);
      }
    }
  }

  /** The settlement a step adds, if any, is right. */
  lemma NewResult(c: Cluster, e: Event)
    requires Books(c) && Enabled(c, e) && Mail(Next(c, e))
    ensures var d := Next(c, e);
            d.settled == c.settled ||
            exists s :: d.settled == c.settled + [s] && ResultOk(d, s)
  {
    if IsCall(e) { NewResultCall(c, e); }
    else if e.Deliver? {
      DeliverReceives(c, e.n, e.j);
      NewResultDeliver(c, Next(c, e), e.n, e.j);
    }
    else if e.Timeout? { NewResultTimeout(c, e.n, e.id); }
    else { StillHeard(c, e); }
  }

  lemma OldResultKept(c: Cluster, e: Event, i: nat)
    requires Books(c) && Enabled(c, e) && Mail(Next(c, e)) && Extends(c, Next(c, e)) && i < |c.settled|
    ensures ResultOk(Next(c, e), c.settled[i])
  {
    SettledStaysUnissued(c, e, i);
    ResultStays(c, Next(c, e), c.settled[i]);
  }

  lemma ResultsGrow(c: Cluster, d: Cluster)
    requires IssuedOk(d) && d.members.Keys == c.members.Keys && c.members != map[]
    requires forall i | 0 <= i < |c.settled| :: ResultOk(d, c.settled[i])
    requires d.settled == c.settled || exists s :: d.settled == c.settled + [s] && ResultOk(d, s)
    ensures Results(d) && d.members != map[]
  {
    assert d.members != map[] by { var n :| n in c.members; assert n in d.members; }
  }

  lemma BooksKept(c: Cluster, e: Event)
    requires Books(c) && Enabled(c, e)
    ensures Books(Next(c, e))
  {
    MailKept(c, e);
    ExtendsKept(c, e);
    CountsKept(c, e);
    NewResult(c, e);
    forall i | 0 <= i < |c.settled| ensures ResultOk(Next(c, e), c.settled[i]) { OldResultKept(c, e, i); }
    ResultsGrow(c, Next(c, e));
  }

  lemma {:induction false} BooksAlways(t: seq<Cluster>, es: seq<Event>, i: nat)
    requires Run(t, es) && i < |t|
    ensures Books(t[i])
  {
    if i == 0 {
      MailAtStart(t[0]);
    } else {
      BooksAlways(t, es, i - 1);
      assert Stepped(t, es, i - 1);
      BooksKept(t[i - 1], es[i - 1]);
    }
  }
}
