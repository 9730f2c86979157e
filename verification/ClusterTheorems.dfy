/** What holds in every run of the cluster: settlement, and the completeness of gathers. */
module ClusterTheorems {
  import opened Option
  import opened RoomNames
  import opened Shards
  import opened AdapterNode
  import opened Cluster
  import opened ClusterInvariants
  import opened ClusterLedger
  import opened ClusterMail
  import opened Gathers

  // ----- Runs only add -----

  lemma SeenAndSettledGrow(c: Cluster, e: Event)
    requires Mail(c) && Enabled(c, e)
    ensures var d := Next(c, e); c.settled <= d.settled
    ensures var d := Next(c, e); forall n | n in c.members :: n in d.members && d.members[n].seen >= c.members[n].seen
  {
    if IsCall(e) { CallSummary(c, e); }
    else if e.Deliver? { DeliverReceives(c, e.n, e.j); }
    else if e.Timeout? { TimeoutTurn(c, e.n, e.id); TimeoutReacts(c, e.n, e.id); }
    else {
      StillHeard(c, e);
      if e.Consume? { ConsumeTurn(c, e.n, e.answer); }
      else if e.Broadcast? { BroadcastSummary(c, e.n, e.id, e.opts); }
      else if IsSmall(e) { SmallTurn(c, e); }
    }
  }

  lemma StepAdds(c: Cluster, e: Event)
    requires Mail(c) && Enabled(c, e)
    ensures var d := Next(c, e); Extends(c, d) && c.settled <= d.settled
    ensures var d := Next(c, e); forall n | n in c.members :: n in d.members && d.members[n].seen >= c.members[n].seen
  {
    ExtendsKept(c, e);
    SeenAndSettledGrow(c, e);
  }

  lemma StepAddsAt(t: seq<Cluster>, es: seq<Event>, i: nat)
    requires Run(t, es) && i < |es|
    ensures Extends(t[i], t[i + 1]) && t[i].settled <= t[i + 1].settled
    ensures forall n | n in t[i].members :: n in t[i + 1].members && t[i + 1].members[n].seen >= t[i].members[n].seen
  {
    MailAlways(t, es, i);
    assert Stepped(t, es, i);
    StepAdds(t[i], es[i]);
  }

  lemma {:induction false} RunAdds(t: seq<Cluster>, es: seq<Event>, i: nat, k: nat)
    requires Run(t, es) && i <= k < |t|
    ensures Extends(t[i], t[k]) && t[i].settled <= t[k].settled
    ensures forall n | n in t[i].members :: n in t[k].members && t[k].members[n].seen >= t[i].members[n].seen
    decreases k
  {
    if i < k {
      RunAdds(t, es, i, k - 1);
      StepAddsAt(t, es, k - 1);
    }
  }

  // ----- Places in the log -----

  /** Step `b` is the one at which node `m` reads the message at place `k`. */
  ghost predicate Reads(t: seq<Cluster>, es: seq<Event>, b: nat, m: NodeId, k: nat) {
    && b < |es| && b < |t| && es[b].Consume? && es[b].n == m
    && m in t[b].members && t[b].members[m].seen == k && k < |t[b].log|
  }

  lemma SeenMoves(c: Cluster, e: Event, m: NodeId)
    requires Mail(c) && Enabled(c, e) && m in Next(c, e).members
    ensures m in c.members
    ensures Next(c, e).members[m].seen ==
              c.members[m].seen + (if e.Consume? && e.n == m then 1 else 0)
  {
    if IsCall(e) { CallSummary(c, e); }
    else if e.Consume? { ConsumeTurn(c, e.n, e.answer); }
    else if e.Deliver? { DeliverReceives(c, e.n, e.j); }
    else if e.Timeout? { TimeoutTurn(c, e.n, e.id); }
    else if e.Broadcast? { BroadcastSummary(c, e.n, e.id, e.opts); }
    else if IsSmall(e) { SmallTurn(c, e); }
  }

  lemma SeenMovesAt(t: seq<Cluster>, es: seq<Event>, i: nat, m: NodeId)
    requires Run(t, es) && i < |es| && m in t[i + 1].members
    ensures m in t[i].members
    ensures t[i + 1].members[m].seen == t[i].members[m].seen + (if es[i].Consume? && es[i].n == m then 1 else 0)
    ensures es[i].Consume? && es[i].n == m ==> t[i].members[m].seen < |t[i].log|
  {
    MailAlways(t, es, i);
    assert Stepped(t, es, i);
    SeenMoves(t[i], es[i], m);
  }

  /** A node that is past place `k` has read the message there. */
  lemma {:induction false} ConsumedBefore(t: seq<Cluster>, es: seq<Event>, i: nat, m: NodeId, k: nat) returns (a: nat)
    requires Run(t, es) && i < |t| && m in t[i].members && t[i].members[m].seen > k
    ensures a < i && Reads(t, es, a, m, k)
    decreases i
  {
    if i > 0 {
      SeenMovesAt(t, es, i - 1, m);
      if t[i - 1].members[m].seen > k { a := ConsumedBefore(t, es, i - 1, m, k); } else { a := i - 1; }
    }
  }

  /** After reading the message at place `k` a node stays past it. */
  lemma ReadIsPast(t: seq<Cluster>, es: seq<Event>, b: nat, m: NodeId, k: nat, i: nat)
    requires Run(t, es) && Reads(t, es, b, m, k) && b < i < |t|
    ensures m in t[i].members && t[i].members[m].seen > k
  {
    RunAdds(t, es, b, b + 1);
    SeenMovesAt(t, es, b, m);
    RunAdds(t, es, b + 1, i);
  }

  // ----- Where a request was issued -----

  lemma {:induction false} IssueStep(t: seq<Cluster>, es: seq<Event>, i: nat, id: Id) returns (a: nat)
    requires Run(t, es) && i < |t| && id in t[i].issued
    ensures a < i && id !in t[a].issued && id in t[a + 1].issued
    decreases i
  {
    if i > 0 {
      if id in t[i - 1].issued { a := IssueStep(t, es, i - 1, id); } else { a := i - 1; }
    }
  }

  /** The event that publishes a request with an id. */
  ghost predicate IsIssueOf(c: Cluster, e: Event, id: Id, request: Message) {
    match request.body
    case JoinOne(_, _) => e == One(request.uid, id, request.body)
    case LeaveOne(_, _) => e == One(request.uid, id, request.body)
    case DisconnectOne(_) => e == One(request.uid, id, request.body)
    case ServerSideEmit => e == Emit(request.uid, id)
    case BroadcastWithAck(opts) => e == Broadcast(request.uid, id, opts)
    case _ => e == Issue(id) && id in c.calls && c.calls[id].node == request.uid && c.calls[id].body == request.body
  }

  lemma IssuedBy(c: Cluster, e: Event, id: Id)
    requires Mail(c) && Enabled(c, e) && id !in c.issued && id in Next(c, e).issued && IssuedOk(Next(c, e))
    ensures IsIssueOf(c, e, id, Req(Next(c, e), id))
    ensures Next(c, e).issued[id] == |c.log|
  {
    if IsCall(e) { CallSummary(c, e); }
    else if e.Consume? { ConsumeTurn(c, e.n, e.answer); }
    else if e.Deliver? { DeliverReceives(c, e.n, e.j); }
    else if e.Timeout? { TimeoutTurn(c, e.n, e.id); }
    else if e.Broadcast? { BroadcastSummary(c, e.n, e.id, e.opts); }
    else if IsSmall(e) { SmallTurn(c, e); }
  }

  lemma IssuedByAt(t: seq<Cluster>, es: seq<Event>, a: nat, id: Id)
    requires Run(t, es) && a < |es| && id !in t[a].issued && id in t[a + 1].issued && IssuedOk(t[a + 1])
    ensures IsIssueOf(t[a], es[a], id, Req(t[a + 1], id)) && t[a + 1].issued[id] == |t[a].log|
  {
    MailAlways(t, es, a);
    assert Stepped(t, es, a);
    IssuedBy(t[a], es[a], id);
  }

  /** Every request in the log was put there by the call it says, at the end of the log as it was. */
  lemma IssuedAt(t: seq<Cluster>, es: seq<Event>, i: nat, id: Id) returns (a: nat)
    requires Run(t, es) && i < |t| && id in t[i].issued && Shape(t[i])
    ensures a < i && id !in t[a].issued && id in t[a + 1].issued && IsIssueOf(t[a], es[a], id, Req(t[i], id))
    ensures t[i].issued[id] == |t[a].log|
  {
    a := IssueStep(t, es, i, id);
    MailAlways(t, es, a);
    MailAlways(t, es, a + 1);
    IssuedByAt(t, es, a, id);
    RunAdds(t, es, a + 1, i);
    ReqStays(t[a + 1], t[i], id);
  }

  // ----- Settlement -----

  /**
   In every reachable state, a published request is in its origin's `requests` map if and
   only if it is unsettled, and no id is settled twice.
   */
  lemma PendingIffUnsettled(t: seq<Cluster>, es: seq<Event>, i: nat, id: Id)
    requires Run(t, es) && i < |t|
    requires Shape(t[i]) && id in t[i].issued && Waits(Req(t[i], id).body)
    ensures id in t[i].members[Req(t[i], id).uid].node.requests <==> !IsSettled(t[i], id)
    ensures forall n | n in t[i].members && id in t[i].members[n].node.requests :: n == Req(t[i], id).uid
    ensures forall a, b | 0 <= a < b < |t[i].settled| :: t[i].settled[a].id != t[i].settled[b].id
  {
    MailAlways(t, es, i);
  }

  /** What was settled stays settled, with the same result, in the rest of the run. */
  lemma SettledForever(t: seq<Cluster>, es: seq<Event>, i: nat, k: nat, s: nat)
    requires Run(t, es) && i <= k < |t| && s < |t[i].settled|
    ensures s < |t[k].settled| && t[k].settled[s] == t[i].settled[s]
    ensures forall b | 0 <= b < |t[k].settled| && t[k].settled[b].id == t[i].settled[s].id :: b == s
  {
    RunAdds(t, es, i, k);
    MailAlways(t, es, k);
  }

  /** The id a step is about, when it is a response, a timer, or a node's own copy of a request. */
  ghost predicate Concerns(c: Cluster, e: Event, id: Id) {
    match e
    case Deliver(_, j) => j < |c.sent| && c.sent[j].response.id == id
    case Timeout(_, x) => x == id
    case Consume(n, _) =>
      n in c.members && c.members[n].seen < |c.log| &&
      c.log[c.members[n].seen].id == Some(id) && c.log[c.members[n].seen].uid == n
    case _ => false
  }

  /** After settlement a late response, timer or own copy settles nothing and makes no entry. */
  lemma LateChangesNothing(t: seq<Cluster>, es: seq<Event>, i: nat, id: Id)
    requires Run(t, es) && i < |es| && IsSettled(t[i], id) && Concerns(t[i], es[i], id)
    ensures t[i + 1].settled == t[i].settled
    ensures forall n | n in t[i].members ::
              n in t[i + 1].members && t[i + 1].members[n].node.requests == t[i].members[n].node.requests
  {
    MailAlways(t, es, i);
    assert Stepped(t, es, i);
    var c := t[i];
    match es[i] {
      case Deliver(n, j) =>
        DeliverReceives(c, n, j);
        assert id !in c.members[n].node.requests;
      case Timeout(n, _) =>
        TimeoutTurn(c, n, id);
        TimeoutReacts(c, n, id);
        assert id !in c.members[n].node.requests;
      case Consume(n, answer) => StillHeard(c, es[i]);
    }
  }

  /** A timer that fires at the origin of a published request leaves it settled. */
  lemma TimerSettles(t: seq<Cluster>, es: seq<Event>, i: nat, n: NodeId, id: Id)
    requires Run(t, es) && i < |es| && es[i] == Timeout(n, id)
    requires Shape(t[i]) && id in t[i].issued && Req(t[i], id).uid == n && Waits(Req(t[i], id).body)
    ensures IsSettled(t[i + 1], id)
  {
    MailAlways(t, es, i);
    assert Stepped(t, es, i);
    TimeoutReacts(t[i], n, id);
    if id in t[i].members[n].node.requests {
      SettledOne(t[i], t[i + 1], id, OnTimeout(t[i].members[n].node, id).settled.value);
    } else {
      SettledGrows(t[i], t[i + 1], id);
    }
  }

  lemma SomeoneMissing(all: set<NodeId>, n: NodeId, some: set<NodeId>) returns (m: NodeId)
    requires n in all && some <= all - {n} && |some| < |all| - 1
    ensures m in all && m != n && m !in some
  {
    var others := all - {n};
    var missing := others - some;
    assert some + missing == others;
    assert |some + missing| == |some| + |missing|;
    m :| m in missing;
  }

  lemma PendingLacks(c: Cluster, n: NodeId, id: Id)
    requires Books(c) && id in c.issued && Req(c, id).uid == n && Waits(Req(c, id).body) && !IsSettled(c, id)
    ensures Counted(Req(c, id).body) ==> exists m :: m in c.members && m != n && m !in HeardFrom(c, n, id)
    ensures IsOne(Req(c, id).body) ==> HeardIdx(c, n, id) == {}
  {
    assert id in c.members[n].node.requests;
    var entry := c.members[n].node.requests[id];
    assert CountOk(c, n, id, entry) && KindOk(Req(c, id).body, entry);
    if Counted(Req(c, id).body) {
      HeardAreOthers(c, n, id);
      assert |c.members.Keys| == |c.members|;
      var m := SomeoneMissing(c.members.Keys, n, HeardFrom(c, n, id));
    }
  }

  /**
   What an unsettled request is waiting for: a gather or an emit, the response of at least
   one other node; an operation on one socket, any response at all. So once the responses of
   all have been heard it is settled.
   */
  lemma UnsettledLacksResponse(t: seq<Cluster>, es: seq<Event>, i: nat, id: Id)
    requires Run(t, es) && i < |t| && Shape(t[i]) && id in t[i].issued && !IsSettled(t[i], id)
    ensures Counted(Req(t[i], id).body) ==>
              exists m :: m in t[i].members && m != Req(t[i], id).uid && m !in HeardFrom(t[i], Req(t[i], id).uid, id)
    ensures IsOne(Req(t[i], id).body) ==> HeardIdx(t[i], Req(t[i], id).uid, id) == {}
  {
    BooksAlways(t, es, i);
    if Waits(Req(t[i], id).body) {
      PendingLacks(t[i], Req(t[i], id).uid, id);
    }
  }

  // ----- Where a response was born -----

  ghost predicate Born(t: seq<Cluster>, b: nat, j: nat) {
    b + 1 < |t| && |t[b].sent| <= j < |t[b + 1].sent|
  }

  lemma {:induction false} BirthStep(t: seq<Cluster>, es: seq<Event>, i: nat, j: nat) returns (b: nat)
    requires Run(t, es) && i < |t| && j < |t[i].sent|
    ensures b < i && Born(t, b, j)
    decreases i
  {
    if i > 0 && j < |t[i - 1].sent| {
      b := BirthStep(t, es, i - 1, j);
    } else {
      b := i - 1;
    }
  }

  /** Node `m` consumed the gather `id` at step `b` and reported `answer`, a snapshot of its sockets then. */
  ghost predicate SnapshotAt(t: seq<Cluster>, es: seq<Event>, b: nat, m: NodeId, id: Id, body: Body, answer: Answer) {
    && b < |es| && b < |t| && m in t[b].members && IssuedOk(t[b]) && id in t[b].issued
    && es[b] == Consume(m, answer)
    && t[b].members[m].seen == t[b].issued[id]
    && Req(t[b], id).body == body && IsGather(body)
    && IsSnapshot(body, t[b].members[m].node.shard, answer)
  }

  /** Only three kinds of step publish responses. */
  lemma WhoPublishes(c: Cluster, e: Event)
    requires Mail(c) && Enabled(c, e)
    ensures e.Consume? || e.Callback? || e.SocketAck? || Next(c, e).sent == c.sent
  {
    if IsCall(e) { CallSummary(c, e); }
    else if e.Deliver? { DeliverReceives(c, e.n, e.j); }
    else if e.Timeout? { TimeoutTurn(c, e.n, e.id); }
    else if e.Broadcast? { BroadcastSummary(c, e.n, e.id, e.opts); }
  }

  /** The step that publishes an answer is the one that consumes its request. */
  lemma AnswerBorn(c: Cluster, e: Event, j: nat)
    requires Mail(c) && Enabled(c, e)
    requires |c.sent| <= j < |Next(c, e).sent| && Next(c, e).sent[j].response.payload.Answered?
    ensures var r := Next(c, e).sent[j];
            && e == Consume(r.from, r.response.payload.answer)
            && r.from in c.members && r.response.id in c.issued
            && c.members[r.from].seen == c.issued[r.response.id]
            && IsGather(Req(c, r.response.id).body)
  {
    WhoPublishes(c, e);
    if e.Consume? { ConsumeSummary(c, e.n, e.answer); }
  }

  lemma AnswerBornAt(t: seq<Cluster>, es: seq<Event>, b: nat, j: nat)
    requires Run(t, es) && Born(t, b, j) && t[b + 1].sent[j].response.payload.Answered?
    ensures var r := t[b + 1].sent[j];
            && Shape(t[b]) && r.response.id in t[b].issued
            && SnapshotAt(t, es, b, r.from, r.response.id, Req(t[b], r.response.id).body, r.response.payload.answer)
  {
    MailAlways(t, es, b);
    assert Stepped(t, es, b);
    AnswerBorn(t[b], es[b], j);
  }

  /** Every answer in flight is a snapshot its sender took when it consumed the request. */
  lemma AnswerIsSnapshot(t: seq<Cluster>, es: seq<Event>, i: nat, j: nat) returns (b: nat)
    requires Run(t, es) && i < |t| && j < |t[i].sent| && t[i].sent[j].response.payload.Answered?
    ensures b < i && Mail(t[i]) && t[i].sent[j].response.id in t[i].issued
    ensures var e := t[i].sent[j];
            SnapshotAt(t, es, b, e.from, e.response.id, Req(t[i], e.response.id).body, e.response.payload.answer)
  {
    b := BirthStep(t, es, i, j);
    MailAlways(t, es, b);
    MailAlways(t, es, i);
    RunAdds(t, es, b + 1, i);
    RunAdds(t, es, b, i);
    assert t[b + 1].sent[j] == t[i].sent[j];
    assert EnvelopeOk(t[i], t[i].sent[j]);
    AnswerBornAt(t, es, b, j);
    ReqStays(t[b], t[i], t[i].sent[j].response.id);
  }

  lemma SeenMovesOn(t: seq<Cluster>, es: seq<Event>, a: nat, b: nat, m: NodeId, id: Id, body: Body, x: Answer)
    requires Run(t, es) && SnapshotAt(t, es, a, m, id, body, x) && a < b < |t|
    ensures m in t[b].members && id in t[b].issued && t[b].members[m].seen > t[b].issued[id]
  {
    assert Stepped(t, es, a);
    ConsumeTurn(t[a], m, x);
    RunAdds(t, es, a, a + 1);
    RunAdds(t, es, a + 1, b);
  }

  /** A node consumes a request once, so it takes one snapshot for it. */
  lemma OneSnapshot(t: seq<Cluster>, es: seq<Event>, a: nat, b: nat, m: NodeId, id: Id, body: Body, x: Answer, y: Answer)
    requires Run(t, es) && SnapshotAt(t, es, a, m, id, body, x) && SnapshotAt(t, es, b, m, id, body, y)
    ensures a == b && x == y
  {
    if a < b { SeenMovesOn(t, es, a, b, m, id, body, x); }
    else if b < a { SeenMovesOn(t, es, b, a, m, id, body, y); }
  }

  // ----- Gathers are complete -----

  /** The caller took `local`, a snapshot of its own sockets, at step `a`. */
  ghost predicate CalledAt(t: seq<Cluster>, es: seq<Event>, a: nat, id: Id, n: NodeId, body: Body, local: Answer) {
    && a < |es| && a < |t| && es[a] == Begin(n, id, body, local)
    && n in t[a].members && IsGather(body) && IsSnapshot(body, t[a].members[n].node.shard, local)
  }

  lemma CallBorn(c: Cluster, e: Event, id: Id)
    requires Mail(c) && Enabled(c, e) && id !in c.calls && id in Next(c, e).calls
    ensures e.Begin? && e.id == id && Next(c, e).calls[id] == Call(e.n, e.body, e.answer)
  {
    if IsCall(e) { CallSummary(c, e); }
    else if e.Consume? { ConsumeTurn(c, e.n, e.answer); }
    else if e.Deliver? { DeliverReceives(c, e.n, e.j); }
    else if e.Timeout? { TimeoutTurn(c, e.n, e.id); }
    else if e.Broadcast? { BroadcastSummary(c, e.n, e.id, e.opts); }
    else if IsSmall(e) { SmallTurn(c, e); }
  }

  lemma CallBornAt(t: seq<Cluster>, es: seq<Event>, i: nat, id: Id)
    requires Run(t, es) && i < |es| && id !in t[i].calls && id in t[i + 1].calls
    ensures var call := t[i + 1].calls[id]; CalledAt(t, es, i, id, call.node, call.body, call.answer)
  {
    MailAlways(t, es, i);
    assert Stepped(t, es, i);
    CallBorn(t[i], es[i], id);
  }

  lemma {:induction false} CallStep(t: seq<Cluster>, es: seq<Event>, i: nat, id: Id) returns (a: nat)
    requires Run(t, es) && i < |t| && id in t[i].calls
    ensures a < i && var call := t[i].calls[id]; CalledAt(t, es, a, id, call.node, call.body, call.answer)
    decreases i
  {
    if i > 0 {
      if id in t[i - 1].calls {
        a := CallStep(t, es, i - 1, id);
        StepAddsAt(t, es, i - 1);
      } else {
        a := i - 1;
        CallBornAt(t, es, i - 1, id);
      }
    }
  }

  ghost function AllItems(parts: map<NodeId, Answer>): set<Item> {
    set m, x | m in parts && x in Items(parts[m]) :: x
  }

  /** One snapshot from each node in `parts`, all taken before step `i`. */
  ghost predicate Snapshots(t: seq<Cluster>, es: seq<Event>, i: nat, id: Id, body: Body, parts: map<NodeId, Answer>) {
    forall m | m in parts :: exists b: nat :: b < i && SnapshotAt(t, es, b, m, id, body, parts[m])
  }

  ghost predicate GatherIsComplete(t: seq<Cluster>, es: seq<Event>, i: nat, id: Id, answer: Answer,
                                   a: nat, parts: map<NodeId, Answer>)
    requires i < |t|
  {
    && id in t[i].calls
    && var call := t[i].calls[id];
       && a < i && CalledAt(t, es, a, id, call.node, call.body, call.answer)
       && parts.Keys == t[i].members.Keys - {call.node}
       && Snapshots(t, es, i, id, call.body, parts)
       && SameKind(answer, call.answer) && Items(answer) == Items(call.answer) + AllItems(parts)
       && (answer.SocketArray? ==> DistinctSids(answer.sockets))
  }

  ghost predicate IsPart(c: Cluster, id: Id, m: NodeId, part: Answer) {
    exists j :: 0 <= j < |c.sent| && c.sent[j].from == m && c.sent[j].response == Response(id, Answered(part))
  }

  ghost function PartOf(c: Cluster, id: Id, m: NodeId): (part: Answer)
    requires HasAnswered(c, id, m)
    requires forall j | 0 <= j < |c.sent| && c.sent[j].response.id == id :: c.sent[j].response.payload.Answered?
    ensures IsPart(c, id, m, part)
  {
    var j :| 0 <= j < |c.sent| && c.sent[j].response.id == id && c.sent[j].from == m;
    c.sent[j].response.payload.answer
  }

  /** The answer each other node gave, read off the responses. */
  ghost function PartsOf(c: Cluster, id: Id, n: NodeId): (parts: map<NodeId, Answer>)
    requires forall m | m in c.members && m != n :: HasAnswered(c, id, m)
    requires forall j | 0 <= j < |c.sent| && c.sent[j].response.id == id :: c.sent[j].response.payload.Answered?
    ensures parts.Keys == c.members.Keys - {n}
    ensures forall m | m in parts :: IsPart(c, id, m, parts[m])
  {
    map m | m in c.members && m != n :: PartOf(c, id, m)
  }

  /** There is one answer from each node, so the part of a node is that answer. */
  lemma PartIsAnswer(c: Cluster, id: Id, j: nat, part: Answer)
    requires Mail(c) && j < |c.sent| && c.sent[j].response.id == id && c.sent[j].response.payload.Answered?
    requires IsPart(c, id, c.sent[j].from, part)
    ensures part == c.sent[j].response.payload.answer
  {
    var m := c.sent[j].from;
    var k :| 0 <= k < |c.sent| && c.sent[k].from == m && c.sent[k].response == Response(id, Answered(part));
    FromOnce(c, j, k);
  }

  lemma PartItemIsOther(c: Cluster, id: Id, n: NodeId, m: NodeId, part: Answer, x: Item)
    requires IsPart(c, id, m, part) && m != n && x in Items(part)
    ensures x in OtherItems(c, n, id)
  {
    var k :| 0 <= k < |c.sent| && c.sent[k].from == m && c.sent[k].response == Response(id, Answered(part));
    assert x in AnswerItems(c.sent[k]) && c.sent[k].response.id == id;
  }

  lemma OtherItemInParts(c: Cluster, id: Id, n: NodeId, x: Item)
    requires Mail(c) && x in OtherItems(c, n, id)
    requires forall m | m in c.members && m != n :: HasAnswered(c, id, m)
    requires forall j | 0 <= j < |c.sent| && c.sent[j].response.id == id :: c.sent[j].response.payload.Answered?
    ensures x in AllItems(PartsOf(c, id, n))
  {
    var parts := PartsOf(c, id, n);
    var j :| 0 <= j < |c.sent| && c.sent[j].response.id == id && c.sent[j].from != n && x in AnswerItems(c.sent[j]);
    var m := c.sent[j].from;
    assert EnvelopeOk(c, c.sent[j]);
    PartIsAnswer(c, id, j, parts[m]);
  }

  lemma PartsAreAll(c: Cluster, id: Id, n: NodeId)
    requires Mail(c) && id in c.issued && IsGather(Req(c, id).body)
    requires forall m | m in c.members && m != n :: HasAnswered(c, id, m)
    requires forall j | 0 <= j < |c.sent| && c.sent[j].response.id == id :: c.sent[j].response.payload.Answered?
    ensures OtherItems(c, n, id) == AllItems(PartsOf(c, id, n))
  {
    var parts := PartsOf(c, id, n);
    forall x | x in OtherItems(c, n, id) ensures x in AllItems(parts) {
      OtherItemInParts(c, id, n, x);
    }
    forall x | x in AllItems(parts) ensures x in OtherItems(c, n, id) {
      var m :| m in parts && x in Items(parts[m]);
      PartItemIsOther(c, id, n, m, parts[m], x);
    }
  }

  lemma LoneNode(c: Cluster, n: NodeId)
    requires |c.members| <= 1 && n in c.members
    ensures c.members.Keys - {n} == {}
  {
    assert |c.members.Keys - {n}| == |c.members.Keys| - 1;
  }

  /** A right result is the local answer joined with one published answer of each other node. */
  lemma GatheredParts(c: Cluster, id: Id, answer: Answer) returns (parts: map<NodeId, Answer>)
    requires Mail(c) && GatherResult(c, id, answer)
    ensures id in c.calls && parts.Keys == c.members.Keys - {c.calls[id].node}
    ensures forall m | m in parts :: IsPart(c, id, m, parts[m])
    ensures SameKind(answer, c.calls[id].answer)
    ensures Items(answer) == Items(c.calls[id].answer) + AllItems(parts)
    ensures answer.SocketArray? ==> DistinctSids(answer.sockets)
  {
    var n := c.calls[id].node;
    if id in c.issued {
      forall j | 0 <= j < |c.sent| && c.sent[j].response.id == id ensures c.sent[j].response.payload.Answered? {
        assert EnvelopeOk(c, c.sent[j]);
      }
      parts := PartsOf(c, id, n);
      PartsAreAll(c, id, n);
    } else {
      parts := map[];
      LoneNode(c, n);
      assert GoodAnswer(c.calls[id].body, answer, n);
      assert AllItems(parts) == {};
    }
  }

  lemma PartsAreSnapshots(t: seq<Cluster>, es: seq<Event>, i: nat, id: Id, parts: map<NodeId, Answer>)
    requires Run(t, es) && i < |t| && id in t[i].calls
    requires forall m | m in parts :: IsPart(t[i], id, m, parts[m])
    ensures Snapshots(t, es, i, id, t[i].calls[id].body, parts)
  {
    var body := t[i].calls[id].body;
    forall m | m in parts ensures exists b: nat :: b < i && SnapshotAt(t, es, b, m, id, body, parts[m]) {
      assert IsPart(t[i], id, m, parts[m]);
      var j :| 0 <= j < |t[i].sent| && t[i].sent[j].from == m &&
               t[i].sent[j].response == Response(id, Answered(parts[m]));
      var b := AnswerIsSnapshot(t, es, i, j);
    }
  }

  /**
   Gather completeness. Whenever `sockets`, `allRooms` or `fetchSockets` has resolved in a
   run, its value is the caller's own snapshot together with exactly one snapshot of every
   other node, each taken when that node consumed the request, and an array lists no socket
   twice: whichever channel the responses took, whenever they and the caller's own copy of
   the request arrived, and whatever else happened.
   */
  lemma GatherComplete(t: seq<Cluster>, es: seq<Event>, i: nat, s: nat)
    returns (a: nat, parts: map<NodeId, Answer>)
    requires Run(t, es) && i < |t| && s < |t[i].settled| && t[i].settled[s].result.Gathered?
    ensures GatherIsComplete(t, es, i, t[i].settled[s].id, t[i].settled[s].result.answer, a, parts)
    ensures var id := t[i].settled[s].id;
            forall m, b, x | m in parts && SnapshotAt(t, es, b, m, id, t[i].calls[id].body, x) :: x == parts[m]
  {
    var c := t[i];
    var id := c.settled[s].id;
    BooksAlways(t, es, i);
    assert ResultOk(c, c.settled[s]);
    a := CallStep(t, es, i, id);
    parts := GatheredParts(c, id, c.settled[s].result.answer);
    PartsAreSnapshots(t, es, i, id, parts);
    var body := c.calls[id].body;
    forall m, b, x | m in parts && SnapshotAt(t, es, b, m, id, body, x) ensures x == parts[m] {
      var b': nat :| b' < i && SnapshotAt(t, es, b', m, id, body, parts[m]);
      OneSnapshot(t, es, b, b', m, id, body, x, parts[m]);
    }
  }
}
