/** What the other settled calls mean: remote operations on one socket, and server-side emits. */
module ClusterOutcomes {
  import opened Option
  import opened RoomNames
  import opened Shards
  import opened AdapterNode
  import opened RequestEffects
  import opened Cluster
  import opened ClusterInvariants
  import opened ClusterLedger
  import opened ClusterMail
  import opened Gathers
  import opened ClusterTheorems

  // ----- remoteJoin, remoteLeave, remoteDisconnect -----

  /**
   Step `b` applies the operation for call `id`, on the node that holds the socket: it is the
   call itself, made there, or the reading of the call's own request.
   */
  ghost predicate Applies(t: seq<Cluster>, es: seq<Event>, b: nat, id: Id, body: Body)
    requires IsOne(body)
  {
    var m := body.sid.home;
    && b < |es| && b + 1 < |t| && m in t[b].members && m in t[b + 1].members
    && body.sid in t[b].members[m].node.shard
    && Obeys(body, t[b].members[m].node.shard, t[b + 1].members[m].node.shard)
    && (es[b] == One(m, id, body) ||
        (IssuedOk(t[b]) && id in t[b].issued && Reads(t, es, b, m, t[b].issued[id])))
  }

  lemma DoneBorn(c: Cluster, e: Event, j: nat)
    requires Mail(c) && Enabled(c, e)
    requires |c.sent| <= j < |Next(c, e).sent| && Next(c, e).sent[j].response.payload.Done?
    ensures var r := Next(c, e).sent[j];
            && e.Consume? && e.n == r.from && r.from in c.members && r.response.id in c.issued
            && c.members[r.from].seen == c.issued[r.response.id]
            && IsOne(Req(c, r.response.id).body)
            && Req(c, r.response.id).body.sid in c.members[r.from].node.shard
  {
    WhoPublishes(c, e);
    if e.Consume? { ConsumeSummary(c, e.n, e.answer); }
  }

  lemma DoneBornAt(t: seq<Cluster>, es: seq<Event>, b: nat, j: nat)
    requires Run(t, es) && Born(t, b, j) && t[b + 1].sent[j].response.payload.Done?
    ensures var r := t[b + 1].sent[j];
            && Shape(t[b]) && r.response.id in t[b].issued && IsOne(Req(t[b], r.response.id).body)
            && r.from == Req(t[b], r.response.id).body.sid.home
            && Applies(t, es, b, r.response.id, Req(t[b], r.response.id).body)
  {
    MailAlways(t, es, b);
    assert Stepped(t, es, b);
    DoneBorn(t[b], es[b], j);
    var r := t[b + 1].sent[j];
    ConsumeTurn(t[b], es[b].n, es[b].answer);
    EffectObeys(Req(t[b], r.response.id).body, t[b].members[r.from].node.shard);
  }

  /** A reply to a remote operation comes from the socket's node, which applied it on reading the request. */
  lemma DoneMeansApplied(t: seq<Cluster>, es: seq<Event>, i: nat, j: nat) returns (b: nat)
    requires Run(t, es) && i < |t| && j < |t[i].sent| && t[i].sent[j].response.payload.Done?
    ensures b < i && Mail(t[i]) && t[i].sent[j].response.id in t[i].issued
    ensures b < |t| && t[i].sent[j].response.id in t[b].issued
    ensures var id := t[i].sent[j].response.id;
            var body := Req(t[i], id).body;
            IsOne(body) && t[i].sent[j].from == body.sid.home && Applies(t, es, b, id, body)
  {
    b := BirthStep(t, es, i, j);
    MailAlways(t, es, i);
    RunAdds(t, es, b + 1, i);
    RunAdds(t, es, b, i);
    assert t[b + 1].sent[j] == t[i].sent[j];
    assert EnvelopeOk(t[i], t[i].sent[j]);
    DoneBornAt(t, es, b, j);
    ReqStays(t[b], t[i], t[i].sent[j].response.id);
  }

  lemma OneAtOnce(c: Cluster, e: Event)
    requires Shape(c) && e.One? && Enabled(c, e) && AtOnce(c, e)
    ensures e.body.sid.home == e.n && e.n in c.members && e.body.sid in c.members[e.n].node.shard
    ensures e.n in Next(c, e).members
    ensures Obeys(e.body, c.members[e.n].node.shard, Next(c, e).members[e.n].node.shard)
  {
    EffectObeys(e.body, c.members[e.n].node.shard);
  }

  /** The call itself: the request goes out, or the caller applies the operation and it is settled. */
  lemma OneStarts(t: seq<Cluster>, es: seq<Event>, a: nat)
    requires Run(t, es) && a < |es| && es[a].One?
    ensures IsOne(es[a].body) && Shape(t[a]) && Shape(t[a + 1]) && es[a].id !in t[a].issued
    ensures es[a].id in t[a + 1].issued ==> Req(t[a + 1], es[a].id).body == es[a].body
    ensures es[a].id !in t[a + 1].issued ==>
              Applies(t, es, a, es[a].id, es[a].body) &&
              t[a + 1].settled == t[a].settled + [Settlement(es[a].id, Completed)]
  {
    MailAlways(t, es, a);
    MailAlways(t, es, a + 1);
    assert Stepped(t, es, a);
    CallSummary(t[a], es[a]);
    CallFresh(t[a], es[a]);
    if AtOnce(t[a], es[a]) { OneAtOnce(t[a], es[a]); }
  }

  lemma UnissuedStep(t: seq<Cluster>, es: seq<Event>, i: nat, s: nat)
    requires Run(t, es) && i < |es| && s < |t[i].settled| && t[i].settled[s].id !in t[i].issued
    ensures t[i].settled[s].id !in t[i + 1].issued
  {
    MailAlways(t, es, i);
    assert Stepped(t, es, i);
    SettledStaysUnissued(t[i], es[i], s);
  }

  lemma {:induction false} AtOnceNeverIssued(t: seq<Cluster>, es: seq<Event>, a: nat, i: nat)
    requires Run(t, es) && a < i < |t| && es[a].One? && es[a].id !in t[a + 1].issued
    ensures es[a].id !in t[i].issued
    decreases i
  {
    OneStarts(t, es, a);
    if i > a + 1 {
      AtOnceNeverIssued(t, es, a, i - 1);
      RunAdds(t, es, a + 1, i - 1);
      UnissuedStep(t, es, i - 1, |t[a].settled|);
    }
  }

  /** After the call, the request is out, unless the caller held the socket and applied it itself. */
  lemma OneCalled(t: seq<Cluster>, es: seq<Event>, a: nat, i: nat)
    requires Run(t, es) && a < i < |t| && es[a].One?
    ensures Mail(t[i]) && IsOne(es[a].body)
    ensures es[a].id in t[i].issued ==> Req(t[i], es[a].id).body == es[a].body
    ensures es[a].id !in t[i].issued ==>
              Applies(t, es, a, es[a].id, es[a].body) &&
              exists s :: 0 <= s < |t[i].settled| && t[i].settled[s] == Settlement(es[a].id, Completed)
  {
    var id := es[a].id;
    MailAlways(t, es, a + 1);
    MailAlways(t, es, i);
    OneStarts(t, es, a);
    RunAdds(t, es, a + 1, i);
    if id in t[a + 1].issued {
      ReqStays(t[a + 1], t[i], id);
    } else {
      assert t[i].settled[|t[a].settled|] == Settlement(id, Completed);
      AtOnceNeverIssued(t, es, a, i);
    }
  }

  /** A state in which the request is out lies after the call. */
  lemma IssuedAfterCall(t: seq<Cluster>, es: seq<Event>, a: nat, b: nat)
    requires Run(t, es) && a < |es| && es[a].One? && b < |t| && es[a].id in t[b].issued
    ensures a < b
  {
    OneStarts(t, es, a);
    if b <= a { RunAdds(t, es, b, a); }
  }

  lemma CompletedApplied(t: seq<Cluster>, es: seq<Event>, a: nat, i: nat) returns (b: nat)
    requires Run(t, es) && a < i < |t| && es[a].One? && IsOne(es[a].body) && Mail(t[i])
    requires es[a].id in t[i].issued && Req(t[i], es[a].id).body == es[a].body
    requires exists m :: HasAnswered(t[i], es[a].id, m)
    ensures a <= b < i && Applies(t, es, b, es[a].id, es[a].body)
  {
    var id := es[a].id;
    var m :| HasAnswered(t[i], id, m);
    var j :| 0 <= j < |t[i].sent| && t[i].sent[j].response.id == id && t[i].sent[j].from == m;
    assert EnvelopeOk(t[i], t[i].sent[j]);
    b := DoneMeansApplied(t, es, i, j);
    IssuedAfterCall(t, es, a, b);
  }

  /**
   `remoteJoin`, `remoteLeave` and `remoteDisconnect` resolve only once the node holding the
   socket has applied this very operation, so that the socket is in the room, or out of it, or
   gone, and nothing else of that node's sockets has changed: at the call, if that node made it,
   and otherwise on reading the call's request. Failing that, only the timer can settle them, by rejecting.
   */
  lemma RemoteResolvesApplied(t: seq<Cluster>, es: seq<Event>, a: nat, i: nat, s: nat)
    requires Run(t, es) && a < i < |t| && es[a].One?
    requires s < |t[i].settled| && t[i].settled[s].id == es[a].id
    ensures IsOne(es[a].body)
    ensures t[i].settled[s].result == Rejected ||
            (t[i].settled[s].result == Completed &&
             exists b :: a <= b < i && Applies(t, es, b, es[a].id, es[a].body))
  {
    var id := es[a].id;
    OneCalled(t, es, a, i);
    BooksAlways(t, es, i);
    assert ResultOk(t[i], t[i].settled[s]);
    if id in t[i].issued {
      if t[i].settled[s].result.Completed? {
        var b := CompletedApplied(t, es, a, i);
      }
    } else {
      var r :| 0 <= r < |t[i].settled| && t[i].settled[r] == Settlement(id, Completed);
      assert r == s;
    }
  }

  /** If no node ever holds the socket, the call can only be rejected by its timer. */
  lemma NowhereOnlyTimesOut(t: seq<Cluster>, es: seq<Event>, a: nat, i: nat, s: nat)
    requires Run(t, es) && a < i < |t| && es[a].One? && IsOne(es[a].body)
    requires s < |t[i].settled| && t[i].settled[s].id == es[a].id
    requires forall b, m | 0 <= b < i && m in t[b].members :: es[a].body.sid !in t[b].members[m].node.shard
    ensures t[i].settled[s].result == Rejected
  {
    RemoteResolvesApplied(t, es, a, i, s);
  }

  /** At most one node ever answers a remote operation, and at most once. */
  lemma OneAnswers(t: seq<Cluster>, es: seq<Event>, i: nat, j: nat, k: nat)
    requires Run(t, es) && i < |t| && j < |t[i].sent| && k < |t[i].sent|
    requires t[i].sent[j].response.id == t[i].sent[k].response.id && t[i].sent[j].response.payload.Done?
    ensures j == k
  {
    MailAlways(t, es, i);
    var b := DoneMeansApplied(t, es, i, j);
    assert EnvelopeOk(t[i], t[i].sent[k]);
    var b' := DoneMeansApplied(t, es, i, k);
    FromOnce(t[i], j, k);
  }

  // ----- serverSideEmit with an acknowledgement -----

  /** The application on node `m` answered the emit with `data` at an earlier step. */
  ghost predicate CalledBack(es: seq<Event>, i: nat, m: NodeId, id: Id, data: Option<int>) {
    exists b :: 0 <= b < i && b < |es| && data.Some? && es[b] == Callback(m, id, data.value)
  }

  /** `responses[k]` is what node `from[k]` answered; no node answers twice, the origin never. */
  ghost predicate FromOthers(es: seq<Event>, i: nat, c: Cluster, id: Id, origin: NodeId,
                             from: seq<NodeId>, responses: seq<Option<int>>) {
    && |from| == |responses|
    && (forall k | 0 <= k < |from| ::
          from[k] in c.members && from[k] != origin && CalledBack(es, i, from[k], id, responses[k]))
    && forall k, l | 0 <= k < l < |from| :: from[k] != from[l]
  }

  lemma EmitDataBorn(c: Cluster, e: Event, j: nat)
    requires Mail(c) && Enabled(c, e)
    requires |c.sent| <= j < |Next(c, e).sent| && Next(c, e).sent[j].response.payload.EmitData?
    ensures var r := Next(c, e).sent[j];
            e == Callback(r.from, r.response.id, r.response.payload.data)
  {
    WhoPublishes(c, e);
    if e.Consume? { ConsumeSummary(c, e.n, e.answer); }
  }

  lemma EmitDataBornAt(t: seq<Cluster>, es: seq<Event>, b: nat, j: nat)
    requires Run(t, es) && Born(t, b, j) && t[b + 1].sent[j].response.payload.EmitData?
    ensures var r := t[b + 1].sent[j]; b < |es| && es[b] == Callback(r.from, r.response.id, r.response.payload.data)
  {
    MailAlways(t, es, b);
    assert Stepped(t, es, b);
    EmitDataBorn(t[b], es[b], j);
  }

  lemma EmitDataCalledBack(t: seq<Cluster>, es: seq<Event>, i: nat, j: nat)
    requires Run(t, es) && i < |t| && j < |t[i].sent| && t[i].sent[j].response.payload.EmitData?
    ensures var r := t[i].sent[j]; CalledBack(es, i, r.from, r.response.id, Some(r.response.payload.data))
  {
    var b := BirthStep(t, es, i, j);
    RunAdds(t, es, b + 1, i);
    assert t[b + 1].sent[j] == t[i].sent[j];
    EmitDataBornAt(t, es, b, j);
  }

  lemma SameAnswerer(c: Cluster, j: nat, k: nat)
    requires Mail(c) && j < |c.sent| && k < |c.sent| && c.sent[j].from == c.sent[k].from
    requires c.sent[j].response.id == c.sent[k].response.id
    requires c.sent[j].response.payload.EmitData? && c.sent[k].response.payload.EmitData?
    ensures j == k
  {
    FromOnce(c, j, k);
  }

  lemma AnswerersAre(t: seq<Cluster>, es: seq<Event>, i: nat, id: Id, js: seq<nat>, responses: seq<Option<int>>)
    returns (from: seq<NodeId>)
    requires Run(t, es) && i < |t| && Mail(t[i]) && id in t[i].issued && AnswersOfOthers(t[i], id, js, responses)
    ensures FromOthers(es, i, t[i], id, Req(t[i], id).uid, from, responses)
  {
    var c := t[i];
    from := seq(|js|, k requires 0 <= k < |js| => c.sent[js[k]].from);
    forall k | 0 <= k < |from|
      ensures from[k] in c.members && from[k] != Req(c, id).uid && CalledBack(es, i, from[k], id, responses[k])
    {
      assert EnvelopeOk(c, c.sent[js[k]]);
      EmitDataCalledBack(t, es, i, js[k]);
    }
    forall k, l | 0 <= k < l < |from| ensures from[k] != from[l] {
      if from[k] == from[l] { SameAnswerer(c, js[k], js[l]); }
    }
  }

  ghost function SetOf(from: seq<NodeId>): set<NodeId> {
    set m | m in from
  }

  lemma {:induction false} DistinctSize(from: seq<NodeId>)
    requires forall k, l | 0 <= k < l < |from| :: from[k] != from[l]
    ensures |SetOf(from)| == |from|
  {
    if from == [] {
      assert SetOf(from) == {};
    } else {
      var front := from[..|from| - 1];
      var last := from[|from| - 1];
      DistinctSize(front);
      assert from == front + [last];
      assert SetOf(from) == SetOf(front) + {last};
      assert last !in SetOf(front);
    }
  }

  /** Distinct members of a set, one short of it and avoiding one element, are all the others. */
  lemma DistinctFill(from: seq<NodeId>, all: set<NodeId>, origin: NodeId)
    requires origin in all && |from| == |all| - 1
    requires forall k | 0 <= k < |from| :: from[k] in all && from[k] != origin
    requires forall k, l | 0 <= k < l < |from| :: from[k] != from[l]
    ensures SetOf(from) + {origin} == all
  {
    DistinctSize(from);
    OthersCount(all, origin, SetOf(from));
  }

  lemma {:induction false} SettleStep(t: seq<Cluster>, es: seq<Event>, i: nat, s: nat) returns (b: nat)
    requires Run(t, es) && i < |t| && s < |t[i].settled|
    ensures b < i && |t[b].settled| <= s < |t[b + 1].settled|
    decreases i
  {
    if i > 0 {
      if s < |t[i - 1].settled| { b := SettleStep(t, es, i - 1, s); } else { b := i - 1; }
    }
  }

  /** An id that is settled without a request was settled by its own call. */
  lemma SettledUnissued(c: Cluster, e: Event, s: nat)
    requires Mail(c) && Enabled(c, e) && |c.settled| <= s < |Next(c, e).settled|
    requires Next(c, e).settled[s].id !in c.issued
    ensures IsCall(e) && AtOnce(c, e) && Next(c, e).settled[s] == Settlement(e.id, CallResult(c, e))
  {
    if IsCall(e) { CallSummary(c, e); }
    else if e.Deliver? { DeliverReceives(c, e.n, e.j); }
    else if e.Timeout? { TimeoutReacts(c, e.n, e.id); }
    else { StillHeard(c, e); }
  }

  lemma SettledUnissuedAt(t: seq<Cluster>, es: seq<Event>, b: nat, s: nat)
    requires Run(t, es) && b < |es| && |t[b].settled| <= s < |t[b + 1].settled|
    requires t[b + 1].settled[s].id !in t[b].issued && t[b + 1].settled[s].result.AckedAll?
    ensures es[b].Emit? && es[b].id == t[b + 1].settled[s].id && es[b].n in t[b].members
  {
    MailAlways(t, es, b);
    assert Stepped(t, es, b);
    SettledUnissued(t[b], es[b], s);
  }

  lemma IssuedEmit(t: seq<Cluster>, es: seq<Event>, i: nat, id: Id) returns (a: nat)
    requires Run(t, es) && i < |t| && Shape(t[i]) && id in t[i].issued && Req(t[i], id).body.ServerSideEmit?
    ensures a < i && es[a] == Emit(Req(t[i], id).uid, id) && Req(t[i], id).uid in t[i].members
  {
    a := IssuedAt(t, es, i, id);
  }

  lemma LoneEmit(t: seq<Cluster>, es: seq<Event>, i: nat, s: nat) returns (a: nat)
    requires Run(t, es) && i < |t| && s < |t[i].settled|
    requires t[i].settled[s].id !in t[i].issued && t[i].settled[s].result.AckedAll?
    ensures a < i && es[a].Emit? && es[a].id == t[i].settled[s].id && es[a].n in t[i].members
  {
    a := SettleStep(t, es, i, s);
    RunAdds(t, es, a, i);
    RunAdds(t, es, a + 1, i);
    SettledUnissuedAt(t, es, a, s);
  }

  /** The node that made the emit `id`, at step `a`. */
  lemma EmitOrigin(t: seq<Cluster>, es: seq<Event>, i: nat, s: nat) returns (origin: NodeId, a: nat)
    requires Run(t, es) && i < |t| && s < |t[i].settled| && Shape(t[i]) && ResultOk(t[i], t[i].settled[s])
    requires t[i].settled[s].result.AckedAll? || t[i].settled[s].result.AckedSome?
    ensures a < i && es[a] == Emit(origin, t[i].settled[s].id) && origin in t[i].members
    ensures t[i].settled[s].id in t[i].issued ==> origin == Req(t[i], t[i].settled[s].id).uid
  {
    var id := t[i].settled[s].id;
    if id in t[i].issued {
      origin := Req(t[i], id).uid;
      a := IssuedEmit(t, es, i, id);
    } else {
      a := LoneEmit(t, es, i, s);
      origin := es[a].n;
    }
  }

  /**
   The acknowledgement of a server-side emit, `origin` being the node that made it. Called
   without an error, it gets exactly one response from each other node; called with one,
   strictly fewer, each from a different other node. (That it is called exactly once:
   PendingIffUnsettled and TimerSettles.)
   */
  lemma EmitAcknowledged(t: seq<Cluster>, es: seq<Event>, i: nat, s: nat)
    returns (origin: NodeId, a: nat, from: seq<NodeId>)
    requires Run(t, es) && i < |t| && s < |t[i].settled|
    requires t[i].settled[s].result.AckedAll? || t[i].settled[s].result.AckedSome?
    ensures a < i && es[a] == Emit(origin, t[i].settled[s].id) && origin in t[i].members
    ensures FromOthers(es, i, t[i], t[i].settled[s].id, origin, from, t[i].settled[s].result.responses)
    ensures t[i].settled[s].result.AckedAll? ==>
              |from| == |t[i].members| - 1 && SetOf(from) + {origin} == t[i].members.Keys
    ensures t[i].settled[s].result.AckedSome? ==> |from| < |t[i].members| - 1
  {
    var c := t[i];
    var id := c.settled[s].id;
    BooksAlways(t, es, i);
    assert ResultOk(c, c.settled[s]);
    origin, a := EmitOrigin(t, es, i, s);
    if id in c.issued {
      var js :| AnswersOfOthers(c, id, js, c.settled[s].result.responses);
      from := AnswerersAre(t, es, i, id, js, c.settled[s].result.responses);
    } else {
      from := [];
    }
    if c.settled[s].result.AckedAll? { DistinctFill(from, c.members.Keys, origin); }
  }
}
