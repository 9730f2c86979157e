/**
 What moves the sockets of a node in a run: a local change, an operation of its own on a socket
 it holds, or a message it reads, and by how much.
 */
module ShardMoves {
  import opened Option
  import opened RoomNames
  import opened Shards
  import opened AdapterNode
  import opened RequestEffects
  import opened Cluster
  import opened ClusterInvariants
  import opened ClusterLedger
  import opened ClusterMail
  import opened ClusterTheorems
  import opened DeleteFetch

  /** Reading a message, a node does to its sockets what the message asks. */
  lemma ReadObeys(t: seq<Cluster>, es: seq<Event>, x: nat, m: NodeId, k: nat)
    requires Run(t, es) && Reads(t, es, x, m, k)
    ensures m in t[x + 1].members
    ensures Obeys(t[x].log[k].body, t[x].members[m].node.shard, t[x + 1].members[m].node.shard)
  {
    ReadApplies(t, es, x, m, k);
    EffectObeys(t[x].log[k].body, t[x].members[m].node.shard);
  }

  /**
   A command, to every node: published at step `p`, it has been obeyed, once, by each node that is
   past its place in the log, at the step at which that node read it.
   */
  lemma CommandObeyed(t: seq<Cluster>, es: seq<Event>, p: nat, i: nat, m: NodeId) returns (x: nat)
    requires Run(t, es) && p < |es| && es[p].Command? && p < i < |t|
    requires m in t[i].members && t[i].members[m].seen > |t[p].log|
    ensures p < x < i && Reads(t, es, x, m, |t[p].log|) && m in t[x + 1].members
    ensures Obeys(es[p].body, t[x].members[m].node.shard, t[x + 1].members[m].node.shard)
    ensures forall y: nat | Reads(t, es, y, m, |t[p].log|) :: y == x
  {
    x := ConsumedBefore(t, es, i, m, |t[p].log|);
    LogReached(t, es, x, p);
    CommandIsLogged(t, es, p, x);
    ReadObeys(t, es, x, m, |t[p].log|);
    forall y: nat | Reads(t, es, y, m, |t[p].log|) ensures y == x {
      if x < y { ReadIsPast(t, es, x, m, |t[p].log|, y); }
      else if y < x { ReadIsPast(t, es, y, m, |t[p].log|, x); }
    }
  }

  /** What step `e` does to the sockets of node `m`. */
  ghost predicate Moves(c: Cluster, e: Event, d: Cluster, m: NodeId)
    requires m in c.members && m in d.members
  {
    var before, after := c.members[m].node.shard, d.members[m].node.shard;
    if e.Consume? && e.n == m && c.members[m].seen < |c.log| then Obeys(c.log[c.members[m].seen].body, before, after)
    else if e.One? && e.n == m && IsOne(e.body) && e.body.sid in before then Obeys(e.body, before, after)
    else if e.Local? && e.n == m then after == e.shard
    else after == before
  }

  lemma ConsumeMoves(c: Cluster, n: NodeId, answer: Answer, m: NodeId)
    requires Shape(c) && Enabled(c, Consume(n, answer)) && m in c.members
    ensures m in Next(c, Consume(n, answer)).members && Moves(c, Consume(n, answer), Next(c, Consume(n, answer)), m)
  {
    ConsumeTurn(c, n, answer);
    EffectObeys(c.log[c.members[n].seen].body, c.members[n].node.shard);
  }

  lemma OneMoves(c: Cluster, n: NodeId, id: Id, body: Body, m: NodeId)
    requires Enabled(c, One(n, id, body)) && m in c.members
    ensures m in Next(c, One(n, id, body)).members && Moves(c, One(n, id, body), Next(c, One(n, id, body)), m)
  {
    EffectObeys(body, c.members[n].node.shard);
  }

  lemma IssueMoves(c: Cluster, id: Id, m: NodeId)
    requires Enabled(c, Issue(id)) && m in c.members
    ensures m in Next(c, Issue(id)).members && Moves(c, Issue(id), Next(c, Issue(id)), m)
  {
  }

  lemma EmitMoves(c: Cluster, n: NodeId, id: Id, m: NodeId)
    requires Enabled(c, Emit(n, id)) && m in c.members
    ensures m in Next(c, Emit(n, id)).members && Moves(c, Emit(n, id), Next(c, Emit(n, id)), m)
  {
  }

  lemma StepMoves(c: Cluster, e: Event, m: NodeId)
    requires Shape(c) && Enabled(c, e) && m in c.members
    ensures m in Next(c, e).members && Moves(c, e, Next(c, e), m)
  {
    if e.One? { OneMoves(c, e.n, e.id, e.body, m); }
    else if e.Issue? { IssueMoves(c, e.id, m); }
    else if e.Emit? { EmitMoves(c, e.n, e.id, m); }
    else if e.Consume? { ConsumeMoves(c, e.n, e.answer, m); }
    else if e.Deliver? { DeliverTurn(c, e.n, e.j); }
    else if e.Timeout? { TimeoutTurn(c, e.n, e.id); }
    else if e.Broadcast? { BroadcastSummary(c, e.n, e.id, e.opts); }
    else if IsSmall(e) { SmallTurn(c, e); }
  }

  /** In every run, at every step, the sockets of a node move in these ways only. */
  lemma MovesAlways(t: seq<Cluster>, es: seq<Event>, i: nat, m: NodeId)
    requires Run(t, es) && i < |es| && m in t[i].members
    ensures m in t[i + 1].members && Moves(t[i], es[i], t[i + 1], m)
  {
    MailAlways(t, es, i);
    assert Stepped(t, es, i);
    StepMoves(t[i], es[i], m);
  }
}
