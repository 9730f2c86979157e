/**
 The sharded cluster refines one big unsharded adapter.

 Commands reach the nodes through the log and each node applies them at its own pace, while
 it also changes its own sockets locally. All the same, the cluster is always at some point
 of one history of a single adapter: the commands in log order, and between commands `k - 1`
 and `k` the local changes that nodes made after consuming exactly `k` messages.
 */
module Refinement {
  import opened Option
  import opened RoomNames
  import opened Shards
  import opened AdapterNode
  import opened Cluster
  import opened ClusterInvariants
  import opened ClusterLedger
  import opened ClusterMail
  import opened ClusterTheorems
  import opened ClusterOutcomes

  /**
   A local change: node `n` replaced its sockets by `shard`, or applied a remote operation to a
   socket of its own at once.
   */
  datatype Edit = Replace(n: NodeId, shard: Shard) | Apply(n: NodeId, body: Body)

  // ----- The unsharded adapter -----

  /** A local change, made to one adapter holding everyone's sockets. */
  ghost function EditWhole(whole: Shard, edit: Edit): Shard {
    match edit
    case Replace(n, shard) => (map s | s in whole && s.home != n :: whole[s]) + shard
    case Apply(_, body) => Effect(body, whole)
  }

  ghost function EditsWhole(whole: Shard, edits: seq<Edit>): Shard {
    if edits == [] then whole
    else EditWhole(EditsWhole(whole, edits[..|edits| - 1]), edits[|edits| - 1])
  }

  /** The big adapter after `k` messages of the log and the local changes up to there. */
  ghost function Unsharded(whole: Shard, log: seq<Message>, layers: seq<seq<Edit>>, k: nat): Shard
    requires k <= |log| && k < |layers|
  {
    if k == 0 then EditsWhole(whole, layers[0])
    else EditsWhole(Effect(log[k - 1].body, Unsharded(whole, log, layers, k - 1)), layers[k])
  }

  /** All sockets of the cluster, as one shard. */
  ghost function Whole(c: Cluster): Shard {
    map n, s | n in c.members && s in c.members[n].node.shard && s.home == n :: s := c.members[n].node.shard[s]
  }

  // ----- The same history seen by one node -----

  ghost function EditsOf(edits: seq<Edit>, n: NodeId): seq<Edit> {
    if edits == [] then []
    else
      var last := edits[|edits| - 1];
      EditsOf(edits[..|edits| - 1], n) + if last.n == n then [last] else []
  }

  ghost function LayersOf(layers: seq<seq<Edit>>, n: NodeId): seq<Edit> {
    if layers == [] then []
    else LayersOf(layers[..|layers| - 1], n) + EditsOf(layers[|layers| - 1], n)
  }

  /** A local change, made to the sockets of its own node. */
  ghost function EditPart(part: Shard, edit: Edit): Shard {
    match edit
    case Replace(_, shard) => shard
    case Apply(_, body) => Effect(body, part)
  }

  ghost function EditsPart(part: Shard, edits: seq<Edit>): Shard {
    if edits == [] then part else EditPart(EditsPart(part, edits[..|edits| - 1]), edits[|edits| - 1])
  }

  /** Node `n`'s sockets in that history. */
  ghost function NodeView(part: Shard, log: seq<Message>, layers: seq<seq<Edit>>, n: NodeId, k: nat): Shard
    requires k <= |log| && k < |layers|
  {
    if k == 0 then EditsPart(part, EditsOf(layers[0], n))
    else EditsPart(Effect(log[k - 1].body, NodeView(part, log, layers, n, k - 1)), EditsOf(layers[k], n))
  }

  // ----- A command acts on each node's part separately -----

  /** An effect on the whole, restricted to one node, is the effect on that node's part. */
  lemma EffectOnPart(body: Body, whole: Shard, n: NodeId)
    ensures Part(Effect(body, whole), n) == Effect(body, Part(whole, n))
  {
    match body {
      case JoinOne(_, _) =>
      case LeaveOne(_, _) =>
      case DisconnectOne(_) =>
      case JoinAll(_, _) =>
      case LeaveAll(_, _) =>
      case DisconnectAll(_) =>
      case _ =>
    }
  }

  /** A change concerns sockets of its own node only. */
  ghost predicate HomedEdit(edit: Edit) {
    match edit
    case Replace(n, shard) => Homed(shard, n)
    case Apply(n, body) => IsOne(body) && body.sid.home == n
  }

  ghost predicate HomedEdits(edits: seq<Edit>) {
    forall i | 0 <= i < |edits| :: HomedEdit(edits[i])
  }

  lemma EditOnPart(whole: Shard, edit: Edit, n: NodeId)
    requires HomedEdit(edit)
    ensures Part(EditWhole(whole, edit), n) == if edit.n == n then EditPart(Part(whole, n), edit) else Part(whole, n)
  {
    if edit.Apply? { EffectOnPart(edit.body, whole, n); }
  }

  lemma EditsPartMore(part: Shard, edits: seq<Edit>, edit: Edit)
    ensures EditsPart(part, edits + [edit]) == EditPart(EditsPart(part, edits), edit)
  {
    assert (edits + [edit])[..|edits|] == edits;
  }

  lemma {:induction false} EditsOnPart(whole: Shard, edits: seq<Edit>, n: NodeId)
    requires HomedEdits(edits)
    ensures Part(EditsWhole(whole, edits), n) == EditsPart(Part(whole, n), EditsOf(edits, n))
  {
    if edits != [] {
      var front := edits[..|edits| - 1];
      var last := edits[|edits| - 1];
      EditsOnPart(whole, front, n);
      EditOnPart(EditsWhole(whole, front), last, n);
      assert EditsWhole(whole, edits) == EditWhole(EditsWhole(whole, front), last);
      if last.n == n { EditsPartMore(Part(whole, n), EditsOf(front, n), last); }
      else { assert EditsOf(front, n) + [] == EditsOf(front, n); }
    }
  }

  ghost predicate HomedLayers(layers: seq<seq<Edit>>) {
    forall k | 0 <= k < |layers| :: HomedEdits(layers[k])
  }

  /** Each node's view is its part of the big adapter. */
  lemma {:induction false} ViewIsPart(whole: Shard, log: seq<Message>, layers: seq<seq<Edit>>, n: NodeId, k: nat)
    requires k <= |log| && k < |layers| && HomedLayers(layers)
    ensures Part(Unsharded(whole, log, layers, k), n) == NodeView(Part(whole, n), log, layers, n, k)
  {
    if k == 0 {
      EditsOnPart(whole, layers[0], n);
    } else {
      ViewIsPart(whole, log, layers, n, k - 1);
      var before := Unsharded(whole, log, layers, k - 1);
      EffectOnPart(log[k - 1].body, before, n);
      EditsOnPart(Effect(log[k - 1].body, before), layers[k], n);
    }
  }

  // ----- Views under a growing log and one more edit -----

  lemma {:induction false} ViewGrows(part: Shard, log: seq<Message>, layers: seq<seq<Edit>>, n: NodeId, k: nat,
                                     log2: seq<Message>, layers2: seq<seq<Edit>>)
    requires k <= |log| && k < |layers| && k < |layers2| && log <= log2
    requires forall j | 0 <= j <= k :: layers2[j] == layers[j]
    ensures NodeView(part, log2, layers2, n, k) == NodeView(part, log, layers, n, k)
  {
    if k > 0 {
      assert log2[k - 1] == log[k - 1];
      ViewGrows(part, log, layers, n, k - 1, log2, layers2);
    }
  }

  ghost function AddEdit(layers: seq<seq<Edit>>, k: nat, edit: Edit): seq<seq<Edit>>
    requires k < |layers|
  {
    layers[k := layers[k] + [edit]]
  }

  lemma EditsOfMore(edits: seq<Edit>, edit: Edit, n: NodeId)
    ensures EditsOf(edits + [edit], n) == EditsOf(edits, n) + if edit.n == n then [edit] else []
  {
    assert (edits + [edit])[..|edits|] == edits;
  }

  lemma EditsOfAdded(layers: seq<seq<Edit>>, at: nat, edit: Edit, n: NodeId, k: nat)
    requires at < |layers| && k < |layers|
    ensures EditsOf(AddEdit(layers, at, edit)[k], n) ==
              EditsOf(layers[k], n) + if k == at && edit.n == n then [edit] else []
  {
    EditsOfMore(layers[at], edit, n);
  }

  /** Another node's edit is not seen. */
  lemma {:induction false} ViewOfOther(part: Shard, log: seq<Message>, layers: seq<seq<Edit>>, n: NodeId, k: nat,
                                       at: nat, edit: Edit)
    requires k <= |log| && k < |layers| && at < |layers| && edit.n != n
    ensures NodeView(part, log, AddEdit(layers, at, edit), n, k) == NodeView(part, log, layers, n, k)
  {
    EditsOfAdded(layers, at, edit, n, k);
    assert EditsOf(AddEdit(layers, at, edit)[k], n) == EditsOf(layers[k], n);
    if k > 0 { ViewOfOther(part, log, layers, n, k - 1, at, edit); }
  }

  lemma LastLayer(part: Shard, log: seq<Message>, layers: seq<seq<Edit>>, n: NodeId, k: nat, before: Shard)
    requires 0 < k <= |log| && k < |layers|
    requires before == Effect(log[k - 1].body, NodeView(part, log, layers, n, k - 1))
    ensures NodeView(part, log, layers, n, k) == EditsPart(before, EditsOf(layers[k], n))
  {
  }

  lemma OwnEditLast(before: Shard, edits: seq<Edit>, edit: Edit)
    ensures EditsPart(before, EditsOf(edits + [edit], edit.n)) ==
              EditPart(EditsPart(before, EditsOf(edits, edit.n)), edit)
  {
    EditsOfMore(edits, edit, edit.n);
    EditsPartMore(before, EditsOf(edits, edit.n), edit);
  }

  /** A node's own edit at the place it has reached changes its view there. */
  lemma ViewOfOwn(part: Shard, log: seq<Message>, layers: seq<seq<Edit>>, at: nat, edit: Edit)
    requires at <= |log| && at < |layers|
    ensures NodeView(part, log, AddEdit(layers, at, edit), edit.n, at) ==
              EditPart(NodeView(part, log, layers, edit.n, at), edit)
  {
    if at == 0 {
      OwnEditLast(part, layers[0], edit);
    } else {
      var more := AddEdit(layers, at, edit);
      ViewGrows(part, log, layers, edit.n, at - 1, log, more);
      var before := Effect(log[at - 1].body, NodeView(part, log, layers, edit.n, at - 1));
      LastLayer(part, log, layers, edit.n, at, before);
      LastLayer(part, log, more, edit.n, at, before);
      OwnEditLast(before, layers[at], edit);
    }
  }

  lemma LayersLast(layers: seq<seq<Edit>>, front: seq<seq<Edit>>, last: seq<Edit>, n: NodeId)
    requires layers == front + [last]
    ensures LayersOf(layers, n) == LayersOf(front, n) + EditsOf(last, n)
  {
    assert layers[..|layers| - 1] == front;
  }

  lemma LastLayerMore(front: seq<seq<Edit>>, last: seq<Edit>, edit: Edit, n: NodeId)
    ensures LayersOf(AddEdit(front + [last], |front|, edit), n) ==
              LayersOf(front + [last], n) + if edit.n == n then [edit] else []
  {
    EditsOfMore(last, edit, n);
    LayersLast(front + [last], front, last, n);
    LayersLast(AddEdit(front + [last], |front|, edit), front, last + [edit], n);
  }

  lemma AddEditEarlier(front: seq<seq<Edit>>, last: seq<Edit>, at: nat, edit: Edit)
    requires at < |front|
    ensures AddEdit(front + [last], at, edit) == AddEdit(front, at, edit) + [last]
  {
  }

  lemma EditBeforeLast(before: seq<Edit>, last: seq<Edit>, own: seq<Edit>)
    requires last == [] || own == []
    ensures before + own + last == before + last + own
  {
  }

  lemma EarlierLayerMore(front: seq<seq<Edit>>, last: seq<Edit>, at: nat, edit: Edit, n: NodeId)
    requires at < |front| && (edit.n == n ==> EditsOf(last, n) == [])
    requires LayersOf(AddEdit(front, at, edit), n) == LayersOf(front, n) + if edit.n == n then [edit] else []
    ensures LayersOf(AddEdit(front + [last], at, edit), n) ==
              LayersOf(front + [last], n) + if edit.n == n then [edit] else []
  {
    AddEditEarlier(front, last, at, edit);
    LayersLast(front + [last], front, last, n);
    LayersLast(AddEdit(front, at, edit) + [last], AddEdit(front, at, edit), last, n);
    EditBeforeLast(LayersOf(front, n), EditsOf(last, n), if edit.n == n then [edit] else []);
  }

  lemma {:induction false} LayersOfMore(layers: seq<seq<Edit>>, at: nat, edit: Edit, n: NodeId)
    requires at < |layers|
    requires edit.n == n ==> forall k | at < k < |layers| :: EditsOf(layers[k], n) == []
    ensures LayersOf(AddEdit(layers, at, edit), n) ==
              LayersOf(layers, n) + if edit.n == n then [edit] else []
  {
    var front, last := layers[..|layers| - 1], layers[|layers| - 1];
    assert layers == front + [last];
    if at == |front| {
      LastLayerMore(front, last, edit, n);
    } else {
      LayersOfMore(front, at, edit, n);
      EarlierLayerMore(front, last, at, edit, n);
    }
  }

  // ----- The witness -----

  /** A local change to a shard: by the application, or a remote operation on a socket of one's own. */
  ghost predicate IsLocalChange(c: Cluster, e: Event) {
    e.Local? || (e.One? && e.n in c.members && IsOne(e.body) && AtOnce(c, e))
  }

  /** The change a step makes. */
  ghost function EditBy(e: Event): Edit
    requires e.Local? || e.One?
  {
    if e.Local? then Replace(e.n, e.shard) else Apply(e.n, e.body)
  }

  /** A local change, made when its node had consumed `place` messages. */
  datatype Change = Change(place: nat, edit: Edit)

  /** The local changes node `n` made in the first `i` steps of a run, in order. */
  ghost function LocalChanges(t: seq<Cluster>, es: seq<Event>, n: NodeId, i: nat): seq<Change>
    requires Run(t, es) && i < |t|
  {
    if i == 0 then []
    else
      LocalChanges(t, es, n, i - 1) +
      if IsLocalChange(t[i - 1], es[i - 1]) && es[i - 1].n == n && n in t[i - 1].members
      then [Change(t[i - 1].members[n].seen, EditBy(es[i - 1]))] else []
  }

  ghost function Edits(changes: seq<Change>): seq<Edit> {
    if changes == [] then [] else Edits(changes[..|changes| - 1]) + [changes[|changes| - 1].edit]
  }

  /** The changes made at one place. */
  ghost function EditsAt(changes: seq<Change>, k: nat): seq<Edit> {
    if changes == [] then []
    else
      var last := changes[|changes| - 1];
      EditsAt(changes[..|changes| - 1], k) + if last.place == k then [last.edit] else []
  }

  lemma ChangesMore(changes: seq<Change>, change: Change)
    ensures Edits(changes + [change]) == Edits(changes) + [change.edit]
  {
    assert (changes + [change])[..|changes|] == changes;
  }

  lemma ChangesMoreAt(changes: seq<Change>, change: Change, k: nat)
    ensures EditsAt(changes + [change], k) == EditsAt(changes, k) + if change.place == k then [change.edit] else []
  {
    assert (changes + [change])[..|changes|] == changes;
  }

  lemma {:induction false} NoChangeAhead(changes: seq<Change>, k: nat)
    requires forall i | 0 <= i < |changes| :: changes[i].place < k
    ensures EditsAt(changes, k) == []
  {
    if changes != [] { NoChangeAhead(changes[..|changes| - 1], k); }
  }

  lemma AtOnceShards(c: Cluster, e: Event, n: NodeId)
    requires Mail(c) && IsCall(e) && Enabled(c, e) && AtOnce(c, e) && n in c.members
    requires !(e.One? && e.n == n)
    ensures n in Next(c, e).members && Next(c, e).members[n].node.shard == c.members[n].node.shard
  {
  }

  lemma CallShards(c: Cluster, e: Event, n: NodeId)
    requires Mail(c) && IsCall(e) && Enabled(c, e) && n in c.members && !(IsLocalChange(c, e) && e.n == n)
    ensures n in Next(c, e).members && Next(c, e).members[n].node.shard == c.members[n].node.shard
  {
    if AtOnce(c, e) { AtOnceShards(c, e, n); } else { CallSummary(c, e); }
  }

  /** A step other than a consume or a local change keeps every shard. */
  lemma OtherShards(c: Cluster, e: Event, n: NodeId)
    requires Mail(c) && Enabled(c, e) && n in c.members
    requires !(e.Consume? && e.n == n) && !(IsLocalChange(c, e) && e.n == n)
    ensures n in Next(c, e).members && Next(c, e).members[n].node.shard == c.members[n].node.shard
  {
    if IsCall(e) { CallShards(c, e, n); }
    else if e.Consume? { ConsumeTurn(c, e.n, e.answer); }
    else if e.Deliver? { DeliverTurn(c, e.n, e.j); }
    else if e.Timeout? { TimeoutTurn(c, e.n, e.id); }
    else if e.Broadcast? { BroadcastSummary(c, e.n, e.id, e.opts); }
    else if IsSmall(e) { SmallTurn(c, e); }
  }

  lemma LogMoves(c: Cluster, e: Event)
    requires Mail(c) && Enabled(c, e)
    ensures |Next(c, e).log| <= |c.log| + 1
    ensures e.Consume? || IsLocalChange(c, e) ==> Next(c, e).log == c.log
  {
    if IsCall(e) { CallSummary(c, e); }
    else if e.Consume? { ConsumeTurn(c, e.n, e.answer); }
    else if e.Deliver? { DeliverTurn(c, e.n, e.j); }
    else if e.Timeout? { TimeoutTurn(c, e.n, e.id); }
    else if e.Broadcast? { BroadcastSummary(c, e.n, e.id, e.opts); }
    else if IsSmall(e) { SmallTurn(c, e); }
  }

  /** Every layer has exactly the changes node `n` made at its place. */
  ghost predicate Placed(layers: seq<seq<Edit>>, n: NodeId, changes: seq<Change>) {
    forall k: nat | k < |layers| :: EditsOf(layers[k], n) == EditsAt(changes, k)
  }

  /** The layers hold the changes of node `n`, all made at places up to `seen`. */
  ghost predicate Filed(layers: seq<seq<Edit>>, n: NodeId, changes: seq<Change>, seen: nat) {
    && LayersOf(layers, n) == Edits(changes) && Placed(layers, n, changes)
    && (forall j | 0 <= j < |changes| :: changes[j].place <= seen)
    && forall k | seen < k < |layers| :: EditsOf(layers[k], n) == []
  }

  lemma PlacedOwn(layers: seq<seq<Edit>>, n: NodeId, changes: seq<Change>, at: nat, edit: Edit)
    requires Placed(layers, n, changes) && at < |layers| && edit.n == n
    ensures Placed(AddEdit(layers, at, edit), n, changes + [Change(at, edit)])
  {
    forall k: nat | k < |layers|
      ensures EditsOf(AddEdit(layers, at, edit)[k], n) == EditsAt(changes + [Change(at, edit)], k)
    {
      EditsOfAdded(layers, at, edit, n, k);
      ChangesMoreAt(changes, Change(at, edit), k);
      assert EditsOf(layers[k], n) == EditsAt(changes, k);
    }
  }

  lemma LaterStay(layers: seq<seq<Edit>>, n: NodeId, at: nat, edit: Edit)
    requires at < |layers| && forall k | at < k < |layers| :: EditsOf(layers[k], n) == []
    ensures forall k | at < k < |layers| :: EditsOf(AddEdit(layers, at, edit)[k], n) == []
  {
    forall k | at < k < |layers| ensures EditsOf(AddEdit(layers, at, edit)[k], n) == [] {
      assert AddEdit(layers, at, edit)[k] == layers[k];
    }
  }

  lemma FiledOwn(layers: seq<seq<Edit>>, n: NodeId, changes: seq<Change>, at: nat, edit: Edit)
    requires Filed(layers, n, changes, at) && at < |layers| && edit.n == n
    ensures Filed(AddEdit(layers, at, edit), n, changes + [Change(at, edit)], at)
  {
    LayersOfMore(layers, at, edit, n);
    ChangesMore(changes, Change(at, edit));
    PlacedOwn(layers, n, changes, at, edit);
    LaterStay(layers, n, at, edit);
  }

  lemma FiledOther(layers: seq<seq<Edit>>, n: NodeId, changes: seq<Change>, seen: nat, at: nat, edit: Edit)
    requires Filed(layers, n, changes, seen) && at < |layers| && edit.n != n
    ensures Filed(AddEdit(layers, at, edit), n, changes, seen)
  {
    LayersOfMore(layers, at, edit, n);
    forall k: nat | k < |layers| ensures EditsOf(AddEdit(layers, at, edit)[k], n) == EditsOf(layers[k], n) {
      EditsOfAdded(layers, at, edit, n, k);
    }
  }

  lemma FiledMore(layers: seq<seq<Edit>>, n: NodeId, changes: seq<Change>, seen: nat)
    requires Filed(layers, n, changes, seen) && seen < |layers|
    ensures Filed(layers + [[]], n, changes, seen)
  {
    assert (layers + [[]])[..|layers|] == layers;
    NoChangeAhead(changes, |layers|);
    forall k: nat | k < |layers| ensures EditsOf((layers + [[]])[k], n) == EditsAt(changes, k) {
      assert (layers + [[]])[k] == layers[k];
    }
  }

  /** Node `n`, which started with `part` and made `changes`, is where `layers` says. */
  ghost predicate NodeWitness(c: Cluster, n: NodeId, layers: seq<seq<Edit>>, part: Shard, changes: seq<Change>) {
    && |layers| == |c.log| + 1
    && n in c.members && c.members[n].seen <= |c.log|
    && Filed(layers, n, changes, c.members[n].seen)
    && c.members[n].node.shard == NodeView(part, c.log, layers, n, c.members[n].seen)
  }

  /** A local change goes into the layer its node has reached; the other nodes do not notice. */
  lemma WitnessOwn(c: Cluster, d: Cluster, n: NodeId, layers: seq<seq<Edit>>, part: Shard, changes: seq<Change>, edit: Edit)
    requires NodeWitness(c, n, layers, part, changes) && edit.n == n
    requires n in d.members && d.log == c.log && d.members[n].seen == c.members[n].seen
    requires d.members[n].node.shard == EditPart(c.members[n].node.shard, edit)
    ensures NodeWitness(d, n, AddEdit(layers, c.members[n].seen, edit), part,
                        changes + [Change(c.members[n].seen, edit)])
  {
    FiledOwn(layers, n, changes, c.members[n].seen, edit);
    ViewOfOwn(part, c.log, layers, c.members[n].seen, edit);
  }

  lemma WitnessOther(c: Cluster, d: Cluster, n: NodeId, layers: seq<seq<Edit>>, part: Shard, changes: seq<Change>,
                     at: nat, edit: Edit)
    requires NodeWitness(c, n, layers, part, changes) && edit.n != n && at < |layers|
    requires n in d.members && d.log == c.log && d.members[n] == c.members[n]
    ensures NodeWitness(d, n, AddEdit(layers, at, edit), part, changes)
  {
    FiledOther(layers, n, changes, c.members[n].seen, at, edit);
    ViewOfOther(part, c.log, layers, n, c.members[n].seen, at, edit);
  }

  /** Publishing a message opens an empty layer. */
  lemma WitnessPublish(c: Cluster, d: Cluster, n: NodeId, layers: seq<seq<Edit>>, part: Shard, changes: seq<Change>)
    requires NodeWitness(c, n, layers, part, changes)
    requires n in d.members && |d.log| == |c.log| + 1 && c.log <= d.log
    requires d.members[n].seen == c.members[n].seen && d.members[n].node.shard == c.members[n].node.shard
    ensures NodeWitness(d, n, layers + [[]], part, changes)
  {
    FiledMore(layers, n, changes, c.members[n].seen);
    ViewGrows(part, c.log, layers, n, c.members[n].seen, d.log, layers + [[]]);
  }

  /** Consuming moves a node to the next layer. */
  lemma WitnessConsume(c: Cluster, d: Cluster, n: NodeId, layers: seq<seq<Edit>>, part: Shard, changes: seq<Change>)
    requires NodeWitness(c, n, layers, part, changes)
    requires n in d.members && d.log == c.log
    requires c.members[n].seen < |c.log| && d.members[n].seen == c.members[n].seen + 1
    requires d.members[n].node.shard == Effect(c.log[c.members[n].seen].body, c.members[n].node.shard)
    ensures NodeWitness(d, n, layers, part, changes)
  {
    assert EditsOf(layers[c.members[n].seen + 1], n) == [];
  }

  /** A node that is not there has made no change. */
  ghost predicate NoneOutside(c: Cluster, layers: seq<seq<Edit>>) {
    forall n | n !in c.members :: LayersOf(layers, n) == []
  }

  ghost predicate Witnessed(t: seq<Cluster>, es: seq<Event>, i: nat, layers: seq<seq<Edit>>)
    requires Run(t, es) && i < |t|
  {
    && HomedLayers(layers) && |layers| == |t[i].log| + 1 && NoneOutside(t[i], layers)
    && forall n | n in t[i].members ::
         n in t[0].members && NodeWitness(t[i], n, layers, t[0].members[n].node.shard, LocalChanges(t, es, n, i))
  }

  lemma WitnessAtStart(t: seq<Cluster>, es: seq<Event>)
    requires Run(t, es)
    ensures Witnessed(t, es, 0, [[]])
  {
    var layers: seq<seq<Edit>> := [[]];
    assert layers[..0] == [];
    forall n ensures LayersOf(layers, n) == [] { assert LayersOf(layers[..0], n) == []; }
    forall n | n in t[0].members
      ensures NodeWitness(t[0], n, layers, t[0].members[n].node.shard, LocalChanges(t, es, n, 0))
    {
      assert LayersOf(layers[..0], n) == [];
    }
  }

  /** The witness after a step. */
  ghost function NextLayers(c: Cluster, d: Cluster, e: Event, layers: seq<seq<Edit>>): seq<seq<Edit>> {
    if IsLocalChange(c, e) && e.n in c.members && c.members[e.n].seen < |layers| then
      AddEdit(layers, c.members[e.n].seen, EditBy(e))
    else if |d.log| == |c.log| then layers else layers + [[]]
  }

  /** What a step does to the log, the nodes' places in it, and the shard of node `n`. */
  ghost predicate Moves(c: Cluster, d: Cluster, e: Event, n: NodeId) {
    && n in c.members && d.members.Keys == c.members.Keys
    && c.log <= d.log && |d.log| <= |c.log| + 1
    && (e.Consume? || IsLocalChange(c, e) ==> d.log == c.log)
    && (IsLocalChange(c, e) ==> e.n in c.members && c.members[e.n].seen <= |c.log| && HomedEdit(EditBy(e)))
    && (IsLocalChange(c, e) && e.n == n ==>
          d.members[n].node.shard == EditPart(c.members[n].node.shard, EditBy(e)))
    && (IsLocalChange(c, e) && e.n != n ==> d.members[n] == c.members[n])
    && d.members[n].seen == c.members[n].seen + (if e.Consume? && e.n == n then 1 else 0)
    && (e.Consume? && e.n == n ==>
          c.members[n].seen < |c.log| &&
          d.members[n].node.shard == Effect(c.log[c.members[n].seen].body, c.members[n].node.shard))
    && (!(e.Consume? && e.n == n) && !(IsLocalChange(c, e) && e.n == n) ==>
          d.members[n].node.shard == c.members[n].node.shard)
  }

  lemma StepNodeElse(c: Cluster, d: Cluster, e: Event, n: NodeId, layers: seq<seq<Edit>>, part: Shard, changes: seq<Change>)
    requires Moves(c, d, e, n) && NodeWitness(c, n, layers, part, changes) && !IsLocalChange(c, e)
    ensures NodeWitness(d, n, NextLayers(c, d, e, layers), part, changes)
  {
    if e.Consume? && e.n == n { WitnessConsume(c, d, n, layers, part, changes); }
    else if |d.log| != |c.log| { WitnessPublish(c, d, n, layers, part, changes); }
    else { assert d.log == c.log; }
  }

  /** One step moves one node's witness. */
  lemma StepNode(c: Cluster, d: Cluster, e: Event, n: NodeId, layers: seq<seq<Edit>>, part: Shard, changes: seq<Change>)
    requires Moves(c, d, e, n) && NodeWitness(c, n, layers, part, changes)
    ensures NodeWitness(d, n, NextLayers(c, d, e, layers), part,
                        changes + if IsLocalChange(c, e) && e.n == n then [Change(c.members[n].seen, EditBy(e))] else [])
  {
    assert changes + [] == changes;
    if IsLocalChange(c, e) && e.n == n {
      WitnessOwn(c, d, n, layers, part, changes, EditBy(e));
    } else if IsLocalChange(c, e) {
      WitnessOther(c, d, n, layers, part, changes, c.members[e.n].seen, EditBy(e));
    } else {
      StepNodeElse(c, d, e, n, layers, part, changes);
    }
  }

  lemma StepOutside(c: Cluster, d: Cluster, e: Event, layers: seq<seq<Edit>>)
    requires NoneOutside(c, layers) && d.members.Keys == c.members.Keys
    ensures NoneOutside(d, NextLayers(c, d, e, layers))
  {
    forall n | n !in d.members ensures LayersOf(NextLayers(c, d, e, layers), n) == [] {
      if IsLocalChange(c, e) && e.n in c.members && c.members[e.n].seen < |layers| {
        LayersOfMore(layers, c.members[e.n].seen, EditBy(e), n);
      } else {
        assert (layers + [[]])[..|layers|] == layers;
      }
    }
  }

  lemma LocalMoves(c: Cluster, e: Event, n: NodeId)
    requires Mail(c) && Enabled(c, e) && n in c.members && IsLocalChange(c, e)
    ensures e.n in c.members && c.members[e.n].seen <= |c.log| && HomedEdit(EditBy(e)) && n in Next(c, e).members
    ensures Next(c, e).members[n] ==
              if e.n == n then c.members[n].(node := c.members[n].node.(
                                 shard := EditPart(c.members[n].node.shard, EditBy(e)))) else c.members[n]
  {
    if e.One? { OneAtOnce(c, e); }
  }

  lemma StepMoves(c: Cluster, e: Event, n: NodeId)
    requires Mail(c) && Enabled(c, e) && n in c.members
    ensures Moves(c, Next(c, e), e, n)
  {
    StepAdds(c, e);
    SeenMoves(c, e, n);
    LogMoves(c, e);
    if IsLocalChange(c, e) { LocalMoves(c, e, n); }
    else if e.Consume? && e.n == n { ConsumeTurn(c, n, e.answer); }
    else { OtherShards(c, e, n); }
  }

  lemma StepMovesAt(t: seq<Cluster>, es: seq<Event>, i: nat, n: NodeId)
    requires Run(t, es) && i < |es| && n in t[i].members
    ensures Moves(t[i], t[i + 1], es[i], n)
  {
    MailAlways(t, es, i);
    assert Stepped(t, es, i);
    StepMoves(t[i], es[i], n);
  }

  lemma LogMovesAt(t: seq<Cluster>, es: seq<Event>, i: nat)
    requires Run(t, es) && i < |es|
    ensures |t[i].log| <= |t[i + 1].log| <= |t[i].log| + 1
    ensures es[i].Consume? || IsLocalChange(t[i], es[i]) ==> t[i + 1].log == t[i].log
  {
    MailAlways(t, es, i);
    StepAddsAt(t, es, i);
    assert Stepped(t, es, i);
    LogMoves(t[i], es[i]);
  }

  lemma ChangeIsHomed(t: seq<Cluster>, es: seq<Event>, i: nat)
    requires Run(t, es) && i < |es| && IsLocalChange(t[i], es[i])
    ensures HomedEdit(EditBy(es[i]))
  {
    MailAlways(t, es, i);
    assert Stepped(t, es, i);
    LocalMoves(t[i], es[i], es[i].n);
  }

  lemma StepHomed(t: seq<Cluster>, es: seq<Event>, i: nat, layers: seq<seq<Edit>>)
    requires Run(t, es) && i < |es| && HomedLayers(layers) && |layers| == |t[i].log| + 1
    ensures t[i + 1].members.Keys == t[i].members.Keys
    ensures var more := NextLayers(t[i], t[i + 1], es[i], layers);
            HomedLayers(more) && |more| == |t[i + 1].log| + 1
  {
    StepAddsAt(t, es, i);
    LogMovesAt(t, es, i);
    if IsLocalChange(t[i], es[i]) { ChangeIsHomed(t, es, i); }
  }

  lemma StepWitnessed(t: seq<Cluster>, es: seq<Event>, i: nat, j: nat, layers: seq<seq<Edit>>)
    returns (more: seq<seq<Edit>>)
    requires Run(t, es) && i < |es| && j == i + 1 && Witnessed(t, es, i, layers)
    ensures Witnessed(t, es, j, more)
  {
    more := NextLayers(t[i], t[j], es[i], layers);
    StepHomed(t, es, i, layers);
    StepOutside(t[i], t[j], es[i], layers);
    forall n | n in t[j].members
      ensures n in t[0].members &&
              NodeWitness(t[j], n, more, t[0].members[n].node.shard, LocalChanges(t, es, n, j))
    {
      StepMovesAt(t, es, i, n);
      StepNode(t[i], t[j], es[i], n, layers, t[0].members[n].node.shard, LocalChanges(t, es, n, i));
    }
  }

  lemma {:induction false} BuildWitness(t: seq<Cluster>, es: seq<Event>, i: nat) returns (layers: seq<seq<Edit>>)
    requires Run(t, es) && i < |t|
    ensures Witnessed(t, es, i, layers)
  {
    if i == 0 {
      layers := [[]];
      WitnessAtStart(t, es);
    } else {
      var before := BuildWitness(t, es, i - 1);
      layers := StepWitnessed(t, es, i - 1, i, before);
    }
  }

  // ----- The theorem -----

  lemma WholePart(c: Cluster, n: NodeId)
    requires MembersOk(c)
    ensures Part(Whole(c), n) == if n in c.members then c.members[n].node.shard else map[]
  {
  }

  /**
   Sharded refinement. For every state of every run there is one history of an unsharded
   adapter, the log's messages in order with each node's local changes between them (exactly
   those of the run, in the node's order, each after as many messages as the node had consumed
   when it made it), such that every node's sockets are its part of that adapter after as many
   messages as the node has consumed.
   */
  lemma ShardedRefinesUnsharded(t: seq<Cluster>, es: seq<Event>, i: nat) returns (layers: seq<seq<Edit>>)
    requires Run(t, es) && i < |t|
    ensures |layers| == |t[i].log| + 1
    ensures forall n | n in t[i].members ::
      && LayersOf(layers, n) == Edits(LocalChanges(t, es, n, i)) && Placed(layers, n, LocalChanges(t, es, n, i))
      && t[i].members[n].seen <= |t[i].log|
      && t[i].members[n].node.shard == Part(Unsharded(Whole(t[0]), t[i].log, layers, t[i].members[n].seen), n)
  {
    layers := BuildWitness(t, es, i);
    MailAlways(t, es, 0);
    forall n | n in t[i].members
      ensures t[i].members[n].node.shard == Part(Unsharded(Whole(t[0]), t[i].log, layers, t[i].members[n].seen), n)
    {
      assert NodeWitness(t[i], n, layers, t[0].members[n].node.shard, LocalChanges(t, es, n, i));
      WholePart(t[0], n);
      ViewIsPart(Whole(t[0]), t[i].log, layers, n, t[i].members[n].seen);
    }
  }

  lemma SameParts(a: Shard, b: Shard)
    requires forall n :: Part(a, n) == Part(b, n)
    ensures a == b
  {
    forall s ensures s in a <==> s in b {
      assert s in Part(a, s.home) <==> s in Part(b, s.home);
    }
    forall s | s in a ensures a[s] == b[s] {
      assert Part(a, s.home)[s] == Part(b, s.home)[s];
    }
  }

  /** The first `k` messages of a log, applied to one adapter. */
  ghost function Commands(whole: Shard, log: seq<Message>, k: nat): Shard
    requires k <= |log|
  {
    if k == 0 then whole else Effect(log[k - 1].body, Commands(whole, log, k - 1))
  }

  lemma {:induction false} CommandsOnPart(whole: Shard, log: seq<Message>, k: nat, n: NodeId)
    requires k <= |log|
    ensures Part(Commands(whole, log, k), n) == Commands(Part(whole, n), log, k)
  {
    if k > 0 {
      CommandsOnPart(whole, log, k - 1, n);
      EffectOnPart(log[k - 1].body, Commands(whole, log, k - 1), n);
    }
  }

  lemma {:induction false} NoLocalChanges(t: seq<Cluster>, es: seq<Event>, n: NodeId, i: nat)
    requires Run(t, es) && i < |t| && forall k | 0 <= k < i :: !IsLocalChange(t[k], es[k])
    ensures LocalChanges(t, es, n, i) == []
  {
    if i > 0 { NoLocalChanges(t, es, n, i - 1); }
  }

  lemma {:induction false} NoEdits(layers: seq<seq<Edit>>, n: NodeId, k: nat)
    requires LayersOf(layers, n) == [] && k < |layers|
    ensures EditsOf(layers[k], n) == []
  {
    if k < |layers| - 1 { NoEdits(layers[..|layers| - 1], n, k); }
  }

  lemma {:induction false} ViewIsCommands(part: Shard, log: seq<Message>, layers: seq<seq<Edit>>, n: NodeId, k: nat)
    requires k <= |log| && k < |layers| && LayersOf(layers, n) == []
    ensures NodeView(part, log, layers, n, k) == Commands(part, log, k)
  {
    NoEdits(layers, n, k);
    if k > 0 { ViewIsCommands(part, log, layers, n, k - 1); }
  }

  lemma {:induction false} CommandsOnNothing(log: seq<Message>, k: nat)
    requires k <= |log|
    ensures Commands(map[], log, k) == map[]
  {
    if k > 0 { CommandsOnNothing(log, k - 1); }
  }

  lemma NoneOutsideIsNothing(whole: Shard, c: Cluster, layers: seq<seq<Edit>>, n: NodeId, k: nat)
    requires NoneOutside(c, layers) && n !in c.members && HomedLayers(layers)
    requires k <= |c.log| && k < |layers| && Part(whole, n) == map[]
    ensures Part(Unsharded(whole, c.log, layers, k), n) == map[]
  {
    ViewIsPart(whole, c.log, layers, n, k);
    ViewIsCommands(map[], c.log, layers, n, k);
    CommandsOnNothing(c.log, k);
  }

  /**
   Once every node has consumed the first `k` messages, the union of all shards is the one
   unsharded adapter of ShardedRefinesUnsharded after those `k` messages, local changes included.
   */
  lemma UnionWithLocalChanges(t: seq<Cluster>, es: seq<Event>, i: nat, k: nat) returns (layers: seq<seq<Edit>>)
    requires Run(t, es) && i < |t| && k <= |t[i].log|
    requires forall n | n in t[i].members :: t[i].members[n].seen == k
    ensures |layers| == |t[i].log| + 1
    ensures forall n | n in t[i].members ::
      LayersOf(layers, n) == Edits(LocalChanges(t, es, n, i)) && Placed(layers, n, LocalChanges(t, es, n, i))
    ensures Whole(t[i]) == Unsharded(Whole(t[0]), t[i].log, layers, k)
  {
    layers := BuildWitness(t, es, i);
    RunAdds(t, es, 0, i);
    MailAlways(t, es, 0);
    MailAlways(t, es, i);
    var big := Unsharded(Whole(t[0]), t[i].log, layers, k);
    forall n ensures Part(Whole(t[i]), n) == Part(big, n) {
      WholePart(t[0], n);
      WholePart(t[i], n);
      if n in t[i].members {
        assert NodeWitness(t[i], n, layers, t[0].members[n].node.shard, LocalChanges(t, es, n, i));
        ViewIsPart(Whole(t[0]), t[i].log, layers, n, k);
      } else {
        NoneOutsideIsNothing(Whole(t[0]), t[i], layers, n, k);
      }
    }
    SameParts(Whole(t[i]), big);
  }

  /**
   Without local changes, once every node has consumed the first `k` messages, the union of
   all shards is what one unsharded adapter makes of those messages. The sender of a command
   is no exception: it applies its own command when it consumes it, and only then.
   */
  lemma UnionOfShards(t: seq<Cluster>, es: seq<Event>, i: nat, k: nat)
    requires Run(t, es) && i < |t| && k <= |t[i].log|
    requires forall j | 0 <= j < i :: !IsLocalChange(t[j], es[j])
    requires forall n | n in t[i].members :: t[i].members[n].seen == k
    ensures Whole(t[i]) == Commands(Whole(t[0]), t[i].log, k)
  {
    var layers := BuildWitness(t, es, i);
    RunAdds(t, es, 0, i);
    MailAlways(t, es, 0);
    MailAlways(t, es, i);
    var big := Commands(Whole(t[0]), t[i].log, k);
    forall n ensures Part(Whole(t[i]), n) == Part(big, n) {
      WholePart(t[0], n);
      WholePart(t[i], n);
      CommandsOnPart(Whole(t[0]), t[i].log, k, n);
      if n in t[i].members {
        assert NodeWitness(t[i], n, layers, t[0].members[n].node.shard, LocalChanges(t, es, n, i));
        NoLocalChanges(t, es, n, i);
        ViewIsCommands(t[0].members[n].node.shard, t[i].log, layers, n, k);
      } else {
        CommandsOnNothing(t[i].log, k);
      }
    }
    SameParts(Whole(t[i]), big);
  }
}
