/**
 What requests do to the sockets of one node, socket by socket and room by room, and what a
 node reports of them: the meaning of the set operations in Shards and AdapterNode.
 */
module RequestEffects {
  import opened RoomNames
  import opened Shards
  import opened AdapterNode

  /** The socket is in a room of `rooms`, or no room is named, and it is in no excepted room. */
  ghost predicate IsPicked(joined: set<Room>, opts: Opts) {
    && (opts.rooms == {} || exists r :: r in opts.rooms && r in joined)
    && forall r | r in opts.except :: r !in joined
  }

  ghost function Picked(shard: Shard, opts: Opts): set<Sid> {
    set s | s in shard && IsPicked(shard[s], opts)
  }

  lemma Meets(a: set<Room>, b: set<Room>)
    ensures a * b != {} <==> exists r :: r in b && r in a
  {
    if r :| r in b && r in a { assert r in a * b; }
    if a * b != {} { var r :| r in a * b; }
  }

  /** The sockets that options select are the picked ones. */
  lemma SelectedArePicked(shard: Shard, opts: Opts)
    ensures Selected(shard, opts) == Picked(shard, opts)
  {
    forall s | s in shard ensures s in Selected(shard, opts) <==> IsPicked(shard[s], opts) {
      Meets(shard[s], opts.rooms);
      Meets(shard[s], opts.except);
    }
  }

  // ----- Effects -----

  ghost predicate SameSockets(before: Shard, after: Shard) {
    forall s :: s in after <==> s in before
  }

  /** Only the sockets that go are gone; the others are in the rooms they were in. */
  ghost predicate Goes(before: Shard, after: Shard, gone: set<Sid>) {
    && (forall s :: s in after <==> s in before && s !in gone)
    && forall s | s in after :: after[s] == before[s]
  }

  /** The sockets are the same, and those of `who` are in the rooms `joined` too. */
  ghost predicate Joins(before: Shard, after: Shard, who: set<Sid>, joined: set<Room>) {
    && SameSockets(before, after)
    && forall s, r {:trigger r in after[s]} | s in before :: r in after[s] <==> r in before[s] || (s in who && r in joined)
  }

  /** The sockets are the same, and those of `who` are in no room of `left`. */
  ghost predicate Leaves(before: Shard, after: Shard, who: set<Sid>, left: set<Room>) {
    && SameSockets(before, after)
    && forall s, r {:trigger r in after[s]} | s in before :: r in after[s] <==> r in before[s] && !(s in who && r in left)
  }

  /** What a request asks of the sockets of a node. */
  ghost predicate Obeys(body: Body, before: Shard, after: Shard) {
    match body
    case JoinOne(sid, room) => Joins(before, after, {sid}, {room})
    case LeaveOne(sid, room) => Leaves(before, after, {sid}, {room})
    case DisconnectOne(sid) => Goes(before, after, {sid})
    case JoinAll(opts, joined) => Joins(before, after, Picked(before, opts), joined)
    case LeaveAll(opts, left) => Leaves(before, after, Picked(before, opts), left)
    case DisconnectAll(opts) => Goes(before, after, Picked(before, opts))
    case _ => after == before
  }

  /** Applying a request does what it asks. */
  lemma EffectObeys(body: Body, shard: Shard)
    ensures Obeys(body, shard, Effect(body, shard))
  {
    if IsCommand(body) {
      SelectedArePicked(shard, body.opts);
      assert forall s | s in shard :: s in Selected(shard, body.opts) <==> s in Picked(shard, body.opts);
    }
  }

  lemma JoinsOneWay(shard: Shard, a: Shard, b: Shard, who: set<Sid>, joined: set<Room>)
    requires Joins(shard, a, who, joined) && Joins(shard, b, who, joined)
    ensures a == b
  {
    forall s | s in shard ensures a[s] == b[s] {}
  }

  lemma LeavesOneWay(shard: Shard, a: Shard, b: Shard, who: set<Sid>, left: set<Room>)
    requires Leaves(shard, a, who, left) && Leaves(shard, b, who, left)
    ensures a == b
  {
    forall s | s in shard ensures a[s] == b[s] {}
  }

  /** And nothing else would do what it asks: the request determines the sockets after it. */
  lemma ObeyedOneWay(body: Body, shard: Shard, a: Shard, b: Shard)
    requires Obeys(body, shard, a) && Obeys(body, shard, b)
    ensures a == b
  {
    match body
    case JoinOne(sid, room) => JoinsOneWay(shard, a, b, {sid}, {room});
    case LeaveOne(sid, room) => LeavesOneWay(shard, a, b, {sid}, {room});
    case JoinAll(opts, joined) => JoinsOneWay(shard, a, b, Picked(shard, opts), joined);
    case LeaveAll(opts, left) => LeavesOneWay(shard, a, b, Picked(shard, opts), left);
    case _ =>
  }

  // ----- Snapshots -----

  /** What a node reports of its sockets when it is asked. */
  ghost predicate Reports(body: Body, shard: Shard, answer: Answer)
    requires IsGather(body)
  {
    match body
    case Sockets(rooms) =>
      answer.SidSet? && forall s :: s in answer.sids <==> s in shard && IsPicked(shard[s], Opts(rooms, {}))
    case AllRooms =>
      answer.RoomSet? && forall r :: r in answer.rooms <==> exists s :: s in shard && r in shard[s]
    case Fetch(opts) =>
      && answer.SocketArray?
      && (forall i, j | 0 <= i < j < |answer.sockets| :: answer.sockets[i].sid != answer.sockets[j].sid)
      && (forall x | x in answer.sockets :: x.sid in shard && IsPicked(shard[x.sid], opts) && x.rooms == shard[x.sid])
      && forall s | s in shard && IsPicked(shard[s], opts) :: SocketInfo(s, shard[s]) in answer.sockets
  }

  lemma ArrayReports(opts: Opts, shard: Shard, answer: Answer)
    requires answer.SocketArray?
    ensures IsSnapshot(Fetch(opts), shard, answer) <==> Reports(Fetch(opts), shard, answer)
  {
    SelectedArePicked(shard, opts);
    var listed := set x | x in answer.sockets;
    var wanted := set s | s in Selected(shard, opts) :: SocketInfo(s, shard[s]);
    if Reports(Fetch(opts), shard, answer) {
      forall x | x in wanted ensures x in listed {}
      assert listed == wanted;
    }
    if listed == wanted {
      forall x | x in answer.sockets ensures x in wanted { assert x in listed; }
      forall s | s in shard && IsPicked(shard[s], opts) ensures SocketInfo(s, shard[s]) in answer.sockets {
        assert SocketInfo(s, shard[s]) in wanted;
      }
    }
  }

  /**
   A snapshot lists the sockets in some room of those asked for, the rooms some socket is in,
   or the picked sockets, each once and with all its rooms.
   */
  lemma SnapshotReports(body: Body, shard: Shard, answer: Answer)
    requires IsGather(body)
    ensures IsSnapshot(body, shard, answer) <==> Reports(body, shard, answer)
  {
    match body {
      case Sockets(rooms) => SelectedArePicked(shard, Opts(rooms, {}));
      case AllRooms =>
      case Fetch(opts) =>
        SelectedArePicked(shard, opts);
        if answer.SocketArray? { ArrayReports(opts, shard, answer); }
    }
  }
}
