/**
 Plain broadcast: a packet is published on a channel that names the room when there is
 exactly one, so that a node without that room can drop the message without decoding it.
 */
module PacketBroadcast {
  import opened Option
  import opened RoomNames
  import opened Shards

  datatype Packet = Packet(nsp: Option<string>, data: int)

  datatype Publication = Publication(channel: string, uid: NodeId, packet: Option<Packet>, opts: Opts)

  /** One adapter: a node's sockets in one namespace. */
  datatype Station = Station(uid: NodeId, nsp: string, shard: Shard)

  function Base(prefix: string, nsp: string): string { prefix + "#" + nsp + "#" }

  lemma OnlyMember(rooms: set<Room>, room: Room)
    requires |rooms| == 1 && room in rooms
    ensures rooms == {room}
  {
    assert |rooms - {room}| == 0;
    assert rooms == {room} + (rooms - {room});
  }

  ghost function OnlyRoom(rooms: set<Room>): (room: Room)
    requires |rooms| == 1
    ensures rooms == {room}
  {
    var room :| room in rooms;
    OnlyMember(rooms, room);
    room
  }

  ghost function ChannelFor(base: string, opts: Opts): string {
    if |opts.rooms| == 1 then base + ShowRoom(OnlyRoom(opts.rooms)) + "#" else base
  }

  /** `channel.slice(base.length, -1)`: empty when there is nothing between the two ends. */
  function RoomPart(base: string, channel: string): string
    requires base <= channel
  {
    if |channel| <= |base| then "" else channel[|base|..|channel| - 1]
  }

  /** Some joined room has the number for its key. */
  predicate HasNumber(shard: Shard, number: Number) {
    exists r | r in RoomsOf(shard) :: r.Numbered? && number == Finite(r.number as real)
  }

  predicate HasRoom(shard: Shard, room: string) {
    (IsNumeric(room) && HasNumber(shard, ParseFloat(room))) || Named(room) in RoomsOf(shard)
  }

  function NspOf(packet: Packet): string {
    if packet.nsp.None? then "/" else packet.nsp.value
  }

  /** The message gets past every check of the receiving node. */
  predicate Accepts(prefix: string, s: Station, p: Publication) {
    var base := Base(prefix, s.nsp);
    && base <= p.channel
    && (RoomPart(base, p.channel) == "" || HasRoom(s.shard, RoomPart(base, p.channel)))
    && s.uid != p.uid
    && p.packet.Some? && NspOf(p.packet.value) == s.nsp
  }

  function Receive(prefix: string, s: Station, p: Publication): set<Sid> {
    if Accepts(prefix, s, p) then Selected(s.shard, p.opts) else {}
  }

  ghost function Publish(prefix: string, s: Station, data: int, opts: Opts): Publication {
    Publication(ChannelFor(Base(prefix, s.nsp), opts), s.uid, Some(Packet(Some(s.nsp), data)), opts)
  }

  /** What all nodes, the publisher included, write when they hear the message. */
  ghost function Heard(prefix: string, stations: seq<Station>, p: Publication): multiset<Sid> {
    if stations == [] then multiset{}
    else Heard(prefix, stations[..|stations| - 1], p) + multiset(Receive(prefix, stations[|stations| - 1], p))
  }

  /** Every write of the packet, one per occurrence, when station `k` broadcasts it. */
  ghost function Deliveries(prefix: string, stations: seq<Station>, k: nat, data: int, opts: Opts, local: bool): multiset<Sid>
    requires k < |stations|
  {
    multiset(Selected(stations[k].shard, opts)) +
    if local then multiset{} else Heard(prefix, stations, Publish(prefix, stations[k], data, opts))
  }

  /** Each socket lives on one node, and no two stations share an id. */
  ghost predicate Apart(stations: seq<Station>) {
    && (forall i | 0 <= i < |stations| :: Homed(stations[i].shard, stations[i].uid))
    && forall i, j | 0 <= i < j < |stations| :: stations[i].uid != stations[j].uid
  }

  // ----- The filter -----

  lemma RoomPartOfChannel(base: string, room: Room)
    ensures base <= base + ShowRoom(room) + "#"
    ensures RoomPart(base, base + ShowRoom(room) + "#") == ShowRoom(room)
  {
    var channel := base + ShowRoom(room) + "#";
    assert channel[|base|..|channel| - 1] == ShowRoom(room);
  }

  ghost predicate IsJoined(shard: Shard, room: Room) {
    exists s :: s in shard && room in shard[s]
  }

  /**
   A node finds a text exactly if it is the key of a room that some socket has joined, or the
   numeric reading of the text is: so it drops what is meant for any other room.
   */
  lemma RoomIsFoundIff(shard: Shard, text: string)
    ensures HasRoom(shard, text) <==>
              IsJoined(shard, Named(text)) ||
              exists n :: IsJoined(shard, Numbered(n)) && IsNumeric(text) && ParseFloat(text) == Finite(n as real)
  {
    if IsNumeric(text) && HasNumber(shard, ParseFloat(text)) {
      var r :| r in RoomsOf(shard) && r.Numbered? && ParseFloat(text) == Finite(r.number as real);
      assert IsJoined(shard, Numbered(r.number));
    }
    if n :| IsJoined(shard, Numbered(n)) && IsNumeric(text) && ParseFloat(text) == Finite(n as real) {
      assert Numbered(n) in RoomsOf(shard);
    }
  }

  /** The channel: a single room is named on it, and nothing else is. */
  lemma ChannelNamesOneRoom(prefix: string, s: Station, data: int, opts: Opts, room: Room)
    ensures var channel := Publish(prefix, s, data, opts).channel;
            && (opts.rooms == {room} ==> channel == prefix + "#" + s.nsp + "#" + ShowRoom(room) + "#")
            && (|opts.rooms| != 1 ==> channel == prefix + "#" + s.nsp + "#")
  {
  }

  /** A packet that names no namespace is for the main one. */
  lemma NamelessIsMain(prefix: string, s: Station, p: Publication)
    requires p.packet.Some? && p.packet.value.nsp.None? && s.nsp != "/"
    ensures Receive(prefix, s, p) == {}
  {
  }

  /** A room that some socket has joined is found by its text, whether its key is a string or a number. */
  lemma JoinedRoomIsFound(shard: Shard, room: Room)
    requires room in RoomsOf(shard)
    ensures HasRoom(shard, ShowRoom(room))
  {
    if room.Numbered? { ShowRoundTrip(room.number); }
  }

  /** A node of the publisher's namespace that the filter makes skip the packet has no target. */
  lemma FilterLosesNothing(prefix: string, from: Station, s: Station, data: int, opts: Opts)
    requires s.nsp == from.nsp && s.uid != from.uid
    ensures Receive(prefix, s, Publish(prefix, from, data, opts)) == Selected(s.shard, opts)
  {
    var p := Publish(prefix, from, data, opts);
    if |opts.rooms| == 1 {
      var room := OnlyRoom(opts.rooms);
      RoomPartOfChannel(Base(prefix, s.nsp), room);
      if Selected(s.shard, opts) != {} {
        var sid :| sid in Selected(s.shard, opts);
        assert room in s.shard[sid];
        JoinedRoomIsFound(s.shard, room);
      }
    }
  }

  /** Another node of the publisher's namespace holds the socket, and the options pick it. */
  ghost predicate IsTarget(s: Station, from: Station, opts: Opts, sid: Sid) {
    s.nsp == from.nsp && s.uid != from.uid && sid in Selected(s.shard, opts)
  }

  ghost predicate HasTarget(stations: seq<Station>, from: Station, opts: Opts, sid: Sid) {
    exists i :: 0 <= i < |stations| && IsTarget(stations[i], from, opts, sid)
  }

  lemma ReceivesIffTarget(prefix: string, s: Station, from: Station, data: int, opts: Opts, sid: Sid)
    ensures sid in Receive(prefix, s, Publish(prefix, from, data, opts)) <==> IsTarget(s, from, opts, sid)
  {
    if s.nsp == from.nsp && s.uid != from.uid { FilterLosesNothing(prefix, from, s, data, opts); }
  }

  lemma HasTargetMore(stations: seq<Station>, s: Station, from: Station, opts: Opts, sid: Sid)
    requires Apart(stations + [s])
    ensures HasTarget(stations + [s], from, opts, sid) <==> HasTarget(stations, from, opts, sid) || IsTarget(s, from, opts, sid)
    ensures !(HasTarget(stations, from, opts, sid) && IsTarget(s, from, opts, sid))
  {
    var all := stations + [s];
    assert all[|stations|] == s;
    forall i | 0 <= i < |stations| ensures all[i] == stations[i] {}
    if i :| 0 <= i < |stations| && IsTarget(stations[i], from, opts, sid) {
      assert IsTarget(all[i], from, opts, sid) && sid.home == all[i].uid;
    }
  }

  lemma ApartFront(stations: seq<Station>)
    requires Apart(stations) && stations != []
    ensures Apart(stations[..|stations| - 1])
  {
  }

  lemma {:induction false} HeardOnce(prefix: string, stations: seq<Station>, from: Station, data: int, opts: Opts, sid: Sid)
    requires Apart(stations)
    ensures Heard(prefix, stations, Publish(prefix, from, data, opts))[sid] ==
              if HasTarget(stations, from, opts, sid) then 1 else 0
  {
    if stations != [] {
      var front := stations[..|stations| - 1];
      var last := stations[|stations| - 1];
      ApartFront(stations);
      HeardOnce(prefix, front, from, data, opts, sid);
      assert stations == front + [last];
      HasTargetMore(front, last, from, opts, sid);
      ReceivesIffTarget(prefix, last, from, data, opts, sid);
    }
  }

  /**
   For a fixed room assignment, whatever the rooms in the options, each socket of the
   namespace that the options pick, on any node, is written the packet exactly once, and no
   other socket is written it at all. A broadcast flagged local stops at the caller's sockets.
   */
  lemma DeliversExactlyTheTargets(prefix: string, stations: seq<Station>, k: nat, data: int, opts: Opts, local: bool, sid: Sid)
    requires Apart(stations) && k < |stations|
    ensures Deliveries(prefix, stations, k, data, opts, local)[sid] ==
              if exists i :: 0 <= i < |stations| && (if local then i == k else stations[i].nsp == stations[k].nsp) &&
                             sid in Selected(stations[i].shard, opts)
              then 1 else 0
  {
    HeardOnce(prefix, stations, stations[k], data, opts, sid);
    if sid in Selected(stations[k].shard, opts) {
      forall i | 0 <= i < |stations| && sid in stations[i].shard ensures i == k {
        assert sid.home == stations[i].uid && sid.home == stations[k].uid;
      }
    } else if i :| 0 <= i < |stations| && stations[i].nsp == stations[k].nsp && sid in Selected(stations[i].shard, opts) {
      assert IsTarget(stations[i], stations[k], opts, sid);
    }
  }
}
