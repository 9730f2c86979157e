/**
 The mailbox store: each message goes to the end of both users' lists, and both lists start
 a fresh day. A list that is not written for a day is gone as a whole.
 */
module MessageStore {
  import opened Option

  const CONVERSATION_TTL := 24 * 60 * 60

  datatype Message = Message(from: int, to: int, body: string)

  /** A list, with the time after which it has expired, if one is set. */
  datatype Mailbox = Mailbox(list: seq<Message>, expiresAt: Option<int>)

  type Store = map<int, Mailbox>

  predicate IsLive(store: Store, uid: int, now: int) {
    uid in store && (store[uid].expiresAt.Some? ==> now <= store[uid].expiresAt.value)
  }

  /** `lrange 0 -1`: a missing or expired list reads as empty. */
  function Read(store: Store, uid: int, now: int): seq<Message> {
    if IsLive(store, uid, now) then store[uid].list else []
  }

  /** `rPush`: a new list has no expiry yet. */
  function Push(store: Store, uid: int, message: Message, now: int): Store {
    store[uid := Mailbox(Read(store, uid, now) + [message],
                         if IsLive(store, uid, now) then store[uid].expiresAt else None)]
  }

  function Expire(store: Store, uid: int, now: int): Store
    requires uid in store
  {
    store[uid := store[uid].(expiresAt := Some(now + CONVERSATION_TTL))]
  }

  function Save(store: Store, message: Message, now: int): Store {
    var pushed := Push(Push(store, message.from, message, now), message.to, message, now);
    Expire(Expire(pushed, message.from, now), message.to, now)
  }

  /** What a user gets of a message: one to oneself is pushed twice. */
  ghost function Copies(message: Message, uid: int): seq<Message> {
    (if message.from == uid then [message] else []) + (if message.to == uid then [message] else [])
  }

  class RedisMessageStore {
    var store: Store

    constructor ()
      ensures store == map[]
    {
      store := map[];
    }

    method RPush(uid: int, message: Message, now: int)
      modifies this
      ensures store == Push(old(store), uid, message, now)
    {
      if IsLive(store, uid, now) {
        store := store[uid := store[uid].(list := store[uid].list + [message])];
      } else {
        store := store[uid := Mailbox([message], None)];
        assert [] + [message] == [message];
      }
    }

    method SaveMessage(message: Message, now: int)
      modifies this
      ensures store == Save(old(store), message, now)
      ensures forall uid | uid == message.from || uid == message.to ::
                uid in store && store[uid].list == Read(old(store), uid, now) + Copies(message, uid) &&
                store[uid].expiresAt == Some(now + 86_400)
    {
      RPush(message.from, message, now);
      RPush(message.to, message, now);
      store := Expire(store, message.from, now);
      store := Expire(store, message.to, now);
    }

    method FindMessagesForUser(uid: int, now: int) returns (messages: seq<Message>)
      ensures messages == Read(store, uid, now)
    {
      if IsLive(store, uid, now) { messages := store[uid].list; } else { messages := []; }
    }
  }

  // ----- Histories -----

  datatype Sent = Sent(message: Message, at: int)

  predicate Touches(sent: Sent, uid: int) { sent.message.from == uid || sent.message.to == uid }

  predicate Between(message: Message, u: int, v: int) {
    (message.from == u && message.to == v) || (message.from == v && message.to == u)
  }

  ghost predicate InOrder(history: seq<Sent>, now: int) {
    && (forall i, j | 0 <= i < j < |history| :: history[i].at <= history[j].at)
    && forall i | 0 <= i < |history| :: history[i].at <= now
  }

  ghost function Saved(history: seq<Sent>): Store {
    if history == [] then map[]
    else Save(Saved(history[..|history| - 1]), history[|history| - 1].message, history[|history| - 1].at)
  }

  ghost function Posted(history: seq<Sent>, uid: int): seq<Message> {
    if history == [] then []
    else Posted(history[..|history| - 1], uid) + Copies(history[|history| - 1].message, uid)
  }

  /** After this message a user's list was left alone for more than a day, until `now` at least. */
  ghost predicate Lapse(history: seq<Sent>, uid: int, i: nat, now: int) {
    && i < |history| && Touches(history[i], uid)
    && now - history[i].at > 86_400
    && forall j | i < j < |history| && Touches(history[j], uid) :: history[j].at - history[i].at > 86_400
  }

  // ----- What a mailbox holds -----

  lemma SaveElsewhere(store: Store, message: Message, at: int, uid: int, now: int)
    requires uid != message.from && uid != message.to
    ensures Read(Save(store, message, at), uid, now) == Read(store, uid, now)
  {
  }

  lemma PushedTwice(store: Store, message: Message, at: int)
    ensures Push(Push(store, message.from, message, at), message.from, message, at)[message.from].list ==
              Read(store, message.from, at) + [message] + [message]
  {
  }

  /** Right after a save the list has its copies, and a day to live. */
  lemma SavedList(store: Store, message: Message, at: int, uid: int)
    requires Touches(Sent(message, at), uid)
    ensures uid in Save(store, message, at)
    ensures Save(store, message, at)[uid] ==
              Mailbox(Read(store, uid, at) + Copies(message, uid), Some(at + 86_400))
  {
    var list := Read(store, uid, at);
    if message.from == message.to {
      PushedTwice(store, message, at);
      assert list + [message] + [message] == list + ([message] + [message]);
    } else {
      assert Copies(message, uid) == [message];
    }
  }

  lemma SaveHere(store: Store, sent: Sent, uid: int, now: int)
    requires Touches(sent, uid)
    ensures Read(Save(store, sent.message, sent.at), uid, now) ==
              if now > sent.at + 86_400 then [] else Read(store, uid, sent.at) + Copies(sent.message, uid)
  {
    SavedList(store, sent.message, sent.at, uid);
  }

  /** Seen at the time of a later message that touches the user, an older one lapses as it does later. */
  lemma LapseAtTouch(history: seq<Sent>, uid: int, i: nat, now: int)
    requires InOrder(history, now) && i < |history| - 1 && Touches(history[|history| - 1], uid)
    ensures Lapse(history[..|history| - 1], uid, i, history[|history| - 1].at) <==> Lapse(history, uid, i, now)
  {
    var front, last := history[..|history| - 1], history[|history| - 1];
    if Lapse(front, uid, i, last.at) {
      forall j | i < j < |history| && Touches(history[j], uid)
        ensures history[j].at - history[i].at > 86_400
      {
        if j < |front| { assert front[j] == history[j]; }
      }
    }
    if Lapse(history, uid, i, now) {
      forall j | i < j < |front| && Touches(front[j], uid) ensures front[j].at - front[i].at > 86_400 {
        assert history[j] == front[j];
      }
    }
  }

  lemma LapseElsewhere(history: seq<Sent>, uid: int, i: nat, now: int)
    requires history != [] && i < |history| - 1 && !Touches(history[|history| - 1], uid)
    ensures Lapse(history[..|history| - 1], uid, i, now) <==> Lapse(history, uid, i, now)
  {
    var front := history[..|history| - 1];
    forall j | 0 <= j < |front| ensures front[j] == history[j] {}
    if Lapse(history, uid, i, now) {
      forall j | i < j < |front| && Touches(front[j], uid) ensures front[j].at - front[i].at > 86_400 {
        assert history[j] == front[j];
      }
    }
  }

  lemma PostedMore(history: seq<Sent>, k: nat, uid: int)
    requires history != [] && k < |history|
    ensures Posted(history[k..], uid) ==
              Posted(history[..|history| - 1][k..], uid) + Copies(history[|history| - 1].message, uid)
  {
    var tail := history[k..];
    assert tail[..|tail| - 1] == history[..|history| - 1][k..];
    assert tail[|tail| - 1] == history[|history| - 1];
  }

  /** The list is what was posted from place `k` on, and the message before `k` was the last to lapse. */
  ghost predicate SinceLapse(history: seq<Sent>, uid: int, now: int, k: nat) {
    && k <= |history| && Read(Saved(history), uid, now) == Posted(history[k..], uid)
    && (k > 0 ==> Lapse(history, uid, k - 1, now))
    && forall i: nat | k <= i :: !Lapse(history, uid, i, now)
  }

  lemma ReadElsewhere(history: seq<Sent>, uid: int, now: int, k: nat)
    requires history != [] && !Touches(history[|history| - 1], uid) && k < |history|
    requires Read(Saved(history[..|history| - 1]), uid, now) == Posted(history[..|history| - 1][k..], uid)
    ensures Read(Saved(history), uid, now) == Posted(history[k..], uid)
  {
    var n := |history| - 1;
    SaveElsewhere(Saved(history[..n]), history[n].message, history[n].at, uid, now);
    PostedMore(history, k, uid);
  }

  lemma LapsesElsewhere(history: seq<Sent>, uid: int, now: int, k: nat)
    requires history != [] && !Touches(history[|history| - 1], uid) && k <= |history| - 1
    requires var front := history[..|history| - 1];
             (k > 0 ==> Lapse(front, uid, k - 1, now)) && forall i: nat | k <= i :: !Lapse(front, uid, i, now)
    ensures k > 0 ==> Lapse(history, uid, k - 1, now)
    ensures forall i: nat | k <= i :: !Lapse(history, uid, i, now)
  {
    if k > 0 { LapseElsewhere(history, uid, k - 1, now); }
    forall i: nat | k <= i ensures !Lapse(history, uid, i, now) {
      if i < |history| - 1 { LapseElsewhere(history, uid, i, now); }
    }
  }

  lemma SinceLapseElsewhere(history: seq<Sent>, uid: int, now: int, k: nat)
    requires history != [] && !Touches(history[|history| - 1], uid)
    requires SinceLapse(history[..|history| - 1], uid, now, k)
    ensures SinceLapse(history, uid, now, k)
  {
    ReadElsewhere(history, uid, now, k);
    LapsesElsewhere(history, uid, now, k);
  }

  lemma LapsesAtTouch(history: seq<Sent>, uid: int, now: int, k: nat)
    requires InOrder(history, now) && history != [] && Touches(history[|history| - 1], uid)
    requires now <= history[|history| - 1].at + 86_400 && k <= |history| - 1
    requires var front, at := history[..|history| - 1], history[|history| - 1].at;
             && (k > 0 ==> Lapse(front, uid, k - 1, at))
             && forall i: nat | k <= i :: !Lapse(front, uid, i, at)
    ensures k > 0 ==> Lapse(history, uid, k - 1, now)
    ensures forall i: nat | k <= i :: !Lapse(history, uid, i, now)
  {
    if k > 0 { LapseAtTouch(history, uid, k - 1, now); }
    forall i: nat | k <= i ensures !Lapse(history, uid, i, now) {
      if i < |history| - 1 { LapseAtTouch(history, uid, i, now); }
    }
  }

  lemma ReadAtTouch(history: seq<Sent>, uid: int, now: int, k: nat)
    requires history != [] && Touches(history[|history| - 1], uid) && k < |history|
    requires now <= history[|history| - 1].at + 86_400
    requires Read(Saved(history[..|history| - 1]), uid, history[|history| - 1].at) ==
               Posted(history[..|history| - 1][k..], uid)
    ensures Read(Saved(history), uid, now) == Posted(history[k..], uid)
  {
    var n := |history| - 1;
    SaveHere(Saved(history[..n]), history[n], uid, now);
    PostedMore(history, k, uid);
  }

  lemma SinceLapseTouch(history: seq<Sent>, uid: int, now: int, k: nat)
    requires InOrder(history, now) && history != [] && Touches(history[|history| - 1], uid)
    requires now <= history[|history| - 1].at + 86_400
    requires SinceLapse(history[..|history| - 1], uid, history[|history| - 1].at, k)
    ensures SinceLapse(history, uid, now, k)
  {
    LapsesAtTouch(history, uid, now, k);
    ReadAtTouch(history, uid, now, k);
  }

  lemma SinceLapseGone(history: seq<Sent>, uid: int, now: int)
    requires history != [] && Touches(history[|history| - 1], uid)
    requires now > history[|history| - 1].at + 86_400
    ensures SinceLapse(history, uid, now, |history|)
  {
    var n := |history| - 1;
    SaveHere(Saved(history[..n]), history[n], uid, now);
    assert history[n + 1..] == [];
  }

  /**
   A mailbox holds exactly the messages that touch its user since the user's last lapse, in
   order: everything from place `k` on, where the message before `k` was the last to lapse.
   */
  lemma {:induction false} MailboxSinceLapse(history: seq<Sent>, uid: int, now: int) returns (k: nat)
    requires InOrder(history, now)
    ensures SinceLapse(history, uid, now, k)
  {
    if history == [] {
      k := 0;
    } else {
      var n := |history| - 1;
      if !Touches(history[n], uid) {
        k := MailboxSinceLapse(history[..n], uid, now);
        SinceLapseElsewhere(history, uid, now, k);
      } else if now > history[n].at + 86_400 {
        k := n + 1;
        SinceLapseGone(history, uid, now);
      } else {
        k := MailboxSinceLapse(history[..n], uid, history[n].at);
        SinceLapseTouch(history, uid, now, k);
      }
    }
  }

  // ----- The two copies of a conversation -----

  ghost function Conversation(list: seq<Message>, u: int, v: int): seq<Message> {
    if list == [] then []
    else
      Conversation(list[..|list| - 1], u, v) +
      if Between(list[|list| - 1], u, v) then [list[|list| - 1]] else []
  }

  /** Everything the two ever wrote to each other. */
  ghost function FullHistory(history: seq<Sent>, u: int, v: int): seq<Message> {
    if history == [] then []
    else
      FullHistory(history[..|history| - 1], u, v) +
      if Between(history[|history| - 1].message, u, v) then [history[|history| - 1].message] else []
  }

  ghost predicate IsSuffix(s: seq<Message>, whole: seq<Message>) {
    |s| <= |whole| && whole[|whole| - |s|..] == s
  }

  lemma {:induction false} ConversationJoin(a: seq<Message>, b: seq<Message>, u: int, v: int)
    ensures Conversation(a + b, u, v) == Conversation(a, u, v) + Conversation(b, u, v)
  {
    if b == [] {
      assert a + b == a;
    } else {
      var front := b[..|b| - 1];
      ConversationJoin(a, front, u, v);
      assert (a + b)[..|a + b| - 1] == a + front;
    }
  }

  lemma {:induction false} FullJoin(a: seq<Sent>, b: seq<Sent>, u: int, v: int)
    ensures FullHistory(a + b, u, v) == FullHistory(a, u, v) + FullHistory(b, u, v)
  {
    if b == [] {
      assert a + b == a;
    } else {
      var front := b[..|b| - 1];
      FullJoin(a, front, u, v);
      assert (a + b)[..|a + b| - 1] == a + front;
    }
  }

  lemma ConversationOfOne(m: Message, u: int, v: int)
    ensures Conversation([m], u, v) == if Between(m, u, v) then [m] else []
  {
    assert [m][..0] == [];
    assert Conversation([m][..0], u, v) == [];
  }

  lemma CopiesConversation(last: Sent, u: int, v: int)
    requires u != v
    ensures Conversation(Copies(last.message, u), u, v) == if Between(last.message, u, v) then [last.message] else []
  {
    var m := last.message;
    ConversationOfOne(m, u, v);
    if m.from == u && m.to == u {
      ConversationJoin([m], [m], u, v);
    } else if m.from == u || m.to == u {
      assert Copies(last.message, u) == [m];
    }
  }

  /** For two different users each message between them was posted to either once. */
  lemma {:induction false} PostedConversation(history: seq<Sent>, u: int, v: int)
    requires u != v
    ensures Conversation(Posted(history, u), u, v) == FullHistory(history, u, v)
  {
    if history != [] {
      var front, last := history[..|history| - 1], history[|history| - 1];
      PostedConversation(front, u, v);
      ConversationJoin(Posted(front, u), Copies(last.message, u), u, v);
      CopiesConversation(last, u, v);
    }
  }

  lemma {:induction false} BetweenIsSymmetric(history: seq<Sent>, u: int, v: int)
    ensures FullHistory(history, u, v) == FullHistory(history, v, u)
  {
    if history != [] { BetweenIsSymmetric(history[..|history| - 1], u, v); }
  }

  /** What user `u` has stored of its conversation with `v`. */
  ghost function Stored(history: seq<Sent>, u: int, v: int, now: int): seq<Message> {
    Conversation(Read(Saved(history), u, now), u, v)
  }

  lemma KeptAndLost(history: seq<Sent>, k: nat, u: int, v: int)
    requires k <= |history| && u != v
    ensures Conversation(Posted(history[k..], u), u, v) == FullHistory(history[k..], u, v)
    ensures FullHistory(history, u, v) == FullHistory(history[..k], u, v) + FullHistory(history[k..], u, v)
  {
    PostedConversation(history[k..], u, v);
    FullJoin(history[..k], history[k..], u, v);
    assert history[..k] + history[k..] == history;
  }

  lemma KeptIsSuffix(history: seq<Sent>, k: nat, u: int, v: int)
    requires k <= |history| && u != v
    ensures IsSuffix(Conversation(Posted(history[k..], u), u, v), FullHistory(history, u, v))
    ensures k == 0 ==> Conversation(Posted(history[k..], u), u, v) == FullHistory(history, u, v)
  {
    KeptAndLost(history, k, u, v);
  }

  lemma StoredIsSuffix(history: seq<Sent>, u: int, v: int, now: int)
    requires InOrder(history, now) && u != v
    ensures IsSuffix(Stored(history, u, v, now), FullHistory(history, u, v))
    ensures (forall i: nat :: !Lapse(history, u, i, now)) ==>
              Stored(history, u, v, now) == FullHistory(history, u, v)
  {
    var k := MailboxSinceLapse(history, u, now);
    KeptIsSuffix(history, k, u, v);
  }

  lemma TwoSuffixes(a: seq<Message>, b: seq<Message>, whole: seq<Message>)
    requires IsSuffix(a, whole) && IsSuffix(b, whole)
    ensures IsSuffix(a, b) || IsSuffix(b, a)
  {
    if |a| <= |b| {
      assert whole[|whole| - |b|..][|b| - |a|..] == whole[|whole| - |a|..];
    } else {
      assert whole[|whole| - |a|..][|a| - |b|..] == whole[|whole| - |b|..];
    }
  }

  /**
   With or without expiry, both users' copies of their conversation are suffixes of its full
   history, so one is a suffix of the other; if neither ever lapsed, they are the same.
   */
  lemma CopiesAreSuffixes(history: seq<Sent>, u: int, v: int, now: int)
    requires InOrder(history, now) && u != v
    ensures var mine, theirs, full := Stored(history, u, v, now), Stored(history, v, u, now), FullHistory(history, u, v);
            && IsSuffix(mine, full) && IsSuffix(theirs, full)
            && (IsSuffix(mine, theirs) || IsSuffix(theirs, mine))
            && ((forall i: nat :: !Lapse(history, u, i, now) && !Lapse(history, v, i, now)) ==>
                  mine == full && theirs == full)
  {
    StoredIsSuffix(history, u, v, now);
    StoredIsSuffix(history, v, u, now);
    BetweenIsSymmetric(history, u, v);
    if forall i: nat :: !Lapse(history, u, i, now) && !Lapse(history, v, i, now) {
      assert forall i: nat :: !Lapse(history, u, i, now);
      assert forall i: nat :: !Lapse(history, v, i, now);
    }
    TwoSuffixes(Stored(history, u, v, now), Stored(history, v, u, now), FullHistory(history, u, v));
  }

  lemma {:induction false} NothingWrittenIff(history: seq<Sent>, u: int, v: int)
    ensures FullHistory(history, u, v) == [] <==>
              forall j | 0 <= j < |history| :: !Between(history[j].message, u, v)
  {
    if history != [] {
      var front := history[..|history| - 1];
      NothingWrittenIff(front, u, v);
      forall j | 0 <= j < |front| ensures front[j] == history[j] {}
      if forall j | 0 <= j < |history| :: !Between(history[j].message, u, v) {
        forall j | 0 <= j < |front| ensures !Between(front[j].message, u, v) {}
      }
    }
  }

  lemma KeptIsWholeIff(history: seq<Sent>, k: nat, u: int, v: int)
    requires k <= |history| && u != v
    ensures Conversation(Posted(history[k..], u), u, v) == FullHistory(history, u, v) <==>
              forall j | 0 <= j < k :: !Between(history[j].message, u, v)
  {
    var lost := FullHistory(history[..k], u, v);
    KeptAndLost(history, k, u, v);
    NothingWrittenIff(history[..k], u, v);
    forall j | 0 <= j < k ensures history[..k][j] == history[j] {}
    if lost == [] {
      assert lost + FullHistory(history[k..], u, v) == FullHistory(history[k..], u, v);
    } else {
      assert |lost| > 0;
    }
  }

  /** A user's copy is whole if and only if the user never lapsed at or after a message of the pair. */
  lemma CopyIsWholeIff(history: seq<Sent>, u: int, v: int, now: int)
    requires InOrder(history, now) && u != v
    ensures Stored(history, u, v, now) == FullHistory(history, u, v) <==>
              forall j: nat, i: nat | j <= i && Lapse(history, u, i, now) :: !Between(history[j].message, u, v)
  {
    var k := MailboxSinceLapse(history, u, now);
    KeptIsWholeIff(history, k, u, v);
    if forall j: nat, i: nat | j <= i && Lapse(history, u, i, now) :: !Between(history[j].message, u, v) {
      forall j | 0 <= j < k ensures !Between(history[j].message, u, v) {
        assert Lapse(history, u, k - 1, now);
      }
    }
  }

  lemma MineKept(m: Message, other: Message)
    requires m.from == other.from && m.to != m.from && other.to != other.from
    ensures Read(Save(Save(map[], m, 0), other, 86_400), m.from, 86_400 + 1) == [m] + [other]
  {
    SaveHere(map[], Sent(m, 0), m.from, 86_400);
    SaveHere(Save(map[], m, 0), Sent(other, 86_400), m.from, 86_400 + 1);
  }

  /** They can differ: a user who keeps writing to a third keeps its copy, the other's is gone. */
  lemma OneCopyExpires(m: Message, other: Message)
    requires m.from == other.from && m.to != m.from && other.to != m.to && other.to != other.from
    ensures var history := [Sent(m, 0), Sent(other, 86_400)];
            var now := 86_400 + 1;
            && InOrder(history, now)
            && Stored(history, m.from, m.to, now) == [m] && Stored(history, m.to, m.from, now) == []
  {
    var history := [Sent(m, 0), Sent(other, 86_400)];
    var now := 86_400 + 1;
    assert history[..1] == [Sent(m, 0)] && [Sent(m, 0)][..0] == [];
    var first := Save(map[], m, 0);
    assert Saved([Sent(m, 0)]) == first;
    assert Saved(history) == Save(first, other, 86_400);
    MineKept(m, other);
    SaveElsewhere(first, other, 86_400, m.to, now);
    SaveHere(map[], Sent(m, 0), m.to, now);
    ConversationOfOne(m, m.from, m.to);
    ConversationOfOne(other, m.from, m.to);
    ConversationJoin([m], [other], m.from, m.to);
  }
}
