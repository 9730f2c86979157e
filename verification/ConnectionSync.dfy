/**
 What a client is sent when it connects: its friends, each with the messages exchanged.

 One loop groups the mailbox by the other user, the next makes one entry per accepted row.
 */
module ConnectionSync {
  import opened Option
  import MessageStore
  import Friends

  type Message = MessageStore.Message

  datatype Entry = Entry(friend: int, online: bool, messages: seq<Message>)

  function KeyOf(uid: int, message: Message): int {
    if uid == message.from then message.to else message.from
  }

  /** The messages under one key, in order. */
  ghost function Group(uid: int, messages: seq<Message>, key: int): seq<Message> {
    if messages == [] then []
    else
      var last := messages[|messages| - 1];
      Group(uid, messages[..|messages| - 1], key) + if KeyOf(uid, last) == key then [last] else []
  }

  function Other(uid: int, row: (int, int)): int {
    if row.0 == uid then row.1 else row.0
  }

  method GroupMessages(uid: int, messages: seq<Message>) returns (dict: map<int, seq<Message>>)
    ensures forall key :: (key in dict <==> Group(uid, messages, key) != [])
    ensures forall key | key in dict :: dict[key] == Group(uid, messages, key)
  {
    dict := map[];
    for i := 0 to |messages|
      invariant forall key :: (key in dict <==> Group(uid, messages[..i], key) != [])
      invariant forall key | key in dict :: dict[key] == Group(uid, messages[..i], key)
    {
      var key := KeyOf(uid, messages[i]);
      assert messages[..i + 1][..i] == messages[..i];
      forall k ensures Group(uid, messages[..i + 1], k) ==
                         Group(uid, messages[..i], k) + if key == k then [messages[i]] else [] {}
      if key !in dict { dict := dict[key := []]; }
      dict := dict[key := dict[key] + [messages[i]]];
    }
    assert messages[..|messages|] == messages;
  }

  ghost function EntryOf(uid: int, messages: seq<Message>, sessions: map<int, bool>, friend: int): Entry {
    Entry(friend, friend in sessions && sessions[friend], Group(uid, messages, friend))
  }

  /** One entry for each row, in order. */
  ghost predicate IsSynced(list: seq<Entry>, uid: int, messages: seq<Message>, rows: seq<(int, int)>,
                           sessions: map<int, bool>) {
    |list| == |rows| &&
    forall i | 0 <= i < |rows| :: list[i] == EntryOf(uid, messages, sessions, Other(uid, rows[i]))
  }

  /** `sessions` holds the known sessions; a friend without one is offline. */
  method SyncAll(uid: int, messages: seq<Message>, rows: seq<(int, int)>, sessions: map<int, bool>)
    returns (list: seq<Entry>)
    ensures IsSynced(list, uid, messages, rows, sessions)
  {
    var dict := GroupMessages(uid, messages);
    list := [];
    for i := 0 to |rows|
      invariant |list| == i
      invariant forall k | 0 <= k < i :: list[k] == EntryOf(uid, messages, sessions, Other(uid, rows[k]))
    {
      var friend := Other(uid, rows[i]);
      var online := friend in sessions && sessions[friend];
      list := list + [Entry(friend, online, if friend in dict then dict[friend] else [])];
    }
  }

  // ----- The grouping -----

  /** Grouping loses and duplicates nothing: each message is under its own key as often as it came. */
  lemma {:induction false} GroupKeepsAll(uid: int, messages: seq<Message>, key: int, m: Message)
    ensures multiset(Group(uid, messages, key))[m] == if KeyOf(uid, m) == key then multiset(messages)[m] else 0
  {
    if messages != [] {
      var front := messages[..|messages| - 1];
      GroupKeepsAll(uid, front, key, m);
      assert messages == front + [messages[|messages| - 1]];
    }
  }

  /** Where the messages of a group stood, in increasing order: grouping reorders nothing. */
  lemma {:induction false} GroupKeepsOrder(uid: int, messages: seq<Message>, key: int) returns (at: seq<nat>)
    ensures |at| == |Group(uid, messages, key)|
    ensures forall k | 0 <= k < |at| :: at[k] < |messages| && messages[at[k]] == Group(uid, messages, key)[k]
    ensures forall k, l | 0 <= k < l < |at| :: at[k] < at[l]
  {
    if messages == [] {
      at := [];
    } else {
      var n := |messages| - 1;
      var front := messages[..n];
      at := GroupKeepsOrder(uid, front, key);
      forall k | 0 <= k < |at| ensures at[k] < n && messages[at[k]] == Group(uid, front, key)[k] {
        assert front[at[k]] == messages[at[k]];
      }
      if KeyOf(uid, messages[n]) == key {
        assert Group(uid, messages, key) == Group(uid, front, key) + [messages[n]];
        at := at + [n];
      }
    }
  }

  /** From a mailbox, the group of a friend is the stored conversation with that friend. */
  lemma {:induction false} GroupIsConversation(uid: int, messages: seq<Message>, friend: int)
    requires friend != uid
    requires forall m | m in messages :: m.from == uid || m.to == uid
    ensures Group(uid, messages, friend) == MessageStore.Conversation(messages, uid, friend)
  {
    if messages != [] { GroupIsConversation(uid, messages[..|messages| - 1], friend); }
  }

  lemma {:induction false} PostedTouch(history: seq<MessageStore.Sent>, uid: int)
    ensures forall m | m in MessageStore.Posted(history, uid) :: m.from == uid || m.to == uid
  {
    if history != [] { PostedTouch(history[..|history| - 1], uid); }
  }

  // ----- The list -----

  ghost predicate AreFriends(t: Friends.Table, a: int, b: int) {
    ((a, b) in t && t[(a, b)].Accepted?) || ((b, a) in t && t[(b, a)].Accepted?)
  }

  /** A friend is listed twice if and only if both directions of the pair are accepted rows. */
  lemma ListedTwiceIff(t: Friends.Table, uid: int, rows: seq<(int, int)>, friend: int)
    requires friend != uid && Friends.ListsRows(rows, t, uid, Friends.Accepted)
    ensures (exists i, j :: 0 <= i < j < |rows| && Other(uid, rows[i]) == friend && Other(uid, rows[j]) == friend) <==>
              (uid, friend) in t && t[(uid, friend)].Accepted? && (friend, uid) in t && t[(friend, uid)].Accepted?
  {
    if i, j :| 0 <= i < j < |rows| && Other(uid, rows[i]) == friend && Other(uid, rows[j]) == friend {
      assert rows[i] in rows && rows[j] in rows;
      assert {rows[i], rows[j]} == {(uid, friend), (friend, uid)};
    }
    if (uid, friend) in t && t[(uid, friend)].Accepted? && (friend, uid) in t && t[(friend, uid)].Accepted? {
      assert (uid, friend) in rows && (friend, uid) in rows;
      var i :| 0 <= i < |rows| && rows[i] == (uid, friend);
      var j :| 0 <= j < |rows| && rows[j] == (friend, uid);
      if i < j { assert Other(uid, rows[i]) == friend && Other(uid, rows[j]) == friend; }
      else { assert Other(uid, rows[j]) == friend && Other(uid, rows[i]) == friend; }
    }
  }

  lemma FriendsAreListed(t: Friends.Table, uid: int, rows: seq<(int, int)>, friend: int)
    requires Friends.OneDirection(t) && Friends.ListsRows(rows, t, uid, Friends.Accepted)
    ensures AreFriends(t, uid, friend) <==> exists i :: 0 <= i < |rows| && Other(uid, rows[i]) == friend
  {
    if AreFriends(t, uid, friend) {
      var key := if (uid, friend) in t && t[(uid, friend)].Accepted? then (uid, friend) else (friend, uid);
      assert key in rows;
      var i :| 0 <= i < |rows| && rows[i] == key;
      assert Other(uid, rows[i]) == friend;
    }
    if i :| 0 <= i < |rows| && Other(uid, rows[i]) == friend { assert rows[i] in rows; }
  }

  /**
   In every reachable friendship table, with the mailbox of any history: the rows make one
   entry for each accepted friend and for nobody else, and the group in it is precisely what
   the user has stored of the conversation with that friend.
   */
  lemma OneEntryPerFriend(ts: seq<Friends.Table>, calls: seq<Friends.Call>, users: set<int>, k: nat,
                          history: seq<MessageStore.Sent>, now: int, uid: int, rows: seq<(int, int)>, friend: int)
    requires Friends.Run(ts, calls, users) && k < |ts| && Friends.ListsRows(rows, ts[k], uid, Friends.Accepted)
    requires MessageStore.InOrder(history, now)
    ensures AreFriends(ts[k], uid, friend) <==> exists i :: 0 <= i < |rows| && Other(uid, rows[i]) == friend
    ensures forall i, j | 0 <= i < j < |rows| :: Other(uid, rows[i]) != Other(uid, rows[j])
    ensures AreFriends(ts[k], uid, friend) ==>
              Group(uid, MessageStore.Read(MessageStore.Saved(history), uid, now), friend) ==
                MessageStore.Stored(history, uid, friend, now)
  {
    var t := ts[k];
    Friends.OneDirectionAlways(ts, calls, users, k);
    FriendsAreListed(t, uid, rows, friend);
    forall i, j | 0 <= i < j < |rows| ensures Other(uid, rows[i]) != Other(uid, rows[j]) {
      assert rows[i] in rows && rows[j] in rows;
      ListedTwiceIff(t, uid, rows, Other(uid, rows[i]));
    }
    if AreFriends(t, uid, friend) {
      var from := MessageStore.MailboxSinceLapse(history, uid, now);
      PostedTouch(history[from..], uid);
      GroupIsConversation(uid, MessageStore.Read(MessageStore.Saved(history), uid, now), friend);
    }
  }

  /**
   So for the list a client is sent when it connects, in every reachable friendship table and
   with the mailbox of any history: it has one entry for each accepted friend and for nobody
   else, which says whether the friend is connected and holds precisely what the user has
   stored of the conversation with that friend.
   */
  lemma ListIsFriends(ts: seq<Friends.Table>, calls: seq<Friends.Call>, users: set<int>, k: nat,
                      history: seq<MessageStore.Sent>, now: int, uid: int, rows: seq<(int, int)>,
                      sessions: map<int, bool>, list: seq<Entry>)
    requires Friends.Run(ts, calls, users) && k < |ts| && Friends.ListsRows(rows, ts[k], uid, Friends.Accepted)
    requires MessageStore.InOrder(history, now)
    requires IsSynced(list, uid, MessageStore.Read(MessageStore.Saved(history), uid, now), rows, sessions)
    ensures forall friend :: AreFriends(ts[k], uid, friend) <==> exists i :: 0 <= i < |list| && list[i].friend == friend
    ensures forall i, j | 0 <= i < j < |list| :: list[i].friend != list[j].friend
    ensures forall i | 0 <= i < |list| ::
              && list[i].online == (list[i].friend in sessions && sessions[list[i].friend])
              && list[i].messages == MessageStore.Stored(history, uid, list[i].friend, now)
  {
    forall friend ensures AreFriends(ts[k], uid, friend) <==> exists i :: 0 <= i < |list| && list[i].friend == friend {
      OneEntryPerFriend(ts, calls, users, k, history, now, uid, rows, friend);
      if i :| 0 <= i < |rows| && Other(uid, rows[i]) == friend { assert list[i].friend == friend; }
      if i :| 0 <= i < |list| && list[i].friend == friend { assert Other(uid, rows[i]) == friend; }
    }
    OneEntryPerFriend(ts, calls, users, k, history, now, uid, rows, uid);
    forall i | 0 <= i < |list| ensures list[i].messages == MessageStore.Stored(history, uid, list[i].friend, now) {
      assert Other(uid, rows[i]) == list[i].friend;
      OneEntryPerFriend(ts, calls, users, k, history, now, uid, rows, list[i].friend);
    }
  }
}
