/**
 The friendship table: one row per ordered pair, a request from the first to the second.

 Nothing in the schema stops both directions from being present; the services check for it,
 and other code relies on it. addFriend catches its own refusals and returns nothing.
 */
module Friends {
  import opened Option

  datatype Status = Pending | Accepted

  type Table = map<(int, int), Status>

  datatype Role = Sender | Receiver

  /** What a user sees of a friendship: the other user is the receiver of a sender, and the reverse. */
  datatype Friendship = Friendship(status: Status, role: Role, other: int)

  datatype AddResult = Created | Refused | AlreadySent

  datatype Outcome = Done | Forbidden

  // ----- Requests -----

  /** A row left alone by every check is a duplicate: its error comes from the table and is not caught. */
  function AddOutcome(t: Table, users: set<int>, user: int, friend: int): AddResult {
    if user == friend || friend !in users then Refused
    else if (friend, user) in t then Refused
    else if (user, friend) in t then AlreadySent
    else Created
  }

  function Add(t: Table, users: set<int>, user: int, friend: int): Table {
    if AddOutcome(t, users, user, friend).Created? then t[(user, friend) := Pending] else t
  }

  function AcceptOutcome(t: Table, user: int, friend: int): Outcome {
    if user == friend || (friend, user) !in t then Forbidden else Done
  }

  function Accept(t: Table, user: int, friend: int): Table {
    if AcceptOutcome(t, user, friend).Done? then t[(friend, user) := Accepted] else t
  }

  /** The request from `friend` becomes accepted, if there is one; every other row stays as it was. */
  ghost predicate Accepts(before: Table, after: Table, user: int, friend: int) {
    && (forall key :: key in after <==> key in before)
    && forall key | key in before ::
         after[key] == if key == (friend, user) && user != friend then Status.Accepted else before[key]
  }

  /** The row between two users that is found first; should both exist, which one is up to the database. */
  ghost predicate IsFound(t: Table, user: int, friend: int, row: Option<(int, int)>) {
    match row
    case None => (user, friend) !in t && (friend, user) !in t
    case Some(key) => key in t && (key == (user, friend) || key == (friend, user))
  }

  /** Never both directions, never a row to oneself. */
  ghost predicate OneDirection(t: Table) {
    forall key | key in t :: key.0 != key.1 && (key.1, key.0) !in t
  }

  function Format(key: (int, int), status: Status, user: int): Friendship {
    if key.0 == user then Friendship(status, Sender, key.1) else Friendship(status, Receiver, key.0)
  }

  /** What deleting does, when `row` is the row found. */
  function DeleteFound(t: Table, user: int, friend: int, row: Option<(int, int)>): Table
    requires row.Some? ==> row.value in t
  {
    if user == friend || row.None? then t
    else if Format(row.value, t[row.value], user).role.Sender? then t - {(user, friend)}
    else t - {(friend, user)}
  }

  // ----- The service -----

  function RowsWith(t: Table, user: int, status: Status): set<(int, int)> {
    set key | key in t && (key.0 == user || key.1 == user) && t[key] == status
  }

  /** Each matching row once. */
  ghost predicate ListsRows(rows: seq<(int, int)>, t: Table, user: int, status: Status) {
    && (forall key :: key in rows <==> key in t && (key.0 == user || key.1 == user) && t[key] == status)
    && forall i, j | 0 <= i < j < |rows| :: rows[i] != rows[j]
  }

  class FriendsService {
    var table: Table
    var users: set<int>

    constructor (users: set<int>)
      ensures table == map[] && this.users == users
    {
      table, this.users := map[], users;
    }

    /** Whether the request may go on to the duplicate check. */
    method ValidateAddFriendParams(user: int, friend: int) returns (ok: bool)
      ensures ok == (user != friend && friend in users)
    {
      if user == friend { return false; }
      ok := friend in users;
    }

    method AddFriend(user: int, friend: int) returns (result: AddResult)
      modifies this`table
      ensures result == AddOutcome(old(table), users, user, friend)
      ensures table == Add(old(table), users, user, friend)
      ensures result.Created? <==> (user, friend) in table && (user, friend) !in old(table)
      ensures result.AlreadySent? <==>
                user != friend && friend in users && (user, friend) in old(table) && (friend, user) !in old(table)
    {
      var ok := ValidateAddFriendParams(user, friend);
      if !ok { return Refused; }
      if (friend, user) in table { return Refused; }
      if (user, friend) in table { return AlreadySent; }
      table := table[(user, friend) := Pending];
      result := Created;
    }

    method AcceptFriendRequest(user: int, friend: int) returns (outcome: Outcome)
      modifies this`table
      ensures outcome == AcceptOutcome(old(table), user, friend)
      ensures table == Accept(old(table), user, friend)
      ensures outcome.Done? <==> user != friend && (friend, user) in old(table)
      ensures Accepts(old(table), table, user, friend)
    {
      if user == friend { return Forbidden; }
      if (friend, user) !in table { return Forbidden; }
      table := table[(friend, user) := Accepted];
      outcome := Done;
    }

    method FindFirst(user: int, friend: int) returns (row: Option<(int, int)>)
      ensures IsFound(table, user, friend, row)
    {
      if (user, friend) in table { return Some((user, friend)); }
      row := if (friend, user) in table then Some((friend, user)) else None;
    }

    method GetFriendshipByFriendUid(user: int, friend: int)
      returns (friendship: Option<Friendship>, ghost row: Option<(int, int)>)
      ensures IsFound(table, user, friend, row)
      ensures friendship == if row.None? then None else Some(Format(row.value, table[row.value], user))
      ensures friendship.None? <==> (user, friend) !in table && (friend, user) !in table
      ensures OneDirection(table) && friendship.Some? ==>
                friendship.value == if (user, friend) in table
                                    then Friendship(table[(user, friend)], Sender, friend)
                                    else Friendship(table[(friend, user)], Receiver, friend)
    {
      var found := FindFirst(user, friend);
      row := found;
      friendship := if found.None? then None else Some(Format(found.value, table[found.value], user));
    }

    method DeleteFriendshipByFriendUid(user: int, friend: int)
      returns (outcome: Outcome, ghost row: Option<(int, int)>)
      modifies this`table
      ensures IsFound(old(table), user, friend, row)
      ensures outcome == if user == friend || row.None? then Forbidden else Done
      ensures table == DeleteFound(old(table), user, friend, row)
    {
      var friendship;
      friendship, row := GetFriendshipByFriendUid(user, friend);
      if user == friend || friendship.None? { return Forbidden, row; }
      if friendship.value.role.Receiver? {
        table := table - {(friend, user)};
      } else {
        table := table - {(user, friend)};
      }
      outcome := Done;
    }

    /** The rows of a user with a status, in some order. */
    method GetFriendshipsByStatus(user: int, status: Status) returns (rows: seq<(int, int)>)
      ensures ListsRows(rows, table, user, status)
    {
      var rest := RowsWith(table, user, status);
      rows := [];
      while rest != {}
        invariant rest <= RowsWith(table, user, status)
        invariant forall key :: key in rows <==> key in RowsWith(table, user, status) - rest
        invariant forall i, j | 0 <= i < j < |rows| :: rows[i] != rows[j]
        decreases |rest|
      {
        var key :| key in rest;
        ghost var listed := RowsWith(table, user, status) - rest;
        rows := rows + [key];
        rest := rest - {key};
        assert RowsWith(table, user, status) - rest == listed + {key};
        assert forall k :: k in rows <==> k in listed + {key};
      }
    }

    method FormatResults(rows: seq<(int, int)>, user: int) returns (results: seq<Friendship>)
      requires forall key | key in rows :: key in table
      ensures |results| == |rows|
      ensures forall i | 0 <= i < |rows| :: results[i] == Format(rows[i], table[rows[i]], user)
    {
      results := [];
      for i := 0 to |rows|
        invariant |results| == i
        invariant forall k | 0 <= k < i :: results[k] == Format(rows[k], table[rows[k]], user)
      {
        results := results + [Format(rows[i], table[rows[i]], user)];
      }
    }
  }

  // ----- Runs -----

  datatype Call =
    | Adding(user: int, friend: int)
    | Accepting(user: int, friend: int)
    | Deleting(user: int, friend: int, row: Option<(int, int)>)

  ghost predicate Possible(t: Table, call: Call) {
    call.Deleting? ==> IsFound(t, call.user, call.friend, call.row)
  }

  ghost function Next(t: Table, users: set<int>, call: Call): Table
    requires Possible(t, call)
  {
    match call
    case Adding(user, friend) => Add(t, users, user, friend)
    case Accepting(user, friend) => Accept(t, user, friend)
    case Deleting(user, friend, row) => DeleteFound(t, user, friend, row)
  }

  ghost predicate Run(ts: seq<Table>, calls: seq<Call>, users: set<int>) {
    && |ts| == |calls| + 1 && ts[0] == map[]
    && forall i | 0 <= i < |calls| :: Possible(ts[i], calls[i]) && ts[i + 1] == Next(ts[i], users, calls[i])
  }

  lemma OneDirectionKept(t: Table, users: set<int>, call: Call)
    requires OneDirection(t) && Possible(t, call)
    ensures OneDirection(Next(t, users, call))
  {
  }

  lemma {:induction false} OneDirectionAlways(ts: seq<Table>, calls: seq<Call>, users: set<int>, i: nat)
    requires Run(ts, calls, users) && i < |ts|
    ensures OneDirection(ts[i])
  {
    if i > 0 {
      OneDirectionAlways(ts, calls, users, i - 1);
      OneDirectionKept(ts[i - 1], users, calls[i - 1]);
    }
  }

  // ----- The theorems -----

  /** A row appears exactly when neither direction was there, between two different known users. */
  lemma AddCreatesIff(t: Table, users: set<int>, user: int, friend: int)
    ensures Add(t, users, user, friend) != t <==>
              user != friend && friend in users && (user, friend) !in t && (friend, user) !in t
    ensures Add(t, users, user, friend) != t ==>
              Add(t, users, user, friend) == t + map[(user, friend) := Pending]
  {
    if AddOutcome(t, users, user, friend).Created? { assert (user, friend) in Add(t, users, user, friend); }
  }

  /** In every reachable table, both users see the same status, and opposite roles, or both nothing. */
  lemma BothSeeTheSame(ts: seq<Table>, calls: seq<Call>, users: set<int>, i: nat, a: int, b: int,
                       mine: Option<(int, int)>, theirs: Option<(int, int)>)
    requires Run(ts, calls, users) && i < |ts|
    requires IsFound(ts[i], a, b, mine) && IsFound(ts[i], b, a, theirs)
    ensures mine == theirs
    ensures mine.Some? ==>
              a != b && var t := ts[i];
              var x, y := Format(mine.value, t[mine.value], a), Format(theirs.value, t[theirs.value], b);
              x.status == y.status && x.role != y.role && x.other == b && y.other == a
  {
    OneDirectionAlways(ts, calls, users, i);
  }

  /** The receiver accepted the row at call `j`, and it has been there ever since. */
  ghost predicate AcceptedAt(ts: seq<Table>, calls: seq<Call>, i: nat, a: int, b: int, j: nat) {
    && j < i < |ts| && j < |calls| && calls[j] == Accepting(b, a)
    && forall k | j <= k <= i :: (a, b) in ts[k]
  }

  ghost predicate AcceptedSince(ts: seq<Table>, calls: seq<Call>, i: nat, a: int, b: int) {
    exists j: nat :: AcceptedAt(ts, calls, i, a, b, j)
  }

  /** What accepting does to the table: one row at most, and only its status. */
  lemma AcceptingAccepts(t: Table, users: set<int>, user: int, friend: int)
    ensures Accepts(t, Next(t, users, Accepting(user, friend)), user, friend)
  {
  }

  lemma AcceptedStep(t: Table, users: set<int>, call: Call, a: int, b: int)
    requires Possible(t, call) && a != b && (a, b) in Next(t, users, call)
    ensures Next(t, users, call)[(a, b)].Accepted? <==>
              (a, b) in t && (t[(a, b)].Accepted? || call == Accepting(b, a))
  {
  }

  lemma AcceptedSooner(ts: seq<Table>, calls: seq<Call>, i: nat, a: int, b: int)
    requires 0 < i < |ts| && i - 1 < |calls| && (a, b) in ts[i]
    ensures AcceptedSince(ts, calls, i, a, b) <==>
              (a, b) in ts[i - 1] && (AcceptedSince(ts, calls, i - 1, a, b) || calls[i - 1] == Accepting(b, a))
  {
    var before: nat := i - 1;
    if j: nat :| AcceptedAt(ts, calls, i, a, b, j) {
      assert (a, b) in ts[before];
      if j < before { assert AcceptedAt(ts, calls, before, a, b, j); }
    }
    if (a, b) in ts[before] {
      if j: nat :| AcceptedAt(ts, calls, before, a, b, j) { assert AcceptedAt(ts, calls, i, a, b, j); }
      if calls[before] == Accepting(b, a) { assert AcceptedAt(ts, calls, i, a, b, before); }
    }
  }

  /** In every run a row is accepted if and only if its receiver accepted it since its creation. */
  lemma {:induction false} AcceptedByReceiver(ts: seq<Table>, calls: seq<Call>, users: set<int>, i: nat, a: int, b: int)
    requires Run(ts, calls, users) && i < |ts| && (a, b) in ts[i]
    ensures ts[i][(a, b)].Accepted? <==> AcceptedSince(ts, calls, i, a, b)
  {
    if i > 0 {
      OneDirectionAlways(ts, calls, users, i);
      AcceptedStep(ts[i - 1], users, calls[i - 1], a, b);
      AcceptedSooner(ts, calls, i, a, b);
      if (a, b) in ts[i - 1] { AcceptedByReceiver(ts, calls, users, i - 1, a, b); }
    }
  }

  /**
   A delete by either of the two clears the pair if and only if at most one direction was
   there; so in every reachable table it does.
   */
  lemma DeleteClearsIff(t: Table, user: int, friend: int, row: Option<(int, int)>)
    requires user != friend && IsFound(t, user, friend, row)
    ensures var after := DeleteFound(t, user, friend, row);
            ((user, friend) !in after && (friend, user) !in after) <==> !((user, friend) in t && (friend, user) in t)
  {
  }

  lemma DeleteClears(ts: seq<Table>, calls: seq<Call>, users: set<int>, i: nat)
    requires Run(ts, calls, users) && i < |calls| && calls[i].Deleting? && calls[i].user != calls[i].friend
    ensures (calls[i].user, calls[i].friend) !in ts[i + 1] && (calls[i].friend, calls[i].user) !in ts[i + 1]
    ensures forall key | key in ts[i] && key != (calls[i].user, calls[i].friend) && key != (calls[i].friend, calls[i].user) ::
              key in ts[i + 1] && ts[i + 1][key] == ts[i][key]
    ensures forall key | key in ts[i + 1] :: key in ts[i]
  {
    OneDirectionAlways(ts, calls, users, i);
    DeleteClearsIff(ts[i], calls[i].user, calls[i].friend, calls[i].row);
  }
}
