/**
 The time recorder. A user's row gains a minute when a call comes at least 55 seconds after
 the last one that counted: a greedy choice of calls, which turns out to be a largest one.
 */
module Records {
  const ADVANTAGE_SECOND := 5000

  datatype Record = Record(userId: int, duration: int, updatedAt: int)

  type Table = map<int, Record>

  function RowsOf(table: Table, uid: int): set<int> {
    set id | id in table && table[id].userId == uid
  }

  /** `Math.floor` of the minutes passed, five seconds given, is at least one. */
  predicate LongerThan1Min(updatedAt: int, now: int) {
    (now - updatedAt + ADVANTAGE_SECOND) / (60 * 1000) >= 1
  }

  /** Rounded down to minutes or not: it takes 55 seconds. */
  lemma LongerIff(updatedAt: int, now: int)
    ensures LongerThan1Min(updatedAt, now) <==> now - updatedAt >= 55_000
  {
  }

  function AfterRecord(table: Table, nextId: int, uid: int, now: int): Table {
    if RowsOf(table, uid) == {} then table[nextId := Record(uid, 1, now)]
    else
      map id | id in table ::
        if table[id].userId == uid && LongerThan1Min(table[id].updatedAt, now)
        then Record(uid, table[id].duration + 1, now) else table[id]
  }

  function AfterDelete(table: Table, uid: int): Table {
    map id | id in table && table[id].userId != uid :: table[id]
  }

  /** What the code takes for granted: no user has two rows. */
  ghost predicate OneEach(table: Table, nextId: int) {
    && (forall a, b | a in table && b in table && table[a].userId == table[b].userId :: a == b)
    && forall id | id in table :: id < nextId
  }

  lemma SomeMember(rows: set<int>)
    requires rows != {}
    ensures exists id :: id in rows
  {
    if forall id :: id !in rows {}
  }

  lemma RecordKeepsOne(table: Table, nextId: int, uid: int, now: int)
    requires OneEach(table, nextId)
    ensures OneEach(AfterRecord(table, nextId, uid, now), if RowsOf(table, uid) == {} then nextId + 1 else nextId)
  {
    forall id | id in table && table[id].userId == uid ensures id in RowsOf(table, uid) {}
  }

  class RecordsService {
    var records: Table
    var nextId: int

    constructor ()
      ensures records == map[] && Valid()
    {
      records, nextId := map[], 1;
    }

    ghost predicate Valid()
      reads this
    {
      OneEach(records, nextId)
    }

    method GetRecordCount(uid: int) returns (count: nat)
      ensures count == |RowsOf(records, uid)|
    {
      count := |RowsOf(records, uid)|;
    }

    method GetRecentRecordId(uid: int) returns (id: int)
      requires RowsOf(records, uid) != {}
      ensures id in RowsOf(records, uid)
    {
      var rows := RowsOf(records, uid);
      SomeMember(rows);
      id :| id in rows;
    }

    method CreateRecord(uid: int, now: int)
      requires Valid()
      modifies this
      ensures records == old(records)[old(nextId) := Record(uid, 1, now)] && nextId == old(nextId) + 1
    {
      records := records[nextId := Record(uid, 1, now)];
      nextId := nextId + 1;
    }

    method LongerThen1min(uid: int, now: int) returns (longer: bool)
      requires Valid() && RowsOf(records, uid) != {}
      ensures forall id | id in RowsOf(records, uid) ::
                longer == LongerThan1Min(records[id].updatedAt, now) == (now - records[id].updatedAt >= 55_000)
    {
      var id := GetRecentRecordId(uid);
      var deltaTime := now - records[id].updatedAt;
      var deltaMinutes := (deltaTime + ADVANTAGE_SECOND) / (60 * 1000);
      longer := deltaMinutes >= 1;
    }

    method RecordTime(uid: int, now: int)
      requires Valid()
      modifies this
      ensures Valid()
      ensures records == AfterRecord(old(records), old(nextId), uid, now)
      ensures nextId == if RowsOf(old(records), uid) == {} then old(nextId) + 1 else old(nextId)
    {
      RecordKeepsOne(records, nextId, uid, now);
      var count := GetRecordCount(uid);
      if count == 0 {
        CreateRecord(uid, now);
      } else {
        var recordId := GetRecentRecordId(uid);
        var longer := LongerThen1min(uid, now);
        if longer {
          records := records[recordId := Record(uid, records[recordId].duration + 1, now)];
        }
        forall id | id in old(records) && id != recordId ensures old(records)[id].userId != uid {}
        assert records == AfterRecord(old(records), old(nextId), uid, now);
      }
    }

    method DeleteAllRecords(uid: int)
      requires Valid()
      modifies this`records
      ensures Valid() && records == AfterDelete(old(records), uid)
    {
      records := map id | id in records && records[id].userId != uid :: records[id];
    }
  }

  // ----- The greedy choice -----

  datatype Tally = Tally(duration: nat, last: int)

  /** What a call at `now` makes of a row, or of the lack of one. */
  function Tallied(before: Tally, now: int): Tally {
    if before.duration == 0 then Tally(1, now)
    else if LongerThan1Min(before.last, now) then Tally(before.duration + 1, now)
    else before
  }

  /** What a row of a user holds after calls at these times. */
  ghost function Greedy(times: seq<int>): (tally: Tally)
    ensures times == [] <==> tally.duration == 0
  {
    if times == [] then Tally(0, 0) else Tallied(Greedy(times[..|times| - 1]), times[|times| - 1])
  }

  lemma TalliedIff(before: Tally, now: int)
    ensures Tallied(before, now) ==
              if before.duration == 0 || now >= before.last + 55_000 then Tally(before.duration + 1, now) else before
  {
  }

  ghost predicate Nondecreasing(times: seq<int>) {
    forall i, j | 0 <= i < j < |times| :: times[i] <= times[j]
  }

  /** No call comes earlier than the last one counted before it. */
  ghost predicate Advances(times: seq<int>) {
    forall n {:trigger Greedy(times[..n])} | 0 < n < |times| :: Greedy(times[..n]).last <= times[n]
  }

  lemma AdvancesFront(times: seq<int>)
    requires Advances(times) && times != []
    ensures Advances(times[..|times| - 1])
  {
    var front := times[..|times| - 1];
    forall n | 0 < n < |front| ensures Greedy(front[..n]).last <= front[n] { assert front[..n] == times[..n]; }
  }

  lemma {:induction false} LastIsATime(times: seq<int>)
    requires times != []
    ensures Greedy(times).last in times
  {
    if |times| > 1 {
      LastIsATime(times[..|times| - 1]);
    } else {
      assert times[..0] == [] && times == [times[0]];
    }
  }

  /** Call times in order certainly do. */
  lemma NondecreasingAdvances(times: seq<int>)
    requires Nondecreasing(times)
    ensures Advances(times)
  {
    forall n | 0 < n < |times| ensures Greedy(times[..n]).last <= times[n] {
      LastIsATime(times[..n]);
      var i :| 0 <= i < n && times[..n][i] == Greedy(times[..n]).last;
    }
  }

  /** Every call so far came less than 55 seconds after the last counted one. */
  lemma {:induction false} AllBelowGap(times: seq<int>)
    ensures forall i | 0 <= i < |times| :: times[i] < Greedy(times).last + 55_000
  {
    if times != [] {
      var n := |times| - 1;
      AllBelowGap(times[..n]);
      forall i | 0 <= i < n ensures times[i] < Greedy(times).last + 55_000 { assert times[..n][i] == times[i]; }
    }
  }

  function Distance(a: int, b: int): nat { if a <= b then b - a else a - b }

  /** A choice of calls, by position, pairwise at least 55 seconds apart. */
  ghost predicate Spaced(times: seq<int>, picks: set<nat>) {
    && (forall i | i in picks :: i < |times|)
    && forall i, j | i in picks && j in picks && i != j :: Distance(times[i], times[j]) >= 55_000
  }

  /** A choice that ends early enough may add the last call. */
  lemma PickLast(times: seq<int>, picks: set<nat>)
    requires times != [] && Spaced(times[..|times| - 1], picks)
    requires forall i | i in picks :: times[i] + 55_000 <= times[|times| - 1]
    ensures Spaced(times, picks + {|times| - 1})
    ensures |picks + {|times| - 1}| == |picks| + 1
  {
    var front := times[..|times| - 1];
    forall i | i in picks ensures front[i] == times[i] {}
  }

  /** The calls so far, and the call at hand, leave no room before the tally's next minute. */
  ghost predicate Reached(times: seq<int>, picks: set<nat>, tally: Tally) {
    && |picks| <= tally.duration
    && (picks != {} && |picks| == tally.duration ==>
          exists i :: i in picks && i < |times| && times[i] >= tally.last)
  }

  /** A greedy choice up to the call before the last goes on as the tally does. */
  lemma GreedyPick(times: seq<int>, before: Tally, picks: set<nat>) returns (more: set<nat>)
    requires times != [] && Spaced(times[..|times| - 1], picks) && |picks| == before.duration
    requires forall i | i in picks :: times[i] <= before.last
    ensures var after := Tallied(before, times[|times| - 1]);
            Spaced(times, more) && |more| == after.duration && forall i | i in more :: times[i] <= after.last
    ensures more == if before.duration == 0 || times[|times| - 1] >= before.last + 55_000 then picks + {|times| - 1} else picks
  {
    var n := |times| - 1;
    TalliedIff(before, times[n]);
    if before.duration == 0 || times[n] >= before.last + 55_000 {
      PickLast(times, picks);
      more := picks + {n};
    } else {
      forall i | i in picks ensures times[i] == times[..n][i] {}
      more := picks;
    }
  }

  /** The greedy choice, and that its last pick is the tally's last. */
  lemma {:induction false} GreedyIsSpaced(times: seq<int>) returns (picks: set<nat>)
    ensures Spaced(times, picks) && |picks| == Greedy(times).duration
    ensures forall i | i in picks :: times[i] <= Greedy(times).last
  {
    if times == [] {
      picks := {};
    } else {
      var front := times[..|times| - 1];
      var some := GreedyIsSpaced(front);
      forall i | i in some ensures times[i] <= Greedy(front).last { assert front[i] == times[i]; }
      picks := GreedyPick(times, Greedy(front), some);
    }
  }

  lemma SpacedFront(times: seq<int>, picks: set<nat>)
    requires times != [] && Spaced(times, picks)
    ensures Spaced(times[..|times| - 1], picks - {|times| - 1})
  {
    forall i | i in picks && i != |times| - 1 ensures times[..|times| - 1][i] == times[i] {}
  }

  /** The last call is not picked. */
  lemma OneMoreKeeps(times: seq<int>, picks: set<nat>, before: Tally)
    requires times != [] && Spaced(times[..|times| - 1], picks)
    requires before.duration > 0 ==> before.last <= times[|times| - 1]
    requires Reached(times[..|times| - 1], picks, before)
    ensures Reached(times, picks, Tallied(before, times[|times| - 1]))
  {
    var n := |times| - 1;
    TalliedIff(before, times[n]);
    if picks != {} && |picks| == Tallied(before, times[n]).duration {
      var i :| i in picks && i < n && times[..n][i] >= before.last;
      assert times[i] == times[..n][i];
    }
  }

  /**
   The last call is picked: then the rest is smaller than the greedy choice, or greedy takes
   the call too. Otherwise some pick and the last call both lie in the gap after the last
   counted call.
   */
  lemma LastCannotFollow(times: seq<int>, picks: set<nat>, before: Tally)
    requires times != [] && Spaced(times, picks) && |times| - 1 in picks
    requires before.duration > 0 ==> before.last <= times[|times| - 1]
    requires var front := times[..|times| - 1]; forall i | 0 <= i < |front| :: front[i] < before.last + 55_000
    requires Reached(times[..|times| - 1], picks - {|times| - 1}, before)
    ensures Reached(times, picks, Tallied(before, times[|times| - 1]))
  {
    var n := |times| - 1;
    var rest := picks - {n};
    TalliedIff(before, times[n]);
    assert |picks| == |rest| + 1;
    if before.duration > 0 && |rest| == before.duration {
      var i :| i in rest && i < n && times[..n][i] >= before.last;
      assert times[..n][i] == times[i] && Distance(times[i], times[n]) >= 55_000;
    }
  }

  /** Any spaced choice is no larger; one as large ends no earlier than the greedy one. */
  lemma {:induction false} GreedyIsLargest(times: seq<int>, picks: set<nat>)
    requires Advances(times) && Spaced(times, picks)
    ensures Reached(times, picks, Greedy(times))
  {
    if times == [] {
      assert picks == {};
    } else {
      var n := |times| - 1;
      var front := times[..n];
      var rest := picks - {n};
      AdvancesFront(times);
      SpacedFront(times, picks);
      GreedyIsLargest(front, rest);
      if n in picks {
        AllBelowGap(front);
        LastCannotFollow(times, picks, Greedy(front));
      } else {
        assert picks == rest;
        OneMoreKeeps(times, picks, Greedy(front));
      }
    }
  }

  /**
   For any call times of which none is earlier than the last one counted before it, so for
   any nondecreasing ones, the stored duration is the size of a largest choice of calls
   pairwise at least 55 seconds apart.
   */
  lemma GreedyIsOptimal(times: seq<int>) returns (best: set<nat>)
    requires Nondecreasing(times) || Advances(times)
    ensures Spaced(times, best) && |best| == Greedy(times).duration
    ensures forall picks | Spaced(times, picks) :: |picks| <= Greedy(times).duration
  {
    if Nondecreasing(times) { NondecreasingAdvances(times); }
    best := GreedyIsSpaced(times);
    forall picks | Spaced(times, picks) ensures |picks| <= Greedy(times).duration {
      GreedyIsLargest(times, picks);
    }
  }

  lemma SpansFit(first: int, counted: int, last: int, d: int)
    requires counted - first >= 55_000 * (d - 1) && counted <= last
    ensures d <= 1 + (last - first) / 55_000
  {
  }

  lemma {:induction false} TallySpan(times: seq<int>)
    requires times != []
    ensures Greedy(times).last - times[0] >= 55_000 * (Greedy(times).duration - 1)
  {
    if |times| > 1 {
      TallySpan(times[..|times| - 1]);
    } else {
      assert times[..0] == [];
    }
  }

  lemma {:induction false} LastInRange(times: seq<int>)
    requires times != [] && Advances(times)
    ensures Greedy(times).last <= times[|times| - 1]
  {
    var n := |times| - 1;
    if n > 0 {
      assert Greedy(times[..n]).last <= times[n];
    }
  }

  /** Hence the duration is at most one more than the whole 55-second spans between first and last call. */
  lemma DurationBound(times: seq<int>)
    requires times != [] && (Nondecreasing(times) || Advances(times))
    ensures Greedy(times).duration <= 1 + (times[|times| - 1] - times[0]) / 55_000
  {
    if Nondecreasing(times) { NondecreasingAdvances(times); }
    TallySpan(times);
    LastInRange(times);
    SpansFit(times[0], Greedy(times).last, times[|times| - 1], Greedy(times).duration);
  }

  /** The order matters: were the clock to step back, greedy could miss one. */
  lemma ClockSteppingBackLoses()
    ensures var times := [100000, 0, 60000];
            Greedy(times).duration == 1 && Spaced(times, {0, 1}) && |{0, 1}| == 2
  {
    var times := [100000, 0, 60000];
    assert times[..2] == [100000, 0] && times[..2][..1] == [100000] && times[..1][..0] == [];
    assert Greedy([100000]) == Tally(1, 100000);
    assert Greedy([100000, 0]) == Tally(1, 100000) by { assert [100000, 0][..1] == [100000]; }
  }

  lemma {:induction false} DipIsBefore(times: seq<int>, m: nat)
    requires 0 < m < |times| && forall i | 0 <= i < m :: times[m] + 55_000 <= times[i]
    ensures Greedy(times).duration > 0 && times[m] + 55_000 <= Greedy(times).last
  {
    var n := |times| - 1;
    TalliedIff(Greedy(times[..n]), times[n]);
    if m < n {
      DipIsBefore(times[..n], m);
    } else {
      LastIsATime(times[..n]);
      var i :| 0 <= i < n && times[..n][i] == Greedy(times[..n]).last;
    }
  }

  /** The greedy choice stays clear of a call that came 55 seconds before everything before it. */
  lemma {:induction false} ClearOfDip(times: seq<int>, m: nat) returns (picks: set<nat>)
    requires 0 < m < |times| && forall i | 0 <= i < m :: times[m] + 55_000 <= times[i]
    ensures Spaced(times, picks) && |picks| == Greedy(times).duration
    ensures forall i | i in picks :: times[m] + 55_000 <= times[i] <= Greedy(times).last
  {
    var n := |times| - 1;
    var front := times[..n];
    var some: set<nat>;
    if m < n {
      some := ClearOfDip(front, m);
      DipIsBefore(front, m);
    } else {
      some := GreedyIsSpaced(front);
    }
    forall i | i in some ensures times[i] <= Greedy(front).last { assert front[i] == times[i]; }
    picks := GreedyPick(times, Greedy(front), some);
    TalliedIff(Greedy(front), times[n]);
    DipIsBefore(times, m);
  }

  /**
   A clock that steps back far enough always costs: with a call at least 55 seconds earlier
   than every call before it, the tally is smaller than some spaced choice.
   */
  lemma EarlyCallLoses(times: seq<int>, m: nat) returns (better: set<nat>)
    requires 0 < m < |times| && forall i | 0 <= i < m :: times[m] + 55_000 <= times[i]
    ensures Spaced(times, better) && |better| == Greedy(times).duration + 1
  {
    var picks := ClearOfDip(times, m);
    better := picks + {m};
  }

  // ----- Calls in any order -----

  /** Every position below `n`, once. */
  ghost predicate ListsAll(order: seq<nat>, n: nat) {
    && (forall i | 0 <= i < |order| :: order[i] < n)
    && (forall x: nat | x < n :: x in order)
    && forall i, j | 0 <= i < j < |order| :: order[i] != order[j]
  }

  /** The call times, taken in this order. */
  ghost function InOrder(times: seq<int>, order: seq<nat>): seq<int>
    requires forall i | 0 <= i < |order| :: order[i] < |times|
  {
    seq(|order|, i requires 0 <= i < |order| => times[order[i]])
  }

  /** Where a time belongs among sorted ones. */
  lemma {:induction false} PlaceFor(sorted: seq<int>, x: int) returns (k: nat)
    requires Nondecreasing(sorted)
    ensures k <= |sorted| && (forall i | 0 <= i < k :: sorted[i] <= x) && forall i | k <= i < |sorted| :: x <= sorted[i]
  {
    if sorted == [] || sorted[|sorted| - 1] <= x {
      k := |sorted|;
    } else {
      k := PlaceFor(sorted[..|sorted| - 1], x);
    }
  }

  lemma ListsMore(order: seq<nat>, n: nat, k: nat)
    requires ListsAll(order, n) && k <= |order|
    ensures ListsAll(order[..k] + [n] + order[k..], n + 1)
  {
    var more := order[..k] + [n] + order[k..];
    assert order == order[..k] + order[k..];
    forall x: nat | x < n + 1 ensures x in more {
      if x < n { assert x in order[..k] + order[k..]; }
    }
    forall i, j | 0 <= i < j < |more| ensures more[i] != more[j] {
      var a, b := if i <= k then i else i - 1, if j <= k then j else j - 1;
      if i != k && j != k { assert order[a] != order[b]; }
    }
  }

  lemma InsertedIsSorted(times: seq<int>, order: seq<nat>, k: nat)
    requires times != [] && ListsAll(order, |times| - 1) && k <= |order|
    requires var sorted := InOrder(times, order);
             && Nondecreasing(sorted) && (forall i | 0 <= i < k :: sorted[i] <= times[|times| - 1])
             && forall i | k <= i < |sorted| :: times[|times| - 1] <= sorted[i]
    ensures ListsAll(order[..k] + [|times| - 1] + order[k..], |times|)
    ensures Nondecreasing(InOrder(times, order[..k] + [|times| - 1] + order[k..]))
  {
    var sorted := InOrder(times, order);
    ListsMore(order, |times| - 1, k);
    assert InOrder(times, order[..k] + [|times| - 1] + order[k..]) == sorted[..k] + [times[|times| - 1]] + sorted[k..];
  }

  /** The calls can be put in order of time. */
  lemma {:induction false} SortedOrder(times: seq<int>) returns (order: seq<nat>)
    ensures ListsAll(order, |times|) && Nondecreasing(InOrder(times, order))
  {
    if times == [] {
      order := [];
    } else {
      var n := |times| - 1;
      var some := SortedOrder(times[..n]);
      assert InOrder(times, some) == InOrder(times[..n], some);
      var k := PlaceFor(InOrder(times, some), times[n]);
      InsertedIsSorted(times, some, k);
      order := some[..k] + [n] + some[k..];
    }
  }

  ghost function Positions(order: seq<nat>, picks: set<nat>): set<nat> {
    set i | i in picks && i < |order| :: order[i]
  }

  lemma {:induction false} AsManyPositions(order: seq<nat>, n: nat, picks: set<nat>)
    requires ListsAll(order, n) && forall i | i in picks :: i < |order|
    ensures |Positions(order, picks)| == |picks|
    decreases picks
  {
    if picks == {} {
      assert Positions(order, picks) == {};
    } else {
      var i :| i in picks;
      AsManyPositions(order, n, picks - {i});
      assert Positions(order, picks) == Positions(order, picks - {i}) + {order[i]};
      assert order[i] !in Positions(order, picks - {i});
    }
  }

  /** A choice among the sorted calls is one among the calls as they came. */
  lemma SpacedAsCame(times: seq<int>, order: seq<nat>, picks: set<nat>)
    requires ListsAll(order, |times|) && Spaced(InOrder(times, order), picks)
    ensures Spaced(times, Positions(order, picks)) && |Positions(order, picks)| == |picks|
  {
    AsManyPositions(order, |times|, picks);
    var sorted := InOrder(times, order);
    forall x, y | x in Positions(order, picks) && y in Positions(order, picks) && x != y
      ensures Distance(times[x], times[y]) >= 55_000
    {
      var i :| i in picks && i < |order| && order[i] == x;
      var j :| j in picks && j < |order| && order[j] == y;
      assert Distance(sorted[i], sorted[j]) >= 55_000;
    }
  }

  lemma SpacedSorted(times: seq<int>, order: seq<nat>, picks: set<nat>) returns (same: set<nat>)
    requires ListsAll(order, |times|) && Spaced(times, picks)
    ensures Spaced(InOrder(times, order), same) && |same| == |picks|
  {
    same := set i: nat | i < |order| && order[i] in picks;
    AsManyPositions(order, |times|, same);
    forall x | x in picks ensures x in Positions(order, same) {
      assert x in order;
      var i: nat :| i < |order| && order[i] == x;
      assert i in same;
    }
    assert Positions(order, same) == picks;
  }

  /** No spaced choice of calls is larger than the tally. */
  ghost predicate Optimal(times: seq<int>) {
    forall picks | Spaced(times, picks) :: |picks| <= Greedy(times).duration
  }

  /**
   Exactly when greedy is optimal, for call times in any order: a largest choice has as many
   calls as greedy counts when they come in order of time, so the tally of the calls as they
   came is a largest one if and only if it is as large as that.
   */
  lemma OptimalIff(times: seq<int>) returns (order: seq<nat>)
    ensures ListsAll(order, |times|) && Nondecreasing(InOrder(times, order))
    ensures exists best :: Spaced(times, best) && |best| == Greedy(InOrder(times, order)).duration
    ensures forall picks | Spaced(times, picks) :: |picks| <= Greedy(InOrder(times, order)).duration
    ensures Optimal(times) <==> Greedy(times).duration == Greedy(InOrder(times, order)).duration
  {
    order := SortedOrder(times);
    var sorted := InOrder(times, order);
    var best := GreedyIsOptimal(sorted);
    SpacedAsCame(times, order, best);
    forall picks | Spaced(times, picks) ensures |picks| <= Greedy(sorted).duration {
      var same := SpacedSorted(times, order, picks);
    }
    var own := GreedyIsSpaced(times);
  }

  // ----- Runs of the service -----

  datatype Call = Recorded(uid: int, now: int) | Deleted(uid: int)

  datatype Store = Store(table: Table, nextId: int)

  ghost function StoreAfter(calls: seq<Call>): Store {
    if calls == [] then Store(map[], 1)
    else
      var before := StoreAfter(calls[..|calls| - 1]);
      match calls[|calls| - 1]
      case Recorded(uid, now) =>
        Store(AfterRecord(before.table, before.nextId, uid, now),
              if RowsOf(before.table, uid) == {} then before.nextId + 1 else before.nextId)
      case Deleted(uid) => Store(AfterDelete(before.table, uid), before.nextId)
  }

  /** The times of a user's calls since its records were last deleted. */
  ghost function TimesSinceDelete(calls: seq<Call>, uid: int): seq<int> {
    if calls == [] then []
    else
      var before := TimesSinceDelete(calls[..|calls| - 1], uid);
      var last := calls[|calls| - 1];
      if last.uid != uid then before
      else if last.Recorded? then before + [last.now] else []
  }

  /** The table holds for this user exactly the tally of those times. */
  ghost predicate Holds(store: Store, uid: int, times: seq<int>) {
    var rows := RowsOf(store.table, uid);
    if times == [] then rows == {}
    else exists id :: rows == {id} && id in store.table &&
                      store.table[id] == Record(uid, Greedy(times).duration, Greedy(times).last)
  }

  lemma RecordHolds(store: Store, uid: int, now: int, user: int, times: seq<int>)
    requires OneEach(store.table, store.nextId) && Holds(store, user, times)
    ensures Holds(Store(AfterRecord(store.table, store.nextId, uid, now), store.nextId + 1), user,
                  if uid == user then times + [now] else times)
  {
    var table := AfterRecord(store.table, store.nextId, uid, now);
    var more := if uid == user then times + [now] else times;
    assert uid == user ==> more[..|more| - 1] == times;
    if times == [] {
      if uid == user {
        assert RowsOf(table, user) == {store.nextId};
      } else {
        assert RowsOf(table, user) == {};
      }
    } else {
      var id :| RowsOf(store.table, user) == {id} && id in store.table &&
                store.table[id] == Record(user, Greedy(times).duration, Greedy(times).last);
      assert id in RowsOf(store.table, user);
      assert RowsOf(table, user) == {id};
    }
  }

  /**
   Over any run of calls by any users, no user has two rows, and a user's row holds the
   greedy tally of its own calls since its records were last deleted.
   */
  lemma {:induction false} EveryRowIsGreedy(calls: seq<Call>, uid: int)
    ensures OneEach(StoreAfter(calls).table, StoreAfter(calls).nextId)
    ensures Holds(StoreAfter(calls), uid, TimesSinceDelete(calls, uid))
  {
    if calls != [] {
      var front := calls[..|calls| - 1];
      var last := calls[|calls| - 1];
      var before := StoreAfter(front);
      EveryRowIsGreedy(front, uid);
      if last.Recorded? {
        RecordKeepsOne(before.table, before.nextId, last.uid, last.now);
        RecordHolds(before, last.uid, last.now, uid, TimesSinceDelete(front, uid));
      } else {
        assert RowsOf(AfterDelete(before.table, last.uid), uid) ==
                 if last.uid == uid then {} else RowsOf(before.table, uid);
      }
    }
  }

  /**
   So the duration a user finds stored is the most calls since the last delete that lie
   pairwise at least 55 seconds apart, and is bounded by the time between first and last.
   */
  lemma StoredDurationIsOptimal(calls: seq<Call>, uid: int, id: int) returns (best: set<nat>)
    requires id in RowsOf(StoreAfter(calls).table, uid)
    requires Nondecreasing(TimesSinceDelete(calls, uid)) || Advances(TimesSinceDelete(calls, uid))
    ensures var times := TimesSinceDelete(calls, uid);
            var duration := StoreAfter(calls).table[id].duration;
            && Spaced(times, best) && duration == |best|
            && (forall picks | Spaced(times, picks) :: |picks| <= duration)
            && times != [] && duration <= 1 + (times[|times| - 1] - times[0]) / 55_000
  {
    var times := TimesSinceDelete(calls, uid);
    EveryRowIsGreedy(calls, uid);
    best := GreedyIsOptimal(times);
    DurationBound(times);
  }
}
