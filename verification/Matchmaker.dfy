/**
 Admission of find-game requests and the choice of a room
 (services/api-server/src/matchmaker.ts).
 */
module Matchmaker {
  import opened Wrappers

  // --- the capacity window --------------------------------------------------------------

  const WINDOW_MS := 1000

  /** The times within the last second before now, or after now. */
  function Recent(times: seq<int>, now: int): seq<int> {
    if times == [] then []
    else (if times[0] > now - WINDOW_MS then [times[0]] else []) + Recent(times[1..], now)
  }

  /** How many times lie within the second that ends at t. */
  ghost function InWindow(times: seq<int>, t: int): nat {
    if times == [] then 0
    else (if t - 1000 < times[0] <= t then 1 else 0) + InWindow(times[1..], t)
  }

  /** Which of the times lie within the second that ends at t. */
  ghost function LastSecond(times: seq<int>, t: int): set<nat> {
    set k: nat | k < |times| && t - 1000 < times[k] <= t
  }

  lemma {:induction false} InWindowCounts(times: seq<int>, t: int)
    ensures InWindow(times, t) == |LastSecond(times, t)|
    decreases |times|
  {
    if times != [] {
      var n := |times| - 1;
      var before, last := times[..n], times[n];
      InWindowCounts(before, t);
      InWindowConcat(before, [last], t);
      assert times == before + [last];
      assert [last][1..] == [];
      assert LastSecond(times, t) ==
             if t - 1000 < last <= t then LastSecond(before, t) + {n} else LastSecond(before, t);
      assert n !in LastSecond(before, t);
    }
  }

  /** One request against the pruned list: the new list, and whether capacity was reserved. */
  ghost function Reserve(capacity: nat, admitted: seq<int>, now: int): (seq<int>, bool) {
    var recent := Recent(admitted, now);
    if |recent| >= capacity then (recent, false) else (recent + [now], true)
  }

  /** The pruned list after requests at the given times. */
  ghost function Pruned(capacity: nat, requests: seq<int>): seq<int>
    decreases |requests|
  {
    if requests == [] then []
    else Reserve(capacity, Pruned(capacity, requests[..|requests| - 1]), requests[|requests| - 1]).0
  }

  ghost predicate Admits(capacity: nat, before: seq<int>, now: int) {
    Reserve(capacity, Pruned(capacity, before), now).1
  }

  /** Every reservation ever made. */
  ghost function History(capacity: nat, requests: seq<int>): seq<int>
    decreases |requests|
  {
    if requests == [] then []
    else
      var before, now := requests[..|requests| - 1], requests[|requests| - 1];
      History(capacity, before) + (if Admits(capacity, before, now) then [now] else [])
  }

  ghost predicate NonDecreasing(times: seq<int>) {
    forall i, j :: 0 <= i < j < |times| ==> times[i] <= times[j]
  }

  lemma {:induction false} RecentConcat(a: seq<int>, b: seq<int>, now: int)
    ensures Recent(a + b, now) == Recent(a, now) + Recent(b, now)
  {
    if a == [] {
      assert a + b == b;
    } else {
      var first := if a[0] > now - WINDOW_MS then [a[0]] else [];
      var whole := a + b;
      assert whole[0] == a[0] && whole[1..] == a[1..] + b;
      RecentConcat(a[1..], b, now);
      assert first + (Recent(a[1..], now) + Recent(b, now)) == (first + Recent(a[1..], now)) + Recent(b, now);
    }
  }

  lemma {:induction false} RecentAgain(times: seq<int>, earlier: int, now: int)
    requires earlier <= now
    ensures Recent(Recent(times, earlier), now) == Recent(times, now)
  {
    if times != [] {
      RecentAgain(times[1..], earlier, now);
      var kept := if times[0] > earlier - WINDOW_MS then [times[0]] else [];
      RecentConcat(kept, Recent(times[1..], earlier), now);
      assert Recent(kept, now) == if times[0] > now - WINDOW_MS then [times[0]] else [];
    }
  }

  lemma {:induction false} InWindowConcat(a: seq<int>, b: seq<int>, t: int)
    ensures InWindow(a + b, t) == InWindow(a, t) + InWindow(b, t)
  {
    if a == [] {
      assert a + b == b;
    } else {
      assert (a + b)[1..] == a[1..] + b;
      InWindowConcat(a[1..], b, t);
    }
  }

  /** Of times that are all past, the recent ones are those in the window that ends now, and no
      later window holds more of them. */
  lemma {:induction false} RecentIsWindow(times: seq<int>, now: int, t: int)
    requires forall k | 0 <= k < |times| :: times[k] <= now
    requires now <= t
    ensures |Recent(times, now)| == InWindow(times, now) >= InWindow(times, t)
  {
    if times != [] {
      RecentIsWindow(times[1..], now, t);
    }
  }

  lemma {:induction false} HistoryIsPast(capacity: nat, requests: seq<int>)
    requires NonDecreasing(requests) && requests != []
    ensures forall k | 0 <= k < |History(capacity, requests)| ::
              History(capacity, requests)[k] <= requests[|requests| - 1]
    decreases |requests|
  {
    if |requests| > 1 {
      HistoryIsPast(capacity, requests[..|requests| - 1]);
    }
  }

  /** The list that forgets agrees with the history that does not. */
  lemma {:induction false} PrunedAgrees(capacity: nat, requests: seq<int>)
    requires NonDecreasing(requests) && requests != []
    ensures Pruned(capacity, requests) == Recent(History(capacity, requests), requests[|requests| - 1])
    decreases |requests|
  {
    var before, now := requests[..|requests| - 1], requests[|requests| - 1];
    if before != [] {
      PrunedAgrees(capacity, before);
      RecentAgain(History(capacity, before), before[|before| - 1], now);
    }
    RecentConcat(History(capacity, before), [now], now);
    assert Recent([now], now) == [now];
    assert Pruned(capacity, before) == [] || before != [];
    assert Recent(Pruned(capacity, before), now) == Recent(History(capacity, before), now);
    assert History(capacity, before) + [] == History(capacity, before);
  }

  /** A request is turned away for rate exactly when the last second already holds as many
      reservations as there is capacity. */
  lemma LimitedIffWindowFull(capacity: nat, before: seq<int>, now: int)
    requires NonDecreasing(before + [now])
    ensures !Admits(capacity, before, now) <==> InWindow(History(capacity, before), now) >= capacity
    ensures !Admits(capacity, before, now) <==> |LastSecond(History(capacity, before), now)| >= capacity
  {
    var requests := before + [now];
    assert NonDecreasing(before) by {
      forall i, j | 0 <= i < j < |before|
        ensures before[i] <= before[j]
      {
        assert requests[i] == before[i] && requests[j] == before[j];
      }
    }
    if before != [] {
      assert before[|before| - 1] == requests[|before| - 1] <= requests[|before|] == now;
      PrunedAgrees(capacity, before);
      RecentAgain(History(capacity, before), before[|before| - 1], now);
      HistoryIsPast(capacity, before);
    }
    RecentIsWindow(History(capacity, before), now, now);
    InWindowCounts(History(capacity, before), now);
  }

  /** No second, wherever it ends, holds more reservations than there is capacity. */
  lemma {:induction false} NoWindowExceeds(capacity: nat, requests: seq<int>, t: int)
    requires NonDecreasing(requests)
    ensures InWindow(History(capacity, requests), t) == |LastSecond(History(capacity, requests), t)| <= capacity
    decreases |requests|
  {
    InWindowCounts(History(capacity, requests), t);
    if requests != [] {
      var before, now := requests[..|requests| - 1], requests[|requests| - 1];
      assert requests == before + [now];
      NoWindowExceeds(capacity, before, t);
      InWindowConcat(History(capacity, before), [now], t);
      assert History(capacity, before) + [] == History(capacity, before);
      if Admits(capacity, before, now) && now <= t {
        LimitedIffWindowFull(capacity, before, now);
        if before != [] {
          HistoryIsPast(capacity, before);
        }
        RecentIsWindow(History(capacity, before), now, t);
      }
    }
  }

  lemma OneMoreRequest(capacity: nat, before: seq<int>, now: int)
    ensures Pruned(capacity, before + [now]) == Reserve(capacity, Pruned(capacity, before), now).0
    ensures History(capacity, before + [now]) ==
              History(capacity, before) + (if Admits(capacity, before, now) then [now] else [])
  {
    assert (before + [now])[..|before|] == before;
  }

  ghost function Repeat(x: int, n: nat): (r: seq<int>)
    ensures |r| == n
  {
    seq(n, _ => x)
  }

  lemma {:induction false} RepeatedTimes(x: int, n: nat, now: int)
    ensures Recent(Repeat(x, n), now) == if x > now - WINDOW_MS then Repeat(x, n) else []
    ensures InWindow(Repeat(x, n), now) == if now - WINDOW_MS < x <= now then n else 0
  {
    if n > 0 {
      RepeatedTimes(x, n - 1, now);
      assert Repeat(x, n)[1..] == Repeat(x, n - 1);
      assert Repeat(x, n) == [x] + Repeat(x, n - 1);
    }
  }

  lemma {:induction false} FillsUp(capacity: nat, x: int, n: nat)
    requires n <= capacity
    ensures Pruned(capacity, Repeat(x, n)) == Repeat(x, n) == History(capacity, Repeat(x, n))
  {
    if n > 0 {
      FillsUp(capacity, x, n - 1);
      assert Repeat(x, n) == Repeat(x, n - 1) + [x];
      OneMoreRequest(capacity, Repeat(x, n - 1), x);
      RepeatedTimes(x, n - 1, x);
    }
  }

  /** A time that one reading prunes and a lower reading still has in its window. */
  ghost function Forgotten(a: int, b: int): int {
    if b <= a - WINDOW_MS then b else a - WINDOW_MS
  }

  lemma ForgottenYetRecent(a: int, b: int)
    requires b < a
    ensures Forgotten(a, b) <= a - WINDOW_MS && b - WINDOW_MS < Forgotten(a, b) <= b
  {
  }

  /** The window ending at b holds n reservations at x and one at b, but not the one at a. */
  lemma OneTooMany(x: int, n: nat, a: int, b: int)
    requires b - WINDOW_MS < x <= b < a
    ensures InWindow(Repeat(x, n) + [a] + [b], b) == n + 1
  {
    RepeatedTimes(x, n, b);
    InWindowConcat(Repeat(x, n) + [a], [b], b);
    InWindowConcat(Repeat(x, n), [a], b);
  }

  /** A reading that finds everything forgotten lets the next, lower one in again. */
  lemma BothAdmitted(capacity: nat, x: int, a: int, b: int)
    requires capacity >= 2 && x <= a - WINDOW_MS && b < a
    ensures History(capacity, Repeat(x, capacity) + [a] + [b]) == Repeat(x, capacity) + [a] + [b]
  {
    var before := Repeat(x, capacity);
    FillsUp(capacity, x, capacity);
    RepeatedTimes(x, capacity, a);
    OneMoreRequest(capacity, before, a);
    assert Pruned(capacity, before + [a]) == [a];
    assert Recent([a], b) == [a];
    OneMoreRequest(capacity, before + [a], b);
  }

  /** Any two readings of which the second is lower let a second hold too many: the first one
      forgets reservations that the second one should have counted. */
  lemma FallingClockExceeds(capacity: nat, a: int, b: int)
    requires capacity >= 2 && b < a
    ensures InWindow(History(capacity, Repeat(Forgotten(a, b), capacity) + [a] + [b]), b) == capacity + 1
  {
    ForgottenYetRecent(a, b);
    BothAdmitted(capacity, Forgotten(a, b), a, b);
    OneTooMany(Forgotten(a, b), capacity, a, b);
  }

  lemma NonDecreasingSnoc(times: seq<int>, a: int, b: int)
    requires NonDecreasing(times + [a]) && a <= b
    ensures NonDecreasing(times + [a] + [b])
  {
    var shorter, longer := times + [a], times + [a] + [b];
    forall i, j | 0 <= i < j < |longer|
      ensures longer[i] <= longer[j]
    {
      assert i < |shorter| && longer[i] == shorter[i] <= shorter[|shorter| - 1];
    }
  }

  /** With room for two or more, the capacity is safe after a reading a, whatever the clock
      read before without falling, exactly if the next reading b is not lower. */
  lemma ClockConditionIsExact(capacity: nat, a: int, b: int)
    requires capacity >= 2
    ensures (forall before: seq<int> | NonDecreasing(before + [a]) ::
               InWindow(History(capacity, before + [a] + [b]), b) <= capacity) <==> a <= b
  {
    if a <= b {
      forall before: seq<int> | NonDecreasing(before + [a])
        ensures InWindow(History(capacity, before + [a] + [b]), b) <= capacity
      {
        NonDecreasingSnoc(before, a, b);
        NoWindowExceeds(capacity, before + [a] + [b], b);
      }
    } else {
      FallingClockExceeds(capacity, a, b);
      assert NonDecreasing(Repeat(Forgotten(a, b), capacity) + [a]);
    }
  }

  ghost predicate Sparse(times: seq<int>) {
    forall i, j :: 0 <= i < j < |times| ==> times[i] + WINDOW_MS <= times[j]
  }

  lemma {:induction false} NoneInWindow(times: seq<int>, t: int)
    requires forall k | 0 <= k < |times| :: times[k] > t
    ensures InWindow(times, t) == 0
  {
    if times != [] {
      NoneInWindow(times[1..], t);
    }
  }

  lemma {:induction false} SparseWindow(times: seq<int>, t: int)
    requires Sparse(times)
    ensures InWindow(times, t) <= 1
  {
    if times != [] {
      SparseWindow(times[1..], t);
      if t - WINDOW_MS < times[0] <= t {
        NoneInWindow(times[1..], t);
      }
    }
  }

  lemma {:induction false} SingleSlotIsSparse(requests: seq<int>)
    ensures Sparse(History(1, requests))
    ensures requests != [] ==>
              var h := History(1, requests); h != [] && Pruned(1, requests) == [h[|h| - 1]]
    decreases |requests|
  {
    if requests != [] {
      var before, now := requests[..|requests| - 1], requests[|requests| - 1];
      SingleSlotIsSparse(before);
      var pruned := Pruned(1, before);
      assert before != [] ==> Recent(pruned, now) == if pruned[0] > now - WINDOW_MS then pruned else [];
    }
  }

  /** With room for one, no clock however wrong lets a second hold two. */
  lemma SingleSlotNeverExceeds(requests: seq<int>, t: int)
    ensures InWindow(History(1, requests), t) == |LastSecond(History(1, requests), t)| <= 1
  {
    InWindowCounts(History(1, requests), t);
    SingleSlotIsSparse(requests);
    SparseWindow(History(1, requests), t);
  }

  // --- the choice of a room ------------------------------------------------------------------

  datatype Status = Running | Waiting | Inactive
  datatype Room = Room(
    roomId: string, ordinal: int, status: Status, joinLocked: Option<bool>, players: int, maxPlayers: Option<int>)

  predicate Eligible(room: Room) {
    && room.status == Running
    && room.joinLocked != Some(true)
    && room.players < (if room.maxPlayers.Some? then room.maxPlayers.value else 100)
  }

  function EligibleOf(listed: seq<Room>): seq<Room> {
    if listed == [] then []
    else (if Eligible(listed[0]) then [listed[0]] else []) + EligibleOf(listed[1..])
  }

  predicate Before(a: Room, b: Room) {
    a.players < b.players || (a.players == b.players && a.ordinal < b.ordinal)
  }

  function InsertRoom(room: Room, sorted: seq<Room>): seq<Room> {
    if sorted == [] || !Before(sorted[0], room) then [room] + sorted else [sorted[0]] + InsertRoom(room, sorted[1..])
  }

  /** A stable sort by players, then ordinal. */
  function SortRooms(rooms: seq<Room>): seq<Room> {
    if rooms == [] then [] else InsertRoom(rooms[0], SortRooms(rooms[1..]))
  }

  function Find(rooms: seq<Room>, roomId: string): Option<Room> {
    if rooms == [] then None else if rooms[0].roomId == roomId then Some(rooms[0]) else Find(rooms[1..], roomId)
  }

  function Choose(listed: seq<Room>, requested: Option<string>): Option<Room> {
    var rooms := EligibleOf(listed);
    if rooms == [] then None
    else if requested.Some? && requested.value != "" then Find(rooms, requested.value)
    else
      var sorted := SortRooms(rooms);
      if sorted == [] then None else Some(sorted[0])
  }

  ghost predicate BestEligible(listed: seq<Room>, k: int) {
    && 0 <= k < |listed| && Eligible(listed[k])
    && (forall j | 0 <= j < |listed| && Eligible(listed[j]) :: !Before(listed[j], listed[k]))
    && (forall j | 0 <= j < k && Eligible(listed[j]) :: Before(listed[k], listed[j]))
  }

  ghost predicate NamedEligible(listed: seq<Room>, roomId: string, k: int) {
    && 0 <= k < |listed| && Eligible(listed[k]) && listed[k].roomId == roomId
    && forall j | 0 <= j < k && Eligible(listed[j]) :: listed[j].roomId != roomId
  }

  /** The room runs, is not locked against joining, and has a place left; without a limit of
      its own it has 100. */
  ghost predicate Joinable(room: Room) {
    && room.status == Running
    && (room.joinLocked.Some? ==> room.joinLocked.value == false)
    && (room.maxPlayers == None ==> room.players < 100)
    && (room.maxPlayers.Some? ==> room.players < room.maxPlayers.value)
  }

  /** The k-th listed room is joinable, and has fewer players than any other joinable one, or
      as many and a lower ordinal, or is alike in both and listed first. */
  ghost predicate FirstBest(listed: seq<Room>, k: int) {
    && 0 <= k < |listed| && Joinable(listed[k])
    && forall j | 0 <= j < |listed| && Joinable(listed[j]) ::
         || listed[k].players < listed[j].players
         || (listed[k].players == listed[j].players && listed[k].ordinal < listed[j].ordinal)
         || (listed[k].players == listed[j].players && listed[k].ordinal == listed[j].ordinal && k <= j)
  }

  ghost predicate FirstNamed(listed: seq<Room>, roomId: string, k: int) {
    && 0 <= k < |listed| && Joinable(listed[k]) && listed[k].roomId == roomId
    && forall j | 0 <= j < k && Joinable(listed[j]) :: listed[j].roomId != roomId
  }

  lemma {:induction false} SortKeepsLength(rooms: seq<Room>)
    ensures |SortRooms(rooms)| == |rooms|
  {
    if rooms != [] {
      SortKeepsLength(rooms[1..]);
      InsertLength(rooms[0], SortRooms(rooms[1..]));
    }
  }

  lemma {:induction false} InsertLength(room: Room, sorted: seq<Room>)
    ensures |InsertRoom(room, sorted)| == |sorted| + 1
  {
    if sorted != [] {
      InsertLength(room, sorted[1..]);
    }
  }

  lemma {:induction false} FindsBest(listed: seq<Room>) returns (k: int)
    ensures Choose(listed, None) == None ==> forall j | 0 <= j < |listed| :: !Eligible(listed[j])
    ensures Choose(listed, None).Some? ==> BestEligible(listed, k) && Choose(listed, None) == Some(listed[k])
  {
    k := 0;
    if listed != [] {
      var rest := listed[1..];
      var k' := FindsBest(rest);
      SortKeepsLength(EligibleOf(listed));
      SortKeepsLength(EligibleOf(rest));
      if Eligible(listed[0]) {
        assert EligibleOf(listed)[1..] == EligibleOf(rest);
        if Choose(rest, None).Some? {
          assert listed[k' + 1] == rest[k'];
          k := if Before(rest[k'], listed[0]) then k' + 1 else 0;
          forall j | 0 < j < |listed| && Eligible(listed[j])
            ensures !Before(listed[j], rest[k'])
          {
            assert listed[j] == rest[j - 1];
          }
          forall j | 0 < j < k' + 1 && Eligible(listed[j])
            ensures Before(rest[k'], listed[j])
          {
            assert listed[j] == rest[j - 1];
          }
        } else {
          forall j | 0 < j < |listed|
            ensures !Eligible(listed[j])
          {
            assert listed[j] == rest[j - 1];
          }
        }
      } else {
        assert EligibleOf(listed) == EligibleOf(rest);
        k := k' + 1;
        forall j | 0 < j < |listed|
          ensures listed[j] == rest[j - 1]
        {
        }
      }
    }
  }

  lemma NamedInRest(listed: seq<Room>, roomId: string, k: int)
    requires listed != [] && !(Eligible(listed[0]) && listed[0].roomId == roomId)
    requires NamedEligible(listed[1..], roomId, k)
    ensures NamedEligible(listed, roomId, k + 1)
  {
    forall j | 0 < j < k + 1 && Eligible(listed[j])
      ensures listed[j].roomId != roomId
    {
      assert listed[j] == listed[1..][j - 1];
    }
  }

  lemma {:induction false} FindsInEligible(listed: seq<Room>, roomId: string) returns (k: int)
    ensures Find(EligibleOf(listed), roomId).Some? ==>
              NamedEligible(listed, roomId, k) && Find(EligibleOf(listed), roomId) == Some(listed[k])
    ensures Find(EligibleOf(listed), roomId) == None ==>
              forall j | 0 <= j < |listed| && Eligible(listed[j]) :: listed[j].roomId != roomId
  {
    k := 0;
    if listed != [] {
      var rest := listed[1..];
      var k' := FindsInEligible(rest, roomId);
      assert Eligible(listed[0]) ==> EligibleOf(listed)[1..] == EligibleOf(rest);
      assert !Eligible(listed[0]) ==> EligibleOf(listed) == EligibleOf(rest);
      if !(Eligible(listed[0]) && listed[0].roomId == roomId) {
        assert Find(EligibleOf(listed), roomId) == Find(EligibleOf(rest), roomId);
        k := k' + 1;
        if Find(EligibleOf(rest), roomId).Some? {
          NamedInRest(listed, roomId, k');
        } else {
          forall j | 0 < j < |listed| && Eligible(listed[j])
            ensures listed[j].roomId != roomId
          {
            assert listed[j] == rest[j - 1];
          }
        }
      }
    }
  }

  lemma EligibleWrittenOut(listed: seq<Room>, k: int, roomId: string)
    ensures forall j | 0 <= j < |listed| :: Eligible(listed[j]) <==> Joinable(listed[j])
    ensures BestEligible(listed, k) ==> FirstBest(listed, k)
    ensures NamedEligible(listed, roomId, k) ==> FirstNamed(listed, roomId, k)
  {
    if BestEligible(listed, k) {
      forall j | 0 <= j < |listed| && Joinable(listed[j])
        ensures !Before(listed[j], listed[k]) && (j < k ==> Before(listed[k], listed[j]))
      {
        assert Eligible(listed[j]);
      }
      assert Joinable(listed[k]);
      assert FirstBest(listed, k);
    }
  }

  /** Without a requested room, the chosen one is the first of the emptiest eligible rooms. */
  lemma ChoosesFirstBest(listed: seq<Room>) returns (k: int)
    ensures Choose(listed, None) == None <==> forall j | 0 <= j < |listed| :: !Joinable(listed[j])
    ensures Choose(listed, None).Some? ==> FirstBest(listed, k) && Choose(listed, None) == Some(listed[k])
  {
    k := FindsBest(listed);
    EligibleWrittenOut(listed, k, "");
  }

  /** A requested room is given if it is eligible, and no other room ever is. */
  lemma ChoosesRequested(listed: seq<Room>, roomId: string) returns (k: int)
    requires roomId != ""
    ensures Choose(listed, Some(roomId)).Some? ==>
              FirstNamed(listed, roomId, k) && Choose(listed, Some(roomId)) == Some(listed[k])
    ensures Choose(listed, Some(roomId)) == None <==>
            forall j | 0 <= j < |listed| && Joinable(listed[j]) :: listed[j].roomId != roomId
  {
    k := FindsInEligible(listed, roomId);
    EligibleWrittenOut(listed, k, roomId);
  }

  /** A room is asked for by its name; an empty name asks for none. */
  ghost predicate Asks(requested: Option<string>) {
    requested.Some? && |requested.value| > 0
  }

  /** The room that a request is to be given. */
  ghost predicate Fits(listed: seq<Room>, requested: Option<string>, k: int) {
    if Asks(requested) then FirstNamed(listed, requested.value, k) else FirstBest(listed, k)
  }

  /** The chosen room is the one that fits, and there is one whenever any room fits. */
  lemma ChoiceWrittenOut(listed: seq<Room>, requested: Option<string>) returns (k: int)
    ensures Choose(listed, requested).Some? ==>
              Fits(listed, requested, k) && Choose(listed, requested) == Some(listed[k])
    ensures Choose(listed, requested) == None <==>
            forall j | 0 <= j < |listed| && Joinable(listed[j]) ::
              Asks(requested) && listed[j].roomId != requested.value
  {
    if Asks(requested) {
      k := ChoosesRequested(listed, requested.value);
    } else {
      k := ChoosesFirstBest(listed);
      assert Choose(listed, requested) == Choose(listed, None);
    }
  }

  // --- the matchmaker, in place ----------------------------------------------------------------

  class Attempt {
    const at: int
    var failed: bool

    constructor (at: int)
      ensures this.at == at && !failed
    {
      this.at, failed := at, false;
    }
  }

  datatype Rejection = RateLimited | DirectoryUnavailable | NoRoom | RoomUnavailable
  datatype Outcome = Admitted(room: Room) | Rejected(reason: Rejection)

  function RecentAttempts(attempts: seq<Attempt>, now: int): (r: seq<Attempt>)
    ensures forall a | a in r :: a in attempts && a.at > now - 1000
    ensures forall a | a in attempts :: multiset(r)[a] == if a.at > now - 1000 then multiset(attempts)[a] else 0
  {
    if attempts == [] then []
    else
      assert attempts == [attempts[0]] + attempts[1..];
      (if attempts[0].at > now - WINDOW_MS then [attempts[0]] else []) + RecentAttempts(attempts[1..], now)
  }

  class Matchmaker {
    const maxPerSecond: nat
    var attempts: seq<Attempt>
    var admittedAt: seq<int>
    /** When requests came in, and which of them reserved capacity. */
    ghost var requests: seq<int>
    ghost var reserved: seq<int>

    ghost predicate Valid()
      reads this
    {
      admittedAt == Pruned(maxPerSecond, requests) && reserved == History(maxPerSecond, requests)
    }

    constructor (maxPerSecond: nat)
      ensures Valid() && this.maxPerSecond == maxPerSecond && requests == [] && attempts == []
    {
      this.maxPerSecond := maxPerSecond;
      attempts, admittedAt, requests, reserved := [], [], [], [];
    }

    /** Array.filter over the admission times, into a new list. */
    method Prune(now: int) returns (recent: seq<int>)
      ensures recent == Recent(admittedAt, now)
    {
      recent := [];
      var k := 0;
      while k < |admittedAt|
        invariant 0 <= k <= |admittedAt|
        invariant Recent(admittedAt, now) == recent + Recent(admittedAt[k..], now)
      {
        ghost var rest, before := Recent(admittedAt[k + 1..], now), recent;
        assert admittedAt[k..][1..] == admittedAt[k + 1..];
        if admittedAt[k] > now - WINDOW_MS {
          recent := recent + [admittedAt[k]];
          assert recent + rest == before + ([admittedAt[k]] + rest);
        } else {
          assert [] + rest == rest;
        }
        k := k + 1;
      }
    }

    /** The synchronous part of a request: capacity is reserved before the directory is asked.
        What the directory then says, or whether it answers at all, gives nothing back. */
    method Arrive(now: int) returns (attempt: Attempt, limited: bool)
      requires Valid()
      modifies this
      ensures Valid() && requests == old(requests) + [now]
      ensures reserved == old(reserved) + (if limited then [] else [now])
      ensures limited <==> !Admits(maxPerSecond, old(requests), now)
      ensures NonDecreasing(requests) ==> (limited <==> |LastSecond(old(reserved), now)| >= maxPerSecond)
      ensures fresh(attempt) && attempt.at == now && attempt.failed == limited
      ensures attempts == RecentAttempts(old(attempts) + [attempt], now)
    {
      attempt := new Attempt(now);
      attempts := RecentAttempts(attempts + [attempt], now);
      var recent := Prune(now);
      ghost var before := requests;
      requests := requests + [now];
      assert requests[..|requests| - 1] == before;
      limited := |recent| >= maxPerSecond;
      if NonDecreasing(requests) {
        LimitedIffWindowFull(maxPerSecond, before, now);
      }
      if limited {
        admittedAt := recent;
        attempt.failed := true;
      } else {
        admittedAt := recent + [now];
        reserved := reserved + [now];
      }
    }

    /** What follows once the directory has answered or failed; other requests may have come
        in between. */
    method Complete(attempt: Attempt, listing: Option<seq<Room>>, requested: Option<string>) returns (outcome: Outcome)
      modifies attempt
      ensures attempt.failed == (old(attempt.failed) || outcome.Rejected?)
      ensures listing == None <==> outcome == Rejected(DirectoryUnavailable)
      ensures outcome.Admitted? ==>
                listing.Some? && exists k :: Fits(listing.value, requested, k) && outcome.room == listing.value[k]
      ensures listing.Some? && outcome.Rejected? ==>
                && outcome.reason == (if Asks(requested) then RoomUnavailable else NoRoom)
                && forall j | 0 <= j < |listing.value| && Joinable(listing.value[j]) ::
                     Asks(requested) && listing.value[j].roomId != requested.value
    {
      if listing == None {
        attempt.failed := true;
        return Rejected(DirectoryUnavailable);
      }
      ghost var k := ChoiceWrittenOut(listing.value, requested);
      var room := Choose(listing.value, requested);
      if room == None {
        attempt.failed := true;
        return Rejected(if requested.Some? && requested.value != "" then RoomUnavailable else NoRoom);
      }
      return Admitted(room.value);
    }

    /** With a clock that never falls back, no second ever admits more than the capacity. */
    lemma NeverOverCapacity(t: int)
      requires Valid() && NonDecreasing(requests)
      ensures |LastSecond(reserved, t)| <= maxPerSecond
    {
      NoWindowExceeds(maxPerSecond, requests, t);
    }
  }
}
