/**
 * The PHP mood API over the `mood_entries` table: the session check, the action
 * dispatch, and the four actions add, list, delete and stats. Timestamps are seconds;
 * `NOW()` is the parameter `now`.
 */
module MoodApi {
  import opened Optional
  import opened Ordering
  import opened Moods

  datatype MoodRow = MoodRow(id: int, userId: int, mood: string, notes: string, createdAt: int)

  /** A mood API answer; every failure is an `error` body, with status 401 only for a missing session. */
  datatype MoodReply =
    | Failure(status: nat, error: string)
    | Saved(id: int)
    | EntryList(entries: seq<MoodRow>)
    | DeleteOk
    | Statistics(distribution: seq<(string, nat)>, trend: seq<MoodRow>)

  const NotAuthenticated: string := "Not authenticated"
  const InvalidAction: string := "Invalid action"
  const InvalidMood: string := "Invalid mood value"
  const InvalidEntryId: string := "Invalid entry ID"
  const NotFoundOrDenied: string := "Entry not found or access denied"

  const SecondsPerDay: int := 86400

  predicate OwnedBy(userId: int, row: MoodRow) {
    row.userId == userId
  }

  /** `WHERE user_id = ? AND created_at >= cutoff`. */
  predicate OwnedSince(userId: int, cutoff: int, row: MoodRow) {
    row.userId == userId && row.createdAt >= cutoff
  }

  /** The row a delete removes. */
  predicate Targeted(entryId: int, userId: int, row: MoodRow) {
    row.id == entryId && row.userId == userId
  }

  /**
   * `getMoods`: the user's entries of the last `days` days, newest first, each as often
   * as it is stored.
   */
  function ListMoods(rows: seq<MoodRow>, userId: int, days: int, now: int): (r: seq<MoodRow>)
    ensures forall x :: x in r <==> x in rows && x.userId == userId && x.createdAt >= now - days * SecondsPerDay
    ensures SortedBy(r, (x: MoodRow) => -x.createdAt)
    ensures multiset(r) == multiset(Filter(rows, (x: MoodRow) => OwnedSince(userId, now - days * SecondsPerDay, x)))
    ensures |r| <= |rows|
  {
    var recent := Filter(rows, (x: MoodRow) => OwnedSince(userId, now - days * SecondsPerDay, x));
    SortByMembers(recent, (x: MoodRow) => -x.createdAt);
    SortBy(recent, (x: MoodRow) => -x.createdAt)
  }

  /** The stats trend: the user's entries of the last seven days, oldest first, each as often as it is stored. */
  function Trend(rows: seq<MoodRow>, userId: int, now: int): (r: seq<MoodRow>)
    ensures forall x :: x in r <==> x in rows && x.userId == userId && x.createdAt >= now - 7 * SecondsPerDay
    ensures SortedBy(r, (x: MoodRow) => x.createdAt)
    ensures multiset(r) == multiset(Filter(rows, (x: MoodRow) => OwnedSince(userId, now - 7 * SecondsPerDay, x)))
  {
    var recent := Filter(rows, (x: MoodRow) => OwnedSince(userId, now - 7 * SecondsPerDay, x));
    SortByMembers(recent, (x: MoodRow) => x.createdAt);
    SortBy(recent, (x: MoodRow) => x.createdAt)
  }

  predicate HasMood(userId: int, key: string, row: MoodRow) {
    row.userId == userId && row.mood == key
  }

  /** `COUNT(*)` of the user's rows with mood `key`. */
  function CountOf(rows: seq<MoodRow>, userId: int, key: string): nat
    decreases |rows|
  {
    if rows == [] then 0
    else (if HasMood(userId, key, rows[0]) then 1 else 0) + CountOf(rows[1..], userId, key)
  }

  function CountPair(rows: seq<MoodRow>, userId: int, m: Mood): (string, nat) {
    (Key(m), CountOf(rows, userId, Key(m)))
  }

  function Present(pair: (string, nat)): bool {
    pair.1 > 0
  }

  /**
   * `GROUP BY mood`: one pair per mood the user has, in the order of `AllMoods`. Each
   * pair counts the user's rows of one valid mood and is positive; every mood the
   * user has appears, once: the moods come in the order of `AllMoods`.
   */
  function Distribution(rows: seq<MoodRow>, userId: int): (ps: seq<(string, nat)>)
    ensures forall p :: p in ps ==> IsValidMood(p.0) && p.1 > 0 && p.1 == CountOf(rows, userId, p.0)
    ensures forall m :: CountOf(rows, userId, Key(m)) > 0 ==> CountPair(rows, userId, m) in ps
    ensures forall i, j :: 0 <= i < j < |ps| ==> PairRank(ps[i]) < PairRank(ps[j])
    ensures forall i, j :: 0 <= i < j < |ps| ==> ps[i].0 != ps[j].0
  {
    PresentPairsCount(rows, userId);
    PresentPairsOrdered(rows, userId);
    Filter(AllPairs(rows, userId), Present)
  }

  function SumCounts(ps: seq<(string, nat)>): nat
    decreases |ps|
  {
    if ps == [] then 0 else ps[0].1 + SumCounts(ps[1..])
  }

  /** Every row's mood is one of the five keys. */
  ghost predicate MoodsValid(rows: seq<MoodRow>) {
    forall i :: 0 <= i < |rows| ==> IsValidMood(rows[i].mood)
  }

  /** The five pairs before zero counts are dropped. */
  function AllPairs(rows: seq<MoodRow>, userId: int): seq<(string, nat)> {
    [CountPair(rows, userId, VerySad), CountPair(rows, userId, Sad), CountPair(rows, userId, Neutral),
     CountPair(rows, userId, Happy), CountPair(rows, userId, VeryHappy)]
  }

  /** Each of the five pairs counts the user's rows of its own, valid, mood. */
  lemma AllPairsCount(rows: seq<MoodRow>, userId: int)
    ensures forall p :: p in AllPairs(rows, userId) ==> IsValidMood(p.0) && p.1 == CountOf(rows, userId, p.0)
  {
    ParseKey(VerySad);
    ParseKey(Sad);
    ParseKey(Neutral);
    ParseKey(Happy);
    ParseKey(VeryHappy);
  }

  /** The position of a pair's mood in `AllMoods`; past the end for a key that is not a mood. */
  function PairRank(p: (string, nat)): int {
    if IsValidMood(p.0) then Rank(ParseMood(p.0).value) else |AllMoods|
  }

  /** The five pairs, and so those kept, come in the order of `AllMoods`. */
  lemma PresentPairsOrdered(rows: seq<MoodRow>, userId: int)
    ensures StrictlyIncreasingBy(Filter(AllPairs(rows, userId), Present), PairRank)
  {
    ParseKey(VerySad);
    ParseKey(Sad);
    ParseKey(Neutral);
    ParseKey(Happy);
    ParseKey(VeryHappy);
    var all := AllPairs(rows, userId);
    assert PairRank(all[0]) == 0 && PairRank(all[1]) == 1 && PairRank(all[2]) == 2;
    assert PairRank(all[3]) == 3 && PairRank(all[4]) == 4;
    FilterKeepsStrictOrder(all, Present, PairRank);
  }

  /** The five pairs with the zero counts dropped: each counts a valid mood, and none with a count is lost. */
  lemma PresentPairsCount(rows: seq<MoodRow>, userId: int)
    ensures forall p :: p in Filter(AllPairs(rows, userId), Present) ==>
      IsValidMood(p.0) && p.1 > 0 && p.1 == CountOf(rows, userId, p.0)
    ensures forall m :: CountOf(rows, userId, Key(m)) > 0 ==> CountPair(rows, userId, m) in Filter(AllPairs(rows, userId), Present)
  {
    var all := AllPairs(rows, userId);
    AllPairsCount(rows, userId);
    forall m | CountOf(rows, userId, Key(m)) > 0 ensures CountPair(rows, userId, m) in Filter(all, Present) {
      assert all[Rank(m)] == CountPair(rows, userId, m);
    }
  }

  /** Dropping zero counts keeps the sum. */
  lemma {:induction false} SumCountsPresent(ps: seq<(string, nat)>)
    ensures SumCounts(Filter(ps, Present)) == SumCounts(ps)
    decreases |ps|
  {
    if ps != [] {
      SumCountsPresent(ps[1..]);
      var rest := Filter(ps[1..], Present);
      if Present(ps[0]) {
        assert Filter(ps, Present) == [ps[0]] + rest;
        assert ([ps[0]] + rest)[0] == ps[0] && ([ps[0]] + rest)[1..] == rest;
      } else {
        assert Filter(ps, Present) == rest;
      }
    }
  }

  /** With valid moods, each of the user's rows is counted under exactly one mood. */
  lemma {:induction false} CountsCoverUser(rows: seq<MoodRow>, userId: int)
    requires MoodsValid(rows)
    ensures CountOf(rows, userId, "very_sad") + CountOf(rows, userId, "sad") + CountOf(rows, userId, "neutral")
          + CountOf(rows, userId, "happy") + CountOf(rows, userId, "very_happy")
         == |Filter(rows, (x: MoodRow) => OwnedBy(userId, x))|
    decreases |rows|
  {
    if rows != [] {
      assert MoodsValid(rows[1..]) by {
        forall i | 0 <= i < |rows| - 1 ensures IsValidMood(rows[1..][i].mood) {
          assert rows[1..][i] == rows[i + 1];
        }
      }
      assert IsValidMood(rows[0].mood);
      CountsCoverUser(rows[1..], userId);
    }
  }

  /** The distribution's counts add up to the user's number of entries. */
  lemma DistributionSumsToEntries(rows: seq<MoodRow>, userId: int)
    requires MoodsValid(rows)
    ensures SumCounts(Distribution(rows, userId)) == |Filter(rows, (x: MoodRow) => OwnedBy(userId, x))|
  {
    PresentPairsSum(rows, userId);
  }

  /** The five counts, with the zero ones dropped, add up to the user's number of entries. */
  lemma PresentPairsSum(rows: seq<MoodRow>, userId: int)
    requires MoodsValid(rows)
    ensures SumCounts(Filter(AllPairs(rows, userId), Present)) == |Filter(rows, (x: MoodRow) => OwnedBy(userId, x))|
  {
    var all := AllPairs(rows, userId);
    SumCountsPresent(all);
    CountsCoverUser(rows, userId);
    var a4 := all[1..][1..][1..][1..];
    assert a4[1..] == [] && a4[0] == all[4];
    assert SumCounts(a4) == all[4].1;
    assert SumCounts(all[1..][1..][1..]) == all[3].1 + all[4].1;
    assert SumCounts(all[1..][1..]) == all[2].1 + all[3].1 + all[4].1;
    assert SumCounts(all[1..]) == all[1].1 + all[2].1 + all[3].1 + all[4].1;
  }

  /** The `mood_entries` table; ids come from an auto-increment counter. */
  class MoodTable {
    var rows: seq<MoodRow>
    var nextId: int

    /**
     * Ids are positive, below the counter and increasing along the table, so no two
     * rows share one; every stored mood is one of the five keys.
     */
    ghost predicate Valid()
      reads this
    {
      && nextId >= 1
      && (forall i :: 0 <= i < |rows| ==> 1 <= rows[i].id < nextId)
      && (forall i, j :: 0 <= i < j < |rows| ==> rows[i].id < rows[j].id)
      && MoodsValid(rows)
    }

    constructor ()
      ensures Valid() && rows == []
    {
      rows, nextId := [], 1;
    }

    /**
     * `addMood`: a mood outside the five keys (a missing one reads as "") is refused and
     * nothing is stored; otherwise one row is stored for the user, with missing notes as "".
     */
    method AddMood(userId: int, mood: Option<string>, notes: Option<string>, now: int) returns (reply: MoodReply)
      requires Valid()
      modifies this
      ensures Valid()
      ensures !IsValidMood(mood.GetOr("")) ==>
        reply == Failure(200, InvalidMood) && rows == old(rows) && nextId == old(nextId)
      ensures IsValidMood(mood.GetOr("")) ==>
        && reply == Saved(old(nextId))
        && rows == old(rows) + [MoodRow(old(nextId), userId, mood.GetOr(""), notes.GetOr(""), now)]
        && nextId == old(nextId) + 1
    {
      var m := mood.GetOr("");
      if !IsValidMood(m) {
        return Failure(200, InvalidMood);
      }
      rows := rows + [MoodRow(nextId, userId, m, notes.GetOr(""), now)];
      reply := Saved(nextId);
      nextId := nextId + 1;
    }

    /** `getMoods`: `days` defaults to 30. */
    function GetMoods(userId: int, days: Option<int>, now: int): (reply: MoodReply)
      reads this
      ensures reply.EntryList?
      ensures forall x :: x in reply.entries <==>
        x in rows && x.userId == userId && x.createdAt >= now - days.GetOr(30) * SecondsPerDay
      ensures SortedBy(reply.entries, (x: MoodRow) => -x.createdAt)
      ensures multiset(reply.entries)
           == multiset(Filter(rows, (x: MoodRow) => OwnedSince(userId, now - days.GetOr(30) * SecondsPerDay, x)))
    {
      EntryList(ListMoods(rows, userId, days.GetOr(30), now))
    }

    /**
     * `deleteMood`: id 0 is refused; otherwise the row with that id is removed only if it
     * belongs to the user, and success is reported exactly when a row was removed.
     */
    method DeleteMood(userId: int, entryId: int) returns (reply: MoodReply)
      requires Valid()
      modifies this
      ensures Valid() && nextId == old(nextId)
      ensures entryId == 0 ==> reply == Failure(200, InvalidEntryId) && rows == old(rows)
      ensures entryId != 0 ==>
        && rows == Filter(old(rows), (x: MoodRow) => !Targeted(entryId, userId, x))
        && (reply == DeleteOk <==> exists i :: 0 <= i < |old(rows)| && Targeted(entryId, userId, old(rows)[i]))
        && (reply != DeleteOk ==> reply == Failure(200, NotFoundOrDenied))
    {
      if entryId == 0 {
        return Failure(200, InvalidEntryId);
      }
      var before := rows;
      var keep := (x: MoodRow) => !Targeted(entryId, userId, x);
      rows := Filter(rows, keep);
      FilterKeepsAllIff(before, keep);
      FilterKeepsOrder(before, keep, nextId);
      if |rows| < |before| {
        reply := DeleteOk;
      } else {
        reply := Failure(200, NotFoundOrDenied);
      }
    }

    /** `getMoodStats`: the per-mood distribution and the last week's trend. */
    function GetMoodStats(userId: int, now: int): (reply: MoodReply)
      reads this
      requires Valid()
      ensures reply.Statistics?
      ensures SumCounts(reply.distribution) == |Filter(rows, (x: MoodRow) => OwnedBy(userId, x))|
      ensures reply.distribution == Distribution(rows, userId)
      ensures forall x :: x in reply.trend <==> x in rows && x.userId == userId && x.createdAt >= now - 7 * SecondsPerDay
      ensures SortedBy(reply.trend, (x: MoodRow) => x.createdAt)
      ensures multiset(reply.trend)
           == multiset(Filter(rows, (x: MoodRow) => OwnedSince(userId, now - 7 * SecondsPerDay, x)))
    {
      DistributionSumsToEntries(rows, userId);
      Statistics(Distribution(rows, userId), Trend(rows, userId, now))
    }

    /** One request: the session check, then the action dispatch. */
    method Handle(session: Option<int>, action: string, mood: Option<string>, notes: Option<string>,
                  entryId: int, days: Option<int>, now: int) returns (reply: MoodReply)
      requires Valid()
      modifies this
      ensures Valid()
      ensures session.None? ==> reply == Failure(401, NotAuthenticated) && unchanged(this)
      ensures session.Some? && action == "list" ==> reply == GetMoods(session.value, days, now) && unchanged(this)
      ensures session.Some? && action == "stats" ==> reply == GetMoodStats(session.value, now) && unchanged(this)
      ensures session.Some? && action !in {"add", "list", "delete", "stats"} ==>
        reply == Failure(200, InvalidAction) && unchanged(this)
      ensures session.Some? && action == "add" ==>
        && (!IsValidMood(mood.GetOr("")) ==>
              reply == Failure(200, InvalidMood) && rows == old(rows) && nextId == old(nextId))
        && (IsValidMood(mood.GetOr("")) ==>
              && reply == Saved(old(nextId))
              && rows == old(rows) + [MoodRow(old(nextId), session.value, mood.GetOr(""), notes.GetOr(""), now)]
              && nextId == old(nextId) + 1)
      ensures session.Some? && action == "delete" ==>
        && nextId == old(nextId)
        && (entryId == 0 ==> reply == Failure(200, InvalidEntryId) && rows == old(rows))
        && (entryId != 0 ==> rows == Filter(old(rows), (x: MoodRow) => !Targeted(entryId, session.value, x)))
        && (entryId != 0 ==>
              (reply == DeleteOk <==> exists i :: 0 <= i < |old(rows)| && Targeted(entryId, session.value, old(rows)[i])))
        && (entryId != 0 && reply != DeleteOk ==> reply == Failure(200, NotFoundOrDenied))
    {
      if session.None? {
        return Failure(401, NotAuthenticated);
      }
      var userId := session.value;
      if action == "add" {
        reply := AddMood(userId, mood, notes, now);
      } else if action == "list" {
        reply := GetMoods(userId, days, now);
      } else if action == "delete" {
        reply := DeleteMood(userId, entryId);
      } else if action == "stats" {
        reply := GetMoodStats(userId, now);
      } else {
        reply := Failure(200, InvalidAction);
      }
    }
  }

  /** Deleting keeps the table's invariant: the kept rows stay in order, with their ids and moods. */
  lemma {:induction false} FilterKeepsOrder(rows: seq<MoodRow>, keep: MoodRow -> bool, nextId: int)
    requires forall i :: 0 <= i < |rows| ==> 1 <= rows[i].id < nextId
    requires forall i, j :: 0 <= i < j < |rows| ==> rows[i].id < rows[j].id
    requires MoodsValid(rows)
    ensures var r := Filter(rows, keep);
      && (forall i :: 0 <= i < |r| ==> 1 <= r[i].id < nextId)
      && (forall i, j :: 0 <= i < j < |r| ==> r[i].id < r[j].id)
      && MoodsValid(r)
  {
    var r := Filter(rows, keep);
    forall i | 0 <= i < |r| ensures 1 <= r[i].id < nextId && IsValidMood(r[i].mood) {
      assert r[i] in rows;
    }
    FilterKeepsStrictOrder(rows, keep, (x: MoodRow) => x.id);
  }

  /** Other users' entries, and the user's other entries, survive a delete. */
  lemma DeleteSparesOthers(rows: seq<MoodRow>, userId: int, entryId: int, x: MoodRow)
    requires x in rows && (x.userId != userId || x.id != entryId)
    ensures x in Filter(rows, (y: MoodRow) => !Targeted(entryId, userId, y))
  {
  }

  /** Ids are unique, so a delete removes at most one row. */
  lemma {:induction false} DeleteRemovesAtMostOne(rows: seq<MoodRow>, userId: int, entryId: int)
    requires forall i, j :: 0 <= i < j < |rows| ==> rows[i].id < rows[j].id
    ensures |Filter(rows, (y: MoodRow) => !Targeted(entryId, userId, y))| + 1 >= |rows|
    decreases |rows|
  {
    if rows != [] {
      var keep := (y: MoodRow) => !Targeted(entryId, userId, y);
      assert forall i, j :: 0 <= i < j < |rows| - 1 ==> rows[1..][i].id < rows[1..][j].id by {
        forall i, j | 0 <= i < j < |rows| - 1 ensures rows[1..][i].id < rows[1..][j].id {
          assert rows[1..][i] == rows[i + 1] && rows[1..][j] == rows[j + 1];
        }
      }
      if keep(rows[0]) {
        DeleteRemovesAtMostOne(rows[1..], userId, entryId);
      } else {
        forall i | 0 <= i < |rows| - 1 ensures keep(rows[1..][i]) {
          assert rows[1..][i] == rows[i + 1];
        }
        FilterKeepsAllIff(rows[1..], keep);
      }
    }
  }
}
