/**
 * Population statistics (TZ_work/schemas.py, get_static_data).
 *
 * The three SQL queries of get_static_data group the award table by user.
 * For bare (non-aggregated) columns SQLite returns the values of one
 * unspecified row of each group, and rows that tie under ORDER BY come in an
 * unspecified order. The model therefore receives each query's result table as
 * an input and constrains it by a predicate that says exactly what SQL
 * guarantees about it (IsCountTable, IsSumTable, IsDaysTable).
 */
module Statistics {
  import opened Wrappers
  import opened Ledger
  import Reporter

  /** Number of awards of a user (duplicates counted). */
  function AwardCount(awards: seq<Award>, uid: int): nat {
    |Reporter.AwardsOfUser(awards, uid)|
  }

  function SumCounts(rows: seq<Reporter.JoinRow>): int
    decreases |rows|
  {
    if rows == [] then 0 else rows[0].achievement.count + SumCounts(rows[1..])
  }

  /** A user's total score: the points of the achievements of all their awards (duplicates counted). */
  function TotalPoints(achievements: seq<Achievement>, awards: seq<Award>, uid: int): int {
    SumCounts(Reporter.JoinRows(achievements, awards, uid))
  }

  ghost function AwardIdsOf(awards: seq<Award>, uid: int): set<int> {
    set w | w in awards && w.userId == uid :: w.id
  }

  ghost function AwardUsers(awards: seq<Award>): set<int> {
    set w | w in awards :: w.userId
  }

  /** Users with at least one award whose achievement exists (the rows of the inner join). */
  ghost function JoinedUsers(achievements: seq<Achievement>, awards: seq<Award>): set<int> {
    set w | w in awards && w.achieveId in Reporter.AchievementIds(achievements) :: w.userId
  }

  /** The point values a user's join rows carry. */
  ghost function JoinedCounts(achievements: seq<Achievement>, awards: seq<Award>, uid: int): set<int> {
    set r | r in Reporter.JoinRows(achievements, awards, uid) :: r.achievement.count
  }

  // ---------------------------------------------------------------------------
  // The join, row by row

  /** Every join row pairs an award of the user with the achievement it refers to. */
  lemma JoinRowsSound(achievements: seq<Achievement>, awards: seq<Award>, uid: int)
    ensures forall r :: r in Reporter.JoinRows(achievements, awards, uid) ==>
              r.award in awards && r.award.userId == uid &&
              r.achievement in achievements && r.achievement.id == r.award.achieveId
  {
    forall r | r in Reporter.JoinRows(achievements, awards, uid)
      ensures r.award in awards && r.award.userId == uid && r.achievement in achievements && r.achievement.id == r.award.achieveId
    {
      Reporter.JoinRowsMembership(achievements, awards, uid, r);
    }
  }

  /** A user who has an award with an existing achievement has at least one join row. */
  lemma {:induction false} JoinRowsComplete(achievements: seq<Achievement>, awards: seq<Award>, w: Award)
    requires w in awards && w.achieveId in Reporter.AchievementIds(achievements)
    ensures Reporter.JoinRows(achievements, awards, w.userId) != []
    decreases |awards|
  {
    var a :| a in achievements && a.id == w.achieveId;
    if awards[0] == w {
      var m := Reporter.AchievementsOf(achievements, w);
      assert multiset(achievements)[a] > 0;
      assert multiset(m)[a] > 0;
      assert |Reporter.RowsFor(m, w)| > 0;
    } else {
      assert w in awards[1..];
      JoinRowsComplete(achievements, awards[1..], w);
    }
  }

  lemma {:induction false} SumCountsNonNegative(rows: seq<Reporter.JoinRow>)
    requires forall k :: 0 <= k < |rows| ==> rows[k].achievement.count > 0
    ensures SumCounts(rows) >= 0
    ensures rows != [] ==> SumCounts(rows) > 0
    decreases |rows|
  {
    if rows != [] {
      SumCountsNonNegative(rows[1..]);
    }
  }

  // ---------------------------------------------------------------------------
  // The SQL result tables

  /** A row of `select(BelongAchievements, count(id)).group_by(user_id)`: the user, the id of the group's representative award, the group size. */
  datatype CountRow = CountRow(userId: int, repAwardId: int, count: int)

  /** A row of the sum query: the user, the point value of the group's representative achievement (`i[1].count`), the group total `cc`. */
  datatype SumRow = SumRow(userId: int, repCount: int, total: int)

  /** A row of the same-window self-join grouped by `a.user_id`: the user and `COUNT(a.user_id)`. */
  datatype DaysRow = DaysRow(userId: int, pairs: int)

  /** What SQLite guarantees of the award-count query ordered by the representative award id. */
  ghost predicate IsCountTable(awards: seq<Award>, rows: seq<CountRow>) {
    (forall k :: 0 <= k < |rows| ==>
       rows[k].count == AwardCount(awards, rows[k].userId) &&
       rows[k].repAwardId in AwardIdsOf(awards, rows[k].userId)) &&
    (forall i, j :: 0 <= i < j < |rows| ==>
       rows[i].userId != rows[j].userId && rows[i].repAwardId <= rows[j].repAwardId) &&
    (set k | 0 <= k < |rows| :: rows[k].userId) == AwardUsers(awards)
  }

  /** What SQLite guarantees of the sum query ordered by `cc desc`. */
  ghost predicate IsSumTable(achievements: seq<Achievement>, awards: seq<Award>, rows: seq<SumRow>) {
    (forall k :: 0 <= k < |rows| ==>
       rows[k].total == TotalPoints(achievements, awards, rows[k].userId) &&
       rows[k].repCount in JoinedCounts(achievements, awards, rows[k].userId)) &&
    (forall i, j :: 0 <= i < j < |rows| ==>
       rows[i].userId != rows[j].userId && rows[i].total >= rows[j].total) &&
    (set k | 0 <= k < |rows| :: rows[k].userId) == JoinedUsers(achievements, awards)
  }

  // ---------------------------------------------------------------------------
  // Statistic 1: "the user with the most awards"

  datatype UserCount = UserCount(userId: int, count: int)

  datatype StatsError =
    | IndexError  // `sum_scope_user_id[0]` on an empty result
    | TypeError   // `achieve[0]` where `first()` returned None

  /** max_achievements as written: the first row of the count table, which is ordered by award id. */
  function MaxAchievementsAsWritten(rows: seq<CountRow>): (r: Result<UserCount, StatsError>)
    ensures rows == [] <==> r == Err(TypeError)
    ensures r.Ok? ==> r.value == UserCount(rows[0].userId, rows[0].count)
  {
    if rows == [] then Err(TypeError) else Ok(UserCount(rows[0].userId, rows[0].count))
  }

  /**
   * The first row of the count table belongs to the owner of the lowest award
   * id when that award is the owner's only one, whatever the counts are.
   */
  lemma FirstCountRowOwnsLowestAward(awards: seq<Award>, rows: seq<CountRow>, w: Award)
    requires IsCountTable(awards, rows)
    requires w in awards
    requires forall v :: v in awards ==> v.id >= w.id
    requires forall v :: v in awards && v.userId == w.userId ==> v == w
    requires forall v :: v in awards && v.id == w.id ==> v == w
    ensures rows != [] && rows[0].userId == w.userId
  {
    assert w.userId in AwardUsers(awards);
    var k :| 0 <= k < |rows| && rows[k].userId == w.userId;
    assert rows[k].repAwardId == w.id by {
      assert rows[k].repAwardId in AwardIdsOf(awards, w.userId);
    }
    assert rows[0].repAwardId in AwardIdsOf(awards, rows[0].userId);
  }

  /**
   * max_achievements is not a maximum: in this ledger user 2 holds two awards,
   * but every admissible count table names user 1 with one award.
   */
  lemma MaxAchievementsNotMaximum(rows: seq<CountRow>)
    requires IsCountTable(SampleAwards(), rows)
    ensures MaxAchievementsAsWritten(rows) == Ok(UserCount(1, 1))
    ensures AwardCount(SampleAwards(), 2) == 2
  {
    SampleCounts();
    SampleLowestAward();
    FirstCountRowOwnsLowestAward(SampleAwards(), rows, SampleAwards()[0]);
  }

  /** In the sample ledger, award 1 has the lowest id and is its owner's only award. */
  lemma SampleLowestAward()
    ensures var w := SampleAwards()[0];
      w in SampleAwards() &&
      (forall v :: v in SampleAwards() ==> v.id >= w.id) &&
      (forall v :: v in SampleAwards() && v.userId == w.userId ==> v == w) &&
      (forall v :: v in SampleAwards() && v.id == w.id ==> v == w)
  {
  }

  /** A three-award ledger: user 1 holds award 1, user 2 holds awards 2 and 3, all of one 10-point achievement. */
  function SampleAwards(): seq<Award> {
    [Award(1, 1, 1, 0), Award(2, 2, 1, 0), Award(3, 2, 1, 0)]
  }

  function SampleAchievements(): seq<Achievement> {
    [Achievement(1, "Пользователь", 10, "")]
  }

  lemma SampleCounts()
    ensures AwardCount(SampleAwards(), 1) == 1
    ensures AwardCount(SampleAwards(), 2) == 2
  {
    var s := SampleAwards();
    assert s[1..][1..][1..] == [];
    assert s[1..][1..] == [s[2]];
  }

  /** `ArgMax(cands, score)`: a candidate of maximal score, the first one on ties. */
  function ArgMax(cands: seq<int>, score: int -> int): (best: int)
    requires cands != []
    ensures best in cands
    ensures forall c :: c in cands ==> score(c) <= score(best)
    decreases |cands|
  {
    if |cands| == 1 then cands[0]
    else
      var rest := ArgMax(cands[1..], score);
      if score(cands[0]) >= score(rest) then cands[0] else rest
  }

  /** On ties ArgMax keeps the first candidate: every candidate before it scores less. */
  lemma {:induction false} ArgMaxFirst(cands: seq<int>, score: int -> int)
    requires cands != []
    ensures exists k :: 0 <= k < |cands| && cands[k] == ArgMax(cands, score) &&
              forall j :: 0 <= j < k ==> score(cands[j]) < score(cands[k])
    decreases |cands|
  {
    if |cands| == 1 || score(cands[0]) >= score(ArgMax(cands[1..], score)) {
      assert cands[0] == ArgMax(cands, score);
    } else {
      var rest := ArgMax(cands[1..], score);
      ArgMaxFirst(cands[1..], score);
      var k :| 0 <= k < |cands[1..]| && cands[1..][k] == rest &&
               forall j :: 0 <= j < k ==> score(cands[1..][j]) < score(cands[1..][k]);
      assert cands[k + 1] == rest;
      forall j | 0 <= j < k + 1 ensures score(cands[j]) < score(cands[k + 1]) {
        if j > 0 {
          assert cands[j] == cands[1..][j - 1];
        }
      }
    }
  }

  /** A user's award count, as a score for ArgMax. */
  function CountOf(awards: seq<Award>): int -> int {
    uid => AwardCount(awards, uid)
  }

  function UserIds(awards: seq<Award>): (ids: seq<int>)
    ensures |ids| == |awards|
    ensures forall k :: 0 <= k < |awards| ==> ids[k] == awards[k].userId
  {
    seq(|awards|, k requires 0 <= k < |awards| => awards[k].userId)
  }

  /**
   * The evidently intended statistic 1: a user whose award count is maximal
   * (ties go to the user met first in the award table); None for an empty ledger.
   */
  function MostAwarded(awards: seq<Award>): (r: Option<UserCount>)
    ensures r.None? <==> awards == []
    ensures r.Some? ==> r.value.count == AwardCount(awards, r.value.userId)
    ensures r.Some? ==> r.value.userId in AwardUsers(awards)
    ensures r.Some? ==> forall w :: w in awards ==> AwardCount(awards, w.userId) <= r.value.count
  {
    if awards == [] then None
    else
      var ids := UserIds(awards);
      var u := ArgMax(ids, CountOf(awards));
      assert forall w :: w in awards ==> w.userId in ids;
      var k :| 0 <= k < |ids| && ids[k] == u;
      assert awards[k].userId == u;
      Some(UserCount(u, AwardCount(awards, u)))
  }

  /** Ties go to the user met first in the award table: every earlier award's holder has fewer awards. */
  lemma MostAwardedFirst(awards: seq<Award>)
    ensures MostAwarded(awards).Some? ==>
              exists k :: 0 <= k < |awards| && awards[k].userId == MostAwarded(awards).value.userId &&
                forall j :: 0 <= j < k ==> AwardCount(awards, awards[j].userId) < MostAwarded(awards).value.count
  {
    if awards != [] {
      var ids := UserIds(awards);
      ArgMaxFirst(ids, CountOf(awards));
      var k :| 0 <= k < |ids| && ids[k] == ArgMax(ids, CountOf(awards)) &&
               forall j :: 0 <= j < k ==> CountOf(awards)(ids[j]) < CountOf(awards)(ids[k]);
      assert awards[k].userId == MostAwarded(awards).value.userId;
    }
  }

  // ---------------------------------------------------------------------------
  // Statistic 2: "the user with the most points"

  /** The first row of the sum table has the highest total of every user. */
  lemma MaxSumIsMaximum(achievements: seq<Achievement>, awards: seq<Award>, rows: seq<SumRow>, uid: int)
    requires IsSumTable(achievements, awards, rows)
    requires forall a :: a in achievements ==> a.count > 0
    requires rows != []
    ensures rows[0].total >= TotalPoints(achievements, awards, uid)
  {
    JoinRowsSound(achievements, awards, rows[0].userId);
    SumCountsNonNegative(Reporter.JoinRows(achievements, awards, rows[0].userId));
    var joined := Reporter.JoinRows(achievements, awards, uid);
    if joined == [] {
      assert TotalPoints(achievements, awards, uid) == 0;
    } else {
      JoinRowsSound(achievements, awards, uid);
      assert joined[0] in joined;
      var w := joined[0].award;
      assert w.achieveId in Reporter.AchievementIds(achievements);
      assert uid in JoinedUsers(achievements, awards);
      var k :| 0 <= k < |rows| && rows[k].userId == uid;
      if k > 0 {
        assert rows[0].total >= rows[k].total;
      }
    }
  }

  // ---------------------------------------------------------------------------
  // Statistic 3: the maximum and minimum pairwise point gap

  /** A user and the value compared in the gap loop. */
  datatype Keyed = Keyed(userId: int, value: int)

  /** {"users_id": [...], "count": ...} for both gap statistics. */
  datatype Gaps = Gaps(maxUsers: seq<int>, maxGap: int, minUsers: seq<int>, minGap: int)

  const MaxSentinel := -1000000000
  const MinSentinel := 1000000000

  function Abs(x: int): nat {
    if x < 0 then -x else x
  }

  function Gap(rows: seq<Keyed>, p: nat, q: nat): nat
    requires p < |rows| && q < |rows|
  {
    Abs(rows[p].value - rows[q].value)
  }

  ghost predicate IsPair(rows: seq<Keyed>, p: int, q: int) {
    0 <= p < |rows| && 0 <= q < |rows| && rows[p].userId != rows[q].userId
  }

  /**
   * What the double loop reports for `rows`: the maximum and minimum bound the
   * gap of every pair of rows of different users; each reported pair of users
   * is such a pair, at the reported gap; the sentinels remain exactly when no
   * pair exists, or no pair is below the minimum's sentinel.
   */
  ghost predicate GapsOf(rows: seq<Keyed>, g: Gaps) {
    (forall p, q :: IsPair(rows, p, q) ==> g.minGap <= Gap(rows, p, q) <= g.maxGap) &&
    (g.maxUsers == [] <==> !(exists p, q :: IsPair(rows, p, q))) &&
    (g.maxUsers == [] ==> g.maxGap == MaxSentinel) &&
    (g.maxUsers != [] ==>
       exists p, q :: IsPair(rows, p, q) && g.maxUsers == [rows[p].userId, rows[q].userId] && g.maxGap == Gap(rows, p, q)) &&
    (g.minUsers == [] <==> !(exists p, q :: IsPair(rows, p, q) && Gap(rows, p, q) < MinSentinel)) &&
    (g.minUsers == [] ==> g.minGap == MinSentinel) &&
    (g.minUsers != [] ==>
       exists p, q :: IsPair(rows, p, q) && g.minUsers == [rows[p].userId, rows[q].userId] && g.minGap == Gap(rows, p, q))
  }

  /** The double loop over the sum table: every ordered pair of rows of different users. */
  method PairwiseGaps(rows: seq<Keyed>) returns (g: Gaps)
    ensures GapsOf(rows, g)
  {
    var maxDeff, maxUsers, minDeff, minUsers := MaxSentinel, [], MinSentinel, [];
    ghost var mp, mq, np, nq := 0, 0, 0, 0;
    for i := 0 to |rows|
      invariant forall p, q :: IsPair(rows, p, q) && p < i ==> minDeff <= Gap(rows, p, q) <= maxDeff
      invariant maxUsers == [] ==> maxDeff == MaxSentinel
      invariant maxUsers != [] ==> IsPair(rows, mp, mq) && maxUsers == [rows[mp].userId, rows[mq].userId] && maxDeff == Gap(rows, mp, mq)
      invariant minUsers == [] ==> minDeff == MinSentinel
      invariant minUsers != [] ==> IsPair(rows, np, nq) && minUsers == [rows[np].userId, rows[nq].userId] && minDeff == Gap(rows, np, nq) < MinSentinel
    {
      for j := 0 to |rows|
        invariant forall p, q :: IsPair(rows, p, q) && (p < i || (p == i && q < j)) ==> minDeff <= Gap(rows, p, q) <= maxDeff
        invariant maxUsers == [] ==> maxDeff == MaxSentinel
        invariant maxUsers != [] ==> IsPair(rows, mp, mq) && maxUsers == [rows[mp].userId, rows[mq].userId] && maxDeff == Gap(rows, mp, mq)
        invariant minUsers == [] ==> minDeff == MinSentinel
        invariant minUsers != [] ==> IsPair(rows, np, nq) && minUsers == [rows[np].userId, rows[nq].userId] && minDeff == Gap(rows, np, nq) < MinSentinel
      {
        if rows[i].userId != rows[j].userId {
          var deff := rows[i].value - rows[j].value;
          if Abs(deff) > maxDeff {
            maxDeff := Abs(deff);
            maxUsers := [rows[i].userId, rows[j].userId];
            mp, mq := i, j;
          }
          if Abs(deff) < minDeff {
            minDeff := Abs(deff);
            minUsers := [rows[i].userId, rows[j].userId];
            np, nq := i, j;
          }
        }
      }
    }
    g := Gaps(maxUsers, maxDeff, minUsers, minDeff);
  }

  /** The values the source compares: `i[1].count`, the representative achievement's points. */
  function GapKeysAsWritten(rows: seq<SumRow>): (keys: seq<Keyed>)
    ensures |keys| == |rows|
    ensures forall k :: 0 <= k < |rows| ==> keys[k] == Keyed(rows[k].userId, rows[k].repCount)
  {
    seq(|rows|, k requires 0 <= k < |rows| => Keyed(rows[k].userId, rows[k].repCount))
  }

  /** The evidently intended values: each user's total `i[2]`. */
  function GapKeys(rows: seq<SumRow>): (keys: seq<Keyed>)
    ensures |keys| == |rows|
    ensures forall k :: 0 <= k < |rows| ==> keys[k] == Keyed(rows[k].userId, rows[k].total)
  {
    seq(|rows|, k requires 0 <= k < |rows| => Keyed(rows[k].userId, rows[k].total))
  }

  lemma SampleTotals()
    ensures TotalPoints(SampleAchievements(), SampleAwards(), 1) == 10
    ensures TotalPoints(SampleAchievements(), SampleAwards(), 2) == 20
    ensures forall uid :: JoinedCounts(SampleAchievements(), SampleAwards(), uid) <= {10}
  {
    var achs, s := SampleAchievements(), SampleAwards();
    assert s[1..][1..][1..] == [];
    assert s[1..][1..] == [s[2]];
    forall w | w in s ensures Reporter.AchievementsOf(achs, w) == achs {
      assert achs[1..] == [];
    }
    forall uid ensures JoinedCounts(achs, s, uid) <= {10} {
      JoinRowsSound(achs, s, uid);
    }
  }

  /** The sample ledger's awards belong to users 1 and 2 only. */
  lemma SampleJoinedUsers()
    ensures JoinedUsers(SampleAchievements(), SampleAwards()) == {1, 2}
  {
    var achs, s := SampleAchievements(), SampleAwards();
    assert s[0] in s && s[1] in s;
    assert achs[0] in achs;
  }

  /** Rows of distinct users whose users are exactly 1 and 2: one row each. */
  lemma TwoUserRows(rows: seq<SumRow>)
    requires forall i, j :: 0 <= i < j < |rows| ==> rows[i].userId != rows[j].userId
    requires (set k | 0 <= k < |rows| :: rows[k].userId) == {1, 2}
    ensures |rows| == 2
    ensures {rows[0].userId, rows[1].userId} == {1, 2}
  {
    var users := set k | 0 <= k < |rows| :: rows[k].userId;
    DistinctUsersCount(rows);
    assert |users| == 2;
    assert rows[0].userId in users && rows[1].userId in users;
  }

  /** Rows of pairwise distinct users name as many users as there are rows. */
  lemma {:induction false} DistinctUsersCount(rows: seq<SumRow>)
    requires forall i, j :: 0 <= i < j < |rows| ==> rows[i].userId != rows[j].userId
    ensures |set k | 0 <= k < |rows| :: rows[k].userId| == |rows|
    decreases |rows|
  {
    if rows != [] {
      var n := |rows| - 1;
      var init := rows[..n];
      DistinctUsersCount(init);
      var before := set k | 0 <= k < |init| :: init[k].userId;
      var after := set k | 0 <= k < |rows| :: rows[k].userId;
      assert after == before + {rows[n].userId} by {
        forall x | x in after ensures x in before + {rows[n].userId} {
          var k :| 0 <= k < |rows| && rows[k].userId == x;
          if k < n {
            assert init[k] == rows[k];
          }
        }
        forall x | x in before ensures x in after {
          var k :| 0 <= k < |init| && init[k].userId == x;
          assert rows[k] == init[k];
        }
      }
      assert rows[n].userId !in before by {
        forall k | 0 <= k < |init| ensures init[k].userId != rows[n].userId {
          assert init[k] == rows[k];
        }
      }
    }
  }

  /** ... and each row's representative achievement is worth 10. */
  lemma SampleSumTable(rows: seq<SumRow>)
    requires IsSumTable(SampleAchievements(), SampleAwards(), rows)
    ensures |rows| == 2
    ensures {rows[0].userId, rows[1].userId} == {1, 2}
    ensures rows[0].repCount == 10 && rows[1].repCount == 10
  {
    var achs, s := SampleAchievements(), SampleAwards();
    SampleJoinedUsers();
    TwoUserRows(rows);
    SampleTotals();
    forall k | 0 <= k < 2 ensures rows[k].repCount == 10 {
      assert rows[k].repCount in JoinedCounts(achs, s, rows[k].userId);
    }
  }

  /**
   * The gap compares one representative achievement per user, not the totals:
   * in the sample ledger every admissible sum table gives a gap of 0 between
   * users 1 and 2 as written, while their totals (10 and 20) differ by 10.
   */
  lemma GapIgnoresTotals(rows: seq<SumRow>)
    requires IsSumTable(SampleAchievements(), SampleAwards(), rows)
    ensures |rows| == 2
    ensures forall p, q :: 0 <= p < 2 && 0 <= q < 2 ==> Gap(GapKeysAsWritten(rows), p, q) == 0
    ensures IsPair(GapKeys(rows), 0, 1) && Gap(GapKeys(rows), 0, 1) == 10
  {
    SampleSumTable(rows);
    SampleTotals();
    var t0 := rows[0].total;
    var t1 := rows[1].total;
    assert {t0, t1} == {10, 20};
  }

  /** Two different users of the join. */
  ghost predicate IsUserPair(achievements: seq<Achievement>, awards: seq<Award>, u: int, v: int) {
    u in JoinedUsers(achievements, awards) && v in JoinedUsers(achievements, awards) && u != v
  }

  /** The gap between two users' totals. */
  function UserGap(achievements: seq<Achievement>, awards: seq<Award>, u: int, v: int): nat {
    Abs(TotalPoints(achievements, awards, u) - TotalPoints(achievements, awards, v))
  }

  /** Every user of the join has a row of the sum table. */
  lemma RowOfUser(achievements: seq<Achievement>, awards: seq<Award>, rows: seq<SumRow>, u: int) returns (k: nat)
    requires IsSumTable(achievements, awards, rows)
    requires u in JoinedUsers(achievements, awards)
    ensures k < |rows| && rows[k].userId == u
  {
    assert u in (set i | 0 <= i < |rows| :: rows[i].userId);
    k :| k < |rows| && rows[k].userId == u;
  }

  /** Two rows of the intended keys for different users are two users of the join, at the gap of their totals. */
  lemma PairOfRows(achievements: seq<Achievement>, awards: seq<Award>, rows: seq<SumRow>, p: int, q: int)
    requires IsSumTable(achievements, awards, rows)
    requires IsPair(GapKeys(rows), p, q)
    ensures IsUserPair(achievements, awards, rows[p].userId, rows[q].userId)
    ensures Gap(GapKeys(rows), p, q) == UserGap(achievements, awards, rows[p].userId, rows[q].userId)
  {
    assert rows[p].userId in (set i | 0 <= i < |rows| :: rows[i].userId);
    assert rows[q].userId in (set i | 0 <= i < |rows| :: rows[i].userId);
  }

  /** Bounds on the gaps between rows of the intended keys bound the gaps between users' totals. */
  lemma UserGapBounds(achievements: seq<Achievement>, awards: seq<Award>, rows: seq<SumRow>, lo: int, hi: int)
    requires IsSumTable(achievements, awards, rows)
    requires forall p, q :: IsPair(GapKeys(rows), p, q) ==> lo <= Gap(GapKeys(rows), p, q) <= hi
    ensures forall u, v :: IsUserPair(achievements, awards, u, v) ==> lo <= UserGap(achievements, awards, u, v) <= hi
  {
    forall u, v | IsUserPair(achievements, awards, u, v)
      ensures lo <= UserGap(achievements, awards, u, v) <= hi
    {
      var p := RowOfUser(achievements, awards, rows, u);
      var q := RowOfUser(achievements, awards, rows, v);
      assert IsPair(GapKeys(rows), p, q);
      PairOfRows(achievements, awards, rows, p, q);
    }
  }

  /** Two users of the join exist exactly when two rows of different users do. */
  lemma UserPairsExist(achievements: seq<Achievement>, awards: seq<Award>, rows: seq<SumRow>)
    requires IsSumTable(achievements, awards, rows)
    ensures (exists u, v :: IsUserPair(achievements, awards, u, v)) <==> (exists p, q :: IsPair(GapKeys(rows), p, q))
  {
    if exists u, v :: IsUserPair(achievements, awards, u, v) {
      var u, v :| IsUserPair(achievements, awards, u, v);
      var p := RowOfUser(achievements, awards, rows, u);
      var q := RowOfUser(achievements, awards, rows, v);
      assert IsPair(GapKeys(rows), p, q);
    }
    if exists p, q :: IsPair(GapKeys(rows), p, q) {
      var p, q :| IsPair(GapKeys(rows), p, q);
      PairOfRows(achievements, awards, rows, p, q);
    }
  }

  /** In the sample ledger every pair of rows of the intended keys is 10 apart. */
  lemma SampleIntendedGaps(rows: seq<SumRow>)
    requires IsSumTable(SampleAchievements(), SampleAwards(), rows)
    ensures IsPair(GapKeys(rows), 0, 1)
    ensures forall p, q :: IsPair(GapKeys(rows), p, q) ==> Gap(GapKeys(rows), p, q) == 10
  {
    GapIgnoresTotals(rows);
    var keys := GapKeys(rows);
    assert Gap(keys, 1, 0) == Gap(keys, 0, 1);
  }

  /**
   * The evidently intended gap statistics: the double loop over each user's
   * total. Every gap between the totals of two users of the join lies between
   * the reported minimum and maximum, each of which is the gap between the
   * totals of the two users reported with it; in the sample ledger both are 10.
   */
  method IntendedGaps(achievements: seq<Achievement>, awards: seq<Award>, sumRows: seq<SumRow>) returns (g: Gaps)
    requires IsSumTable(achievements, awards, sumRows)
    ensures forall u, v :: IsUserPair(achievements, awards, u, v) ==>
              g.minGap <= UserGap(achievements, awards, u, v) <= g.maxGap
    ensures g.maxUsers == [] <==> !(exists u, v :: IsUserPair(achievements, awards, u, v))
    ensures g.maxUsers != [] ==>
              exists u, v :: IsUserPair(achievements, awards, u, v) && g.maxUsers == [u, v] && g.maxGap == UserGap(achievements, awards, u, v)
    ensures g.minUsers != [] ==>
              exists u, v :: IsUserPair(achievements, awards, u, v) && g.minUsers == [u, v] && g.minGap == UserGap(achievements, awards, u, v)
    ensures achievements == SampleAchievements() && awards == SampleAwards() ==>
              g.maxGap == 10 && g.minGap == 10
  {
    var keys := GapKeys(sumRows);
    g := PairwiseGaps(keys);
    UserGapBounds(achievements, awards, sumRows, g.minGap, g.maxGap);
    UserPairsExist(achievements, awards, sumRows);
    if g.maxUsers != [] {
      ghost var p, q :| IsPair(keys, p, q) && g.maxUsers == [keys[p].userId, keys[q].userId] && g.maxGap == Gap(keys, p, q);
      PairOfRows(achievements, awards, sumRows, p, q);
    }
    if g.minUsers != [] {
      ghost var p, q :| IsPair(keys, p, q) && g.minUsers == [keys[p].userId, keys[q].userId] && g.minGap == Gap(keys, p, q);
      PairOfRows(achievements, awards, sumRows, p, q);
    }
    if achievements == SampleAchievements() && awards == SampleAwards() {
      SampleIntendedGaps(sumRows);
      assert Gap(keys, 0, 1) < MinSentinel;
    }
  }

  // ---------------------------------------------------------------------------
  // Statistic 4: "users with awards on 7 days in a row"

  /** `ROUND(julianday(a) - julianday(b)) = 0` for timestamps in seconds: under half a day apart. */
  predicate SameWindow(ta: int, tb: int) {
    -43200 < ta - tb < 43200
  }

  /** One ordered pair (a, b) of the self-join: same user, different awards, same window. */
  predicate SamePair(a: Award, b: Award, uid: int) {
    a.userId == uid && b.userId == uid && a.id != b.id && SameWindow(a.issueDate, b.issueDate)
  }

  /** The number of b in `bs` such that (a, b) is a pair the self-join counts for `uid`. */
  function PartnerCount(a: Award, bs: seq<Award>, uid: int): nat
    decreases |bs|
  {
    if bs == [] then 0 else (if SamePair(a, bs[0], uid) then 1 else 0) + PartnerCount(a, bs[1..], uid)
  }

  /** The number of ordered pairs (a, b), a from `as_`, b from `bs`, the self-join counts for `uid`. */
  function PairCount(as_: seq<Award>, bs: seq<Award>, uid: int): nat
    decreases |as_|
  {
    if as_ == [] then 0 else PartnerCount(as_[0], bs, uid) + PairCount(as_[1..], bs, uid)
  }

  /** What SQLite guarantees of the self-join grouped by user: one row per user that has a pair. */
  ghost predicate IsDaysTable(awards: seq<Award>, rows: seq<DaysRow>) {
    (forall k :: 0 <= k < |rows| ==> rows[k].pairs == PairCount(awards, awards, rows[k].userId) && rows[k].pairs > 0) &&
    (forall i, j :: 0 <= i < j < |rows| ==> rows[i].userId != rows[j].userId) &&
    (forall w :: w in awards && PairCount(awards, awards, w.userId) > 0 ==>
       w.userId in (set k | 0 <= k < |rows| :: rows[k].userId))
  }

  /** The loop over the self-join rows: users whose pair count reaches 7, in row order. */
  method UsersSevenDays(rows: seq<DaysRow>) returns (users: seq<int>)
    ensures forall u :: u in users <==> exists k :: 0 <= k < |rows| && rows[k].userId == u && rows[k].pairs >= 7
    ensures |users| <= |rows|
  {
    users := [];
    for k := 0 to |rows|
      invariant forall u :: u in users <==> exists k' :: 0 <= k' < k && rows[k'].userId == u && rows[k'].pairs >= 7
      invariant |users| <= k
    {
      if rows[k].pairs >= 7 {
        users := users + [rows[k].userId];
      }
    }
  }

  /** An award of another user partners nothing. */
  lemma {:induction false} PartnerCountOther(a: Award, bs: seq<Award>, uid: int)
    requires a.userId != uid
    ensures PartnerCount(a, bs, uid) == 0
    decreases |bs|
  {
    if bs != [] {
      PartnerCountOther(a, bs[1..], uid);
    }
  }

  /** A user with a counted pair holds an award. */
  lemma {:induction false} PairCountHolder(as_: seq<Award>, bs: seq<Award>, uid: int)
    requires PairCount(as_, bs, uid) > 0
    ensures exists w :: w in as_ && w.userId == uid
    decreases |as_|
  {
    if as_[0].userId != uid {
      PartnerCountOther(as_[0], bs, uid);
      PairCountHolder(as_[1..], bs, uid);
      var w :| w in as_[1..] && w.userId == uid;
      assert w in as_;
    }
  }

  /** A user's pair count depends only on that user's awards. */
  lemma {:induction false} PairCountOwnAwards(as_: seq<Award>, bs: seq<Award>, uid: int)
    ensures PairCount(as_, bs, uid) == PairCount(Reporter.AwardsOfUser(as_, uid), bs, uid)
    decreases |as_|
  {
    if as_ != [] {
      PairCountOwnAwards(as_[1..], bs, uid);
      var mine := Reporter.AwardsOfUser(as_[1..], uid);
      if as_[0].userId == uid {
        assert Reporter.AwardsOfUser(as_, uid) == [as_[0]] + mine;
        assert ([as_[0]] + mine)[1..] == mine;
      } else {
        PartnerCountOther(as_[0], bs, uid);
        assert Reporter.AwardsOfUser(as_, uid) == mine;
      }
    }
  }

  /** Partners of `a` among `bs` are partners among that user's awards. */
  lemma {:induction false} PartnerCountOwnAwards(a: Award, bs: seq<Award>, uid: int)
    ensures PartnerCount(a, bs, uid) == PartnerCount(a, Reporter.AwardsOfUser(bs, uid), uid)
    decreases |bs|
  {
    if bs != [] {
      PartnerCountOwnAwards(a, bs[1..], uid);
      var mine := Reporter.AwardsOfUser(bs[1..], uid);
      if bs[0].userId == uid {
        assert Reporter.AwardsOfUser(bs, uid) == [bs[0]] + mine;
        assert ([bs[0]] + mine)[1..] == mine;
      } else {
        assert Reporter.AwardsOfUser(bs, uid) == mine;
      }
    }
  }

  /** Every award of `bs` lies within one window of `a`. */
  ghost predicate NearAll(a: Award, bs: seq<Award>) {
    forall k :: 0 <= k < |bs| ==> SameWindow(a.issueDate, bs[k].issueDate)
  }

  ghost predicate DistinctIds(bs: seq<Award>) {
    forall i, j :: 0 <= i < j < |bs| ==> bs[i].id != bs[j].id
  }

  /** A cluster: awards of one user, pairwise distinct ids, all within one window of each other. */
  ghost predicate Cluster(ws: seq<Award>, uid: int) {
    (forall k :: 0 <= k < |ws| ==> ws[k].userId == uid) &&
    DistinctIds(ws) &&
    (forall a :: a in ws ==> NearAll(a, ws))
  }

  /** Inside a cluster every award partners every other award. */
  lemma {:induction false} PartnersInCluster(a: Award, bs: seq<Award>, uid: int)
    requires a.userId == uid
    requires forall k :: 0 <= k < |bs| ==> bs[k].userId == uid
    requires NearAll(a, bs)
    requires DistinctIds(bs)
    ensures a in bs ==> PartnerCount(a, bs, uid) == |bs| - 1
    ensures a.id !in (set b | b in bs :: b.id) ==> PartnerCount(a, bs, uid) == |bs|
    decreases |bs|
  {
    if bs != [] {
      var tail := bs[1..];
      assert DistinctIds(tail) by {
        forall i, j | 0 <= i < j < |tail| ensures tail[i].id != tail[j].id {
          assert tail[i] == bs[i + 1] && tail[j] == bs[j + 1];
        }
      }
      assert NearAll(a, tail) by {
        forall k | 0 <= k < |tail| ensures SameWindow(a.issueDate, tail[k].issueDate) {
          assert tail[k] == bs[k + 1];
        }
      }
      PartnersInCluster(a, tail, uid);
      if bs[0].id == a.id {
        assert a.id !in (set b | b in tail :: b.id);
        assert a !in tail;
      } else {
        assert SamePair(a, bs[0], uid);
        if a in bs {
          assert a in tail;
        }
        assert (set b | b in tail :: b.id) <= (set b | b in bs :: b.id);
      }
    }
  }

  /** Inside a cluster each award has all the others as partners. */
  lemma ClusterPartners(a: Award, ws: seq<Award>, uid: int)
    requires Cluster(ws, uid)
    requires a in ws
    ensures PartnerCount(a, ws, uid) == |ws| - 1
  {
    PartnersInCluster(a, ws, uid);
  }

  /** When every award of `as_` has m partners, the pairs number |as_| times m. */
  lemma {:induction false} PairCountUniform(as_: seq<Award>, ws: seq<Award>, uid: int, m: int)
    requires forall a :: a in as_ ==> PartnerCount(a, ws, uid) == m
    ensures PairCount(as_, ws, uid) == Times(|as_|, m)
    decreases |as_|
  {
    if as_ != [] {
      assert as_[0] in as_;
      assert forall a :: a in as_[1..] ==> a in as_;
      PairCountUniform(as_[1..], ws, uid, m);
    }
  }

  /** `n * m` as repeated addition, which keeps the inductions linear. */
  function Times(n: nat, m: int): int {
    if n == 0 then 0 else m + Times(n - 1, m)
  }

  lemma {:induction false} TimesIsProduct(n: nat, m: int)
    ensures Times(n, m) == n * m
  {
    if n > 0 {
      TimesIsProduct(n - 1, m);
    }
  }

  /**
   * A user whose awards form one cluster of k awards has k * (k - 1) ordered
   * same-window pairs: each unordered pair counts twice.
   */
  lemma ClusterPairCount(awards: seq<Award>, uid: int)
    requires Cluster(Reporter.AwardsOfUser(awards, uid), uid)
    ensures PairCount(awards, awards, uid) == AwardCount(awards, uid) * (AwardCount(awards, uid) - 1)
  {
    var ws := Reporter.AwardsOfUser(awards, uid);
    PairCountOwnAwards(awards, awards, uid);
    forall a | a in ws ensures PartnerCount(a, awards, uid) == PartnerCount(a, ws, uid) {
      PartnerCountOwnAwards(a, awards, uid);
    }
    PairCountSameFirst(ws, awards, ws, uid);
    forall a | a in ws ensures PartnerCount(a, ws, uid) == |ws| - 1 {
      ClusterPartners(a, ws, uid);
    }
    PairCountUniform(ws, ws, uid, |ws| - 1);
    TimesIsProduct(|ws|, |ws| - 1);
  }

  lemma {:induction false} PairCountSameFirst(as_: seq<Award>, bs1: seq<Award>, bs2: seq<Award>, uid: int)
    requires forall a :: a in as_ ==> PartnerCount(a, bs1, uid) == PartnerCount(a, bs2, uid)
    ensures PairCount(as_, bs1, uid) == PairCount(as_, bs2, uid)
    decreases |as_|
  {
    if as_ != [] {
      assert as_[0] in as_;
      assert forall a :: a in as_[1..] ==> a in as_;
      PairCountSameFirst(as_[1..], bs1, bs2, uid);
    }
  }

  /**
   * "7 days in a row" is in fact "at least 7 ordered same-window pairs": a user
   * whose awards form one cluster qualifies exactly when the cluster has 4 or
   * more awards, on a single day.
   */
  lemma ClusterQualifiesFromFour(awards: seq<Award>, uid: int)
    requires Cluster(Reporter.AwardsOfUser(awards, uid), uid)
    ensures PairCount(awards, awards, uid) >= 7 <==> AwardCount(awards, uid) >= 4
  {
    ClusterPairCount(awards, uid);
    SevenPairsFromFour(AwardCount(awards, uid));
  }

  lemma SevenPairsFromFour(k: nat)
    ensures k * (k - 1) >= 7 <==> k >= 4
  {
    if k >= 4 {
      assert k * (k - 1) >= 4 * (k - 1);
    } else {
      assert k == 0 || k == 1 || k == 2 || k == 3;
    }
  }

  /** Against an admissible self-join table, the loop reports exactly the users with 7 or more pairs. */
  lemma SevenDayMembership(awards: seq<Award>, rows: seq<DaysRow>, w: Award)
    requires IsDaysTable(awards, rows)
    requires w in awards
    ensures (exists k :: 0 <= k < |rows| && rows[k].userId == w.userId && rows[k].pairs >= 7)
        <==> PairCount(awards, awards, w.userId) >= 7
  {
    if PairCount(awards, awards, w.userId) >= 7 {
      assert w.userId in (set k | 0 <= k < |rows| :: rows[k].userId);
    }
  }

  // ---------------------------------------------------------------------------
  // The whole report

  /** A non-empty sum table means some award exists, so the count query has a first row. */
  lemma CountTableNonEmpty(achievements: seq<Achievement>, awards: seq<Award>,
                           countRows: seq<CountRow>, sumRows: seq<SumRow>)
    requires IsCountTable(awards, countRows)
    requires IsSumTable(achievements, awards, sumRows)
    requires sumRows != []
    ensures countRows != []
  {
    assert sumRows[0].userId in JoinedUsers(achievements, awards);
    var w :| w in awards && w.achieveId in Reporter.AchievementIds(achievements) && w.userId == sumRows[0].userId;
    assert w.userId in AwardUsers(awards);
  }

  datatype StaticData = StaticData(
    maxAchievements: UserCount,
    maxSumCountScope: UserCount,
    gaps: Gaps,
    users7Days: seq<int>)

  /**
   * get_static_data as written, over the three query results: it fails on an
   * empty sum table and otherwise reports the first row of each ordered query,
   * the gap loop over the representative point values and the qualifying users.
   */
  method GetStaticData(achievements: seq<Achievement>, awards: seq<Award>,
                       countRows: seq<CountRow>, sumRows: seq<SumRow>, daysRows: seq<DaysRow>)
    returns (r: Result<StaticData, StatsError>)
    requires IsCountTable(awards, countRows)
    requires IsSumTable(achievements, awards, sumRows)
    requires IsDaysTable(awards, daysRows)
    ensures sumRows == [] <==> r == Err(IndexError)
    ensures r.Ok? ==> countRows != []
    ensures r.Ok? ==> r.value.maxAchievements == UserCount(countRows[0].userId, countRows[0].count)
    ensures r.Ok? ==> r.value.maxSumCountScope == UserCount(sumRows[0].userId, sumRows[0].total)
    ensures r.Ok? ==> GapsOf(GapKeysAsWritten(sumRows), r.value.gaps)
    ensures r.Ok? ==> forall w :: w in awards ==>
              (w.userId in r.value.users7Days <==> PairCount(awards, awards, w.userId) >= 7)
    ensures r.Ok? ==> forall u :: u in r.value.users7Days ==>
              PairCount(awards, awards, u) >= 7 && exists w :: w in awards && w.userId == u
  {
    if sumRows == [] {
      return Err(IndexError);
    }
    CountTableNonEmpty(achievements, awards, countRows, sumRows);
    var achieve := MaxAchievementsAsWritten(countRows);
    var gaps := PairwiseGaps(GapKeysAsWritten(sumRows));
    var users := UsersSevenDays(daysRows);
    forall w | w in awards
      ensures w.userId in users <==> PairCount(awards, awards, w.userId) >= 7
    {
      SevenDayMembership(awards, daysRows, w);
    }
    forall u | u in users
      ensures PairCount(awards, awards, u) >= 7 && exists w :: w in awards && w.userId == u
    {
      var k :| 0 <= k < |daysRows| && daysRows[k].userId == u && daysRows[k].pairs >= 7;
      PairCountHolder(awards, awards, u);
    }
    r := Ok(StaticData(achieve.value, UserCount(sumRows[0].userId, sumRows[0].total), gaps, users));
  }
}
