/**
 * The HTTP layer of the achievement service (TZ_work/main.py) over a store
 * of the three tables (TZ_work/models.py). Inserting a row is appending it
 * to the table with the next free primary key (SQLite's rowid rule when
 * rows are never deleted); foreign keys are declared but SQLite does not
 * enforce them, so awards may name users or achievements that do not exist.
 */
module LedgerApi {
  import opened Wrappers
  import opened Ledger
  import Reporter

  const CountMessage := "'count' - the number must be completed"
  const UserIdMessage := "'user_id' - the number must be completed"
  const AchieveIdMessage := "'achieve_id' - the number must be completed"

  /** The validation of create_achieve: a count that is not positive is refused. */
  function CheckAchievement(count: int): (r: Option<string>)
    ensures r.None? <==> count > 0
    ensures r.Some? ==> r.value == CountMessage
  {
    if count <= 0 then Some(CountMessage) else None
  }

  /** The validation of give_achive: user_id is checked before achieve_id. */
  function CheckAward(userId: int, achieveId: int): (r: Option<string>)
    ensures r.None? <==> userId > 0 && achieveId > 0
    ensures userId <= 0 ==> r == Some(UserIdMessage)
    ensures userId > 0 && achieveId <= 0 ==> r == Some(AchieveIdMessage)
  {
    if userId <= 0 then Some(UserIdMessage)
    else if achieveId <= 0 then Some(AchieveIdMessage)
    else None
  }

  /** Primary keys grow strictly along a table, so they are unique and the table is in id order. */
  ghost predicate IdsIncreasing(ids: seq<int>, next: int) {
    (forall k :: 0 <= k < |ids| ==> 1 <= ids[k] < next) &&
    (forall i, j :: 0 <= i < j < |ids| ==> ids[i] < ids[j])
  }

  /** A table's primary-key column, read off its rows by `id`. */
  function IdsOf<T>(rows: seq<T>, id: T -> int): (ids: seq<int>)
    ensures |ids| == |rows| && forall k :: 0 <= k < |rows| ==> ids[k] == id(rows[k])
  {
    seq(|rows|, k requires 0 <= k < |rows| => id(rows[k]))
  }

  /** Appending a key above every existing one keeps the keys increasing. */
  lemma AppendKey(ids: seq<int>, next: int)
    requires IdsIncreasing(ids, next) && next >= 1
    ensures IdsIncreasing(ids + [next], next + 1)
  {
  }

  /** The database behind the service: the three tables and their next primary keys. */
  class Store {
    var users: seq<User>
    var achievements: seq<Achievement>
    var awards: seq<Award>
    var nextUserId: int
    var nextAchieveId: int
    var nextAwardId: int

    ghost predicate Valid()
      reads this
    {
      1 <= nextUserId && 1 <= nextAchieveId && 1 <= nextAwardId &&
      IdsIncreasing(IdsOf(users, (x: User) => x.id), nextUserId) &&
      IdsIncreasing(IdsOf(achievements, (x: Achievement) => x.id), nextAchieveId) &&
      IdsIncreasing(IdsOf(awards, (x: Award) => x.id), nextAwardId)
    }

    constructor ()
      ensures Valid()
      ensures users == [] && achievements == [] && awards == []
    {
      users, achievements, awards := [], [], [];
      nextUserId, nextAchieveId, nextAwardId := 1, 1, 1;
    }

    /** add_user: no validation; the row gets the next user id. */
    method AddUser(name: string, lang: string) returns (u: User)
      requires Valid()
      modifies this
      ensures Valid()
      ensures u == User(old(nextUserId), name, lang)
      ensures users == old(users) + [u]
      ensures achievements == old(achievements) && awards == old(awards)
      ensures nextUserId == old(nextUserId) + 1
      ensures nextAchieveId == old(nextAchieveId) && nextAwardId == old(nextAwardId)
    {
      u := User(nextUserId, name, lang);
      AppendKey(IdsOf(users, (x: User) => x.id), nextUserId);
      assert IdsOf(users + [u], (x: User) => x.id) == IdsOf(users, (x: User) => x.id) + [u.id];
      users := users + [u];
      nextUserId := nextUserId + 1;
    }

    /** create_achieve: refused with a message when count <= 0, otherwise inserted. */
    method CreateAchieve(name: string, count: int, text: string) returns (r: Result<Achievement, string>)
      requires Valid()
      modifies this
      ensures Valid()
      ensures count <= 0 ==> r == Err(CountMessage) && achievements == old(achievements) && nextAchieveId == old(nextAchieveId)
      ensures count > 0 ==> r == Ok(Achievement(old(nextAchieveId), name, count, text)) &&
                            achievements == old(achievements) + [r.value] && nextAchieveId == old(nextAchieveId) + 1
      ensures users == old(users) && awards == old(awards)
      ensures nextUserId == old(nextUserId) && nextAwardId == old(nextAwardId)
    {
      var refusal := CheckAchievement(count);
      if refusal.Some? {
        return Err(refusal.value);
      }
      var a := Achievement(nextAchieveId, name, count, text);
      AppendKey(IdsOf(achievements, (x: Achievement) => x.id), nextAchieveId);
      assert IdsOf(achievements + [a], (x: Achievement) => x.id) == IdsOf(achievements, (x: Achievement) => x.id) + [a.id];
      achievements := achievements + [a];
      nextAchieveId := nextAchieveId + 1;
      r := Ok(a);
    }

    /**
     * give_achive: refused when user_id <= 0, else when achieve_id <= 0;
     * otherwise an award issued at `now` (the clock read by the database default).
     */
    method GiveAchieve(userId: int, achieveId: int, now: int) returns (r: Result<Award, string>)
      requires Valid()
      modifies this
      ensures Valid()
      ensures r.Err? <==> CheckAward(userId, achieveId).Some?
      ensures r.Err? ==> r.error == CheckAward(userId, achieveId).value &&
                         awards == old(awards) && nextAwardId == old(nextAwardId)
      ensures r.Ok? ==> r.value == Award(old(nextAwardId), userId, achieveId, now) &&
                        awards == old(awards) + [r.value] && nextAwardId == old(nextAwardId) + 1
      ensures users == old(users) && achievements == old(achievements)
      ensures nextUserId == old(nextUserId) && nextAchieveId == old(nextAchieveId)
    {
      var refusal := CheckAward(userId, achieveId);
      if refusal.Some? {
        return Err(refusal.value);
      }
      var w := Award(nextAwardId, userId, achieveId, now);
      AppendKey(IdsOf(awards, (x: Award) => x.id), nextAwardId);
      assert IdsOf(awards + [w], (x: Award) => x.id) == IdsOf(awards, (x: Award) => x.id) + [w.id];
      awards := awards + [w];
      nextAwardId := nextAwardId + 1;
      r := Ok(w);
    }
  }

  /** Ids in a store are primary keys: the join of get_user_achieve meets at most one achievement per award. */
  lemma StoreKeysUnique(achievements: seq<Achievement>, next: int)
    requires IdsIncreasing(IdsOf(achievements, (x: Achievement) => x.id), next)
    ensures Reporter.UniqueAchievementIds(achievements)
  {
    var ids := IdsOf(achievements, (x: Achievement) => x.id);
    forall i, j | 0 <= i < j < |achievements| ensures achievements[i].id != achievements[j].id {
      assert ids[i] < ids[j];
    }
  }

  /** A successful award shows up at the end of the user's award lookup. */
  lemma AwardVisibleToUser(awards: seq<Award>, w: Award)
    ensures GetBelongAchieves(awards + [w], None, Some(w.userId), None)
         == GetBelongAchieves(awards, None, Some(w.userId), None) + [w]
  {
    LookupAfterAward(awards, w, None, Some(w.userId), None);
  }
}
