/**
 * The achievement ledger: the three tables of the backend (TZ_work/models.py)
 * and the filtered lookups in front of them (TZ_work/schemas.py, get_users,
 * get_achieves, get_belong_achieves). A table is a sequence of rows in the
 * store's default order; a timestamp is an integer number of seconds.
 */
module Ledger {
  import opened Wrappers

  /** A row of table `users`. */
  datatype User = User(id: int, name: string, lang: string)

  /** A row of table `achievements`; `count` is the point value. */
  datatype Achievement = Achievement(id: int, name: string, count: int, text: string)

  /** A row of table `belong_achievements`: one award of one achievement to one user. */
  datatype Award = Award(id: int, userId: int, achieveId: int, issueDate: int)

  /** A lookup argument: `None` becomes the SQL literal `True` and matches every row. */
  predicate FieldMatches<T(==,!new)>(filter: Option<T>, value: T) {
    filter.None? || filter.value == value
  }

  /** `select(rows).where(p)`: the rows satisfying `p`, in store order. */
  function Select<T(==,!new)>(rows: seq<T>, p: T -> bool): (r: seq<T>)
    ensures |r| <= |rows|
    ensures forall x :: multiset(r)[x] == if p(x) then multiset(rows)[x] else 0
    decreases |rows|
  {
    if rows == [] then []
    else
      assert rows == [rows[0]] + rows[1..];
      (if p(rows[0]) then [rows[0]] else []) + Select(rows[1..], p)
  }

  /** Selecting from a concatenation selects from each part, keeping the order. */
  lemma {:induction false} SelectAppend<T(!new)>(a: seq<T>, b: seq<T>, p: T -> bool)
    ensures Select(a + b, p) == Select(a, p) + Select(b, p)
    decreases |a|
  {
    if a == [] {
      assert a + b == b;
    } else {
      var ab := a + b;
      assert ab[0] == a[0] && ab[1..] == a[1..] + b;
      SelectAppend(a[1..], b, p);
      var head := if p(a[0]) then [a[0]] else [];
      calc {
        Select(ab, p);
        head + Select(a[1..] + b, p);
        head + (Select(a[1..], p) + Select(b, p));
        (head + Select(a[1..], p)) + Select(b, p);
      }
    }
  }

  /** A condition every row meets selects the whole table. */
  lemma {:induction false} SelectAll<T(!new)>(rows: seq<T>, p: T -> bool)
    requires forall i :: 0 <= i < |rows| ==> p(rows[i])
    ensures Select(rows, p) == rows
    decreases |rows|
  {
    if rows != [] {
      SelectAll(rows[1..], p);
    }
  }

  /** A condition no row meets selects nothing. */
  lemma {:induction false} SelectNone<T(!new)>(rows: seq<T>, p: T -> bool)
    requires forall i :: 0 <= i < |rows| ==> !p(rows[i])
    ensures Select(rows, p) == []
    decreases |rows|
  {
    if rows != [] {
      SelectNone(rows[1..], p);
    }
  }

  predicate UserMatches(u: User, id: Option<int>, name: Option<string>, lang: Option<string>) {
    FieldMatches(id, u.id) && FieldMatches(name, u.name) && FieldMatches(lang, u.lang)
  }

  predicate AchievementMatches(a: Achievement, id: Option<int>, name: Option<string>, count: Option<int>) {
    FieldMatches(id, a.id) && FieldMatches(name, a.name) && FieldMatches(count, a.count)
  }

  predicate AwardMatches(w: Award, id: Option<int>, userId: Option<int>, achieveId: Option<int>) {
    FieldMatches(id, w.id) && FieldMatches(userId, w.userId) && FieldMatches(achieveId, w.achieveId)
  }

  /** get_users: every row equal to each supplied filter, as often as it occurs. */
  function GetUsers(users: seq<User>, id: Option<int>, name: Option<string>, lang: Option<string>): (r: seq<User>)
    ensures forall u :: multiset(r)[u] == if UserMatches(u, id, name, lang) then multiset(users)[u] else 0
  {
    Select(users, u => UserMatches(u, id, name, lang))
  }

  /** get_achieves */
  function GetAchieves(achievements: seq<Achievement>, id: Option<int>, name: Option<string>, count: Option<int>): (r: seq<Achievement>)
    ensures forall a :: multiset(r)[a] == if AchievementMatches(a, id, name, count) then multiset(achievements)[a] else 0
  {
    Select(achievements, a => AchievementMatches(a, id, name, count))
  }

  /** get_belong_achieves */
  function GetBelongAchieves(awards: seq<Award>, id: Option<int>, userId: Option<int>, achieveId: Option<int>): (r: seq<Award>)
    ensures forall w :: multiset(r)[w] == if AwardMatches(w, id, userId, achieveId) then multiset(awards)[w] else 0
  {
    Select(awards, w => AwardMatches(w, id, userId, achieveId))
  }

  /** With every filter absent the lookups return the whole table, in order. */
  lemma NoFilterReturnsAll(users: seq<User>, achievements: seq<Achievement>, awards: seq<Award>)
    ensures GetUsers(users, None, None, None) == users
    ensures GetAchieves(achievements, None, None, None) == achievements
    ensures GetBelongAchieves(awards, None, None, None) == awards
  {
    SelectAll(users, u => UserMatches(u, None, None, None));
    SelectAll(achievements, a => AchievementMatches(a, None, None, None));
    SelectAll(awards, w => AwardMatches(w, None, None, None));
  }

  /** A lookup after an insert sees the earlier answer followed by the new row, if it matches. */
  lemma LookupAfterAward(awards: seq<Award>, w: Award, id: Option<int>, userId: Option<int>, achieveId: Option<int>)
    ensures GetBelongAchieves(awards + [w], id, userId, achieveId)
         == GetBelongAchieves(awards, id, userId, achieveId) + (if AwardMatches(w, id, userId, achieveId) then [w] else [])
  {
    var p := (x: Award) => AwardMatches(x, id, userId, achieveId);
    SelectAppend(awards, [w], p);
    assert Select([w], p) == (if p(w) then [w] else []) + Select([], p);
  }
}
