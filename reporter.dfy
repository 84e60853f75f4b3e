/**
 * The per-user achievement report (TZ_work/schemas.py, get_user_achieve):
 * the user's awards joined with their achievements, with name and text
 * translated out of Russian for users whose language is not "ru".
 */
module Reporter {
  import opened Wrappers
  import opened Ledger

  /** One element of the report: {"id", "name", "count", "text", "issue_date"}. */
  datatype Entry = Entry(id: int, name: string, count: int, text: string, issueDate: int)

  /** The translation library: (text, from_lang, to_lang) to translated text. */
  type Translator = (string, string, string) -> string

  datatype ReportError =
    | UserNotFound  // {"status": "error", "message": "user not found"}
    | IndexError    // `user[0]` on an empty result raises

  /** The canonical language of achievement names and texts. */
  const CanonicalLang := "ru"

  /** One row of the join `select(Achievements, BelongAchievements)`. */
  datatype JoinRow = JoinRow(achievement: Achievement, award: Award)

  /** The achievements an award refers to (one when ids are unique and the reference resolves). */
  function AchievementsOf(achievements: seq<Achievement>, w: Award): seq<Achievement> {
    Select(achievements, (a: Achievement) => a.id == w.achieveId)
  }

  /** The rows of the inner join of `achievements` with the awards of user `uid`, award by award. */
  function JoinRows(achievements: seq<Achievement>, awards: seq<Award>, uid: int): seq<JoinRow>
    decreases |awards|
  {
    if awards == [] then []
    else
      var w := awards[0];
      (if w.userId == uid then RowsFor(AchievementsOf(achievements, w), w) else [])
      + JoinRows(achievements, awards[1..], uid)
  }

  /** The join rows of one award with each of its matching achievements. */
  function RowsFor(matches: seq<Achievement>, w: Award): (rows: seq<JoinRow>)
    ensures |rows| == |matches|
    ensures forall k :: 0 <= k < |matches| ==> rows[k] == JoinRow(matches[k], w)
  {
    seq(|matches|, k requires 0 <= k < |matches| => JoinRow(matches[k], w))
  }

  /**
   * Whatever the ids, a row is in the user's join exactly when it pairs one of
   * the user's awards with an achievement of the id that award refers to.
   */
  lemma {:induction false} JoinRowsMembership(achievements: seq<Achievement>, awards: seq<Award>, uid: int, r: JoinRow)
    ensures r in JoinRows(achievements, awards, uid) <==>
      exists a, w :: a in achievements && w in awards && w.userId == uid && a.id == w.achieveId && r == JoinRow(a, w)
    decreases |awards|
  {
    if awards != [] {
      var w0 := awards[0];
      var m := AchievementsOf(achievements, w0);
      var here := if w0.userId == uid then RowsFor(m, w0) else [];
      var rest := JoinRows(achievements, awards[1..], uid);
      assert JoinRows(achievements, awards, uid) == here + rest;
      JoinRowsMembership(achievements, awards[1..], uid, r);
      assert r in here <==> w0.userId == uid && r.award == w0 && r.achievement in achievements && r.achievement.id == w0.achieveId by {
        if w0.userId == uid {
          if r in here {
            var k :| 0 <= k < |m| && here[k] == r;
            assert multiset(m)[m[k]] > 0;
          }
          if r.award == w0 && r.achievement in achievements && r.achievement.id == w0.achieveId {
            assert multiset(m)[r.achievement] > 0;
            var k :| 0 <= k < |m| && m[k] == r.achievement;
            assert here[k] == r;
          }
        }
      }
      if r in here {
        assert w0 in awards && r == JoinRow(r.achievement, w0);
      } else if r in rest {
        var a, w :| a in achievements && w in awards[1..] && w.userId == uid && a.id == w.achieveId && r == JoinRow(a, w);
        assert w in awards;
      }
      if exists a, w :: a in achievements && w in awards && w.userId == uid && a.id == w.achieveId && r == JoinRow(a, w) {
        var a, w :| a in achievements && w in awards && w.userId == uid && a.id == w.achieveId && r == JoinRow(a, w);
        if w != w0 {
          assert w in awards[1..];
        }
      }
    }
  }

  /** The awards of one user, in store order. */
  function AwardsOfUser(awards: seq<Award>, uid: int): seq<Award> {
    Select(awards, (w: Award) => w.userId == uid)
  }

  /** Achievement ids are unique (the primary key). */
  ghost predicate UniqueAchievementIds(achievements: seq<Achievement>) {
    forall i, j :: 0 <= i < j < |achievements| ==> achievements[i].id != achievements[j].id
  }

  /** Every award refers to an existing achievement (the foreign key). */
  ghost predicate AwardsResolve(achievements: seq<Achievement>, awards: seq<Award>) {
    forall i :: 0 <= i < |awards| ==> awards[i].achieveId in AchievementIds(achievements)
  }

  ghost function AchievementIds(achievements: seq<Achievement>): set<int> {
    set a | a in achievements :: a.id
  }

  lemma {:induction false} UniqueMatch(achievements: seq<Achievement>, w: Award)
    requires UniqueAchievementIds(achievements)
    requires w.achieveId in AchievementIds(achievements)
    ensures |AchievementsOf(achievements, w)| == 1
    ensures AchievementsOf(achievements, w)[0].id == w.achieveId
    decreases |achievements|
  {
    var p := (a: Achievement) => a.id == w.achieveId;
    if achievements[0].id == w.achieveId {
      forall k | 0 <= k < |achievements[1..]| ensures !p(achievements[1..][k]) {
        assert achievements[1..][k] == achievements[k + 1];
      }
      SelectNone(achievements[1..], p);
    } else {
      var a :| a in achievements && a.id == w.achieveId;
      assert a in achievements[1..];
      UniqueMatch(achievements[1..], w);
    }
  }

  /**
   * With unique achievement ids and resolving references, the join holds
   * exactly one row per award of the user, in award order, with the award's
   * own achievement.
   */
  lemma {:induction false} JoinOneRowPerAward(achievements: seq<Achievement>, awards: seq<Award>, uid: int)
    requires UniqueAchievementIds(achievements)
    requires AwardsResolve(achievements, awards)
    ensures |JoinRows(achievements, awards, uid)| == |AwardsOfUser(awards, uid)|
    ensures forall i :: 0 <= i < |AwardsOfUser(awards, uid)| ==>
              JoinRows(achievements, awards, uid)[i].award == AwardsOfUser(awards, uid)[i] &&
              JoinRows(achievements, awards, uid)[i].achievement.id == AwardsOfUser(awards, uid)[i].achieveId
    decreases |awards|
  {
    if awards != [] {
      var w := awards[0];
      assert AwardsResolve(achievements, awards[1..]) by {
        forall i | 0 <= i < |awards| - 1 ensures awards[1..][i].achieveId in AchievementIds(achievements) {
          assert awards[1..][i] == awards[i + 1];
        }
      }
      JoinOneRowPerAward(achievements, awards[1..], uid);
      var restRows := JoinRows(achievements, awards[1..], uid);
      var restAwards := AwardsOfUser(awards[1..], uid);
      var rows := JoinRows(achievements, awards, uid);
      var mine := AwardsOfUser(awards, uid);
      if w.userId == uid {
        UniqueMatch(achievements, w);
        var here := RowsFor(AchievementsOf(achievements, w), w);
        assert rows == here + restRows;
        assert mine == [w] + restAwards;
        forall i | 0 <= i < |mine|
          ensures rows[i].award == mine[i] && rows[i].achievement.id == mine[i].achieveId
        {
          if i > 0 {
            assert rows[i] == restRows[i - 1] && mine[i] == restAwards[i - 1];
          }
        }
      } else {
        assert rows == restRows;
        assert mine == restAwards;
      }
    }
  }

  /** `translator.translate(s)` for a user whose language is not the canonical one. */
  function Localize(s: string, lang: string, tr: Translator): string {
    if lang != CanonicalLang then tr(s, CanonicalLang, lang) else s
  }

  /** The report entry for one join row. */
  function EntryOf(row: JoinRow, lang: string, tr: Translator): (e: Entry)
    ensures e.id == row.award.id && e.count == row.achievement.count && e.issueDate == row.award.issueDate
    ensures lang == CanonicalLang ==> e.name == row.achievement.name && e.text == row.achievement.text
    ensures lang != CanonicalLang ==>
              e.name == tr(row.achievement.name, CanonicalLang, lang) &&
              e.text == tr(row.achievement.text, CanonicalLang, lang)
  {
    Entry(row.award.id, Localize(row.achievement.name, lang, tr), row.achievement.count,
          Localize(row.achievement.text, lang, tr), row.award.issueDate)
  }

  /** The loop of get_user_achieve: one entry appended per join row. */
  method BuildEntries(rows: seq<JoinRow>, lang: string, tr: Translator) returns (entries: seq<Entry>)
    ensures |entries| == |rows|
    ensures forall i :: 0 <= i < |rows| ==> entries[i] == EntryOf(rows[i], lang, tr)
  {
    entries := [];
    for i := 0 to |rows|
      invariant |entries| == i
      invariant forall k :: 0 <= k < i ==> entries[k] == EntryOf(rows[k], lang, tr)
    {
      var name := rows[i].achievement.name;
      var text := rows[i].achievement.text;
      if lang != CanonicalLang {
        text := tr(text, CanonicalLang, lang);
        name := tr(name, CanonicalLang, lang);
      }
      entries := entries + [Entry(rows[i].award.id, name, rows[i].achievement.count, text, rows[i].award.issueDate)];
    }
  }

  lemma NonEmptySelectHasMatch(users: seq<User>, id: int)
    ensures |GetUsers(users, Some(id), None, None)| > 0 <==> exists i :: 0 <= i < |users| && users[i].id == id
    ensures |GetUsers(users, Some(id), None, None)| > 0 ==> GetUsers(users, Some(id), None, None)[0].id == id
  {
    var r := GetUsers(users, Some(id), None, None);
    if |r| > 0 {
      assert multiset(r)[r[0]] > 0;
      assert r[0] in users;
    }
    if i :| 0 <= i < |users| && users[i].id == id {
      assert multiset(users)[users[i]] > 0;
    }
  }

  /** get_user_achieve with the evidently intended guard: an unknown id gives "user not found". */
  method GetUserAchieve(users: seq<User>, achievements: seq<Achievement>, awards: seq<Award>, id: int, tr: Translator)
    returns (r: Result<seq<Entry>, ReportError>)
    ensures r.Err? <==> forall i :: 0 <= i < |users| ==> users[i].id != id
    ensures r.Err? ==> r.error == UserNotFound
    ensures r.Ok? ==>
              exists u :: u in users && u.id == id &&
                |r.value| == |JoinRows(achievements, awards, id)| &&
                forall i :: 0 <= i < |r.value| ==> r.value[i] == EntryOf(JoinRows(achievements, awards, id)[i], u.lang, tr)
  {
    var user := GetUsers(users, Some(id), None, None);
    NonEmptySelectHasMatch(users, id);
    if |user| == 0 {
      return Err(UserNotFound);
    }
    assert multiset(user)[user[0]] > 0;
    var entries := BuildEntries(JoinRows(achievements, awards, id), user[0].lang, tr);
    r := Ok(entries);
  }

  /**
   * get_user_achieve as written: its guard `len(user) < 0` never holds, so an
   * unknown id reaches `user[0]` and raises instead of answering "user not found".
   */
  method GetUserAchieveAsWritten(users: seq<User>, achievements: seq<Achievement>, awards: seq<Award>, id: int, tr: Translator)
    returns (r: Result<seq<Entry>, ReportError>)
    ensures r.Err? <==> forall i :: 0 <= i < |users| ==> users[i].id != id
    ensures r.Err? ==> r.error == IndexError
    ensures r.Ok? ==>
              exists u :: u in users && u.id == id &&
                |r.value| == |JoinRows(achievements, awards, id)| &&
                forall i :: 0 <= i < |r.value| ==> r.value[i] == EntryOf(JoinRows(achievements, awards, id)[i], u.lang, tr)
  {
    var user := GetUsers(users, Some(id), None, None);
    NonEmptySelectHasMatch(users, id);
    if |user| == 0 {
      return Err(IndexError);
    }
    assert multiset(user)[user[0]] > 0;
    var entries := BuildEntries(JoinRows(achievements, awards, id), user[0].lang, tr);
    r := Ok(entries);
  }
}
