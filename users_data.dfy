/**
 * The rules inside the bot's handlers (tg_bot/users_data.py) that do not
 * depend on the chat or the network: which filter entries a search sends,
 * how a film's length and a history record are rendered, which persons of
 * a film become buttons, how facts are numbered, how many date buttons the
 * history shows and when a cached actor is fetched again.
 */
module UsersData {
  import opened Wrappers
  import opened Strings
  import opened PyValues
  import opened SiteApi

  // ---------------------------------------------------------------------------
  // Search filters from the state-machine data

  /** state key -> API key, in the order search_film copies them. */
  const FilmFilterKeys: seq<(string, string)> := [
    ("filter_name", "name"),
    ("filter_en_name", "enName"),
    ("filter_type", "type"),
    ("filter_year", "year"),
    ("filter_rating_kp", "rating.kp"),
    ("filter_rating_imdb", "rating.imdb"),
    ("filter_age_rating", "ageRating"),
    ("filter_genres", "genres.name")
  ]

  /** state key -> API key, in the order search_persons_filter copies them. */
  const PersonFilterKeys: seq<(string, string)> := [
    ("person_name", "name"),
    ("person_en_name", "enName"),
    ("person_birthday", "birthday"),
    ("person_age", "age")
  ]

  /** The filter a table yields: one entry per state key present, under its API key. */
  function FilterFrom(data: map<string, string>, table: seq<(string, string)>): Filter
    decreases |table|
  {
    if table == [] then []
    else
      var (stateKey, apiKey) := table[|table| - 1];
      FilterFrom(data, table[..|table| - 1]) + (if stateKey in data then [(apiKey, Text(data[stateKey]))] else [])
  }

  predicate HasApiKey(filter: Filter, apiKey: string) {
    exists j :: 0 <= j < |filter| && filter[j].0 == apiKey
  }

  predicate DistinctApiKeys(table: seq<(string, string)>) {
    forall i, j :: 0 <= i < j < |table| ==> table[i].1 != table[j].1
  }

  /** Every filter entry comes from a row of the table whose state key is present. */
  lemma {:induction false} FilterFromSound(data: map<string, string>, table: seq<(string, string)>, j: int)
    requires 0 <= j < |FilterFrom(data, table)|
    ensures exists i :: 0 <= i < |table| && table[i].0 in data && FilterFrom(data, table)[j] == (table[i].1, Text(data[table[i].0]))
    decreases |table|
  {
    var init := table[..|table| - 1];
    if j < |FilterFrom(data, init)| {
      FilterFromSound(data, init, j);
      var i :| 0 <= i < |init| && init[i].0 in data && FilterFrom(data, init)[j] == (init[i].1, Text(data[init[i].0]));
      assert table[i] == init[i];
    } else {
      assert table[|table| - 1].0 in data;
    }
  }

  /** A present state key always yields its entry, with its value. */
  lemma {:induction false} FilterFromComplete(data: map<string, string>, table: seq<(string, string)>, i: int)
    requires 0 <= i < |table| && table[i].0 in data
    ensures exists j :: 0 <= j < |FilterFrom(data, table)| && FilterFrom(data, table)[j] == (table[i].1, Text(data[table[i].0]))
    decreases |table|
  {
    var init := table[..|table| - 1];
    var head := FilterFrom(data, init);
    if i < |table| - 1 {
      assert init[i] == table[i];
      FilterFromComplete(data, init, i);
      var j :| 0 <= j < |head| && head[j] == (table[i].1, Text(data[table[i].0]));
      assert FilterFrom(data, table)[j] == head[j];
    } else {
      assert FilterFrom(data, table)[|head|] == (table[i].1, Text(data[table[i].0]));
    }
  }

  /**
   * With distinct API keys, an API key appears in the filter exactly when
   * its state key is present, and then carries that key's text.
   */
  lemma FilterFromExact(data: map<string, string>, table: seq<(string, string)>, i: int)
    requires DistinctApiKeys(table)
    requires 0 <= i < |table|
    ensures HasApiKey(FilterFrom(data, table), table[i].1) <==> table[i].0 in data
    ensures forall j :: 0 <= j < |FilterFrom(data, table)| && FilterFrom(data, table)[j].0 == table[i].1 ==>
      FilterFrom(data, table)[j].1 == Text(data[table[i].0])
  {
    var filter := FilterFrom(data, table);
    if table[i].0 in data {
      FilterFromComplete(data, table, i);
    }
    forall j | 0 <= j < |filter| && filter[j].0 == table[i].1
      ensures table[i].0 in data && filter[j].1 == Text(data[table[i].0])
    {
      FilterFromSound(data, table, j);
      var i' :| 0 <= i' < |table| && table[i'].0 in data && filter[j] == (table[i'].1, Text(data[table[i'].0]));
      assert i' == i;
    }
  }

  lemma FilterFromStep(data: map<string, string>, table: seq<(string, string)>, n: int)
    requires 0 <= n < |table|
    ensures FilterFrom(data, table[..n + 1]) ==
      FilterFrom(data, table[..n]) + (if table[n].0 in data then [(table[n].1, Text(data[table[n].0]))] else [])
  {
    assert table[..n + 1][..n] == table[..n];
  }

  /** search_film: the filter sent for the collected state data. */
  method SearchFilmFilter(data: map<string, string>) returns (filter: Filter)
    ensures filter == FilterFrom(data, FilmFilterKeys)
  {
    var t := FilmFilterKeys;
    filter := [];
    assert filter == FilterFrom(data, t[..0]);
    if "filter_name" in data { filter := filter + [("name", Text(data["filter_name"]))]; }
    FilterFromStep(data, t, 0);
    assert filter == FilterFrom(data, t[..1]);
    if "filter_en_name" in data { filter := filter + [("enName", Text(data["filter_en_name"]))]; }
    FilterFromStep(data, t, 1);
    assert filter == FilterFrom(data, t[..2]);
    if "filter_type" in data { filter := filter + [("type", Text(data["filter_type"]))]; }
    FilterFromStep(data, t, 2);
    assert filter == FilterFrom(data, t[..3]);
    if "filter_year" in data { filter := filter + [("year", Text(data["filter_year"]))]; }
    FilterFromStep(data, t, 3);
    assert filter == FilterFrom(data, t[..4]);
    if "filter_rating_kp" in data { filter := filter + [("rating.kp", Text(data["filter_rating_kp"]))]; }
    FilterFromStep(data, t, 4);
    assert filter == FilterFrom(data, t[..5]);
    if "filter_rating_imdb" in data { filter := filter + [("rating.imdb", Text(data["filter_rating_imdb"]))]; }
    FilterFromStep(data, t, 5);
    assert filter == FilterFrom(data, t[..6]);
    if "filter_age_rating" in data { filter := filter + [("ageRating", Text(data["filter_age_rating"]))]; }
    FilterFromStep(data, t, 6);
    assert filter == FilterFrom(data, t[..7]);
    if "filter_genres" in data { filter := filter + [("genres.name", Text(data["filter_genres"]))]; }
    FilterFromStep(data, t, 7);
    assert filter == FilterFrom(data, t[..8]);
    assert t[..8] == t;
  }

  /** search_persons_filter: the filter sent for the collected state data. */
  method SearchPersonsFilter(data: map<string, string>) returns (filter: Filter)
    ensures filter == FilterFrom(data, PersonFilterKeys)
  {
    var t := PersonFilterKeys;
    filter := [];
    assert filter == FilterFrom(data, t[..0]);
    if "person_name" in data { filter := filter + [("name", Text(data["person_name"]))]; }
    FilterFromStep(data, t, 0);
    assert filter == FilterFrom(data, t[..1]);
    if "person_en_name" in data { filter := filter + [("enName", Text(data["person_en_name"]))]; }
    FilterFromStep(data, t, 1);
    assert filter == FilterFrom(data, t[..2]);
    if "person_birthday" in data { filter := filter + [("birthday", Text(data["person_birthday"]))]; }
    FilterFromStep(data, t, 2);
    assert filter == FilterFrom(data, t[..3]);
    if "person_age" in data { filter := filter + [("age", Text(data["person_age"]))]; }
    FilterFromStep(data, t, 3);
    assert filter == FilterFrom(data, t[..4]);
    assert t[..4] == t;
  }

  lemma FilterTablesDistinct()
    ensures DistinctApiKeys(FilmFilterKeys) && DistinctApiKeys(PersonFilterKeys)
  {
  }

  // ---------------------------------------------------------------------------
  // Film length

  /** `'{0} ч {1:02} мин'.format(m // 60, m % 60)`; Python's floor division and modulo. */
  function MinutesText(m: int): (r: string)
    ensures r == Join([IntToString(m / 60), "ч", Pad2(m % 60), "мин"], " ")
  {
    JoinFour(IntToString(m / 60), "ч", Pad2(m % 60), "мин", " ");
    IntToString(m / 60) + " ч " + Pad2(m % 60) + " мин"
  }

  /** The length shown for a film: ints (and bools, which are ints) as hours and minutes, else `str`. */
  function MovieLengthText(v: PyValue, str: PyValue -> string): (r: string)
    ensures v.PInt? ==> r == MinutesText(v.i)
    ensures v.PBool? ==> r == MinutesText(if v.b then 1 else 0)
    ensures !v.PInt? && !v.PBool? ==> r == str(v)
  {
    match v
    case PInt(m) => MinutesText(m)
    case PBool(b) => MinutesText(if b then 1 else 0)
    case _ => str(v)
  }

  /** The hours and minutes read back from the text give the length again. */
  lemma MinutesTextReadBack(m: int)
    ensures |Split(MinutesText(m), ' ')| == 4
    ensures var parts := Split(MinutesText(m), ' ');
      ParseIntToStringPre(parts[0]) && (forall k :: 0 <= k < |parts[2]| ==> IsDigit(parts[2][k])) &&
      ParseInt(parts[0]) * 60 + ParseNat(parts[2]) == m
  {
    var h := IntToString(m / 60);
    var p := Pad2(m % 60);
    var parts := [h, "ч", p, "мин"];
    IntToStringChars(m / 60, ' ');
    assert ' ' !in p;
    assert ' ' !in "ч" && ' ' !in "мин";
    SplitJoin(parts, ' ');
    assert Split(MinutesText(m), ' ') == parts;
    ParseIntToString(m / 60);
    ParsePad2(m % 60);
  }

  /** The argument conditions of ParseInt. */
  predicate ParseIntToStringPre(s: string) {
    |s| >= 1 && (s[0] == '-' || IsDigit(s[0])) && forall i :: 1 <= i < |s| ==> IsDigit(s[i])
  }

  /** Two different lengths never share a text. */
  lemma MinutesTextInjective(m: int, n: int)
    requires m != n
    ensures MinutesText(m) != MinutesText(n)
  {
    MinutesTextReadBack(m);
    MinutesTextReadBack(n);
  }

  // ---------------------------------------------------------------------------
  // History records

  /** First segments of the old record format, merged with the second segment. */
  const LegacyPrefixes: set<string> := {"st", "ap", "af", "bp", "bf"}

  datatype HistoryError = IndexError  // `pop(1)` on a one-segment legacy code

  /** The segments of a stored event code, with an old-format code rewritten to the new one. */
  function NormalizeHistoryCode(code: string): (r: Result<seq<string>, HistoryError>)
    ensures var parts := Split(code, '.');
      parts[0] !in LegacyPrefixes ==> r == Ok(parts)
    ensures var parts := Split(code, '.');
      parts[0] in LegacyPrefixes && |parts| == 1 ==> r == Err(IndexError)
    ensures r.Ok? ==> |r.value| >= 1
  {
    var parts := Split(code, '.');
    if parts[0] in LegacyPrefixes then
      if |parts| < 2 then Err(IndexError)
      else Ok([parts[0] + "_" + parts[1]] + parts[2..])
    else Ok(parts)
  }

  /**
   * An old-format code `p.s1.s2...` reads as the new-format code with its
   * first '.' turned into '_': `p_s1.s2...`.
   */
  lemma LegacyCodeMerged(p: string, rest: seq<string>)
    requires p in LegacyPrefixes
    requires |rest| >= 1
    requires forall k :: 0 <= k < |rest| ==> '.' !in rest[k]
    ensures NormalizeHistoryCode(Join([p] + rest, ".")) == Ok([p + "_" + rest[0]] + rest[1..])
    ensures Join([p + "_" + rest[0]] + rest[1..], ".") == p + "_" + Join(rest, ".")
  {
    LegacyPrefixHasNoDot(p);
    LegacyCodeSplits(p, rest);
    var parts := Split(Join([p] + rest, "."), '.');
    assert parts == [p] + rest;
    assert parts[0] == p && parts[1] == rest[0] && parts[2..] == rest[1..];
    MergedJoin(p, rest);
  }

  lemma LegacyPrefixHasNoDot(p: string)
    requires p in LegacyPrefixes
    ensures '.' !in p
  {
    assert p == "st" || p == "ap" || p == "af" || p == "bp" || p == "bf";
  }

  lemma LegacyCodeSplits(p: string, rest: seq<string>)
    requires '.' !in p
    requires |rest| >= 1
    requires forall k :: 0 <= k < |rest| ==> '.' !in rest[k]
    ensures Split(Join([p] + rest, "."), '.') == [p] + rest
  {
    var parts := [p] + rest;
    forall k | 0 <= k < |parts| ensures '.' !in parts[k] {
      if k > 0 { assert parts[k] == rest[k - 1]; }
    }
    SplitJoin(parts, '.');
  }

  lemma MergedJoin(p: string, rest: seq<string>)
    requires |rest| >= 1
    ensures Join([p + "_" + rest[0]] + rest[1..], ".") == p + "_" + Join(rest, ".")
  {
    var merged := [p + "_" + rest[0]] + rest[1..];
    if |rest| > 1 {
      assert merged[1..] == rest[1..];
      var j := Join(rest[1..], ".");
      Regroup(p + "_", rest[0], ".");
      Regroup(p + "_", rest[0] + ".", j);
    }
  }

  /** A code without segments after a legacy prefix fails instead of being shown. */
  lemma LoneLegacyPrefixFails()
    ensures NormalizeHistoryCode("bf") == Err(IndexError)
  {
    SplitWithoutSeparator("bf", '.');
  }

  /** At most this many date buttons are offered. */
  const MaxDateButtons: nat := 16

  /** get_history_info: one button per date, newest first, stopping after the 16th. */
  method HistoryDateButtons(dates: seq<string>) returns (buttons: seq<(string, string)>)
    ensures |buttons| == if |dates| < MaxDateButtons then |dates| else MaxDateButtons
    ensures forall k :: 0 <= k < |buttons| ==> buttons[k] == (dates[k], "mm_history." + dates[k])
  {
    buttons := [];
    var k := 0;
    while k < |dates|
      invariant 0 <= k <= |dates|
      invariant |buttons| == k < MaxDateButtons
      invariant forall j :: 0 <= j < k ==> buttons[j] == (dates[j], "mm_history." + dates[j])
    {
      buttons := buttons + [(dates[k], "mm_history." + dates[k])];
      k := k + 1;
      if |buttons| > 15 {
        break;
      }
    }
  }

  // ---------------------------------------------------------------------------
  // Persons of a film

  /** `person.get('name', person.get('enName'))` */
  function PersonName(person: map<string, PyValue>): PyValue {
    Get(person, "name", Get(person, "enName", PNone))
  }

  /**
   * get_persons_films counts a person and gives them a button when they
   * have a name, a non-empty id and are listed as an actor.
   */
  predicate IsListedActor(person: map<string, PyValue>, str: PyValue -> string) {
    Truthy(PersonName(person)) &&
    str(Get(person, "id", PStr(""))) != "" &&
    (Get(person, "profession", PNone) == PStr("актеры") || Get(person, "enProfession", PNone) == PStr("actor"))
  }

  /** The button of one counted actor: label, and the code `ap_one_person.<film>.<id>`. */
  function ActorButton(person: map<string, PyValue>, filmKey: string, str: PyValue -> string): (PyValue, string) {
    (PersonName(person), "ap_one_person." + filmKey + "." + str(Get(person, "id", PStr(""))))
  }

  function ActorButtons(persons: seq<map<string, PyValue>>, filmKey: string, str: PyValue -> string): (bs: seq<(PyValue, string)>)
    ensures |bs| <= |persons|
    decreases |persons|
  {
    if persons == [] then []
    else
      var init := persons[..|persons| - 1];
      var last := persons[|persons| - 1];
      ActorButtons(init, filmKey, str) + (if IsListedActor(last, str) then [ActorButton(last, filmKey, str)] else [])
  }

  /** The loop over a film's persons: the actor count and their buttons. */
  method CountActors(persons: seq<map<string, PyValue>>, filmKey: string, str: PyValue -> string)
    returns (count: nat, buttons: seq<(PyValue, string)>)
    ensures buttons == ActorButtons(persons, filmKey, str)
    ensures count == |buttons| <= |persons|
  {
    count := 0;
    buttons := [];
    for k := 0 to |persons|
      invariant buttons == ActorButtons(persons[..k], filmKey, str)
      invariant count == |buttons|
    {
      var person := persons[k];
      assert persons[..k + 1][..k] == persons[..k];
      var nameItem := Get(person, "name", Get(person, "enName", PNone));
      if !Truthy(nameItem) {
        continue;
      }
      var idPerson := str(Get(person, "id", PStr("")));
      if idPerson != "" {
        if Get(person, "profession", PNone) != PStr("актеры") && Get(person, "enProfession", PNone) != PStr("actor") {
          continue;
        }
        count := count + 1;
        buttons := buttons + [(nameItem, "ap_one_person." + filmKey + "." + idPerson)];
      }
    }
    assert persons[..|persons|] == persons;
  }

  /**
   * Every actor button's code splits into the event name, the film key and
   * the person id, the keys the person handler reads.
   */
  lemma {:induction false} ActorButtonCodesSplit(persons: seq<map<string, PyValue>>, filmKey: string, str: PyValue -> string, k: int)
    requires '.' !in filmKey
    requires forall v :: '.' !in str(v)
    requires 0 <= k < |ActorButtons(persons, filmKey, str)|
    ensures exists p ::
              p in persons && IsListedActor(p, str) &&
              Split(ActorButtons(persons, filmKey, str)[k].1, '.') == ["ap_one_person", filmKey, str(Get(p, "id", PStr("")))]
    decreases |persons|
  {
    var init := persons[..|persons| - 1];
    var last := persons[|persons| - 1];
    if k < |ActorButtons(init, filmKey, str)| {
      ActorButtonCodesSplit(init, filmKey, str, k);
      var p :| p in init && IsListedActor(p, str) &&
        Split(ActorButtons(init, filmKey, str)[k].1, '.') == ["ap_one_person", filmKey, str(Get(p, "id", PStr("")))];
      assert p in persons;
    } else {
      assert IsListedActor(last, str);
      assert ActorButtons(persons, filmKey, str)[k] == ActorButton(last, filmKey, str);
      var id := str(Get(last, "id", PStr("")));
      var parts := ["ap_one_person", filmKey, id];
      assert '.' !in "ap_one_person";
      forall j | 0 <= j < 3 ensures '.' !in parts[j] {
      }
      SplitJoin(parts, '.');
      JoinThree("ap_one_person", filmKey, id, ".");
      assert "ap_one_person." == "ap_one_person" + ".";
      assert ActorButtons(persons, filmKey, str)[k].1 == Join(parts, ".");
      assert last in persons;
    }
  }

  // ---------------------------------------------------------------------------
  // Facts of a film

  /** The values of the facts that get a number: the truthy ones, in order. */
  function ShownFacts(facts: seq<map<string, PyValue>>): (vs: seq<PyValue>)
    ensures |vs| <= |facts|
    ensures forall k :: 0 <= k < |vs| ==> Truthy(vs[k])
    decreases |facts|
  {
    if facts == [] then []
    else
      var v := Get(facts[|facts| - 1], "value", PNone);
      ShownFacts(facts[..|facts| - 1]) + (if Truthy(v) then [v] else [])
  }

  lemma ShownFactsStep(facts: seq<map<string, PyValue>>, k: int)
    requires 0 <= k < |facts|
    ensures var v := Get(facts[k], "value", PNone);
      ShownFacts(facts[..k + 1]) == ShownFacts(facts[..k]) + (if Truthy(v) then [v] else [])
  {
    assert facts[..k + 1][..k] == facts[..k];
    assert facts[..k + 1][k] == facts[k];
  }

  /** A truthy fact adds one line, numbered one past the facts shown before it. */
  lemma FactShownStep(facts: seq<map<string, PyValue>>, k: int, str: PyValue -> string, title: string, text: string)
    requires 0 <= k < |facts| && Truthy(Get(facts[k], "value", PNone))
    requires text == title + NumberedFacts(ShownFacts(facts[..k]), str)
    ensures |ShownFacts(facts[..k + 1])| == |ShownFacts(facts[..k])| + 1
    ensures title + NumberedFacts(ShownFacts(facts[..k + 1]), str) ==
      text + "\n\n" + FactLine(|ShownFacts(facts[..k])| + 1, Get(facts[k], "value", PNone), str)
  {
    var v := Get(facts[k], "value", PNone);
    var before := ShownFacts(facts[..k]);
    ShownFactsStep(facts, k);
    NumberedFactsSnoc(before, v, str);
    var sep, line, prior := "\n\n", FactLine(|before| + 1, v, str), NumberedFacts(before, str);
    assert ShownFacts(facts[..k + 1]) == before + [v];
    Regroup(title, prior + sep, line);
    Regroup(title, prior, sep);
  }

  /** A falsy fact adds nothing. */
  lemma FactSkippedStep(facts: seq<map<string, PyValue>>, k: int)
    requires 0 <= k < |facts| && !Truthy(Get(facts[k], "value", PNone))
    ensures ShownFacts(facts[..k + 1]) == ShownFacts(facts[..k])
  {
    ShownFactsStep(facts, k);
  }

  /** One numbered fact line. */
  function FactLine(n: int, v: PyValue, str: PyValue -> string): string {
    "Факт " + IntToString(n) + ": <i>" + str(v) + "</i>."
  }

  /** The numbered lines for facts, the k-th numbered k (from 1), each after a blank line. */
  function NumberedFacts(vs: seq<PyValue>, str: PyValue -> string): string
    decreases |vs|
  {
    if vs == [] then ""
    else NumberedFacts(vs[..|vs| - 1], str) + "\n\n" + FactLine(|vs|, vs[|vs| - 1], str)
  }

  lemma NumberedFactsSnoc(vs: seq<PyValue>, v: PyValue, str: PyValue -> string)
    ensures NumberedFacts(vs + [v], str) == NumberedFacts(vs, str) + "\n\n" + FactLine(|vs| + 1, v, str)
  {
    var w := vs + [v];
    assert |w| == |vs| + 1 && w[|w| - 1] == v;
    assert w[..|w| - 1] == vs;
  }

  /** The closing line, after a newline: the number of facts, or a note that there are none. */
  function FactsFooter(count: nat): string {
    if count > 0 then "\nВсего фактов: <b>" + IntToString(count) + "</b>."
    else "Факты не указаны на сайте."
  }

  /** get_facts_films: the fact text under the title and the number of facts shown. */
  method NumberFacts(title: string, facts: seq<map<string, PyValue>>, str: PyValue -> string)
    returns (text: string, count: nat)
    ensures count == |ShownFacts(facts)|
    ensures text == title + NumberedFacts(ShownFacts(facts), str) + "\n" + FactsFooter(count)
  {
    text := title;
    count := 0;
    for k := 0 to |facts|
      invariant count == |ShownFacts(facts[..k])|
      invariant text == title + NumberedFacts(ShownFacts(facts[..k]), str)
    {
      var fact := Get(facts[k], "value", PNone);
      if Truthy(fact) {
        FactShownStep(facts, k, str, title, text);
        count := count + 1;
        text := text + "\n\n" + FactLine(count, fact, str);
      } else {
        FactSkippedStep(facts, k);
      }
    }
    assert facts[..|facts|] == facts;
    if count > 0 {
      text := text + "\n" + ("\nВсего фактов: <b>" + IntToString(count) + "</b>.");
    } else {
      text := text + "\n" + "Факты не указаны на сайте.";
    }
  }

  /** The lines of the facts from index `from` on, numbered by their place in all of `vs`. */
  function NumberedFactsFrom(vs: seq<PyValue>, from: nat, str: PyValue -> string): string
    requires from <= |vs|
    decreases |vs| - from
  {
    if from == |vs| then ""
    else "\n\n" + FactLine(from + 1, vs[from], str) + NumberedFactsFrom(vs, from + 1, str)
  }

  lemma {:induction false} NumberedFactsFromInit(vs: seq<PyValue>, from: nat, str: PyValue -> string)
    requires from < |vs|
    ensures NumberedFactsFrom(vs, from, str) ==
      NumberedFactsFrom(vs[..|vs| - 1], from, str) + "\n\n" + FactLine(|vs|, vs[|vs| - 1], str)
    decreases |vs| - from
  {
    var init := vs[..|vs| - 1];
    if from < |vs| - 1 {
      NumberedFactsFromInit(vs, from + 1, str);
      assert init[from] == vs[from];
      var a, b := "\n\n" + FactLine(from + 1, vs[from], str), NumberedFactsFrom(init, from + 1, str);
      var c, d := "\n\n", FactLine(|vs|, vs[|vs| - 1], str);
      Regroup(a, b + c, d);
      Regroup(a, b, c);
    }
  }

  /** Read front to back, the k-th shown fact (from 0) is the one numbered k + 1. */
  lemma {:induction false} NumberedFactsInOrder(vs: seq<PyValue>, str: PyValue -> string)
    ensures NumberedFacts(vs, str) == NumberedFactsFrom(vs, 0, str)
    decreases |vs|
  {
    if vs != [] {
      NumberedFactsInOrder(vs[..|vs| - 1], str);
      NumberedFactsFromInit(vs, 0, str);
    }
  }

  // ---------------------------------------------------------------------------
  // Freshness of a cached actor

  datatype RefreshError = ValueError  // a stored date that strptime cannot read

  /** Days after which a cached actor is fetched again. */
  const MaxAgeDays: int := 7

  /** The cached entry holds a date strptime can read. */
  predicate ReadableDate(cached: Option<map<string, PyValue>>, parseDate: string -> Option<int>) {
    cached.Some? &&
    var v := Get(cached.value, "last_update_date", PNone);
    v.PStr? && v.s != "" && parseDate(v.s).Some?
  }

  /**
   * _show_one_person as written: whether the actor is fetched again. `cached`
   * is the stored JSON (None when the actor is unknown), `parseDate` reads a
   * "%Y-%m-%d" date as a day number. A readable date always ends in the
   * TypeError of subtracting a date from a datetime, which is caught and
   * marks the entry stale; a non-string date fails inside strptime with a
   * TypeError, caught the same way; a falsy value other than None keeps
   * the entry.
   */
  function NeedsRefreshAsWritten(cached: Option<map<string, PyValue>>, parseDate: string -> Option<int>)
    : (r: Result<bool, RefreshError>)
    ensures cached.None? ==> r == Ok(true)
    ensures cached.Some? && !Truthy(Get(cached.value, "last_update_date", PNone)) ==>
              r == Ok(Get(cached.value, "last_update_date", PNone) == PNone)
    ensures cached.Some? && Truthy(Get(cached.value, "last_update_date", PNone)) && !Get(cached.value, "last_update_date", PNone).PStr? ==> r == Ok(true)
    ensures cached.Some? && Get(cached.value, "last_update_date", PNone).PStr? && Get(cached.value, "last_update_date", PNone).s != "" && parseDate(Get(cached.value, "last_update_date", PNone).s).None? ==> r == Err(ValueError)
    ensures ReadableDate(cached, parseDate) ==> r == Ok(true)
  {
    if cached.None? then Ok(true)
    else
      var lastUpdate := Get(cached.value, "last_update_date", PNone);
      if Truthy(lastUpdate) then
        if !lastUpdate.PStr? then Ok(true)
        else if parseDate(lastUpdate.s).None? then Err(ValueError)
        else Ok(true)
      else Ok(lastUpdate == PNone)
  }

  /** The rule as documented: stale when unknown, undated, or more than 7 days old on `today`. */
  function NeedsRefresh(cached: Option<map<string, PyValue>>, parseDate: string -> Option<int>, today: int)
    : (r: Result<bool, RefreshError>)
    ensures cached.None? ==> r == Ok(true)
    ensures cached.Some? && Get(cached.value, "last_update_date", PNone) == PNone ==> r == Ok(true)
    ensures cached.Some? && !Truthy(Get(cached.value, "last_update_date", PNone)) ==>
              r == Ok(Get(cached.value, "last_update_date", PNone) == PNone)
    ensures cached.Some? && Truthy(Get(cached.value, "last_update_date", PNone)) && !Get(cached.value, "last_update_date", PNone).PStr? ==> r == Ok(true)
    ensures cached.Some? && Get(cached.value, "last_update_date", PNone).PStr? && Get(cached.value, "last_update_date", PNone).s != "" && parseDate(Get(cached.value, "last_update_date", PNone).s).None? ==> r == Err(ValueError)
    ensures ReadableDate(cached, parseDate) ==>
              r == Ok(today - parseDate(Get(cached.value, "last_update_date", PNone).s).value > MaxAgeDays)
  {
    if cached.None? then Ok(true)
    else
      var lastUpdate := Get(cached.value, "last_update_date", PNone);
      if Truthy(lastUpdate) then
        if !lastUpdate.PStr? then Ok(true)
        else if parseDate(lastUpdate.s).None? then Err(ValueError)
        else Ok(today - parseDate(lastUpdate.s).value > MaxAgeDays)
      else Ok(lastUpdate == PNone)
  }

  /**
   * An actor updated today is fetched again by the code as written, but not
   * by the documented rule; both agree on every entry with no readable date.
   */
  lemma FreshActorRefetched(data: map<string, PyValue>, parseDate: string -> Option<int>, today: int)
    requires "last_update_date" in data && data["last_update_date"].PStr? && data["last_update_date"].s != ""
    requires parseDate(data["last_update_date"].s) == Some(today)
    ensures NeedsRefreshAsWritten(Some(data), parseDate) == Ok(true)
    ensures NeedsRefresh(Some(data), parseDate, today) == Ok(false)
  {
  }

  lemma RefreshRulesAgreeWithoutDate(cached: Option<map<string, PyValue>>, parseDate: string -> Option<int>, today: int)
    requires !ReadableDate(cached, parseDate)
    ensures NeedsRefreshAsWritten(cached, parseDate) == NeedsRefresh(cached, parseDate, today)
  {
  }
}
