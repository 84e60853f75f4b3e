/**
 * The chat handlers that build a search filter step by step
 * (tg_bot/tg_API/utils/tg_api_handler.py): the router of button presses,
 * the handlers that store one typed filter value, and the summary shown
 * after each value. The conversation state (aiogram's FSMContext) is a
 * class with the current state and the stored data.
 */
module TgHandler {
  import opened Wrappers
  import opened Strings
  import opened Keys
  import Commands
  import UsersData

  /** The film fields a filter can hold, in button order. */
  datatype FilmField = FName | FEnName | FType | FYear | FRatingKp | FRatingImdb | FAgeRating | FGenres

  /** The person fields a filter can hold, in button order. */
  datatype PersonField = PName | PEnName | PBirthday | PAge

  /**
   * The states of the filter dialogue. wait_command and command_doit are
   * declared once on the common base group, so the film and the person
   * dialogue share them (their name is "FilterState:command_doit" in both).
   */
  datatype FsmState = FilmInput(f: FilmField) | PersonInput(p: PersonField) | WaitCommand | CommandDoit

  const FilmFields: seq<FilmField> := [FName, FEnName, FType, FYear, FRatingKp, FRatingImdb, FAgeRating, FGenres]
  const PersonFields: seq<PersonField> := [PName, PEnName, PBirthday, PAge]

  /** The place of a field in the button order. */
  function FilmIndex(f: FilmField): (i: nat)
    ensures i < |FilmFields| && FilmFields[i] == f
  {
    match f
    case FName => 0
    case FEnName => 1
    case FType => 2
    case FYear => 3
    case FRatingKp => 4
    case FRatingImdb => 5
    case FAgeRating => 6
    case FGenres => 7
  }

  function PersonIndex(p: PersonField): (i: nat)
    ensures i < |PersonFields| && PersonFields[i] == p
  {
    match p
    case PName => 0
    case PEnName => 1
    case PBirthday => 2
    case PAge => 3
  }

  /** The button code asking for a film field. */
  function FilmCode(f: FilmField): string {
    match f
    case FName => "bf_name"
    case FEnName => "bf_enName"
    case FType => "bf_type"
    case FYear => "bf_year"
    case FRatingKp => "bf_ratingKp"
    case FRatingImdb => "bf_ratingImdb"
    case FAgeRating => "bf_ageRating"
    case FGenres => "bf_genres"
  }

  /** The button code asking for a person field. */
  function PersonCode(p: PersonField): string {
    match p
    case PName => "bp_name"
    case PEnName => "bp_enName"
    case PBirthday => "bp_birthday"
    case PAge => "bp_age"
  }

  /** The key a film field's value is stored under. */
  function FilmDataKey(f: FilmField): string {
    match f
    case FName => "filter_name"
    case FEnName => "filter_en_name"
    case FType => "filter_type"
    case FYear => "filter_year"
    case FRatingKp => "filter_rating_kp"
    case FRatingImdb => "filter_rating_imdb"
    case FAgeRating => "filter_age_rating"
    case FGenres => "filter_genres"
  }

  /** The key a person field's value is stored under. */
  function PersonDataKey(p: PersonField): string {
    match p
    case PName => "person_name"
    case PEnName => "person_en_name"
    case PBirthday => "person_birthday"
    case PAge => "person_age"
  }

  /** The film field a "bf_" event asks for, if any. */
  function FilmFieldOf(event: string): (r: Option<FilmField>)
    ensures r.Some? ==> FilmCode(r.value) == event
    ensures forall f :: FilmCode(f) == event ==> r == Some(f)
  {
    if event == "bf_name" then Some(FName)
    else if event == "bf_enName" then Some(FEnName)
    else if event == "bf_type" then Some(FType)
    else if event == "bf_year" then Some(FYear)
    else if event == "bf_ratingKp" then Some(FRatingKp)
    else if event == "bf_ratingImdb" then Some(FRatingImdb)
    else if event == "bf_ageRating" then Some(FAgeRating)
    else if event == "bf_genres" then Some(FGenres)
    else None
  }

  /** The person field a "bp_" event asks for, if any. */
  function PersonFieldOf(event: string): (r: Option<PersonField>)
    ensures r.Some? ==> PersonCode(r.value) == event
    ensures forall p :: PersonCode(p) == event ==> r == Some(p)
  {
    if event == "bp_name" then Some(PName)
    else if event == "bp_enName" then Some(PEnName)
    else if event == "bp_birthday" then Some(PBirthday)
    else if event == "bp_age" then Some(PAge)
    else None
  }

  /** Where a button press goes: an event handler with the keys, or a prompt for a value. */
  datatype Routing = Dispatch(event: string, keys: seq<string>) | Prompt

  /** What a press does to the conversation state. */
  datatype Effect = ClearAll | SetTo(s: FsmState) | NoChange

  predicate MenuEvent(event: string) {
    StartsWith(event, "mm") || StartsWith(event, "af") || StartsWith(event, "ap")
  }

  /** process_all_callback: the callback data split on '.', then decided on its first part. */
  function Route(data: string): (Routing, Effect) {
    var parts := Split(data, '.');
    Decide(parts[0], parts[1..])
  }

  /** The decision for an event with its keys. */
  function Decide(event: string, keys: seq<string>): (Routing, Effect) {
    if MenuEvent(event) then (Dispatch(event, keys), ClearAll)
    else if StartsWith(event, "bf") then
      if FilmFieldOf(event).Some? then (Prompt, SetTo(FilmInput(FilmFieldOf(event).value)))
      else if event == "bf_reset" then (Dispatch("mm_search_film", keys), ClearAll)
      else if event == "bf_doit" then (Dispatch("mm_search_film", keys), SetTo(CommandDoit))
      else (Dispatch(event, keys), NoChange)
    else if StartsWith(event, "bp") then
      if PersonFieldOf(event).Some? then (Prompt, SetTo(PersonInput(PersonFieldOf(event).value)))
      else if event == "bp_reset" then (Dispatch("mm_search_person", keys), ClearAll)
      else if event == "bp_doit" then (Dispatch("mm_search_person", keys), SetTo(CommandDoit))
      else (Dispatch(event, keys), NoChange)
    else (Dispatch("default", keys), NoChange)
  }

  /** A button's summary line: `<caption><b><value></b>;` and a newline. */
  function SummaryLine(caption: string, value: string): string {
    caption + "<b>" + value + "</b>;\n"
  }

  const FilmHeader: string := "Формируем фильтр для поиска фильмов:\n"
  const PersonHeader: string := "Формируем фильтр для поиска персон:\n"

  /** A field of either filter. */
  datatype Field = Film(f: FilmField) | Person(p: PersonField)

  function DataKey(field: Field): string {
    match field
    case Film(f) => FilmDataKey(f)
    case Person(p) => PersonDataKey(p)
  }

  /** The caption of a field's summary line. */
  function Caption(field: Field): string {
    match field
    case Film(FName) => "По имени "
    case Film(FEnName) => "По англоязычному имени "
    case Film(FType) => "По типу "
    case Film(FYear) => "По году премьеры "
    case Film(FRatingKp) => "По рейтингу кинопоиска "
    case Film(FRatingImdb) => "По рейтингу IMDB "
    case Film(FAgeRating) => "По возрастным ограничениям "
    case Film(FGenres) => "По жанру "
    case Person(PName) => "По имени "
    case Person(PEnName) => "По англоязычному имени "
    case Person(PBirthday) => "По дате рождения "
    case Person(PAge) => "По возрасту "
  }

  /** The fields in the order the summaries list them. */
  const FilmSummary: seq<Field> := [Film(FName), Film(FEnName), Film(FType), Film(FYear),
                                    Film(FRatingKp), Film(FRatingImdb), Film(FAgeRating), Film(FGenres)]
  const PersonSummary: seq<Field> := [Person(PName), Person(PEnName), Person(PBirthday), Person(PAge)]

  /** The summary lines of the first n stored values, in table order. */
  function SummaryUpTo(data: map<string, string>, labels: seq<Field>, n: nat): string
    requires n <= |labels|
  {
    if n == 0 then ""
    else
      var field := labels[n - 1];
      SummaryUpTo(data, labels, n - 1) + (if DataKey(field) in data then SummaryLine(Caption(field), data[DataKey(field)]) else "")
  }

  /** The summary lines of all stored values. */
  function Summary(data: map<string, string>, labels: seq<Field>): string {
    SummaryUpTo(data, labels, |labels|)
  }

  /** One of the first n keys of the table holds a value. */
  predicate AnyStoredUpTo(data: map<string, string>, labels: seq<Field>, n: nat)
    requires n <= |labels|
  {
    n > 0 && (AnyStoredUpTo(data, labels, n - 1) || DataKey(labels[n - 1]) in data)
  }

  predicate AnyStored(data: map<string, string>, labels: seq<Field>) {
    AnyStoredUpTo(data, labels, |labels|)
  }

  /** AnyStored is "some row's key is stored". */
  lemma {:induction false} AnyStoredExists(data: map<string, string>, labels: seq<Field>, n: nat, i: int)
    requires n <= |labels|
    requires 0 <= i < n && DataKey(labels[i]) in data
    ensures AnyStoredUpTo(data, labels, n)
    decreases n
  {
    if i < n - 1 {
      AnyStoredExists(data, labels, n - 1, i);
    }
  }

  /** ... and conversely, a stored flag names a row whose key is stored. */
  lemma {:induction false} AnyStoredWitness(data: map<string, string>, labels: seq<Field>, n: nat)
    requires n <= |labels|
    requires AnyStoredUpTo(data, labels, n)
    ensures exists i :: 0 <= i < n && DataKey(labels[i]) in data
    decreases n
  {
    if DataKey(labels[n - 1]) !in data {
      AnyStoredWitness(data, labels, n - 1);
    }
  }

  /** The summary lists nothing exactly when no key of the table is stored. */
  lemma {:induction false} SummaryEmptyIffNothingStored(data: map<string, string>, labels: seq<Field>, n: nat)
    requires n <= |labels|
    ensures SummaryUpTo(data, labels, n) == "" <==> !AnyStoredUpTo(data, labels, n)
    decreases n
  {
    if n > 0 {
      SummaryEmptyIffNothingStored(data, labels, n - 1);
      var field := labels[n - 1];
      if DataKey(field) in data {
        assert |SummaryLine(Caption(field), data[DataKey(field)])| >= 3;
      }
    }
  }

  /** One row of a summary table: `if key in data: text += line`, and the flag remembers the hit. */
  method AddSummaryLine(data: map<string, string>, labels: seq<Field>, n: int, ghost header: string,
                        text: string, flag: bool) returns (text': string, flag': bool)
    requires 0 <= n < |labels|
    requires text == header + SummaryUpTo(data, labels, n) && flag == AnyStoredUpTo(data, labels, n)
    ensures text' == header + SummaryUpTo(data, labels, n + 1)
    ensures flag' == AnyStoredUpTo(data, labels, n + 1)
  {
    text', flag' := text, flag;
    var key := DataKey(labels[n]);
    if key in data {
      var line := SummaryLine(Caption(labels[n]), data[key]);
      text', flag' := text + line, true;
      assert header + (SummaryUpTo(data, labels, n) + line) == (header + SummaryUpTo(data, labels, n)) + line;
    } else {
      assert SummaryUpTo(data, labels, n + 1) == SummaryUpTo(data, labels, n) + "";
    }
  }

  /** The summary tables name the same keys, in the same order, as the searches read. */
  lemma LabelsMatchSearchKeys()
    ensures |FilmSummary| == |UsersData.FilmFilterKeys| == |FilmFields|
    ensures forall i :: 0 <= i < |FilmSummary| ==>
      DataKey(FilmSummary[i]) == UsersData.FilmFilterKeys[i].0 == FilmDataKey(FilmFields[i])
    ensures |PersonSummary| == |UsersData.PersonFilterKeys| == |PersonFields|
    ensures forall i :: 0 <= i < |PersonSummary| ==>
      DataKey(PersonSummary[i]) == UsersData.PersonFilterKeys[i].0 == PersonDataKey(PersonFields[i])
  {
  }

  /** The conversation state of one chat. */
  class Fsm {
    var state: Option<FsmState>
    var data: map<string, string>

    constructor ()
      ensures state == None && data == map[]
    {
      state := None;
      data := map[];
    }

    /** `state.clear()`: no state and no stored values. */
    method Clear()
      modifies this
      ensures state == None && data == map[]
    {
      state := None;
      data := map[];
    }

    /** `state.set_state(s)`: the stored values are kept. */
    method SetState(s: FsmState)
      modifies this
      ensures state == Some(s) && data == old(data)
    {
      state := Some(s);
    }

    /** `state.update_data(key=value)` */
    method UpdateData(key: string, value: string)
      modifies this
      ensures state == old(state) && data == old(data)[key := value]
    {
      data := data[key := value];
    }
  }

  /**
   * process_all_callback: route a button press and update the conversation
   * state; the handler itself always reports success.
   */
  method ProcessAllCallback(fsm: Fsm, data: string) returns (routing: Routing, ok: bool)
    modifies fsm
    ensures routing == Route(data).0 && ok
    ensures Route(data).1 == ClearAll ==> fsm.state == None && fsm.data == map[]
    ensures Route(data).1.SetTo? ==> fsm.state == Some(Route(data).1.s) && fsm.data == old(fsm.data)
    ensures Route(data).1 == NoChange ==> fsm.state == old(fsm.state) && fsm.data == old(fsm.data)
  {
    var parts := Split(data, '.');
    var event := parts[0];
    var keys := parts[1..];
    if StartsWith(event, "mm") || StartsWith(event, "af") || StartsWith(event, "ap") {
      fsm.Clear();
      routing := Dispatch(event, keys);
    } else if StartsWith(event, "bf") {
      var field := FilmFieldOf(event);
      if field.Some? {
        fsm.SetState(FilmInput(field.value));
        routing := Prompt;
      } else if event == "bf_reset" {
        fsm.Clear();
        routing := Dispatch("mm_search_film", keys);
      } else if event == "bf_doit" {
        fsm.SetState(CommandDoit);
        routing := Dispatch("mm_search_film", keys);
      } else {
        routing := Dispatch(event, keys);
      }
    } else if StartsWith(event, "bp") {
      var field := PersonFieldOf(event);
      if field.Some? {
        fsm.SetState(PersonInput(field.value));
        routing := Prompt;
      } else if event == "bp_reset" {
        fsm.Clear();
        routing := Dispatch("mm_search_person", keys);
      } else if event == "bp_doit" {
        fsm.SetState(CommandDoit);
        routing := Dispatch("mm_search_person", keys);
      } else {
        routing := Dispatch(event, keys);
      }
    } else {
      routing := Dispatch("default", keys);
    }
    ok := true;
  }

  /**
   * __make_answer_by_filter: the summary of the stored film values and the
   * buttons shown; the run and reset buttons only once some value is stored.
   */
  method MakeAnswerByFilter(data: map<string, string>) returns (text: string, shown: seq<Button>)
    ensures text == FilmHeader + Summary(data, FilmSummary)
    ensures shown == ButtonsSearchFilms + (if AnyStored(data, FilmSummary) then ButtonsAfterFilmFilter else [])
  {
    var t := FilmSummary;
    text := FilmHeader;
    var flag := false;
    assert text == FilmHeader + SummaryUpTo(data, t, 0);
    text, flag := AddSummaryLine(data, t, 0, FilmHeader, text, flag);  // filter_name
    text, flag := AddSummaryLine(data, t, 1, FilmHeader, text, flag);  // filter_en_name
    text, flag := AddSummaryLine(data, t, 2, FilmHeader, text, flag);  // filter_type
    text, flag := AddSummaryLine(data, t, 3, FilmHeader, text, flag);  // filter_year
    text, flag := AddSummaryLine(data, t, 4, FilmHeader, text, flag);  // filter_rating_kp
    text, flag := AddSummaryLine(data, t, 5, FilmHeader, text, flag);  // filter_rating_imdb
    text, flag := AddSummaryLine(data, t, 6, FilmHeader, text, flag);  // filter_age_rating
    text, flag := AddSummaryLine(data, t, 7, FilmHeader, text, flag);  // filter_genres
    shown := ButtonsSearchFilms;
    if flag {
      shown := shown + ButtonsAfterFilmFilter;
    }
  }

  /** __make_answer_for_person: as for films, with the four person values. */
  method MakeAnswerForPerson(data: map<string, string>) returns (text: string, shown: seq<Button>)
    ensures text == PersonHeader + Summary(data, PersonSummary)
    ensures shown == ButtonsSearchPersons + (if AnyStored(data, PersonSummary) then ButtonsAfterPersonFilter else [])
  {
    var t := PersonSummary;
    text := PersonHeader;
    var flag := false;
    assert text == PersonHeader + SummaryUpTo(data, t, 0);
    text, flag := AddSummaryLine(data, t, 0, PersonHeader, text, flag);  // person_name
    text, flag := AddSummaryLine(data, t, 1, PersonHeader, text, flag);  // person_en_name
    text, flag := AddSummaryLine(data, t, 2, PersonHeader, text, flag);  // person_birthday
    text, flag := AddSummaryLine(data, t, 3, PersonHeader, text, flag);  // person_age
    shown := ButtonsSearchPersons;
    if flag {
      shown := shown + ButtonsAfterPersonFilter;
    }
  }

  /** The reply a filter handler produces: the summary text and the buttons. */
  datatype Answer = Answer(text: string, shown: seq<Button>)

  /**
   * set_filter_name, set_filter_en_name, ... set_filter_rating_kp: a typed
   * value is stored under the field's key, the summary is shown and the
   * dialogue waits for the next command; anything but text is refused and
   * changes nothing.
   */
  method SetFilmFilter(fsm: Fsm, f: FilmField, msg: Commands.Message) returns (ok: bool, answer: Option<Answer>)
    modifies fsm
    ensures ok <==> msg.contentType == "text"
    ensures !ok ==> answer.None? && fsm.state == old(fsm.state) && fsm.data == old(fsm.data)
    ensures ok ==> fsm.data == old(fsm.data)[FilmDataKey(f) := msg.text] && fsm.state == Some(WaitCommand)
    ensures ok ==> answer == Some(Answer(FilmHeader + Summary(fsm.data, FilmSummary), ButtonsSearchFilms + ButtonsAfterFilmFilter))
  {
    if msg.contentType != "text" {
      return false, None;
    }
    fsm.UpdateData(FilmDataKey(f), msg.text);
    var text, shown := MakeAnswerByFilter(fsm.data);
    fsm.SetState(WaitCommand);
    LabelsMatchSearchKeys();
    AnyStoredExists(fsm.data, FilmSummary, |FilmSummary|, FilmIndex(f));
    ok, answer := true, Some(Answer(text, shown));
  }

  /** set_filter_person_name, _enname, _age, _birthday: as for films. */
  method SetPersonFilter(fsm: Fsm, p: PersonField, msg: Commands.Message) returns (ok: bool, answer: Option<Answer>)
    modifies fsm
    ensures ok <==> msg.contentType == "text"
    ensures !ok ==> answer.None? && fsm.state == old(fsm.state) && fsm.data == old(fsm.data)
    ensures ok ==> fsm.data == old(fsm.data)[PersonDataKey(p) := msg.text] && fsm.state == Some(WaitCommand)
    ensures ok ==> answer == Some(Answer(PersonHeader + Summary(fsm.data, PersonSummary), ButtonsSearchPersons + ButtonsAfterPersonFilter))
  {
    if msg.contentType != "text" {
      return false, None;
    }
    fsm.UpdateData(PersonDataKey(p), msg.text);
    var text, shown := MakeAnswerForPerson(fsm.data);
    fsm.SetState(WaitCommand);
    LabelsMatchSearchKeys();
    AnyStoredExists(fsm.data, PersonSummary, |PersonSummary|, PersonIndex(p));
    ok, answer := true, Some(Answer(text, shown));
  }

  // ---------------------------------------------------------------------------
  // Every button of the menus reaches its handler

  /** Data without a '.' is an event without keys. */
  lemma PlainRoute(code: string)
    requires '.' !in code
    ensures Route(code) == Decide(code, [])
  {
    SplitWithoutSeparator(code, '.');
    assert [code][1..] == [];
  }

  /** A film field's code asks for that field. */
  lemma FilmCodeRoutes(f: FilmField)
    ensures Route(FilmCode(f)) == (Prompt, SetTo(FilmInput(f)))
  {
    var c := FilmCode(f);
    assert '.' !in c && |c| >= 2 && c[0] == 'b' && c[1] == 'f' by {
      match f
      case FName => {}
      case FEnName => {}
      case FType => {}
      case FYear => {}
      case FRatingKp => {}
      case FRatingImdb => {}
      case FAgeRating => {}
      case FGenres => {}
    }
    PlainRoute(c);
    EventGroup(c, 'b', 'f');
    assert FilmFieldOf(c) == Some(f);
  }

  /** A person field's code asks for that field. */
  lemma PersonCodeRoutes(p: PersonField)
    ensures Route(PersonCode(p)) == (Prompt, SetTo(PersonInput(p)))
  {
    var c := PersonCode(p);
    assert '.' !in c && |c| >= 2 && c[0] == 'b' && c[1] == 'p' by {
      match p
      case PName => {}
      case PEnName => {}
      case PBirthday => {}
      case PAge => {}
    }
    PlainRoute(c);
    EventGroup(c, 'b', 'p');
    assert PersonFieldOf(c) == Some(p);
  }

  /** The film filter buttons carry the film field codes, in field order. */
  lemma FilmButtonCodes(i: int)
    requires 0 <= i < |ButtonsSearchFilms|
    ensures i < |FilmFields| && ButtonsSearchFilms[i].code == FilmCode(FilmFields[i])
  {
    if i < 4 {
      if i == 0 {} else if i == 1 {} else if i == 2 {} else {}
    } else {
      if i == 4 {} else if i == 5 {} else if i == 6 {} else {}
    }
  }

  /** The i-th film filter button asks for the i-th film field. */
  lemma FilmButtonRoutes(i: int)
    requires 0 <= i < |ButtonsSearchFilms|
    ensures Route(ButtonsSearchFilms[i].code) == (Prompt, SetTo(FilmInput(FilmFields[i])))
  {
    FilmButtonCodes(i);
    FilmCodeRoutes(FilmFields[i]);
  }

  /** The person filter buttons carry the person field codes, in field order. */
  lemma PersonButtonCodes(i: int)
    requires 0 <= i < |ButtonsSearchPersons|
    ensures i < |PersonFields| && ButtonsSearchPersons[i].code == PersonCode(PersonFields[i])
  {
    if i == 0 {} else if i == 1 {} else if i == 2 {} else {}
  }

  /** The i-th person filter button asks for the i-th person field. */
  lemma PersonButtonRoutes(i: int)
    requires 0 <= i < |ButtonsSearchPersons|
    ensures Route(ButtonsSearchPersons[i].code) == (Prompt, SetTo(PersonInput(PersonFields[i])))
  {
    PersonButtonCodes(i);
    PersonCodeRoutes(PersonFields[i]);
  }

  /** The film run button keeps the stored values and runs the search; reset forgets them first. */
  lemma FilmFilterEndRoutes()
    ensures Route("bf_doit") == (Dispatch("mm_search_film", []), SetTo(CommandDoit))
    ensures Route("bf_reset") == (Dispatch("mm_search_film", []), ClearAll)
  {
    assert FilmFieldOf("bf_doit").None? && FilmFieldOf("bf_reset").None?;
    PlainRoute("bf_doit");
    EventGroup("bf_doit", 'b', 'f');
    PlainRoute("bf_reset");
    EventGroup("bf_reset", 'b', 'f');
  }

  /** The same for the person filter. */
  lemma PersonFilterEndRoutes()
    ensures Route("bp_doit") == (Dispatch("mm_search_person", []), SetTo(CommandDoit))
    ensures Route("bp_reset") == (Dispatch("mm_search_person", []), ClearAll)
  {
    assert PersonFieldOf("bp_doit").None? && PersonFieldOf("bp_reset").None?;
    PlainRoute("bp_doit");
    EventGroup("bp_doit", 'b', 'p');
    PlainRoute("bp_reset");
    EventGroup("bp_reset", 'b', 'p');
  }

  /** The first two letters of an event decide its group. */
  lemma EventGroup(event: string, a: char, b: char)
    requires |event| >= 2 && event[0] == a && event[1] == b
    ensures MenuEvent(event) <==> (a == 'm' && b == 'm') || (a == 'a' && (b == 'f' || b == 'p'))
    ensures StartsWith(event, "bf") <==> a == 'b' && b == 'f'
    ensures StartsWith(event, "bp") <==> a == 'b' && b == 'p'
  {
    assert event[..2] == [a, b];
  }

  /** The main-menu codes have no key and start with "mm". */
  lemma StartButtonCodes(i: int)
    requires 0 <= i < |ButtonsStart|
    ensures var code := ButtonsStart[i].code;
      '.' !in code && |code| >= 2 && code[0] == 'm' && code[1] == 'm'
  {
    var codes := ["mm_help_me", "mm_who_are_you", "mm_search_film", "mm_search_person",
                  "mm_statistic", "mm_history", "mm_want_film"];
    assert forall k :: 0 <= k < |ButtonsStart| ==> ButtonsStart[k].code == codes[k];
    MenuCodeShape(codes[i]);
  }

  lemma MenuCodeShape(code: string)
    requires code in ["mm_help_me", "mm_who_are_you", "mm_search_film", "mm_search_person",
                      "mm_statistic", "mm_history", "mm_want_film"]
    ensures '.' !in code && |code| >= 2 && code[0] == 'm' && code[1] == 'm'
  {
  }

  /** A main-menu button reaches the handler of its own name, after the state is cleared. */
  lemma StartButtonRoutes(i: int)
    requires 0 <= i < |ButtonsStart|
    ensures Route(ButtonsStart[i].code) == (Dispatch(ButtonsStart[i].code, []), ClearAll)
  {
    var code := ButtonsStart[i].code;
    StartButtonCodes(i);
    PlainRoute(code);
    EventGroup(code, 'm', 'm');
  }

  /** A film-detail button, keyed with the film id, reaches its handler with that id. */
  lemma FilmDetailButtonRoutes(i: int, filmKey: string)
    requires 0 <= i < 6
    requires '.' !in filmKey
    ensures var code := WithKey(ButtonsAfterFilms[i], filmKey).code;
      var event := ButtonsAfterFilms[i].code[..|ButtonsAfterFilms[i].code| - 1];
      Route(code) == (Dispatch(event, [filmKey]), ClearAll)
  {
    var c := ButtonsAfterFilms[i].code;
    var event := c[..|c| - 1];
    DetailCodeShape(i);
    assert c == event + ".";
    KeyedCodeSplits(event, filmKey);
    assert WithKey(ButtonsAfterFilms[i], filmKey).code == WithKey(Button("", c), filmKey).code;
    EventGroup(event, 'a', 'f');
  }

  /** The first six film-detail codes are an "af" event followed by '.'. */
  lemma DetailCodeShape(i: int)
    requires 0 <= i < 6
    ensures var c := ButtonsAfterFilms[i].code;
      |c| >= 3 && c[|c| - 1] == '.' && '.' !in c[..|c| - 1] && c[0] == 'a' && c[1] == 'f'
  {
    var events := ["af_rating", "af_persons", "af_companies", "af_facts", "af_trailers", "af_similar"];
    assert forall k :: 0 <= k < 6 ==> ButtonsAfterFilms[k].code == events[k] + ".";
    var c := ButtonsAfterFilms[i].code;
    assert c[..|c| - 1] == events[i];
    DetailEventShape(events[i]);
  }

  lemma DetailEventShape(event: string)
    requires event in ["af_rating", "af_persons", "af_companies", "af_facts", "af_trailers", "af_similar"]
    ensures '.' !in event && |event| >= 2 && event[0] == 'a' && event[1] == 'f'
  {
  }

  /** An actor button `ap_one_person.<film>.<id>` reaches the person handler with both keys. */
  lemma ActorButtonRoutes(filmKey: string, id: string)
    requires '.' !in filmKey && '.' !in id
    ensures Route("ap_one_person." + filmKey + "." + id) == (Dispatch("ap_one_person", [filmKey, id]), ClearAll)
  {
    var parts := ["ap_one_person", filmKey, id];
    assert '.' !in "ap_one_person";
    JoinThree("ap_one_person", filmKey, id, ".");
    assert "ap_one_person." == "ap_one_person" + ".";
    SplitJoin(parts, '.');
    assert "ap_one_person"[..2] == "ap";
  }
}
