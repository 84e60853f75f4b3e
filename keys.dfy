/**
 * Inline keyboards of the chat bot (tg_bot/tg_API/utils/keys.py): the fixed
 * button tables, the two-per-row layout and the keyboards whose callback
 * codes ending in '.' carry the key of the item they refer to.
 */
module Keys {
  import opened Strings

  /** A button: the caption and the callback code sent back when pressed. */
  datatype Button = Button(text: string, code: string)

  /** An inline keyboard: rows of buttons and the placeholder text above them. */
  datatype Keyboard = Keyboard(rows: seq<seq<Button>>, placeholder: string)

  const ButtonsStart: seq<Button> := [
    Button("Помощь", "mm_help_me"),
    Button("Кто ты, БОТ?", "mm_who_are_you"),
    Button("Поиск фильма", "mm_search_film"),
    Button("Актёры", "mm_search_person"),
    Button("Статистика", "mm_statistic"),
    Button("История", "mm_history"),
    Button("Предложи случайный фильм", "mm_want_film")
  ]

  const ButtonsAfterFilms: seq<Button> := [
    Button("Рейтинги", "af_rating."),
    Button("В ролях", "af_persons."),
    Button("Компании", "af_companies."),
    Button("Факты", "af_facts."),
    Button("Трейлеры", "af_trailers."),
    Button("Похожие фильмы", "af_similar."),
    Button("Предложи другой фильм", "mm_want_film")
  ]

  const ButtonsSearchFilms: seq<Button> := [
    Button("Название", "bf_name"),
    Button("Название на английском", "bf_enName"),
    Button("Тип тайтла", "bf_type"),
    Button("Год премьеры", "bf_year"),
    Button("Рейтинг кинопоиска", "bf_ratingKp"),
    Button("Рейтинг IMDB", "bf_ratingImdb"),
    Button("Возрастной рейтинг", "bf_ageRating"),
    Button("Жанр", "bf_genres")
  ]

  const ButtonsSearchPersons: seq<Button> := [
    Button("Имя", "bp_name"),
    Button("Имя на английском", "bp_enName"),
    Button("Дата рождения", "bp_birthday"),
    Button("Возраст", "bp_age")
  ]

  const ButtonsAfterFilmFilter: seq<Button> := [
    Button("Выполнить поиск", "bf_doit"),
    Button("Сбросить фильтр", "bf_reset")
  ]

  const ButtonsAfterPersonFilter: seq<Button> := [
    Button("Выполнить поиск", "bp_doit"),
    Button("Сбросить фильтр", "bp_reset")
  ]

  const TitleTypes: seq<string> := ["movie", "tv-series", "cartoon", "anime", "animated-series", "tv-show"]

  /** The buttons of a keyboard, row after row. */
  function Flatten(rows: seq<seq<Button>>): seq<Button>
    decreases |rows|
  {
    if rows == [] then [] else rows[0] + Flatten(rows[1..])
  }

  /** `builder.adjust(2)`: the buttons in order, two per row, the last row possibly single. */
  function Layout(buttons: seq<Button>): (rows: seq<seq<Button>>)
    ensures Flatten(rows) == buttons
    ensures forall i :: 0 <= i < |rows| ==> 1 <= |rows[i]| <= 2
    ensures forall i :: 0 <= i < |rows| - 1 ==> |rows[i]| == 2
    ensures |rows| == (|buttons| + 1) / 2
    decreases |buttons|
  {
    if buttons == [] then []
    else if |buttons| <= 2 then [buttons]
    else
      var rest := Layout(buttons[2..]);
      assert buttons[..2] + buttons[2..] == buttons;
      [buttons[..2]] + rest
  }

  /** _builder_prepare */
  function Prepare(buttons: seq<Button>, text: string): Keyboard {
    Keyboard(Layout(buttons), text)
  }

  function Buttons(kb: Keyboard): seq<Button> {
    Flatten(kb.rows)
  }

  /** The code of a button after the item key is attached: only codes ending in '.' take it. */
  function WithKey(b: Button, key: string): Button {
    if EndsWith(b.code, ".") then Button(b.text, b.code + key) else b
  }

  /** builder_custom_buttons: the loop attaching the key, then the layout. */
  method CustomButtons(text: string, dataKey: string, buttons: seq<Button>) returns (kb: Keyboard)
    ensures kb.placeholder == text
    ensures |Buttons(kb)| == |buttons|
    ensures forall i :: 0 <= i < |buttons| ==> Buttons(kb)[i].text == buttons[i].text
    ensures forall i :: 0 <= i < |buttons| ==>
      Buttons(kb)[i].code == if EndsWith(buttons[i].code, ".") then buttons[i].code + dataKey else buttons[i].code
  {
    var withKey: seq<Button> := [];
    for i := 0 to |buttons|
      invariant |withKey| == i
      invariant forall k :: 0 <= k < i ==> withKey[k] == WithKey(buttons[k], dataKey)
    {
      if EndsWith(buttons[i].code, ".") {
        withKey := withKey + [Button(buttons[i].text, buttons[i].code + dataKey)];
      } else {
        withKey := withKey + [Button(buttons[i].text, buttons[i].code)];
      }
    }
    kb := Prepare(withKey, text);
  }

  /** builder_start: the main menu, unchanged, in order. */
  method Start(text: string) returns (kb: Keyboard)
    ensures Buttons(kb) == ButtonsStart
    ensures |kb.rows| == 4 && |kb.rows[3]| == 1
  {
    kb := Prepare(ButtonsStart, text);
  }

  /** builder_random_films: the six film-detail codes carry the film key; "mm_want_film" stays as it is. */
  method RandomFilms(text: string, dataKey: string) returns (kb: Keyboard)
    ensures |Buttons(kb)| == 7
    ensures forall i :: 0 <= i < 6 ==> Buttons(kb)[i].code == ButtonsAfterFilms[i].code + dataKey
    ensures Buttons(kb)[6] == Button("Предложи другой фильм", "mm_want_film")
  {
    kb := CustomButtons(text, dataKey, ButtonsAfterFilms);
    forall i | 0 <= i < 6 ensures EndsWith(ButtonsAfterFilms[i].code, ".") {
      var c := ButtonsAfterFilms[i].code;
      assert c[|c| - 1] == '.';
      assert c[|c| - 1..] == ".";
    }
    assert !EndsWith(ButtonsAfterFilms[6].code, ".") by {
      var c := ButtonsAfterFilms[6].code;
      assert c[|c| - 1] == 'm';
      assert c[|c| - 1..] != ".";
    }
  }

  /**
   * A keyed code comes back apart: splitting "event." + key on '.' gives the
   * event code and the key, as the callback router does.
   */
  lemma KeyedCodeSplits(event: string, key: string)
    requires '.' !in event && '.' !in key
    ensures WithKey(Button("", event + "."), key).code == event + "." + key
    ensures Split(event + "." + key, '.') == [event, key]
  {
    var code := event + ".";
    assert EndsWith(code, ".") by {
      assert code[|code| - 1..] == ".";
    }
    assert Join([event, key], ".") == event + "." + key by {
      assert [event, key][1..] == [key];
    }
    SplitJoin([event, key], '.');
  }
}
