/**
 * The client of the film database web API (tg_bot/site_API/utils/
 * site_api_handler.py): how each request's address and parameters are
 * formed, and how a reply is classified. The network call itself is not
 * modelled; `quote` (percent-encoding) is a parameter.
 */
module SiteApi {
  import opened Wrappers
  import opened Strings
  import opened PyValues

  /** A filter value: absent (None), one string, or a list of strings. */
  datatype FilterValue = Absent | Text(s: string) | Texts(items: seq<string>)

  /** Python truthiness of a filter value. */
  predicate Present(v: FilterValue) {
    match v
    case Absent => false
    case Text(s) => s != ""
    case Texts(items) => items != []
  }

  /** An ordered dictionary of filter entries, in insertion order. */
  type Filter = seq<(string, FilterValue)>

  /** The `key=value` pairs one entry contributes. */
  function EntryPairs(key: string, v: FilterValue, quote: string -> string): (pairs: seq<string>)
    ensures !Present(v) ==> pairs == []
    ensures v.Text? && Present(v) ==> pairs == [key + "=" + quote(v.s)]
    ensures v.Texts? ==> |pairs| == |v.items|
    ensures v.Texts? ==> forall j :: 0 <= j < |pairs| ==> pairs[j] == key + "=" + quote(v.items[j])
  {
    if !Present(v) then []
    else match v
      case Text(s) => [key + "=" + quote(s)]
      case Texts(items) => seq(|items|, j requires 0 <= j < |items| => key + "=" + quote(items[j]))
  }

  /** All pairs of a filter, entry by entry in key order. */
  function QueryPairs(filter: Filter, quote: string -> string): seq<string>
    decreases |filter|
  {
    if filter == [] then []
    else QueryPairs(filter[..|filter| - 1], quote) + EntryPairs(filter[|filter| - 1].0, filter[|filter| - 1].1, quote)
  }

  /** How many pairs an entry contributes: none when falsy, one per list element. */
  function Weight(v: FilterValue): nat {
    if !Present(v) then 0 else match v
      case Absent => 0
      case Text(_) => 1
      case Texts(items) => |items|
  }

  function TotalWeight(filter: Filter): nat
    decreases |filter|
  {
    if filter == [] then 0 else TotalWeight(filter[..|filter| - 1]) + Weight(filter[|filter| - 1].1)
  }

  /** The number of pairs is the sum of the entries' weights; falsy entries add nothing. */
  lemma {:induction false} QueryPairsCount(filter: Filter, quote: string -> string)
    ensures |QueryPairs(filter, quote)| == TotalWeight(filter)
    decreases |filter|
  {
    if filter != [] {
      QueryPairsCount(filter[..|filter| - 1], quote);
    }
  }

  /** Every pair is `key=quoted value` for a key of the filter whose value is present. */
  lemma {:induction false} QueryPairsFromPresentEntries(filter: Filter, quote: string -> string, k: int)
    requires 0 <= k < |QueryPairs(filter, quote)|
    ensures exists e ::
              0 <= e < |filter| && Present(filter[e].1) && StartsWith(QueryPairs(filter, quote)[k], filter[e].0 + "=")
    decreases |filter|
  {
    var init := filter[..|filter| - 1];
    var last := filter[|filter| - 1];
    var before := QueryPairs(init, quote);
    if k < |before| {
      QueryPairsFromPresentEntries(init, quote, k);
      var e :| 0 <= e < |init| && Present(init[e].1) && StartsWith(before[k], init[e].0 + "=");
      assert filter[e] == init[e];
    } else {
      var pair := EntryPairs(last.0, last.1, quote)[k - |before|];
      assert Present(last.1);
      assert StartsWith(pair, last.0 + "=") by {
        assert (last.0 + "=") + quote(if last.1.Text? then last.1.s else last.1.items[k - |before|]) == pair;
      }
    }
  }

  lemma EntryPairsStep(key: string, items: seq<string>, quote: string -> string, j: int)
    requires 0 <= j < |items| && items != []
    ensures EntryPairs(key, Texts(items), quote)[..j + 1] == EntryPairs(key, Texts(items), quote)[..j] + [key + "=" + quote(items[j])]
  {
    var pairs := EntryPairs(key, Texts(items), quote);
    assert pairs[..j + 1] == pairs[..j] + [pairs[j]];
  }

  lemma QueryPairsStep(filter: Filter, e: int, quote: string -> string)
    requires 0 <= e < |filter|
    ensures QueryPairs(filter[..e + 1], quote) == QueryPairs(filter[..e], quote) + EntryPairs(filter[e].0, filter[e].1, quote)
  {
    assert filter[..e + 1][..e] == filter[..e];
  }

  /**
   * get_film_by_filter / get_person_by_filter: the loop building the list
   * of query pairs. A falsy value is skipped, a list gives one pair per
   * element in list order, anything else exactly one pair.
   */
  method BuildQuery(filter: Filter, quote: string -> string) returns (query: seq<string>)
    ensures query == QueryPairs(filter, quote)
  {
    query := [];
    for e := 0 to |filter|
      invariant query == QueryPairs(filter[..e], quote)
    {
      var key := filter[e].0;
      var value := filter[e].1;
      ghost var before := query;
      if Present(value) {
        match value {
          case Texts(items) =>
            for j := 0 to |items|
              invariant query == before + EntryPairs(key, value, quote)[..j]
            {
              EntryPairsStep(key, items, quote, j);
              query := query + [key + "=" + quote(items[j])];
            }
            assert EntryPairs(key, value, quote)[..|items|] == EntryPairs(key, value, quote);
          case Text(s) =>
            query := query + [key + "=" + quote(s)];
        }
      }
      QueryPairsStep(filter, e, quote);
    }
    assert filter[..|filter|] == filter;
  }

  /** A request: the address and the parameter dictionary sent with it. */
  datatype Request = Request(url: string, params: seq<(string, string)>)

  datatype RequestError = TypeError  // `"/".join` given an int id

  /** The fixed head of the film search address (page 1, 10 films, chosen fields, sorted). */
  const FilmFilterHead: string :=
    "movie?page=1&limit=10&selectFields=id%20type%20name%20shortDescription%20description"
    + "%20distributors%20premiere%20year%20rating%20votes%20movieLength%20images"
    + "%20productionCompanies%20budget%20poster%20facts%20genres%20countries%20videos"
    + "%20persons%20enName%20ageRating%20logo%20names&sortField=year%20rating.kp%20name&"
    + "sortType=-1%20-1%201&"

  /** The fixed head of the person search address (page 1, 50 persons). */
  const PersonFilterHead: string := "person?page=1&limit=50&"

  /** get_film_by_name: `<base>/auto-complete` with the single parameter q. */
  function FilmByName(base: string, text: string): (r: Request)
    ensures StartsWith(r.url, base) && r.url[|base|..] == "/auto-complete"
    ensures r.params == [("q", text)]
  {
    Request(base + "/" + "auto-complete", [("q", text)])
  }

  /** get_person_by_id: `<base>/v1/person/<id>`, no parameters. */
  function PersonById(base: string, id: string): (r: Request)
    ensures StartsWith(r.url, base) && r.url[|base|..] == "/v1/person/" + id
    ensures r.params == []
  {
    JoinFour(base, "v1", "person", id, "/");
    Request(Join([base, "v1", "person", id], "/"), [])
  }

  /** get_random_films: `<base>/v1.3/movie/random`, no parameters. */
  function RandomFilms(base: string): (r: Request)
    ensures StartsWith(r.url, base) && r.url[|base|..] == "/v1.3/movie/random"
    ensures r.params == []
  {
    JoinFour(base, "v1.3", "movie", "random", "/");
    Request(Join([base, "v1.3", "movie", "random"], "/"), [])
  }

  /** get_one_film: `<base>/v1.3/movie/<id>`; an int id makes `"/".join` fail. */
  function OneFilm(base: string, id: PyValue): (r: Result<Request, RequestError>)
    ensures r.Ok? <==> id.PStr?
    ensures r.Ok? ==> StartsWith(r.value.url, base) && r.value.url[|base|..] == "/v1.3/movie/" + id.s
  {
    if id.PStr? then
      JoinFour(base, "v1.3", "movie", id.s, "/");
      Ok(Request(Join([base, "v1.3", "movie", id.s], "/"), []))
    else Err(TypeError)
  }

  /** `"/".join([base, version, head])` followed by the pairs joined with '&'. */
  function FilterUrl(base: string, version: string, head: string, pairs: seq<string>): (url: string)
    ensures url == base + "/" + version + "/" + head + Join(pairs, "&")
  {
    JoinThree(base, version, head, "/");
    Join([base, version, head], "/") + Join(pairs, "&")
  }

  /** get_film_by_filter: the fixed head, then the pairs joined with '&', in the address. */
  function FilmByFilter(base: string, filter: Filter, quote: string -> string): (r: Request)
    ensures r.url == base + "/" + "v1.3" + "/" + FilmFilterHead + Join(QueryPairs(filter, quote), "&")
    ensures r.params == []
  {
    Request(FilterUrl(base, "v1.3", FilmFilterHead, QueryPairs(filter, quote)), [])
  }

  /** get_person_by_filter: as the film search with the person head. */
  function PersonByFilter(base: string, filter: Filter, quote: string -> string): (r: Request)
    ensures r.url == base + "/" + "v1" + "/" + PersonFilterHead + Join(QueryPairs(filter, quote), "&")
    ensures r.params == []
  {
    Request(FilterUrl(base, "v1", PersonFilterHead, QueryPairs(filter, quote)), [])
  }

  /**
   * When neither the keys nor the quoted values hold '&', the query string
   * splits back into exactly the pairs that were joined.
   */
  lemma QueryRoundTrip(filter: Filter, quote: string -> string)
    requires forall e :: 0 <= e < |filter| ==> '&' !in filter[e].0
    requires forall s :: '&' !in quote(s)
    requires QueryPairs(filter, quote) != []
    ensures Split(Join(QueryPairs(filter, quote), "&"), '&') == QueryPairs(filter, quote)
  {
    var pairs := QueryPairs(filter, quote);
    forall k | 0 <= k < |pairs|
      ensures '&' !in pairs[k]
    {
      PairHasNoAmpersand(filter, quote, k);
    }
    SplitJoin(pairs, '&');
  }

  lemma {:induction false} PairHasNoAmpersand(filter: Filter, quote: string -> string, k: int)
    requires forall e :: 0 <= e < |filter| ==> '&' !in filter[e].0
    requires forall s :: '&' !in quote(s)
    requires 0 <= k < |QueryPairs(filter, quote)|
    ensures '&' !in QueryPairs(filter, quote)[k]
    decreases |filter|
  {
    var init := filter[..|filter| - 1];
    var last := filter[|filter| - 1];
    var before := QueryPairs(init, quote);
    if k < |before| {
      assert forall e :: 0 <= e < |init| ==> init[e] == filter[e];
      PairHasNoAmpersand(init, quote, k);
    } else {
      var pair := EntryPairs(last.0, last.1, quote)[k - |before|];
      var v := if last.1.Text? then last.1.s else last.1.items[k - |before|];
      assert pair == last.0 + "=" + quote(v);
      assert '&' !in quote(v);
    }
  }

  /** A server reply: its status code and body. */
  datatype Response = Response(status: int, text: string)

  /** What _make_response hands back: the reply itself, or only its status code. */
  datatype Outcome = Success(response: Response) | Failure(code: int)

  const Ok200: int := 200

  /** _make_response: the reply iff its status is 200, otherwise the status code. */
  function MakeResponse(reply: Response): (r: Outcome)
    ensures r.Success? <==> reply.status == 200
    ensures r.Success? ==> r.response == reply
    ensures r.Failure? ==> r.code == reply.status
  {
    if reply.status == Ok200 then Success(reply) else Failure(reply.status)
  }

  /**
   * The searches by filter catch any exception of the call and return 0 in
   * its place; `reply` is None when the call raised.
   */
  function FilterSearchOutcome(reply: Option<Response>): (r: Outcome)
    ensures reply.None? ==> r == Failure(0)
    ensures reply.Some? ==> r == MakeResponse(reply.value)
  {
    if reply.None? then Failure(0) else MakeResponse(reply.value)
  }
}
