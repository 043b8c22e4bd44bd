/** The film catalogue page (client/src/pages/Films.jsx) as an object whose
    fields are the component's state. Remote calls are replies passed in;
    navigation, remote requests and toasts are appended to an event log. */
module FilmsPage {
  import opened Optional
  import opened Text
  import opened SearchParams
  import opened FilmFilters

  /** A film as the catalogue lists it. */
  datatype Film = Film(id: nat, title: string)

  /** The `data` field of a reply: missing or null, an array of films, or
      some other value, truthy or falsy. */
  datatype Payload = NoData | FilmList(films: seq<Film>) | OtherValue(truthy: bool)

  /** How `getFilms` / `searchFilms` settles. */
  datatype FilmsReply = Rejected(message: string) | Resolved(data: Payload)

  /** How `getGenres` / `getActors` settles: rejected, or resolved with a
      `data` field that may be missing. */
  datatype ListReply = Failed | Loaded(data: Option<seq<Named>>)

  datatype PageEvent =
    | GenresRequested
    | ActorsRequested
      /** `searchFilms(query)` */
    | SearchRequested(text: string)
      /** `getFilms(params)` */
    | ListRequested(params: Params)
    | ErrorToast(message: string)
      /** The "no such films yet" notice. */
    | InfoToast
      /** `console.error` */
    | ErrorLogged
      /** `navigate` to "/films", with this query string when it is not empty. */
    | Navigated(query: Query)

  /** What the page shows. */
  datatype Screen = Spinner | ErrorText(message: string) | NoFilms | FilmGrid(films: seq<Film>)

  /** A snapshot of every state variable. */
  datatype PageState = PageState(
    selectedGenres: seq<nat>, selectedActors: seq<nat>,
    genreSearch: string, actorSearch: string,
    allGenres: seq<Named>, allActors: seq<Named>,
    films: seq<Film>, loading: bool, error: Option<string>,
    filters: Filters, pageInput: string, events: seq<PageEvent>)

  /** The request `fetchFilms` makes: the search endpoint when the parsed
      location carries a non-empty `query`, the list endpoint otherwise. */
  function Request(p: Params): (e: PageEvent)
    ensures e.SearchRequested? <==> Get(p.entries, "query").Some? && Get(p.entries, "query").value != ""
    ensures e.SearchRequested? ==> Get(p.entries, "query") == Some(e.text)
    ensures !e.SearchRequested? ==> e == ListRequested(p)
  {
    match Get(p.entries, "query")
    case Some(text) => if text != "" then SearchRequested(text) else ListRequested(p)
    case None => ListRequested(p)
  }

  /** `response.data || []`: a missing, null or falsy `data` becomes an
      empty array; so the value is never null. */
  function DataOrEmpty(data: Payload): (v: Payload)
    ensures !v.NoData?
    ensures data.FilmList? || (data.OtherValue? && data.truthy) ==> v == data
    ensures data.NoData? || (data.OtherValue? && !data.truthy) ==> v == FilmList([])
  {
    match data
    case NoData => FilmList([])
    case FilmList(_) => data
    case OtherValue(truthy) => if truthy then data else FilmList([])
  }

  /** `Array.isArray(filmsData) ? filmsData : []`. */
  function FilmsOf(data: Payload): (films: seq<Film>)
    ensures data.FilmList? ==> films == data.films
    ensures !data.FilmList? ==> films == []
  {
    match data
    case FilmList(films) => films
    case _ => []
  }

  /** The notices for `filmsData === null`. */
  function NullNotice(filmsData: Payload): seq<PageEvent> {
    if filmsData.NoData? then [InfoToast] else []
  }

  /** The film list the page holds after a reply: the films of an array
      reply, and an empty list after anything else or a rejection. */
  function FilmsAfter(reply: FilmsReply): (films: seq<Film>)
    ensures reply.Resolved? && reply.data.FilmList? ==> films == reply.data.films
    ensures !(reply.Resolved? && reply.data.FilmList?) ==> films == []
  {
    match reply
    case Rejected(_) => []
    case Resolved(data) => FilmsOf(DataOrEmpty(data))
  }

  /** The events one fetch appends: the request; on a rejection the log line
      and an error toast with the rejection's message; on a resolved reply
      the null notice, which `DataOrEmpty` never lets fire. */
  function FetchEvents(p: Params, reply: FilmsReply): (es: seq<PageEvent>)
    ensures reply.Rejected? ==> es == [Request(p), ErrorLogged, ErrorToast(reply.message)]
    ensures reply.Resolved? ==> es == [Request(p)]
    ensures forall e :: e in es ==> !e.InfoToast?
  {
    [Request(p)] + match reply
                   case Rejected(message) => [ErrorLogged, ErrorToast(message)]
                   case Resolved(data) => NullNotice(DataOrEmpty(data))
  }

  /** The error after a reply: a rejection's message, otherwise the previous
      error, which nothing ever clears. */
  function ErrorAfter(previous: Option<string>, reply: FilmsReply): (e: Option<string>)
    ensures previous.Some? ==> e.Some?
    ensures reply.Rejected? ==> e == Some(reply.message)
    ensures reply.Resolved? ==> e == previous
  {
    match reply
    case Rejected(message) => Some(message)
    case Resolved(_) => previous
  }

  /** The screen lines 302-334 render: the spinner while loading, the error
      text when it is non-empty, otherwise the films or the empty notice. */
  function ScreenOf(loading: bool, error: Option<string>, films: seq<Film>): (s: Screen)
    ensures loading <==> s == Spinner
    ensures !loading && error.Some? && error.value != "" ==> s == ErrorText(error.value)
    ensures s == NoFilms <==> !loading && !(error.Some? && error.value != "") && |films| == 0
    ensures s.FilmGrid? <==> !loading && !(error.Some? && error.value != "") && |films| > 0
    ensures s.FilmGrid? ==> s.films == films
  {
    if loading then Spinner
    else if error.Some? && error.value != "" then ErrorText(error.value)
    else if |films| == 0 then NoFilms
    else FilmGrid(films)
  }

  /** Once a rejection with a message has been shown, every later fetch ends
      on that screen or on a newer error: the error is never cleared. */
  lemma ErrorScreenSticks(previous: Option<string>, reply: FilmsReply)
    requires previous.Some? && previous.value != ""
    requires reply.Rejected? ==> reply.message != ""
    ensures ScreenOf(false, ErrorAfter(previous, reply), FilmsAfter(reply)).ErrorText?
  {}

  class FilmsPage {
    var selectedGenres: seq<nat>
    var selectedActors: seq<nat>
    var genreSearch: string
    var actorSearch: string
    var allGenres: seq<Named>
    var allActors: seq<Named>
    var films: seq<Film>
    var loading: bool
    var error: Option<string>
    var filters: Filters
    var pageInput: string
    var events: seq<PageEvent>

    ghost predicate Valid()
      reads this
    {
      WellFormed(filters)
    }

    function State(): PageState
      reads this
    {
      PageState(selectedGenres, selectedActors, genreSearch, actorSearch, allGenres, allActors,
                films, loading, error, filters, pageInput, events)
    }

    function CurrentScreen(): (s: Screen)
      reads this
      ensures s == ScreenOf(loading, error, films)
    {
      ScreenOf(loading, error, films)
    }

    /** The initial state (lines 37-78): nothing selected or loaded, loading,
      no error, the default filters. */
    constructor()
      ensures Valid()
      ensures State() == PageState([], [], "", "", [], [], [], true, None, DefaultFilters, "", [])
    {
      selectedGenres, selectedActors := [], [];
      genreSearch, actorSearch := "", "";
      allGenres, allActors := [], [];
      films, loading, error := [], true, None;
      filters := DefaultFilters;
      pageInput := "";
      events := [];
      DefaultWellFormed();
    }

    /** The mount effect (lines 85-98): genres, then actors; both lists are
      set only when both requests resolve, a missing `data` giving an empty
      list; a failure is logged and leaves both lists as they were. */
    method LoadGenresAndActors(genresReply: ListReply, actorsReply: ListReply)
      requires Valid()
      modifies this
      ensures Valid()
      ensures genresReply.Failed? ==> State() == old(State()).(events := old(events) + [GenresRequested, ErrorLogged])
      ensures genresReply.Loaded? && actorsReply.Failed? ==>
                State() == old(State()).(events := old(events) + [GenresRequested, ActorsRequested, ErrorLogged])
      ensures genresReply.Loaded? && actorsReply.Loaded? ==>
                State() == old(State()).(events := old(events) + [GenresRequested, ActorsRequested],
                                         allGenres := genresReply.data.GetOr([]),
                                         allActors := actorsReply.data.GetOr([]))
    {
      events := events + [GenresRequested];
      if genresReply.Failed? {
        events := events + [ErrorLogged];
        return;
      }
      events := events + [ActorsRequested];
      if actorsReply.Failed? {
        events := events + [ErrorLogged];
        return;
      }
      allGenres := genresReply.data.GetOr([]);
      allActors := actorsReply.data.GetOr([]);
    }

    /** `handleGenreSelect` (lines 101-107). */
    method SelectGenre(id: nat)
      requires Valid()
      modifies this
      ensures Valid()
      ensures State() == old(State()).(selectedGenres := Toggle(old(selectedGenres), id))
    {
      selectedGenres := Toggle(selectedGenres, id);
    }

    /** `handleActorSelect` (lines 109-115). */
    method SelectActor(id: nat)
      requires Valid()
      modifies this
      ensures Valid()
      ensures State() == old(State()).(selectedActors := Toggle(old(selectedActors), id))
    {
      selectedActors := Toggle(selectedActors, id);
    }

    /** `setGenreSearchQuery`; the list shown is then `FilteredGenres()`. */
    method SetGenreSearch(text: string)
      requires Valid()
      modifies this
      ensures Valid()
      ensures State() == old(State()).(genreSearch := text)
      ensures FilteredGenres() == FilterByName(allGenres, text)
    {
      genreSearch := text;
    }

    /** `setActorSearchQuery`; the list shown is then `FilteredActors()`. */
    method SetActorSearch(text: string)
      requires Valid()
      modifies this
      ensures Valid()
      ensures State() == old(State()).(actorSearch := text)
      ensures FilteredActors() == FilterByName(allActors, text)
    {
      actorSearch := text;
    }

    /** `filteredGenres` (lines 118-120). */
    function FilteredGenres(): seq<Named>
      reads this
    {
      FilterByName(allGenres, genreSearch)
    }

    /** `filteredActors` (lines 121-123). */
    function FilteredActors(): seq<Named>
      reads this
    {
      FilterByName(allActors, actorSearch)
    }

    /** `fetchFilms` (lines 145-179): loading while the request runs; a
      resolved reply replaces the films; a rejection is logged, records its
      message, empties the films and shows an error toast; loading ends
      either way. */
    method FetchFilms(p: Params, reply: FilmsReply)
      requires Valid()
      modifies this
      ensures Valid()
      ensures State() == old(State()).(films := FilmsAfter(reply), loading := false,
                                       error := ErrorAfter(old(error), reply),
                                       events := old(events) + FetchEvents(p, reply))
    {
      loading := true;
      var request := Request(p);
      events := events + [request];
      match reply {
        case Resolved(data) =>
          var filmsData := DataOrEmpty(data);
          films := FilmsOf(filmsData);
          events := events + NullNotice(filmsData);
        case Rejected(message) =>
          events := events + [ErrorLogged];
          error := Some(message);
          films := [];
          events := events + [ErrorToast(message)];
      }
      loading := false;
    }

    /** The location effect (lines 126-142): parse the query string, merge it
      over the filters, show the page number, fetch. */
    method OnLocationChange(search: Query, reply: FilmsReply) returns (p: Params)
      requires Valid()
      modifies this
      ensures Valid()
      ensures ParsedFrom(p, search)
      ensures State() == old(State()).(filters := Merge(old(filters), p), pageInput := IntToString(p.page),
                                       films := FilmsAfter(reply), loading := false,
                                       error := ErrorAfter(old(error), reply),
                                       events := old(events) + FetchEvents(p, reply))
    {
      p := ParseLocation(search);
      MergeSpec(filters, p, search);
      filters := Merge(filters, p);
      pageInput := IntToString(p.page);
      FetchFilms(p, reply);
    }

    /** `toggleSortOrder` (lines 188-193). */
    method ToggleSortOrder()
      requires Valid()
      modifies this
      ensures Valid()
      ensures State() == old(State()).(filters := ToggleOrder(old(filters)))
    {
      filters := ToggleOrder(filters);
    }

    /** `onSortChange` (line 356). */
    method SetSortBy(value: string)
      requires Valid()
      modifies this
      ensures Valid()
      ensures State() == old(State()).(filters := old(filters).(values := old(filters).values["sort_by" := Str(value)]))
    {
      filters := filters.(values := filters.values["sort_by" := Str(value)]);
    }

    /** `onRatingChange` (line 382): the slider's two numbers. */
    method SetRating(low: int, high: int)
      requires Valid()
      modifies this
      ensures Valid()
      ensures State() == old(State()).(filters := old(filters).(values := old(filters).values["min_rating" := Num(low)]["max_rating" := Num(high)]))
    {
      filters := filters.(values := filters.values["min_rating" := Num(low)]["max_rating" := Num(high)]);
    }

    /** `onDurationChange` (line 389): the slider's two numbers. */
    method SetDuration(low: int, high: int)
      requires Valid()
      modifies this
      ensures Valid()
      ensures State() == old(State()).(filters := old(filters).(values := old(filters).values["min_duration" := Num(low)]["max_duration" := Num(high)]))
    {
      filters := filters.(values := filters.values["min_duration" := Num(low)]["max_duration" := Num(high)]);
    }

    /** `onDateChange` (line 396): the two date strings. */
    method SetDates(low: string, high: string)
      requires Valid()
      modifies this
      ensures Valid()
      ensures State() == old(State()).(filters := old(filters).(values := old(filters).values["min_date" := Str(low)]["max_date" := Str(high)]))
    {
      filters := filters.(values := filters.values["min_date" := Str(low)]["max_date" := Str(high)]);
    }

    /** `handleSearch` (lines 196-249): navigate to the query of the
      non-default fields and the pagination; the state is not touched. */
    method HandleSearch()
      requires Valid()
      modifies this
      ensures Valid()
      ensures State() == old(State()).(events := old(events) + [Navigated(SearchSpec(filters, selectedGenres, selectedActors))])
    {
      events := events + [Navigated(SearchSpec(filters, selectedGenres, selectedActors))];
    }

    /** `handlePageChange` (lines 252-275): store the new page, show it, and
      navigate to the query of every field with the new page. */
    method HandlePageChange(newPage: int)
      requires Valid()
      modifies this
      ensures Valid()
      ensures State() == old(State()).(filters := old(filters).(page := newPage), pageInput := IntToString(newPage),
                                       events := old(events) + [Navigated(PageChangeSpec(old(filters), newPage, selectedGenres, selectedActors))])
    {
      var query := PageChangeSpec(filters, newPage, selectedGenres, selectedActors);
      filters := filters.(page := newPage);
      pageInput := IntToString(newPage);
      events := events + [Navigated(query)];
    }

    /** `resetFilters` (lines 278-300): the default record, no selection, no
      search text, and a location without a query string. */
    method ResetFilters()
      requires Valid()
      modifies this
      ensures Valid()
      ensures State() == old(State()).(filters := DefaultFilters, selectedGenres := [], selectedActors := [],
                                       genreSearch := "", actorSearch := "", events := old(events) + [Navigated([])])
    {
      filters := DefaultFilters;
      selectedGenres, selectedActors := [], [];
      genreSearch, actorSearch := "", "";
      events := events + [Navigated([])];
      DefaultWellFormed();
    }
  }
}
