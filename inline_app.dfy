/**
 * The single-file `App`: it owns the watched list and mirrors it into
 * storage with its own effect, owns the selection, and runs an inlined copy
 * of the search lifecycle that does not clear `error` when a run starts and
 * closes the selected title whenever the query changes. Its detail panel
 * builds entries without a rating-decision counter.
 */
module InlineApp {
  import opened Wrappers
  import opened JsText
  import opened Watched
  import opened Search
  import opened LocalStorage
  import opened SelectedMovie
  import opened Handlers

  /** Why the app fails before its first effects run. */
  datatype StartupError =
    | NullWatchedList    // `JSON.parse(null)` is null and rendering calls `watched.map`
    | InvalidStoredText  // `JSON.parse` throws, or the text is not a list of entries

  /**
   * The `useState` initialiser `JSON.parse(localStorage.getItem('watched'))`,
   * as written: there is no fallback for a missing entry.
   */
  function InitialWatchedAsWritten(items: map<string, string>, codec: Codec<seq<WatchedEntry>>)
    : (r: Result<seq<WatchedEntry>, StartupError>)
    ensures WatchedKey !in items ==> r == Failure(NullWatchedList)
    ensures WatchedKey in items ==>
      (r.Success? <==> items[WatchedKey] != "" && codec.parse(items[WatchedKey]).Some?)
    ensures r.Success? ==> Some(r.value) == codec.parse(items[WatchedKey])
  {
    if WatchedKey !in items then Failure(NullWatchedList)
    else if items[WatchedKey] == "" then Failure(InvalidStoredText)
    else match codec.parse(items[WatchedKey])
      case None => Failure(InvalidStoredText)
      case Some(list) => Success(list)
  }

  /**
   * On a first visit (nothing stored) the single-file app cannot start, while
   * the hook-based initialiser falls back to the empty list.
   */
  lemma FirstVisitFails(codec: Codec<seq<WatchedEntry>>)
    ensures InitialWatchedAsWritten(map[], codec) == Failure(NullWatchedList)
    ensures InitialWatched(map[], codec) == Success([])
  {
  }

  /** Wherever a list was stored, both initialisers agree on it. */
  lemma InitialisersAgreeOnStoredList(items: map<string, string>, codec: Codec<seq<WatchedEntry>>)
    requires InitialWatchedAsWritten(items, codec).Success?
    ensures InitialWatched(items, codec) == Success(InitialWatchedAsWritten(items, codec).value)
  {
  }

  /** The inlined lifecycle starts a run without clearing the error left by an earlier one. */
  lemma InlineRunKeepsError(s: SearchState, q: string)
    requires q != s.query
    ensures QueryChanged(s, q, false).isLoading && QueryChanged(s, q, false).error == s.error
  {
  }

  /**
   * Because the inlined lifecycle never clears the error when a run starts,
   * an error outlives a later successful search: the list found for a long
   * query stays hidden behind the old message (until a short query settles),
   * where the hook would show it.
   */
  lemma StaleErrorHidesFoundList(s: SearchState, q: string, search: seq<MovieSummary>)
    requires s.error != "" && q != s.query && Utf16Length(q) >= MinQueryLength
    ensures var started := QueryChanged(s, q, false);
      Display(Settled(started, |started.runs| - 1, Found(search))) == ErrorView(s.error)
    ensures var started := QueryChanged(s, q, true);
      Display(Settled(started, |started.runs| - 1, Found(search))) == ListView(search)
  {
    var inline := QueryChanged(s, q, false);
    SettledLongQuery(inline, |inline.runs| - 1, Found(search));
    var hook := QueryChanged(s, q, true);
    SettledLongQuery(hook, |hook.runs| - 1, Found(search));
  }

  class App {
    const store: Storage
    const codec: Codec<seq<WatchedEntry>>
    /** The inlined `fetchMovies` state: `movies`, `isLoading`, `error` and the controllers. */
    const search: SearchResolver
    var watched: seq<WatchedEntry>
    var selectedID: Option<string>

    /** The persist effect has written the current list; the search copy keeps the error on start. */
    ghost predicate Valid()
      reads this, store
    {
      && WatchedKey in store.items && store.items[WatchedKey] == codec.serialize(watched)
      && !search.clearsErrorOnStart
    }

    /** Mounting: the initialiser, then the persist effect and the first search run (query ''). */
    constructor (store: Storage, codec: Codec<seq<WatchedEntry>>)
      requires InitialWatchedAsWritten(store.items, codec).Success?
      modifies store
      ensures this.store == store && this.codec == codec
      ensures watched == InitialWatchedAsWritten(old(store.items), codec).value
      ensures selectedID.None?
      ensures fresh(search) && !search.clearsErrorOnStart && search.State() == Mount("", false)
      ensures store.items == old(store.items)[WatchedKey := codec.serialize(watched)]
      ensures Valid()
    {
      this.store := store;
      this.codec := codec;
      watched := InitialWatchedAsWritten(store.items, codec).value;
      selectedID := None;
      search := new SearchResolver("", false);
      new;
      store.SetItem(WatchedKey, codec.serialize(watched));
    }

    /** `handleSelectMovie(id)` */
    method SelectMovie(id: string)
      modifies this`selectedID
      ensures selectedID == ToggleSelection(old(selectedID), id)
    {
      selectedID := ToggleSelection(selectedID, id);
    }

    /** `handleCloseMovie()` */
    method CloseMovie()
      modifies this`selectedID
      ensures selectedID.None?
    {
      selectedID := None;
    }

    /** `handleAddMovie(movie)` and the persist effect it triggers. */
    method AddMovie(movie: WatchedEntry)
      requires Valid()
      modifies this`watched, store
      ensures Valid()
      ensures watched == Append(old(watched), movie)
      ensures store.items == old(store.items)[WatchedKey := codec.serialize(watched)]
    {
      watched := watched + [movie];
      store.SetItem(WatchedKey, codec.serialize(watched));
    }

    /** `handleDeleteMovie(id)`; `filter` always yields a new array, so the effect always writes. */
    method DeleteMovie(id: string)
      requires Valid()
      modifies this`watched, store
      ensures Valid()
      ensures watched == DeleteById(old(watched), id)
      ensures store.items == old(store.items)[WatchedKey := codec.serialize(watched)]
    {
      watched := DeleteById(watched, id);
      store.SetItem(WatchedKey, codec.serialize(watched));
    }

    /**
     * The panel's `handleAdd` for the selected title: build the entry (which
     * throws when the record has no runtime), add it, close the panel.
     */
    method HandleAdd(movie: MovieDetail, userRating: Option<int>) returns (r: Result<WatchedEntry, AddError>)
      requires Valid() && selectedID.Some?
      modifies this`watched, this`selectedID, store
      ensures Valid()
      ensures r == BuildEntry(movie, old(selectedID).value, userRating, None)
      ensures r.Success? ==> watched == Append(old(watched), r.value) && selectedID.None?
      ensures r.Success? ==> store.items == old(store.items)[WatchedKey := codec.serialize(watched)]
      ensures r.Failure? ==> watched == old(watched) && selectedID == old(selectedID) && store.items == old(store.items)
    {
      r := BuildEntry(movie, selectedID.value, userRating, None);
      if r.Success? {
        AddMovie(r.value);
        CloseMovie();
      }
    }

    /** `setQuery(q)`: when the query differs the effect closes the panel and starts a run. */
    method SetQuery(q: string)
      requires Valid()
      modifies this`selectedID, search
      ensures Valid()
      ensures search.State() == QueryChanged(old(search.State()), q, false)
      ensures selectedID == if q != old(search.query) then None else old(selectedID)
      ensures watched == old(watched)
    {
      if q != search.query {
        selectedID := None;
        search.SetQuery(q);
      }
    }

    /** Run `i` of the inlined lifecycle settles. */
    method Settle(i: nat, outcome: Outcome)
      requires i < |search.runs| && !search.runs[i].settled
      modifies search
      ensures search.State() == Settled(old(search.State()), i, outcome)
    {
      search.Settle(i, outcome);
    }

    /** Adding a new title and deleting it again restores both the list and the stored text. */
    method AddThenDelete(movie: WatchedEntry)
      requires Valid() && !IsWatched(watched, movie.imdbID)
      modifies this`watched, store
      ensures Valid()
      ensures watched == old(watched) && store.items == old(store.items)
    {
      AddMovie(movie);
      DeleteMovie(movie.imdbID);
      DeleteUndoesAppend(old(watched), movie);
    }
  }
}
