/**
 * The split-component `App`: the selection and watched-list handlers, each a
 * pure updater of the previous state, the watched list's initial value and
 * the choice of what the results box shows.
 */
module Handlers {
  import opened Wrappers
  import opened JsText
  import opened Watched
  import opened Search
  import opened LocalStorage

  /** The storage key of the watched list. */
  const WatchedKey := "watched"

  /** The state the app's handlers update: the selected id (null when none) and the watched list. */
  datatype AppState = AppState(selectedID: Option<string>, watched: seq<WatchedEntry>)

  /** The updater `selectedID => selectedID === id ? null : id`. */
  function ToggleSelection(selected: Option<string>, id: string): (r: Option<string>)
    ensures r.None? <==> selected == Some(id)
    ensures r.Some? ==> r.value == id
  {
    if selected == Some(id) then None else Some(id)
  }

  /** Selecting the same title twice returns to no selection unless it was selected to begin with. */
  lemma ToggleTwice(selected: Option<string>, id: string)
    ensures ToggleSelection(ToggleSelection(selected, id), id) ==
            (if selected == Some(id) then Some(id) else None)
  {
  }

  /** `handleSelectMovie(id)` */
  function SelectMovie(s: AppState, id: string): (r: AppState)
    ensures r.watched == s.watched
    ensures r.selectedID == ToggleSelection(s.selectedID, id)
  {
    s.(selectedID := ToggleSelection(s.selectedID, id))
  }

  /** `handleCloseMovie()` */
  function CloseMovie(s: AppState): (r: AppState)
    ensures r.selectedID.None? && r.watched == s.watched
  {
    s.(selectedID := None)
  }

  /** `handleAddMovie(movie)` */
  function AddMovie(s: AppState, movie: WatchedEntry): (r: AppState)
    ensures r.selectedID == s.selectedID
    ensures r.watched == Append(s.watched, movie)
  {
    s.(watched := Append(s.watched, movie))
  }

  /** `handleDeleteMovie(id)` */
  function DeleteMovie(s: AppState, id: string): (r: AppState)
    ensures r.selectedID == s.selectedID
    ensures r.watched == DeleteById(s.watched, id)
  {
    s.(watched := DeleteById(s.watched, id))
  }

  /** The panel's `handleAdd`: the add callback once with the built entry, then the close callback. */
  function HandleAdd(s: AppState, entry: WatchedEntry): (r: AppState)
    ensures r.selectedID.None?
    ensures |r.watched| == |s.watched| + 1
    ensures r.watched[..|s.watched|] == s.watched && r.watched[|s.watched|] == entry
  {
    CloseMovie(AddMovie(s, entry))
  }

  /** Adding a new title and deleting it again leaves the watched list as it was. */
  lemma AddThenDeleteRestores(s: AppState, entry: WatchedEntry)
    requires !IsWatched(s.watched, entry.imdbID)
    ensures DeleteMovie(AddMovie(s, entry), entry.imdbID) == s
  {
    DeleteUndoesAppend(s.watched, entry);
  }

  /** `useLocalStorageState([], 'watched')`: the stored list, or [] when there is none. */
  function InitialWatched(items: map<string, string>, codec: Codec<seq<WatchedEntry>>)
    : (r: Result<seq<WatchedEntry>, LoadError>)
    ensures WatchedKey !in items ==> r == Success([])
  {
    InitialValue(if WatchedKey in items then Some(items[WatchedKey]) else None, [], codec)
  }

  /** What the results box shows. */
  datatype ResultsView = LoaderView | ErrorView(message: string) | ListView(movies: seq<MovieSummary>)

  /** `isLoading ? <Loader /> : error ? <ErrorMessage /> : <MovieList />` */
  function Display(s: SearchState): (v: ResultsView)
    ensures v.LoaderView? <==> s.isLoading
    ensures v.ErrorView? <==> !s.isLoading && s.error != ""
    ensures v.ErrorView? ==> v.message == s.error
    ensures v.ListView? ==> v.movies == s.movies
  {
    if s.isLoading then LoaderView
    else if s.error != "" then ErrorView(s.error)
    else ListView(s.movies)
  }

  /** After any run settles the loader is gone; after a short query settles the list is shown empty. */
  lemma DisplayAfterSettle(s: SearchState, i: nat, outcome: Outcome)
    requires i < |s.runs|
    ensures !Display(Settled(s, i, outcome)).LoaderView?
    ensures Utf16Length(s.runs[i].query) < MinQueryLength ==> Display(Settled(s, i, outcome)) == ListView([])
  {
  }

  /** A query with no match, once its live run settles, shows the not-found message. */
  lemma DisplayNotFound(s: SearchState)
    requires Inv(s)
    requires !s.runs[|s.runs| - 1].aborted && Utf16Length(s.query) >= MinQueryLength
    ensures Display(Settled(s, |s.runs| - 1, NotFound)) == ErrorView(NotFoundMessage)
  {
  }
}
