# usePopcorn: a verified model of the search lifecycle and the watched list

usePopcorn is a browser app for searching movies and keeping a list of watched
ones. A user types a query, and the app searches a movie database. The user
can open a title, rate it from 1 to 10 and add it to the watched list, which
is kept in the browser's local storage. The repository holds two versions of
the app. One is a single file (`src/App.js`). The other is split into
components and hooks under `src/components/`: its `App` imports
`src/components/useMovies.js` and `src/components/useLocalStorageState.js`.
The top-level hooks `src/useMovies.js` and `src/useLocalStorageState.js` are
copies that this `App` does not import. `src/components/useLocalStorageState.js`
is not part of this model; the model assumes it matches
`src/useLocalStorageState.js`, which `Handlers.InitialWatched` relies on.
This project models the logic of both versions in Dafny. React state is treated as plain values. Each effect is an
explicit step.

- `wrappers.dfy` (`Wrappers`): `Option` and `Result`.
- `js_text.dfy` (`JsText`): `s.length` in UTF-16 code units (the measure
  of the short-query guard), `s.split(' ').at(0)`, and unary plus on decimal
  text. The last two build a watched entry's runtime and rating.
- `watched.dfy` (`Watched`): the watched entry and the list updaters: append,
  and delete by `imdbID` with `filter`. Also the `isWatched` and
  `watchedRating` lookups, and `average` over exact reals.
- `selected_movie.dfy` (`SelectedMovie`): the entry that `handleAdd` builds,
  the add-button guard, and the rating-decision counter (`countRef`). It also
  has the `DetailPanel` class: the panel's state and its detail fetch.
- `search.dfy` (`Search`): the `useMovies` lifecycle. It is written as
  specification functions over a `SearchState` value: start a run, abort the
  live controller, settle a run. The `SearchResolver` class follows them step
  by step. The lemmas are about sequences of query changes and settlements.
- `local_storage.dfy` (`LocalStorage`): the storage map as a `Storage`
  class, and the `useLocalStorageState` hook as a class. It reads storage
  once when mounted and writes back on every change of value or key.
  Serialisation is an abstract `Codec` standing for `JSON.stringify` /
  `JSON.parse`. The reload proofs assume, for the one value they are about,
  that it round-trips and is not written as empty text (`FaithfulOn`). Real JSON does not round-trip NaN (see "## Left out").
- `key_events.dfy` (`KeyEvents`): `useKey`. It covers key matching that
  ignores ASCII case, the document's set of `keydown` listeners, and the
  hook's subscribe, re-subscribe and unsubscribe.
- `handlers.dfy` (`Handlers`): the split-component `App`. Its handlers are
  pure updaters of `{selectedID, watched}`. It also has the list's initial
  value and the choice between loader, error and list.
- `inline_app.dfy` (`InlineApp`): the single-file `App` as a class. It holds
  the watched list and its own persist effect, the selection, and the inlined
  search lifecycle. That lifecycle does not clear `error` when a run starts,
  and it closes the selection on every query change.

A search request is a *run*. It remembers the query it was started with and
has its own abort controller. Settling a run is an event that carries an
outcome: `Aborted`, `HttpNotOk`, `NotFound`, `Found(list)`, or
`Rejected(message)` for any other rejection. If the run's controller was
aborted before it settled, the code sees an `AbortError`, whatever the
outcome.

Some behaviours of the code are easy to miss:

- A query shorter than three UTF-16 code units (`query.length`) still sends a request. The results
  are cleared only when that request settles (`Search.ShortQueryStillRequests`).
- A "not found" answer sets the message but keeps the previous results
  (`Search.NotFoundKeepsPreviousResults`).
- Superseded requests are not fully ignored. An aborted run still runs its
  `finally` block, so `isLoading` becomes false while the live request is
  still pending (`Search.StaleSettleEndsLoadingEarly`). It also runs the
  short-query guard with its own query. What does hold: once the live run
  has settled, a stale run with a long query changes neither the results nor
  the error (`Search.StaleSettlesKeepResults`, `Search.LatestFoundPersists`).
- The single-file app never clears the error when a search starts
  (src/App.js:71). A long query whose list is found still shows the earlier
  error message, until a short query settles
  (`InlineApp.StaleErrorHidesFoundList`).
- The store never checks that `imdbID`s are unique. Only the add-button
  guard keeps them unique (`SelectedMovie.AddThroughControlKeepsIdsUnique`).

## Model

| member | source | states |
|---|---|---|
| `JsText.FirstToken` | src/components/SelectedMovie.js:59 | The first token is a prefix of the text and contains no space. It is either the whole text or is followed by a space |
| `JsText.FirstTokenOfJoin` | src/components/SelectedMovie.js:59 | The first token of `t + " " + rest` is `t` when `t` contains no space |
| `JsText.ToNumber` | src/components/SelectedMovie.js:58-59 | Unary plus: empty text is 0; text with neither digits nor a dot is NaN; a lone "." is NaN |
| `JsText.ToNumberOfNatToString` | src/components/SelectedMovie.js:59 | Unary plus inverts the decimal spelling of every natural number |
| `JsText.RuntimeOfMinutesText` | src/components/SelectedMovie.js:59 | A runtime text "`n` min" converts to the number `n` |
| `JsText.DecimalRatingText` | src/components/SelectedMovie.js:58 | The rating text "7.5" converts to 7.5, and "N/A" converts to NaN |
| `JsText.Utf16Length` | src/useMovies.js:50 | `query.length` counts UTF-16 code units: at least the number of characters and at most twice it, and equal to it exactly when every character is below U+10000 |
| `JsText.Utf16LengthOfEmojiPair` | src/useMovies.js:50 | Two emoji are two characters but length 4 |
| `Watched.Append` | src/components/App.js:42-43 | Adding a movie appends it: the length grows by one, earlier entries are unchanged, and the new entry is last |
| `Watched.DeleteById` | src/components/App.js:50-52 | The result never grows. It holds exactly the entries of the input whose `imdbID` differs from the id |
| `Watched.Ids` | src/components/SelectedMovie.js:34 | The id list is position by position the `imdbID`s of the watched list |
| `Watched.IsWatchedIff` | src/components/SelectedMovie.js:34 | `isWatched` holds iff some entry's `imdbID` equals the selected id |
| `Watched.IsWatched` | src/components/SelectedMovie.js:34-39 | The `includes` check on the ids holds exactly when the `find` lookup finds an entry |
| `Watched.FindWatched` | src/components/SelectedMovie.js:37-39 | `find` gives nothing iff no entry matches, and otherwise the first matching entry |
| `Watched.WatchedRating` | src/components/SelectedMovie.js:37-39 | Absent iff the title is not watched, and otherwise the `userRating` of the first matching entry. The single-file copy is src/App.js:297-302 |
| `Watched.DeleteDistributes` | src/components/App.js:50-52 | Deleting from a concatenation deletes from each part, so the kept entries keep their order |
| `Watched.DeleteMultiplicity` | src/components/App.js:50-52 | Entries with the id disappear, and every other entry keeps its multiplicity |
| `Watched.DeleteIsIdentityIff` | src/App.js:52-53 | Deleting an id leaves the list unchanged iff no entry has that id |
| `Watched.DeleteIdempotent` | src/App.js:52-53 | Deleting twice is the same as deleting once |
| `Watched.DeleteCommutes` | src/components/App.js:50-52 | Deleting two ids gives the same list in either order |
| `Watched.DeleteUndoesAppend` | src/App.js:44-54 | Deleting the id of an appended entry undoes the append when the id was new |
| `Watched.AppendMakesWatched` | src/App.js:297-302 | After an append the id is watched. Its rating is the new entry's rating when the id was new |
| `Watched.DeleteMakesUnwatched` | src/App.js:53 | After a delete the id is not watched and has no rating |
| `Watched.ReduceAverageIsSumOver` | src/App.js:5-6 | The fold that adds `cur / length` equals the starting value plus sum / length |
| `Watched.ReduceAverage` | src/App.js:5-6 | The fold over an empty array gives its start value, whatever the length (0 for `[]`); over non-negative values with a positive length it never drops below its start |
| `Watched.Average` | src/components/App.js:16-17 | The average of an empty list is 0, and of a non-empty list is sum / length, in exact arithmetic |
| `Watched.AverageBounds` | src/App.js:446-449 | The average of values between `lo` and `hi` lies between `lo` and `hi` |
| `Watched.AverageOfTwoEntries` | src/App.js:447-448 | IMDb ratings 7.5 and 8.0 average to 7.75, and user ratings 8 and 6 average to 7 |
| `SelectedMovie.FieldToNumber` | src/components/SelectedMovie.js:58 | Unary plus on an undefined field is NaN |
| `SelectedMovie.BuildEntry` | src/components/SelectedMovie.js:55-63 | Fails iff the record has no `Runtime`, because `split` on undefined throws. Otherwise the entry has `imdbID = selectedID`, runtime = `+firstToken(Runtime)`, `imdbRating = +imdbRating`, the current rating, and the counter |
| `SelectedMovie.BuildEntryRuntime` | src/components/SelectedMovie.js:59 | A record whose runtime reads "`n` min" builds an entry with runtime `n` |
| `SelectedMovie.AddThroughControlKeepsIdsUnique` | src/components/SelectedMovie.js:139-159 | The add control is offered only when not loading, not watched and `userRating >= 1`. An entry added through it keeps the `imdbID`s of the list unique |
| `SelectedMovie.AddOffered` | src/components/SelectedMovie.js:139-159 | The add button is offered only outside the loading view and for a title that is not watched, and never while the rating is `''` |
| `SelectedMovie.DetailPanel.AddControlShown` | src/components/SelectedMovie.js:139-159 | When the panel shows the add button, the selected title is not watched |
| `SelectedMovie.DetailPanel.AddControlKeepsIdsUnique` | src/components/SelectedMovie.js:139-159 | Adding the entry the panel builds while the add button is shown keeps the list's ids unique |
| `SelectedMovie.CountDecisions` | src/components/SelectedMovie.js:22-31 | The counter never exceeds the number of rating calls |
| `SelectedMovie.CountDecisionsSnoc` | src/components/SelectedMovie.js:24-31 | One more rating call adds one exactly when it changes the rating to a truthy value |
| `SelectedMovie.CountDecisionsMonotone` | src/components/SelectedMovie.js:24-31 | The counter never decreases as more ratings are set |
| `SelectedMovie.RepeatedRatingNotCounted` | src/components/SelectedMovie.js:30 | Setting the current rating again does not count |
| `SelectedMovie.DetailPanel.constructor` | src/components/SelectedMovie.js:14-22 | On mount the record is empty, there is no rating, the counter is 0 and the detail request is issued |
| `SelectedMovie.DetailPanel.SetUserRating` | src/components/SelectedMovie.js:19-31 | Sets the rating. The counter grows by one iff the rating changed to a truthy value. Nothing else changes |
| `SelectedMovie.DetailPanel.Reselect` | src/components/SelectedMovie.js:86-107 | A different selected id issues a new detail request. The rating and the counter persist |
| `SelectedMovie.DetailPanel.SettleDetail` | src/components/SelectedMovie.js:86-103 | A loaded record replaces `movie`. A failure leaves `movie` unchanged. `isLoading` ends false |
| `SelectedMovie.DetailPanel.NewEntry` | src/components/SelectedMovie.js:53-63 | The entry `handleAdd` builds carries the selected id, the current rating and the counter |
| `Search.AbortLive` | src/useMovies.js:60-62 | Cleanup aborts only the latest controller. Results, loading and error are unchanged |
| `Search.StartRun` | src/useMovies.js:18-23 | A run adds a live controller for the new query and sets `isLoading`. `error` is cleared iff the copy clears it |
| `Search.Mount` | src/useMovies.js:15-65 | The first effect run: one live, pending run for the initial query, loading, no results and no error |
| `Search.QueryChanged` | src/useMovies.js:15-65 | The same query changes nothing. A new query aborts exactly the latest controller, keeps the results, clears the error iff the copy clears it on start, and appends one live, pending run for the new query with loading on |
| `Search.Effective` | src/useMovies.js:42-45 | A run whose controller was aborted sees an `AbortError` |
| `Search.Settled` | src/useMovies.js:20-55 | Every settled run leaves `isLoading` false and marks only itself settled. A run whose query's `length` (UTF-16 code units) is below 3 leaves results empty and error `''` |
| `Search.SettledLongQuery` | src/useMovies.js:31-45 | For a query of `length` 3 or more (UTF-16 code units): `Found` sets results; a non-ok response sets "something went wrong"; `Response False` sets "movie not found"; other rejections set their message; an abort changes neither results nor error |
| `Search.MountEstablishesInv` | src/useMovies.js:15-58 | The first effect run establishes the lifecycle invariant |
| `Search.StepKeepsInv` | src/useMovies.js:15-65 | Every query change and every settlement keeps the invariant: the latest run belongs to the current query, every earlier controller is aborted, and `isLoading` implies the latest run is pending |
| `Search.ReplayKeepsInv` | src/useMovies.js:15-65 | Every reachable state satisfies the invariant |
| `Search.StaleSettlesKeepResults` | src/useMovies.js:42-54 | Once the latest run has settled, stale runs with long queries change neither results nor error |
| `Search.LatestFoundPersists` | src/useMovies.js:41-45 | The list from the live run stays the results, however stale runs with long queries settle afterwards |
| `Search.EmojiQueryKeepsResults` | src/useMovies.js:31-50 | A live run for the query of two emoji (length 4) keeps the list it finds: the guard does not clear it |
| `Search.ShortQueryStillRequests` | src/useMovies.js:22-28 | A short query still starts a live run and sets `isLoading` |
| `Search.StaleSettleEndsLoadingEarly` | src/useMovies.js:46-48 | An aborted stale run clears `isLoading` while the live run is still pending |
| `Search.ShortQueryClearedOnSettle` | src/useMovies.js:50-54 | When a run for a short query settles, results are empty, the error is `''`, and loading is over, whatever the outcome |
| `Search.FoundSettlesCleanly` | src/components/useMovies.js:16-34 | In the hook, a query with matches ends with those results, no error, and not loading |
| `Search.NotFoundKeepsPreviousResults` | src/components/useMovies.js:27-31 | A query without matches ends with "movie not found" and keeps the previous results |
| `Search.SearchResolver.constructor` | src/components/useMovies.js:6-17 | Mounting gives the initial state and then the first run |
| `Search.SearchResolver.SetQuery` | src/components/useMovies.js:10-50 | A changed query aborts the previous controller and then starts a run. The same query changes nothing |
| `Search.SearchResolver.Settle` | src/components/useMovies.js:14-40 | Performs the try/catch, the finally and the short-query guard step by step. The new state is exactly `Settled` of the old one |
| `Search.SearchResolver.Unmount` | src/components/useMovies.js:46-48 | Unmounting aborts the live controller |
| `LocalStorage.Storage.GetItem` | src/useLocalStorageState.js:24 | Gives nothing iff the key is missing, and otherwise the stored text |
| `LocalStorage.Storage.SetItem` | src/useLocalStorageState.js:30 | Writes exactly one key |
| `LocalStorage.InitialValue` | src/useLocalStorageState.js:23-26 | A missing or empty stored text gives `initialState`. Non-empty text gives its parse, or fails where parsing fails |
| `LocalStorage.InitialValueAfterWrite` | src/useLocalStorageState.js:25-30 | Reading back what was written under the key gives the written value, whatever the default, when the codec round-trips that value |
| `LocalStorage.LocalStorageState.constructor` | src/useLocalStorageState.js:22-33 | On mount the value is the initial value, and then that value is written under the key. No other key changes |
| `LocalStorage.LocalStorageState.SetValue` | src/useLocalStorageState.js:28-33 | After any change, storage under the key holds `serialize(value)`. No other key changes |
| `LocalStorage.LocalStorageState.Update` | src/useLocalStorageState.js:34 | The updater form sets the value to `f(previous)` and writes it back |
| `LocalStorage.LocalStorageState.SetKey` | src/useLocalStorageState.js:32 | A new key writes the current value under the new key and leaves the old entry in place |
| `LocalStorage.LocalStorageState.ReloadRestores` | src/useLocalStorageState.js:25-30 | Mounting again with the same key starts from the current value, when the codec round-trips that value |
| `KeyEvents.LowerChar` | src/components/useKey.js:12 | ASCII capitals map to their lower-case letter, and every other character is unchanged |
| `KeyEvents.Lower` | src/components/useKey.js:12 | Lower-casing keeps the length and lower-cases each character |
| `KeyEvents.KeyMatchesIff` | src/components/useKey.js:12-13 | The handler runs iff the keys have the same length and agree letter by letter ignoring case |
| `KeyEvents.KeyMatches` | src/components/useKey.js:12 | A key always matches itself, and matching keys have the same length |
| `KeyEvents.LowerIdempotent` | src/components/useKey.js:12 | Lower-casing twice is lower-casing once |
| `KeyEvents.KeyMatchesEquivalence` | src/components/useKey.js:12 | Matching is reflexive, symmetric and transitive, and ignores case in either argument |
| `KeyEvents.EscapeMatchesMixedCase` | src/components/SelectedMovie.js:109 | 'eSCApe' matches "Escape" and does not match "Enter" |
| `KeyEvents.Document.AddEventListener` | src/components/useKey.js:17 | Adds exactly that listener |
| `KeyEvents.Document.RemoveEventListener` | src/components/useKey.js:20 | Removes exactly that listener |
| `KeyEvents.Document.Dispatch` | src/components/useKey.js:6-15 | A keydown runs exactly the handlers of the registered listeners whose key matches |
| `KeyEvents.KeyHook.constructor` | src/components/useKey.js:4-17 | Subscribing adds one fresh listener and nothing else |
| `KeyEvents.KeyHook.Rerender` | src/components/useKey.js:19-23 | A new key or handler removes the old listener and then adds a fresh one. Otherwise nothing changes |
| `KeyEvents.KeyHook.Unmount` | src/components/useKey.js:19-21 | Cleanup removes this hook's listener |
| `KeyEvents.SubscribeThenUnsubscribe` | src/components/useKey.js:17-21 | Adding a new listener and removing it restores the listener set |
| `KeyEvents.DispatchSingleListener` | src/components/useKey.js:12-17 | With one listener registered, its handler runs iff the key matches ignoring case |
| `KeyEvents.MountThenUnmount` | src/components/useKey.js:17-21 | Mounting and then unmounting a hook leaves the document's listeners as they were |
| `Handlers.ToggleSelection` | src/components/App.js:31-34 | Selecting the selected id clears the selection. Selecting any other id makes it the selection |
| `Handlers.ToggleTwice` | src/components/App.js:33 | Selecting the same id twice restores the selection only if that id was already selected, and otherwise clears it |
| `Handlers.SelectMovie` | src/components/App.js:31-34 | `handleSelectMovie` toggles the selection and leaves the list alone |
| `Handlers.CloseMovie` | src/components/App.js:37-39 | `handleCloseMovie` always leaves no selection and does not change the list |
| `Handlers.AddMovie` | src/components/App.js:42-43 | `handleAddMovie` appends, and the selection is unchanged |
| `Handlers.DeleteMovie` | src/components/App.js:50-52 | `handleDeleteMovie` deletes by id, and the selection is unchanged |
| `Handlers.HandleAdd` | src/components/SelectedMovie.js:64-68 | The add callback runs once, so exactly one entry is appended at the end. Then the view closes |
| `Handlers.AddThenDeleteRestores` | src/components/App.js:42-52 | Adding a new title and then deleting it gives back the original state |
| `Handlers.InitialWatched` | src/components/App.js:28 | The watched list starts from the stored entry, and is `[]` when nothing is stored |
| `Handlers.Display` | src/components/App.js:70-76 | Shows the loader iff loading; otherwise the error iff it is non-empty; otherwise the list |
| `Handlers.DisplayAfterSettle` | src/components/App.js:70-76 | After any run settles the loader is gone. After a short-query run settles, an empty list is shown |
| `Handlers.DisplayNotFound` | src/components/useMovies.js:27 | When a live run for a long query gets "not found", the not-found message is shown |
| `InlineApp.InitialWatchedAsWritten` | src/App.js:15-18 | As written: a missing entry fails (null list). Stored text gives its parse, or fails where parsing fails |
| `InlineApp.FirstVisitFails` | src/App.js:15-18 | With empty storage the single-file app fails, while the hook version starts with `[]` |
| `InlineApp.InitialisersAgreeOnStoredList` | src/App.js:15-17 | When a list is stored, both versions start from it |
| `InlineApp.InlineRunKeepsError` | src/App.js:70-71 | In this copy a new run sets `isLoading` but keeps the previous error |
| `InlineApp.StaleErrorHidesFoundList` | src/App.js:69-103 | After any error, a new long query whose list is found still shows that error in this copy, where the hook (src/useMovies.js:23) shows the list |
| `InlineApp.App.constructor` | src/App.js:10-62 | Mounting starts from the stored list, writes it back, has no selection and starts the first search run |
| `InlineApp.App.SelectMovie` | src/App.js:33-36 | Toggles the selection |
| `InlineApp.App.CloseMovie` | src/App.js:39-41 | Leaves no selection |
| `InlineApp.App.AddMovie` | src/App.js:44-62 | Appends, and storage key "watched" then holds the serialised list. No other key changes |
| `InlineApp.App.DeleteMovie` | src/App.js:52-62 | Deletes by id, and storage key "watched" then holds the serialised list |
| `InlineApp.App.HandleAdd` | src/App.js:316-330 | The entry has the selected id and no counter. It is appended and the panel closes. If the record has no runtime, nothing changes |
| `InlineApp.App.SetQuery` | src/App.js:64-113 | A changed query clears the selection and starts a run that keeps the error. The same query changes nothing |
| `InlineApp.App.Settle` | src/App.js:69-103 | A run settles exactly as `Settled` describes |
| `InlineApp.App.AddThenDelete` | src/App.js:44-62 | Adding a new title and deleting it restores both the list and the stored text |

## Left out

- Rendering, CSS classes, the open/close state of `Box`, `document.title` effects and input focus. This includes `src/components/Search.js`, whose Enter handling is focus plus `setQuery('')`.
- The single-file app's own keydown listeners (src/App.js:196-215 and 370-385). They compare `e.key` exactly, without lower-casing.
- `fetch`, HTTP, JSON bodies, URLs and the API key. Each request is reduced to the outcome it settles with.
- Asynchronous timing. Runs settle in any order the caller chooses. In a browser, an aborted request rejects right after its abort. So some orders the model allows cannot happen, such as a stale run settling after the newer run has answered. The lemmas hold for every order.
- The detail fetch has no abort controller. A late response for an earlier selection still replaces `movie`. `SelectedMovie.DetailPanel.SettleDetail` accepts any response, as the code does.
- State updates after unmount, which React ignores. `Search.SearchResolver.Unmount` only aborts the live controller.
- Floating point, `toFixed` rounding and NaN in the summary. `Watched.Average` works on exact reals.
- `JsText.ToNumber`: handles plain decimal notation only. Surrounding whitespace, signs, exponents, hexadecimal and `Infinity` give NaN in the model, where JavaScript gives a number.
- `KeyEvents.Lower`: lower-cases ASCII letters only, where `toLowerCase` applies full Unicode case mapping.
- JSON itself. `LocalStorage.Codec` is a pair of functions. The round-trip and non-empty-text properties of one value are stated as `LocalStorage.FaithfulOn` and assumed by the lemmas that need them.
- `LocalStorage.FaithfulOn`: real JSON does not round-trip every watched list. No codec can round-trip every list, since the model's ratings and runtimes are exact reals and texts are countable; JavaScript numbers are doubles with finite spellings, so JSON round-trips finite ones. `JSON.stringify` writes NaN as `null`, so an entry built from an "N/A" rating or runtime (NaN, see `JsText.DecimalRatingText`) reloads with `null` there, which `average` then counts as 0. `LocalStorage.InitialValueAfterWrite` and `LocalStorage.LocalStorageState.ReloadRestores` hold only when the codec is faithful on the list actually stored, which excludes lists with NaN fields under real JSON.
- `KeyEvents.Document.Dispatch`: returns the set of handlers to call. The DOM calls listeners in the order they were added, and calls a handler twice when two listeners register it; neither is represented. Neither arises at the app's two `useKey` call sites, which use different keys and handlers.
- Storage quota errors and writes from other tabs.
- Components that are not part of this model: `StarRating` (it is modelled only as the values it passes to `setUserRating`), `Loader`, `ErrorMessage`, `NavBar`, `NumResults`, `Main`, `MovieList`, `WatchedSummary`, `WatchedList`.

## Findings

| source | as written | input that shows it | evidently intended | confidence | as-written member | corrected member |
|---|---|---|---|---|---|---|
| src/App.js:15-18 | the watched list starts as `JSON.parse` of the stored text with no fallback | empty storage (a first visit): `getItem` gives null, `JSON.parse(null)` is null, and the first render calls `watched.map` on it | start from `[]` when nothing is stored, as src/components/App.js:28 does | high; not executed | `InlineApp.FirstVisitFails` | `Handlers.InitialWatched` |
