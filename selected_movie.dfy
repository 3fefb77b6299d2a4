/**
 * The detail panel of one selected title: the watched entry it builds when
 * the user adds the title, the guard on its add control, the counter of
 * rating decisions and the detail fetch it issues for the selected id.
 */
module SelectedMovie {
  import opened Wrappers
  import opened JsText
  import opened Watched

  /** The fields of the detail record the panel reads; all absent in the initial `{}`. */
  datatype MovieDetail = MovieDetail(
    title: Option<string>,
    poster: Option<string>,
    runtime: Option<string>,
    imdbRating: Option<string>)

  const EmptyDetail := MovieDetail(None, None, None, None)

  /** Building an entry from a record without `Runtime` calls `split` on undefined and throws. */
  datatype AddError = RuntimeMissing

  /** How one detail request ends: its decoded body, or a rejection the panel swallows. */
  datatype DetailOutcome = Loaded(detail: MovieDetail) | DetailFailed

  /** Unary plus on a field that may be undefined (`+undefined` is NaN). */
  function FieldToNumber(field: Option<string>): (n: Number)
    ensures field.None? ==> n == NaN
  {
    match field
    case None => NaN
    case Some(s) => ToNumber(s)
  }

  /**
   * The `newlyWatchedMovie` object of `handleAdd`. `decisions` is the rating
   * counter in the split-component version and absent in the single-file one.
   */
  function BuildEntry(movie: MovieDetail, selectedID: string, userRating: Option<int>, decisions: Option<nat>)
    : (r: Result<WatchedEntry, AddError>)
    ensures r.Failure? <==> movie.runtime.None?
    ensures r.Success? ==>
      && r.value.imdbID == selectedID
      && r.value.title == movie.title && r.value.poster == movie.poster
      && r.value.runtime == ToNumber(FirstToken(movie.runtime.value))
      && r.value.imdbRating == FieldToNumber(movie.imdbRating)
      && r.value.userRating == userRating
      && r.value.countRatingDecisions == decisions
  {
    match movie.runtime
    case None => Failure(RuntimeMissing)
    case Some(runtime) =>
      Success(WatchedEntry(selectedID, movie.title, movie.poster, FieldToNumber(movie.imdbRating),
                           ToNumber(FirstToken(runtime)), userRating, decisions))
  }

  /** A detail whose runtime reads "<n> min" yields an entry whose runtime is the number n. */
  lemma BuildEntryRuntime(movie: MovieDetail, selectedID: string, userRating: Option<int>, decisions: Option<nat>, n: nat)
    requires movie.runtime == Some(NatToString(n) + " min")
    ensures BuildEntry(movie, selectedID, userRating, decisions).Success?
    ensures BuildEntry(movie, selectedID, userRating, decisions).value.runtime == Num(n as real)
  {
    RuntimeOfMinutesText(n);
  }

  /** JavaScript truthiness of the rating state: `''` (absent) and 0 are falsy. */
  predicate Truthy(userRating: Option<int>)
  {
    userRating.Some? && userRating.value != 0
  }

  /**
   * The add control is rendered only outside the loading view, for a title
   * that is not watched, once `userRating >= 1` (`'' >= 1` is false).
   */
  predicate AddOffered(isLoading: bool, isWatched: bool, userRating: Option<int>)
    ensures AddOffered(isLoading, isWatched, userRating) ==> !isLoading && !isWatched
    ensures userRating.None? ==> !AddOffered(isLoading, isWatched, userRating)
  {
    !isLoading && !isWatched && userRating.Some? && userRating.value >= 1
  }

  /** An entry added through the offered control keeps the ids of the list unique. */
  lemma AddThroughControlKeepsIdsUnique(watched: seq<WatchedEntry>, entry: WatchedEntry, userRating: Option<int>)
    requires UniqueIds(watched)
    requires AddOffered(false, IsWatched(watched, entry.imdbID), userRating)
    ensures UniqueIds(Append(watched, entry))
  {
  }

  /** The rating state after a run of `setUserRating` calls starting from `current`. */
  function LastRating(current: Option<int>, sets: seq<Option<int>>): Option<int>
  {
    if sets == [] then current else sets[|sets| - 1]
  }

  /**
   * The value of `countRef.current` after the calls `sets`, starting from the
   * rating `current`: the effect on `[userRating]` runs only when the rating
   * changes, and increments only when the new rating is truthy.
   */
  function CountDecisions(current: Option<int>, sets: seq<Option<int>>): (n: nat)
    ensures n <= |sets|
    decreases sets
  {
    if sets == [] then 0
    else (if sets[0] != current && Truthy(sets[0]) then 1 else 0) + CountDecisions(sets[0], sets[1..])
  }

  /** One more call adds one exactly when it changes the rating to a truthy value. */
  lemma {:induction false} CountDecisionsSnoc(current: Option<int>, sets: seq<Option<int>>, r: Option<int>)
    ensures CountDecisions(current, sets + [r]) ==
            CountDecisions(current, sets) + (if r != LastRating(current, sets) && Truthy(r) then 1 else 0)
    decreases sets
  {
    if sets != [] {
      assert (sets + [r])[1..] == sets[1..] + [r];
      CountDecisionsSnoc(sets[0], sets[1..], r);
    }
  }

  /** The counter never decreases as more ratings are set. */
  lemma {:induction false} CountDecisionsMonotone(current: Option<int>, sets: seq<Option<int>>, more: seq<Option<int>>)
    ensures CountDecisions(current, sets) <= CountDecisions(current, sets + more)
  {
    if more != [] {
      var last := more[|more| - 1];
      assert sets + more == (sets + more[..|more| - 1]) + [last];
      CountDecisionsMonotone(current, sets, more[..|more| - 1]);
      CountDecisionsSnoc(current, sets + more[..|more| - 1], last);
    } else {
      assert sets + more == sets;
    }
  }

  /** Setting the same rating again never counts as a decision. */
  lemma RepeatedRatingNotCounted(current: Option<int>, sets: seq<Option<int>>)
    ensures CountDecisions(current, sets + [LastRating(current, sets)]) == CountDecisions(current, sets)
  {
    CountDecisionsSnoc(current, sets, LastRating(current, sets));
  }

  /** The state of the detail panel (`SelectedMovie`) for one mounted instance. */
  class DetailPanel {
    var selectedID: string
    var movie: MovieDetail
    var isLoading: bool
    var userRating: Option<int>
    /** `countRef.current` */
    var decisions: nat
    /** Every `setUserRating` call made so far, for the specification of the counter. */
    ghost var ratings: seq<Option<int>>

    ghost predicate Valid()
      reads this
    {
      userRating == LastRating(None, ratings) && decisions == CountDecisions(None, ratings)
    }

    /** Mounting: empty record, no rating, counter 0, and the detail request issued. */
    constructor (selectedID: string)
      ensures Valid()
      ensures this.selectedID == selectedID && movie == EmptyDetail && isLoading
      ensures userRating == None && decisions == 0 && ratings == []
    {
      this.selectedID := selectedID;
      movie := EmptyDetail;
      userRating := None;
      decisions := 0;
      ratings := [];
      isLoading := true;
    }

    /** `setUserRating(r)` followed by the counter effect when the rating changed. */
    method SetUserRating(r: Option<int>)
      requires Valid()
      modifies this
      ensures Valid()
      ensures ratings == old(ratings) + [r] && userRating == r
      ensures decisions == old(decisions) + (if r != old(userRating) && Truthy(r) then 1 else 0)
      ensures selectedID == old(selectedID) && movie == old(movie) && isLoading == old(isLoading)
    {
      CountDecisionsSnoc(None, ratings, r);
      if r != userRating {
        userRating := r;
        if Truthy(r) {
          decisions := decisions + 1;
        }
      }
      ratings := ratings + [r];
    }

    /** A different `selectedID` prop re-runs the detail effect; rating and counter persist. */
    method Reselect(id: string)
      requires Valid()
      modifies this
      ensures Valid()
      ensures selectedID == id
      ensures isLoading == (id != old(selectedID) || old(isLoading))
      ensures movie == old(movie) && userRating == old(userRating) && decisions == old(decisions)
      ensures ratings == old(ratings)
    {
      if id != selectedID {
        selectedID := id;
        isLoading := true;
      }
    }

    /** A detail request settles: a body replaces the record, a failure is swallowed. */
    method SettleDetail(outcome: DetailOutcome)
      requires Valid()
      modifies this`movie, this`isLoading
      ensures Valid()
      ensures !isLoading
      ensures movie == if outcome.Loaded? then outcome.detail else old(movie)
    {
      match outcome {
        case Loaded(detail) => movie := detail;
        case DetailFailed =>
      }
      isLoading := false;
    }

    /** Whether the "+Add to list" button is rendered for the given watched list. */
    predicate AddControlShown(watched: seq<WatchedEntry>)
      reads this
      ensures AddControlShown(watched) ==> !IsWatched(watched, selectedID)
    {
      AddOffered(isLoading, IsWatched(watched, selectedID), userRating)
    }

    /** Adding the entry built while the add control is shown keeps the list's ids unique. */
    lemma AddControlKeepsIdsUnique(watched: seq<WatchedEntry>)
      requires AddControlShown(watched) && UniqueIds(watched) && NewEntry().Success?
      ensures UniqueIds(Append(watched, NewEntry().value))
    {
      AddThroughControlKeepsIdsUnique(watched, NewEntry().value, userRating);
    }

    /** The entry `handleAdd` passes to the add callback. */
    function NewEntry(): (r: Result<WatchedEntry, AddError>)
      reads this
      ensures r.Success? ==> r.value.imdbID == selectedID && r.value.userRating == userRating
      ensures r.Success? ==> r.value.countRatingDecisions == Some(decisions)
    {
      BuildEntry(movie, selectedID, userRating, Some(decisions))
    }
  }
}
