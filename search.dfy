/**
 * The search lifecycle of `useMovies` (and of the copy inlined in the
 * single-file app): every change of the query aborts the previous request's
 * controller and starts a new request; every request, stale or not, settles
 * once, runs its `finally` and then its own short-query guard with the query
 * it captured.
 *
 * Requests are "runs", numbered in the order they were started. Settling is
 * an explicit event carrying the outcome the network would deliver; a run
 * whose controller was aborted before it settled sees an `AbortError`
 * whatever the network would have delivered.
 */
module Search {
  import opened JsText

  /** Queries shorter than this (in UTF-16 code units) are cleared once their request settles. */
  const MinQueryLength := 3
  const NotOkMessage := "something went wrong"
  const NotFoundMessage := "movie not found"

  /** One element of the `Search` array of a search response. */
  datatype MovieSummary = MovieSummary(imdbID: string, title: string, year: string, poster: string)

  /**
   * How a request ends: rejected with an `AbortError`, a response that is not
   * ok, a body with `Response === 'False'`, a body with a `Search` array, or
   * any other rejection (a network failure, a body that is not JSON) with its
   * message.
   */
  datatype Outcome = Aborted | HttpNotOk | NotFound | Found(search: seq<MovieSummary>) | Rejected(message: string)

  /** One request with the query it captured and the state of its controller. */
  datatype Run = Run(query: string, aborted: bool, settled: bool)

  /** The hook's three state variables, the current query and every run started so far. */
  datatype SearchState = SearchState(
    query: string,
    movies: seq<MovieSummary>,
    isLoading: bool,
    error: string,
    runs: seq<Run>)

  /** The initial `useState` values, before the first effect has run. */
  function Unmounted(query: string): SearchState
  {
    SearchState(query, [], false, "", [])
  }

  /** The cleanup of the previous effect run: `controller.abort()` on the latest controller. */
  function AbortLive(s: SearchState): (r: SearchState)
    ensures r.query == s.query && r.movies == s.movies && r.isLoading == s.isLoading && r.error == s.error
    ensures |r.runs| == |s.runs|
    ensures forall j :: 0 <= j < |s.runs| ==>
      r.runs[j].query == s.runs[j].query && r.runs[j].settled == s.runs[j].settled &&
      r.runs[j].aborted == (s.runs[j].aborted || j == |s.runs| - 1)
  {
    if s.runs == [] then s
    else
      var last := |s.runs| - 1;
      s.(runs := s.runs[last := s.runs[last].(aborted := true)])
  }

  /**
   * The effect body: a fresh controller and the part of `fetchMovies` before
   * its first `await` (`setIsLoading(true)`, and `setError('')` in the hook).
   */
  function StartRun(s: SearchState, q: string, clearsErrorOnStart: bool): (r: SearchState)
    ensures r.query == q && r.runs == s.runs + [Run(q, false, false)]
    ensures r.isLoading && r.movies == s.movies
    ensures r.error == if clearsErrorOnStart then "" else s.error
  {
    s.(query := q, runs := s.runs + [Run(q, false, false)], isLoading := true,
       error := if clearsErrorOnStart then "" else s.error)
  }

  /** Mounting with a query runs the effect once. */
  function Mount(query: string, clearsErrorOnStart: bool): (r: SearchState)
    ensures r.query == query && r.runs == [Run(query, false, false)]
    ensures r.isLoading && r.movies == [] && r.error == ""
  {
    StartRun(Unmounted(query), query, clearsErrorOnStart)
  }

  /** A new query re-runs the effect (cleanup first); the same query changes nothing. */
  function QueryChanged(s: SearchState, q: string, clearsErrorOnStart: bool): (r: SearchState)
    ensures q == s.query ==> r == s
    ensures q != s.query ==>
      && r.query == q && r.isLoading && r.movies == s.movies
      && r.error == (if clearsErrorOnStart then "" else s.error)
      && |r.runs| == |s.runs| + 1 && r.runs[|s.runs|] == Run(q, false, false)
      && (forall j :: 0 <= j < |s.runs| ==>
            r.runs[j].query == s.runs[j].query && r.runs[j].settled == s.runs[j].settled &&
            r.runs[j].aborted == (s.runs[j].aborted || j == |s.runs| - 1))
  {
    if q == s.query then s else StartRun(AbortLive(s), q, clearsErrorOnStart)
  }

  /** What the `catch` sees: an aborted controller turns any pending outcome into an `AbortError`. */
  function Effective(run: Run, outcome: Outcome): (e: Outcome)
    ensures run.aborted ==> e == Aborted
  {
    if run.aborted then Aborted else outcome
  }

  /**
   * Run `i` settles: the `try`/`catch` applies the outcome, the `finally`
   * clears `isLoading`, then the guard clears results and error when the
   * run's own query is short.
   */
  function Settled(s: SearchState, i: nat, outcome: Outcome): (r: SearchState)
    requires i < |s.runs|
    ensures !r.isLoading
    ensures r.query == s.query && r.runs == s.runs[i := s.runs[i].(settled := true)]
    ensures Utf16Length(s.runs[i].query) < MinQueryLength ==> r.movies == [] && r.error == ""
  {
    var run := s.runs[i];
    var caught :=
      match Effective(run, outcome)
      case Found(search) => s.(movies := search)
      case HttpNotOk => s.(error := NotOkMessage)
      case NotFound => s.(error := NotFoundMessage)
      case Rejected(message) => s.(error := message)
      case Aborted => s;
    var finished := caught.(isLoading := false);
    var guarded := if Utf16Length(run.query) < MinQueryLength then finished.(movies := [], error := "") else finished;
    guarded.(runs := s.runs[i := run.(settled := true)])
  }

  /** For a run with a query of at least three code units, each outcome does what the `try`/`catch` says. */
  lemma SettledLongQuery(s: SearchState, i: nat, outcome: Outcome)
    requires i < |s.runs| && Utf16Length(s.runs[i].query) >= MinQueryLength
    ensures var r := Settled(s, i, outcome); var e := Effective(s.runs[i], outcome);
      && (e.Found? ==> r.movies == e.search && r.error == s.error)
      && (e.HttpNotOk? ==> r.error == NotOkMessage && r.movies == s.movies)
      && (e.NotFound? ==> r.error == NotFoundMessage && r.movies == s.movies)
      && (e.Rejected? ==> r.error == e.message && r.movies == s.movies)
      && (e.Aborted? ==> r.error == s.error && r.movies == s.movies)
  {
  }

  /**
   * The guard measures `query.length` in UTF-16 code units: a query of two
   * emoji is long enough, and the list it finds is kept.
   */
  lemma EmojiQueryKeepsResults(s: SearchState, i: nat, search: seq<MovieSummary>)
    requires i < |s.runs| && s.runs[i].query == "\U{1F600}\U{1F600}" && !s.runs[i].aborted
    ensures Settled(s, i, Found(search)).movies == search
  {
    Utf16LengthOfEmojiPair();
    SettledLongQuery(s, i, Found(search));
  }

  /** The single events the lifecycle reacts to. */
  datatype Event = QueryChange(q: string) | Settle(run: nat, outcome: Outcome)

  /** One event; settling a run that does not exist or has settled already changes nothing. */
  function Step(s: SearchState, e: Event, clearsErrorOnStart: bool): SearchState
  {
    match e
    case QueryChange(q) => QueryChanged(s, q, clearsErrorOnStart)
    case Settle(i, outcome) => if i < |s.runs| && !s.runs[i].settled then Settled(s, i, outcome) else s
  }

  function Replay(s: SearchState, events: seq<Event>, clearsErrorOnStart: bool): SearchState
    decreases |events|
  {
    if events == [] then s else Replay(Step(s, events[0], clearsErrorOnStart), events[1..], clearsErrorOnStart)
  }

  /**
   * The lifecycle's invariant while mounted: the latest run belongs to the
   * current query, every earlier controller has been aborted (at most one
   * request is live) and `isLoading` implies the latest run is pending.
   */
  ghost predicate Inv(s: SearchState)
  {
    && |s.runs| > 0
    && s.runs[|s.runs| - 1].query == s.query
    && (forall j :: 0 <= j < |s.runs| - 1 ==> s.runs[j].aborted)
    && (s.isLoading ==> !s.runs[|s.runs| - 1].settled)
  }

  lemma MountEstablishesInv(query: string, clearsErrorOnStart: bool)
    ensures Inv(Mount(query, clearsErrorOnStart))
  {
  }

  lemma StepKeepsInv(s: SearchState, e: Event, clearsErrorOnStart: bool)
    requires Inv(s)
    ensures Inv(Step(s, e, clearsErrorOnStart))
  {
  }

  /** Every reachable state keeps the invariant. */
  lemma {:induction false} ReplayKeepsInv(s: SearchState, events: seq<Event>, clearsErrorOnStart: bool)
    requires Inv(s)
    ensures Inv(Replay(s, events, clearsErrorOnStart))
    decreases |events|
  {
    if events != [] {
      StepKeepsInv(s, events[0], clearsErrorOnStart);
      ReplayKeepsInv(Step(s, events[0], clearsErrorOnStart), events[1..], clearsErrorOnStart);
    }
  }

  predicate SettlesOnly(events: seq<Event>)
  {
    forall k :: 0 <= k < |events| ==> events[k].Settle?
  }

  /** Every run still pending captured a query of at least three code units. */
  ghost predicate PendingRunsLong(s: SearchState)
  {
    forall j :: 0 <= j < |s.runs| && !s.runs[j].settled ==> Utf16Length(s.runs[j].query) >= MinQueryLength
  }

  /**
   * Once the latest run has settled, stale runs that settle afterwards (all
   * aborted) leave results and error alone, unless a stale query was short.
   */
  lemma {:induction false} StaleSettlesKeepResults(s: SearchState, events: seq<Event>, clearsErrorOnStart: bool)
    requires Inv(s) && s.runs[|s.runs| - 1].settled && !s.isLoading
    requires PendingRunsLong(s)
    requires SettlesOnly(events)
    ensures var r := Replay(s, events, clearsErrorOnStart);
      r.movies == s.movies && r.error == s.error && !r.isLoading && r.query == s.query
    decreases |events|
  {
    if events != [] {
      var t := Step(s, events[0], clearsErrorOnStart);
      StepKeepsInv(s, events[0], clearsErrorOnStart);
      var i := events[0].run;
      if i < |s.runs| && !s.runs[i].settled {
        assert i < |s.runs| - 1;
        SettledLongQuery(s, i, events[0].outcome);
      }
      assert forall j :: 0 <= j < |t.runs| && !t.runs[j].settled ==> !s.runs[j].settled;
      StaleSettlesKeepResults(t, events[1..], clearsErrorOnStart);
    }
  }

  /**
   * Only the latest request is reflected: when the live run of a long query
   * delivers its list, that list stays the results however the stale runs
   * settle afterwards, provided none of them captured a short query.
   */
  lemma LatestFoundPersists(s: SearchState, search: seq<MovieSummary>, events: seq<Event>, clearsErrorOnStart: bool)
    requires Inv(s)
    requires !s.runs[|s.runs| - 1].aborted && !s.runs[|s.runs| - 1].settled
    requires PendingRunsLong(s)
    requires SettlesOnly(events)
    ensures Replay(Settled(s, |s.runs| - 1, Found(search)), events, clearsErrorOnStart).movies == search
  {
    var last := |s.runs| - 1;
    var t := Settled(s, last, Found(search));
    SettledLongQuery(s, last, Found(search));
    assert forall j :: 0 <= j < |t.runs| && !t.runs[j].settled ==> !s.runs[j].settled;
    StaleSettlesKeepResults(t, events, clearsErrorOnStart);
  }

  /** A short query still issues a request: the guard acts only after it settles. */
  lemma ShortQueryStillRequests(s: SearchState, q: string, clearsErrorOnStart: bool)
    requires q != s.query && Utf16Length(q) < MinQueryLength
    ensures var r := QueryChanged(s, q, clearsErrorOnStart);
      r.isLoading && |r.runs| == |s.runs| + 1 && r.runs[|s.runs|] == Run(q, false, false)
  {
  }

  /**
   * The `finally` of a stale run clears `isLoading` while the live request is
   * still pending: typing "abc" then "abcd", the aborted first request settles
   * and the loader disappears before the second request has answered.
   */
  lemma StaleSettleEndsLoadingEarly(clearsErrorOnStart: bool)
    ensures var s := QueryChanged(Mount("abc", clearsErrorOnStart), "abcd", clearsErrorOnStart);
      var r := Settled(s, 0, Aborted);
      s.isLoading && !r.isLoading && !r.runs[1].settled && !r.runs[1].aborted
  {
  }

  /** A query that drops below three code units clears results and error once its request settles. */
  lemma ShortQueryClearedOnSettle(s: SearchState, q: string, outcome: Outcome, clearsErrorOnStart: bool)
    requires Inv(s) && q != s.query && Utf16Length(q) < MinQueryLength
    ensures var started := QueryChanged(s, q, clearsErrorOnStart);
      var r := Settled(started, |started.runs| - 1, outcome);
      r.movies == [] && r.error == "" && !r.isLoading
  {
  }

  /**
   * A query with matches, once its live run settles in the hook: the list is
   * shown, no error, not loading.
   */
  lemma FoundSettlesCleanly(s: SearchState, q: string, search: seq<MovieSummary>)
    requires Inv(s) && q != s.query && Utf16Length(q) >= MinQueryLength
    ensures var started := QueryChanged(s, q, true);
      var r := Settled(started, |started.runs| - 1, Found(search));
      r.movies == search && r.error == "" && !r.isLoading
  {
  }

  /** A query without matches shows the not-found message and keeps the previous results. */
  lemma NotFoundKeepsPreviousResults(s: SearchState, q: string, clearsErrorOnStart: bool)
    requires Inv(s) && q != s.query && Utf16Length(q) >= MinQueryLength
    ensures var started := QueryChanged(s, q, clearsErrorOnStart);
      var r := Settled(started, |started.runs| - 1, NotFound);
      r.movies == s.movies && r.error == NotFoundMessage && !r.isLoading
  {
  }

  /** The `useMovies` hook: the state it holds and the effect steps that change it. */
  class SearchResolver {
    /** `setError('')` at the start of a run: the hook does it, the inlined copy does not. */
    const clearsErrorOnStart: bool
    var query: string
    var movies: seq<MovieSummary>
    var isLoading: bool
    var error: string
    var runs: seq<Run>

    function State(): SearchState
      reads this
    {
      SearchState(query, movies, isLoading, error, runs)
    }

    /** Mounting: initial state, then the first effect run for `query`. */
    constructor (query: string, clearsErrorOnStart: bool)
      ensures this.clearsErrorOnStart == clearsErrorOnStart
      ensures State() == Mount(query, clearsErrorOnStart)
      ensures Inv(State())
    {
      this.clearsErrorOnStart := clearsErrorOnStart;
      this.query := query;
      movies := [];
      error := "";
      runs := [Run(query, false, false)];
      isLoading := true;
    }

    /** `setQuery(q)`: when the query differs, cleanup aborts the live controller and a new run starts. */
    method SetQuery(q: string)
      modifies this
      ensures State() == QueryChanged(old(State()), q, clearsErrorOnStart)
    {
      if q != query {
        if runs != [] {
          var last := |runs| - 1;
          runs := runs[last := runs[last].(aborted := true)];
        }
        query := q;
        runs := runs + [Run(q, false, false)];
        isLoading := true;
        if clearsErrorOnStart {
          error := "";
        }
      }
    }

    /** Run `i` settles with `outcome`: `try`/`catch`, `finally`, then the short-query guard. */
    method Settle(i: nat, outcome: Outcome)
      requires i < |runs| && !runs[i].settled
      modifies this
      ensures State() == Settled(old(State()), i, outcome)
    {
      var run := runs[i];
      var effective := if run.aborted then Aborted else outcome;
      match effective {
        case Found(search) => movies := search;
        case HttpNotOk => error := NotOkMessage;
        case NotFound => error := NotFoundMessage;
        case Rejected(message) => error := message;
        case Aborted =>
      }
      isLoading := false;
      if Utf16Length(run.query) < MinQueryLength {
        movies := [];
        error := "";
      }
      runs := runs[i := run.(settled := true)];
    }

    /** Unmounting runs the cleanup of the last effect: the live controller is aborted. */
    method Unmount()
      modifies this
      ensures State() == AbortLive(old(State()))
    {
      if runs != [] {
        var last := |runs| - 1;
        runs := runs[last := runs[last].(aborted := true)];
      }
    }
  }
}
