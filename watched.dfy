/**
 * The watched list: its entries, the two updaters the app passes to its state
 * setter (append and delete-by-id), the two lookups the detail panel makes
 * (`isWatched`, `watchedRating`) and the `average` used by the summary.
 */
module Watched {
  import opened Wrappers
  import opened JsText

  /**
   * One entry of the watched list. `countRatingDecisions` is absent in the
   * entries built by the single-file version of the app.
   */
  datatype WatchedEntry = WatchedEntry(
    imdbID: string,
    title: Option<string>,
    poster: Option<string>,
    imdbRating: Number,
    runtime: Number,
    userRating: Option<int>,
    countRatingDecisions: Option<nat>)

  /** The updater `watched => [...watched, movie]`. */
  function Append(watched: seq<WatchedEntry>, movie: WatchedEntry): (r: seq<WatchedEntry>)
    ensures |r| == |watched| + 1
    ensures r[..|watched|] == watched
    ensures r[|watched|] == movie
  {
    watched + [movie]
  }

  /** The updater `watched => watched.filter(movie => movie.imdbID !== id)`. */
  function DeleteById(watched: seq<WatchedEntry>, id: string): (r: seq<WatchedEntry>)
    ensures |r| <= |watched|
    ensures forall e :: e in r <==> e in watched && e.imdbID != id
  {
    if watched == [] then []
    else (if watched[0].imdbID != id then [watched[0]] else []) + DeleteById(watched[1..], id)
  }

  /** `watched.map(movie => movie.imdbID)` */
  function Ids(watched: seq<WatchedEntry>): (ids: seq<string>)
    ensures |ids| == |watched|
    ensures forall i :: 0 <= i < |watched| ==> ids[i] == watched[i].imdbID
  {
    seq(|watched|, i requires 0 <= i < |watched| => watched[i].imdbID)
  }

  /** `watched.map(movie => movie.imdbID).includes(selectedID)` */
  predicate IsWatched(watched: seq<WatchedEntry>, selectedID: string)
    ensures IsWatched(watched, selectedID) <==> FindWatched(watched, selectedID).Some?
  {
    selectedID in Ids(watched)
  }

  /** `isWatched` holds exactly when some entry carries the selected id. */
  lemma IsWatchedIff(watched: seq<WatchedEntry>, selectedID: string)
    ensures IsWatched(watched, selectedID) <==>
            exists i :: 0 <= i < |watched| && watched[i].imdbID == selectedID
  {
  }

  /** Whether `i` is the position of the first entry whose id is `id`. */
  predicate IsFirstWithId(watched: seq<WatchedEntry>, id: string, i: int)
  {
    0 <= i < |watched| && watched[i].imdbID == id &&
    forall j :: 0 <= j < i ==> watched[j].imdbID != id
  }

  /** `watched.find(movie => movie.imdbID === selectedID)` */
  function FindWatched(watched: seq<WatchedEntry>, selectedID: string): (r: Option<WatchedEntry>)
    ensures r.None? <==> forall i :: 0 <= i < |watched| ==> watched[i].imdbID != selectedID
    ensures r.Some? ==> exists i :: IsFirstWithId(watched, selectedID, i) && watched[i] == r.value
  {
    if watched == [] then None
    else if watched[0].imdbID == selectedID then
      assert IsFirstWithId(watched, selectedID, 0);
      Some(watched[0])
    else
      var r := FindWatched(watched[1..], selectedID);
      assert r.Some? ==> exists i :: IsFirstWithId(watched, selectedID, i) && watched[i] == r.value by {
        if r.Some? {
          var i :| IsFirstWithId(watched[1..], selectedID, i) && watched[1..][i] == r.value;
          assert IsFirstWithId(watched, selectedID, i + 1);
        }
      }
      r
  }

  /**
   * `watched.find(movie => movie.imdbID === selectedID)?.userRating`: absent
   * when nothing matches, else the rating stored in the first match.
   */
  function WatchedRating(watched: seq<WatchedEntry>, selectedID: string): (r: Option<Option<int>>)
    ensures r.None? <==> !IsWatched(watched, selectedID)
    ensures r.Some? ==> exists i :: IsFirstWithId(watched, selectedID, i) && r.value == watched[i].userRating
  {
    IsWatchedIff(watched, selectedID);
    match FindWatched(watched, selectedID)
    case None => None
    case Some(entry) => Some(entry.userRating)
  }

  /** At most one entry per id. */
  predicate UniqueIds(watched: seq<WatchedEntry>)
  {
    forall i, j :: 0 <= i < j < |watched| ==> watched[i].imdbID != watched[j].imdbID
  }

  /** Deleting from a concatenation deletes from each part: the kept entries keep their order. */
  lemma {:induction false} DeleteDistributes(a: seq<WatchedEntry>, b: seq<WatchedEntry>, id: string)
    ensures DeleteById(a + b, id) == DeleteById(a, id) + DeleteById(b, id)
  {
    if a != [] {
      assert (a + b)[1..] == a[1..] + b;
      DeleteDistributes(a[1..], b, id);
    } else {
      assert a + b == b;
    }
  }

  /** Exactly the entries with the id are dropped; every other entry keeps its multiplicity. */
  lemma {:induction false} DeleteMultiplicity(watched: seq<WatchedEntry>, id: string, e: WatchedEntry)
    ensures multiset(DeleteById(watched, id))[e] == if e.imdbID == id then 0 else multiset(watched)[e]
  {
    if watched != [] {
      DeleteMultiplicity(watched[1..], id, e);
      assert watched == [watched[0]] + watched[1..];
    }
  }

  /** Deleting an id is the identity exactly when no entry carries that id. */
  lemma {:induction false} DeleteIsIdentityIff(watched: seq<WatchedEntry>, id: string)
    ensures DeleteById(watched, id) == watched <==> !IsWatched(watched, id)
  {
    IsWatchedIff(watched, id);
    if watched != [] {
      DeleteIsIdentityIff(watched[1..], id);
      if watched[0].imdbID == id {
        assert |DeleteById(watched, id)| < |watched|;
      } else {
        assert IsWatched(watched[1..], id) ==> IsWatched(watched, id) by {
          IsWatchedIff(watched[1..], id);
          if IsWatched(watched[1..], id) {
            var i :| 0 <= i < |watched[1..]| && watched[1..][i].imdbID == id;
            assert watched[i + 1].imdbID == id;
          }
        }
      }
    }
  }

  /** Deleting twice is deleting once. */
  lemma DeleteIdempotent(watched: seq<WatchedEntry>, id: string)
    ensures DeleteById(DeleteById(watched, id), id) == DeleteById(watched, id)
  {
    var r := DeleteById(watched, id);
    IsWatchedIff(r, id);
    assert forall i :: 0 <= i < |r| ==> r[i] in r;
    DeleteIsIdentityIff(r, id);
  }

  /** Deleting two ids in either order gives the same list. */
  lemma {:induction false} DeleteCommutes(watched: seq<WatchedEntry>, a: string, b: string)
    ensures DeleteById(DeleteById(watched, a), b) == DeleteById(DeleteById(watched, b), a)
  {
    if watched != [] {
      var x, rest := watched[0], watched[1..];
      DeleteCommutes(rest, a, b);
      DeleteDistributes(if x.imdbID != a then [x] else [], DeleteById(rest, a), b);
      DeleteDistributes(if x.imdbID != b then [x] else [], DeleteById(rest, b), a);
    }
  }

  /** Deleting the id of a just-appended entry undoes the append when the id was new. */
  lemma DeleteUndoesAppend(watched: seq<WatchedEntry>, movie: WatchedEntry)
    ensures DeleteById(Append(watched, movie), movie.imdbID) == DeleteById(watched, movie.imdbID)
    ensures !IsWatched(watched, movie.imdbID) ==> DeleteById(Append(watched, movie), movie.imdbID) == watched
  {
    DeleteDistributes(watched, [movie], movie.imdbID);
    DeleteIsIdentityIff(watched, movie.imdbID);
  }

  /** After appending an entry, its id is watched and its rating is found unless an earlier entry shadows it. */
  lemma AppendMakesWatched(watched: seq<WatchedEntry>, movie: WatchedEntry)
    ensures IsWatched(Append(watched, movie), movie.imdbID)
    ensures !IsWatched(watched, movie.imdbID) ==>
            WatchedRating(Append(watched, movie), movie.imdbID) == Some(movie.userRating)
  {
  }

  /** After deleting an id, it is no longer watched and no rating is found for it. */
  lemma DeleteMakesUnwatched(watched: seq<WatchedEntry>, id: string)
    ensures !IsWatched(DeleteById(watched, id), id)
    ensures WatchedRating(DeleteById(watched, id), id) == None
  {
  }

  /** The exact sum, for the reference definition of the average. */
  function Sum(xs: seq<real>): real
  {
    if xs == [] then 0.0 else xs[0] + Sum(xs[1..])
  }

  /** The fold `arr.reduce((acc, cur) => acc + cur / arr.length, acc)`, with `n` the array length. */
  function ReduceAverage(xs: seq<real>, n: real, acc: real): (r: real)
    requires xs != [] ==> n != 0.0
    ensures xs == [] ==> r == acc
    ensures n > 0.0 && (forall i :: 0 <= i < |xs| ==> xs[i] >= 0.0) ==> r >= acc
  {
    if xs == [] then acc else ReduceAverage(xs[1..], n, acc + xs[0] / n)
  }

  lemma {:induction false} ReduceAverageIsSumOver(xs: seq<real>, n: real, acc: real)
    requires n != 0.0
    ensures ReduceAverage(xs, n, acc) == acc + Sum(xs) / n
  {
    if xs != [] {
      ReduceAverageIsSumOver(xs[1..], n, acc + xs[0] / n);
      assert (xs[0] + Sum(xs[1..])) / n == xs[0] / n + Sum(xs[1..]) / n;
    }
  }

  /**
   * `average(arr)`: the reduce adds `cur / arr.length` for every element,
   * starting from 0, so an empty array averages to 0.
   */
  function Average(xs: seq<real>): (a: real)
    ensures xs == [] ==> a == 0.0
    ensures xs != [] ==> a == Sum(xs) / |xs| as real
  {
    assert xs != [] ==> ReduceAverage(xs, |xs| as real, 0.0) == Sum(xs) / |xs| as real by {
      if xs != [] {
        ReduceAverageIsSumOver(xs, |xs| as real, 0.0);
      }
    }
    ReduceAverage(xs, |xs| as real, 0.0)
  }

  lemma {:induction false} SumBounds(xs: seq<real>, lo: real, hi: real)
    requires forall i :: 0 <= i < |xs| ==> lo <= xs[i] <= hi
    ensures |xs| as real * lo <= Sum(xs) <= |xs| as real * hi
  {
    if xs != [] {
      SumBounds(xs[1..], lo, hi);
    }
  }

  lemma QuotientBounds(total: real, n: real, lo: real, hi: real)
    requires n > 0.0 && n * lo <= total <= n * hi
    ensures lo <= total / n <= hi
  {
    var a := total / n;
    assert (a - lo) * n == total - n * lo;
    assert (hi - a) * n == n * hi - total;
  }

  /** The average of values within [lo, hi] lies within [lo, hi] (ratings 1-10 average to 1-10). */
  lemma AverageBounds(xs: seq<real>, lo: real, hi: real)
    requires xs != []
    requires forall i :: 0 <= i < |xs| ==> lo <= xs[i] <= hi
    ensures lo <= Average(xs) <= hi
  {
    SumBounds(xs, lo, hi);
    QuotientBounds(Sum(xs), |xs| as real, lo, hi);
  }

  /** The summary of two entries rated 7.5 and 8.0 on IMDb and 8 and 6 by the user. */
  lemma AverageOfTwoEntries()
    ensures Average([7.5, 8.0]) == 7.75
    ensures Average([8.0, 6.0]) == 7.0
  {
  }
}
