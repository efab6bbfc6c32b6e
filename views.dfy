/** The two derived views of the store (its getters): the genre filter and
    the rating sort.  Both are pure functions of the stored results and leave
    them untouched; the store recomputes them whenever they are read. */
module Views {
  import opened Catalog
  import opened Sequences

  // ----- filteredGenre -----

  /** The selected genre values that mean "no filter": "", null and "all". */
  predicate SelectsAll(selected: Option<string>)
  {
    selected == None || selected == Some("") || selected == Some("all")
  }

  /** The filter's test: the entry's resolved genres contain `genre`. */
  function GenreMatches(genre: string): ShowItem -> bool
  {
    (item: ShowItem) => genre in ItemGenres(item)
  }

  /** The results shown for the selected genre. */
  function FilteredGenre(results: seq<ShowItem>, selected: Option<string>): (r: seq<ShowItem>)
    ensures SelectsAll(selected) ==> r == results
    ensures !SelectsAll(selected) ==>
      && IsSubsequence(r, results)
      && (forall x :: x in r <==> x in results && selected.value in ItemGenres(x))
      && (forall x :: multiset(r)[x] ==
            if selected.value in ItemGenres(x) then multiset(results)[x] else 0)
  {
    if SelectsAll(selected) then results
    else
      FilterSpec(results, GenreMatches(selected.value));
      Filter(results, GenreMatches(selected.value))
  }

  /** The filtered view of appended results is the old filtered view followed
      by the filtered new page, so appending a page never reorders it. */
  lemma FilteredGenreAppend(before: seq<ShowItem>, page: seq<ShowItem>, selected: Option<string>)
    ensures FilteredGenre(before + page, selected)
         == FilteredGenre(before, selected) + FilteredGenre(page, selected)
  {
    if !SelectsAll(selected) {
      FilterAppend(before, page, GenreMatches(selected.value));
    }
  }

  // ----- sortedShows -----

  /** `s` is ordered by rating, highest first. */
  predicate NonIncreasing(s: seq<ShowItem>)
  {
    forall i, j :: 0 <= i < j < |s| ==> RatingKey(s[i]) >= RatingKey(s[j])
  }

  /** The test selecting the entries whose rating is exactly `v`. */
  function HasRating(v: int): ShowItem -> bool
  {
    (item: ShowItem) => item.rating == Val(v)
  }

  /** Inserts `x` into a list ordered highest first, ahead of every entry
      rated no higher: `x` comes from earlier in the input than all of them,
      so ties keep their input order. */
  function InsertByRating(x: ShowItem, sorted: seq<ShowItem>): seq<ShowItem>
  {
    if sorted == [] || RatingKey(sorted[0]) <= RatingKey(x) then [x] + sorted
    else [sorted[0]] + InsertByRating(x, sorted[1..])
  }

  /** A stable sort by rating, highest first. */
  function SortByRating(s: seq<ShowItem>): seq<ShowItem>
  {
    if s == [] then [] else InsertByRating(s[0], SortByRating(s[1..]))
  }

  /** The results with a rating, highest rated first. */
  function SortedShows(results: seq<ShowItem>): seq<ShowItem>
  {
    SortByRating(Filter(results, IsRated))
  }

  lemma {:induction false} InsertPermutes(x: ShowItem, sorted: seq<ShowItem>)
    ensures multiset(InsertByRating(x, sorted)) == multiset{x} + multiset(sorted)
  {
    if !(sorted == [] || RatingKey(sorted[0]) <= RatingKey(x)) {
      InsertPermutes(x, sorted[1..]);
      assert sorted == [sorted[0]] + sorted[1..];
    }
  }

  /** Every entry of the insertion is `x` or an entry of `sorted`. */
  lemma {:induction false} InsertMembers(x: ShowItem, sorted: seq<ShowItem>)
    ensures forall y :: y in InsertByRating(x, sorted) ==> y == x || y in sorted
  {
    if !(sorted == [] || RatingKey(sorted[0]) <= RatingKey(x)) {
      InsertMembers(x, sorted[1..]);
    }
  }

  /** An ordered list stays ordered under a first entry rated at least as
      high as all of it. */
  lemma ConsKeepsOrder(first: ShowItem, rest: seq<ShowItem>)
    requires NonIncreasing(rest)
    requires forall y :: y in rest ==> RatingKey(first) >= RatingKey(y)
    ensures NonIncreasing([first] + rest)
  {
    var r := [first] + rest;
    forall i, j | 0 <= i < j < |r|
      ensures RatingKey(r[i]) >= RatingKey(r[j])
    {
      assert r[j] == rest[j - 1];
      if i > 0 {
        assert r[i] == rest[i - 1];
      }
    }
  }

  lemma {:induction false} InsertKeepsOrder(x: ShowItem, sorted: seq<ShowItem>)
    requires NonIncreasing(sorted)
    ensures NonIncreasing(InsertByRating(x, sorted))
  {
    if sorted == [] || RatingKey(sorted[0]) <= RatingKey(x) {
      ConsKeepsOrder(x, sorted);
    } else {
      assert sorted == [sorted[0]] + sorted[1..];
      InsertKeepsOrder(x, sorted[1..]);
      InsertMembers(x, sorted[1..]);
      ConsKeepsOrder(sorted[0], InsertByRating(x, sorted[1..]));
    }
  }

  /** Insertion only passes entries rated strictly higher than `x`, so among
      the entries of any one rating `x` lands in front, where it started. */
  lemma {:induction false} InsertStable(x: ShowItem, sorted: seq<ShowItem>, v: int)
    ensures Filter(InsertByRating(x, sorted), HasRating(v))
         == (if x.rating == Val(v) then [x] else []) + Filter(sorted, HasRating(v))
  {
    var p := HasRating(v);
    if sorted == [] || RatingKey(sorted[0]) <= RatingKey(x) {
      FilterCons(x, sorted, p);
    } else {
      InsertStable(x, sorted[1..], v);
      FilterCons(sorted[0], InsertByRating(x, sorted[1..]), p);
      FilterCons(sorted[0], sorted[1..], p);
      assert sorted == [sorted[0]] + sorted[1..];
      assert !(p(x) && p(sorted[0]));
    }
  }

  lemma {:induction false} SortPermutes(s: seq<ShowItem>)
    ensures multiset(SortByRating(s)) == multiset(s)
  {
    if s != [] {
      SortPermutes(s[1..]);
      InsertPermutes(s[0], SortByRating(s[1..]));
      assert s == [s[0]] + s[1..];
    }
  }

  lemma {:induction false} SortOrders(s: seq<ShowItem>)
    ensures NonIncreasing(SortByRating(s))
  {
    if s != [] {
      SortOrders(s[1..]);
      InsertKeepsOrder(s[0], SortByRating(s[1..]));
    }
  }

  lemma {:induction false} SortStable(s: seq<ShowItem>, v: int)
    ensures Filter(SortByRating(s), HasRating(v)) == Filter(s, HasRating(v))
  {
    if s != [] {
      SortStable(s[1..], v);
      InsertStable(s[0], SortByRating(s[1..]), v);
    }
  }

  /** What the sorted view promises: no entry without a rating, every rated
      entry exactly as often as in the results, highest rating first, and
      entries of equal rating in their order in the results. */
  lemma SortedShowsCorrect(results: seq<ShowItem>)
    ensures forall x :: x in SortedShows(results) ==> IsRated(x)
    ensures forall x :: multiset(SortedShows(results))[x]
                     == if IsRated(x) then multiset(results)[x] else 0
    ensures NonIncreasing(SortedShows(results))
    ensures forall v :: Filter(SortedShows(results), HasRating(v)) == Filter(results, HasRating(v))
  {
    var rated := Filter(results, IsRated);
    SortPermutes(rated);
    SortOrders(rated);
    forall v
      ensures Filter(SortedShows(results), HasRating(v)) == Filter(results, HasRating(v))
    {
      SortStable(rated, v);
      FilterFilter(results, IsRated, HasRating(v));
    }
    FilterSpec(results, IsRated);
    forall x | x in SortedShows(results)
      ensures IsRated(x)
    {
      assert x in multiset(SortedShows(results));
    }
  }

  /** The entry heading an ordered list is rated at least as high as all. */
  lemma HeadIsHighest(s: seq<ShowItem>, y: ShowItem)
    requires NonIncreasing(s) && s != [] && y in s
    ensures RatingKey(s[0]) >= RatingKey(y)
  {
    var j :| 0 <= j < |s| && s[j] == y;
    if j > 0 {
      assert RatingKey(s[0]) >= RatingKey(s[j]);
    }
  }

  /** The entries of a list rated as its first entry start with that entry. */
  lemma HeadLeadsItsRating(w: seq<ShowItem>)
    requires w != [] && IsRated(w[0])
    ensures Filter(w, HasRating(w[0].rating.score)) != []
    ensures Filter(w, HasRating(w[0].rating.score))[0] == w[0]
  {
  }

  /** If `y` is among the entries rated `v` of an ordered list, the list's
      first entry is rated at least as high as `y`. */
  lemma HeadOutranks(s: seq<ShowItem>, y: ShowItem, v: int)
    requires NonIncreasing(s) && s != []
    requires y in Filter(s, HasRating(v))
    ensures RatingKey(s[0]) >= RatingKey(y)
  {
    FilterSpec(s, HasRating(v));
    HeadIsHighest(s, y);
  }

  /** Two rated ordered lists that agree on the order within every rating
      start with the same entry. */
  lemma HeadsAgree(t: seq<ShowItem>, u: seq<ShowItem>)
    requires t != [] && u != [] && IsRated(t[0]) && IsRated(u[0])
    requires NonIncreasing(t) && NonIncreasing(u)
    requires forall v :: Filter(t, HasRating(v)) == Filter(u, HasRating(v))
    ensures t[0] == u[0]
  {
    var ka, kb := t[0].rating.score, u[0].rating.score;
    HeadLeadsItsRating(t);
    HeadLeadsItsRating(u);
    var ft, fu := Filter(t, HasRating(ka)), Filter(u, HasRating(kb));
    assert ft == Filter(u, HasRating(ka));
    assert fu == Filter(t, HasRating(kb));
    HeadOutranks(u, ft[0], ka);
    HeadOutranks(t, fu[0], kb);
  }

  /** Removing a common first entry keeps the agreement within a rating. */
  lemma TailAgrees(t: seq<ShowItem>, u: seq<ShowItem>, v: int)
    requires t != [] && u != [] && t[0] == u[0]
    requires Filter(t, HasRating(v)) == Filter(u, HasRating(v))
    ensures Filter(t[1..], HasRating(v)) == Filter(u[1..], HasRating(v))
  {
    var p := HasRating(v);
    if p(t[0]) {
      assert Filter(t, p)[1..] == Filter(t[1..], p);
      assert Filter(u, p)[1..] == Filter(u[1..], p);
    }
  }

  lemma TailKeepsOrder(s: seq<ShowItem>)
    requires s != [] && NonIncreasing(s)
    ensures NonIncreasing(s[1..])
  {
    forall i, j | 0 <= i < j < |s[1..]|
      ensures RatingKey(s[1..][i]) >= RatingKey(s[1..][j])
    {
      assert s[1..][i] == s[i + 1] && s[1..][j] == s[j + 1];
    }
  }

  /** Two rated lists, both ordered highest first, that agree on the order of
      the entries of every single rating are equal. */
  lemma {:induction false} OrderedByRatingUnique(t: seq<ShowItem>, u: seq<ShowItem>)
    requires forall x :: x in t ==> IsRated(x)
    requires forall x :: x in u ==> IsRated(x)
    requires NonIncreasing(t) && NonIncreasing(u)
    requires forall v :: Filter(t, HasRating(v)) == Filter(u, HasRating(v))
    ensures t == u
    decreases |t|
  {
    if t != [] && u != [] {
      assert t[0] in t && u[0] in u;
      HeadsAgree(t, u);
      forall v
        ensures Filter(t[1..], HasRating(v)) == Filter(u[1..], HasRating(v))
      {
        TailAgrees(t, u, v);
      }
      TailKeepsOrder(t);
      TailKeepsOrder(u);
      assert forall x :: x in t[1..] ==> x in t;
      assert forall x :: x in u[1..] ==> x in u;
      OrderedByRatingUnique(t[1..], u[1..]);
      assert t == [t[0]] + t[1..] && u == [u[0]] + u[1..];
    } else if t != [] {
      assert t[0] in t;
      HeadLeadsItsRating(t);
      assert false;
    } else if u != [] {
      assert u[0] in u;
      HeadLeadsItsRating(u);
      assert false;
    }
  }

  /** A stable sort by rating, highest first, has exactly one outcome: any
      list of the rated results that is ordered highest first and keeps the
      results' order among equal ratings is the sorted view. */
  lemma SortedShowsUnique(results: seq<ShowItem>, t: seq<ShowItem>)
    requires forall x :: x in t ==> IsRated(x)
    requires NonIncreasing(t)
    requires forall v :: Filter(t, HasRating(v)) == Filter(results, HasRating(v))
    ensures t == SortedShows(results)
  {
    SortedShowsCorrect(results);
    OrderedByRatingUnique(t, SortedShows(results));
  }
}
