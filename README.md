# Shows store

A model of the shows store of a TV-catalog client (`src/stores/shows.ts`): the
store keeps a list of catalog entries ("shows") fetched page by page from a
remote catalog service, two derived views over that list (a genre filter and a
rating sort), and a detail record for one selected entry, assembled from its
cast, season and episode listings.

- `catalog.dfy` (module `Catalog`): the catalog entry (`ShowItem`), which may
  wrap a nested `show` record; identifier and genres are resolved from the
  nested record when there is one and from the flat fields otherwise. Ratings
  are `Absent` (null), `NullStr` (the string "null") or an integer value.
  A remote call's result is a `Response`: `Ok(data)` or `Err(error)`.
- `sequences.dfy` (module `Sequences`): the order-preserving filter both views
  are built on, with its specification (a subsequence that keeps exactly the
  selected elements with their multiplicities).
- `views.dfy` (module `Views`): the getters `filteredGenre` and `sortedShows`
  as functions of the stored `results` and `selectedGenre`. The sort is a
  stable insertion sort by rating, highest first, and it is proved to be the
  only order with those properties, so it gives the same list as the
  JavaScript stable sort with the store's comparator.
- `cast.dfy` (module `Cast`): the loop that builds the cast line, proved
  against a left-to-right accumulation, which is proved equal to joining the
  names with ", " once the leading empty names are dropped.
- `store.dfy` (module `Store`): the class `ShowsStore` with the store's fields
  and actions. Each listing action runs begin, remote result, then success or
  failure as one step, with the remote result passed in as a parameter; the
  page number the remote call would receive is returned. Two caller methods
  show multi-call behaviour: paging through a listing and retrying after a
  failed "MORE".

Three behaviours of the code the model keeps:
- The page estimate is `Math.round(length / 250)`, which is 0 for fewer than
  125 results; it is not kept at 1 or more.
- Only the exact action "MORE" rolls the page cursor back on failure; any
  other non-"INIT" action advances the cursor and keeps it advanced.
- The cast line is not a plain join: the separator is written only when the
  text built so far is non-empty, so leading empty names add nothing.

## Model

| member | source | states |
|---|---|---|
| Views.FilteredGenre | src/stores/shows.ts:59-77 | For "", null or "all" the view is the results unchanged; otherwise it is an order-preserving subsequence of the results holding exactly the entries whose resolved genres (nested `show` first, flat `genres` otherwise) contain the selected genre, each as often as in the results |
| Views.FilteredGenreAppend | src/stores/shows.ts:68-72 | The filtered view of appended results is the old filtered view followed by the filtered new page |
| Views.InsertPermutes | src/stores/shows.ts:48-57 | Inserting into the sorted list adds exactly the inserted entry |
| Views.InsertKeepsOrder | src/stores/shows.ts:48-57 | Inserting into a list ordered highest rating first keeps it ordered |
| Views.InsertStable | src/stores/shows.ts:48-57 | Insertion puts an entry ahead of all entries of the same rating and moves no other entry of that rating |
| Views.SortPermutes | src/stores/shows.ts:48-57 | The sort is a permutation of its input |
| Views.SortOrders | src/stores/shows.ts:48-57 | The sort's output is ordered by rating, highest first |
| Views.SortStable | src/stores/shows.ts:48-57 | For every rating value, the entries with that rating keep their input order |
| Views.SortedShowsCorrect | src/stores/shows.ts:43-58 | The sorted view holds no entry whose rating is null or "null", holds every rated entry exactly as often as the results do, is ordered highest rating first, and keeps the results' order among equal ratings |
| Views.SortedShowsUnique | src/stores/shows.ts:48-57 | Every list of rated entries that is ordered highest first and keeps the results' order within each rating equals the sorted view, so the view is what any stable sort with the comparator yields |
| Sequences.FilterSpec | src/stores/shows.ts:44-46 | The filter yields a subsequence of its input containing exactly the elements that pass the test, each as often as in the input |
| Cast.CastDetails | src/stores/shows.ts:174-181 | The loop's cast text equals the left-to-right accumulation over the person names, where the separator is added only after non-empty text |
| Cast.CastSummaryIsJoin | src/stores/shows.ts:174-181 | The accumulated text equals the names joined with ", " after the leading empty names are dropped |
| Cast.CastSummaryAllNamed | src/stores/shows.ts:174-181 | When no name is empty the cast text is the names joined with ", ", and an empty cast gives "" |
| Cast.CastSummaryEmpty | src/stores/shows.ts:174-181 | The cast text is empty exactly when every name is empty |
| Store.TotalPagesFor | src/stores/shows.ts:97 | The page estimate is the length divided by 250 rounded to the nearest integer with halves rounded up, so it is 0 exactly when there are fewer than 125 results |
| Store.ShowsStore.constructor | src/stores/shows.ts:21-38 | The initial state: no results, page 1, total pages 1, no error, not loading, empty detail, genre "" |
| Store.ShowsStore.BeginFetch | src/stores/shows.ts:85-92 | "INIT" empties the results and sets the page to 1; any other action increments the page; loading is set |
| Store.ShowsStore.FailFetch | src/stores/shows.ts:98-100 | Only "MORE" decrements the page; the error is recorded |
| Store.ShowsStore.SetTotalPages | src/stores/shows.ts:190-192 | Stores the given page estimate |
| Store.ShowsStore.FetchShows | src/stores/shows.ts:84-104 | Requests page 1 for "INIT" and the next page otherwise. On success the results are the fetched page ("INIT") or the old results followed by it, the page is the requested one, the estimate follows the new length and the error is untouched. On failure the results are empty ("INIT") or unchanged, the page is restored only for "MORE", and the error is set. Loading always ends false |
| Store.ShowsStore.FetchCountryShows | src/stores/shows.ts:105-125 | The same rules as FetchShows; the remote call takes no page number |
| Store.ShowsStore.SearchShows | src/stores/shows.ts:127-147 | As FetchShows, except that a successful search always replaces the results with the fetched page, also for "MORE" |
| Store.ShowsStore.LoadItem | src/stores/shows.ts:172-186 | The detail record holds the entry, the cast text built from the person names, and the given season and episode counts |
| Store.ShowsStore.ResetItem | src/stores/shows.ts:169-171 | The detail record is emptied |
| Store.ShowsStore.GetItem | src/stores/shows.ts:148-164 | The listings are requested with the nested `show.id` if present, else `id`. If all three arrive, the detail record holds the cast text and the numbers of seasons and episodes. If one fails, that failure is returned and the detail record stays empty |
| Store.ShowsStore.LoadConf | src/stores/shows.ts:166-168 | Stores the base URL |
| Store.ShowsStore.ChangeGenre | src/stores/shows.ts:187-189 | Stores the selected genre |
| Store.BrowsePages | src/stores/shows.ts:84-104 | After "INIT" and then "MORE" for each further page, all succeeding, the results are all pages in fetch order and the page cursor equals the number of pages |
| Store.RetryAfterFailure | src/stores/shows.ts:89-100 | A "MORE" that fails and is retried requests the same page both times, and the results end as the two successful pages in order, with the error still recorded |

## Left out

- The remote catalog service (`AppServices.getShows`, `getShowsByCountry`,
  `search`, `getCast`, `getSeasons`, `getEpisodes`) is not part of this model:
  each call is replaced by its outcome, passed in as a parameter. The search
  query only flows into that call and is therefore not a parameter.
- `await` and `Promise.all` interleaving: each action is one atomic step, so
  overlapping fetches and their last-write-wins races are not modelled.
  `loading` is true only inside an action (it is set by `BeginFetch`).
- Store.ShowsStore.GetItem: when several detail listings fail, the failure
  returned is the first in argument order; which rejection `Promise.all`
  reports depends on timing, which is not modelled.
- Store.ShowsStore.LoadItem: the source adds the cast, seasons and episodes
  fields to the caller's entry object; the model stores a new record and does
  not model that aliasing.
- The Pinia `defineStore` wiring and reactivity; the getter `getSelectedGenre`,
  which only returns `selectedGenre`; the getters `filteredGenre` and
  `sortedShows` are `Views.FilteredGenre(results, selectedGenre)` and
  `Views.SortedShows(results)` rather than class members.
- Ratings are integers, not floating-point numbers: only their order is used.
- Names and images of entries are only displayed and are not modelled.
- A null entry in the results (which `filteredGenre` would dereference) and a
  missing `results` array cannot be represented.
- The orphaned doc comment at src/stores/shows.ts:79-81 describes nothing.
