/** The shows store: its state fields and its actions.

    Each action runs in three phases, begin, the remote call and then success
    or failure, and is modelled as one atomic step.  The remote call is
    replaced by its outcome, passed in as a parameter. Where the call takes
    the page cursor as an argument, the action returns the page it asked for. */
module Store {
  import opened Catalog
  import opened Cast

  /** The detail record shown for a selected entry; `NoItem` is the empty
      object the store holds before and while a detail is fetched. */
  datatype ItemInfo =
    | NoItem
    | ItemDetail(info: ShowItem, cast: string, seasons: nat, episodes: nat)

  /** Season and episode records; only their number is kept. */
  datatype Season = Season(id: string)
  datatype Episode = Episode(id: string)

  /** The page estimate the store records after a listing arrives:
      `count / 250` rounded to the nearest integer, halves rounded up. */
  function TotalPagesFor(count: nat): (pages: nat)
    ensures 250 * pages - 125 <= count < 250 * pages + 125
    ensures count < 125 <==> pages == 0
  {
    (count + 125) / 250
  }

  /** All pages of a listing, in the order they were fetched. */
  function Concat(pages: seq<seq<ShowItem>>): seq<ShowItem>
  {
    if pages == [] then []
    else Concat(pages[..|pages| - 1]) + pages[|pages| - 1]
  }

  class ShowsStore {
    var baseUrl: string
    var itemInfo: ItemInfo
    var selectedGenre: Option<string>
    var results: seq<ShowItem>
    var loading: bool
    var page: int
    var totalPages: int
    var error: Option<FetchError>

    /** Between actions the page cursor is at least 1 and nothing loads. */
    ghost predicate Valid()
      reads this
    {
      page >= 1 && !loading
    }

    constructor ()
      ensures Valid()
      ensures baseUrl == "" && itemInfo == NoItem && selectedGenre == Some("")
      ensures results == [] && page == 1 && totalPages == 1 && error == None
    {
      baseUrl := "";
      itemInfo := NoItem;
      selectedGenre := Some("");
      results := [];
      loading := false;
      page := 1;
      totalPages := 1;
      error := None;
    }

    /** Begin phase of the listing actions: "INIT" clears the results and
        rewinds the cursor to 1, any other action advances the cursor. */
    method BeginFetch(action: string)
      modifies this`results, this`page, this`loading
      ensures loading
      ensures action == "INIT" ==> results == [] && page == 1
      ensures action != "INIT" ==> results == old(results) && page == old(page) + 1
    {
      if action == "INIT" {
        results := [];
        page := 1;
        loading := true;
      } else {
        page := page + 1;
        loading := true;
      }
    }

    /** Failure phase of the listing actions: only "MORE" rolls the cursor
        back; the error is recorded. */
    method FailFetch(action: string, e: FetchError)
      modifies this`page, this`error
      ensures page == if action == "MORE" then old(page) - 1 else old(page)
      ensures error == Some(e)
    {
      if action == "MORE" {
        page := page - 1;
      }
      error := Some(e);
    }

    method SetTotalPages(total: int)
      modifies this`totalPages
      ensures totalPages == total
    {
      totalPages := total;
    }

    /** The default listing: "INIT" replaces the results with the fetched
        page, any other action appends it. */
    method FetchShows(action: string, response: Response<ShowItem>) returns (requested: int)
      requires Valid()
      modifies this
      ensures Valid()
      ensures requested == if action == "INIT" then 1 else old(page) + 1
      ensures response.Ok? ==>
        && results == (if action == "INIT" then response.data else old(results) + response.data)
        && page == requested
        && totalPages == TotalPagesFor(|results|)
        && error == old(error)
      ensures response.Err? ==>
        && results == (if action == "INIT" then [] else old(results))
        && page == (if action == "MORE" then old(page) else requested)
        && totalPages == old(totalPages)
        && error == Some(response.error)
      ensures baseUrl == old(baseUrl) && itemInfo == old(itemInfo)
      ensures selectedGenre == old(selectedGenre)
    {
      BeginFetch(action);
      requested := page;
      match response {
        case Ok(data) =>
          results := if action == "INIT" then data else results + data;
          SetTotalPages(TotalPagesFor(|results|));
        case Err(e) =>
          FailFetch(action, e);
      }
      loading := false;
    }

    /** The country listing: the same rules as the default listing; the
        remote call takes no page number although the cursor still moves. */
    method FetchCountryShows(action: string, response: Response<ShowItem>)
      requires Valid()
      modifies this
      ensures Valid()
      ensures response.Ok? ==>
        && results == (if action == "INIT" then response.data else old(results) + response.data)
        && page == (if action == "INIT" then 1 else old(page) + 1)
        && totalPages == TotalPagesFor(|results|)
        && error == old(error)
      ensures response.Err? ==>
        && results == (if action == "INIT" then [] else old(results))
        && page == (if action == "INIT" then 1 else if action == "MORE" then old(page) else old(page) + 1)
        && totalPages == old(totalPages)
        && error == Some(response.error)
      ensures baseUrl == old(baseUrl) && itemInfo == old(itemInfo)
      ensures selectedGenre == old(selectedGenre)
    {
      BeginFetch(action);
      match response {
        case Ok(data) =>
          results := if action == "INIT" then data else results + data;
          SetTotalPages(TotalPagesFor(|results|));
        case Err(e) =>
          FailFetch(action, e);
      }
      loading := false;
    }

    /** The search: a successful search always replaces the results, also
        for "MORE", while the cursor moves as in the listings. */
    method SearchShows(action: string, response: Response<ShowItem>) returns (requested: int)
      requires Valid()
      modifies this
      ensures Valid()
      ensures requested == if action == "INIT" then 1 else old(page) + 1
      ensures response.Ok? ==>
        && results == response.data
        && page == requested
        && totalPages == TotalPagesFor(|results|)
        && error == old(error)
      ensures response.Err? ==>
        && results == (if action == "INIT" then [] else old(results))
        && page == (if action == "MORE" then old(page) else requested)
        && totalPages == old(totalPages)
        && error == Some(response.error)
      ensures baseUrl == old(baseUrl) && itemInfo == old(itemInfo)
      ensures selectedGenre == old(selectedGenre)
    {
      BeginFetch(action);
      requested := page;
      match response {
        case Ok(data) =>
          results := data;
          SetTotalPages(TotalPagesFor(|results|));
        case Err(e) =>
          FailFetch(action, e);
      }
      loading := false;
    }

    /** Builds and stores the detail record from the fetched parts. */
    method LoadItem(info: ShowItem, cast: seq<CastMember>, seasons: nat, episodes: nat)
      modifies this`itemInfo
      ensures itemInfo == ItemDetail(info, CastSummary(Names(cast)), seasons, episodes)
    {
      var castDetails := CastDetails(cast);
      itemInfo := ItemDetail(info, castDetails, seasons, episodes);
    }

    method ResetItem()
      modifies this`itemInfo
      ensures itemInfo == NoItem
    {
      itemInfo := NoItem;
    }

    /** Selects an entry for the detail view.  The record is emptied first;
        the three listings are fetched with the resolved identifier and
        awaited together, and a failing one fails the whole action: the
        failure is returned (the first in argument order) and the record
        stays empty. */
    method GetItem(item: ShowItem, castResponse: Response<CastMember>,
                   seasonsResponse: Response<Season>, episodesResponse: Response<Episode>)
      returns (requestedId: string, failure: Option<FetchError>)
      modifies this`itemInfo
      ensures requestedId == ItemId(item)
      ensures failure ==
        if castResponse.Err? then Some(castResponse.error)
        else if seasonsResponse.Err? then Some(seasonsResponse.error)
        else if episodesResponse.Err? then Some(episodesResponse.error)
        else None
      ensures failure == None ==>
        itemInfo == ItemDetail(item, CastSummary(Names(castResponse.data)),
                               |seasonsResponse.data|, |episodesResponse.data|)
      ensures failure != None ==> itemInfo == NoItem
    {
      ResetItem();
      requestedId := ItemId(item);
      if castResponse.Err? {
        failure := Some(castResponse.error);
      } else if seasonsResponse.Err? {
        failure := Some(seasonsResponse.error);
      } else if episodesResponse.Err? {
        failure := Some(episodesResponse.error);
      } else {
        failure := None;
        LoadItem(item, castResponse.data, |seasonsResponse.data|, |episodesResponse.data|);
      }
    }

    method LoadConf(url: string)
      modifies this`baseUrl
      ensures baseUrl == url
    {
      baseUrl := url;
    }

    method ChangeGenre(value: string)
      modifies this`selectedGenre
      ensures selectedGenre == Some(value)
    {
      selectedGenre := Some(value);
    }
  }

  /** A caller that loads a listing page by page, "INIT" and then "MORE" for
      every further page, all fetches succeeding: the results are all pages
      in the order they were fetched, and the cursor is on the last page. */
  method BrowsePages(pages: seq<seq<ShowItem>>) returns (shown: seq<ShowItem>, cursor: int)
    requires |pages| >= 1
    ensures shown == Concat(pages)
    ensures cursor == |pages|
  {
    var store := new ShowsStore();
    var _ := store.FetchShows("INIT", Ok(pages[0]));
    assert pages[..1] == [pages[0]];
    var k := 1;
    while k < |pages|
      invariant 1 <= k <= |pages|
      invariant store.Valid()
      invariant store.results == Concat(pages[..k])
      invariant store.page == k
    {
      var _ := store.FetchShows("MORE", Ok(pages[k]));
      assert pages[..k + 1][..k] == pages[..k];
      k := k + 1;
    }
    assert pages[..k] == pages;
    shown, cursor := store.results, store.page;
  }

  /** A caller whose "MORE" fetch fails and who retries: the retry asks for
      the same page as the failed fetch, and the results are as if the
      failure had not happened. */
  method RetryAfterFailure(first: seq<ShowItem>, second: seq<ShowItem>, e: FetchError)
    returns (failedRequest: int, retryRequest: int, shown: seq<ShowItem>, lastError: Option<FetchError>)
    ensures failedRequest == 2 && retryRequest == 2
    ensures shown == first + second
    ensures lastError == Some(e)
  {
    var store := new ShowsStore();
    var _ := store.FetchShows("INIT", Ok(first));
    failedRequest := store.FetchShows("MORE", Err(e));
    retryRequest := store.FetchShows("MORE", Ok(second));
    shown, lastError := store.results, store.error;
  }
}
