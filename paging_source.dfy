/** `GithubPagingSource`: the network-only paging source. It loads a page
    by its number and derives the neighbouring page numbers, correcting for
    an initial load larger than one page. */
module PagingSource {
  import opened Types
  import Repository

  /** The requested page number (absent for the first load) and the number of items wanted. */
  datatype LoadParams = LoadParams(key: Option<int>, loadSize: int)

  datatype Page = Page(data: seq<Repo>, prevKey: Option<int>, nextKey: Option<int>)

  datatype LoadResult = LoadPage(page: Page) | LoadError(error: FetchError)

  /** What `getRefreshKey` reads from `PagingState`: the anchor position and
      the page the paging library reports as closest to it. */
  datatype SourceState = SourceState(anchorPosition: Option<int>, closestPageToAnchor: Option<Page>)

  /** The page number a load asks for. */
  function Position(params: LoadParams): int
  {
    OrElse(params.key, GithubStartingPageIndex)
  }

  /** `load`. */
  function Load(query: string, params: LoadParams, service: SearchService): (r: LoadResult)
    ensures var outcome := service(SearchRequest(query + InQualifier, Position(params), params.loadSize));
            && (r.LoadError? <==> outcome.Failed?)
            && (r.LoadError? ==> r.error == outcome.error)
            && (r.LoadPage? ==> r.page.data == outcome.response.items)
            && (r.LoadPage? ==> (r.page.prevKey.None? <==> Position(params) == GithubStartingPageIndex))
            && (r.LoadPage? ==> (r.page.nextKey.None? <==> r.page.data == []))
  {
    var position := Position(params);
    match service(SearchRequest(query + InQualifier, position, params.loadSize))
    case Failed(e) => LoadError(e)
    case Fetched(response) =>
      var repos := response.items;
      var nextKey := if repos == [] then None
                     else Some(position + TruncDiv(params.loadSize, Repository.NetworkPageSize));
      LoadPage(Page(repos, if position == GithubStartingPageIndex then None else Some(position - 1), nextKey))
  }

  /** `getRefreshKey`. */
  function GetRefreshKey(state: SourceState): (r: Option<int>)
    ensures state.anchorPosition.None? ==> r.None?
    ensures r.Some? ==> && state.closestPageToAnchor.Some?
                        && (state.closestPageToAnchor.value.prevKey == Some(r.value - 1)
                            || state.closestPageToAnchor.value.nextKey == Some(r.value + 1))
  {
    if state.anchorPosition.None? || state.closestPageToAnchor.None? then None
    else
      var page := state.closestPageToAnchor.value;
      if page.prevKey.Some? then Some(page.prevKey.value + 1)
      else if page.nextKey.Some? then Some(page.nextKey.value - 1)
      else None
  }

  /** A load asks the service for page `key` (page 1 when there is none) with
      the requested number of items, and either fails with the service's
      error or returns the fetched items, in order, with the page before it
      (none before page 1) and the page after it (none after an empty page). */
  lemma LoadContract(query: string, params: LoadParams, service: SearchService)
    requires params.loadSize >= 0
    ensures var position := if params.key.Some? then params.key.value else 1;
            match service(SearchRequest(query + InQualifier, position, params.loadSize))
            case Failed(e) => Load(query, params, service) == LoadError(e)
            case Fetched(response) =>
              var r := Load(query, params, service);
              && r.LoadPage?
              && r.page.data == response.items
              && (r.page.prevKey.None? <==> position == 1)
              && (r.page.prevKey.Some? ==> r.page.prevKey.value == position - 1)
              && (r.page.nextKey.None? <==> response.items == [])
              && (r.page.nextKey.Some? ==> r.page.nextKey.value == position + params.loadSize / 30)
  {
  }

  /** With a load of one page, the next page is simply the following one. */
  lemma SteadyLoadAdvancesOnePage(query: string, key: Option<int>, service: SearchService)
    ensures var r := Load(query, LoadParams(key, Repository.NetworkPageSize), service);
            r.LoadPage? && r.page.data != [] ==> r.page.nextKey == Some(Position(LoadParams(key, 30)) + 1)
  {
  }

  /** The first item a request for page `page` of `perPage` items starts at. */
  function FirstIndex(page: int, perPage: int): int
  {
    (page - 1) * perPage
  }

  /** No duplicates and no gap: after a non-empty first load of any whole
      number of pages, or after any one-page load, the next one-page load
      starts right after the last item this one asked for. */
  lemma NextLoadIsContiguous(query: string, params: LoadParams, service: SearchService)
    requires params.loadSize > 0
    requires (params.key.None? && params.loadSize % Repository.NetworkPageSize == 0)
             || params.loadSize == Repository.NetworkPageSize
    requires var r := Load(query, params, service); r.LoadPage? && r.page.data != []
    ensures var r := Load(query, params, service);
            FirstIndex(r.page.nextKey.value, Repository.NetworkPageSize)
            == FirstIndex(Position(params), params.loadSize) + params.loadSize
  {
  }

  /** The first load with the repository's configuration asks for 90 items
      and continues at page 4, not page 2. */
  lemma OversizedFirstLoadSkipsToPageFour(query: string, service: SearchService)
    ensures var params := LoadParams(None, Repository.MakePagingConfig(Repository.NetworkPageSize, false).initialLoadSize);
            var r := Load(query, params, service);
            params.loadSize == 90 && (r.LoadPage? && r.page.data != [] ==> r.page.nextKey == Some(4))
  {
  }

  /** The correction by `loadSize / NETWORK_PAGE_SIZE` is right only after
      the first, unkeyed load. A keyed load of the initial size (a refresh
      at page `p` of 3 * 30 items, covering items 90 * (p - 1) up to
      90 * p - 1) continues at page `p + 3` of 30 items, which starts before
      the end of what it returned. At page 2 that append fetches again the
      items 120 to 149, which the refresh already returned. From page 3 on
      it lies wholly before the refresh's items, so it repeats none of them
      but appends earlier items after them: at page 3 the refresh covers
      items 180 to 269 and the append, page 6, items 150 to 179. */
  lemma KeyedInitialLoadRepeatsItems(query: string, p: int, service: SearchService)
    requires p >= 2
    requires var params := LoadParams(Some(p), Repository.MakePagingConfig(Repository.NetworkPageSize, false).initialLoadSize);
             var r := Load(query, params, service); r.LoadPage? && r.page.data != []
    ensures var params := LoadParams(Some(p), Repository.MakePagingConfig(Repository.NetworkPageSize, false).initialLoadSize);
            var next := Load(query, params, service).page.nextKey.value;
            && next == p + 3
            && FirstIndex(next, Repository.NetworkPageSize) < FirstIndex(p, params.loadSize) + params.loadSize
            && (p == 2 ==> FirstIndex(p, params.loadSize) <= FirstIndex(next, Repository.NetworkPageSize))
            && (p >= 3 ==> FirstIndex(next, Repository.NetworkPageSize) + Repository.NetworkPageSize
                           <= FirstIndex(p, params.loadSize))
  {
    var config := Repository.MakePagingConfig(Repository.NetworkPageSize, false);
    assert config.initialLoadSize == 90;
    assert TruncDiv(90, Repository.NetworkPageSize) == 3;
  }

  /** The case above at page 2: the refresh covers items 90 to 179 and the
      next append starts at item 120. */
  lemma RefreshAtPageTwoThenAppendRepeats(query: string, service: SearchService)
    requires var r := Load(query, LoadParams(Some(2), 90), service); r.LoadPage? && r.page.data != []
    ensures var r := Load(query, LoadParams(Some(2), 90), service);
            && r.page.nextKey == Some(5)
            && FirstIndex(2, 90) == 90
            && FirstIndex(5, Repository.NetworkPageSize) == 120
  {
  }

  /** No anchor, or no loaded page near it, gives no refresh key. */
  lemma NoAnchorNoRefreshKey(state: SourceState)
    requires state.anchorPosition.None? || state.closestPageToAnchor.None?
    ensures GetRefreshKey(state) == None
  {
  }

  /** Otherwise the refresh key is the page after the closest page's previous
      page, else the page before its next page, else none. */
  lemma RefreshKeyFromClosestPage(state: SourceState)
    requires state.anchorPosition.Some? && state.closestPageToAnchor.Some?
    ensures var page := state.closestPageToAnchor.value;
            GetRefreshKey(state)
            == if page.prevKey.Some? then Some(page.prevKey.value + 1)
               else if page.nextKey.Some? then Some(page.nextKey.value - 1)
               else None
  {
  }

  /** A refresh anchored on a page this source loaded at page number `p`
      gives back the page number `p`, except for page 1, where the key is
      derived from the next page and is `loadSize / 30` (3 after the first
      load of 90 items). */
  lemma RefreshKeyOfLoadedPage(query: string, params: LoadParams, service: SearchService, anchor: int)
    requires params.loadSize > 0
    requires var r := Load(query, params, service); r.LoadPage? && r.page.data != []
    ensures var r := Load(query, params, service);
            var key := GetRefreshKey(SourceState(Some(anchor), Some(r.page)));
            && (Position(params) != 1 ==> key == Some(Position(params)))
            && (Position(params) == 1 ==> key == Some(params.loadSize / 30))
  {
  }

  /** The refresh that uses that key loads the initial size, 3 * 30 items,
      at that page number, so it does not load the items the user saw: for a
      page of 30 items at page `p` >= 2 (items 30 * (p - 1) to 30 * p - 1) it
      starts at item 90 * (p - 1), past all of them, and after the first load
      of 90 items (items 0 to 89) it starts at item 180. */
  lemma RefreshLoadsOtherItems(query: string, params: LoadParams, service: SearchService, anchor: int)
    requires || (params.key.Some? && params.key.value >= 2 && params.loadSize == Repository.NetworkPageSize)
             || (params.key.None? && params.loadSize == 90)
    requires var r := Load(query, params, service); r.LoadPage? && r.page.data != []
    ensures var r := Load(query, params, service);
            var key := GetRefreshKey(SourceState(Some(anchor), Some(r.page)));
            var refreshSize := Repository.MakePagingConfig(Repository.NetworkPageSize, false).initialLoadSize;
            && key.Some?
            && FirstIndex(key.value, refreshSize) >= FirstIndex(Position(params), params.loadSize) + params.loadSize
  {
    RefreshKeyOfLoadedPage(query, params, service, anchor);
    assert Repository.MakePagingConfig(Repository.NetworkPageSize, false).initialLoadSize == 90;
  }
}
