# GithubPaging: a verified model of the paging logic

GithubPaging is an Android sample. It searches GitHub repositories by name and shows the results in a paged list. The list is backed by a local Room database, and a `RemoteMediator` fills that database from the GitHub search API. This project models the deterministic logic of that app in Dafny and proves properties of the model:

- **`GithubRemoteMediator`** (`remote_mediator.dfy`). It chooses the page to fetch for a refresh, a prepend or an append. The choice is read from the `RemoteKeys` bookmark of the anchor-closest, first or last loaded item. The mediator can also finish early without fetching. After a fetch it reconciles the repositories table and the remote-keys table in one transaction, clearing both first on a refresh. The database is a class with two maps. `Load` is a method that changes them.
- **`GithubPagingSource`** (`paging_source.dfy`). This is the network-only paging source. It covers the page-number arithmetic, including the `loadSize / NETWORK_PAGE_SIZE` correction after an oversized first load, and `getRefreshKey`.
- **`asRemotePresentationState`** (`presentation_state.dfy`). This is the four-state machine folded with `scan` over the combined load states and then deduplicated with `distinctUntilChanged`.
- **`SearchRepositoriesViewModel`** (`view_model.dfy`). It covers:
  - the `searches` and `queriesScrolled` flows, the `combine` into `UiState`, and `accept`;
  - seeding from the saved-state handle and `onCleared`;
  - the separator lambda and `roundedStarCount`.
- **`GithubRepository`** (`repository.dfy`). It covers the SQL `LIKE` pattern built from the query, the pager configuration, and the wiring of a fresh mediator.

`types.dfy` holds the shared entities (`Repo`, `RemoteKeys`, `LoadType`), the search service's request and outcome, and Kotlin's truncating integer division. `flows.dfy` models the two flow operators used, `scan` and `distinctUntilChanged`, on finite sequences.

Fetching from the network is modelled by a parameter `service: SearchRequest -> FetchOutcome`. It takes the query, the page and the page size, and returns either the response or an `IoError`/`HttpError`. Each flow is modelled as the finite sequence of values it carries. The Paging library's `closestItemToPosition` and `closestPageToPosition` are modelled as inputs.

### Notes on what the code does

- The `searches` flow applies `distinctUntilChanged` before `onStart` adds the seed. The seed is therefore never compared with the first search. Searching for the restored query emits it twice and creates a second pager (`ViewModel.SeedIsNotDeduplicated`).
- If no page can supply a refresh key, `getRefreshKey` returns null, not the starting page.
- The comment at `GithubRemoteMediator.kt:66-67` says that a stored key with a null `nextKey` marks the end of appends. The mediator never writes such a key: it sets a null `nextKey` only for an empty page, and an empty page writes no keys at all. So every key a fetch writes names a next page (`RemoteMediator.WrittenKeysHaveNextPage`). Every key in the database therefore names one too: this is part of the database invariant that `Load` keeps (`RemoteMediator.Consistent`). An append then never ends because of a stored key (`RemoteMediator.AppendNeverEndsByKey`). The end of the results is signalled only by the `endOfPaginationReached` that an empty fetch returns.
- The separator before the first item uses the star bucket even when it is 0. A first repository with fewer than 10 000 stars is headed "00.000+ stars", while the same drop between two items reads "< 10.000+ stars".
- The comment at `GithubPagingSource.kt:40-41` says that dividing `loadSize` by `NETWORK_PAGE_SIZE` avoids requesting duplicate items with the second request. That holds after the first, unkeyed load and after a load of one page (`PagingSource.NextLoadIsContiguous`), but not after a keyed load of the initial size. A refresh with a key at page `p` also loads the initial size of 90 items, and its `nextKey` is `p + 3`. At page 2 the append after it starts inside what the refresh returned: the refresh covers items 90 to 179, its `nextKey` is 5, and page 5 of 30 items starts at item 120, so items 120 to 149 are fetched twice (`PagingSource.RefreshAtPageTwoThenAppendRepeats`). From page 3 on the append repeats nothing but lies wholly before the refresh's items, so earlier items are appended after later ones: a refresh at page 3 covers items 180 to 269 and its append, page 6, items 150 to 179 (`PagingSource.KeyedInitialLoadRepeatsItems`).
- `getRefreshKey` gives back the page number of the page it is anchored on, but the refresh loads 90 items per page, so that number names other items. A page of 30 items at page `p` >= 2 gets the key `p`, and the refresh at `p` starts at item 90 * (p - 1), past every item of that page. After the first load (page 1, 90 items, so `nextKey` is 4) the key is 3, not 1, and the refresh starts at item 180, past all 90 items loaded (`PagingSource.RefreshLoadsOtherItems`).

## Model

| member | source | states |
|---|---|---|
| Flows.Scan | app/src/main/java/ru/aasmc/githubpaging/data/RemotePresentationState.kt:23 | `scan` emits the seed, then each intermediate result: one more element than inputs, element i+1 is the step of element i with input i |
| Flows.DistinctFrom | app/src/main/java/ru/aasmc/githubpaging/data/RemotePresentationState.kt:51 | deduplication after a last-emitted value: no two consecutive outputs equal, the first differs from the last emitted, every output is an input and every input is output or equal to the last emitted, the final value is kept |
| Flows.DistinctUntilChanged | app/src/main/java/ru/aasmc/githubpaging/data/RemotePresentationState.kt:51 | empty exactly for empty input, first and last value preserved, no two consecutive outputs equal, same values as the input |
| Flows.DistinctFromSnoc | app/src/main/java/ru/aasmc/githubpaging/data/RemotePresentationState.kt:51 | one more input is passed on exactly when it differs from the input before it (or from the last value passed on, for the first input), after everything passed on so far, in order |
| Flows.DistinctUntilChangedSnoc | app/src/main/java/ru/aasmc/githubpaging/data/RemotePresentationState.kt:51 | distinctUntilChanged is determined input by input: a value is dropped exactly when it equals the value just before it |
| Flows.DistinctKeepsSteps | app/src/main/java/ru/aasmc/githubpaging/data/RemotePresentationState.kt:51 | if each input equals or is related to the previous one, each output is related to the previous output |
| PresentationState.Step | app/src/main/java/ru/aasmc/githubpaging/data/RemotePresentationState.kt:23-50 | one transition either keeps the state or follows one of the four edges, and never enters INITIAL from another state |
| PresentationState.StepTransitions | app/src/main/java/ru/aasmc/githubpaging/data/RemotePresentationState.kt:23-50 | the four transitions, each if and only if its load-state condition (an absent mediator is not loading), and in every other case the state stays |
| PresentationState.SourceErrorKeepsWaiting | app/src/main/java/ru/aasmc/githubpaging/data/RemotePresentationState.kt:37-42 | an Error source refresh keeps SOURCE_LOADING waiting |
| PresentationState.Scanned | app/src/main/java/ru/aasmc/githubpaging/data/RemotePresentationState.kt:21-50 | the scanned stream starts with INITIAL and each later state is the transition of the previous one |
| PresentationState.AsRemotePresentationState | app/src/main/java/ru/aasmc/githubpaging/data/RemotePresentationState.kt:21-51 | the observed stream starts with INITIAL, never repeats a state consecutively, and ends in the machine's current state |
| PresentationState.PresentationOnlyAdvances | app/src/main/java/ru/aasmc/githubpaging/data/RemotePresentationState.kt:21-51 | every observed change is one of the four edges, so PRESENTED follows SOURCE_LOADING, which follows REMOTE_LOADING |
| PresentationState.NeverBackToInitial | app/src/main/java/ru/aasmc/githubpaging/data/RemotePresentationState.kt:21-51 | after the first element, INITIAL is never observed again |
| PresentationState.SuccessfulRefresh | app/src/main/java/ru/aasmc/githubpaging/data/RemotePresentationState.kt:21-51 | mediator loading twice, then source loading, then idle is observed as INITIAL, REMOTE_LOADING, SOURCE_LOADING, PRESENTED |
| RemoteMediator.FirstNonEmptyFrom | app/src/main/java/ru/aasmc/githubpaging/data/GithubRemoteMediator.kt:128-130 | `firstOrNull { it.data.isNotEmpty() }` as an index: the first page from k on with items, every page before it empty, or past the end when none has items |
| RemoteMediator.LastNonEmptyBefore | app/src/main/java/ru/aasmc/githubpaging/data/GithubRemoteMediator.kt:118-120 | `lastOrNull { it.data.isNotEmpty() }` as an index: the last page before n with items, every page after it empty, or -1 when none has items |
| RemoteMediator.FirstItem | app/src/main/java/ru/aasmc/githubpaging/data/GithubRemoteMediator.kt:125-130 | none exactly when every page is empty, otherwise the first item of a non-empty page with only empty pages before it |
| RemoteMediator.LastItem | app/src/main/java/ru/aasmc/githubpaging/data/GithubRemoteMediator.kt:115-120 | none exactly when every page is empty, otherwise the last item of a non-empty page with only empty pages after it |
| RemoteMediator.RemoteKeysRepoId | app/src/main/java/ru/aasmc/githubpaging/data/GithubRemoteMediator.kt:121 | a stored key is found exactly when the id is in the table, and it is that row |
| RemoteMediator.RemoteKeyForFirstItem | app/src/main/java/ru/aasmc/githubpaging/data/GithubRemoteMediator.kt:125-133 | a key is found exactly when there is a first item and its id has a stored key, and it is that key |
| RemoteMediator.RemoteKeyForLastItem | app/src/main/java/ru/aasmc/githubpaging/data/GithubRemoteMediator.kt:115-123 | a key is found exactly when there is a last item and its id has a stored key, and it is that key |
| RemoteMediator.RemoteKeyClosestToCurrentPosition | app/src/main/java/ru/aasmc/githubpaging/data/GithubRemoteMediator.kt:147-157 | a key is found exactly when there is an anchor, an item closest to it, and a stored key for that item's id, and it is that key |
| RemoteMediator.ChoosePage | app/src/main/java/ru/aasmc/githubpaging/data/GithubRemoteMediator.kt:44-74 | a refresh always fetches; a prepend or append fetches only a page named by a stored key's prevKey or nextKey, and reports the end only for a stored key whose bookmark is null |
| RemoteMediator.RefreshChoice | app/src/main/java/ru/aasmc/githubpaging/data/GithubRemoteMediator.kt:46-49 | refresh always fetches: the anchor item's nextKey - 1, or page 1 with no anchor, closest item, key or nextKey |
| RemoteMediator.PrependChoice | app/src/main/java/ru/aasmc/githubpaging/data/GithubRemoteMediator.kt:51-58 | Success(false) exactly without a first item or its key, Success(true) exactly with a key whose prevKey is null, otherwise a fetch of prevKey |
| RemoteMediator.AppendChoice | app/src/main/java/ru/aasmc/githubpaging/data/GithubRemoteMediator.kt:61-73 | Success(false) exactly without a last item or its key, Success(true) exactly with a key whose nextKey is null, otherwise a fetch of nextKey |
| RemoteMediator.KeysFor | app/src/main/java/ru/aasmc/githubpaging/data/GithubRemoteMediator.kt:90-94 | one key per fetched repository, with its id, prevKey null for page 1 and page - 1 otherwise, and nextKey page + 1 (the null nextKey of line 91 belongs to an empty page, which yields no keys) |
| RemoteMediator.UpsertAll | app/src/main/java/ru/aasmc/githubpaging/data/GithubRemoteMediator.kt:96-97 | insertAll: the keys are the old keys plus the batch's, rows outside the batch keep their value, and every batch key holds a row of the batch with that key |
| RemoteMediator.UpsertAllLastWins | app/src/main/java/ru/aasmc/githubpaging/data/GithubRemoteMediator.kt:96-97 | of rows sharing a key, the last written one is stored |
| RemoteMediator.Reconciled | app/src/main/java/ru/aasmc/githubpaging/data/GithubRemoteMediator.kt:83-98 | after the transaction every fetched id has a repository and a key, and no row exists that was neither stored before nor fetched |
| RemoteMediator.ReconciledContents | app/src/main/java/ru/aasmc/githubpaging/data/GithubRemoteMediator.kt:83-98 | the transaction writes every fetched repository and its bookmark (prevKey for the page, nextKey page + 1); rows outside the batch keep their value, or are dropped on a refresh |
| RemoteMediator.RefreshReplacesStore | app/src/main/java/ru/aasmc/githubpaging/data/GithubRemoteMediator.kt:83-98 | a successful refresh leaves exactly the fetched repositories and one key per fetched id |
| RemoteMediator.InsertKeepsOtherRows | app/src/main/java/ru/aasmc/githubpaging/data/GithubRemoteMediator.kt:85-97 | a successful prepend or append keeps every row outside the fetched batch and upserts the batch |
| RemoteMediator.EmptyPageWritesNothing | app/src/main/java/ru/aasmc/githubpaging/data/GithubRemoteMediator.kt:83-98 | an empty page leaves the store as it was, except that a refresh leaves it empty |
| RemoteMediator.ReconciledKeepsConsistent | app/src/main/java/ru/aasmc/githubpaging/data/GithubRemoteMediator.kt:83-98 | the transaction keeps every row under its own id, a key for exactly the stored repositories, and a next page in every stored key |
| RemoteMediator.WrittenKeysHaveNextPage | app/src/main/java/ru/aasmc/githubpaging/data/GithubRemoteMediator.kt:91-96 | every key written by a fetch of page p has nextKey p + 1 |
| RemoteMediator.AppendNeverEndsByKey | app/src/main/java/ru/aasmc/githubpaging/data/GithubRemoteMediator.kt:61-73 | in a consistent database an append is never answered Success(true) from a stored key; it waits or fetches |
| RemoteMediator.RefreshAfterFetch | app/src/main/java/ru/aasmc/githubpaging/data/GithubRemoteMediator.kt:46-49 | a refresh anchored on an item of the fetched page p fetches p again |
| RemoteMediator.PrependAfterFetch | app/src/main/java/ru/aasmc/githubpaging/data/GithubRemoteMediator.kt:51-58 | a prepend from the first item of fetched page p asks for p - 1, or reports the start for page 1 |
| RemoteMediator.AppendAfterFetch | app/src/main/java/ru/aasmc/githubpaging/data/GithubRemoteMediator.kt:61-73 | an append from the last item of fetched page p asks for p + 1 |
| RemoteMediator.RepoDatabase.Valid | app/src/main/java/ru/aasmc/githubpaging/data/GithubRemoteMediator.kt:83-98 | the database invariant: in particular a key is stored for exactly the stored repositories |
| RemoteMediator.RepoDatabase.constructor | app/src/main/java/ru/aasmc/githubpaging/data/GithubRemoteMediator.kt:22 | the database starts empty and valid |
| RemoteMediator.GithubRemoteMediator.constructor | app/src/main/java/ru/aasmc/githubpaging/data/GithubRemoteMediator.kt:19-23 | the mediator keeps its query and database |
| RemoteMediator.GithubRemoteMediator.Load | app/src/main/java/ru/aasmc/githubpaging/data/GithubRemoteMediator.kt:42-108 | an early finish returns Success without touching the database; a fetch asks for query + IN_QUALIFIER, the chosen page and the page size; a failure returns Error and leaves the database unchanged; a success returns Success(items empty), leaves the reconciled store and keeps it consistent |
| PagingSource.Load | app/src/main/java/ru/aasmc/githubpaging/data/GithubPagingSource.kt:31-54 | the page is an error exactly when the request for the key (or page 1) fails, with that error; otherwise it holds exactly the fetched items, prevKey null exactly on page 1, nextKey null exactly for no items |
| PagingSource.GetRefreshKey | app/src/main/java/ru/aasmc/githubpaging/data/GithubPagingSource.kt:60-68 | no anchor gives no key; a key always sits right after the closest page's prevKey or right before its nextKey |
| PagingSource.LoadContract | app/src/main/java/ru/aasmc/githubpaging/data/GithubPagingSource.kt:31-54 | the request is for key or page 1; errors pass through; the page holds exactly the items; prevKey null exactly on page 1, else position - 1; nextKey null exactly for no items, else position + loadSize / 30 |
| PagingSource.SteadyLoadAdvancesOnePage | app/src/main/java/ru/aasmc/githubpaging/data/GithubPagingSource.kt:37-43 | a non-empty load of 30 items continues at position + 1 |
| PagingSource.NextLoadIsContiguous | app/src/main/java/ru/aasmc/githubpaging/data/GithubPagingSource.kt:40-42 | after a first load of whole pages, or any one-page load, the next page starts right after the last item asked for |
| PagingSource.OversizedFirstLoadSkipsToPageFour | app/src/main/java/ru/aasmc/githubpaging/data/GithubPagingSource.kt:37-43 | the default first load asks for 90 items and continues at page 4 |
| PagingSource.KeyedInitialLoadRepeatsItems | app/src/main/java/ru/aasmc/githubpaging/data/GithubPagingSource.kt:35-43 | a keyed load of 90 items at page p >= 2 continues at page p + 3, which starts before the end of the items that load returned: at page 2 inside them, and from page 3 on it ends at or before their first item |
| PagingSource.RefreshAtPageTwoThenAppendRepeats | app/src/main/java/ru/aasmc/githubpaging/data/GithubPagingSource.kt:35-43 | a refresh at page 2 with 90 items has nextKey 5, and page 5 of 30 items starts at item 120, inside items 90 to 179 |
| PagingSource.NoAnchorNoRefreshKey | app/src/main/java/ru/aasmc/githubpaging/data/GithubPagingSource.kt:64 | no anchor or no closest page gives no refresh key |
| PagingSource.RefreshKeyFromClosestPage | app/src/main/java/ru/aasmc/githubpaging/data/GithubPagingSource.kt:64-67 | otherwise the refresh key is prevKey + 1, else nextKey - 1, else none |
| PagingSource.RefreshKeyOfLoadedPage | app/src/main/java/ru/aasmc/githubpaging/data/GithubPagingSource.kt:60-68 | a refresh anchored on a page loaded at page number p gives back the key p, and loadSize / 30 for page 1 |
| PagingSource.RefreshLoadsOtherItems | app/src/main/java/ru/aasmc/githubpaging/data/GithubPagingSource.kt:31-68 | the refresh of 90 items at that key starts past every item of the page it is anchored on, after a 30-item load at page 2 or later and after the first 90-item load |
| Repository.MakePagingConfig | app/src/main/java/ru/aasmc/githubpaging/data/GithubRepository.kt:25-28 | the configured page size and placeholders, with the library's initial load of three pages |
| Repository.DbQuery | app/src/main/java/ru/aasmc/githubpaging/data/GithubRepository.kt:21 | the pattern is two characters longer than the query and wrapped in '%' |
| Repository.ReplaceChar | app/src/main/java/ru/aasmc/githubpaging/data/GithubRepository.kt:21 | the replacement keeps the length and swaps exactly the matching characters |
| Repository.DbQueryShape | app/src/main/java/ru/aasmc/githubpaging/data/GithubRepository.kt:21 | the pattern is two longer, starts and ends with '%', has no space, keeps non-space characters and turns spaces into '%' |
| Repository.GithubRepository.constructor | app/src/main/java/ru/aasmc/githubpaging/data/GithubRepository.kt:15-18 | the repository keeps its database |
| Repository.GithubRepository.GetSearchResultStream | app/src/main/java/ru/aasmc/githubpaging/data/GithubRepository.kt:20-36 | each call gives a fresh mediator over the shared database with the raw query, page size 30 without placeholders, and the LIKE pattern for the local source |
| ViewModel.DefaultUiStateHasScrolled | app/src/main/java/ru/aasmc/githubpaging/ui/SearchRepositoriesViewModel.kt:118-127 | the default state has both queries "Android" and does not count as not scrolled |
| ViewModel.SavedOrDefault | app/src/main/java/ru/aasmc/githubpaging/ui/SearchRepositoriesViewModel.kt:30-31 | the saved value under the key, or "Android" when there is none |
| ViewModel.Saved | app/src/main/java/ru/aasmc/githubpaging/ui/SearchRepositoriesViewModel.kt:79-80 | the handle gains both keys and every other entry keeps its value |
| ViewModel.SaveRestoreRoundTrip | app/src/main/java/ru/aasmc/githubpaging/ui/SearchRepositoriesViewModel.kt:78-80 | what onCleared saves is what the next init reads back under both keys |
| ViewModel.SearchQueries | app/src/main/java/ru/aasmc/githubpaging/ui/SearchRepositoriesViewModel.kt:33-34 | exactly the queries of the Search actions |
| ViewModel.ScrollQueries | app/src/main/java/ru/aasmc/githubpaging/ui/SearchRepositoriesViewModel.kt:38-39 | exactly the queries of the Scroll actions |
| ViewModel.Searches | app/src/main/java/ru/aasmc/githubpaging/ui/SearchRepositoriesViewModel.kt:33-36 | the flow starts with the initial query, has no equal neighbours after the seed, and ends with the latest search |
| ViewModel.QueriesScrolled | app/src/main/java/ru/aasmc/githubpaging/ui/SearchRepositoriesViewModel.kt:38-48 | the flow starts with the restored scroll query, has no equal neighbours after the seed, and ends with the latest scroll |
| ViewModel.SeedIsNotDeduplicated | app/src/main/java/ru/aasmc/githubpaging/ui/SearchRepositoriesViewModel.kt:33-36 | searching for the seed query again emits it a second time |
| ViewModel.ToUiState | app/src/main/java/ru/aasmc/githubpaging/ui/SearchRepositoriesViewModel.kt:61-66 | the state copies the search and scroll queries and is not scrolled exactly when they differ |
| ViewModel.CombineFrom | app/src/main/java/ru/aasmc/githubpaging/ui/SearchRepositoriesViewModel.kt:57-66 | every combined state is not scrolled exactly when its two queries differ |
| ViewModel.UiStates | app/src/main/java/ru/aasmc/githubpaging/ui/SearchRepositoriesViewModel.kt:57-66 | the first state the combine emits pairs the two seeds, and every state is not scrolled exactly when its two queries differ |
| ViewModel.CombineFromFollowsLatest | app/src/main/java/ru/aasmc/githubpaging/ui/SearchRepositoriesViewModel.kt:57-66 | the last combined state pairs the latest search with the latest scroll |
| ViewModel.StateFollowsLatestActions | app/src/main/java/ru/aasmc/githubpaging/ui/SearchRepositoriesViewModel.kt:57-66 | the current state pairs the last element of searches with the last element of queriesScrolled |
| ViewModel.SearchRaisesNotScrolled | app/src/main/java/ru/aasmc/githubpaging/ui/SearchRepositoriesViewModel.kt:57-66 | right after a search the flag is set exactly when the last scroll was for another query |
| ViewModel.ScrolledOnlyByMatchingScroll | app/src/main/java/ru/aasmc/githubpaging/ui/SearchRepositoriesViewModel.kt:62-66 | the flag is clear exactly when the latest search and scroll queries agree |
| ViewModel.RoundedStarCount | app/src/main/java/ru/aasmc/githubpaging/ui/SearchRepositoriesViewModel.kt:143-144 | the bucket counts whole ten thousands of stars, truncating toward zero for negative counts |
| ViewModel.NatToString | app/src/main/java/ru/aasmc/githubpaging/ui/SearchRepositoriesViewModel.kt:95 | a number prints as a non-empty string of decimal digits without a leading zero |
| ViewModel.NatToStringRoundTrip | app/src/main/java/ru/aasmc/githubpaging/ui/SearchRepositoriesViewModel.kt:95 | the printed digits read back as the number |
| ViewModel.StarsLabel | app/src/main/java/ru/aasmc/githubpaging/ui/SearchRepositoriesViewModel.kt:95 | the label ends in "0.000+ stars" after at least one character for the bucket |
| ViewModel.StarsLabelNamesBucket | app/src/main/java/ru/aasmc/githubpaging/ui/SearchRepositoriesViewModel.kt:95 | the label is the bucket's digits followed by "0.000+ stars" |
| ViewModel.Separator | app/src/main/java/ru/aasmc/githubpaging/ui/SearchRepositoriesViewModel.kt:88-107 | nothing after the last item, always a separator before the first, and only separator items |
| ViewModel.SeparatorCases | app/src/main/java/ru/aasmc/githubpaging/ui/SearchRepositoriesViewModel.kt:88-107 | nothing after the last item; the bucket label before the first; between items a separator exactly when the bucket drops, reading "< 10.000+ stars" below one bucket |
| ViewModel.SeparatorOnlyWhereStarsDrop | app/src/main/java/ru/aasmc/githubpaging/ui/SearchRepositoriesViewModel.kt:98-106 | a separator between two items means the star count drops |
| ViewModel.FirstSeparatorForFewStars | app/src/main/java/ru/aasmc/githubpaging/ui/SearchRepositoriesViewModel.kt:93-96 | a first repository under 10 000 stars is headed "00.000+ stars" |
| ViewModel.SearchRepositoriesViewModel.constructor | app/src/main/java/ru/aasmc/githubpaging/ui/SearchRepositoriesViewModel.kt:29-31 | the session starts from the saved queries, or "Android", with no actions |
| ViewModel.SearchRepositoriesViewModel.State | app/src/main/java/ru/aasmc/githubpaging/ui/SearchRepositoriesViewModel.kt:57-71 | the current state holds the latest search (or the seed), the latest scroll (or the seed), and the flag that they differ |
| ViewModel.SearchRepositoriesViewModel.ActivePagerQuery | app/src/main/java/ru/aasmc/githubpaging/ui/SearchRepositoriesViewModel.kt:50-55 | the pager being collected is for the state's query |
| ViewModel.SearchRepositoriesViewModel.Accept | app/src/main/java/ru/aasmc/githubpaging/ui/SearchRepositoriesViewModel.kt:73-75 | the action is appended to the accepted actions |
| ViewModel.SearchRepositoriesViewModel.OnCleared | app/src/main/java/ru/aasmc/githubpaging/ui/SearchRepositoriesViewModel.kt:78-82 | the handle gains the current query and last scrolled query under their keys |
| ViewModel.RestartSession | app/src/main/java/ru/aasmc/githubpaging/ui/SearchRepositoriesViewModel.kt:29-31 | the old session's handle gains its final query and scroll marker, nothing else of it changes, and a new session over that handle starts in the state the old one ended in |

## Left out

- `Repo.kt`, `RemoteKeys.kt`, the Room DAOs, `RepoDatabase.kt` and `GithubService.kt` are not part of this model. The entities are reduced to the fields the logic reads.
- The value of `IN_QUALIFIER` is not among the modelled files. It is taken to be `"in:name,description"`, and no property depends on it.
- Room's `insertAll` is taken to replace on conflict (an upsert in order, the last row winning). `withTransaction` is modelled as one atomic update.
- The network call, its exceptions and HTTP status codes are the `service` parameter.
- Coroutines and flow timing are not modelled. This covers:
  - `viewModelScope.launch` and `shareIn`/`stateIn` with `WhileSubscribed(5000)`;
  - the `replay = 1` cache and `cachedIn`;
  - actions emitted before any collector that a `MutableSharedFlow` drops;
  - cancellation of superseded pagers by `flatMapLatest`.

  The streams are modelled as the finite sequence of accepted actions, all of them delivered.
- ViewModel.SearchRepositoriesViewModel.State: the `UiState()` value that `stateIn` shows before the first combined emission is modelled only as `DefaultUiState`. The state is the one after the seeds.
- The Paging library's `closestItemToPosition`, `closestPageToPosition`, the `insertSeparators` traversal and `PagingData.map` are library internals. The closest item or page is an input, and the separator is the lambda applied to one pair of neighbours.
- The pager engine and the Room paging source behind `reposByName` are not modelled. The repository's pager is described by its configuration, its mediator and its `LIKE` pattern.
- Kotlin's 32-bit `Int` arithmetic is modelled with unbounded integers. Overflow of page numbers or star counts is not modelled. Division truncates toward zero, as in Kotlin.
- `SearchRepositoriesActivity.kt` (Android UI) and `Injection.kt` (wiring) are not part of this model.
