/** `GithubRemoteMediator`: decides which page of search results to fetch
    for a refresh, prepend or append, and reconciles the fetched repositories
    and their pagination bookmarks with the local database in one transaction. */
module RemoteMediator {
  import opened Types

  /** What the mediator reads from `PagingState`: the items of the loaded
      pages, the anchor position, the item the paging library reports as
      closest to that anchor, and the configured page size. */
  datatype PagingState = PagingState(
    pages: seq<seq<Repo>>,
    anchorPosition: Option<int>,
    closestItemToAnchor: Option<Repo>,
    pageSize: int)

  datatype MediatorResult = Success(endOfPaginationReached: bool) | Error(error: FetchError)

  /** The outcome of step 1 of `load`: a page to fetch, or an early
      `Success(endOfPaginationReached)` without a fetch. */
  datatype PageChoice = Fetch(page: int) | Finish(endOfPaginationReached: bool)

  /** The contents of the two tables: repositories and remote keys, by repository id. */
  datatype Store = Store(repos: map<int, Repo>, remoteKeys: map<int, RemoteKeys>)

  /** Every row is filed under its own id, a repository has a remote key
      exactly when it came from the network, and every stored key names a
      next page (a fetch writes keys only for a non-empty page). */
  predicate Consistent(s: Store)
  {
    && (forall id :: id in s.repos ==> s.repos[id].id == id)
    && (forall id :: id in s.remoteKeys ==> s.remoteKeys[id].repoId == id)
    && s.repos.Keys == s.remoteKeys.Keys
    && (forall id :: id in s.remoteKeys ==> s.remoteKeys[id].nextKey.Some?)
  }

  /** The index of the first page from `k` on that has items, or `|pages|`. */
  function FirstNonEmptyFrom(pages: seq<seq<Repo>>, k: int): (i: int)
    requires 0 <= k <= |pages|
    ensures k <= i <= |pages|
    ensures i < |pages| ==> pages[i] != []
    ensures forall j :: k <= j < i ==> pages[j] == []
    decreases |pages| - k
  {
    if k == |pages| then |pages|
    else if pages[k] != [] then k
    else FirstNonEmptyFrom(pages, k + 1)
  }

  /** The index of the last page before `n` that has items, or -1. */
  function LastNonEmptyBefore(pages: seq<seq<Repo>>, n: int): (i: int)
    requires 0 <= n <= |pages|
    ensures -1 <= i < n
    ensures i >= 0 ==> pages[i] != []
    ensures forall j :: i < j < n ==> pages[j] == []
    decreases n
  {
    if n == 0 then -1
    else if pages[n - 1] != [] then n - 1
    else LastNonEmptyBefore(pages, n - 1)
  }

  /** The first item of the first loaded page that has items. */
  function FirstItem(pages: seq<seq<Repo>>): (r: Option<Repo>)
    ensures r.None? <==> forall i :: 0 <= i < |pages| ==> pages[i] == []
    ensures r.Some? ==> exists i :: && 0 <= i < |pages| && pages[i] != [] && r.value == pages[i][0]
                                    && forall j :: 0 <= j < i ==> pages[j] == []
  {
    var i := FirstNonEmptyFrom(pages, 0);
    if i == |pages| then None else Some(pages[i][0])
  }

  /** The last item of the last loaded page that has items. */
  function LastItem(pages: seq<seq<Repo>>): (r: Option<Repo>)
    ensures r.None? <==> forall i :: 0 <= i < |pages| ==> pages[i] == []
    ensures r.Some? ==> exists i :: && 0 <= i < |pages| && pages[i] != [] && r.value == pages[i][|pages[i]| - 1]
                                    && forall j :: i < j < |pages| ==> pages[j] == []
  {
    var i := LastNonEmptyBefore(pages, |pages|);
    if i < 0 then None else Some(pages[i][|pages[i]| - 1])
  }

  /** `remoteKeysDao().remoteKeysRepoId(id)`: the stored key of a repository. */
  function RemoteKeysRepoId(keys: map<int, RemoteKeys>, repoId: int): (r: Option<RemoteKeys>)
    ensures r.Some? <==> repoId in keys
    ensures r.Some? ==> r.value == keys[repoId]
  {
    if repoId in keys then Some(keys[repoId]) else None
  }

  function LookUp(keys: map<int, RemoteKeys>, item: Option<Repo>): Option<RemoteKeys>
  {
    match item
    case None => None
    case Some(repo) => RemoteKeysRepoId(keys, repo.id)
  }

  /** `getRemoteKeyForFirstItem`. */
  function RemoteKeyForFirstItem(state: PagingState, keys: map<int, RemoteKeys>): (r: Option<RemoteKeys>)
    ensures r.Some? <==> FirstItem(state.pages).Some? && FirstItem(state.pages).value.id in keys
    ensures r.Some? ==> r.value == keys[FirstItem(state.pages).value.id]
  {
    LookUp(keys, FirstItem(state.pages))
  }

  /** `getRemoteKeyForLastItem`. */
  function RemoteKeyForLastItem(state: PagingState, keys: map<int, RemoteKeys>): (r: Option<RemoteKeys>)
    ensures r.Some? <==> LastItem(state.pages).Some? && LastItem(state.pages).value.id in keys
    ensures r.Some? ==> r.value == keys[LastItem(state.pages).value.id]
  {
    LookUp(keys, LastItem(state.pages))
  }

  /** `getRemoteKeyClosestToCurrentPosition`: nothing without an anchor. */
  function RemoteKeyClosestToCurrentPosition(state: PagingState, keys: map<int, RemoteKeys>): (r: Option<RemoteKeys>)
    ensures r.Some? <==> && state.anchorPosition.Some? && state.closestItemToAnchor.Some?
                         && state.closestItemToAnchor.value.id in keys
    ensures r.Some? ==> r.value == keys[state.closestItemToAnchor.value.id]
  {
    if state.anchorPosition.None? then None else LookUp(keys, state.closestItemToAnchor)
  }

  /** Step 1 of `load`: the page to fetch for each load type. */
  function ChoosePage(loadType: LoadType, state: PagingState, keys: map<int, RemoteKeys>): (r: PageChoice)
    ensures loadType == Refresh ==> r.Fetch?
    ensures r.Fetch? && loadType != Refresh ==>
              exists id :: id in keys && (if loadType == Prepend then keys[id].prevKey else keys[id].nextKey) == Some(r.page)
    ensures r == Finish(true) ==>
              exists id :: id in keys && (if loadType == Prepend then keys[id].prevKey else keys[id].nextKey).None?
  {
    match loadType
    case Refresh =>
      var remoteKeys := RemoteKeyClosestToCurrentPosition(state, keys);
      Fetch(if remoteKeys.Some? && remoteKeys.value.nextKey.Some?
            then remoteKeys.value.nextKey.value - 1
            else GithubStartingPageIndex)
    case Prepend =>
      var remoteKeys := RemoteKeyForFirstItem(state, keys);
      if remoteKeys.None? || remoteKeys.value.prevKey.None? then Finish(remoteKeys.Some?)
      else Fetch(remoteKeys.value.prevKey.value)
    case Append =>
      var remoteKeys := RemoteKeyForLastItem(state, keys);
      if remoteKeys.None? || remoteKeys.value.nextKey.None? then Finish(remoteKeys.Some?)
      else Fetch(remoteKeys.value.nextKey.value)
  }

  /** The ids of a batch of repositories. */
  function Ids(items: seq<Repo>): set<int>
  {
    KeysOf(items, RepoKey)
  }

  /** The keys of a batch of rows. */
  function KeysOf<T>(rows: seq<T>, keyOf: T -> int): set<int>
  {
    set i | 0 <= i < |rows| :: keyOf(rows[i])
  }

  /** Room's `insertAll` with replace-on-conflict: the rows are written in
      order, each replacing any row with its key. */
  function UpsertAll<T>(table: map<int, T>, rows: seq<T>, keyOf: T -> int): (r: map<int, T>)
    ensures r.Keys == table.Keys + KeysOf(rows, keyOf)
    ensures forall k :: k in r && k !in KeysOf(rows, keyOf) ==> r[k] == table[k]
    ensures forall k :: k in KeysOf(rows, keyOf) ==> r[k] in rows && keyOf(r[k]) == k
    decreases |rows|
  {
    if rows == [] then table
    else
      var k0 := keyOf(rows[0]);
      var rest := rows[1..];
      var r := UpsertAll(table[k0 := rows[0]], rest, keyOf);
      KeysOfCons(rows, keyOf);
      assert forall x :: x in rest ==> x in rows;
      r
  }

  lemma KeysOfCons<T>(rows: seq<T>, keyOf: T -> int)
    requires rows != []
    ensures KeysOf(rows, keyOf) == {keyOf(rows[0])} + KeysOf(rows[1..], keyOf)
  {
    forall k | k in KeysOf(rows, keyOf)
      ensures k in {keyOf(rows[0])} + KeysOf(rows[1..], keyOf)
    {
      var i :| 0 <= i < |rows| && keyOf(rows[i]) == k;
      if i > 0 { assert keyOf(rows[1..][i - 1]) == k; }
    }
  }

  /** Of several rows with one key, the last one written stays. */
  lemma {:induction false} UpsertAllLastWins<T>(table: map<int, T>, rows: seq<T>, keyOf: T -> int, i: int)
    requires 0 <= i < |rows|
    requires forall j :: i < j < |rows| ==> keyOf(rows[j]) != keyOf(rows[i])
    ensures UpsertAll(table, rows, keyOf)[keyOf(rows[i])] == rows[i]
    decreases |rows|
  {
    var k0 := keyOf(rows[0]);
    var rest := rows[1..];
    KeysOfCons(rows, keyOf);
    if i == 0 {
      assert forall j :: 0 <= j < |rest| ==> rest[j] == rows[j + 1];
      assert keyOf(rows[0]) !in KeysOf(rest, keyOf);
    } else {
      assert rows[i] == rest[i - 1];
      assert forall j :: i - 1 < j < |rest| ==> rest[j] == rows[j + 1];
      UpsertAllLastWins(table[k0 := rows[0]], rest, keyOf, i - 1);
    }
  }

  function RepoKey(repo: Repo): int { repo.id }

  function RemoteKeysKey(k: RemoteKeys): int { k.repoId }

  /** The previous-page bookmark written for a fetch of `page`. */
  function PrevKeyFor(page: int): Option<int>
  {
    if page == GithubStartingPageIndex then None else Some(page - 1)
  }

  /** Step 5 of `load`: one key per fetched repository, all with the same bookmarks. */
  function KeysFor(items: seq<Repo>, page: int): (keys: seq<RemoteKeys>)
    ensures |keys| == |items|
    ensures forall i :: 0 <= i < |items| ==> keys[i] == RemoteKeys(items[i].id, PrevKeyFor(page), Some(page + 1))
  {
    var nextKey := if items == [] then None else Some(page + 1);
    seq(|items|, i requires 0 <= i < |items| => RemoteKeys(items[i].id, PrevKeyFor(page), nextKey))
  }

  /** Steps 4 to 6 of `load`: the database after a successful fetch of `page`. */
  function Reconciled(loadType: LoadType, page: int, items: seq<Repo>, s: Store): (r: Store)
    ensures Ids(items) <= r.repos.Keys && Ids(items) <= r.remoteKeys.Keys
    ensures r.repos.Keys <= s.repos.Keys + Ids(items) && r.remoteKeys.Keys <= s.remoteKeys.Keys + Ids(items)
  {
    KeysForIds(items, page);
    var base := if loadType == Refresh then Store(map[], map[]) else s;
    Store(UpsertAll(base.repos, items, RepoKey),
          UpsertAll(base.remoteKeys, KeysFor(items, page), RemoteKeysKey))
  }

  /** The keys written for a batch are filed under the batch's ids. */
  lemma KeysForIds(items: seq<Repo>, page: int)
    ensures KeysOf(KeysFor(items, page), RemoteKeysKey) == Ids(items)
  {
    var keys := KeysFor(items, page);
    assert forall i :: 0 <= i < |keys| ==> RemoteKeysKey(keys[i]) == items[i].id;
  }

  /** The rows a reconciliation writes: every fetched repository with its
      bookmark; other rows keep their value except on a refresh, which drops
      them. */
  lemma {:induction false} ReconciledContents(loadType: LoadType, page: int, items: seq<Repo>, s: Store)
    ensures var r := Reconciled(loadType, page, items, s);
            var kept := if loadType == Refresh then Store(map[], map[]) else s;
            && r.repos.Keys == kept.repos.Keys + Ids(items)
            && r.remoteKeys.Keys == kept.remoteKeys.Keys + Ids(items)
            && (forall id :: id in Ids(items) ==> r.repos[id] in items && r.repos[id].id == id)
            && (forall id :: id in Ids(items) ==>
                  r.remoteKeys[id] == RemoteKeys(id, PrevKeyFor(page), Some(page + 1)))
            && (forall id :: id in kept.repos && id !in Ids(items) ==> r.repos[id] == kept.repos[id])
            && (forall id :: id in kept.remoteKeys && id !in Ids(items) ==> r.remoteKeys[id] == kept.remoteKeys[id])
  {
    var keys := KeysFor(items, page);
    KeysForIds(items, page);
    var r := Reconciled(loadType, page, items, s);
    forall id | id in Ids(items)
      ensures r.remoteKeys[id] == RemoteKeys(id, PrevKeyFor(page), Some(page + 1))
    {
      var k := r.remoteKeys[id];
      assert k in keys && k.repoId == id;
      var i :| 0 <= i < |keys| && keys[i] == k;
    }
  }

  /** A successful refresh leaves exactly the fetched batch in the database,
      whatever it held before: one repository and one key per fetched id. */
  lemma RefreshReplacesStore(page: int, items: seq<Repo>, s: Store)
    ensures var r := Reconciled(Refresh, page, items, s);
            && r.repos.Keys == Ids(items) && r.remoteKeys.Keys == Ids(items)
            && (forall id :: id in r.repos ==> r.repos[id] in items)
  {
    ReconciledContents(Refresh, page, items, s);
  }

  /** A successful prepend or append clears nothing: rows outside the fetched
      batch are untouched and the fetched rows are upserted. */
  lemma InsertKeepsOtherRows(loadType: LoadType, page: int, items: seq<Repo>, s: Store)
    requires loadType != Refresh
    ensures var r := Reconciled(loadType, page, items, s);
            && r.repos.Keys == s.repos.Keys + Ids(items)
            && r.remoteKeys.Keys == s.remoteKeys.Keys + Ids(items)
            && (forall id :: id in s.repos && id !in Ids(items) ==> r.repos[id] == s.repos[id])
            && (forall id :: id in s.remoteKeys && id !in Ids(items) ==> r.remoteKeys[id] == s.remoteKeys[id])
  {
    ReconciledContents(loadType, page, items, s);
  }

  /** An empty page changes nothing on a prepend or append; a refresh with an
      empty page leaves the database empty. */
  lemma EmptyPageWritesNothing(loadType: LoadType, page: int, s: Store)
    ensures Reconciled(loadType, page, [], s) == (if loadType == Refresh then Store(map[], map[]) else s)
  {
  }

  /** Reconciliation keeps the database consistent. */
  lemma ReconciledKeepsConsistent(loadType: LoadType, page: int, items: seq<Repo>, s: Store)
    requires Consistent(s)
    ensures Consistent(Reconciled(loadType, page, items, s))
  {
    ReconciledContents(loadType, page, items, s);
    var r := Reconciled(loadType, page, items, s);
    var kept := if loadType == Refresh then Store(map[], map[]) else s;
    assert Consistent(kept);
    forall id | id in r.repos
      ensures r.repos[id].id == id
    {
      if id !in Ids(items) { assert id in kept.repos; }
    }
    forall id | id in r.remoteKeys
      ensures r.remoteKeys[id].repoId == id && r.remoteKeys[id].nextKey.Some?
    {
      if id !in Ids(items) { assert id in kept.remoteKeys; }
    }
  }

  /** In a consistent database an append never ends because of a stored key:
      it either waits for the refresh (`Success(false)`) or fetches, and the
      end of the results is reported only by a fetch that comes back empty. */
  lemma AppendNeverEndsByKey(state: PagingState, s: Store)
    requires Consistent(s)
    ensures ChoosePage(Append, state, s.remoteKeys) != Finish(true)
  {
    AppendChoice(state, s.remoteKeys);
  }

  /** Prepend, characterised by the key of the first item on the first page
      that has items: no item or no key means `Success(false)` without a fetch
      (the refresh result is not in the database yet), a key without a
      previous page means `Success(true)`, and otherwise that page is fetched. */
  lemma PrependChoice(state: PagingState, keys: map<int, RemoteKeys>)
    ensures var first := FirstItem(state.pages);
            var choice := ChoosePage(Prepend, state, keys);
            && (choice == Finish(false) <==> first.None? || first.value.id !in keys)
            && (choice == Finish(true) <==>
                  first.Some? && first.value.id in keys && keys[first.value.id].prevKey.None?)
            && (forall p :: choice == Fetch(p) <==>
                  first.Some? && first.value.id in keys && keys[first.value.id].prevKey == Some(p))
  {
  }

  /** Append, symmetric to prepend with the last item and its next page. */
  lemma AppendChoice(state: PagingState, keys: map<int, RemoteKeys>)
    ensures var last := LastItem(state.pages);
            var choice := ChoosePage(Append, state, keys);
            && (choice == Finish(false) <==> last.None? || last.value.id !in keys)
            && (choice == Finish(true) <==>
                  last.Some? && last.value.id in keys && keys[last.value.id].nextKey.None?)
            && (forall p :: choice == Fetch(p) <==>
                  last.Some? && last.value.id in keys && keys[last.value.id].nextKey == Some(p))
  {
  }

  /** Refresh always fetches: the page before the anchor item's next page,
      or the first page when there is no anchor, no closest item, no key,
      or no next page. */
  lemma RefreshChoice(state: PagingState, keys: map<int, RemoteKeys>)
    ensures var choice := ChoosePage(Refresh, state, keys);
            var item := state.closestItemToAnchor;
            && choice.Fetch?
            && (if state.anchorPosition.Some? && item.Some? && item.value.id in keys
                   && keys[item.value.id].nextKey.Some?
                then choice.page == keys[item.value.id].nextKey.value - 1
                else choice.page == 1)
  {
  }

  /** A refresh anchored on an item of a fetched page fetches that page again,
      so the list resumes where the user was. */
  lemma RefreshAfterFetch(fetchType: LoadType, page: int, items: seq<Repo>, s: Store, state: PagingState)
    requires state.anchorPosition.Some? && state.closestItemToAnchor.Some?
    requires state.closestItemToAnchor.value.id in Ids(items)
    ensures ChoosePage(Refresh, state, Reconciled(fetchType, page, items, s).remoteKeys) == Fetch(page)
  {
    var keys := Reconciled(fetchType, page, items, s).remoteKeys;
    WrittenKey(fetchType, page, items, s, state.closestItemToAnchor.value.id);
    RefreshChoice(state, keys);
  }

  /** A prepend from the first item of a fetched page asks for the page before
      it, or reports the start of the list when it was the first page. */
  lemma PrependAfterFetch(fetchType: LoadType, page: int, items: seq<Repo>, s: Store, state: PagingState)
    requires FirstItem(state.pages).Some? && FirstItem(state.pages).value.id in Ids(items)
    ensures ChoosePage(Prepend, state, Reconciled(fetchType, page, items, s).remoteKeys)
            == if page == 1 then Finish(true) else Fetch(page - 1)
  {
    var keys := Reconciled(fetchType, page, items, s).remoteKeys;
    WrittenKey(fetchType, page, items, s, FirstItem(state.pages).value.id);
    PrependChoice(state, keys);
  }

  /** An append from the last item of a fetched page asks for the page after
      it: consecutive appends walk the pages in order, none skipped or repeated. */
  lemma AppendAfterFetch(fetchType: LoadType, page: int, items: seq<Repo>, s: Store, state: PagingState)
    requires LastItem(state.pages).Some? && LastItem(state.pages).value.id in Ids(items)
    ensures ChoosePage(Append, state, Reconciled(fetchType, page, items, s).remoteKeys) == Fetch(page + 1)
  {
    var keys := Reconciled(fetchType, page, items, s).remoteKeys;
    WrittenKeysHaveNextPage(fetchType, page, items, s, LastItem(state.pages).value.id);
    AppendChoice(state, keys);
  }

  /** A key written by a fetch always names a next page, even for the last
      page of results: an empty page writes no key at all, so the end of the
      results is signalled only by the returned `endOfPaginationReached`. */
  lemma WrittenKeysHaveNextPage(loadType: LoadType, page: int, items: seq<Repo>, s: Store, id: int)
    requires id in Ids(items)
    ensures Reconciled(loadType, page, items, s).remoteKeys[id].nextKey == Some(page + 1)
  {
    WrittenKey(loadType, page, items, s, id);
  }

  /** The key a fetch writes for one of its repositories. */
  lemma WrittenKey(loadType: LoadType, page: int, items: seq<Repo>, s: Store, id: int)
    requires id in Ids(items)
    ensures var keys := Reconciled(loadType, page, items, s).remoteKeys;
            id in keys && keys[id] == RemoteKeys(id, PrevKeyFor(page), Some(page + 1))
  {
    ReconciledContents(loadType, page, items, s);
  }

  /** The database shared by every mediator the repository creates. */
  class RepoDatabase {
    var repos: map<int, Repo>
    var remoteKeys: map<int, RemoteKeys>

    ghost predicate Valid()
      reads this
      ensures Valid() ==> repos.Keys == remoteKeys.Keys
    {
      Consistent(Store(repos, remoteKeys))
    }

    function Contents(): Store
      reads this
    {
      Store(repos, remoteKeys)
    }

    constructor ()
      ensures Valid() && repos == map[] && remoteKeys == map[]
    {
      repos := map[];
      remoteKeys := map[];
    }
  }

  class GithubRemoteMediator {
    const query: string
    const database: RepoDatabase

    constructor (query: string, database: RepoDatabase)
      ensures this.query == query && this.database == database
    {
      this.query := query;
      this.database := database;
    }

    /** `load`: picks the page, fetches it through `service`, and on success
        reconciles the database; an early return or a failed fetch leaves the
        database as it was. */
    method Load(loadType: LoadType, state: PagingState, service: SearchService) returns (r: MediatorResult)
      requires database.Valid()
      modifies database
      ensures database.Valid()
      ensures var choice := ChoosePage(loadType, state, old(database.remoteKeys));
              && (choice.Finish? ==>
                    r == Success(choice.endOfPaginationReached) && database.Contents() == old(database.Contents()))
              && (choice.Fetch? ==>
                    match service(SearchRequest(query + InQualifier, choice.page, state.pageSize))
                    case Failed(e) =>
                      r == Error(e) && database.Contents() == old(database.Contents())
                    case Fetched(response) =>
                      && r == Success(response.items == [])
                      && database.Contents()
                         == Reconciled(loadType, choice.page, response.items, old(database.Contents())))
    {
      var choice := ChoosePage(loadType, state, database.remoteKeys);
      if choice.Finish? {
        return Success(choice.endOfPaginationReached);
      }
      var page := choice.page;
      var apiQuery := query + InQualifier;
      var outcome := service(SearchRequest(apiQuery, page, state.pageSize));
      if outcome.Failed? {
        return Error(outcome.error);
      }
      var repos := outcome.response.items;
      var endOfPaginationReached := repos == [];
      ghost var before := database.Contents();
      ReconciledKeepsConsistent(loadType, page, repos, before);
      if loadType == Refresh {
        database.remoteKeys := map[];
        database.repos := map[];
      }
      var keys := KeysFor(repos, page);
      database.remoteKeys := UpsertAll(database.remoteKeys, keys, RemoteKeysKey);
      database.repos := UpsertAll(database.repos, repos, RepoKey);
      return Success(endOfPaginationReached);
    }
  }
}
