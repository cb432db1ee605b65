/** `GithubRepository`: builds the pager for a query from the database's
    name search and the remote mediator, and fixes the page size. */
module Repository {
  import opened Types
  import opened RemoteMediator

  /** The page size of every network request and of the pager. */
  const NetworkPageSize: int := 30

  /** The paging library's default initial load: three pages. */
  const DefaultInitialPageMultiplier: int := 3

  datatype PagingConfig = PagingConfig(pageSize: int, enablePlaceholders: bool, initialLoadSize: int)

  /** `PagingConfig(pageSize, enablePlaceholders)` with the library's default initial load size. */
  function MakePagingConfig(pageSize: int, enablePlaceholders: bool): (c: PagingConfig)
    ensures c.pageSize == pageSize && c.enablePlaceholders == enablePlaceholders
    ensures c.initialLoadSize == 3 * c.pageSize
  {
    PagingConfig(pageSize, enablePlaceholders, pageSize * DefaultInitialPageMultiplier)
  }

  /** `String.replace(oldChar, newChar)`. */
  function ReplaceChar(s: string, oldChar: char, newChar: char): (r: string)
    ensures |r| == |s|
    ensures forall i :: 0 <= i < |s| ==> r[i] == if s[i] == oldChar then newChar else s[i]
  {
    if s == [] then []
    else [if s[0] == oldChar then newChar else s[0]] + ReplaceChar(s[1..], oldChar, newChar)
  }

  /** The SQL `LIKE` pattern the local source searches repository names with. */
  function DbQuery(query: string): (q: string)
    ensures |q| == |query| + 2 && q[0] == '%' && q[|q| - 1] == '%'
  {
    "%" + ReplaceChar(query, ' ', '%') + "%"
  }

  /** The pattern wraps the query in wildcards, turns every space into a
      wildcard, and keeps every other character in place. */
  lemma DbQueryShape(query: string)
    ensures var q := DbQuery(query);
            && |q| == |query| + 2
            && q[0] == '%' && q[|q| - 1] == '%'
            && ' ' !in q
            && (forall i :: 0 <= i < |query| && query[i] != ' ' ==> q[i + 1] == query[i])
            && (forall i :: 0 <= i < |query| && query[i] == ' ' ==> q[i + 1] == '%')
  {
    var q := DbQuery(query);
    var body := ReplaceChar(query, ' ', '%');
    assert forall i :: 0 <= i < |query| ==> q[i + 1] == body[i];
    assert forall i :: 0 <= i < |query| ==> body[i] != ' ';
  }

  /** The wiring of one search: the pager's configuration, the query the
      remote mediator is built with, and the pattern of the local source. */
  datatype Pager = Pager(config: PagingConfig, mediator: GithubRemoteMediator, sourcePattern: string)

  class GithubRepository {
    const database: RepoDatabase

    constructor (database: RepoDatabase)
      ensures this.database == database
    {
      this.database := database;
    }

    /** `getSearchResultStream`: a fresh mediator over the shared database is
        given the raw query; only the local source sees the `LIKE` pattern. */
    method GetSearchResultStream(query: string) returns (pager: Pager)
      ensures fresh(pager.mediator)
      ensures pager.config == PagingConfig(NetworkPageSize, false, 90)
      ensures pager.mediator.query == query && pager.mediator.database == database
      ensures pager.sourcePattern == DbQuery(query)
    {
      var dbQuery := DbQuery(query);
      var mediator := new GithubRemoteMediator(query, database);
      pager := Pager(MakePagingConfig(NetworkPageSize, false), mediator, dbQuery);
    }
  }
}
