/** Data shapes shared by the paging core: the repository record, the
    per-repository pagination bookmark, and the contract of the GitHub
    search service, whose network call is abstracted as a function. */
module Types {

  datatype Option<T> = None | Some(value: T)

  /** The default of Kotlin's elvis operator `x ?: d`. */
  function OrElse<T>(o: Option<T>, d: T): T
  {
    match o
    case Some(v) => v
    case None => d
  }

  /** A GitHub repository as the core reads it: its primary key, a display
      name, and its star count. */
  datatype Repo = Repo(id: int, name: string, stars: int)

  /** The bookmark stored for every repository fetched from the network:
      the pages before and after the one that delivered it. */
  datatype RemoteKeys = RemoteKeys(repoId: int, prevKey: Option<int>, nextKey: Option<int>)

  /** The three edges at which the pager asks for more data. */
  datatype LoadType = Refresh | Prepend | Append

  /** The two exceptions a fetch can raise: an `IOException`, or an
      `HttpException` carrying the HTTP status code. */
  datatype FetchError = IoError | HttpError(code: int)

  /** The search endpoint's response (`RepoSearchResponse`). */
  datatype RepoSearchResponse = RepoSearchResponse(total: int, items: seq<Repo>, nextPage: Option<int>)

  /** The arguments of `searchRepos(query, page, itemsPerPage)`. */
  datatype SearchRequest = SearchRequest(query: string, page: int, itemsPerPage: int)

  /** What one call of the search endpoint yields: a response, or a thrown error. */
  datatype FetchOutcome = Fetched(response: RepoSearchResponse) | Failed(error: FetchError)

  /** The remote fetch client: whatever the network answers to a request. */
  type SearchService = SearchRequest -> FetchOutcome

  /** The first page index of the GitHub search API. */
  const GithubStartingPageIndex: int := 1

  /** The search qualifier appended to every query sent to the API. */
  const InQualifier: string := "in:name,description"

  /** Kotlin's `Int` division, which truncates toward zero (Dafny's `/`
      rounds toward negative infinity for negative dividends). */
  function TruncDiv(a: int, b: int): int
    requires b > 0
  {
    if a >= 0 then a / b else -((-a) / b)
  }

  /** The last element of `s`, or `d` when `s` is empty. */
  function LastOr<T>(s: seq<T>, d: T): T
  {
    if s == [] then d else s[|s| - 1]
  }

  lemma LastOrCons<T>(a: T, s: seq<T>, d: T)
    ensures LastOr([a] + s, d) == LastOr(s, a)
  {
  }
}
