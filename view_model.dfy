/** `SearchRepositoriesViewModel`: turns the user's search and scroll actions
    into the stream of UI states and the queries a pager is created for,
    persists the session across process death, and decides where star-count
    separators go in the list. The flows are modelled on the finite sequence
    of actions accepted so far. */
module ViewModel {
  import opened Types
  import opened Flows

  const DefaultQuery: string := "Android"
  const LastSearchQuery: string := "last_search_query"
  const LastQueryScrolled: string := "last_query_scrolled"

  datatype UiAction = Search(query: string) | Scroll(currentQuery: string)

  datatype UiState = UiState(query: string, lastQueryScrolled: string, hasNotScrolledForCurrentSearch: bool)

  datatype UiModel = RepoItem(repo: Repo) | SeparatorItem(description: string)

  /** `UiState()`, the state flow's value before the first combined emission. */
  const DefaultUiState: UiState := UiState(DefaultQuery, DefaultQuery, false)

  lemma DefaultUiStateHasScrolled()
    ensures DefaultUiState.query == "Android" && DefaultUiState.lastQueryScrolled == "Android"
    ensures !DefaultUiState.hasNotScrolledForCurrentSearch
  {
  }

  /** `savedStateHandle.get(key) ?: DEFAULT_QUERY`. */
  function SavedOrDefault(saved: map<string, string>, key: string): (q: string)
    ensures key in saved ==> q == saved[key]
    ensures key !in saved ==> q == "Android"
  {
    if key in saved then saved[key] else DefaultQuery
  }

  /** `onCleared`'s two writes to the saved-state handle. */
  function Saved(saved: map<string, string>, state: UiState): (r: map<string, string>)
    ensures r.Keys == saved.Keys + {LastSearchQuery, LastQueryScrolled}
    ensures forall k :: k in saved && k != LastSearchQuery && k != LastQueryScrolled ==> r[k] == saved[k]
  {
    saved[LastSearchQuery := state.query][LastQueryScrolled := state.lastQueryScrolled]
  }

  /** What `onCleared` saves is what the next session starts from. */
  lemma SaveRestoreRoundTrip(saved: map<string, string>, state: UiState)
    ensures SavedOrDefault(Saved(saved, state), LastSearchQuery) == state.query
    ensures SavedOrDefault(Saved(saved, state), LastQueryScrolled) == state.lastQueryScrolled
  {
  }

  /** `filterIsInstance<UiAction.Search>()`, as the searched queries. */
  function SearchQueries(actions: seq<UiAction>): (r: seq<string>)
    ensures |r| <= |actions|
    ensures forall q :: q in r <==> Search(q) in actions
  {
    if actions == [] then []
    else (if actions[0].Search? then [actions[0].query] else []) + SearchQueries(actions[1..])
  }

  /** `filterIsInstance<UiAction.Scroll>()`, as the scrolled queries. */
  function ScrollQueries(actions: seq<UiAction>): (r: seq<string>)
    ensures |r| <= |actions|
    ensures forall q :: q in r <==> Scroll(q) in actions
  {
    if actions == [] then []
    else (if actions[0].Scroll? then [actions[0].currentQuery] else []) + ScrollQueries(actions[1..])
  }

  /** The `searches` flow: the seed, then the distinct searched queries. The
      seed is emitted by `onStart` after `distinctUntilChanged`, so it is not
      compared with the first search. */
  function Searches(initialQuery: string, actions: seq<UiAction>): (r: seq<string>)
    ensures r != [] && r[0] == initialQuery
    ensures forall i :: 1 <= i < |r| - 1 ==> r[i] != r[i + 1]
    ensures r[|r| - 1] == LastOr(SearchQueries(actions), initialQuery)
  {
    [initialQuery] + DistinctUntilChanged(SearchQueries(actions))
  }

  /** The `queriesScrolled` flow: the seed, then the distinct scrolled queries. */
  function QueriesScrolled(lastQueryScrolled: string, actions: seq<UiAction>): (r: seq<string>)
    ensures r != [] && r[0] == lastQueryScrolled
    ensures forall i :: 1 <= i < |r| - 1 ==> r[i] != r[i + 1]
    ensures r[|r| - 1] == LastOr(ScrollQueries(actions), lastQueryScrolled)
  {
    [lastQueryScrolled] + DistinctUntilChanged(ScrollQueries(actions))
  }

  /** The seed is not deduplicated: searching for the restored query again
      emits it a second time, and so creates a second pager for it. */
  lemma SeedIsNotDeduplicated()
    ensures Searches("Android", [Search("Android")]) == ["Android", "Android"]
  {
    assert SearchQueries([Search("Android")]) == ["Android"];
    assert DistinctUntilChanged(["Android"]) == ["Android"];
  }

  /** The `map` over the combined pair of latest search and latest scroll. */
  function ToUiState(search: string, scroll: string): (u: UiState)
    ensures u.query == search && u.lastQueryScrolled == scroll
    ensures u.hasNotScrolledForCurrentSearch <==> u.query != u.lastQueryScrolled
  {
    UiState(search, scroll, search != scroll)
  }

  /** `combine(searches, queriesScrolled)` after both seeds: one state each
      time an action passes its flow's `distinctUntilChanged`. `lastSearch`
      and `lastScroll` are the values those operators last let through. */
  function CombineFrom(search: string, scroll: string, lastSearch: Option<string>, lastScroll: Option<string>,
                       actions: seq<UiAction>): (r: seq<UiState>)
    ensures forall i :: 0 <= i < |r| ==>
              r[i].hasNotScrolledForCurrentSearch == (r[i].query != r[i].lastQueryScrolled)
    decreases |actions|
  {
    if actions == [] then []
    else
      match actions[0]
      case Search(q) =>
        if lastSearch == Some(q) then CombineFrom(search, scroll, lastSearch, lastScroll, actions[1..])
        else [ToUiState(q, scroll)] + CombineFrom(q, scroll, Some(q), lastScroll, actions[1..])
      case Scroll(q) =>
        if lastScroll == Some(q) then CombineFrom(search, scroll, lastSearch, lastScroll, actions[1..])
        else [ToUiState(search, q)] + CombineFrom(search, q, lastSearch, Some(q), actions[1..])
  }

  /** Every state the `combine` of the two flows emits after the given
      actions (before `stateIn`, which would not repeat an equal state). */
  function UiStates(initialQuery: string, lastQueryScrolled: string, actions: seq<UiAction>): (r: seq<UiState>)
    ensures r != [] && r[0] == UiState(initialQuery, lastQueryScrolled, initialQuery != lastQueryScrolled)
    ensures forall i :: 0 <= i < |r| ==>
              r[i].hasNotScrolledForCurrentSearch == (r[i].query != r[i].lastQueryScrolled)
  {
    [ToUiState(initialQuery, lastQueryScrolled)] + CombineFrom(initialQuery, lastQueryScrolled, None, None, actions)
  }

  lemma {:induction false} CombineFromFollowsLatest(search: string, scroll: string, lastSearch: Option<string>,
                                                    lastScroll: Option<string>, actions: seq<UiAction>)
    requires lastSearch.Some? ==> lastSearch.value == search
    requires lastScroll.Some? ==> lastScroll.value == scroll
    ensures LastOr(CombineFrom(search, scroll, lastSearch, lastScroll, actions), ToUiState(search, scroll))
            == ToUiState(LastOr(SearchQueries(actions), search), LastOr(ScrollQueries(actions), scroll))
    decreases |actions|
  {
    if actions != [] {
      var rest := actions[1..];
      assert actions == [actions[0]] + rest;
      match actions[0]
      case Search(q) =>
        assert SearchQueries(actions) == [q] + SearchQueries(rest);
        assert ScrollQueries(actions) == ScrollQueries(rest);
        LastOrCons(q, SearchQueries(rest), search);
        if lastSearch == Some(q) {
          CombineFromFollowsLatest(search, scroll, lastSearch, lastScroll, rest);
        } else {
          CombineFromFollowsLatest(q, scroll, Some(q), lastScroll, rest);
          LastOrCons(ToUiState(q, scroll), CombineFrom(q, scroll, Some(q), lastScroll, rest), ToUiState(search, scroll));
        }
      case Scroll(q) =>
        assert ScrollQueries(actions) == [q] + ScrollQueries(rest);
        assert SearchQueries(actions) == SearchQueries(rest);
        LastOrCons(q, ScrollQueries(rest), scroll);
        if lastScroll == Some(q) {
          CombineFromFollowsLatest(search, scroll, lastSearch, lastScroll, rest);
        } else {
          CombineFromFollowsLatest(search, q, lastSearch, Some(q), rest);
          LastOrCons(ToUiState(search, q), CombineFrom(search, q, lastSearch, Some(q), rest), ToUiState(search, scroll));
        }
    }
  }

  /** The current state pairs the latest element of `searches` with the
      latest element of `queriesScrolled`. */
  lemma StateFollowsLatestActions(initialQuery: string, lastQueryScrolled: string, actions: seq<UiAction>)
    ensures var states := UiStates(initialQuery, lastQueryScrolled, actions);
            var searches := Searches(initialQuery, actions);
            var scrolled := QueriesScrolled(lastQueryScrolled, actions);
            states[|states| - 1] == ToUiState(searches[|searches| - 1], scrolled[|scrolled| - 1])
  {
    CombineFromFollowsLatest(initialQuery, lastQueryScrolled, None, None, actions);
    LastOrCons(ToUiState(initialQuery, lastQueryScrolled),
               CombineFrom(initialQuery, lastQueryScrolled, None, None, actions),
               ToUiState(initialQuery, lastQueryScrolled));
  }

  /** Right after a search the list counts as not scrolled for it, unless the
      last scroll was already for that very query. */
  lemma SearchRaisesNotScrolled(initialQuery: string, lastQueryScrolled: string, actions: seq<UiAction>, q: string)
    ensures var states := UiStates(initialQuery, lastQueryScrolled, actions + [Search(q)]);
            states[|states| - 1].hasNotScrolledForCurrentSearch
            == (q != LastOr(ScrollQueries(actions), lastQueryScrolled))
  {
    StateFollowsLatestActions(initialQuery, lastQueryScrolled, actions + [Search(q)]);
    SearchQueriesAppend(actions, Search(q));
    ScrollQueriesAppend(actions, Search(q));
  }

  /** The list counts as scrolled for the current search only once a scroll
      for that query has been seen (or the two restored queries agree). */
  lemma ScrolledOnlyByMatchingScroll(initialQuery: string, lastQueryScrolled: string, actions: seq<UiAction>)
    ensures var states := UiStates(initialQuery, lastQueryScrolled, actions);
            !states[|states| - 1].hasNotScrolledForCurrentSearch
            <==> LastOr(SearchQueries(actions), initialQuery) == LastOr(ScrollQueries(actions), lastQueryScrolled)
  {
    StateFollowsLatestActions(initialQuery, lastQueryScrolled, actions);
  }

  lemma {:induction false} SearchQueriesAppend(actions: seq<UiAction>, a: UiAction)
    ensures SearchQueries(actions + [a]) == SearchQueries(actions) + (if a.Search? then [a.query] else [])
    decreases |actions|
  {
    if actions == [] {
      assert [] + [a] == [a];
    } else {
      var head := if actions[0].Search? then [actions[0].query] else [];
      assert (actions + [a])[0] == actions[0];
      assert (actions + [a])[1..] == actions[1..] + [a];
      assert SearchQueries(actions + [a]) == head + SearchQueries(actions[1..] + [a]);
      assert SearchQueries(actions) == head + SearchQueries(actions[1..]);
      SearchQueriesAppend(actions[1..], a);
    }
  }

  lemma {:induction false} ScrollQueriesAppend(actions: seq<UiAction>, a: UiAction)
    ensures ScrollQueries(actions + [a]) == ScrollQueries(actions) + (if a.Scroll? then [a.currentQuery] else [])
    decreases |actions|
  {
    if actions == [] {
      assert [] + [a] == [a];
    } else {
      var head := if actions[0].Scroll? then [actions[0].currentQuery] else [];
      assert (actions + [a])[0] == actions[0];
      assert (actions + [a])[1..] == actions[1..] + [a];
      assert ScrollQueries(actions + [a]) == head + ScrollQueries(actions[1..] + [a]);
      assert ScrollQueries(actions) == head + ScrollQueries(actions[1..]);
      ScrollQueriesAppend(actions[1..], a);
    }
  }

  /** `roundedStarCount`: the repository's star count in whole ten
      thousands; a negative count truncates toward zero like Kotlin's `/`. */
  function RoundedStarCount(repo: Repo): (bucket: int)
    ensures repo.stars >= 0 ==> 0 <= bucket && bucket * 10_000 <= repo.stars < (bucket + 1) * 10_000
    ensures repo.stars < 0 ==> bucket <= 0 && -bucket * 10_000 <= -repo.stars < (-bucket + 1) * 10_000
  {
    TruncDiv(repo.stars, 10_000)
  }

  function Digit(d: nat): char
    requires d < 10
  {
    "0123456789"[d]
  }

  /** Decimal notation of a natural number, as Kotlin's string templates print it. */
  function NatToString(n: nat): (s: string)
    ensures s != [] && forall i :: 0 <= i < |s| ==> '0' <= s[i] <= '9'
    ensures n == 0 || s[0] != '0'
  {
    if n < 10 then [Digit(n)] else NatToString(n / 10) + [Digit(n % 10)]
  }

  /** Decimal notation of an integer, with a minus sign when negative. */
  function IntToString(n: int): string
  {
    if n < 0 then "-" + NatToString(-n) else NatToString(n)
  }

  /** Reading decimal digits back as a number. */
  function ParseNat(s: string): nat
  {
    if s == [] then 0
    else ParseNat(s[..|s| - 1]) * 10 + (if '0' <= s[|s| - 1] <= '9' then (s[|s| - 1] as int - '0' as int) else 0)
  }

  /** The printed number reads back as the number printed. */
  lemma {:induction false} NatToStringRoundTrip(n: nat)
    ensures ParseNat(NatToString(n)) == n
    decreases n
  {
    if n >= 10 {
      var s := NatToString(n);
      NatToStringRoundTrip(n / 10);
      assert s[..|s| - 1] == NatToString(n / 10);
    }
  }

  /** `"${roundedStarCount}0.000+ stars"`. */
  function StarsLabel(bucket: int): (text: string)
    ensures |text| > |"0.000+ stars"| && text[|text| - |"0.000+ stars"|..] == "0.000+ stars"
  {
    IntToString(bucket) + "0.000+ stars"
  }

  /** The label of a bucket names the bucket: its digits read back as the bucket. */
  lemma StarsLabelNamesBucket(bucket: nat)
    ensures var text := StarsLabel(bucket);
            var digits := |text| - |"0.000+ stars"|;
            && 0 < digits
            && text[digits..] == "0.000+ stars"
            && ParseNat(text[..digits]) == bucket
  {
    NatToStringRoundTrip(bucket);
    var text := StarsLabel(bucket);
    assert text[..|NatToString(bucket)|] == NatToString(bucket);
  }

  /** The separator lambda passed to `insertSeparators`: nothing after the
      last item, a bucket label before the first one, and between two items
      a label only when the star bucket drops. */
  function Separator(before: Option<Repo>, after: Option<Repo>): (r: Option<UiModel>)
    ensures after.None? ==> r.None?
    ensures before.None? && after.Some? ==> r.Some?
    ensures r.Some? ==> r.value.SeparatorItem?
  {
    if after.None? then None
    else if before.None? then Some(SeparatorItem(StarsLabel(RoundedStarCount(after.value))))
    else if RoundedStarCount(before.value) > RoundedStarCount(after.value) then
      if RoundedStarCount(after.value) >= 1 then Some(SeparatorItem(StarsLabel(RoundedStarCount(after.value))))
      else Some(SeparatorItem("< 10.000+ stars"))
    else None
  }

  lemma SeparatorCases(before: Option<Repo>, after: Option<Repo>)
    ensures after.None? ==> Separator(before, after) == None
    ensures before.None? && after.Some? ==>
              Separator(before, after) == Some(SeparatorItem(StarsLabel(RoundedStarCount(after.value))))
    ensures before.Some? && after.Some? ==>
              (Separator(before, after).Some? <==> RoundedStarCount(before.value) > RoundedStarCount(after.value))
    ensures before.Some? && after.Some? && Separator(before, after).Some? ==>
              Separator(before, after).value.description
              == if RoundedStarCount(after.value) < 1 then "< 10.000+ stars"
                 else StarsLabel(RoundedStarCount(after.value))
  {
  }

  /** A separator between two items means the star count really drops: in a
      list ordered by stars, each bucket is introduced once. */
  lemma SeparatorOnlyWhereStarsDrop(before: Repo, after: Repo)
    requires Separator(Some(before), Some(after)).Some?
    ensures before.stars > after.stars
  {
  }

  /** The label before the first item uses the bucket even when it is zero,
      so a first repository under 10 000 stars is headed "00.000+ stars",
      while the same drop between items reads "< 10.000+ stars". */
  lemma FirstSeparatorForFewStars(first: Repo)
    requires 0 <= first.stars < 10_000
    ensures Separator(None, Some(first)) == Some(SeparatorItem("00.000+ stars"))
  {
    assert RoundedStarCount(first) == 0;
    assert Digit(0) == '0';
    assert IntToString(0) == "0";
    assert StarsLabel(0) == "0" + "0.000+ stars" == "00.000+ stars";
  }

  class SearchRepositoriesViewModel {
    /** The saved-state handle's entries. */
    var savedStateHandle: map<string, string>
    const initialQuery: string
    const lastQueryScrolled: string
    /** The actions passed to `accept` so far, in order. */
    var actions: seq<UiAction>

    /** `init`: the session starts from the saved queries, or from "Android". */
    constructor (savedStateHandle: map<string, string>)
      ensures this.savedStateHandle == savedStateHandle && actions == []
      ensures initialQuery == SavedOrDefault(savedStateHandle, LastSearchQuery)
      ensures lastQueryScrolled == SavedOrDefault(savedStateHandle, LastQueryScrolled)
    {
      this.savedStateHandle := savedStateHandle;
      initialQuery := SavedOrDefault(savedStateHandle, LastSearchQuery);
      lastQueryScrolled := SavedOrDefault(savedStateHandle, LastQueryScrolled);
      actions := [];
    }

    /** `state.value`: the latest emitted state. */
    function State(): (s: UiState)
      reads this
      ensures s.hasNotScrolledForCurrentSearch == (s.query != s.lastQueryScrolled)
      ensures s.query == LastOr(SearchQueries(actions), initialQuery)
      ensures s.lastQueryScrolled == LastOr(ScrollQueries(actions), lastQueryScrolled)
    {
      var states := UiStates(initialQuery, lastQueryScrolled, actions);
      StateFollowsLatestActions(initialQuery, lastQueryScrolled, actions);
      states[|states| - 1]
    }

    /** The query of the pager `flatMapLatest` currently collects: a new pager
        is created for every element of `searches`, and only the latest is kept. */
    function ActivePagerQuery(): (q: string)
      reads this
      ensures q == State().query
    {
      var searches := Searches(initialQuery, actions);
      searches[|searches| - 1]
    }

    /** `accept`. */
    method Accept(action: UiAction)
      modifies this`actions
      ensures actions == old(actions) + [action]
    {
      actions := actions + [action];
    }

    /** `onCleared`: the current query and last scrolled query are saved. */
    method OnCleared()
      modifies this`savedStateHandle
      ensures savedStateHandle == Saved(old(savedStateHandle), State())
      ensures savedStateHandle[LastSearchQuery] == State().query
      ensures savedStateHandle[LastQueryScrolled] == State().lastQueryScrolled
    {
      var state := State();
      savedStateHandle := savedStateHandle[LastSearchQuery := state.query];
      savedStateHandle := savedStateHandle[LastQueryScrolled := state.lastQueryScrolled];
    }
  }

  /** A session ended and a new one started from the same saved-state handle
      resumes the query and the scroll marker the old session ended with. */
  method RestartSession(vm: SearchRepositoriesViewModel) returns (next: SearchRepositoriesViewModel)
    modifies vm`savedStateHandle
    ensures vm.savedStateHandle == Saved(old(vm.savedStateHandle), old(vm.State()))
    ensures fresh(next) && next.actions == []
    ensures next.initialQuery == old(vm.State()).query
    ensures next.lastQueryScrolled == old(vm.State()).lastQueryScrolled
    ensures next.State() == old(vm.State())
  {
    vm.OnCleared();
    SaveRestoreRoundTrip(old(vm.savedStateHandle), old(vm.State()));
    next := new SearchRepositoriesViewModel(vm.savedStateHandle);
  }
}
