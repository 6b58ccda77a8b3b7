/**
 * The article-list screen state (ui/list/ArticlesListViewModel.kt): a UI-state record folded from
 * the results of the list flow, and a case-insensitive search filter kept applied to it.
 */
module ArticlesList {
  import opened Models
  import opened Strings
  import opened ArticleCache
  import opened Repository

  datatype ErrorState = ErrorState(message: string, isNetworkError: bool, canRetry: bool)

  datatype ArticlesListUiState = ArticlesListUiState(
    articles: seq<Article>,
    filteredArticles: seq<Article>,
    isLoading: bool,
    error: Option<ErrorState>,
    searchQuery: string,
    fromCache: bool)

  const INITIAL_STATE: ArticlesListUiState := ArticlesListUiState([], [], false, None, "", false)

  /** An article whose lower-cased title, summary or category contains `lowercaseQuery`. */
  predicate MatchesQuery(a: Article, lowercaseQuery: string) {
    || Contains(Lowercase(a.title), lowercaseQuery)
    || Contains(Lowercase(a.summary), lowercaseQuery)
    || Contains(Lowercase(a.category), lowercaseQuery)
  }

  /** The articles that match, in their original order. */
  function FilterMatching(articles: seq<Article>, lowercaseQuery: string): (r: seq<Article>)
    ensures |r| <= |articles|
  {
    if articles == [] then []
    else (if MatchesQuery(articles[0], lowercaseQuery) then [articles[0]] else [])
         + FilterMatching(articles[1..], lowercaseQuery)
  }

  /** The filter keeps exactly the matching articles. */
  lemma {:induction false} FilterMatchingMembers(articles: seq<Article>, lowercaseQuery: string, a: Article)
    ensures a in FilterMatching(articles, lowercaseQuery) <==> a in articles && MatchesQuery(a, lowercaseQuery)
  {
    if articles != [] {
      FilterMatchingMembers(articles[1..], lowercaseQuery, a);
      assert articles == [articles[0]] + articles[1..];
    }
  }

  /** The filter distributes over concatenation, so it keeps the articles' relative order. */
  lemma {:induction false} FilterMatchingAppend(xs: seq<Article>, ys: seq<Article>, lowercaseQuery: string)
    ensures FilterMatching(xs + ys, lowercaseQuery) == FilterMatching(xs, lowercaseQuery) + FilterMatching(ys, lowercaseQuery)
  {
    if xs != [] {
      assert (xs + ys)[1..] == xs[1..] + ys;
      FilterMatchingAppend(xs[1..], ys, lowercaseQuery);
    } else {
      assert xs + ys == ys;
    }
  }

  /** Filtering twice by the same query is filtering once. */
  lemma {:induction false} FilterMatchingIdempotent(articles: seq<Article>, lowercaseQuery: string)
    ensures FilterMatching(FilterMatching(articles, lowercaseQuery), lowercaseQuery) == FilterMatching(articles, lowercaseQuery)
  {
    if articles != [] {
      var head := if MatchesQuery(articles[0], lowercaseQuery) then [articles[0]] else [];
      var tail := FilterMatching(articles[1..], lowercaseQuery);
      FilterMatchingAppend(head, tail, lowercaseQuery);
      FilterMatchingIdempotent(articles[1..], lowercaseQuery);
      if head != [] {
        assert head[1..] == [];
      }
    }
  }

  /**
   * The search filter: a blank query keeps every article; otherwise the articles whose
   * lower-cased title, summary or category contains the lower-cased query, in order.
   */
  function FilterArticles(articles: seq<Article>, query: string): (r: seq<Article>)
    ensures IsBlank(query) ==> r == articles
    ensures !IsBlank(query) ==> r == FilterMatching(articles, Lowercase(query))
    ensures |r| <= |articles|
    ensures forall a :: a in r <==> a in articles && (IsBlank(query) || MatchesQuery(a, Lowercase(query)))
  {
    if IsBlank(query) then articles
    else
      var lowercaseQuery := Lowercase(query);
      assert forall a :: a in FilterMatching(articles, lowercaseQuery) <==> a in articles && MatchesQuery(a, lowercaseQuery) by {
        forall a ensures a in FilterMatching(articles, lowercaseQuery) <==> a in articles && MatchesQuery(a, lowercaseQuery) {
          FilterMatchingMembers(articles, lowercaseQuery, a);
        }
      }
      FilterMatching(articles, lowercaseQuery)
  }

  /** The shown list is the current articles filtered by the current query. */
  predicate Consistent(s: ArticlesListUiState) {
    s.filteredArticles == FilterArticles(s.articles, s.searchQuery)
  }

  /** How one result of the list flow changes the state. */
  function OnResult(s: ArticlesListUiState, result: Result<seq<Article>>): (t: ArticlesListUiState)
    ensures t.searchQuery == s.searchQuery
    ensures t.isLoading <==> result.Loading?
    ensures result.Error? <==> t.error.Some?
    ensures result.Error? ==> t.error.value == ErrorState(result.message, result.isNetworkError, result.canRetry)
    ensures result.Success? ==> t.articles == result.data && t.fromCache == result.fromCache
    ensures !result.Success? ==> t.articles == s.articles && t.filteredArticles == s.filteredArticles && t.fromCache == s.fromCache
    ensures result.Success? || Consistent(s) ==> Consistent(t)
  {
    match result
    case Loading => s.(isLoading := true, error := None)
    case Success(data, fromCache) =>
      s.(articles := data, filteredArticles := FilterArticles(data, s.searchQuery),
         isLoading := false, error := None, fromCache := fromCache)
    case Error(message, isNetworkError, canRetry, _) =>
      s.(isLoading := false, error := Some(ErrorState(message, isNetworkError, canRetry)))
  }

  /** The state after collecting `results` in order. */
  function Replay(s: ArticlesListUiState, results: seq<Result<seq<Article>>>): ArticlesListUiState {
    if results == [] then s else OnResult(Replay(s, results[..|results| - 1]), results[|results| - 1])
  }

  /** Collecting any sequence of results keeps the filtered list consistent. */
  lemma {:induction false} ReplayConsistent(s: ArticlesListUiState, results: seq<Result<seq<Article>>>)
    requires Consistent(s)
    ensures Consistent(Replay(s, results))
  {
    if results != [] {
      ReplayConsistent(s, results[..|results| - 1]);
    }
  }

  /**
   * Collecting `Loading` and then up to two results that are not `Loading`: the last result
   * decides what is shown, and an error keeps the articles of a `Success` collected before it.
   */
  lemma ReplayAfterLoading(s: ArticlesListUiState, out: seq<Result<seq<Article>>>)
    requires 1 <= |out| <= 3 && out[0] == Loading
    requires forall i :: 1 <= i < |out| ==> !out[i].Loading?
    ensures var t := Replay(s, out);
            && (out[|out| - 1].Success? ==> t.articles == out[|out| - 1].data && !t.isLoading && t.error.None?)
            && (out[|out| - 1].Error? ==> !t.isLoading && t.error.Some?)
            && (|out| == 3 && out[1].Success? && out[2].Error? ==> t.articles == out[1].data)
            && (t.isLoading <==> |out| == 1)
  {
    assert out[..1] == [Loading];
    assert Replay(s, out[..1]) == OnResult(s, Loading) by {
      assert out[..1][..0] == [];
    }
    if |out| >= 2 {
      assert out[..2][..1] == out[..1];
      assert Replay(s, out[..2]) == OnResult(Replay(s, out[..1]), out[1]);
      if |out| == 2 {
        assert out[..2] == out;
      } else {
        assert out[..3] == out;
        assert out[..3][..2] == out[..2];
      }
    }
  }

  /**
   * A flow that ends in network data leaves that data shown, not loading and without an error;
   * one that ends in an error clears the spinner and shows the error over the previous articles.
   */
  lemma FlowOutcomeShown(s: ArticlesListUiState, first: Option<CacheResult<seq<Article>>>,
                         api: ApiCall<seq<Article>>, second: CacheResult<seq<Article>>)
    ensures var out := Emissions(first, api, second);
            var t := Replay(s, out);
            && (out[|out| - 1].Success? ==> t.articles == out[|out| - 1].data && !t.isLoading && t.error.None?)
            && (out[|out| - 1].Error? ==> !t.isLoading && t.error.Some?
                                          && (first.Some? && first.value.Hit? ==> t.articles == first.value.data))
            && (t.isLoading <==> out == [Loading])
  {
    var out := Emissions(first, api, second);
    ReplayAfterLoading(s, out);
    if out[|out| - 1].Error? && first.Some? && first.value.Hit? {
      assert out[1].Success? && out[1].data == first.value.data;
    }
  }

  /**
   * A retry that fails on the network while the cache still holds the list emits only
   * `Loading`, so the screen keeps loading with no error to show.
   */
  lemma RetryMaskedFailureKeepsLoading(s: ArticlesListUiState, slot: Slot<seq<Article>>, f: Failure, now: int, later: int)
    requires IsNetworkFailure(f) && Classify(slot, later).Hit?
    ensures Replay(s, FlowEmissions(true, slot, Fail(f), now, later)).isLoading
    ensures Replay(s, FlowEmissions(true, slot, Fail(f), now, later)).error.None?
  {
    ForcedRefreshMaskedFailureOnlyLoads(slot, f, now, later);
    var out: seq<Result<seq<Article>>> := [Loading];
    assert out[..0] == [];
  }

  /**
   * A first load that fetched the list, then a retry within the expiry window that fails on the
   * network: the list saved by the first load masks the failure, and the screen keeps loading.
   */
  lemma LoadThenRetryKeepsLoading(s: ArticlesListUiState, slot: Slot<seq<Article>>, data: seq<Article>,
                                  f: Failure, now0: int, saved: int, now: int, later: int)
    requires !ShortCircuits(false, slot, now0)
    requires IsNetworkFailure(f) && later - saved < EXPIRY_THRESHOLD
    ensures var afterLoad := ListAfterFlow(false, slot, Ok(data), now0, saved);
            && Replay(s, FlowEmissions(true, afterLoad, Fail(f), now, later)).isLoading
            && Replay(s, FlowEmissions(true, afterLoad, Fail(f), now, later)).error.None?
  {
    var afterLoad := ListAfterFlow(false, slot, Ok(data), now0, saved);
    assert afterLoad == Some((data, saved));
    RetryMaskedFailureKeepsLoading(s, afterLoad, f, now, later);
  }

  class ArticlesListViewModel {
    const repository: ArticlesRepository
    var uiState: ArticlesListUiState

    ghost predicate Valid()
      reads this
    {
      Consistent(uiState)
    }

    /** Starts in the initial state and loads the list once. */
    constructor (repository: ArticlesRepository, api: ApiCall<seq<Article>>, now: int, later: int)
      modifies repository.cache
      ensures this.repository == repository && Valid()
      ensures uiState == Replay(INITIAL_STATE, FlowEmissions(false, old(repository.cache.articlesList), api, now, later))
      ensures repository.cache.articlesList == ListAfterFlow(false, old(repository.cache.articlesList), api, now, later)
      ensures repository.cache.articlesMap == MapAfterListFlow(false, old(repository.cache.articlesList), old(repository.cache.articlesMap), api, now, later)
    {
      this.repository := repository;
      uiState := INITIAL_STATE;
      new;
      LoadArticles(false, api, now, later);
    }

    /** Collects the list flow, applying each result to the state as it is emitted. */
    method LoadArticles(forceRefresh: bool, api: ApiCall<seq<Article>>, now: int, later: int)
      requires Valid()
      modifies this`uiState, repository.cache
      ensures Valid()
      ensures uiState == Replay(old(uiState), FlowEmissions(forceRefresh, old(repository.cache.articlesList), api, now, later))
      ensures repository.cache.articlesList == ListAfterFlow(forceRefresh, old(repository.cache.articlesList), api, now, later)
      ensures repository.cache.articlesMap == MapAfterListFlow(forceRefresh, old(repository.cache.articlesList), old(repository.cache.articlesMap), api, now, later)
    {
      var results := repository.GetArticles(forceRefresh, api, now, later);
      ghost var list, articlesMap := repository.cache.articlesList, repository.cache.articlesMap;
      for i := 0 to |results|
        invariant Valid()
        invariant repository.cache.articlesList == list && repository.cache.articlesMap == articlesMap
        invariant uiState == Replay(old(uiState), results[..i])
      {
        assert results[..i + 1][..i] == results[..i];
        uiState := OnResult(uiState, results[i]);
      }
      assert results[..|results|] == results;
    }

    /** Stores the query and re-filters the current articles; everything else is kept. */
    method OnSearchQueryChange(query: string)
      requires Valid()
      modifies this`uiState
      ensures Valid()
      ensures uiState == old(uiState).(searchQuery := query,
                                       filteredArticles := FilterArticles(old(uiState).articles, query))
    {
      uiState := uiState.(searchQuery := query, filteredArticles := FilterArticles(uiState.articles, query));
    }

    /** Reloads, skipping the first cache read. */
    method Retry(api: ApiCall<seq<Article>>, now: int, later: int)
      requires Valid()
      modifies this`uiState, repository.cache
      ensures Valid()
      ensures uiState == Replay(old(uiState), FlowEmissions(true, old(repository.cache.articlesList), api, now, later))
      ensures repository.cache.articlesList == ListAfterFlow(true, old(repository.cache.articlesList), api, now, later)
      ensures repository.cache.articlesMap == MapAfterListFlow(true, old(repository.cache.articlesList), old(repository.cache.articlesMap), api, now, later)
    {
      LoadArticles(true, api, now, later);
    }
  }
}
