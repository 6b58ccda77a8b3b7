/**
 * The article-detail screen state (ui/detail/ArticleDetailViewModel.kt): a UI-state record
 * folded from the results of the single-article flow for one fixed article id.
 */
module ArticleDetail {
  import opened Models
  import opened ArticleCache
  import opened Repository
  import ArticlesList

  datatype ArticleDetailUiState = ArticleDetailUiState(
    article: Option<Article>,
    isLoading: bool,
    error: Option<ArticlesList.ErrorState>,
    fromCache: bool)

  /** No article, not loading, no error. */
  const INITIAL_STATE: ArticleDetailUiState := ArticleDetailUiState(None, false, None, false)

  /** How one result of the article flow changes the state. */
  function OnResult(s: ArticleDetailUiState, result: Result<Article>): (t: ArticleDetailUiState)
    ensures t.isLoading <==> result.Loading?
    ensures result.Error? <==> t.error.Some?
    ensures result.Error? ==> t.error.value == ArticlesList.ErrorState(result.message, result.isNetworkError, result.canRetry)
    ensures result.Success? ==> t.article == Some(result.data) && t.fromCache == result.fromCache
    ensures !result.Success? ==> t.article == s.article && t.fromCache == s.fromCache
  {
    match result
    case Loading => s.(isLoading := true, error := None)
    case Success(data, fromCache) => s.(article := Some(data), isLoading := false, error := None, fromCache := fromCache)
    case Error(message, isNetworkError, canRetry, _) =>
      s.(isLoading := false, error := Some(ArticlesList.ErrorState(message, isNetworkError, canRetry)))
  }

  /** The state after collecting `results` in order. */
  function Replay(s: ArticleDetailUiState, results: seq<Result<Article>>): ArticleDetailUiState {
    if results == [] then s else OnResult(Replay(s, results[..|results| - 1]), results[|results| - 1])
  }

  /** Once an article has been shown it stays shown: no sequence of results takes it away. */
  lemma {:induction false} ReplayKeepsArticle(s: ArticleDetailUiState, results: seq<Result<Article>>)
    requires s.article.Some?
    ensures Replay(s, results).article.Some?
  {
    if results != [] {
      ReplayKeepsArticle(s, results[..|results| - 1]);
    }
  }

  /** The article shown after a sequence of results is the data of its last `Success`. */
  lemma {:induction false} ReplayShowsLastSuccess(s: ArticleDetailUiState, results: seq<Result<Article>>, j: nat)
    requires j < |results| && results[j].Success?
    requires forall k :: j < k < |results| ==> !results[k].Success?
    ensures Replay(s, results).article == Some(results[j].data)
    ensures Replay(s, results).fromCache == results[j].fromCache
  {
    if j < |results| - 1 {
      var init := results[..|results| - 1];
      assert init[j] == results[j];
      ReplayShowsLastSuccess(s, init, j);
    }
  }

  class ArticleDetailViewModel {
    const repository: ArticlesRepository
    /** The id taken from the navigation arguments. */
    const articleId: string
    var uiState: ArticleDetailUiState

    /** Starts in the initial state and loads the article once. */
    constructor (repository: ArticlesRepository, articleId: string, api: ApiCall<Article>, now: int, later: int)
      modifies repository.cache
      ensures this.repository == repository && this.articleId == articleId
      ensures uiState == Replay(INITIAL_STATE, FlowEmissions(false, Lookup(old(repository.cache.articlesMap), articleId), api, now, later))
      ensures repository.cache.articlesMap == MapAfterArticleFlow(articleId, false, old(repository.cache.articlesMap), api, now, later)
      ensures repository.cache.articlesList == old(repository.cache.articlesList)
    {
      this.repository := repository;
      this.articleId := articleId;
      uiState := INITIAL_STATE;
      new;
      LoadArticle(false, api, now, later);
    }

    /** Collects the article flow, applying each result to the state as it is emitted. */
    method LoadArticle(forceRefresh: bool, api: ApiCall<Article>, now: int, later: int)
      modifies this`uiState, repository.cache
      ensures uiState == Replay(old(uiState), FlowEmissions(forceRefresh, Lookup(old(repository.cache.articlesMap), articleId), api, now, later))
      ensures repository.cache.articlesMap == MapAfterArticleFlow(articleId, forceRefresh, old(repository.cache.articlesMap), api, now, later)
      ensures repository.cache.articlesList == old(repository.cache.articlesList)
    {
      var results := repository.GetArticle(articleId, forceRefresh, api, now, later);
      ghost var list, articlesMap := repository.cache.articlesList, repository.cache.articlesMap;
      for i := 0 to |results|
        invariant repository.cache.articlesList == list && repository.cache.articlesMap == articlesMap
        invariant uiState == Replay(old(uiState), results[..i])
      {
        assert results[..i + 1][..i] == results[..i];
        uiState := OnResult(uiState, results[i]);
      }
      assert results[..|results|] == results;
    }

    /** Reloads, skipping the first cache read. */
    method Retry(api: ApiCall<Article>, now: int, later: int)
      modifies this`uiState, repository.cache
      ensures uiState == Replay(old(uiState), FlowEmissions(true, Lookup(old(repository.cache.articlesMap), articleId), api, now, later))
      ensures repository.cache.articlesMap == MapAfterArticleFlow(articleId, true, old(repository.cache.articlesMap), api, now, later)
      ensures repository.cache.articlesList == old(repository.cache.articlesList)
    {
      LoadArticle(true, api, now, later);
    }
  }
}
