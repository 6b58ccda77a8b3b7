/**
 * The fetch orchestrator (data/repository/ArticlesRepository.kt). A read emits an ordered
 * sequence of results: `Loading`, then at most one cached `Success`, then a network `Success`
 * or an `Error`, unless a network failure is masked by data still in the cache. The network
 * call is an input: the outcome the API call would have produced.
 */
module Repository {
  import opened Models
  import opened Strings
  import opened ArticleCache

  datatype Result<+T> =
    | Success(data: T, fromCache: bool)
    | Error(message: string, isNetworkError: bool, canRetry: bool, errorCode: Option<string>)
    | Loading

  /** The exceptions the API call can throw, as far as the classifier tells them apart. */
  datatype Failure =
    | UnknownHost
    | Connect
    | SocketTimeout
      /** An HTTP error status; `body` is the error body when it was present and parsed. */
    | Http(code: int, body: Option<ErrorResponse>)
      /** Any other exception, with its (nullable) message. */
    | Other(message: Option<string>)

  /** The outcome of one API call. */
  datatype ApiCall<+T> = Ok(data: T) | Fail(failure: Failure)

  const NO_CONNECTION_MESSAGE: string := "No internet connection. Please check your network settings."
  const TIMEOUT_MESSAGE: string := "Connection timed out. Please try again."
  const SERVER_ERROR_MESSAGE: string := "Server error. Please try again later."
  const NOT_FOUND_MESSAGE: string := "Article not found."

  /** A failure that the network layer, not the server, is to blame for. */
  predicate IsNetworkFailure(f: Failure) {
    || f.UnknownHost? || f.Connect? || f.SocketTimeout?
    || (f.Http? && f.body.None? && 500 <= f.code <= 599)
  }

  /** Turns an API failure into the `Error` the flow emits. */
  function HandleException<T>(f: Failure): (r: Result<T>)
    ensures r.Error?
    ensures r.isNetworkError <==> IsNetworkFailure(f)
    ensures !r.canRetry <==> f.Http? && f.code == 404
    ensures r.errorCode == (if f.Http? && f.body.Some? then Some(f.body.value.errorCode) else None)
    ensures f.Http? && f.body.Some? ==> r.message == f.body.value.errorMessage
    ensures (f.UnknownHost? || f.Connect?) ==> r.message == NO_CONNECTION_MESSAGE
    ensures f.SocketTimeout? ==> r.message == TIMEOUT_MESSAGE
    ensures f.Http? && f.body.None? && 500 <= f.code <= 599 ==> r.message == SERVER_ERROR_MESSAGE
    ensures f == Http(404, None) ==> r.message == NOT_FOUND_MESSAGE
    ensures f.Http? && f.body.None? && f.code != 404 && !(500 <= f.code <= 599)
            ==> r.message == "An error occurred (HTTP " + IntToString(f.code) + ")"
    ensures f.Other? ==> r.message == "An unexpected error occurred: " + (if f.message.Some? then f.message.value else "null")
  {
    match f
    case UnknownHost | Connect => Error(NO_CONNECTION_MESSAGE, true, true, None)
    case SocketTimeout => Error(TIMEOUT_MESSAGE, true, true, None)
    case Http(code, body) =>
      if body.Some? then
        Error(body.value.errorMessage, false, code != 404, Some(body.value.errorCode))
      else if 500 <= code <= 599 then Error(SERVER_ERROR_MESSAGE, true, true, None)
      else if code == 404 then Error(NOT_FOUND_MESSAGE, false, false, None)
      else Error("An error occurred (HTTP " + IntToString(code) + ")", false, true, None)
    case Other(message) =>
      var text := if message.Some? then message.value else "null";
      Error("An unexpected error occurred: " + text, false, true, None)
  }

  /** The results of a flow whose error, if any, is the last one emitted. */
  predicate ErrorOnlyLast<T>(out: seq<Result<T>>) {
    forall i :: 0 <= i < |out| - 1 ==> !out[i].Error?
  }

  /**
   * The results one read emits, given the first cache read (`None` when a forced refresh skips
   * it), the API outcome, and the cache read taken after a network-classified failure.
   */
  function Emissions<T>(first: Option<CacheResult<T>>, api: ApiCall<T>, second: CacheResult<T>): (out: seq<Result<T>>)
    ensures 1 <= |out| <= 3 && out[0] == Loading
    ensures forall i :: 1 <= i < |out| ==> !out[i].Loading?
    ensures ErrorOnlyLast(out)
    ensures forall i :: 1 <= i < |out| - 1 ==> first.Some? && first.value.Hit? && out[i] == Success(first.value.data, true)
    ensures forall i :: 2 <= i < |out| ==> !(out[i].Success? && out[i].fromCache)
    ensures |out| >= 2 && out[1].Success? && out[1].fromCache ==> first.Some? && first.value.Hit? && out[1].data == first.value.data
    ensures out[|out| - 1].Error? ==> api.Fail? && out[|out| - 1] == HandleException(api.failure)
    ensures out[|out| - 1].Success? && !out[|out| - 1].fromCache ==> api.Ok? && out[|out| - 1] == Success(api.data, false)
    ensures first.Some? && first.value.Hit? ==> |out| >= 2 && out[1] == Success(first.value.data, true)
    ensures first.Some? && first.value.Hit? && !first.value.isStale ==> out == [Loading, Success(first.value.data, true)]
    ensures api.Ok? && !(first.Some? && first.value.Hit? && !first.value.isStale) ==> out[|out| - 1] == Success(api.data, false)
    ensures out[|out| - 1].Error? <==> api.Fail? && !(first.Some? && first.value.Hit? && !first.value.isStale)
                                       && !(IsNetworkFailure(api.failure) && second.Hit?)
  {
    var fromCache := if first.Some? && first.value.Hit? then [Success(first.value.data, true)] else [];
    if first.Some? && first.value.Hit? && !first.value.isStale then [Loading] + fromCache
    else
      match api
      case Ok(data) => [Loading] + fromCache + [Success(data, false)]
      case Fail(f) =>
        var error := HandleException(f);
        if error.isNetworkError && second.Hit? then [Loading] + fromCache
        else [Loading] + fromCache + [error]
  }

  /** The first cache read of a flow: skipped when `forceRefresh` is set. */
  function FirstRead<T>(forceRefresh: bool, slot: Slot<T>, now: int): Option<CacheResult<T>> {
    if forceRefresh then None else Some(Classify(slot, now))
  }

  /** The slot once the first cache read of a flow has happened. */
  function AfterFirstRead<T>(forceRefresh: bool, slot: Slot<T>, now: int): Slot<T> {
    if forceRefresh then slot else AfterRead(slot, now)
  }

  /**
   * The results of a whole flow run against the slot it reads, with the first read at `now` and
   * the read after a failed network call at `later`.
   */
  function FlowEmissions<T>(forceRefresh: bool, slot: Slot<T>, api: ApiCall<T>, now: int, later: int): seq<Result<T>> {
    Emissions(FirstRead(forceRefresh, slot, now), api,
              Classify(AfterFirstRead(forceRefresh, slot, now), later))
  }

  /** The flow ends at the first cache read: a fresh hit, and no network call is made. */
  predicate ShortCircuits<T>(forceRefresh: bool, slot: Slot<T>, now: int) {
    !forceRefresh && Classify(slot, now).Hit? && !Classify(slot, now).isStale
  }

  /**
   * The list slot after a list flow: a successful call saves the fresh list at `later`; any
   * other flow leaves the slot as it was, except that a read that found it expired removed it:
   * the first read at `now`, or the second read at `later`, which only a network failure makes.
   */
  function ListAfterFlow(forceRefresh: bool, slot: Slot<seq<Article>>, api: ApiCall<seq<Article>>, now: int, later: int): (r: Slot<seq<Article>>)
    ensures !ShortCircuits(forceRefresh, slot, now) && api.Ok? ==> r == Some((api.data, later))
    ensures ShortCircuits(forceRefresh, slot, now) || api.Fail? ==>
              && (r.Some? ==> r == slot)
              && (r.None? <==> || slot.None?
                               || (!forceRefresh && Classify(slot, now).Expired?)
                               || (api.Fail? && IsNetworkFailure(api.failure) && !ShortCircuits(forceRefresh, slot, now)
                                   && Classify(slot, later).Expired?))
  {
    var first := AfterFirstRead(forceRefresh, slot, now);
    if ShortCircuits(forceRefresh, slot, now) then first
    else if api.Ok? then Some((api.data, later))
    else if IsNetworkFailure(api.failure) then AfterRead(first, later)
    else first
  }

  /** The per-article map after a list flow: only a successful call changes it, by the fan-out. */
  function MapAfterListFlow(forceRefresh: bool, slot: Slot<seq<Article>>, m: map<string, (Article, int)>,
                            api: ApiCall<seq<Article>>, now: int, later: int): (r: map<string, (Article, int)>)
    ensures !ShortCircuits(forceRefresh, slot, now) && api.Ok? ==> r == FanOut(m, api.data, later)
    ensures !ShortCircuits(forceRefresh, slot, now) && api.Ok? ==> r.Keys == m.Keys + Ids(api.data)
    ensures ShortCircuits(forceRefresh, slot, now) || api.Fail? ==> r == m
  {
    if !ShortCircuits(forceRefresh, slot, now) && api.Ok? then
      FanOutKeys(m, api.data, later);
      FanOut(m, api.data, later)
    else m
  }

  /**
   * The per-article map after the flow for `id`: a successful call saves the returned article
   * under its own id at `later`; the entry of `id` is removed exactly when a read found it
   * expired (the first read at `now`, or the second read at `later` after a network failure);
   * every other entry is kept.
   */
  function MapAfterArticleFlow(id: string, forceRefresh: bool, m: map<string, (Article, int)>,
                               api: ApiCall<Article>, now: int, later: int): (r: map<string, (Article, int)>)
    ensures var saved := !ShortCircuits(forceRefresh, Lookup(m, id), now) && api.Ok?;
            && (saved ==> api.data.id in r && r[api.data.id] == (api.data, later))
            && (forall k :: k != id && !(saved && k == api.data.id) ==> Lookup(r, k) == Lookup(m, k))
            && (!(saved && id == api.data.id) ==>
                  && (Lookup(r, id) == Lookup(m, id) || id !in r)
                  && (id in m && id !in r <==>
                        id in m && ((!forceRefresh && Classify(Lookup(m, id), now).Expired?)
                                    || (api.Fail? && IsNetworkFailure(api.failure) && !ShortCircuits(forceRefresh, Lookup(m, id), now)
                                        && Classify(Lookup(m, id), later).Expired?))))
  {
    var skipped := ShortCircuits(forceRefresh, Lookup(m, id), now);
    var first := Classify(Lookup(m, id), now);
    var afterFirst := if !forceRefresh && first.Expired? then m - {id} else m;
    var second := Classify(Lookup(afterFirst, id), later);
    if skipped then afterFirst
    else if api.Ok? then afterFirst[api.data.id := (api.data, later)]
    else if IsNetworkFailure(api.failure) && second.Expired? then afterFirst - {id}
    else afterFirst
  }

  /** Fresh-hit short circuit: exactly `[Loading, Success(cached, fromCache = true)]`. */
  lemma FreshHitShortCircuits<T>(slot: Slot<T>, api: ApiCall<T>, now: int, later: int)
    requires ShortCircuits(false, slot, now)
    ensures FlowEmissions(false, slot, api, now, later) == [Loading, Success(slot.value.0, true)]
  {
  }

  /** A stale hit and a successful call: the cached data, then the fresh data. */
  lemma StaleHitThenRefresh<T>(slot: Slot<T>, data: T, now: int, later: int)
    requires Classify(slot, now).Hit? && Classify(slot, now).isStale
    ensures FlowEmissions(false, slot, Ok(data), now, later)
         == [Loading, Success(slot.value.0, true), Success(data, false)]
  {
  }

  /**
   * Without a racing writer, a read that found nothing (miss or expired) cannot mask a failure:
   * the classified error is always emitted last.
   */
  lemma MissNeverMasksFailure<T>(slot: Slot<T>, f: Failure, now: int, later: int)
    requires !Classify(slot, now).Hit?
    ensures FlowEmissions(false, slot, Fail(f), now, later) == [Loading, HandleException(f)]
  {
  }

  /**
   * A network failure is masked by whatever the cache holds at the second read: with a stale
   * hit first, the flow ends on the cached `Success` and emits no error.
   */
  lemma StaleHitMasksNetworkFailure<T>(slot: Slot<T>, f: Failure, now: int, later: int)
    requires Classify(slot, now).Hit? && Classify(slot, now).isStale
    requires IsNetworkFailure(f) && later - slot.value.1 < EXPIRY_THRESHOLD
    ensures FlowEmissions(false, slot, Fail(f), now, later) == [Loading, Success(slot.value.0, true)]
  {
  }

  /**
   * With `forceRefresh`, a network failure while the cache still holds data is masked although
   * nothing was emitted from the cache: the flow is only `[Loading]`.
   */
  lemma ForcedRefreshMaskedFailureOnlyLoads<T>(slot: Slot<T>, f: Failure, now: int, later: int)
    requires IsNetworkFailure(f) && Classify(slot, later).Hit?
    ensures FlowEmissions(true, slot, Fail(f), now, later) == [Loading]
  {
  }

  /** A server rejection is never masked, whatever the cache holds. */
  lemma ServerRejectionAlwaysSurfaces<T>(forceRefresh: bool, slot: Slot<T>, f: Failure, now: int, later: int)
    requires !IsNetworkFailure(f) && !ShortCircuits(forceRefresh, slot, now)
    ensures var out := FlowEmissions(forceRefresh, slot, Fail(f), now, later);
            out[|out| - 1] == HandleException(f)
  {
  }

  /** Not found without a body, after a miss: a single non-network, non-retryable error. */
  lemma NotFoundIsFinal<T>(slot: Slot<T>, now: int, later: int)
    requires slot.None?
    ensures var out := FlowEmissions(false, slot, Fail(Http(404, None)), now, later);
            |out| == 2 && out[1].Error? && !out[1].isNetworkError && !out[1].canRetry
  {
  }

  /** The orchestrator over one cache. */
  class ArticlesRepository {
    const cache: InMemoryArticleCache

    constructor (cache: InMemoryArticleCache)
      ensures this.cache == cache
    {
      this.cache := cache;
    }

    /**
     * The list flow. `now` is the time of the first cache read, `later` the time after the API
     * call (of the save on success, of the second read on failure).
     */
    method GetArticles(forceRefresh: bool, api: ApiCall<seq<Article>>, now: int, later: int)
      returns (emitted: seq<Result<seq<Article>>>)
      modifies cache
      ensures emitted == FlowEmissions(forceRefresh, old(cache.articlesList), api, now, later)
      ensures cache.articlesList == ListAfterFlow(forceRefresh, old(cache.articlesList), api, now, later)
      ensures cache.articlesMap == MapAfterListFlow(forceRefresh, old(cache.articlesList), old(cache.articlesMap), api, now, later)
    {
      emitted := [Loading];
      if !forceRefresh {
        var cacheResult := cache.GetArticles(now);
        if cacheResult.Hit? {
          emitted := emitted + [Success(cacheResult.data, true)];
          if !cacheResult.isStale {
            return;
          }
        }
      }
      match api
      case Ok(articles) =>
        cache.SaveArticles(articles, later);
        emitted := emitted + [Success(articles, false)];
      case Fail(f) =>
        var error := HandleException(f);
        if error.isNetworkError {
          var cacheResult := cache.GetArticles(later);
          if cacheResult.Hit? {
            return;
          }
        }
        emitted := emitted + [error];
    }

    /**
     * The single-article flow. Success saves the returned article under its own id, which need
     * not be the requested `id`.
     */
    method GetArticle(id: string, forceRefresh: bool, api: ApiCall<Article>, now: int, later: int)
      returns (emitted: seq<Result<Article>>)
      modifies cache
      ensures emitted == FlowEmissions(forceRefresh, Lookup(old(cache.articlesMap), id), api, now, later)
      ensures cache.articlesMap == MapAfterArticleFlow(id, forceRefresh, old(cache.articlesMap), api, now, later)
      ensures cache.articlesList == old(cache.articlesList)
    {
      emitted := [Loading];
      if !forceRefresh {
        var cacheResult := cache.GetArticle(id, now);
        if cacheResult.Hit? {
          emitted := emitted + [Success(cacheResult.data, true)];
          if !cacheResult.isStale {
            return;
          }
        }
      }
      match api
      case Ok(article) =>
        cache.SaveArticle(article, later);
        emitted := emitted + [Success(article, false)];
      case Fail(f) =>
        var error := HandleException(f);
        if error.isNetworkError {
          var cacheResult := cache.GetArticle(id, later);
          if cacheResult.Hit? {
            return;
          }
        }
        emitted := emitted + [error];
    }

    /** One background refresh: saves the list and reports success iff the API call succeeds. */
    method PrefetchArticles(api: ApiCall<seq<Article>>, now: int) returns (success: bool)
      modifies cache
      ensures success <==> api.Ok?
      ensures success ==> (cache.articlesList == Some((api.data, now))
                           && cache.articlesMap == FanOut(old(cache.articlesMap), api.data, now))
      ensures !success ==> (cache.articlesList == old(cache.articlesList)
                            && cache.articlesMap == old(cache.articlesMap))
    {
      match api
      case Ok(articles) =>
        cache.SaveArticles(articles, now);
        success := true;
      case Fail(_) =>
        success := false;
    }
  }
}
