/**
 * The freshness cache (shared/cache/ArticleCache.kt): an in-memory store with one slot for the
 * whole article list and one slot per article id, each holding a payload and the time it was
 * stored. Every read classifies the slot as a hit (fresh or stale), a miss, or expired, and an
 * expired read deletes the slot. Time is an explicit integer number of milliseconds passed to
 * every operation instead of a clock read.
 */
module ArticleCache {
  import opened Models

  const HOUR_MILLIS: int := 60 * 60 * 1000
  /** Data at least this old is still served but marked stale. */
  const STALE_THRESHOLD: int := 24 * HOUR_MILLIS
  /** Data at least this old is no longer served and is purged. */
  const EXPIRY_THRESHOLD: int := 72 * HOUR_MILLIS

  datatype CacheResult<+T> = Hit(data: T, timestamp: int, isStale: bool) | Miss | Expired

  /** A stored payload with its store time. */
  type Slot<T> = Option<(T, int)>

  predicate IsStale(storedAt: int, now: int) {
    now - storedAt >= STALE_THRESHOLD
  }

  predicate IsExpired(storedAt: int, now: int) {
    now - storedAt >= EXPIRY_THRESHOLD
  }

  /** The outcome of reading `slot` at time `now`. */
  function Classify<T>(slot: Slot<T>, now: int): (r: CacheResult<T>)
    ensures r.Miss? <==> slot.None?
    ensures r.Expired? <==> slot.Some? && now - slot.value.1 >= EXPIRY_THRESHOLD
    ensures r.Hit? ==> slot == Some((r.data, r.timestamp))
    ensures r.Hit? ==> now - r.timestamp < EXPIRY_THRESHOLD
    ensures r.Hit? ==> (r.isStale <==> now - r.timestamp >= STALE_THRESHOLD)
  {
    match slot
    case None => Miss
    case Some((data, storedAt)) =>
      if IsExpired(storedAt, now) then Expired
      else Hit(data, storedAt, IsStale(storedAt, now))
  }

  /** What is left in `slot` once it has been read at `now`: an expired entry is removed. */
  function AfterRead<T>(slot: Slot<T>, now: int): (r: Slot<T>)
    ensures r.None? <==> Classify(slot, now).Miss? || Classify(slot, now).Expired?
    ensures r.Some? ==> r == slot
  {
    if Classify(slot, now).Expired? then None else slot
  }

  /** The slot of `id` in the per-article map. */
  function Lookup(m: map<string, (Article, int)>, id: string): (r: Slot<Article>)
    ensures r.Some? <==> id in m
    ensures id in m ==> r.value == m[id]
  {
    if id in m then Some(m[id]) else None
  }

  /** The ids of `articles`. */
  function Ids(articles: seq<Article>): set<string> {
    set i | 0 <= i < |articles| :: articles[i].id
  }

  /**
   * The per-article map after writing each of `articles`, in order, at time `now`
   * (the fan-out of a list save).
   */
  function FanOut(m: map<string, (Article, int)>, articles: seq<Article>, now: int): map<string, (Article, int)>
  {
    if articles == [] then m
    else
      var last := articles[|articles| - 1];
      FanOut(m, articles[..|articles| - 1], now)[last.id := (last, now)]
  }

  /** The fan-out adds exactly the saved ids to the map's keys. */
  lemma {:induction false} FanOutKeys(m: map<string, (Article, int)>, articles: seq<Article>, now: int)
    ensures FanOut(m, articles, now).Keys == m.Keys + Ids(articles)
  {
    if articles != [] {
      var init := articles[..|articles| - 1];
      FanOutKeys(m, init, now);
      assert Ids(articles) == Ids(init) + {articles[|articles| - 1].id} by {
        assert forall i :: 0 <= i < |init| ==> init[i] == articles[i];
      }
    }
  }

  /**
   * After a fan-out, an id that occurs in `articles` maps to its LAST occurrence there, stored
   * at `now`.
   */
  lemma {:induction false} FanOutLastWins(m: map<string, (Article, int)>, articles: seq<Article>, now: int, j: nat)
    requires j < |articles|
    requires forall k :: j < k < |articles| ==> articles[k].id != articles[j].id
    ensures articles[j].id in FanOut(m, articles, now)
    ensures FanOut(m, articles, now)[articles[j].id] == (articles[j], now)
  {
    if j < |articles| - 1 {
      var init := articles[..|articles| - 1];
      assert init[j] == articles[j];
      FanOutLastWins(m, init, now, j);
    }
  }

  /** A fan-out leaves the entry of an id that does not occur in `articles` as it was. */
  lemma {:induction false} FanOutElsewhere(m: map<string, (Article, int)>, articles: seq<Article>, now: int, id: string)
    requires forall k :: 0 <= k < |articles| ==> articles[k].id != id
    ensures Lookup(FanOut(m, articles, now), id) == Lookup(m, id)
  {
    if articles != [] {
      var init := articles[..|articles| - 1];
      assert forall k :: 0 <= k < |init| ==> init[k] == articles[k];
      FanOutElsewhere(m, init, now, id);
    }
  }

  /**
   * Write-through fan-out: right after a list save at `now`, reading any saved id at the same
   * instant is a fresh hit on the last article saved under that id.
   */
  lemma SavedListArticleReadsFresh(m: map<string, (Article, int)>, articles: seq<Article>, now: int, j: nat)
    requires j < |articles|
    requires forall k :: j < k < |articles| ==> articles[k].id != articles[j].id
    ensures Classify(Lookup(FanOut(m, articles, now), articles[j].id), now) == Hit(articles[j], now, false)
  {
    FanOutLastWins(m, articles, now, j);
  }

  /** An expired read empties the slot, so the next read of that key is a miss. */
  lemma ExpiredThenMiss<T>(slot: Slot<T>, now: int, later: int)
    requires Classify(slot, now).Expired?
    ensures Classify(AfterRead(slot, now), later) == Miss
  {
  }

  /**
   * Staleness alone is not destructive: a stale hit leaves the slot as it was, and it stays a
   * stale hit at every later instant before expiry.
   */
  lemma StaleIsNotDestructive<T>(slot: Slot<T>, now: int, later: int)
    requires Classify(slot, now).Hit? && Classify(slot, now).isStale
    requires now <= later && later - slot.value.1 < EXPIRY_THRESHOLD
    ensures AfterRead(slot, now) == slot
    ensures Classify(AfterRead(slot, now), later) == Hit(slot.value.0, slot.value.1, true)
  {
  }

  /**
   * The in-memory cache. `articlesList` is the list slot, `articlesMap` the per-article slots.
   * Every operation runs to completion before the next starts.
   */
  class InMemoryArticleCache {
    var articlesMap: map<string, (Article, int)>
    var articlesList: Slot<seq<Article>>

    constructor ()
      ensures articlesMap == map[] && articlesList == None
    {
      articlesMap := map[];
      articlesList := None;
    }

    /** Reads the list slot; an expired list is removed. */
    method GetArticles(now: int) returns (r: CacheResult<seq<Article>>)
      modifies this`articlesList
      ensures r == Classify(old(articlesList), now)
      ensures articlesList == AfterRead(old(articlesList), now)
    {
      if articlesList.None? {
        return Miss;
      }
      var cached := articlesList.value;
      if IsExpired(cached.1, now) {
        articlesList := None;
        r := Expired;
      } else {
        r := Hit(cached.0, cached.1, IsStale(cached.1, now));
      }
    }

    /** Replaces the list slot and writes every article into its own slot, all at `now`. */
    method SaveArticles(articles: seq<Article>, now: int)
      modifies this
      ensures articlesList == Some((articles, now))
      ensures articlesMap == FanOut(old(articlesMap), articles, now)
    {
      articlesList := Some((articles, now));
      for i := 0 to |articles|
        invariant articlesList == Some((articles, now))
        invariant articlesMap == FanOut(old(articlesMap), articles[..i], now)
      {
        assert articles[..i + 1][..i] == articles[..i];
        articlesMap := articlesMap[articles[i].id := (articles[i], now)];
      }
      assert articles[..|articles|] == articles;
    }

    /** Reads the slot of `id`; an expired entry is removed. */
    method GetArticle(id: string, now: int) returns (r: CacheResult<Article>)
      modifies this`articlesMap
      ensures r == Classify(Lookup(old(articlesMap), id), now)
      ensures articlesMap == if r.Expired? then old(articlesMap) - {id} else old(articlesMap)
      ensures Lookup(articlesMap, id) == AfterRead(Lookup(old(articlesMap), id), now)
    {
      if id !in articlesMap {
        return Miss;
      }
      var cached := articlesMap[id];
      if IsExpired(cached.1, now) {
        articlesMap := articlesMap - {id};
        r := Expired;
      } else {
        r := Hit(cached.0, cached.1, IsStale(cached.1, now));
      }
    }

    /** Replaces only the slot of `article.id`. */
    method SaveArticle(article: Article, now: int)
      modifies this`articlesMap
      ensures articlesMap == old(articlesMap)[article.id := (article, now)]
    {
      articlesMap := articlesMap[article.id := (article, now)];
    }

    /** Empties both slots. */
    method Clear()
      modifies this
      ensures articlesMap == map[] && articlesList == None
    {
      articlesMap := map[];
      articlesList := None;
    }
  }
}
