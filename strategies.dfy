/**
 * The three caching strategies and the fetch dispatcher, as steps over the
 * cache storage. Each step takes the storage before the request and what
 * `fetch` would do if called, and gives the reply, whether `fetch` was
 * called, and the storage afterwards.
 */
module Strategies {
  import opened Wrappers
  import opened Http
  import opened CacheStore
  import opened Classifier
  import Config

  /** What `event.respondWith` receives. */
  datatype Reply =
    | Served(response: Response)  // the promise resolves to a response
    | Rejected(error: string)     // the promise rejects with the fetch error
    | Undefined                   // the promise resolves to `undefined`

  datatype Step = Step(reply: Reply, fetched: bool, store: Storage)

  /** The response cache-first synthesises when the network is unreachable. */
  function OfflineResponse(): (r: Response)
    ensures r.status == 503 && r.statusText == "Service Unavailable" && !r.Ok()
  {
    assert IsAscii("Resource not available offline");
    Response(503, "Service Unavailable", AsciiBytes("Resource not available offline"))
  }

  /**
   * For an ok fetched response, opens the current cache and puts the
   * response there; the put rejects a 206, leaving the opened cache as it was.
   */
  function StoreIfOk(s: Storage, url: string, net: FetchOutcome): (t: Storage)
    ensures !(net.Got? && net.response.Ok()) ==> t == s
    ensures net.Got? && net.response.Ok() && !net.response.Cacheable() ==> t == Opened(s, Config.CACHE_NAME)
    ensures net.Got? && net.response.Cacheable() ==>
              && Config.CACHE_NAME in t.caches && url in t.caches[Config.CACHE_NAME]
              && t.caches[Config.CACHE_NAME][url] == net.response
    ensures s.Valid() ==> t.Valid()
  {
    if net.Got? && net.response.Ok() then
      var afterOpen := Opened(s, Config.CACHE_NAME);
      if net.response.status == 206 then afterOpen
      else Stored(afterOpen, Config.CACHE_NAME, url, net.response)
    else s
  }

  /** Cache first: a hit is served without fetching; a miss fetches. */
  function CacheFirstStep(s: Storage, url: string, net: FetchOutcome): (t: Step)
    ensures t.reply.Served?
    ensures s.Valid() ==> t.store.Valid()
  {
    match s.Match(url)
    case Some(cached) => Step(Served(cached), false, s)
    case None =>
      match net
      case Threw(_) => Step(Served(OfflineResponse()), true, s)
      case Got(response) => Step(Served(response), true, StoreIfOk(s, url, net))
  }

  /** Network first: the network's answer, or the cache when the network fails. */
  function NetworkFirstStep(s: Storage, url: string, net: FetchOutcome): (t: Step)
    ensures t.fetched
    ensures s.Valid() ==> t.store.Valid()
  {
    match net
    case Got(response) => Step(Served(response), true, StoreIfOk(s, url, net))
    case Threw(error) =>
      match s.Match(url)
      case Some(cached) => Step(Served(cached), true, s)
      case None => Step(Rejected(error), true, s)
  }

  /**
   * Stale while revalidate: the cached entry if any, else the network's
   * answer; the network is always asked, and its failure swallowed.
   */
  function StaleWhileRevalidateStep(s: Storage, url: string, net: FetchOutcome): (t: Step)
    ensures t.fetched && !t.reply.Rejected?
    ensures s.Valid() ==> t.store.Valid()
  {
    var store := StoreIfOk(s, url, net);
    match s.Match(url)
    case Some(cached) => Step(Served(cached), true, store)
    case None =>
      match net
      case Got(response) => Step(Served(response), true, store)
      case Threw(_) => Step(Undefined, true, store)
  }

  /** The fetch handler: `None` when the request is not intercepted. */
  function Dispatch(s: Storage, req: Request, net: FetchOutcome): (d: Option<Step>)
    ensures d.None? <==> req.httpMethod != "GET" || req.protocol == "chrome-extension:"
    ensures s.Valid() && d.Some? ==> d.value.store.Valid()
  {
    match Classify(req)
    case PassThrough => None
    case CacheFirst => Some(CacheFirstStep(s, req.url, net))
    case NetworkFirst => Some(NetworkFirstStep(s, req.url, net))
    case StaleWhileRevalidate => Some(StaleWhileRevalidateStep(s, req.url, net))
  }

  /**
   * `t` is `s` with the single entry `url` of the current cache set to `r`,
   * the current cache being created (last in order) if it was missing.
   */
  ghost predicate WroteOnly(s: Storage, t: Storage, url: string, r: Response)
  {
    var name := Config.CACHE_NAME;
    && t.names == (if name in s.caches then s.names else s.names + [name])
    && t.caches.Keys == s.caches.Keys + {name}
    && (forall n :: n in s.caches && n != name ==> t.caches[n] == s.caches[n])
    && url in t.caches[name] && t.caches[name][url] == r
    && (forall k :: k in t.caches[name] && k != url ==> name in s.caches && k in s.caches[name] && t.caches[name][k] == s.caches[name][k])
    && (name in s.caches ==> forall k :: k in s.caches[name] ==> k in t.caches[name])
  }

  /**
   * A strategy leaves the storage alone; or, for an ok response, only
   * creates the current cache; or writes a cacheable response under the
   * request's URL.
   */
  ghost predicate StoresOnlyCacheable(s: Storage, t: Storage, url: string, net: FetchOutcome)
  {
    || t == s
    || (net.Got? && net.response.Ok() && t == Opened(s, Config.CACHE_NAME))
    || (net.Got? && net.response.Cacheable() && WroteOnly(s, t, url, net.response))
  }

  lemma StoreIfOkStoresOnlyCacheable(s: Storage, url: string, net: FetchOutcome)
    ensures StoresOnlyCacheable(s, StoreIfOk(s, url, net), url, net)
    ensures net.Got? && net.response.Cacheable() ==> WroteOnly(s, StoreIfOk(s, url, net), url, net.response)
    ensures !(net.Got? && net.response.Ok()) ==> StoreIfOk(s, url, net) == s
  {
  }

  /**
   * Only cacheable responses are ever stored, into the current cache only,
   * under the request's URL; a non-ok response, a 206 or a failed fetch
   * stores no entry.
   */
  lemma OnlyCacheableIsStored(s: Storage, url: string, net: FetchOutcome)
    ensures StoresOnlyCacheable(s, CacheFirstStep(s, url, net).store, url, net)
    ensures StoresOnlyCacheable(s, NetworkFirstStep(s, url, net).store, url, net)
    ensures StoresOnlyCacheable(s, StaleWhileRevalidateStep(s, url, net).store, url, net)
  {
    StoreIfOkStoresOnlyCacheable(s, url, net);
  }

  /** Cache first on a hit: the cached entry, no fetch, nothing written, whatever the network would do. */
  lemma CacheFirstHitSkipsNetwork(s: Storage, url: string, net: FetchOutcome, other: FetchOutcome)
    requires s.Match(url).Some?
    ensures CacheFirstStep(s, url, net) == CacheFirstStep(s, url, other)
    ensures !CacheFirstStep(s, url, net).fetched
    ensures CacheFirstStep(s, url, net).reply == Served(s.Match(url).value)
    ensures CacheFirstStep(s, url, net).store == s
  {
  }

  /** Cache first on a miss with the network down: a 503 instead of an error. */
  lemma CacheFirstOffline(s: Storage, url: string, error: string)
    requires s.Match(url).None?
    ensures CacheFirstStep(s, url, Threw(error)).reply == Served(OfflineResponse())
    ensures CacheFirstStep(s, url, Threw(error)).store == s
  {
  }

  /** Cache first on a miss returns the network's response, ok or not, after fetching it. */
  lemma CacheFirstMissServesNetwork(s: Storage, url: string, r: Response)
    requires s.Match(url).None?
    ensures CacheFirstStep(s, url, Got(r)) == Step(Served(r), true, StoreIfOk(s, url, Got(r)))
  {
  }

  /**
   * Cache first on a miss with a cacheable response: a second request for
   * the same URL is then a hit served from the cache without fetching.
   */
  lemma CacheFirstMissThenHit(s: Storage, url: string, r: Response, later: FetchOutcome)
    requires s.Valid() && s.Match(url).None? && r.Cacheable()
    ensures var t := CacheFirstStep(s, url, Got(r));
            && t.reply == Served(r)
            && CacheFirstStep(t.store, url, later) == Step(Served(r), false, t.store)
  {
    MatchMissMeansAbsent(s, url);
    MatchAfterPut(Opened(s, Config.CACHE_NAME), Config.CACHE_NAME, url, r);
  }

  /**
   * A 206 Partial Content response is served but never stored: the current
   * cache is created, yet the next request for the URL misses and fetches again.
   */
  lemma PartialContentIsRefetched(s: Storage, url: string, r: Response, later: FetchOutcome)
    requires s.Valid() && s.Match(url).None? && r.status == 206
    ensures var t := CacheFirstStep(s, url, Got(r));
            && t.reply == Served(r)
            && t.store == Opened(s, Config.CACHE_NAME)
            && CacheFirstStep(t.store, url, later).fetched
  {
    MatchAfterOpen(s, Config.CACHE_NAME, url);
  }

  /** Network first returns the network's response, ok or not, whenever fetch does not throw. */
  lemma NetworkFirstPrefersNetwork(s: Storage, url: string, r: Response)
    ensures NetworkFirstStep(s, url, Got(r)).reply == Served(r)
    ensures !r.Ok() ==> NetworkFirstStep(s, url, Got(r)).store == s
    ensures r.status == 206 ==> NetworkFirstStep(s, url, Got(r)).store == Opened(s, Config.CACHE_NAME)
  {
  }

  /** Network first with the network down: the cached entry, or the same error rethrown. */
  lemma NetworkFirstFallsBack(s: Storage, url: string, error: string)
    ensures NetworkFirstStep(s, url, Threw(error)).reply
         == if s.Match(url).Some? then Served(s.Match(url).value) else Rejected(error)
    ensures NetworkFirstStep(s, url, Threw(error)).store == s
  {
  }

  /**
   * An API response fetched while online is served again when the network
   * later fails, provided no other cache holds the URL.
   */
  lemma NetworkFirstOfflineAfterOnline(s: Storage, url: string, r: Response, error: string)
    requires s.Valid() && r.Cacheable()
    requires forall n :: n in s.caches && n != Config.CACHE_NAME ==> url !in s.caches[n]
    ensures var t := NetworkFirstStep(s, url, Got(r)).store;
            NetworkFirstStep(t, url, Threw(error)).reply == Served(r)
  {
    var t := NetworkFirstStep(s, url, Got(r)).store;
    assert t == StoreIfOk(s, url, Got(r));
    MatchAfterPut(Opened(s, Config.CACHE_NAME), Config.CACHE_NAME, url, r);
    assert t.Match(url) == Some(r);
  }

  /** Stale while revalidate on a hit serves the cached entry whatever the network does. */
  lemma StaleHitIgnoresNetwork(s: Storage, url: string, net: FetchOutcome, other: FetchOutcome)
    requires s.Match(url).Some?
    ensures StaleWhileRevalidateStep(s, url, net).reply == Served(s.Match(url).value)
    ensures StaleWhileRevalidateStep(s, url, net).reply == StaleWhileRevalidateStep(s, url, other).reply
  {
  }

  /** Stale while revalidate on a miss waits for the network and returns its response, ok or not. */
  lemma StaleMissServesNetwork(s: Storage, url: string, r: Response)
    requires s.Match(url).None?
    ensures StaleWhileRevalidateStep(s, url, Got(r)) == Step(Served(r), true, StoreIfOk(s, url, Got(r)))
  {
  }

  /** Stale while revalidate on a miss with the network down resolves to `undefined`. */
  lemma StaleMissOfflineIsUndefined(s: Storage, url: string, error: string)
    requires s.Match(url).None?
    ensures StaleWhileRevalidateStep(s, url, Threw(error)) == Step(Undefined, true, s)
  {
  }

  /**
   * Revalidation refreshes the cache: after a request whose fetch answers
   * ok, the next request for the URL is served the fresh response, even
   * though the first one was served the stale entry.
   */
  lemma StaleThenRefreshed(s: Storage, url: string, r: Response, later: FetchOutcome)
    requires s.Valid() && r.Cacheable()
    requires forall n :: n in s.caches && n != Config.CACHE_NAME ==> url !in s.caches[n]
    ensures var t := StaleWhileRevalidateStep(s, url, Got(r)).store;
            StaleWhileRevalidateStep(t, url, later).reply == Served(r)
  {
    var t := StaleWhileRevalidateStep(s, url, Got(r)).store;
    assert t == StoreIfOk(s, url, Got(r));
    MatchAfterPut(Opened(s, Config.CACHE_NAME), Config.CACHE_NAME, url, r);
    assert t.Match(url) == Some(r);
  }

  /**
   * A cache created by an older version, listed first, is searched too: its
   * entry is served cache-first even when the current cache holds another.
   */
  lemma OlderCacheServedFirst(older: string, url: string, stale: Response, recent: Response, net: FetchOutcome)
    requires older != Config.CACHE_NAME
    ensures var s := Storage([older, Config.CACHE_NAME], map[older := map[url := stale], Config.CACHE_NAME := map[url := recent]]);
            CacheFirstStep(s, url, net) == Step(Served(stale), false, s)
  {
    OlderCacheShadowsNewer(older, Config.CACHE_NAME, url, stale, recent);
  }
}
