/**
 * The service worker itself: its install, activate, fetch and message
 * handlers and the three strategies, each a method that changes the shared
 * cache storage step by step and is proved against the functions of
 * Strategies and Lifecycle.
 */
module Worker {
  import opened Wrappers
  import opened Http
  import opened CacheStore
  import opened Config
  import opened Classifier
  import opened Strategies
  import opened Lifecycle

  /** What the message handler posts back on `event.ports[0]`. */
  datatype ControlReply = NoReply | ClearReply(success: bool) | SizeReply(size: nat)

  class ServiceWorker {
    /** The origin's cache storage, shared with every other worker version. */
    const caches: CacheStorage
    /** `self.skipWaiting()` has been called. */
    var waitingSkipped: bool
    /** `self.clients.claim()` has been called. */
    var clientsClaimed: bool

    ghost predicate Valid()
      reads this, caches
    {
      caches.Valid()
    }

    constructor (storage: CacheStorage)
      requires storage.Valid()
      ensures caches == storage && Valid()
      ensures !waitingSkipped && !clientsClaimed
    {
      caches := storage;
      waitingSkipped, clientsClaimed := false, false;
    }

    /**
     * The install handler: opens the current cache and adds every precache
     * resource, skipping each one whose fetch fails or that the cache refuses, then
     * skips waiting. `outcomes[i]` is what fetching the i-th resource does.
     */
    method Install(outcomes: seq<FetchOutcome>)
      requires Valid() && |outcomes| == |PrecacheResources()|
      modifies this, caches
      ensures Valid()
      ensures caches.State() == Installed(old(caches.State()), outcomes)
      ensures waitingSkipped && clientsClaimed == old(clientsClaimed)
    {
      caches.Open(CACHE_NAME);
      Precache(PrecacheResources(), outcomes);
      waitingSkipped := true;
    }

    /**
     * Adds each URL to the current cache in turn; a URL whose fetch throws
     * or answers a response the cache refuses is skipped and the rest still added.
     */
    method Precache(urls: seq<string>, outcomes: seq<FetchOutcome>)
      requires Valid() && |urls| == |outcomes| && CACHE_NAME in caches.caches
      modifies caches
      ensures Valid()
      ensures caches.State() == Precached(old(caches.State()), urls, outcomes)
    {
      ghost var before := caches.State();
      var i := 0;
      while i < |urls|
        invariant 0 <= i <= |urls|
        invariant CACHE_NAME in caches.caches
        invariant caches.State() == Precached(before, urls[..i], outcomes[..i])
      {
        assert urls[..i + 1][..i] == urls[..i] && outcomes[..i + 1][..i] == outcomes[..i];
        caches.Add(CACHE_NAME, urls[i], outcomes[i]);
        i := i + 1;
      }
      assert urls[..i] == urls && outcomes[..i] == outcomes;
    }

    /**
     * The activate handler: deletes every cache whose name is not the
     * current one, then claims the clients.
     */
    method Activate()
      requires Valid()
      modifies this, caches
      ensures Valid()
      ensures caches.State() == Activated(old(caches.State()))
      ensures clientsClaimed && waitingSkipped == old(waitingSkipped)
    {
      DeleteCaches({CACHE_NAME});
      clientsClaimed := true;
    }

    /** The CLEAR_CACHE command: deletes every cache, then replies success. */
    method ClearCache() returns (reply: ControlReply)
      requires Valid()
      modifies caches
      ensures Valid()
      ensures caches.State() == Cleared(old(caches.State()))
      ensures reply == ClearReply(true)
    {
      DeleteCaches({});
      reply := ClearReply(true);
    }

    /**
     * Walks the cache names listed when the walk starts and deletes each
     * one not in `spared`: with the current name spared this is the loop
     * of the activate handler, with nothing spared that of CLEAR_CACHE.
     */
    method DeleteCaches(spared: set<string>)
      requires Valid()
      modifies caches
      ensures Valid()
      ensures caches.State() == KeepOnly(old(caches.State()), spared)
    {
      ghost var before := caches.State();
      var cacheNames := caches.names;
      NothingVisited(before, spared);
      for i := 0 to |cacheNames|
        invariant caches.State() == KeepOnly(before, spared + Elems(cacheNames[i..]))
      {
        DeleteVisited(before, spared, i);
        if cacheNames[i] !in spared {
          var _ := caches.Delete(cacheNames[i]);
        }
      }
      AllVisited(before, spared);
    }

    /**
     * `getCacheSize`: opens the current cache (creating it when missing)
     * and adds up the body sizes of its entries.
     */
    method GetCacheSize() returns (size: nat)
      requires Valid()
      modifies caches
      ensures Valid()
      ensures caches.State() == Opened(old(caches.State()), CACHE_NAME)
      ensures size == SumSizes(caches.caches[CACHE_NAME])
    {
      caches.Open(CACHE_NAME);
      size := TotalBytes(caches.caches[CACHE_NAME]);
    }

    /** The message handler; a message of any other type does nothing. */
    method HandleMessage(messageType: string) returns (reply: ControlReply)
      requires Valid()
      modifies this, caches
      ensures Valid()
      ensures messageType == "SKIP_WAITING" ==>
                && reply == NoReply && waitingSkipped
                && caches.State() == old(caches.State())
      ensures messageType == "CLEAR_CACHE" ==>
                && reply == ClearReply(true) && waitingSkipped == old(waitingSkipped)
                && caches.State() == Cleared(old(caches.State()))
      ensures messageType == "GET_CACHE_SIZE" ==>
                && waitingSkipped == old(waitingSkipped)
                && caches.State() == Opened(old(caches.State()), CACHE_NAME)
                && reply == SizeReply(SumSizes(caches.caches[CACHE_NAME]))
      ensures messageType !in {"SKIP_WAITING", "CLEAR_CACHE", "GET_CACHE_SIZE"} ==>
                && reply == NoReply && waitingSkipped == old(waitingSkipped)
                && caches.State() == old(caches.State())
      ensures clientsClaimed == old(clientsClaimed)
    {
      reply := NoReply;
      if messageType == "SKIP_WAITING" {
        waitingSkipped := true;
      }
      if messageType == "CLEAR_CACHE" {
        reply := ClearCache();
      }
      if messageType == "GET_CACHE_SIZE" {
        var size := GetCacheSize();
        reply := SizeReply(size);
      }
    }

    /**
     * The fetch handler. `handled` is `None` when the request is left to the
     * browser, and otherwise what `event.respondWith` receives; `net` is what
     * `fetch(request)` does if the strategy calls it.
     */
    method HandleFetch(req: Request, net: FetchOutcome) returns (handled: Option<Reply>, fetched: bool)
      requires Valid()
      modifies caches
      ensures Valid()
      ensures match Dispatch(old(caches.State()), req, net)
              case None => handled.None? && !fetched && caches.State() == old(caches.State())
              case Some(t) => handled == Some(t.reply) && fetched == t.fetched && caches.State() == t.store
    {
      if req.httpMethod != "GET" {
        return None, false;
      }
      if req.protocol == "chrome-extension:" {
        return None, false;
      }
      var reply;
      if IsStaticAsset(req.pathname) {
        reply, fetched := CacheFirst(req, net);
      } else if IsApiHost(req.hostname) {
        reply, fetched := NetworkFirst(req, net);
      } else {
        reply, fetched := StaleWhileRevalidate(req, net);
      }
      handled := Some(reply);
    }

    /** `cacheFirst`. */
    method CacheFirst(req: Request, net: FetchOutcome) returns (reply: Reply, fetched: bool)
      requires Valid()
      modifies caches
      ensures Valid()
      ensures Step(reply, fetched, caches.State()) == CacheFirstStep(old(caches.State()), req.url, net)
    {
      var cached := caches.State().Match(req.url);
      if cached.Some? {
        return Served(cached.value), false;
      }
      fetched := true;
      match net
      case Threw(_) =>
        reply := Served(OfflineResponse());
      case Got(response) =>
        if response.Ok() {
          caches.Open(CACHE_NAME);
          caches.Put(CACHE_NAME, req.url, response);
        }
        reply := Served(response);
    }

    /** `networkFirst`. */
    method NetworkFirst(req: Request, net: FetchOutcome) returns (reply: Reply, fetched: bool)
      requires Valid()
      modifies caches
      ensures Valid()
      ensures Step(reply, fetched, caches.State()) == NetworkFirstStep(old(caches.State()), req.url, net)
    {
      fetched := true;
      match net
      case Got(response) =>
        if response.Ok() {
          caches.Open(CACHE_NAME);
          caches.Put(CACHE_NAME, req.url, response);
        }
        reply := Served(response);
      case Threw(error) =>
        var cached := caches.State().Match(req.url);
        if cached.Some? {
          reply := Served(cached.value);
        } else {
          reply := Rejected(error);
        }
    }

    /** `staleWhileRevalidate`; the background refresh is applied before returning. */
    method StaleWhileRevalidate(req: Request, net: FetchOutcome) returns (reply: Reply, fetched: bool)
      requires Valid()
      modifies caches
      ensures Valid()
      ensures Step(reply, fetched, caches.State()) == StaleWhileRevalidateStep(old(caches.State()), req.url, net)
    {
      var cached := caches.State().Match(req.url);
      fetched := true;
      var fromNetwork := Undefined;
      match net {
        case Got(response) =>
          if response.Ok() {
            caches.Open(CACHE_NAME);
            caches.Put(CACHE_NAME, req.url, response);
          }
          fromNetwork := Served(response);
        case Threw(_) =>
      }
      reply := if cached.Some? then Served(cached.value) else fromNetwork;
    }
  }
}
