# Performance Maker service worker, modelled in Dafny

This project models the service worker of Performance Maker 4.0. It covers:

- **Precache list.** The fixed list of critical pages, fonts, background images, the icon and the audio tracks, joined in that order.
- **Install handler.** Opens the current versioned cache (`performance-maker-v4.0.0`) and adds each precache resource. A resource whose fetch fails, or whose response the cache refuses, is skipped, and the handler then skips waiting.
- **Activate handler.** Deletes every cache but the current one, then claims the clients.
- **Fetch handler.** Lets non-GET requests and `chrome-extension:` URLs through to the browser. It sends every other request to one of three strategies:
  - cache-first for static assets (fonts, images, audio);
  - network-first for the translation, grammar and GitHub-content hosts;
  - stale-while-revalidate for everything else.
- **Message handler.** Handles `SKIP_WAITING`, `CLEAR_CACHE` (delete every cache, reply success) and `GET_CACHE_SIZE` (sum the body sizes of the current cache).

How the pieces are modelled:

- **CacheStorage.** The origin's storage is the class `CacheStore.CacheStorage`. Its fields hold:
  - the cache names in creation order;
  - each cache's entries, a map from request URL to response.
- **Specification functions.** Each method is proved equal to a function on the value type `CacheStore.Storage`: `Opened`, `Stored`, `Added`, `Deleted` and `KeepOnly`. The lemmas are stated over these functions.
- **Lookups.** `caches.match` searches every cache, not only the current one. It returns the entry of the first cache, in creation order, that holds the URL (`CacheStore.MatchIn`).
- **Network.** The network is an input. `Http.FetchOutcome` is either `Threw(error)` or `Got(response)`, and `Http.Response.Ok` is a status in 200-299.
- **Strategies and dispatch.** These are step functions in `Strategies`. Each gives:
  - the reply handed to `respondWith`;
  - whether `fetch` was called;
  - the storage afterwards.

  The methods of `Worker.ServiceWorker` change the shared storage step by step and are proved to match these functions.

Modules:

- `Wrappers`: the `Option` type.
- `Http`: responses and fetch outcomes.
- `CacheStore`: the cache storage.
- `Config`: the version, the cache name and the precache list.
- `Classifier`: routing.
- `Strategies`: the three strategies and dispatch.
- `Lifecycle`: what install, activate and `CLEAR_CACHE` do to the storage.
- `Worker`: the worker object and its handlers.

Behaviour of the code worth noting:

- The install handler calls `skipWaiting` itself once precaching has settled (service-worker.js:79).
- Stale-while-revalidate on a cache miss whose fetch fails resolves to `undefined`: the background promise swallows the error (service-worker.js:239-244). This is `Strategies.Reply.Undefined`.
- Lookups use `caches.match`, which searches every cache, outdated ones included (service-worker.js:168, 216, 231).
- The strategies store only ok responses (service-worker.js:181, 207, 234). A non-ok response is returned without being stored.
- The Cache API refuses a 206 Partial Content response even though it is ok. The strategies still open the current cache for it, but the `put` rejects and nothing is stored. `cache.add` in the install handler rejects it too. `Http.Response.Cacheable` is this rule.
- `GET_CACHE_SIZE` opens the current cache, which creates it if it is missing (service-worker.js:283).
- `CLEAR_CACHE` always replies `{ success: true }`. If a deletion rejects, no reply is posted at all (service-worker.js:258-267).

## Model

| member | source | states |
|---|---|---|
| Config.PrecacheInOrder | service-worker.js:47-53 | the precache list is the critical, font, background, icon and audio lists joined in that order, 16 URLs |
| Config.Concat | service-worker.js:47-53 | a URL is in the joined list exactly when it is in one of the groups |
| Config.PrecacheResources | service-worker.js:47-53 | a URL is precached exactly when it is in one of the five resource lists; the order and length are in `Config.PrecacheInOrder` |
| Classifier.IsStaticAsset | service-worker.js:131-146 | the ten tests, asked in source order, hold exactly when some static suffix ends the path or some static segment occurs in it |
| Classifier.IsApiHost | service-worker.js:150-153 | the three tests hold exactly when some API host name occurs in the hostname |
| Classifier.Classify | service-worker.js:116-161 | non-GET and `chrome-extension:` requests pass through; otherwise cache-first iff the path is a static asset, network-first iff not static and the host is an API host, stale-while-revalidate iff neither |
| Classifier.IncludesIff | service-worker.js:136 | the left-to-right `includes` search succeeds exactly when the part occurs at some index |
| Classifier.EndsWithAppended | service-worker.js:133-144 | helper for the route lemmas: a path built as stem plus suffix ends with that suffix |
| Classifier.GitHubImageIsCacheFirst | service-worker.js:131-156 | a `.png` on raw.githubusercontent.com, an API host, is handled cache-first because the static test comes first |
| Classifier.DetectEndpointIsNotStatic | service-worker.js:131-146 | the path `/detect` matches none of the ten static-asset tests |
| Classifier.TranslationApiIsNetworkFirst | service-worker.js:149-156 | a GET to libretranslate.com `/detect` is handled network-first |
| Classifier.StartPageIsStaleWhileRevalidate | service-worker.js:157-160 | the start page on localhost is handled stale-while-revalidate |
| Classifier.PostOfImagePassesThrough | service-worker.js:121-123 | a POST is never intercepted, even for an image path |
| CacheStore.MatchIn | service-worker.js:168 | `caches.match` hits iff some cache holds the URL, and returns the entry of the first such cache in creation order |
| CacheStore.Opened | service-worker.js:62 | opening adds an empty cache only when the name is missing, keeps every existing cache, and keeps the storage well formed |
| CacheStore.Stored | service-worker.js:183 | `put` sets exactly one entry of one cache, adds its URL to the keys, and leaves every other entry and cache unchanged |
| CacheStore.Added | service-worker.js:69 | `add` stores a fetched response exactly when the Cache API accepts it (ok and not 206), as `put` of that response; otherwise it changes nothing |
| CacheStore.KeepOnly | service-worker.js:94-103 | the kept caches are those in the selection, with their entries unchanged, and the storage stays well formed |
| CacheStore.Deleted | service-worker.js:100 | `caches.delete` removes exactly the named cache and leaves the others unchanged |
| CacheStore.Filter | service-worker.js:94-97 | the kept names are exactly those in the selection, a subsequence of the names in their original order, and still distinct |
| CacheStore.OpenedIdempotent | service-worker.js:182 | opening a cache twice is opening it once, and opening an existing cache keeps its entries |
| CacheStore.MatchAfterPut | service-worker.js:183 | after `put`, with no cache created before this one holding the URL, `match` returns exactly the response put |
| CacheStore.MatchInAppendEmpty | service-worker.js:168 | appending an empty cache to the search order changes no lookup |
| CacheStore.MatchAfterOpen | service-worker.js:182 | opening a cache, even creating it, changes no lookup |
| CacheStore.MatchSearchesEveryCache | service-worker.js:168 | a URL held by any cache, current or outdated, is a hit |
| CacheStore.MatchMissMeansAbsent | service-worker.js:170-175 | a miss means no cache at all holds the URL |
| CacheStore.OlderCacheShadowsNewer | service-worker.js:168 | an outdated cache created earlier wins over the current cache's entry for the same URL |
| CacheStore.DeleteFromKept | service-worker.js:97-101 | deleting one more cache from a selection narrows the selection by that name |
| CacheStore.KeepAll | service-worker.js:94-103 | keeping every name leaves the storage unchanged |
| CacheStore.FilterTwice | service-worker.js:97-101 | two filters in a row equal one filter by the names both keep |
| CacheStore.FilterKeepsAll | service-worker.js:94-103 | a filter keeping every name is the identity |
| CacheStore.FilterNothing | service-worker.js:259-262 | a filter keeping no name leaves no name |
| CacheStore.FilterSingle | service-worker.js:98 | filtering distinct names down to one leaves that name if present and nothing otherwise |
| CacheStore.SumSizesRemove | service-worker.js:288-294 | the total size may be summed from any entry first, so the key order does not matter |
| CacheStore.SumSizesOfTwo | service-worker.js:286-296 | entries of 100 and 250 bytes total 350 bytes |
| CacheStore.SumSizes | service-worker.js:286-296 | the reference sum of body sizes: empty for no entries, and never below any single entry's size |
| CacheStore.TotalBytes | service-worker.js:286-296 | the loop over the keys returns the sum of the entries' body sizes |
| CacheStore.CacheStorage.Open | service-worker.js:62 | the new state is `Opened` of the old one |
| CacheStore.CacheStorage.Put | service-worker.js:183 | a 206 response is refused and changes nothing; otherwise the new state is `Stored` of the old one |
| CacheStore.CacheStorage.Add | service-worker.js:69 | the new state is `Added` of the old one |
| CacheStore.CacheStorage.Delete | service-worker.js:100 | the result says whether the cache existed, and the new state is `Deleted` of the old one |
| Http.Response.Cacheable | service-worker.js:69 | the Cache API's rule for `put` and `add`: a cacheable response is ok, and a 206 is never cacheable |
| Http.AsciiBytes | service-worker.js:191 | the body bytes of the fallback text have one byte per character, with the same code |
| Strategies.OfflineResponse | service-worker.js:191-194 | the offline fallback has status 503 and text "Service Unavailable" and is not ok |
| Strategies.CacheFirstStep | service-worker.js:167-196 | cache-first always serves a response and keeps the storage well formed |
| Strategies.NetworkFirstStep | service-worker.js:202-224 | network-first always calls fetch and keeps the storage well formed |
| Strategies.StaleWhileRevalidateStep | service-worker.js:230-245 | stale-while-revalidate always calls fetch, never rejects, and keeps the storage well formed |
| Strategies.Dispatch | service-worker.js:116-161 | the handler declines a request iff it is not a GET or is a `chrome-extension:` URL, and every strategy keeps the storage well formed |
| Strategies.StoreIfOk | service-worker.js:181-184 | a non-ok response or failed fetch changes nothing; an ok 206 only opens the current cache; a cacheable response ends up under the URL in the current cache; the storage stays well formed (framing in `StoreIfOkStoresOnlyCacheable`) |
| Strategies.StoreIfOkStoresOnlyCacheable | service-worker.js:181-184 | the conditional write leaves the storage alone for a non-ok response, at most creates the current cache for a 206, and otherwise writes the response under the URL into the current cache and nothing else |
| Strategies.OnlyCacheableIsStored | service-worker.js:181-184 | no strategy stores any entry except a cacheable fetched response, only in the current cache and only under the request URL |
| Strategies.CacheFirstHitSkipsNetwork | service-worker.js:168-173 | on a hit, cache-first serves the cached entry, does not fetch, writes nothing, and ignores the network |
| Strategies.CacheFirstOffline | service-worker.js:187-195 | on a miss with the network down, cache-first serves the 503 fallback and writes nothing |
| Strategies.CacheFirstMissServesNetwork | service-worker.js:175-186 | on a miss, cache-first fetches and returns the network's response unchanged, ok or not |
| Strategies.CacheFirstMissThenHit | service-worker.js:175-186 | after a miss fetches a cacheable response, the next request for the URL is a hit served without fetching |
| Strategies.PartialContentIsRefetched | service-worker.js:177-186 | a 206 response is served but not stored, so the next request for the URL misses and fetches again |
| Strategies.NetworkFirstPrefersNetwork | service-worker.js:203-212 | network-first returns whatever fetch resolves to, stores nothing for a non-ok response, and only creates the current cache for a 206 |
| Strategies.NetworkFirstFallsBack | service-worker.js:213-223 | with the network down, network-first serves the cached entry or rethrows the same error, writing nothing |
| Strategies.NetworkFirstOfflineAfterOnline | service-worker.js:202-224 | when no other cache holds the URL, a cacheable API response fetched online is served again when the network later fails |
| Strategies.StaleHitIgnoresNetwork | service-worker.js:231-244 | on a hit, stale-while-revalidate serves the cached entry whatever the network does |
| Strategies.StaleMissServesNetwork | service-worker.js:233-244 | on a miss, stale-while-revalidate waits for the fetch and returns its response unchanged, ok or not |
| Strategies.StaleMissOfflineIsUndefined | service-worker.js:239-244 | on a miss with the network down it resolves to `undefined` and writes nothing |
| Strategies.StaleThenRefreshed | service-worker.js:233-238 | when no other cache holds the URL, a cacheable revalidation is what the next request for the URL is served |
| Strategies.OlderCacheServedFirst | service-worker.js:168-172 | cache-first serves an outdated cache's entry, listed first, over the current cache's |
| Lifecycle.Precached | service-worker.js:67-74 | precaching keeps the cache names and every other cache, and keeps the storage well formed |
| Lifecycle.Installed | service-worker.js:61-75 | install keeps the storage well formed |
| Lifecycle.Activated | service-worker.js:93-104 | activation keeps the storage well formed |
| Lifecycle.Cleared | service-worker.js:259-262 | clearing keeps the storage well formed |
| Lifecycle.DeleteVisited | service-worker.js:97-102 | one turn of the deletion loop keeps the spared and not-yet-visited caches and deletes the visited name unless spared |
| Lifecycle.NothingVisited | service-worker.js:94-97 | before the loop visits any name, everything is kept |
| Lifecycle.AllVisited | service-worker.js:96-103 | helper for the deletion loop: after it visits every name, only the spared caches remain |
| Lifecycle.PrecachedFromList | service-worker.js:67-74 | every entry of the current cache after precaching was there before, or is the cacheable response fetched for a listed URL |
| Lifecycle.PrecachedKeepsOk | service-worker.js:67-74 | every listed URL whose fetch answered a cacheable response is in the current cache afterwards, even when other fetches failed |
| Lifecycle.PrecachedStoresFetched | service-worker.js:67-74 | `add` overwrites: a listed URL not repeated later holds exactly its fetched cacheable response, even if the cache held an older entry |
| Lifecycle.PrecacheDistinct | service-worker.js:47-53 | the sixteen precache URLs are pairwise different |
| Lifecycle.InstallStoresFetched | service-worker.js:58-85 | after install, every precache URL whose fetch gives a cacheable response holds exactly that response |
| Lifecycle.InstallAddsOnlyListed | service-worker.js:58-85 | install creates the current cache, touches no other cache, and adds only cacheable responses for precache URLs |
| Lifecycle.ActivatedKeepsOnlyCurrent | service-worker.js:90-111 | after activation only the current cache is left, with its entries unchanged, or nothing if it never existed |
| Lifecycle.ClearedIsEmpty | service-worker.js:257-262 | after `CLEAR_CACHE` no cache is left, the current one included |
| Worker.ServiceWorker.constructor | service-worker.js:7-8 | the initial state before any event: a well-formed storage, not yet waiting-skipped or claimed |
| Worker.ServiceWorker.Install | service-worker.js:58-85 | the storage becomes `Installed` of the old one and waiting is skipped |
| Worker.ServiceWorker.Precache | service-worker.js:67-74 | the add loop leaves the storage as `Precached` of the old one |
| Worker.ServiceWorker.Activate | service-worker.js:90-111 | the storage becomes `Activated` of the old one and the clients are claimed |
| Worker.ServiceWorker.DeleteCaches | service-worker.js:94-103 | the loop over a snapshot of the names leaves exactly the spared caches |
| Worker.ServiceWorker.ClearCache | service-worker.js:257-268 | the storage becomes `Cleared` of the old one and the reply is success |
| Worker.ServiceWorker.GetCacheSize | service-worker.js:282-297 | the current cache is opened, and the size is the sum of its entries' body sizes |
| Worker.ServiceWorker.HandleMessage | service-worker.js:250-277 | each of the three message types has its effect and reply, and any other type changes nothing and replies nothing |
| Worker.ServiceWorker.HandleFetch | service-worker.js:116-161 | a non-GET or extension request is declined without fetching and leaves the storage unchanged; any other request is replied to, fetched and written exactly as `Dispatch` says |
| Worker.ServiceWorker.CacheFirst | service-worker.js:167-196 | reply, fetch and new storage are those of `CacheFirstStep` |
| Worker.ServiceWorker.NetworkFirst | service-worker.js:202-224 | reply, fetch and new storage are those of `NetworkFirstStep` |
| Worker.ServiceWorker.StaleWhileRevalidate | service-worker.js:230-245 | reply, fetch and new storage are those of `StaleWhileRevalidateStep` |

## Left out

- Service_worker.js is a second, older copy of the worker wrapped in Markdown fences. It is not part of this model.
- Promise scheduling:
  - handlers and strategies run to completion one after another;
  - the fire-and-forget `put`s and the background revalidation are applied before the strategy returns;
  - concurrent requests interleaving with these writes are not modelled.
- Install adds the resources one after another. `Promise.allSettled` runs them in parallel, but the final storage is the same because each add writes a different URL (`Lifecycle.PrecacheDistinct`).
- The Cache API's other refusals are not modelled, for example a response with `Vary: *` or an opaque error response. Only the 206 refusal is.
- Failures of the cache storage itself are not modelled: an `open`, `put` or `delete` that rejects, quota errors, or the install handler's outer `catch`.
- URL parsing is not modelled. A request comes already split into protocol, hostname and pathname, and relative precache URLs are keys as written.
- Cache keys are the URL string. The platform's matching on method, query string and `Vary` headers is not modelled.
- `cache.keys()` enumeration order is not modelled. `CacheStore.SumSizesRemove` shows the total does not depend on it.
- Response headers and body streams are not modelled. A response is a status, a status text and a byte body, and `blob().size` is the body length.
- Console logging, `event.waitUntil` lifetimes and the `MessagePort` transport are not modelled. A reply is the value the handler posts.
- A message whose `data` is `null` or `undefined` makes the handler throw. The model takes the message type as a string.
- Worker.ServiceWorker.ClearCache: a rejected deletion, which leaves `CLEAR_CACHE` without any reply, is not modelled. Deletions always succeed.
