# Offline cache service worker: routing and cache policy

This project models the service worker `sw.js` of a map-based web application. The worker does three
things:

- On **install** it seeds a cache partition named by the version tag `flex-mikra-v1` with five core
  assets.
- On **activate** it deletes every other partition.
- On **fetch** it classifies the request by hostname and applies one of three strategies:
  - the MercadoLibre API goes network-only, with a JSON error response when offline;
  - OpenStreetMap tiles go cache-first;
  - everything else goes stale-while-revalidate.

Each handler becomes one synchronous step. The decisions are pure functions:

- `Router.Classify` gives the strategy label.
- `Strategies.Run*` give the reply and the log of store and network operations the strategy issued.

The storage is an object, `Caches.CacheStorage`. It holds the partition names in creation order and a
map from partition name to entries. The handlers in `Worker` are methods that change that object.
`Store.Transition` is the same fetch step over a single request-key → response map. `Worker.OnFetch`
is proved to agree with it once activation has left only the current partition.

Modules, in dependency order:

- `Wrappers`: `Option`.
- `Text`: `includes` as a recursive substring search. It is proved equal to "occurs at some position".
- `Http`: responses, the `ok` flag, network outcomes, and the offline fallback response.
- `Config`: `CACHE_NAME`, `PRECACHE_URLS`, and the two hostname fragments.
- `Router`: the classifier.
- `Strategies`: the three strategies and the operation log.
- `Store`: the single-map transition and its guarantees.
- `Caches`: the partitioned storage, the activation filters, and `caches.match` over all partitions.
- `Worker`: the install, activate and fetch handlers.

Modelling choices:

- A response is a value: a status, a body and headers. `ok` means a status from 200 to 299. A clone
  is the same value, so "the stored clone equals the returned response" holds by construction.
- The fallback built by `new Response(...)` has the default status 200, so it is itself `ok`.
- A network outcome is `Fetched(response)` (ok or not) or `NetworkError`. `NetworkError` stands for a
  rejected `fetch` promise.
- What the page receives has three forms:
  - `Respond(r)`;
  - `Rejected`: the cache-first path has no `.catch`, so an offline miss rejects;
  - `Undefined`: stale-while-revalidate with no entry and no network resolves to the absent cached
    value.
- The source's `put`s are not awaited. They are modelled as completing before the next request.
- `caches.match` searches every partition in creation order. Writes go to `CACHE_NAME`, which is
  opened (created at the end of the order) when absent.

Two consequences of the code:

- The cache-first miss has no `.catch` (sw.js:53-58), so an offline miss rejects.
- A failed install still leaves an unchanged, possibly empty `flex-mikra-v1` partition, because
  `caches.open` runs before `addAll` (sw.js:15-16).

## Model

| member | source | states |
|---|---|---|
| Text.Includes | sw.js:37 | `s.includes(pat)`: the empty pattern is always included and a pattern longer than the hostname never; equal to "occurs at some position" (`Text.IncludesIff`) |
| Text.IncludesIff | sw.js:37 | the recursive `includes` holds exactly when the pattern occurs at some position of the hostname (both directions) |
| Text.MissingCharExcludes | sw.js:37 | a pattern containing a character the hostname lacks is never included |
| Text.IncludesInfix | sw.js:49 | a hostname built as prefix + fragment + suffix always includes the fragment |
| Router.Classify | sw.js:37-49 | network-only iff the hostname includes `api.mercadolibre.com`; cache-first iff it does not but includes `tile.openstreetmap.org`; stale-while-revalidate iff it includes neither |
| Router.ApiWinsOverTiles | sw.js:37-46 | a hostname containing both fragments, in either order, is network-only: the API test comes first |
| Router.TileSubdomainsAreCacheFirst | sw.js:49 | any `<sub>.tile.openstreetmap.org` that does not include the API fragment is cache-first |
| Router.ApiHostIsNetworkOnly | sw.js:37 | the API host itself is network-only |
| Router.TileServerIsNotApi | sw.js:37 | `a.tile.openstreetmap.org` does not include the API fragment |
| Router.TileServerIsCacheFirst | sw.js:49 | `a.tile.openstreetmap.org` is cache-first |
| Router.CdnIsStaleWhileRevalidate | sw.js:67 | `unpkg.com` matches neither fragment and falls through to stale-while-revalidate |
| Router.LookalikeHostIsApi | sw.js:37 | substring matching sends the foreign host `api.mercadolibre.com.example.net` down the API path |
| Http.OfflineFallback | sw.js:40-42 | the offline response is ok, has body `{"error":"Sin conexión"}` and `Content-Type: application/json` |
| Http.Ok | sw.js:54 | `response.ok`: the status lies in 200–299; in particular a response with status 0 (network error or opaque) is never ok |
| Strategies.WrittenBy | sw.js:56 | the last response a log of operations wrote: absent iff the log holds no write, else one of the log's writes |
| Strategies.WriteBack | sw.js:54-57 | the write-back writes the fetched response iff the fetch succeeded with an ok response, and writes nothing otherwise |
| Strategies.RunNetworkOnly | sw.js:38-44 | exactly one fetch (no retry) and no store operation; the network's response is returned unchanged; on a network error the JSON fallback is returned |
| Strategies.RunCacheFirst | sw.js:50-60 | lookup first; a hit returns the entry with no fetch and no write; a miss fetches exactly once and returns the network response (even if not ok), writes it iff ok, and rejects on a network error |
| Strategies.RunStaleWhileRevalidate | sw.js:67-78 | a lookup and exactly one fetch always; an entry is returned whatever the network does; without one the network response (ok or not) is returned, or undefined on a network error; the write happens iff the fetch gave an ok response |
| Strategies.Execute | sw.js:37-79 | picks the strategy by its label: exactly the API path issues no store operation, every other path starts with a lookup, no path fetches more than once, and any write is the ok response the network returned |
| Strategies.NeverWritesNotOk | sw.js:54-57 | for every strategy, a written response is exactly the fetched one and is ok |
| Strategies.ApiIgnoresStore | sw.js:38-44 | the API path's result is the same whatever the store holds, and its log has no store operation |
| Strategies.CacheHitIgnoresNetwork | sw.js:51-52 | a cache-first hit is the same step whatever the network outcome |
| Strategies.StaleAnswerIgnoresNetwork | sw.js:69-77 | with an entry, the stale-while-revalidate reply does not depend on the network outcome |
| Store.Commit | sw.js:56 | the single-map `put`: other keys keep their entries, the request key holds the last response the log wrote when there is one, and with no write the store is unchanged |
| Store.Transition | sw.js:33-79 | one fetch event changes at most the request key, and only to the ok response the network returned; the API path leaves the store unchanged |
| Store.TransitionKeepsAllOk | sw.js:54-57 | a store holding only ok responses still does after any fetch event |
| Store.ApiPath | sw.js:38-44 | the API path replies with the network response or the fallback, and the store is unchanged |
| Store.TileHit | sw.js:51-52 | a cache-first hit replies with the stored entry and leaves the store unchanged |
| Store.TileMiss | sw.js:53-58 | a cache-first miss replies with the fetched response and stores it iff ok; offline it rejects and leaves the store unchanged |
| Store.TileRoundTrip | sw.js:52-56 | after a miss that stored an ok tile, the same request replies with that tile, issues no fetch and changes nothing |
| Store.StaleHit | sw.js:69-77 | with an entry, the reply is the entry; the entry is replaced iff the refresh is ok |
| Store.StaleMiss | sw.js:69-77 | with no entry, the reply is the network response (ok or not), or undefined offline; only an ok response is stored |
| Caches.Stale | sw.js:26 | `keys.filter(key => key !== CACHE_NAME)`: exactly the listed names other than the current one |
| Caches.Kept | sw.js:26 | what survives holds only the current name, and holds it iff it was listed |
| Caches.Minus | sw.js:26 | the names left after deletions: exactly those listed and not deleted; distinct names stay distinct |
| Caches.MinusIsKept | sw.js:26 | deleting every name other than the current one leaves exactly the current-name filter |
| Caches.KeptOfDistinct | sw.js:24-26 | among distinct partition names, activation keeps `[CACHE_NAME]` if present and nothing otherwise |
| Caches.KeptIdempotent | sw.js:24-26 | after activation nothing is stale, and filtering again changes nothing |
| Caches.Retained | sw.js:24-26 | the partition map after activation: at most the current partition, with its entries untouched |
| Caches.MatchIn | sw.js:51 | `caches.match` finds nothing iff no partition holds the key, and otherwise returns the entry of the first partition, in creation order, that holds it |
| Caches.Batch | sw.js:16 | the entries `addAll` adds: exactly the manifest URLs, each holding an ok response |
| Caches.BatchLookup | sw.js:16 | with distinct URLs, each URL is stored under the response fetched for it |
| Caches.CacheStorage.Match | sw.js:51 | `caches.match` over the storage: absent iff no partition holds the key, otherwise an entry one of them holds for it |
| Caches.CacheStorage.Open | sw.js:15 | opening creates an empty partition at the end of the order when absent and changes nothing otherwise |
| Caches.CacheStorage.Put | sw.js:56 | `cache.put` sets the request key of one partition and changes nothing else |
| Caches.CacheStorage.Delete | sw.js:26 | `caches.delete` drops one partition and its name, and reports whether it existed |
| Caches.CacheStorage.AddAll | sw.js:16 | all-or-nothing: all entries are added iff every fetch gave an ok response, and nothing changes otherwise |
| Worker.OnInstall | sw.js:13-19 | the current partition exists afterwards; install succeeds iff every manifest fetch is ok, and each manifest URL then holds its response; on failure the partition's entries are unchanged; no error response enters the store |
| Worker.Precache | sw.js:15-16 | open then `addAll`, for any distinct list of URLs, with the same guarantees as install |
| Worker.OnActivate | sw.js:22-30 | the names left are the current-name filter of the old list, so `[CACHE_NAME]` or nothing; the partitions left are the current one with its entries untouched |
| Worker.OnFetch | sw.js:33-79 | the reply and the new storage follow the classified strategy: a lookup over all partitions (none on the API path), and a write of an ok response into `CACHE_NAME`; with only the current partition left this is `Store.Transition` |
| Worker.ManifestIsDistinct | sw.js:4-10 | the five manifest URLs are distinct |
| Worker.MatchOnlyPartition | sw.js:51 | with only the current partition, `caches.match` is a lookup in it |
| Worker.UpgradeFromV0 | sw.js:26 | for partitions `flex-mikra-v0, flex-mikra-v1`, only `flex-mikra-v0` is stale and `flex-mikra-v1` is kept |
| Worker.ActivationIsIdempotent | sw.js:24-26 | `CACHE_NAME` is never stale; a second activation deletes nothing and leaves names and partitions as the first left them |
| Worker.TileScenario | sw.js:49-60 | after install and activate, a tile fetched once ok is served again while offline |

## Left out

- Promise scheduling, `event.waitUntil` and `event.respondWith`. Each handler is one synchronous step.
- Concurrency between overlapping fetch events and last-writer-wins races on `cache.put`. These are
  about interleaving, and the model has none.
- `self.skipWaiting()` and `self.clients.claim()` (sw.js:17, 28). They are lifecycle signals with no
  logic.
- `new URL(...)` parsing. The hostname and the request key are inputs.
- The Cache API's matching rules: method, `Vary` and query options. A request is identified by one key
  string.
- The Cache API's rules for writing. The platform's `cache.put` rejects a non-GET request, a 206
  response and a response with `Vary: *`. The model assumes every request written back is a GET and
  every response written is neither 206 nor `Vary: *`, so it stores every ok response.
- Real `fetch`, response body streams and `clone()`. Responses are opaque values.
- Cache persistence, eviction and quota.
- What the browser does with a rejected or `undefined` value passed to `respondWith`. The model stops
  at `Rejected` and `Undefined`.
- Partitions created by other scripts of the same origin.
- Caches.CacheStorage.AddAll: the all-or-nothing behaviour is an assumption about the platform's
  `addAll`. So is the rule that a response is accepted only if ok. The rejection of duplicate URLs in
  one batch is not modelled: the manifest has none (`Worker.ManifestIsDistinct`).
- Manifest keys are the URL strings as written. Relative URLs are not resolved against the worker's
  scope.
