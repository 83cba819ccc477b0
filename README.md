# CDN edge cache — a Dafny model

This project models the edge-caching reverse proxy of the cinema app
(`level1/cinema-app/cdn-edge/server.js`). The proxy stands between clients, a
static-content origin and a backend API:

- requests under `/api/` are forwarded to the API and tagged `X-Cache: BYPASS`;
- every other request is looked up in an in-memory map keyed by the raw URL
  (`/` for an empty URL). A live entry (`now < expiresAt`) is a HIT. Anything
  else is a MISS: the edge fetches from the origin and, when the policy allows,
  stores the body with a one-hour TTL. The body goes back to the client either way;
- a failed fetch answers 502;
- a purge empties the map and a stats listing describes every stored entry.

Files and modules:

- `wrappers.dfy` — `Wrappers.Option`, for absent headers and bodies that do not parse.
- `cache_policy.dfy` — `CachePolicy`: the `isCacheable` policy over string
  prefixes, with its allowed content-type list.
- `cache_store.dfy` — `CacheStore`: the JavaScript `Map` the edge keeps, as a
  map plus the order in which keys were first inserted. `set` on an existing
  key keeps its place, `size` is the number of entries, and the stats
  listing's `entries().map(...)` follows insertion order.
- `edge_server.dfy` — `EdgeServer`. It holds the request handler and the
  purge as functions on the whole edge state (`Serve`, `Purged`), the lemmas
  about them, and class `EdgeCache`. That class keeps the map and the counters
  `hits`, `misses`, `requests` and `cachedItems` as fields and updates them in
  place. Its `Handle` and `Purge` are proved to agree with `Serve` and `Purged`.

The state invariant (`Consistent`) has three parts:
- `cachedItems` equals the store size;
- the key listing is duplicate-free and names exactly the stored keys;
- `requests == hits + misses + bypassed`.

`bypassed` is a ghost counter of API requests. The source does not keep it,
but it is what makes the accounting exact.

What the outside world supplies is passed in, not fetched:
- each `Request` carries the clock reading `now` (milliseconds);
- it also carries the outcome the API would give (`ApiReply(status, json)` or
  `ApiUnreachable`; `json == None` means the body is not JSON, so
  `apiResponse.json()` throws);
- and the outcome the origin would give (`OriginReply(status, contentType,
  content)` or `OriginUnreachable`). `OriginUnreachable` covers a transport
  failure and also a body that cannot be read after a 2xx status; both end in
  the same 502 answer.

The ETag hash (MD5 in the source) is a function `etagOf: string -> string`
given to the `EdgeCache` constructor. It is deterministic and otherwise
uninterpreted.

Two behaviours of the code shape the model:
- On the API path the upstream status is never checked. Any reply whose body
  parses as JSON is passed on with status 200, so a 404 from the API also
  reaches the client as 200 (`ApiRequestBypasses`). Only an exception (a
  transport failure or a body that is not JSON) gives 502.
- The catch-all middleware never calls `next()`, so the stats and purge routes
  cannot be reached by URL. The model offers them as direct operations
  (`EdgeCache.StatsEntries`, `EdgeCache.Purge`) and does not dispatch URLs to them.

## Model

| member | source | states |
|---|---|---|
| `CachePolicy.StartsWith` | level1/cinema-app/cdn-edge/server.js:47 | `startsWith` holds iff the prefix is no longer than the string and agrees with it character by character (also used at lines 58 and 68) |
| `CachePolicy.AnyPrefixOf` | level1/cinema-app/cdn-edge/server.js:58 | the `.some` scan: the empty list matches nothing and a match on the first element succeeds; the full characterisation is `AnyPrefixOfIff` |
| `CachePolicy.IsCacheable` | level1/cinema-app/cdn-edge/server.js:45-59 | never true for a key under `/api/`; true only when a content type is present |
| `CachePolicy.AnyPrefixOfIff` | level1/cinema-app/cdn-edge/server.js:58 | the `.some` scan over the prefix list succeeds iff some listed prefix starts the content type |
| `CachePolicy.IsCacheableIff` | level1/cinema-app/cdn-edge/server.js:45-58 | cacheable iff the key is not under `/api/`, a content type is present, and it starts with `text/html`, `text/css`, `application/javascript`, `image/` or `font/` |
| `CachePolicy.PolicyExamples` | level1/cinema-app/cdn-edge/server.js:47-58 | `/api/x` with `text/html` is refused; `application/octet-stream` is refused; `image/png` is accepted; an absent content type is refused |
| `CacheStore.Empty` | level1/cinema-app/cdn-edge/server.js:25 | a new map is valid, has size 0 and holds no key |
| `CacheStore.Get` | level1/cinema-app/cdn-edge/server.js:91 | `get` finds a value iff the key is stored, returns that key's entry, and, in a valid store, finds one iff the key is in the insertion-order listing |
| `CacheStore.Size` | level1/cinema-app/cdn-edge/server.js:137 | `size` is zero exactly for the empty map (also read at line 188) |
| `CacheStore.Set` | level1/cinema-app/cdn-edge/server.js:130 | `set` makes the key map to the new entry and changes no other key; an existing key keeps its listing position and a new key is appended |
| `CacheStore.OrderMatchesSize` | level1/cinema-app/cdn-edge/server.js:137 | the insertion-order listing has exactly `size` keys |
| `CacheStore.DistinctKeysCount` | level1/cinema-app/cdn-edge/server.js:176 | a duplicate-free key list naming exactly a map's keys is as long as the map is large |
| `CacheStore.RowFor` | level1/cinema-app/cdn-edge/server.js:177-181 | a listing row carries the key as `url`, the body length as `size`, and the entry's content type, `cachedAt` and `expiresAt` |
| `CacheStore.RowsOf` | level1/cinema-app/cdn-edge/server.js:176-182 | the `.map` over the entries gives one row per key, in order, with `size` the body length |
| `CacheStore.Rows` | level1/cinema-app/cdn-edge/server.js:176-182 | the stats listing has `size` rows, in insertion order: row `i` describes the `i`-th inserted key and its stored entry; every stored key appears, and none twice |
| `EdgeServer.Initial` | level1/cinema-app/cdn-edge/server.js:25-33 | at start-up the state is consistent and the listing is empty |
| `EdgeServer.CacheKey` | level1/cinema-app/cdn-edge/server.js:90 | the cache key is never empty (the body gives `/` for an empty URL) |
| `EdgeServer.Response.StatusCode` | level1/cinema-app/cdn-edge/server.js:83-154 | a reply's status is 200 or 502, and 200 exactly for the replies that carry an `X-Cache` tag (lines 83, 108, 151 versus 86, 154) |
| `EdgeServer.Response.XCache` | level1/cinema-app/cdn-edge/server.js:81-146 | `X-Cache` is `BYPASS` exactly on a bypass, `HIT` exactly on a hit and `MISS` exactly on a miss (lines 81, 103, 146); the two 502 replies carry none |
| `EdgeServer.IsOk` | level1/cinema-app/cdn-edge/server.js:119 | `response.ok` holds exactly for statuses of the 2xx class |
| `EdgeServer.IsLive` | level1/cinema-app/cdn-edge/server.js:94 | an entry stored with the one-hour TTL is live exactly while less than 3600000 ms have passed since `cachedAt` |
| `EdgeServer.IsApi` | level1/cinema-app/cdn-edge/server.js:68 | a request is an API request iff its URL starts with `/api/`; for such a request the cache key is the URL itself and the policy refuses to store under it, whatever content type an origin reply carries |
| `EdgeServer.IsHit` | level1/cinema-app/cdn-edge/server.js:90-94 | a hit is never an `/api/` request, and needs an entry under the cache key that is live at `now` |
| `EdgeServer.NewEntry` | level1/cinema-app/cdn-edge/server.js:129-136 | a stored entry keeps the origin's body and content type, has `ETag(body)` as its ETag, `cachedAt == now` and expires exactly 3600000 ms after it was cached |
| `EdgeServer.ForwardResponse` | level1/cinema-app/cdn-edge/server.js:71-87 | the API's JSON is passed on as a BYPASS exactly when the API answered with a JSON body, whatever its status; otherwise the answer is the API 502 |
| `EdgeServer.FetchFromOrigin` | level1/cinema-app/cdn-edge/server.js:115-163 | the miss path changes no counter but `cachedItems` and no key but the request's |
| `EdgeServer.Serve` | level1/cinema-app/cdn-edge/server.js:64-165 | each request raises `requests` by one and exactly one of hits/misses/bypassed by one; counters never decrease; no key other than the request's key changes |
| `EdgeServer.ServeKeepsConsistent` | level1/cinema-app/cdn-edge/server.js:65-137 | the handler preserves `cachedItems == size`, a valid listing and `requests == hits + misses + bypassed` |
| `EdgeServer.ApiRequestBypasses` | level1/cinema-app/cdn-edge/server.js:68-87 | an `/api/` request leaves the store, hits and misses unchanged; it is a BYPASS with status 200 iff the API body parsed as JSON, whatever the API status, and a 502 otherwise |
| `EdgeServer.BypassedOnlyOnApiPath` | level1/cinema-app/cdn-edge/server.js:65-88 | the bypass count goes up exactly for `/api/` requests |
| `EdgeServer.HitIff` | level1/cinema-app/cdn-edge/server.js:90-108 | a HIT happens iff the request is not an API request and its key holds an entry with `now < expiresAt`; it returns the stored body, content type and ETag, raises only `hits` and leaves the store unchanged |
| `EdgeServer.MissCountsOnce` | level1/cinema-app/cdn-edge/server.js:111-117 | a non-API request with no live entry, expired entries included, counts one miss and answers MISS or 502 for its key |
| `EdgeServer.MissStoresCacheable` | level1/cinema-app/cdn-edge/server.js:123-151 | a cacheable successful origin reply is answered as MISS with its body and `ETag(body)`; the key's entry becomes `{body, contentType, ETag(body), now + 3600000, now}`; other keys are unchanged; the size grows by one only for a new key; `cachedItems` equals the new size |
| `EdgeServer.MissKeepsUncacheable` | level1/cinema-app/cdn-edge/server.js:123-151 | an uncacheable successful reply is still answered as MISS with body and ETag; the store, including any expired entry for the key, and `cachedItems` are unchanged |
| `EdgeServer.OriginFailureIsBadGateway` | level1/cinema-app/cdn-edge/server.js:115-121 | a transport error or a non-2xx origin status answers 502 with the status, if there was one; the store is unchanged; only `requests` and `misses` rise |
| `EdgeServer.StoredThenHit` | level1/cinema-app/cdn-edge/server.js:94-134 | after a storing MISS, a request for the same key before expiry is a HIT with the same body and ETag, whatever the origin answers now; from one TTL on it is not a HIT |
| `EdgeServer.Purged` | level1/cinema-app/cdn-edge/server.js:187-193 | purge returns the previous size and leaves an empty store, an empty listing and `cachedItems == 0`; requests, hits and misses are unchanged |
| `EdgeServer.PurgeKeepsConsistent` | level1/cinema-app/cdn-edge/server.js:187-190 | purging preserves the state invariant |
| `EdgeServer.PurgeThenMiss` | level1/cinema-app/cdn-edge/server.js:189 | no request right after a purge is a HIT |
| `EdgeServer.Run` | level1/cinema-app/cdn-edge/server.js:64-165 | running the handler over a sequence of requests keeps the store valid |
| `EdgeServer.RunAccounting` | level1/cinema-app/cdn-edge/server.js:65-112 | over any sequence of N requests the invariant holds, `requests` grows by N, `hits <= requests`, and hits and misses never decrease |
| `EdgeServer.IndexPageScenario` | level1/cinema-app/cdn-edge/server.js:64-193 | for `/index.html` served as `text/html`: MISS with `ETag(body)`, then HIT with the same body and ETag, purge clears 1, then MISS again; counters end at 3 requests, 1 hit, 2 misses |
| `EdgeServer.EdgeCache.constructor` | level1/cinema-app/cdn-edge/server.js:25-33 | a new edge has an empty map and zero counters, and satisfies the invariant |
| `EdgeServer.EdgeCache.Handle` | level1/cinema-app/cdn-edge/server.js:64-165 | the middleware updates the fields in place exactly as `Serve` describes, keeps the invariant and raises `requests` by one |
| `EdgeServer.EdgeCache.FetchMiss` | level1/cinema-app/cdn-edge/server.js:115-163 | the miss path updates the fields in place exactly as `FetchFromOrigin` describes |
| `EdgeServer.EdgeCache.Purge` | level1/cinema-app/cdn-edge/server.js:187-193 | the purge updates the fields as `Purged` describes; it returns the old size, leaves the following stats listing empty and leaves requests/hits/misses unchanged |
| `EdgeServer.EdgeCache.StatsEntries` | level1/cinema-app/cdn-edge/server.js:176-182 | there are `cachedItems` rows, in insertion order; row `i` gives the `i`-th inserted key with its body length, content type, `cachedAt` and `expiresAt` |

## Left out

- Express wiring: `app.listen`, the route registration, and `next()`. The stats and purge operations are direct methods, not URL dispatch targets.
- The `PORT`, `ORIGIN_SERVER` and `API_SERVER` configuration, and the URLs built from them for fetching: configuration and I/O.
- The `fetch` calls themselves, and the forwarded method, header and body of API requests: network I/O. Their outcomes are inputs of each `Request`.
- `res.json`/`res.send`: responses are values of `Response`. The fixed headers (`Cache-Control: public, max-age=31536000`, `X-Served-From`, `X-Cache-Reason`), the JSON error text and the HTML text of the 502 page are left out. A response carries only its variant, key, content type, ETag, body and, for a failed origin, the origin status.
- MD5 (`crypto`): a foreign library. The ETag is the uninterpreted `etagOf`.
- `console.log` and `console.error` output.
- The `hitRate` percentage string (`toFixed(2)`): floating-point formatting. The model states only `hits <= requests` (`RunAccounting`).
- ISO-8601 date strings: `cachedAt` and `expiresAt` are integers of milliseconds.
- EdgeServer.EdgeCache.Handle: one clock reading `now` serves both the freshness test and the new entry's `expiresAt`/`cachedAt`. The source reads the clock again after the origin fetch, so the real `expiresAt` can be later by the fetch time.
- String lengths: `size` is the number of characters in the Dafny string, while JavaScript's `length` counts UTF-16 code units. Byte encoding of bodies is not modelled.
- Concurrency: handlers run one at a time. Two interleaved misses for the same key are not modelled.
