/**
 * The CDN edge: one request handler that either forwards `/api/` traffic to
 * the backend (BYPASS) or serves the cache protocol (HIT or MISS, or 502 when
 * the origin fails), plus the purge operation and the stats listing.
 *
 * `Serve` and `Purged` describe one step on the whole edge state as a value;
 * class `EdgeCache` performs the same steps in place on its fields, and
 * its methods are proved to agree with those two functions.
 */
module EdgeServer {
  import opened Wrappers
  import opened CachePolicy
  import opened CacheStore

  /** Time an entry stays fresh after being stored, in milliseconds (one hour). */
  const TtlMs: int := 60 * 60 * 1000

  /**
   * What forwarding the request to the backend API yields: a reply with its
   * status and its body read as JSON (`None` when the body is not JSON, so that
   * reading it throws), or a transport failure.
   */
  datatype ApiOutcome = ApiReply(status: int, json: Option<string>) | ApiUnreachable

  /**
   * What fetching the cache key from the origin yields: a reply with its status,
   * its `content-type` header if any and its body text, or a failure.
   * `OriginUnreachable` stands for every way the fetch throws: a transport
   * failure, and also a body that cannot be read (`text()` rejecting after a
   * 2xx status). Both end in the same 502 answer, after the miss is counted,
   * with the store untouched.
   */
  datatype OriginOutcome = OriginReply(status: int, contentType: Option<string>, content: string) | OriginUnreachable

  /**
   * One inbound request: its URL, the clock reading when it is handled, and
   * what the API and the origin would answer. Only the path that the URL
   * selects consults its outcome.
   */
  datatype Request = Request(url: string, now: int, api: ApiOutcome, origin: OriginOutcome)

  /** The value of the `X-Cache` header. */
  datatype CacheTag = HIT | MISS | BYPASS

  /**
   * The edge's answer. `Hit` and `Miss` carry the key echoed in `X-Cache-Key`,
   * the `Content-Type`, the `ETag` and the body; `OriginBadGateway` carries the
   * origin's status when it answered (`None` for a transport failure).
   */
  datatype Response =
    | Bypass(json: string)
    | ApiBadGateway
    | Hit(key: string, contentType: Option<string>, etag: string, content: string)
    | Miss(key: string, contentType: Option<string>, etag: string, content: string)
    | OriginBadGateway(key: string, originStatus: Option<int>)
  {
    /** The HTTP status: 200 exactly for the replies that carry an `X-Cache` tag, 502 for the rest. */
    function StatusCode(): (code: int)
      ensures code == 200 || code == 502
      ensures code == 200 <==> XCache().Some?
    {
      if ApiBadGateway? || OriginBadGateway? then 502 else 200
    }

    /** The `X-Cache` header: only the cache protocol's and the bypass's successful replies carry one. */
    function XCache(): (tag: Option<CacheTag>)
      ensures tag.Some? <==> !(ApiBadGateway? || OriginBadGateway?)
      ensures tag == Some(HIT) <==> Hit?
      ensures tag == Some(MISS) <==> Miss?
      ensures tag == Some(BYPASS) <==> Bypass?
    {
      match this
      case Bypass(_) => Some(BYPASS)
      case Hit(_, _, _, _) => Some(HIT)
      case Miss(_, _, _, _) => Some(MISS)
      case _ => None
    }
  }

  /**
   * The counters of `cacheStats`, and `bypassed`, a count of API requests that
   * the source does not keep but that accounts for the requests that are
   * neither hits nor misses.
   */
  datatype Stats = Stats(requests: nat, hits: nat, misses: nat, cachedItems: nat, bypassed: nat)

  datatype Edge = Edge(store: Store, stats: Stats)

  /**
   * What holds of the edge between requests: `cachedItems` is the size of the
   * store and every request was counted as exactly one of hit, miss or bypass.
   */
  ghost predicate Consistent(s: Edge) {
    && Valid(s.store)
    && s.stats.cachedItems == Size(s.store)
    && s.stats.requests == s.stats.hits + s.stats.misses + s.stats.bypassed
  }

  /** The edge at start-up: an empty store and zero counters. */
  function Initial(): (s: Edge)
    ensures Consistent(s)
    ensures Rows(s.store) == []
  {
    Edge(Empty(), Stats(0, 0, 0, 0, 0))
  }

  /** `req.url || '/'`: the URL itself, or `/` for an empty URL. */
  function CacheKey(url: string): (key: string)
    ensures key != ""
  {
    if url == "" then "/" else url
  }

  /** `Response.ok` of the fetch API. */
  predicate IsOk(status: int)
    ensures IsOk(status) <==> status / 100 == 2
  {
    200 <= status <= 299
  }

  /** An entry answers a request made at `now` only before it expires. */
  predicate IsLive(e: Entry, now: int)
    ensures e.expiresAt == e.cachedAt + TtlMs ==>
      (IsLive(e, now) <==> now - e.cachedAt < 3600000)
  {
    now < e.expiresAt
  }

  /**
   * The request classifier: `/api/` URLs are dynamic and bypass the cache.
   * The policy refuses to store anything under such a URL's cache key, so
   * this routing check and the policy's own check agree.
   */
  predicate IsApi(req: Request)
    ensures IsApi(req) <==> |req.url| >= 5 && req.url[..5] == "/api/"
    ensures IsApi(req) ==> CacheKey(req.url) == req.url
    ensures IsApi(req) && req.origin.OriginReply? ==> !IsCacheable(CacheKey(req.url), req.origin.contentType)
  {
    StartsWith(req.url, ApiPrefix)
  }

  /** Is the request served from the store? */
  predicate IsHit(s: Edge, req: Request)
    ensures IsHit(s, req) ==> !IsApi(req)
    ensures IsHit(s, req) ==>
      Get(s.store, CacheKey(req.url)).Some? && IsLive(s.store.entries[CacheKey(req.url)], req.now)
  {
    var key := CacheKey(req.url);
    !IsApi(req) && key in s.store.entries && IsLive(s.store.entries[key], req.now)
  }

  /** The entry stored for a cacheable origin body fetched at `now`. */
  function NewEntry(content: string, contentType: string, now: int, etagOf: string -> string): (e: Entry)
    ensures e.content == content && e.contentType == contentType
    ensures e.etag == etagOf(content)
    ensures e.cachedAt == now && e.expiresAt - e.cachedAt == 3600000
  {
    Entry(content, contentType, etagOf(content), now + TtlMs, now)
  }

  /**
   * The answer to a forwarded API request: the API's JSON passed on as a
   * BYPASS whatever the API's status, or a 502 when the fetch failed or the
   * body was not JSON.
   */
  function ForwardResponse(api: ApiOutcome): (resp: Response)
    ensures resp.Bypass? <==> api.ApiReply? && api.json.Some?
    ensures resp.Bypass? ==> resp.json == api.json.value
    ensures !resp.Bypass? ==> resp == ApiBadGateway
  {
    match api
    case ApiReply(_, Some(data)) => Bypass(data)
    case _ => ApiBadGateway
  }

  /** The miss path, after `misses` has been counted: fetch, maybe store, answer. */
  function FetchFromOrigin(s: Edge, key: string, now: int, origin: OriginOutcome, etagOf: string -> string): (r: (Edge, Response))
    requires Valid(s.store)
    ensures r.0.stats == s.stats.(cachedItems := r.0.stats.cachedItems)
    ensures forall k :: k != key ==> Get(r.0.store, k) == Get(s.store, k)
  {
    match origin
    case OriginUnreachable => (s, OriginBadGateway(key, None))
    case OriginReply(status, contentType, content) =>
      if !IsOk(status) then (s, OriginBadGateway(key, Some(status)))
      else
        var etag := etagOf(content);
        var resp := Miss(key, contentType, etag, content);
        if IsCacheable(key, contentType) then
          var store := Set(s.store, key, NewEntry(content, contentType.value, now, etagOf));
          (Edge(store, s.stats.(cachedItems := Size(store))), resp)
        else (s, resp)
  }

  /**
   * One run of the request handler on the edge state `s`. Every request is
   * counted once, exactly one of hits, misses and bypassed goes up by one,
   * and no key other than the request's cache key changes.
   */
  function Serve(s: Edge, req: Request, etagOf: string -> string): (r: (Edge, Response))
    requires Valid(s.store)
    ensures r.0.stats.requests == s.stats.requests + 1
    ensures r.0.stats.hits + r.0.stats.misses + r.0.stats.bypassed
         == s.stats.hits + s.stats.misses + s.stats.bypassed + 1
    ensures r.0.stats.hits >= s.stats.hits && r.0.stats.misses >= s.stats.misses
    ensures r.0.stats.bypassed >= s.stats.bypassed
    ensures forall k :: k != CacheKey(req.url) ==> Get(r.0.store, k) == Get(s.store, k)
  {
    var counted := s.stats.(requests := s.stats.requests + 1);
    if IsApi(req) then
      (Edge(s.store, counted.(bypassed := counted.bypassed + 1)), ForwardResponse(req.api))
    else
      var key := CacheKey(req.url);
      if key in s.store.entries && IsLive(s.store.entries[key], req.now) then
        var e := s.store.entries[key];
        (Edge(s.store, counted.(hits := counted.hits + 1)), Hit(key, Some(e.contentType), e.etag, e.content))
      else
        FetchFromOrigin(Edge(s.store, counted.(misses := counted.misses + 1)), key, req.now, req.origin, etagOf)
  }

  /** The handler keeps the edge consistent. */
  lemma ServeKeepsConsistent(s: Edge, req: Request, etagOf: string -> string)
    requires Consistent(s)
    ensures Consistent(Serve(s, req, etagOf).0)
  {
  }

  /**
   * An `/api/` request never touches the store, `hits` or `misses`; it is a
   * BYPASS answered with status 200, whatever the API's status, exactly when
   * the API answered with a JSON body, and a 502 otherwise.
   */
  lemma ApiRequestBypasses(s: Edge, req: Request, etagOf: string -> string)
    requires Valid(s.store)
    requires IsApi(req)
    ensures var (s', resp) := Serve(s, req, etagOf);
      && s'.store == s.store
      && s'.stats == s.stats.(requests := s.stats.requests + 1, bypassed := s.stats.bypassed + 1)
      && (resp.Bypass? <==> req.api.ApiReply? && req.api.json.Some?)
      && (resp.Bypass? ==> resp.json == req.api.json.value && resp.StatusCode() == 200)
      && (!resp.Bypass? ==> resp == ApiBadGateway && resp.StatusCode() == 502)
  {
  }

  /**
   * A request is a HIT exactly when it is not an API request and a live entry
   * is stored under its key; a HIT answers the stored body and ETag, counts
   * only a hit and leaves the store as it was.
   */
  lemma HitIff(s: Edge, req: Request, etagOf: string -> string)
    requires Valid(s.store)
    ensures var (s', resp) := Serve(s, req, etagOf);
      && (resp.Hit? <==> IsHit(s, req))
      && (resp.Hit? ==>
            var e := s.store.entries[CacheKey(req.url)];
            && resp == Hit(CacheKey(req.url), Some(e.contentType), e.etag, e.content)
            && resp.XCache() == Some(HIT)
            && s'.store == s.store
            && s'.stats == s.stats.(requests := s.stats.requests + 1, hits := s.stats.hits + 1))
  {
  }

  /**
   * A request that is not an API request and finds no live entry is a miss,
   * expired entries included: it counts a miss and consults the origin.
   */
  lemma MissCountsOnce(s: Edge, req: Request, etagOf: string -> string)
    requires Valid(s.store)
    requires !IsApi(req) && !IsHit(s, req)
    ensures var (s', resp) := Serve(s, req, etagOf);
      && (resp.Miss? || resp.OriginBadGateway?)
      && resp.key == CacheKey(req.url)
      && s'.stats.requests == s.stats.requests + 1
      && s'.stats.misses == s.stats.misses + 1
      && s'.stats.hits == s.stats.hits
      && s'.stats.bypassed == s.stats.bypassed
  {
  }

  /**
   * A miss on a successful, cacheable origin reply answers the origin's body
   * with its ETag and overwrites the key's entry with a fresh one that
   * expires one TTL from now; no other key changes and `cachedItems` is the
   * new store size.
   */
  lemma MissStoresCacheable(s: Edge, req: Request, etagOf: string -> string)
    requires Consistent(s)
    requires !IsApi(req) && !IsHit(s, req)
    requires req.origin.OriginReply? && IsOk(req.origin.status)
    requires IsCacheable(CacheKey(req.url), req.origin.contentType)
    ensures var (s', resp) := Serve(s, req, etagOf);
      var o, key := req.origin, CacheKey(req.url);
      && resp == Miss(key, o.contentType, etagOf(o.content), o.content)
      && resp.StatusCode() == 200 && resp.XCache() == Some(MISS)
      && Get(s'.store, key) == Some(Entry(o.content, o.contentType.value, etagOf(o.content), req.now + 3600000, req.now))
      && (forall k :: k != key ==> Get(s'.store, k) == Get(s.store, k))
      && s'.stats.cachedItems == Size(s'.store)
      && Size(s'.store) == if key in s.store.entries then Size(s.store) else Size(s.store) + 1
  {
  }

  /**
   * A miss on a successful origin reply that is not cacheable still answers
   * the body with its ETag and a MISS tag, but leaves the store, and with it
   * any expired entry for the key, unchanged.
   */
  lemma MissKeepsUncacheable(s: Edge, req: Request, etagOf: string -> string)
    requires Valid(s.store)
    requires !IsApi(req) && !IsHit(s, req)
    requires req.origin.OriginReply? && IsOk(req.origin.status)
    requires !IsCacheable(CacheKey(req.url), req.origin.contentType)
    ensures var (s', resp) := Serve(s, req, etagOf);
      var o := req.origin;
      && resp == Miss(CacheKey(req.url), o.contentType, etagOf(o.content), o.content)
      && s'.store == s.store
      && s'.stats.cachedItems == s.stats.cachedItems
  {
  }

  /**
   * A failed origin fetch, by transport error or by a status outside 2xx,
   * answers 502 after counting the miss and leaves the store and
   * `cachedItems` unchanged.
   */
  lemma OriginFailureIsBadGateway(s: Edge, req: Request, etagOf: string -> string)
    requires Valid(s.store)
    requires !IsApi(req) && !IsHit(s, req)
    requires req.origin.OriginUnreachable? || !IsOk(req.origin.status)
    ensures var (s', resp) := Serve(s, req, etagOf);
      && resp.OriginBadGateway? && resp.StatusCode() == 502
      && resp.originStatus == (if req.origin.OriginReply? then Some(req.origin.status) else None)
      && s'.store == s.store
      && s'.stats == s.stats.(requests := s.stats.requests + 1, misses := s.stats.misses + 1)
  {
  }

  /**
   * Two requests for the same key: after a miss that stored the origin's
   * body, any later request within the TTL is a HIT with the same body and
   * ETag, whatever the origin would now answer; from one TTL on it is not.
   */
  lemma StoredThenHit(s: Edge, first: Request, second: Request, etagOf: string -> string)
    requires Valid(s.store)
    requires !IsApi(first) && !IsHit(s, first)
    requires first.origin.OriginReply? && IsOk(first.origin.status)
    requires IsCacheable(CacheKey(first.url), first.origin.contentType)
    requires CacheKey(second.url) == CacheKey(first.url)
    ensures var (s1, r1) := Serve(s, first, etagOf);
      var r2 := Serve(s1, second, etagOf).1;
      && r1.Miss?
      && (first.now <= second.now < first.now + TtlMs ==>
            r2 == Hit(r1.key, first.origin.contentType, r1.etag, r1.content))
      && (second.now >= first.now + TtlMs ==> !r2.Hit?)
  {
  }

  /** `bypassed` counts on the API path only. */
  lemma BypassedOnlyOnApiPath(s: Edge, req: Request, etagOf: string -> string)
    requires Valid(s.store)
    ensures var s' := Serve(s, req, etagOf).0;
      s'.stats.bypassed == s.stats.bypassed + (if IsApi(req) then 1 else 0)
  {
  }

  /** The purge step: empty the store and `cachedItems`; answer how many entries there were. */
  function Purged(s: Edge): (r: (Edge, nat))
    requires Valid(s.store)
    ensures r.1 == Size(s.store)
    ensures Size(r.0.store) == 0 && r.0.stats.cachedItems == 0
    ensures Valid(r.0.store) && Rows(r.0.store) == []
    ensures forall k :: Get(r.0.store, k) == None
    ensures r.0.stats == s.stats.(cachedItems := 0)
  {
    (Edge(Empty(), s.stats.(cachedItems := 0)), Size(s.store))
  }

  /** Purging keeps the edge consistent. */
  lemma PurgeKeepsConsistent(s: Edge)
    requires Consistent(s)
    ensures Consistent(Purged(s).0)
  {
  }

  /** After a purge no request is a HIT until something is stored again. */
  lemma PurgeThenMiss(s: Edge, req: Request, etagOf: string -> string)
    requires Valid(s.store)
    ensures !Serve(Purged(s).0, req, etagOf).1.Hit?
  {
    HitIff(Purged(s).0, req, etagOf);
  }

  /** The handler run over a sequence of requests, in order. */
  function Run(s: Edge, reqs: seq<Request>, etagOf: string -> string): (s': Edge)
    requires Valid(s.store)
    ensures Valid(s'.store)
    decreases |reqs|
  {
    if reqs == [] then s
    else Run(Serve(s, reqs[0], etagOf).0, reqs[1..], etagOf)
  }

  /**
   * Over any sequence of requests the edge stays consistent, so
   * `requests == hits + misses + bypassed` and `hits <= requests` hold
   * throughout, and `requests` grows by the number of requests.
   */
  lemma {:induction false} RunAccounting(s: Edge, reqs: seq<Request>, etagOf: string -> string)
    requires Consistent(s)
    ensures var s' := Run(s, reqs, etagOf);
      && Consistent(s')
      && s'.stats.requests == s.stats.requests + |reqs|
      && s'.stats.hits <= s'.stats.requests
      && s'.stats.hits >= s.stats.hits && s'.stats.misses >= s.stats.misses
    decreases |reqs|
  {
    if reqs != [] {
      var s1 := Serve(s, reqs[0], etagOf).0;
      ServeKeepsConsistent(s, reqs[0], etagOf);
      RunAccounting(s1, reqs[1..], etagOf);
    }
  }

  /**
   * From start-up, the origin serving `<h1>hi</h1>` as `text/html` for
   * `/index.html`: a MISS with the body's ETag, then a HIT with the same body
   * and ETag, then a purge that clears one item, then a MISS again.
   */
  lemma IndexPageScenario(etagOf: string -> string, t: int)
    ensures
      var body := "<h1>hi</h1>";
      var origin := OriginReply(200, Some("text/html"), body);
      var (s1, r1) := Serve(Initial(), Request("/index.html", t, ApiUnreachable, origin), etagOf);
      var (s2, r2) := Serve(s1, Request("/index.html", t + 1, ApiUnreachable, origin), etagOf);
      var (s3, cleared) := Purged(s2);
      var (s4, r4) := Serve(s3, Request("/index.html", t + 2, ApiUnreachable, origin), etagOf);
      && r1 == Miss("/index.html", Some("text/html"), etagOf(body), body)
      && r2 == Hit("/index.html", Some("text/html"), etagOf(body), body)
      && cleared == 1
      && r4 == Miss("/index.html", Some("text/html"), etagOf(body), body)
      && s4.stats == Stats(3, 1, 2, 1, 0)
  {
    var url := "/index.html";
    assert !StartsWith(url, ApiPrefix) by { assert url[1] != ApiPrefix[1]; }
    assert IsCacheable(url, Some("text/html")) by {
      IsCacheableIff(url, Some("text/html"));
    }
  }

  /**
   * The edge server's mutable state: the cache map (with its insertion
   * order) and the counters, updated in place by the handler and the purge.
   */
  class EdgeCache {
    var entries: map<string, Entry>
    var keyOrder: seq<string>
    var hits: nat
    var misses: nat
    var requests: nat
    var cachedItems: nat
    ghost var bypassed: nat
    /** The content hash used for ETags (MD5 in the source), left uninterpreted. */
    const etagOf: string -> string

    ghost function State(): Edge
      reads this
    {
      Edge(Store(keyOrder, entries), Stats(requests, hits, misses, cachedItems, bypassed))
    }

    ghost predicate Valid()
      reads this
    {
      Consistent(State())
    }

    constructor (etagOf: string -> string)
      ensures Valid() && State() == Initial()
      ensures this.etagOf == etagOf
    {
      entries, keyOrder := map[], [];
      hits, misses, requests, cachedItems := 0, 0, 0, 0;
      bypassed := 0;
      this.etagOf := etagOf;
    }

    /** The cache middleware: handle one request, updating the store and counters in place. */
    method Handle(req: Request) returns (resp: Response)
      requires Valid()
      modifies this
      ensures Valid()
      ensures (State(), resp) == Serve(old(State()), req, etagOf)
      ensures requests == old(requests) + 1
    {
      ghost var before := State();
      requests := requests + 1;
      if IsApi(req) {
        bypassed := bypassed + 1;
        resp := ForwardResponse(req.api);
      } else {
        var key := CacheKey(req.url);
        if key in entries && req.now < entries[key].expiresAt {
          hits := hits + 1;
          var e := entries[key];
          resp := Hit(key, Some(e.contentType), e.etag, e.content);
        } else {
          misses := misses + 1;
          resp := FetchMiss(key, req.now, req.origin);
        }
      }
      assert (State(), resp) == Serve(before, req, etagOf);
      ServeKeepsConsistent(before, req, etagOf);
    }

    /** The miss path of the middleware, after the miss is counted: fetch, maybe store, answer. */
    method FetchMiss(key: string, now: int, origin: OriginOutcome) returns (resp: Response)
      requires CacheStore.Valid(State().store)
      modifies this
      ensures (State(), resp) == FetchFromOrigin(old(State()), key, now, origin, etagOf)
    {
      match origin {
        case OriginUnreachable =>
          resp := OriginBadGateway(key, None);
        case OriginReply(status, contentType, content) =>
          if !IsOk(status) {
            resp := OriginBadGateway(key, Some(status));
          } else {
            var etag := etagOf(content);
            if IsCacheable(key, contentType) {
              var e := Entry(content, contentType.value, etag, now + TtlMs, now);
              if key !in entries {
                keyOrder := keyOrder + [key];
              }
              entries := entries[key := e];
              cachedItems := |entries|;
            }
            resp := Miss(key, contentType, etag, content);
          }
      }
    }

    /** The purge endpoint: clear the store and `cachedItems`, answer how many entries went. */
    method Purge() returns (cleared: nat)
      requires Valid()
      modifies this
      ensures Valid()
      ensures (State(), cleared) == Purged(old(State()))
      ensures StatsEntries() == []
      ensures requests == old(requests) && hits == old(hits) && misses == old(misses)
    {
      cleared := |entries|;
      entries, keyOrder := map[], [];
      cachedItems := 0;
    }

    /** The `cache` listing of the stats endpoint: one row per stored key, in insertion order. */
    function StatsEntries(): (rows: seq<Row>)
      reads this
      requires Valid()
      ensures |rows| == cachedItems == |keyOrder|
      ensures forall i :: 0 <= i < |rows| ==>
        && keyOrder[i] in entries
        && rows[i] == Row(keyOrder[i], |entries[keyOrder[i]].content|, entries[keyOrder[i]].contentType,
                          entries[keyOrder[i]].cachedAt, entries[keyOrder[i]].expiresAt)
      ensures forall k :: k in entries ==> exists i :: 0 <= i < |rows| && rows[i].url == k
    {
      Rows(Store(keyOrder, entries))
    }
  }
}
