/**
 * The service worker: which requests it intercepts and how it answers them
 * (cache first for static assets, network first for everything else), the
 * clean-up of old caches on activation, and the queue of failed mutations
 * that is replayed when the connection comes back.
 *
 * The Cache Storage is a map from cache name to a map from request URL to
 * response; the localStorage queue is a sequence. The network's answer to a
 * request is a parameter, as are the clock and the outcome of each replayed
 * request.
 */
module ServiceWorker {
  import opened Types
  import Strings

  const CacheName: string := "routineos-v1.0.0"
  const StaticCacheName: string := "routineos-static-v1.0.0"
  const DynamicCacheName: string := "routineos-dynamic-v1.0.0"

  /** The files the install step puts in the static cache. */
  const StaticFiles: seq<string> :=
    ["/", "/manifest.json", "/globals.css", "/_next/static/css/app/layout.css", "/_next/static/css/app/page.css"]

  /** The API endpoints whose successful mutation responses are cached. */
  const CacheUrls: seq<string> := ["/api/auth", "/api/sheets/sync"]

  datatype Body =
    | NetworkBody(content: string)
    | UnavailableText
    | QueuedJson(timestamp: int)
    | OfflineJson
    | OfflinePage

  datatype Response = Response(status: int, body: Body)

  predicate Ok(r: Response)
  {
    200 <= r.status <= 299
  }

  /** A request: its origin, its path, its full URL, its method (verb) and its body. */
  datatype Request = Request(origin: string, path: string, href: string, verb: string, body: string)

  /** The network's answer: a response, or a failure to reach the server. */
  datatype NetResult = NetworkError | NetResponse(response: Response)

  /** A mutation kept for a later retry. */
  datatype FailedRequest = FailedRequest(url: string, verb: string, body: string, timestamp: int)

  // ---------------------------------------------------------------------
  // Request classification
  // ---------------------------------------------------------------------

  datatype Route = NotIntercepted | GetRoute | MutationRoute

  /** The fetch listener: same-origin GETs and same-origin POST, PUT and DELETE are handled, nothing else. */
  function Dispatch(req: Request, selfOrigin: string): (r: Route)
    ensures r == GetRoute <==> req.origin == selfOrigin && req.verb == "GET"
    ensures r == MutationRoute <==> req.origin == selfOrigin && req.verb in {"POST", "PUT", "DELETE"}
    ensures req.origin != selfOrigin ==> r == NotIntercepted
  {
    if req.origin != selfOrigin then NotIntercepted
    else if req.verb == "GET" then GetRoute
    else if req.verb == "POST" || req.verb == "PUT" || req.verb == "DELETE" then MutationRoute
    else NotIntercepted
  }

  /** isStaticAsset */
  predicate IsStaticAsset(path: string)
  {
    Strings.StartsWith(path, "/_next/static/") || Strings.StartsWith(path, "/icons/")
    || Strings.StartsWith(path, "/images/")
    || Strings.EndsWith(path, ".css") || Strings.EndsWith(path, ".js") || Strings.EndsWith(path, ".png")
    || Strings.EndsWith(path, ".jpg") || Strings.EndsWith(path, ".jpeg") || Strings.EndsWith(path, ".svg")
    || Strings.EndsWith(path, ".ico")
  }

  datatype Strategy = CacheFirst(cacheName: string) | NetworkFirst(cacheName: string)

  /** handleGetRequest: static assets cache first from the static cache, every other GET network first. */
  function GetStrategy(path: string): (s: Strategy)
    ensures s.CacheFirst? <==> IsStaticAsset(path)
    ensures s.CacheFirst? ==> s.cacheName == StaticCacheName
    ensures s.NetworkFirst? ==> s.cacheName == DynamicCacheName
  {
    if IsStaticAsset(path) then CacheFirst(StaticCacheName)
    else if Strings.StartsWith(path, "/api/") then NetworkFirst(DynamicCacheName)
    else NetworkFirst(DynamicCacheName)
  }

  /**
   * An asset path is served cache first even under /api/, and the pages the
   * install step stores in the static cache ("/" and "/manifest.json") are
   * served network first from the dynamic cache, where install never put them.
   */
  lemma StrategyExamples()
    ensures GetStrategy("/api/bundle.js") == CacheFirst(StaticCacheName)
    ensures GetStrategy("/") == NetworkFirst(DynamicCacheName)
    ensures GetStrategy("/manifest.json") == NetworkFirst(DynamicCacheName)
    ensures GetStrategy("/globals.css") == CacheFirst(StaticCacheName)
  {
    BundleIsStatic();
    CssIsStatic();
    RootNotStatic();
    ManifestNotStatic();
  }

  lemma BundleIsStatic()
    ensures IsStaticAsset("/api/bundle.js")
  {
    assert "/api/bundle.js"[11..] == ".js";
  }

  lemma CssIsStatic()
    ensures IsStaticAsset("/globals.css")
  {
    assert "/globals.css"[8..] == ".css";
  }

  lemma RootNotStatic()
    ensures !IsStaticAsset("/")
  {
  }

  lemma ManifestNotStatic()
    ensures !IsStaticAsset("/manifest.json")
  {
    var m := "/manifest.json";
    assert m[1] == 'm' && m[|m| - 1] == 'n';
    SecondCharDiffers(m, "/_next/static/");
    SecondCharDiffers(m, "/icons/");
    SecondCharDiffers(m, "/images/");
    LastCharDiffers(m, ".css");
    LastCharDiffers(m, ".js");
    LastCharDiffers(m, ".png");
    LastCharDiffers(m, ".jpg");
    LastCharDiffers(m, ".jpeg");
    LastCharDiffers(m, ".svg");
    LastCharDiffers(m, ".ico");
  }

  lemma SecondCharDiffers(s: string, prefix: string)
    requires |s| > 1 && |prefix| > 1 && s[1] != prefix[1]
    ensures !Strings.StartsWith(s, prefix)
  {
  }

  lemma LastCharDiffers(s: string, suffix: string)
    requires |s| > 0 && |suffix| > 0 && s[|s| - 1] != suffix[|suffix| - 1]
    ensures !Strings.EndsWith(s, suffix)
  {
    if |suffix| <= |s| {
      assert s[|s| - |suffix|..][|suffix| - 1] == s[|s| - 1];
    }
  }

  /** shouldCacheResponse: the URL mentions one of the cacheable endpoints. */
  predicate ShouldCacheResponse(url: string)
  {
    exists i :: 0 <= i < |CacheUrls| && Strings.Contains(url, CacheUrls[i])
  }

  /** getOfflineFallback: a 503 JSON answer under /api/, a 503 offline page elsewhere. */
  function OfflineFallback(req: Request): (r: Response)
    ensures r.status == 503 && !Ok(r)
    ensures r.body == OfflineJson <==> Strings.StartsWith(req.path, "/api/")
    ensures r.body == OfflinePage <==> !Strings.StartsWith(req.path, "/api/")
  {
    if Strings.StartsWith(req.path, "/api/") then Response(503, OfflineJson) else Response(503, OfflinePage)
  }

  /** activate keeps a cache only when its name is one of the three current names. */
  predicate CurrentCache(name: string)
  {
    name == StaticCacheName || name == DynamicCacheName || name == CacheName
  }

  // ---------------------------------------------------------------------
  // The retry queue
  // ---------------------------------------------------------------------

  /** The queued requests whose replay succeeded, in queue order; ok(i) is the outcome of the i-th replay. */
  function Succeeded(queue: seq<FailedRequest>, ok: nat -> bool): (r: seq<FailedRequest>)
    ensures |r| <= |queue|
    ensures forall x :: x in r ==> x in queue
  {
    if queue == [] then []
    else
      var i := |queue| - 1;
      Succeeded(queue[..i], ok) + (if ok(i) then [queue[i]] else [])
  }

  /** Whether a succeeded request carries the same timestamp. */
  predicate MatchesSuccess(x: FailedRequest, successful: seq<FailedRequest>)
  {
    exists k :: 0 <= k < |successful| && successful[k].timestamp == x.timestamp
  }

  /** The queue without the entries whose timestamp matches a succeeded request, order kept. */
  function Remaining(queue: seq<FailedRequest>, successful: seq<FailedRequest>): (r: seq<FailedRequest>)
    ensures |r| <= |queue|
    ensures forall x :: x in r <==> x in queue && !MatchesSuccess(x, successful)
  {
    if queue == [] then []
    else Remaining(queue[..|queue| - 1], successful)
         + (if MatchesSuccess(queue[|queue| - 1], successful) then [] else [queue[|queue| - 1]])
  }

  /** The stored queue after a replay: unchanged when nothing succeeded. */
  function AfterRetry(queue: seq<FailedRequest>, ok: nat -> bool): seq<FailedRequest>
  {
    var successful := Succeeded(queue, ok);
    if |successful| > 0 then Remaining(queue, successful) else queue
  }

  /** retryFailedRequests' loop: replay every queued request in order and collect the ones that succeeded. */
  method ReplayQueue(queue: seq<FailedRequest>, ok: nat -> bool) returns (successful: seq<FailedRequest>)
    ensures successful == Succeeded(queue, ok)
  {
    successful := [];
    for i := 0 to |queue|
      invariant successful == Succeeded(queue[..i], ok)
    {
      assert queue[..i + 1][..i] == queue[..i];
      if ok(i) {
        successful := successful + [queue[i]];
      }
    }
    assert queue[..|queue|] == queue;
  }

  /**
   * After a replay no queued request that succeeded is left, a request that
   * failed stays unless another request with the same timestamp succeeded,
   * and the queue never grows.
   */
  lemma {:induction false} RetryDropsSucceeded(queue: seq<FailedRequest>, ok: nat -> bool)
    ensures var after := AfterRetry(queue, ok);
            |after| <= |queue|
            && (forall i :: 0 <= i < |queue| && ok(i) ==> queue[i] !in after)
            && (forall i :: 0 <= i < |queue| && !ok(i) && !MatchesSuccess(queue[i], Succeeded(queue, ok))
                  ==> queue[i] in after)
  {
    var successful := Succeeded(queue, ok);
    forall i | 0 <= i < |queue| && ok(i)
      ensures queue[i] !in AfterRetry(queue, ok)
    {
      SucceededContains(queue, ok, i);
      assert successful[IndexIn(successful, queue[i])].timestamp == queue[i].timestamp;
    }
  }

  /** A position in s holding x. */
  function IndexIn(s: seq<FailedRequest>, x: FailedRequest): (k: nat)
    requires x in s
    ensures k < |s| && s[k] == x
  {
    if s[0] == x then 0 else 1 + IndexIn(s[1..], x)
  }

  /** A request whose replay succeeded is among the succeeded ones. */
  lemma {:induction false} SucceededContains(queue: seq<FailedRequest>, ok: nat -> bool, i: nat)
    requires i < |queue| && ok(i)
    ensures queue[i] in Succeeded(queue, ok)
  {
    var n := |queue| - 1;
    if i < n {
      SucceededContains(queue[..n], ok, i);
    }
  }

  /**
   * Two queued requests with the same timestamp stand or fall together: when
   * one is replayed successfully, the other is dropped too, even if its own
   * replay failed.
   */
  lemma SharedTimestampDropped(queue: seq<FailedRequest>, ok: nat -> bool, i: nat, j: nat)
    requires i < |queue| && j < |queue| && ok(i) && queue[i].timestamp == queue[j].timestamp
    ensures queue[j] !in AfterRetry(queue, ok)
  {
    var successful := Succeeded(queue, ok);
    SucceededContains(queue, ok, i);
    assert successful[IndexIn(successful, queue[i])].timestamp == queue[j].timestamp;
  }

  /**
   * storeFailedRequest keeps the queue in localStorage. With localStorage
   * the record is appended; a service worker's global scope has none, so the
   * access throws, the catch logs the error and the queue stays as it was.
   */
  function StoredQueue(queue: seq<FailedRequest>, record: FailedRequest, hasLocalStorage: bool): (r: seq<FailedRequest>)
    ensures hasLocalStorage ==> r == queue + [record]
    ensures !hasLocalStorage ==> r == queue
  {
    if hasLocalStorage then queue + [record] else queue
  }

  /** A service worker's global scope has no localStorage. */
  const WorkerHasLocalStorage: bool := false

  /**
   * As written, the queue in a service worker is never stored, so it is
   * always empty: a mutation made offline is answered 202 "queued", yet it is
   * in no queue and no background sync replays it.
   */
  lemma QueuedMutationIsLost(req: Request, now: int, ok: nat -> bool)
    ensures var record := FailedRequest(req.href, req.verb, req.body, now);
            var queue := StoredQueue([], record, WorkerHasLocalStorage);
            record !in queue && Succeeded(queue, ok) == [] && AfterRetry(queue, ok) == []
  {
  }

  /**
   * With a store the worker can use, a queued mutation is the last entry of
   * the queue: the next sync replays it, drops it when the replay is ok, and
   * keeps it when the replay fails and no success shares its timestamp.
   */
  lemma QueuedMutationIsReplayed(queue: seq<FailedRequest>, record: FailedRequest, ok: nat -> bool)
    ensures var q := StoredQueue(queue, record, true);
            q[|queue|] == record
            && (ok(|queue|) ==> record !in AfterRetry(q, ok))
            && (!ok(|queue|) && !MatchesSuccess(record, Succeeded(q, ok)) ==> record in AfterRetry(q, ok))
  {
    RetryDropsSucceeded(queue + [record], ok);
  }

  // ---------------------------------------------------------------------
  // The worker's state
  // ---------------------------------------------------------------------

  class Worker {
    var caches: map<string, map<string, Response>>
    var failedRequests: seq<FailedRequest>
    const origin: string

    constructor (selfOrigin: string)
      ensures caches == map[] && failedRequests == [] && origin == selfOrigin
    {
      caches := map[];
      failedRequests := [];
      origin := selfOrigin;
    }

    /** The response stored for a URL in a cache, if any. */
    function Match(cacheName: string, url: string): Option<Response>
      reads this
    {
      if cacheName in caches && url in caches[cacheName] then Some(caches[cacheName][url]) else None
    }

    /** caches.open: a cache is created empty when it does not exist yet. */
    method OpenCache(cacheName: string)
      modifies this
      ensures caches == if cacheName in old(caches) then old(caches) else old(caches)[cacheName := map[]]
      ensures failedRequests == old(failedRequests)
    {
      if cacheName !in caches {
        caches := caches[cacheName := map[]];
      }
    }

    /**
     * cache.put into an open cache: the response is stored under the
     * request's URL. The Cache API rejects a request whose method is not GET,
     * and then nothing is stored.
     */
    method Put(cacheName: string, req: Request, response: Response)
      requires cacheName in caches
      modifies this
      ensures caches == if req.verb == "GET" then old(caches)[cacheName := old(caches)[cacheName][req.href := response]]
                        else old(caches)
      ensures failedRequests == old(failedRequests)
    {
      if req.verb == "GET" {
        caches := caches[cacheName := caches[cacheName][req.href := response]];
      }
    }

    /**
     * cacheFirst: a stored response is returned without going to the
     * network; otherwise the network's answer is returned, and stored when
     * it is ok; a network failure gives 503.
     */
    method CacheFirstFetch(req: Request, cacheName: string, net: NetResult) returns (resp: Response)
      modifies this
      ensures cacheName in caches && failedRequests == old(failedRequests)
      ensures Match(cacheName, req.href).Some? ==> resp == Match(cacheName, req.href).value
      ensures old(Match(cacheName, req.href)).Some? ==> resp == old(Match(cacheName, req.href)).value
                                                        && caches == old(caches)
      ensures old(Match(cacheName, req.href)).None? ==>
                resp == (if net.NetResponse? then net.response else Response(503, UnavailableText))
                && caches == old(caches)[cacheName := if net.NetResponse? && Ok(net.response) && req.verb == "GET"
                                                      then old(Opened(cacheName))[req.href := net.response]
                                                      else old(Opened(cacheName))]
    {
      OpenCache(cacheName);
      var cached := Match(cacheName, req.href);
      if cached.Some? {
        return cached.value;
      }
      match net
      case NetworkError =>
        resp := Response(503, UnavailableText);
      case NetResponse(r) =>
        if Ok(r) {
          Put(cacheName, req, r);
        }
        resp := r;
    }

    /** The named cache as caches.open would find it. */
    function Opened(cacheName: string): map<string, Response>
      reads this
    {
      if cacheName in caches then caches[cacheName] else map[]
    }

    /**
     * networkFirst: the network's answer is returned, and stored when it is
     * ok; on a network failure the stored response, or else the offline
     * fallback.
     */
    method NetworkFirstFetch(req: Request, cacheName: string, net: NetResult) returns (resp: Response)
      modifies this
      ensures failedRequests == old(failedRequests)
      ensures net.NetResponse? ==> resp == net.response
      ensures net.NetResponse? && !Ok(net.response) ==> caches == old(caches)
      ensures !(net.NetResponse? && !Ok(net.response)) ==>
                caches == old(caches)[cacheName := if net.NetResponse? && req.verb == "GET"
                                                    then old(Opened(cacheName))[req.href := net.response]
                                                    else old(Opened(cacheName))]
      ensures net.NetworkError? ==> resp == if old(Match(cacheName, req.href)).Some?
                                               then old(Match(cacheName, req.href)).value
                                               else OfflineFallback(req)
    {
      match net
      case NetResponse(r) =>
        if Ok(r) {
          OpenCache(cacheName);
          Put(cacheName, req, r);
        }
        resp := r;
      case NetworkError =>
        OpenCache(cacheName);
        var cached := Match(cacheName, req.href);
        if cached.Some? {
          resp := cached.value;
        } else {
          resp := OfflineFallback(req);
        }
    }

    /** storeFailedRequest: one record, stamped with the time, at the end of the queue. */
    method StoreFailedRequest(req: Request, now: int)
      modifies this
      ensures failedRequests == old(failedRequests) + [FailedRequest(req.href, req.verb, req.body, now)]
      ensures caches == old(caches)
    {
      failedRequests := failedRequests + [FailedRequest(req.href, req.verb, req.body, now)];
    }

    /**
     * handleMutationRequest: the network's answer when there is one; when it
     * is ok and the URL is a cacheable endpoint the dynamic cache is opened
     * and the response put there, which the Cache API refuses for a POST, PUT
     * or DELETE, so only the opened cache remains. When the network fails,
     * the request is queued and the answer is 202.
     */
    method HandleMutation(req: Request, net: NetResult, now: int) returns (resp: Response)
      modifies this
      ensures net.NetResponse? ==> resp == net.response && failedRequests == old(failedRequests)
      ensures net.NetResponse? && Ok(net.response) && ShouldCacheResponse(req.href) ==>
                caches == old(caches)[DynamicCacheName := if req.verb == "GET"
                                                          then old(Opened(DynamicCacheName))[req.href := net.response]
                                                          else old(Opened(DynamicCacheName))]
      ensures net.NetResponse? && !(Ok(net.response) && ShouldCacheResponse(req.href)) ==> caches == old(caches)
      ensures net.NetworkError? ==>
                resp == Response(202, QueuedJson(now)) && caches == old(caches)
                && failedRequests == old(failedRequests) + [FailedRequest(req.href, req.verb, req.body, now)]
    {
      match net
      case NetResponse(r) =>
        if Ok(r) && ShouldCacheResponse(req.href) {
          OpenCache(DynamicCacheName);
          Put(DynamicCacheName, req, r);
        }
        resp := r;
      case NetworkError =>
        StoreFailedRequest(req, now);
        resp := Response(202, QueuedJson(now));
    }

    /** The fetch listener: None when the request is left to the browser. */
    method Fetch(req: Request, net: NetResult, now: int) returns (resp: Option<Response>)
      modifies this
      ensures resp.None? <==> Dispatch(req, origin) == NotIntercepted
      ensures resp.None? ==> caches == old(caches) && failedRequests == old(failedRequests)
      ensures Dispatch(req, origin) == GetRoute ==> failedRequests == old(failedRequests)
      // a static asset: cache first from the static cache
      ensures Dispatch(req, origin) == GetRoute && IsStaticAsset(req.path) ==>
                if old(Match(StaticCacheName, req.href)).Some?
                then resp == old(Match(StaticCacheName, req.href)) && caches == old(caches)
                else resp == Some(if net.NetResponse? then net.response else Response(503, UnavailableText))
                     && caches == old(caches)[StaticCacheName :=
                                   if net.NetResponse? && Ok(net.response)
                                   then old(Opened(StaticCacheName))[req.href := net.response]
                                   else old(Opened(StaticCacheName))]
      // any other GET: network first from the dynamic cache
      ensures Dispatch(req, origin) == GetRoute && !IsStaticAsset(req.path) ==>
                match net
                case NetResponse(r) =>
                  resp == Some(r)
                  && caches == if Ok(r) then old(caches)[DynamicCacheName := old(Opened(DynamicCacheName))[req.href := r]]
                               else old(caches)
                case NetworkError =>
                  resp == Some(if old(Match(DynamicCacheName, req.href)).Some?
                               then old(Match(DynamicCacheName, req.href)).value
                               else OfflineFallback(req))
                  && caches == old(caches)[DynamicCacheName := old(Opened(DynamicCacheName))]
      // POST, PUT and DELETE: nothing is stored in a cache, and a network failure is queued
      ensures Dispatch(req, origin) == MutationRoute ==>
                match net
                case NetResponse(r) =>
                  resp == Some(r) && failedRequests == old(failedRequests)
                  && caches == if Ok(r) && ShouldCacheResponse(req.href)
                               then old(caches)[DynamicCacheName := old(Opened(DynamicCacheName))]
                               else old(caches)
                case NetworkError =>
                  resp == Some(Response(202, QueuedJson(now))) && caches == old(caches)
                  && failedRequests == old(failedRequests) + [FailedRequest(req.href, req.verb, req.body, now)]
    {
      var route := Dispatch(req, origin);
      if route == NotIntercepted {
        return None;
      }
      var r: Response;
      if route == GetRoute {
        match GetStrategy(req.path)
        case CacheFirst(name) =>
          r := CacheFirstFetch(req, name, net);
        case NetworkFirst(name) =>
          r := NetworkFirstFetch(req, name, net);
      } else {
        r := HandleMutation(req, net, now);
      }
      resp := Some(r);
    }

    /** activate: delete every cache whose name is not one of the three current names. */
    method Activate()
      modifies this
      ensures caches == map name | name in old(caches) && CurrentCache(name) :: old(caches)[name]
      ensures failedRequests == old(failedRequests)
      ensures forall name :: name in caches <==> name in old(caches) && CurrentCache(name)
    {
      caches := map name | name in caches && CurrentCache(name) :: caches[name];
    }

    /** retryFailedRequests: replay the queue and drop what succeeded, leaving the queue alone when nothing did. */
    method RetryFailedRequests(ok: nat -> bool)
      modifies this
      ensures failedRequests == AfterRetry(old(failedRequests), ok)
      ensures caches == old(caches)
    {
      var queue := failedRequests;
      var successful := ReplayQueue(queue, ok);
      if |successful| > 0 {
        failedRequests := Remaining(queue, successful);
      }
    }
  }
}
