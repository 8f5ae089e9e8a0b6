/** The decisions the service worker makes: which requests it intercepts, what it
    answers with, which responses it stores, and which caches it deletes when it
    activates. Cache Storage, the network and the URL parser are outside the
    model: a request carries its URL and its already parsed pathname, and the
    cache lookup and the network fetch come in as their results. */
module ServiceWorker {
  import opened Wrappers
  import opened Text

  const CACHE_NAME: string := "personal-crm-v1"
  const OFFLINE_URL: string := "/offline.html"

  /** The substrings that mark a static asset, in the order shouldCacheRequest checks them. */
  const ASSET_MARKERS: seq<string> := [".js", ".css", ".png", ".jpg", ".svg", ".woff", ".woff2"]

  predicate HasAssetMarker(pathname: string) {
    exists m :: m in ASSET_MARKERS && Includes(pathname, m)
  }

  /** shouldCacheRequest: API paths and any path that merely contains one of the
      asset markers, anywhere. */
  function ShouldCacheRequest(pathname: string): (r: bool)
    ensures StartsWith(pathname, "/api/") ==> r
    ensures r <==> StartsWith(pathname, "/api/") || HasAssetMarker(pathname)
  {
    if StartsWith(pathname, "/api/") then true
    else if Includes(pathname, ".js") || Includes(pathname, ".css") || Includes(pathname, ".png")
         || Includes(pathname, ".jpg") || Includes(pathname, ".svg") || Includes(pathname, ".woff")
         || Includes(pathname, ".woff2") then true
    else false
  }

  /** The ".woff2" test is redundant: every path containing ".woff2" contains ".woff". */
  lemma Woff2ImpliesWoff(pathname: string)
    requires Includes(pathname, ".woff2")
    ensures Includes(pathname, ".woff")
  {
    assert ".woff2" == ".woff" + "2";
    IncludesLonger(pathname, ".woff", "2");
  }

  /** The marker test is a substring test, so a ".json" path counts as ".js". */
  lemma JsonCountsAsScript(pathname: string)
    requires Includes(pathname, ".json")
    ensures ShouldCacheRequest(pathname)
  {
    assert ".json" == ".js" + "on";
    IncludesLonger(pathname, ".js", "on");
  }

  /** Whatever follows a cacheable path, the longer path is cacheable too. */
  lemma ShouldCacheExtends(pathname: string, tail: string)
    requires ShouldCacheRequest(pathname)
    ensures ShouldCacheRequest(pathname + tail)
  {
    if StartsWith(pathname, "/api/") {
      assert (pathname + tail)[..5] == pathname[..5];
    } else {
      var m :| m in ASSET_MARKERS && Includes(pathname, m);
      IncludesAppend(pathname, m, tail);
    }
  }

  /** The request fields the fetch handler looks at (`verb` is `request.method`). */
  datatype Request = Request(verb: string, url: string, pathname: string, mode: string)

  /** The handler returns early, leaving the request to the browser, for
      non-GET requests and `chrome-extension://` URLs. */
  predicate Intercepts(req: Request): (b: bool)
    ensures req.verb != "GET" ==> !b
    ensures StartsWith(req.url, "chrome-extension://") ==> !b
    ensures req.verb == "GET" && StartsWith(req.url, "https://") ==> b
  {
    // the two prefixes already differ in their first character
    assert StartsWith(req.url, "https://") ==> req.url[0] == req.url[..8][0] == 'h';
    assert StartsWith(req.url, "chrome-extension://") ==> req.url[0] == req.url[..19][0] == 'c';
    req.verb == "GET" && !StartsWith(req.url, "chrome-extension://")
  }

  datatype HttpResponse = HttpResponse(status: int, kind: string)

  /** A network response worth storing: status 200, type "basic", and a request
      that shouldCacheRequest accepts. */
  predicate Cacheable(req: Request, resp: HttpResponse): (b: bool)
    ensures b ==> resp.status == 200 && ShouldCacheRequest(req.pathname)
    ensures resp.status == 200 && resp.kind == "basic" && StartsWith(req.pathname, "/api/") ==> b
  {
    resp.status == 200 && resp.kind == "basic" && ShouldCacheRequest(req.pathname)
  }

  /** How one fetch event ends. */
  datatype FetchOutcome =
    | NotIntercepted
    | FromCache(response: HttpResponse)
    | FromNetwork(response: HttpResponse, stored: bool)
    | OfflinePage          // the cached OFFLINE_URL, for a failed navigation
    | ServiceUnavailable   // the 503 "Offline" text response

  /** The fetch handler, given the cache lookup (`cached`) and the network result
      (`network`, None when the fetch rejects). */
  function HandleFetch(req: Request, cached: Option<HttpResponse>, network: Option<HttpResponse>): (o: FetchOutcome)
    ensures o.NotIntercepted? <==> !Intercepts(req)
    ensures Intercepts(req) && cached.Some? ==> o == FromCache(cached.value)
    ensures o.FromNetwork? ==> Intercepts(req) && cached.None? && network == Some(o.response)
                               && (o.stored <==> Cacheable(req, o.response))
    ensures Intercepts(req) && cached.None? && network.Some? ==>
              o == FromNetwork(network.value, Cacheable(req, network.value))
    ensures Intercepts(req) && cached.None? && network.None? ==>
              o == (if req.mode == "navigate" then OfflinePage else ServiceUnavailable)
  {
    if req.verb != "GET" then NotIntercepted
    else if StartsWith(req.url, "chrome-extension://") then NotIntercepted
    else if cached.Some? then FromCache(cached.value)
    else if network.Some? then
      var resp := network.value;
      if resp.status != 200 || resp.kind != "basic" then FromNetwork(resp, false)
      else FromNetwork(resp, ShouldCacheRequest(req.pathname))
    else if req.mode == "navigate" then OfflinePage
    else ServiceUnavailable
  }

  /** A cache hit is answered before the network is consulted: the outcome does
      not depend on what the network would have returned. */
  lemma CacheHitIgnoresNetwork(req: Request, hit: HttpResponse, n1: Option<HttpResponse>, n2: Option<HttpResponse>)
    ensures HandleFetch(req, Some(hit), n1) == HandleFetch(req, Some(hit), n2)
  {
  }

  /** The activate filter: the cache names other than CACHE_NAME, in order. */
  function StaleCaches(names: seq<string>): (r: seq<string>)
    ensures forall n :: n in r <==> n in names && n != CACHE_NAME
    ensures |r| <= |names|
  {
    if names == [] then []
    else if names[0] != CACHE_NAME then [names[0]] + StaleCaches(names[1..])
    else StaleCaches(names[1..])
  }

  /** After every stale cache is deleted, at most the current cache is left, and
      it is left if it was there. */
  lemma ActivateKeepsOnlyCurrent(names: seq<string>)
    ensures var left := (set n | n in names) - (set n | n in StaleCaches(names));
            left <= {CACHE_NAME} && (CACHE_NAME in names ==> left == {CACHE_NAME})
  {
  }
}
