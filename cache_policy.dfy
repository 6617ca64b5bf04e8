/**
 * The request routing and cache housekeeping rules shared by the two service
 * workers (sw.js, optimized-sw.js), parameterised by each worker's cache names.
 */
module CachePolicy {
  import opened Text

  /** The parts of a request the router looks at: its full URL and the parsed pathname and origin. */
  datatype Request = Request(url: string, pathname: string, origin: string)

  /** The caching strategies; their Cache API behaviour is not modelled. */
  datatype Strategy = CacheFirst | NetworkFirst | StaleWhileRevalidate

  /** Not intercepted, or answered with a strategy over a named cache. */
  datatype Handling = Bypass | Respond(strategy: Strategy, cacheName: string)

  predicate IsFont(path: string) {
    EndsWith(path, ".woff2") || EndsWith(path, ".woff")
  }

  predicate IsImage(path: string) {
    EndsWith(path, ".png") || EndsWith(path, ".jpg") || EndsWith(path, ".svg")
  }

  predicate IsPage(path: string) {
    path == "/" || EndsWith(path, ".html")
  }

  /**
   * The fetch handler's rule list, first match wins: non-http URLs are left
   * alone; fonts are cache-first in the static cache; images cache-first,
   * pages stale-while-revalidate, other same-origin requests network-first
   * and cross-origin requests cache-first, all in the dynamic cache.
   */
  function Route(req: Request, selfOrigin: string, staticCache: string, dynamicCache: string): (h: Handling)
    ensures h.Bypass? <==> !StartsWith(req.url, "http")
    ensures h.Respond? ==> h.cacheName == (if IsFont(req.pathname) then staticCache else dynamicCache)
    ensures h.Respond? ==>
      (h.strategy == NetworkFirst <==>
        !IsFont(req.pathname) && !IsImage(req.pathname) && !IsPage(req.pathname) && req.origin == selfOrigin)
    ensures h.Respond? ==>
      (h.strategy == StaleWhileRevalidate <==> !IsFont(req.pathname) && !IsImage(req.pathname) && IsPage(req.pathname))
  {
    if !StartsWith(req.url, "http") then Bypass
    else if IsFont(req.pathname) then Respond(CacheFirst, staticCache)
    else if IsImage(req.pathname) then Respond(CacheFirst, dynamicCache)
    else if IsPage(req.pathname) then Respond(StaleWhileRevalidate, dynamicCache)
    else if req.origin == selfOrigin then Respond(NetworkFirst, dynamicCache)
    else Respond(CacheFirst, dynamicCache)
  }

  /** Only fonts reach the static cache, and a cache-first answer is an asset or a cross-origin request. */
  lemma RouteCacheFirst(req: Request, selfOrigin: string, staticCache: string, dynamicCache: string)
    requires staticCache != dynamicCache
    ensures Route(req, selfOrigin, staticCache, dynamicCache) == Respond(CacheFirst, staticCache) ==> IsFont(req.pathname)
    ensures Route(req, selfOrigin, staticCache, dynamicCache).Respond? &&
            Route(req, selfOrigin, staticCache, dynamicCache).strategy == CacheFirst ==>
      IsFont(req.pathname) || IsImage(req.pathname) || (!IsPage(req.pathname) && req.origin != selfOrigin)
  {
  }

  /** The three name prefixes of this app's caches. */
  predicate HasAppPrefix(name: string) {
    StartsWith(name, "super-caixa-") || StartsWith(name, "static-") || StartsWith(name, "dynamic-")
  }

  /** `cacheNames.filter(keep)`. */
  function FilterNames(names: seq<string>, keep: string -> bool): (r: seq<string>)
    ensures |r| <= |names|
    ensures forall n :: n in r <==> n in names && keep(n)
  {
    if names == [] then []
    else (if keep(names[0]) then [names[0]] else []) + FilterNames(names[1..], keep)
  }

  /**
   * The keys the size trim deletes: when the cache holds more than `max`
   * keys, the first `len − max` in key order; otherwise none.
   */
  function TrimmedKeys<K>(keys: seq<K>, max: nat): (r: seq<K>)
    ensures |keys| > max ==> |r| == |keys| - max && keys == r + keys[|r|..] && |keys[|r|..]| == max
    ensures |keys| <= max ==> r == []
  {
    if |keys| > max then keys[..|keys| - max] else []
  }
}
