/** The modelled parts of the service worker sw.js: routing, the activate filter and the size trim. */
module ServiceWorker {
  import opened Text
  import opened CachePolicy

  const CACHE_NAME: string := "super-caixa-v3.0"
  const STATIC_CACHE: string := "static-v3.0"
  const DYNAMIC_CACHE: string := "dynamic-v3.0"
  const MAX_CACHE_SIZE: nat := 100

  /** The fetch handler's routing with this worker's caches. */
  function FetchRoute(req: Request, selfOrigin: string): (h: Handling)
    ensures h.Bypass? <==> !StartsWith(req.url, "http")
    ensures h.Respond? ==> (h.cacheName == STATIC_CACHE <==> IsFont(req.pathname))
    ensures h.Respond? ==> h.cacheName == STATIC_CACHE || h.cacheName == DYNAMIC_CACHE
  {
    Route(req, selfOrigin, STATIC_CACHE, DYNAMIC_CACHE)
  }

  /** The activate filter: not a current cache, and one of this app's three name prefixes. */
  predicate IsObsolete(name: string) {
    name != STATIC_CACHE && name != DYNAMIC_CACHE && HasAppPrefix(name)
  }

  /** The caches deleted on activation. */
  function CachesToDelete(names: seq<string>): (r: seq<string>)
    ensures STATIC_CACHE !in r && DYNAMIC_CACHE !in r
    ensures forall n :: n in r ==> n in names
    ensures forall n :: n in names && !HasAppPrefix(n) ==> n !in r
    ensures forall n :: n in names && n != STATIC_CACHE && n != DYNAMIC_CACHE && HasAppPrefix(n) ==> n in r
  {
    FilterNames(names, IsObsolete)
  }

  /** `cleanupOldCaches` (size part): the dynamic-cache keys deleted, oldest first, leaving at most 100. */
  function CleanupOldCaches<K>(keys: seq<K>): (r: seq<K>)
    ensures |keys| > MAX_CACHE_SIZE ==> |r| == |keys| - MAX_CACHE_SIZE && keys == r + keys[|r|..]
    ensures |keys| <= MAX_CACHE_SIZE ==> r == []
  {
    TrimmedKeys(keys, MAX_CACHE_SIZE)
  }
}
