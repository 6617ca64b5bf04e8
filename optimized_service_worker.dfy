/**
 * The modelled parts of the service worker optimized-sw.js: the same routing
 * rules as sw.js over its own caches, an activate filter whose prefix
 * disjunction lacks its parentheses, and a size trim at 50 keys.
 */
module OptimizedServiceWorker {
  import opened Text
  import opened CachePolicy
  import ServiceWorker

  const CACHE_NAME: string := "super-caixa-v2.0"
  const STATIC_CACHE: string := "static-v2.0"
  const DYNAMIC_CACHE: string := "dynamic-v2.0"
  const MAX_CACHE_SIZE: nat := 50

  /** The fetch handler's routing with this worker's caches. */
  function FetchRoute(req: Request, selfOrigin: string): (h: Handling)
    ensures h.Bypass? <==> !StartsWith(req.url, "http")
    ensures h.Respond? ==> (h.cacheName == STATIC_CACHE <==> IsFont(req.pathname))
    ensures h.Respond? ==> h.cacheName == STATIC_CACHE || h.cacheName == DYNAMIC_CACHE
  {
    Route(req, selfOrigin, STATIC_CACHE, DYNAMIC_CACHE)
  }

  /** Both workers route every request the same way, each to its own cache of the same role. */
  lemma SameRouting(req: Request, selfOrigin: string)
    ensures FetchRoute(req, selfOrigin).Bypass? == ServiceWorker.FetchRoute(req, selfOrigin).Bypass?
    ensures FetchRoute(req, selfOrigin).Respond? ==>
      FetchRoute(req, selfOrigin).strategy == ServiceWorker.FetchRoute(req, selfOrigin).strategy
      && (FetchRoute(req, selfOrigin).cacheName == STATIC_CACHE <==>
          ServiceWorker.FetchRoute(req, selfOrigin).cacheName == ServiceWorker.STATIC_CACHE)
  {
  }

  /**
   * The activate filter as written: `&&` binds tighter than `||`, so the two
   * exclusions guard only the 'super-caixa-' prefix.
   */
  predicate IsObsoleteAsWritten(name: string) {
    (name != STATIC_CACHE && name != DYNAMIC_CACHE && StartsWith(name, "super-caixa-"))
    || StartsWith(name, "static-") || StartsWith(name, "dynamic-")
  }

  /** The caches the worker as written deletes on activation. */
  function CachesToDeleteAsWritten(names: seq<string>): (r: seq<string>)
    ensures forall n :: n in r <==> n in names && IsObsoleteAsWritten(n)
    ensures forall n :: n in names && !HasAppPrefix(n) ==> n !in r
  {
    FilterNames(names, IsObsoleteAsWritten)
  }

  /** As written, activation deletes the current static and dynamic caches. */
  lemma AsWrittenDeletesCurrent()
    ensures STATIC_CACHE in CachesToDeleteAsWritten([STATIC_CACHE, DYNAMIC_CACHE])
    ensures DYNAMIC_CACHE in CachesToDeleteAsWritten([STATIC_CACHE, DYNAMIC_CACHE])
  {
    assert StartsWith(STATIC_CACHE, "static-");
    assert StartsWith(DYNAMIC_CACHE, "dynamic-");
  }

  /** The filter with the prefix disjunction parenthesised, as in sw.js. */
  predicate IsObsolete(name: string) {
    name != STATIC_CACHE && name != DYNAMIC_CACHE && HasAppPrefix(name)
  }

  /** The caches deleted on activation by the corrected filter. */
  function CachesToDelete(names: seq<string>): (r: seq<string>)
    ensures STATIC_CACHE !in r && DYNAMIC_CACHE !in r
    ensures forall n :: n in r ==> n in names
    ensures forall n :: n in names && !HasAppPrefix(n) ==> n !in r
    ensures forall n :: n in names && n != STATIC_CACHE && n != DYNAMIC_CACHE && HasAppPrefix(n) ==> n in r
  {
    FilterNames(names, IsObsolete)
  }

  /** The two filters disagree only on the current static and dynamic cache names. */
  lemma FiltersDifferOnlyOnCurrent(name: string)
    ensures IsObsoleteAsWritten(name) != IsObsolete(name) ==> name == STATIC_CACHE || name == DYNAMIC_CACHE
  {
  }

  /** `cleanupOldCaches` (size part): the dynamic-cache keys deleted, oldest first, leaving exactly 50. */
  function CleanupOldCaches<K>(keys: seq<K>): (r: seq<K>)
    ensures |keys| > MAX_CACHE_SIZE ==> |r| == |keys| - MAX_CACHE_SIZE && keys == r + keys[|r|..]
    ensures |keys| <= MAX_CACHE_SIZE ==> r == []
  {
    TrimmedKeys(keys, MAX_CACHE_SIZE)
  }
}
