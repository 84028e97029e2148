/** pkg/proxy/dev/cache.go: cacheChecker, a latch that records that caching
    may start; nothing ever resets it. */
module Cache {

  class CacheChecker {
    var check: bool

    /** NewCacheChecker: not yet set. */
    constructor ()
      ensures !check
    {
      check := false;
    }

    /** CanCache: reads the latch. */
    function CanCache(): (b: bool)
      reads this
      ensures b <==> check
    {
      check
    }

    /** SetCanCache: sets the latch; a set latch is left as it is. */
    method SetCanCache()
      modifies this`check
      ensures CanCache()
    {
      if !CanCache() {
        check := true;
      }
    }
  }
}
