/**
 * `RedisClusterConfig` of the Spring Boot example: the mapping function of
 * its socket-address resolver.
 *
 * On its first call the function resolves the configured hostname and
 * caches the first address in the field `cacheIP`; a later call never
 * resolves again. A host equal to the cached address, or with one of the
 * eighteen private prefixes, is replaced by the hostname, on the same port;
 * any other address is returned as it came.
 *
 * The DNS lookup is an input: `None` stands for the UnknownHostException
 * of the lookup, `Some(addresses)` for the addresses it returned, as text.
 */
module SpringClusterConfig {
  import opened Wrappers
  import opened PrivateHosts
  import opened AddressRemap

  /** Why a call fails. `CannotResolve` is the RuntimeException the function
      throws when the lookup fails; `NoAddress` is the index-out-of-bounds
      exception of `addresses[0]` on an empty answer, which the function does
      not catch. */
  datatype MappingError = CannotResolve | NoAddress

  /** The cache after one call: a set cache stays; an unset one takes the
      first address of a non-empty answer. */
  function CacheAfter(cacheIP: Option<string>, resolved: Option<seq<string>>): Option<string> {
    if cacheIP.Some? then cacheIP
    else if resolved.Some? && |resolved.value| > 0 then Some(resolved.value[0])
    else None
  }

  /** The mapping once the cache holds `cacheIP`. */
  function MapCached(cacheIP: string, redisHostname: string, address: HostAndPort<int>): HostAndPort<int> {
    if address.host == cacheIP then HostAndPort(redisHostname, address.port)
    else if IsInternalIP(address.host) then HostAndPort(redisHostname, address.port)
    else address
  }

  /** The outcome of one call. */
  function MappingResult(redisHostname: string, cacheIP: Option<string>, resolved: Option<seq<string>>,
                         address: HostAndPort<int>): Result<HostAndPort<int>, MappingError>
  {
    var cache := CacheAfter(cacheIP, resolved);
    if cache.Some? then Ok(MapCached(cache.value, redisHostname, address))
    else if resolved.None? then Err(CannotResolve)
    else Err(NoAddress)
  }

  class RedisClusterConfig {
    const redisHostname: string
    var cacheIP: Option<string>

    constructor(redisHostname: string)
      ensures this.redisHostname == redisHostname && cacheIP == None
    {
      this.redisHostname := redisHostname;
      cacheIP := None;
    }

    /** `mappingFunction`; `resolved` is what the lookup of `redisHostname`
        yields if this call performs one. */
    method MappingFunction(hostAndPort: HostAndPort<int>, resolved: Option<seq<string>>)
      returns (r: Result<HostAndPort<int>, MappingError>)
      modifies this
      ensures cacheIP == CacheAfter(old(cacheIP), resolved)
      ensures r == MappingResult(redisHostname, old(cacheIP), resolved, hostAndPort)
    {
      if cacheIP.None? {
        if resolved.None? {
          return Err(CannotResolve);
        }
        var addresses := resolved.value;
        if |addresses| == 0 {
          return Err(NoAddress);
        }
        cacheIP := Some(addresses[0]);
      }
      var originalHost := hostAndPort.host;
      var finalAddress := hostAndPort;
      if originalHost == cacheIP.value {
        finalAddress := HostAndPort(redisHostname, hostAndPort.port);
      } else if IsInternalIP(originalHost) {
        finalAddress := HostAndPort(redisHostname, hostAndPort.port);
      }
      r := Ok(finalAddress);
    }
  }

  // ---------------------------------------------------------------------
  // One call.
  // ---------------------------------------------------------------------

  /** A call fails exactly when the cache is unset and the lookup gives no
      address; a failed call leaves the cache unset, so the next call looks
      the hostname up again. */
  lemma FailureLeavesCacheUnset(redisHostname: string, cacheIP: Option<string>, resolved: Option<seq<string>>,
                                address: HostAndPort<int>)
    ensures MappingResult(redisHostname, cacheIP, resolved, address).Err? <==>
            cacheIP.None? && (resolved.None? || |resolved.value| == 0)
    ensures MappingResult(redisHostname, cacheIP, resolved, address).Err? ==> CacheAfter(cacheIP, resolved).None?
    ensures MappingResult(redisHostname, cacheIP, resolved, address) == Err(CannotResolve) <==>
            cacheIP.None? && resolved.None?
  {
  }

  /** Once set, the cache never changes, whatever the lookup would say. */
  lemma CacheSetOnce(cacheIP: Option<string>, resolved: Option<seq<string>>)
    requires cacheIP.Some?
    ensures CacheAfter(cacheIP, resolved) == cacheIP
  {
  }

  /** The port is kept, and the host becomes the hostname exactly when it is
      the cached address, is internal, or already is the hostname. */
  lemma MapCachedHost(cacheIP: string, redisHostname: string, address: HostAndPort<int>)
    ensures MapCached(cacheIP, redisHostname, address).port == address.port
    ensures MapCached(cacheIP, redisHostname, address).host == redisHostname <==>
            address.host == cacheIP || IsInternalIP(address.host) || address.host == redisHostname
    ensures MapCached(cacheIP, redisHostname, address).host != redisHostname ==>
            MapCached(cacheIP, redisHostname, address) == address
  {
  }

  /** Away from the cached address the mapping is the eighteen-prefix remap
      of the other cluster examples. */
  lemma MapCachedIsRemap(cacheIP: string, redisHostname: string, address: HostAndPort<int>)
    requires address.host != cacheIP
    ensures MapCached(cacheIP, redisHostname, address) == Remap(redisHostname, address)
  {
  }

  /** Mapping an address twice is mapping it once, with no condition on the
      hostname: a mapped address carries the hostname, which maps to
      itself. */
  lemma MapCachedIdempotent(cacheIP: string, redisHostname: string, address: HostAndPort<int>)
    ensures MapCached(cacheIP, redisHostname, MapCached(cacheIP, redisHostname, address)) ==
            MapCached(cacheIP, redisHostname, address)
  {
  }

  // ---------------------------------------------------------------------
  // A run of calls.
  // ---------------------------------------------------------------------

  /** The cache after a run of calls, the i-th of which sees the lookup
      answer `answers[i]` if it looks up at all. */
  function CacheAfterCalls(cacheIP: Option<string>, answers: seq<Option<seq<string>>>): Option<string>
    decreases |answers|
  {
    if answers == [] then cacheIP else CacheAfterCalls(CacheAfter(cacheIP, answers[0]), answers[1..])
  }

  /** The first address of the first non-empty answer, if any. */
  function FirstAddress(answers: seq<Option<seq<string>>>): Option<string>
    decreases |answers|
  {
    if answers == [] then None
    else if answers[0].Some? && |answers[0].value| > 0 then Some(answers[0].value[0])
    else FirstAddress(answers[1..])
  }

  lemma {:induction false} CacheStaysSet(cacheIP: Option<string>, answers: seq<Option<seq<string>>>)
    requires cacheIP.Some?
    ensures CacheAfterCalls(cacheIP, answers) == cacheIP
    decreases |answers|
  {
    if answers != [] {
      CacheStaysSet(CacheAfter(cacheIP, answers[0]), answers[1..]);
    }
  }

  /** Starting unset, the cache ends up holding the first address of the
      first successful lookup and nothing else: failed lookups are retried,
      and later answers are never consulted. */
  lemma {:induction false} CacheIsFirstAddress(answers: seq<Option<seq<string>>>)
    ensures CacheAfterCalls(None, answers) == FirstAddress(answers)
    decreases |answers|
  {
    if answers != [] {
      if answers[0].Some? && |answers[0].value| > 0 {
        CacheStaysSet(Some(answers[0].value[0]), answers[1..]);
      } else {
        CacheIsFirstAddress(answers[1..]);
      }
    }
  }
}
