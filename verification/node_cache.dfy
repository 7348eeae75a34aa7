/**
  * The node client's response cache: a map from request path to the decoded body and the
  * time it was stored, consulted for ten seconds.
  */
module NodeCache {
  import opened Wrappers
  import opened NodeApi

  /** `cacheTTL`, in milliseconds. */
  const CacheTtl: int := 10000

  datatype CacheEntry = CacheEntry(data: Payload, timestamp: int)

  type Cache = map<string, CacheEntry>

  /** A lookup that is answered from the cache without a request. */
  predicate IsHit(c: Cache, path: string, useCache: bool, now: int) {
    useCache && path in c && now - c[path].timestamp < CacheTtl
  }

  /** What a request yields: the body of a 2xx response, otherwise the error thrown. */
  function Transport(resp: HttpOutcome): (r: Result<Payload, FetchError>)
    ensures r.Success? <==> resp.Response? && IsOk(resp.status)
    ensures r.Failure? && resp.Response? ==> r.error == HttpStatus(resp.status)
  {
    match resp
    case NetworkError => Failure(Unreachable)
    case Response(status, body) => if IsOk(status) then Success(body) else Failure(HttpStatus(status))
  }

  /**
    * The value `fetch(path, useCache)` returns or throws at time `now`, where `resp` is what
    * the node would answer if asked.
    */
  function Served(c: Cache, path: string, useCache: bool, now: int, resp: HttpOutcome): (r: Result<Payload, FetchError>)
    ensures IsHit(c, path, useCache, now) ==> r == Success(c[path].data)
    ensures !IsHit(c, path, useCache, now) ==> r == Transport(resp)
  {
    if IsHit(c, path, useCache, now) then Success(c[path].data) else Transport(resp)
  }

  /** The cache after `fetch(path, useCache)` at time `now`. */
  function CacheAfter(c: Cache, path: string, useCache: bool, now: int, resp: HttpOutcome): (c': Cache)
    ensures !useCache || Transport(resp).Failure? ==> c' == c
    ensures useCache && !IsHit(c, path, useCache, now) && Transport(resp).Success? ==>
      c' == c[path := CacheEntry(Transport(resp).value, now)]
    ensures path in c ==> path in c'
  {
    if IsHit(c, path, useCache, now) then c
    else match Transport(resp)
      case Success(data) => if useCache then c[path := CacheEntry(data, now)] else c
      case Failure(_) => c
  }

  /** A fetch touches no other path's entry. */
  lemma CacheAfterFrame(c: Cache, path: string, useCache: bool, now: int, resp: HttpOutcome, q: string)
    requires q != path
    ensures var c' := CacheAfter(c, path, useCache, now, resp);
      (q in c' <==> q in c) && (q in c ==> c'[q] == c[q])
  {
  }

  /** Two caches that agree on `path` serve it the same way. */
  lemma ServedSameEntry(c: Cache, c': Cache, path: string, useCache: bool, now: int, resp: HttpOutcome)
    requires path in c <==> path in c'
    requires path in c ==> c'[path] == c[path]
    ensures Served(c', path, useCache, now, resp) == Served(c, path, useCache, now, resp)
  {
  }

  /**
    * A successful cached fetch at `t0` answers every later fetch of the same path before
    * `t0 + CacheTtl` from the cache, whatever the node would answer then.
    */
  lemma RefetchWithinTtl(c: Cache, path: string, t0: int, resp0: HttpOutcome, t1: int, resp1: HttpOutcome)
    requires !IsHit(c, path, true, t0) && Transport(resp0).Success?
    requires t1 < t0 + CacheTtl
    ensures Served(CacheAfter(c, path, true, t0, resp0), path, true, t1, resp1) == Transport(resp0)
  {
  }

  /** Once the entry is `CacheTtl` old, the same fetch goes to the node again. */
  lemma RefetchAfterTtl(c: Cache, path: string, t0: int, resp0: HttpOutcome, t1: int, resp1: HttpOutcome)
    requires !IsHit(c, path, true, t0) && Transport(resp0).Success?
    requires t1 >= t0 + CacheTtl
    ensures Served(CacheAfter(c, path, true, t0, resp0), path, true, t1, resp1) == Transport(resp1)
    ensures CacheAfter(CacheAfter(c, path, true, t0, resp0), path, true, t1, resp1)
      == (if Transport(resp1).Success? then c[path := CacheEntry(Transport(resp1).value, t1)]
          else c[path := CacheEntry(Transport(resp0).value, t0)])
  {
  }
}
