/** The mock environment's `caches.default`: three methods that answer
    without storing anything. `match` always misses and `delete` always
    reports that nothing was removed, whatever was `put` before. */
module CacheStub {
  import opened JsValues

  /** `{ ignoreMethod }`, accepted and ignored. */
  datatype CacheQueryOptions = CacheQueryOptions(ignoreMethod: bool)

  /** The default cache. It has no fields: the stub keeps no entries. */
  datatype DefaultCache = DefaultCache {

    /** Resolves to `undefined`. */
    function Put<Req, Resp>(request: Req, response: Resp): () {
      ()
    }

    /** Resolves to `undefined`, i.e. "no cached response". */
    function Match<Req, Resp>(request: Req, options: Option<CacheQueryOptions>): (r: Option<Resp>)
      ensures r.None?
    {
      None
    }

    /** Resolves to `false`, i.e. "no entry was removed". */
    function Delete<Req>(request: Req, options: Option<CacheQueryOptions>): (removed: bool)
      ensures !removed
    {
      false
    }
  }

  /** `caches`, holding the one `default` cache. */
  datatype CacheStorage = CacheStorage(default: DefaultCache)

  /** The part of the environment this package adds to the service worker
      mock's global scope. */
  datatype CloudflareWorkerEnv = CloudflareWorkerEnv(caches: CacheStorage)

  function MakeCloudflareWorkerEnv(): CloudflareWorkerEnv {
    CloudflareWorkerEnv(CacheStorage(DefaultCache))
  }

  /** A call a test or handler makes on the cache. */
  datatype CacheCall<Req, Resp> =
    | PutCall(request: Req, response: Resp)
    | MatchCall(request: Req, options: Option<CacheQueryOptions>)
    | DeleteCall(request: Req, options: Option<CacheQueryOptions>)

  /** What a call resolves to. */
  datatype CacheReply<Resp> = PutDone | Matched(response: Option<Resp>) | DeleteDone(removed: bool)

  function Answer<Req, Resp>(cache: DefaultCache, call: CacheCall<Req, Resp>): CacheReply<Resp> {
    match call
    case PutCall(req, resp) => var _ := cache.Put(req, resp); PutDone
    case MatchCall(req, opts) => Matched(cache.Match(req, opts))
    case DeleteCall(req, opts) => DeleteDone(cache.Delete(req, opts))
  }

  /** The replies to a sequence of calls made one after another on the
      environment's cache. */
  function Replay<Req, Resp>(env: CloudflareWorkerEnv, calls: seq<CacheCall<Req, Resp>>): (replies: seq<CacheReply<Resp>>)
    ensures |replies| == |calls|
  {
    if calls == [] then []
    else [Answer(env.caches.default, calls[0])] + Replay(env, calls[1..])
  }

  /** Whatever was put before, every `match` misses, every `delete` reports
      false and every `put` resolves to nothing. */
  lemma {:induction false} NothingIsEverCached<Req, Resp>(env: CloudflareWorkerEnv, calls: seq<CacheCall<Req, Resp>>, i: nat)
    requires i < |calls|
    ensures calls[i].PutCall? ==> Replay(env, calls)[i] == PutDone
    ensures calls[i].MatchCall? ==> Replay(env, calls)[i] == Matched(None)
    ensures calls[i].DeleteCall? ==> Replay(env, calls)[i] == DeleteDone(false)
  {
    if i > 0 {
      NothingIsEverCached(env, calls[1..], i - 1);
    }
  }

  /** In particular a `put` followed by a `match` for the same request
      misses. */
  lemma PutThenMatchMisses<Req, Resp>(request: Req, response: Resp)
    ensures Replay(MakeCloudflareWorkerEnv(), [PutCall(request, response), MatchCall(request, None)])
      == [PutDone, Matched(None)]
  {
    var calls := [PutCall(request, response), MatchCall(request, None)];
    NothingIsEverCached(MakeCloudflareWorkerEnv(), calls, 0);
    NothingIsEverCached(MakeCloudflareWorkerEnv(), calls, 1);
  }
}
