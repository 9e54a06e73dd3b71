/** The mock Workers KV namespace made by `makeCloudflareWorkerKVEnv`:
    `get` always resolves to `undefined`, `put` and `delete` to nothing, and
    `list` to one fixed, complete page, whatever the arguments and whatever
    was written before. */
module KvStub {
  import opened JsValues

  /** The representation `get` may be asked for; accepted and ignored. */
  datatype GetType = Text | Json | ArrayBuffer | Stream

  /** `{ expiration, expirationTtl }` of the declared `put`; ignored. */
  datatype KvOptions = KvOptions(expiration: Option<int>, expirationTtl: Option<int>)

  /** `{ prefix, limit, cursor }` of `list`; ignored. */
  datatype ListParams = ListParams(prefix: Option<string>, limit: Option<int>, cursor: Option<string>)

  /** One listed key, with its expiry in seconds since the epoch. */
  datatype KeyInfo = KeyInfo(name: string, expiration: Option<int>)

  /** One page of `list`; `listComplete` is the property `list_complete`. */
  datatype KvList = KvList(keys: seq<KeyInfo>, listComplete: bool, cursor: string)

  /** A KV namespace. It has no fields: the stub keeps no entries. */
  datatype Kv = Kv {

    /** Resolves to `undefined`, i.e. "no value". */
    function Get<V>(key: string, getType: Option<GetType>): (r: Option<V>)
      ensures r.None?
    {
      None
    }

    /** Resolves to `undefined`. */
    function Put<V>(key: string, value: V, options: Option<KvOptions>): () {
      ()
    }

    /** Resolves to `undefined`. */
    function Delete(key: string): () {
      ()
    }

    /** Resolves to the page listing the single key "foo", expiring at 1234,
        as complete, with cursor "1234567890". */
    function List(params: Option<ListParams>): (page: KvList)
      ensures page.listComplete
      ensures page.keys == [KeyInfo("foo", Some(1234))]
      ensures page.cursor == "1234567890"
    {
      KvList([KeyInfo("foo", Some(1234))], true, "1234567890")
    }
  }

  /** The global binding `{ [name]: kv }`. */
  function MakeCloudflareWorkerKVEnv(name: string): (env: map<string, Kv>)
    ensures env.Keys == {name}
  {
    map[name := Kv]
  }

  /** `list` does not depend on its arguments. */
  lemma ListIgnoresParams(kv: Kv, p: Option<ListParams>, q: Option<ListParams>)
    ensures kv.List(p) == kv.List(q)
  {
  }

  /** The key `list` reports cannot be read back with `get`. */
  lemma ListedKeysAreNotReadable<V>(kv: Kv, p: Option<ListParams>, getType: Option<GetType>)
    ensures forall k | k in kv.List(p).keys :: kv.Get<V>(k.name, getType) == None
  {
  }

  /** A call a test or handler makes on the namespace. */
  datatype KvCall<V> =
    | GetCall(key: string, getType: Option<GetType>)
    | PutCall(key: string, value: V, options: Option<KvOptions>)
    | DeleteCall(key: string)
    | ListCall(params: Option<ListParams>)

  /** What a call resolves to. */
  datatype KvReply<V> = Got(value: Option<V>) | Done | Listed(page: KvList)

  function Answer<V>(kv: Kv, call: KvCall<V>): KvReply<V> {
    match call
    case GetCall(key, t) => Got(kv.Get(key, t))
    case PutCall(key, value, opts) => var _ := kv.Put(key, value, opts); Done
    case DeleteCall(key) => var _ := kv.Delete(key); Done
    case ListCall(params) => Listed(kv.List(params))
  }

  /** The replies to a sequence of calls made one after another on the
      namespace bound under `name`. */
  function Replay<V>(name: string, calls: seq<KvCall<V>>): (replies: seq<KvReply<V>>)
    ensures |replies| == |calls|
  {
    if calls == [] then []
    else [Answer(MakeCloudflareWorkerKVEnv(name)[name], calls[0])] + Replay(name, calls[1..])
  }

  /** Whatever was put or deleted before, every `get` resolves to
      `undefined`, every `put` and `delete` to nothing, and every `list` to
      the same fixed page. */
  lemma {:induction false} NothingIsEverStored<V>(name: string, calls: seq<KvCall<V>>, i: nat)
    requires i < |calls|
    ensures calls[i].GetCall? ==> Replay(name, calls)[i] == Got(None)
    ensures calls[i].PutCall? || calls[i].DeleteCall? ==> Replay(name, calls)[i] == Done
    ensures calls[i].ListCall? ==> Replay(name, calls)[i] == Listed(KvList([KeyInfo("foo", Some(1234))], true, "1234567890"))
  {
    if i > 0 {
      NothingIsEverStored(name, calls[1..], i - 1);
    }
  }
}
