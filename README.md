# cloudflare-worker-mock, modelled in Dafny

This project models the mock Cloudflare Worker environment of
`packages/cloudflare-worker-mock/src/index.ts`. Tests use that mock in place of
the edge runtime. It has three parts.

- **`makeCloudflareWorkerRequest`** builds a mock request. When a test passes
  a `RequestInit` with a partial `cf` attribute bag, the request gets a fully
  populated `CloudflareRequestAttributes` record. Each property is the
  test's override when that override is truthy, and a fixed default
  otherwise. The nested `tlsClientAuth` group is merged the same way, sub-field
  by sub-field. Every fallback is JavaScript's `||`, so a falsy override (an
  empty string, 0, NaN) counts as not given. Two properties read another
  property's override: `group` reads `exclusive`, and `tlsVersion` reads
  `weight`. A `group` or `tlsVersion` that the test supplies is therefore
  ignored. The model keeps both of these as the code has them.
- **`makeCloudflareWorkerEnv`** installs `caches.default`. Its `put` stores
  nothing, its `match` always misses and its `delete` always answers `false`.
- **`makeCloudflareWorkerKVEnv(name)`** binds a KV namespace under `name`. Its
  `get` always resolves to `undefined`, and its `put` and `delete` resolve to
  nothing. Its `list` always resolves to one fixed page: the key `foo`, expiring
  at 1234, marked complete, with cursor `1234567890`.

The cache and the KV namespace are constant stubs that keep no state. A `put`
followed by a `match` therefore still misses (`CacheStub.PutThenMatchMisses`).
Event registration and dispatch come from the external `service-worker-mock`
library.

Files, one module each:

- `js_values.dfy` (`JsValues`): `undefined`-or-present properties, JavaScript
  numbers as far as truthiness goes, and `||`.
- `request_attributes.dfy` (`RequestAttributes`): the attribute record, its
  recursively partial counterpart, and a by-name view of both (`Get`,
  `GetPartial`, `TlsGet`, `TlsGetPartial`). A JavaScript object is read
  property by property.
- `mock_request.dfy` (`MockRequest`): the defaults table, the reference
  meaning of the merge (`IsMerge`: each property is the override it reads,
  or else its default), the builder itself, and the properties proved about
  it.
- `cache_stub.dfy` (`CacheStub`), `kv_stub.dfy` (`KvStub`): the two stubs. A
  `Replay` function gives the replies to a sequence of calls made one after
  another, so that "whatever was written before" can be stated.

## Model

| member | source | states |
|---|---|---|
| `JsValues.Or` | packages/cloudflare-worker-mock/src/index.ts:140-172 | `override \|\| default`: the override exactly when it is present and truthy, otherwise the default; the result is truthy iff the override or the default is |
| `MockRequest.MergeTlsClientAuth` | packages/cloudflare-worker-mock/src/index.ts:158-170 | every `tlsClientAuth` sub-field is its own override if truthy, else its default ('' for DN, serial and fingerprint, the 2018 date for the validity bounds, '1' for `certPresented`, 'SUCCESS' for `certVerified`) |
| `MockRequest.TlsOverrides` | packages/cloudflare-worker-mock/src/index.ts:137-138 | `attr.tlsClientAuth \|\| {}`: a supplied group is used as it is, and a missing one reads as the empty object, in which every sub-field is `undefined` |
| `MockRequest.CfLiteralMeetsSpec` | packages/cloudflare-worker-mock/src/index.ts:139-173 | the `cf` object literal, property by property, satisfies the reference merge: each property is the override it reads (its own, except `group`←`exclusive` and `tlsVersion`←`weight`) or its default, and `tlsClientAuth` is merged per sub-field with a missing group read as `{}` |
| `MockRequest.MergeAttributes` | packages/cloudflare-worker-mock/src/index.ts:136-173 | the `cf` record the builder attaches satisfies the reference merge for the supplied overrides |
| `MockRequest.MergeIsUnique` | packages/cloudflare-worker-mock/src/index.ts:139-173 | a record satisfies the reference merge for a bag of overrides if and only if it is the record the builder returns |
| `MockRequest.MakeCloudflareWorkerRequest` | packages/cloudflare-worker-mock/src/index.ts:128-180 | without `init` the request is made from `input` alone and carries no `cf`; with `init` it keeps `input` and the runtime options and carries the merged `cf` record |
| `MockRequest.DefaultsTruthy` | packages/cloudflare-worker-mock/src/index.ts:140-172 | every top-level default is truthy; a `tlsClientAuth` default is truthy or the empty string |
| `MockRequest.OverrideOrDefault` | packages/cloudflare-worker-mock/src/index.ts:140-172 | each property other than `group` and `tlsVersion` equals its override when that is truthy and its default otherwise |
| `MockRequest.TlsOverrideOrDefault` | packages/cloudflare-worker-mock/src/index.ts:137-170 | the same rule for each `tlsClientAuth` sub-field, reading the overrides from `attr.tlsClientAuth \|\| {}` |
| `MockRequest.MissingTlsClientAuthIsEmpty` | packages/cloudflare-worker-mock/src/index.ts:137-138 | an absent `tlsClientAuth` gives the same record as `{}`, and every sub-field takes its default |
| `MockRequest.FalsinessExamples` | packages/cloudflare-worker-mock/src/index.ts:140-150 | `country: ''` gives 'US', `latitude: 0` and `longitude: NaN` give the default coordinates, `asn: '0'` is kept |
| `MockRequest.GroupFollowsExclusive` | packages/cloudflare-worker-mock/src/index.ts:145-146 | `group` always equals `exclusive`, and changing the `group` override never changes the result |
| `MockRequest.TlsVersionFollowsWeight` | packages/cloudflare-worker-mock/src/index.ts:171-172 | `tlsVersion` equals `weight` iff a truthy `weight` override was given, is 'TLSv1.3' otherwise, and changing the `tlsVersion` override never changes the result |
| `MockRequest.MergedIsPopulated` | packages/cloudflare-worker-mock/src/index.ts:139-173 | in any merged record every top-level property is truthy, and so is every `tlsClientAuth` sub-field whose default is not '' |
| `MockRequest.BuiltRecordIsPopulated` | packages/cloudflare-worker-mock/src/index.ts:139-173 | the same for the record the builder returns: no property is left unset or falsy except the '' defaults |
| `MockRequest.TlsMergeIdempotent` | packages/cloudflare-worker-mock/src/index.ts:158-170 | merging a merged `tlsClientAuth` group again gives the same group |
| `MockRequest.MergeOfFullRecord` | packages/cloudflare-worker-mock/src/index.ts:121-173 | a complete record supplied as overrides is merged back to itself iff its top-level properties are truthy, `group` equals `exclusive`, `tlsVersion` equals `weight`, and its sub-fields with non-empty defaults are truthy |
| `MockRequest.ReproducesExactly` | packages/cloudflare-worker-mock/src/index.ts:121-173 | the same statement about the builder: it returns a complete record unchanged iff that record is Reproducible |
| `MockRequest.MergeOfMergedRecord` | packages/cloudflare-worker-mock/src/index.ts:139-173 | merging a merged record again changes only `tlsVersion`, which becomes the record's `weight` |
| `MockRequest.RebuildCopiesWeightIntoTlsVersion` | packages/cloudflare-worker-mock/src/index.ts:171-172 | feeding the builder's output back in changes only `tlsVersion`, which becomes the defaulted `weight` |
| `MockRequest.RebuildIsIdentityIffWeightSupplied` | packages/cloudflare-worker-mock/src/index.ts:171-172 | the builder returns its own output unchanged iff a truthy `weight` override was given |
| `CacheStub.MakeCloudflareWorkerEnv` | packages/cloudflare-worker-mock/src/index.ts:40-74 | installs `caches.default` as the stub cache below; a constant with no contract of its own, its behaviour is stated by `NothingIsEverCached` and `PutThenMatchMisses` |
| `CacheStub.DefaultCache.Put` | packages/cloudflare-worker-mock/src/index.ts:49-53 | resolves to `undefined` and stores nothing; no contract of its own (the result type has one value), `NothingIsEverCached` states that a later `match` still misses |
| `CacheStub.DefaultCache.Match` | packages/cloudflare-worker-mock/src/index.ts:54-61 | `match` resolves to `undefined` (a miss) for every request and options |
| `CacheStub.DefaultCache.Delete` | packages/cloudflare-worker-mock/src/index.ts:62-69 | `delete` resolves to `false` for every request and options |
| `CacheStub.NothingIsEverCached` | packages/cloudflare-worker-mock/src/index.ts:47-71 | in any sequence of calls on the environment's cache, every `put` resolves to nothing, every `match` misses and every `delete` answers `false`, whatever came before |
| `CacheStub.PutThenMatchMisses` | packages/cloudflare-worker-mock/src/index.ts:49-61 | a `match` right after a `put` of the same request still misses |
| `KvStub.Kv.Get` | packages/cloudflare-worker-mock/src/index.ts:83-88 | `get` resolves to `undefined` for every key and representation |
| `KvStub.Kv.Put` | packages/cloudflare-worker-mock/src/index.ts:89-94 | resolves to `undefined` and stores nothing; no contract of its own (the result type has one value), `NothingIsEverStored` states that a later `get` still gives `undefined` |
| `KvStub.Kv.Delete` | packages/cloudflare-worker-mock/src/index.ts:95-97 | resolves to `undefined`; no contract of its own, `NothingIsEverStored` states what it answers in any call sequence |
| `KvStub.Kv.List` | packages/cloudflare-worker-mock/src/index.ts:98-112 | `list` resolves to the page with the single key 'foo' expiring at 1234, `list_complete` true, cursor '1234567890' |
| `KvStub.MakeCloudflareWorkerKVEnv` | packages/cloudflare-worker-mock/src/index.ts:115-118 | the returned binding has exactly the one key `name` |
| `KvStub.ListIgnoresParams` | packages/cloudflare-worker-mock/src/index.ts:98-112 | `list` returns the same page for any two parameter bags, absent ones included |
| `KvStub.ListedKeysAreNotReadable` | packages/cloudflare-worker-mock/src/index.ts:83-112 | every key that `list` reports reads back as `undefined` from `get` |
| `KvStub.NothingIsEverStored` | packages/cloudflare-worker-mock/src/index.ts:82-113 | in any sequence of calls on the bound namespace, every `get` resolves to `undefined`, every `put` and `delete` to nothing, and every `list` to the fixed page, whatever came before |

## Left out

- `new Request(input, init)` and the runtime's Request and Response objects are not modelled. The input is a URL string, and the other `RequestInit` members are an opaque type parameter that the request carries through unchanged. A `Request` object as input is not modelled.
- A `RequestInit` without `cf` is not modelled. The declared type requires `cf`, and at run time reading `attr.tlsClientAuth` would throw. Override values of the wrong run-time type are not modelled either. A `null` override is falsy, so it acts like the absent override the model has.
- The optional request-feature properties that `CloudflareRequestAttributes` inherits from `CloudflareRequestFeatures` (packages/types-cloudflare-worker/src/global.ts:164, 309-476) are not modelled: `cacheEverything`, `scrapeShield`, `polish`, `image`, `minify`, `mirage`, `apps`, `cacheTtl`, `cacheKey`, `cacheTtlByStatus` and `resolveOverride`. A test may pass them in `cf`, but the builder's object literal does not copy them, so the built record never has them. Undeclared extra properties are dropped the same way.
- `latitude` and `longitude` are IEEE doubles in the source. Here they are a real, an infinity or NaN, because only "falsy iff 0, -0 or NaN" is observed and no arithmetic is done.
- Every stub returns a Promise. The model gives the value that the Promise resolves to.
- `makeServiceWorkerEnv(envOptions)`, event registration and `trigger` belong to the external `service-worker-mock` library, and only its type declarations are visible. `MakeCloudflareWorkerEnv` builds only the `caches` part that this package adds. It has no contract, because it is a constant.
- The cache's `put` and the KV namespace's `put` and `delete` resolve to nothing and have no contract of their own. `NothingIsEverCached` and `NothingIsEverStored` state what they do.
- The type-declaration packages, the demo handlers and their tests are not modelled. The older duplicate stubs under `packages/@udacity/cloudflare-worker-mock` are not modelled either: they lack the request builder and `list`.
- Stored cache entries, cache-key derivation, KV expiry, prefix filtering and cursor pagination are not modelled, because the code does not implement them.
