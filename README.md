# lock-koa-middleware, modelled in Dafny

`lock-koa-middleware` is a Koa middleware that lets only one of several
logically identical requests (same route, same parameters) run at a time.
It derives a lock key from the request, tries to set that key in Redis with
`SET NX PX` and a random token, runs the rest of the middleware chain only
when the set took effect, and deletes the key afterwards with a Lua script
that compares the stored token first. This project models the whole runtime
logic of `index.js`:

- `LockOptions.dfy` — the factory's option checks and its choice between the
  default key function / `onLocked` handler and the caller's overrides
  (index.js:4-51). JavaScript values are a datatype rich enough for
  `typeof`, `instanceof Object`, truthiness and `Number.isInteger`.
- `StringOrder.dfy` — the ordering `Array.prototype.sort` uses for strings,
  an insertion sort standing for `.sort()`, and the proof that distinct keys
  always sort into the one ascending order of their set.
- `KeyDerivation.dfy` — the default `keyFn` (index.js:19-29): JavaScript
  objects as the list of their own keys in creation order plus a map,
  `Object.assign` and the
  rebuilding `for` loop as methods with loop invariants, and the key
  `lock-koa-middleware:<path minus one trailing '/'>:<digest>`.
  `JSON.stringify` and the MD5 hex digest are function-valued parameters
  (`Codec`).
- `LockStore.dfy` — the two Lua scripts (index.js:53-59) as atomic
  operations on a table of key → (token, expiry) with a millisecond clock,
  a `RedisStore` class whose methods update that table in place, and
  interleavings of other requests as sequences of atomic steps.
- `Coordinator.dfy` — the returned middleware (index.js:61-78): the
  `Coordinate` function gives the store, the trace of calls (`LockCall`,
  `OnLockedCall`, `NextCall`, `UnlockCall`) and the outcome of one request;
  `Middleware.Handle` is the step-by-step method with the `try`/`catch`
  written out, proved equal to it.

The model follows `index.js`. A few points where the code behaves less
strictly than a reader might expect, all modelled as written:

- The factory reads `options.onLocked`; the tests pass `onAcquireFail`,
  which the factory ignores, so the default handler stays installed
  (`LockOptions.TestSuiteOptions`).
- The `catch` swallows every error raised in the `try`: lock failures,
  `onLocked`'s error (the default one always throws its 429 error), `next()`'s
  error and the first unlock's error. Only a key-function error (thrown
  before the `try`) and the catch block's own unlock failure reject the
  middleware's promise (`Coordinator.ErrorsAreSwallowed`). So the 429 error
  never reaches Koa, and the blocked requests in the tests, which expect
  the status 400 that their ignored `onAcquireFail` would set, get
  neither.
- A request whose lock fails reaches the catch block through the default
  handler's error and calls unlock with its own token; the token differs
  from the holder's, so nothing is deleted
  (`Coordinator.BlockedRequestLeavesHolderIntact`).
- When the first unlock fails, the catch block unlocks a second time.
- `typeof null` is `"object"`, so `redisClient: null` passes the client check.

Redis treats a record as expired once the clock is strictly past its expiry
time; the model's `Live` follows that rule.

## Model

| member | source | states |
|---|---|---|
| `LockOptions.Configure` | index.js:4-51 | The factory succeeds exactly when none of its five rules is broken; otherwise it throws the error of the first broken rule in source order. On success the timeout is the given positive integer, and each override is installed exactly when a function was given; a falsy option keeps the default. |
| `LockOptions.SelectKeyFn` | index.js:30-37 | A falsy `keyGenerator` keeps the default key function, a function replaces it, and any other truthy value is the `keyGenerator` error. |
| `LockOptions.SelectOnLocked` | index.js:44-51 | A falsy `onLocked` keeps the default handler, a function replaces it, and any other truthy value is the `onLocked` error. |
| `LockOptions.MessageIdentifiesRule` | index.js:4-51 | The five thrown messages are pairwise different, so the message tells which rule was broken. |
| `LockOptions.OnAcquireFailIgnored` | index.js:44-51 | The value of `onAcquireFail` never changes the factory's result. |
| `LockOptions.NullClientAndBareObject` | index.js:5-12 | `redisClient: null` passes the client check; an options object without `Object.prototype` in its chain is rejected. |
| `LockOptions.TestSuiteOptions` | test/custom-key-generator.js:22-33 | The tests' options keep the default `onLocked` handler; only `keyGenerator` replaces the default key function. |
| `StringOrder.Less` | index.js:21 | The comparison `.sort()` uses: `a` comes first exactly when it is a proper prefix of `b`, or has the smaller character at the first position where they differ. |
| `StringOrder.Sort` | index.js:21 | The sort returns a permutation of the keys. |
| `StringOrder.SortAscending` | index.js:21 | Sorting distinct keys gives a strictly ascending list. |
| `StringOrder.AscendingUnique` | index.js:21 | Two strictly ascending lists of the same set of strings are equal. |
| `StringOrder.SortedKeys` | index.js:21 | Every finite set of keys has a strictly ascending enumeration. |
| `StringOrder.SortIsCanonical` | index.js:21-25 | Whatever order distinct keys arrive in, the sort yields the single ascending list of their set. |
| `KeyDerivation.Put` | index.js:24 | Assigning a property keeps the object well formed, updates the value and keeps existing keys in place; a new key is recorded after the existing ones; assigning `__proto__` leaves the object unchanged. |
| `KeyDerivation.Assign` | index.js:20 | `Object.assign` for one source: the result maps every key to the source's value if the source has it, else to the target's value; a source key `__proto__` creates no own property; the target's keys are kept. |
| `KeyDerivation.MergeParams` | index.js:20 | The three assignments together produce exactly the merged map. |
| `KeyDerivation.Own` | index.js:20 | An ordinary object can be given every own key by assignment except `__proto__`. |
| `KeyDerivation.Merged` | index.js:20 | The merged key set is the union of the three sources without `__proto__`; path params override body, and body overrides query; a name found in one source keeps that value. |
| `KeyDerivation.Canonical` | index.js:21-25 | The rebuilt object lists every merged name exactly once, in strictly ascending order, each with its merged value. |
| `KeyDerivation.CanonicalInjective` | index.js:21-26 | Equal rebuilt sequences come from equal merged maps. |
| `KeyDerivation.RebuildSorted` | index.js:21-25 | The sort and the copying loop produce the canonical sequence of the merged map, whatever order its keys were created in. |
| `KeyDerivation.StripTrailingSlash` | index.js:28 | At most one character is removed, and only a trailing `/` is removed. |
| `KeyDerivation.ComposeKey` | index.js:28 | The key is the prefix `lock-koa-middleware:`, the stripped path, a colon and the digest, in that order and nothing else. |
| `KeyDerivation.KeyFn` | index.js:19-29 | The default key is `lock-koa-middleware:` + stripped path + `:` + digest of the serialised canonical parameters. It depends on the parameters only through their merged map. |
| `KeyDerivation.SameRequestSameKey` | index.js:19-29 | Requests with equal stripped paths and equal merged parameters get the same key. |
| `KeyDerivation.ComposeKeyInjective` | index.js:28 | For digests of equal length, two keys are equal exactly when both the stripped paths and the digests are equal. |
| `KeyDerivation.DefaultKeyInjective` | index.js:19-29 | Assume an injective serialisation, fixed-length digests and no collision between the two texts. Then keys are equal exactly when stripped paths and merged maps are equal. |
| `KeyDerivation.TrailingSlashExamples` | index.js:28 | `/1/` and `/1` share a key. Of `//` only one slash is removed. `/` leaves an empty path segment. |
| `KeyDerivation.ProtoParameterIgnored` | index.js:20-28 | `POST /1?__proto__=1` merges to the same parameters as `POST /1`, and so gets the same key. |
| `KeyDerivation.TestRequestsHaveDistinctKeys` | test/default-key-generator.js:69-93 | These three requests get three distinct keys: `POST /1`, `POST /1?param=1`, and `POST /1` with body `{name:'steve'}`. |
| `LockStore.Acquire` | index.js:53-55 | Acquire succeeds exactly when the key has no live record. On success the key holds (token, now + ttl). On failure the store is unchanged. The clock and all other keys are untouched. |
| `LockStore.Release` | index.js:57-59 | If the key holds the token, its record is deleted and 1 is answered. Otherwise 0 is answered and the store is unchanged. Other keys are never touched. |
| `LockStore.SecondAcquireFails` | index.js:54 | After a successful acquire, a second acquire of the key fails at any time up to expiry. |
| `LockStore.ExpiryFreesKey` | index.js:54 | Once the time to live has passed without a release, the key can be acquired again. |
| `LockStore.AcquireAfterRelease` | index.js:54-58 | After a successful release, acquiring that key succeeds immediately. |
| `LockStore.ForeignReleaseKeepsHolder` | index.js:58 | A release with another token answers 0 and leaves the holder's record intact. |
| `LockStore.HoldSurvives` | index.js:54-58 | Other requests' steps never change an unexpired record whose token they do not use. |
| `LockStore.EveryRivalAcquireFails` | index.js:54 | Mutual exclusion: every rival acquire of a held key before its expiry fails. |
| `LockStore.TokenNeverAppears` | index.js:54-58 | A key that does not hold a token cannot come to hold it through steps that do not use it. |
| `LockStore.DifferentKeysIndependent` | index.js:54 | A lock on one key never blocks an acquire of another key. |
| `LockStore.RedisStore.Lock` | index.js:53-55 | The in-place update of the table equals the atomic conditional insert. |
| `LockStore.RedisStore.Unlock` | index.js:57-59 | The in-place update of the table equals the atomic compare-and-delete. |
| `Coordinator.CallLock` | index.js:66 | `await lock`: the answer is true exactly when the call was answered and the key had no live record. The await throws the fault's error exactly when the call was not answered. A lost request leaves the store unchanged; otherwise the store is as the conditional insert left it. The call touches no other key and not the clock. |
| `Coordinator.CallUnlock` | index.js:72-76 | `await unlock`: the await throws the fault's error exactly when the call was not answered. A lost request leaves the store unchanged; otherwise the store is as the compare-and-delete left it. The call touches no other key and not the clock. |
| `Coordinator.CatchBlock` | index.js:75-77 | The catch block adds one unlock to the trace. The promise resolves exactly when that unlock is answered, and otherwise rejects with the unlock's own error. |
| `Coordinator.Coordinate` | index.js:61-78 | A key-function error rejects with an empty trace and an unchanged store. Otherwise the lock comes first, and besides the other requests' steps the request changes only its own key and never the clock. |
| `Coordinator.KeyErrorEscapes` | index.js:62-65 | An error from the key function rejects the middleware before any store call, and the store is unchanged. |
| `Coordinator.StoreCallsUseKeyAndToken` | index.js:61-78 | The first call is the lock and no later call locks. Every unlock uses the lock's key and token. |
| `Coordinator.CallbackChoice` | index.js:66-73 | `next()` is called exactly when the lock was answered and took effect; `onLocked` exactly when it was answered and did not. |
| `Coordinator.NextIsFollowedByUnlock` | index.js:66-76 | After a successful lock, `next()` is followed by an unlock with the same key and token, whether `next()` returns or throws. A failed first unlock is followed by a second one. |
| `Coordinator.BlockedRequestCallsOnLocked` | index.js:66-69 | If the lock fails, `next()` is not called and `onLocked` is. With the default handler the catch block's unlock follows. |
| `Coordinator.ErrorsAreSwallowed` | index.js:65-77 | Once the key is derived, the promise rejects only with the catch-block unlock's error. Lock, `onLocked`, `next()` and first-unlock errors are swallowed. |
| `Coordinator.HolderReleasesItsLock` | index.js:66-77 | While the holder's record has not expired, every rival acquire fails. The key is free afterwards exactly when one of the unlocks reaches the store; otherwise the record stays as the lock wrote it. Other keys are as the rivals left them. |
| `Coordinator.BlockedRequestLeavesHolderIntact` | index.js:75-76 | A blocked request's catch-block unlock carries a different token, so the store ends exactly as the other requests left it. |
| `Coordinator.LostLockReplyIsCleanedUp` | index.js:65-77 | If the lock ran but its reply was lost, `next()` is never called, and while the record has not expired every rival acquire fails. The catch block's unlock removes the record exactly when it reaches the store. Other keys are as the rivals left them. |
| `Coordinator.OverrunningHandlerLosesLock` | index.js:54-72 | A handler that outlives the TTL loses the lock. A rival that acquires after expiry keeps its record through the late unlock. |
| `Coordinator.SecondConcurrentRequestIsBlocked` | test/default-key-generator.js:38-50 | A second request during the first one's 100 ms handler calls `onLocked`, not `next()`, and changes nothing. The first still releases. |
| `Coordinator.LaterRequestPasses` | test/default-key-generator.js:52-67 | A request 50 ms after the first one finished gets the lock and runs `next()`. |
| `Coordinator.Middleware.Handle` | index.js:61-78 | The step-by-step middleware leaves the store, trace and outcome that `Coordinate` gives for the configured key function, time to live and handler. |

## Left out

- The ioredis client, `redis.eval` and the Lua interpreter: only what the two scripts do to the table is modelled. Client faults are one of three kinds: answered, lost before the store ran the script, or run with the answer lost.
- Which object `redisClient` is: the model gives the middleware a working store, so it does not model a `null` or non-Redis client failing at request time.
- Redis's own argument checks: Redis rejects a `PX` value out of its range, and numbers from 1e21 up are passed as exponent text. Any such failure falls under the lost-request fault.
- `JSON.stringify` and MD5 (index.js:26) are the parameters of `Codec`. No collision claim is made: key injectivity is proved under an explicit no-collision hypothesis for the two texts involved.
- `JSON.stringify` failures (cyclic or BigInt bodies) that would make the default key function throw are not modelled.
- `KeyDerivation.Put`: records keys in creation order. A JavaScript object lists integer-like keys (array indices) first, in numeric order, and then the other keys in creation order. So for such keys "a new key comes last" and `target.keys <= r.keys` in `Assign` do not describe JavaScript. The key does not depend on this: line 21 sorts the keys anyway. `JSON.stringify` lists the rebuilt object's keys in the object's own order, integer-like ones first. That order depends only on the key set, so it is folded into the abstract `stringify`.
- `KeyDerivation.Assign`: every write of `__proto__` is taken to reach the setter inherited from `Object.prototype`, which creates no own property. A body field `__proto__` can replace the merged object's prototype with `null`, or with an object that has its own `__proto__` property. After that, a later path parameter named `__proto__` would become an own property of the merged object; the model drops it.
- Parameter values are represented by their JSON text. So, as in the code, nested objects are not canonicalised.
- Strings are sequences of characters compared one character at a time. The UTF-16 ordering of characters outside the Basic Multilingual Plane is not modelled.
- `Math.random()` (index.js:63) is the `token` parameter. Any distinctness the proofs need is a precondition.
- A custom key generator is represented only by the key it returns or the error it throws.
- A custom `onLocked` is represented only by whether it returns or throws. That it also receives `next` and may call it is not modelled; `NextCall` is the middleware's own call.
- Koa's context and response, the router, the body parser and the test harness are not modelled. The request is its path, query, body and path parameters, and a missing body contributes no keys.
- JavaScript numbers are unbounded integers plus the classes fractional, infinite and NaN. Double precision is not modelled.
- Concurrency: other requests act only as a sequence of atomic store steps with elapsed time. On every path these steps happen after this request's lock call and before any of its unlocks, including when the lock fails or its reply is lost. Store calls themselves take no time, and nothing interleaves between a first and a second unlock.
- Redis's lazy removal of expired keys is not modelled. An expired record stays in the table but is treated as absent.
