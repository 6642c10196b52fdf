/**
 * The middleware returned by the factory (index.js:61-78): derive the key,
 * draw a token, try to lock; on failure call `onLocked`, on success call
 * `next()` and unlock; any error thrown inside the `try` leads to the
 * `catch`, which unlocks again and swallows the error.
 */
module Coordinator {
  import opened Wrappers
  import opened LockStore
  import opened LockOptions
  import KeyDerivation

  /** An error thrown in the middleware: its message and its `status`, when set. */
  datatype JsError = JsError(message: string, status: Option<nat>)

  /** The error the default `onLocked` throws (lines 39-43). */
  const LOCKED_ERROR := JsError("Locked, try later", Some(429))

  /**
   * How one store call goes on the wire: answered, lost before the store ran
   * the script, or run by the store with its answer lost. The last two make
   * the awaited promise reject with `err`.
   */
  datatype Delivery = Delivered | LostRequest(err: JsError) | LostReply(err: JsError)

  /** How an awaited callback (`next()`, or an `onLocked` override) ends. */
  datatype Completion = Returns | Throws(err: JsError)

  /**
   * What happens around one request: how its store calls go, the atomic
   * steps of other requests and the time that pass after its lock call
   * (while a failed lock is reported, `onLocked` runs or `next()` runs) and
   * before any unlock, and how the callback ends.
   */
  datatype Env = Env(
    lock: Delivery,
    others: seq<StoreOp>,
    callback: Completion,
    unlock: Delivery,
    catchUnlock: Delivery)

  /** The calls the middleware makes, in the order it makes them. */
  datatype Event = LockCall(key: Key, token: Token) | OnLockedCall | NextCall | UnlockCall(key: Key, token: Token)

  /** The promise the middleware returns resolves, or rejects with an error. */
  datatype Outcome = Resolved | Rejected(err: JsError)

  datatype Run = Run(store: Store, trace: seq<Event>, outcome: Outcome)

  /** `await lock(k, t, ttl)` (line 66): the new store, how the await ends and, when it returns, the answer. */
  function CallLock(s: Store, k: Key, t: Token, ttl: nat, d: Delivery): (r: (Store, Completion, bool))
    ensures r.2 <==> d.Delivered? && !Live(s, k)
    ensures r.1.Throws? <==> !d.Delivered?
    ensures r.1.Throws? ==> r.1.err == d.err
    ensures d.LostRequest? ==> r.0 == s
    ensures !d.LostRequest? ==> r.0 == Acquire(s, k, t, ttl).0
    ensures r.0.now == s.now && r.0.entries - {k} == s.entries - {k}
  {
    match d
    case Delivered => (Acquire(s, k, t, ttl).0, Returns, Acquire(s, k, t, ttl).1)
    case LostRequest(e) => (s, Throws(e), false)
    case LostReply(e) => (Acquire(s, k, t, ttl).0, Throws(e), false)
  }

  /** `await unlock(k, t)` (lines 72 and 76). */
  function CallUnlock(s: Store, k: Key, t: Token, d: Delivery): (r: (Store, Completion))
    ensures r.1.Throws? <==> !d.Delivered?
    ensures r.1.Throws? ==> r.1.err == d.err
    ensures d.LostRequest? ==> r.0 == s
    ensures !d.LostRequest? ==> r.0 == Release(s, k, t).0
    ensures r.0.now == s.now && r.0.entries - {k} == s.entries - {k}
  {
    match d
    case Delivered => (Release(s, k, t).0, Returns)
    case LostRequest(e) => (s, Throws(e))
    case LostReply(e) => (Release(s, k, t).0, Throws(e))
  }

  /** The `catch` of lines 75-77: the caught error is dropped and only the unlock's own failure escapes. */
  function CatchBlock(s: Store, k: Key, t: Token, trace: seq<Event>, d: Delivery): (r: Run)
    ensures r.trace == trace + [UnlockCall(k, t)]
    ensures r.outcome == Resolved <==> d.Delivered?
    ensures r.outcome.Rejected? ==> r.outcome.err == d.err
    ensures d.LostRequest? ==> r.store == s
    ensures !d.LostRequest? ==> r.store == Release(s, k, t).0
    ensures r.store.now == s.now && r.store.entries - {k} == s.entries - {k}
  {
    var (s', c) := CallUnlock(s, k, t, d);
    Run(s', trace + [UnlockCall(k, t)], if c.Throws? then Rejected(c.err) else Resolved)
  }

  /**
   * One request through lines 62-77, given the key function's result, the
   * token, the configured time to live and handler, and the environment.
   * A key-function error escapes untouched; otherwise the request starts
   * with its lock and, besides the other requests, touches only its own key
   * and never the clock.
   */
  function Coordinate(s: Store, key: Result<Key, JsError>, t: Token, ttl: nat, policy: LockedPolicy, env: Env): (r: Run)
    ensures key.Failure? ==> r == Run(s, [], Rejected(key.error))
    ensures key.Success? ==> |r.trace| > 0 && r.trace[0] == LockCall(key.value, t)
    ensures key.Success? ==>
      var others := RunOps(CallLock(s, key.value, t, ttl, env.lock).0, env.others);
      r.store.now == others.now && r.store.entries - {key.value} == others.entries - {key.value}
  {
    match key
    case Failure(e) => Run(s, [], Rejected(e))
    case Success(k) =>
      var (s1, locking, success) := CallLock(s, k, t, ttl, env.lock);
      var s2 := RunOps(s1, env.others);
      var t1 := [LockCall(k, t)];
      if locking.Throws? then CatchBlock(s2, k, t, t1, env.catchUnlock)
      else if !success then
        var handler := if policy == DefaultOnLocked then Throws(LOCKED_ERROR) else env.callback;
        if handler.Throws? then CatchBlock(s2, k, t, t1 + [OnLockedCall], env.catchUnlock)
        else Run(s2, t1 + [OnLockedCall], Resolved)
      else
        if env.callback.Throws? then CatchBlock(s2, k, t, t1 + [NextCall], env.catchUnlock)
        else
          var (s3, unlocking) := CallUnlock(s2, k, t, env.unlock);
          var t3 := t1 + [NextCall, UnlockCall(k, t)];
          if unlocking.Throws? then CatchBlock(s3, k, t, t3, env.catchUnlock)
          else Run(s3, t3, Resolved)
  }

  /** The key the configured key function gives: the default one's, or what the override returned or threw. */
  ghost function DerivedKey(strategy: KeyStrategy, ctx: KeyDerivation.Context, codec: KeyDerivation.Codec,
                            customKey: Result<Key, JsError>): Result<Key, JsError>
  {
    if strategy == DefaultKeyFn then Success(KeyDerivation.DefaultKey(ctx.path, KeyDerivation.Merged(ctx), codec))
    else customKey
  }

  /** An error of the key function escapes before any store call: nothing is locked or unlocked. */
  lemma KeyErrorEscapes(s: Store, e: JsError, t: Token, ttl: nat, policy: LockedPolicy, env: Env)
    ensures Coordinate(s, Failure(e), t, ttl, policy, env) == Run(s, [], Rejected(e))
  {
  }

  /**
   * Once the key is known, the first call is the lock, no later call locks,
   * and every lock and unlock uses the request's key and token.
   */
  lemma StoreCallsUseKeyAndToken(s: Store, k: Key, t: Token, ttl: nat, policy: LockedPolicy, env: Env)
    ensures var r := Coordinate(s, Success(k), t, ttl, policy, env);
      && 2 <= |r.trace| <= 4
      && r.trace[0] == LockCall(k, t)
      && (forall i :: 0 < i < |r.trace| ==> !r.trace[i].LockCall?)
      && (forall i :: 0 <= i < |r.trace| && r.trace[i].UnlockCall? ==> r.trace[i] == UnlockCall(k, t))
  {
  }

  /**
   * `next()` is called exactly when the lock was answered and took effect,
   * `onLocked` exactly when it was answered and had not; never both.
   */
  lemma CallbackChoice(s: Store, k: Key, t: Token, ttl: nat, policy: LockedPolicy, env: Env)
    ensures var r := Coordinate(s, Success(k), t, ttl, policy, env);
      && (NextCall in r.trace <==> env.lock.Delivered? && !Live(s, k))
      && (OnLockedCall in r.trace <==> env.lock.Delivered? && Live(s, k))
  {
  }

  /**
   * When the lock succeeds, `next()` is called and then the unlock is
   * attempted with the lock's key and token, whether `next()` returns or
   * throws; a failing unlock is followed by the catch block's second one.
   */
  lemma NextIsFollowedByUnlock(s: Store, k: Key, t: Token, ttl: nat, policy: LockedPolicy, env: Env)
    requires env.lock.Delivered? && !Live(s, k)
    ensures var r := Coordinate(s, Success(k), t, ttl, policy, env);
      && |r.trace| >= 3
      && r.trace[..3] == [LockCall(k, t), NextCall, UnlockCall(k, t)]
      && (|r.trace| == 4 <==> env.callback.Returns? && !env.unlock.Delivered?)
  {
  }

  /**
   * When the lock fails, `next()` is not called and `onLocked` is; the
   * default handler throws, so the catch block's unlock follows.
   */
  lemma BlockedRequestCallsOnLocked(s: Store, k: Key, t: Token, ttl: nat, policy: LockedPolicy, env: Env)
    requires env.lock.Delivered? && Live(s, k)
    ensures var r := Coordinate(s, Success(k), t, ttl, policy, env);
      && NextCall !in r.trace
      && r.trace[..2] == [LockCall(k, t), OnLockedCall]
      && (policy == DefaultOnLocked ==> r.trace == [LockCall(k, t), OnLockedCall, UnlockCall(k, t)])
  {
  }

  /**
   * Errors of the lock, of `onLocked`, of `next()` and of the first unlock
   * are swallowed: the middleware rejects only with the key function's
   * error or with the error of the catch block's own unlock.
   */
  lemma ErrorsAreSwallowed(s: Store, k: Key, t: Token, ttl: nat, policy: LockedPolicy, env: Env)
    ensures var r := Coordinate(s, Success(k), t, ttl, policy, env);
      && (r.outcome.Rejected? ==>
            !env.catchUnlock.Delivered? && r.outcome.err == env.catchUnlock.err
            && r.trace[|r.trace| - 1] == UnlockCall(k, t))
      && (env.catchUnlock.Delivered? ==> r.outcome == Resolved)
  {
  }

  /**
   * Whether an unlock issued after `next()` reaches the store: the catch
   * block's when `next()` throws, otherwise the first one or, when that is
   * lost, the catch block's.
   */
  predicate UnlockRuns(env: Env) {
    if env.callback.Throws? then !env.catchUnlock.LostRequest?
    else !env.unlock.LostRequest? || !env.catchUnlock.LostRequest?
  }

  /**
   * A request that got the lock holds it against every rival until it
   * unlocks, as long as its record does not expire meanwhile and its token
   * is its own. The key is free afterwards exactly when one of its unlocks
   * reaches the store; otherwise its record stays as the lock wrote it.
   * Every other key is as the other requests left it.
   */
  lemma HolderReleasesItsLock(s: Store, k: Key, t: Token, ttl: nat, policy: LockedPolicy, env: Env)
    requires env.lock.Delivered? && !Live(s, k)
    requires forall op :: op in env.others ==> !UsesToken(op, t)
    requires Elapsed(env.others) <= ttl
    ensures var s1 := Acquire(s, k, t, ttl).0;
      forall i :: 0 <= i < |env.others| && env.others[i].AcquireOp? && env.others[i].key == k ==>
        !Acquire(RunOps(s1, env.others[..i]), k, env.others[i].token, env.others[i].ttl).1
    ensures var r := Coordinate(s, Success(k), t, ttl, policy, env);
      && (k !in r.store.entries <==> UnlockRuns(env))
      && (!UnlockRuns(env) ==> k in r.store.entries && r.store.entries[k] == Entry(t, s.now + ttl))
      && r.store.entries - {k} == RunOps(Acquire(s, k, t, ttl).0, env.others).entries - {k}
  {
    var s1 := Acquire(s, k, t, ttl).0;
    forall i | 0 <= i < |env.others| && env.others[i].AcquireOp? && env.others[i].key == k
      ensures !Acquire(RunOps(s1, env.others[..i]), k, env.others[i].token, env.others[i].ttl).1
    {
      EveryRivalAcquireFails(s1, k, t, env.others, i);
    }
    HoldSurvives(s1, k, t, env.others);
  }

  /**
   * A blocked request changes nothing in the store: its catch-block unlock
   * carries a token the key does not hold, so another holder's lock stays.
   */
  lemma BlockedRequestLeavesHolderIntact(s: Store, k: Key, holder: Token, t: Token, ttl: nat, policy: LockedPolicy, env: Env)
    requires env.lock.Delivered? && HeldBy(s, k, holder) && holder != t
    requires forall op :: op in env.others ==> !UsesToken(op, t)
    ensures var r := Coordinate(s, Success(k), t, ttl, policy, env);
      r.store == RunOps(s, env.others)
  {
    TokenNeverAppears(s, k, t, env.others);
  }

  /**
   * When the store ran the lock but its answer was lost, `next()` is never
   * called; the record holds off every rival while other requests act, and
   * the catch block's unlock removes it exactly when that unlock reaches the
   * store, as long as the record has not expired meanwhile.
   */
  lemma LostLockReplyIsCleanedUp(s: Store, k: Key, t: Token, ttl: nat, policy: LockedPolicy, env: Env)
    requires env.lock.LostReply? && !Live(s, k)
    requires forall op :: op in env.others ==> !UsesToken(op, t)
    requires Elapsed(env.others) <= ttl
    ensures var s1 := Acquire(s, k, t, ttl).0;
      forall i :: 0 <= i < |env.others| && env.others[i].AcquireOp? && env.others[i].key == k ==>
        !Acquire(RunOps(s1, env.others[..i]), k, env.others[i].token, env.others[i].ttl).1
    ensures var r := Coordinate(s, Success(k), t, ttl, policy, env);
      && r.trace == [LockCall(k, t), UnlockCall(k, t)]
      && (k !in r.store.entries <==> !env.catchUnlock.LostRequest?)
      && r.store.entries - {k} == RunOps(Acquire(s, k, t, ttl).0, env.others).entries - {k}
  {
    var s1 := Acquire(s, k, t, ttl).0;
    forall i | 0 <= i < |env.others| && env.others[i].AcquireOp? && env.others[i].key == k
      ensures !Acquire(RunOps(s1, env.others[..i]), k, env.others[i].token, env.others[i].ttl).1
    {
      EveryRivalAcquireFails(s1, k, t, env.others, i);
    }
    HoldSurvives(s1, k, t, env.others);
  }

  /**
   * A handler that outlives the time to live loses the lock: a rival that
   * acquires after the expiry keeps its record through the late unlock.
   */
  lemma OverrunningHandlerLosesLock(s: Store, k: Key, t: Token, rival: Token, ttl: nat, ms: nat, policy: LockedPolicy)
    requires !Live(s, k) && rival != t && ms > ttl
    ensures var env := Env(Delivered, [Tick(ms), AcquireOp(k, rival, ttl)], Returns, Delivered, Delivered);
      var r := Coordinate(s, Success(k), t, ttl, policy, env);
      && r.trace == [LockCall(k, t), NextCall, UnlockCall(k, t)]
      && r.outcome == Resolved
      && k in r.store.entries && r.store.entries[k] == Entry(rival, s.now + ms + ttl)
  {
    var env := Env(Delivered, [Tick(ms), AcquireOp(k, rival, ttl)], Returns, Delivered, Delivered);
    var s1 := Acquire(s, k, t, ttl).0;
    assert env.others[..1] == [Tick(ms)];
    assert RunOps(s1, env.others[..1]) == Advance(s1, ms);
  }

  /** The environment of a request whose calls are all answered and whose handler takes `ms` and returns. */
  function AllAnswered(ms: nat): Env {
    Env(Delivered, [Tick(ms)], Returns, Delivered, Delivered)
  }

  /**
   * Scenario "2nd should be blocked" (test/default-key-generator.js:38-50):
   * the second request for the key arrives `m` ms after the first locked it,
   * while the first one's 100 ms handler runs. The second calls `onLocked`
   * and not `next()` and changes nothing; the first, with the second's
   * lock and unlock among the steps during its handler, still releases.
   */
  lemma SecondConcurrentRequestIsBlocked(s: Store, k: Key, t1: Token, t2: Token, m: nat)
    requires !Live(s, k) && t1 != t2 && m <= 100
    ensures var held := Advance(Acquire(s, k, t1, 1000).0, m);
      var second := Coordinate(held, Success(k), t2, 1000, DefaultOnLocked, Env(Delivered, [], Returns, Delivered, Delivered));
      && second.trace == [LockCall(k, t2), OnLockedCall, UnlockCall(k, t2)]
      && second.outcome == Resolved
      && second.store == held
    ensures var others := [Tick(m), AcquireOp(k, t2, 1000), ReleaseOp(k, t2), Tick(100 - m)];
      var first := Coordinate(s, Success(k), t1, 1000, DefaultOnLocked, Env(Delivered, others, Returns, Delivered, Delivered));
      && first.trace == [LockCall(k, t1), NextCall, UnlockCall(k, t1)]
      && first.outcome == Resolved
      && k !in first.store.entries
  {
    var others := [Tick(m), AcquireOp(k, t2, 1000), ReleaseOp(k, t2), Tick(100 - m)];
    var env := Env(Delivered, others, Returns, Delivered, Delivered);
    assert Elapsed(others) == 100 by {
      var p1, p2, p3 := others[..1], others[..2], others[..3];
      assert p1[..0] == [] && p2[..1] == p1 && p3[..2] == p2 && others[..3] == p3;
      assert Elapsed(p1) == m;
      assert Elapsed(p2) == m;
      assert Elapsed(p3) == m;
    }
    HolderReleasesItsLock(s, k, t1, 1000, DefaultOnLocked, env);
  }

  /**
   * Scenario "2nd should pass" (test/default-key-generator.js:52-67): the
   * first request finishes its 100 ms handler and unlocks; a second request
   * for the key 50 ms later gets the lock and runs `next()`.
   */
  lemma LaterRequestPasses(s: Store, k: Key, t1: Token, t2: Token)
    requires !Live(s, k) && t1 != t2
    ensures var first := Coordinate(s, Success(k), t1, 1000, DefaultOnLocked, AllAnswered(100));
      var second := Coordinate(Advance(first.store, 50), Success(k), t2, 1000, DefaultOnLocked, AllAnswered(100));
      && first.trace == [LockCall(k, t1), NextCall, UnlockCall(k, t1)]
      && second.trace == [LockCall(k, t2), NextCall, UnlockCall(k, t2)]
      && first.outcome == Resolved && second.outcome == Resolved
  {
    assert [Tick(100)][..0] == [];
  }

  /** The middleware function built by the factory, bound to its configuration and store client. */
  class Middleware {
    const config: Config
    const redis: RedisStore
    const codec: KeyDerivation.Codec

    constructor (config: Config, redis: RedisStore, codec: KeyDerivation.Codec)
      ensures this.config == config && this.redis == redis && this.codec == codec
    {
      this.config := config;
      this.redis := redis;
      this.codec := codec;
    }

    method AwaitLock(k: Key, t: Token, d: Delivery) returns (c: Completion, success: bool)
      modifies redis
      ensures (redis.Model(), c, success) == CallLock(old(redis.Model()), k, t, config.timeout, d)
    {
      success := false;
      c := Returns;
      if d.LostRequest? {
        c := Throws(d.err);
      } else {
        success := redis.Lock(k, t, config.timeout);
        if d.LostReply? {
          c, success := Throws(d.err), false;
        }
      }
    }

    method AwaitUnlock(k: Key, t: Token, d: Delivery) returns (c: Completion)
      modifies redis
      ensures (redis.Model(), c) == CallUnlock(old(redis.Model()), k, t, d)
    {
      c := Returns;
      if d.LostRequest? {
        c := Throws(d.err);
      } else {
        var _ := redis.Unlock(k, t);
        if d.LostReply? {
          c := Throws(d.err);
        }
      }
    }

    /**
     * The middleware for one request. `customKey` is what an overriding
     * key generator returns or throws for `ctx`; `token` stands for the
     * request's `Math.random()`.
     */
    method Handle(ctx: KeyDerivation.Context, customKey: Result<Key, JsError>, token: Token, env: Env)
      returns (trace: seq<Event>, outcome: Outcome)
      requires KeyDerivation.ValidContext(ctx)
      modifies redis
      ensures Run(redis.Model(), trace, outcome)
        == Coordinate(old(redis.Model()), DerivedKey(config.keyFn, ctx, codec, customKey), token,
                      config.timeout, config.onLocked, env)
    {
      var key: Key;
      if config.keyFn == DefaultKeyFn {
        key := KeyDerivation.KeyFn(ctx, codec);
      } else if customKey.Failure? {
        trace, outcome := [], Rejected(customKey.error);
        return;
      } else {
        key := customKey.value;
      }
      trace := [LockCall(key, token)];
      var thrown: Option<JsError> := None;
      var locking, success := AwaitLock(key, token, env.lock);
      redis.PerformAll(env.others);
      if locking.Throws? {
        thrown := Some(locking.err);
      } else if !success {
        trace := trace + [OnLockedCall];
        var handler := if config.onLocked == DefaultOnLocked then Throws(LOCKED_ERROR) else env.callback;
        if handler.Throws? {
          thrown := Some(handler.err);
        }
      } else {
        trace := trace + [NextCall];
        if env.callback.Throws? {
          thrown := Some(env.callback.err);
        } else {
          trace := trace + [UnlockCall(key, token)];
          var unlocking := AwaitUnlock(key, token, env.unlock);
          if unlocking.Throws? {
            thrown := Some(unlocking.err);
          }
        }
      }
      outcome := Resolved;
      if thrown.Some? {
        trace := trace + [UnlockCall(key, token)];
        var unlocking := AwaitUnlock(key, token, env.catchUnlock);
        if unlocking.Throws? {
          outcome := Rejected(unlocking.err);
        }
      }
    }
  }
}
