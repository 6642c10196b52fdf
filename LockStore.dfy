/**
 * The two Lua scripts of index.js:53-59 as atomic operations on the
 * store's table of keys, each with a value and an expiry time, and a clock
 * in milliseconds.
 */
module LockStore {

  type Key = string

  /** The value stored under a lock key: the string of the request's random number. */
  type Token = string

  datatype Entry = Entry(value: Token, expiresAt: int)

  datatype Store = Store(entries: map<Key, Entry>, now: int)

  /** The key has a record that has not expired: a record expires once the clock is past its expiry time. */
  predicate Live(s: Store, k: Key) {
    k in s.entries && s.now <= s.entries[k].expiresAt
  }

  /** `GET key` answers `t`. */
  predicate HeldBy(s: Store, k: Key, t: Token) {
    Live(s, k) && s.entries[k].value == t
  }

  /**
   * `SET key t NX PX ttl` (line 54), the conditional insert: it succeeds
   * exactly when the key has no live record; then the key holds the token
   * until now + ttl; otherwise the store is unchanged. The clock and every
   * other key are left alone.
   */
  function Acquire(s: Store, k: Key, t: Token, ttl: nat): (r: (Store, bool))
    ensures r.1 <==> !Live(s, k)
    ensures r.1 ==> HeldBy(r.0, k, t) && r.0.entries[k] == Entry(t, s.now + ttl)
    ensures !r.1 ==> r.0 == s
    ensures r.0.now == s.now && r.0.entries - {k} == s.entries - {k}
  {
    if Live(s, k) then (s, false)
    else (Store(s.entries[k := Entry(t, s.now + ttl)], s.now), true)
  }

  /**
   * `if GET key == t then DEL key else 0` (line 58), the compare-and-delete:
   * when the key holds the token its record is deleted and 1 is answered;
   * otherwise 0 is answered and the store is unchanged. Other keys are
   * never touched.
   */
  function Release(s: Store, k: Key, t: Token): (r: (Store, int))
    ensures r.1 == 1 <==> HeldBy(s, k, t)
    ensures r.1 == 1 ==> k !in r.0.entries
    ensures r.1 != 1 ==> r.1 == 0 && r.0 == s
    ensures r.0.now == s.now && r.0.entries - {k} == s.entries - {k}
  {
    if HeldBy(s, k, t) then (Store(s.entries - {k}, s.now), 1)
    else (s, 0)
  }

  function Advance(s: Store, ms: nat): Store {
    Store(s.entries, s.now + ms)
  }

  /** One atomic step of any request, or time passing. */
  datatype StoreOp =
    | AcquireOp(key: Key, token: Token, ttl: nat)
    | ReleaseOp(key: Key, token: Token)
    | Tick(ms: nat)

  function Step(s: Store, op: StoreOp): Store {
    match op
    case AcquireOp(k, t, ttl) => Acquire(s, k, t, ttl).0
    case ReleaseOp(k, t) => Release(s, k, t).0
    case Tick(ms) => Advance(s, ms)
  }

  /** The store after a sequence of atomic steps, one after another. */
  function RunOps(s: Store, ops: seq<StoreOp>): Store
    decreases |ops|
  {
    if ops == [] then s else Step(RunOps(s, ops[..|ops| - 1]), ops[|ops| - 1])
  }

  /** The time the steps let pass. */
  function Elapsed(ops: seq<StoreOp>): nat
    decreases |ops|
  {
    if ops == [] then 0
    else Elapsed(ops[..|ops| - 1]) + (if ops[|ops| - 1].Tick? then ops[|ops| - 1].ms else 0)
  }

  predicate UsesToken(op: StoreOp, t: Token) {
    (op.AcquireOp? && op.token == t) || (op.ReleaseOp? && op.token == t)
  }

  /** A second acquire of the key, any time up to the first one's expiry, fails whoever makes it. */
  lemma SecondAcquireFails(s: Store, k: Key, t1: Token, t2: Token, ttl: nat, ms: nat)
    requires Acquire(s, k, t1, ttl).1
    requires ms <= ttl
    ensures !Acquire(Advance(Acquire(s, k, t1, ttl).0, ms), k, t2, ttl).1
  {
  }

  /** Once the time to live has passed without a release, the key can be acquired again. */
  lemma ExpiryFreesKey(s: Store, k: Key, t1: Token, t2: Token, ttl: nat, ms: nat)
    requires Acquire(s, k, t1, ttl).1
    requires ms > ttl
    ensures Acquire(Advance(Acquire(s, k, t1, ttl).0, ms), k, t2, ttl).1
  {
  }

  /** After a successful release, an acquire of the key succeeds at once. */
  lemma AcquireAfterRelease(s: Store, k: Key, t: Token, t2: Token, ttl: nat)
    requires Release(s, k, t).1 == 1
    ensures Acquire(Release(s, k, t).0, k, t2, ttl).1
  {
  }

  /** A release with another token leaves the holder's record intact. */
  lemma ForeignReleaseKeepsHolder(s: Store, k: Key, holder: Token, t: Token)
    requires HeldBy(s, k, holder) && t != holder
    ensures Release(s, k, t) == (s, 0)
  {
  }

  lemma {:induction false} ElapsedPrefix(ops: seq<StoreOp>, i: nat)
    requires i <= |ops|
    ensures Elapsed(ops[..i]) <= Elapsed(ops)
    decreases |ops|
  {
    if i < |ops| {
      var init := ops[..|ops| - 1];
      assert init[..i] == ops[..i];
      ElapsedPrefix(init, i);
    } else {
      assert ops[..i] == ops;
    }
  }

  /**
   * Mutual exclusion under any interleaving: while a record has not
   * expired and no step uses its token, every step sequence keeps the
   * record exactly as it was, so every acquire of that key in between meets
   * a live record and fails.
   */
  lemma {:induction false} HoldSurvives(s: Store, k: Key, t: Token, ops: seq<StoreOp>)
    requires HeldBy(s, k, t)
    requires forall op :: op in ops ==> !UsesToken(op, t)
    requires s.now + Elapsed(ops) <= s.entries[k].expiresAt
    ensures RunOps(s, ops).now == s.now + Elapsed(ops)
    ensures k in RunOps(s, ops).entries && RunOps(s, ops).entries[k] == s.entries[k]
    ensures HeldBy(RunOps(s, ops), k, t)
    decreases |ops|
  {
    if ops != [] {
      var init := ops[..|ops| - 1];
      var op := ops[|ops| - 1];
      assert forall o :: o in init ==> o in ops;
      HoldSurvives(s, k, t, init);
      assert !UsesToken(op, t);
    }
  }

  /** The exclusion of HoldSurvives, stated for each acquire of the key among the steps. */
  lemma EveryRivalAcquireFails(s: Store, k: Key, t: Token, ops: seq<StoreOp>, i: nat)
    requires HeldBy(s, k, t)
    requires forall op :: op in ops ==> !UsesToken(op, t)
    requires s.now + Elapsed(ops) <= s.entries[k].expiresAt
    requires i < |ops| && ops[i].AcquireOp? && ops[i].key == k
    ensures !Acquire(RunOps(s, ops[..i]), k, ops[i].token, ops[i].ttl).1
  {
    ElapsedPrefix(ops, i);
    assert forall op :: op in ops[..i] ==> op in ops;
    HoldSurvives(s, k, t, ops[..i]);
  }

  /**
   * A request whose token the key does not hold never comes to hold it
   * while no step uses that token: time only moves forward and only an
   * acquire with the token could write it.
   */
  lemma {:induction false} TokenNeverAppears(s: Store, k: Key, t: Token, ops: seq<StoreOp>)
    requires !HeldBy(s, k, t)
    requires forall op :: op in ops ==> !UsesToken(op, t)
    ensures !HeldBy(RunOps(s, ops), k, t)
    ensures RunOps(s, ops).now >= s.now
    decreases |ops|
  {
    if ops != [] {
      var init := ops[..|ops| - 1];
      assert forall o :: o in init ==> o in ops;
      TokenNeverAppears(s, k, t, init);
      assert !UsesToken(ops[|ops| - 1], t);
    }
  }

  /**
   * Requests for different keys do not block each other: a record under
   * one key never makes an acquire of another key fail.
   */
  lemma DifferentKeysIndependent(s: Store, k1: Key, t1: Token, k2: Key, t2: Token, ttl: nat)
    requires k1 != k2 && !Live(s, k1) && !Live(s, k2)
    ensures Acquire(s, k1, t1, ttl).1
    ensures Acquire(Acquire(s, k1, t1, ttl).0, k2, t2, ttl).1
  {
  }

  /** The store as the client sees it: a table of records and the store's clock. */
  class RedisStore {
    var entries: map<Key, Entry>
    var now: int

    function Model(): Store
      reads this
    {
      Store(entries, now)
    }

    constructor (start: int)
      ensures Model() == Store(map[], start)
    {
      entries := map[];
      now := start;
    }

    /** The script of line 54. */
    method Lock(k: Key, t: Token, ttl: nat) returns (ok: bool)
      modifies this
      ensures (Model(), ok) == Acquire(old(Model()), k, t, ttl)
    {
      if k in entries && now <= entries[k].expiresAt {
        ok := false;
      } else {
        entries := entries[k := Entry(t, now + ttl)];
        ok := true;
      }
    }

    /** The script of line 58. */
    method Unlock(k: Key, t: Token) returns (deleted: int)
      modifies this
      ensures (Model(), deleted) == Release(old(Model()), k, t)
    {
      if k in entries && now <= entries[k].expiresAt && entries[k].value == t {
        entries := entries - {k};
        deleted := 1;
      } else {
        deleted := 0;
      }
    }

    method Perform(op: StoreOp)
      modifies this
      ensures Model() == Step(old(Model()), op)
    {
      match op
      case AcquireOp(k, t, ttl) =>
        var _ := Lock(k, t, ttl);
      case ReleaseOp(k, t) =>
        var _ := Unlock(k, t);
      case Tick(ms) =>
        now := now + ms;
    }

    /** Other requests' steps, one after another. */
    method PerformAll(ops: seq<StoreOp>)
      modifies this
      ensures Model() == RunOps(old(Model()), ops)
    {
      for i := 0 to |ops|
        invariant Model() == RunOps(old(Model()), ops[..i])
      {
        assert ops[..i + 1][..i] == ops[..i];
        Perform(ops[i]);
      }
      assert ops[..|ops|] == ops;
    }
  }
}
