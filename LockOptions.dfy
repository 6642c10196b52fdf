/**
 * The middleware factory's validation of its options and its choice of the
 * key function and of the handler for a lock that is already taken
 * (index.js:4-51).
 */
module LockOptions {
  import opened Wrappers

  /** A JavaScript number, as far as `Number.isInteger` and truthiness tell numbers apart. */
  datatype JsNumber =
    | Integral(i: int)   // finite and integral, -0 included as 0
    | Fractional         // finite, not integral (never zero, so truthy)
    | Infinite
    | NaN

  /** A JavaScript value as the factory's checks see it. */
  datatype JsValue =
    | Undefined
    | Null
    | Boolean(b: bool)
    | Number(n: JsNumber)
    | BigInt(big: int)
    | Str(s: string)
    | Symbol
    | Object(inheritsObject: bool)  // false for an object whose prototype chain misses Object.prototype
    | Function(id: nat)             // `id` names the function, standing for its code

  function TypeOf(v: JsValue): string {
    match v
    case Undefined => "undefined"
    case Null => "object"
    case Boolean(_) => "boolean"
    case Number(_) => "number"
    case BigInt(_) => "bigint"
    case Str(_) => "string"
    case Symbol => "symbol"
    case Object(_) => "object"
    case Function(_) => "function"
  }

  /** The value counts as true in an `if`. */
  predicate Truthy(v: JsValue) {
    match v
    case Undefined => false
    case Null => false
    case Boolean(b) => b
    case Number(n) => n != Integral(0) && n != NaN
    case BigInt(i) => i != 0
    case Str(s) => s != ""
    case Symbol => true
    case Object(_) => true
    case Function(_) => true
  }

  /** `v instanceof Object`. */
  predicate InstanceOfObject(v: JsValue) {
    match v
    case Object(inherits) => inherits
    case Function(_) => true
    case _ => false
  }

  /** `Number.isInteger(v) && v > 0`, which does not convert a non-number. */
  predicate IsPositiveInteger(v: JsValue) {
    v.Number? && v.n.Integral? && v.n.i > 0
  }

  /**
   * The argument of the factory: the value itself and the properties read
   * from it (`Undefined` when absent). `onAcquireFail` is the name the tests
   * pass; the factory never reads it.
   */
  datatype Options = Options(
    self: JsValue,
    redisClient: JsValue,
    expireMilliseconds: JsValue,
    keyGenerator: JsValue,
    onLocked: JsValue,
    onAcquireFail: JsValue)

  datatype KeyStrategy = DefaultKeyFn | CustomKeyGenerator(fn: nat)

  datatype LockedPolicy = DefaultOnLocked | CustomOnLocked(fn: nat)

  /** What the returned middleware closes over besides the store client. */
  datatype Config = Config(timeout: nat, keyFn: KeyStrategy, onLocked: LockedPolicy)

  /** The five errors the factory throws, in the order it checks for them. */
  datatype ConfigError =
    | OptionsNotObject
    | RedisClientNotObject
    | ExpireNotPositiveInteger
    | KeyGeneratorNotFunction
    | OnLockedNotFunction

  /** The message of the `Error` thrown for each broken rule (lines 6, 11, 16, 35 and 49). */
  function Message(e: ConfigError): string {
    match e
    case OptionsNotObject => "options must be an Object"
    case RedisClientNotObject => "options.redisClient must be an instance of ioredis(https://www.npmjs.com/package/ioredis)"
    case ExpireNotPositiveInteger => "options.expireMilliseconds must be an integer greater than zero"
    case KeyGeneratorNotFunction => "options.keyGenerator must be a function which returns a string as redis key"
    case OnLockedNotFunction => "options.onLocked must be a function which handles response when resource is locked"
  }

  /** The thrown message tells which rule was broken. */
  lemma MessageIdentifiesRule(e1: ConfigError, e2: ConfigError)
    requires e1 != e2
    ensures Message(e1) != Message(e2)
  {
    MessageLength(e1);
    MessageLength(e2);
  }

  /** The lengths of the five messages, all different. */
  function Length(e: ConfigError): nat {
    match e
    case OptionsNotObject => 25
    case RedisClientNotObject => 89
    case ExpireNotPositiveInteger => 63
    case KeyGeneratorNotFunction => 75
    case OnLockedNotFunction => 82
  }

  lemma MessageLength(e: ConfigError)
    ensures |Message(e)| == Length(e)
  {
  }

  /** Position of each check among the factory's checks. */
  function Rank(e: ConfigError): nat {
    match e
    case OptionsNotObject => 0
    case RedisClientNotObject => 1
    case ExpireNotPositiveInteger => 2
    case KeyGeneratorNotFunction => 3
    case OnLockedNotFunction => 4
  }

  /** The options break the rule whose violation throws `e`. */
  predicate Violates(o: Options, e: ConfigError) {
    match e
    case OptionsNotObject => !InstanceOfObject(o.self)
    case RedisClientNotObject => TypeOf(o.redisClient) != "object"
    case ExpireNotPositiveInteger => !IsPositiveInteger(o.expireMilliseconds)
    case KeyGeneratorNotFunction => Truthy(o.keyGenerator) && !o.keyGenerator.Function?
    case OnLockedNotFunction => Truthy(o.onLocked) && !o.onLocked.Function?
  }

  /** Lines 30-37: a falsy option keeps the default, a function replaces it, anything else throws. */
  function SelectKeyFn(v: JsValue): (r: Result<KeyStrategy, ConfigError>)
    ensures r == Success(DefaultKeyFn) <==> !Truthy(v)
    ensures r.Success? && r.value.CustomKeyGenerator? <==> v.Function?
    ensures r.Success? && r.value.CustomKeyGenerator? ==> v == Function(r.value.fn)
    ensures r.Failure? <==> Truthy(v) && !v.Function?
    ensures r.Failure? ==> r.error == KeyGeneratorNotFunction
  {
    if !Truthy(v) then Success(DefaultKeyFn)
    else if TypeOf(v) == "function" then Success(CustomKeyGenerator(v.id))
    else Failure(KeyGeneratorNotFunction)
  }

  /** Lines 44-51, the same selection for `onLocked`. */
  function SelectOnLocked(v: JsValue): (r: Result<LockedPolicy, ConfigError>)
    ensures r == Success(DefaultOnLocked) <==> !Truthy(v)
    ensures r.Success? && r.value.CustomOnLocked? <==> v.Function?
    ensures r.Success? && r.value.CustomOnLocked? ==> v == Function(r.value.fn)
    ensures r.Failure? <==> Truthy(v) && !v.Function?
    ensures r.Failure? ==> r.error == OnLockedNotFunction
  {
    if !Truthy(v) then Success(DefaultOnLocked)
    else if TypeOf(v) == "function" then Success(CustomOnLocked(v.id))
    else Failure(OnLockedNotFunction)
  }

  /**
   * The factory of lines 4-51 without the closures it builds: the factory
   * succeeds exactly when no rule is broken, otherwise it throws the error
   * of the first broken rule in source order; on success the timeout is the
   * given integer and each override is installed exactly when a function
   * was given.
   */
  function Configure(o: Options): (r: Result<Config, ConfigError>)
    ensures r.Success? <==> forall e :: !Violates(o, e)
    ensures r.Failure? ==> Violates(o, r.error)
    ensures r.Failure? ==> forall e :: Rank(e) < Rank(r.error) ==> !Violates(o, e)
    ensures r.Success? ==> o.expireMilliseconds == Number(Integral(r.value.timeout)) && r.value.timeout > 0
    ensures r.Success? ==>
      (r.value.keyFn == DefaultKeyFn <==> !Truthy(o.keyGenerator)) &&
      (o.keyGenerator.Function? ==> r.value.keyFn == CustomKeyGenerator(o.keyGenerator.id))
    ensures r.Success? ==>
      (r.value.onLocked == DefaultOnLocked <==> !Truthy(o.onLocked)) &&
      (o.onLocked.Function? ==> r.value.onLocked == CustomOnLocked(o.onLocked.id))
  {
    if !InstanceOfObject(o.self) then
      assert Violates(o, OptionsNotObject);
      Failure(OptionsNotObject)
    else if TypeOf(o.redisClient) != "object" then
      assert Violates(o, RedisClientNotObject);
      Failure(RedisClientNotObject)
    else if !(o.expireMilliseconds.Number? && o.expireMilliseconds.n.Integral? && o.expireMilliseconds.n.i > 0) then
      assert Violates(o, ExpireNotPositiveInteger);
      Failure(ExpireNotPositiveInteger)
    else
      match SelectKeyFn(o.keyGenerator)
      case Failure(e) =>
        assert Violates(o, e);
        Failure(e)
      case Success(keyFn) =>
        match SelectOnLocked(o.onLocked)
        case Failure(e) =>
          assert Violates(o, e);
          Failure(e)
        case Success(onLocked) => Success(Config(o.expireMilliseconds.n.i, keyFn, onLocked))
  }

  /** The factory never reads `onAcquireFail`, so its value changes nothing. */
  lemma OnAcquireFailIgnored(o: Options, v: JsValue)
    ensures Configure(o.(onAcquireFail := v)) == Configure(o)
  {
  }

  /**
   * `null` passes the client check, because its `typeof` is "object", and
   * a prototype-less object fails the `instanceof Object` check.
   */
  lemma NullClientAndBareObject(o: Options)
    requires InstanceOfObject(o.self) && IsPositiveInteger(o.expireMilliseconds)
    requires !Truthy(o.keyGenerator) && !Truthy(o.onLocked)
    ensures Configure(o.(redisClient := Null)).Success?
    ensures Configure(o.(self := Object(false))) == Failure(OptionsNotObject)
  {
  }

  /**
   * The options of the two test suites (test/default-key-generator.js:22-29
   * and test/custom-key-generator.js:22-33): the default
   * handler stays installed although `onAcquireFail` is a function, and only
   * `keyGenerator` replaces the default key function.
   */
  lemma TestSuiteOptions(client: JsValue, blocked: nat, keyGen: nat)
    requires client.Object?
    ensures Configure(Options(Object(true), client, Number(Integral(1000)), Undefined, Undefined, Function(blocked)))
      == Success(Config(1000, DefaultKeyFn, DefaultOnLocked))
    ensures Configure(Options(Object(true), client, Number(Integral(1000)), Function(keyGen), Undefined, Function(blocked)))
      == Success(Config(1000, CustomKeyGenerator(keyGen), DefaultOnLocked))
  {
  }
}
