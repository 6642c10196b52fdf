/**
 * The default key function `keyFn` (index.js:19-29): merge the request's
 * parameters, rebuild them in sorted key order, serialise and digest the
 * result and put the digest after the route path.
 */
module KeyDerivation {
  import opened StringOrder

  /** A parameter's value, represented by its JSON text. */
  type Value = string

  /**
   * A JavaScript object with string keys: the order in which its own keys
   * were created and the value of each.
   */
  datatype JsObject = JsObject(keys: seq<string>, props: map<string, Value>)

  ghost predicate WellFormed(o: JsObject) {
    Distinct(o.keys) && Elements(o.keys) == o.props.Keys
  }

  const EMPTY: JsObject := JsObject([], map[])

  /**
   * The request as the key function reads it: `ctx.path`, `ctx.query`,
   * `ctx.request.body` and `ctx.params` (a missing body contributes no key).
   */
  datatype Context = Context(path: string, query: JsObject, body: JsObject, params: JsObject)

  ghost predicate ValidContext(ctx: Context) {
    WellFormed(ctx.query) && WellFormed(ctx.body) && WellFormed(ctx.params)
  }

  /**
   * The abstract collaborators of line 26: `JSON.stringify` of an object,
   * seen through the sequence of (name, value) pairs it lists, and the hex
   * MD5 digest of a string.
   */
  datatype Codec = Codec(stringify: seq<(string, Value)> -> string, md5Hex: string -> string)

  const PREFIX := "lock-koa-middleware:"

  /** MD5 digests in hex are 32 characters long. */
  const DIGEST_LENGTH := 32

  /**
   * The one key an assignment on an ordinary object never creates: writing
   * `o.__proto__` calls the setter inherited from `Object.prototype`, which
   * changes (or keeps) the object's prototype and adds no own property.
   */
  const PROTO := "__proto__"

  /** The own properties an ordinary object can be given by assignment. */
  function Own(m: map<string, Value>): (r: map<string, Value>)
    ensures PROTO !in r && forall k :: k != PROTO ==> (k in r <==> k in m)
    ensures forall k :: k in r ==> r[k] == m[k]
  {
    m - {PROTO}
  }

  /**
   * `o[k] = v` on an object whose prototype is `Object.prototype`: a known
   * key keeps its place, a new key is created after the others, and
   * `__proto__` creates nothing.
   */
  function Put(o: JsObject, k: string, v: Value): (r: JsObject)
    requires WellFormed(o)
    ensures WellFormed(r)
    ensures k == PROTO ==> r == o
    ensures k != PROTO ==> r.props == o.props[k := v]
    ensures o.keys <= r.keys && (k !in o.props && k != PROTO ==> r.keys == o.keys + [k])
  {
    if k == PROTO then o
    else if k in o.props then JsObject(o.keys, o.props[k := v])
    else JsObject(o.keys + [k], o.props[k := v])
  }

  /** The map of `m` restricted to the keys listed in `ks`. */
  function Restrict(m: map<string, Value>, ks: seq<string>): (r: map<string, Value>)
    ensures r.Keys == m.Keys * Elements(ks)
  {
    map k | k in ks && k in m :: m[k]
  }

  lemma RestrictStep(m: map<string, Value>, ks: seq<string>, k: string)
    requires k in m
    ensures Restrict(m, ks + [k]) == Restrict(m, ks)[k := m[k]]
  {
    assert Elements(ks + [k]) == Elements(ks) + {k};
  }

  lemma RestrictSkip(m: map<string, Value>, ks: seq<string>, k: string)
    requires k !in m
    ensures Restrict(m, ks + [k]) == Restrict(m, ks)
  {
  }

  lemma UpdateUnion(a: map<string, Value>, b: map<string, Value>, k: string, v: Value)
    ensures (a + b)[k := v] == a + b[k := v]
  {
  }

  lemma RestrictAll(m: map<string, Value>, ks: seq<string>)
    requires m.Keys <= Elements(ks)
    ensures Restrict(m, ks) == m
  {
  }

  /**
   * `Object.assign(target, source)`: every own key of the source is written
   * into the target in the source's order, so the source's values win, keys
   * the target already had keep their place, and a source key `__proto__`
   * goes to the prototype setter and leaves no own property.
   */
  method Assign(target: JsObject, source: JsObject) returns (r: JsObject)
    requires WellFormed(target) && WellFormed(source)
    ensures WellFormed(r)
    ensures r.props == target.props + Own(source.props)
    ensures target.keys <= r.keys
  {
    ghost var own := Own(source.props);
    r := target;
    for i := 0 to |source.keys|
      invariant WellFormed(r)
      invariant target.keys <= r.keys
      invariant r.props == target.props + Restrict(own, source.keys[..i])
    {
      var k := source.keys[i];
      ghost var before := Restrict(own, source.keys[..i]);
      assert source.keys[..i + 1] == source.keys[..i] + [k];
      if k == PROTO {
        RestrictSkip(own, source.keys[..i], k);
      } else {
        RestrictStep(own, source.keys[..i], k);
        UpdateUnion(target.props, before, k, source.props[k]);
      }
      r := Put(r, k, source.props[k]);
    }
    assert source.keys[..|source.keys|] == source.keys;
    RestrictAll(own, source.keys);
  }

  /** Line 20: `Object.assign({}, ctx.query, ctx.request.body, ctx.params)`. */
  method MergeParams(ctx: Context) returns (params: JsObject)
    requires ValidContext(ctx)
    ensures WellFormed(params)
    ensures params.props == Merged(ctx)
  {
    params := Assign(EMPTY, ctx.query);
    assert params.props == Own(ctx.query.props);
    params := Assign(params, ctx.body);
    params := Assign(params, ctx.params);
  }

  /**
   * The parameters merged at line 20: a path parameter overrides a body
   * field, which overrides a query parameter of the same name, a name found
   * in one source only keeps that source's value, and `__proto__` is never
   * among them.
   */
  function Merged(ctx: Context): (m: map<string, Value>)
    ensures PROTO !in m
    ensures m.Keys == (ctx.query.props.Keys + ctx.body.props.Keys + ctx.params.props.Keys) - {PROTO}
    ensures forall k :: k in ctx.params.props && k != PROTO ==> m[k] == ctx.params.props[k]
    ensures forall k :: k in ctx.body.props && k !in ctx.params.props && k != PROTO ==> m[k] == ctx.body.props[k]
    ensures forall k :: k in ctx.query.props && k !in ctx.body.props && k !in ctx.params.props && k != PROTO ==>
      m[k] == ctx.query.props[k]
  {
    Own(ctx.query.props) + Own(ctx.body.props) + Own(ctx.params.props)
  }

  /** The (name, value) pairs of an object, in its key order. */
  function Entries(o: JsObject): (r: seq<(string, Value)>)
    requires WellFormed(o)
    ensures |r| == |o.keys|
    ensures forall i :: 0 <= i < |r| ==> r[i].0 == o.keys[i] && r[i].1 == o.props[o.keys[i]]
  {
    seq(|o.keys|, i requires 0 <= i < |o.keys| => (o.keys[i], o.props[o.keys[i]]))
  }

  /** The object that lines 21-25 rebuild from a merged map: its keys in ascending order. */
  ghost function Canonical(m: map<string, Value>): (r: seq<(string, Value)>)
    ensures |r| == |m|
    ensures forall i, j :: 0 <= i < j < |r| ==> Less(r[i].0, r[j].0)
    ensures forall i :: 0 <= i < |r| ==> r[i].0 in m && r[i].1 == m[r[i].0]
    ensures forall k :: k in m ==> exists i :: 0 <= i < |r| && r[i].0 == k
  {
    var ks := SortedKeys(m.Keys);
    AscendingIsDistinct(ks);
    DistinctCardinality(ks);
    var r := Entries(JsObject(ks, m));
    forall k | k in m ensures exists i :: 0 <= i < |r| && r[i].0 == k {
      assert k in Elements(ks);
    }
    r
  }

  lemma {:induction false} DistinctCardinality(s: seq<string>)
    requires Distinct(s)
    ensures |Elements(s)| == |s|
  {
    if s != [] {
      var last := s[|s| - 1];
      var init := s[..|s| - 1];
      assert Distinct(init);
      DistinctCardinality(init);
      assert Elements(s) == Elements(init) + {last};
      assert last !in Elements(init);
    }
  }

  /** The rebuilt object determines the merged map it came from. */
  lemma CanonicalInjective(m1: map<string, Value>, m2: map<string, Value>)
    requires Canonical(m1) == Canonical(m2)
    ensures m1 == m2
  {
    var r := Canonical(m1);
    forall k | k in m1 ensures k in m2 && m2[k] == m1[k] {
      var i :| 0 <= i < |r| && r[i].0 == k;
    }
    forall k | k in m2 ensures k in m1 {
      var i :| 0 <= i < |r| && r[i].0 == k;
    }
  }

  /** `path.replace(/\/$/, '')`: one trailing slash, if there is one, is dropped. */
  function StripTrailingSlash(path: string): (r: string)
    ensures r <= path && |path| - 1 <= |r|
    ensures |r| < |path| <==> (|path| > 0 && path[|path| - 1] == '/')
  {
    if |path| > 0 && path[|path| - 1] == '/' then path[..|path| - 1] else path
  }

  /**
   * The template string of line 28: the prefix, the stripped path, a colon
   * and the digest, in that order and nothing else.
   */
  function ComposeKey(path: string, digest: string): (r: string)
    ensures var p := StripTrailingSlash(path); var n := |PREFIX| + |p|;
      && |r| == n + 1 + |digest|
      && r[..|PREFIX|] == PREFIX && r[|PREFIX|..n] == p && r[n] == ':' && r[n + 1..] == digest
  {
    PREFIX + StripTrailingSlash(path) + ":" + digest
  }

  /** The key the default key function gives a route path and a merged parameter map. */
  ghost function DefaultKey(path: string, merged: map<string, Value>, codec: Codec): string {
    ComposeKey(path, codec.md5Hex(codec.stringify(Canonical(merged))))
  }

  /**
   * Lines 21-25: the keys sorted, then copied one by one into a fresh object,
   * which therefore lists the merged map in its one ascending order. The
   * merged object of line 20 has no own `__proto__` (see `Assign`).
   */
  method RebuildSorted(params: JsObject) returns (sortedParams: JsObject)
    requires WellFormed(params) && PROTO !in params.props
    ensures WellFormed(sortedParams)
    ensures Entries(sortedParams) == Canonical(params.props)
  {
    var sortedKeys := Sort(params.keys);
    SortAscending(params.keys);
    AscendingIsDistinct(sortedKeys);
    sortedParams := EMPTY;
    for i := 0 to |sortedKeys|
      invariant WellFormed(sortedParams)
      invariant sortedParams.keys == sortedKeys[..i]
      invariant sortedParams.props == Restrict(params.props, sortedKeys[..i])
    {
      var k := sortedKeys[i];
      assert k in multiset(params.keys);
      assert sortedKeys[..i + 1] == sortedKeys[..i] + [k];
      assert k !in sortedKeys[..i];
      RestrictStep(params.props, sortedKeys[..i], k);
      sortedParams := Put(sortedParams, k, params.props[k]);
    }
    assert sortedKeys[..|sortedKeys|] == sortedKeys;
    SortIsCanonical(params.keys);
    RestrictAll(params.props, sortedKeys);
  }

  /**
   * `keyFn` of lines 19-29. Its result depends on the parameters only
   * through their merged map (not on the order in which any key was
   * inserted) and has the form of line 28.
   */
  method KeyFn(ctx: Context, codec: Codec) returns (key: string)
    requires ValidContext(ctx)
    ensures key == DefaultKey(ctx.path, Merged(ctx), codec)
    ensures key == PREFIX + StripTrailingSlash(ctx.path) + ":" + codec.md5Hex(codec.stringify(Canonical(Merged(ctx))))
  {
    var params := MergeParams(ctx);
    var sortedParams := RebuildSorted(params);
    var md5 := codec.md5Hex(codec.stringify(Entries(sortedParams)));
    key := ComposeKey(ctx.path, md5);
  }

  /**
   * Two requests whose route paths agree up to one trailing slash and whose
   * merged parameters are equal get the same key.
   */
  lemma SameRequestSameKey(ctx1: Context, ctx2: Context, codec: Codec)
    requires StripTrailingSlash(ctx1.path) == StripTrailingSlash(ctx2.path)
    requires Merged(ctx1) == Merged(ctx2)
    ensures DefaultKey(ctx1.path, Merged(ctx1), codec) == DefaultKey(ctx2.path, Merged(ctx2), codec)
  {
  }

  /** With digests of one length, the key determines the stripped path and the digest. */
  lemma ComposeKeyInjective(p1: string, d1: string, p2: string, d2: string)
    requires |d1| == |d2|
    ensures ComposeKey(p1, d1) == ComposeKey(p2, d2) <==>
      StripTrailingSlash(p1) == StripTrailingSlash(p2) && d1 == d2
  {
    var s1, s2 := StripTrailingSlash(p1), StripTrailingSlash(p2);
    var k1, k2 := ComposeKey(p1, d1), ComposeKey(p2, d2);
    if k1 == k2 {
      var n := |PREFIX|;
      assert |s1| == |s2|;
      assert s1 == k1[n..n + |s1|];
      assert s2 == k2[n..n + |s2|];
      assert d1 == k1[n + |s1| + 1..];
      assert d2 == k2[n + |s2| + 1..];
    }
  }

  ghost predicate Injective<A(!new), B>(f: A -> B) {
    forall a1, a2 :: f(a1) == f(a2) ==> a1 == a2
  }

  /** The text whose digest line 26 takes, for a merged map. */
  ghost function Serialised(m: map<string, Value>, codec: Codec): string {
    codec.stringify(Canonical(m))
  }

  /** The digest tells the two texts apart (no collision between them). */
  ghost predicate NoCollision(codec: Codec, x1: string, x2: string) {
    codec.md5Hex(x1) == codec.md5Hex(x2) ==> x1 == x2
  }

  /**
   * With an injective serialisation, digests of one length and no digest
   * collision between the two texts, two requests get the same key exactly
   * when their paths agree up to one trailing slash and their merged
   * parameters are equal.
   */
  lemma DefaultKeyInjective(p1: string, m1: map<string, Value>, p2: string, m2: map<string, Value>, codec: Codec)
    requires Injective(codec.stringify)
    requires forall x :: |codec.md5Hex(x)| == DIGEST_LENGTH
    requires NoCollision(codec, Serialised(m1, codec), Serialised(m2, codec))
    ensures DefaultKey(p1, m1, codec) == DefaultKey(p2, m2, codec) <==>
      StripTrailingSlash(p1) == StripTrailingSlash(p2) && m1 == m2
  {
    var d1 := codec.md5Hex(Serialised(m1, codec));
    var d2 := codec.md5Hex(Serialised(m2, codec));
    ComposeKeyInjective(p1, d1, p2, d2);
    if DefaultKey(p1, m1, codec) == DefaultKey(p2, m2, codec) {
      assert Serialised(m1, codec) == Serialised(m2, codec);
      CanonicalInjective(m1, m2);
    }
  }

  /** `/1/` and `/1` give one key; of `//` only one slash goes, and the root path `/` leaves nothing. */
  lemma TrailingSlashExamples(d: string)
    ensures ComposeKey("/1/", d) == ComposeKey("/1", d)
    ensures ComposeKey("//", d) == "lock-koa-middleware:/:" + d
    ensures ComposeKey("/", d) == "lock-koa-middleware::" + d
  {
    assert "/1/"[..2] == "/1";
    assert "//"[..1] == "/";
    assert "/"[..0] == "";
  }

  /** JSON text of the string "1" and of the string "steve". */
  const JSON_ONE := "\"1\""
  const JSON_STEVE := "\"steve\""

  /** The route parameters of `/1` on the route `/:id`. */
  const ID_ONE := JsObject(["id"], map["id" := JSON_ONE])

  /** `POST /1`, `POST /1?param=1` and `POST /1` with body `{name: 'steve'}`. */
  const PLAIN := Context("/1", EMPTY, EMPTY, ID_ONE)
  const WITH_QUERY := Context("/1", JsObject(["param"], map["param" := JSON_ONE]), EMPTY, ID_ONE)
  const WITH_BODY := Context("/1", EMPTY, JsObject(["name"], map["name" := JSON_STEVE]), ID_ONE)

  /**
   * The requests of the test at test/default-key-generator.js:69-93 get
   * three different keys, so none of them blocks another.
   */
  lemma TestRequestsHaveDistinctKeys(codec: Codec)
    requires Injective(codec.stringify)
    requires forall x :: |codec.md5Hex(x)| == DIGEST_LENGTH
    requires NoCollision(codec, Serialised(Merged(PLAIN), codec), Serialised(Merged(WITH_QUERY), codec))
    requires NoCollision(codec, Serialised(Merged(PLAIN), codec), Serialised(Merged(WITH_BODY), codec))
    requires NoCollision(codec, Serialised(Merged(WITH_QUERY), codec), Serialised(Merged(WITH_BODY), codec))
    ensures DefaultKey(PLAIN.path, Merged(PLAIN), codec) != DefaultKey(WITH_QUERY.path, Merged(WITH_QUERY), codec)
    ensures DefaultKey(PLAIN.path, Merged(PLAIN), codec) != DefaultKey(WITH_BODY.path, Merged(WITH_BODY), codec)
    ensures DefaultKey(WITH_QUERY.path, Merged(WITH_QUERY), codec) != DefaultKey(WITH_BODY.path, Merged(WITH_BODY), codec)
  {
    assert "param" in Merged(WITH_QUERY) && "param" !in Merged(PLAIN) && "param" !in Merged(WITH_BODY);
    assert "name" in Merged(WITH_BODY) && "name" !in Merged(PLAIN);
    DefaultKeyInjective(PLAIN.path, Merged(PLAIN), WITH_QUERY.path, Merged(WITH_QUERY), codec);
    DefaultKeyInjective(PLAIN.path, Merged(PLAIN), WITH_BODY.path, Merged(WITH_BODY), codec);
    DefaultKeyInjective(WITH_QUERY.path, Merged(WITH_QUERY), WITH_BODY.path, Merged(WITH_BODY), codec);
  }

  /** `POST /1?__proto__=1`: the query parser gives `ctx.query` an own `__proto__` property. */
  const WITH_PROTO := Context("/1", JsObject([PROTO], map[PROTO := JSON_ONE]), EMPTY, ID_ONE)

  /**
   * A `__proto__` parameter never reaches the merged object (line 20), so
   * `POST /1?__proto__=1` gets the key of `POST /1`.
   */
  lemma ProtoParameterIgnored(codec: Codec)
    ensures Merged(WITH_PROTO) == Merged(PLAIN)
    ensures DefaultKey(WITH_PROTO.path, Merged(WITH_PROTO), codec) == DefaultKey(PLAIN.path, Merged(PLAIN), codec)
  {
  }
}
