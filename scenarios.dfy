/** Whole-call sequences from the package's test suite, replayed on the model: which calls
    run the resolver, what each returns, and what storage holds afterwards.  All calls of
    one sequence read the clock once, as the tests run them back to back. */
module Scenarios {
  import opened Wrappers
  import opened ByteStrings
  import opened Values
  import opened Library
  import opened Policy
  import opened Memory
  import opened Decision
  import opened Sweep
  import Params
  import Codec
  import Compression

  /** `&HelloWorldParams{name, age}`. */
  function HelloParams(name: GoString, age: int): (v: Value)
    ensures KindOf(v) == RecordKind("HelloWorldParams")
  {
    Record("HelloWorldParams", [Str(BytesOf(name)), Int(age)])
  }

  /** The test's names are ASCII, so the parameters hold valid UTF-8 only. */
  lemma HelloParamsValidText(name: GoString, age: int)
    requires forall i | 0 <= i < |name| :: name[i] as int <= 0x7F
    ensures ValidText(HelloParams(name, age))
  {
    AsciiIsUtf8(BytesOf(name));
  }

  /** Parameters whose rendering decodes back to them. */
  predicate RendersFaithfully(lib: Library, cfg: KeyConfig, params: Value) {
    && ParamString(lib, cfg, params).Ok?
    && Params.Unmarshal(lib, cfg.paramCodec, ParamString(lib, cfg, params).value, KindOf(params)) == Ok(params)
  }

  /** When encoding/json round-trips, every renderable parameter value whose strings are
      valid UTF-8 renders faithfully. */
  lemma LawfulRendersFaithfully(lib: Library, cfg: KeyConfig, params: Value)
    requires JsonRoundTrips(lib) && ValidText(params) && ParamString(lib, cfg, params).Ok?
    ensures RendersFaithfully(lib, cfg, params)
  {
    Params.RoundTrip(lib, cfg.paramCodec, params);
  }

  /** The same rendering never stands for two different parameter values of one type, so
      different parameters are stored under different full keys. */
  lemma RenderedDistinct(lib: Library, cfg: KeyConfig, key: string, v1: Value, v2: Value)
    requires RendersFaithfully(lib, cfg, v1) && RendersFaithfully(lib, cfg, v2)
    requires KindOf(v1) == KindOf(v2) && v1 != v2
    ensures ParamString(lib, cfg, v1).value != ParamString(lib, cfg, v2).value
    ensures FullKey(key, ParamString(lib, cfg, v1).value) != FullKey(key, ParamString(lib, cfg, v2).value)
  {
    var f1 := FullKey(key, ParamString(lib, cfg, v1).value);
    var f2 := FullKey(key, ParamString(lib, cfg, v2).value);
    assert f1[|key| + 1..] != f2[|key| + 1..];
  }

  /** A call whose full key holds nothing runs the resolver and stores its result. */
  lemma MissStores(lib: Library, exp: Expiry, cfg: KeyConfig, key: string, target: Kind, store: Store,
                   ignore: bool, params: Value, v: Value, now: int)
    requires ParamString(lib, cfg, params).Ok? && FullKey(key, ParamString(lib, cfg, params).value) !in store
    requires cfg.ttl != exp.immediatelyExpires && Encode(lib, cfg, v).Ok?
    ensures CacheRun(lib, exp, cfg, key, target, store, ignore, params, Ok(v), true, now)
            == Run(Some(v), None, true,
                   Put(store, key, cfg, ParamString(lib, cfg, params).value, Encode(lib, cfg, v).value, exp.timestamp(cfg, now)))
  {
    ResolvedIsStored(lib, exp, cfg, key, target, store, ignore, params, v, true, now);
  }

  /** A call whose full key holds what the same clock reading wrote is served from it. */
  lemma HitServes(lib: Library, exp: Expiry, cfg: KeyConfig, key: string, target: Kind, store: Store,
                  params: Value, v: Value, resolved: Result<Value, Error>, now: int)
    requires exp.expireTime(cfg, now) <= exp.timestamp(cfg, now)
    requires ParamString(lib, cfg, params).Ok? && Encode(lib, cfg, v).Ok?
    requires Load(lib, cfg, target, Ok(Encode(lib, cfg, v).value)) == Ok(v)
    requires var fk := FullKey(key, ParamString(lib, cfg, params).value);
             fk in store && store[fk] == Entry(Encode(lib, cfg, v).value, exp.timestamp(cfg, now), Tag(cfg))
    ensures CacheRun(lib, exp, cfg, key, target, store, false, params, resolved, true, now) == Run(Some(v), None, false, store)
  {
    var p := ParamString(lib, cfg, params).value;
    assert Lookup(store, key, cfg, p, exp.expireTime(cfg, now)) == Ok(Encode(lib, cfg, v).value);
    FreshHitServes(lib, exp, cfg, key, target, store, params, resolved, true, now, v);
  }

  /** What the sequence needs of each parameter value: it renders faithfully, and the
      resolver's answer for it encodes and decodes back into the call's result type. */
  predicate Answerable(lib: Library, cfg: KeyConfig, params: Value, answer: Value -> Value, target: Kind) {
    && RendersFaithfully(lib, cfg, params)
    && Encode(lib, cfg, answer(params)).Ok?
    && Load(lib, cfg, target, Ok(Encode(lib, cfg, answer(params)).value)) == Ok(answer(params))
  }

  /** Under the library laws, a renderable parameter value whose answer encodes and has
      the result type is answerable, as long as JSON is only asked to keep valid UTF-8. */
  lemma LawfulAnswerable(lib: Library, cfg: KeyConfig, params: Value, answer: Value -> Value, target: Kind)
    requires JsonRoundTrips(lib) && BodyLawful(lib, cfg)
    requires ValidText(params) && Codec.Representable(cfg.bodyCodec, answer(params))
    requires ParamString(lib, cfg, params).Ok? && Encode(lib, cfg, answer(params)).Ok? && KindOf(answer(params)) == target
    ensures Answerable(lib, cfg, params, answer, target)
  {
    LawfulRendersFaithfully(lib, cfg, params);
    LoadEncode(lib, cfg, answer(params));
  }

  /** The first three calls of the sequence: three different parameter values on an empty
      store each run the resolver, return its answer, and leave one entry apiece. */
  lemma ThreeMisses(lib: Library, exp: Expiry, cfg: KeyConfig, key: string, target: Kind, answer: Value -> Value,
                    a: Value, b: Value, c: Value, now: int)
    requires cfg.ttl != exp.immediatelyExpires
    requires Answerable(lib, cfg, a, answer, target) && Answerable(lib, cfg, b, answer, target) && Answerable(lib, cfg, c, answer, target)
    requires KindOf(a) == KindOf(b) == KindOf(c) && a != b && a != c && b != c
    ensures var r1 := CacheRun(lib, exp, cfg, key, target, map[], false, a, Ok(answer(a)), true, now);
            var r2 := CacheRun(lib, exp, cfg, key, target, r1.store, false, b, Ok(answer(b)), true, now);
            var r3 := CacheRun(lib, exp, cfg, key, target, r2.store, false, c, Ok(answer(c)), true, now);
            && r1 == Run(Some(answer(a)), None, true, r1.store)
            && r2 == Run(Some(answer(b)), None, true, r2.store)
            && r3 == Run(Some(answer(c)), None, true, r3.store)
            && r3.store == Put(Put(Put(map[], key, cfg, ParamString(lib, cfg, a).value, Encode(lib, cfg, answer(a)).value, exp.timestamp(cfg, now)),
                                   key, cfg, ParamString(lib, cfg, b).value, Encode(lib, cfg, answer(b)).value, exp.timestamp(cfg, now)),
                               key, cfg, ParamString(lib, cfg, c).value, Encode(lib, cfg, answer(c)).value, exp.timestamp(cfg, now))
  {
    var pa, pb, pc := ParamString(lib, cfg, a).value, ParamString(lib, cfg, b).value, ParamString(lib, cfg, c).value;
    RenderedDistinct(lib, cfg, key, a, b);
    RenderedDistinct(lib, cfg, key, a, c);
    RenderedDistinct(lib, cfg, key, b, c);
    var t := exp.timestamp(cfg, now);
    MissStores(lib, exp, cfg, key, target, map[], false, a, answer(a), now);
    var s1 := Put(map[], key, cfg, pa, Encode(lib, cfg, answer(a)).value, t);
    MissStores(lib, exp, cfg, key, target, s1, false, b, answer(b), now);
    var s2 := Put(s1, key, cfg, pb, Encode(lib, cfg, answer(b)).value, t);
    MissStores(lib, exp, cfg, key, target, s2, false, c, answer(c), now);
  }

  /** The sequence of the string- and object-result tests: `a`, `b`, `c`, `a` again, then
      `a` ignoring the cache.  The resolver runs on calls 1, 2, 3 and 5 (its counter reads
      1, 2, 3, 3, 4), every call returns the resolver's answer for its own parameters,
      none reports an error, and three entries remain. */
  lemma RepeatedCallSequence(lib: Library, exp: Expiry, cfg: KeyConfig, key: string, target: Kind, answer: Value -> Value,
                             a: Value, b: Value, c: Value, now: int)
    requires cfg.ttl != exp.immediatelyExpires && exp.expireTime(cfg, now) <= exp.timestamp(cfg, now)
    requires Answerable(lib, cfg, a, answer, target) && Answerable(lib, cfg, b, answer, target) && Answerable(lib, cfg, c, answer, target)
    requires KindOf(a) == KindOf(b) == KindOf(c) && a != b && a != c && b != c
    ensures var r1 := CacheRun(lib, exp, cfg, key, target, map[], false, a, Ok(answer(a)), true, now);
            var r2 := CacheRun(lib, exp, cfg, key, target, r1.store, false, b, Ok(answer(b)), true, now);
            var r3 := CacheRun(lib, exp, cfg, key, target, r2.store, false, c, Ok(answer(c)), true, now);
            var r4 := CacheRun(lib, exp, cfg, key, target, r3.store, false, a, Ok(answer(a)), true, now);
            var r5 := CacheRun(lib, exp, cfg, key, target, r4.store, true, a, Ok(answer(a)), true, now);
            && [r1.called, r2.called, r3.called, r4.called, r5.called] == [true, true, true, false, true]
            && [r1.value, r2.value, r3.value, r4.value, r5.value]
               == [Some(answer(a)), Some(answer(b)), Some(answer(c)), Some(answer(a)), Some(answer(a))]
            && [r1.err, r2.err, r3.err, r4.err, r5.err] == [None, None, None, None, None]
            && |r5.store| == 3
  {
    ThreeMisses(lib, exp, cfg, key, target, answer, a, b, c, now);
    var pa, pb, pc := ParamString(lib, cfg, a).value, ParamString(lib, cfg, b).value, ParamString(lib, cfg, c).value;
    var t := exp.timestamp(cfg, now);
    var s1 := Put(map[], key, cfg, pa, Encode(lib, cfg, answer(a)).value, t);
    var s2 := Put(s1, key, cfg, pb, Encode(lib, cfg, answer(b)).value, t);
    var s3 := Put(s2, key, cfg, pc, Encode(lib, cfg, answer(c)).value, t);
    RenderedDistinct(lib, cfg, key, a, b);
    RenderedDistinct(lib, cfg, key, a, c);
    RenderedDistinct(lib, cfg, key, b, c);
    HitServes(lib, exp, cfg, key, target, s3, a, answer(a), Ok(answer(a)), now);
    ResolvedIsStored(lib, exp, cfg, key, target, s3, true, a, answer(a), true, now);
    assert s3.Keys == {FullKey(key, pa), FullKey(key, pb), FullKey(key, pc)};
  }

  /** The string-result test's own parameters, Bob 42, Clark 24 and Bob 43, under TTL 5:
      the resolver's counter reads 1, 2, 3, 3, 4. */
  lemma HelloWorldSequence(lib: Library, exp: Expiry, cfg: KeyConfig, key: string, answer: Value -> Value, now: int)
    requires Pinned(exp) && cfg.ttl == 5
    requires Answerable(lib, cfg, HelloParams("Bob", 42), answer, StringKind)
    requires Answerable(lib, cfg, HelloParams("Clark", 24), answer, StringKind)
    requires Answerable(lib, cfg, HelloParams("Bob", 43), answer, StringKind)
    ensures var bob42 := HelloParams("Bob", 42);
            var r1 := CacheRun(lib, exp, cfg, key, StringKind, map[], false, bob42, Ok(answer(bob42)), true, now);
            var r2 := CacheRun(lib, exp, cfg, key, StringKind, r1.store, false, HelloParams("Clark", 24), Ok(answer(HelloParams("Clark", 24))), true, now);
            var r3 := CacheRun(lib, exp, cfg, key, StringKind, r2.store, false, HelloParams("Bob", 43), Ok(answer(HelloParams("Bob", 43))), true, now);
            var r4 := CacheRun(lib, exp, cfg, key, StringKind, r3.store, false, bob42, Ok(answer(bob42)), true, now);
            var r5 := CacheRun(lib, exp, cfg, key, StringKind, r4.store, true, bob42, Ok(answer(bob42)), true, now);
            [r1.called, r2.called, r3.called, r4.called, r5.called] == [true, true, true, false, true]
  {
    assert HelloParams("Bob", 42) != HelloParams("Bob", 43);
    assert HelloParams("Bob", 42) != HelloParams("Clark", 24);
    assert HelloParams("Clark", 24) != HelloParams("Bob", 43);
    assert exp.expireTime(cfg, now) <= exp.timestamp(cfg, now);
    RepeatedCallSequence(lib, exp, cfg, key, StringKind, answer, HelloParams("Bob", 42), HelloParams("Clark", 24), HelloParams("Bob", 43), now);
  }

  /** The tests' `expireAllEntries`: every entry's timestamp moved to `t`. */
  function Backdated(store: Store, t: int): (s: Store)
    ensures s.Keys == store.Keys
    ensures forall fk | fk in s :: s[fk] == store[fk].(timestamp := t)
  {
    map fk | fk in store :: store[fk].(timestamp := t)
  }

  /** One row of the TTL table, for the raw-bytes resolver under the string codec without
      compression: the first call always runs the resolver and stores an entry unless the
      TTL says "immediately expires"; nothing counts as expired; after every entry is
      backdated by an hour, the second call runs the resolver again only for the "do not
      keep", 1 s and 30 s TTLs, and still nothing counts as expired. */
  lemma TTLTableRow(lib: Library, exp: Expiry, cfg: KeyConfig, key: string, params: Value, now: int)
    requires Pinned(exp)
    requires cfg.ttl in {exp.immediatelyExpires, 1, 30, -2121, 9223370000, exp.neverExpires}
    requires cfg.bodyCodec == Codec.StringCodec && cfg.bodyCompression == Compression.NoCompression
    requires ParamString(lib, cfg, params).Ok?
    ensures var v := ByteSlice([]);
            var r1 := CacheRun(lib, exp, cfg, key, BytesKind, map[], false, params, Ok(v), true, now);
            var r2 := CacheRun(lib, exp, cfg, key, BytesKind, Backdated(r1.store, now - Backdate), false, params, Ok(v), true, now);
            && r1.called && r1.value == Some(v) && r1.err == None
            && |r1.store| == (if cfg.ttl == exp.immediatelyExpires then 0 else 1)
            && KeyExpired(r1.store, exp, cfg, key, now) == 0
            && r2.called == (cfg.ttl == exp.immediatelyExpires || cfg.ttl == 1 || cfg.ttl == 30)
            && r2.value == Some(v) && r2.err == None
            && |r2.store| == |r1.store|
            && KeyExpired(r2.store, exp, cfg, key, now) == 0
  {
    var v := ByteSlice([]);
    var p := ParamString(lib, cfg, params).value;
    var fk := FullKey(key, p);
    var t := exp.timestamp(cfg, now);
    var cutoff := exp.expireTime(cfg, now);
    assert Encode(lib, cfg, v) == Ok([]);
    assert Load(lib, cfg, BytesKind, Ok([])) == Ok(v);
    if cfg.ttl == exp.immediatelyExpires {
      ImmediatelyExpiringIsNotStored(lib, exp, cfg, key, BytesKind, map[], false, params, Ok(v), true, now);
      assert Backdated(map[], now - Backdate) == map[];
      ImmediatelyExpiringIsNotStored(lib, exp, cfg, key, BytesKind, map[], false, params, Ok(v), true, now);
    } else {
      MissStores(lib, exp, cfg, key, BytesKind, map[], false, params, v, now);
      var s1 := Put(map[], key, cfg, p, [], t);
      assert s1 == map[fk := Entry([], t, Tag(cfg))];
      assert cutoff <= t;
      assert ExpiredKeys(s1, key, cutoff) == {};
      var s := Backdated(s1, now - Backdate);
      assert s == map[fk := Entry([], now - Backdate, Tag(cfg))];
      if cfg.ttl == 1 || cfg.ttl == 30 {
        assert Lookup(s, key, cfg, p, cutoff) == Err(EntryExpired);
        ResolvedIsStored(lib, exp, cfg, key, BytesKind, s, false, params, v, true, now);
        assert Put(s, key, cfg, p, [], t) == s1;
      } else {
        assert cutoff <= now - Backdate;
        assert Lookup(s, key, cfg, p, cutoff) == Ok([]);
        FreshHitServes(lib, exp, cfg, key, BytesKind, s, params, Ok(v), true, now, v);
        assert ExpiredKeys(s, key, cutoff) == {};
      }
    }
  }

  /** The fallback test: TTL 1 with fallback on.  The first call stores the answer; after
      backdating, a failing resolver is answered with the stored value and no error, the
      entry stays (and now counts as expired), and `Cleanup` then leaves storage empty. */
  lemma FallbackToExpiredRun(lib: Library, exp: Expiry, cfg: KeyConfig, key: string, target: Kind,
                             params: Value, v: Value, e: Error, now: int)
    requires Pinned(exp) && exp.minDate <= now - Backdate
    requires cfg.ttl == 1 && cfg.fallbackToExpired
    requires ParamString(lib, cfg, params).Ok? && Encode(lib, cfg, v).Ok?
    requires Load(lib, cfg, target, Ok(Encode(lib, cfg, v).value)) == Ok(v)
    ensures var configs := map[key := cfg];
            var r1 := CacheRun(lib, exp, cfg, key, target, map[], false, params, Ok(v), true, now);
            var s := Backdated(r1.store, now - Backdate);
            var r2 := CacheRun(lib, exp, cfg, key, target, s, false, params, Err(e), true, now);
            && r1 == Run(Some(v), None, true, r1.store) && |r1.store| == 1
            && KeyExpired(r1.store, exp, cfg, key, now) == 0
            && r2 == Run(Some(v), None, true, s)
            && KeyExpired(r2.store, exp, cfg, key, now) == 1
            && Swept(r2.store, exp, configs, configs.Keys, now) == map[]
  {
    var p := ParamString(lib, cfg, params).value;
    var fk := FullKey(key, p);
    var body := Encode(lib, cfg, v).value;
    var t := exp.timestamp(cfg, now);
    var cutoff := exp.expireTime(cfg, now);
    MissStores(lib, exp, cfg, key, target, map[], false, params, v, now);
    var s1 := Put(map[], key, cfg, p, body, t);
    assert s1 == map[fk := Entry(body, t, Tag(cfg))];
    assert cutoff <= t;
    assert ExpiredKeys(s1, key, cutoff) == {};
    var s := Backdated(s1, now - Backdate);
    assert s == map[fk := Entry(body, now - Backdate, Tag(cfg))];
    assert cutoff > now - Backdate;
    assert Lookup(s, key, cfg, p, cutoff) == Err(EntryExpired);
    assert Lookup(s, key, cfg, p, exp.minDate) == Ok(body);
    FallbackServesStale(lib, exp, cfg, key, target, s, params, e, true, now, v);
    assert ExpiredKeys(s, key, cutoff) == {fk};
    var configs := map[key := cfg];
    assert key in configs.Keys && configs[key].ttl != exp.neverExpires && Stale(fk, s[fk], key, cutoff);
    assert SweptBy(fk, s[fk], exp, configs, configs.Keys, now);
    assert Swept(s, exp, configs, configs.Keys, now).Keys == {};
  }

  /** The mismatched-compression test: an entry written under one compressor is not read
      under another; the resolver runs again and the entry is rewritten with the new tag. */
  lemma MismatchedCompressionIsRefetched(lib: Library, exp: Expiry, cfg1: KeyConfig, cfg2: KeyConfig, key: string, target: Kind,
                                         params: Value, v: Value, now: int)
    requires cfg1.bodyCompression != cfg2.bodyCompression && cfg1.paramCodec == cfg2.paramCodec
    requires cfg1.ttl != exp.immediatelyExpires && cfg2.ttl != exp.immediatelyExpires
    requires ParamString(lib, cfg1, params).Ok? && Encode(lib, cfg1, v).Ok? && Encode(lib, cfg2, v).Ok?
    ensures var r1 := CacheRun(lib, exp, cfg1, key, target, map[], false, params, Ok(v), true, now);
            var r2 := CacheRun(lib, exp, cfg2, key, target, r1.store, false, params, Ok(v), true, now);
            var fk := FullKey(key, ParamString(lib, cfg1, params).value);
            && r1.called && r2.called && r1.value == r2.value == Some(v) && r2.err == None
            && r1.store.Keys == r2.store.Keys == {fk}
            && r1.store[fk].compressionType == Compression.Name(cfg1.bodyCompression)
            && r2.store[fk].compressionType == Compression.Name(cfg2.bodyCompression)
  {
    var p := ParamString(lib, cfg1, params).value;
    MissStores(lib, exp, cfg1, key, target, map[], false, params, v, now);
    var s1 := Put(map[], key, cfg1, p, Encode(lib, cfg1, v).value, exp.timestamp(cfg1, now));
    TagMismatchIsNotFound(map[], key, cfg1, cfg2, p, Encode(lib, cfg1, v).value, exp.timestamp(cfg1, now), exp.expireTime(cfg2, now));
    ResolvedIsStored(lib, exp, cfg2, key, target, s1, false, params, v, true, now);
  }

  /** The poisoned-entry test: bytes that are not gzip data, stored under the gzip tag,
      fail to decompress; the call treats that as a miss, returns the resolver's answer
      without an error and overwrites the entry. */
  lemma PoisonedEntryIsReplaced(lib: Library, exp: Expiry, cfg: KeyConfig, key: string, target: Kind, store: Store,
                                params: Value, raw: Bytes, v: Value, now: int)
    requires lib.gzipDecompress(raw).Err?
    requires cfg.bodyCompression == Compression.GzipCompression && cfg.ttl != exp.immediatelyExpires
    requires ParamString(lib, cfg, params).Ok? && Encode(lib, cfg, v).Ok?
    ensures var p := ParamString(lib, cfg, params).value;
            var poisoned := Put(store, key, cfg, p, raw, exp.timestamp(cfg, now));
            CacheRun(lib, exp, cfg, key, target, poisoned, false, params, Ok(v), true, now)
            == Run(Some(v), None, true, Put(poisoned, key, cfg, p, Encode(lib, cfg, v).value, exp.timestamp(cfg, now)))
  {
    var p := ParamString(lib, cfg, params).value;
    var poisoned := Put(store, key, cfg, p, raw, exp.timestamp(cfg, now));
    assert Compression.Decompress(lib, cfg.bodyCompression, raw).Err?;
    ResolvedIsStored(lib, exp, cfg, key, target, poisoned, false, params, v, true, now);
  }

  /** The doctored body of that test is a JSON object, so it starts with '{' and lacks the
      gzip header: gzip refuses it. */
  lemma JSONObjectIsNotGzip(lib: Library, raw: Bytes)
    requires GzipChecksHeader(lib)
    requires |raw| > 0 && raw[0] == '{' as int
    ensures lib.gzipDecompress(raw).Err?
  {
    GzipRejectsForeign(lib, raw);
  }

  /** The errors-returned test: a resolver that always fails leaves storage empty and the
      caller gets its error. */
  lemma FailingResolverLeavesNothing(lib: Library, exp: Expiry, cfg: KeyConfig, key: string, target: Kind,
                                     ignore: bool, params: Value, e: Error, chained: bool, now: int)
    requires ParamString(lib, cfg, params).Ok?
    ensures var r := CacheRun(lib, exp, cfg, key, target, map[], ignore, params, Err(e), chained, now);
            r.store == map[] && r.value == None && r.err == Some(FailedToRetrieve(key, ParamString(lib, cfg, params).value, e, chained))
  {
    ResolverFailureIsReturned(lib, exp, cfg, key, target, map[], ignore, params, e, chained, now);
  }

  /** The poisoning test's last case: a func result cannot be encoded by the JSON codec,
      so it is returned with an error and nothing is stored. */
  lemma FuncResultIsNotStored(lib: Library, exp: Expiry, cfg: KeyConfig, key: string, target: Kind, store: Store,
                              ignore: bool, params: Value, now: int)
    requires JsonRefusesFuncs(lib)
    requires cfg.bodyCodec == Codec.JSONCodec && cfg.ttl != exp.immediatelyExpires
    requires ParamString(lib, cfg, params).Ok?
    requires ignore || Load(lib, cfg, target, Lookup(store, key, cfg, ParamString(lib, cfg, params).value, exp.expireTime(cfg, now))).Err?
    ensures var r := CacheRun(lib, exp, cfg, key, target, store, ignore, params, Ok(Func), true, now);
            r.value == Some(Func) && r.err.Some? && r.err.value.SetCacheFailed? && r.store == store
  {
    JsonRejectsFunc(lib, Func);
    assert Encode(lib, cfg, Func).Err?;
    SetFailureReturnsValueAndError(lib, exp, cfg, key, target, store, ignore, params, Func, true, now);
  }
}
