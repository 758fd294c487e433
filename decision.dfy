/** The memoisation procedure shared by `Cache` and `CacheWithContext`, as functions of the
    state before a call: how a stored body is decoded, how a result is encoded, what the
    probe's outcome decides, and what one whole call returns and leaves in storage. */
module Decision {
  import opened Wrappers
  import opened ByteStrings
  import opened Values
  import opened Library
  import opened Policy
  import opened Memory
  import Params
  import Codec
  import Compression

  /** The decoding half of `CacheFunk.Get`: a storage error is handed on as it is, so the
      caller can still recognise "not found" and "expired"; a stored body is decompressed,
      then unmarshalled into the target, and either failure is wrapped. */
  function Load(lib: Library, cfg: KeyConfig, target: Kind, read: Result<Bytes, Error>): (r: Result<Value, Error>)
    ensures read.Err? ==> r == Err(read.error)
    ensures read.Ok? && r.Err? ==> r.error.FailedToDecompress? || r.error.FailedToUnmarshal?
  {
    match read
    case Err(e) => Err(e)
    case Ok(raw) =>
      match Compression.Decompress(lib, cfg.bodyCompression, raw)
      case Err(e) => Err(FailedToDecompress(e))
      case Ok(data) =>
        match Codec.Unmarshal(lib, cfg.bodyCodec, data, target)
        case Err(e) => Err(FailedToUnmarshal(e))
        case Ok(v) => Ok(v)
  }

  /** The encoding half of `CacheFunk.Set`: marshal with the body codec, then compress. */
  function Encode(lib: Library, cfg: KeyConfig, v: Value): (r: Result<Bytes, Error>)
    ensures r.Err? ==> r.error.FailedToMarshal? || r.error.FailedToCompress?
  {
    match Codec.Marshal(lib, cfg.bodyCodec, v)
    case Err(e) => Err(FailedToMarshal(e))
    case Ok(data) =>
      match Compression.Compress(lib, cfg.bodyCompression, data)
      case Err(e) => Err(FailedToCompress(e))
      case Ok(body) => Ok(body)
  }

  /** The library laws a configuration's body codec and compressor rely on. */
  ghost predicate BodyLawful(lib: Library, cfg: KeyConfig) {
    Codec.Lawful(lib, cfg.bodyCodec) && Compression.Lawful(lib, cfg.bodyCompression)
  }

  /** What is encoded decodes back to the same value, under the same configuration. */
  lemma LoadEncode(lib: Library, cfg: KeyConfig, v: Value)
    requires BodyLawful(lib, cfg) && Codec.Representable(cfg.bodyCodec, v)
    requires Encode(lib, cfg, v).Ok?
    ensures Load(lib, cfg, KindOf(v), Ok(Encode(lib, cfg, v).value)) == Ok(v)
  {
    var data := Codec.Marshal(lib, cfg.bodyCodec, v).value;
    Codec.RoundTrip(lib, cfg.bodyCodec, v);
    Compression.RoundTrip(lib, cfg.bodyCompression, data);
  }

  /** How a call ends: served from the cache, freshly resolved, served stale after the
      resolver failed, or failed with the resolver's error. */
  datatype Step = Served(v: Value) | Fresh(v: Value) | Fallback(v: Value) | Failed(cause: Error)

  /** The decision over any backend.  `probe` is what `CacheFunk.Get` answered with the
      current cutoff (looked at only when the cache is not ignored), `resolved` what the
      resolver returned, `stale` what a re-read with `MinDate` answers. */
  function Decide(ignore: bool, fallback: bool, probe: Result<Value, Error>, resolved: Result<Value, Error>,
                  stale: Result<Value, Error>): (s: Step)
    ensures s.Served? <==> !ignore && probe.Ok?
    ensures s.Served? ==> s.v == probe.value
    ensures s.Fallback? ==> fallback && !ignore && probe == Err(EntryExpired) && resolved.Err? && stale == Ok(s.v)
    ensures s.Fresh? ==> resolved == Ok(s.v)
    ensures s.Failed? ==> resolved == Err(s.cause)
  {
    if !ignore && probe.Ok? then Served(probe.value)
    else if resolved.Ok? then Fresh(resolved.value)
    else if fallback && !ignore && probe == Err(EntryExpired) && stale.Ok? then Fallback(stale.value)
    else Failed(resolved.error)
  }

  /** Every read error other than "expired" is a plain miss: not found, a wrong tag, a
      failed decompression or unmarshal, and any backend error all decide alike. */
  lemma OtherReadErrorsAreMisses(ignore: bool, fallback: bool, e: Error, resolved: Result<Value, Error>, stale: Result<Value, Error>)
    requires e != EntryExpired
    ensures Decide(ignore, fallback, Err(e), resolved, stale) == Decide(ignore, fallback, Err(EntryNotFound), resolved, stale)
  {
  }

  /** Ignoring the cache makes the probe irrelevant: the resolver's answer decides. */
  lemma IgnoreSkipsProbe(fallback: bool, p1: Result<Value, Error>, p2: Result<Value, Error>, resolved: Result<Value, Error>,
                         s1: Result<Value, Error>, s2: Result<Value, Error>)
    ensures Decide(true, fallback, p1, resolved, s1) == Decide(true, fallback, p2, resolved, s2)
    ensures Decide(true, fallback, p1, resolved, s1) == if resolved.Ok? then Fresh(resolved.value) else Failed(resolved.error)
  {
  }

  /** What `CacheFunk.Set` reports and leaves in the memory backend. */
  datatype Write = Write(err: Option<Error>, store: Store)

  function SetEffect(lib: Library, exp: Expiry, cfg: KeyConfig, key: string, params: string, v: Value, store: Store, now: int): (w: Write)
    ensures cfg.ttl == exp.immediatelyExpires ==> w == Write(None, store)
    ensures w.err.Some? ==> w.store == store && Encode(lib, cfg, v).Err? && w.err.value == Encode(lib, cfg, v).error
    ensures cfg.ttl != exp.immediatelyExpires && Encode(lib, cfg, v).Err? ==>
              w == Write(Some(Encode(lib, cfg, v).error), store)
    ensures cfg.ttl != exp.immediatelyExpires && Encode(lib, cfg, v).Ok? ==>
              w == Write(None, Put(store, key, cfg, params, Encode(lib, cfg, v).value, exp.timestamp(cfg, now)))
  {
    if cfg.ttl == exp.immediatelyExpires then Write(None, store)
    else
      match Encode(lib, cfg, v)
      case Err(e) => Write(Some(e), store)
      case Ok(body) => Write(None, Put(store, key, cfg, params, body, exp.timestamp(cfg, now)))
  }

  /** One call: the value and error returned, whether the resolver ran, and the store after. */
  datatype Run = Run(value: Option<Value>, err: Option<Error>, called: bool, store: Store)

  /** `Cache`/`CacheWithContext` with the memory backend.  `resolved` is the resolver's
      answer for this call; `chained` says whether the resolver's error is wrapped
      (`Cache`) or only quoted (`CacheWithContext`). */
  function CacheRun(lib: Library, exp: Expiry, cfg: KeyConfig, key: string, target: Kind, store: Store,
                    ignore: bool, params: Value, resolved: Result<Value, Error>, chained: bool, now: int): (r: Run)
    ensures !r.called ==> r.store == store
    ensures r.value.None? ==> r.err.Some? && r.store == store
  {
    match Params.Marshal(lib, cfg.paramCodec, params)
    case Err(e) => Run(None, Some(FailedToMarshalParameters(key, e)), false, store)
    case Ok(p) => Proceed(lib, exp, cfg, key, target, store, ignore, p, resolved, chained, now)
  }

  /** The call once its parameters are rendered as `p`. */
  function Proceed(lib: Library, exp: Expiry, cfg: KeyConfig, key: string, target: Kind, store: Store,
                   ignore: bool, p: string, resolved: Result<Value, Error>, chained: bool, now: int): (r: Run)
    ensures !r.called ==> r.store == store
    ensures r.value.None? ==> r.err.Some? && r.store == store
  {
    var probe := Load(lib, cfg, target, Lookup(store, key, cfg, p, exp.expireTime(cfg, now)));
    var stale := Load(lib, cfg, target, Lookup(store, key, cfg, p, exp.minDate));
    match Decide(ignore, cfg.fallbackToExpired, probe, resolved, stale)
    case Served(v) => Run(Some(v), None, false, store)
    case Fallback(v) => Run(Some(v), None, true, store)
    case Failed(e) => Run(None, Some(FailedToRetrieve(key, p, e, chained)), true, store)
    case Fresh(v) =>
      var w := SetEffect(lib, exp, cfg, key, p, v, store, now);
      Run(Some(v), if w.err.Some? then Some(SetCacheFailed(key, p, w.err.value)) else None, true, w.store)
  }

  /** The rendered parameters of a call, on which every storage access is keyed. */
  function ParamString(lib: Library, cfg: KeyConfig, params: Value): Result<GoString, Error> {
    Params.Marshal(lib, cfg.paramCodec, params)
  }

  /** Parameters the codec cannot render end the call with an error: the resolver is not
      called and storage is untouched. */
  lemma ParamFailureStops(lib: Library, exp: Expiry, cfg: KeyConfig, key: string, target: Kind, store: Store,
                          ignore: bool, params: Value, resolved: Result<Value, Error>, chained: bool, now: int)
    requires ParamString(lib, cfg, params).Err?
    ensures CacheRun(lib, exp, cfg, key, target, store, ignore, params, resolved, chained, now)
            == Run(None, Some(FailedToMarshalParameters(key, ParamString(lib, cfg, params).error)), false, store)
  {
  }

  /** Parameters holding a func value are such parameters. */
  lemma FuncParamsStop(lib: Library, exp: Expiry, cfg: KeyConfig, key: string, target: Kind, store: Store,
                       ignore: bool, params: Value, resolved: Result<Value, Error>, chained: bool, now: int)
    requires JsonRefusesFuncs(lib) && ContainsFunc(params)
    ensures var r := CacheRun(lib, exp, cfg, key, target, store, ignore, params, resolved, chained, now);
            r.err.Some? && !r.called && r.store == store
  {
    Params.MarshalRejectsFunc(lib, cfg.paramCodec, params);
  }

  /** A fresh, decodable entry is returned without calling the resolver. */
  lemma FreshHitServes(lib: Library, exp: Expiry, cfg: KeyConfig, key: string, target: Kind, store: Store,
                       params: Value, resolved: Result<Value, Error>, chained: bool, now: int, v: Value)
    requires ParamString(lib, cfg, params).Ok?
    requires Load(lib, cfg, target, Lookup(store, key, cfg, ParamString(lib, cfg, params).value, exp.expireTime(cfg, now))) == Ok(v)
    ensures CacheRun(lib, exp, cfg, key, target, store, false, params, resolved, chained, now) == Run(Some(v), None, false, store)
  {
  }

  /** Whenever the probe fails, or the cache is ignored, the resolver runs, and the
      storage signals "not found" and "expired" never reach the caller. */
  lemma MissCallsResolver(lib: Library, exp: Expiry, cfg: KeyConfig, key: string, target: Kind, store: Store,
                          ignore: bool, params: Value, resolved: Result<Value, Error>, chained: bool, now: int)
    requires ParamString(lib, cfg, params).Ok?
    requires ignore || Load(lib, cfg, target, Lookup(store, key, cfg, ParamString(lib, cfg, params).value, exp.expireTime(cfg, now))).Err?
    ensures var r := CacheRun(lib, exp, cfg, key, target, store, ignore, params, resolved, chained, now);
            && r.called
            && (r.err.Some? ==> r.err.value.FailedToRetrieve? || r.err.value.SetCacheFailed?)
  {
  }

  /** A successful resolver result is stored as `compress(marshal(v))` with the write-time
      timestamp, overwriting whatever was under `key:params`, and returned. */
  lemma ResolvedIsStored(lib: Library, exp: Expiry, cfg: KeyConfig, key: string, target: Kind, store: Store,
                         ignore: bool, params: Value, v: Value, chained: bool, now: int)
    requires ParamString(lib, cfg, params).Ok?
    requires ignore || Load(lib, cfg, target, Lookup(store, key, cfg, ParamString(lib, cfg, params).value, exp.expireTime(cfg, now))).Err?
    requires cfg.ttl != exp.immediatelyExpires && Encode(lib, cfg, v).Ok?
    ensures CacheRun(lib, exp, cfg, key, target, store, ignore, params, Ok(v), chained, now)
            == Run(Some(v), None, true,
                   Put(store, key, cfg, ParamString(lib, cfg, params).value, Encode(lib, cfg, v).value, exp.timestamp(cfg, now)))
  {
  }

  /** A TTL meaning "immediately expires" never writes. */
  lemma ImmediatelyExpiringIsNotStored(lib: Library, exp: Expiry, cfg: KeyConfig, key: string, target: Kind, store: Store,
                                       ignore: bool, params: Value, resolved: Result<Value, Error>, chained: bool, now: int)
    requires cfg.ttl == exp.immediatelyExpires
    ensures var r := CacheRun(lib, exp, cfg, key, target, store, ignore, params, resolved, chained, now);
            r.store == store && (r.called && resolved.Ok? ==> r == Run(Some(resolved.value), None, true, store))
  {
  }

  /** A result that cannot be encoded is still returned, together with the wrapped error,
      and nothing is written. */
  lemma SetFailureReturnsValueAndError(lib: Library, exp: Expiry, cfg: KeyConfig, key: string, target: Kind, store: Store,
                                       ignore: bool, params: Value, v: Value, chained: bool, now: int)
    requires ParamString(lib, cfg, params).Ok?
    requires ignore || Load(lib, cfg, target, Lookup(store, key, cfg, ParamString(lib, cfg, params).value, exp.expireTime(cfg, now))).Err?
    requires cfg.ttl != exp.immediatelyExpires && Encode(lib, cfg, v).Err?
    ensures CacheRun(lib, exp, cfg, key, target, store, ignore, params, Ok(v), chained, now)
            == Run(Some(v), Some(SetCacheFailed(key, ParamString(lib, cfg, params).value, Encode(lib, cfg, v).error)), true, store)
  {
  }

  /** A failing resolver after an "expired" probe, with fallback enabled, returns the
      stale entry read with `MinDate`, with no error and no write. */
  lemma FallbackServesStale(lib: Library, exp: Expiry, cfg: KeyConfig, key: string, target: Kind, store: Store,
                            params: Value, e: Error, chained: bool, now: int, v: Value)
    requires ParamString(lib, cfg, params).Ok?
    requires cfg.fallbackToExpired
    requires Lookup(store, key, cfg, ParamString(lib, cfg, params).value, exp.expireTime(cfg, now)) == Err(EntryExpired)
    requires Load(lib, cfg, target, Lookup(store, key, cfg, ParamString(lib, cfg, params).value, exp.minDate)) == Ok(v)
    ensures CacheRun(lib, exp, cfg, key, target, store, false, params, Err(e), chained, now) == Run(Some(v), None, true, store)
  {
  }

  /** A failing resolver with no stale entry to use (fallback off, cache ignored, a probe
      that did not say "expired", or a stale entry that cannot be read back) returns its error, wrapped with key and parameters, and
      leaves storage unchanged. */
  lemma ResolverFailureIsReturned(lib: Library, exp: Expiry, cfg: KeyConfig, key: string, target: Kind, store: Store,
                                  ignore: bool, params: Value, e: Error, chained: bool, now: int)
    requires ParamString(lib, cfg, params).Ok?
    requires ignore || Load(lib, cfg, target, Lookup(store, key, cfg, ParamString(lib, cfg, params).value, exp.expireTime(cfg, now))).Err?
    requires !cfg.fallbackToExpired || ignore ||
             Lookup(store, key, cfg, ParamString(lib, cfg, params).value, exp.expireTime(cfg, now)) != Err(EntryExpired) ||
             Load(lib, cfg, target, Lookup(store, key, cfg, ParamString(lib, cfg, params).value, exp.minDate)).Err?
    ensures CacheRun(lib, exp, cfg, key, target, store, ignore, params, Err(e), chained, now)
            == Run(None, Some(FailedToRetrieve(key, ParamString(lib, cfg, params).value, e, chained)), true, store)
  {
  }

  /** Right after a call stored its result, the same call (same parameters, same clock
      reading) is served from the cache and does not call the resolver again. */
  lemma RepeatIsServed(lib: Library, exp: Expiry, cfg: KeyConfig, key: string, store: Store,
                       params: Value, v: Value, later: Result<Value, Error>, chained: bool, now: int)
    requires BodyLawful(lib, cfg) && Codec.Representable(cfg.bodyCodec, v) && Pinned(exp)
    requires ParamString(lib, cfg, params).Ok?
    requires cfg.ttl != exp.immediatelyExpires && Encode(lib, cfg, v).Ok?
    ensures var first := CacheRun(lib, exp, cfg, key, KindOf(v), store, true, params, Ok(v), chained, now);
            CacheRun(lib, exp, cfg, key, KindOf(v), first.store, false, params, later, chained, now)
            == Run(Some(v), None, false, first.store)
  {
    var p := ParamString(lib, cfg, params).value;
    var body := Encode(lib, cfg, v).value;
    var s1 := Put(store, key, cfg, p, body, exp.timestamp(cfg, now));
    assert exp.expireTime(cfg, now) <= exp.timestamp(cfg, now);
    GetAfterSet(store, key, cfg, p, body, exp.timestamp(cfg, now), exp.expireTime(cfg, now));
    LoadEncode(lib, cfg, v);
  }
}
