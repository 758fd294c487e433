/** The engine object: configuration, the context key that carries the ignore flag, and
    the storage backend (here the in-memory one), with the memoising calls and the
    maintenance passes over configured keys. */
module Cache {
  import opened Wrappers
  import opened Values
  import opened Library
  import opened Policy
  import opened Memory
  import opened Decision
  import opened Sweep
  import Config
  import Params
  import Codec
  import Compression

  /** `DefaultIgnoreCacheCtxKey`. */
  const DefaultIgnoreCacheCtxKey := "ignoreCache"

  /** A value held by a `context.Context`: only a bool under the ignore key matters. */
  datatype CtxValue = CtxBool(b: bool) | CtxOther

  /** A `context.Context`, as the values it holds under each key. */
  type Context = map<string, CtxValue>

  /** `ctx.Value(k).(bool)` asked with the comma-ok form: an absent or non-bool value is
      read as false. */
  function IgnoreFlag(ctx: Context, k: string): (ignore: bool)
    ensures ignore <==> k in ctx && ctx[k] == CtxBool(true)
  {
    if k in ctx && ctx[k].CtxBool? then ctx[k].b else false
  }

  /** The configuration map as ranged over: a nil map has no keys. */
  function Configured(configs: Option<map<string, KeyConfig>>): (m: map<string, KeyConfig>)
    ensures configs.None? ==> m == map[]
    ensures configs.Some? ==> m == configs.value
  {
    if configs.Some? then configs.value else map[]
  }

  /** What `ExpiredEntryCount` returns: the per-key expired counts summed over the
      configured keys. */
  ghost function ExpiredTotal(store: Store, exp: Expiry, configs: Option<map<string, KeyConfig>>, now: int): nat {
    ExpiredSum(store, exp, Configured(configs), Configured(configs).Keys, now)
  }

  class CacheFunk {
    var config: Config.CacheFunkConfig<KeyConfig>
    var ignoreCtxKey: string
    var storage: InMemoryStorage
    /** The third-party libraries and the expiry rules the engine calls. */
    const lib: Library
    const expiry: Expiry

    constructor (config: Config.CacheFunkConfig<KeyConfig>, ignoreCtxKey: string, storage: InMemoryStorage, lib: Library, expiry: Expiry)
      ensures this.config == config && this.ignoreCtxKey == ignoreCtxKey && this.storage == storage
      ensures this.lib == lib && this.expiry == expiry
    {
      this.config := config;
      this.ignoreCtxKey := ignoreCtxKey;
      this.storage := storage;
      this.lib := lib;
      this.expiry := expiry;
    }

    /** `GetIgnoreCtxKey`: the configured key, or the default when none is set. */
    function GetIgnoreCtxKey(): (k: string)
      reads this
      ensures ignoreCtxKey == "" ==> k == DefaultIgnoreCacheCtxKey
      ensures ignoreCtxKey != "" ==> k == ignoreCtxKey
      ensures k != ""
    {
      if ignoreCtxKey == "" then DefaultIgnoreCacheCtxKey else ignoreCtxKey
    }

    /** `CacheFunk.Get`: read with the current cutoff, or with `MinDate` when expiry is
        ignored, then decompress and unmarshal into the target. */
    method Get(key: string, cfg: KeyConfig, params: string, ignoreExpireTime: bool, target: Kind, now: int)
      returns (r: Result<Value, Error>)
      ensures r == Load(lib, cfg, target,
                        Lookup(storage.store, key, cfg, params, if ignoreExpireTime then expiry.minDate else expiry.expireTime(cfg, now)))
    {
      var expireTime := if ignoreExpireTime then expiry.minDate else expiry.expireTime(cfg, now);
      var read := storage.Get(key, cfg, params, expireTime);
      if read.Err? {
        return Err(read.error);
      }
      var data := Compression.Decompress(lib, cfg.bodyCompression, read.value);
      if data.Err? {
        return Err(FailedToDecompress(data.error));
      }
      var v := Codec.Unmarshal(lib, cfg.bodyCodec, data.value, target);
      if v.Err? {
        return Err(FailedToUnmarshal(v.error));
      }
      return Ok(v.value);
    }

    /** `CacheFunk.Set`: nothing for a TTL that expires immediately; otherwise the
        encoded value, stamped with the write-time timestamp. */
    method Set(key: string, cfg: KeyConfig, params: string, v: Value, now: int) returns (err: Option<Error>)
      modifies storage
      ensures Write(err, storage.store) == SetEffect(lib, expiry, cfg, key, params, v, old(storage.store), now)
    {
      if cfg.ttl == expiry.immediatelyExpires {
        return None;
      }
      var timestamp := expiry.timestamp(cfg, now);
      var data := Codec.Marshal(lib, cfg.bodyCodec, v);
      if data.Err? {
        return Some(FailedToMarshal(data.error));
      }
      var body := Compression.Compress(lib, cfg.bodyCompression, data.value);
      if body.Err? {
        return Some(FailedToCompress(body.error));
      }
      err := storage.Set(key, cfg, params, body.value, timestamp);
    }

    method EntryCount() returns (count: int, err: Option<Error>)
      ensures count == |storage.store| && err == None
    {
      count, err := storage.EntryCount();
    }

    method Clear() returns (err: Option<Error>)
      modifies storage
      ensures storage.store == map[] && err == None
    {
      err := storage.Clear();
    }

    /** `ExpiredEntryCount`: asks storage key by key and sums the answers, skipping keys
        whose TTL never expires. */
    method ExpiredEntryCount(now: int) returns (count: int, err: Option<Error>)
      ensures count == ExpiredTotal(storage.store, expiry, config.configs, now) && err == None
    {
      var configs := Configured(config.configs);
      count := 0;
      var todo := configs.Keys;
      while todo != {}
        invariant todo <= configs.Keys
        invariant count + ExpiredSum(storage.store, expiry, configs, todo, now)
                  == ExpiredSum(storage.store, expiry, configs, configs.Keys, now)
        decreases todo
      {
        var key :| key in todo;
        var kc := configs[key];
        ExpiredSumRemove(storage.store, expiry, configs, todo, key, now);
        if kc.ttl != expiry.neverExpires {
          var chunk, _ := storage.ExpiredEntryCount(key, kc, expiry.expireTime(kc, now));
          count := count + chunk;
        }
        todo := todo - {key};
      }
      err := None;
    }

    /** `Cleanup`: has storage delete, key by key, the entries expired under that key's
        configuration, skipping keys whose TTL never expires. */
    method Cleanup(now: int)
      modifies storage
      ensures storage.store == Swept(old(storage.store), expiry, Configured(config.configs), Configured(config.configs).Keys, now)
    {
      var configs := Configured(config.configs);
      ghost var s0 := storage.store;
      var todo := configs.Keys;
      while todo != {}
        invariant todo <= configs.Keys
        invariant storage.store == Swept(s0, expiry, configs, configs.Keys - todo, now)
        decreases todo
      {
        var key :| key in todo;
        var kc := configs[key];
        SweepStep(s0, expiry, configs, configs.Keys - todo, key, now);
        if kc.ttl != expiry.neverExpires {
          var _ := storage.Cleanup(key, kc, expiry.expireTime(kc, now));
        }
        assert configs.Keys - (todo - {key}) == (configs.Keys - todo) + {key};
        todo := todo - {key};
      }
      assert configs.Keys - todo == configs.Keys;
    }

    /** The procedure `Cache` and `CacheWithContext` share; `resolve` stands for the
        resolver applied to this call's arguments and is invoked at most once. */
    method Memoize(key: string, target: Kind, ignore: bool, params: Value, resolve: () -> Result<Value, Error>, chained: bool, now: int)
      returns (value: Option<Value>, err: Option<Error>, called: bool)
      requires config.configs.Some? || config.defaults.None?
      modifies config, storage
      ensures var cfg := Config.Resolve(old(config.configs), old(config.defaults), config.builtin, key);
              Run(value, err, called, storage.store)
              == CacheRun(lib, expiry, cfg, key, target, old(storage.store), ignore, params, resolve(), chained, now)
      ensures config.configs == Config.AfterGet(old(config.configs), old(config.defaults), key)
      ensures config.defaults == old(config.defaults)
    {
      var cfg := config.Get(key);
      var paramStr := Params.Marshal(lib, cfg.paramCodec, params);
      if paramStr.Err? {
        return None, Some(FailedToMarshalParameters(key, paramStr.error)), false;
      }
      value, err, called := Respond(key, cfg, target, ignore, paramStr.value, resolve, chained, now);
    }

    /** The steps after the parameters are rendered as `p`: probe, resolve, fall back or
        store. */
    method Respond(key: string, cfg: KeyConfig, target: Kind, ignore: bool, p: string, resolve: () -> Result<Value, Error>, chained: bool, now: int)
      returns (value: Option<Value>, err: Option<Error>, called: bool)
      modifies storage
      ensures Run(value, err, called, storage.store)
              == Proceed(lib, expiry, cfg, key, target, old(storage.store), ignore, p, resolve(), chained, now)
    {
      var entryIsExpired := false;
      if !ignore {
        var cached := Get(key, cfg, p, false, target, now);
        if cached.Ok? {
          return Some(cached.value), None, false;
        } else if cached.error == EntryExpired {
          entryIsExpired := true;
        }
      }
      called := true;
      var result := resolve();
      if result.Err? {
        if cfg.fallbackToExpired && entryIsExpired {
          var stale := Get(key, cfg, p, true, target, now);
          if stale.Ok? {
            return Some(stale.value), None, true;
          }
        }
        return None, Some(FailedToRetrieve(key, p, result.error, chained)), true;
      }
      var setErr := Set(key, cfg, p, result.value, now);
      if setErr.Some? {
        return Some(result.value), Some(SetCacheFailed(key, p, setErr.value)), true;
      }
      return Some(result.value), None, true;
    }

    /** `Cache`: the resolver sees the caller's ignore flag, and its error is wrapped. */
    method Cache(key: string, target: Kind, resolver: (bool, Value) -> Result<Value, Error>, ignoreCache: bool, params: Value, now: int)
      returns (value: Option<Value>, err: Option<Error>, called: bool)
      requires config.configs.Some? || config.defaults.None?
      modifies config, storage
      ensures var cfg := Config.Resolve(old(config.configs), old(config.defaults), config.builtin, key);
              Run(value, err, called, storage.store)
              == CacheRun(lib, expiry, cfg, key, target, old(storage.store), ignoreCache, params, resolver(ignoreCache, params), true, now)
      ensures config.configs == Config.AfterGet(old(config.configs), old(config.defaults), key)
      ensures config.defaults == old(config.defaults)
    {
      value, err, called := Memoize(key, target, ignoreCache, params, () => resolver(ignoreCache, params), true, now);
    }

    /** `CacheWithContext`: the ignore flag comes from the context, the resolver sees the
        context, and its error is quoted rather than wrapped. */
    method CacheWithContext(key: string, target: Kind, resolver: (Context, Value) -> Result<Value, Error>, ctx: Context, params: Value, now: int)
      returns (value: Option<Value>, err: Option<Error>, called: bool)
      requires config.configs.Some? || config.defaults.None?
      modifies config, storage
      ensures var cfg := Config.Resolve(old(config.configs), old(config.defaults), config.builtin, key);
              Run(value, err, called, storage.store)
              == CacheRun(lib, expiry, cfg, key, target, old(storage.store), IgnoreFlag(ctx, old(GetIgnoreCtxKey())), params,
                          resolver(ctx, params), false, now)
      ensures config.configs == Config.AfterGet(old(config.configs), old(config.defaults), key)
      ensures config.defaults == old(config.defaults)
    {
      var ignore := IgnoreFlag(ctx, GetIgnoreCtxKey());
      value, err, called := Memoize(key, target, ignore, params, () => resolver(ctx, params), false, now);
    }
  }

  /** After `Cleanup`, `ExpiredEntryCount` at the same clock reading is 0. */
  lemma CleanupThenNothingExpired(store: Store, exp: Expiry, configs: Option<map<string, KeyConfig>>, now: int)
    ensures ExpiredTotal(Swept(store, exp, Configured(configs), Configured(configs).Keys, now), exp, configs, now) == 0
  {
    SweptLeavesNothingExpired(store, exp, Configured(configs), now);
  }
}
