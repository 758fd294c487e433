/** Per-key configuration lookup: a key's own record, else the configured defaults
    (recorded under the key on first use), else the library-wide default. */
module Config {
  import opened Wrappers

  /** The record config.go declares. */
  datatype KeyConfig = KeyConfig(ttl: int, ttlJitter: int, useCompression: bool)

  /** `DEFAULT_KEYCONFIG`. */
  const DefaultKeyConfig := KeyConfig(3600, 300, true)

  /** What `Get(key)` answers, given the state before the call; `None` stands for a
      nil `Configs` map, which Go reads as empty. */
  function Resolve<K>(configs: Option<map<string, K>>, defaults: Option<K>, builtin: K, key: string): (r: K)
    ensures configs.Some? && key in configs.value ==> r == configs.value[key]
    ensures !(configs.Some? && key in configs.value) && defaults.Some? ==> r == defaults.value
    ensures !(configs.Some? && key in configs.value) && defaults.None? ==> r == builtin
  {
    if configs.Some? && key in configs.value then configs.value[key]
    else if defaults.Some? then defaults.value
    else builtin
  }

  /** The `Configs` map after `Get(key)`: the defaults are recorded under a key that had
      no record of its own. */
  function AfterGet<K>(configs: Option<map<string, K>>, defaults: Option<K>, key: string): (c: Option<map<string, K>>)
    requires configs.Some? || defaults.None?
    ensures c.Some? <==> configs.Some?
    ensures c.Some? ==> configs.value.Keys <= c.value.Keys <= configs.value.Keys + {key}
    ensures c.Some? ==> forall k | k in configs.value :: c.value[k] == configs.value[k]
    ensures c.Some? && defaults.Some? ==> key in c.value
  {
    if configs.Some? && key !in configs.value && defaults.Some? then
      Some(configs.value[key := defaults.value])
    else configs
  }

  class CacheFunkConfig<K> {
    var defaults: Option<K>
    var configs: Option<map<string, K>>
    /** The package-level fallback, `DEFAULT_KEYCONFIG` for the record above. */
    const builtin: K

    constructor (defaults: Option<K>, configs: Option<map<string, K>>, builtin: K)
      ensures this.defaults == defaults && this.configs == configs && this.builtin == builtin
    {
      this.defaults := defaults;
      this.configs := configs;
      this.builtin := builtin;
    }

    /** `Get`: a nil `Configs` map with non-nil `Defaults` would panic on the insertion,
        so callers must have allocated the map whenever defaults are set. */
    method Get(key: string) returns (r: K)
      requires configs.Some? || defaults.None?
      modifies this
      ensures r == Resolve(old(configs), old(defaults), builtin, key)
      ensures configs == AfterGet(old(configs), old(defaults), key)
      ensures defaults == old(defaults)
    {
      if configs.Some? && key in configs.value {
        r := configs.value[key];
      } else if defaults.Some? {
        configs := Some(configs.value[key := defaults.value]);
        r := defaults.value;
      } else {
        r := builtin;
      }
    }
  }

  /** A key with its own record resolves to it and leaves the map as it was. */
  lemma HitChangesNothing<K>(configs: map<string, K>, defaults: Option<K>, builtin: K, key: string)
    requires key in configs
    ensures Resolve(Some(configs), defaults, builtin, key) == configs[key]
    ensures AfterGet(Some(configs), defaults, key) == Some(configs)
  {
  }

  /** After a lookup the next lookup of the same key answers the same and changes nothing:
      the inserted defaults are found by the first branch. */
  lemma GetIsIdempotent<K>(configs: Option<map<string, K>>, defaults: Option<K>, builtin: K, key: string)
    requires configs.Some? || defaults.None?
    ensures var c := AfterGet(configs, defaults, key);
            && Resolve(c, defaults, builtin, key) == Resolve(configs, defaults, builtin, key)
            && AfterGet(c, defaults, key) == c
  {
  }

  /** Looking a key up never changes what any other key resolves to. */
  lemma GetIsolatesKeys<K>(configs: Option<map<string, K>>, defaults: Option<K>, builtin: K, key: string, other: string)
    requires configs.Some? || defaults.None?
    ensures Resolve(AfterGet(configs, defaults, key), defaults, builtin, other) == Resolve(configs, defaults, builtin, other)
  {
  }

  /** The map grows by at most the one key looked up. */
  lemma GetGrowsByAtMostOne<K>(configs: map<string, K>, defaults: Option<K>, key: string)
    ensures |AfterGet(Some(configs), defaults, key).value| <= |configs| + 1
    ensures key in configs || defaults.None? ==> AfterGet(Some(configs), defaults, key) == Some(configs)
  {
  }

  /** An unknown key on an empty configuration resolves to `DEFAULT_KEYCONFIG`: TTL 3600,
      jitter 300, compression on. */
  lemma EmptyConfigUsesLibraryDefault(key: string)
    ensures var r := Resolve(Some(map[]), None, DefaultKeyConfig, key);
            r.ttl == 3600 && r.ttlJitter == 300 && r.useCompression
    ensures Resolve(None, None, DefaultKeyConfig, key) == DefaultKeyConfig
  {
  }
}
