/** The engine's maintenance passes over every configured key: counting and deleting
    expired entries, skipping keys whose TTL never expires.  Go ranges over the
    configuration map in no fixed order, so both are specified order-free. */
module Sweep {
  import opened Policy
  import opened Memory

  /** What storage reports as expired for one configured key at `now`; a key whose TTL
      never expires is not asked and adds nothing. */
  function KeyExpired(store: Store, exp: Expiry, cfg: KeyConfig, key: string, now: int): (n: nat)
    ensures cfg.ttl == exp.neverExpires ==> n == 0
    ensures cfg.ttl != exp.neverExpires ==> n == |ExpiredKeys(store, key, exp.expireTime(cfg, now))|
  {
    if cfg.ttl == exp.neverExpires then 0 else |ExpiredKeys(store, key, exp.expireTime(cfg, now))|
  }

  /** The sum of `KeyExpired` over some configured keys, in whatever order they come. */
  ghost function ExpiredSum(store: Store, exp: Expiry, configs: map<string, KeyConfig>, keys: set<string>, now: int): nat
    requires keys <= configs.Keys
    decreases keys
  {
    if keys == {} then 0
    else
      var k :| k in keys;
      KeyExpired(store, exp, configs[k], k, now) + ExpiredSum(store, exp, configs, keys - {k}, now)
  }

  /** Any key can be taken out of the sum first: the order of the range loop does not
      matter. */
  lemma {:induction false} ExpiredSumRemove(store: Store, exp: Expiry, configs: map<string, KeyConfig>, keys: set<string>, k: string, now: int)
    requires keys <= configs.Keys && k in keys
    ensures ExpiredSum(store, exp, configs, keys, now) ==
            KeyExpired(store, exp, configs[k], k, now) + ExpiredSum(store, exp, configs, keys - {k}, now)
    decreases keys
  {
    var j :| j in keys && ExpiredSum(store, exp, configs, keys, now) ==
            KeyExpired(store, exp, configs[j], j, now) + ExpiredSum(store, exp, configs, keys - {j}, now);
    if j != k {
      ExpiredSumRemove(store, exp, configs, keys - {j}, k, now);
      ExpiredSumRemove(store, exp, configs, keys - {k}, j, now);
      assert keys - {j} - {k} == keys - {k} - {j};
    }
  }

  /** A sum of nothing but zeros is zero. */
  lemma {:induction false} ExpiredSumZero(store: Store, exp: Expiry, configs: map<string, KeyConfig>, keys: set<string>, now: int)
    requires keys <= configs.Keys
    requires forall k | k in keys :: KeyExpired(store, exp, configs[k], k, now) == 0
    ensures ExpiredSum(store, exp, configs, keys, now) == 0
    decreases keys
  {
    if keys != {} {
      var k :| k in keys;
      ExpiredSumRemove(store, exp, configs, keys, k, now);
      ExpiredSumZero(store, exp, configs, keys - {k}, now);
    }
  }

  /** Whether some key among `ks` that is configured to expire has `fk` expired. */
  predicate SweptBy(fk: string, e: Entry, exp: Expiry, configs: map<string, KeyConfig>, ks: set<string>, now: int) {
    exists k | k in ks && k in configs ::
      configs[k].ttl != exp.neverExpires && Stale(fk, e, k, exp.expireTime(configs[k], now))
  }

  /** The store after `Cleanup` has visited the keys `ks`. */
  function Swept(store: Store, exp: Expiry, configs: map<string, KeyConfig>, ks: set<string>, now: int): (s: Store)
    ensures s.Keys <= store.Keys
    ensures forall fk | fk in s :: s[fk] == store[fk]
  {
    map fk | fk in store && !SweptBy(fk, store[fk], exp, configs, ks, now) :: store[fk]
  }

  /** One more visited key: it either cleans its own prefix, or is skipped because its
      TTL never expires. */
  lemma SweepStep(store: Store, exp: Expiry, configs: map<string, KeyConfig>, done: set<string>, k: string, now: int)
    requires k in configs
    ensures configs[k].ttl != exp.neverExpires ==>
              Cleaned(Swept(store, exp, configs, done, now), k, exp.expireTime(configs[k], now))
              == Swept(store, exp, configs, done + {k}, now)
    ensures configs[k].ttl == exp.neverExpires ==>
              Swept(store, exp, configs, done + {k}, now) == Swept(store, exp, configs, done, now)
  {
    var before := Swept(store, exp, configs, done, now);
    var after := Swept(store, exp, configs, done + {k}, now);
    var t := exp.expireTime(configs[k], now);
    forall fk | fk in store
      ensures SweptBy(fk, store[fk], exp, configs, done + {k}, now) <==>
              SweptBy(fk, store[fk], exp, configs, done, now) ||
              (configs[k].ttl != exp.neverExpires && Stale(fk, store[fk], k, t))
    {
      if configs[k].ttl != exp.neverExpires && Stale(fk, store[fk], k, t) {
        assert k in done + {k};
      }
    }
    if configs[k].ttl != exp.neverExpires {
      var cleaned := Cleaned(before, k, t);
      assert cleaned.Keys == after.Keys;
    } else {
      assert after.Keys == before.Keys;
    }
  }

  /** Once every configured key has been visited, no configured key has anything expired
      left: `ExpiredEntryCount` reads 0. */
  lemma SweptLeavesNothingExpired(store: Store, exp: Expiry, configs: map<string, KeyConfig>, now: int)
    ensures ExpiredSum(Swept(store, exp, configs, configs.Keys, now), exp, configs, configs.Keys, now) == 0
  {
    var s := Swept(store, exp, configs, configs.Keys, now);
    forall k | k in configs
      ensures KeyExpired(s, exp, configs[k], k, now) == 0
    {
      if configs[k].ttl != exp.neverExpires {
        var t := exp.expireTime(configs[k], now);
        forall fk | fk in s
          ensures !Stale(fk, s[fk], k, t)
        {
          assert !SweptBy(fk, store[fk], exp, configs, configs.Keys, now);
          assert k in configs.Keys;
        }
        assert ExpiredKeys(s, k, t) == {};
      }
    }
    ExpiredSumZero(s, exp, configs, configs.Keys, now);
  }

  /** Entries that no expiring configured key has expired are kept as they were. */
  lemma SweptKeepsLive(store: Store, exp: Expiry, configs: map<string, KeyConfig>, fk: string, now: int)
    requires fk in store
    requires forall k | k in configs && configs[k].ttl != exp.neverExpires :: !Stale(fk, store[fk], k, exp.expireTime(configs[k], now))
    ensures fk in Swept(store, exp, configs, configs.Keys, now)
  {
  }
}
