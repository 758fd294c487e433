/** The in-memory storage backend: one map from `key:params` to the stored bytes, the
    write timestamp and the compression tag they were written with. */
module Memory {
  import opened Wrappers
  import opened ByteStrings
  import opened Values
  import opened Policy
  import Compression

  datatype Entry = Entry(data: Bytes, timestamp: int, compressionType: string)

  type Store = map<string, Entry>

  /** Entries of one call are filed under the cache key, a colon, then the rendered
      parameters. */
  function FullKey(key: string, params: string): (fk: string)
    ensures key + ":" <= fk && |fk| == |key| + 1 + |params| && fk[|key| + 1..] == params
  {
    key + ":" + params
  }

  /** The tag a configuration writes and expects: its body compressor's name. */
  function Tag(cfg: KeyConfig): string {
    Compression.Name(cfg.bodyCompression)
  }

  /** `Get`: absent, or written under another compressor, is "not found"; written before
      the cutoff is "expired"; otherwise the stored bytes. */
  function Lookup(store: Store, key: string, cfg: KeyConfig, params: string, expireTime: int): (r: Result<Bytes, Error>)
    ensures var fk := FullKey(key, params);
            && (r == Err(EntryNotFound) <==> fk !in store || store[fk].compressionType != Tag(cfg))
            && (r == Err(EntryExpired) <==>
                  fk in store && store[fk].compressionType == Tag(cfg) && expireTime > store[fk].timestamp)
            && (r.Ok? <==> fk in store && store[fk].compressionType == Tag(cfg) && expireTime <= store[fk].timestamp)
            && (r.Ok? ==> r.value == store[fk].data)
  {
    var fk := FullKey(key, params);
    if fk !in store then Err(EntryNotFound)
    else if store[fk].compressionType != Tag(cfg) then Err(EntryNotFound)
    else if expireTime > store[fk].timestamp then Err(EntryExpired)
    else Ok(store[fk].data)
  }

  /** `Set`: an upsert of the entry under `key:params`, tagged with the configuration's
      compressor. */
  function Put(store: Store, key: string, cfg: KeyConfig, params: string, value: Bytes, timestamp: int): (s: Store)
    ensures s.Keys == store.Keys + {FullKey(key, params)}
    ensures s[FullKey(key, params)] == Entry(value, timestamp, Tag(cfg))
    ensures forall fk | fk in store && fk != FullKey(key, params) :: s[fk] == store[fk]
  {
    store[FullKey(key, params) := Entry(value, timestamp, Tag(cfg))]
  }

  /** An entry that `Cleanup(key, _, t)` removes and `ExpiredEntryCount(key, _, t)` counts:
      filed under `key:` and written before `t`. */
  predicate Stale(fk: string, e: Entry, key: string, t: int) {
    key + ":" <= fk && t > e.timestamp
  }

  function ExpiredKeys(store: Store, key: string, t: int): (ks: set<string>)
    ensures ks <= store.Keys
    ensures forall fk | fk in store :: fk in ks <==> Stale(fk, store[fk], key, t)
  {
    set fk | fk in store && Stale(fk, store[fk], key, t)
  }

  /** The store after `Cleanup(key, _, t)`. */
  function Cleaned(store: Store, key: string, t: int): (s: Store)
    ensures s.Keys == store.Keys - ExpiredKeys(store, key, t)
    ensures forall fk | fk in s :: s[fk] == store[fk]
  {
    map fk | fk in store && !Stale(fk, store[fk], key, t) :: store[fk]
  }

  /** The expired entries among those whose keys are in `ks`: what a counting loop has
      seen so far. */
  ghost function ExpiredAmong(store: Store, key: string, t: int, ks: set<string>): set<string> {
    set fk | fk in ks && fk in store && Stale(fk, store[fk], key, t)
  }

  class InMemoryStorage {
    var store: Store

    /** `NewInMemoryStorage`. */
    constructor ()
      ensures store == map[]
    {
      store := map[];
    }

    method Get(key: string, cfg: KeyConfig, params: string, expireTime: int) returns (r: Result<Bytes, Error>)
      ensures r == Lookup(store, key, cfg, params, expireTime)
    {
      var fk := key + ":" + params;
      if fk !in store {
        return Err(EntryNotFound);
      }
      var value := store[fk];
      if value.compressionType != Compression.Name(cfg.bodyCompression) {
        return Err(EntryNotFound);
      }
      if expireTime > value.timestamp {
        return Err(EntryExpired);
      }
      return Ok(value.data);
    }

    method Set(key: string, cfg: KeyConfig, params: string, value: Bytes, timestamp: int) returns (err: Option<Error>)
      modifies this
      ensures store == Put(old(store), key, cfg, params, value, timestamp)
      ensures err == None
    {
      var fk := key + ":" + params;
      store := store[fk := Entry(value, timestamp, Compression.Name(cfg.bodyCompression))];
      err := None;
    }

    method Clear() returns (err: Option<Error>)
      modifies this
      ensures store == map[] && err == None
    {
      store := map[];
      err := None;
    }

    /** Deletes, one key at a time, every entry under `key:` written before `expireTime`. */
    method Cleanup(key: string, cfg: KeyConfig, expireTime: int) returns (err: Option<Error>)
      modifies this
      ensures store == Cleaned(old(store), key, expireTime)
      ensures err == None
    {
      ghost var s0 := store;
      var todo := store.Keys;
      while todo != {}
        invariant todo <= s0.Keys
        invariant store == map fk | fk in s0 && (fk in todo || !Stale(fk, s0[fk], key, expireTime)) :: s0[fk]
        decreases todo
      {
        var fk :| fk in todo;
        if key + ":" <= fk && expireTime > store[fk].timestamp {
          store := store - {fk};
        }
        todo := todo - {fk};
      }
      err := None;
    }

    method EntryCount() returns (count: int, err: Option<Error>)
      ensures count == |store| && err == None
    {
      return |store|, None;
    }

    /** Counts, one key at a time, the entries `Cleanup` would delete. */
    method ExpiredEntryCount(key: string, cfg: KeyConfig, expireTime: int) returns (count: int, err: Option<Error>)
      ensures count == |ExpiredKeys(store, key, expireTime)| && err == None
    {
      count := 0;
      var todo := store.Keys;
      while todo != {}
        invariant todo <= store.Keys
        invariant count == |ExpiredAmong(store, key, expireTime, store.Keys - todo)|
        decreases todo
      {
        var fk :| fk in todo;
        ExpiredAmongStep(store, key, expireTime, store.Keys - todo, fk);
        assert store.Keys - (todo - {fk}) == (store.Keys - todo) + {fk};
        if key + ":" <= fk && expireTime > store[fk].timestamp {
          count := count + 1;
        }
        todo := todo - {fk};
      }
      assert store.Keys - todo == store.Keys;
      assert ExpiredAmong(store, key, expireTime, store.Keys) == ExpiredKeys(store, key, expireTime);
      err := None;
    }
  }

  /** Visiting one more key adds it to the expired set exactly when it is stale. */
  lemma ExpiredAmongStep(store: Store, key: string, t: int, done: set<string>, fk: string)
    requires fk in store && fk !in done
    ensures |ExpiredAmong(store, key, t, done + {fk})| ==
            |ExpiredAmong(store, key, t, done)| + (if Stale(fk, store[fk], key, t) then 1 else 0)
  {
    if Stale(fk, store[fk], key, t) {
      assert ExpiredAmong(store, key, t, done + {fk}) == ExpiredAmong(store, key, t, done) + {fk};
    } else {
      assert ExpiredAmong(store, key, t, done + {fk}) == ExpiredAmong(store, key, t, done);
    }
  }

  /** A read right after a write, with a cutoff no later than the write's timestamp,
      returns the written bytes. */
  lemma GetAfterSet(store: Store, key: string, cfg: KeyConfig, params: string, value: Bytes, timestamp: int, expireTime: int)
    requires expireTime <= timestamp
    ensures Lookup(Put(store, key, cfg, params, value, timestamp), key, cfg, params, expireTime) == Ok(value)
  {
  }

  /** A read with a later cutoff reports the entry as expired, and leaves it in place. */
  lemma GetAfterSetExpired(store: Store, key: string, cfg: KeyConfig, params: string, value: Bytes, timestamp: int, expireTime: int)
    requires expireTime > timestamp
    ensures Lookup(Put(store, key, cfg, params, value, timestamp), key, cfg, params, expireTime) == Err(EntryExpired)
  {
  }

  /** An entry written under one compressor is "not found" for a configuration using another. */
  lemma TagMismatchIsNotFound(store: Store, key: string, written: KeyConfig, reading: KeyConfig, params: string, value: Bytes, timestamp: int, expireTime: int)
    requires written.bodyCompression != reading.bodyCompression
    ensures Lookup(Put(store, key, written, params, value, timestamp), key, reading, params, expireTime) == Err(EntryNotFound)
  {
    Compression.NamesDistinct(written.bodyCompression, reading.bodyCompression);
  }

  /** The last write under a full key wins. */
  lemma LastWriteWins(store: Store, key: string, c1: KeyConfig, c2: KeyConfig, params: string, v1: Bytes, v2: Bytes, t1: int, t2: int)
    ensures Put(Put(store, key, c1, params, v1, t1), key, c2, params, v2, t2) == Put(store, key, c2, params, v2, t2)
  {
  }

  /** `Cleanup` removes exactly the counted entries, and afterwards none is left to count. */
  lemma CleanupRemovesCounted(store: Store, key: string, t: int)
    ensures |Cleaned(store, key, t)| == |store| - |ExpiredKeys(store, key, t)|
    ensures ExpiredKeys(Cleaned(store, key, t), key, t) == {}
  {
    assert Cleaned(store, key, t).Keys == store.Keys - ExpiredKeys(store, key, t);
  }

  /** Entries filed under another key's prefix, or written at or after the cutoff, survive
      `Cleanup`. */
  lemma CleanupKeepsOthers(store: Store, key: string, t: int, fk: string)
    requires fk in store && (!(key + ":" <= fk) || store[fk].timestamp >= t)
    ensures fk in Cleaned(store, key, t) && Cleaned(store, key, t)[fk] == store[fk]
  {
  }

  /** Matching is by prefix only: the cleanup of a key also removes stale entries of any
      key that extends it with a colon, such as "a" and "a:b". */
  lemma CleanupReachesExtendedKey(store: Store, key: string, suffix: string, params: string, t: int)
    requires FullKey(key + ":" + suffix, params) in store
    requires store[FullKey(key + ":" + suffix, params)].timestamp < t
    ensures FullKey(key + ":" + suffix, params) !in Cleaned(store, key, t)
  {
    var fk := FullKey(key + ":" + suffix, params);
    assert fk[..|key| + 1] == key + ":";
  }
}
