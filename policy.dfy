/** The per-key settings the engine reads, and the expiry rules it calls but that live
    outside the modelled files: the read-time cutoff, the write-time timestamp and the
    three time constants.  These are left abstract, constrained by what the package's
    tests observe and by one assumption of this model: an entry is fresh right after it
    is written. */
module Policy {
  import Params
  import Codec
  import Compression

  /** The settings of one cache key, with each strategy already resolved (what
      `GetParamCodec`, `GetBodyCodec` and `GetBodyCompression` return). */
  datatype KeyConfig = KeyConfig(
    ttl: int,
    ttlJitter: int,
    fallbackToExpired: bool,
    paramCodec: Params.ParamCodec,
    bodyCodec: Codec.BodyCodec,
    bodyCompression: Compression.Compressor)

  /** Times are whole seconds.  `expireTime(c, now)` is `c.GetExpireTime(now)`, the cutoff
      before which a stored timestamp counts as expired; `timestamp(c, now)` is
      `c.GetTimestamp(now)`, what a write records (jitter included). */
  datatype Expiry = Expiry(
    minDate: int,
    immediatelyExpires: int,
    neverExpires: int,
    expireTime: (KeyConfig, int) -> int,
    timestamp: (KeyConfig, int) -> int)

  /** How far the tests move every stored timestamp into the past to force expiry. */
  const Backdate := 3600

  /** What the test suite pins down about the expiry rules, plus freshness right after a
      write, which the tests observe only for their own TTLs and which this model assumes
      for every TTL and jitter. */
  ghost predicate Pinned(exp: Expiry) {
    // the "NoCache" row differs from the "Forever" row and from every TTL the tests cache with
    && exp.immediatelyExpires != exp.neverExpires
    && exp.immediatelyExpires !in {1, 5, 30, -2121, 9223370000}
    // a fallback read with `MinDate` accepts anything written at or after `MinDate`
    && (forall c: KeyConfig, now: int | now >= exp.minDate :: exp.minDate <= exp.timestamp(c, now))
    // assumed, not observed: an entry is fresh right after it is written, for any TTL
    // other than "do not keep" and any jitter (the tests see it only for the TTLs they use)
    && (forall c: KeyConfig, now: int | c.ttl != exp.immediatelyExpires :: exp.expireTime(c, now) <= exp.timestamp(c, now))
    // TTLs of 1 and 30 seconds expire an entry backdated by an hour
    && (forall c: KeyConfig, now: int | c.ttl == 1 || c.ttl == 30 :: exp.expireTime(c, now) > now - Backdate)
    // negative, huge and never-expiring TTLs keep it
    && (forall c: KeyConfig, now: int | c.ttl == -2121 || c.ttl == 9223370000 || c.ttl == exp.neverExpires ::
          exp.expireTime(c, now) <= now - Backdate)
  }

  /** Rules of the shape the package documents (TTL 0 expires at once, a negative TTL
      never expires, otherwise the cutoff is `now - ttl`), so `Pinned` can be met. */
  function Witness(): (exp: Expiry)
    ensures Pinned(exp)
  {
    Expiry(0, 0, -1,
      (c: KeyConfig, now: int) =>
        if c.ttl == 0 then now + 1 else if c.ttl < 0 then now - Backdate - 1 else now - c.ttl,
      (c: KeyConfig, now: int) => now)
  }
}
