# cachefunk, modelled in Dafny

cachefunk memoises Go functions. A call goes through `Cache` or `CacheWithContext`
under a cache key and a parameter value. The engine looks up the key's `KeyConfig`
and renders the parameters as a string with the key's parameter codec
(JSON, or JSON in base64url). It then probes the storage backend under `key:params`,
using a cutoff from the expiry rules. A fresh entry is decompressed, decoded and
returned without calling the resolver. Otherwise the resolver runs, and its result is
encoded with the body codec, compressed, and written with a timestamp. When the
resolver fails after an "expired" probe and the key falls back to expired entries, the
stale entry is re-read with `MinDate` and returned. Besides the memoising calls, the
engine has maintenance passes over the configured keys: `EntryCount`,
`ExpiredEntryCount`, `Clear` and `Cleanup`.

The model covers:

- the engine (`cache.go`), as the class `Cache.CacheFunk`. Its methods are proved
  equal to pure functions in `Decision` (one call) and `Sweep` (the passes over
  configured keys).
- the in-memory backend (`memory.go`), as the class `Memory.InMemoryStorage`. It
  holds a `map` from full key to entry; its loops are proved against `Lookup`, `Put`,
  `ExpiredKeys` and `Cleaned`.
- the per-key configuration lookup (`config.go`), as the generic class
  `Config.CacheFunkConfig`.
- the parameter codecs (`params.go`), the body codecs (`codec.go`) and the
  compressors (`compression.go`), as datatypes with dispatch functions and
  round-trip lemmas. Go's `base64.URLEncoding` (RFC 4648, section 5) is modelled in
  full in `Base64Url`.
- the disk-path helpers (`pather.go`), with `hex.EncodeToString` modelled in `Hex`.
- the call sequences of the package's tests, replayed as lemmas in `Scenarios`.

Third-party code (encoding/json, msgpack, gzip, brotli, zstd, SHA-256) is a record
of function values, `Library.Library`. Its laws serve only as hypotheses, one
predicate per law: the round trips (`JsonRoundTrips`, `GzipRoundTrips`, ...), json
refusing a func (`JsonRefusesFuncs`), and gzip refusing input without the RFC 1952
header (`GzipChecksHeader`). Each lemma assumes only the laws it uses.
`Library.Witness` shows that all of them, `Library.WellBehaved`, can be met at once.
The JSON round trip is assumed only for values whose strings are valid UTF-8
(`Values.ValidText`, after section 4 of RFC 3629): encoding/json replaces an invalid
byte with U+FFFD, so other strings do not come back.

The expiry rules cache.go calls but which are not part of this model are the fields
of `Policy.Expiry`: `GetExpireTime`, `GetTimestamp`, `MinDate`,
`TTLEntryImmediatelyExpires` and `TTLEntryNeverExpires`. They are constrained by
`Policy.Pinned`. It holds what the tests observe about them, plus one assumption:
an entry is fresh right after it is written, for every TTL other than "do not keep"
and every jitter. This generalises the documented cutoff rule beyond the TTLs the
tests use. `Policy.Witness` shows `Pinned` can be met. Clock readings are an `int`
parameter `now`.

Where the design description and the code disagree, the model follows the code:

- `CacheFunkConfig.Get` (config.go:20-29) records `Defaults` under a key it did not
  know. The design says a lookup never inserts. `Config.AfterGet` states the
  insertion, and `Cache.CacheFunk.Memoize` promises it.
- `CacheWithContext` quotes the resolver's error with `%s` (cache.go:262); `Cache`
  wraps it with `%w` (cache.go:204). The flag `chained` in
  `Values.Error.FailedToRetrieve` records which one happened.
- config.go declares a `KeyConfig` with `TTL`, `TTLJitter` and `UseCompression`
  (`Config.KeyConfig`). cache.go reads a `KeyConfig` that has `FallbackToExpired` and
  codec and compressor getters (`Policy.KeyConfig`). Both are modelled. The engine's
  `Config` type is not among the files modelled; the engine holds a
  `Config.CacheFunkConfig<Policy.KeyConfig>`, whose `Get` is config.go's.

`Cleanup` and `ExpiredEntryCount` select entries by the prefix `key:`
(memory.go:81, memory.go:104). So a pass for key `a` also reaches the entries of a
key `a:b`. The model keeps this behaviour; `Memory.CleanupReachesExtendedKey` states it.

## Model

| member | source | states |
|---|---|---|
| ByteStrings.StringOf | params.go:26 | `string(raw)`: one character per byte, same length, same codes |
| ByteStrings.BytesOf | params.go:30 | `[]byte(data)`: one byte per character, same length, same codes |
| ByteStrings.BytesOfStringOf | params.go:21-32 | converting bytes to a Go string and back loses nothing |
| ByteStrings.StringOfBytesOf | params.go:21-32 | converting a Go string to bytes and back loses nothing |
| Base64Url.Symbol | params.go:47 | every 6-bit value is spelt by a base64url alphabet character |
| Base64Url.Digit | params.go:51 | a character has a 6-bit value iff it is in the alphabet, and that value spells it back |
| Base64Url.Encode | params.go:47 | `EncodeToString` output has length 4·⌈n/3⌉, and every character is an alphabet character or '=' |
| Base64Url.PaddingOnlyAtEnd | params.go:47 | every character before the last 4-character group is an alphabet character, so '=' can only end the text |
| Base64Url.DecodeEncode | params.go:50-56 | `DecodeString(EncodeToString(b))` gives back `b` |
| Base64Url.Decode | params.go:51-54 | `DecodeString` succeeds only when the text, after line breaks are removed, is whole 4-character groups of alphabet characters and '=' |
| Base64Url.DecodableIsWellFormed | params.go:51-54 | text without line breaks that decodes is whole 4-character groups of alphabet characters and '=' |
| Base64Url.DecodeRejectsPartialGroup | params.go:51-54 | text that, after line breaks are removed, is not whole 4-character groups is corrupt |
| Base64Url.DecodeRejectsForeignCharacter | params.go:51-54 | text that, after line breaks are removed, holds a character outside the alphabet and '=' is corrupt |
| Hex.Encode | pather.go:18 | `hex.EncodeToString`: two lowercase hex digits per byte |
| Hex.EncodeAt | pather.go:18 | byte i is spelt by characters 2i (high nibble) and 2i+1 (low nibble) |
| Compression.NamesDistinct | compression.go:41-153 | the four `String()` tags are pairwise distinct |
| Compression.CompressionMapInverse | compression.go:155-160 | `compressionMap` has exactly the four tags, each mapped to the compressor bearing it |
| Compression.Compress | compression.go:33-145 | `noCompression` returns its input unchanged; gzip, brotli and zstd are the libraries' compressors |
| Compression.Decompress | compression.go:37-149 | `noCompression` returns its input unchanged; gzip, brotli and zstd are the libraries' decompressors |
| Compression.RoundTrip | compression.go:33-153 | for every compressor whose library law holds, compressing succeeds and decompressing gives the input back |
| Compression.GzipRejectsForeignBytes | compression.go:56-60 | gzip decompression of bytes without the gzip header fails |
| Codec.StringMarshal | codec.go:52-61 | succeeds iff the value is a string or a byte slice; otherwise the unsupported-type error |
| Codec.StringUnmarshal | codec.go:63-74 | succeeds iff the target is `*string` or `*[]byte`, producing a value of the target's type; otherwise the unsupported-target error |
| Codec.StringRoundTrip | codec.go:52-74 | strings and byte slices survive the string codec unchanged |
| Codec.Marshal | codec.go:16-61 | JSON and msgpack are the libraries' encoders; the string codec succeeds iff the value is a string or a byte slice, giving its bytes |
| Codec.Unmarshal | codec.go:16-74 | JSON and msgpack are the libraries' decoders; the string codec succeeds iff the target is `*string` or `*[]byte`, giving a value of that type holding exactly the bytes |
| Codec.RoundTrip | codec.go:16-74 | for every body codec whose library law holds, unmarshalling what was marshalled, into the value's own type, gives the value; for JSON, when its strings are valid UTF-8 |
| Codec.CodecMapInverse | codec.go:80-84 | codec names are distinct and `codecMap` maps each to its codec |
| Params.Marshal | params.go:21-48 | succeeds iff encoding/json does, else the wrapped JSON error; the json text converts back to the JSON bytes; the json+base64 text is 4·⌈n/3⌉ alphabet or '=' characters that decode to the JSON bytes |
| Params.Unmarshal | params.go:29-56 | json hands the text's bytes to encoding/json; json+base64 reports corrupt base64 with the wrapped error naming the text before JSON is consulted, else decodes the decoded bytes |
| Params.RoundTrip | params.go:21-56 | for both parameter codecs, Unmarshal after Marshal gives the parameters back, when their strings are valid UTF-8 |
| Params.MarshalRejectsFunc | params.go:21-48 | parameters holding a func cannot be rendered by either codec |
| Params.ParamMapInverse | params.go:62-65 | the two names differ and `paramMap` maps each to its codec |
| Pather.SHA256HexPather | pather.go:16-20 | five segments: the key, then 2, 2, 2 and 58 characters that concatenate to the hex SHA-256 of the parameters |
| Pather.SHA256Base64Pather | pather.go:22-26 | four segments: the key, two 2-character prefixes, then the 44-character base64url digest |
| Pather.DefaultDiskStoragePather | pather.go:14 | the default pather is the hex pather |
| Pather.PathDependsOnlyOnDigest | pather.go:16-26 | parameters with equal digests get equal paths |
| Config.Resolve | config.go:20-29 | the key's own record, else the defaults if set, else `DEFAULT_KEYCONFIG` |
| Config.AfterGet | config.go:20-29 | the map keeps every mapping, gains at most the looked-up key, and gains it when defaults are set |
| Config.CacheFunkConfig.constructor | config.go:15-18 | a configuration with the given defaults and map |
| Config.CacheFunkConfig.Get | config.go:20-29 | answers `Resolve` of the old state and leaves the map as `AfterGet` says |
| Config.HitChangesNothing | config.go:21-22 | a known key resolves to its own record and changes nothing |
| Config.GetIsIdempotent | config.go:20-29 | a second lookup of the same key answers the same and changes nothing |
| Config.GetIsolatesKeys | config.go:20-29 | a lookup never changes what another key resolves to |
| Config.GetGrowsByAtMostOne | config.go:23-25 | the map grows by at most one entry, and not at all without defaults |
| Config.EmptyConfigUsesLibraryDefault | config.go:9-13 | an unknown key on an empty configuration gets TTL 3600, jitter 300, compression on |
| Memory.FullKey | memory.go:31 | the full key is the key, a colon, then the parameter string |
| Memory.Lookup | memory.go:30-54 | not found when absent or under another compression tag; expired when written before the cutoff; else the stored bytes |
| Memory.Put | memory.go:56-69 | upserts the entry under the full key, tagged with the compressor's name; every other entry is unchanged |
| Memory.ExpiredKeys | memory.go:100-113 | exactly the entries under `key:` written before the cutoff |
| Memory.Cleaned | memory.go:78-91 | the store without exactly those entries, the others unchanged |
| Memory.InMemoryStorage.constructor | memory.go:23-28 | a new store is empty |
| Memory.InMemoryStorage.Get | memory.go:30-54 | answers `Lookup` on the current store |
| Memory.InMemoryStorage.Set | memory.go:56-69 | the new store is `Put` of the old one; no error |
| Memory.InMemoryStorage.Clear | memory.go:71-76 | the store is empty; no error |
| Memory.InMemoryStorage.Cleanup | memory.go:78-91 | the loop deleting inside a range leaves exactly `Cleaned` of the old store |
| Memory.InMemoryStorage.EntryCount | memory.go:93-98 | the number of entries; no error |
| Memory.InMemoryStorage.ExpiredEntryCount | memory.go:100-113 | the loop's count is the size of `ExpiredKeys` |
| Memory.ExpiredAmongStep | memory.go:103-110 | visiting one more entry adds one to the count exactly when that entry is stale |
| Memory.GetAfterSet | memory.go:30-69 | a read after a write, with a cutoff no later than the write's timestamp, gives the written bytes |
| Memory.GetAfterSetExpired | memory.go:45-51 | a read with a later cutoff reports "expired" |
| Memory.TagMismatchIsNotFound | memory.go:39-43 | an entry written under one compressor is "not found" under another |
| Memory.LastWriteWins | memory.go:56-69 | two writes to one full key equal the last write alone |
| Memory.CleanupRemovesCounted | memory.go:78-113 | `Cleanup` removes exactly as many entries as `ExpiredEntryCount` counts, leaving none to count |
| Memory.CleanupKeepsOthers | memory.go:78-91 | entries under another prefix or not older than the cutoff survive unchanged |
| Memory.CleanupReachesExtendedKey | memory.go:81 | cleaning key k also removes stale entries of a key `k:…` |
| Sweep.KeyExpired | cache.go:103-112 | a never-expiring key contributes 0; any other key contributes its expired count at its own cutoff |
| Sweep.ExpiredSumRemove | cache.go:103-113 | the total does not depend on the order in which the range loop visits the keys |
| Sweep.ExpiredSumZero | cache.go:100-115 | a total of zero contributions is zero |
| Sweep.Swept | cache.go:121-134 | the sweep only removes entries and never changes a kept one |
| Sweep.SweepStep | cache.go:123-133 | visiting one key cleans that key's prefix at its cutoff, or changes nothing if it never expires |
| Sweep.SweptLeavesNothingExpired | cache.go:121-134 | after `Cleanup` no configured key has anything expired |
| Sweep.SweptKeepsLive | cache.go:121-134 | an entry no expiring configured key considers stale survives |
| Decision.Load | cache.go:59-73 | storage errors pass through unchanged, so "not found" and "expired" stay recognisable; body failures are wrapped as decompress or unmarshal errors |
| Decision.Encode | cache.go:83-91 | failures are wrapped as marshal or compress errors |
| Decision.LoadEncode | cache.go:50-94 | under the laws of the key's codec and compressor, what `Set` encodes `Get` decodes back to the same value (for JSON, a value whose strings are valid UTF-8) |
| Decision.Decide | cache.go:174-205 | served iff the cache is consulted and the probe succeeded; fallback only with the flag on, an "expired" probe, a failed resolver and a readable stale entry; fresh or failed carry the resolver's outcome |
| Decision.OtherReadErrorsAreMisses | cache.go:178-187 | every read error other than "expired" decides like "not found" |
| Decision.IgnoreSkipsProbe | cache.go:175-191 | ignoring the cache makes the probe irrelevant |
| Decision.SetEffect | cache.go:76-94 | a TTL that expires immediately writes nothing and reports nothing; otherwise an encoding failure writes nothing and reports exactly that error, and a success is a `Put` with the write-time timestamp and no error; an error is reported only for an encoding failure |
| Decision.CacheRun | cache.go:158-212 | a call that does not run the resolver leaves storage unchanged; a call without a value reports an error and writes nothing |
| Decision.Proceed | cache.go:174-211 | the same two guarantees once parameters are rendered |
| Decision.ParamFailureStops | cache.go:169-173 | unrenderable parameters return the wrapped error; no resolver call, no write |
| Decision.FuncParamsStop | cache.go:169-173 | parameters holding a func end the call that way |
| Decision.FreshHitServes | cache.go:175-179 | a fresh decodable entry is returned; no resolver call, no write |
| Decision.MissCallsResolver | cache.go:180-191 | on a failed probe or an ignored cache the resolver runs, and neither "not found" nor "expired" reaches the caller |
| Decision.ResolvedIsStored | cache.go:189-211 | a resolved value is returned without error and stored, overwriting the old entry |
| Decision.ImmediatelyExpiringIsNotStored | cache.go:77-79 | a TTL that expires immediately never writes |
| Decision.SetFailureReturnsValueAndError | cache.go:206-210 | an unencodable result is returned together with the wrapped error, and nothing is written |
| Decision.FallbackServesStale | cache.go:192-201 | with fallback on, a failing resolver after an "expired" probe returns the stale value, no error, no write |
| Decision.ResolverFailureIsReturned | cache.go:192-205 | without a usable stale entry, the resolver's error is returned wrapped with key and parameters; storage unchanged |
| Decision.RepeatIsServed | cache.go:158-212 | right after a call stored its result, the same call is served without calling the resolver |
| Cache.IgnoreFlag | cache.go:233 | the cache is ignored iff the context holds the bool true under the key |
| Cache.CacheFunk.constructor | cache.go:20-24 | an engine with the given configuration, context key and storage |
| Cache.CacheFunk.GetIgnoreCtxKey | cache.go:26-31 | the configured key, or "ignoreCache" when it is empty; never empty |
| Cache.CacheFunk.Get | cache.go:50-74 | `Load` of the backend's answer at the current cutoff, or at `MinDate` when expiry is ignored |
| Cache.CacheFunk.Set | cache.go:76-94 | error and new store as `SetEffect` says |
| Cache.CacheFunk.EntryCount | cache.go:96-98 | the backend's entry count |
| Cache.CacheFunk.Clear | cache.go:117-119 | the backend is empty |
| Cache.CacheFunk.ExpiredEntryCount | cache.go:100-115 | the loop's sum equals the order-independent total over the configured keys |
| Cache.CacheFunk.Cleanup | cache.go:121-134 | the loop leaves the store `Swept` over all configured keys |
| Cache.CacheFunk.Memoize | cache.go:165-173 | the value, error, resolver call and new store are `CacheRun`'s; the configuration changes as `AfterGet` says |
| Cache.CacheFunk.Respond | cache.go:174-211 | the outcome and new store are `Proceed`'s |
| Cache.CacheFunk.Cache | cache.go:158-212 | `CacheRun` with the caller's ignore flag, and the resolver's error wrapped |
| Cache.CacheFunk.CacheWithContext | cache.go:215-270 | `CacheRun` with the context's ignore flag, and the resolver's error quoted |
| Cache.CleanupThenNothingExpired | cache.go:100-134 | after `Cleanup`, `ExpiredEntryCount` at the same instant is 0 |
| Scenarios.HelloParams | gorm_test.go:14-17 | the test parameters are a record of type `HelloWorldParams` |
| Scenarios.HelloParamsValidText | cache_test.go:516-519 | the tests' parameters, with ASCII names, hold only valid UTF-8 |
| Scenarios.LawfulRendersFaithfully | params.go:21-56 | when encoding/json round-trips, every renderable parameter value whose strings are valid UTF-8 decodes back from its rendering |
| Scenarios.RenderedDistinct | cache.go:167-169 | two different parameter values of one type that both render faithfully render differently, so they get different full keys |
| Scenarios.MissStores | cache.go:189-211 | a call on an empty slot runs the resolver and stores its answer |
| Scenarios.HitServes | cache.go:175-179 | a call on a slot written at the same instant is served from it |
| Scenarios.LawfulAnswerable | cache.go:50-94 | under the json law and the configuration's body laws, a renderable, encodable answer of the result type round-trips through storage, when JSON is only given valid UTF-8 |
| Scenarios.ThreeMisses | cache_test.go:509-511 | three different parameter values each run the resolver and leave one entry apiece |
| Scenarios.RepeatedCallSequence | cache_test.go:641-674 | calls a, b, c, a, then a ignoring the cache: the resolver runs on calls 1, 2, 3 and 5; every result is right; three entries remain |
| Scenarios.HelloWorldSequence | cache_test.go:485-538 | Bob 42, Clark 24, Bob 43, Bob 42, Bob 42 ignoring: the counter reads 1, 2, 3, 3, 4 |
| Scenarios.Backdated | memory_test.go:31-35 | every entry kept, with its timestamp moved to the given instant |
| Scenarios.TTLTableRow | cache_test.go:79-211 | one row of the TTL table: first call stores unless "no cache", nothing expired; after backdating, the second call refetches exactly for "no cache", 1 s and 30 s |
| Scenarios.FallbackToExpiredRun | cache_test.go:261-331 | TTL 1 with fallback: the stale value is served without error after the resolver fails, the entry counts as expired, and `Cleanup` empties storage |
| Scenarios.MismatchedCompressionIsRefetched | cache_test.go:213-259 | an entry written under another compressor is refetched and retagged |
| Scenarios.PoisonedEntryIsReplaced | cache_test.go:714-731 | a non-gzip body under the gzip tag is a miss; the fresh answer is returned and overwrites it |
| Scenarios.JSONObjectIsNotGzip | cache_test.go:718-722 | a JSON object body lacks the gzip header, so gzip refuses it |
| Scenarios.FailingResolverLeavesNothing | cache_test.go:405-443 | a failing resolver returns its wrapped error and leaves storage empty |
| Scenarios.FuncResultIsNotStored | cache_test.go:45-48 | a func result under the JSON codec is returned with a set-cache error and not stored |

## Left out

- disk.go and gorm.go, the other storage backends: the engine is modelled with the in-memory backend only. The backend-independent decision is `Decision.Decide`, which takes any read error as input.
- log.go: the warnings the engine logs carry no result and are not modelled.
- `Dump` in memory.go: it only prints.
- The `sync.RWMutex` of `InMemoryStorage`: each method is modelled as one atomic step.
- `Wrap` and `WrapWithContext` (cache.go:138-156): they only build closures around `Cache` and `CacheWithContext`.
- The streaming helpers `CompressAndWrite` and `ReadAndDecompress`, and `compressBytes`/`decompressBytes` in config.go: they are modelled through `Compress`/`Decompress` on whole byte sequences.
- The JSON, msgpack, gzip, brotli, zstd and SHA-256 algorithms: they are third-party code, modelled as function values whose laws are hypotheses.
- `GetExpireTime`, `GetTimestamp` (including the random jitter), `MinDate` and the two TTL constants are not part of this model. They are functions and constants of `Policy.Expiry`, constrained by `Policy.Pinned`.
- `GetParamCodec`, `GetBodyCodec` and `GetBodyCompression` (how a missing strategy defaults) are not part of this model: `Policy.KeyConfig` holds the resolved strategies.
- Cache.CacheFunk.Memoize: all steps of one call use one clock reading `now`, while the source reads the clock separately in `Get` and `Set`.
- Cache.CacheFunk.Memoize: a resolver that returns a value together with an error is modelled as returning only the error; the value it returns then is not modelled.
- Cache.CacheFunk.Memoize: requires the configuration map to exist when defaults are set; with a nil map and non-nil defaults, the source panics in `Get`.
- Cache.CacheFunk.ExpiredEntryCount: the backend's error path (cache.go:109-111) is not reachable with the in-memory backend, which never fails, so it is not modelled.
- Cache.CacheFunk.Cleanup: the same holds for the ignored backend error (cache.go:129-132).
- Scenarios.TTLTableRow: it is stated for a single configured key, not for the six keys of the test's table at once.
- Scenarios.RepeatedCallSequence: "fresh right after a write" is taken as the hypothesis that the cutoff at `now` is no later than the timestamp written at `now`, rather than derived from a TTL.
- Library.JsonRoundTrips: the JSON law is assumed only for values whose strings are valid UTF-8. For other strings encoding/json substitutes U+FFFD, so two parameter values differing only in invalid bytes render alike and share one cache entry (cache.go:167-169); the model does not describe that substitution.
- Decision.RepeatIsServed and Scenarios.HitServes rest on the freshness clause of `Policy.Pinned`: fresh right after a write for every TTL other than "do not keep" and every jitter. The tests observe this only for their own TTLs; a rule with a large jitter could break it.
- Byte slices are values: `InMemoryStorage.Set` keeps the caller's slice (memory.go:56-69), the string codec returns a `[]byte` as it is (codec.go:56-57) and `noCompression` returns its input (compression.go:33-35). With those two strategies the stored entry and the slice a caller holds share memory, so a later change to one shows in the other. The model does not capture that sharing.
- Counts are unbounded integers: the `int64` results of `EntryCount` and `ExpiredEntryCount` are not modelled as wrapping.
- `base64.URLEncoding` is modelled as Go's default non-strict decoder; `Strict` mode is not used by the package.
