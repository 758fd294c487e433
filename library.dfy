/** The third-party code the package calls: encoding/json, msgpack, the gzip, brotli and
    zstd compressors and SHA-256.  Their algorithms are not part of this model; each is a
    function value, and the laws the package relies on are predicates over the record. */
module Library {
  import opened Wrappers
  import opened ByteStrings
  import opened Values

  /** A SHA-256 digest: 32 bytes (FIPS 180-4). */
  type Digest = d: Bytes | |d| == 32 witness seq(32, i => 0)

  datatype Library = Library(
    jsonMarshal: Value -> Result<Bytes, Error>,             // json.Marshal
    jsonUnmarshal: (Bytes, Kind) -> Result<Value, Error>,   // json.Unmarshal into a target of the given type
    msgpackMarshal: Value -> Result<Bytes, Error>,
    msgpackUnmarshal: (Bytes, Kind) -> Result<Value, Error>,
    gzipCompress: Bytes -> Result<Bytes, Error>,
    gzipDecompress: Bytes -> Result<Bytes, Error>,
    brotliCompress: Bytes -> Result<Bytes, Error>,
    brotliDecompress: Bytes -> Result<Bytes, Error>,
    zstdCompress: Bytes -> Result<Bytes, Error>,
    zstdDecompress: Bytes -> Result<Bytes, Error>,
    sha256: Bytes -> Digest)

  /** Decoding what was encoded, into the value's own type, gives the value back. */
  ghost predicate CodecRoundTrips(marshal: Value -> Result<Bytes, Error>, unmarshal: (Bytes, Kind) -> Result<Value, Error>) {
    forall v :: marshal(v).Ok? ==> unmarshal(marshal(v).value, KindOf(v)) == Ok(v)
  }

  /** Compressing into memory succeeds, and decompressing gives the input back. */
  ghost predicate CompressorRoundTrips(compress: Bytes -> Result<Bytes, Error>, decompress: Bytes -> Result<Bytes, Error>) {
    forall x :: compress(x).Ok? && decompress(compress(x).value) == Ok(x)
  }

  /** The two identification bytes every gzip member starts with (section 2.3.1 of RFC 1952). */
  predicate HasGzipMagic(b: Bytes) {
    |b| >= 2 && b[0] == 0x1f && b[1] == 0x8b
  }

  // The laws one by one, so that each lemma assumes only the ones it uses.

  /** encoding/json gives back what it encoded, for values whose strings are valid
      UTF-8; an invalid byte comes back as U+FFFD. */
  ghost predicate JsonRoundTrips(lib: Library) {
    forall v | ValidText(v) && lib.jsonMarshal(v).Ok? ::
      lib.jsonUnmarshal(lib.jsonMarshal(v).value, KindOf(v)) == Ok(v)
  }

  ghost predicate MsgpackRoundTrips(lib: Library) {
    CodecRoundTrips(lib.msgpackMarshal, lib.msgpackUnmarshal)
  }

  /** encoding/json cannot encode a func value, wherever it sits. */
  ghost predicate JsonRefusesFuncs(lib: Library) {
    forall v :: ContainsFunc(v) ==> lib.jsonMarshal(v).Err?
  }

  ghost predicate GzipRoundTrips(lib: Library) {
    CompressorRoundTrips(lib.gzipCompress, lib.gzipDecompress)
  }

  ghost predicate BrotliRoundTrips(lib: Library) {
    CompressorRoundTrips(lib.brotliCompress, lib.brotliDecompress)
  }

  ghost predicate ZstdRoundTrips(lib: Library) {
    CompressorRoundTrips(lib.zstdCompress, lib.zstdDecompress)
  }

  /** gzip.NewReader rejects a stream without the gzip header. */
  ghost predicate GzipChecksHeader(lib: Library) {
    forall b :: !HasGzipMagic(b) ==> lib.gzipDecompress(b).Err?
  }

  /** All the laws together. */
  ghost predicate WellBehaved(lib: Library) {
    && JsonRoundTrips(lib) && MsgpackRoundTrips(lib) && JsonRefusesFuncs(lib)
    && GzipRoundTrips(lib) && BrotliRoundTrips(lib) && ZstdRoundTrips(lib)
    && GzipChecksHeader(lib)
  }

  /** A library that meets every law at once, so no combination of them is contradictory. */
  function Witness(): (lib: Library)
    ensures WellBehaved(lib)
  {
    var fail := (v: Value) => Err(External("unsupported"));
    var decodeFail := (b: Bytes, k: Kind) => Err(External("unsupported"));
    var wrap := (x: Bytes) => Ok([0x1f, 0x8b] + x);
    var unwrap := (b: Bytes) => if HasGzipMagic(b) then Ok(b[2..]) else Err(External("gzip: invalid header"));
    var id := (x: Bytes) => Ok(x);
    Library(fail, decodeFail, fail, decodeFail, wrap, unwrap, id, id, id, id, (x: Bytes) => seq(32, i => 0))
  }

  // Each law applied to one value.

  lemma JsonRoundTrip(lib: Library, v: Value)
    requires JsonRoundTrips(lib) && ValidText(v) && lib.jsonMarshal(v).Ok?
    ensures lib.jsonUnmarshal(lib.jsonMarshal(v).value, KindOf(v)) == Ok(v)
  {
  }

  lemma MsgpackRoundTrip(lib: Library, v: Value)
    requires MsgpackRoundTrips(lib) && lib.msgpackMarshal(v).Ok?
    ensures lib.msgpackUnmarshal(lib.msgpackMarshal(v).value, KindOf(v)) == Ok(v)
  {
  }

  lemma JsonRejectsFunc(lib: Library, v: Value)
    requires JsonRefusesFuncs(lib) && ContainsFunc(v)
    ensures lib.jsonMarshal(v).Err?
  {
  }

  lemma GzipRoundTrip(lib: Library, x: Bytes)
    requires GzipRoundTrips(lib)
    ensures lib.gzipCompress(x).Ok? && lib.gzipDecompress(lib.gzipCompress(x).value) == Ok(x)
  {
  }

  lemma BrotliRoundTrip(lib: Library, x: Bytes)
    requires BrotliRoundTrips(lib)
    ensures lib.brotliCompress(x).Ok? && lib.brotliDecompress(lib.brotliCompress(x).value) == Ok(x)
  {
  }

  lemma ZstdRoundTrip(lib: Library, x: Bytes)
    requires ZstdRoundTrips(lib)
    ensures lib.zstdCompress(x).Ok? && lib.zstdDecompress(lib.zstdCompress(x).value) == Ok(x)
  {
  }

  lemma GzipRejectsForeign(lib: Library, b: Bytes)
    requires GzipChecksHeader(lib) && !HasGzipMagic(b)
    ensures lib.gzipDecompress(b).Err?
  {
  }
}
