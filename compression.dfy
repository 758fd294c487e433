/** Body compression strategies: the identity and three library compressors, each
    known by a tag name that storage backends keep beside every entry. */
module Compression {
  import opened Wrappers
  import opened ByteStrings
  import opened Values
  import opened Library

  datatype Compressor = NoCompression | GzipCompression | BrotliCompression | ZstdCompression

  /** The tag `String()` returns. */
  function Name(c: Compressor): string {
    match c
    case NoCompression => "none"
    case GzipCompression => "gzip"
    case BrotliCompression => "brotli"
    case ZstdCompression => "zstd"
  }

  /** `compressionMap`: tag name to compressor. */
  const CompressionMap: map<string, Compressor> := map[
    Name(NoCompression) := NoCompression,
    Name(GzipCompression) := GzipCompression,
    Name(BrotliCompression) := BrotliCompression,
    Name(ZstdCompression) := ZstdCompression]

  /** `Compress`: the identity hands its input back; the others are the libraries'. */
  function Compress(lib: Library, c: Compressor, input: Bytes): (r: Result<Bytes, Error>)
    ensures c == NoCompression ==> r == Ok(input)
    ensures c == GzipCompression ==> r == lib.gzipCompress(input)
    ensures c == BrotliCompression ==> r == lib.brotliCompress(input)
    ensures c == ZstdCompression ==> r == lib.zstdCompress(input)
  {
    match c
    case NoCompression => Ok(input)
    case GzipCompression => lib.gzipCompress(input)
    case BrotliCompression => lib.brotliCompress(input)
    case ZstdCompression => lib.zstdCompress(input)
  }

  /** `Decompress`: the identity hands its input back; the others are the libraries'. */
  function Decompress(lib: Library, c: Compressor, input: Bytes): (r: Result<Bytes, Error>)
    ensures c == NoCompression ==> r == Ok(input)
    ensures c == GzipCompression ==> r == lib.gzipDecompress(input)
    ensures c == BrotliCompression ==> r == lib.brotliDecompress(input)
    ensures c == ZstdCompression ==> r == lib.zstdDecompress(input)
  {
    match c
    case NoCompression => Ok(input)
    case GzipCompression => lib.gzipDecompress(input)
    case BrotliCompression => lib.brotliDecompress(input)
    case ZstdCompression => lib.zstdDecompress(input)
  }

  /** No two compressors share a tag, so a stored tag identifies its compressor. */
  lemma NamesDistinct(c1: Compressor, c2: Compressor)
    ensures Name(c1) == Name(c2) ==> c1 == c2
  {
  }

  /** `compressionMap` holds exactly the four tags, each mapped to its own compressor. */
  lemma CompressionMapInverse(c: Compressor)
    ensures Name(c) in CompressionMap && CompressionMap[Name(c)] == c
    ensures forall name | name in CompressionMap :: Name(CompressionMap[name]) == name
  {
  }

  /** The library law compressor `c` relies on: the identity needs none. */
  ghost predicate Lawful(lib: Library, c: Compressor) {
    match c
    case NoCompression => true
    case GzipCompression => GzipRoundTrips(lib)
    case BrotliCompression => BrotliRoundTrips(lib)
    case ZstdCompression => ZstdRoundTrips(lib)
  }

  /** Decompressing what was compressed gives the original bytes, for every compressor. */
  lemma RoundTrip(lib: Library, c: Compressor, input: Bytes)
    requires Lawful(lib, c)
    ensures Compress(lib, c, input).Ok?
    ensures Decompress(lib, c, Compress(lib, c, input).value) == Ok(input)
  {
    match c
    case NoCompression =>
    case GzipCompression => GzipRoundTrip(lib, input);
    case BrotliCompression => BrotliRoundTrip(lib, input);
    case ZstdCompression => ZstdRoundTrip(lib, input);
  }

  /** Gzip refuses bytes that do not start with the gzip header. */
  lemma GzipRejectsForeignBytes(lib: Library, input: Bytes)
    requires GzipChecksHeader(lib)
    requires !HasGzipMagic(input)
    ensures Decompress(lib, GzipCompression, input).Err?
  {
  }
}
