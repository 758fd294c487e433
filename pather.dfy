/** Directory paths for the disk backend: the cache key, then slices of a digest of the
    rendered parameters, so that no directory grows too large. */
module Pather {
  import opened ByteStrings
  import opened Library
  import Hex
  import Base64Url

  /** `SHA256HexPather`: the key, then the 64-digit lowercase hex digest cut 2/2/2/58. */
  function SHA256HexPather(lib: Library, key: string, params: GoString): (path: seq<string>)
    ensures |path| == 5 && path[0] == key
    ensures |path[1]| == 2 && |path[2]| == 2 && |path[3]| == 2 && |path[4]| == 58
    ensures path[1] + path[2] + path[3] + path[4] == Hex.Encode(lib.sha256(BytesOf(params)))
  {
    var hash := Hex.Encode(lib.sha256(BytesOf(params)));
    assert hash == hash[0..2] + hash[2..4] + hash[4..6] + hash[6..];
    [key, hash[0..2], hash[2..4], hash[4..6], hash[6..]]
  }

  /** `SHA256Base64Pather`: the key, two 2-character prefixes of the 44-character
      base64url digest, then the whole digest. */
  function SHA256Base64Pather(lib: Library, key: string, params: GoString): (path: seq<string>)
    ensures |path| == 4 && path[0] == key
    ensures path[3] == Base64Url.Encode(lib.sha256(BytesOf(params))) && |path[3]| == 44
    ensures |path[1]| == 2 && |path[2]| == 2
    ensures path[1] <= path[3] && path[1] + path[2] <= path[3]
  {
    var digest := lib.sha256(BytesOf(params));
    var hash := Base64Url.Encode(digest);
    assert |hash| == 44;
    assert hash[0..2] + hash[2..4] == hash[..4];
    assert hash[..4] <= hash && hash[0..2] <= hash;
    [key, hash[0..2], hash[2..4], hash]
  }

  /** `DefaultDiskStoragePather` is the hex pather. */
  function DefaultDiskStoragePather(lib: Library, key: string, params: GoString): (path: seq<string>)
    ensures path == SHA256HexPather(lib, key, params)
  {
    SHA256HexPather(lib, key, params)
  }

  /** Parameters reach the path only through their digest: equal digests give equal paths. */
  lemma PathDependsOnlyOnDigest(lib: Library, key: string, p1: GoString, p2: GoString)
    requires lib.sha256(BytesOf(p1)) == lib.sha256(BytesOf(p2))
    ensures SHA256HexPather(lib, key, p1) == SHA256HexPather(lib, key, p2)
    ensures SHA256Base64Pather(lib, key, p1) == SHA256Base64Pather(lib, key, p2)
  {
  }
}
