/** Content digests: the chunked SHA-256 loops of the updater and of the flat
    manifest builder. SHA-256 itself is not modelled: a digest is always taken
    through a hash function passed in, so each result below holds for whatever
    function hashlib computes. */
module Digests {
  newtype byte = x: int | 0 <= x < 256
  type Bytes = seq<byte>
  /** A digest string as `hexdigest()` returns it. */
  type Digest = string
  type HashFunction = Bytes -> Digest

  /** A hashlib hasher: the bytes fed to it so far, and their digest. */
  class Hasher {
    var absorbed: Bytes

    constructor ()
      ensures absorbed == []
    {
      absorbed := [];
    }

    /** `hasher.update(chunk)` */
    method Update(chunk: Bytes)
      modifies this
      ensures absorbed == old(absorbed) + chunk
    {
      absorbed := absorbed + chunk;
    }

    function HexDigest(hash: HashFunction): Digest
      reads this
    {
      hash(absorbed)
    }
  }

  /** Reads `contents` by `f.read(chunkSize)` until an empty read, feeding every
      chunk to a fresh hasher. The chunks cover the contents exactly, so the
      digest is that of the whole file whatever the chunk size. */
  method DigestFile(contents: Bytes, chunkSize: nat, hash: HashFunction) returns (digest: Digest)
    requires chunkSize > 0
    ensures digest == hash(contents)
  {
    var hasher := new Hasher();
    var pos := 0;
    while true
      invariant pos <= |contents|
      invariant hasher.absorbed == contents[..pos]
      decreases |contents| - pos
    {
      var end := if pos + chunkSize < |contents| then pos + chunkSize else |contents|;
      var chunk := contents[pos..end];
      if chunk == [] {
        break;
      }
      hasher.Update(chunk);
      pos := end;
    }
    assert contents[..pos] == contents;
    digest := hasher.HexDigest(hash);
  }
}
