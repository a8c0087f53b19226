/** Streaming file digest: a file is read in chunks of at most 8192 bytes
    and each chunk is fed to an incremental SHA-256 hasher until a read
    comes back empty.  SHA-256 itself (FIPS 180-4) is an abstract function
    of the whole byte sequence. */
module FileHash {
  import opened Common
  import opened Files

  const ChunkSize: nat := 8192

  predicate IsHexDigit(c: char)
  {
    '0' <= c <= '9' || 'a' <= c <= 'f'
  }

  /** `hexdigest()` of SHA-256: 64 lower-case hexadecimal digits. */
  type HexDigest = s: string | |s| == 64 && forall i :: 0 <= i < |s| ==> IsHexDigit(s[i])
    witness seq(64, _ => '0')

  /** SHA-256 of a complete byte sequence, as an abstract function. */
  type Sha256 = seq<Byte> -> HexDigest

  /** An open binary file: its content and the current read position. */
  class FileReader {
    const content: seq<Byte>
    var pos: nat

    predicate Valid()
      reads this
    {
      pos <= |content|
    }

    constructor(content: seq<Byte>)
      ensures Valid() && this.content == content && pos == 0
    {
      this.content := content;
      pos := 0;
    }

    /** `f.read(n)`: the next at most n bytes, empty only at end of file. */
    method Read(n: nat) returns (chunk: seq<Byte>)
      requires Valid() && n > 0
      modifies this
      ensures Valid()
      ensures pos == old(pos) + |chunk| && |chunk| <= n
      ensures chunk == content[old(pos)..pos]
      ensures chunk == [] <==> old(pos) == |content|
    {
      var end := if pos + n <= |content| then pos + n else |content|;
      chunk := content[pos..end];
      pos := end;
    }
  }

  /** A `hashlib` object: the bytes absorbed so far determine its digest. */
  class Hasher {
    const sha: Sha256
    var absorbed: seq<Byte>

    constructor(sha: Sha256)
      ensures this.sha == sha && absorbed == []
    {
      this.sha := sha;
      absorbed := [];
    }

    /** `update(chunk)`. */
    method Update(chunk: seq<Byte>)
      modifies this
      ensures absorbed == old(absorbed) + chunk
    {
      absorbed := absorbed + chunk;
    }

    /** `hexdigest()`. */
    function HexDigestOf(): HexDigest
      reads this
    {
      sha(absorbed)
    }
  }

  /** The read loop: feeds the rest of the file to the hasher, chunk by chunk. */
  method AbsorbRest(reader: FileReader, hasher: Hasher, chunkSize: nat)
    requires reader.Valid() && chunkSize > 0
    modifies reader, hasher
    ensures reader.Valid() && reader.pos == |reader.content|
    ensures hasher.absorbed == old(hasher.absorbed) + reader.content[old(reader.pos)..]
  {
    ghost var start := reader.pos;
    ghost var before := hasher.absorbed;
    var chunk := reader.Read(chunkSize);
    while chunk != []
      invariant reader.Valid() && start <= reader.pos
      invariant hasher.absorbed + chunk == before + reader.content[start..reader.pos]
      invariant chunk == [] ==> reader.pos == |reader.content|
      decreases |reader.content| - reader.pos + |chunk|
    {
      hasher.Update(chunk);
      ghost var mid := reader.pos;
      chunk := reader.Read(chunkSize);
      assert reader.content[start..reader.pos] == reader.content[start..mid] + chunk;
    }
    assert reader.content[start..reader.pos] == reader.content[start..];
  }

  /** compute_file_hash: the digest of the whole file, whatever the chunk
      size; a file that does not exist raises. */
  method ComputeFileHash(fs: FileSystem, path: string, sha: Sha256) returns (r: Result<HexDigest, IoError>)
    ensures path in fs ==> r == Ok(sha(fs[path]))
    ensures path !in fs ==> r == Err(FileNotFound(path))
  {
    if path !in fs {
      return Err(FileNotFound(path));
    }
    var reader := new FileReader(fs[path]);
    var hasher := new Hasher(sha);
    AbsorbRest(reader, hasher, ChunkSize);
    assert reader.content[0..] == fs[path];
    assert hasher.absorbed == fs[path];
    return Ok(hasher.HexDigestOf());
  }

  /** The value compute_file_hash returns, for use in specifications. */
  function FileDigest(fs: FileSystem, path: string, sha: Sha256): (r: Result<HexDigest, IoError>)
    ensures r.Ok? <==> path in fs
  {
    if path in fs then Ok(sha(fs[path])) else Err(FileNotFound(path))
  }

  /** Files with identical content have identical digests, wherever they are. */
  lemma SameContentSameDigest(fs1: FileSystem, p1: string, fs2: FileSystem, p2: string, sha: Sha256)
    requires p1 in fs1 && p2 in fs2 && fs1[p1] == fs2[p2]
    ensures FileDigest(fs1, p1, sha) == FileDigest(fs2, p2, sha)
  {
  }
}
