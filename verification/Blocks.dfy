/**
 * A file's content as the numbered blocks Proton stores: how uploadBlocks splits it, which block an
 * offset falls in, and what the blocks say about the length.
 */
module Blocks {
  import opened Wrappers

  newtype Byte = x: int | 0 <= x < 256

  type Bytes = seq<Byte>

  /** Plaintext bytes of every block but a file's last. */
  const BLOCK_SIZE: nat := 4194304

  /** The content session key: what it encrypts it also decrypts. */
  datatype SessionKey = SessionKey(encrypt: Bytes -> Bytes, decrypt: Bytes -> Option<Bytes>) {
    ghost predicate Inverse() {
      forall plain :: decrypt(encrypt(plain)) == Some(plain)
    }
  }

  function Min(x: nat, y: nat): nat {
    if x < y then x else y
  }

  /** The block that covers offset off, counted from 1. */
  function BlockIndexForOffset(off: nat): nat {
    off / BLOCK_SIZE + 1
  }

  function BlockByteOffset(idx: nat): nat
    requires idx > 0
  {
    (idx - 1) * BLOCK_SIZE
  }

  function BlockCount(size: nat): nat {
    (size + BLOCK_SIZE - 1) / BLOCK_SIZE
  }

  /** The plaintext of block idx of a file with this content. */
  function Chunk(content: Bytes, idx: nat): Bytes
    requires 1 <= idx <= BlockCount(|content|)
  {
    content[BlockByteOffset(idx)..Min(BlockByteOffset(idx) + BLOCK_SIZE, |content|)]
  }

  /** An offset lies inside the block it is said to fall in, and that block is one the content has. */
  lemma OffsetInItsBlock(content: Bytes, off: nat)
    requires off < |content|
    ensures var idx := BlockIndexForOffset(off);
      && 1 <= idx <= BlockCount(|content|)
      && BlockByteOffset(idx) <= off < BlockByteOffset(idx) + |Chunk(content, idx)|
      && Chunk(content, idx)[off - BlockByteOffset(idx)] == content[off]
  {
  }

  /** Reading on from an offset inside its block gives the content's bytes, up to the end of the block or the content. */
  lemma ChunkFrom(content: Bytes, off: nat)
    requires off < |content|
    ensures var idx := BlockIndexForOffset(off);
      && 1 <= idx <= BlockCount(|content|)
      && BlockByteOffset(idx) <= off < BlockByteOffset(idx) + |Chunk(content, idx)|
      && Chunk(content, idx)[off - BlockByteOffset(idx)..] == content[off..Min(BlockByteOffset(idx) + BLOCK_SIZE, |content|)]
  {
  }

  /** Every block but the last is full, and none is empty. */
  lemma BlocksAreFullButTheLast(content: Bytes, idx: nat)
    requires 1 <= idx <= BlockCount(|content|)
    ensures 0 < |Chunk(content, idx)| <= BLOCK_SIZE
    ensures idx < BlockCount(|content|) ==> |Chunk(content, idx)| == BLOCK_SIZE
    ensures idx == BlockCount(|content|) ==> BlockByteOffset(idx) + |Chunk(content, idx)| == |content|
  {
  }

  /** The first k blocks one after another. */
  ghost function Joined(content: Bytes, k: nat): Bytes
    requires k <= BlockCount(|content|)
  {
    if k == 0 then [] else Joined(content, k - 1) + Chunk(content, k)
  }

  lemma {:induction false} JoinedIsPrefix(content: Bytes, k: nat)
    requires k <= BlockCount(|content|)
    ensures Joined(content, k) == content[..Min(k * BLOCK_SIZE, |content|)]
  {
    if k > 0 {
      JoinedIsPrefix(content, k - 1);
    }
  }

  /** All blocks in order are the content. */
  lemma BlocksJoinToContent(content: Bytes)
    ensures Joined(content, BlockCount(|content|)) == content
  {
    JoinedIsPrefix(content, BlockCount(|content|));
  }

  /** The plaintext sizes uploadBlocks reports. */
  ghost function Sum(sizes: seq<nat>): nat {
    if sizes == [] then 0 else Sum(sizes[..|sizes| - 1]) + sizes[|sizes| - 1]
  }

  /** blocks holds exactly the content's blocks, each encrypted under its number. */
  ghost predicate Holds(key: SessionKey, blocks: map<nat, Bytes>, content: Bytes) {
    && (forall idx :: idx in blocks <==> 1 <= idx <= BlockCount(|content|))
    && (forall idx <- blocks :: key.decrypt(blocks[idx]) == Some(Chunk(content, idx)))
  }

  /** Stored blocks determine the content. */
  lemma HoldsOneContent(key: SessionKey, blocks: map<nat, Bytes>, a: Bytes, b: Bytes)
    requires Holds(key, blocks, a) && Holds(key, blocks, b)
    ensures a == b
  {
    var k := BlockCount(|a|);
    assert BlockCount(|b|) == k by {
      assert k > 0 ==> k in blocks;
      assert k + 1 !in blocks;
      assert BlockCount(|b|) > 0 ==> BlockCount(|b|) in blocks;
      assert BlockCount(|b|) + 1 !in blocks;
    }
    JoinedAgree(key, blocks, a, b, k);
    BlocksJoinToContent(a);
    BlocksJoinToContent(b);
  }

  lemma {:induction false} JoinedAgree(key: SessionKey, blocks: map<nat, Bytes>, a: Bytes, b: Bytes, k: nat)
    requires Holds(key, blocks, a) && Holds(key, blocks, b)
    requires k <= BlockCount(|a|) && k <= BlockCount(|b|)
    ensures Joined(a, k) == Joined(b, k)
  {
    if k > 0 {
      JoinedAgree(key, blocks, a, b, k - 1);
      assert k in blocks;
    }
  }

  datatype UploadError = ReadFailed | BlockRefused

  /** What a finished uploadBlocks leaves: the stored blocks, their plaintext sizes, their digests. */
  datatype Uploaded = Uploaded(blocks: map<nat, Bytes>, sizes: seq<nat>, hashes: seq<Bytes>)

  /** sizes are those of the first pieces of content. */
  ghost predicate Sized(content: Bytes, sizes: seq<nat>) {
    && |sizes| <= BlockCount(|content|)
    && Sum(sizes) == Min(|sizes| * BLOCK_SIZE, |content|)
    && (forall i :: 0 <= i < |sizes| ==> sizes[i] == |Chunk(content, i + 1)|)
  }

  /** u holds the first pieces of content, as many as it has sizes. */
  ghost predicate UploadedTo(key: SessionKey, digest: Bytes -> Bytes, content: Bytes, u: Uploaded) {
    && Sized(content, u.sizes) && |u.hashes| == |u.sizes|
    && (forall idx :: idx in u.blocks <==> 1 <= idx <= |u.sizes|)
    && (forall idx <- u.blocks :: key.decrypt(u.blocks[idx]) == Some(Chunk(content, idx)))
    && (forall i :: 0 <= i < |u.hashes| ==> u.hashes[i] == digest(u.blocks[i + 1]))
  }

  /** One more block stored: its size and digest noted, under the next number. */
  function Stored(u: Uploaded, size: nat, encrypted: Bytes, hash: Bytes): Uploaded {
    Uploaded(u.blocks[|u.sizes| + 1 := encrypted], u.sizes + [size], u.hashes + [hash])
  }

  lemma SizedOneMore(content: Bytes, sizes: seq<nat>)
    requires Sized(content, sizes) && |sizes| < BlockCount(|content|)
    ensures Sized(content, sizes + [|Chunk(content, |sizes| + 1)|])
  {
    var size := |Chunk(content, |sizes| + 1)|;
    assert (sizes + [size])[..|sizes|] == sizes;
    BlocksAreFullButTheLast(content, |sizes| + 1);
  }

  lemma StoredKeeps(key: SessionKey, digest: Bytes -> Bytes, content: Bytes, u: Uploaded)
    requires key.Inverse() && UploadedTo(key, digest, content, u)
    requires |u.sizes| < BlockCount(|content|)
    ensures var piece := Chunk(content, |u.sizes| + 1);
      var encrypted := key.encrypt(piece);
      UploadedTo(key, digest, content, Stored(u, |piece|, encrypted, digest(encrypted)))
  {
    var piece := Chunk(content, |u.sizes| + 1);
    SizedOneMore(content, u.sizes);
    assert key.decrypt(key.encrypt(piece)) == Some(piece);
  }

  lemma PieceIsChunk(content: Bytes, k: nat)
    requires k * BLOCK_SIZE < |content|
    ensures k < BlockCount(|content|)
    ensures Chunk(content, k + 1) == content[k * BLOCK_SIZE..k * BLOCK_SIZE + Min(BLOCK_SIZE, |content| - k * BLOCK_SIZE)]
  {
  }

  lemma UploadedAllHolds(key: SessionKey, digest: Bytes -> Bytes, content: Bytes, u: Uploaded)
    requires UploadedTo(key, digest, content, u) && |content| <= |u.sizes| * BLOCK_SIZE
    ensures Holds(key, u.blocks, content) && |u.sizes| == BlockCount(|content|) && Sum(u.sizes) == |content|
  {
  }

  /** uploadBlock: encrypts, hashes and stores one piece under the next number, or fails and stores nothing. */
  method UploadBlock(key: SessionKey, digest: Bytes -> Bytes, ghost content: Bytes, u: Uploaded, piece: Bytes, refused: bool)
    returns (r: Result<Uploaded, UploadError>)
    requires key.Inverse() && UploadedTo(key, digest, content, u)
    requires |u.sizes| < BlockCount(|content|) && piece == Chunk(content, |u.sizes| + 1)
    ensures r.Ok? <==> !refused
    ensures r.Err? ==> r.error == BlockRefused
    ensures r.Ok? ==> UploadedTo(key, digest, content, r.value) && |r.value.sizes| == |u.sizes| + 1
  {
    if refused { return Err(BlockRefused); }
    StoredKeeps(key, digest, content, u);
    var encrypted := key.encrypt(piece);
    return Ok(Stored(u, |piece|, encrypted, digest(encrypted)));
  }

  /** The first n reads work. */
  predicate ReadsUpTo(n: nat, unread: set<nat>) {
    forall i :: 0 <= i < n ==> i !in unread
  }

  /** The storage takes the first n blocks. */
  predicate TakesUpTo(n: nat, refused: set<nat>) {
    forall idx :: 1 <= idx <= n ==> idx !in refused
  }

  /** After k full blocks there is a full block to come, or this read is the last. */
  lemma ReadsLeft(total: nat, k: nat)
    requires k * BLOCK_SIZE <= total
    ensures k <= total / BLOCK_SIZE
    ensures if total - k * BLOCK_SIZE >= BLOCK_SIZE then k + 1 <= total / BLOCK_SIZE && k + 1 <= BlockCount(total)
      else total / BLOCK_SIZE == k && BlockCount(total) == k + if total > k * BLOCK_SIZE then 1 else 0
  {
  }

  /**
   * uploadBlocks: reads the content in BLOCK_SIZE pieces, the last one short, and stores each
   * encrypted under the next number. digest stands for the hash of an encrypted block. unread: the reads
   * that fail, counted from 0, one more than the full blocks; refused: the blocks the storage refuses. It
   * works exactly when it meets none of them, and then the blocks stored hold the content.
   */
  method UploadBlocks(key: SessionKey, digest: Bytes -> Bytes, content: Bytes, unread: set<nat>, refused: set<nat>)
    returns (r: Result<Uploaded, UploadError>)
    requires key.Inverse()
    ensures r.Ok? <==> ReadsUpTo(|content| / BLOCK_SIZE + 1, unread) && TakesUpTo(BlockCount(|content|), refused)
    ensures r.Err? && r.error == ReadFailed ==> !ReadsUpTo(|content| / BLOCK_SIZE + 1, unread)
    ensures r.Err? && r.error == BlockRefused ==> !TakesUpTo(BlockCount(|content|), refused)
    ensures r.Ok? ==>
      && Holds(key, r.value.blocks, content)
      && UploadedTo(key, digest, content, r.value)
      && |r.value.sizes| == BlockCount(|content|)
      && Sum(r.value.sizes) == |content|
  {
    var u, off := Uploaded(map[], [], []), 0;
    while true
      invariant UploadedTo(key, digest, content, u)
      invariant off == |u.sizes| * BLOCK_SIZE <= |content|
      invariant ReadsUpTo(|u.sizes|, unread) && TakesUpTo(|u.sizes|, refused)
      decreases |content| - off
    {
      ghost var k := |u.sizes|;
      ReadsLeft(|content|, k);
      if |u.sizes| in unread { return Err(ReadFailed); }
      assert ReadsUpTo(k + 1, unread);
      var n := Min(BLOCK_SIZE, |content| - off);
      if n > 0 {
        r := UploadPiece(key, digest, content, u, off, n, refused);
        if r.Err? { return r; }
        u := r.value;
      }
      if n < BLOCK_SIZE {
        UploadedAllHolds(key, digest, content, u);
        return Ok(u);
      }
      off := off + n;
    }
  }

  /** The piece of n bytes at off goes up as the next block. */
  method UploadPiece(key: SessionKey, digest: Bytes -> Bytes, content: Bytes, u: Uploaded, off: nat, n: nat, refused: set<nat>)
    returns (r: Result<Uploaded, UploadError>)
    requires key.Inverse() && UploadedTo(key, digest, content, u)
    requires off == |u.sizes| * BLOCK_SIZE < |content| && n == Min(BLOCK_SIZE, |content| - off)
    requires TakesUpTo(|u.sizes|, refused)
    ensures r.Ok? <==> |u.sizes| + 1 !in refused
    ensures |u.sizes| < BlockCount(|content|)
    ensures r.Err? ==> r.error == BlockRefused
    ensures r.Ok? ==>
      UploadedTo(key, digest, content, r.value) && |r.value.sizes| == |u.sizes| + 1 && TakesUpTo(|u.sizes| + 1, refused)
  {
    PieceIsChunk(content, |u.sizes|);
    r := UploadBlock(key, digest, content, u, content[off..off + n], |u.sizes| + 1 in refused);
  }

  /** Every digest in order, one after another. */
  ghost function Concat(parts: seq<Bytes>): Bytes {
    if parts == [] then [] else Concat(parts[..|parts| - 1]) + parts[|parts| - 1]
  }

  /** blockManifest: the digests in upload order. */
  method BlockManifest(hashes: seq<Bytes>) returns (out: Bytes)
    ensures out == Concat(hashes)
  {
    out := [];
    for i := 0 to |hashes|
      invariant out == Concat(hashes[..i])
    {
      assert hashes[..i + 1][..i] == hashes[..i];
      out := out + hashes[i];
    }
    assert hashes[..|hashes|] == hashes;
  }

  lemma EmptyManifest(parts: seq<Bytes>, n: nat)
    requires n > 0 && (forall h <- parts :: |h| == n)
    ensures Concat(parts) == [] <==> parts == []
  {
    if parts != [] {
      assert |Concat(parts)| >= |parts[|parts| - 1]|;
    }
  }

  /** The manifest holds every digest, right behind those before it. */
  lemma {:induction false} ManifestHoldsInOrder(parts: seq<Bytes>, i: nat)
    requires i < |parts|
    ensures Concat(parts[..i]) + parts[i] <= Concat(parts)
    decreases |parts|
  {
    var rest := parts[..|parts| - 1];
    if i < |rest| {
      ManifestHoldsInOrder(rest, i);
      assert rest[..i] == parts[..i];
    }
  }

  /** So for digests of one length no two uploads share a manifest unless they share every digest. */
  lemma {:induction false} ManifestDeterminesDigests(a: seq<Bytes>, b: seq<Bytes>, n: nat)
    requires n > 0 && (forall h <- a :: |h| == n) && (forall h <- b :: |h| == n)
    requires Concat(a) == Concat(b)
    ensures a == b
  {
    EmptyManifest(a, n);
    EmptyManifest(b, n);
    if a != [] {
      var x, y := a[|a| - 1], b[|b| - 1];
      var restA, restB := Concat(a[..|a| - 1]), Concat(b[..|b| - 1]);
      assert Concat(a) == restA + x && Concat(b) == restB + y;
      assert |x| == |y| == n && |restA| == |restB|;
      assert restA == Concat(a)[..|restA|] && restB == Concat(b)[..|restB|];
      assert x == Concat(a)[|restA|..] && y == Concat(b)[|restB|..];
      ManifestDeterminesDigests(a[..|a| - 1], b[..|b| - 1], n);
      assert a == a[..|a| - 1] + [x] && b == b[..|b| - 1] + [y];
    }
  }
}
