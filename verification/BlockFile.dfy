/**
 * An open file read through its four-block cache: cachePut, getBlock, ReadAt, correctSizeFromBlocks
 * and downloadInto, with any block fetch failing at any time and other readers using the same cache.
 */
module BlockFile {
  import opened Wrappers
  import opened Blocks
  import opened BlockReads

  /** Decrypted blocks a file keeps in memory. */
  const MAX_CACHED_BLOCKS: nat := 4

  // ----- the cache: a map with its keys in the order they came -----

  datatype Cache = Cache(blocks: map<nat, Bytes>, order: seq<nat>) {
    /** The order list has no duplicates, names exactly the cached blocks, and at most four. */
    predicate Valid() {
      && |order| <= MAX_CACHED_BLOCKS
      && (forall i, j :: 0 <= i < j < |order| ==> order[i] != order[j])
      && (forall idx <- blocks :: idx in order)
      && (forall idx <- order :: idx in blocks)
    }

    /** Every cached block is that block's plaintext. */
    predicate Holds(content: Bytes) {
      forall idx <- blocks :: 1 <= idx <= BlockCount(|content|) && blocks[idx] == Chunk(content, idx)
    }

    /** cachePut: the oldest makes way when four are there, and a block already cached stays as it is. */
    function Put(idx: nat, data: Bytes): Cache {
      if idx in blocks then this
      else if |order| >= MAX_CACHED_BLOCKS then Cache((blocks - {order[0]})[idx := data], order[1..] + [idx])
      else Cache(blocks[idx := data], order + [idx])
    }
  }

  const NO_BLOCKS: Cache := Cache(map[], [])

  lemma PutKeepsValid(c: Cache, idx: nat, data: Bytes)
    requires c.Valid()
    ensures c.Put(idx, data).Valid() && idx in c.Put(idx, data).blocks
    ensures idx !in c.blocks ==> c.Put(idx, data).blocks[idx] == data
  {
    var c' := c.Put(idx, data);
    if idx !in c.blocks && |c.order| >= MAX_CACHED_BLOCKS {
      forall k ensures k in c'.blocks <==> k in c'.order {
        if k in c.order && k != c.order[0] {
          var i :| 0 < i < |c.order| && c.order[i] == k;
          assert c'.order[i - 1] == k;
        }
        assert k in c.order[1..] ==> k in c.order && k != c.order[0];
      }
    }
  }

  lemma PutKeepsHolds(c: Cache, content: Bytes, idx: nat)
    requires c.Holds(content) && 1 <= idx <= BlockCount(|content|)
    ensures c.Put(idx, Chunk(content, idx)).Holds(content)
  {
  }

  /** The blocks that come in next while a block is cached, each new to the cache. */
  function PutAll(c: Cache, next: seq<(nat, Bytes)>): Cache
    decreases |next|
  {
    if next == [] then c else PutAll(c.Put(next[0].0, next[0].1), next[1..])
  }

  /** A block just put stays cached while at most three more come in: eviction is first in, first out. */
  lemma {:induction false} NewestBlocksStay(c: Cache, idx: nat, at: nat, next: seq<(nat, Bytes)>)
    requires c.Valid()
    requires at < |c.order| && c.order[at] == idx
    requires |c.order| - at + |next| <= MAX_CACHED_BLOCKS
    ensures idx in PutAll(c, next).blocks
    decreases |next|
  {
    assert idx in c.order;
    if next != [] {
      var (k, data) := next[0];
      PutKeepsValid(c, k, data);
      var c' := c.Put(k, data);
      if k in c.blocks {
        NewestBlocksStay(c', idx, at, next[1..]);
      } else if |c.order| >= MAX_CACHED_BLOCKS {
        NewestBlocksStay(c', idx, at - 1, next[1..]);
      } else {
        NewestBlocksStay(c', idx, at, next[1..]);
      }
    }
  }

  // ----- a read under way -----

  /** What a read has so far is the content's, and stops at a block boundary unless that was all there is. */
  ghost predicate Filled(content: Bytes, size: nat, off: nat, len: nat, got: Bytes) {
    var n := |got|;
    && n <= Available(|content|, size, off, len)
    && (off <= |content| ==> got == content[off..off + n])
    && (0 < n < Available(|content|, size, off, len) ==> (off + n) % BLOCK_SIZE == 0)
  }

  /** None of the blocks the first n bytes came from is in down. */
  ghost predicate Clear(off: nat, n: nat, down: set<nat>) {
    n > 0 ==> forall idx :: BlockIndexForOffset(off) <= idx <= BlockIndexForOffset(off + n - 1) ==> idx !in down
  }

  lemma TakeOfSlice(s: Bytes, lo: nat, hi: nat, k: nat)
    requires lo + k <= hi <= |s|
    ensures s[lo..hi][..k] == s[lo..lo + k]
  {
  }

  lemma JoinSlices(s: Bytes, a: nat, b: nat, c: nat)
    requires a <= b <= c <= |s|
    ensures s[a..b] + s[b..c] == s[a..c]
  {
  }

  /** A copy from at takes what the block and the buffer allow, and ends at a boundary unless that is all there is. */
  lemma CopyEnds(total: nat, size: nat, off: nat, len: nat, at: nat, copied: nat)
    requires off <= at < size && at < total && at - off < len
    requires copied == Min(Min(BlockByteOffset(BlockIndexForOffset(at)) + BLOCK_SIZE, total) - at, len - (at - off))
    ensures 0 < copied && at + copied - off <= Available(total, size, off, len)
    ensures at + copied - off < Available(total, size, off, len) ==> (at + copied) % BLOCK_SIZE == 0
    ensures BlockIndexForOffset(at + copied - 1) == BlockIndexForOffset(at)
  {
  }

  lemma BlockFrom(content: Bytes, at: nat, data: Bytes, start: nat, copied: nat)
    requires at < |content| && data == Chunk(content, BlockIndexForOffset(at))
    requires start == at - BlockByteOffset(BlockIndexForOffset(at)) && start + copied <= |data|
    ensures at + copied <= |content| && data[start..][..copied] == content[at..at + copied]
    ensures |data| - start == Min(BlockByteOffset(BlockIndexForOffset(at)) + BLOCK_SIZE, |content|) - at
  {
    ChunkFrom(content, at);
    var hi := Min(BlockByteOffset(BlockIndexForOffset(at)) + BLOCK_SIZE, |content|);
    assert data[start..] == content[at..hi];
    TakeOfSlice(content, at, hi, copied);
  }

  /** One more block's bytes, as many as fit. */
  lemma ReadOn(content: Bytes, size: nat, off: nat, len: nat, got: Bytes, data: Bytes, start: nat, copied: nat)
    requires Filled(content, size, off, len, got) && |got| < len
    requires off + |got| < |content| && off + |got| < size
    requires data == Chunk(content, BlockIndexForOffset(off + |got|))
    requires start == off + |got| - BlockByteOffset(BlockIndexForOffset(off + |got|))
    requires start <= |data| && copied == Min(|data| - start, len - |got|)
    ensures Filled(content, size, off, len, got + data[start..][..copied])
    ensures copied > 0 && BlockIndexForOffset(off + |got| + copied - 1) == BlockIndexForOffset(off + |got|)
  {
    var at := off + |got|;
    BlockFrom(content, at, data, start, copied);
    JoinSlices(content, off, at, at + copied);
    CopyEnds(|content|, size, off, len, at, copied);
  }

  /** A copy from a block that can be had leaves the bytes so far all from such blocks. */
  lemma ClearOn(off: nat, n: nat, m: nat, down: set<nat>)
    requires Clear(off, n, down) && BlockIndexForOffset(off + n) !in down
    requires m > n ==> BlockIndexForOffset(off + m - 1) == BlockIndexForOffset(off + n)
    requires n <= m
    ensures Clear(off, m, down)
  {
  }

  /** Past the content's end there is no more to read, whatever size says. */
  lemma PastItsBlock(content: Bytes, off: nat)
    requires BlockIndexForOffset(off) <= BlockCount(|content|)
    ensures off - BlockByteOffset(BlockIndexForOffset(off)) >= |Chunk(content, BlockIndexForOffset(off))| <==> off >= |content|
  {
    if off < |content| {
      ChunkFrom(content, off);
    }
  }

  /** What the next block adds to a read: nothing past the content's end, else at least a byte, and all that fits. */
  lemma BlockGives(content: Bytes, size: nat, off: nat, len: nat, got: Bytes, idx: nat, block: Bytes, start: int)
    requires Filled(content, size, off, len, got) && |got| < len && off + |got| < size
    requires idx == BlockIndexForOffset(off + |got|) <= BlockCount(|content|)
    requires block == Chunk(content, idx) && start == off + |got| - BlockByteOffset(idx)
    ensures 0 <= start
    ensures start >= |block| <==> off + |got| >= |content|
    ensures start < |block| ==>
      var copied := Min(|block| - start, len - |got|);
      && copied > 0
      && Filled(content, size, off, len, got + block[start..][..copied])
      && BlockIndexForOffset(off + |got| + copied - 1) == idx
  {
    PastItsBlock(content, off + |got|);
    if start < |block| {
      ReadOn(content, size, off, len, got, block, start, Min(|block| - start, len - |got|));
    }
  }

  /** A read that ran into a block it cannot get, with the blocks before it all had. */
  lemma StopsAtDown(content: Bytes, size: nat, off: nat, len: nat, got: Bytes, down: set<nat>)
    requires Filled(content, size, off, len, got) && Clear(off, |got|, down)
    requires off + |got| < size && |got| < len
    requires var idx := BlockIndexForOffset(off + |got|); idx in down || idx > BlockCount(|content|)
    ensures ReadResult(|content|, size, off, len, down) == if |got| == 0 then (0, Failed) else (|got|, Eof)
  {
    if off < |content| {
      NeededBlocks(|content|, size, off, len);
      var idx := BlockIndexForOffset(off + |got|);
      if off + |got| < |content| {
        MoreIsNeeded(|content|, size, off, len, |got|);
        if |got| > 0 {
          EarlyEofGivesBytesBefore(|content|, size, off, len, down, idx);
        }
      } else {
        AllHad(content, size, off, len, got, down);
      }
    }
  }

  lemma MoreIsNeeded(total: nat, size: nat, off: nat, len: nat, n: nat)
    requires off + n < size && off + n < total && n < len
    requires 0 < n < Available(total, size, off, len) ==> (off + n) % BLOCK_SIZE == 0
    ensures n < Available(total, size, off, len)
    ensures Needs(total, size, off, len, BlockIndexForOffset(off + n))
    ensures n > 0 ==>
      && BlockIndexForOffset(off + n) == BlockIndexForOffset(off + n - 1) + 1
      && BlockByteOffset(BlockIndexForOffset(off + n)) == off + n
  {
  }

  /** A read that has all there is: EOF when that is less than asked. */
  lemma AllHad(content: Bytes, size: nat, off: nat, len: nat, got: Bytes, down: set<nat>)
    requires Filled(content, size, off, len, got) && Clear(off, |got|, down)
    requires off < size && off < |content| && len > 0 && |got| > 0
    requires |got| == len || off + |got| >= size || off + |got| >= |content|
    ensures ReadResult(|content|, size, off, len, down) == (|got|, if |got| < len then Eof else NoError)
  {
    NeededBlocks(|content|, size, off, len);
    NothingMore(|content|, size, off, len, |got|);
  }

  lemma NothingMore(total: nat, size: nat, off: nat, len: nat, n: nat)
    requires off < size && off < total && 0 < n <= Available(total, size, off, len)
    requires n < Available(total, size, off, len) ==> (off + n) % BLOCK_SIZE == 0
    requires n == len || off + n >= size || off + n >= total
    ensures n == Available(total, size, off, len)
  {
  }

  /** The block a read that has n bytes comes to next cannot be had. */
  predicate NextIsDown(total: nat, off: nat, n: nat, down: set<nat>) {
    BlockIndexForOffset(off + n) in down || BlockIndexForOffset(off + n) > BlockCount(total)
  }

  /** Where a read stops, and what it then says. */
  lemma ReadStops(content: Bytes, size: nat, off: nat, len: nat, got: Bytes, down: set<nat>)
    requires Filled(content, size, off, len, got) && Clear(off, |got|, down) && off < size
    requires |got| == len || off + |got| >= size || off + |got| >= |content| || NextIsDown(|content|, off, |got|, down)
    ensures ReadResult(|content|, size, off, len, down) ==
      (|got|,
       if |got| == len then NoError
       else if |got| == 0 && NextIsDown(|content|, off, 0, down) then Failed
       else Eof)
  {
    if |got| < len && off + |got| < size && NextIsDown(|content|, off, |got|, down) {
      StopsAtDown(content, size, off, len, got, down);
    } else if off < |content| && len > 0 {
      AllHad(content, size, off, len, got, down);
    }
  }

  // ----- the file -----

  class File {
    const key: SessionKey
    const blocks: map<nat, Bytes>
    const content: Bytes
    var size: nat
    var cache: map<nat, Bytes>
    var cacheLRU: seq<nat>

    /** content: what the blocks hold; size: what the link or the revision says. */
    constructor (key: SessionKey, blocks: map<nat, Bytes>, content: Bytes, size: nat)
      requires Blocks.Holds(key, blocks, content)
      ensures Valid() && this.content == content && this.blocks == blocks && this.size == size
      ensures View() == NO_BLOCKS
    {
      this.key, this.blocks, this.content, this.size := key, blocks, content, size;
      cache, cacheLRU := map[], [];
    }

    ghost function View(): Cache
      reads this
    {
      Cache(cache, cacheLRU)
    }

    ghost predicate Valid()
      reads this
    {
      Blocks.Holds(key, blocks, content) && View().Valid() && View().Holds(content)
    }

    method CachePut(idx: nat, data: Bytes)
      requires View().Valid()
      modifies this`cache, this`cacheLRU
      ensures View() == old(View()).Put(idx, data)
    {
      if idx in cache { return; }
      if |cacheLRU| >= MAX_CACHED_BLOCKS {
        var oldest := cacheLRU[0];
        cacheLRU := cacheLRU[1..];
        cache := cache - {oldest};
      }
      cache := cache[idx := data];
      cacheLRU := cacheLRU + [idx];
    }

    /**
     * getBlock: from memory, or downloaded and decrypted unless fails, which stands for the fetch
     * failing and for a caller that waited for another's fetch and found the result evicted.
     */
    method GetBlock(idx: nat, fails: bool) returns (r: Result<Bytes, ReadError>)
      requires Valid()
      modifies this`cache, this`cacheLRU
      ensures Valid()
      ensures r.Ok? <==> old(idx in cache) || (1 <= idx <= BlockCount(|content|) && !fails)
      ensures r.Ok? ==> 1 <= idx <= BlockCount(|content|) && r.value == Chunk(content, idx)
      ensures View() == if r.Ok? then old(View()).Put(idx, r.value) else old(View())
    {
      if idx in cache { return Ok(cache[idx]); }
      if fails || idx !in blocks { return Err(Failed); }
      var plain := key.decrypt(blocks[idx]);
      PutKeepsValid(View(), idx, plain.value);
      PutKeepsHolds(View(), content, idx);
      CachePut(idx, plain.value);
      return Ok(plain.value);
    }

    /** Other readers of the file between two getBlocks of one: any cache they can leave, without the blocks in down. */
    method OtherReaders(down: set<nat>)
      requires Valid()
      modifies this`cache, this`cacheLRU
      ensures Valid() && cache.Keys !! down
    {
      var left: Cache := *;
      if left.Valid() && left.Holds(content) && left.blocks.Keys !! down {
        cache, cacheLRU := left.blocks, left.order;
      } else {
        cache, cacheLRU := map[], [];
      }
    }

    /** getBlock within a read, which other readers may come between. */
    method TryBlock(idx: nat, down: set<nat>) returns (r: Result<Bytes, ReadError>)
      requires Valid() && idx > 0
      modifies this`cache, this`cacheLRU
      ensures Valid()
      ensures r.Err? <==> idx in down || idx > BlockCount(|content|)
      ensures r.Ok? ==> r.value == Chunk(content, idx)
    {
      OtherReaders(down);
      r := GetBlock(idx, idx in down);
    }

    /** ReadAt's loop body: copies what it can of the next block behind the n bytes p has; nothing when there is no more. */
    method ReadBlock(p: array<Byte>, off: nat, n: nat, down: set<nat>) returns (r: Result<nat, ReadError>)
      requires Valid() && n < p.Length && off + n < size
      requires Filled(content, size, off, p.Length, p[..n]) && Clear(off, n, down)
      modifies this`cache, this`cacheLRU, p
      ensures Valid()
      ensures r.Err? <==> NextIsDown(|content|, off, n, down)
      ensures r.Err? ==> p[..n] == old(p[..n]) && p[n..] == old(p[n..])
      ensures r.Ok? ==> n <= r.value <= p.Length && p[r.value..] == old(p[r.value..])
      ensures r.Ok? ==> Filled(content, size, off, p.Length, p[..r.value]) && Clear(off, r.value, down)
      ensures r.Ok? ==> if off + n >= |content| then r.value == n else r.value > n
    {
      ghost var had := p[..n];
      var got := TryBlock(BlockIndexForOffset(off + n), down);
      assert p[..n] == had && p[n..] == old(p[n..]);
      if got.Err? { return Err(got.error); }
      var m := CopyBlock(content, size, p, off, n, got.value);
      ClearOn(off, n, m, down);
      return Ok(m);
    }

    /** ReadAt's loop: a block at a time until p is full, the file ends, or a block cannot be had. */
    method ReadBlocks(p: array<Byte>, off: nat, down: set<nat>) returns (n: nat, failed: bool)
      requires Valid() && off < size
      modifies this`cache, this`cacheLRU, p
      ensures Valid() && n <= p.Length
      ensures Filled(content, size, off, p.Length, p[..n]) && Clear(off, n, down)
      ensures n == p.Length || off + n >= size || off + n >= |content| || NextIsDown(|content|, off, n, down)
      ensures failed <==> n == 0 < p.Length && NextIsDown(|content|, off, 0, down)
      ensures p[n..] == old(p[n..])
    {
      n, failed := 0, false;
      while n < p.Length
        invariant Valid() && n <= p.Length && !failed
        invariant Filled(content, size, off, p.Length, p[..n]) && Clear(off, n, down)
        invariant n == 0 || !NextIsDown(|content|, off, 0, down)
        invariant p[n..] == old(p[n..])
      {
        if off + n >= size { break; }
        var r := ReadBlock(p, off, n, down);
        if r.Err? { return n, n == 0; }
        if r.value == n { break; }
        n := r.value;
      }
    }

    /**
     * ReadAt fills p from offset off. down: the blocks this read cannot get, neither in memory when
     * it comes to them nor to be fetched. Its bytes are the content's, and how many there are and what
     * it says of them is ReadResult.
     */
    method ReadAt(p: array<Byte>, off: int, down: set<nat>) returns (n: nat, err: ReadError)
      requires Valid()
      modifies this`cache, this`cacheLRU, p
      ensures Valid() && n <= p.Length
      ensures off < 0 ==> n == 0 && err == Failed
      ensures off >= 0 ==> (n, err) == ReadResult(|content|, size, off, p.Length, down)
      ensures 0 <= off <= |content| ==> off + n <= |content| && p[..n] == content[off..off + n]
      ensures p[n..] == old(p[n..])
    {
      if off < 0 { return 0, Failed; }
      if off >= size { return 0, Eof; }
      var failed;
      n, failed := ReadBlocks(p, off, down);
      ReadStops(content, size, off, p.Length, p[..n], down);
      if failed { return 0, Failed; }
      return n, if n < p.Length then Eof else NoError;
    }

    /** correctSizeFromBlocks: the last block's place and length give the plaintext size, unless its fetch fails. */
    method CorrectSizeFromBlocks(fails: bool) returns (computed: nat, ok: bool)
      requires Valid()
      modifies this`cache, this`cacheLRU
      ensures Valid()
      ensures ok <==> content == [] || BlockCount(|content|) in old(cache) || !fails
      ensures computed == if ok then |content| else size
    {
      if |blocks| == 0 {
        assert blocks.Keys == {};
        assert 1 !in blocks;
        return 0, true;
      }
      var lastIdx := LastBlock(blocks);
      assert BlockCount(|content|) > 0 ==> BlockCount(|content|) in blocks;
      var r := GetBlock(lastIdx, fails);
      if r.Err? { return size, false; }
      BlocksAreFullButTheLast(content, lastIdx);
      return BlockByteOffset(lastIdx) + |r.value|, true;
    }
  }

  /** Read i of the copy, in terms of how many bytes the whole copy takes. */
  method ReadBuffer(f: File, buf: array<Byte>, i: nat, down: nat -> set<nat>, full: nat -> bool) returns (n: nat, err: ReadError)
    requires f.Valid() && buf.Length == DOWNLOAD_BUFFER
    requires i * DOWNLOAD_BUFFER <= Copied(|f.content|, f.size)
    modifies f`cache, f`cacheLRU, buf
    ensures f.Valid() && n <= buf.Length
    ensures var off := i * DOWNLOAD_BUFFER; off + n <= Copied(|f.content|, f.size) && buf[..n] == f.content[off..off + n]
    ensures err == NoError ==> n == DOWNLOAD_BUFFER
    ensures err == Eof ==> i * DOWNLOAD_BUFFER + n == Copied(|f.content|, f.size) && n < DOWNLOAD_BUFFER
    ensures err == Failed ==> n == 0
    ensures ReadWorks(|f.content|, f.size, i, down, full) <==> err != Failed && (n > 0 ==> !full(i))
  {
    BufferRead(|f.content|, f.size, i, down, full);
    n, err := f.ReadAt(buf, i * DOWNLOAD_BUFFER, down(i));
  }

  /** What the copy makes of read i: its bytes behind those it has, and whether it goes on, is over, or failed. */
  method CopyBuffer(f: File, buf: array<Byte>, tmp: Bytes, i: nat, down: nat -> set<nat>, full: nat -> bool)
    returns (out: Bytes, err: ReadError)
    requires f.Valid() && buf.Length == DOWNLOAD_BUFFER
    requires |tmp| == i * DOWNLOAD_BUFFER <= Copied(|f.content|, f.size) && tmp == f.content[0..|tmp|]
    modifies f`cache, f`cacheLRU, buf
    ensures f.Valid()
    ensures |out| <= Copied(|f.content|, f.size) && out == f.content[0..|out|]
    ensures i <= Copied(|f.content|, f.size) / DOWNLOAD_BUFFER
    ensures err == NoError ==> |out| == (i + 1) * DOWNLOAD_BUFFER
    ensures err == Eof ==> |out| == Copied(|f.content|, f.size) && i == |out| / DOWNLOAD_BUFFER
    ensures err == Failed <==> !ReadWorks(|f.content|, f.size, i, down, full)
  {
    ReadsSoFar(Copied(|f.content|, f.size), i);
    out := tmp;
    var n;
    n, err := ReadBuffer(f, buf, i, down, full);
    if n > 0 {
      if full(i) { return out, Failed; }
      JoinSlices(f.content, 0, |tmp|, |tmp| + n);
      out := tmp + buf[..n];
    }
    if err == Eof { LastReadIs(Copied(|f.content|, f.size), i, n); }
  }

  /**
   * downloadInto: copies the file into a temp file a buffer at a time until a read says EOF. down: the blocks
   * the i-th read cannot get; full: its write fails. It reports no error exactly when every read up to the
   * last works; the temp file then holds the content up to the first whole buffer that reaches size, which
   * is all of it when size is not too small.
   */
  method DownloadInto(f: File, down: nat -> set<nat>, full: nat -> bool) returns (tmp: Bytes, ok: bool)
    requires f.Valid()
    modifies f`cache, f`cacheLRU
    ensures f.Valid()
    ensures tmp <= f.content
    ensures ok <==>
      forall i :: 0 <= i <= Copied(|f.content|, f.size) / DOWNLOAD_BUFFER ==> ReadWorks(|f.content|, f.size, i, down, full)
    ensures ok ==> |tmp| == Copied(|f.content|, f.size)
    ensures ok && f.size >= |f.content| ==> tmp == f.content
  {
    var buf := new Byte[DOWNLOAD_BUFFER];
    tmp := [];
    var i := 0;
    while true
      invariant f.Valid() && fresh(buf) && buf.Length == DOWNLOAD_BUFFER
      invariant |tmp| == i * DOWNLOAD_BUFFER <= Copied(|f.content|, f.size) && tmp == f.content[0..|tmp|]
      invariant forall j :: 0 <= j < i ==> ReadWorks(|f.content|, f.size, j, down, full)
      decreases Copied(|f.content|, f.size) / DOWNLOAD_BUFFER + 1 - i
    {
      var err;
      tmp, err := CopyBuffer(f, buf, tmp, i, down, full);
      if err == Eof {
        CopiedAll(|f.content|, f.size);
        return tmp, true;
      }
      if err == Failed { return tmp, false; }
      i := i + 1;
    }
  }

  /** The largest block number. */
  method LastBlock(blocks: map<nat, Bytes>) returns (lastIdx: nat)
    ensures lastIdx == 0 || lastIdx in blocks
    ensures forall idx <- blocks :: idx <= lastIdx
  {
    var rest := blocks.Keys;
    lastIdx := 0;
    while rest != {}
      invariant rest <= blocks.Keys
      invariant lastIdx == 0 || lastIdx in blocks
      invariant forall idx <- blocks :: idx in rest || idx <= lastIdx
      decreases rest
    {
      var idx :| idx in rest;
      rest := rest - {idx};
      if idx > lastIdx { lastIdx := idx; }
    }
  }

  /**
   * What an upload stored reads back, whatever the reader takes the content to be: a read that gets
   * all its blocks gives exactly the bytes there are, min(len, size - off) of them, and EOF iff they
   * are fewer than asked.
   */
  lemma WriteReadRoundTrip(key: SessionKey, digest: Bytes -> Bytes, content: Bytes, up: Uploaded, seen: Bytes, off: nat, len: nat)
    requires UploadedTo(key, digest, content, up) && |up.sizes| == BlockCount(|content|)
    requires Blocks.Holds(key, up.blocks, seen) && len > 0
    ensures seen == content
    ensures ReadResult(|seen|, |content|, off, len, {}) ==
      var n := if off < |content| then Min(len, |content| - off) else 0; (n, if n < len then Eof else NoError)
  {
    UploadedAllHolds(key, digest, content, up);
    HoldsOneContent(key, up.blocks, content, seen);
    UndisturbedRead(|content|, |content|, off, len);
  }

  /** What ReadAt does with a block it got: nothing past its end, else copies from where the read has come to. */
  method CopyBlock(ghost content: Bytes, ghost size: nat, p: array<Byte>, off: nat, n: nat, block: Bytes) returns (m: nat)
    requires n < p.Length && off + n < size && Filled(content, size, off, p.Length, p[..n])
    requires BlockIndexForOffset(off + n) <= BlockCount(|content|) && block == Chunk(content, BlockIndexForOffset(off + n))
    modifies p
    ensures n <= m <= p.Length && p[m..] == old(p[m..])
    ensures Filled(content, size, off, p.Length, p[..m])
    ensures if off + n >= |content| then m == n else m > n
    ensures m > n ==> BlockIndexForOffset(off + m - 1) == BlockIndexForOffset(off + n)
  {
    var idx := BlockIndexForOffset(off + n);
    var start := off + n - BlockByteOffset(idx);
    ghost var had := p[..n];
    BlockGives(content, size, off, p.Length, had, idx, block, start);
    if start >= |block| { return n; }
    var data := block[start..];
    var copied := CopyInto(p, n, data);
    assert p[..n + copied] == had + data[..copied];
    return n + copied;
  }

  /** copy: as much of data as fits p from n on. */
  method CopyInto(p: array<Byte>, n: nat, data: Bytes) returns (copied: nat)
    requires n <= p.Length
    modifies p
    ensures copied == Min(|data|, p.Length - n)
    ensures p[..n + copied] == old(p[..n]) + data[..copied]
    ensures p[n + copied..] == old(p[n + copied..])
  {
    copied := Min(|data|, p.Length - n);
    forall i | 0 <= i < copied {
      p[n + i] := data[i];
    }
  }
}
