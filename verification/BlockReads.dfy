/**
 * What a read of a file in blocks gives, as a function of its range and of the blocks it cannot get:
 * how many bytes, and whether it says EOF, reports the failure, or neither.
 */
module BlockReads {
  import opened Wrappers
  import opened Blocks

  /** downloadInto's buffer. */
  const DOWNLOAD_BUFFER: nat := 262144

  datatype ReadError = NoError | Eof | Failed

  /** Where reads of a file of total bytes end when it says it has size: blocks are copied whole. */
  function Reach(total: nat, size: nat): nat {
    Min(total, BlockCount(size) * BLOCK_SIZE)
  }

  /** How many bytes a read of len bytes at off can give. */
  function Available(total: nat, size: nat, off: nat, len: nat): nat {
    if off >= size || off >= total then 0 else Min(len, Reach(total, size) - off)
  }

  /** The last block a read needs, when it can give anything. */
  function LastNeeded(total: nat, size: nat, off: nat, len: nat): nat {
    var n := Available(total, size, off, len);
    if n == 0 then 0 else BlockIndexForOffset(off + n - 1)
  }

  /** The read needs block idx. */
  predicate Needs(total: nat, size: nat, off: nat, len: nat, idx: nat) {
    && Available(total, size, off, len) > 0
    && BlockIndexForOffset(off) <= idx <= LastNeeded(total, size, off, len)
  }

  /** The first block from first to last that is in down, or the one after last. */
  function FirstDown(first: nat, last: nat, down: set<nat>): (j: nat)
    ensures first <= last + 1 ==> first <= j <= last + 1
    ensures first <= j <= last ==> j in down
    ensures forall i :: first <= i < j ==> i !in down
    decreases last + 1 - first
  {
    if first > last || first in down then first else FirstDown(first + 1, last, down)
  }

  /** The read's byte count and error, when it cannot get the blocks in down. */
  function ReadResult(total: nat, size: nat, off: nat, len: nat, down: set<nat>): (nat, ReadError) {
    var first := BlockIndexForOffset(off);
    if off >= size then (0, Eof)
    else if len == 0 then (0, NoError)
    else if off >= total then (0, if first in down || first > BlockCount(total) then Failed else Eof)
    else
      var n := Available(total, size, off, len);
      var last := LastNeeded(total, size, off, len);
      var j := FirstDown(first, last, down);
      if j == first then (0, Failed)
      else if j <= last then (BlockByteOffset(j) - off, Eof)
      else (n, if n < len then Eof else NoError)
  }

  lemma NeededBlocks(total: nat, size: nat, off: nat, len: nat)
    requires off < size && off < total && len > 0
    ensures var n := Available(total, size, off, len);
      && 0 < n && off + n <= Reach(total, size)
      && LastNeeded(total, size, off, len) <= BlockCount(total)
      && BlockIndexForOffset(off) <= LastNeeded(total, size, off, len)
  {
  }

  // ----- EOF in the middle of a file -----

  /** The read says EOF short of the bytes there are. */
  predicate EarlyEof(total: nat, size: nat, off: nat, len: nat, down: set<nat>) {
    var (n, err) := ReadResult(total, size, off, len, down);
    err == Eof && n < Available(total, size, off, len)
  }

  /** A read says EOF early exactly when it can get the first block it needs and cannot get a later one. */
  lemma EarlyEofIffLaterBlockFails(total: nat, size: nat, off: nat, len: nat, down: set<nat>)
    ensures EarlyEof(total, size, off, len, down) <==>
      && BlockIndexForOffset(off) !in down
      && exists idx <- down :: idx > BlockIndexForOffset(off) && Needs(total, size, off, len, idx)
  {
    if off < size && off < total && len > 0 {
      NeededBlocks(total, size, off, len);
      var first, last := BlockIndexForOffset(off), LastNeeded(total, size, off, len);
      var j := FirstDown(first, last, down);
      if first < j <= last {
        BlockStartsInRange(total, size, off, len, j);
        assert Needs(total, size, off, len, j);
      }
    }
  }

  lemma BlockStartsInRange(total: nat, size: nat, off: nat, len: nat, idx: nat)
    requires off < size && off < total && len > 0
    requires Needs(total, size, off, len, idx) && idx > BlockIndexForOffset(off)
    ensures off < BlockByteOffset(idx) < off + Available(total, size, off, len)
  {
  }

  /** It then gives exactly the bytes before the first block it cannot get. */
  lemma EarlyEofGivesBytesBefore(total: nat, size: nat, off: nat, len: nat, down: set<nat>, idx: nat)
    requires Needs(total, size, off, len, idx) && idx in down && idx > BlockIndexForOffset(off)
    requires forall i :: BlockIndexForOffset(off) <= i < idx ==> i !in down
    ensures ReadResult(total, size, off, len, down) == (BlockByteOffset(idx) - off, Eof)
  {
    var first, last := BlockIndexForOffset(off), LastNeeded(total, size, off, len);
    assert FirstDown(first, last, down) == idx;
  }

  /** No failure can make a read say EOF early exactly when what it can give lies in one block. */
  lemma NeverEarlyIffOneBlock(total: nat, size: nat, off: nat, len: nat)
    ensures (forall down :: !EarlyEof(total, size, off, len, down)) <==>
      (Available(total, size, off, len) > 0 ==> LastNeeded(total, size, off, len) == BlockIndexForOffset(off))
  {
    var first, last := BlockIndexForOffset(off), LastNeeded(total, size, off, len);
    forall down ensures EarlyEof(total, size, off, len, down) ==> Available(total, size, off, len) > 0 && last != first {
      EarlyEofIffLaterBlockFails(total, size, off, len, down);
    }
    if Available(total, size, off, len) > 0 && last != first {
      NeededBlocks(total, size, off, len);
      EarlyEofIffLaterBlockFails(total, size, off, len, {last});
      assert Needs(total, size, off, len, last);
      assert EarlyEof(total, size, off, len, {last});
    }
  }

  /** A read reports a failure exactly when it cannot get its first block, or needs one the file does not have. */
  lemma FailureIsReportedIff(total: nat, size: nat, off: nat, len: nat, down: set<nat>)
    ensures ReadResult(total, size, off, len, down).1 == Failed <==>
      off < size && len > 0 && (BlockIndexForOffset(off) in down || BlockIndexForOffset(off) > BlockCount(total))
  {
    if off < size && off < total && len > 0 {
      NeededBlocks(total, size, off, len);
    }
  }

  /** With nothing to keep it from its blocks a read gives all there is, and EOF iff that is less than asked. */
  lemma UndisturbedRead(total: nat, size: nat, off: nat, len: nat)
    requires len > 0 && size >= total
    ensures ReadResult(total, total, off, len, {}) ==
      var n := if off < total then Min(len, total - off) else 0; (n, if n < len then Eof else NoError)
    ensures off < total ==> ReadResult(total, size, off, len, {}) == ReadResult(total, total, off, len, {})
  {
    if off < total {
      NeededBlocks(total, size, off, len);
      NeededBlocks(total, total, off, len);
    }
  }

  /** A size too small is read past exactly when it does not fall on a block boundary. */
  lemma ReadsPastSizeIff(total: nat, size: nat)
    requires 0 < size
    ensures (exists off: nat, len: nat :: off + ReadResult(total, size, off, len, {}).0 > size && off < size) <==>
      size < total && size % BLOCK_SIZE != 0
  {
    if size < total && size % BLOCK_SIZE != 0 {
      var off, len := size - 1, 2;
      NeededBlocks(total, size, off, len);
      assert off + ReadResult(total, size, off, len, {}).0 > size;
    }
    forall off: nat, len: nat | off < size && off + ReadResult(total, size, off, len, {}).0 > size
      ensures size < total && size % BLOCK_SIZE != 0
    {
      assert ReadResult(total, size, off, len, {}).0 <= Available(total, size, off, len);
    }
  }

  /** A read across a block boundary whose second block fails: EOF with the first block's bytes, short of the file's end. */
  lemma FailureCanPassForTheEnd(total: nat, len: nat)
    requires total > BLOCK_SIZE && len > BLOCK_SIZE
    ensures ReadResult(total, total, 0, len, {2}) == (BLOCK_SIZE, Eof)
    ensures EarlyEof(total, total, 0, len, {2})
  {
    NeededBlocks(total, total, 0, len);
    EarlyEofGivesBytesBefore(total, total, 0, len, {2}, 2);
  }

  // ----- copying a whole file -----

  /** How many bytes a copy of the file takes: whole buffers until size is reached. */
  function Copied(total: nat, size: nat): nat {
    Min(total, (size + DOWNLOAD_BUFFER - 1) / DOWNLOAD_BUFFER * DOWNLOAD_BUFFER)
  }

  /** downloadInto's buffer divides a block, so none of its reads needs two. */
  lemma DownloadReadsStayInOneBlock(total: nat, size: nat, off: nat, down: set<nat>)
    requires off % DOWNLOAD_BUFFER == 0
    ensures !EarlyEof(total, size, off, DOWNLOAD_BUFFER, down)
  {
    if Available(total, size, off, DOWNLOAD_BUFFER) > 0 {
      NeededBlocks(total, size, off, DOWNLOAD_BUFFER);
      BufferInOneBlock(off, Available(total, size, off, DOWNLOAD_BUFFER));
    }
    NeverEarlyIffOneBlock(total, size, off, DOWNLOAD_BUFFER);
  }

  lemma BufferInOneBlock(off: nat, n: nat)
    requires off % DOWNLOAD_BUFFER == 0 && 0 < n <= DOWNLOAD_BUFFER
    ensures BlockIndexForOffset(off + n - 1) == BlockIndexForOffset(off)
  {
  }

  /** One read of the copy: a whole buffer and more to come, or the end, or the failure. */
  lemma DownloadRead(total: nat, size: nat, off: nat, down: set<nat>)
    requires off % DOWNLOAD_BUFFER == 0 && off <= Copied(total, size)
    ensures var (n, err) := ReadResult(total, size, off, DOWNLOAD_BUFFER, down);
      && (err == NoError ==> n == DOWNLOAD_BUFFER && off + n <= Copied(total, size))
      && (err == Eof ==> off + n == Copied(total, size) && n < DOWNLOAD_BUFFER)
      && (err == Failed ==> n == 0)
  {
    DownloadReadsStayInOneBlock(total, size, off, down);
    if off < size && off < total {
      NeededBlocks(total, size, off, DOWNLOAD_BUFFER);
      CopiedFrom(total, size, off);
    }
  }

  /** Read i of the copy works: it can get its block, and what it gave can be written. */
  predicate ReadWorks(total: nat, size: nat, i: nat, down: nat -> set<nat>, full: nat -> bool) {
    var (n, err) := ReadResult(total, size, i * DOWNLOAD_BUFFER, DOWNLOAD_BUFFER, down(i));
    err != Failed && (n > 0 ==> !full(i))
  }

  /** The i-th read of the copy, and whether it works. */
  lemma BufferRead(total: nat, size: nat, i: nat, down: nat -> set<nat>, full: nat -> bool)
    requires i * DOWNLOAD_BUFFER <= Copied(total, size)
    ensures var off := i * DOWNLOAD_BUFFER;
      var (n, err) := ReadResult(total, size, off, DOWNLOAD_BUFFER, down(i));
      && off <= total && off + n <= Copied(total, size)
      && (err == NoError ==> n == DOWNLOAD_BUFFER)
      && (err == Eof ==> off + n == Copied(total, size) && n < DOWNLOAD_BUFFER)
      && (err == Failed ==> n == 0)
      && (ReadWorks(total, size, i, down, full) <==> err != Failed && (n > 0 ==> !full(i)))
  {
    BufferStarts(i);
    DownloadRead(total, size, i * DOWNLOAD_BUFFER, down(i));
  }

  lemma BufferStarts(i: nat)
    ensures i * DOWNLOAD_BUFFER % DOWNLOAD_BUFFER == 0
  {
  }

  lemma CopiedAll(total: nat, size: nat)
    ensures Copied(total, size) <= total && (size >= total ==> Copied(total, size) == total)
  {
  }

  lemma ReadsSoFar(total: nat, i: nat)
    requires i * DOWNLOAD_BUFFER <= total
    ensures i <= total / DOWNLOAD_BUFFER
  {
  }

  lemma LastReadIs(total: nat, i: nat, n: nat)
    requires i * DOWNLOAD_BUFFER + n == total && n < DOWNLOAD_BUFFER
    ensures i == total / DOWNLOAD_BUFFER
  {
  }

  lemma CopiedFrom(total: nat, size: nat, off: nat)
    requires off % DOWNLOAD_BUFFER == 0 && off < size && off < total
    ensures Available(total, size, off, DOWNLOAD_BUFFER) == Min(DOWNLOAD_BUFFER, total - off)
    ensures if total - off < DOWNLOAD_BUFFER then Copied(total, size) == total else off + DOWNLOAD_BUFFER <= Copied(total, size)
  {
    BufferInOneBlock(off, DOWNLOAD_BUFFER);
  }
}
