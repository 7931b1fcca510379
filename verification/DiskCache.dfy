/**
 * The on-disk cache of decrypted blocks and directory listings: one byte budget, the size kept as a
 * running count, the oldest entries evicted first. Here each Put and PutListing is one step;
 * DiskCacheRaces says what happens when they are not.
 */
module DiskCache {
  import opened Wrappers
  import opened Blocks
  import opened Sums

  type LinkId = string
  type RevisionId = string

  /** A file under the cache directory; Temp is a write in progress. */
  datatype Path = Block(link: LinkId, rev: RevisionId, index: nat) | Listing(link: LinkId) | Temp(n: nat)

  datatype Entry = Entry(data: Bytes, mtime: int)

  type Files = map<Path, Entry>

  /** What a file counts towards the size: a temp file nothing until its rename. */
  function Weight(p: Path, e: Entry): int {
    if p.Temp? then 0 else |e.data|
  }

  ghost function Total(files: Files): int {
    SumOf(files, Weight)
  }

  // ----- the order of eviction -----

  /** order names every file that counts exactly once, the longest unused first. */
  ghost predicate OldestFirst(order: seq<Path>, files: Files) {
    && (forall p :: p in order <==> p in files && !p.Temp?)
    && (forall i, j :: 0 <= i < j < |order| ==> order[i] != order[j] && files[order[i]].mtime <= files[order[j]].mtime)
  }

  function Insert(files: Files, order: seq<Path>, p: Path): seq<Path>
    requires p in files && forall q <- order :: q in files
  {
    if order == [] then [p]
    else if files[p].mtime < files[order[0]].mtime then [p] + order
    else [order[0]] + Insert(files, order[1..], p)
  }

  ghost predicate Ordered(order: seq<Path>, files: Files) {
    && (forall q <- order :: q in files)
    && (forall i, j :: 0 <= i < j < |order| ==> order[i] != order[j] && files[order[i]].mtime <= files[order[j]].mtime)
  }

  lemma {:induction false} InsertKeepsOrder(files: Files, order: seq<Path>, p: Path)
    requires Ordered(order, files) && p in files && p !in order
    ensures Ordered(Insert(files, order, p), files)
    ensures forall q :: q in Insert(files, order, p) <==> q in order || q == p
  {
    if order != [] {
      if files[p].mtime >= files[order[0]].mtime {
        var rest := order[1..];
        assert Ordered(rest, files);
        InsertKeepsOrder(files, rest, p);
        var r := Insert(files, rest, p);
        forall q | q in r ensures order[0] != q && files[order[0]].mtime <= files[q].mtime {
          assert q != p ==> q in rest;
        }
      }
    }
  }

  /** The walk and the sort of evict. */
  method ByAge(files: Files) returns (order: seq<Path>)
    ensures OldestFirst(order, files)
  {
    var rest := files.Keys;
    order := [];
    while rest != {}
      invariant rest <= files.Keys
      invariant Ordered(order, files)
      invariant forall p :: p in order <==> p in files.Keys - rest && !p.Temp?
      decreases rest
    {
      var p :| p in rest;
      rest := rest - {p};
      if !p.Temp? {
        InsertKeepsOrder(files, order, p);
        order := Insert(files, order, p);
      }
    }
  }

  /** A file whose last use is later than every other's is the last to be evicted. */
  lemma LatestIsLast(order: seq<Path>, files: Files, p: Path)
    requires OldestFirst(order, files) && p in files && !p.Temp?
    requires forall q <- files :: q != p && !q.Temp? ==> files[q].mtime < files[p].mtime
    ensures order != [] && order[|order| - 1] == p
  {
    assert p in order;
  }

  /** The bytes freed by going through the first k files of order, when those in fails cannot be removed. */
  ghost function Freed(files: Files, order: seq<Path>, k: nat, fails: set<Path>): nat
    requires k <= |order| && forall p <- order :: p in files
  {
    if k == 0 then 0
    else Freed(files, order, k - 1, fails) + if order[k - 1] in fails then 0 else |files[order[k - 1]].data|
  }

  /** What is left then. */
  ghost function Without(files: Files, order: seq<Path>, k: nat, fails: set<Path>): Files
    requires k <= |order|
  {
    if k == 0 then files
    else if order[k - 1] in fails then Without(files, order, k - 1, fails)
    else Without(files, order, k - 1, fails) - {order[k - 1]}
  }

  lemma {:induction false} WithoutContents(files: Files, order: seq<Path>, k: nat, fails: set<Path>)
    requires k <= |order|
    ensures forall p :: p in Without(files, order, k, fails) <==> p in files && (p !in order[..k] || p in fails)
    ensures forall p <- Without(files, order, k, fails) :: Without(files, order, k, fails)[p] == files[p]
  {
    if k > 0 {
      WithoutContents(files, order, k - 1, fails);
      assert order[..k] == order[..k - 1] + [order[k - 1]];
    }
  }

  /** With every counted file gone nothing counts. */
  lemma AllGone(files: Files, order: seq<Path>)
    requires OldestFirst(order, files)
    ensures Total(Without(files, order, |order|, {})) == 0
  {
    WithoutContents(files, order, |order|, {});
    assert order[..|order|] == order;
    SumIsZero(Without(files, order, |order|, {}), Weight);
  }

  /** No fewer than k of the oldest files bring size within limit. */
  ghost predicate OverUntil(files: Files, order: seq<Path>, k: nat, fails: set<Path>, size: int, limit: int) {
    && k <= |order|
    && (forall p <- order :: p in files)
    && forall j :: 0 <= j < k ==> size - Freed(files, order, j, fails) > limit
  }

  /** k is the fewest of the oldest files that bring size within limit, or all of them when none do. */
  ghost predicate ShortestPrefix(files: Files, order: seq<Path>, k: nat, fails: set<Path>, size: int, limit: int) {
    && OldestFirst(order, files)
    && OverUntil(files, order, k, fails, size, limit)
    && (k == |order| || size - Freed(files, order, k, fails) <= limit)
  }

  /** How far evict has come: i files of order looked at, size over the limit before each. */
  ghost predicate Evicting(was: Files, order: seq<Path>, i: nat, fails: set<Path>, limit: int, left: Files, size: int) {
    && OldestFirst(order, was)
    && OverUntil(was, order, i, fails, Total(was), limit)
    && left == Without(was, order, i, fails)
    && size == Total(was) - Freed(was, order, i, fails)
  }

  lemma EvictingGoesOn(was: Files, order: seq<Path>, i: nat, fails: set<Path>, limit: int, left: Files, size: int)
    requires Evicting(was, order, i, fails, limit, left, size) && i < |order| && size > limit
    ensures order[i] in left && left[order[i]] == was[order[i]] && !order[i].Temp?
    ensures
      if order[i] in fails then Evicting(was, order, i + 1, fails, limit, left, size)
      else Evicting(was, order, i + 1, fails, limit, left - {order[i]}, size - |left[order[i]].data|)
  {
    WithoutContents(was, order, i, fails);
    assert order[i] !in order[..i];
  }

  /** When every removal works evict ends within the limit. */
  lemma EvictingEnds(was: Files, order: seq<Path>, i: nat, limit: int, left: Files, size: int)
    requires Evicting(was, order, i, {}, limit, left, size)
    requires size == Total(left) && limit > 0 && (i == |order| || size <= limit)
    ensures size <= limit && ShortestPrefix(was, order, i, {}, Total(was), limit)
  {
    AllGone(was, order);
  }

  /** Temp files, and files whose removal fails, stay; nothing left is changed. */
  lemma WithoutKeeps(files: Files, order: seq<Path>, k: nat, fails: set<Path>)
    requires OldestFirst(order, files) && k <= |order|
    ensures forall p <- files :: p.Temp? || p in fails ==> p in Without(files, order, k, fails)
    ensures forall p <- Without(files, order, k, fails) :: p in files && Without(files, order, k, fails)[p] == files[p]
  {
    WithoutContents(files, order, k, fails);
  }

  class BlockCache {
    const enabled: bool
    const limit: int
    var size: int
    var files: Files
    /** The bytes of the last write of each path that reached the disk. */
    ghost var written: map<Path, Bytes>

    /** OpenBlockCache over the files it finds: a cache with no limit to keep to is disabled. */
    constructor (limit: int, found: Files)
      ensures Valid() && this.limit == limit && files == found && (enabled <==> limit > 0)
      ensures forall p <- found :: p in written && written[p] == found[p].data
    {
      this.limit, enabled, files := limit, limit > 0, found;
      written := map p | p in found :: found[p].data;
      new;
      SumIsNat(found, Weight);
      var rest, sum := found.Keys, 0;
      var seen: Files := map[];
      while rest != {}
        invariant rest <= found.Keys && this.files == found && this.limit == limit && (this.enabled <==> limit > 0)
        invariant written == map p | p in found :: found[p].data
        invariant seen == found - rest && sum == Total(seen)
        decreases rest
      {
        var p :| p in rest;
        SumWith(seen, Weight, p, found[p]);
        rest := rest - {p};
        if !p.Temp? { sum := sum + |found[p].data|; }
        assert found - rest == seen[p := found[p]];
        seen := seen[p := found[p]];
      }
      assert found - {} == found;
      size := sum;
    }

    /** The size is the total of the files that count, and each file is the last write of it. */
    ghost predicate Valid()
      reads this
    {
      && (enabled <==> limit > 0)
      && size == Total(files)
      && (forall p <- files :: p in written && written[p] == files[p].data)
    }

    /**
     * Get, GetListing: the last bytes written under the path, or a miss. fails: the file cannot be read;
     * touched: its time can be set, which makes it the latest used.
     */
    method Read(p: Path, now: int, fails: bool, touched: bool) returns (r: Option<Bytes>)
      requires Valid()
      modifies this`files
      ensures Valid()
      ensures r.Some? <==> enabled && p in old(files) && !fails
      ensures r.Some? ==> p in written && r.value == written[p]
      ensures files == if r.Some? && touched then old(files)[p := Entry(r.value, now)] else old(files)
    {
      if !enabled { return None; }
      if p !in files || fails { return None; }
      r := Some(files[p].data);
      if touched {
        SumWith(files, Weight, p, files[p].(mtime := now));
        files := files[p := files[p].(mtime := now)];
      }
    }

    /**
     * Put and PutListing: the file replaced and the size moved by the difference, then eviction. A
     * write that fails leaves everything as it was; undeletable are the files that cannot be removed.
     */
    method Put(p: Path, data: Bytes, now: int, fails: bool, undeletable: set<Path>)
      returns (ok: bool, ghost order: seq<Path>, ghost k: nat)
      requires Valid() && !p.Temp?
      modifies this`files, this`size, this`written
      ensures Valid()
      ensures ok <==> enabled && !fails
      ensures !ok ==> files == old(files) && size == old(size) && written == old(written)
      ensures ok ==> written == old(written)[p := data]
      ensures ok ==> Evicted(old(files)[p := Entry(data, now)], order, k, undeletable)
    {
      ok, order, k := false, [], 0;
      if !enabled { return; }
      if fails { return; }
      var oldSize := if p in files then |files[p].data| else 0;
      SumWith(files, Weight, p, Entry(data, now));
      files := files[p := Entry(data, now)];
      written := written[p := data];
      size := size + |data| - oldSize;
      ok := true;
      order, k := Evict(undeletable);
    }

    /**
     * What evict leaves of the files was: all of them within the limit, else what is left of the shortest run
     * of the oldest files that gets there. With every file removable it does get there.
     */
    ghost predicate Evicted(was: Files, order: seq<Path>, k: nat, undeletable: set<Path>)
      reads this
    {
      if Total(was) <= limit then files == was
      else
        && ShortestPrefix(was, order, k, undeletable, Total(was), limit)
        && files == Without(was, order, k, undeletable)
        && (undeletable == {} ==> size <= limit)
    }

    /** evict: the oldest files go, blocks and listings alike, until the size is within the limit. */
    method Evict(undeletable: set<Path>) returns (ghost order: seq<Path>, ghost k: nat)
      requires Valid() && enabled
      modifies this`files, this`size
      ensures Valid()
      ensures Evicted(old(files), order, k, undeletable)
    {
      order, k := [], 0;
      if size <= limit { return; }
      var entries := ByAge(files);
      order := entries;
      var i := 0;
      while i < |entries| && size > limit
        invariant Valid() && i <= |entries| && Evicting(old(files), entries, i, undeletable, limit, files, size)
      {
        EvictingGoesOn(old(files), entries, i, undeletable, limit, files, size);
        var _ := Remove(entries[i], entries[i] in undeletable);
        i := i + 1;
      }
      k := i;
      if undeletable == {} {
        EvictingEnds(old(files), entries, i, limit, files, size);
      }
    }

    /** One file of evict's walk: gone and its bytes taken off the size, or, when the removal fails, still there. */
    method Remove(p: Path, fails: bool) returns (ok: bool)
      requires Valid() && p in files && !p.Temp?
      modifies this`files, this`size
      ensures Valid()
      ensures ok <==> !fails
      ensures ok ==> files == old(files) - {p} && size == old(size) - |old(files)[p].data|
      ensures !ok ==> files == old(files) && size == old(size)
    {
      if fails { return false; }
      SumWithout(files, Weight, p);
      size := size - |files[p].data|;
      files := files - {p};
      return true;
    }
  }
}
