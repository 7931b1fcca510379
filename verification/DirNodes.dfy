/**
 * Directories as the objects they are: upsertChild, removeChild, publish, finishLoad, the coalesced
 * write of the listing to disk, the mount's flush of all of them, and moveLink over one directory or
 * two, one handler at a time. ListingProtocol interleaves the same changes; here each method is held
 * to the function that states it there.
 */
module DirNodes {
  import opened Wrappers
  import opened Listings
  import opened ListingProtocol
  import opened ListingSafety
  import opened ListingTheorems

  /** Why a move failed. */
  datatype Errno = EIO | ETIMEDOUT

  class Done {
    const id: Chan
    var closed: bool

    constructor (id: Chan)
      ensures this.id == id && !closed
    {
      this.id, closed := id, false;
    }

    method Close()
      requires !closed
      modifies this
      ensures closed
    {
      closed := true;
    }
  }

  class MountState {
    var dirtyListings: set<DirNode>
    ghost var dirs: set<DirNode>

    constructor ()
      ensures Valid() && dirtyListings == {} && dirs == {}
    {
      dirtyListings, dirs := {}, {};
    }

    /** A directory registered, with the disk copy an earlier mount left, if any. */
    method AddDir(disk: Option<Listing>) returns (d: DirNode)
      requires Valid()
      modifies this`dirs
      ensures Valid() && fresh(d) && dirs == old(dirs) + {d}
      ensures d.st == this && d.disk == disk && d.children.None? && d.loading == null
    {
      d := new DirNode(this, disk);
      dirs := dirs + {d};
    }

    ghost predicate Valid()
      reads this, dirs
    {
      && dirtyListings <= dirs
      && forall d <- dirs :: d.st == this && d.Valid()
    }

    /** flushListings: every directory with a write waiting has its listing on disk afterwards. */
    method FlushListings()
      requires Valid()
      modifies this, dirs
      ensures Valid() && dirs == old(dirs) && dirtyListings == {}
      ensures forall d <- dirs :: if d in old(dirtyListings) then d.Flushed(old(d.dir)) else unchanged(d)
    {
      var rest := dirtyListings;
      while rest != {}
        invariant Valid() && dirs == old(dirs)
        invariant dirtyListings == rest <= old(dirtyListings)
        invariant forall d <- dirs :: if d in old(dirtyListings) - rest then d.Flushed(old(d.dir)) else unchanged(d)
        decreases rest
      {
        var d :| d in rest;
        rest := rest - {d};
        d.FlushListing();
      }
    }
  }

  /** Patches landed one after another, each arming the write. */
  ghost function LandedAll(d: Dir, patches: seq<Patch>): Dir
    decreases |patches|
  {
    if patches == [] then d else LandedAll(Landed(d, patches[0]).(timer := true), patches[1..])
  }

  lemma {:induction false} GenGrows(d: Dir, patches: seq<Patch>)
    ensures LandedAll(d, patches).gen == d.gen + |patches|
    decreases |patches|
  {
    if patches != [] {
      GenGrows(Landed(d, patches[0]).(timer := true), patches[1..]);
    }
  }

  class DirNode {
    const st: MountState
    var children: Option<Listing>
    var upToDate: bool
    var gen: nat
    var loading: Done?
    /** loadErrno says the last fetch failed. */
    var failed: bool
    var timer: bool
    var persistedGen: nat
    var disk: Option<Listing>
    /** What d.mu guards, as ListingProtocol has it. */
    ghost var dir: Dir
    /** Writes to the disk succeed now. */
    var works: bool
    /** The disk side as ListingProtocol has it, between two flushes. */
    ghost var store: Store

    constructor (st: MountState, disk: Option<Listing>)
      ensures this.st == st && this.disk == disk && children.None? && loading == null
      ensures dir == Start(disk).dir && store == Start(disk).store
      ensures Sound() && !timer
    {
      this.st, children, upToDate, gen, loading, failed, timer := st, None, false, 0, null, false, false;
      persistedGen, this.disk, works := 0, disk, true;
      dir, store := Start(disk).dir, Start(disk).store;
      StartIsInv(disk);
    }

    ghost function Listing(): Listing
      reads this
    {
      if children.Some? then children.value else []
    }

    /** The fields but the listing are what ListingProtocol has, which is in order. */
    ghost predicate Kept()
      reads this
    {
      && DirOk(dir) && StoreOk(dir, store)
      && dir.upToDate == upToDate && dir.gen == gen && dir.timer == timer && dir.failed == failed
      && dir.loading == (if loading == null then None else Some(loading.id))
      && store.persistedGen == persistedGen && store.disk == disk && store.works == works
      && store.flush.Idle? && store.tracked == timer && store.unscheduled == 0
    }

    /** The listing is its base with its patches, and so is the disk copy. */
    ghost predicate Sound()
      reads this
    {
      Kept() && dir.children == children
    }

    /** And dirtyListings holds the directory exactly while its timer is armed. */
    ghost predicate Valid()
      reads this, st
    {
      Sound() && (this in st.dirtyListings <==> timer)
    }

    /** The disk copy is the listing in memory, at its generation. */
    ghost predicate OnDisk()
      reads this
    {
      disk == Some(Listing()) && persistedGen == gen
    }

    /** A flush of the directory while it was v put its listing on disk if that takes it, and changed nothing else. */
    ghost predicate Flushed(v: Dir)
      reads this
    {
      dir == v.(timer := false) && persistedGen == gen && (works ==> OnDisk())
    }

    /** cacheListing: the disk copy replaced, or left as it is when the write fails. */
    method Write(listing: Listing, ghost from: Base, gen: nat)
      modifies this`persistedGen, this`disk, this`store
      requires store.works == works
      ensures store == Written(old(store), listing, from, gen)
      ensures persistedGen == gen && disk == if works then Some(listing) else old(disk)
    {
      persistedGen := gen;
      if works { disk := Some(listing); }
      store := Written(store, listing, from, gen);
    }

    // ----- patches -----

    method SchedulePersist()
      modifies this`timer, this`dir, this`store, st`dirtyListings
      ensures timer && dir == old(dir).(timer := true) && store == old(store).(tracked := true)
      ensures st.dirtyListings == if old(timer) then old(st.dirtyListings) else old(st.dirtyListings) + {this}
    {
      dir, store := dir.(timer := true), store.(tracked := true);
      if timer { return; }
      timer := true;
      st.dirtyListings := st.dirtyListings + {this};
    }

    /** The rest of a patch, once the listing has it. */
    method NotePatch(ghost patch: Patch)
      requires Kept() && (this in st.dirtyListings <==> timer) && children == Landed(dir, patch).children
      modifies this`gen, this`dir, this`timer, this`store, st`dirtyListings
      ensures Valid()
      ensures dir == Landed(old(dir), patch).(timer := true)
      ensures st.dirtyListings == old(st.dirtyListings) + {this}
    {
      PatchKeepsSound(dir, store, patch);
      gen := gen + 1;
      dir := Landed(dir, patch);
      SchedulePersist();
    }

    /** upsertNode on the cached listing, which starts out empty when nothing is loaded. */
    method PutEntry(n: Entry)
      modifies this`children
      ensures children == Some(Upsert(old(Listing()), n))
    {
      var l := UpsertNode(if children.Some? then children.value else [], n);
      children := Some(l);
    }

    method UpsertChild(n: Entry)
      requires Valid()
      modifies this`children, this`gen, this`dir, this`timer, this`store, st`dirtyListings
      ensures Valid()
      ensures dir == Landed(old(dir), Put(n)).(timer := true)
      ensures children == Some(Upsert(old(Listing()), n))
      ensures st.dirtyListings == old(st.dirtyListings) + {this}
    {
      PutEntry(n);
      NotePatch(Put(n));
    }

    /** removeNode on the cached listing, which stays nil when nothing is loaded. */
    method DropEntry(name: Name) returns (removed: Option<Entry>)
      modifies this`children
      ensures children == if old(children.Some?) then Some(Remove(old(children.value), name)) else None
      ensures removed.Some? <==> old(exists e <- Listing() :: e.name == name)
      ensures removed.Some? ==> removed.value in old(Listing()) && removed.value.name == name
    {
      if children.None? { return None; }
      var l;
      removed, l := RemoveNode(children.value, name);
      children := Some(l);
    }

    method RemoveChild(name: Name) returns (removed: Option<Entry>)
      requires Valid()
      modifies this`children, this`gen, this`dir, this`timer, this`store, st`dirtyListings
      ensures Valid()
      ensures dir == Landed(old(dir), Cut(name, false)).(timer := true)
      ensures children == if old(children.Some?) then Some(Remove(old(children.value), name)) else None
      ensures removed.Some? <==> old(exists e <- Listing() :: e.name == name)
      ensures removed.Some? ==> removed.value in old(Listing()) && removed.value.name == name
      ensures st.dirtyListings == old(st.dirtyListings) + {this}
    {
      removed := DropEntry(name);
      NotePatch(Cut(name, false));
    }

    // ----- loading -----

    /** beginLoad: a listing still fresh, or the fetch this caller owns, or the one to wait for. */
    method BeginLoad(next: Chan) returns (cached: Option<Listing>, done: Done?, wait: Done?)
      requires Valid()
      modifies this`loading, this`dir
      ensures Valid()
      ensures cached.Some? <==> children.Some? && upToDate
      ensures cached.Some? ==> cached == children && done == null && wait == null && loading == old(loading)
      ensures cached.None? && old(loading) != null ==> done == null && wait == old(loading) == loading
      ensures cached.None? && old(loading) == null ==> done != null && wait == null && loading == done && fresh(done) && !done.closed
      ensures done != null ==> done.id == next
    {
      if children.Some? && upToDate { return children, null, null; }
      if loading != null { return None, null, loading; }
      done := new Done(next);
      loading := done;
      dir := dir.(loading := Some(next));
      return None, done, null;
    }

    method Publish(result: Option<Listing>, done: Done, startGen: nat)
      requires Valid() && startGen <= gen && loading == done && !done.closed
      modifies this`children, this`upToDate, this`loading, this`dir, done
      ensures Valid() && done.closed
      ensures dir == ListingProtocol.Publish(old(dir), done.id, result, startGen)
    {
      PublishKeepsDir(dir, done.id, result, startGen);
      loading := null;
      if result.Some? && ShouldPublish(children.Some?, startGen, gen) {
        children := result;
      }
      upToDate := true;
      dir := ListingProtocol.Publish(dir, done.id, result, startGen);
      done.Close();
    }

    /** persistListing of what the fetch done was for came back with. */
    method PersistListing(done: Done, listing: Listing, startGen: nat)
      requires Valid() && startGen <= gen
      modifies this`persistedGen, this`disk, this`store
      ensures Valid()
      ensures store == Persisted(old(store), done.id, listing, startGen)
    {
      PersistedKeepsStore(dir, store, done.id, listing, startGen);
      if startGen < persistedGen { return; }
      Write(listing, Base(Fetched(done.id), listing, startGen), startGen);
    }

    /** Handlers' patches that land while a fetch runs. */
    method LandMeanwhile(patches: seq<Patch>)
      requires Valid()
      modifies this`children, this`gen, this`dir, this`timer, this`store, st`dirtyListings
      ensures Valid()
      ensures dir == LandedAll(old(dir), patches)
    {
      var i := 0;
      while i < |patches|
        invariant 0 <= i <= |patches|
        invariant Valid()
        invariant LandedAll(dir, patches[i..]) == LandedAll(old(dir), patches)
        decreases |patches| - i
      {
        assert patches[i..][1..] == patches[i + 1..];
        match patches[i] {
          case Put(e) => UpsertChild(e);
          case Cut(name, _) => var _ := RemoveChild(name);
        }
        i := i + 1;
      }
      assert patches[i..] == [];
    }

    /**
     * finishLoad, with what the network answers and the patches that land meanwhile: everyone waiting is
     * woken, the listing is publish's, and a success is written at the generation the fetch began at.
     */
    method FinishLoad(done: Done, answer: Option<Listing>, patches: seq<Patch>)
      requires Valid() && loading == done && !done.closed
      modifies this, done, st`dirtyListings
      ensures Valid() && done.closed && loading == null
      ensures dir == ListingProtocol.Publish(LandedAll(old(dir), patches).(failed := answer.None?), done.id, answer, old(gen))
      ensures answer.None? ==> persistedGen == old(persistedGen) && disk == old(disk)
      ensures answer.Some? ==> persistedGen == old(gen) && disk == if works then answer else old(disk)
      ensures answer.Some? && patches == [] ==> children == answer
      ensures works == old(works)
    {
      var startGen := gen;
      GenGrows(dir, patches);
      LandMeanwhile(patches);
      failed, dir := answer.None?, dir.(failed := answer.None?);
      Publish(answer, done, startGen);
      if answer.Some? {
        PersistListing(done, answer.value, startGen);
      }
    }

    // ----- the coalesced write -----

    method FlushListing()
      requires Valid()
      modifies this`timer, this`dir, this`persistedGen, this`disk, this`store, st`dirtyListings
      ensures Valid()
      ensures dir == old(dir).(timer := false)
      ensures !old(timer) ==> store == old(store)
      ensures old(timer) ==> Flushed(old(dir)) && (!works ==> disk == old(disk))
      ensures works == old(works)
      ensures st.dirtyListings == old(st.dirtyListings) - {this}
    {
      if !timer { return; }
      FlushKeepsSound(dir, store);
      timer := false;
      if gen >= persistedGen {
        Write(if children.Some? then children.value else [], if children.Some? then dir.base else Base(FromNothing, [], gen), gen);
      }
      dir, store := dir.(timer := false), store.(tracked := false);
      st.dirtyListings := st.dirtyListings - {this};
    }

    method DiscardListing()
      requires Valid()
      modifies this`timer, this`dir, this`store, st`dirtyListings
      ensures Valid()
      ensures dir == old(dir).(timer := false) && disk == old(disk)
      ensures st.dirtyListings == old(st.dirtyListings) - {this}
    {
      if !timer { return; }
      timer := false;
      dir, store := dir.(timer := false), store.(tracked := false, discarded := true);
      st.dirtyListings := st.dirtyListings - {this};
    }

    // ----- moveLink -----

    /** The two patches of a move that went through, in their order. */
    method PatchMove(name: Name, newDir: DirNode, moved: Entry)
      requires Valid() && newDir.Valid() && newDir.st == st
      modifies this, newDir, st`dirtyListings
      ensures Valid() && newDir.Valid()
      ensures newDir == this ==> children == Some(Upsert(Listed(Dropped(old(children), name)), moved))
      ensures newDir != this ==> children == Dropped(old(children), name)
      ensures newDir != this ==> newDir.children == Some(Upsert(Listed(old(newDir.children)), moved))
    {
      var _ := RemoveChild(name);
      newDir.UpsertChild(moved);
    }

    /**
     * moveLink: target, listed as name here, goes to newName in newDir, which may be this directory. found
     * is what the lookup of newName came back with. What it found is trashed first, unless it is target
     * itself; asked is the link the drive was asked to trash. A failed trash changes nothing, a failed move
     * leaves only the trashed destination gone.
     */
    method MoveLink(target: Entry, name: Name, newDir: DirNode, newName: Name,
                    found: Lookup, trashed: bool, moved: Option<Entry>, timedOut: bool)
      returns (r: Result<Entry, Errno>, asked: Option<LinkId>)
      requires Valid() && newDir.Valid() && newDir.st == st
      requires moved.Some? ==> moved.value.link == target.link && moved.value.name == newName
      modifies this, newDir, st`dirtyListings
      ensures Valid() && newDir.Valid()
      ensures asked == if found.Found? && found.e.link != target.link then Some(found.e.link) else None
      ensures r.Ok? <==> (asked.Some? ==> trashed) && moved.Some?
      ensures r.Ok? ==> r.value == moved.value
      ensures r.Err? ==> r.error == if timedOut && (asked.Some? ==> trashed) then ETIMEDOUT else EIO
      ensures r.Err? && (asked.None? || !trashed) ==>
        dir == old(dir) && newDir.dir == old(newDir.dir) && st.dirtyListings == old(st.dirtyListings)
      ensures r.Err? && asked.Some? && trashed ==>
        && newDir.dir == Landed(old(newDir.dir), Cut(newName, false)).(timer := true)
        && (newDir != this ==> dir == old(dir))
      ensures r.Ok? ==>
        (children, newDir.children) == Moved(newDir == this, old(children), old(newDir.children), found, name, moved.value)
      ensures r.Ok? && old(Distinct(Listing()) && Distinct(newDir.Listing()) && Answers(found, newDir.Listing(), newName)) ==>
        && Distinct(Listing())
        && Distinct(newDir.Listing())
        && ListsOnce(newDir.Listing(), newName, target.link)
        && (newDir != this || name != newName ==> !Lists(Listing(), name))
    {
      asked := None;
      if found.Found? && found.e.link != target.link {
        asked := Some(found.e.link);
        if !trashed { return Err(EIO), asked; }
        var _ := newDir.RemoveChild(newName);
      }
      if moved.None? {
        return Err(if timedOut then ETIMEDOUT else EIO), asked;
      }
      PatchMove(name, newDir, moved.value);
      MovedKeepsListings(newDir == this, old(children), old(newDir.children), found, name, moved.value);
      return Ok(moved.value), asked;
    }
  }

  /** The disk side after a flush of a waiting write with nothing between its regions. */
  function Flushed(d: Dir, st: Store): Store {
    FlushedTo(st.(flush := Taken(d.children, d.base, d.gen))).(flush := Idle, tracked := false)
  }

  lemma FlushKeepsSound(d: Dir, st: Store)
    requires DirOk(d) && StoreOk(d, st) && d.timer && st.flush.Idle?
    ensures DirOk(d.(timer := false)) && StoreOk(d.(timer := false), Flushed(d, st))
    ensures d.gen >= st.persistedGen
    ensures Flushed(d, st) ==
      Written(st, Listed(d.children), if d.children.Some? then d.base else Base(FromNothing, [], d.gen), d.gen).(tracked := false)
  {
    var taken := WriteStep(d, st, FlushStart).value;
    FlushStartKeepsStore(d, st);
    FlushedKeepsStore(taken.0, taken.1);
  }

  lemma PatchKeepsSound(d: Dir, st: Store, p: Patch)
    requires DirOk(d) && StoreOk(d, st)
    ensures var d' := Landed(d, p).(timer := true); DirOk(d') && StoreOk(d', st.(tracked := true))
  {
    LandedKeepsDir(d, p);
    LandedKeepsStore(d, st, p);
  }

  function Listed(l: Option<Listing>): Listing {
    if l.Some? then l.value else []
  }

  function Dropped(l: Option<Listing>, name: Name): Option<Listing> {
    if l.Some? then Some(Remove(l.value, name)) else None
  }

  /** The destination's listing once what stood under the new name has been trashed. */
  function Cleared(found: Lookup, target: LinkId, l: Option<Listing>, name: Name): Option<Listing> {
    if Trashes(found, target) then Dropped(l, name) else l
  }

  /** Both directories' listings after a move that went through; within: they are the same directory. */
  function Moved(within: bool, from: Option<Listing>, to: Option<Listing>, found: Lookup, name: Name, moved: Entry)
    : (Option<Listing>, Option<Listing>)
  {
    var cleared := Cleared(found, moved.link, to, moved.name);
    if within then
      var after := Some(Upsert(Listed(Dropped(cleared, name)), moved));
      (after, after)
    else
      (Dropped(from, name), Some(Upsert(Listed(cleared), moved)))
  }

  /** What moveLink leaves when the lookup answered and neither listing had duplicates, over one directory or two. */
  lemma MovedKeepsListings(within: bool, from: Option<Listing>, to: Option<Listing>, found: Lookup, name: Name, moved: Entry)
    requires within ==> from == to
    ensures var (from', to') := Moved(within, from, to, found, name, moved);
      Distinct(Listed(from)) && Distinct(Listed(to)) && Answers(found, Listed(to), moved.name) ==>
      && Distinct(Listed(from'))
      && Distinct(Listed(to'))
      && ListsOnce(Listed(to'), moved.name, moved.link)
      && (!within || name != moved.name ==> !Lists(Listed(from'), name))
  {
    if Distinct(Listed(from)) && Distinct(Listed(to)) && Answers(found, Listed(to), moved.name) {
      if within {
        MoveWithinKeepsListing(Listed(to), found, name, moved);
      } else {
        MoveAcrossKeepsListings(Listed(from), Listed(to), found, name, moved);
      }
    }
  }
}
