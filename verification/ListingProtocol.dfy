/**
 * One directory's cached listing under any number of concurrent callers, as a state machine with one
 * step per lock-protected region: load with its single fetch in flight, the disk copy a cold
 * directory starts from, the patches handlers make, and the coalesced writes of the listing to disk.
 */
module ListingProtocol {
  import opened Wrappers
  import opened Listings

  /** A done channel; each fetch has its own. */
  type Chan = nat
  type CallerId = nat

  /** A local change: upsertChild, or removeChild (cold: nothing was loaded when it came). */
  datatype Patch = Put(e: Entry) | Cut(name: Name, cold: bool)

  /** Where a listing started from: a fetch, the disk copy, or the empty list under a patch of a cold directory. */
  datatype Origin = Fetched(c: Chan) | FromDisk | FromNothing

  /** A listing that holds every patch up to generation from. */
  datatype Base = Base(origin: Origin, listing: Listing, from: nat)

  /**
   * The fields d.mu guards. failed: loadErrno says the last fetch failed. timer: persistTimer is armed.
   * patches: every patch that landed, so gen is their number; base: what children started from.
   */
  datatype Dir = Dir(
    children: Option<Listing>,
    upToDate: bool,
    gen: nat,
    loading: Option<Chan>,
    failed: bool,
    timer: bool,
    patches: seq<Patch>,
    base: Base)

  /** A flush holding persistMu: it has taken the listing, or written it. */
  datatype Flush = Idle | Taken(view: Option<Listing>, base: Base, gen: nat) | Done

  /**
   * The disk side. tracked: dirtyListings holds the directory. unscheduled: patches whose handler
   * has not called schedulePersist yet. discarded: a coalesced write was cancelled. diskBase: what
   * the listing on disk started from, diskGen: the generation it was written at. works: writes to the
   * disk succeed now; missed: the last one tried did not.
   */
  datatype Store = Store(
    persistedGen: nat,
    disk: Option<Listing>,
    diskBase: Base,
    diskGen: nat,
    works: bool,
    missed: bool,
    flush: Flush,
    tracked: bool,
    unscheduled: nat,
    discarded: bool)

  /** How far finishLoad is. */
  datatype FetchPc = Spawned | Running | Got | Published | Closed | Over

  /** from: the generation the fetch read at its start; result: None while running or when it failed. */
  datatype Fetch = Fetch(pc: FetchPc, from: nat, result: Option<Listing>, closes: nat)

  /** What load returns: a listing, an error, or neither, which its callers take for an empty directory. */
  datatype Loaded = Shown(listing: Listing) | Error | Nothing

  /** How far one call of load is. */
  datatype Caller =
    | Starting
    | Reading
    | HasDisk(listing: Listing)
    | Beginning
    | Waiting(c: Chan)
    | Returned(result: Loaded)

  datatype State = State(dir: Dir, store: Store, fetches: map<Chan, Fetch>, callers: map<CallerId, Caller>)

  datatype Action =
    | Call(id: CallerId)
    | Load(id: CallerId, readable: bool)
    | Finish(c: Chan, listing: Option<Listing>)
    | Patched(patch: Patch)
    | Expire
    | Schedule
    | FlushStart
    | FlushWrite
    | FlushEnd
    | Discard
    | DiskTurns(works: bool)
    | Evicted

  // ----- listings as a base with patches -----

  function Apply(l: Listing, p: Patch): Listing {
    match p
    case Put(e) => Upsert(l, e)
    case Cut(name, cold) => if cold then l else Remove(l, name)
  }

  function Replay(l: Listing, ps: seq<Patch>): Listing {
    if ps == [] then l else Apply(Replay(l, ps[..|ps| - 1]), ps[|ps| - 1])
  }

  /** The base listing with every patch since in order, except removals made while nothing was loaded. */
  function View(b: Base, ps: seq<Patch>): Listing
    requires b.from <= |ps|
  {
    Replay(b.listing, ps[b.from..])
  }

  predicate ColdCut(p: Patch) {
    p.Cut? && p.cold
  }

  // ----- d.mu -----

  /** upsertChild and removeChild. */
  function Landed(d: Dir, patch: Patch): Dir {
    var p := if patch.Cut? then Cut(patch.name, d.children.None?) else patch;
    var d' := d.(gen := d.gen + 1, patches := d.patches + [p]);
    match d.children
    case Some(l) => d'.(children := Some(Apply(l, p)))
    case None =>
      match p
      case Put(e) => d'.(children := Some(Upsert([], e)), base := Base(FromNothing, [], d.gen))
      case Cut(_, _) => d'
  }

  function ShouldPublish(hadChildren: bool, startGen: nat, curGen: nat): bool {
    !hadChildren || startGen == curGen
  }

  /** publish, up to its unlock. */
  function Publish(d: Dir, c: Chan, result: Option<Listing>, from: nat): Dir {
    var d' := d.(loading := None, upToDate := true);
    if result.Some? && ShouldPublish(d.children.Some?, from, d.gen)
    then d'.(children := result, base := Base(Fetched(c), result.value, from))
    else d'
  }

  /** serveFromDiskCache's second region, when nothing was loaded and no fetch began meanwhile. */
  function Served(d: Dir, listing: Listing, c: Chan): Dir {
    d.(children := Some(listing), upToDate := false, loading := Some(c), base := Base(FromDisk, listing, d.gen))
  }

  // ----- persistMu -----

  /** cacheListing: the listing replaces the disk copy, which stays as it is when the write fails. */
  function Written(st: Store, listing: Listing, base: Base, gen: nat): Store {
    if st.works then st.(persistedGen := gen, disk := Some(listing), diskBase := base, diskGen := gen, missed := false)
    else st.(persistedGen := gen, missed := true)
  }

  /** persistListing of a fetched listing: a generation below the last one written is dropped. */
  function Persisted(st: Store, c: Chan, listing: Listing, gen: nat): Store {
    if gen < st.persistedGen then st else Written(st, listing, Base(Fetched(c), listing, gen), gen)
  }

  /** persistListingLocked of what a flush took; a directory with nothing loaded is written as an empty listing. */
  function FlushedTo(st: Store): Store
    requires st.flush.Taken?
  {
    var f := st.flush;
    var st' := st.(flush := Done);
    if f.gen < st.persistedGen then st'
    else
      match f.view
      case Some(l) => Written(st', l, f.base, f.gen)
      case None => Written(st', [], Base(FromNothing, [], f.gen), f.gen)
  }

  // ----- steps -----

  const NEW_FETCH: Fetch := Fetch(Spawned, 0, None, 0)

  /** The next region of finishLoad; listing is what the network comes back with. */
  function FetchStep(d: Dir, st: Store, c: Chan, f: Fetch, listing: Option<Listing>): Option<(Dir, Store, Fetch)> {
    match f.pc
    case Spawned => Some((d, st, f.(pc := Running, from := d.gen)))
    case Running => Some((d.(failed := listing.None?), st, f.(pc := Got, result := listing)))
    case Got => Some((Publish(d, c, f.result, f.from), st, f.(pc := Published)))
    case Published => Some((d, st, f.(pc := Closed, closes := f.closes + 1)))
    case Closed =>
      if f.result.None? then Some((d, st, f.(pc := Over)))
      else if !st.flush.Idle? then None
      else Some((d, Persisted(st, c, f.result.value, f.from), f.(pc := Over)))
    case Over => None
  }

  /** loadResult: what the fetch it waited for left, or the listing there was when that failed. */
  function LoadResult(d: Dir): Loaded {
    if d.children.Some? && (d.upToDate || d.failed) then Shown(d.children.value)
    else if d.failed then Error
    else Nothing
  }

  /** The next region of one load; with a channel when it starts the fetch that channel is for. */
  function CallerStep(s: State, x: Caller, c: Chan, readable: bool): Option<(Caller, Dir, bool)> {
    var d := s.dir;
    match x
    case Starting => Some((if d.children.None? && d.loading.None? then Reading else Beginning, d, false))
    case Reading => Some((if readable && s.store.disk.Some? then HasDisk(s.store.disk.value) else Beginning, d, false))
    case HasDisk(listing) =>
      if d.children.Some? || d.loading.Some? then Some((Returned(Shown(listing)), d, false))
      else Some((Returned(Shown(listing)), Served(d, listing, c), true))
    case Beginning =>
      if d.children.Some? && d.upToDate then Some((Returned(Shown(d.children.value)), d, false))
      else if d.loading.Some? then Some((Waiting(d.loading.value), d, false))
      else Some((Waiting(c), d.(loading := Some(c)), true))
    case Waiting(w) => if w in s.fetches && s.fetches[w].closes > 0 then Some((Returned(LoadResult(d)), d, false)) else None
    case Returned(_) => None
  }

  /** A channel no fetch has had yet. */
  function NewChan(s: State): Chan {
    |s.fetches|
  }

  /** The steps of the coalesced write: arming it, its three regions, and cancelling it. */
  function WriteStep(d: Dir, st: Store, a: Action): Option<(Dir, Store)> {
    match a
    case Schedule =>
      if st.unscheduled == 0 then None
      else if d.timer then Some((d, st.(unscheduled := st.unscheduled - 1)))
      else Some((d.(timer := true), st.(unscheduled := st.unscheduled - 1, tracked := true)))
    case FlushStart =>
      if !st.flush.Idle? || !d.timer then None
      else Some((d.(timer := false), st.(flush := Taken(d.children, d.base, d.gen))))
    case FlushWrite => if st.flush.Taken? then Some((d, FlushedTo(st))) else None
    case FlushEnd =>
      if !st.flush.Done? then None
      else Some((d, st.(flush := Idle, tracked := if d.timer then st.tracked else false)))
    case Discard =>
      if !d.timer then None else Some((d.(timer := false), st.(tracked := false, discarded := true)))
    case Patched(p) => Some((Landed(d, p), st.(unscheduled := st.unscheduled + 1)))
    case Expire => Some((d.(upToDate := false), st))
    case DiskTurns(works) => Some((d, st.(works := works)))
    case Evicted => Some((d, st.(disk := None)))
    case _ => None
  }

  function Step(s: State, a: Action): Option<State> {
    match a
    case Call(id) => if id in s.callers then None else Some(s.(callers := s.callers[id := Starting]))
    case Load(id, readable) =>
      if id !in s.callers then None
      else
        var c := NewChan(s);
        var next := CallerStep(s, s.callers[id], c, readable);
        if next.None? then None
        else
          var (x, d, spawns) := next.value;
          Some(s.(dir := d, callers := s.callers[id := x],
                  fetches := if spawns then s.fetches[c := NEW_FETCH] else s.fetches))
    case Finish(c, listing) =>
      if c !in s.fetches then None
      else
        var next := FetchStep(s.dir, s.store, c, s.fetches[c], listing);
        if next.None? then None
        else
          var (d, st, f) := next.value;
          Some(s.(dir := d, store := st, fetches := s.fetches[c := f]))
    case _ =>
      var next := WriteStep(s.dir, s.store, a);
      if next.None? then None else Some(s.(dir := next.value.0, store := next.value.1))
  }

  /** A directory just registered, with the disk copy an earlier mount left, if any. */
  function Start(disk: Option<Listing>): State {
    var none := Base(FromNothing, [], 0);
    State(
      Dir(None, false, 0, None, false, false, [], none),
      Store(0, disk, if disk.Some? then Base(FromDisk, disk.value, 0) else none, 0, true, false, Idle, false, 0, false),
      map[],
      map[])
  }

  function Run(s: State, run: seq<Action>): Option<State>
    decreases |run|
  {
    if run == [] then Some(s)
    else
      var s' := Step(s, run[0]);
      if s'.None? then None else Run(s'.value, run[1..])
  }

  /** s is what some run of a directory that found this on disk ends in. */
  ghost predicate ReachedFrom(disk: Option<Listing>, s: State) {
    exists run :: Run(Start(disk), run) == Some(s)
  }

  ghost predicate Reached(s: State) {
    exists disk :: ReachedFrom(disk, s)
  }
}
