/** What every run of a directory's listing cache keeps, and what its callers can rely on. */
module ListingSafety {
  import opened Wrappers
  import opened Listings
  import opened ListingProtocol

  // ----- the invariant -----

  /** finishLoad has not published yet. */
  predicate Unpublished(pc: FetchPc) {
    pc.Spawned? || pc.Running? || pc.Got?
  }

  ghost predicate AllCold(ps: seq<Patch>) {
    forall i :: 0 <= i < |ps| ==> ColdCut(ps[i])
  }

  /** The listing is its base with the patches since; with nothing loaded, every patch was a removal. */
  ghost predicate DirOk(d: Dir) {
    && |d.patches| == d.gen
    && d.base.from <= d.gen
    && match d.children
       case Some(l) => l == View(d.base, d.patches)
       case None => AllCold(d.patches)
  }

  predicate FetchOk(d: Dir, c: Chan, f: Fetch) {
    && f.from <= d.gen
    && f.closes == (if f.pc.Closed? || f.pc.Over? then 1 else 0)
    && (Unpublished(f.pc) <==> d.loading == Some(c))
  }

  /** A patch that was no removal of a directory with nothing loaded landed since generation from. */
  ghost predicate Overtaken(d: Dir, from: nat) {
    exists i :: from <= i < |d.patches| && !ColdCut(d.patches[i])
  }

  /** With a listing loaded, any patch since a fetch began is one it must not overwrite. */
  ghost predicate RaceOk(d: Dir, f: Fetch) {
    (f.pc.Running? || f.pc.Got?) && d.children.Some? && f.from < d.gen ==> Overtaken(d, f.from)
  }

  ghost predicate RacesOk(d: Dir, fs: map<Chan, Fetch>) {
    forall c <- fs :: RaceOk(d, fs[c])
  }

  ghost predicate FetchesOk(d: Dir, fs: map<Chan, Fetch>) {
    && (forall c <- fs :: c < |fs| && FetchOk(d, c, fs[c]))
    && (d.loading.Some? ==> d.loading.value in fs)
  }

  /** A listing said to come from fetch c is the one c returned, and c began at that generation; ListingOrigins has the rest. */
  predicate BaseOk(b: Base, fs: map<Chan, Fetch>) {
    match b.origin
    case Fetched(c) => c in fs && !Unpublished(fs[c].pc) && fs[c].result == Some(b.listing) && fs[c].from == b.from
    case FromNothing => b.listing == []
    case FromDisk => true
  }

  ghost predicate DiskOk(d: Dir, st: Store) {
    && st.persistedGen <= d.gen == |d.patches|
    && st.diskBase.from <= st.diskGen <= st.persistedGen
    && (!st.missed ==> st.diskGen == st.persistedGen)
    && (st.disk.Some? ==> st.disk.value == View(st.diskBase, d.patches[..st.diskGen]))
  }

  ghost predicate FlushOk(d: Dir, st: Store) {
    match st.flush
    case Taken(view, base, gen) =>
      && st.persistedGen <= gen <= d.gen == |d.patches|
      && base.from <= gen
      && (view.Some? ==> view.value == View(base, d.patches[..gen]))
    case _ => true
  }

  /** The directory is in dirtyListings while its timer is armed, and otherwise only during a flush. */
  predicate TrackOk(d: Dir, st: Store) {
    && (d.timer ==> st.tracked)
    && (st.tracked && st.flush.Idle? ==> d.timer)
  }

  /** The last patch is on disk, or a write of it is under way or waiting, or one was cancelled. */
  predicate Coming(d: Dir, st: Store) {
    || st.persistedGen == d.gen
    || st.unscheduled > 0
    || d.timer
    || (st.flush.Taken? && st.flush.gen == d.gen)
    || st.discarded
  }

  ghost predicate StoreOk(d: Dir, st: Store) {
    DiskOk(d, st) && FlushOk(d, st) && TrackOk(d, st) && Coming(d, st)
  }

  ghost predicate CallersOk(s: State) {
    forall id <- s.callers :: s.callers[id].Waiting? ==> s.callers[id].c in s.fetches
  }

  ghost predicate Inv(s: State) {
    && DirOk(s.dir)
    && FetchesOk(s.dir, s.fetches)
    && RacesOk(s.dir, s.fetches)
    && BaseOk(s.dir.base, s.fetches)
    && StoreOk(s.dir, s.store)
    && CallersOk(s)
  }

  // ----- replaying patches -----

  lemma ReplayOneMore(l: Listing, ps: seq<Patch>, p: Patch)
    ensures Replay(l, ps + [p]) == Apply(Replay(l, ps), p)
  {
    assert (ps + [p])[..|ps|] == ps;
  }

  lemma ViewOneMore(b: Base, ps: seq<Patch>, p: Patch)
    requires b.from <= |ps|
    ensures View(b, ps + [p]) == Apply(View(b, ps), p)
  {
    assert (ps + [p])[b.from..] == ps[b.from..] + [p];
    ReplayOneMore(b.listing, ps[b.from..], p);
  }

  lemma {:induction false} ReplayCold(l: Listing, ps: seq<Patch>)
    requires AllCold(ps)
    ensures Replay(l, ps) == l
  {
    if ps != [] {
      ReplayCold(l, ps[..|ps| - 1]);
    }
  }

  lemma ViewAtStart(b: Base, ps: seq<Patch>)
    requires b.from == |ps|
    ensures View(b, ps) == b.listing
  {
    assert ps[b.from..] == [];
  }

  // ----- each region keeps it -----

  lemma LandedKeepsDir(d: Dir, patch: Patch)
    requires DirOk(d)
    ensures DirOk(Landed(d, patch))
  {
    var p := if patch.Cut? then Cut(patch.name, d.children.None?) else patch;
    var d' := Landed(d, patch);
    if d.children.Some? {
      ViewOneMore(d.base, d.patches, p);
    } else if p.Put? {
      ViewOneMore(d'.base, d.patches, p);
      ViewAtStart(d'.base, d.patches);
    }
  }

  lemma PublishKeepsDir(d: Dir, c: Chan, result: Option<Listing>, from: nat)
    requires DirOk(d) && from <= d.gen
    ensures DirOk(Publish(d, c, result, from))
  {
    if result.Some? && ShouldPublish(d.children.Some?, from, d.gen) {
      var b := Base(Fetched(c), result.value, from);
      if d.children.None? {
        ReplayCold(b.listing, d.patches[from..]);
      } else {
        ViewAtStart(b, d.patches);
      }
    }
  }

  lemma ServedKeepsDir(d: Dir, listing: Listing, c: Chan)
    requires DirOk(d)
    ensures DirOk(Served(d, listing, c))
  {
    ViewAtStart(Served(d, listing, c).base, d.patches);
  }

  lemma LandedKeepsStore(d: Dir, st: Store, patch: Patch)
    requires |d.patches| == d.gen && StoreOk(d, st)
    ensures StoreOk(Landed(d, patch), st.(unscheduled := st.unscheduled + 1))
  {
    var d' := Landed(d, patch);
    assert d'.patches[..st.diskGen] == d.patches[..st.diskGen];
    if st.flush.Taken? {
      assert d'.patches[..st.flush.gen] == d.patches[..st.flush.gen];
    }
  }

  lemma PersistedKeepsStore(d: Dir, st: Store, c: Chan, listing: Listing, gen: nat)
    requires |d.patches| == d.gen && StoreOk(d, st) && gen <= d.gen && st.flush.Idle?
    ensures StoreOk(d, Persisted(st, c, listing, gen))
    ensures Persisted(st, c, listing, gen).persistedGen >= st.persistedGen
  {
    ViewAtStart(Base(Fetched(c), listing, gen), d.patches[..gen]);
  }

  lemma FlushedKeepsStore(d: Dir, st: Store)
    requires |d.patches| == d.gen && StoreOk(d, st) && st.flush.Taken?
    ensures StoreOk(d, FlushedTo(st))
    ensures FlushedTo(st).persistedGen == st.flush.gen >= st.persistedGen
  {
    var gen := st.flush.gen;
    if st.flush.view.None? {
      ViewAtStart(Base(FromNothing, [], gen), d.patches[..gen]);
    }
  }

  lemma FlushStartKeepsStore(d: Dir, st: Store)
    requires DirOk(d) && StoreOk(d, st) && WriteStep(d, st, FlushStart).Some?
    ensures var next := WriteStep(d, st, FlushStart).value; StoreOk(next.0, next.1)
  {
    assert d.patches[..d.gen] == d.patches;
  }

  lemma WriteStepKeepsStore(d: Dir, st: Store, a: Action)
    requires DirOk(d) && StoreOk(d, st) && WriteStep(d, st, a).Some?
    ensures var next := WriteStep(d, st, a).value; StoreOk(next.0, next.1) && next.1.persistedGen >= st.persistedGen
  {
    match a
    case Patched(p) => LandedKeepsStore(d, st, p);
    case FlushWrite => FlushedKeepsStore(d, st);
    case FlushStart => FlushStartKeepsStore(d, st);
    case _ =>
  }

  lemma WriteStepKeepsDir(d: Dir, st: Store, a: Action)
    requires DirOk(d) && WriteStep(d, st, a).Some?
    ensures var d' := WriteStep(d, st, a).value.0;
      DirOk(d') && d'.loading == d.loading && d'.gen >= d.gen && (d'.base == d.base || d'.base == Base(FromNothing, [], d'.base.from))
  {
    match a
    case Patched(p) => LandedKeepsDir(d, p);
    case _ =>
  }

  lemma FetchStepKeepsStore(d: Dir, st: Store, c: Chan, f: Fetch, listing: Option<Listing>)
    requires DirOk(d) && StoreOk(d, st) && f.from <= d.gen
    requires FetchStep(d, st, c, f, listing).Some?
    ensures var next := FetchStep(d, st, c, f, listing).value; StoreOk(next.0, next.1) && next.1.persistedGen >= st.persistedGen
  {
    if f.pc.Closed? && f.result.Some? {
      PersistedKeepsStore(d, st, c, f.result.value, f.from);
    }
  }

  lemma FetchStepKeepsDir(d: Dir, st: Store, c: Chan, f: Fetch, listing: Option<Listing>)
    requires DirOk(d) && FetchOk(d, c, f)
    requires FetchStep(d, st, c, f, listing).Some?
    ensures var next := FetchStep(d, st, c, f, listing).value;
      && DirOk(next.0) && FetchOk(next.0, c, next.2) && next.0.gen == d.gen
      && (next.0.loading == d.loading || (d.loading == Some(c) && next.0.loading.None?))
  {
    if f.pc.Got? {
      PublishKeepsDir(d, c, f.result, f.from);
    }
  }

  lemma FetchStepKeepsBase(d: Dir, st: Store, c: Chan, fs: map<Chan, Fetch>, listing: Option<Listing>)
    requires c in fs && BaseOk(d.base, fs)
    requires FetchStep(d, st, c, fs[c], listing).Some?
    ensures var next := FetchStep(d, st, c, fs[c], listing).value; BaseOk(next.0.base, fs[c := next.2])
  {
  }

  lemma FinishKeepsInv(s: State, c: Chan, listing: Option<Listing>)
    requires Inv(s) && Step(s, Finish(c, listing)).Some?
    ensures Inv(Step(s, Finish(c, listing)).value)
    ensures s.store.persistedGen <= Step(s, Finish(c, listing)).value.store.persistedGen
  {
    var f := s.fetches[c];
    FetchStepKeepsDir(s.dir, s.store, c, f, listing);
    FetchStepKeepsStore(s.dir, s.store, c, f, listing);
    FetchStepKeepsBase(s.dir, s.store, c, s.fetches, listing);
    var t := Step(s, Finish(c, listing)).value;
    assert |t.fetches| == |s.fetches|;
  }

  lemma LandedKeepsRaces(d: Dir, patch: Patch, fs: map<Chan, Fetch>)
    requires DirOk(d) && FetchesOk(d, fs) && RacesOk(d, fs)
    ensures RacesOk(Landed(d, patch), fs)
  {
    var d' := Landed(d, patch);
    forall c | c in fs ensures RaceOk(d', fs[c]) {
      assert FetchOk(d, c, fs[c]);
      if d'.children.Some? {
        assert !ColdCut(d'.patches[d.gen]);
      }
    }
  }

  lemma SpawnKeepsFetches(d: Dir, fs: map<Chan, Fetch>, d': Dir, c: Chan)
    requires FetchesOk(d, fs) && c == |fs| && d.loading.None?
    requires d'.gen == d.gen && d'.loading == Some(c)
    ensures FetchesOk(d', fs[c := NEW_FETCH])
  {
    assert c !in fs;
    assert |fs[c := NEW_FETCH]| == |fs| + 1;
  }

  lemma CallerStepKeeps(s: State, x: Caller, readable: bool)
    requires Inv(s) && CallerStep(s, x, NewChan(s), readable).Some?
    ensures var (x', d', spawns) := CallerStep(s, x, NewChan(s), readable).value;
      && DirOk(d')
      && StoreOk(d', s.store)
      && (spawns ==> s.dir.loading.None? && d'.loading == Some(NewChan(s)) && d'.gen == s.dir.gen)
      && (!spawns ==> d' == s.dir)
      && (d'.base == s.dir.base || d'.base.origin.FromDisk?)
      && (x'.Waiting? ==> x'.c in s.fetches || (spawns && x'.c == NewChan(s)))
  {
    if x.HasDisk? {
      ServedKeepsDir(s.dir, x.listing, NewChan(s));
    }
  }

  lemma LoadKeepsInv(s: State, id: CallerId, readable: bool)
    requires Inv(s) && Step(s, Load(id, readable)).Some?
    ensures Inv(Step(s, Load(id, readable)).value)
    ensures Step(s, Load(id, readable)).value.store == s.store
  {
    CallerStepKeeps(s, s.callers[id], readable);
    var (x, d, spawns) := CallerStep(s, s.callers[id], NewChan(s), readable).value;
    if spawns {
      SpawnKeepsFetches(s.dir, s.fetches, d, NewChan(s));
    }
  }

  lemma WriteKeepsInv(s: State, a: Action)
    requires Inv(s) && WriteStep(s.dir, s.store, a).Some?
    ensures var next := WriteStep(s.dir, s.store, a).value; Inv(s.(dir := next.0, store := next.1))
  {
    WriteStepKeepsDir(s.dir, s.store, a);
    WriteStepKeepsStore(s.dir, s.store, a);
    if a.Patched? {
      LandedKeepsRaces(s.dir, a.patch, s.fetches);
    }
  }

  lemma StepKeepsInv(s: State, a: Action)
    requires Inv(s) && Step(s, a).Some?
    ensures Inv(Step(s, a).value)
    ensures s.store.persistedGen <= Step(s, a).value.store.persistedGen
  {
    match a
    case Call(_) =>
    case Load(id, readable) => LoadKeepsInv(s, id, readable);
    case Finish(c, listing) => FinishKeepsInv(s, c, listing);
    case _ =>
      WriteStepKeepsStore(s.dir, s.store, a);
      WriteKeepsInv(s, a);
  }

  lemma StartIsInv(disk: Option<Listing>)
    ensures Inv(Start(disk))
  {
    var s := Start(disk);
    if disk.Some? {
      ViewAtStart(s.store.diskBase, []);
      assert s.dir.patches[..0] == [];
    }
  }

  lemma {:induction false} RunKeepsInv(s: State, run: seq<Action>)
    requires Inv(s) && Run(s, run).Some?
    ensures Inv(Run(s, run).value)
    ensures s.store.persistedGen <= Run(s, run).value.store.persistedGen
    decreases |run|
  {
    if run != [] {
      StepKeepsInv(s, run[0]);
      RunKeepsInv(Step(s, run[0]).value, run[1..]);
    }
  }

  lemma ReachedIsInv(s: State)
    requires Reached(s)
    ensures Inv(s)
  {
    var disk :| ReachedFrom(disk, s);
    var run :| Run(Start(disk), run) == Some(s);
    StartIsInv(disk);
    RunKeepsInv(Start(disk), run);
  }
}
