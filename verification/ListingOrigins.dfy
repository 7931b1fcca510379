/** Where a listing and a disk copy can have come from: what an earlier mount left on disk, a fetch, or nothing. */
module ListingOrigins {
  import opened Wrappers
  import opened Listings
  import opened ListingProtocol
  import opened ListingSafety

  /** A base taken from disk is the copy the mount found there, or the empty one a cold removal's write left. */
  predicate Inherited(disk: Option<Listing>, b: Base, ps: seq<Patch>) {
    disk == Some(b.listing) || (b.listing == [] && b.from > 0 && |ps| > 0 && ColdCut(ps[0]))
  }

  /** b is what its origin gave. */
  predicate Sourced(disk: Option<Listing>, b: Base, ps: seq<Patch>, fs: map<Chan, Fetch>) {
    BaseOk(b, fs) && (b.origin.FromDisk? ==> Inherited(disk, b, ps))
  }

  /** What a cold directory can find on disk. */
  predicate Copy(disk: Option<Listing>, l: Listing, gen: nat) {
    disk == Some(l) || (l == [] && gen > 0)
  }

  /** While nothing is loaded no fetch has come back and no flush has taken a listing. */
  ghost predicate Cold(disk: Option<Listing>, s: State) {
    s.dir.children.None? ==>
      && (s.store.disk.Some? ==> Copy(disk, s.store.disk.value, s.dir.gen))
      && (s.store.flush.Taken? ==> s.store.flush.view.None?)
      && (forall c <- s.fetches :: s.fetches[c].pc.Published? || s.fetches[c].pc.Closed? ==> s.fetches[c].result.None?)
      && (forall id <- s.callers :: s.callers[id].HasDisk? ==> Copy(disk, s.callers[id].listing, s.dir.gen))
  }

  /** Nothing is to be written before the first patch. */
  predicate Patchless(d: Dir, st: Store) {
    d.gen == 0 ==> st.unscheduled == 0 && !d.timer && !st.flush.Taken?
  }

  ghost predicate Bases(disk: Option<Listing>, s: State) {
    && Sourced(disk, s.dir.base, s.dir.patches, s.fetches)
    && Sourced(disk, s.store.diskBase, s.dir.patches, s.fetches)
    && (s.store.flush.Taken? ==> Sourced(disk, s.store.flush.base, s.dir.patches, s.fetches))
  }

  ghost predicate Origins(disk: Option<Listing>, s: State) {
    Cold(disk, s) && Patchless(s.dir, s.store) && Bases(disk, s)
  }

  lemma FetchStepKeepsBaseOk(b: Base, d: Dir, st: Store, c: Chan, fs: map<Chan, Fetch>, listing: Option<Listing>)
    requires c in fs && BaseOk(b, fs) && FetchStep(d, st, c, fs[c], listing).Some?
    ensures BaseOk(b, fs[c := FetchStep(d, st, c, fs[c], listing).value.2])
  {
  }

  lemma SpawnKeepsBaseOk(b: Base, fs: map<Chan, Fetch>, c: Chan)
    requires BaseOk(b, fs) && c !in fs
    ensures BaseOk(b, fs[c := NEW_FETCH])
  {
  }

  lemma PersistedIsSourced(disk: Option<Listing>, d: Dir, st: Store, c: Chan, fs: map<Chan, Fetch>)
    requires c in fs && fs[c].pc.Closed? && fs[c].result.Some? && Sourced(disk, st.diskBase, d.patches, fs)
    ensures Sourced(disk, Persisted(st, c, fs[c].result.value, fs[c].from).diskBase, d.patches, fs[c := fs[c].(pc := Over)])
  {
  }

  lemma FinishKeepsCold(disk: Option<Listing>, s: State, c: Chan, listing: Option<Listing>)
    requires Cold(disk, s) && Step(s, Finish(c, listing)).Some?
    ensures Cold(disk, Step(s, Finish(c, listing)).value)
  {
  }

  lemma FinishKeepsBases(disk: Option<Listing>, s: State, c: Chan, listing: Option<Listing>)
    requires Bases(disk, s) && Step(s, Finish(c, listing)).Some?
    ensures Bases(disk, Step(s, Finish(c, listing)).value)
  {
    var f := s.fetches[c];
    FetchStepKeepsBaseOk(s.dir.base, s.dir, s.store, c, s.fetches, listing);
    FetchStepKeepsBaseOk(s.store.diskBase, s.dir, s.store, c, s.fetches, listing);
    if s.store.flush.Taken? {
      FetchStepKeepsBaseOk(s.store.flush.base, s.dir, s.store, c, s.fetches, listing);
    }
    if f.pc.Closed? && f.result.Some? {
      PersistedIsSourced(disk, s.dir, s.store, c, s.fetches);
    }
  }

  lemma FinishKeepsPatchless(s: State, c: Chan, listing: Option<Listing>)
    requires Patchless(s.dir, s.store) && Step(s, Finish(c, listing)).Some?
    ensures var t := Step(s, Finish(c, listing)).value; Patchless(t.dir, t.store)
  {
  }

  lemma LoadKeepsCold(disk: Option<Listing>, s: State, id: CallerId, readable: bool)
    requires Cold(disk, s) && Step(s, Load(id, readable)).Some?
    ensures Cold(disk, Step(s, Load(id, readable)).value)
  {
  }

  lemma ServedIsInherited(disk: Option<Listing>, d: Dir, listing: Listing, c: Chan)
    requires DirOk(d) && d.children.None? && Copy(disk, listing, d.gen)
    ensures Inherited(disk, Served(d, listing, c).base, d.patches)
  {
  }

  lemma LoadKeepsBases(disk: Option<Listing>, s: State, id: CallerId, readable: bool)
    requires Inv(s) && Cold(disk, s) && Bases(disk, s) && Step(s, Load(id, readable)).Some?
    ensures Bases(disk, Step(s, Load(id, readable)).value)
  {
    assert NewChan(s) !in s.fetches;
    SpawnKeepsBaseOk(s.dir.base, s.fetches, NewChan(s));
    SpawnKeepsBaseOk(s.store.diskBase, s.fetches, NewChan(s));
    if s.store.flush.Taken? {
      SpawnKeepsBaseOk(s.store.flush.base, s.fetches, NewChan(s));
    }
    if s.callers[id].HasDisk? && s.dir.children.None? {
      ServedIsInherited(disk, s.dir, s.callers[id].listing, NewChan(s));
    }
  }

  lemma LoadKeepsPatchless(s: State, id: CallerId, readable: bool)
    requires Patchless(s.dir, s.store) && Step(s, Load(id, readable)).Some?
    ensures var t := Step(s, Load(id, readable)).value; Patchless(t.dir, t.store)
  {
  }

  lemma WriteKeepsOrigins(disk: Option<Listing>, s: State, a: Action)
    requires Inv(s) && Origins(disk, s) && WriteStep(s.dir, s.store, a).Some?
    ensures var next := WriteStep(s.dir, s.store, a).value; Origins(disk, s.(dir := next.0, store := next.1))
  {
    match a
    case Patched(_) =>
    case FlushStart =>
    case FlushWrite =>
    case _ =>
  }

  lemma StepKeepsOrigins(disk: Option<Listing>, s: State, a: Action)
    requires Inv(s) && Origins(disk, s) && Step(s, a).Some?
    ensures Origins(disk, Step(s, a).value)
  {
    match a
    case Call(_) =>
    case Load(id, readable) =>
      LoadKeepsCold(disk, s, id, readable);
      LoadKeepsBases(disk, s, id, readable);
      LoadKeepsPatchless(s, id, readable);
    case Finish(c, listing) =>
      FinishKeepsCold(disk, s, c, listing);
      FinishKeepsBases(disk, s, c, listing);
      FinishKeepsPatchless(s, c, listing);
    case _ => WriteKeepsOrigins(disk, s, a);
  }

  lemma {:induction false} RunKeepsOrigins(disk: Option<Listing>, s: State, run: seq<Action>)
    requires Inv(s) && Origins(disk, s) && Run(s, run).Some?
    ensures Origins(disk, Run(s, run).value)
    decreases |run|
  {
    if run != [] {
      StepKeepsOrigins(disk, s, run[0]);
      StepKeepsInv(s, run[0]);
      RunKeepsOrigins(disk, Step(s, run[0]).value, run[1..]);
    }
  }

  lemma ReachedHasOrigins(disk: Option<Listing>, s: State)
    requires ReachedFrom(disk, s)
    ensures Inv(s) && Origins(disk, s)
  {
    var run :| Run(Start(disk), run) == Some(s);
    StartIsInv(disk);
    RunKeepsOrigins(disk, Start(disk), run);
    ReachedIsInv(s);
  }
}
