/** What callers of a cached directory can rely on, and the two runs that go another way. */
module ListingTheorems {
  import opened Wrappers
  import opened Listings
  import opened ListingOrigins
  import opened ListingProtocol
  import opened ListingSafety

  // ----- the listing -----

  /**
   * A loaded listing is always its base with exactly the patches that landed since the base's fetch
   * began, in order. The base is what that fetch returned; or the copy the mount found on disk, or the
   * empty one the write of a removal from the cold directory put over it; or the empty list.
   */
  lemma ListingIsBaseWithPatches(disk: Option<Listing>, s: State)
    requires ReachedFrom(disk, s)
    ensures s.dir.gen == |s.dir.patches| && s.dir.base.from <= s.dir.gen
    ensures s.dir.children.Some? ==> s.dir.children.value == View(s.dir.base, s.dir.patches)
    ensures s.dir.children.None? ==> AllCold(s.dir.patches)
    ensures Sourced(disk, s.dir.base, s.dir.patches, s.fetches)
  {
    ReachedHasOrigins(disk, s);
  }

  /**
   * A fetch that comes back takes the listing over exactly when every patch since it began, if any,
   * was a removal from a directory with nothing loaded.
   */
  lemma FetchTakesOverIffNotOvertaken(s: State, c: Chan)
    requires Reached(s)
    requires c in s.fetches && s.fetches[c].pc.Got? && s.fetches[c].result.Some?
    ensures var f := s.fetches[c];
      var d' := Publish(s.dir, c, f.result, f.from);
      if Overtaken(s.dir, f.from) then d'.children == s.dir.children && d'.base == s.dir.base
      else d'.children == f.result && d'.base == Base(Fetched(c), f.result.value, f.from)
  {
    ReachedIsInv(s);
    assert FetchOk(s.dir, c, s.fetches[c]);
    assert RaceOk(s.dir, s.fetches[c]);
  }

  /** A fetch that no patch meets publishes what it fetched. */
  lemma UndisturbedFetchIsPublished(s: State, c: Chan, listing: Listing)
    requires Reached(s) && c in s.fetches && s.fetches[c].pc.Spawned?
    ensures var end := Run(s, [Finish(c, None), Finish(c, Some(listing)), Finish(c, None)]);
      && end.Some?
      && end.value.dir.children == Some(listing)
      && end.value.dir.base == Base(Fetched(c), listing, s.dir.gen)
      && end.value.dir.loading.None?
  {
    var a, b := Finish(c, None), Finish(c, Some(listing));
    var s1 := Step(s, a).value;
    var s2 := Step(s1, b).value;
    var s3 := Step(s2, a).value;
    assert [a, b, a][1..] == [b, a] && [b, a][1..] == [a] && [a][1..] == [];
    assert Run(s3, []) == Some(s3);
    assert Run(s2, [a]) == Some(s3);
    assert Run(s1, [b, a]) == Some(s3);
  }

  /** Once a listing is loaded it stays loaded, whatever fails. */
  lemma LoadedStaysLoaded(s: State, a: Action)
    requires s.dir.children.Some? && Step(s, a).Some?
    ensures Step(s, a).value.dir.children.Some?
  {
    match a
    case Finish(c, listing) =>
    case Load(id, readable) =>
    case Call(_) =>
    case _ =>
  }

  /** No patch after the k-th is about e's link or name. */
  predicate LeftAlone(ps: seq<Patch>, k: nat, e: Entry) {
    forall j :: k < j < |ps| ==>
      match ps[j]
      case Put(x) => !Matches(e, x)
      case Cut(name, _) => name != e.name
  }

  lemma ViewUpTo(b: Base, ps: seq<Patch>)
    requires b.from < |ps|
    ensures var n := |ps| - 1; View(b, ps) == Apply(View(b, ps[..n]), ps[n])
  {
    var n := |ps| - 1;
    assert ps[..n] + [ps[n]] == ps;
    ViewOneMore(b, ps[..n], ps[n]);
  }

  lemma {:induction false} PutStays(b: Base, ps: seq<Patch>, k: nat, e: Entry)
    requires b.from <= k < |ps| && ps[k] == Put(e) && LeftAlone(ps, k, e)
    ensures e in View(b, ps)
    decreases |ps|
  {
    var n := |ps| - 1;
    var before := View(b, ps[..n]);
    ViewUpTo(b, ps);
    if k == n {
      UpsertContents(before, e, e);
    } else {
      PutStays(b, ps[..n], k, e);
      match ps[n]
      case Put(x) => UpsertContents(before, x, e);
      case Cut(name, _) => RemoveContents(before, name, e);
    }
  }

  /** An entry a handler put in stays listed until another patch is about it, or a fetch begun later takes over. */
  lemma PatchStaysListed(s: State, k: nat, e: Entry)
    requires Reached(s)
    requires k < |s.dir.patches| && s.dir.patches[k] == Put(e) && LeftAlone(s.dir.patches, k, e)
    ensures s.dir.children.Some?
    ensures e in s.dir.children.value || k < s.dir.base.from
  {
    ReachedIsInv(s);
    assert s.dir.children.None? ==> ColdCut(s.dir.patches[k]);
    if s.dir.base.from <= k {
      PutStays(s.dir.base, s.dir.patches, k, e);
    }
  }

  ghost predicate Lists(l: Listing, name: Name) {
    exists e <- l :: e.name == name
  }

  /** How many entries of the listing have the name. */
  function Times(l: Listing, name: Name): nat {
    if l == [] then 0 else (if l[0].name == name then 1 else 0) + Times(l[1..], name)
  }

  lemma {:induction false} TimesIsZeroIff(l: Listing, name: Name)
    ensures Times(l, name) == 0 <==> !Lists(l, name)
  {
    if l != [] {
      TimesIsZeroIff(l[1..], name);
    }
  }

  /** A removal takes one entry of its own name and none of another. */
  lemma {:induction false} RemoveTakesOne(l: Listing, cut: Name, name: Name)
    ensures Times(Remove(l, cut), name) == Times(l, name) - (if cut == name && Times(l, name) > 0 then 1 else 0)
  {
    if l != [] && l[0].name != cut {
      RemoveTakesOne(l[1..], cut, name);
      assert ([l[0]] + Remove(l[1..], cut))[1..] == Remove(l[1..], cut);
    }
  }

  /** An upsert of another name can overwrite an entry of this one by its link, and adds none. */
  lemma {:induction false} UpsertAddsNone(l: Listing, n: Entry, name: Name)
    requires n.name != name
    ensures Times(Upsert(l, n), name) <= Times(l, name)
  {
    if l != [] {
      UpsertAddsNone(l[1..], n, name);
      assert ([n] + l[1..])[1..] == l[1..];
      assert ([l[0]] + Upsert(l[1..], n))[1..] == Upsert(l[1..], n);
    }
  }

  lemma {:induction false} CutStays(b: Base, ps: seq<Patch>, k: nat, name: Name)
    requires b.from <= k < |ps| && ps[k] == Cut(name, false)
    requires Times(View(b, ps[..k]), name) <= 1
    requires forall j :: k < j < |ps| && ps[j].Put? ==> ps[j].e.name != name
    ensures Times(View(b, ps), name) == 0
    decreases |ps|
  {
    var n := |ps| - 1;
    var before := View(b, ps[..n]);
    ViewUpTo(b, ps);
    if k < n {
      assert ps[..n][..k] == ps[..k];
      CutStays(b, ps[..n], k, name);
    }
    match ps[n]
    case Put(x) => UpsertAddsNone(before, x, name);
    case Cut(other, _) => RemoveTakesOne(before, other, name);
  }

  /** A name a handler removed from a loaded listing stays away likewise, when it was listed no more than once. */
  lemma RemovalStaysUnlisted(s: State, k: nat, name: Name)
    requires Reached(s) && s.dir.children.Some?
    requires k < |s.dir.patches| && s.dir.patches[k] == Cut(name, false)
    requires s.dir.base.from <= k && Times(View(s.dir.base, s.dir.patches[..k]), name) <= 1
    requires forall j :: k < j < |s.dir.patches| && s.dir.patches[j].Put? ==> s.dir.patches[j].e.name != name
    ensures !Lists(s.dir.children.value, name)
  {
    ReachedIsInv(s);
    CutStays(s.dir.base, s.dir.patches, k, name);
    TimesIsZeroIff(s.dir.children.value, name);
  }

  // ----- one fetch at a time -----

  /** However many callers there are, at most one fetch is in flight, and loading is set iff one is. */
  lemma AtMostOneFetchInFlight(s: State, c: Chan)
    requires Reached(s)
    ensures s.dir.loading == Some(c) <==> c in s.fetches && Unpublished(s.fetches[c].pc)
  {
    ReachedIsInv(s);
    if c in s.fetches {
      assert FetchOk(s.dir, c, s.fetches[c]);
    }
  }

  /** finishLoad up to its close, however the network turns out. */
  function ToClose(pc: FetchPc): nat {
    match pc
    case Spawned => 4
    case Running => 3
    case Got => 2
    case Published => 1
    case Closed => 0
    case Over => 0
  }

  /** No done channel is closed twice; one still open is closed by its fetch's own next regions, which nothing blocks. */
  lemma ChannelIsClosedOnce(s: State, c: Chan, listing: Option<Listing>)
    requires Reached(s) && c in s.fetches
    ensures s.fetches[c].closes == if ToClose(s.fetches[c].pc) == 0 then 1 else 0
    ensures s.fetches[c].closes == 0 ==>
      && Step(s, Finish(c, listing)).Some?
      && ToClose(Step(s, Finish(c, listing)).value.fetches[c].pc) == ToClose(s.fetches[c].pc) - 1
  {
    ReachedIsInv(s);
    assert FetchOk(s.dir, c, s.fetches[c]);
  }

  lemma {:induction false} RunOneMore(s: State, run: seq<Action>, a: Action)
    requires Run(s, run).Some? && Step(Run(s, run).value, a).Some?
    ensures Run(s, run + [a]) == Step(Run(s, run).value, a)
    decreases |run|
  {
    if run == [] {
      assert [a][1..] == [] && run + [a] == [a];
    } else {
      assert (run + [a])[1..] == run[1..] + [a];
      RunOneMore(Step(s, run[0]).value, run[1..], a);
    }
  }

  lemma ReachedOneMore(disk: Option<Listing>, s: State, a: Action)
    requires ReachedFrom(disk, s) && Step(s, a).Some?
    ensures ReachedFrom(disk, Step(s, a).value)
  {
    var run :| Run(Start(disk), run) == Some(s);
    RunOneMore(Start(disk), run, a);
  }

  lemma {:induction false} FetchRunsToItsClose(s: State, c: Chan, listing: Option<Listing>) returns (run: seq<Action>, t: State)
    requires Reached(s) && c in s.fetches
    ensures |run| == ToClose(s.fetches[c].pc) && forall a <- run :: a == Finish(c, listing)
    ensures Run(s, run) == Some(t) && c in t.fetches && t.fetches[c].closes == 1 && t.callers == s.callers
    decreases ToClose(s.fetches[c].pc)
  {
    ChannelIsClosedOnce(s, c, listing);
    run, t := [], s;
    if s.fetches[c].closes == 0 {
      var a := Finish(c, listing);
      var u := Step(s, a).value;
      var disk :| ReachedFrom(disk, s);
      ReachedOneMore(disk, s, a);
      var rest;
      rest, t := FetchRunsToItsClose(u, c, listing);
      run := [a] + rest;
      assert run[1..] == rest;
    }
  }

  /**
   * No waiter is left on a dead channel: the fetch it waits for has at most four regions left to its
   * close, which nothing can hold up, whether the fetch works or fails; then the waiter goes on.
   */
  lemma WaiterIsWoken(s: State, id: CallerId, listing: Option<Listing>) returns (run: seq<Action>, t: State)
    requires Reached(s) && id in s.callers && s.callers[id].Waiting?
    ensures |run| <= 4 && forall a <- run :: a == Finish(s.callers[id].c, listing)
    ensures Run(s, run) == Some(t) && Step(t, Load(id, false)).Some?
    ensures Step(t, Load(id, false)).value.callers[id].Returned?
  {
    ReachedIsInv(s);
    run, t := FetchRunsToItsClose(s, s.callers[id].c, listing);
  }

  /** The fetch c is the directory's own and the listing it shows is known to be stale. */
  predicate Refreshing(s: State, c: Chan) {
    s.dir.children.Some? && s.dir.loading == Some(c) && !s.dir.upToDate
  }

  lemma RefreshingStep(s: State, a: Action, c: Chan)
    requires FetchesOk(s.dir, s.fetches) && Refreshing(s, c) && Step(s, a).Some?
    ensures c in Step(s, a).value.fetches
    ensures var t := Step(s, a).value; Refreshing(t, c) || t.fetches[c].pc.Published?
  {
    match a
    case Finish(f, listing) =>
    case Load(id, readable) =>
    case Call(_) =>
    case _ =>
  }

  /** The fetch c is before its publish all through the run. */
  predicate Unanswered(s: State, run: seq<Action>, c: Chan)
    decreases |run|
  {
    && c in s.fetches && !s.fetches[c].pc.Published?
    && (run != [] ==> Step(s, run[0]).Some? && Unanswered(Step(s, run[0]).value, run[1..], c))
  }

  lemma {:induction false} RefreshingRun(s: State, run: seq<Action>, c: Chan)
    requires Inv(s) && Refreshing(s, c) && Unanswered(s, run, c)
    ensures Run(s, run).Some? && Refreshing(Run(s, run).value, c)
    decreases |run|
  {
    if run != [] {
      RefreshingStep(s, run[0], c);
      StepKeepsInv(s, run[0]);
      RefreshingRun(Step(s, run[0]).value, run[1..], c);
    }
  }

  /**
   * A disk copy put up as the listing is refreshed at once: the step that serves it starts a fetch, and
   * in every run, until that fetch publishes, every caller that gets to beginLoad waits for it.
   */
  lemma DiskCopyIsRefreshed(s: State, id: CallerId, run: seq<Action>, other: CallerId)
    requires Reached(s) && id in s.callers && s.callers[id].HasDisk?
    requires s.dir.children.None? && s.dir.loading.None?
    requires var t := Step(s, Load(id, true)); t.Some? && Unanswered(t.value, run, NewChan(s))
    ensures var u := Run(Step(s, Load(id, true)).value, run);
      && u.Some? && u.value.dir.children.Some?
      && (other in u.value.callers && u.value.callers[other].Beginning? ==>
            && Step(u.value, Load(other, true)).Some?
            && Step(u.value, Load(other, true)).value.callers[other] == Waiting(NewChan(s)))
  {
    ReachedIsInv(s);
    LoadKeepsInv(s, id, true);
    var t := Step(s, Load(id, true)).value;
    assert Refreshing(t, NewChan(s));
    RefreshingRun(t, run, NewChan(s));
  }

  // ----- the disk copy -----

  /**
   * What is on disk is a base with exactly the patches up to the generation it was written at, the last
   * one tried unless that write failed; no run takes a tried generation back.
   */
  lemma DiskIsBaseWithPatches(disk: Option<Listing>, s: State, run: seq<Action>)
    requires ReachedFrom(disk, s) && Run(s, run).Some?
    ensures Sourced(disk, s.store.diskBase, s.dir.patches, s.fetches)
    ensures s.store.persistedGen <= s.dir.gen == |s.dir.patches|
    ensures s.store.diskBase.from <= s.store.diskGen <= s.store.persistedGen
    ensures !s.store.missed ==> s.store.diskGen == s.store.persistedGen
    ensures s.store.disk.Some? ==> s.store.disk.value == View(s.store.diskBase, s.dir.patches[..s.store.diskGen])
    ensures s.store.persistedGen <= Run(s, run).value.store.persistedGen
  {
    ReachedHasOrigins(disk, s);
    RunKeepsInv(s, run);
  }

  /**
   * A flush never loses to a fetch's write. When the disk takes it, what it leaves there is what it
   * took, unless nothing was loaded; when not, the old copy stays.
   */
  lemma FlushWins(s: State)
    requires Reached(s) && s.store.flush.Taken?
    ensures var t := FlushedTo(s.store);
      && t.persistedGen == s.store.flush.gen
      && (s.store.works ==> (t.disk == s.store.flush.view <==> s.store.flush.view.Some?))
      && (s.store.works && s.store.flush.view.None? ==> t.disk == Some([]))
      && (!s.store.works ==> t.disk == s.store.disk)
  {
    ReachedIsInv(s);
    FlushedKeepsStore(s.dir, s.store);
  }

  /** Outside a flush a directory is in dirtyListings exactly while its timer is armed; during one, at least then. */
  lemma TrackedWhileArmed(s: State)
    requires Reached(s)
    ensures s.dir.timer ==> s.store.tracked
    ensures s.store.flush.Idle? ==> (s.store.tracked <==> s.dir.timer)
  {
    ReachedIsInv(s);
  }

  /**
   * Once no handler, timer or flush is at work and no write was cancelled, a write at the last patch
   * has been tried, and unless it failed the disk copy, if it was not evicted, holds every patch.
   */
  lemma QuietDirectoryIsOnDisk(s: State)
    requires Reached(s)
    requires s.store.unscheduled == 0 && !s.dir.timer && s.store.flush.Idle? && !s.store.discarded
    ensures s.store.persistedGen == s.dir.gen == |s.dir.patches| && s.store.diskBase.from <= s.dir.gen
    ensures !s.store.missed && s.store.disk.Some? ==> s.store.disk.value == View(s.store.diskBase, s.dir.patches)
  {
    ReachedIsInv(s);
    assert s.dir.patches[..s.dir.gen] == s.dir.patches;
  }

  /** A flush of a waiting write with nothing else running puts the listing on disk and leaves nothing waiting. */
  lemma FlushPutsTheListingOnDisk(s: State)
    requires Reached(s) && s.dir.timer && s.store.flush.Idle?
    ensures var end := Run(s, [FlushStart, FlushWrite, FlushEnd]);
      && end.Some?
      && end.value.dir == s.dir.(timer := false)
      && !end.value.store.tracked && end.value.store.flush.Idle?
      && end.value.store.persistedGen == s.dir.gen
      && (if s.store.works then end.value.store.disk == Some(if s.dir.children.Some? then s.dir.children.value else [])
          else end.value.store.disk == s.store.disk)
  {
    ReachedIsInv(s);
    var run := [FlushStart, FlushWrite, FlushEnd];
    var s1 := Step(s, FlushStart).value;
    var s2 := Step(s1, FlushWrite).value;
    var s3 := Step(s2, FlushEnd).value;
    assert run[1..] == [FlushWrite, FlushEnd] && run[1..][1..] == [FlushEnd] && run[1..][1..][1..] == [];
    assert Run(s3, []) == Some(s3);
    assert Run(s2, [FlushEnd]) == Some(s3);
    assert Run(s1, [FlushWrite, FlushEnd]) == Some(s3);
  }

  // ----- a patch of a directory with nothing loaded, during a fetch -----

  /** The listing counts as fresh, and holds nothing but what handlers put in since it was empty. */
  predicate Partial(d: Dir) {
    d.children.Some? && d.upToDate && d.base.origin.FromNothing?
  }

  /**
   * A fetch that comes back leaves such a listing up exactly when a handler put an entry into the
   * directory while nothing was loaded, no fetch has taken over since, and this one failed or was overtaken.
   */
  lemma FreshListingIsPartialIff(s: State, c: Chan)
    requires Reached(s) && c in s.fetches && s.fetches[c].pc.Got?
    ensures var f := s.fetches[c];
      Partial(Publish(s.dir, c, f.result, f.from)) <==>
        s.dir.children.Some? && s.dir.base.origin.FromNothing? && (f.result.None? || Overtaken(s.dir, f.from))
  {
    ReachedIsInv(s);
    assert FetchOk(s.dir, c, s.fetches[c]);
    assert RaceOk(s.dir, s.fetches[c]);
  }

  /** Only a fetch that comes back makes one, or a new entry right after the first fetch failed. */
  lemma OnlyPublishLeavesPartial(s: State, a: Action)
    requires Step(s, a).Some? && !Partial(s.dir) && Partial(Step(s, a).value.dir)
    ensures (a.Finish? && s.fetches[a.c].pc.Got?) || (a.Patched? && s.dir.children.None? && s.dir.upToDate)
  {
    match a
    case Finish(_, _) =>
    case Load(_, _) =>
    case Call(_) =>
    case _ =>
  }

  /** A new entry in a directory whose first fetch is under way keeps what that fetch lists out, and counts as fresh. */
  lemma ColdPutHidesTheFetch(e: Entry, listing: Listing) returns (s: State)
    ensures ReachedFrom(None, s) && Partial(s.dir)
    ensures s.dir.children == Some([e])
    ensures 0 in s.fetches && s.fetches[0].result == Some(listing) && s.fetches[0].pc.Published?
  {
    s := FirstFetchSpawned();
    var answer := Finish(0, Some(listing));
    ReachedOneMore(None, s, answer);
    s := Step(s, answer).value;
    ReachedOneMore(None, s, Patched(Put(e)));
    s := Step(s, Patched(Put(e))).value;
    assert s.dir.children == Some([e]);
    ReachedOneMore(None, s, answer);
    s := Step(s, answer).value;
    ReachedOneMore(None, s, answer);
    s := Step(s, answer).value;
  }

  /** A caller of load that found nothing loaded and nothing on disk has started the fetch. */
  lemma FirstFetchSpawned() returns (s: State)
    ensures ReachedFrom(None, s) && s.dir.children.None? && s.dir.patches == [] && s.dir.gen == 0
    ensures 0 in s.fetches && s.fetches[0] == NEW_FETCH
    ensures s.callers == map[0 := Waiting(0)] && s.fetches.Keys == {0} && s.store == Start(None).store
  {
    s := Start(None);
    assert Run(s, []) == Some(s);
    var reload := Load(0, false);
    ReachedOneMore(None, s, Call(0));
    s := Step(s, Call(0)).value;
    ReachedOneMore(None, s, reload);
    s := Step(s, reload).value;
    ReachedOneMore(None, s, reload);
    s := Step(s, reload).value;
    ReachedOneMore(None, s, reload);
    s := Step(s, reload).value;
  }

  // ----- removals from a directory with nothing loaded -----

  /** A fetch that listed an entry before a handler removed it brings the entry back, when nothing was loaded. */
  lemma ColdRemovalComesBack(e: Entry) returns (s: State)
    ensures ReachedFrom(None, s)
    ensures s.dir.patches == [Cut(e.name, true)]
    ensures s.dir.children == Some([e])
  {
    s := FirstFetchSpawned();
    s := FetchThenColdRemoval(s, e);
  }

  lemma FetchThenColdRemoval(u: State, e: Entry) returns (s: State)
    requires ReachedFrom(None, u) && u.dir.children.None? && u.dir.patches == [] && u.dir.gen == 0
    requires 0 in u.fetches && u.fetches[0] == NEW_FETCH
    ensures ReachedFrom(None, s)
    ensures s.dir.patches == [Cut(e.name, true)]
    ensures s.dir.children == Some([e])
  {
    var answer := Finish(0, Some([e]));
    ReachedOneMore(None, u, answer);
    s := Step(u, answer).value;
    ReachedOneMore(None, s, answer);
    s := Step(s, answer).value;
    var cut := Patched(Cut(e.name, false));
    ReachedOneMore(None, s, cut);
    s := Step(s, cut).value;
    ReachedOneMore(None, s, answer);
    s := Step(s, answer).value;
  }

  /** The coalesced write such a removal arms replaces a good disk copy by an empty listing. */
  lemma ColdRemovalEmptiesTheDiskCopy(good: Listing, name: Name) returns (s: State)
    ensures ReachedFrom(Some(good), s)
    ensures s.dir.patches == [Cut(name, true)] && s.dir.children.None?
    ensures s.store.disk == Some([])
  {
    s := Start(Some(good));
    assert Run(s, []) == Some(s);
    var cut := Patched(Cut(name, false));
    ReachedOneMore(Some(good), s, cut);
    s := Step(s, cut).value;
    ReachedOneMore(Some(good), s, Schedule);
    s := Step(s, Schedule).value;
    ReachedOneMore(Some(good), s, FlushStart);
    s := Step(s, FlushStart).value;
    ReachedOneMore(Some(good), s, FlushWrite);
    s := Step(s, FlushWrite).value;
  }
}
