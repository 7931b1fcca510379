/**
 * What one load returns: the disk copy of a directory just mounted, what its fetch listed, the listing
 * there was when the fetch failed, or, in two races, nothing and no error.
 */
module ListingLoads {
  import opened Wrappers
  import opened Listings
  import opened ListingOrigins
  import opened ListingProtocol
  import opened ListingSafety
  import opened ListingTheorems

  // ----- a load nothing comes between -----

  lemma RunTwo(s: State, a: Action, u: State, t: State)
    requires Step(s, a) == Some(u) && Step(u, a) == Some(t)
    ensures Run(s, [a, a]) == Some(t)
  {
    assert [a, a][1..] == [a] && [a][1..] == [];
    assert Run(t, []) == Some(t) && Run(u, [a]) == Some(t);
  }

  lemma RunThree(s: State, a: Action, u: State, v: State, t: State)
    requires Step(s, a) == Some(u) && Step(u, a) == Some(v) && Step(v, a) == Some(t)
    ensures Run(s, [a, a, a]) == Some(t)
  {
    assert [a, a, a][1..] == [a, a];
    RunTwo(u, a, v, t);
  }

  /**
   * A load of a directory with nothing loaded and no fetch under way puts the disk copy up as the listing,
   * stale, under a fetch of its own, and returns it without waiting for that.
   */
  lemma ColdLoadServesTheDiskCopy(s: State, id: CallerId, copy: Listing)
    requires Reached(s) && id in s.callers && s.callers[id].Starting?
    requires s.dir.children.None? && s.dir.loading.None? && s.store.disk == Some(copy)
    ensures var a, c, end := Load(id, true), NewChan(s), Run(s, [Load(id, true), Load(id, true), Load(id, true)]);
      && end.Some?
      && id in end.value.callers && end.value.callers[id] == Returned(Shown(copy))
      && end.value.dir.children == Some(copy) && !end.value.dir.upToDate
      && end.value.dir.base == Base(FromDisk, copy, s.dir.gen)
      && c !in s.fetches && c in end.value.fetches && end.value.fetches[c] == NEW_FETCH
      && end.value.dir.loading == Some(c) && end.value.store == s.store && end.value.dir.patches == s.dir.patches
  {
    ReachedIsInv(s);
    var a := Load(id, true);
    var u := Step(s, a).value;
    var v := Step(u, a).value;
    assert u.callers[id] == Reading && v.callers[id] == HasDisk(copy);
    var t := Step(v, a).value;
    RunThree(s, a, u, v, t);
  }

  /** Without a copy it can read, it starts a fetch and waits for it. */
  lemma ColdLoadWithoutCopyFetches(s: State, id: CallerId, readable: bool)
    requires Reached(s) && id in s.callers && s.callers[id].Starting?
    requires s.dir.children.None? && s.dir.loading.None? && (s.store.disk.None? || !readable)
    ensures var c, end := NewChan(s), Run(s, [Load(id, readable), Load(id, readable), Load(id, readable)]);
      && end.Some?
      && id in end.value.callers && end.value.callers[id] == Waiting(c)
      && c !in s.fetches && c in end.value.fetches && end.value.fetches[c] == NEW_FETCH
      && end.value.dir == s.dir.(loading := Some(c)) && end.value.store == s.store
  {
    ReachedIsInv(s);
    var a := Load(id, readable);
    var u := Step(s, a).value;
    var v := Step(u, a).value;
    assert u.callers[id] == Reading && v.callers[id] == Beginning;
    RunThree(s, a, u, v, Step(v, a).value);
  }

  /**
   * A load of a listing still fresh returns it; one of a stale listing, or during a fetch, waits for the fetch
   * under way or its own.
   */
  lemma WarmLoad(s: State, id: CallerId, readable: bool)
    requires Reached(s) && id in s.callers && s.callers[id].Starting?
    requires s.dir.children.Some? || s.dir.loading.Some?
    ensures var c, end := NewChan(s), Run(s, [Load(id, readable), Load(id, readable)]);
      && end.Some? && id in end.value.callers && end.value.store == s.store
      && if s.dir.children.Some? && s.dir.upToDate then
           end.value.callers[id] == Returned(Shown(s.dir.children.value)) && end.value.dir == s.dir && end.value.fetches == s.fetches
         else if s.dir.loading.Some? then
           end.value.callers[id] == Waiting(s.dir.loading.value) && end.value.dir == s.dir && end.value.fetches == s.fetches
         else
           && end.value.callers[id] == Waiting(c) && end.value.dir == s.dir.(loading := Some(c))
           && c !in s.fetches && c in end.value.fetches && end.value.fetches[c] == NEW_FETCH
  {
    ReachedIsInv(s);
    var a := Load(id, readable);
    var u := Step(s, a).value;
    assert u.callers[id] == Beginning;
    RunTwo(s, a, u, Step(u, a).value);
  }

  // ----- what a waiter gets -----

  lemma RunStarts(s: State, a: Action, t: State, rest: seq<Action>)
    requires Step(s, a) == Some(t)
    ensures Run(s, [a] + rest) == Run(t, rest)
  {
    assert ([a] + rest)[1..] == rest;
  }

  /**
   * A fetch with nothing between its regions and its waiter's gives the waiter what it listed, or, when it
   * failed, the listing there was before, or else the error.
   */
  lemma UndisturbedWaiter(s: State, id: CallerId, c: Chan, answer: Option<Listing>)
    requires Reached(s) && id in s.callers && s.callers[id] == Waiting(c) && c in s.fetches && s.fetches[c].pc.Spawned?
    ensures var f := Finish(c, answer);
      var end := Run(s, [f] + ([f] + ([f] + ([f] + ([Load(id, false)] + [])))));
      && end.Some? && id in end.value.callers
      && end.value.callers[id] ==
         match answer {
           case Some(l) => Returned(Shown(l))
           case None => Returned(if s.dir.children.Some? then Shown(s.dir.children.value) else Error)
         }
  {
    ReachedIsInv(s);
    assert FetchOk(s.dir, c, s.fetches[c]);
    var f := Finish(c, answer);
    var s1 := Step(s, f).value;
    RunStarts(s, f, s1, [f] + ([f] + ([f] + ([Load(id, false)] + []))));
    AnsweredWaiter(s1, id, c, answer);
  }

  lemma AnsweredWaiter(s: State, id: CallerId, c: Chan, answer: Option<Listing>)
    requires id in s.callers && s.callers[id] == Waiting(c)
    requires c in s.fetches && s.fetches[c].pc.Running? && s.fetches[c].from == s.dir.gen && s.fetches[c].closes == 0
    ensures var f := Finish(c, answer);
      var end := Run(s, [f] + ([f] + ([f] + ([Load(id, false)] + []))));
      && end.Some? && id in end.value.callers
      && end.value.callers[id] ==
         match answer {
           case Some(l) => Returned(Shown(l))
           case None => Returned(if s.dir.children.Some? then Shown(s.dir.children.value) else Error)
         }
  {
    var f, w := Finish(c, answer), Load(id, false);
    var s1 := Step(s, f).value;
    var s2 := Step(s1, f).value;
    var s3 := Step(s2, f).value;
    var s4 := Step(s3, w).value;
    RunStarts(s, f, s1, [f] + ([f] + ([w] + [])));
    RunStarts(s1, f, s2, [f] + ([w] + []));
    RunStarts(s2, f, s3, [w] + []);
    RunStarts(s3, w, s4, []);
  }

  /**
   * In every reachable state a waiter whose fetch is over gets the listing there is, unless that is stale
   * and the last fetch to answer was a good one; with nothing loaded it gets the error, unless the last
   * fetch to answer was a good one. In those two cases it gets nothing and no error.
   */
  lemma WaiterGetsNothingIff(s: State, id: CallerId)
    requires Reached(s) && id in s.callers && s.callers[id].Waiting?
    requires s.callers[id].c in s.fetches && s.fetches[s.callers[id].c].closes > 0
    ensures Step(s, Load(id, false)).Some?
    ensures var t := Step(s, Load(id, false)).value;
      && id in t.callers && t.callers[id].Returned?
      && (t.callers[id].result == Nothing <==> !s.dir.failed && (s.dir.children.None? || !s.dir.upToDate))
      && (t.callers[id].result == Error <==> s.dir.failed && s.dir.children.None?)
      && (t.callers[id].result.Shown? ==> s.dir.children == Some(t.callers[id].result.listing))
  {
  }

  /** The first: the listing its fetch left is expired before the waiter looks. */
  lemma ExpiryEmptiesALoad(listing: Listing) returns (s: State)
    ensures ReachedFrom(None, s) && s.dir.children == Some(listing)
    ensures 0 in s.callers && s.callers[0] == Returned(Nothing)
  {
    s := FirstFetchSpawned();
    s := FetchIsOver(None, s, 0, Some(listing));
    ReachedOneMore(None, s, Expire);
    s := Step(s, Expire).value;
    ReachedOneMore(None, s, Load(0, false));
    s := Step(s, Load(0, false)).value;
  }

  /** The regions of a fetch up to its close, with nothing between them. */
  lemma FetchIsOver(disk: Option<Listing>, u: State, c: Chan, answer: Option<Listing>) returns (s: State)
    requires ReachedFrom(disk, u) && c in u.fetches && u.fetches[c] == NEW_FETCH && u.dir.children.None?
    ensures ReachedFrom(disk, s) && s.callers == u.callers && s.fetches.Keys == u.fetches.Keys
    ensures s.dir.children == answer && s.dir.loading.None? && s.dir.failed == answer.None? && s.store == u.store
    ensures s.fetches[c].closes == 1
  {
    var f := Finish(c, answer);
    ReachedOneMore(disk, u, f);
    s := Step(u, f).value;
    ReachedOneMore(disk, s, f);
    s := Step(s, f).value;
    s := FetchPublishes(disk, s, c, answer);
  }

  lemma FetchPublishes(disk: Option<Listing>, u: State, c: Chan, answer: Option<Listing>) returns (s: State)
    requires ReachedFrom(disk, u) && c in u.fetches && u.dir.children.None?
    requires u.fetches[c].pc.Got? && u.fetches[c].result == answer && u.fetches[c].closes == 0
    ensures ReachedFrom(disk, s) && s.callers == u.callers && s.fetches.Keys == u.fetches.Keys
    ensures s.dir.children == answer && s.dir.loading.None? && s.dir.failed == u.dir.failed && s.store == u.store
    ensures s.fetches[c].closes == 1
  {
    var f := Finish(c, answer);
    ReachedOneMore(disk, u, f);
    s := Step(u, f).value;
    ReachedOneMore(disk, s, f);
    s := Step(s, f).value;
  }

  /** The second: its fetch failed, and the next one's answer is in, but not published, when the waiter looks. */
  lemma LateWaiterIsEmptied(listing: Listing) returns (s: State)
    ensures ReachedFrom(None, s) && s.dir.children.None?
    ensures 0 in s.callers && s.callers[0] == Returned(Nothing)
    ensures 1 in s.fetches && s.fetches[1].result == Some(listing)
  {
    s := FirstFetchSpawned();
    s := FetchIsOver(None, s, 0, None);
    s := SecondFetchSpawned(s);
    var f := Finish(1, Some(listing));
    ReachedOneMore(None, s, f);
    s := Step(s, f).value;
    ReachedOneMore(None, s, f);
    s := Step(s, f).value;
    ReachedOneMore(None, s, Load(0, false));
    s := Step(s, Load(0, false)).value;
  }

  /** Another caller finds nothing loaded and nothing on disk, and fetches. */
  lemma SecondFetchSpawned(u: State) returns (s: State)
    requires ReachedFrom(None, u) && u.callers == map[0 := Waiting(0)] && u.fetches.Keys == {0}
    requires u.dir.children.None? && u.dir.loading.None? && u.store.disk.None? && u.fetches[0].closes == 1
    ensures ReachedFrom(None, s) && s.dir.children.None?
    ensures 0 in s.callers && s.callers[0] == Waiting(0) && 0 in s.fetches && s.fetches[0] == u.fetches[0]
    ensures 1 in s.fetches && s.fetches[1] == NEW_FETCH
  {
    assert |u.fetches| == |u.fetches.Keys| == 1;
    var reload := Load(1, false);
    ReachedOneMore(None, u, Call(1));
    s := Step(u, Call(1)).value;
    ReachedOneMore(None, s, reload);
    s := Step(s, reload).value;
    ReachedOneMore(None, s, reload);
    s := Step(s, reload).value;
    ReachedOneMore(None, s, reload);
    s := Step(s, reload).value;
  }
}
