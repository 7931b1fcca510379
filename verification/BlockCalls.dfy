/**
 * What the callers of getBlock get, alone and together: a block in memory at once, a fetched one when its
 * fetch works, and for whoever waited on somebody else's fetch, exactly when the block is still cached.
 */
module BlockCalls {
  import opened Wrappers
  import opened Blocks
  import opened BlockFile
  import opened BlockFetch

  /** The block's plaintext, when the file has such a block and the fetch works. */
  predicate Fetchable(content: Bytes, idx: nat, ok: bool) {
    ok && 1 <= idx <= BlockCount(|content|)
  }

  // ----- one region -----

  /** A caller that asks for a block in memory gets it and fetches nothing; any other has missed it. */
  lemma CachedBlockIsServed(content: Bytes, s: State, id: CallerId, ok: bool)
    requires Reached(content, s) && id in s.callers && s.callers[id].Asking?
    ensures s.callers[id].idx in s.cache.blocks ==> 1 <= s.callers[id].idx <= BlockCount(|content|)
    ensures Step(content, s, Go(id, ok)).Some?
    ensures var t, idx := Step(content, s, Go(id, ok)).value, s.callers[id].idx;
      && t.cache == s.cache && t.records == s.records && t.inflight == s.inflight && id in t.callers
      && t.callers[id] ==
         if idx in s.cache.blocks then Returned(idx, Some(Chunk(content, idx))) else Missed(idx)
  {
    ReachedIsInv(content, s);
  }

  /** A caller that missed a block fetches it, unless somebody does: then it waits on that record. */
  lemma MissedBlockIsClaimedIff(content: Bytes, s: State, id: CallerId, ok: bool)
    requires Reached(content, s) && id in s.callers && s.callers[id].Missed?
    ensures Step(content, s, Go(id, ok)).Some?
    ensures var t, idx := Step(content, s, Go(id, ok)).value, s.callers[id].idx;
      && id in t.callers && t.cache == s.cache && idx in t.inflight
      && (t.callers[id].Fetching? <==> idx !in s.inflight)
      && (t.callers[id].Awaiting? <==> idx in s.inflight)
      && (idx in s.inflight ==> t.callers[id].rec == s.inflight[idx] && t.records == s.records && t.inflight == s.inflight)
      && (idx !in s.inflight ==>
            && t.callers[id].rec !in s.records
            && t.records == s.records[t.callers[id].rec := Record(idx, id, 0, false)]
            && t.inflight == s.inflight[idx := t.callers[id].rec])
  {
    ReachedIsInv(content, s);
    NewRecordIsNew(s);
  }

  /**
   * Every closed record tells the truth: its owner is over, and it says failed exactly when the owner came
   * back with nothing.
   */
  ghost predicate Truthful(s: State) {
    forall r <- s.records :: s.records[r].closes > 0 ==> Told(s, s.records[r])
  }

  predicate Told(s: State, rec: Record) {
    && rec.owner in s.callers
    && s.callers[rec.owner].Returned? && s.callers[rec.owner].idx == rec.idx
    && (rec.failed <==> s.callers[rec.owner].data.None?)
  }

  lemma CloseStaysTruthful(s: State, id: CallerId)
    requires Claims(s) && Truthful(s) && id in s.callers && s.callers[id].Closing? && s.callers[id].rec in s.records
    ensures var x := s.callers[id]; Truthful(Close(s, id, x.idx, x.rec, x.data))
  {
    var x := s.callers[id];
    var t := Close(s, id, x.idx, x.rec, x.data);
    assert CallerOk(s, id, x);
    forall r | r in t.records && t.records[r].closes > 0 ensures Told(t, t.records[r]) {
      if r != x.rec { assert Told(s, s.records[r]); }
    }
  }

  /** What is over stays so, and only a close closes a record. */
  lemma OthersLeaveRecords(content: Bytes, s: State, a: Action)
    requires Step(content, s, a).Some? && !(a.Go? && s.callers[a.id].Closing?)
    ensures var t := Step(content, s, a).value;
      && (forall id <- s.callers :: s.callers[id].Returned? ==> id in t.callers && t.callers[id] == s.callers[id])
      && (forall r <- t.records :: t.records[r].closes > 0 ==> r in s.records && t.records[r] == s.records[r])
  {
  }

  lemma StepStaysTruthful(content: Bytes, s: State, a: Action)
    requires Inv(content, s) && Truthful(s) && Step(content, s, a).Some?
    ensures Truthful(Step(content, s, a).value)
  {
    if a.Go? && s.callers[a.id].Closing? {
      CloseStaysTruthful(s, a.id);
    } else {
      OthersLeaveRecords(content, s, a);
      var t := Step(content, s, a).value;
      forall r | r in t.records && t.records[r].closes > 0 ensures Told(t, t.records[r]) {
        assert r in s.records && Told(s, s.records[r]);
      }
    }
  }

  lemma {:induction false} RunStaysTruthful(content: Bytes, s: State, run: seq<Action>)
    requires Inv(content, s) && Truthful(s) && Run(content, s, run).Some?
    ensures Truthful(Run(content, s, run).value)
    decreases |run|
  {
    if run != [] {
      StepStaysTruthful(content, s, run[0]);
      StepKeepsInv(content, s, run[0]);
      RunStaysTruthful(content, Step(content, s, run[0]).value, run[1..]);
    }
  }

  lemma ReachedIsTruthful(content: Bytes, s: State)
    requires Reached(content, s)
    ensures Inv(content, s) && Truthful(s)
  {
    var run :| Run(content, START, run) == Some(s);
    RunStaysTruthful(content, START, run);
    ReachedIsInv(content, s);
  }

  /**
   * A waiter whose record was closed fails at once exactly when the fetch it waited for failed; otherwise it
   * looks in the cache next.
   */
  lemma WaiterFailsAtOnceIff(content: Bytes, s: State, id: CallerId, ok: bool)
    requires Reached(content, s) && id in s.callers && s.callers[id].Awaiting?
    requires s.callers[id].rec in s.records && s.records[s.callers[id].rec].closes > 0
    ensures Step(content, s, Go(id, ok)).Some?
    ensures var t, idx, owner := Step(content, s, Go(id, ok)).value, s.callers[id].idx, s.records[s.callers[id].rec].owner;
      && id in t.callers && t.cache == s.cache && owner in s.callers && s.callers[owner].Returned?
      && s.callers[owner].idx == idx
      && t.callers[id] == if s.callers[owner].data.None? then Returned(idx, None) else Woken(idx)
  {
    ReachedIsTruthful(content, s);
    assert Told(s, s.records[s.callers[id].rec]);
    assert CallerOk(s, id, s.callers[id]);
  }

  /** What a woken waiter gets: the block, exactly when it is cached as it looks. */
  lemma WokenGetsTheBlockIff(content: Bytes, s: State, id: CallerId, ok: bool)
    requires Reached(content, s) && id in s.callers && s.callers[id].Woken?
    ensures Step(content, s, Go(id, ok)).Some?
    ensures var t, idx := Step(content, s, Go(id, ok)).value, s.callers[id].idx;
      && id in t.callers && t.callers[id].Returned? && t.callers[id].idx == idx
      && (t.callers[id].data.Some? <==> idx in s.cache.blocks)
      && (idx in s.cache.blocks ==> 1 <= idx <= BlockCount(|content|) && t.callers[id].data == Some(Chunk(content, idx)))
  {
    ReachedIsInv(content, s);
  }

  // ----- a fetch nothing comes between -----

  lemma RunStarts(content: Bytes, s: State, a: Action, t: State, rest: seq<Action>)
    requires Step(content, s, a) == Some(t)
    ensures Run(content, s, [a] + rest) == Run(content, t, rest)
  {
    assert ([a] + rest)[1..] == rest;
  }

  /** The four regions of a fetch, from its claim to its close. */
  function FetchRun(id: CallerId, ok: bool): seq<Action> {
    [Go(id, ok)] + ([Go(id, ok)] + ([Go(id, ok)] + ([Go(id, ok)] + [])))
  }

  /**
   * With nothing between its regions the owner of a claim returns the block exactly when its fetch works and
   * the file has the block; then the block is cached, and either way the claim is gone and the record closed.
   */
  lemma OwnerGetsTheBlockIff(content: Bytes, s: State, id: CallerId, ok: bool)
    requires Reached(content, s) && id in s.callers && s.callers[id].Fetching?
    ensures Run(content, s, FetchRun(id, ok)).Some?
    ensures var t, idx, r := Run(content, s, FetchRun(id, ok)).value, s.callers[id].idx, s.callers[id].rec;
      && id in t.callers && t.callers[id].Returned? && idx !in t.inflight
      && (t.callers[id].data.Some? <==> Fetchable(content, idx, ok))
      && (t.callers[id].data.Some? ==>
            idx in t.cache.blocks && 1 <= idx <= BlockCount(|content|) && t.callers[id].data == Some(Chunk(content, idx)))
      && (t.callers[id].data.None? ==> t.cache == s.cache)
      && r in t.records && t.records[r].closes == 1 && (t.records[r].failed <==> !Fetchable(content, idx, ok))
      && t.callers == s.callers[id := t.callers[id]] && t.records == s.records[r := t.records[r]]
  {
    ReachedIsInv(content, s);
    assert CallerOk(s, id, s.callers[id]);
    FetchAlone(content, s, id, ok);
    if Fetchable(content, s.callers[id].idx, ok) {
      PutKeepsValid(s.cache, s.callers[id].idx, Chunk(content, s.callers[id].idx));
    }
  }

  lemma FetchAlone(content: Bytes, s: State, id: CallerId, ok: bool)
    requires id in s.callers && s.callers[id].Fetching? && s.callers[id].rec in s.records
    requires s.records[s.callers[id].rec].closes == 0
    ensures var idx, r := s.callers[id].idx, s.callers[id].rec;
      var data := if Fetchable(content, idx, ok) then Some(Chunk(content, idx)) else None;
      var rec := s.records[r];
      Run(content, s, FetchRun(id, ok)) ==
        Some(State(if data.Some? then s.cache.Put(idx, data.value) else s.cache,
                   s.inflight - {idx},
                   s.records[r := rec.(closes := 1, failed := data.None?)],
                   s.callers[id := Returned(idx, data)]))
  {
    var idx, r, a := s.callers[id].idx, s.callers[id].rec, Go(id, ok);
    var data := if Fetchable(content, idx, ok) then Some(Chunk(content, idx)) else None;
    var s1 := s.(callers := s.callers[id := Fetched(idx, r, data)]);
    var cache := if data.Some? then s.cache.Put(idx, data.value) else s.cache;
    var s2 := State(cache, s.inflight, s.records, s.callers[id := Releasing(idx, r, data)]);
    var s3 := State(cache, s.inflight - {idx}, s.records, s.callers[id := Closing(idx, r, data)]);
    RunStarts(content, s, a, s1, [a] + ([a] + ([a] + [])));
    assert s1.callers[id := Releasing(idx, r, data)] == s2.callers;
    RunStarts(content, s1, a, s2, [a] + ([a] + []));
    assert s2.callers[id := Closing(idx, r, data)] == s3.callers;
    RunStarts(content, s2, a, s3, [a] + []);
    LastRegion(content, s3, id, idx, r, data, ok);
    assert s3.callers[id := Returned(idx, data)] == s.callers[id := Returned(idx, data)];
  }

  lemma LastRegion(content: Bytes, s: State, id: CallerId, idx: nat, r: RecordId, data: Option<Bytes>, ok: bool)
    requires id in s.callers && s.callers[id] == Closing(idx, r, data) && r in s.records && s.records[r].closes == 0
    ensures var rec := s.records[r].(closes := 1, failed := data.None?);
      Run(content, s, [Go(id, ok)] + []) ==
        Some(s.(records := s.records[r := rec], callers := s.callers[id := Returned(idx, data)]))
  {
    var rec := s.records[r].(closes := 1, failed := data.None?);
    var t := s.(records := s.records[r := rec], callers := s.callers[id := Returned(idx, data)]);
    assert Step(content, s, Go(id, ok)) == Some(t);
    RunStarts(content, s, Go(id, ok), t, []);
    assert Run(content, t, []) == Some(t);
  }

  /** A waiter on a closed record, alone: it fails at once, or gets what the cache holds in two regions. */
  lemma WaiterGoesOn(content: Bytes, t: State, id: CallerId, idx: nat, r: RecordId, ok: bool)
    requires id in t.callers && t.callers[id] == Awaiting(idx, r) && r in t.records && t.records[r].closes > 0
    ensures t.records[r].failed ==>
      Run(content, t, [Go(id, ok)] + []) == Some(t.(callers := t.callers[id := Returned(idx, None)]))
    ensures !t.records[r].failed ==>
      Run(content, t, [Go(id, ok)] + ([Go(id, ok)] + [])) ==
        Some(t.(callers := t.callers[id := Returned(idx, if idx in t.cache.blocks then Some(t.cache.blocks[idx]) else None)]))
  {
    var a := Go(id, ok);
    var t1 := Step(content, t, a).value;
    assert Run(content, t1, []) == Some(t1);
    RunStarts(content, t, a, t1, []);
    if !t.records[r].failed {
      var t2 := Step(content, t1, a).value;
      assert t2.callers == t.callers[id := t2.callers[id]];
      assert Run(content, t2, []) == Some(t2);
      RunStarts(content, t, a, t1, [a] + []);
      RunStarts(content, t1, a, t2, []);
    }
  }

  /**
   * Two callers of one block: the one that claimed it fetches, the other waits, and both return the block
   * exactly when the fetch works and the file has it.
   */
  lemma WaiterSharesTheFetch(content: Bytes, s: State, owner: CallerId, waiter: CallerId, ok: bool)
    requires Reached(content, s) && owner in s.callers && waiter in s.callers && owner != waiter
    requires s.callers[owner].Fetching? && s.callers[waiter] == Awaiting(s.callers[owner].idx, s.callers[owner].rec)
    ensures Run(content, s, FetchRun(owner, ok)).Some?
    ensures var t, idx, a := Run(content, s, FetchRun(owner, ok)).value, s.callers[owner].idx, Go(waiter, ok);
      var end := Run(content, t, if Fetchable(content, idx, ok) then [a] + ([a] + []) else [a] + []);
      && end.Some? && waiter in end.value.callers
      && end.value.callers[waiter] ==
         Returned(idx, if Fetchable(content, idx, ok) then Some(Chunk(content, idx)) else None)
  {
    OwnerGetsTheBlockIff(content, s, owner, ok);
    var t, idx := Run(content, s, FetchRun(owner, ok)).value, s.callers[owner].idx;
    WaiterGoesOn(content, t, waiter, idx, s.callers[owner].rec, ok);
    FetchedIsTheBlock(content, s, owner, ok);
  }

  lemma FetchedIsTheBlock(content: Bytes, s: State, id: CallerId, ok: bool)
    requires Reached(content, s) && id in s.callers && s.callers[id].Fetching?
    requires Run(content, s, FetchRun(id, ok)).Some?
    ensures var t, idx := Run(content, s, FetchRun(id, ok)).value, s.callers[id].idx;
      idx in t.cache.blocks ==> 1 <= idx <= BlockCount(|content|) && t.cache.blocks[idx] == Chunk(content, idx)
  {
    ReachedIsInv(content, s);
    RunKeepsInv(content, s, FetchRun(id, ok));
  }
}
