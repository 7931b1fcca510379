/** What the write-buffer protocol promises over every run; SaveRaces and SaveWitness have the runs that break a promise. */
module SaveSafety {
  import opened Wrappers
  import opened Buffers
  import opened SaveProtocol
  import opened SaveInvariants
  import opened SaveRuns

  /** s is what some run of the mount, from its start, ends in. */
  ghost predicate Reached(c: Config, s: State) {
    exists run :: Run(c, EMPTY, run) == Some(s)
  }

  lemma ReachedIsInv(c: Config, s: State)
    requires Reached(c, s)
    ensures Inv(s)
  {
    var run :| Run(c, EMPTY, run) == Some(s);
    EmptyIsInv();
    RunKeepsInv(c, EMPTY, run);
  }

  // ----- no save is lost -----

  /** The bytes of version v of x are still in its temp file, or on the drive, or set aside on disk. */
  predicate Safe(x: Handle, v: nat) {
    || (x.onDisk && v == x.version)
    || v in x.past.landed
    || v in x.past.unsaved
    || v in x.past.stored
  }

  /**
   * Every save whose close returned is safe, or a later write of the same buffer, an unlink, a
   * rename over its file while its upload had not failed for good, a writer that took it back after
   * such a rename found it failed, an unmount that found it under an excluded name with no store to
   * take it, or an unmount that found it parked with no timer under a name no longer excluded let
   * it go.
   */
  lemma NoSaveIsLost(c: Config, s: State, h: HandleId, v: nat)
    requires Reached(c, s)
    requires h in s.handles && v in s.handles[h].past.saves
    ensures var x := s.handles[h];
      || Safe(x, v)
      || v < x.version
      || x.past.unlinked
      || (x.past.replaced && !x.past.failedAtMark)
      || x.past.retaken
      || x.past.unstored
      || x.past.renamedAway
  {
    ReachedIsInv(c, s);
    assert Accounted(s.handles[h], v);
  }

  /** The temp file of a buffer whose upload failed for good goes away only by an unlink or a move to safety. */
  lemma FailedBufferGoesOnlyByUnlink(c: Config, s: State, a: Action, h: HandleId)
    requires Reached(c, s) && Step(c, s, a).Some?
    requires h in s.handles && s.handles[h].buffer.failed && s.handles[h].onDisk
    ensures var x' := Step(c, s, a).value.handles[h];
      x'.onDisk || x'.past.unlinked || s.handles[h].version in x'.past.unsaved
  {
    ReachedIsInv(c, s);
    StepKeepsInv(c, s, a);
    assert Spared(s.handles[h], Step(c, s, a).value.handles[h]);
  }

  /**
   * In every run the bytes of a buffer whose upload failed for good are in its temp file or in the
   * unsaved folder, unless it was unlinked; so are those of one that a rename over its file found
   * failed, unless a writer or a rename took it back after that.
   */
  lemma FailedBufferIsKept(c: Config, s: State, h: HandleId)
    requires Reached(c, s) && h in s.handles
    requires var x := s.handles[h]; x.buffer.failed || (x.past.failedAtMark && !x.past.retaken)
    ensures var x := s.handles[h]; x.onDisk || x.past.unlinked || x.version in x.past.unsaved
  {
    ReachedIsInv(c, s);
    assert Placed(h, s.handles[h], s.nodes[s.handles[h].node]);
  }

  // ----- a buffer marked gone -----

  /** Once a buffer is marked gone and no upload of it is on its way, none ever is again. */
  lemma GoneBufferIsNeverSent(c: Config, s: State, run: seq<Action>, h: HandleId)
    requires Reached(c, s) && Run(c, s, run).Some?
    requires h in s.handles && s.handles[h].buffer.gone && !Sending(s.handles[h].pc)
    ensures var t := Run(c, s, run).value;
      h in t.handles && !Sending(t.handles[h].pc) && t.handles[h].past.sent == s.handles[h].past.sent
  {
    ReachedIsInv(c, s);
    RunKeepsInv(c, s, run);
    assert Onward(s.handles[h], Run(c, s, run).value.handles[h]);
  }

  /**
   * An upload of a buffer marked gone before its claim is never claimed by its file and never
   * patched into a listing. Once its Release is over a new file it made has been trashed, or trashing
   * it failed, or its link was never read back.
   */
  lemma GoneUploadIsNeverClaimed(c: Config, s: State, run: seq<Action>, h: HandleId)
    requires Reached(c, s) && Run(c, s, run).Some?
    requires h in s.handles && s.handles[h].buffer.gone && !s.handles[h].past.fate.claimed
    ensures var t := Run(c, s, run).value;
      && h in t.handles
      && !t.handles[h].past.fate.claimed
      && !t.handles[h].past.fate.patched
      && (t.handles[h].pc.Done? && t.handles[h].past.fate.created ==>
            (t.handles[h].past.fate.trashed <==> t.handles[h].past.fate.made.Some? && !t.handles[h].past.fate.trashFailed))
  {
    ReachedIsInv(c, s);
    RunKeepsInv(c, s, run);
    var t := Run(c, s, run).value;
    assert Onward(s.handles[h], t.handles[h]);
    assert Links(t.handles[h]);
  }

  /** Once its Release is over, a new file an upload made is on the drive with nobody's name for it. */
  predicate LeftBehind(x: Handle) {
    x.past.fate.created && !x.past.fate.claimed && !x.past.fate.trashed
  }

  /**
   * A new file an upload made is claimed, or trashed, or left behind by the time its Release is over.
   * It is left behind exactly when its buffer was marked before the claim, and its link was not read
   * back or trashing it failed.
   */
  lemma NewFileIsLeftBehindIff(c: Config, s: State, h: HandleId)
    requires Reached(c, s)
    requires h in s.handles && s.handles[h].pc.Done? && s.handles[h].past.fate.created
    ensures var past := s.handles[h].past;
      && !(past.fate.claimed && past.fate.trashed)
      && (LeftBehind(s.handles[h]) <==> !past.fate.claimed && (past.fate.made.None? || past.fate.trashFailed))
      && (!past.fate.claimed ==> past.unlinked || past.replaced)
  {
    ReachedIsInv(c, s);
    assert HandleOk(h, s.handles[h], s.nodes[s.handles[h].node]);
  }

  /** The step that decides it: the file goes exactly when its link was read back and the trash works. */
  lemma LostUploadIsTrashedIff(c: Config, s: State, h: HandleId, luck: Luck)
    requires Reached(c, s) && h in s.handles && s.handles[h].pc.Lost? && s.handles[h].past.fate.created
    ensures Step(c, s, Go(h, luck)).Some?
    ensures Step(c, s, Go(h, luck)).value.handles[h].past.fate.trashed <==> s.handles[h].pc.link.Some? && luck.ok
  {
    ReachedIsInv(c, s);
    assert HandleOk(h, s.handles[h], s.nodes[s.handles[h].node]);
    LostIsTrashedIff(c, s, h, luck);
  }

  lemma LostIsTrashedIff(c: Config, s: State, h: HandleId, luck: Luck)
    requires Has(s, h) && s.handles[h].pc.Lost? && s.handles[h].past.fate.created && Links(s.handles[h])
    ensures Step(c, s, Go(h, luck)).Some?
    ensures Step(c, s, Go(h, luck)).value.handles[h].past.fate.trashed <==> s.handles[h].pc.link.Some? && luck.ok
  {
    assert Step(c, s, Go(h, luck)) == GoStep(c, s, h, luck);
  }

  // ----- a file renamed over another -----

  /**
   * A Release that has walked past a replaced file whose buffer was already marked gone, or that
   * had none, runs with no upload of that file in flight, and none follows in any run from there.
   */
  lemma WalkedFileIsNeverSentAgain(c: Config, s: State, run: seq<Action>, h: HandleId, b: NodeId, g: HandleId)
    requires Reached(c, s) && Run(c, s, run).Some?
    requires h in s.handles && AttemptOf(s.handles[h].pc).Some?
    requires b in AttemptOf(s.handles[h].pc).value.walked - AttemptOf(s.handles[h].pc).value.early
    ensures var t := Run(c, s, run).value;
      g in t.handles && t.handles[g].node == b ==> !Sending(t.handles[g].pc)
  {
    ReachedIsInv(c, s);
    assert Walked(s, s.handles[h].pc);
    assert Behind(s, s.handles[h].pc, b);
    RunKeepsInv(c, s, run);
    var t := Run(c, s, run).value;
    assert Quiet(t, b);
    if g in t.handles && t.handles[g].node == b {
      assert Shape(g, t.handles[g], t.nodes[b]);
    }
  }

  /** p follows edges from a file to the one it was renamed over. */
  predicate Chain(s: State, p: seq<NodeId>) {
    && (forall i :: 0 <= i < |p| ==> p[i] in s.nodes)
    && (forall i :: 0 <= i < |p| - 1 ==> s.nodes[p[i]].supersedes == Some(p[i + 1]))
  }

  /** Along a chain the files left the tree ever earlier. */
  lemma {:induction false} ChainGoesBack(s: State, p: seq<NodeId>, k: nat)
    requires Inv(s) && Chain(s, p) && 0 < k < |p|
    ensures s.nodes[p[k]].leftAt.Some?
    ensures s.nodes[p[0]].leftAt.Some? ==> s.nodes[p[k]].leftAt.value < s.nodes[p[0]].leftAt.value
  {
    assert NodeOk(s, p[k - 1]);
    if k > 1 {
      ChainGoesBack(s, p, k - 1);
    }
  }

  /** No run of renames makes a chain of replaced files come back to where it started. */
  lemma ReplacedFilesFormNoCycle(c: Config, s: State, p: seq<NodeId>)
    requires Reached(c, s)
    requires Chain(s, p) && |p| > 1
    ensures p[0] != p[|p| - 1]
  {
    ReachedIsInv(c, s);
    ChainGoesBack(s, p, |p| - 1);
  }

  /** Every file awaitReplaced passes is one it has not passed before; SaveWalks bounds how many there are. */
  lemma WalkMakesProgress(c: Config, s: State, h: HandleId)
    requires Reached(c, s) && Step(c, s, Walk(h)).Some?
    ensures var up, up' := s.handles[h].pc.up, Step(c, s, Walk(h)).value.handles[h].pc.up;
      && up.walked < up'.walked <= s.nodes.Keys
      && |s.nodes| - |up'.walked| < |s.nodes| - |up.walked|
  {
    ReachedIsInv(c, s);
    WalkPassesNew(s, h);
    assert Step(c, s, Walk(h)).value == Put(s, h, WalkStep(s, h).value);
  }

  lemma WalkPassesNew(s: State, h: HandleId)
    requires WalksOk(s) && WalkStep(s, h).Some?
    ensures var up, up' := s.handles[h].pc.up, WalkStep(s, h).value.pc.up;
      && up.walked < up'.walked <= s.nodes.Keys
      && |s.nodes| - |up'.walked| < |s.nodes| - |up.walked|
  {
    var pc := s.handles[h].pc;
    AheadIsNew(s, pc);
    FewerAhead(pc.up.walked, pc.ahead.value, s.nodes.Keys);
    assert |s.nodes| == |s.nodes.Keys|;
  }

  lemma AheadIsNew(s: State, pc: Pc)
    requires Walked(s, pc) && pc.Walking? && pc.ahead.Some?
    ensures pc.up.walked <= s.nodes.Keys && pc.ahead.value in s.nodes && pc.ahead.value !in pc.up.walked
  {
    forall w | w in pc.up.walked ensures w in s.nodes && w != pc.ahead.value {
      assert Behind(s, pc, w);
    }
  }

  lemma FewerAhead(walked: set<NodeId>, b: NodeId, all: set<NodeId>)
    requires walked <= all && b in all && b !in walked
    ensures walked < walked + {b} <= all
    ensures |all| - |walked + {b}| < |all| - |walked|
  {
  }

  /** What a walk about to pass file b waits for, if anything, can happen now. */
  ghost predicate Unblocked(c: Config, s: State, h: HandleId, b: NodeId) {
    && b in s.nodes
    && match s.nodes[b].mu
       case Free => WalkStep(s, h).Some?
       case Leaving => NodeStep(s, Unlock(b)).Some?
       case Held => s.nodes[b].handle.Some? && CanGoOn(c, s, s.nodes[b].handle.value)
  }

  /** A walk held up by another file's uploadMu never waits in vain: whoever holds it can go on. */
  lemma WalkNeverDeadlocks(c: Config, s: State, h: HandleId)
    requires Reached(c, s) && h in s.handles
    requires s.handles[h].pc.Walking? && s.handles[h].pc.ahead.Some?
    ensures Unblocked(c, s, h, s.handles[h].pc.ahead.value)
  {
    ReachedIsInv(c, s);
    var b := s.handles[h].pc.ahead.value;
    assert Walked(s, s.handles[h].pc);
    if s.nodes[b].mu.Held? {
      LockHolderGoesOn(c, s, b);
    } else {
      NobodyHolds(c, s, h, b);
    }
  }

  lemma NobodyHolds(c: Config, s: State, h: HandleId, b: NodeId)
    requires Has(s, h) && s.handles[h].pc.Walking? && s.handles[h].pc.ahead == Some(b)
    requires b in s.nodes && !s.nodes[b].mu.Held?
    ensures Unblocked(c, s, h, b)
  {
  }

  /** The Release of handle g has a next region however its upload or move turns out. */
  ghost predicate CanGoOn(c: Config, s: State, g: HandleId) {
    && Has(s, g)
    && forall luck :: Advance(c, s.closing, g, s.handles[g], s.nodes[s.handles[g].node], luck).Some?
  }

  lemma LockHolderGoesOn(c: Config, s: State, b: NodeId)
    requires Inv(s) && b in s.nodes && s.nodes[b].mu.Held?
    ensures s.nodes[b].handle.Some? && CanGoOn(c, s, s.nodes[b].handle.value)
  {
    assert NodeOk(s, b);
    var g := s.nodes[b].handle.value;
    assert Shape(g, s.handles[g], s.nodes[b]);
    forall luck ensures Advance(c, s.closing, g, s.handles[g], s.nodes[b], luck).Some? {
      LockedGoesOn(c, s.closing, g, s.handles[g], s.nodes[b], luck);
    }
  }

  lemma LockedGoesOn(c: Config, closing: bool, h: HandleId, x: Handle, node: Node, luck: Luck)
    requires Locked(x.pc)
    ensures Advance(c, closing, h, x, node, luck).Some?
  {
  }

  // ----- where a parked buffer is -----

  /**
   * Once nobody is in the middle of taking it, a handle is in the delayed set iff it is parked with
   * a timer and in the kept set iff parked without one. A parked buffer has its temp file and its
   * node points back at it, and one whose upload failed for good is kept.
   */
  lemma ParkedBufferIsTracked(c: Config, s: State, h: HandleId)
    requires Reached(c, s)
    requires h in s.handles && !s.handles[h].pc.Untracking?
    ensures var x := s.handles[h];
      && (x.inDelayed <==> x.buffer.parked && x.buffer.timer)
      && (x.inKept <==> x.buffer.parked && !x.buffer.timer)
      && (x.buffer.parked ==> x.onDisk && x.buffer.hasTmp && x.node in s.nodes && s.nodes[x.node].handle == Some(h))
      && (x.buffer.parked && x.buffer.failed ==> x.inKept)
  {
    ReachedIsInv(c, s);
    assert HandleOk(h, s.handles[h], s.nodes[s.handles[h].node]);
  }
}
