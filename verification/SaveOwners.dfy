/**
 * Buffers something took back: one whose upload had failed for good when a rename over its file marked
 * it, and one whose taker went away. What becomes of them over every run, and exactly when.
 */
module SaveOwners {
  import opened Wrappers
  import opened Buffers
  import opened SaveInvariants
  import opened SaveProtocol
  import opened SaveRuns
  import opened SaveSafety

  // ----- failed at the mark -----

  /** Nothing has landed or been set aside before the last regions of a Release. */
  predicate Bare(x: Handle) {
    && (x.past.landed == {} || x.pc.Claimed? || x.pc.Dropping? || x.pc.Done?)
    && ((x.past.unsaved == {} && x.past.stored == {}) || x.pc.Done?)
  }

  /** Where a buffer taken back after such a mark can be: with its taker, or on its way to being dropped. */
  predicate TakenBackPc(pc: Pc) {
    match pc
    case Untracking(_, next) => !next.ToUnmount?
    case Open | Stranded | Entered | Snapped(_, _) | Chosen(_, _, _, _) | Discarding(_) | Dropping(_) | Done => true
    case _ => false
  }

  predicate RetakenOk(x: Handle) {
    x.past.retaken ==>
      && x.buffer.gone && !x.buffer.failed
      && TakenBackPc(x.pc)
      && (x.pc.Done? ==> !x.onDisk)
      && x.version !in x.past.landed && x.version !in x.past.unsaved && x.version !in x.past.stored
  }

  lemma ChoosingKeepsMark(c: Config, x: Handle, node: Node)
    requires Bare(x) && RetakenOk(x) && Choosing(c, x, node).Some?
    ensures Bare(Choosing(c, x, node).value.0) && RetakenOk(Choosing(c, x, node).value.0)
  {
    match x.pc
    case Entered =>
    case Snapped(_, _) =>
    case Chosen(_, _, _, _) =>
    case Parking(_, _) =>
    case _ =>
  }

  lemma AttemptKeepsMark(x: Handle, node: Node, luck: Luck)
    requires Bare(x) && RetakenOk(x)
    ensures Attempting(x, node, luck).Some? ==> var x' := Attempting(x, node, luck).value.0; Bare(x') && RetakenOk(x')
    ensures Answered(x, node, luck).Some? ==> var x' := Answered(x, node, luck).value.0; Bare(x') && RetakenOk(x')
  {
  }

  lemma ConcludedKeepsMark(x: Handle, node: Node, luck: Luck)
    requires Bare(x) && RetakenOk(x) && Concluded(x, node, luck).Some?
    ensures var x' := Concluded(x, node, luck).value.0; Bare(x') && RetakenOk(x')
  {
  }

  lemma LettingLooseKeepsMark(h: HandleId, x: Handle, node: Node, luck: Luck)
    requires Bare(x) && RetakenOk(x) && LettingLoose(h, x, node, luck).Some?
    ensures var x' := LettingLoose(h, x, node, luck).value.0; Bare(x') && RetakenOk(x')
  {
    match x.pc
    case Discarding(_) =>
    case Keeping(_) =>
    case Dropping(_) =>
    case _ =>
  }

  lemma FailingKeepsPast(closing: bool, x: Handle, node: Node)
    requires x.pc.Failing?
    ensures KeepingForRetry(closing, x, node).Some?
    ensures var x' := KeepingForRetry(closing, x, node).value.0;
      x'.past == x.past && (x'.pc.Discarding? || x'.pc.Retrying?)
  {
  }

  lemma RetryingCounts(closing: bool, x: Handle, node: Node)
    requires x.pc.Retrying?
    ensures KeepingForRetry(closing, x, node).Some?
    ensures var x' := KeepingForRetry(closing, x, node).value.0;
      && x'.past.retaken == x.past.retaken && x'.past.landed == x.past.landed
      && x'.past.unsaved == x.past.unsaved && x'.past.stored == x.past.stored
      && (x'.pc.Keeping? || x'.pc.Parking?)
  {
  }

  lemma RetryKeepsMark(closing: bool, x: Handle, node: Node)
    requires Bare(x) && RetakenOk(x) && (x.pc.Failing? || x.pc.Retrying?) && KeepingForRetry(closing, x, node).Some?
    ensures var x' := KeepingForRetry(closing, x, node).value.0; Bare(x') && RetakenOk(x')
  {
    assert !x.past.retaken && x.past.landed == {} && x.past.unsaved == {} && x.past.stored == {};
    if x.pc.Failing? { FailingKeepsPast(closing, x, node); } else { RetryingCounts(closing, x, node); }
  }

  lemma UntrackedKeepsMark(x: Handle, node: Node)
    requires Bare(x) && RetakenOk(x) && Untracked(x, node).Some?
    ensures var x' := Untracked(x, node).value.0; Bare(x') && RetakenOk(x')
  {
  }

  lemma UnmountKeepsMark(c: Config, h: HandleId, x: Handle, node: Node, luck: Luck)
    requires Bare(x) && RetakenOk(x) && Unmounted(c, h, x, node, luck).Some?
    ensures var x' := Unmounted(c, h, x, node, luck).value.0; Bare(x') && RetakenOk(x')
  {
    var next := Unmounted(c, h, x, node, luck).value;
    assert !x.past.retaken;
    if !x.pc.timed && !x.pc.failed && c.excluded(node.name) && c.hasStore {
      assert next == KeptLocal(h, x, node, luck.ok);
      assert next.0.pc.Done? && !next.0.past.retaken;
    } else {
      assert next.0.past.retaken == x.past.retaken && next.0.past.landed == x.past.landed;
      assert next.0.past.unsaved == x.past.unsaved && next.0.past.stored == x.past.stored;
    }
  }

  lemma AdvanceKeepsMark(c: Config, closing: bool, h: HandleId, x: Handle, node: Node, luck: Luck)
    requires Bare(x) && RetakenOk(x) && Advance(c, closing, h, x, node, luck).Some?
    ensures var x' := Advance(c, closing, h, x, node, luck).value.0; Bare(x') && RetakenOk(x')
  {
    match x.pc
    case Untracking(_, _) => UntrackedKeepsMark(x, node);
    case Failing(_, _) | Retrying(_, _) => RetryKeepsMark(closing, x, node);
    case LettingGo(_, _) => UnmountKeepsMark(c, h, x, node, luck);
    case Entered | Snapped(_, _) | Chosen(_, _, _, _) | Parking(_, _) => ChoosingKeepsMark(c, x, node);
    case Trying(_) | Walking(_, _) | Holding(_) | Uploading(_, _) | Uploaded(_, _, _) => AttemptKeepsMark(x, node, luck);
    case Lost(_, _) | Claimed(_, _, _) => ConcludedKeepsMark(x, node, luck);
    case Discarding(_) | Keeping(_) | Dropping(_) => LettingLooseKeepsMark(h, x, node, luck);
    case Open | Waiting | Stranded | Done =>
  }

  lemma HandleStepKeepsMark(closing: bool, h: HandleId, x: Handle, node: Node, a: Action)
    requires Placed(h, x, node) && Bare(x) && RetakenOk(x) && HandleStep(closing, h, x, node, a).Some?
    ensures var x' := HandleStep(closing, h, x, node, a).value; Bare(x') && RetakenOk(x')
  {
    match a
    case Take(_, taker) => TakenKeepsMark(closing, h, x, node, taker);
    case Truncate(_) => assert Live(x.pc) && (x.past.retaken ==> !x.pc.Dropping?);
    case _ =>
  }

  lemma TakenKeepsMark(closing: bool, h: HandleId, x: Handle, node: Node, taker: Taker)
    requires Placed(h, x, node) && Bare(x) && RetakenOk(x) && Taken(closing, x, taker).Some?
    ensures var x' := Taken(closing, x, taker).value; Bare(x') && RetakenOk(x')
  {
    assert x.pc.Waiting? && !x.past.retaken;
  }

  ghost predicate MarksOk(s: State) {
    forall h <- s.handles :: Bare(s.handles[h]) && RetakenOk(s.handles[h])
  }

  lemma NodeStepKeepsMarks(s: State, a: Action)
    requires MarksOk(s) && NodeStep(s, a).Some?
    ensures MarksOk(NodeStep(s, a).value)
  {
    forall h | h in NodeStep(s, a).value.handles
      ensures Bare(NodeStep(s, a).value.handles[h]) && RetakenOk(NodeStep(s, a).value.handles[h])
    {
      NodeStepLeaves(s, a, h);
    }
  }

  lemma NodeStepLeaves(s: State, a: Action, h: HandleId)
    requires NodeStep(s, a).Some?
    ensures var t := NodeStep(s, a).value;
      h in t.handles ==>
        if h in s.handles then t.handles[h] == s.handles[h].(captured := t.handles[h].captured)
        else t.handles[h].past == NO_PAST && t.handles[h].pc == Open
  {
  }

  lemma PutKeepsMarks(s: State, h: HandleId, x': Handle)
    requires MarksOk(s) && Bare(x') && RetakenOk(x')
    ensures MarksOk(Put(s, h, x'))
  {
  }

  lemma HandlePartKeepsMarks(s: State, h: HandleId, a: Action)
    requires MarksOk(s) && Has(s, h) && Placed(h, s.handles[h], s.nodes[s.handles[h].node])
    requires HandleStep(s.closing, h, s.handles[h], s.nodes[s.handles[h].node], a).Some?
    ensures MarksOk(Put(s, h, HandleStep(s.closing, h, s.handles[h], s.nodes[s.handles[h].node], a).value))
  {
    var x, node := s.handles[h], s.nodes[s.handles[h].node];
    HandleStepKeepsMark(s.closing, h, x, node, a);
    PutKeepsMarks(s, h, HandleStep(s.closing, h, x, node, a).value);
  }

  lemma GoKeepsMarks(c: Config, s: State, h: HandleId, luck: Luck)
    requires MarksOk(s) && GoStep(c, s, h, luck).Some?
    ensures MarksOk(GoStep(c, s, h, luck).value)
  {
    AdvanceKeepsMark(c, s.closing, h, s.handles[h], s.nodes[s.handles[h].node], luck);
  }

  lemma StepKeepsMarks(c: Config, s: State, a: Action)
    requires HandlesOk(s) && MarksOk(s) && Step(c, s, a).Some?
    ensures MarksOk(Step(c, s, a).value)
  {
    match a
    case Mount(_, _, _) | Create(_, _, _) | OpenNew(_, _) | Retarget(_, _, _) | ReplaceLink(_, _) | Unlock(_) | StartClosing =>
      NodeStepKeepsMarks(s, a);
    case Go(h, luck) => GoKeepsMarks(c, s, h, luck);
    case Walk(h) => PutKeepsMarks(s, h, WalkStep(s, h).value);
    case _ => HandlePartKeepsMarks(s, a.h, a);
  }

  lemma {:induction false} RunKeepsMarks(c: Config, s: State, run: seq<Action>)
    requires Inv(s) && MarksOk(s) && Run(c, s, run).Some?
    ensures MarksOk(Run(c, s, run).value)
    decreases |run|
  {
    if run != [] {
      StepKeepsInv(c, s, run[0]);
      StepKeepsMarks(c, s, run[0]);
      RunKeepsMarks(c, Step(c, s, run[0]).value, run[1..]);
    }
  }

  /**
   * Once the Release of a buffer that a rename over its file found failed is over, with no unlink, its
   * bytes are kept exactly when nobody took it back, to be uploaded again, between the mark and the
   * rename's own unpark.
   */
  lemma FailedAtMarkIsKeptIff(c: Config, s: State, h: HandleId)
    requires Reached(c, s) && h in s.handles
    requires s.handles[h].past.failedAtMark && !s.handles[h].past.unlinked && s.handles[h].pc.Done?
    ensures Safe(s.handles[h], s.handles[h].version) <==> !s.handles[h].past.retaken
  {
    var run :| Run(c, EMPTY, run) == Some(s);
    EmptyIsInv();
    RunKeepsMarks(c, EMPTY, run);
    assert RetakenOk(s.handles[h]);
    if !s.handles[h].past.retaken {
      FailedBufferIsKept(c, s, h);
    }
  }

  // ----- taken back by an open whose truncate fails -----

  /** x and x' have no owner and are not parked, and what became of their saves is the same. */
  predicate StillStranded(x: Handle, x': Handle) {
    && x'.pc.Stranded? && !x'.buffer.parked
    && x'.node == x.node
    && x'.past.sent == x.past.sent && x'.past.landed == x.past.landed
    && x'.past.unsaved == x.past.unsaved && x'.past.stored == x.past.stored
    && x'.past.saves == x.past.saves
  }

  lemma StrandedHandleStep(closing: bool, h: HandleId, x: Handle, node: Node, a: Action)
    requires x.pc.Stranded? && !x.buffer.parked && HandleStep(closing, h, x, node, a).Some?
    ensures StillStranded(x, HandleStep(closing, h, x, node, a).value)
  {
  }

  lemma StrandedNodeStep(s: State, a: Action, h: HandleId)
    requires h in s.handles && s.handles[h].pc.Stranded? && !s.handles[h].buffer.parked && NodeStep(s, a).Some?
    ensures h in NodeStep(s, a).value.handles && StillStranded(s.handles[h], NodeStep(s, a).value.handles[h])
  {
  }

  /** No region of any Release, no timer, no writer and no unmount moves it on. */
  lemma StrandedStep(c: Config, s: State, a: Action, h: HandleId)
    requires h in s.handles && s.handles[h].pc.Stranded? && !s.handles[h].buffer.parked && Step(c, s, a).Some?
    ensures h in Step(c, s, a).value.handles && StillStranded(s.handles[h], Step(c, s, a).value.handles[h])
  {
    match a
    case Mount(_, _, _) | Create(_, _, _) | OpenNew(_, _) | Retarget(_, _, _) | ReplaceLink(_, _) | Unlock(_) | StartClosing =>
      StrandedNodeStep(s, a, h);
    case Go(g, luck) => StrandedRegions(c, s, h, luck);
    case Walk(g) => StrandedRegions(c, s, h, Luck(true, false, None));
    case _ => StrandedActs(s, h, a);
  }

  lemma StrandedRegions(c: Config, s: State, h: HandleId, luck: Luck)
    requires h in s.handles && s.handles[h].pc.Stranded?
    ensures GoStep(c, s, h, luck).None? && WalkStep(s, h).None?
  {
  }

  lemma StrandedActs(s: State, h: HandleId, a: Action)
    requires h in s.handles && s.handles[h].pc.Stranded? && !s.handles[h].buffer.parked
    ensures Has(s, h) && HandleStep(s.closing, h, s.handles[h], s.nodes[s.handles[h].node], a).Some? ==>
      StillStranded(s.handles[h], HandleStep(s.closing, h, s.handles[h], s.nodes[s.handles[h].node], a).value)
  {
    if Has(s, h) && HandleStep(s.closing, h, s.handles[h], s.nodes[s.handles[h].node], a).Some? {
      StrandedHandleStep(s.closing, h, s.handles[h], s.nodes[s.handles[h].node], a);
    }
  }

  lemma {:induction false} StrandedForever(c: Config, s: State, run: seq<Action>, h: HandleId)
    requires h in s.handles && s.handles[h].pc.Stranded? && !s.handles[h].buffer.parked && Run(c, s, run).Some?
    ensures var t := Run(c, s, run).value; h in t.handles && StillStranded(s.handles[h], t.handles[h])
    decreases |run|
  {
    if run != [] {
      StrandedStep(c, s, run[0], h);
      StrandedForever(c, Step(c, s, run[0]).value, run[1..], h);
    }
  }

  /**
   * A buffer with no owner never gets one: in every run from there it is in neither set, so unmount
   * does not find it, it is not uploaded, set aside or moved to the store, its temp file stays, and its
   * file can be opened for writing by nobody else.
   */
  lemma StrandedBufferStaysSo(c: Config, s: State, run: seq<Action>, h: HandleId)
    requires Reached(c, s) && h in s.handles && s.handles[h].pc.Stranded? && Run(c, s, run).Some?
    ensures var t := Run(c, s, run).value;
      && h in t.handles && StillStranded(s.handles[h], t.handles[h])
      && !t.handles[h].inDelayed && !t.handles[h].inKept && t.handles[h].onDisk
      && (forall g :: Step(c, t, OpenNew(t.handles[h].node, g)).None?)
  {
    ReachedIsInv(c, s);
    StrandedIsNowhere(c, s, h);
    StrandedForever(c, s, run, h);
    RunKeepsInv(c, s, run);
    StrandedIsNowhere(c, Run(c, s, run).value, h);
  }

  lemma StrandedIsNowhere(c: Config, t: State, h: HandleId)
    requires HandlesOk(t) && h in t.handles && t.handles[h].pc.Stranded?
    ensures var x := t.handles[h]; !x.buffer.parked && !x.inDelayed && !x.inKept && x.onDisk
    ensures forall g :: Step(c, t, OpenNew(t.handles[h].node, g)).None?
  {
    assert Shape(h, t.handles[h], t.nodes[t.handles[h].node]);
  }

  // ----- and only then -----

  /** The buffer was taken back and nobody goes on with it, now or as soon as it is out of its set. */
  predicate Ownerless(x: Handle) {
    x.pc.Stranded? || (x.pc.Untracking? && x.pc.next.ToNobody?)
  }

  predicate HasOwnerless(s: State, h: HandleId) {
    h in s.handles && Ownerless(s.handles[h])
  }

  lemma ActDisowns(closing: bool, h: HandleId, x: Handle, node: Node, a: Action)
    requires x.buffer.parked <==> x.pc.Waiting?
    requires HandleStep(closing, h, x, node, a).Some?
    ensures Ownerless(HandleStep(closing, h, x, node, a).value) <==> Ownerless(x) || (a.Take? && a.taker == Writer(true))
  {
  }

  lemma ChoosingDisowns(c: Config, x: Handle, node: Node, luck: Luck)
    ensures Choosing(c, x, node).Some? ==> !Ownerless(Choosing(c, x, node).value.0)
    ensures Attempting(x, node, luck).Some? ==> !Ownerless(Attempting(x, node, luck).value.0)
    ensures Answered(x, node, luck).Some? ==> !Ownerless(Answered(x, node, luck).value.0)
    ensures Concluded(x, node, luck).Some? ==> !Ownerless(Concluded(x, node, luck).value.0)
  {
  }

  lemma RetryDisowns(closing: bool, x: Handle, node: Node)
    ensures KeepingForRetry(closing, x, node).Some? ==> !Ownerless(KeepingForRetry(closing, x, node).value.0)
  {
  }

  lemma LooseDisowns(h: HandleId, x: Handle, node: Node, luck: Luck)
    requires LettingLoose(h, x, node, luck).Some?
    ensures !Ownerless(LettingLoose(h, x, node, luck).value.0)
  {
  }

  lemma UnmountDisowns(c: Config, h: HandleId, x: Handle, node: Node, luck: Luck)
    ensures Unmounted(c, h, x, node, luck).Some? ==> !Ownerless(Unmounted(c, h, x, node, luck).value.0)
  {
  }

  lemma RegionDisowns(c: Config, closing: bool, h: HandleId, x: Handle, node: Node, luck: Luck)
    requires Advance(c, closing, h, x, node, luck).Some?
    ensures Ownerless(Advance(c, closing, h, x, node, luck).value.0) <==> Ownerless(x)
  {
    ChoosingDisowns(c, x, node, luck);
    RetryDisowns(closing, x, node);
    if LettingLoose(h, x, node, luck).Some? { LooseDisowns(h, x, node, luck); }
    UnmountDisowns(c, h, x, node, luck);
  }

  lemma RequestDisowns(s: State, a: Action, h: HandleId)
    requires NodeStep(s, a).Some?
    ensures HasOwnerless(NodeStep(s, a).value, h) <==> HasOwnerless(s, h)
  {
  }

  lemma GoDisowns(c: Config, s: State, g: HandleId, luck: Luck, h: HandleId)
    requires GoStep(c, s, g, luck).Some?
    ensures HasOwnerless(GoStep(c, s, g, luck).value, h) <==> HasOwnerless(s, h)
  {
    RegionDisowns(c, s.closing, g, s.handles[g], s.nodes[s.handles[g].node], luck);
  }

  lemma WalkDisowns(s: State, g: HandleId, h: HandleId)
    requires WalkStep(s, g).Some?
    ensures HasOwnerless(Put(s, g, WalkStep(s, g).value), h) <==> HasOwnerless(s, h)
  {
  }

  lemma HandlePartDisowns(s: State, g: HandleId, a: Action, h: HandleId)
    requires HandlesOk(s) && Has(s, g)
    requires HandleStep(s.closing, g, s.handles[g], s.nodes[s.handles[g].node], a).Some?
    ensures HasOwnerless(Put(s, g, HandleStep(s.closing, g, s.handles[g], s.nodes[s.handles[g].node], a).value), h) <==>
      HasOwnerless(s, h) || (h == g && a.Take? && a.taker == Writer(true))
  {
    ParkedIsWaiting(s, g);
    ActDisowns(s.closing, g, s.handles[g], s.nodes[s.handles[g].node], a);
  }

  lemma ParkedIsWaiting(s: State, g: HandleId)
    requires HandlesOk(s) && Has(s, g)
    ensures s.handles[g].buffer.parked <==> s.handles[g].pc.Waiting?
  {
    assert Shape(g, s.handles[g], s.nodes[s.handles[g].node]);
  }

  lemma StepDisowns(c: Config, s: State, a: Action, h: HandleId)
    requires HandlesOk(s) && Step(c, s, a).Some?
    ensures HasOwnerless(Step(c, s, a).value, h) <==> HasOwnerless(s, h) || a == Take(h, Writer(true))
  {
    match a
    case Mount(_, _, _) | Create(_, _, _) | OpenNew(_, _) | Retarget(_, _, _) | ReplaceLink(_, _) | Unlock(_) | StartClosing =>
      RequestDisowns(s, a, h);
    case Go(g, luck) => GoDisowns(c, s, g, luck, h);
    case Walk(g) => WalkDisowns(s, g, h);
    case _ => HandlePartDisowns(s, a.h, a, h);
  }

  lemma {:induction false} RunDisowns(c: Config, s: State, run: seq<Action>, h: HandleId)
    requires Inv(s) && Run(c, s, run).Some?
    ensures HasOwnerless(Run(c, s, run).value, h) <==> HasOwnerless(s, h) || Take(h, Writer(true)) in run
    decreases |run|
  {
    if run != [] {
      StepKeepsInv(c, s, run[0]);
      StepDisowns(c, s, run[0], h);
      RunDisowns(c, Step(c, s, run[0]).value, run[1..], h);
      assert run == [run[0]] + run[1..];
    }
  }

  /** In every run a buffer ends without an owner exactly when some open took it back and failed to truncate it. */
  lemma OwnerlessIffTruncateFailed(c: Config, run: seq<Action>, h: HandleId)
    requires Run(c, EMPTY, run).Some?
    ensures HasOwnerless(Run(c, EMPTY, run).value, h) <==> Take(h, Writer(true)) in run
  {
    EmptyIsInv();
    RunDisowns(c, EMPTY, run, h);
  }
}
