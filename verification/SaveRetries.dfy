/** When an upload is tried, in every run: how long a failed one waits, and what is never tried at all. */
module SaveRetries {
  import opened Wrappers
  import opened Buffers
  import opened SaveInvariants
  import opened SaveProtocol
  import opened SaveSafety

  /** The wait is the one for the failures since the buffer was last taken back. */
  ghost predicate WaitOk(x: Handle) {
    x.buffer.retryIn == WaitAfter(x.past.fails)
  }

  ghost predicate Waits(s: State) {
    forall h <- s.handles :: WaitOk(s.handles[h])
  }

  predicate Keeps(x: Handle, x': Handle) {
    x'.buffer.retryIn == x.buffer.retryIn && x'.past.fails == x.past.fails
  }

  /** A step keeps the wait and the failures, starts both over, or backs off by one more failure. */
  predicate Moves(x: Handle, x': Handle) {
    || Keeps(x, x')
    || (x'.buffer.retryIn == 0 && x'.past.fails == 0)
    || (x'.buffer.retryIn == x.buffer.BackOff().retryIn && x'.past.fails == x.past.fails + 1)
  }

  lemma MoveKeepsWait(x: Handle, x': Handle)
    requires WaitOk(x) && Moves(x, x')
    ensures WaitOk(x')
  {
    BackOffIsNextWait(x.buffer, x.past.fails);
  }

  lemma AttemptingKeepsWait(x: Handle, node: Node, luck: Luck)
    requires Attempting(x, node, luck).Some?
    ensures Keeps(x, Attempting(x, node, luck).value.0)
  {
    match x.pc
    case Trying(_) =>
    case Walking(_, _) =>
    case Holding(_) =>
    case _ =>
  }

  lemma AnsweredKeepsWait(x: Handle, node: Node, luck: Luck)
    requires Answered(x, node, luck).Some?
    ensures Keeps(x, Answered(x, node, luck).value.0)
  {
  }

  lemma ConcludedKeepsWait(x: Handle, node: Node, luck: Luck)
    requires Concluded(x, node, luck).Some?
    ensures Keeps(x, Concluded(x, node, luck).value.0)
  {
  }

  lemma LettingLooseKeepsWait(h: HandleId, x: Handle, node: Node, luck: Luck)
    requires LettingLoose(h, x, node, luck).Some?
    ensures Keeps(x, LettingLoose(h, x, node, luck).value.0)
  {
    match x.pc
    case Discarding(_) =>
    case Keeping(_) =>
    case Dropping(_) =>
    case _ =>
  }

  lemma UntrackedKeepsWait(x: Handle, node: Node)
    requires Untracked(x, node).Some?
    ensures Keeps(x, Untracked(x, node).value.0)
  {
  }

  lemma UnmountedKeepsWait(c: Config, h: HandleId, x: Handle, node: Node, luck: Luck)
    requires Unmounted(c, h, x, node, luck).Some?
    ensures Keeps(x, Unmounted(c, h, x, node, luck).value.0)
  {
    KeptLocalKeepsWait(h, x, node, luck.ok);
    var next := Unmounted(c, h, x, node, luck).value;
    if x.pc.timed || x.pc.failed {
      assert next.0 == x.(pc := Keeping(false));
    } else if !c.excluded(node.name) {
      assert next.0.past == x.past.(renamedAway := true) && next.0.buffer == x.buffer;
    } else if !c.hasStore {
      assert next.0.past == x.past.(unstored := true) && next.0.buffer == x.buffer;
    } else {
      assert next == KeptLocal(h, x, node, luck.ok);
    }
  }

  lemma KeptLocalKeepsWait(h: HandleId, x: Handle, node: Node, moved: bool)
    ensures Keeps(x, KeptLocal(h, x, node, moved).0)
  {
  }

  lemma ChoosingKeepsWait(c: Config, x: Handle, node: Node)
    requires Choosing(c, x, node).Some?
    ensures Keeps(x, Choosing(c, x, node).value.0)
  {
    match x.pc
    case Entered =>
    case Snapped(_, _) =>
    case Chosen(_, _, _, _) =>
    case Parking(_, _) =>
    case _ =>
  }

  lemma RetryMoves(closing: bool, x: Handle, node: Node)
    requires KeepingForRetry(closing, x, node).Some?
    ensures Moves(x, KeepingForRetry(closing, x, node).value.0)
  {
  }

  lemma AdvanceMoves(c: Config, closing: bool, h: HandleId, x: Handle, node: Node, luck: Luck)
    requires Advance(c, closing, h, x, node, luck).Some?
    ensures Moves(x, Advance(c, closing, h, x, node, luck).value.0)
  {
    match x.pc
    case Untracking(_, _) => UntrackedKeepsWait(x, node);
    case LettingGo(_, _) => UnmountedKeepsWait(c, h, x, node, luck);
    case Entered | Snapped(_, _) | Chosen(_, _, _, _) | Parking(_, _) => ChoosingKeepsWait(c, x, node);
    case Trying(_) | Walking(_, _) | Holding(_) => AttemptingKeepsWait(x, node, luck);
    case Uploading(_, _) | Uploaded(_, _, _) => AnsweredKeepsWait(x, node, luck);
    case Lost(_, _) | Claimed(_, _, _) => ConcludedKeepsWait(x, node, luck);
    case Failing(_, _) | Retrying(_, _) => RetryMoves(closing, x, node);
    case Discarding(_) | Keeping(_) | Dropping(_) => LettingLooseKeepsWait(h, x, node, luck);
    case Open | Waiting | Stranded | Done =>
  }

  lemma TakenMoves(closing: bool, x: Handle, taker: Taker)
    requires Taken(closing, x, taker).Some?
    ensures Moves(x, Taken(closing, x, taker).value)
  {
  }

  lemma HandleStepMoves(closing: bool, h: HandleId, x: Handle, node: Node, a: Action)
    requires HandleStep(closing, h, x, node, a).Some?
    ensures Moves(x, HandleStep(closing, h, x, node, a).value)
  {
    match a
    case Take(_, taker) => TakenMoves(closing, x, taker);
    case _ =>
  }

  /** h is new in t with no failure yet, or it moved on. */
  predicate StepMoves(s: State, t: State, h: HandleId) {
    h in t.handles ==>
      if h in s.handles then Moves(s.handles[h], t.handles[h])
      else t.handles[h].buffer.retryIn == 0 && t.handles[h].past.fails == 0
  }

  lemma NodeStepMoves(s: State, a: Action, h: HandleId)
    requires NodeStep(s, a).Some?
    ensures StepMoves(s, NodeStep(s, a).value, h)
  {
  }

  lemma EveryStepMoves(c: Config, s: State, a: Action, h: HandleId)
    requires Step(c, s, a).Some?
    ensures StepMoves(s, Step(c, s, a).value, h)
  {
    match a
    case Mount(_, _, _) | Create(_, _, _) | OpenNew(_, _) | Retarget(_, _, _) | ReplaceLink(_, _) | Unlock(_) | StartClosing =>
      NodeStepMoves(s, a, h);
    case Go(g, luck) => AdvanceMoves(c, s.closing, g, s.handles[g], s.nodes[s.handles[g].node], luck);
    case Walk(g) =>
    case _ => HandleStepMoves(s.closing, a.h, s.handles[a.h], s.nodes[s.handles[a.h].node], a);
  }

  lemma StepKeepsWaits(c: Config, s: State, a: Action)
    requires Waits(s) && Step(c, s, a).Some?
    ensures Waits(Step(c, s, a).value)
  {
    var t := Step(c, s, a).value;
    forall h | h in t.handles ensures WaitOk(t.handles[h]) {
      EveryStepMoves(c, s, a, h);
      if h in s.handles {
        MoveKeepsWait(s.handles[h], t.handles[h]);
      }
    }
  }

  lemma {:induction false} RunKeepsWaits(c: Config, s: State, run: seq<Action>)
    requires Waits(s) && Run(c, s, run).Some?
    ensures Waits(Run(c, s, run).value)
    decreases |run|
  {
    if run != [] {
      StepKeepsWaits(c, s, run[0]);
      RunKeepsWaits(c, Step(c, s, run[0]).value, run[1..]);
    }
  }

  /**
   * In every run the n-th transient failure in a row parks the buffer for min(30 s * 2^(n-1), 30 min),
   * counted afresh once a rename or a reopen has taken it back.
   */
  lemma RetriesDoubleUpToTheCap(c: Config, s: State, h: HandleId, node: Node)
    requires Reached(c, s) && h in s.handles
    ensures s.handles[h].buffer.retryIn == WaitAfter(s.handles[h].past.fails)
    ensures s.handles[h].pc.Retrying? && !s.handles[h].pc.permanent ==>
      var x' := KeepingForRetry(false, s.handles[h], node).value.0;
      x'.past.fails == s.handles[h].past.fails + 1 && x'.pc == Parking(WaitAfter(x'.past.fails), s.handles[h].pc.locked)
  {
    var run :| Run(c, EMPTY, run) == Some(s);
    RunKeepsWaits(c, EMPTY, run);
    RetryParksFor(s.handles[h], node);
  }

  lemma RetryParksFor(x: Handle, node: Node)
    requires WaitOk(x)
    ensures x.pc.Retrying? && !x.pc.permanent ==>
      var x' := KeepingForRetry(false, x, node).value.0;
      x'.past.fails == x.past.fails + 1 && x'.pc == Parking(WaitAfter(x'.past.fails), x.pc.locked)
  {
    BackOffIsNextWait(x.buffer, x.past.fails);
  }

  // ----- what is uploaded at all -----

  /** A Release that tries an upload had read a name that is not excluded, after its delay if it has one. */
  predicate Allowed(c: Config, pc: Pc) {
    var up := AttemptOf(pc);
    up.Some? ==> !c.excluded(up.value.name) && (up.value.due || c.delay(up.value.name) == 0)
  }

  ghost predicate AllAllowed(c: Config, s: State) {
    forall h <- s.handles :: Allowed(c, s.handles[h].pc)
  }

  /** A region keeps what its Release has read, or decides to try, or leaves the attempt. */
  predicate SameAttempt(pc: Pc, pc': Pc) {
    AttemptOf(pc').Some? ==>
      && AttemptOf(pc).Some?
      && AttemptOf(pc').value.name == AttemptOf(pc).value.name
      && AttemptOf(pc').value.due == AttemptOf(pc).value.due
  }

  lemma ChoosingIsAllowed(c: Config, x: Handle, node: Node)
    requires Choosing(c, x, node).Some?
    ensures Allowed(c, Choosing(c, x, node).value.0.pc)
  {
    match x.pc
    case Chosen(_, _, _, _) =>
    case _ =>
  }

  lemma AttemptGoesOn(x: Handle, node: Node, luck: Luck)
    ensures Attempting(x, node, luck).Some? ==> SameAttempt(x.pc, Attempting(x, node, luck).value.0.pc)
    ensures Answered(x, node, luck).Some? ==> SameAttempt(x.pc, Answered(x, node, luck).value.0.pc)
    ensures Concluded(x, node, luck).Some? ==> SameAttempt(x.pc, Concluded(x, node, luck).value.0.pc)
  {
  }

  lemma NoAttempt(c: Config, closing: bool, h: HandleId, x: Handle, node: Node, luck: Luck)
    ensures Untracked(x, node).Some? ==> AttemptOf(Untracked(x, node).value.0.pc).None?
    ensures KeepingForRetry(closing, x, node).Some? ==> AttemptOf(KeepingForRetry(closing, x, node).value.0.pc).None?
    ensures LettingLoose(h, x, node, luck).Some? ==> AttemptOf(LettingLoose(h, x, node, luck).value.0.pc).None?
  {
  }

  lemma NoAttemptAtUnmount(c: Config, h: HandleId, x: Handle, node: Node, luck: Luck)
    ensures Unmounted(c, h, x, node, luck).Some? ==> AttemptOf(Unmounted(c, h, x, node, luck).value.0.pc).None?
  {
  }

  lemma AdvanceIsAllowed(c: Config, closing: bool, h: HandleId, x: Handle, node: Node, luck: Luck)
    requires Allowed(c, x.pc) && Advance(c, closing, h, x, node, luck).Some?
    ensures Allowed(c, Advance(c, closing, h, x, node, luck).value.0.pc)
  {
    match x.pc
    case Entered | Snapped(_, _) | Chosen(_, _, _, _) | Parking(_, _) => ChoosingIsAllowed(c, x, node);
    case Trying(_) | Walking(_, _) | Holding(_) => AttemptGoesOn(x, node, luck);
    case Uploading(_, _) | Uploaded(_, _, _) | Lost(_, _) | Claimed(_, _, _) => AttemptGoesOn(x, node, luck);
    case LettingGo(_, _) => NoAttemptAtUnmount(c, h, x, node, luck);
    case _ => NoAttempt(c, closing, h, x, node, luck);
  }

  lemma HandleStepIsAllowed(c: Config, closing: bool, h: HandleId, x: Handle, node: Node, a: Action)
    requires Allowed(c, x.pc) && HandleStep(closing, h, x, node, a).Some?
    ensures Allowed(c, HandleStep(closing, h, x, node, a).value.pc)
  {
    match a
    case Take(_, taker) => assert AttemptOf(Taken(closing, x, taker).value.pc).None?;
    case _ =>
  }

  lemma NodeStepIsAllowed(c: Config, s: State, a: Action)
    requires AllAllowed(c, s) && NodeStep(s, a).Some?
    ensures AllAllowed(c, NodeStep(s, a).value)
  {
  }

  lemma StepIsAllowed(c: Config, s: State, a: Action)
    requires AllAllowed(c, s) && Step(c, s, a).Some?
    ensures AllAllowed(c, Step(c, s, a).value)
  {
    match a
    case Mount(_, _, _) | Create(_, _, _) | OpenNew(_, _) | Retarget(_, _, _) | ReplaceLink(_, _) | Unlock(_) | StartClosing =>
      NodeStepIsAllowed(c, s, a);
    case Go(h, luck) => AdvanceIsAllowed(c, s.closing, h, s.handles[h], s.nodes[s.handles[h].node], luck);
    case Walk(h) => assert SameAttempt(s.handles[h].pc, WalkStep(s, h).value.pc);
    case _ => HandleStepIsAllowed(c, s.closing, a.h, s.handles[a.h], s.nodes[s.handles[a.h].node], a);
  }

  lemma {:induction false} RunIsAllowed(c: Config, s: State, run: seq<Action>)
    requires AllAllowed(c, s) && Run(c, s, run).Some?
    ensures AllAllowed(c, Run(c, s, run).value)
    decreases |run|
  {
    if run != [] {
      StepIsAllowed(c, s, run[0]);
      RunIsAllowed(c, Step(c, s, run[0]).value, run[1..]);
    }
  }

  /**
   * In no run is anything uploaded under an excluded name, nor under a name with an upload delay
   * before that delay ran out or unmount cut it short.
   */
  lemma OnlyDueAllowedNamesAreUploaded(c: Config, s: State, h: HandleId)
    requires Reached(c, s) && h in s.handles && AttemptOf(s.handles[h].pc).Some?
    ensures var up := AttemptOf(s.handles[h].pc).value;
      !c.excluded(up.name) && (up.due || c.delay(up.name) == 0)
  {
    var run :| Run(c, EMPTY, run) == Some(s);
    RunIsAllowed(c, EMPTY, run);
    assert Allowed(c, s.handles[h].pc);
  }
}
