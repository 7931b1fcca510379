/**
 * What a Release has waited for when its walk is over: every file of the chain of replaced files that
 * was ahead of it, up to a file whose own upload was claimed meanwhile, which ends the chain there.
 */
module SaveChains {
  import opened Wrappers
  import opened Buffers
  import opened SaveInvariants
  import opened SaveProtocol
  import opened SaveRuns
  import opened SaveSafety

  /** A file walked past leads nowhere, to another one walked past, or to the one ahead. */
  predicate LeadsOn(s: State, pc: Pc, walked: set<NodeId>, b: NodeId) {
    b in s.nodes &&
    match s.nodes[b].supersedes
    case None => true
    case Some(d) => d in walked || (pc.Walking? && pc.ahead == Some(d))
  }

  ghost predicate Closed(s: State, pc: Pc) {
    AttemptOf(pc).Some? ==> forall b <- AttemptOf(pc).value.walked :: LeadsOn(s, pc, AttemptOf(pc).value.walked, b)
  }

  ghost predicate WalksClosed(s: State) {
    forall h <- s.handles :: Closed(s, s.handles[h].pc)
  }

  /** A file out of the tree keeps its edge, or loses it to a claim. */
  predicate EdgeStays(s: State, t: State, b: NodeId) {
    b in s.nodes && s.nodes[b].leftAt.Some? ==>
      b in t.nodes && (t.nodes[b].supersedes == s.nodes[b].supersedes || t.nodes[b].supersedes == None)
  }

  ghost predicate EdgesStay(s: State, t: State) {
    forall b <- s.nodes :: EdgeStays(s, t, b)
  }

  // ----- one step -----

  /** A region keeps what its Release has walked past, and walks on only from its stat of the temp file. */
  predicate SameWalk(pc: Pc, pc': Pc) {
    AttemptOf(pc').Some? ==>
      || pc'.Trying?
      || (&& AttemptOf(pc).Some?
          && AttemptOf(pc').value.walked == AttemptOf(pc).value.walked
          && (pc'.Walking? ==> pc.Trying? || (pc.Walking? && pc'.ahead == pc.ahead))
          && (!pc'.Walking? ==> !pc.Walking? || pc.ahead.None?))
  }

  lemma AttemptingKeepsWalk(x: Handle, node: Node, luck: Luck)
    ensures Attempting(x, node, luck).Some? ==> SameWalk(x.pc, Attempting(x, node, luck).value.0.pc)
  {
  }

  lemma AnsweredKeepsWalk(x: Handle, node: Node, luck: Luck)
    ensures Answered(x, node, luck).Some? ==> SameWalk(x.pc, Answered(x, node, luck).value.0.pc)
    ensures Concluded(x, node, luck).Some? ==> SameWalk(x.pc, Concluded(x, node, luck).value.0.pc)
  {
  }

  lemma ChoosingKeepsWalk(c: Config, x: Handle, node: Node)
    ensures Choosing(c, x, node).Some? ==> SameWalk(x.pc, Choosing(c, x, node).value.0.pc)
    ensures Untracked(x, node).Some? ==> SameWalk(x.pc, Untracked(x, node).value.0.pc)
  {
  }

  lemma EndingKeepsWalk(closing: bool, h: HandleId, x: Handle, node: Node, luck: Luck)
    ensures KeepingForRetry(closing, x, node).Some? ==> SameWalk(x.pc, KeepingForRetry(closing, x, node).value.0.pc)
    ensures LettingLoose(h, x, node, luck).Some? ==> SameWalk(x.pc, LettingLoose(h, x, node, luck).value.0.pc)
  {
  }

  lemma UnmountKeepsWalk(c: Config, h: HandleId, x: Handle, node: Node, luck: Luck)
    ensures Unmounted(c, h, x, node, luck).Some? ==> SameWalk(x.pc, Unmounted(c, h, x, node, luck).value.0.pc)
  {
  }

  lemma RegionKeepsWalk(c: Config, closing: bool, h: HandleId, x: Handle, node: Node, luck: Luck)
    requires Advance(c, closing, h, x, node, luck).Some?
    ensures SameWalk(x.pc, Advance(c, closing, h, x, node, luck).value.0.pc)
  {
    match x.pc
    case Trying(_) | Walking(_, _) | Holding(_) => AttemptingKeepsWalk(x, node, luck);
    case Uploading(_, _) | Uploaded(_, _, _) | Lost(_, _) | Claimed(_, _, _) => AnsweredKeepsWalk(x, node, luck);
    case Untracking(_, _) | Entered | Snapped(_, _) | Chosen(_, _, _, _) | Parking(_, _) => ChoosingKeepsWalk(c, x, node);
    case LettingGo(_, _) => UnmountKeepsWalk(c, h, x, node, luck);
    case _ => EndingKeepsWalk(closing, h, x, node, luck);
  }

  lemma ActKeepsWalk(closing: bool, h: HandleId, x: Handle, node: Node, a: Action)
    requires HandleStep(closing, h, x, node, a).Some?
    ensures SameWalk(x.pc, HandleStep(closing, h, x, node, a).value.pc)
  {
  }

  lemma RequestKeepsWalk(s: State, a: Action, h: HandleId)
    requires NodeStep(s, a).Some? && h in NodeStep(s, a).value.handles
    ensures var t := NodeStep(s, a).value;
      if h in s.handles then t.handles[h].pc == s.handles[h].pc else AttemptOf(t.handles[h].pc).None?
  {
  }

  lemma RequestKeepsEdges(s: State, a: Action)
    requires NodeStep(s, a).Some?
    ensures EdgesStay(s, NodeStep(s, a).value)
  {
  }

  lemma GoKeepsEdges(c: Config, s: State, h: HandleId, luck: Luck)
    requires Inv(s) && GoStep(c, s, h, luck).Some?
    ensures EdgesStay(s, GoStep(c, s, h, luck).value)
  {
    AdvanceKeeps(c, s.closing, h, s.handles[h], s.nodes[s.handles[h].node], luck);
  }

  lemma StepKeepsEdges(c: Config, s: State, a: Action)
    requires Inv(s) && Step(c, s, a).Some?
    ensures EdgesStay(s, Step(c, s, a).value)
  {
    match a
    case Mount(_, _, _) | Create(_, _, _) | OpenNew(_, _) | Retarget(_, _, _) | ReplaceLink(_, _) | Unlock(_) | StartClosing =>
      RequestKeepsEdges(s, a);
    case Go(h, luck) => GoKeepsEdges(c, s, h, luck);
    case _ =>
  }

  /** What one step makes of h's walk when it is not the step that passes a file. */
  lemma StepKeepsWalk(c: Config, s: State, a: Action, h: HandleId)
    requires Step(c, s, a).Some? && a != Walk(h) && h in Step(c, s, a).value.handles
    ensures var t := Step(c, s, a).value;
      if h in s.handles then SameWalk(s.handles[h].pc, t.handles[h].pc) else AttemptOf(t.handles[h].pc).None?
  {
    match a
    case Mount(_, _, _) | Create(_, _, _) | OpenNew(_, _) | Retarget(_, _, _) | ReplaceLink(_, _) | Unlock(_) | StartClosing =>
      RequestKeepsWalk(s, a, h);
    case Go(g, luck) => RegionKeepsWalk(c, s.closing, g, s.handles[g], s.nodes[s.handles[g].node], luck);
    case Walk(_) =>
    case _ => ActKeepsWalk(s.closing, a.h, s.handles[a.h], s.nodes[s.handles[a.h].node], a);
  }

  lemma SameWalkStaysClosed(s: State, t: State, pc: Pc, pc': Pc)
    requires Walked(s, pc) && Closed(s, pc) && EdgesStay(s, t) && SameWalk(pc, pc') && Walked(t, pc')
    ensures Closed(t, pc')
  {
    if AttemptOf(pc').Some? && !pc'.Trying? {
      var walked := AttemptOf(pc').value.walked;
      forall b | b in walked ensures LeadsOn(t, pc', walked, b) {
        assert Behind(s, pc, b) && EdgeStays(s, t, b) && LeadsOn(s, pc, walked, b);
      }
    }
  }

  /** Passing a file goes on along its own edge. */
  lemma WalkStaysClosed(s: State, h: HandleId)
    requires WalkStep(s, h).Some? && Closed(s, s.handles[h].pc)
    ensures Closed(Put(s, h, WalkStep(s, h).value), WalkStep(s, h).value.pc)
  {
    var pc, pc' := s.handles[h].pc, WalkStep(s, h).value.pc;
    forall b | b in pc'.up.walked ensures LeadsOn(Put(s, h, WalkStep(s, h).value), pc', pc'.up.walked, b) {
      if b in pc.up.walked {
        assert LeadsOn(s, pc, pc.up.walked, b);
      }
    }
  }

  lemma HandleStaysClosed(c: Config, s: State, a: Action, h: HandleId, t: State)
    requires Inv(s) && WalksClosed(s) && Step(c, s, a) == Some(t) && Inv(t) && EdgesStay(s, t) && h in t.handles
    ensures Closed(t, t.handles[h].pc)
  {
    if a == Walk(h) {
      WalkStaysClosed(s, h);
    } else {
      StepKeepsWalk(c, s, a, h);
      if h in s.handles {
        SameWalkStaysClosed(s, t, s.handles[h].pc, t.handles[h].pc);
      }
    }
  }

  lemma StepKeepsClosed(c: Config, s: State, a: Action)
    requires Inv(s) && WalksClosed(s) && Step(c, s, a).Some?
    ensures WalksClosed(Step(c, s, a).value)
  {
    var t := Step(c, s, a).value;
    StepKeepsInv(c, s, a);
    StepKeepsEdges(c, s, a);
    forall h | h in t.handles ensures Closed(t, t.handles[h].pc) {
      HandleStaysClosed(c, s, a, h, t);
    }
  }

  lemma {:induction false} RunKeepsClosed(c: Config, s: State, run: seq<Action>)
    requires Inv(s) && WalksClosed(s) && Run(c, s, run).Some?
    ensures WalksClosed(Run(c, s, run).value) && Inv(Run(c, s, run).value)
    decreases |run|
  {
    if run != [] {
      StepKeepsInv(c, s, run[0]);
      StepKeepsClosed(c, s, run[0]);
      RunKeepsClosed(c, Step(c, s, run[0]).value, run[1..]);
    }
  }

  lemma ReachedIsClosed(c: Config, s: State)
    requires Reached(c, s)
    ensures Inv(s) && WalksClosed(s)
  {
    var run :| Run(c, EMPTY, run) == Some(s);
    EmptyIsInv();
    RunKeepsClosed(c, EMPTY, run);
  }

  // ----- a whole walk -----

  /** One attempt of h goes on through the whole run, past its stat of the temp file. */
  predicate OneAttempt(c: Config, s: State, run: seq<Action>, h: HandleId)
    decreases |run|
  {
    && h in s.handles && AttemptOf(s.handles[h].pc).Some? && !s.handles[h].pc.Trying?
    && (run != [] ==> Step(c, s, run[0]).Some? && OneAttempt(c, Step(c, s, run[0]).value, run[1..], h))
  }

  /** The walk has passed a, or comes to it next. */
  predicate At(pc: Pc, a: NodeId) {
    AttemptOf(pc).Some? && (a in AttemptOf(pc).value.walked || (pc.Walking? && pc.ahead == Some(a)))
  }

  lemma StepStaysAt(c: Config, s: State, a: Action, h: HandleId, b: NodeId)
    requires Step(c, s, a).Some? && h in s.handles && At(s.handles[h].pc, b) && !s.handles[h].pc.Trying?
    requires var t := Step(c, s, a).value; h in t.handles && AttemptOf(t.handles[h].pc).Some? && !t.handles[h].pc.Trying?
    ensures At(Step(c, s, a).value.handles[h].pc, b)
  {
    if a != Walk(h) {
      StepKeepsWalk(c, s, a, h);
    }
  }

  lemma EdgesStayOn(s: State, u: State, t: State)
    requires LaterNodes(s, u) && EdgesStay(s, u) && EdgesStay(u, t)
    ensures EdgesStay(s, t)
  {
    forall b | b in s.nodes ensures EdgeStays(s, t, b) {
      assert EdgeStays(s, u, b);
      if s.nodes[b].leftAt.Some? { assert EdgeStays(u, t, b); }
    }
  }

  lemma StepIsLater(c: Config, s: State, a: Action)
    requires Inv(s) && Step(c, s, a).Some?
    ensures var u := Step(c, s, a).value; Inv(u) && LaterNodes(s, u) && EdgesStay(s, u)
  {
    StepKeepsInv(c, s, a);
    StepKeepsEdges(c, s, a);
  }

  lemma {:induction false} RunStaysAt(c: Config, s: State, run: seq<Action>, h: HandleId, a: NodeId)
    requires Inv(s) && OneAttempt(c, s, run, h) && At(s.handles[h].pc, a)
    ensures Run(c, s, run).Some?
    ensures var t := Run(c, s, run).value; EdgesStay(s, t) && h in t.handles && At(t.handles[h].pc, a)
    decreases |run|
  {
    if run != [] {
      var u := Step(c, s, run[0]).value;
      assert OneAttempt(c, u, run[1..], h);
      StepIsLater(c, s, run[0]);
      StepStaysAt(c, s, run[0], h, a);
      RunStaysAt(c, u, run[1..], h, a);
      EdgesStayOn(s, u, Run(c, u, run[1..]).value);
    }
  }

  /** The chain p was cut before its i-th file: an earlier one, walked past, has lost its edge. */
  ghost predicate CutBefore(t: State, walked: set<NodeId>, p: seq<NodeId>, i: nat)
    requires i < |p|
  {
    exists j :: 0 <= j < i && p[j] in walked && p[j] in t.nodes && t.nodes[p[j]].supersedes == None
  }

  lemma {:induction false} ChainIsWalked(s: State, t: State, pc: Pc, p: seq<NodeId>, i: nat)
    requires Inv(s) && Chain(s, p) && i < |p| && s.nodes[p[0]].leftAt.Some?
    requires EdgesStay(s, t) && Closed(t, pc) && AttemptOf(pc).Some? && !(pc.Walking? && pc.ahead.Some?)
    requires p[0] in AttemptOf(pc).value.walked
    ensures p[i] in AttemptOf(pc).value.walked || CutBefore(t, AttemptOf(pc).value.walked, p, i)
  {
    if i > 0 {
      var walked := AttemptOf(pc).value.walked;
      ChainIsWalked(s, t, pc, p, i - 1);
      if CutBefore(t, walked, p, i - 1) {
        var j :| 0 <= j < i - 1 && p[j] in walked && p[j] in t.nodes && t.nodes[p[j]].supersedes == None;
      } else {
        var b := p[i - 1];
        assert LeadsOn(t, pc, walked, b) && EdgeStays(s, t, b);
        if i > 1 { ChainGoesBack(s, p, i - 1); }
        assert s.nodes[b].supersedes == Some(p[i]);
      }
    }
  }

  /**
   * Once a Release is past its walk, it has passed every file of the chain that was ahead of it when the
   * walk began, whatever happened meanwhile, up to a file whose edge a claim has ended.
   */
  lemma WalkCoversTheChain(c: Config, s: State, run: seq<Action>, h: HandleId, p: seq<NodeId>, i: nat)
    requires Reached(c, s) && OneAttempt(c, s, run, h)
    requires Run(c, s, run).Some? && h in Run(c, s, run).value.handles
    requires s.handles[h].pc.Walking? && Chain(s, p) && i < |p| && s.handles[h].pc.ahead == Some(p[0])
    requires var pc := Run(c, s, run).value.handles[h].pc; !(pc.Walking? && pc.ahead.Some?)
    ensures var t := Run(c, s, run).value;
      && h in t.handles && AttemptOf(t.handles[h].pc).Some?
      && var walked := AttemptOf(t.handles[h].pc).value.walked;
         p[i] in walked || CutBefore(t, walked, p, i)
  {
    ReachedIsClosed(c, s);
    assert Walked(s, s.handles[h].pc);
    RunStaysAt(c, s, run, h, p[0]);
    RunKeepsClosed(c, s, run);
    ChainIsWalked(s, Run(c, s, run).value, Run(c, s, run).value.handles[h].pc, p, i);
  }

  /** The step is the claim of an upload of b. */
  predicate Claims(c: Config, s: State, a: Action, b: NodeId) {
    && a.Go? && Step(c, s, a).Some?
    && a.h in s.handles && s.handles[a.h].node == b && s.handles[a.h].pc.Uploaded?
    && a.h in Step(c, s, a).value.handles && Step(c, s, a).value.handles[a.h].pc.Claimed?
  }

  /** An edge of a file out of the tree ends only with the claim of that file's own upload. */
  lemma OnlyAClaimEndsAnEdge(c: Config, s: State, a: Action, b: NodeId)
    requires Inv(s) && Step(c, s, a).Some? && b in s.nodes && s.nodes[b].leftAt.Some? && s.nodes[b].supersedes.Some?
    requires var t := Step(c, s, a).value; b in t.nodes && t.nodes[b].supersedes == None
    ensures Claims(c, s, a, b)
  {
    match a
    case Mount(_, _, _) | Create(_, _, _) | OpenNew(_, _) | Retarget(_, _, _) | ReplaceLink(_, _) | Unlock(_) | StartClosing =>
    case Go(h, luck) => RegionEndsEdge(c, s.closing, h, s.handles[h], s.nodes[s.handles[h].node], luck);
    case _ =>
  }

  lemma RegionEndsEdge(c: Config, closing: bool, h: HandleId, x: Handle, node: Node, luck: Luck)
    requires Advance(c, closing, h, x, node, luck).Some?
    ensures var next := Advance(c, closing, h, x, node, luck).value;
      next.1.supersedes != node.supersedes ==> x.pc.Uploaded? && next.0.pc.Claimed?
  {
  }

  /** The run has the claim of an upload of b. */
  ghost predicate ClaimIn(c: Config, s: State, run: seq<Action>, b: NodeId)
    decreases |run|
  {
    && run != [] && Step(c, s, run[0]).Some?
    && (Claims(c, s, run[0], b) || ClaimIn(c, Step(c, s, run[0]).value, run[1..], b))
  }

  lemma EdgeKeptOrClaimed(c: Config, s: State, a: Action, b: NodeId)
    requires Inv(s) && Step(c, s, a).Some? && b in s.nodes && s.nodes[b].leftAt.Some? && s.nodes[b].supersedes.Some?
    ensures var u := Step(c, s, a).value;
      && Inv(u) && b in u.nodes && u.nodes[b].leftAt.Some?
      && (u.nodes[b].supersedes.Some? || Claims(c, s, a, b))
  {
    StepIsLater(c, s, a);
    assert EdgeStays(s, Step(c, s, a).value, b);
    if Step(c, s, a).value.nodes[b].supersedes == None {
      OnlyAClaimEndsAnEdge(c, s, a, b);
    }
  }

  lemma {:induction false} LostEdgeWasClaimed(c: Config, s: State, run: seq<Action>, b: NodeId)
    requires Inv(s) && Run(c, s, run).Some? && b in s.nodes && s.nodes[b].leftAt.Some? && s.nodes[b].supersedes.Some?
    requires var t := Run(c, s, run).value; b in t.nodes && t.nodes[b].supersedes == None
    ensures ClaimIn(c, s, run, b)
    decreases |run|
  {
    if run != [] {
      EdgeKeptOrClaimed(c, s, run[0], b);
      if !Claims(c, s, run[0], b) {
        LostEdgeWasClaimed(c, Step(c, s, run[0]).value, run[1..], b);
      }
    }
  }

  /** Where a chain was cut, the run has the claim of an upload of a file on it, before the one not walked. */
  lemma CutByAClaim(c: Config, s: State, run: seq<Action>, walked: set<NodeId>, p: seq<NodeId>, i: nat)
    requires Reached(c, s) && Run(c, s, run).Some? && Chain(s, p) && i < |p| && s.nodes[p[0]].leftAt.Some?
    requires CutBefore(Run(c, s, run).value, walked, p, i)
    ensures exists j :: 0 <= j < i && ClaimIn(c, s, run, p[j])
  {
    ReachedIsClosed(c, s);
    var t := Run(c, s, run).value;
    var j :| 0 <= j < i && p[j] in walked && p[j] in t.nodes && t.nodes[p[j]].supersedes == None;
    if j > 0 { ChainGoesBack(s, p, j); }
    assert s.nodes[p[j]].supersedes == Some(p[j + 1]);
    LostEdgeWasClaimed(c, s, run, p[j]);
  }

  lemma {:induction false} RunsJoin(c: Config, s: State, a: seq<Action>, u: State, b: seq<Action>)
    requires Run(c, s, a) == Some(u)
    ensures Run(c, s, a + b) == Run(c, u, b)
    decreases |a|
  {
    if a == [] {
      assert a + b == b;
    } else {
      assert (a + b)[1..] == a[1..] + b;
      RunsJoin(c, Step(c, s, a[0]).value, a[1..], u, b);
    }
  }

  lemma ReachedOn(c: Config, s: State, run: seq<Action>)
    requires Reached(c, s) && Run(c, s, run).Some?
    ensures Reached(c, Run(c, s, run).value)
  {
    var first :| Run(c, EMPTY, first) == Some(s);
    RunsJoin(c, EMPTY, first, s, run);
  }

  /**
   * So when it uploads, no upload of any file of that chain is in flight, and none follows in any run, up
   * to a file whose own upload was claimed, and but for the files it passed before their mark.
   */
  lemma UploadOverlapsNoneOfTheChain(c: Config, s: State, run: seq<Action>, more: seq<Action>, h: HandleId,
                                     p: seq<NodeId>, i: nat, g: HandleId)
    requires Reached(c, s) && OneAttempt(c, s, run, h)
    requires Run(c, s, run).Some? && h in Run(c, s, run).value.handles
    requires s.handles[h].pc.Walking? && Chain(s, p) && i < |p| && s.handles[h].pc.ahead == Some(p[0])
    requires Sending(Run(c, s, run).value.handles[h].pc) && Run(c, Run(c, s, run).value, more).Some?
    ensures var t := Run(c, s, run).value;
      && h in t.handles && AttemptOf(t.handles[h].pc).Some?
      && var up := AttemptOf(t.handles[h].pc).value;
         var u := Run(c, t, more).value;
         || p[i] in up.early
         || CutBefore(t, up.walked, p, i)
         || (g in u.handles && u.handles[g].node == p[i] ==> !Sending(u.handles[g].pc))
  {
    WalkCoversTheChain(c, s, run, h, p, i);
    ReachedOn(c, s, run);
    var t := Run(c, s, run).value;
    var up := AttemptOf(t.handles[h].pc).value;
    if p[i] in up.walked - up.early {
      WalkedFileIsNeverSentAgain(c, t, more, h, p[i], g);
    }
  }

  /** The walk starts at the edge of its own file. */
  lemma WalkStartsAtOwnEdge(c: Config, s: State, h: HandleId, luck: Luck)
    requires Has(s, h) && s.handles[h].pc.Trying? && luck.ok
    ensures Step(c, s, Go(h, luck)).Some?
    ensures var t := Step(c, s, Go(h, luck)).value;
      h in t.handles && t.handles[h].pc.Walking? && t.handles[h].pc.ahead == s.nodes[s.handles[h].node].supersedes &&
      t.nodes == s.nodes && t.handles[h].node == s.handles[h].node
  {
    var x, node := s.handles[h], s.nodes[s.handles[h].node];
    assert Attempting(x, node, luck) == Some((x.(pc := Walking(node.supersedes, x.pc.up)), node));
    assert s.nodes[x.node := node] == s.nodes;
  }

  /**
   * From the stat of the temp file on: what a Release has passed once it is past its walk is the chain of
   * files its own file was renamed over, directly and through one another, as it was when the walk began,
   * up to a file whose edge a claim has ended.
   */
  lemma ReleaseWaitsForItsChain(c: Config, s: State, h: HandleId, luck: Luck, run: seq<Action>, p: seq<NodeId>, i: nat)
    requires Reached(c, s) && Has(s, h) && s.handles[h].pc.Trying? && luck.ok && Step(c, s, Go(h, luck)).Some?
    requires Chain(s, p) && 0 < i < |p| && p[0] == s.handles[h].node
    requires var u := Step(c, s, Go(h, luck)).value;
      && OneAttempt(c, u, run, h) && Run(c, u, run).Some? && h in Run(c, u, run).value.handles
      && var pc := Run(c, u, run).value.handles[h].pc; !(pc.Walking? && pc.ahead.Some?)
    ensures var t := Run(c, Step(c, s, Go(h, luck)).value, run).value;
      && AttemptOf(t.handles[h].pc).Some?
      && var walked := AttemptOf(t.handles[h].pc).value.walked;
         p[i] in walked || CutBefore(t, walked, p[1..], i - 1)
  {
    WalkStartsAtOwnEdge(c, s, h, luck);
    var u := Step(c, s, Go(h, luck)).value;
    assert Run(c, u, []) == Some(u) && [Go(h, luck)][1..] == [];
    ReachedOn(c, s, [Go(h, luck)]);
    assert Chain(u, p[1..]);
    WalkCoversTheChain(c, u, run, h, p[1..], i - 1);
  }
}
