/** awaitReplaced over whole runs: how often one walk can go on, and how soon whatever holds it up lets go. */
module SaveWalks {
  import opened Wrappers
  import opened Buffers
  import opened SaveInvariants
  import opened SaveProtocol
  import opened SaveRuns
  import opened SaveSafety

  // ----- the walk ends -----

  /** A bound on the files still ahead: the moment the next one left the tree, counted from one. */
  function Ahead(s: State, pc: Pc): nat {
    if pc.Walking? && pc.ahead.Some? && pc.ahead.value in s.nodes && s.nodes[pc.ahead.value].leftAt.Some?
    then s.nodes[pc.ahead.value].leftAt.value + 1
    else 0
  }

  /** Passing a file brings the walk strictly nearer to its end. */
  lemma WalkGetsNearer(s: State, h: HandleId)
    requires Inv(s) && WalkStep(s, h).Some?
    ensures Ahead(s, WalkStep(s, h).value.pc) < Ahead(s, s.handles[h].pc)
  {
    assert Walked(s, s.handles[h].pc);
    PassedIsBehind(s, h);
  }

  /** The region after a walk is no walk, and no other step on the handle touches it. */
  lemma RegionEndsWalk(c: Config, closing: bool, h: HandleId, x: Handle, node: Node, luck: Luck)
    requires x.pc.Walking? && Advance(c, closing, h, x, node, luck).Some?
    ensures !Advance(c, closing, h, x, node, luck).value.0.pc.Walking?
  {
  }

  lemma ActKeepsWalk(closing: bool, h: HandleId, x: Handle, node: Node, a: Action)
    requires x.pc.Walking? && HandleStep(closing, h, x, node, a).Some?
    ensures var pc := HandleStep(closing, h, x, node, a).value.pc; pc == x.pc || !pc.Walking?
  {
  }

  lemma ActsKeepWalk(s: State, h: HandleId, a: Action)
    requires h in s.handles && s.handles[h].pc.Walking?
    ensures Has(s, h) && HandleStep(s.closing, h, s.handles[h], s.nodes[s.handles[h].node], a).Some? ==>
      var pc := HandleStep(s.closing, h, s.handles[h], s.nodes[s.handles[h].node], a).value.pc;
      pc == s.handles[h].pc || !pc.Walking?
  {
    if Has(s, h) && HandleStep(s.closing, h, s.handles[h], s.nodes[s.handles[h].node], a).Some? {
      ActKeepsWalk(s.closing, h, s.handles[h], s.nodes[s.handles[h].node], a);
    }
  }

  lemma NodeStepKeepsPc(s: State, a: Action, h: HandleId)
    requires NodeStep(s, a).Some? && h in s.handles
    ensures h in NodeStep(s, a).value.handles && NodeStep(s, a).value.handles[h].pc == s.handles[h].pc
  {
  }

  lemma OtherStepKeepsWalk(c: Config, s: State, a: Action, h: HandleId)
    requires h in s.handles && s.handles[h].pc.Walking? && a != Walk(h) && Step(c, s, a).Some?
    ensures var t := Step(c, s, a).value;
      h in t.handles && (t.handles[h].pc == s.handles[h].pc || !t.handles[h].pc.Walking?)
  {
    match a
    case Mount(_, _, _) | Create(_, _, _) | OpenNew(_, _) | Retarget(_, _, _) | ReplaceLink(_, _) | Unlock(_) | StartClosing =>
      NodeStepKeepsPc(s, a, h);
    case Go(g, luck) =>
      if g == h { RegionEndsWalk(c, s.closing, h, s.handles[h], s.nodes[s.handles[h].node], luck); }
    case Walk(g) =>
    case _ =>
      if a.h == h { ActsKeepWalk(s, h, a); }
  }

  /** What left the tree stays there, at the same moment, so what is ahead of an untouched walk stays as far ahead. */
  lemma AheadStays(s: State, t: State, pc: Pc)
    requires LaterNodes(s, t) && Walked(s, pc)
    ensures Ahead(t, pc) == Ahead(s, pc)
  {
  }

  /** h goes on walking through the whole run. */
  predicate StaysWalking(c: Config, s: State, run: seq<Action>, h: HandleId)
    decreases |run|
  {
    && h in s.handles && s.handles[h].pc.Walking?
    && (run != [] ==> Step(c, s, run[0]).Some? && StaysWalking(c, Step(c, s, run[0]).value, run[1..], h))
  }

  /** How many files h passes in the run. */
  function Passed(run: seq<Action>, h: HandleId): nat {
    if run == [] then 0 else (if run[0] == Walk(h) then 1 else 0) + Passed(run[1..], h)
  }

  lemma StepIsLater(c: Config, s: State, a: Action)
    requires Inv(s) && Step(c, s, a).Some?
    ensures Inv(Step(c, s, a).value) && LaterNodes(s, Step(c, s, a).value)
  {
    StepKeepsInv(c, s, a);
  }

  lemma WalkIsWalked(s: State, h: HandleId)
    requires Inv(s) && h in s.handles
    ensures Walked(s, s.handles[h].pc)
  {
  }

  lemma WalkStepBringsNearer(c: Config, s: State, h: HandleId)
    requires Inv(s) && WalkStep(s, h).Some?
    ensures var t := Put(s, h, WalkStep(s, h).value); Ahead(t, t.handles[h].pc) + 1 <= Ahead(s, s.handles[h].pc)
  {
    WalkGetsNearer(s, h);
    AheadAfterWalk(s, h);
  }

  lemma AheadAfterWalk(s: State, h: HandleId)
    requires WalkStep(s, h).Some?
    ensures var x := WalkStep(s, h).value; Ahead(Put(s, h, x), x.pc) == Ahead(s, x.pc)
  {
  }

  /** A step with h walking before and after it brings it nearer if it is its own, and else leaves it as far. */
  lemma StepBringsNearer(c: Config, s: State, a: Action, h: HandleId, t: State)
    requires Inv(s) && Step(c, s, a) == Some(t) && LaterNodes(s, t)
    requires h in s.handles && s.handles[h].pc.Walking?
    requires h in t.handles && t.handles[h].pc.Walking?
    ensures Ahead(t, t.handles[h].pc) + (if a == Walk(h) then 1 else 0) <= Ahead(s, s.handles[h].pc)
  {
    if a == Walk(h) {
      WalkStepBringsNearer(c, s, h);
    } else {
      OtherStepKeepsWalk(c, s, a, h);
      WalkIsWalked(s, h);
      AheadStays(s, t, s.handles[h].pc);
    }
  }

  lemma {:induction false} WalkIsBounded(c: Config, s: State, run: seq<Action>, h: HandleId)
    requires Inv(s) && StaysWalking(c, s, run, h)
    ensures Passed(run, h) <= Ahead(s, s.handles[h].pc)
    decreases |run|
  {
    if run != [] {
      OneStepBounded(c, s, run, h);
      WalkIsBounded(c, Step(c, s, run[0]).value, run[1..], h);
    }
  }

  lemma OneStepBounded(c: Config, s: State, run: seq<Action>, h: HandleId)
    requires Inv(s) && run != [] && StaysWalking(c, s, run, h)
    ensures var t := Step(c, s, run[0]).value;
      && Inv(t) && h in t.handles
      && Ahead(t, t.handles[h].pc) + (if run[0] == Walk(h) then 1 else 0) <= Ahead(s, s.handles[h].pc)
  {
    var t := Step(c, s, run[0]).value;
    assert StaysWalking(c, t, run[1..], h);
    StepIsLater(c, s, run[0]);
    StepBringsNearer(c, s, run[0], h, t);
  }

  /**
   * awaitReplaced ends in every run: whatever else happens meanwhile, new files and renames included,
   * one walk passes no more files than had left the tree when it was where it is in s.
   */
  lemma WalkEnds(c: Config, s: State, run: seq<Action>, h: HandleId)
    requires Reached(c, s) && StaysWalking(c, s, run, h)
    ensures Passed(run, h) <= Ahead(s, s.handles[h].pc) <= s.clock
  {
    ReachedIsInv(c, s);
    WalkIsBounded(c, s, run, h);
    var pc := s.handles[h].pc;
    if pc.ahead.Some? && pc.ahead.value in s.nodes {
      assert NodeOk(s, pc.ahead.value);
    }
  }

  // ----- what holds it up lets go -----

  /** The regions a lock holder has left, at most, before it lets the lock go. */
  function ToUnlock(pc: Pc): nat {
    match pc
    case Holding(_) => 5
    case Uploading(_, _) => 4
    case Uploaded(_, _, _) | Failing(_, _) => 3
    case Lost(_, _) | Claimed(_, _, _) | Retrying(_, _) | Discarding(_) => 2
    case _ => 1
  }

  /** The lock is let go, or its holder has a region less left. */
  predicate Nearer(x: Handle, x': Handle, node': Node) {
    node'.mu.Leaving? || (Locked(x'.pc) && node'.mu.Held? && ToUnlock(x'.pc) < ToUnlock(x.pc))
  }

  lemma TryingHolderComesNearer(x: Handle, node: Node, luck: Luck)
    requires x.pc.Holding? && node.mu.Held?
    ensures Attempting(x, node, luck).Some?
    ensures var next := Attempting(x, node, luck).value; Nearer(x, next.0, next.1)
  {
  }

  lemma UploadingHolderComesNearer(x: Handle, node: Node, luck: Luck)
    requires (x.pc.Uploading? || x.pc.Uploaded?) && node.mu.Held?
    ensures Answered(x, node, luck).Some?
    ensures var next := Answered(x, node, luck).value; Nearer(x, next.0, next.1)
  {
  }

  lemma FailingHolderComesNearer(closing: bool, x: Handle, node: Node)
    requires (x.pc.Failing? || x.pc.Retrying?) && x.pc.locked && node.mu.Held?
    ensures KeepingForRetry(closing, x, node).Some?
    ensures var next := KeepingForRetry(closing, x, node).value; Nearer(x, next.0, next.1)
  {
  }

  lemma EndingHolderComesNearer(h: HandleId, x: Handle, node: Node, luck: Luck)
    requires (x.pc.Discarding? || x.pc.Keeping? || x.pc.Dropping?) && x.pc.locked && node.mu.Held?
    ensures LettingLoose(h, x, node, luck).Some?
    ensures var next := LettingLoose(h, x, node, luck).value; Nearer(x, next.0, next.1)
  {
  }

  lemma ConcludingHolderComesNearer(x: Handle, node: Node, luck: Luck)
    requires (x.pc.Lost? || x.pc.Claimed?) && node.mu.Held?
    ensures Concluded(x, node, luck).Some?
    ensures var next := Concluded(x, node, luck).value; Nearer(x, next.0, next.1)
  {
  }

  lemma HolderComesNearer(c: Config, closing: bool, h: HandleId, x: Handle, node: Node, luck: Luck)
    requires Locked(x.pc) && node.mu.Held?
    ensures Advance(c, closing, h, x, node, luck).Some?
    ensures var next := Advance(c, closing, h, x, node, luck).value; Nearer(x, next.0, next.1)
  {
    match x.pc
    case Holding(_) => TryingHolderComesNearer(x, node, luck);
    case Uploading(_, _) | Uploaded(_, _, _) => UploadingHolderComesNearer(x, node, luck);
    case Lost(_, _) | Claimed(_, _, _) => ConcludingHolderComesNearer(x, node, luck);
    case Failing(_, _) | Retrying(_, _) => FailingHolderComesNearer(closing, x, node);
    case Discarding(_) | Keeping(_) | Dropping(_) => EndingHolderComesNearer(h, x, node, luck);
    case _ =>
  }

  /** The handle that holds the lock of file b. */
  ghost predicate Holder(s: State, b: NodeId, g: HandleId) {
    && g in s.handles && b in s.nodes && s.handles[g].node == b
    && s.nodes[b].handle == Some(g) && s.nodes[b].mu.Held?
    && Locked(s.handles[g].pc)
    && HandleOk(g, s.handles[g], s.nodes[b])
  }

  lemma HeldHasHolder(s: State, b: NodeId)
    requires Inv(s) && b in s.nodes && s.nodes[b].mu.Held?
    ensures s.nodes[b].handle.Some? && Holder(s, b, s.nodes[b].handle.value)
  {
    assert NodeOk(s, b);
    var g := s.nodes[b].handle.value;
    assert Shape(g, s.handles[g], s.nodes[b]);
  }

  lemma HolderGoes(c: Config, s: State, b: NodeId, g: HandleId, luck: Luck)
    requires Holder(s, b, g)
    ensures GoStep(c, s, g, luck).Some?
    ensures var t := GoStep(c, s, g, luck).value;
      && b in t.nodes && g in t.handles && t.handles[g].node == b
      && Nearer(s.handles[g], t.handles[g], t.nodes[b])
  {
    var x, node := s.handles[g], s.nodes[b];
    HolderComesNearer(c, s.closing, g, x, node, luck);
    AdvanceKeeps(c, s.closing, g, x, node, luck);
    GoLeaves(c, s, g, luck);
  }

  lemma GoLeaves(c: Config, s: State, g: HandleId, luck: Luck)
    requires Has(s, g) && Advance(c, s.closing, g, s.handles[g], s.nodes[s.handles[g].node], luck).Some?
    ensures GoStep(c, s, g, luck).Some?
    ensures var next := Advance(c, s.closing, g, s.handles[g], s.nodes[s.handles[g].node], luck).value;
      var t := GoStep(c, s, g, luck).value;
      g in t.handles && t.handles[g] == next.0 && s.handles[g].node in t.nodes && t.nodes[s.handles[g].node] == next.1
  {
  }

  /** Regions of g alone, and the deferred unlock. */
  predicate OnlyHolder(run: seq<Action>, g: HandleId, b: NodeId, luck: Luck) {
    forall a <- run :: a == Unlock(b) || a == Go(g, luck)
  }

  lemma {:induction false} HolderRunsToUnlock(c: Config, s: State, b: NodeId, g: HandleId, luck: Luck) returns (run: seq<Action>, t: State)
    requires Inv(s) && Holder(s, b, g)
    ensures 0 < |run| <= ToUnlock(s.handles[g].pc) + 1 && OnlyHolder(run, g, b, luck)
    ensures Run(c, s, run) == Some(t) && b in t.nodes && t.nodes[b].mu.Free?
    decreases ToUnlock(s.handles[g].pc)
  {
    HolderMoves(c, s, b, g, luck);
    var u := GoStep(c, s, g, luck).value;
    var rest;
    if u.nodes[b].mu.Leaving? {
      rest, t := UnlockRun(c, u, b);
    } else {
      rest, t := HolderRunsToUnlock(c, u, b, g, luck);
    }
    run := [Go(g, luck)] + rest;
    RunGoesOn(c, s, g, luck, rest);
  }

  lemma HolderMoves(c: Config, s: State, b: NodeId, g: HandleId, luck: Luck)
    requires Inv(s) && Holder(s, b, g)
    ensures GoStep(c, s, g, luck).Some?
    ensures var u := GoStep(c, s, g, luck).value;
      && Inv(u) && b in u.nodes
      && (u.nodes[b].mu.Leaving? || (Holder(u, b, g) && ToUnlock(u.handles[g].pc) < ToUnlock(s.handles[g].pc)))
  {
    HolderGoes(c, s, b, g, luck);
    GoKeepsInv(c, s, g, luck);
    if !GoStep(c, s, g, luck).value.nodes[b].mu.Leaving? {
      SameHolder(GoStep(c, s, g, luck).value, b, g);
    }
  }

  lemma RunGoesOn(c: Config, s: State, g: HandleId, luck: Luck, rest: seq<Action>)
    requires GoStep(c, s, g, luck).Some?
    ensures Run(c, s, [Go(g, luck)] + rest) == Run(c, GoStep(c, s, g, luck).value, rest)
  {
    var run := [Go(g, luck)] + rest;
    assert run[1..] == rest && Step(c, s, run[0]) == GoStep(c, s, g, luck);
  }

  lemma UnlockRun(c: Config, s: State, b: NodeId) returns (run: seq<Action>, t: State)
    requires b in s.nodes && s.nodes[b].mu.Leaving?
    ensures run == [Unlock(b)] && Run(c, s, run) == Some(t) && b in t.nodes && t.nodes[b].mu.Free?
  {
    run := [Unlock(b)];
    t := NodeStep(s, Unlock(b)).value;
    assert Step(c, s, Unlock(b)) == Some(t);
    assert run[1..] == [] && Run(c, t, []) == Some(t);
  }

  lemma SameHolder(u: State, b: NodeId, g: HandleId)
    requires Inv(u) && b in u.nodes && u.nodes[b].mu.Held? && g in u.handles && u.handles[g].node == b && Locked(u.handles[g].pc)
    ensures Holder(u, b, g)
  {
    assert Shape(g, u.handles[g], u.nodes[b]);
  }

  /**
   * Whatever holds the lock a walk waits for is free to let it go after at most six steps of its own,
   * however its upload turns out, and needs nobody else for them.
   */
  lemma LockAheadIsFreed(c: Config, s: State, h: HandleId, luck: Luck) returns (run: seq<Action>, t: State, g: HandleId)
    requires Reached(c, s) && h in s.handles && s.handles[h].pc.Walking? && s.handles[h].pc.ahead.Some?
    ensures |run| <= 6 && Run(c, s, run) == Some(t)
    ensures var b := s.handles[h].pc.ahead.value;
      && b in s.nodes && b in t.nodes && t.nodes[b].mu.Free?
      && OnlyHolder(run, g, b, luck) && (s.nodes[b].mu.Held? ==> s.nodes[b].handle == Some(g))
  {
    ReachedIsInv(c, s);
    WalkIsWalked(s, h);
    run, t, g := LockIsFreed(c, s, s.handles[h].pc.ahead.value, luck);
  }

  lemma LockIsFreed(c: Config, s: State, b: NodeId, luck: Luck) returns (run: seq<Action>, t: State, g: HandleId)
    requires Inv(s) && b in s.nodes
    ensures |run| <= 6 && Run(c, s, run) == Some(t) && b in t.nodes && t.nodes[b].mu.Free?
    ensures OnlyHolder(run, g, b, luck) && (s.nodes[b].mu.Held? ==> s.nodes[b].handle == Some(g))
  {
    g := if s.nodes[b].handle.Some? then s.nodes[b].handle.value else 0;
    match s.nodes[b].mu
    case Free =>
      run, t := [], s;
      assert Run(c, s, []) == Some(s);
    case Leaving =>
      run, t := UnlockRun(c, s, b);
    case Held =>
      HeldHasHolder(s, b);
      run, t := HolderRunsToUnlock(c, s, b, g, luck);
  }
}
