/** Stories over whole runs: which uploads skip a delay and why, and what history a lost save has. */
module SaveLives {
  import opened Wrappers
  import opened Buffers
  import opened SaveInvariants
  import opened SaveProtocol
  import opened SaveRetries
  import opened SaveRuns
  import opened SaveSafety
  import opened SaveStories

  // ----- every run -----

  /** y is a story of h in s. */
  ghost predicate Tells(c: Config, s: State, h: HandleId, y: Story) {
    if h in s.handles then
      Has(s, h) && StoryOk(c, s.handles[h], y) && NameOk(s.nodes[s.handles[h].node], y)
    else y == START
  }

  lemma FreshTells(c: Config, n: NodeId, dirty: bool)
    ensures StoryOk(c, Fresh(n, dirty), START)
  {
  }

  lemma RequestTells(c: Config, s: State, a: Action, h: HandleId, y: Story)
    requires Tells(c, s, h, y) && NodeStep(s, a).Some?
    ensures Tells(c, NodeStep(s, a).value, h, Told(y, s, a, h))
  {
    if h in s.handles {
      RequestIsAlike(s, a, h);
      AlikeTells(c, s.handles[h], NodeStep(s, a).value.handles[h], y);
      RequestKeepsName(s, a, h, y);
    } else if h in NodeStep(s, a).value.handles {
      FreshTells(c, NodeStep(s, a).value.handles[h].node, NodeStep(s, a).value.handles[h].buffer.dirty);
      RequestMakesFresh(s, a, h);
    }
  }

  lemma RequestIsAlike(s: State, a: Action, h: HandleId)
    requires NodeStep(s, a).Some? && Has(s, h)
    ensures Has(NodeStep(s, a).value, h) && Alike(s.handles[h], NodeStep(s, a).value.handles[h])
    ensures NodeStep(s, a).value.handles[h].node == s.handles[h].node
  {
  }

  lemma RequestMakesFresh(s: State, a: Action, h: HandleId)
    requires NodeStep(s, a).Some? && h !in s.handles && h in NodeStep(s, a).value.handles
    ensures var t := NodeStep(s, a).value;
      t.handles[h] == Fresh(t.handles[h].node, t.handles[h].buffer.dirty) && t.handles[h].node in t.nodes
  {
  }

  lemma RequestKeepsName(s: State, a: Action, h: HandleId, y: Story)
    requires NodeStep(s, a).Some? && Has(s, h) && NameOk(s.nodes[s.handles[h].node], y)
    requires s.handles[h].node in NodeStep(s, a).value.nodes
    ensures NameOk(NodeStep(s, a).value.nodes[s.handles[h].node], Told(y, s, a, h))
  {
  }

  /** What no region changes: the file, its name, and who asked for the save to go. */
  predicate Fixed(x: Handle, node: Node, x': Handle, node': Node) {
    && x'.node == x.node && node'.name == node.name
    && x'.past.unlinked == x.past.unlinked && x'.past.replaced == x.past.replaced
  }

  lemma ChoosingIsFixed(c: Config, x: Handle, node: Node)
    requires Choosing(c, x, node).Some?
    ensures var next := Choosing(c, x, node).value; Fixed(x, node, next.0, next.1)
  {
  }

  lemma AttemptingIsFixed(x: Handle, node: Node, luck: Luck)
    requires Attempting(x, node, luck).Some?
    ensures var next := Attempting(x, node, luck).value; Fixed(x, node, next.0, next.1)
  {
  }

  lemma AnsweredIsFixed(x: Handle, node: Node, luck: Luck)
    requires Answered(x, node, luck).Some?
    ensures var next := Answered(x, node, luck).value; Fixed(x, node, next.0, next.1)
  {
  }

  lemma ConcludedIsFixed(x: Handle, node: Node, luck: Luck)
    requires Concluded(x, node, luck).Some?
    ensures var next := Concluded(x, node, luck).value; Fixed(x, node, next.0, next.1)
  {
  }

  lemma RetryIsFixed(closing: bool, x: Handle, node: Node)
    requires KeepingForRetry(closing, x, node).Some?
    ensures var next := KeepingForRetry(closing, x, node).value; Fixed(x, node, next.0, next.1)
  {
  }

  lemma LooseIsFixed(h: HandleId, x: Handle, node: Node, luck: Luck)
    requires LettingLoose(h, x, node, luck).Some?
    ensures var next := LettingLoose(h, x, node, luck).value; Fixed(x, node, next.0, next.1)
  {
    match x.pc
    case Discarding(_) =>
    case Keeping(_) =>
    case Dropping(_) =>
    case _ =>
  }

  lemma UnmountedIsFixed(c: Config, h: HandleId, x: Handle, node: Node, luck: Luck)
    requires Unmounted(c, h, x, node, luck).Some?
    ensures var next := Unmounted(c, h, x, node, luck).value; Fixed(x, node, next.0, next.1)
  {
    if x.pc.timed || x.pc.failed || !c.excluded(node.name) || !c.hasStore {
      assert GivenUp(x, Unmounted(c, h, x, node, luck).value.0);
    } else {
      KeptLocalIsFixed(h, x, node, luck.ok);
    }
  }

  lemma KeptLocalIsFixed(h: HandleId, x: Handle, node: Node, moved: bool)
    ensures var next := KeptLocal(h, x, node, moved); Fixed(x, node, next.0, next.1)
  {
  }

  lemma AdvanceIsFixed(c: Config, closing: bool, h: HandleId, x: Handle, node: Node, luck: Luck)
    requires Advance(c, closing, h, x, node, luck).Some?
    ensures var next := Advance(c, closing, h, x, node, luck).value; Fixed(x, node, next.0, next.1)
  {
    match x.pc
    case Untracking(_, _) =>
    case LettingGo(_, _) => UnmountedIsFixed(c, h, x, node, luck);
    case Entered | Snapped(_, _) | Chosen(_, _, _, _) | Parking(_, _) => ChoosingIsFixed(c, x, node);
    case Trying(_) | Walking(_, _) | Holding(_) => AttemptingIsFixed(x, node, luck);
    case Uploading(_, _) | Uploaded(_, _, _) => AnsweredIsFixed(x, node, luck);
    case Lost(_, _) | Claimed(_, _, _) => ConcludedIsFixed(x, node, luck);
    case Failing(_, _) | Retrying(_, _) => RetryIsFixed(closing, x, node);
    case Discarding(_) | Keeping(_) | Dropping(_) => LooseIsFixed(h, x, node, luck);
    case Open | Waiting | Stranded | Done =>
  }

  lemma HeardKeepsName(c: Config, x: Handle, node: Node, node': Node, y: Story)
    requires NameOk(node, y) && node'.name == node.name
    ensures NameOk(node', Heard(y, x, node.name))
  {
  }

  /** A step on one handle, seen from it. */
  lemma GoTells(c: Config, s: State, h: HandleId, luck: Luck, y: Story)
    requires HandlesOk(s) && Waits(s) && Tells(c, s, h, y) && GoStep(c, s, h, luck).Some?
    ensures Tells(c, GoStep(c, s, h, luck).value, h, Heard(y, s.handles[h], s.nodes[s.handles[h].node].name))
  {
    var x, node := s.handles[h], s.nodes[s.handles[h].node];
    assert HandleOk(h, x, node) && WaitOk(x);
    AdvanceTells(c, s.closing, h, x, node, luck, y);
    AdvanceIsFixed(c, s.closing, h, x, node, luck);
    HeardKeepsName(c, x, node, Advance(c, s.closing, h, x, node, luck).value.1, y);
  }

  /** A step on another one. */
  lemma OtherGoTells(c: Config, s: State, g: HandleId, luck: Luck, h: HandleId, y: Story)
    requires Tells(c, s, h, y) && GoStep(c, s, g, luck).Some? && g != h
    ensures Tells(c, GoStep(c, s, g, luck).value, h, y)
  {
    AdvanceIsFixed(c, s.closing, g, s.handles[g], s.nodes[s.handles[g].node], luck);
  }

  lemma WalkTells(c: Config, s: State, g: HandleId, h: HandleId, y: Story)
    requires Tells(c, s, h, y) && WalkStep(s, g).Some?
    ensures Tells(c, Put(s, g, WalkStep(s, g).value), h, y)
  {
    if g == h {
      WalkIsCourse(s, h);
      CourseTells(c, s.handles[h], WalkStep(s, h).value, y);
    }
  }

  lemma WalkIsCourse(s: State, h: HandleId)
    requires WalkStep(s, h).Some?
    ensures Course(s.handles[h], WalkStep(s, h).value) && WalkStep(s, h).value.node == s.handles[h].node
  {
  }

  lemma ActTells(c: Config, closing: bool, h: HandleId, x: Handle, node: Node, a: Action, y: Story)
    requires StoryOk(c, x, y) && Placed(h, x, node) && HandleStep(closing, h, x, node, a).Some?
    ensures var y' := if a.Take? then TookBack(y, a.taker) else y;
      StoryOk(c, HandleStep(closing, h, x, node, a).value, y')
  {
    if a.Take? {
      TakenTells(c, closing, x, a.taker, y);
    } else {
      ActIsAlike(closing, h, x, node, a);
      AlikeTells(c, x, HandleStep(closing, h, x, node, a).value, y);
    }
  }

  lemma ActKeepsNode(closing: bool, h: HandleId, x: Handle, node: Node, a: Action)
    requires HandleStep(closing, h, x, node, a).Some?
    ensures HandleStep(closing, h, x, node, a).value.node == x.node
  {
  }

  lemma HandlePartTells(c: Config, s: State, g: HandleId, a: Action, h: HandleId, y: Story)
    requires HandlesOk(s) && Tells(c, s, h, y) && Has(s, g)
    requires HandleStep(s.closing, g, s.handles[g], s.nodes[s.handles[g].node], a).Some?
    ensures var t := Put(s, g, HandleStep(s.closing, g, s.handles[g], s.nodes[s.handles[g].node], a).value);
      var y' := if a.Take? && g == h then TookBack(y, a.taker) else y;
      Tells(c, t, h, y')
  {
    ActKeepsNode(s.closing, g, s.handles[g], s.nodes[s.handles[g].node], a);
    if g == h {
      assert HandleOk(h, s.handles[h], s.nodes[s.handles[h].node]);
      ActTells(c, s.closing, h, s.handles[h], s.nodes[s.handles[h].node], a, y);
    }
  }

  lemma StepTells(c: Config, s: State, a: Action, h: HandleId, y: Story)
    requires HandlesOk(s) && Waits(s) && Tells(c, s, h, y) && Step(c, s, a).Some?
    ensures Tells(c, Step(c, s, a).value, h, Told(y, s, a, h))
  {
    match a
    case Mount(_, _, _) | Create(_, _, _) | OpenNew(_, _) | Retarget(_, _, _) | ReplaceLink(_, _) | Unlock(_) | StartClosing =>
      RequestTells(c, s, a, h, y);
    case Go(g, luck) => if g == h { GoTells(c, s, h, luck, y); } else { OtherGoTells(c, s, g, luck, h, y); }
    case Walk(g) => WalkTells(c, s, g, h, y);
    case _ => HandlePartTells(c, s, a.h, a, h, y);
  }

  lemma {:induction false} RunTells(c: Config, s: State, run: seq<Action>, h: HandleId, y: Story)
    requires Inv(s) && Waits(s) && Tells(c, s, h, y) && Run(c, s, run).Some?
    ensures Tells(c, Run(c, s, run).value, h, Tale(c, s, run, h, y)) && Inv(Run(c, s, run).value)
    decreases |run|
  {
    if run != [] {
      StepTells(c, s, run[0], h, y);
      StepKeepsInv(c, s, run[0]);
      StepKeepsWaits(c, s, run[0]);
      RunTells(c, Step(c, s, run[0]).value, run[1..], h, Told(y, s, run[0], h));
    }
  }

  lemma LivedTells(c: Config, s: State, h: HandleId, y: Story)
    requires Lived(c, s, h, y)
    ensures Reached(c, s) && Inv(s) && Tells(c, s, h, y)
  {
    var run :| Run(c, EMPTY, run) == Some(s) && Tale(c, EMPTY, run, h, START) == y;
    EmptyIsInv();
    RunTells(c, EMPTY, run, h, START);
  }

  // ----- who asked for a save to go -----

  predicate Unlinks(a: Action, h: HandleId) {
    a == Take(h, Unlinker) || a == UnlinkPending(h)
  }

  predicate WasUnlinked(s: State, h: HandleId) {
    h in s.handles && s.handles[h].past.unlinked
  }

  predicate WasReplaced(s: State, h: HandleId) {
    h in s.handles && s.handles[h].past.replaced
  }

  /** x' is as much unlinked and renamed over as x, plus what asked does. */
  predicate Asks(x: Handle, x': Handle, unlinked: bool, replaced: bool) {
    && (x'.past.unlinked <==> x.past.unlinked || unlinked)
    && (x'.past.replaced <==> x.past.replaced || replaced)
  }

  lemma TakenAsks(closing: bool, x: Handle, taker: Taker)
    requires Taken(closing, x, taker).Some?
    ensures Asks(x, Taken(closing, x, taker).value, taker.Unlinker?, false)
  {
    match taker
    case Writer(_) => assert TakenBack(x.past).unlinked == x.past.unlinked;
    case Rename => assert TakenBack(x.past).unlinked == x.past.unlinked;
    case Unlinker =>
    case Replacer =>
    case Timer =>
    case Unmount =>
  }

  lemma ActAsks(closing: bool, h: HandleId, x: Handle, node: Node, a: Action)
    requires HandleStep(closing, h, x, node, a).Some?
    ensures var unlinked := (a.Take? && a.taker.Unlinker?) || a.UnlinkPending?;
      Asks(x, HandleStep(closing, h, x, node, a).value, unlinked, a.ReplaceMark?)
  {
    match a
    case Take(_, taker) => TakenAsks(closing, x, taker);
    case ReplaceMark(_) => assert Replaced(x).past.replaced;
    case UnlinkPending(_) =>
    case Close(_) => assert Closed(x).past.unlinked == x.past.unlinked;
    case _ =>
  }

  lemma RequestAsksNothing(s: State, a: Action, h: HandleId)
    requires NodeStep(s, a).Some?
    ensures WasUnlinked(NodeStep(s, a).value, h) <==> WasUnlinked(s, h)
    ensures WasReplaced(NodeStep(s, a).value, h) <==> WasReplaced(s, h)
  {
  }

  lemma StepAsks(c: Config, s: State, a: Action, h: HandleId)
    requires Step(c, s, a).Some?
    ensures WasUnlinked(Step(c, s, a).value, h) <==> WasUnlinked(s, h) || Unlinks(a, h)
    ensures WasReplaced(Step(c, s, a).value, h) <==> WasReplaced(s, h) || a == ReplaceMark(h)
  {
    match a
    case Mount(_, _, _) | Create(_, _, _) | OpenNew(_, _) | Retarget(_, _, _) | ReplaceLink(_, _) | Unlock(_) | StartClosing =>
      RequestAsksNothing(s, a, h);
    case Go(g, luck) => AdvanceIsFixed(c, s.closing, g, s.handles[g], s.nodes[s.handles[g].node], luck);
    case Walk(g) =>
    case _ => ActAsks(s.closing, a.h, s.handles[a.h], s.nodes[s.handles[a.h].node], a);
  }

  /** A handle counts as unlinked, or renamed over, exactly when the run has the step of an unlink, or of a rename, on it. */
  lemma {:induction false} RunAsks(c: Config, s: State, run: seq<Action>, h: HandleId)
    requires Run(c, s, run).Some?
    ensures WasUnlinked(Run(c, s, run).value, h) <==> WasUnlinked(s, h) || exists a <- run :: Unlinks(a, h)
    ensures WasReplaced(Run(c, s, run).value, h) <==> WasReplaced(s, h) || ReplaceMark(h) in run
    decreases |run|
  {
    if run != [] {
      StepAsks(c, s, run[0], h);
      RunAsks(c, Step(c, s, run[0]).value, run[1..], h);
      assert run == [run[0]] + run[1..];
    }
  }

  // ----- what is uploaded, and under which name -----

  /**
   * In every run, an upload tried under a name with a delay was let through by a timer (or unmount's
   * flush, which does as the timer does) and by nothing else. What the timer ended was the delay of the
   * name the buffer was parked under, or the wait after failures in a row. No upload is tried under a
   * name that is excluded.
   */
  lemma OnlyTimersSkipTheDelay(c: Config, s: State, h: HandleId, y: Story)
    requires Lived(c, s, h, y) && h in s.handles && AttemptOf(s.handles[h].pc).Some?
    ensures var name := AttemptOf(s.handles[h].pc).value.name;
      && !c.excluded(name)
      && (c.delay(name) > 0 ==>
            && y.taker == Some(Timer) && y.wait.Some?
            && var w := y.wait.value;
               w.delay > 0 && (w.delay == c.delay(w.name) || (w.fails > 0 && w.delay == WaitAfter(w.fails))))
  {
    LivedTells(c, s, h, y);
    OnlyDueAllowedNamesAreUploaded(c, s, h);
  }

  lemma RegionRuns(c: Config, s: State, h: HandleId, luck: Luck, x': Handle, rest: seq<Action>)
    requires Has(s, h)
    requires var node := s.nodes[s.handles[h].node]; Advance(c, s.closing, h, s.handles[h], node, luck) == Some((x', node))
    ensures Run(c, s, [Go(h, luck)] + rest) == Run(c, Put(s, h, x'), rest)
  {
    var n := s.handles[h].node;
    assert s.nodes[n := s.nodes[n]] == s.nodes;
    assert Step(c, s, Go(h, luck)) == Some(Put(s, h, x'));
    assert ([Go(h, luck)] + rest)[1..] == rest;
  }

  /** What a Release of a written, due buffer decides. */
  function DuePc(c: Config, gone: bool, node: Node): Pc {
    if gone then Discarding(false)
    else if c.excluded(node.name) then Parking(0, false)
    else Trying(Attempt(node.link, node.name, true, {}, {}))
  }

  lemma SnappedDecides(c: Config, s: State, h: HandleId, luck: Luck)
    requires Has(s, h) && s.handles[h].pc == Snapped(true, true)
    ensures var end := Run(c, s, [Go(h, luck)] + ([Go(h, luck)] + []));
      && end.Some? && h in end.value.handles
      && end.value.handles[h].pc == DuePc(c, s.handles[h].buffer.gone, s.nodes[s.handles[h].node])
  {
    var node := s.nodes[s.handles[h].node];
    var x1 := s.handles[h].(pc := Chosen(true, true, node.link, node.name));
    RegionRuns(c, s, h, luck, x1, [Go(h, luck)] + []);
    RegionRuns(c, Put(s, h, x1), h, luck, Choosing(c, x1, node).value.0, []);
  }

  /** The four regions from a timer's take to the decision. */
  lemma DueRelease(c: Config, s: State, h: HandleId, luck: Luck)
    requires Has(s, h) && s.handles[h].pc == Untracking(true, ToRelease)
    requires s.handles[h].buffer.dirty && s.handles[h].buffer.due
    ensures var end := Run(c, s, [Go(h, luck)] + ([Go(h, luck)] + ([Go(h, luck)] + ([Go(h, luck)] + []))));
      && end.Some? && h in end.value.handles
      && end.value.handles[h].pc == DuePc(c, s.handles[h].buffer.gone, s.nodes[s.handles[h].node])
  {
    var a := Go(h, luck);
    var x1 := s.handles[h].(pc := Entered, inDelayed := false);
    RegionRuns(c, s, h, luck, x1, [a] + ([a] + ([a] + [])));
    var x2 := x1.(pc := Snapped(true, true), buffer := x1.buffer.(due := false));
    RegionRuns(c, Put(s, h, x1), h, luck, x2, [a] + ([a] + []));
    SnappedDecides(c, Put(Put(s, h, x1), h, x2), h, luck);
  }

  /** A timer that fires on a parked buffer has it tried, not parked for a delay again, unless it is gone or excluded now. */
  lemma TimerHasItTried(c: Config, s: State, h: HandleId, luck: Luck)
    requires Has(s, h) && s.handles[h].buffer.parked && s.handles[h].buffer.timer
    ensures var end := Run(c, s, [Take(h, Timer), Go(h, luck), Go(h, luck), Go(h, luck), Go(h, luck)]);
      && end.Some? && h in end.value.handles
      && end.value.handles[h].pc == DuePc(c, s.handles[h].buffer.gone, s.nodes[s.handles[h].node])
  {
    var rest := [Go(h, luck)] + ([Go(h, luck)] + ([Go(h, luck)] + ([Go(h, luck)] + [])));
    var t := Put(s, h, Taken(s.closing, s.handles[h], Timer).value);
    assert Step(c, s, Take(h, Timer)) == Some(t);
    assert [Take(h, Timer), Go(h, luck), Go(h, luck), Go(h, luck), Go(h, luck)][1..] == rest;
    DueRelease(c, t, h, luck);
  }

  /**
   * The name it is tried under is the one it waited under exactly when the file was not renamed between
   * the two Releases' reads of the name, or was renamed back to it.
   */
  lemma WaitIsForItsOwnNameIff(c: Config, s: State, h: HandleId, y: Story)
    requires Lived(c, s, h, y) && h in s.handles && AttemptOf(s.handles[h].pc).Some?
    requires c.delay(AttemptOf(s.handles[h].pc).value.name) > 0
    ensures y.wait.Some? && y.before == Some(y.wait.value.name)
    ensures AttemptOf(s.handles[h].pc).value.name == y.wait.value.name <==>
      y.between == [] || y.between[|y.between| - 1] == y.wait.value.name
  {
    LivedTells(c, s, h, y);
    OnlyDueAllowedNamesAreUploaded(c, s, h);
  }

  // ----- what unmount lets go of -----

  /**
   * Every save whose close returned is safe, or the run has what let it go: a later write of the same
   * buffer; an unlink; a rename over its file while its upload had not failed for good; a writer or a
   * rename that took it back after such a rename found it failed; an unmount that found it under the
   * excluded name it was parked under, or another, and could not store it; or an unmount that found it
   * renamed from an excluded name to one that is not.
   */
  lemma NoSaveIsLostInAnyRun(c: Config, run: seq<Action>, h: HandleId, v: nat)
    requires Run(c, EMPTY, run).Some?
    requires h in Run(c, EMPTY, run).value.handles && v in Run(c, EMPTY, run).value.handles[h].past.saves
    ensures var x, y := Run(c, EMPTY, run).value.handles[h], Tale(c, EMPTY, run, h, START);
      || Safe(x, v)
      || v < x.version
      || (exists a <- run :: Unlinks(a, h))
      || (ReplaceMark(h) in run && !x.past.failedAtMark)
      || x.past.retaken
      || (x.past.unstored && WasExcluded(c, y) && y.leftUnder.Some? && c.excluded(y.leftUnder.value))
      || (x.past.renamedAway && WasExcluded(c, y) && y.leftUnder.Some? && !c.excluded(y.leftUnder.value))
  {
    var s, y := Run(c, EMPTY, run).value, Tale(c, EMPTY, run, h, START);
    assert Lived(c, s, h, y);
    LivedTells(c, s, h, y);
    NoSaveIsLost(c, s, h, v);
    RunAsks(c, EMPTY, run, h);
  }

  /**
   * In every run a save whose upload failed in a way no retry fixes is in its temp file or in the unsaved
   * folder, unless it was unlinked, until a writer or a rename takes it back.
   */
  lemma PermanentFailureIsKept(c: Config, s: State, h: HandleId, y: Story)
    requires Lived(c, s, h, y) && h in s.handles && y.gaveUp
    ensures var x := s.handles[h]; x.onDisk || x.past.unlinked || x.version in x.past.unsaved
  {
    LivedTells(c, s, h, y);
    assert Shape(h, s.handles[h], s.nodes[s.handles[h].node]);
    if s.handles[h].buffer.failed {
      FailedBufferIsKept(c, s, h);
    }
  }
}
