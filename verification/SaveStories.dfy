/**
 * The story of one handle, read off a run: the names its Releases read, the wait it was last parked
 * for, who took it back last. It says where an upload's permission comes from, and what history an
 * unmount that lets a save go needs.
 */
module SaveStories {
  import opened Wrappers
  import opened Buffers
  import opened SaveInvariants
  import opened SaveOwners
  import opened SaveProtocol
  import opened SaveRetries

  /** The last park of a handle: the name its Release had read, for how long, and after how many failures. */
  datatype Wait = Wait(name: Name, delay: nat, fails: nat)

  /**
   * read and before: the names the last Release read, and the one before it. renames and between: the
   * names the file got since the one read, and between the two. wait: the last park. taker: who took the
   * buffer back last. gaveUp: its upload failed in a way no retry fixes, and no writer or rename took it
   * back since. leftUnder: the name unmount let go of it under.
   */
  datatype Story = Story(
    read: Option<Name>,
    before: Option<Name>,
    renames: seq<Name>,
    between: seq<Name>,
    wait: Option<Wait>,
    taker: Option<Taker>,
    gaveUp: bool,
    leftUnder: Option<Name>)

  const START: Story := Story(None, None, [], [], None, None, false, None)

  /** What a region of the handle's own adds to its story, when its file is called name. */
  function Heard(y: Story, x: Handle, name: Name): Story {
    match x.pc
    case Snapped(_, _) => y.(read := Some(name), before := y.read, renames := [], between := y.renames)
    case Parking(delay, _) =>
      if y.read.None? then y else y.(wait := Some(Wait(y.read.value, delay, x.past.fails)))
    case Retrying(permanent, _) => y.(gaveUp := y.gaveUp || permanent)
    case LettingGo(_, _) => y.(leftUnder := Some(name))
    case _ => y
  }

  /** A parked buffer was taken back; a writer or a rename has it tried again. */
  function TookBack(y: Story, taker: Taker): Story {
    y.(taker := Some(taker), gaveUp := y.gaveUp && !taker.Writer? && !taker.Rename?)
  }

  function Told(y: Story, s: State, a: Action, h: HandleId): Story {
    if !Has(s, h) then y
    else
      match a
      case Go(g, _) => if g == h then Heard(y, s.handles[h], s.nodes[s.handles[h].node].name) else y
      case Take(g, taker) =>
        if g == h then TookBack(y, taker) else y
      case Retarget(n, _, name) => if n == s.handles[h].node then y.(renames := y.renames + [name]) else y
      case _ => y
  }

  /** The story of h over a run. */
  function Tale(c: Config, s: State, run: seq<Action>, h: HandleId, y: Story): Story
    decreases |run|
  {
    if run == [] || Step(c, s, run[0]).None? then y
    else Tale(c, Step(c, s, run[0]).value, run[1..], h, Told(y, s, run[0], h))
  }

  /** Some run of the mount, from its start, ends in s and tells y of h. */
  ghost predicate Lived(c: Config, s: State, h: HandleId, y: Story) {
    exists run :: Run(c, EMPTY, run) == Some(s) && Tale(c, EMPTY, run, h, START) == y
  }

  // ----- what every step keeps -----

  function LastOr(names: seq<Name>, name: Name): Name {
    if names == [] then name else names[|names| - 1]
  }

  /** A wait is none at all, the delay of the name read, or that of the failures in a row. */
  ghost predicate Waited(c: Config, w: Wait) {
    || w.delay == 0
    || w.delay == c.delay(w.name)
    || (w.fails > 0 && w.delay == WaitAfter(w.fails))
  }

  predicate ByTimer(y: Story) {
    y.taker == Some(Timer)
  }

  /** Taken back, and the Release that follows has not read the name yet. */
  predicate Unread(pc: Pc) {
    pc.Untracking? || pc.Entered? || pc.Snapped?
  }

  /** Only a timer makes a Release skip the delay. */
  predicate DueOk(x: Handle, y: Story) {
    && (x.buffer.due ==> ByTimer(y) && (x.pc.Entered? || (x.pc.Untracking? && x.pc.next.ToRelease?)))
    && (x.pc.Snapped? && x.pc.due ==> ByTimer(y))
    && (x.pc.Chosen? && x.pc.due ==> ByTimer(y))
    && (AttemptOf(x.pc).Some? && AttemptOf(x.pc).value.due ==> ByTimer(y))
    && (x.pc.Open? || (x.pc.Untracking? && x.pc.next.ToWriter?) ==> !ByTimer(y))
  }

  predicate ReadOk(x: Handle, y: Story) {
    && (x.pc.Chosen? ==> y.read == Some(x.pc.name))
    && (AttemptOf(x.pc).Some? ==> y.read == Some(AttemptOf(x.pc).value.name))
    && (x.pc.Failing? || x.pc.Retrying? || x.pc.Parking? ==> y.read.Some?)
  }

  /** A timer that took the buffer ended the wait parked for under the name read before the rename, if any. */
  predicate TimerOk(x: Handle, y: Story) {
    && (ByTimer(y) && Unread(x.pc) ==> y.wait.Some? && y.wait.value.delay > 0 && y.read == Some(y.wait.value.name))
    && (ByTimer(y) && (x.pc.Chosen? || AttemptOf(x.pc).Some?) ==>
          && y.wait.Some? && y.wait.value.delay > 0
          && y.before == Some(y.wait.value.name)
          && y.read == Some(LastOr(y.between, y.wait.value.name)))
  }

  ghost predicate WaitsOk(c: Config, x: Handle, y: Story) {
    && (y.wait.Some? ==> Waited(c, y.wait.value))
    && (x.pc.Parking? ==> y.read.Some? && Waited(c, Wait(y.read.value, x.pc.delay, x.past.fails)))
    && (x.pc.Parking? && x.pc.delay == 0 && !x.buffer.failed ==> c.excluded(y.read.value))
    && (x.pc.Waiting? ==>
          y.wait.Some? && y.read == Some(y.wait.value.name) && (x.buffer.timer <==> y.wait.value.delay > 0))
  }

  /** The buffer was last parked under an excluded name. */
  predicate WasExcluded(c: Config, y: Story) {
    y.wait.Some? && y.wait.value.delay == 0 && c.excluded(y.wait.value.name)
  }

  /** A buffer parked with no timer that has not failed for good has an excluded name; so had one unmount lost. */
  predicate LeftOk(c: Config, x: Handle, y: Story) {
    && (x.pc.Waiting? && !x.buffer.timer && !x.buffer.failed ==> WasExcluded(c, y))
    && (x.pc.Untracking? && x.pc.next.ToUnmount? && !x.pc.next.wasTimed && !x.pc.next.hadFailed ==> WasExcluded(c, y))
    && (x.pc.LettingGo? && !x.pc.timed && !x.pc.failed ==> WasExcluded(c, y))
    && (x.past.unstored || x.past.renamedAway ==> (x.pc.Dropping? || x.pc.Done?) && WasExcluded(c, y) && y.leftUnder.Some?)
    && (x.past.unstored ==> c.excluded(y.leftUnder.value))
    && (x.past.renamedAway ==> !c.excluded(y.leftUnder.value))
  }

  /** A buffer whose upload failed in a way no retry fixes is marked so, or set aside at once. */
  predicate GaveUpOk(x: Handle, y: Story) {
    y.gaveUp ==>
      || x.buffer.failed
      || x.pc.Keeping?
      || (x.pc.Done? && (x.onDisk || x.version in x.past.unsaved))
  }

  ghost predicate StoryOk(c: Config, x: Handle, y: Story) {
    DueOk(x, y) && ReadOk(x, y) && TimerOk(x, y) && WaitsOk(c, x, y) && LeftOk(c, x, y) && GaveUpOk(x, y)
  }

  /** The file is called what the last Release read, or what it was renamed to since. */
  predicate NameOk(node: Node, y: Story) {
    y.read.Some? ==> node.name == LastOr(y.renames, y.read.value)
  }

  lemma EnteredTells(c: Config, x: Handle, node: Node, y: Story)
    requires StoryOk(c, x, y) && x.pc.Entered?
    ensures Choosing(c, x, node).Some? && StoryOk(c, Choosing(c, x, node).value.0, y)
  {
  }

  lemma SnappedTells(c: Config, x: Handle, node: Node, y: Story)
    requires StoryOk(c, x, y) && NameOk(node, y) && x.pc.Snapped?
    ensures Choosing(c, x, node).Some? && StoryOk(c, Choosing(c, x, node).value.0, Heard(y, x, node.name))
  {
  }

  lemma ChosenTells(c: Config, x: Handle, node: Node, y: Story)
    requires StoryOk(c, x, y) && x.pc.Chosen?
    ensures Choosing(c, x, node).Some? && StoryOk(c, Choosing(c, x, node).value.0, y)
  {
  }

  lemma ParkingTells(c: Config, x: Handle, node: Node, y: Story)
    requires StoryOk(c, x, y) && x.pc.Parking? && !x.buffer.timer
    ensures StoryOk(c, Choosing(c, x, node).value.0, Heard(y, x, node.name))
  {
  }

  /** A region of an attempt: it goes on with the same name and permission, or is over. */
  predicate Course(x: Handle, x': Handle) {
    && AttemptOf(x.pc).Some?
    && x'.buffer == x.buffer
    && x'.past.unstored == x.past.unstored && x'.past.renamedAway == x.past.renamedAway
    && (if AttemptOf(x'.pc).Some? then SameAttempt(x.pc, x'.pc) else x'.pc.Failing? || x'.pc.Discarding? || x'.pc.Dropping?)
  }

  lemma AttemptingIsCourse(x: Handle, node: Node, luck: Luck)
    ensures Attempting(x, node, luck).Some? ==> Course(x, Attempting(x, node, luck).value.0)
  {
  }

  lemma AnswerIsCourse(x: Handle, node: Node, luck: Luck)
    requires x.pc.Uploading?
    ensures Answered(x, node, luck).Some? && Course(x, Answered(x, node, luck).value.0)
  {
  }

  lemma ClaimIsCourse(x: Handle, node: Node, luck: Luck)
    requires x.pc.Uploaded?
    ensures Answered(x, node, luck).Some? && Course(x, Answered(x, node, luck).value.0)
  {
    var x' := Answered(x, node, luck).value.0;
    if x.buffer.gone {
      assert x' == x.(pc := Lost(x.pc.up, x.pc.link));
    } else {
      assert x'.pc == Claimed(x.pc.up, x.pc.version, x.pc.link) && x'.buffer == x.buffer;
      assert x'.past.unstored == x.past.unstored && x'.past.renamedAway == x.past.renamedAway;
    }
  }

  lemma ConcludedIsCourse(x: Handle, node: Node, luck: Luck)
    ensures Concluded(x, node, luck).Some? ==> Course(x, Concluded(x, node, luck).value.0)
  {
  }

  lemma CourseTells(c: Config, x: Handle, x': Handle, y: Story)
    requires StoryOk(c, x, y) && Course(x, x')
    ensures StoryOk(c, x', y)
  {
  }

  lemma FailingTells(c: Config, closing: bool, x: Handle, node: Node, y: Story)
    requires StoryOk(c, x, y) && x.pc.Failing?
    ensures KeepingForRetry(closing, x, node).Some? && StoryOk(c, KeepingForRetry(closing, x, node).value.0, y)
  {
    FailingKeepsPast(closing, x, node);
  }

  lemma PermanentTells(c: Config, x: Handle, x': Handle, locked: bool, y: Story)
    requires StoryOk(c, x, y) && x.pc.Retrying?
    requires x' == x.(pc := Keeping(locked)) || x' == x.(pc := Parking(0, locked), buffer := x.buffer.GiveUp())
    ensures StoryOk(c, x', y.(gaveUp := true)) && (x'.pc.Keeping? ==> StoryOk(c, x', y))
  {
  }

  lemma TransientTells(c: Config, x: Handle, x': Handle, y: Story)
    requires StoryOk(c, x, y) && x.pc.Retrying? && WaitOk(x)
    requires x'.buffer == x.buffer.BackOff() && x'.pc.Parking? && x'.pc.delay == x.buffer.BackOff().retryIn
    requires x'.past == x.past.(fails := x.past.fails + 1)
    ensures StoryOk(c, x', y)
  {
    BackOffIsNextWait(x.buffer, x.past.fails);
  }

  lemma RetryTells(c: Config, closing: bool, x: Handle, node: Node, y: Story)
    requires StoryOk(c, x, y) && WaitOk(x) && x.pc.Retrying?
    ensures KeepingForRetry(closing, x, node).Some?
    ensures StoryOk(c, KeepingForRetry(closing, x, node).value.0, Heard(y, x, node.name))
  {
    var x' := KeepingForRetry(closing, x, node).value.0;
    if closing || x.pc.permanent {
      PermanentTells(c, x, x', x.pc.locked, y);
    } else {
      TransientTells(c, x, x', y);
    }
  }

  /** A region after the decision to let the buffer go or set it aside. */
  predicate Loose(x: Handle, x': Handle) {
    && (x.pc.Discarding? || x.pc.Keeping? || x.pc.Dropping?)
    && x'.buffer.due == x.buffer.due && x'.buffer.failed == x.buffer.failed
    && x'.past.unstored == x.past.unstored && x'.past.renamedAway == x.past.renamedAway
    && (x'.pc.Keeping? || x'.pc.Dropping? || x'.pc.Done?)
    && (x.pc.Dropping? ==> x'.pc.Done?)
    && (x.pc.Keeping? ==> x'.pc.Done? && (x'.onDisk || x'.version in x'.past.unsaved))
  }

  lemma LettingLooseIsLoose(h: HandleId, x: Handle, node: Node, luck: Luck)
    requires LettingLoose(h, x, node, luck).Some?
    ensures Loose(x, LettingLoose(h, x, node, luck).value.0)
  {
    match x.pc
    case Discarding(_) =>
    case Keeping(_) =>
    case Dropping(_) =>
    case _ =>
  }

  lemma LooseTells(c: Config, x: Handle, x': Handle, y: Story)
    requires StoryOk(c, x, y) && Loose(x, x')
    ensures StoryOk(c, x', y)
  {
  }

  lemma UntrackedTells(c: Config, x: Handle, node: Node, y: Story)
    requires StoryOk(c, x, y) && Untracked(x, node).Some?
    ensures StoryOk(c, Untracked(x, node).value.0, y)
  {
  }

  lemma LetGoTells(c: Config, x: Handle, x': Handle, name: Name, y: Story)
    requires StoryOk(c, x, y) && x.pc.LettingGo? && x.pc.failed == x.buffer.failed && GivenUp(x, x')
    requires x'.pc.Keeping? ==> x.pc.timed || x.pc.failed
    requires x'.pc.Dropping? ==> !x.pc.timed && !x.pc.failed
    requires x'.past.renamedAway && !x.past.renamedAway ==> !c.excluded(name)
    requires x'.past.unstored && !x.past.unstored ==> c.excluded(name)
    ensures StoryOk(c, x', y.(leftUnder := Some(name)))
  {
  }

  lemma KeptLocalTells(c: Config, h: HandleId, x: Handle, node: Node, moved: bool, y: Story)
    requires StoryOk(c, x, y) && x.pc.LettingGo? && !x.pc.timed && !x.pc.failed && !x.buffer.failed && c.excluded(node.name)
    ensures StoryOk(c, KeptLocal(h, x, node, moved).0, y.(leftUnder := Some(node.name)))
  {
  }

  lemma UnmountedTells(c: Config, h: HandleId, x: Handle, node: Node, luck: Luck, y: Story)
    requires StoryOk(c, x, y) && x.pc.LettingGo? && x.pc.failed == x.buffer.failed
    ensures Unmounted(c, h, x, node, luck).Some?
    ensures StoryOk(c, Unmounted(c, h, x, node, luck).value.0, Heard(y, x, node.name))
  {
    if x.pc.timed || x.pc.failed || !c.excluded(node.name) || !c.hasStore {
      LetGoTells(c, x, Unmounted(c, h, x, node, luck).value.0, node.name, y);
    } else {
      KeptLocalTells(c, h, x, node, luck.ok, y);
    }
  }

  lemma TakenTells(c: Config, closing: bool, x: Handle, taker: Taker, y: Story)
    requires StoryOk(c, x, y) && Taken(closing, x, taker).Some? && x.pc.Waiting?
    ensures StoryOk(c, Taken(closing, x, taker).value, TookBack(y, taker))
  {
  }

  /** What an attempt or a failed one goes through. */
  lemma AttemptTells(c: Config, closing: bool, h: HandleId, x: Handle, node: Node, luck: Luck, y: Story)
    requires StoryOk(c, x, y) && WaitOk(x) && Advance(c, closing, h, x, node, luck).Some?
    requires AttemptOf(x.pc).Some? || x.pc.Failing? || x.pc.Retrying?
    ensures StoryOk(c, Advance(c, closing, h, x, node, luck).value.0, Heard(y, x, node.name))
  {
    var x' := Advance(c, closing, h, x, node, luck).value.0;
    match x.pc
    case Failing(_, _) => FailingTells(c, closing, x, node, y);
    case Retrying(_, _) => RetryTells(c, closing, x, node, y);
    case Trying(_) | Walking(_, _) | Holding(_) => AttemptingIsCourse(x, node, luck); CourseTells(c, x, x', y);
    case Lost(_, _) | Claimed(_, _, _) => ConcludedIsCourse(x, node, luck); CourseTells(c, x, x', y);
    case Uploading(_, _) => AnswerIsCourse(x, node, luck); CourseTells(c, x, x', y);
    case Uploaded(_, _, _) => ClaimIsCourse(x, node, luck); CourseTells(c, x, x', y);
    case _ =>
  }

  lemma AdvanceTells(c: Config, closing: bool, h: HandleId, x: Handle, node: Node, luck: Luck, y: Story)
    requires StoryOk(c, x, y) && NameOk(node, y) && Placed(h, x, node) && WaitOk(x)
    requires Advance(c, closing, h, x, node, luck).Some?
    ensures StoryOk(c, Advance(c, closing, h, x, node, luck).value.0, Heard(y, x, node.name))
  {
    match x.pc
    case Untracking(_, _) => UntrackedTells(c, x, node, y);
    case LettingGo(_, _) => UnmountedTells(c, h, x, node, luck, y);
    case Entered => EnteredTells(c, x, node, y);
    case Snapped(_, _) => SnappedTells(c, x, node, y);
    case Chosen(_, _, _, _) => ChosenTells(c, x, node, y);
    case Parking(_, _) => ParkingTells(c, x, node, y);
    case Discarding(_) | Keeping(_) | Dropping(_) =>
      LettingLooseIsLoose(h, x, node, luck);
      LooseTells(c, x, LettingLoose(h, x, node, luck).value.0, y);
    case Open | Waiting | Stranded | Done =>
    case _ => AttemptTells(c, closing, h, x, node, luck, y);
  }

  /** The other steps on a handle leave its permission and its wait alone. */
  predicate Alike(x: Handle, x': Handle) {
    && x'.buffer.due == x.buffer.due && x'.buffer.failed == x.buffer.failed && x'.buffer.timer == x.buffer.timer
    && x'.past.unstored == x.past.unstored && x'.past.renamedAway == x.past.renamedAway
    && x'.past.fails == x.past.fails
    && (x'.pc == x.pc || (x.pc.Open? && x'.pc.Entered?))
    && (x.pc.Done? ==> x'.onDisk == x.onDisk && x'.version == x.version && x'.past.unsaved == x.past.unsaved)
  }

  lemma AlikeTells(c: Config, x: Handle, x': Handle, y: Story)
    requires StoryOk(c, x, y) && Alike(x, x')
    ensures StoryOk(c, x', y)
  {
  }

  lemma ActIsAlike(closing: bool, h: HandleId, x: Handle, node: Node, a: Action)
    requires Placed(h, x, node) && HandleStep(closing, h, x, node, a).Some? && !a.Take?
    ensures Alike(x, HandleStep(closing, h, x, node, a).value)
  {
  }
}
