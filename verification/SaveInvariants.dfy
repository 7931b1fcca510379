/** What every step of the write-buffer protocol keeps. */
module SaveInvariants {
  import opened Wrappers
  import opened Buffers
  import opened SaveProtocol

  /** A parked buffer is in exactly the set its timer says, exists, and its node points back at it. */
  predicate Shape(h: HandleId, x: Handle, node: Node) {
    && (Live(x.pc) <==> node.handle == Some(h))
    && (Live(x.pc) <==> x.buffer.hasTmp)
    && (Live(x.pc) ==> x.onDisk)
    && (x.buffer.parked <==> x.pc.Waiting?)
    && (x.buffer.timer ==> x.buffer.parked)
    && (x.inDelayed <==> (x.buffer.timer || (x.pc.Untracking? && x.pc.timed)))
    && (x.inKept <==> ((x.buffer.parked && !x.buffer.timer) || (x.pc.Untracking? && !x.pc.timed)))
    && (Live(x.pc) ==> (Locked(x.pc) <==> node.mu.Held?))
    && (Live(x.pc) && node.leftAt.Some? ==> x.buffer.gone || x.captured)
    && (x.buffer.gone ==> x.past.unlinked || x.past.replaced)
    && (x.pc.Discarding? || x.pc.Lost? ==> x.buffer.gone)
    && (x.past.replaced ==> x.buffer.gone)
  }

  /** Where a buffer whose upload failed for good can be. */
  predicate FailedPlace(x: Handle) {
    var taken := x.past.unlinked || x.buffer.gone;
    match x.pc
    case Waiting => !x.buffer.timer
    case Parking(delay, _) => delay == 0
    case Untracking(_, next) => next.ToUnmount? || (next.ToRelease? && !x.buffer.dirty && taken)
    case Entered => !x.buffer.dirty && taken
    case Snapped(dirty, _) => !dirty && taken
    case Chosen(dirty, _, _, _) => !dirty && taken
    case Dropping(_) => x.past.unlinked
    case Discarding(_) | Keeping(_) | LettingGo(_, _) | Done => true
    case _ => false
  }

  predicate Failure(x: Handle) {
    && (x.buffer.failed ==> FailedPlace(x))
    && (x.pc.Untracking? && x.pc.next.ToUnmount? ==> x.pc.next.hadFailed == x.buffer.failed)
    && (x.pc.LettingGo? ==> x.pc.failed == x.buffer.failed)
    && (x.pc.Snapped? || x.pc.Chosen? ==> x.pc.dirty ==> x.buffer.dirty)
    && (x.past.failedAtMark ==> x.past.replaced)
    && (x.past.failedAtMark && !x.past.retaken ==> x.buffer.failed)
    && (x.buffer.failed && !x.onDisk ==> x.past.unlinked || x.version in x.past.unsaved)
  }

  /** A rename over the file took the buffer while it had not failed for good, or a writer took it back after that. */
  predicate Overridden(x: Handle) {
    (x.past.replaced && !x.past.failedAtMark) || x.past.retaken
  }

  /** The bytes of version v are somewhere other than its temp file, or the user or unmount let them go. */
  predicate Excused(x: Handle, v: nat) {
    || v in x.past.landed
    || v in x.past.unsaved
    || v in x.past.stored
    || v < x.version
    || x.past.unlinked
    || Overridden(x)
    || x.past.unstored
    || x.past.renamedAway
  }

  /** The Release at x.pc is that of a buffer nobody wrote, or that an unlink or a rename took. */
  predicate Clean(x: Handle) {
    match x.pc
    case Snapped(dirty, _) => !dirty
    case Chosen(dirty, _, _, _) => !dirty
    case _ => !x.buffer.dirty
  }

  predicate Accounted(x: Handle, v: nat) {
    && v <= x.version
    && (x.onDisk || Excused(x, v))
    && (x.pc.Dropping? ==> Excused(x, v))
    && (x.pc.Uploading? || x.pc.Uploaded? || x.pc.Claimed? ==> v <= x.pc.version)
    && (Clean(x) ==> x.past.unlinked || x.past.replaced)
  }

  ghost predicate Saves(x: Handle) {
    forall v <- x.past.saves :: Accounted(x, v)
  }

  predicate Versions(x: Handle) {
    && (x.pc.Uploading? || x.pc.Uploaded? || x.pc.Claimed? ==> x.pc.version <= x.version)
    && (x.pc.Claimed? ==> x.pc.version in x.past.landed)
  }

  /**
   * A new file an upload made is still in that Release's hands, or its node claimed it, or it was
   * trashed, or trashing it failed, or its link was never read back.
   */
  predicate Links(x: Handle) {
    var over := x.pc.Dropping? || x.pc.Done?;
    && (x.past.fate.claimed ==> (x.pc.Claimed? || over) && !x.past.fate.trashed && !x.past.fate.trashFailed)
    && (x.pc.Claimed? ==> x.past.fate.claimed)
    && (x.past.fate.trashed || x.past.fate.trashFailed ==> over && x.past.fate.made.Some? && x.buffer.gone)
    && !(x.past.fate.trashed && x.past.fate.trashFailed)
    && (x.past.fate.patched ==> x.past.fate.claimed && over)
    && (x.past.fate.made.Some? ==>
          || ((x.pc.Uploaded? || x.pc.Lost?) && x.pc.link == x.past.fate.made)
          || x.past.fate.claimed
          || x.past.fate.trashed
          || x.past.fate.trashFailed)
    && (x.pc.Uploaded? || x.pc.Lost? ==> (x.pc.up.existing.None? && x.pc.link.Some? <==> x.past.fate.made.Some?))
    && (x.pc.Uploaded? || x.pc.Lost? ==> (x.pc.up.existing.None? <==> x.past.fate.created))
    && (x.past.fate.made.Some? ==> x.past.fate.created)
    && (x.past.fate.created ==> x.pc.Uploaded? || x.pc.Lost? || x.pc.Claimed? || over)
    && (x.past.fate.created && over && !x.past.fate.claimed ==> x.buffer.gone)
  }

  predicate Placed(h: HandleId, x: Handle, node: Node) {
    Shape(h, x, node) && Failure(x)
  }

  ghost predicate History(x: Handle) {
    Saves(x) && Versions(x) && Links(x)
  }

  ghost predicate HandleOk(h: HandleId, x: Handle, node: Node) {
    Placed(h, x, node) && History(x)
  }

  function AttemptOf(pc: Pc): Option<Attempt> {
    match pc
    case Trying(up) => Some(up)
    case Walking(_, up) => Some(up)
    case Holding(up) => Some(up)
    case Uploading(up, _) => Some(up)
    case Uploaded(up, _, _) => Some(up)
    case Lost(up, _) => Some(up)
    case Claimed(up, _, _) => Some(up)
    case _ => None
  }

  // ----- what a region of Release leaves alone -----

  /** A buffer marked gone stays so; unless its upload is on its way none is sent, and none is claimed. */
  predicate Onward(x: Handle, x': Handle) {
    && x'.node == x.node
    && (x.buffer.gone ==> x'.buffer.gone)
    && (x.buffer.gone && !Sending(x.pc) ==> !Sending(x'.pc) && x'.past.sent == x.past.sent)
    && (x.buffer.gone && !x.past.fate.claimed ==> !x'.past.fate.claimed)
  }

  /** The temp file of a buffer whose upload failed for good goes by an unlink or moves to safety. */
  predicate Spared(x: Handle, x': Handle) {
    x.buffer.failed && x.onDisk ==> x'.onDisk || x'.past.unlinked || x.version in x'.past.unsaved
  }

  /** A region keeps its file's place in time, never un-marks a buffer, and starts no upload of a gone one. */
  predicate Frame(x: Handle, node: Node, x': Handle, node': Node) {
    && Onward(x, x')
    && Spared(x, x')
    && node'.leftAt == node.leftAt
    && (node'.supersedes == node.supersedes || node'.supersedes == None)
    && (node'.handle == node.handle || node'.handle == None)
    && (node'.handle == None ==> node'.mu != Held || node' == node)
    && x.past.saves <= x'.past.saves
    && (AttemptOf(x'.pc).Some? ==>
          AttemptOf(x'.pc) == AttemptOf(x.pc) || (x'.pc.Trying? && x'.pc.up.walked == {}))
    && (x'.pc.Trying? ==> x'.pc.up.walked == {} || x'.pc == x.pc)
    && (x'.pc.Walking? ==> x'.pc == x.pc || (x.pc.Trying? && x'.pc.ahead == node.supersedes))
  }

  lemma UntrackedKeepsPlace(h: HandleId, x: Handle, node: Node)
    requires Placed(h, x, node)
    requires Untracked(x, node).Some?
    ensures var next := Untracked(x, node).value; Placed(h, next.0, next.1)
  {
  }

  lemma UnmountedKeepsShape(c: Config, h: HandleId, x: Handle, node: Node, luck: Luck)
    requires Placed(h, x, node)
    requires Unmounted(c, h, x, node, luck).Some?
    ensures var next := Unmounted(c, h, x, node, luck).value; Shape(h, next.0, next.1)
  {
  }

  lemma UnmountedKeepsPlace(c: Config, h: HandleId, x: Handle, node: Node, luck: Luck)
    requires Placed(h, x, node)
    requires Unmounted(c, h, x, node, luck).Some?
    ensures var next := Unmounted(c, h, x, node, luck).value; Placed(h, next.0, next.1)
  {
    UnmountedKeepsShape(c, h, x, node, luck);
  }

  lemma UntrackedKeepsHistory(h: HandleId, x: Handle, node: Node)
    requires HandleOk(h, x, node)
    requires Untracked(x, node).Some?
    ensures var next := Untracked(x, node).value; History(next.0) && Frame(x, node, next.0, next.1)
  {
  }

  /** The first region of abandon on a buffer that is set aside or dropped. */
  predicate GivenUp(x: Handle, x': Handle) {
    || x' == x.(pc := Keeping(false))
    || x' == x.(pc := Dropping(false), past := x.past.(renamedAway := true))
    || x' == x.(pc := Dropping(false), past := x.past.(unstored := true))
  }

  lemma GivenUpKeepsHistory(h: HandleId, x: Handle, node: Node, x': Handle)
    requires HandleOk(h, x, node) && x.pc.LettingGo? && GivenUp(x, x')
    requires x'.pc.Dropping? ==> !x.pc.failed
    ensures History(x') && Frame(x, node, x', node)
  {
  }

  lemma UnmountedKeepsHistory(c: Config, h: HandleId, x: Handle, node: Node, luck: Luck)
    requires HandleOk(h, x, node)
    requires Unmounted(c, h, x, node, luck).Some?
    ensures var next := Unmounted(c, h, x, node, luck).value; History(next.0) && Frame(x, node, next.0, next.1)
  {
    if x.pc.timed || x.pc.failed || !c.excluded(node.name) || !c.hasStore {
      GivenUpKeepsHistory(h, x, node, Unmounted(c, h, x, node, luck).value.0);
    } else {
      KeptLocalKeepsHistory(h, x, node, luck.ok);
    }
  }

  lemma KeptLocalKeepsHistory(h: HandleId, x: Handle, node: Node, moved: bool)
    requires HandleOk(h, x, node) && x.pc.LettingGo?
    ensures var next := KeptLocal(h, x, node, moved);
      History(next.0) && (x.buffer.failed || Frame(x, node, next.0, next.1))
  {
  }

  lemma ChoosingKeepsPlace(c: Config, h: HandleId, x: Handle, node: Node)
    requires Placed(h, x, node)
    requires Choosing(c, x, node).Some?
    ensures var next := Choosing(c, x, node).value; Placed(h, next.0, next.1)
  {
    if x.pc.Parking? {
      ParkingKeepsPlace(h, x, node, Choosing(c, x, node).value.0, Choosing(c, x, node).value.1);
    }
  }

  lemma ParkingKeepsPlace(h: HandleId, x: Handle, node: Node, x': Handle, node': Node)
    requires Placed(h, x, node) && x.pc.Parking?
    requires x' == x.(pc := Waiting, buffer := x.buffer.Park(x.pc.delay),
                      inDelayed := x.inDelayed || x.pc.delay > 0, inKept := x.inKept || x.pc.delay == 0)
    requires node' == node.(mu := if x.pc.locked then Leaving else node.mu)
    ensures Placed(h, x', node')
  {
  }

  lemma ChoosingKeepsHistory(c: Config, h: HandleId, x: Handle, node: Node)
    requires HandleOk(h, x, node)
    requires Choosing(c, x, node).Some?
    ensures var next := Choosing(c, x, node).value; History(next.0) && Frame(x, node, next.0, next.1)
  {
  }

  lemma AttemptingKeepsPlace(h: HandleId, x: Handle, node: Node, luck: Luck)
    requires Placed(h, x, node)
    requires Attempting(x, node, luck).Some?
    ensures var next := Attempting(x, node, luck).value; Placed(h, next.0, next.1)
  {
  }

  lemma AttemptingKeepsHistory(h: HandleId, x: Handle, node: Node, luck: Luck)
    requires HandleOk(h, x, node)
    requires Attempting(x, node, luck).Some?
    ensures var next := Attempting(x, node, luck).value; History(next.0) && Frame(x, node, next.0, next.1)
  {
  }

  lemma AnsweredKeepsShape(h: HandleId, x: Handle, node: Node, luck: Luck)
    requires Shape(h, x, node)
    requires Answered(x, node, luck).Some?
    ensures var next := Answered(x, node, luck).value; Shape(h, next.0, next.1)
  {
  }

  lemma AnsweredKeepsPlace(h: HandleId, x: Handle, node: Node, luck: Luck)
    requires Placed(h, x, node)
    requires Answered(x, node, luck).Some?
    ensures var next := Answered(x, node, luck).value; Placed(h, next.0, next.1)
  {
    AnsweredKeepsShape(h, x, node, luck);
    var next := Answered(x, node, luck).value;
    assert !x.buffer.failed && next.0.buffer == x.buffer;
  }

  lemma AnsweredKeepsHistory(h: HandleId, x: Handle, node: Node, luck: Luck)
    requires HandleOk(h, x, node)
    requires Answered(x, node, luck).Some?
    ensures var next := Answered(x, node, luck).value; History(next.0) && Frame(x, node, next.0, next.1)
  {
  }

  lemma ConcludedKeepsShape(h: HandleId, x: Handle, node: Node, luck: Luck)
    requires Shape(h, x, node)
    requires Concluded(x, node, luck).Some?
    ensures var next := Concluded(x, node, luck).value; Shape(h, next.0, next.1)
  {
  }

  lemma ConcludedKeepsPlace(h: HandleId, x: Handle, node: Node, luck: Luck)
    requires Placed(h, x, node)
    requires Concluded(x, node, luck).Some?
    ensures var next := Concluded(x, node, luck).value; Placed(h, next.0, next.1)
  {
    ConcludedKeepsShape(h, x, node, luck);
    var next := Concluded(x, node, luck).value;
    assert !x.buffer.failed && next.0.buffer == x.buffer;
  }

  lemma ConcludedKeepsHistory(h: HandleId, x: Handle, node: Node, luck: Luck)
    requires HandleOk(h, x, node)
    requires Concluded(x, node, luck).Some?
    ensures var next := Concluded(x, node, luck).value; History(next.0) && Frame(x, node, next.0, next.1)
  {
  }

  lemma KeepingForRetryKeepsPlace(closing: bool, h: HandleId, x: Handle, node: Node)
    requires Placed(h, x, node)
    requires KeepingForRetry(closing, x, node).Some?
    ensures var next := KeepingForRetry(closing, x, node).value; Placed(h, next.0, next.1)
  {
  }

  lemma KeepingForRetryKeepsHistory(closing: bool, h: HandleId, x: Handle, node: Node)
    requires HandleOk(h, x, node)
    requires KeepingForRetry(closing, x, node).Some?
    ensures var next := KeepingForRetry(closing, x, node).value; History(next.0) && Frame(x, node, next.0, next.1)
  {
    match x.pc
    case Failing(_, _) =>
    case Retrying(_, _) =>
    case _ =>
  }

  lemma LettingLooseKeepsPlace(h: HandleId, x: Handle, node: Node, luck: Luck)
    requires Placed(h, x, node)
    requires LettingLoose(h, x, node, luck).Some?
    ensures var next := LettingLoose(h, x, node, luck).value; Placed(h, next.0, next.1)
  {
  }

  lemma LettingLooseKeepsHistory(h: HandleId, x: Handle, node: Node, luck: Luck)
    requires HandleOk(h, x, node)
    requires LettingLoose(h, x, node, luck).Some?
    ensures var next := LettingLoose(h, x, node, luck).value; History(next.0) && Frame(x, node, next.0, next.1)
  {
  }

  lemma AdvanceKeeps(c: Config, closing: bool, h: HandleId, x: Handle, node: Node, luck: Luck)
    requires HandleOk(h, x, node)
    requires Advance(c, closing, h, x, node, luck).Some?
    ensures var next := Advance(c, closing, h, x, node, luck).value;
            HandleOk(h, next.0, next.1) && Frame(x, node, next.0, next.1)
  {
    match x.pc
    case Untracking(_, _) => UntrackedKeepsPlace(h, x, node); UntrackedKeepsHistory(h, x, node);
    case LettingGo(_, _) => UnmountedKeepsPlace(c, h, x, node, luck); UnmountedKeepsHistory(c, h, x, node, luck);
    case Entered | Snapped(_, _) | Chosen(_, _, _, _) | Parking(_, _) => ChoosingKeepsPlace(c, h, x, node); ChoosingKeepsHistory(c, h, x, node);
    case Trying(_) | Walking(_, _) | Holding(_) => AttemptingKeepsPlace(h, x, node, luck); AttemptingKeepsHistory(h, x, node, luck);
    case Uploading(_, _) | Uploaded(_, _, _) => AnsweredKeepsPlace(h, x, node, luck); AnsweredKeepsHistory(h, x, node, luck);
    case Lost(_, _) | Claimed(_, _, _) => ConcludedKeepsPlace(h, x, node, luck); ConcludedKeepsHistory(h, x, node, luck);
    case Failing(_, _) | Retrying(_, _) => KeepingForRetryKeepsPlace(closing, h, x, node); KeepingForRetryKeepsHistory(closing, h, x, node);
    case Discarding(_) | Keeping(_) | Dropping(_) => LettingLooseKeepsPlace(h, x, node, luck); LettingLooseKeepsHistory(h, x, node, luck);
    case Open | Waiting | Stranded | Done =>
  }

  lemma TakenKeepsPlace(closing: bool, h: HandleId, x: Handle, node: Node, taker: Taker)
    requires Placed(h, x, node)
    requires Taken(closing, x, taker).Some?
    ensures Placed(h, Taken(closing, x, taker).value, node)
  {
  }

  lemma TakenKeeps(closing: bool, h: HandleId, x: Handle, node: Node, taker: Taker)
    requires HandleOk(h, x, node)
    requires Taken(closing, x, taker).Some?
    ensures HandleOk(h, Taken(closing, x, taker).value, node) && Frame(x, node, Taken(closing, x, taker).value, node)
  {
    TakenKeepsPlace(closing, h, x, node, taker);
  }

  lemma RewriteKeeps(h: HandleId, x: Handle, node: Node)
    requires HandleOk(h, x, node)
    requires x.pc.Open? || CanTruncate(x)
    ensures HandleOk(h, Rewritten(x), node) && Frame(x, node, Rewritten(x), node)
  {
  }

  lemma CloseKeeps(h: HandleId, x: Handle, node: Node)
    requires HandleOk(h, x, node)
    requires x.pc.Open?
    ensures HandleOk(h, Closed(x), node) && Frame(x, node, Closed(x), node)
  {
  }

  /** A rename over the file marks its buffer gone. */
  lemma MarkKeeps(h: HandleId, x: Handle, node: Node)
    requires HandleOk(h, x, node)
    ensures HandleOk(h, Replaced(x), node) && Frame(x, node, Replaced(x), node)
  {
  }

  /** So does an unlink of a file not uploaded yet. */
  lemma UnlinkKeeps(h: HandleId, x: Handle, node: Node)
    requires HandleOk(h, x, node)
    ensures var x' := Gone(x).(past := x.past.(unlinked := true)); HandleOk(h, x', node) && Frame(x, node, x', node)
  {
  }

  /** The file left the tree: its handle, when it is live, has been captured to be marked. */
  lemma LeavingKeeps(h: HandleId, x: Handle, node: Node, node': Node)
    requires HandleOk(h, x, node)
    requires node'.handle == node.handle && node'.mu == node.mu
    ensures HandleOk(h, x.(captured := true), node')
    ensures !Live(x.pc) ==> HandleOk(h, x, node')
  {
  }

  /** A handle does not care about its node's link, name or edge, or about which way the lock is not held. */
  lemma RelabelKeeps(h: HandleId, x: Handle, node: Node, node': Node)
    requires HandleOk(h, x, node)
    requires node'.handle == node.handle && node'.leftAt == node.leftAt && (node'.mu.Held? <==> node.mu.Held?)
    ensures HandleOk(h, x, node')
  {
  }

  /** Another handle of the same node is over, so a change of the node leaves it as it was. */
  lemma OverKeeps(g: HandleId, y: Handle, node: Node, node': Node)
    requires HandleOk(g, y, node) && !Live(y.pc)
    requires node'.handle != Some(g)
    ensures HandleOk(g, y, node')
  {
  }

  lemma HandleStepKeeps(closing: bool, h: HandleId, x: Handle, node: Node, a: Action)
    requires HandleOk(h, x, node)
    requires HandleStep(closing, h, x, node, a).Some?
    ensures var x' := HandleStep(closing, h, x, node, a).value; HandleOk(h, x', node) && Frame(x, node, x', node)
  {
    match a
    case ReplaceMark(_) => MarkKeeps(h, x, node);
    case UnlinkPending(_) => UnlinkKeeps(h, x, node);
    case Write(_) => RewriteKeeps(h, x, node);
    case Truncate(_) => RewriteKeeps(h, x, node);
    case Close(_) => CloseKeeps(h, x, node);
    case Take(_, taker) => TakenKeeps(closing, h, x, node, taker);
    case _ =>
  }
}
