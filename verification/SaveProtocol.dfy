/**
 * The life of every write buffer on a mount, as a state machine: one step per lock-protected region
 * of Release, park, settle, unpark, abandon, keepForRetry, claim and the renames, unlinks and opens
 * around them. Any number of files, handles and handlers interleave; timers fire at any moment, and
 * uploads, moves to the unsaved folder and moves to the local store succeed or fail freely.
 */
module SaveProtocol {
  import opened Wrappers
  import opened Buffers

  type HandleId = nat
  type NodeId = nat
  type LinkId = nat
  type Name = string

  /** What the mount was started with: the exclude rules, the delay rules, and a local store or none. */
  datatype Config = Config(excluded: Name -> bool, delay: Name -> nat, hasStore: bool)

  /**
   * What one Release read before it tried to upload, and the replaced files it has waited for.
   * early holds those it passed while a rename had recorded the edge to them but had not marked
   * their buffer gone yet.
   */
  datatype Attempt = Attempt(existing: Option<LinkId>, name: Name, due: bool, walked: set<NodeId>, early: set<NodeId>)

  /** Who goes on with a buffer once it has left the delayed or kept set. */
  datatype Next = ToWriter | ToNobody | ToRelease | ToUnmount(wasTimed: bool, hadFailed: bool)

  /** Where the one owner of a buffer is: a writer, a timer to come, or a region of Release. */
  datatype Pc =
    | Open
    | Waiting
    | Untracking(timed: bool, next: Next)
    | Entered
    | Snapped(dirty: bool, due: bool)
    | Chosen(dirty: bool, due: bool, existing: Option<LinkId>, name: Name)
    | Parking(delay: nat, locked: bool)
    | Trying(up: Attempt)
    | Walking(ahead: Option<NodeId>, up: Attempt)
    | Holding(up: Attempt)
    | Uploading(up: Attempt, version: nat)
    | Uploaded(up: Attempt, version: nat, link: Option<LinkId>)
    | Lost(up: Attempt, link: Option<LinkId>)
    | Claimed(up: Attempt, version: nat, link: Option<LinkId>)
    | Failing(permanent: bool, locked: bool)
    | Retrying(permanent: bool, locked: bool)
    | Discarding(locked: bool)
    | Keeping(locked: bool)
    | Dropping(locked: bool)
    | LettingGo(timed: bool, failed: bool)
    | Stranded
    | Done

  /**
   * What became of a handle's upload. created: it made a new file; made: that file's link, when it was
   * read back; claimed: the node took it, patched: it was put in a listing; trashed: the new file was
   * trashed, trashFailed: that was tried and failed.
   */
  datatype Fate = Fate(
    created: bool,
    made: Option<LinkId>,
    claimed: bool,
    patched: bool,
    trashed: bool,
    trashFailed: bool)

  const NO_FATE: Fate := Fate(false, None, false, false, false, false)

  /**
   * What happened to a handle so far. Every write or truncate of its buffer starts a new version,
   * so a version number stands for one sequence of bytes. saves: the versions a dirty close
   * returned with. sent and landed: those an upload sent, and those whose upload the file claimed.
   * unsaved and stored: those moved to the unsaved folder and to the local store. unlinked: an Unlink
   * took it, whether or not the drive then trashes the file and Unlink succeeds. replaced: a rename put
   * another file over it. unstored: unmount let go of it under an excluded name with no store, or none
   * that could take it. renamedAway: unmount let go of it, parked with no timer, under a name that is
   * not excluded. failedAtMark: its upload had failed for good when a rename over the file marked it;
   * retaken: a writer or a rename took it back after that. fate: what became of its upload. fails:
   * transient upload failures since the buffer was last taken back to be uploaded again.
   */
  datatype Past = Past(
    saves: set<nat>,
    sent: set<nat>,
    landed: set<nat>,
    unsaved: set<nat>,
    stored: set<nat>,
    unlinked: bool,
    replaced: bool,
    unstored: bool,
    renamedAway: bool,
    failedAtMark: bool,
    retaken: bool,
    fate: Fate,
    fails: nat)

  const NO_PAST: Past :=
    Past({}, {}, {}, {}, {}, false, false, false, false, false, false, NO_FATE, 0)

  /**
   * A write handle. onDisk: its temp file exists. inDelayed, inKept: the mount's delayed or kept
   * set holds it. captured: a running rename over its file has read it and not marked it gone yet.
   */
  datatype Handle = Handle(
    node: NodeId,
    version: nat,
    buffer: Buffer,
    onDisk: bool,
    inDelayed: bool,
    inKept: bool,
    captured: bool,
    pc: Pc,
    past: Past)

  /** A file's uploadMu: Leaving is a Release that only has its deferred unlock left. */
  datatype Mu = Free | Held | Leaving

  /** leftAt is when a rename put another file over this one, which takes it out of the tree. */
  datatype Node = Node(
    link: Option<LinkId>,
    name: Name,
    handle: Option<HandleId>,
    supersedes: Option<NodeId>,
    leftAt: Option<nat>,
    mu: Mu)

  datatype State = State(handles: map<HandleId, Handle>, nodes: map<NodeId, Node>, closing: bool, clock: nat)

  const EMPTY: State := State(map[], map[], false, 0)

  /** Who takes a parked buffer. */
  datatype Taker = Writer(truncFails: bool) | Rename | Unlinker | Replacer | Timer | Unmount

  /** How an upload, a move or a stat turns out. */
  datatype Luck = Luck(ok: bool, permanent: bool, link: Option<LinkId>)

  datatype Action =
    | Mount(n: NodeId, id: LinkId, name: Name)
    | Create(n: NodeId, h: HandleId, name: Name)
    | OpenNew(n: NodeId, h: HandleId)
    | Retarget(n: NodeId, link: Option<LinkId>, name: Name)
    | ReplaceLink(src: Option<NodeId>, n: NodeId)
    | ReplaceMark(h: HandleId)
    | UnlinkPending(h: HandleId)
    | Write(h: HandleId)
    | Truncate(h: HandleId)
    | Close(h: HandleId)
    | Take(h: HandleId, taker: Taker)
    | StartClosing
    | Go(h: HandleId, luck: Luck)
    | Walk(h: HandleId)
    | Unlock(n: NodeId)

  predicate Live(pc: Pc) {
    pc != Done
  }

  /** The Release at pc holds its file's uploadMu. */
  predicate Locked(pc: Pc) {
    match pc
    case Holding(_) | Uploading(_, _) | Uploaded(_, _, _) | Lost(_, _) | Claimed(_, _, _) => true
    case Parking(_, locked) => locked
    case Failing(_, locked) => locked
    case Retrying(_, locked) => locked
    case Discarding(locked) => locked
    case Keeping(locked) => locked
    case Dropping(locked) => locked
    case _ => false
  }

  /** The Release at pc has passed its last gone check and its upload has not returned. */
  predicate Sending(pc: Pc) {
    pc.Holding? || pc.Uploading?
  }

  /** The stretch an unlink's or a replacing rename's own Release runs through. */
  predicate InRelease(pc: Pc) {
    match pc
    case Untracking(_, next) => next.ToRelease?
    case Entered | Snapped(_, _) | Chosen(_, _, _, _) | Discarding(_) | Dropping(_) => true
    case _ => false
  }

  /** A handle Create or Open just made. */
  function Fresh(n: NodeId, dirty: bool): Handle {
    Handle(n, 0, Buffer(true, dirty, false, false, false, 0, false, false), true, false, false, false, Open, NO_PAST)
  }

  // ----- the writer: Write, Setattr and the close -----

  function Rewritten(x: Handle): Handle {
    x.(version := x.version + 1, buffer := x.buffer.(dirty := true))
  }

  /**
   * Write needs the descriptor open. A truncate goes to the file's handle wherever that is, except
   * while an unlink of the file or a rename over it runs, which hold the inode locked.
   */
  predicate CanTruncate(x: Handle) {
    x.buffer.hasTmp && !(InRelease(x.pc) && (x.past.unlinked || x.buffer.gone))
  }

  function Closed(x: Handle): Handle {
    x.(pc := Entered, past := if x.buffer.dirty then x.past.(saves := x.past.saves + {x.version}) else x.past)
  }

  // ----- whoever takes a parked buffer back: unpark, settle, abandon -----

  /** A writer or a rename took the buffer back, to upload it again. */
  function TakenBack(past: Past): Past {
    past.(fails := 0, retaken := past.retaken || past.failedAtMark)
  }

  function Taken(closing: bool, x: Handle, taker: Taker): Option<Handle> {
    var b := x.buffer;
    if !b.parked then None
    else
      match taker
      case Writer(truncFails) =>
        Some(x.(buffer := b.Unpark(true), pc := Untracking(b.timer, if truncFails then ToNobody else ToWriter), past := TakenBack(x.past)))
      case Rename => Some(x.(buffer := b.Unpark(true), pc := Untracking(b.timer, ToRelease), past := TakenBack(x.past)))
      case Unlinker =>
        Some(x.(buffer := b.Unpark(false), pc := Untracking(b.timer, ToRelease), past := x.past.(unlinked := true)))
      case Replacer =>
        if !x.past.replaced then None
        else Some(x.(buffer := b.Unpark(false), pc := Untracking(b.timer, ToRelease)))
      case Timer =>
        if !b.timer then None
        else Some(x.(buffer := b.Settle(), pc := Untracking(true, ToRelease)))
      case Unmount =>
        if !closing then None
        else Some(x.(buffer := b.Abandon(), pc := Untracking(b.timer, ToUnmount(b.timer, b.failed))))
  }

  // ----- Release, keepForRetry, discard, keepUnsaved, keepLocal and drop -----

  /** detach, then onDisk says whether the temp file is still there. */
  function Detached(h: HandleId, x: Handle, node: Node, onDisk: bool, locked: bool): (Handle, Node) {
    (x.(pc := Done, buffer := x.buffer.Detach(), onDisk := onDisk),
     node.(handle := if node.handle == Some(h) then None else node.handle,
           mu := if locked then Leaving else node.mu))
  }

  /** unpark, settle and abandon after they cleared parked: out of the set, then on to whoever took it. */
  function Untracked(x: Handle, node: Node): Option<(Handle, Node)> {
    match x.pc
    case Untracking(timed, next) =>
      var pc := match next
        case ToWriter => Open
        case ToNobody => Stranded
        case ToRelease => Entered
        case ToUnmount(wasTimed, hadFailed) => LettingGo(wasTimed, hadFailed);
      Some((x.(pc := pc,
               inDelayed := if timed || next.ToUnmount? then false else x.inDelayed,
               inKept := if !timed || next.ToUnmount? then false else x.inKept), node))
    case _ => None
  }

  /** keepLocal: moved to the local store, or removed when that fails. */
  function KeptLocal(h: HandleId, x: Handle, node: Node, moved: bool): (Handle, Node) {
    var past := if moved then x.past.(stored := x.past.stored + {x.version}) else x.past.(unstored := true);
    Detached(h, x.(past := past), node, false, false)
  }

  /** abandon once the buffer is out of both sets: unsaved folder, local store, or gone. */
  function Unmounted(c: Config, h: HandleId, x: Handle, node: Node, luck: Luck): Option<(Handle, Node)> {
    match x.pc
    case LettingGo(timed, failed) =>
      if timed || failed then Some((x.(pc := Keeping(false)), node))
      else if !c.excluded(node.name) then Some((x.(pc := Dropping(false), past := x.past.(renamedAway := true)), node))
      else if !c.hasStore then Some((x.(pc := Dropping(false), past := x.past.(unstored := true)), node))
      else Some(KeptLocal(h, x, node, luck.ok))
    case _ => None
  }

  /** Release up to its decision: read the handle, read the node, then discard, park, drop or try. */
  function Choosing(c: Config, x: Handle, node: Node): Option<(Handle, Node)> {
    var b := x.buffer;
    match x.pc
    case Entered => Some((x.(pc := Snapped(b.dirty, b.due), buffer := b.(due := false)), node))
    case Snapped(dirty, due) => Some((x.(pc := Chosen(dirty, due, node.link, node.name)), node))
    case Chosen(dirty, due, existing, name) =>
      var pc :=
        if b.gone then Discarding(false)
        else if dirty && c.excluded(name) then Parking(0, false)
        else if dirty && !due && c.delay(name) > 0 then Parking(c.delay(name), false)
        else if !dirty then Dropping(false)
        else Trying(Attempt(existing, name, due, {}, {}));
      Some((x.(pc := pc), node))
    case Parking(delay, locked) =>
      Some((x.(pc := Waiting, buffer := b.Park(delay),
               inDelayed := x.inDelayed || delay > 0, inKept := x.inKept || delay == 0),
            node.(mu := if locked then Leaving else node.mu)))
    case _ => None
  }

  /** Release from its stat of the temp file to the upload: the walk, the last gone check, the queue. */
  function Attempting(x: Handle, node: Node, luck: Luck): Option<(Handle, Node)> {
    match x.pc
    case Trying(up) =>
      Some((x.(pc := if luck.ok then Walking(node.supersedes, up) else Failing(false, false)), node))
    case Walking(ahead, up) =>
      if ahead.Some? || !node.mu.Free? then None
      else Some((x.(pc := if x.buffer.gone then Discarding(true) else Holding(up)), node.(mu := Held)))
    case Holding(up) =>
      Some((x.(pc := if luck.ok then Uploading(up, x.version) else Failing(false, true)), node))
    case _ => None
  }

  /** An upload that worked made a new file unless it was a revision. */
  function Made(f: Fate, up: Attempt, link: Option<LinkId>): Fate {
    if up.existing.Some? then f else f.(created := true, made := link)
  }

  /** An upload that was not claimed: the new file is trashed when its link is known. */
  function Discarded(f: Fate, up: Attempt, link: Option<LinkId>, works: bool): Fate {
    if up.existing.Some? || link.None? then f
    else if works then f.(trashed := true)
    else f.(trashFailed := true)
  }

  /** A claimed upload put in the listing of the directory its file is in now, moved there first if need be. */
  function Patched(f: Fate, up: Attempt, link: Option<LinkId>, name: Name, moves: bool): Fate {
    if link.Some? && (moves || name == up.name) then f.(patched := true) else f
  }

  /** The upload came back, and then the node claims it unless the buffer was marked gone meanwhile. */
  function Answered(x: Handle, node: Node, luck: Luck): Option<(Handle, Node)> {
    match x.pc
    case Uploading(up, version) =>
      if !luck.ok then Some((x.(pc := Failing(luck.permanent, true)), node))
      else
        Some((x.(pc := Uploaded(up, version, luck.link),
                 past := x.past.(sent := x.past.sent + {version}, fate := Made(x.past.fate, up, luck.link))), node))
    case Uploaded(up, version, link) =>
      if x.buffer.gone then Some((x.(pc := Lost(up, link)), node))
      else Some((x.(pc := Claimed(up, version, link),
                    past := x.past.(landed := x.past.landed + {version}, fate := x.past.fate.(claimed := true))),
                 node.(link := if link.Some? then link else node.link, supersedes := None)))
    case _ => None
  }

  /** A claimed upload is patched into its listing, one that was not has its new file trashed. */
  function Concluding(f: Fate, pc: Pc, name: Name, luck: Luck): Fate {
    match pc
    case Lost(up, link) => Discarded(f, up, link, luck.ok)
    case Claimed(up, version, link) => Patched(f, up, link, name, luck.ok)
    case _ => f
  }

  function Concluded(x: Handle, node: Node, luck: Luck): Option<(Handle, Node)> {
    if !x.pc.Lost? && !x.pc.Claimed? then None
    else
      var fate := Concluding(x.past.fate, x.pc, node.name, luck);
      Some((x.(pc := Dropping(true), past := x.past.(fate := fate)), node))
  }

  /** keepForRetry: its gone check, then its closing check and what it parks the buffer with. */
  function KeepingForRetry(closing: bool, x: Handle, node: Node): Option<(Handle, Node)> {
    var b := x.buffer;
    match x.pc
    case Failing(permanent, locked) =>
      Some((x.(pc := if b.gone then Discarding(locked) else Retrying(permanent, locked)), node))
    case Retrying(permanent, locked) =>
      if closing then Some((x.(pc := Keeping(locked)), node))
      else if permanent then Some((x.(pc := Parking(0, locked), buffer := b.GiveUp()), node))
      else
        Some((x.(pc := Parking(b.BackOff().retryIn, locked), buffer := b.BackOff(),
                 past := x.past.(fails := x.past.fails + 1)), node))
    case _ => None
  }

  /** discard, keepUnsaved and drop. */
  function LettingLoose(h: HandleId, x: Handle, node: Node, luck: Luck): Option<(Handle, Node)> {
    match x.pc
    case Discarding(locked) =>
      Some((x.(pc := if x.buffer.failed then Keeping(locked) else Dropping(locked)), node))
    case Keeping(locked) =>
      var past := if luck.ok then x.past.(unsaved := x.past.unsaved + {x.version}) else x.past;
      Some(Detached(h, x.(past := past), node, !luck.ok, locked))
    case Dropping(locked) => Some(Detached(h, x, node, false, locked))
    case _ => None
  }

  /** The region after the one at x.pc; None at a writer, a parked buffer, a walk or the end. */
  function Advance(c: Config, closing: bool, h: HandleId, x: Handle, node: Node, luck: Luck): Option<(Handle, Node)> {
    match x.pc
    case Untracking(_, _) => Untracked(x, node)
    case LettingGo(_, _) => Unmounted(c, h, x, node, luck)
    case Entered | Snapped(_, _) | Chosen(_, _, _, _) | Parking(_, _) => Choosing(c, x, node)
    case Trying(_) | Walking(_, _) | Holding(_) => Attempting(x, node, luck)
    case Uploading(_, _) | Uploaded(_, _, _) => Answered(x, node, luck)
    case Lost(_, _) | Claimed(_, _, _) => Concluded(x, node, luck)
    case Failing(_, _) | Retrying(_, _) => KeepingForRetry(closing, x, node)
    case Discarding(_) | Keeping(_) | Dropping(_) => LettingLoose(h, x, node, luck)
    case Open | Waiting | Stranded | Done => None
  }

  // ----- the mount -----

  predicate Has(s: State, h: HandleId) {
    h in s.handles && s.handles[h].node in s.nodes
  }

  function Put(s: State, h: HandleId, x: Handle): State {
    s.(handles := s.handles[h := x])
  }

  function Gone(x: Handle): Handle {
    x.(buffer := x.buffer.(gone := true))
  }

  /** A rename over the file marks the buffer it read. */
  function Replaced(x: Handle): Handle {
    Gone(x).(captured := false, past := x.past.(replaced := true, failedAtMark := x.past.failedAtMark || x.buffer.failed))
  }

  /** The buffer of file b, when it has one, is marked gone. */
  predicate Marked(s: State, b: NodeId)
    requires b in s.nodes
  {
    match s.nodes[b].handle
    case None => true
    case Some(g) => g in s.handles && s.handles[g].buffer.gone
  }

  /** A rename takes dst out of the tree and reads its handle, to mark it next. */
  function LeftTree(s: State, dst: NodeId): State
    requires dst in s.nodes
  {
    var s' := s.(nodes := s.nodes[dst := s.nodes[dst].(leftAt := Some(s.clock))], clock := s.clock + 1);
    var h := s.nodes[dst].handle;
    if h.Some? && h.value in s.handles then Put(s', h.value, s.handles[h.value].(captured := true)) else s'
  }

  /** The file renamed over dst, when it is one, will wait for dst's upload. */
  function Linked(s: State, src: Option<NodeId>, dst: NodeId): State
    requires src.Some? ==> src.value in s.nodes
  {
    if src.None? then s else s.(nodes := s.nodes[src.value := s.nodes[src.value].(supersedes := Some(dst))])
  }

  /** Requests about a file: mounting it, creating or opening it, renaming it or another file over it. */
  function NodeStep(s: State, a: Action): Option<State> {
    match a
    case Mount(n, id, name) =>
      if n in s.nodes then None
      else Some(s.(nodes := s.nodes[n := Node(Some(id), name, None, None, None, Free)]))
    case Create(n, h, name) =>
      if n in s.nodes || h in s.handles then None
      else Some(Put(s.(nodes := s.nodes[n := Node(None, name, Some(h), None, None, Free)]), h, Fresh(n, true)))
    case OpenNew(n, h) =>
      if n !in s.nodes || h in s.handles || s.nodes[n].link.None? || s.nodes[n].handle.Some? || s.nodes[n].leftAt.Some? then None
      else Some(Put(s.(nodes := s.nodes[n := s.nodes[n].(handle := Some(h))]), h, Fresh(n, false)))
    case Retarget(n, link, name) =>
      if n !in s.nodes then None
      else Some(s.(nodes := s.nodes[n := s.nodes[n].(link := link, name := name)]))
    case ReplaceLink(src, dst) =>
      if dst !in s.nodes || s.nodes[dst].leftAt.Some? then None
      else if src.Some? && (src.value !in s.nodes || src.value == dst || s.nodes[src.value].leftAt.Some?) then None
      else
        Some(Linked(LeftTree(s, dst), src, dst))
    case Unlock(n) =>
      if n !in s.nodes || !s.nodes[n].mu.Leaving? then None
      else Some(s.(nodes := s.nodes[n := s.nodes[n].(mu := Free)]))
    case StartClosing => Some(s.(closing := true))
    case _ => None
  }

  /** Steps on one handle that read at most its own node. */
  function HandleStep(closing: bool, h: HandleId, x: Handle, node: Node, a: Action): Option<Handle> {
    match a
    case ReplaceMark(_) =>
      if !x.captured then None
      else Some(Replaced(x))
    case UnlinkPending(_) =>
      if node.link.Some? || node.handle != Some(h) then None
      else Some(Gone(x).(past := x.past.(unlinked := true)))
    case Write(_) => if x.pc.Open? then Some(Rewritten(x)) else None
    case Truncate(_) => if CanTruncate(x) then Some(Rewritten(x)) else None
    case Close(_) => if x.pc.Open? then Some(Closed(x)) else None
    case Take(_, taker) => Taken(closing, x, taker)
    case _ => None
  }

  /** awaitReplaced passes one more file: it has held that file's uploadMu and reads the next edge. */
  function WalkStep(s: State, h: HandleId): Option<Handle> {
    if !Has(s, h) || !s.handles[h].pc.Walking? || s.handles[h].pc.ahead.None? then None
    else
      var b, up := s.handles[h].pc.ahead.value, s.handles[h].pc.up;
      if b !in s.nodes || !s.nodes[b].mu.Free? then None
      else
        var early := if Marked(s, b) then up.early else up.early + {b};
        Some(s.handles[h].(pc := Walking(s.nodes[b].supersedes, up.(walked := up.walked + {b}, early := early))))
  }

  /** The next region of Release, or of whoever took the buffer back. */
  function GoStep(c: Config, s: State, h: HandleId, luck: Luck): Option<State> {
    if !Has(s, h) then None
    else
      var x := s.handles[h];
      var next := Advance(c, s.closing, h, x, s.nodes[x.node], luck);
      if next.None? then None
      else Some(Put(s, h, next.value.0).(nodes := s.nodes[x.node := next.value.1]))
  }

  /** One step of the mount; None when the action cannot happen now. */
  function Step(c: Config, s: State, a: Action): Option<State> {
    match a
    case Mount(_, _, _) | Create(_, _, _) | OpenNew(_, _) | Retarget(_, _, _) | ReplaceLink(_, _) | Unlock(_) | StartClosing =>
      NodeStep(s, a)
    case Go(h, luck) => GoStep(c, s, h, luck)
    case Walk(h) =>
      var next := WalkStep(s, h);
      if next.None? then None else Some(Put(s, h, next.value))
    case _ =>
      if !Has(s, a.h) then None
      else
        var next := HandleStep(s.closing, a.h, s.handles[a.h], s.nodes[s.handles[a.h].node], a);
        if next.None? then None else Some(Put(s, a.h, next.value))
  }

  /** A run: the state after every action of run, in order, or None when one of them cannot happen. */
  function Run(c: Config, s: State, run: seq<Action>): Option<State>
    decreases |run|
  {
    if run == [] then Some(s)
    else
      var s' := Step(c, s, run[0]);
      if s'.None? then None else Run(c, s'.value, run[1..])
  }
}
