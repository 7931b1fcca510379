/**
 * Write handles, files and the mount as the objects they are: park, unpark, settle, Release,
 * keepForRetry, discard, drop, abandon and unmount's flush, one handler at a time. SaveProtocol
 * interleaves the same buffer changes; here each method is held to what it leaves behind.
 */
module WriteBuffers {
  import opened Wrappers
  import opened Buffers

  type Name = string
  type LinkId = nat

  /** Where the bytes of a handle's temp file are. */
  datatype Place = InTmp | InUnsaved | InStore | OnDrive | Deleted

  /** How an upload came back. */
  datatype Upload = Sent(link: Option<LinkId>) | Refused(permanent: bool)

  class MountState {
    const excluded: Name -> bool
    const delay: Name -> nat
    const hasStore: bool
    /** Moves to the unsaved folder and to the local store succeed now. */
    var moves: bool
    var delayed: set<FileHandle>
    var kept: set<FileHandle>
    var closing: bool
    ghost var handles: set<FileHandle>
    ghost var nodes: set<FileNode>
    /** How many renames have put a file over another one. */
    ghost var clock: nat

    constructor (excluded: Name -> bool, delay: Name -> nat, hasStore: bool, moves: bool)
      ensures this.excluded == excluded && this.delay == delay && this.hasStore == hasStore && this.moves == moves
      ensures Valid() && Ordered() && delayed == {} && kept == {} && !closing
      ensures handles == {} && nodes == {}
    {
      this.excluded, this.delay, this.hasStore, this.moves := excluded, delay, hasStore, moves;
      delayed, kept, closing := {}, {}, false;
      handles, nodes, clock := {}, {}, 0;
    }

    /**
     * Every handle is in the delayed set iff parked with a timer and in the kept set iff parked
     * without one, a parked one has its temp file and is its node's handle, and one whose upload
     * failed for good waits with no timer.
     */
    ghost predicate Valid()
      reads this, handles, nodes
    {
      && delayed + kept <= handles
      && (forall h <- handles :: h.node in nodes && h.node.st == this && h.Placed())
    }

    /** The edge from a file to the one it was renamed over goes back in time; a file still in the tree is later than all. */
    ghost predicate Ordered()
      reads this, nodes
    {
      forall n <- nodes ::
        && n.st == this
        && (n.leftAt.Some? ==> n.leftAt.value < clock)
        && (n.supersedes != null ==>
              && n.supersedes in nodes
              && n.supersedes.leftAt.Some?
              && (n.leftAt.Some? ==> n.supersedes.leftAt.value < n.leftAt.value))
    }

    /** Create: a file not on the drive yet, with the handle that writes it. */
    method Create(name: Name) returns (n: FileNode, h: FileHandle)
      requires Valid() && Ordered()
      modifies this`handles, this`nodes
      ensures Valid() && Ordered()
      ensures fresh(n) && fresh(h) && nodes == old(nodes) + {n} && handles == old(handles) + {h}
      ensures n.name == name && n.link == None && n.handle == h && n.supersedes == null && n.leftAt == None
      ensures h.node == n && h.View() == Buffer(true, true, false, false, false, 0, false, false) && h.place == InTmp
    {
      n := new FileNode(this, name, None);
      h := new FileHandle(n, true);
      n.handle := h;
      nodes, handles := nodes + {n}, handles + {h};
    }

    /** A file the drive lists, mounted. */
    method MountFile(name: Name, link: LinkId) returns (n: FileNode)
      requires Valid() && Ordered()
      modifies this`nodes
      ensures Valid() && Ordered()
      ensures fresh(n) && nodes == old(nodes) + {n}
      ensures n.name == name && n.link == Some(link) && n.handle == null && n.supersedes == null && n.leftAt == None
    {
      n := new FileNode(this, name, Some(link));
      nodes := nodes + {n};
    }

    /** Open for writing of a file on the drive that has no write handle: one of its own, with nothing written yet. */
    method OpenForWriting(n: FileNode) returns (h: FileHandle)
      requires Valid() && Ordered() && n in nodes && n.link.Some? && n.handle == null
      modifies this`handles, n`handle
      ensures Valid() && Ordered()
      ensures fresh(h) && handles == old(handles) + {h} && n.handle == h
      ensures h.node == n && h.View() == Buffer(true, false, false, false, false, 0, false, false) && h.place == InTmp
    {
      h := new FileHandle(n, false);
      n.handle := h;
      handles := handles + {h};
    }

    /** replace leaves a destination alone that is the moved file itself, as a node or by its link. */
    predicate Replaces(src: FileNode?, dst: FileNode?, srcLink: Option<LinkId>)
      reads dst
    {
      dst != null && dst != src && !(srcLink.Some? && dst.link == srcLink)
    }

    /**
     * replace, up to the Release of what it took: dst leaves the tree, src, when it is a file, waits for its
     * upload, and its buffer is marked gone and taken back if it was parked.
     */
    method Replace(src: FileNode?, dst: FileNode?, srcLink: Option<LinkId>) returns (taken: bool)
      requires Valid() && Ordered()
      requires src != null ==> src in nodes && src.leftAt.None?
      requires dst != null ==> dst in nodes && dst.leftAt.None?
      requires dst != null && dst.handle != null ==> dst.handle in handles && dst.handle.node == dst
      modifies this`clock, this`delayed, this`kept, if dst != null then {dst} else {},
        if src != null then {src} else {}, if dst != null && dst.handle != null then {dst.handle} else {}
      ensures Valid() && Ordered()
      ensures !old(Replaces(src, dst, srcLink)) ==>
        && !taken && clock == old(clock)
        && (src != null ==> unchanged(src))
        && (dst != null ==> unchanged(dst))
        && (dst != null && dst.handle != null ==> unchanged(dst.handle))
      ensures old(Replaces(src, dst, srcLink)) ==>
        && dst.leftAt == Some(old(clock)) && dst.handle == old(dst.handle) && dst.link == old(dst.link)
        && (src != null ==> src.supersedes == dst && src.handle == old(src.handle) && src.link == old(src.link))
        && (taken <==> old(dst.handle != null && dst.handle.parked))
        && (dst.handle != null ==>
              && dst.handle.gone && !dst.handle.parked && dst.handle.place == old(dst.handle.place)
              && dst.handle.View() ==
                 if taken then old(dst.handle.View()).(gone := true).Unpark(false)
                 else old(dst.handle.View()).(gone := true))
    {
      if dst == null || dst == src { return false; }
      if srcLink.Some? && dst.link == srcLink { return false; }
      dst.leftAt := Some(clock);
      clock := clock + 1;
      if src != null { src.supersedes := dst; }
      if dst.handle == null { return false; }
      dst.handle.gone := true;
      taken := dst.handle.Unpark(false);
    }

    /** Where keepUnsaved leaves a buffer. */
    function SetAside(): Place
      reads this`moves
    {
      if moves then InUnsaved else InTmp
    }

    /** Where keepLocal leaves one. */
    function Stored(): Place
      reads this`moves
    {
      if moves then InStore else Deleted
    }

    /** settleDelayed: upload every buffer waiting out a delay now. */
    method SettleDelayed()
      requires Valid() && !closing
      modifies this`delayed, this`kept, handles, nodes`handle, nodes`link, nodes`supersedes
      ensures Valid()
      ensures forall h <- handles :: h.Settled(old(h.View()), old(h.place), old(h.answers))
    {
      var pending := delayed;
      while pending != {}
        invariant Valid()
        invariant pending <= handles
        invariant forall h <- pending :: h.Untouched(old(h.View()), old(h.place), old(h.answers))
        invariant forall h <- handles - pending :: h.Settled(old(h.View()), old(h.place), old(h.answers))
        decreases pending
      {
        var h :| h in pending;
        pending := pending - {h};
        h.Settle();
      }
    }

    /** abandonKept: let go of every buffer still parked. */
    method AbandonKept()
      requires Valid() && closing
      modifies this`delayed, this`kept, handles, nodes`handle, nodes`link, nodes`supersedes
      ensures Valid()
      ensures delayed == {} && kept == {}
      ensures forall h <- handles :: h.LetGo(old(h.View()), old(h.place), old(h.answers))
    {
      var rest := kept + delayed;
      while rest != {}
        invariant Valid()
        invariant delayed + kept <= rest <= handles
        invariant forall h <- rest :: h.Untouched(old(h.View()), old(h.place), old(h.answers))
        invariant forall h <- handles - rest :: h.LetGo(old(h.View()), old(h.place), old(h.answers))
        decreases rest
      {
        var h :| h in rest;
        rest := rest - {h};
        h.Abandon();
      }
    }

    /**
     * flushDelayed: two passes over the delayed buffers, the second for those whose first upload failed,
     * unless the deadline comes first; then nothing parks any more, and what is still parked is let go of.
     * Every delayed buffer is offered to the drive first, twice when a retry may help and there is time, and
     * is set aside exactly when the drive refused it the last time.
     */
    method FlushDelayed(deadline: bool)
      requires Valid() && !closing
      modifies this`delayed, this`kept, this`closing, handles, nodes`handle, nodes`link, nodes`supersedes
      ensures Valid() && closing
      ensures delayed == {} && kept == {}
      ensures forall h <- handles :: h.Flushed(old(h.View()), old(h.place), old(h.answers), deadline)
    {
      SettleDelayed();
      if !deadline {
        SettleDelayed();
      }
      closing := true;
      AbandonKept();
    }
  }

  class FileNode {
    const st: MountState
    var name: Name
    var link: Option<LinkId>
    var handle: FileHandle?
    var supersedes: FileNode?
    /** When a rename put another file over it, which takes it out of the tree. */
    ghost var leftAt: Option<nat>

    constructor (st: MountState, name: Name, link: Option<LinkId>)
      ensures this.st == st && this.name == name && this.link == link
      ensures handle == null && supersedes == null && leftAt == None
    {
      this.st, this.name, this.link, handle, supersedes, leftAt := st, name, link, null, null, None;
    }

    /** claim: the file takes the link its handle's upload made, unless the buffer was marked gone meanwhile. */
    method Claim(h: FileHandle, uploaded: Option<LinkId>) returns (claimed: bool)
      modifies this`link, this`supersedes
      ensures claimed <==> !h.gone
      ensures claimed ==> supersedes == null && (uploaded.Some? ==> link == uploaded)
      ensures !claimed || uploaded.None? ==> link == old(link)
      ensures !claimed ==> supersedes == old(supersedes)
    {
      if h.gone { return false; }
      if uploaded.Some? { link := uploaded; }
      supersedes := null;
      return true;
    }

    /** unlinkPending: an Unlink of a file not on the drive yet marks its buffer gone. */
    method UnlinkPending() returns (marked: bool)
      modifies if handle != null then {handle} else {}
      ensures marked <==> link == None && handle != null
      ensures marked ==> handle.View() == old(handle.View()).(gone := true)
      ensures !marked && handle != null ==> handle.View() == old(handle.View())
      ensures handle != null ==> handle.place == old(handle.place)
    {
      if link.Some? || handle == null { return false; }
      handle.gone := true;
      return true;
    }

    /** A file in the tree comes after all that left it. */
    ghost function Rank(): nat
      reads this, st
    {
      if leftAt.Some? then leftAt.value else st.clock
    }

    /** The files this one was renamed over, directly and through one another, nearest first. */
    ghost function Chain(): seq<FileNode>
      requires this in st.nodes && st.Ordered()
      reads this, st, st.nodes
      decreases Rank()
    {
      if supersedes == null then [] else [supersedes] + supersedes.Chain()
    }

    /** awaitReplaced passes every file on the chain, each once, and ends. */
    method AwaitReplaced() returns (passed: seq<FileNode>)
      requires this in st.nodes && st.Ordered()
      ensures passed == Chain()
    {
      passed := [];
      var r := supersedes;
      while r != null
        invariant r != null ==> r in st.nodes && r.st == st && r.leftAt.Some?
        invariant Chain() == passed + (if r == null then [] else [r] + r.Chain())
        decreases r != null, if r == null then 0 else r.Rank()
      {
        passed := passed + [r];
        r := r.supersedes;
      }
    }
  }

  class FileHandle {
    const node: FileNode
    var hasTmp: bool
    var dirty: bool
    var parked: bool
    var timer: bool
    var due: bool
    var retryIn: nat
    var failed: bool
    var gone: bool
    var place: Place
    /** How the drive has answered its uploads so far. */
    ghost var answers: seq<Upload>

    constructor (node: FileNode, dirty: bool)
      requires node.handle == null
      ensures this.node == node && View() == Buffer(true, dirty, false, false, false, 0, false, false)
      ensures place == InTmp && answers == []
    {
      answers := [];
      this.node, hasTmp, this.dirty, parked, timer := node, true, dirty, false, false;
      due, retryIn, failed, gone, place := false, 0, false, false, InTmp;
    }

    ghost function View(): Buffer
      reads this
    {
      Buffer(hasTmp, dirty, parked, timer, due, retryIn, failed, gone)
    }

    ghost predicate Placed()
      reads this, node, node.st
    {
      && (this in node.st.delayed <==> parked && timer)
      && (this in node.st.kept <==> parked && !timer)
      && (timer ==> parked)
      && (parked ==> hasTmp && place == InTmp && node.handle == this)
      && (parked && failed ==> !timer)
    }

    /**
     * What an upload the drive answered with r makes of a handle that was b when it began. Accepted, its file
     * claims it, unless it was marked gone meanwhile, which deletes it. Refused, it is deleted if gone, set
     * aside while unmount closes, parked with no timer when no retry can help, and parked for the next wait
     * of the backoff otherwise.
     */
    ghost predicate Outcome(b: Buffer, r: Upload)
      reads this, node.st`closing, node.st`moves
    {
      match r
      case Sent(_) => !parked && place == if gone then Deleted else OnDrive
      case Refused(permanent) =>
        if gone then !parked && place == Deleted
        else if node.st.closing then !parked && place == node.st.SetAside()
        else place == InTmp && View() == if permanent then b.GiveUp().Park(0) else b.BackOff().Park(b.BackOff().retryIn)
    }

    /** Only an accepted upload of a buffer not gone changes the file: it takes the link, when known, and its edge ends. */
    ghost predicate Linked(r: Upload, link: Option<LinkId>, edge: FileNode?)
      reads this, node
    {
      if r.Sent? && !gone then node.supersedes == null && node.link == (if r.link.Some? then r.link else link)
      else node.supersedes == edge && node.link == link
    }

    ghost predicate Untouched(b: Buffer, was: Place, said: seq<Upload>)
      reads this
    {
      View() == b && place == was && answers == said
    }

    /** What settle makes of a handle that was b with its bytes at was, after the drive's answers said. */
    ghost predicate Settled(b: Buffer, was: Place, said: seq<Upload>)
      reads this, node`name, node.st`closing, node.st`moves
    {
      if !b.parked || !b.timer then Untouched(b, was, said)
      else if b.gone then !parked && gone && place == Deleted && answers == said
      else if node.st.excluded(node.name) then
        View() == b.Settle().(due := false).Park(0) && place == InTmp && answers == said
      else
        && |answers| == |said| + 1 && answers[..|said|] == said
        && Outcome(b.Settle().(due := false), answers[|said|])
    }

    /** What abandon makes of a handle that was b with its bytes at was. */
    ghost predicate LetGo(b: Buffer, was: Place, said: seq<Upload>)
      reads this, node`name, node.st`moves
    {
      && !parked && gone == b.gone && failed == b.failed && answers == said
      && place ==
         if !b.parked then was
         else if b.timer || b.failed then node.st.SetAside()
         else if node.st.hasStore && node.st.excluded(node.name) then node.st.Stored()
         else Deleted
    }

    /** What unmount's flush makes of a handle that was b with its bytes at was, after the drive's answers said. */
    ghost predicate Flushed(b: Buffer, was: Place, said: seq<Upload>, deadline: bool)
      reads this, node`name, node.st`moves
    {
      && !parked
      && if !b.parked then place == was && answers == said
         else if !b.timer then
           && answers == said
           && place == if b.failed then node.st.SetAside()
                       else if node.st.hasStore && node.st.excluded(node.name) then node.st.Stored()
                       else Deleted
         else if b.gone then place == Deleted && answers == said
         else if node.st.excluded(node.name) then
           answers == said && place == if node.st.hasStore then node.st.Stored() else Deleted
         else
           && |said| < |answers| <= |said| + 2
           && var last := answers[|answers| - 1];
              && (|answers| == |said| + 1 ==> deadline || gone || last != Refused(false))
              && (|answers| == |said| + 2 ==> !deadline)
              && place == if gone then Deleted else if last.Sent? then OnDrive else node.st.SetAside()
    }

    /** A live handle with no timer, whose Release somebody is about to run or is running. */
    ghost predicate Owned()
      reads this, node
    {
      hasTmp && !parked && !timer && node.handle == this && place == InTmp
    }

    method Detach()
      modifies this`hasTmp, node`handle
      ensures View() == old(View()).Detach()
      ensures node.handle == if old(node.handle) == this then null else old(node.handle)
    {
      hasTmp := false;
      if node.handle == this {
        node.handle := null;
      }
    }

    /** drop: the temp file is removed; the bytes are on the drive if their upload got there. */
    method Drop(landed: bool)
      requires Owned()
      modifies this, node`handle
      ensures View() == old(View()).Detach() && node.handle == null
      ensures place == (if landed then OnDrive else Deleted) && answers == old(answers)
    {
      Detach();
      place := if landed then OnDrive else Deleted;
    }

    /** keepUnsaved: the temp file moves to the unsaved folder, or stays where it is when that fails. */
    method KeepUnsaved()
      requires Owned()
      modifies this, node`handle
      ensures View() == old(View()).Detach() && node.handle == null
      ensures place == node.st.SetAside() && answers == old(answers)
    {
      Detach();
      if node.st.moves { place := InUnsaved; }
    }

    /** keepLocal: the temp file moves to the local store, or is removed when that fails. */
    method KeepLocal()
      requires Owned()
      modifies this, node`handle
      ensures View() == old(View()).Detach() && node.handle == null
      ensures place == node.st.Stored() && answers == old(answers)
    {
      Detach();
      place := if node.st.moves then InStore else Deleted;
    }

    /** discard: a buffer marked gone is dropped, one whose upload failed for good is kept anyway. */
    method Discard()
      requires Owned()
      modifies this, node`handle
      ensures View() == old(View()).Detach() && node.handle == null
      ensures place == (if old(failed) then node.st.SetAside() else Deleted) && answers == old(answers)
    {
      if failed {
        KeepUnsaved();
      } else {
        Drop(false);
      }
    }

    method Park(delay: nat)
      requires node.st.Valid() && this in node.st.handles && Owned()
      requires failed ==> delay == 0
      modifies this, node.st`delayed, node.st`kept
      ensures node.st.Valid()
      ensures View() == old(View()).Park(delay) && place == old(place) && answers == old(answers)
      ensures node.st.delayed == if delay > 0 then old(node.st.delayed) + {this} else old(node.st.delayed)
      ensures node.st.kept == if delay > 0 then old(node.st.kept) else old(node.st.kept) + {this}
    {
      hasTmp, parked := true, true;
      if delay == 0 {
        node.st.kept := node.st.kept + {this};
        return;
      }
      node.st.delayed := node.st.delayed + {this};
      timer := true;
    }

    /**
     * keepForRetry: a buffer marked gone is discarded, one that fails while unmount closes is set
     * aside, a permanent failure parks it with no timer, any other backs off and parks it with one.
     */
    method KeepForRetry(permanent: bool)
      requires node.st.Valid() && this in node.st.handles && Owned() && !failed
      modifies this, node`handle, node.st`delayed, node.st`kept
      ensures node.st.Valid()
      ensures gone == old(gone)
      ensures Outcome(old(View()), Refused(permanent)) && answers == old(answers)
      ensures parked ==> this in node.st.delayed + node.st.kept
      ensures node.st.delayed + node.st.kept <= old(node.st.delayed + node.st.kept) + {this}
      ensures node.st.closing ==> node.st.delayed + node.st.kept <= old(node.st.delayed + node.st.kept)
    {
      if gone {
        Discard();
        return;
      }
      if node.st.closing {
        KeepUnsaved();
        return;
      }
      if permanent {
        failed := true;
        Park(0);
        return;
      }
      retryIn := Min(Max(2 * retryIn, UPLOAD_RETRY_DELAY), UPLOAD_RETRY_MAX);
      Park(retryIn);
    }

    /** The upload itself: however long it takes, a rename over the file may mark the buffer gone. */
    method DriveUpload() returns (r: Upload)
      modifies this`gone, this`answers
      ensures old(gone) ==> gone
      ensures answers == old(answers) + [r]
    {
      r := *;
      if * { gone := true; }
      answers := answers + [r];
    }

    /** Release offers the buffer to the drive. */
    ghost predicate Uploads()
      reads this, node, node.st
    {
      !gone && dirty && !node.st.excluded(node.name) && (due || node.st.delay(node.name) == 0)
    }

    /**
     * Release of the write handle. A buffer marked gone is discarded. A written one under an
     * excluded name is parked with no timer, one with a delay to wait out is parked with a timer,
     * one nobody wrote is dropped; anything else is uploaded, and dropped only when that worked.
     */
    method Release()
      requires node.st.Valid() && this in node.st.handles && Owned()
      requires failed ==> gone || !dirty
      modifies this, node`handle, node`link, node`supersedes, node.st`delayed, node.st`kept
      ensures node.st.Valid()
      ensures old(gone) ==> !parked && gone && place == if old(failed) then node.st.SetAside() else Deleted
      ensures !old(gone) && old(dirty) && node.st.excluded(node.name) ==>
        View() == old(View()).(due := false).Park(0) && place == InTmp
      ensures !old(gone) && old(dirty) && !node.st.excluded(node.name) && !old(Uploads()) ==>
        View() == old(View()).(due := false).Park(node.st.delay(node.name)) && place == InTmp
      ensures !old(gone) && !old(dirty) ==> !parked && !gone && place == Deleted
      ensures old(Uploads()) ==>
        && |answers| == |old(answers)| + 1 && answers[..|old(answers)|] == old(answers)
        && Outcome(old(View()).(due := false), answers[|old(answers)|])
        && Linked(answers[|old(answers)|], old(node.link), old(node.supersedes))
      ensures !old(Uploads()) ==>
        answers == old(answers) && node.link == old(node.link) && node.supersedes == old(node.supersedes)
      ensures node.st.delayed + node.st.kept <= old(node.st.delayed + node.st.kept) + {this}
    {
      var wasDue := due;
      due := false;
      if gone {
        Discard();
        return;
      }
      if dirty && node.st.excluded(node.name) {
        Park(0);
        return;
      }
      var delay := node.st.delay(node.name);
      if dirty && !wasDue && delay > 0 {
        Park(delay);
        return;
      }
      if !dirty {
        Drop(false);
        return;
      }
      var r := DriveUpload();
      match r
      case Refused(permanent) => KeepForRetry(permanent);
      case Sent(link) =>
        var claimed := node.Claim(this, link);
        Drop(claimed);
    }

    /** unpark: a rename or a writer takes the parked buffer back as dirty, an unlink as clean. */
    method Unpark(asDirty: bool) returns (mine: bool)
      requires node.st.Valid() && this in node.st.handles
      modifies this, node.st`delayed, node.st`kept
      ensures node.st.Valid()
      ensures mine == old(parked)
      ensures mine ==> View() == old(View()).Unpark(asDirty) && place == old(place) && Owned()
      ensures !mine ==> View() == old(View()) && place == old(place)
      ensures answers == old(answers)
      ensures node.st.delayed == old(node.st.delayed) - {this} && node.st.kept == old(node.st.kept) - {this}
    {
      if !parked { return false; }
      var wasTimed := timer;
      parked, dirty, timer := false, asDirty, false;
      if asDirty {
        retryIn, failed := 0, false;
      }
      if wasTimed {
        node.st.delayed := node.st.delayed - {this};
      } else {
        node.st.kept := node.st.kept - {this};
      }
      return true;
    }

    /** settle: the delay ran out, or unmount uploads the buffer now, unless something took it first. */
    method Settle()
      requires node.st.Valid() && this in node.st.handles
      modifies this, node`handle, node`link, node`supersedes, node.st`delayed, node.st`kept
      ensures node.st.Valid()
      ensures Settled(old(View()), old(place), old(answers))
      ensures if |answers| > |old(answers)| then Linked(answers[|old(answers)|], old(node.link), old(node.supersedes))
        else node.link == old(node.link) && node.supersedes == old(node.supersedes)
      ensures old(node.st.Ordered()) ==> node.st.Ordered()
    {
      if !parked || !timer { return; }
      parked, timer, dirty, due := false, false, true, true;
      node.st.delayed := node.st.delayed - {this};
      Release();
    }

    /** abandon: unmount lets go of a buffer still parked. */
    method Abandon()
      requires node.st.Valid() && this in node.st.handles
      modifies this, node`handle, node.st`delayed, node.st`kept
      ensures node.st.Valid() && !parked
      ensures LetGo(old(View()), old(place), old(answers))
      ensures node.st.delayed == old(node.st.delayed) - {this} && node.st.kept == old(node.st.kept) - {this}
    {
      if !parked { return; }
      parked := false;
      var wasTimed := timer;
      timer := false;
      node.st.kept := node.st.kept - {this};
      node.st.delayed := node.st.delayed - {this};
      if !wasTimed && !failed {
        if node.st.hasStore && node.st.excluded(node.name) {
          KeepLocal();
          return;
        }
        Drop(false);
        return;
      }
      KeepUnsaved();
    }
  }
}
