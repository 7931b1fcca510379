/**
 * What one request does to the mount: opening, creating and truncating a file, unlinking it or renaming
 * another over it, and taking a parked buffer back.
 */
module SaveRequests {
  import opened Wrappers
  import opened Buffers
  import opened SaveProtocol

  // ----- who can take a parked buffer -----

  /**
   * A parked buffer can be taken by a writer, a rename, an unlink, by a rename over the file that has marked
   * it, by its timer when it has one, and by unmount once that closes; one that is not parked by nobody.
   */
  lemma TakenIff(c: Config, s: State, h: HandleId, taker: Taker)
    requires Has(s, h)
    ensures Step(c, s, Take(h, taker)).Some? <==>
      && s.handles[h].buffer.parked
      && (taker.Replacer? ==> s.handles[h].past.replaced)
      && (taker.Timer? ==> s.handles[h].buffer.timer)
      && (taker.Unmount? ==> s.closing)
  {
  }

  /** Where a buffer is once its taker has it. */
  function Goal(x: Handle, taker: Taker): Pc {
    match taker
    case Writer(truncFails) => if truncFails then Stranded else Open
    case Unmount => LettingGo(x.buffer.timer, x.buffer.failed)
    case _ => Entered
  }

  /** Nobody parks it any more; only a writer or a rename starts it over, and only a timer makes it due. */
  function TakenBuffer(b: Buffer, taker: Taker): Buffer {
    var back := b.(parked := false, timer := false);
    match taker
    case Writer(_) => back.(dirty := true, retryIn := 0, failed := false)
    case Rename => back.(dirty := true, retryIn := 0, failed := false)
    case Timer => back.(dirty := true, due := true)
    case Unmount => back
    case _ => back.(dirty := false)
  }

  lemma TakenHandle(closing: bool, x: Handle, taker: Taker)
    requires Taken(closing, x, taker).Some?
    ensures var y := Taken(closing, x, taker).value;
      && y.pc.Untracking? && y.pc.timed == x.buffer.timer && y.inDelayed == x.inDelayed && y.inKept == x.inKept
      && y.buffer == TakenBuffer(x.buffer, taker) && y.version == x.version && y.onDisk == x.onDisk
      && Goal(x, taker) ==
         match y.pc.next {
           case ToWriter => Open
           case ToNobody => Stranded
           case ToRelease => Entered
           case ToUnmount(timed, failed) => LettingGo(timed, failed)
         }
  {
    match taker
    case Writer(_) =>
    case Rename =>
    case Unlinker =>
    case Replacer =>
    case Timer =>
    case Unmount =>
  }

  /**
   * It is out of its set one region later, and then with whoever took it: a writer has it open and written,
   * a rename and a timer run its Release as one written, the timer as due; an unlink and a rename over the
   * file run it as one nobody wrote; unmount lets go of it.
   */
  lemma TakenGoesTo(closing: bool, x: Handle, node: Node, taker: Taker)
    requires x.pc.Waiting? && x.inDelayed == x.buffer.timer && x.inKept == !x.buffer.timer
    requires Taken(closing, x, taker).Some?
    ensures var end := Untracked(Taken(closing, x, taker).value, node);
      && end.Some? && end.value.1 == node
      && end.value.0.pc == Goal(x, taker)
      && end.value.0.buffer == TakenBuffer(x.buffer, taker)
      && !end.value.0.inDelayed && !end.value.0.inKept
      && end.value.0.version == x.version && end.value.0.onDisk == x.onDisk
  {
    var y := Taken(closing, x, taker).value;
    TakenHandle(closing, x, taker);
    assert Untracked(y, node).value.0.buffer == y.buffer;
  }

  // ----- opening, creating, truncating -----

  /** A file opened for writing and closed unwritten uploads nothing; a new file does, written or not. */
  lemma CloseSavesIff(c: Config, s: State, a: Action, n: NodeId, h: HandleId, name: Name)
    requires a == OpenNew(n, h) || a == Create(n, h, name)
    requires Step(c, s, a).Some?
    ensures var t := Step(c, s, a).value;
      && Has(t, h) && t.handles[h].node == n && t.nodes[n].handle == Some(h)
      && Step(c, t, Close(h)).Some?
      && (a.Create? ==> t.nodes[n].link.None? && t.nodes[n].name == name)
      && (a.OpenNew? ==> t.nodes[n].link == s.nodes[n].link && t.nodes[n].name == s.nodes[n].name)
    ensures var u := Step(c, Step(c, s, a).value, Close(h)).value;
      && u.handles[h].pc.Entered? && u.nodes == Step(c, s, a).value.nodes
      && (u.handles[h].buffer.dirty <==> a.Create?)
      && u.handles[h].past.saves == if a.Create? then {0} else {}
  {
  }

  /** What a write changes is what the close saves: a version of its own, whatever was saved before. */
  lemma WriteThenCloseSaves(c: Config, s: State, h: HandleId)
    requires Has(s, h) && s.handles[h].pc.Open?
    ensures Step(c, s, Write(h)).Some?
    ensures var t := Step(c, s, Write(h)).value;
      && Has(t, h) && Step(c, t, Close(h)).Some?
      && var x := Step(c, t, Close(h)).value.handles[h];
         && x.version == s.handles[h].version + 1 && x.pc.Entered? && x.buffer.dirty
         && x.past.saves == s.handles[h].past.saves + {x.version}
  {
  }

  /** A truncate reaches the buffer of an open or parked file alike: a new version, which a Release to come uploads. */
  lemma TruncateReachesTheBuffer(c: Config, s: State, h: HandleId)
    requires Has(s, h) && s.handles[h].buffer.hasTmp && (s.handles[h].pc.Open? || s.handles[h].pc.Waiting?)
    ensures Step(c, s, Truncate(h)) ==
      Some(s.(handles := s.handles[h := s.handles[h].(version := s.handles[h].version + 1,
                                                      buffer := s.handles[h].buffer.(dirty := true))]))
  {
  }

  // ----- unlinking and renaming over -----

  /** An unlink marks exactly the buffer of a file that has not reached the drive, and changes nothing else. */
  lemma UnlinkPendingIff(c: Config, s: State, h: HandleId)
    requires Has(s, h)
    ensures var node := s.nodes[s.handles[h].node];
      Step(c, s, UnlinkPending(h)).Some? <==> node.link.None? && node.handle == Some(h)
    ensures Step(c, s, UnlinkPending(h)).Some? ==>
      var t, x := Step(c, s, UnlinkPending(h)).value, s.handles[h];
      t == s.(handles := s.handles[h := x.(buffer := x.buffer.(gone := true), past := x.past.(unlinked := true))])
  {
  }

  /**
   * A rename over dst takes it out of the tree, later than every file before it, makes the file renamed, when
   * it is one, wait for it, and reads its handle; the mark then reaches that handle, wherever it is.
   */
  lemma RenameOverMarks(c: Config, s: State, src: Option<NodeId>, dst: NodeId)
    requires dst in s.nodes && s.nodes[dst].leftAt.None?
    requires src.Some? ==> src.value in s.nodes && src.value != dst && s.nodes[src.value].leftAt.None?
    ensures Step(c, s, ReplaceLink(src, dst)).Some?
    ensures var t := Step(c, s, ReplaceLink(src, dst)).value;
      && dst in t.nodes && t.nodes[dst] == s.nodes[dst].(leftAt := Some(s.clock)) && t.clock == s.clock + 1
      && (src.Some? ==> src.value in t.nodes && t.nodes[src.value] == s.nodes[src.value].(supersedes := Some(dst)))
      && (forall n <- s.nodes :: n != dst && Some(n) != src ==> n in t.nodes && t.nodes[n] == s.nodes[n])
      && (s.nodes[dst].handle.Some? && Has(s, s.nodes[dst].handle.value) ==>
            var h := s.nodes[dst].handle.value;
            && Step(c, t, ReplaceMark(h)).Some?
            && var x := Step(c, t, ReplaceMark(h)).value.handles[h];
               && x.buffer == s.handles[h].buffer.(gone := true) && x.pc == s.handles[h].pc
               && x.past.replaced && (x.past.failedAtMark <==> s.handles[h].past.failedAtMark || s.handles[h].buffer.failed))
  {
  }
}
