/** Runs of a mount with one file in which its save is lost, left without an owner, or left behind on the drive. */
module SaveWitness {
  import opened Wrappers
  import opened Buffers
  import opened SaveProtocol
  import opened SaveSafety
  import opened SaveRaces

  /** One region of the only handle, with what it leaves. */
  lemma Goes(c: Config, x: Handle, node: Node, clock: nat, luck: Luck, x': Handle, node': Node)
    requires Reached(c, OneAt(x, node, false, clock)) && x.node == 0
    requires Advance(c, false, 0, x, node, luck) == Some((x', node'))
    ensures Reached(c, OneAt(x', node', false, clock))
  {
    OneGoesAt(c, x, node, false, clock, luck);
  }

  /** A new file written and closed. */
  lemma CloseIsReached(c: Config, name: Name)
    ensures Reached(c, OneAt(Closed(Fresh(0, true)), NodeFor(0, name), false, 0))
  {
    assert Run(c, EMPTY, []) == Some(EMPTY);
    var x, node := Fresh(0, true), NodeFor(0, name);
    assert Step(c, EMPTY, Create(0, 0, name)).value == OneAt(x, node, false, 0);
    ReachedOneMore(c, EMPTY, Create(0, 0, name), OneAt(x, node, false, 0));
    OneActs(c, x, node, false, 0, Close(0));
  }

  /** The Release of the close has read the handle and the name. */
  lemma ChosenIsReached(c: Config, name: Name)
    ensures Reached(c, OneAt(Closed(Fresh(0, true)).(pc := Chosen(true, false, None, name)), NodeFor(0, name), false, 0))
  {
    CloseIsReached(c, name);
    var x, node := Closed(Fresh(0, true)), NodeFor(0, name);
    var x1 := x.(pc := Snapped(true, false));
    Goes(c, x, node, 0, OK, x1, node);
    Goes(c, x1, node, 0, OK, x1.(pc := Chosen(true, false, None, name)), node);
  }

  /** The first upload of a new file, running. */
  function FirstUpload(name: Name): Handle {
    Closed(Fresh(0, true)).(pc := Uploading(Attempt(None, name, false, {}, {}), 0))
  }

  function LockedNode(name: Name): Node {
    NodeFor(0, name).(mu := Held)
  }

  lemma UploadIsReached(c: Config, name: Name)
    requires !c.excluded(name) && c.delay(name) == 0
    ensures Reached(c, OneAt(FirstUpload(name), LockedNode(name), false, 0))
  {
    ChosenIsReached(c, name);
    var node, up := NodeFor(0, name), Attempt(None, name, false, {}, {});
    var x := Closed(Fresh(0, true)).(pc := Chosen(true, false, None, name));
    Goes(c, x, node, 0, OK, x.(pc := Trying(up)), node);
    Goes(c, x.(pc := Trying(up)), node, 0, OK, x.(pc := Walking(None, up)), node);
    Goes(c, x.(pc := Walking(None, up)), node, 0, OK, x.(pc := Holding(up)), LockedNode(name));
    Goes(c, x.(pc := Holding(up)), LockedNode(name), 0, OK, FirstUpload(name), LockedNode(name));
  }

  // ----- a new file left on the drive -----

  /**
   * An unlink marks the file while its first upload runs. The file the upload makes stays on the drive
   * exactly when its link cannot be read back or trashing it fails.
   */
  lemma UnlinkDuringFirstUpload(c: Config, name: Name, link: Option<LinkId>, trashWorks: bool) returns (s: State)
    requires !c.excluded(name) && c.delay(name) == 0
    ensures Reached(c, s) && 0 in s.handles && s.handles[0].pc.Done? && s.handles[0].past.fate.created
    ensures LeftBehind(s.handles[0]) <==> !(link.Some? && trashWorks)
  {
    UploadIsReached(c, name);
    OneActs(c, FirstUpload(name), LockedNode(name), false, 0, UnlinkPending(0));
    var x := Gone(FirstUpload(name)).(past := FirstUpload(name).past.(unlinked := true));
    s := LostIsReached(c, x, LockedNode(name), link, trashWorks);
  }

  lemma LostIsReached(c: Config, x: Handle, node: Node, link: Option<LinkId>, trashWorks: bool) returns (s: State)
    requires Reached(c, OneAt(x, node, false, 0)) && x.node == 0 && x.buffer.gone && x.past.fate == NO_FATE
    requires x.pc.Uploading? && x.pc.up.existing.None? && node.handle == Some(0)
    ensures Reached(c, s) && 0 in s.handles && s.handles[0].pc.Done? && s.handles[0].past.fate.created
    ensures LeftBehind(s.handles[0]) <==> !(link.Some? && trashWorks)
  {
    var up := x.pc.up;
    var x1 := x.(pc := Uploaded(up, x.pc.version, link),
                 past := x.past.(sent := x.past.sent + {x.pc.version}, fate := NO_FATE.(created := true, made := link)));
    Goes(c, x, node, 0, Luck(true, false, link), x1, node);
    Goes(c, x1, node, 0, OK, x1.(pc := Lost(up, link)), node);
    s := TrashIsReached(c, x1.(pc := Lost(up, link)), node, trashWorks);
  }

  lemma TrashIsReached(c: Config, x: Handle, node: Node, trashWorks: bool) returns (s: State)
    requires Reached(c, OneAt(x, node, false, 0)) && x.node == 0 && x.pc.Lost? && x.pc.up.existing.None?
    requires x.past.fate == NO_FATE.(created := true, made := x.pc.link)
    ensures Reached(c, s) && 0 in s.handles && s.handles[0].pc.Done? && s.handles[0].past.fate.created
    ensures LeftBehind(s.handles[0]) <==> !(x.pc.link.Some? && trashWorks)
  {
    var fate := Discarded(x.past.fate, x.pc.up, x.pc.link, trashWorks);
    var x1 := x.(pc := Dropping(true), past := x.past.(fate := fate));
    Goes(c, x, node, 0, Luck(trashWorks, false, None), x1, node);
    var next := Detached(0, x1, node, false, true);
    Goes(c, x1, node, 0, OK, next.0, next.1);
    s := OneAt(next.0, next.1, false, 0);
  }

  // ----- a failed save taken back between a rename's mark and its unpark -----

  /** The upload fails for good and the buffer is parked with no timer. */
  lemma FailedIsReached(c: Config, name: Name) returns (x: Handle, node: Node)
    requires !c.excluded(name) && c.delay(name) == 0
    ensures Reached(c, OneAt(x, node, false, 0)) && x.node == 0
    ensures x == FirstUpload(name).(pc := Waiting, buffer := FirstUpload(name).buffer.GiveUp().Park(0), inKept := true)
    ensures node == NodeFor(0, name).(mu := Leaving)
  {
    UploadIsReached(c, name);
    var y, locked := FirstUpload(name), LockedNode(name);
    Goes(c, y, locked, 0, Luck(false, true, None), y.(pc := Failing(true, true)), locked);
    Goes(c, y.(pc := Failing(true, true)), locked, 0, OK, y.(pc := Retrying(true, true)), locked);
    var y2 := y.(pc := Parking(0, true), buffer := y.buffer.GiveUp());
    Goes(c, y.(pc := Retrying(true, true)), locked, 0, OK, y2, locked);
    x, node := y2.(pc := Waiting, buffer := y2.buffer.Park(0), inKept := true), NodeFor(0, name).(mu := Leaving);
    Goes(c, y2, locked, 0, OK, x, node);
  }

  /**
   * A save whose upload failed for good, parked; a rename over its file marks it, an open for writing
   * takes it back before the rename does, and the writer's close, with nothing written, deletes it: no
   * unlink, no later write, and the buffer had failed when the rename marked it.
   */
  lemma OpenBeforeUnparkLosesAFailedSave(c: Config, name: Name) returns (s: State)
    requires !c.excluded(name) && c.delay(name) == 0
    ensures Reached(c, s) && 0 in s.handles
    ensures var x := s.handles[0];
      && 0 in x.past.saves && x.version == 0 && !Safe(x, 0)
      && x.past.failedAtMark && x.past.retaken
      && !x.past.unlinked && !x.past.unstored && !x.past.renamedAway
  {
    var x, node := FailedIsReached(c, name);
    var left, caught := node.(leftAt := Some(0)), x.(captured := true);
    assert Step(c, OneAt(x, node, false, 0), ReplaceLink(None, 0)).value == OneAt(caught, left, false, 1);
    ReachedOneMore(c, OneAt(x, node, false, 0), ReplaceLink(None, 0), OneAt(caught, left, false, 1));
    OneActs(c, caught, left, false, 1, ReplaceMark(0));
    s := TakenBackIsDropped(c, Replaced(caught), left);
  }

  lemma TakenBackIsDropped(c: Config, x: Handle, node: Node) returns (s: State)
    requires Reached(c, OneAt(x, node, false, 1)) && x.node == 0
    requires x.pc.Waiting? && x.buffer.parked && !x.buffer.timer && x.buffer.gone && x.past.failedAtMark
    requires x.version == 0 && 0 in x.past.saves && 0 !in x.past.landed + x.past.unsaved + x.past.stored
    requires !x.past.unlinked && !x.past.unstored && !x.past.renamedAway
    ensures Reached(c, s) && 0 in s.handles
    ensures var y := s.handles[0];
      && 0 in y.past.saves && y.version == 0 && !Safe(y, 0)
      && y.past.failedAtMark && y.past.retaken
      && !y.past.unlinked && !y.past.unstored && !y.past.renamedAway
  {
    var x1 := x.(buffer := x.buffer.Unpark(true), pc := Untracking(false, ToWriter), past := TakenBack(x.past));
    OneActs(c, x, node, false, 1, Take(0, Writer(false)));
    var x2 := x1.(pc := Open, inKept := false);
    Goes(c, x1, node, 1, OK, x2, node);
    OneActs(c, x2, node, false, 1, Close(0));
    s := GoneCloseIsDropped(c, Closed(x2), node);
  }

  lemma GoneCloseIsDropped(c: Config, x: Handle, node: Node) returns (s: State)
    requires Reached(c, OneAt(x, node, false, 1)) && x.node == 0
    requires x.pc.Entered? && x.buffer.gone && !x.buffer.failed
    ensures Reached(c, s) && 0 in s.handles
    ensures s.handles[0].past == x.past && s.handles[0].version == x.version && !s.handles[0].onDisk
  {
    var b := x.buffer.(due := false);
    var x1 := x.(pc := Snapped(x.buffer.dirty, x.buffer.due), buffer := b);
    Goes(c, x, node, 1, OK, x1, node);
    var x2 := x1.(pc := Chosen(x.buffer.dirty, x.buffer.due, node.link, node.name));
    Goes(c, x1, node, 1, OK, x2, node);
    s := GoneIsDropped(c, x2, node);
  }

  lemma GoneIsDropped(c: Config, x: Handle, node: Node) returns (s: State)
    requires Reached(c, OneAt(x, node, false, 1)) && x.node == 0
    requires x.pc.Chosen? && x.buffer.gone && !x.buffer.failed
    ensures Reached(c, s) && 0 in s.handles
    ensures s.handles[0].past == x.past && s.handles[0].version == x.version && !s.handles[0].onDisk
  {
    Goes(c, x, node, 1, OK, x.(pc := Discarding(false)), node);
    Goes(c, x.(pc := Discarding(false)), node, 1, OK, x.(pc := Dropping(false)), node);
    var next := Detached(0, x.(pc := Dropping(false)), node, false, false);
    Goes(c, x.(pc := Dropping(false)), node, 1, OK, next.0, next.1);
    s := OneAt(next.0, next.1, false, 1);
  }

  // ----- a buffer with no owner -----

  /** The close parks the buffer, with a timer or without. */
  lemma ParkedIsReached(c: Config, name: Name) returns (x: Handle, node: Node)
    requires c.excluded(name) || c.delay(name) > 0
    ensures Reached(c, OneAt(x, node, false, 0)) && x.node == 0 && node == NodeFor(0, name)
    ensures x.pc.Waiting? && x.buffer.parked && x.version == 0 && 0 in x.past.saves && x.past == Closed(Fresh(0, true)).past
  {
    ChosenIsReached(c, name);
    node := NodeFor(0, name);
    var delay := if c.excluded(name) then 0 else c.delay(name);
    var y := Closed(Fresh(0, true)).(pc := Chosen(true, false, None, name));
    Goes(c, y, node, 0, OK, y.(pc := Parking(delay, false)), node);
    x := y.(pc := Waiting, buffer := y.buffer.Park(delay), inDelayed := delay > 0, inKept := delay == 0);
    Goes(c, y.(pc := Parking(delay, false)), node, 0, OK, x, node);
  }

  /** A close that parks its save, and an open for writing whose truncate fails: nobody owns the buffer then. */
  lemma FailedTruncateStrandsTheBuffer(c: Config, name: Name) returns (s: State)
    requires c.excluded(name) || c.delay(name) > 0
    ensures Reached(c, s) && 0 in s.handles
    ensures s.handles[0].pc.Stranded? && 0 in s.handles[0].past.saves && s.handles[0].past.landed == {}
  {
    var x, node := ParkedIsReached(c, name);
    OneActs(c, x, node, false, 0, Take(0, Writer(true)));
    var x1 := Taken(false, x, Writer(true)).value;
    var next := Untracked(x1, node).value;
    Goes(c, x1, node, 0, OK, next.0, next.1);
    s := OneAt(next.0, next.1, false, 0);
  }
}
