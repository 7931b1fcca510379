/**
 * Runs in which the code does not do what its comments promise, and the condition under which it
 * does: a save a rename overtakes while its close is still being handled, and two uploads for one
 * name when a walk passes a file between the two halves of the rename over it.
 */
module SaveRaces {
  import opened Wrappers
  import opened Buffers
  import opened SaveProtocol
  import opened SaveInvariants
  import opened SaveSafety

  const OK: Luck := Luck(true, false, None)

  lemma {:induction false} RunOneMore(c: Config, s: State, run: seq<Action>, u: State, a: Action, t: State)
    requires Run(c, s, run) == Some(u) && Step(c, u, a) == Some(t)
    ensures Run(c, s, run + [a]) == Some(t)
    decreases |run|
  {
    if run == [] {
      assert [a][1..] == [];
      assert run + [a] == [a];
    } else {
      assert (run + [a])[1..] == run[1..] + [a];
      RunOneMore(c, Step(c, s, run[0]).value, run[1..], u, a, t);
    }
  }

  lemma ReachedOneMore(c: Config, u: State, a: Action, t: State)
    requires Reached(c, u) && Step(c, u, a) == Some(t)
    ensures Reached(c, t)
  {
    var run :| Run(c, EMPTY, run) == Some(u);
    RunOneMore(c, EMPTY, run, u, a, t);
  }

  // ----- a save lost to a rename -----

  /** A mount of one file with one handle; the clock counts the files that left the tree. */
  function OneAt(x: Handle, node: Node, closing: bool, clock: nat): State {
    State(map[0 := x], map[0 := node], closing, clock)
  }

  function One(x: Handle, node: Node, closing: bool): State {
    OneAt(x, node, closing, 0)
  }

  lemma OneGoesAt(c: Config, x: Handle, node: Node, closing: bool, clock: nat, luck: Luck)
    requires Reached(c, OneAt(x, node, closing, clock)) && x.node == 0
    requires Advance(c, closing, 0, x, node, luck).Some?
    ensures var next := Advance(c, closing, 0, x, node, luck).value; Reached(c, OneAt(next.0, next.1, closing, clock))
  {
    var s := OneAt(x, node, closing, clock);
    var next := Advance(c, closing, 0, x, node, luck).value;
    assert Step(c, s, Go(0, luck)) == GoStep(c, s, 0, luck);
    assert GoStep(c, s, 0, luck).value == OneAt(next.0, next.1, closing, clock);
    ReachedOneMore(c, s, Go(0, luck), OneAt(next.0, next.1, closing, clock));
  }

  lemma OneGoes(c: Config, x: Handle, node: Node, closing: bool, luck: Luck)
    requires Reached(c, One(x, node, closing)) && x.node == 0
    requires Advance(c, closing, 0, x, node, luck).Some?
    ensures var next := Advance(c, closing, 0, x, node, luck).value; Reached(c, One(next.0, next.1, closing))
  {
    OneGoesAt(c, x, node, closing, 0, luck);
  }

  /** A step on the one handle that leaves its node alone. */
  lemma OneActs(c: Config, x: Handle, node: Node, closing: bool, clock: nat, a: Action)
    requires Reached(c, OneAt(x, node, closing, clock)) && x.node == 0
    requires a.ReplaceMark? || a.UnlinkPending? || a.Write? || a.Truncate? || a.Close? || a.Take?
    requires a.h == 0 && HandleStep(closing, 0, x, node, a).Some?
    ensures Reached(c, OneAt(HandleStep(closing, 0, x, node, a).value, node, closing, clock))
  {
    var s := OneAt(x, node, closing, clock);
    var x' := HandleStep(closing, 0, x, node, a).value;
    assert Step(c, s, a) == Some(Put(s, 0, x'));
    assert Put(s, 0, x') == OneAt(x', node, closing, clock);
    ReachedOneMore(c, s, a, OneAt(x', node, closing, clock));
  }

  /**
   * An app writes an excluded name, closes it and renames it, with a local store or without one. The
   * close's Release has read the old name when the rename retargets the file,
   * so it parks the buffer as excluded, with no timer, and the rename finds nothing parked to take.
   * Unmount then finds a buffer with no timer under a name that is not excluded, and removes it:
   * the save is gone, with no unlink, no rename over the file and no later write.
   */
  lemma RenameRacingTheCloseLosesTheSave(c: Config, from: Name, to: Name) returns (s: State)
    requires c.excluded(from) && !c.excluded(to)
    ensures Reached(c, s)
    ensures 0 in s.handles && 0 in s.handles[0].past.saves
    ensures var x := s.handles[0];
      !Safe(x, 0) && x.version == 0 && !x.past.unlinked && !x.past.replaced && !x.past.unstored
  {
    assert Run(c, EMPTY, []) == Some(EMPTY);
    var node := Node(None, from, Some(0), None, None, Free);
    var x := Fresh(0, true);
    assert Step(c, EMPTY, Create(0, 0, from)).value == One(x, node, false);
    ReachedOneMore(c, EMPTY, Create(0, 0, from), One(x, node, false));
    var closed := Closed(x);
    assert Step(c, One(x, node, false), Close(0)).value == One(closed, node, false);
    ReachedOneMore(c, One(x, node, false), Close(0), One(closed, node, false));
    var chosen, renamed := CloseMeetsRename(c, closed, node, to);
    s := UnmountDropsIt(c, chosen, renamed);
  }

  lemma CloseMeetsRename(c: Config, x: Handle, node: Node, to: Name) returns (x': Handle, node': Node)
    requires Reached(c, One(x, node, false))
    requires x == Closed(Fresh(0, true)) && node.link.None? && node.handle == Some(0)
    requires c.excluded(node.name)
    ensures Reached(c, One(x', node', false))
    ensures node' == node.(name := to)
    ensures x'.pc == Waiting && x'.buffer.parked && !x'.buffer.timer && !x'.buffer.failed
    ensures x'.node == 0 && x'.version == 0 && x'.past == x.past
  {
    OneGoes(c, x, node, false, OK);
    var x1 := Advance(c, false, 0, x, node, OK).value.0;
    OneGoes(c, x1, node, false, OK);
    var x2 := Advance(c, false, 0, x1, node, OK).value.0;
    assert x2.pc == Chosen(true, false, None, node.name);
    node' := node.(name := to);
    assert Step(c, One(x2, node, false), Retarget(0, None, to)).value == One(x2, node', false);
    ReachedOneMore(c, One(x2, node, false), Retarget(0, None, to), One(x2, node', false));
    OneGoes(c, x2, node', false, OK);
    var x3 := Advance(c, false, 0, x2, node', OK).value.0;
    OneGoes(c, x3, node', false, OK);
    x' := Advance(c, false, 0, x3, node', OK).value.0;
  }

  lemma UnmountDropsIt(c: Config, x: Handle, node: Node) returns (s: State)
    requires Reached(c, One(x, node, false))
    requires !c.excluded(node.name)
    requires x.buffer.parked && !x.buffer.timer && !x.buffer.failed && x.node == 0
    ensures Reached(c, s) && 0 in s.handles
    ensures var y := s.handles[0];
      y.past == x.past.(renamedAway := true) && y.version == x.version && !y.onDisk
  {
    assert Step(c, One(x, node, false), StartClosing).value == One(x, node, true);
    ReachedOneMore(c, One(x, node, false), StartClosing, One(x, node, true));
    var x1 := Taken(true, x, Unmount).value;
    assert Step(c, One(x, node, true), Take(0, Unmount)).value == One(x1, node, true);
    ReachedOneMore(c, One(x, node, true), Take(0, Unmount), One(x1, node, true));
    s := TakenIsDropped(c, x1, node);
  }

  lemma TakenIsDropped(c: Config, x: Handle, node: Node) returns (s: State)
    requires Reached(c, One(x, node, true))
    requires !c.excluded(node.name)
    requires x.pc == Untracking(false, ToUnmount(false, false)) && x.node == 0
    ensures Reached(c, s) && 0 in s.handles
    ensures var y := s.handles[0];
      y.past == x.past.(renamedAway := true) && y.version == x.version && !y.onDisk
  {
    OneGoes(c, x, node, true, OK);
    var x1 := Advance(c, true, 0, x, node, OK).value.0;
    s := LetGoIsDropped(c, x1, node);
  }

  lemma LetGoIsDropped(c: Config, x: Handle, node: Node) returns (s: State)
    requires Reached(c, One(x, node, true))
    requires !c.excluded(node.name)
    requires x.pc == LettingGo(false, false) && x.node == 0
    ensures Reached(c, s) && 0 in s.handles
    ensures var y := s.handles[0];
      y.past == x.past.(renamedAway := true) && y.version == x.version && !y.onDisk
  {
    OneGoes(c, x, node, true, OK);
    s := DroppedAtUnmount(c, x.(pc := Dropping(false), past := x.past.(renamedAway := true)), node);
  }

  lemma DroppedAtUnmount(c: Config, x: Handle, node: Node) returns (s: State)
    requires Reached(c, One(x, node, true)) && x.pc == Dropping(false) && x.node == 0
    ensures Reached(c, s) && 0 in s.handles
    ensures var y := s.handles[0]; y.past == x.past && y.version == x.version && !y.onDisk
  {
    OneGoes(c, x, node, true, OK);
    var next := Detached(0, x, node, false, false);
    assert Advance(c, true, 0, x, node, OK) == LettingLoose(0, x, node, OK) == Some(next);
    s := One(next.0, next.1, true);
  }

  /** abandon to its end, once the buffer is out of both sets: moved says how a move turns out. */
  function LetGo(c: Config, h: HandleId, x: Handle, node: Node, moved: bool): Handle
    requires x.pc.LettingGo?
  {
    var luck := Luck(moved, false, None);
    var first := Advance(c, true, h, x, node, luck).value;
    if first.0.pc.Done? then first.0 else Advance(c, true, h, first.0, first.1, luck).value.0
  }

  /** Nothing has kept the buffer's latest version yet. */
  predicate Unkept(x: Handle) {
    x.version !in x.past.landed && x.version !in x.past.unsaved && x.version !in x.past.stored
  }

  lemma SetAsideIsSafe(c: Config, h: HandleId, x: Handle, node: Node, moved: bool)
    requires x.pc.LettingGo? && (x.pc.timed || x.pc.failed)
    ensures Safe(LetGo(c, h, x, node, moved), x.version)
  {
    var luck := Luck(moved, false, None);
    assert Advance(c, true, h, x, node, luck) == Some((x.(pc := Keeping(false)), node));
  }

  lemma DroppedIsLost(c: Config, h: HandleId, x: Handle, node: Node, moved: bool)
    requires x.pc.LettingGo? && !x.pc.timed && !x.pc.failed && (!c.excluded(node.name) || !c.hasStore) && Unkept(x)
    ensures !Safe(LetGo(c, h, x, node, moved), x.version)
  {
    var luck := Luck(moved, false, None);
    var first := Advance(c, true, h, x, node, luck).value;
    assert first.0.pc == Dropping(false) && Unkept(first.0) && first.1 == node;
    assert Advance(c, true, h, first.0, node, luck) == Some(Detached(h, first.0, node, false, false));
  }

  lemma StoredIsSafeIff(c: Config, h: HandleId, x: Handle, node: Node, moved: bool)
    requires x.pc.LettingGo? && !x.pc.timed && !x.pc.failed && c.excluded(node.name) && c.hasStore && Unkept(x)
    ensures Safe(LetGo(c, h, x, node, moved), x.version) <==> moved
  {
    assert Advance(c, true, h, x, node, Luck(moved, false, None)) == Some(KeptLocal(h, x, node, moved));
  }

  /**
   * Unmount keeps the bytes of a buffer it finds parked exactly when it waited with a timer, or its
   * upload failed for good, or there is a store, its name is excluded now, and the move works.
   */
  lemma UnmountKeepsTheBytesIff(c: Config, h: HandleId, x: Handle, node: Node, moved: bool)
    requires x.pc.LettingGo? && Unkept(x)
    ensures Safe(LetGo(c, h, x, node, moved), x.version) <==>
      x.pc.timed || x.pc.failed || (c.hasStore && c.excluded(node.name) && moved)
  {
    if x.pc.timed || x.pc.failed {
      SetAsideIsSafe(c, h, x, node, moved);
    } else if c.hasStore && c.excluded(node.name) {
      StoredIsSafeIff(c, h, x, node, moved);
    } else {
      DroppedIsLost(c, h, x, node, moved);
    }
  }

  // ----- two uploads for one name -----

  /** Files 0 and 1 with handles 0 and 1; file 0 is the one a rename puts over file 1. */
  function Two(x: Handle, node: Node, y: Handle, other: Node, clock: nat): State {
    State(map[0 := x, 1 := y], map[0 := node, 1 := other], false, clock)
  }

  lemma FirstGoes(c: Config, x: Handle, node: Node, y: Handle, other: Node, clock: nat)
    requires Reached(c, Two(x, node, y, other, clock)) && x.node == 0
    requires Advance(c, false, 0, x, node, OK).Some?
    ensures var next := Advance(c, false, 0, x, node, OK).value; Reached(c, Two(next.0, next.1, y, other, clock))
  {
    var s := Two(x, node, y, other, clock);
    var next := Advance(c, false, 0, x, node, OK).value;
    assert Step(c, s, Go(0, OK)) == GoStep(c, s, 0, OK);
    assert GoStep(c, s, 0, OK).value == Two(next.0, next.1, y, other, clock);
    ReachedOneMore(c, s, Go(0, OK), Two(next.0, next.1, y, other, clock));
  }

  lemma SecondGoes(c: Config, x: Handle, node: Node, y: Handle, other: Node, clock: nat)
    requires Reached(c, Two(x, node, y, other, clock)) && y.node == 1
    requires Advance(c, false, 1, y, other, OK).Some?
    ensures var next := Advance(c, false, 1, y, other, OK).value; Reached(c, Two(x, node, next.0, next.1, clock))
  {
    var s := Two(x, node, y, other, clock);
    var next := Advance(c, false, 1, y, other, OK).value;
    assert Step(c, s, Go(1, OK)) == GoStep(c, s, 1, OK);
    assert GoStep(c, s, 1, OK).value == Two(x, node, next.0, next.1, clock);
    ReachedOneMore(c, s, Go(1, OK), Two(x, node, next.0, next.1, clock));
  }

  /** The handle of a closed, written file, about to walk: the Release has read the name and decided to try. */
  function Ready(n: NodeId, name: Name): Handle {
    Closed(Fresh(n, true)).(pc := Trying(Attempt(None, name, false, {}, {})))
  }

  function NodeFor(h: HandleId, name: Name): Node {
    Node(None, name, Some(h), None, None, Free)
  }

  lemma BothCreated(c: Config, from: Name, to: Name)
    ensures Reached(c, Two(Fresh(0, true), NodeFor(0, from), Fresh(1, true), NodeFor(1, to), 0))
  {
    assert Run(c, EMPTY, []) == Some(EMPTY);
    var s := One(Fresh(0, true), NodeFor(0, from), false);
    assert Step(c, EMPTY, Create(0, 0, from)).value == s;
    ReachedOneMore(c, EMPTY, Create(0, 0, from), s);
    var t := Two(Fresh(0, true), NodeFor(0, from), Fresh(1, true), NodeFor(1, to), 0);
    assert Step(c, s, Create(1, 1, to)).value == t;
    ReachedOneMore(c, s, Create(1, 1, to), t);
  }

  lemma BothReady(c: Config, from: Name, to: Name)
    requires !c.excluded(from) && !c.excluded(to) && c.delay(from) == 0 && c.delay(to) == 0
    ensures Reached(c, Two(Ready(0, from), NodeFor(0, from), Ready(1, to), NodeFor(1, to), 0))
  {
    BothCreated(c, from, to);
    var x, node, y, other := Fresh(0, true), NodeFor(0, from), Fresh(1, true), NodeFor(1, to);
    BothClosed(c, x, node, y, other);
    FirstDecides(c, from, Closed(y), other);
    SecondDecides(c, to, Ready(0, from), node);
  }

  lemma BothClosed(c: Config, x: Handle, node: Node, y: Handle, other: Node)
    requires Reached(c, Two(x, node, y, other, 0))
    requires x.pc.Open? && y.pc.Open? && x.node == 0 && y.node == 1
    ensures Reached(c, Two(Closed(x), node, Closed(y), other, 0))
  {
    var s, t, u := Two(x, node, y, other, 0), Two(Closed(x), node, y, other, 0), Two(Closed(x), node, Closed(y), other, 0);
    assert Step(c, s, Close(0)).value == t;
    ReachedOneMore(c, s, Close(0), t);
    assert Step(c, t, Close(1)).value == u;
    ReachedOneMore(c, t, Close(1), u);
  }

  lemma FirstDecides(c: Config, name: Name, y: Handle, other: Node)
    requires !c.excluded(name) && c.delay(name) == 0
    requires Reached(c, Two(Closed(Fresh(0, true)), NodeFor(0, name), y, other, 0))
    ensures Reached(c, Two(Ready(0, name), NodeFor(0, name), y, other, 0))
  {
    var x := Closed(Fresh(0, true));
    FirstGoes(c, x, NodeFor(0, name), y, other, 0);
    var x1 := Advance(c, false, 0, x, NodeFor(0, name), OK).value.0;
    FirstGoes(c, x1, NodeFor(0, name), y, other, 0);
    var x2 := Advance(c, false, 0, x1, NodeFor(0, name), OK).value.0;
    FirstGoes(c, x2, NodeFor(0, name), y, other, 0);
  }

  lemma SecondDecides(c: Config, name: Name, x: Handle, node: Node)
    requires !c.excluded(name) && c.delay(name) == 0
    requires Reached(c, Two(x, node, Closed(Fresh(1, true)), NodeFor(1, name), 0))
    ensures Reached(c, Two(x, node, Ready(1, name), NodeFor(1, name), 0))
  {
    var y := Closed(Fresh(1, true));
    SecondGoes(c, x, node, y, NodeFor(1, name), 0);
    var y1 := Advance(c, false, 1, y, NodeFor(1, name), OK).value.0;
    SecondGoes(c, x, node, y1, NodeFor(1, name), 0);
    var y2 := Advance(c, false, 1, y1, NodeFor(1, name), OK).value.0;
    SecondGoes(c, x, node, y2, NodeFor(1, name), 0);
  }

  /**
   * replace records the edge to the file it replaces before it marks that file's buffer gone. A
   * Release of the renamed file that walks in between finds the other's uploadMu free and goes on,
   * the other then passes its last gone check, and both uploads run at once.
   */
  lemma WalkBetweenEdgeAndMarkLetsUploadsOverlap(c: Config, from: Name, to: Name) returns (s: State)
    requires !c.excluded(from) && !c.excluded(to) && c.delay(from) == 0 && c.delay(to) == 0
    ensures Reached(c, s)
    ensures 0 in s.handles && 1 in s.handles && s.handles[1].node == 1
    ensures s.handles[0].pc.Uploading? && s.handles[1].pc.Uploading?
    ensures s.handles[0].pc.up.walked == {1} && s.handles[0].pc.up.early == {1}
  {
    BothReady(c, from, to);
    var x, n0, y, n1 := Ready(0, from), NodeFor(0, from), Ready(1, to), NodeFor(1, to);
    SecondGoes(c, x, n0, y, n1, 0);
    var y1 := y.(pc := Walking(None, Attempt(None, to, false, {}, {})));
    var n0', n1', y2 := n0.(supersedes := Some(1)), n1.(leftAt := Some(0)), y1.(captured := true);
    EdgeRecorded(c, x, n0, y1, n1);
    s := WalkThenBothUpload(c, x, n0', y2, n1');
  }

  lemma EdgeRecorded(c: Config, x: Handle, node: Node, y: Handle, other: Node)
    requires Reached(c, Two(x, node, y, other, 0))
    requires node.leftAt.None? && other.leftAt.None? && other.handle == Some(1)
    ensures Reached(c, Two(x, node.(supersedes := Some(1)), y.(captured := true), other.(leftAt := Some(0)), 1))
  {
    var s := Two(x, node, y, other, 0);
    var t := Two(x, node.(supersedes := Some(1)), y.(captured := true), other.(leftAt := Some(0)), 1);
    assert Step(c, s, ReplaceLink(Some(0), 1)).value == t;
    ReachedOneMore(c, s, ReplaceLink(Some(0), 1), t);
  }

  lemma WalkThenBothUpload(c: Config, x: Handle, node: Node, y: Handle, other: Node) returns (s: State)
    requires Reached(c, Two(x, node, y, other, 1))
    requires x.pc == Trying(Attempt(None, node.name, false, {}, {})) && !x.buffer.gone && x.node == 0
    requires node.mu.Free? && node.supersedes == Some(1)
    requires y.pc.Walking? && y.pc.ahead.None? && !y.buffer.gone && y.node == 1
    requires other.mu.Free? && other.handle == Some(1) && other.supersedes.None?
    ensures Reached(c, s)
    ensures 0 in s.handles && 1 in s.handles && s.handles[1].node == 1
    ensures s.handles[0].pc.Uploading? && s.handles[1].pc.Uploading?
    ensures s.handles[0].pc.up.walked == {1} && s.handles[0].pc.up.early == {1}
  {
    FirstGoes(c, x, node, y, other, 1);
    var x1 := x.(pc := Walking(Some(1), Attempt(None, node.name, false, {}, {})));
    var x2 := x.(pc := Walking(None, Attempt(None, node.name, false, {1}, {1})));
    EarlyWalk(c, x1, node, y, other, x2);
    s := BothUpload(c, x2, node, y, other, 1);
  }

  lemma EarlyWalk(c: Config, x: Handle, node: Node, y: Handle, other: Node, x': Handle)
    requires Reached(c, Two(x, node, y, other, 1)) && x.node == 0
    requires x.pc.Walking? && x.pc.ahead == Some(1) && x.pc.up.walked == {} && x.pc.up.early == {}
    requires !y.buffer.gone && y.node == 1
    requires other.mu.Free? && other.handle == Some(1) && other.supersedes.None?
    requires x' == x.(pc := Walking(None, x.pc.up.(walked := {1}, early := {1})))
    ensures Reached(c, Two(x', node, y, other, 1))
  {
    var s := Two(x, node, y, other, 1);
    assert {} + {1} == {1};
    assert WalkStep(s, 0) == Some(x');
    assert Step(c, s, Walk(0)).value == Two(x', node, y, other, 1);
    ReachedOneMore(c, s, Walk(0), Two(x', node, y, other, 1));
  }

  lemma BothUpload(c: Config, x: Handle, node: Node, y: Handle, other: Node, clock: nat) returns (s: State)
    requires Reached(c, Two(x, node, y, other, clock))
    requires x.pc.Walking? && x.pc.ahead.None? && !x.buffer.gone && node.mu.Free? && x.node == 0
    requires y.pc.Walking? && y.pc.ahead.None? && !y.buffer.gone && other.mu.Free? && y.node == 1
    ensures Reached(c, s)
    ensures 0 in s.handles && 1 in s.handles && s.handles[1].node == 1
    ensures s.handles[0].pc.Uploading? && s.handles[1].pc.Uploading? && s.handles[0].pc.up == x.pc.up
  {
    FirstGoes(c, x, node, y, other, clock);
    var x1, n1 := x.(pc := Holding(x.pc.up)), node.(mu := Held);
    SecondGoes(c, x1, n1, y, other, clock);
    var y1, o1 := y.(pc := Holding(y.pc.up)), other.(mu := Held);
    s := BothSend(c, x1, n1, y1, o1, clock);
  }

  lemma BothSend(c: Config, x: Handle, node: Node, y: Handle, other: Node, clock: nat) returns (s: State)
    requires Reached(c, Two(x, node, y, other, clock))
    requires x.pc.Holding? && x.node == 0 && y.pc.Holding? && y.node == 1
    ensures Reached(c, s)
    ensures 0 in s.handles && 1 in s.handles && s.handles[1].node == 1
    ensures s.handles[0].pc.Uploading? && s.handles[1].pc.Uploading? && s.handles[0].pc.up == x.pc.up
  {
    FirstGoes(c, x, node, y, other, clock);
    var x1 := x.(pc := Uploading(x.pc.up, x.version));
    SecondGoes(c, x1, node, y, other, clock);
    s := Two(x1, node, y.(pc := Uploading(y.pc.up, y.version)), other, clock);
  }

  // ----- and in general -----

  /** h has walked to the end and only has to take its file's lock. */
  predicate AtLock(s: State, h: HandleId) {
    && Has(s, h)
    && s.handles[h].pc.Walking? && s.handles[h].pc.ahead.None?
    && !s.handles[h].buffer.gone
    && s.nodes[s.handles[h].node].mu.Free?
  }

  /** h goes through two regions, to its upload, and leaves every handle of another file as it was. */
  lemma LockThenUpload(c: Config, s: State, h: HandleId) returns (t: State)
    requires Reached(c, s) && AtLock(s, h)
    ensures Reached(c, t) && h in t.handles && t.handles[h].pc.Uploading? && t.handles[h].pc.up == s.handles[h].pc.up
    ensures t.handles[h].node == s.handles[h].node
    ensures forall g :: g in s.handles && g != h ==> g in t.handles && t.handles[g] == s.handles[g]
    ensures forall n :: n in s.nodes && n != s.handles[h].node ==> n in t.nodes && t.nodes[n] == s.nodes[n]
  {
    var x := s.handles[h];
    var held := x.(pc := Holding(x.pc.up));
    var u := Put(s, h, held).(nodes := s.nodes[x.node := s.nodes[x.node].(mu := Held)]);
    assert Attempting(x, s.nodes[x.node], OK) == Some((held, u.nodes[x.node]));
    assert Step(c, s, Go(h, OK)) == Some(u);
    ReachedOneMore(c, s, Go(h, OK), u);
    t := HoldThenUpload(c, u, h);
  }

  lemma HoldThenUpload(c: Config, u: State, h: HandleId) returns (t: State)
    requires Reached(c, u) && Has(u, h) && u.handles[h].pc.Holding?
    ensures Reached(c, t) && h in t.handles && t.handles[h].pc.Uploading? && t.handles[h].pc.up == u.handles[h].pc.up
    ensures t.handles[h].node == u.handles[h].node
    ensures forall g :: g in u.handles && g != h ==> g in t.handles && t.handles[g] == u.handles[g]
    ensures forall n :: n in u.nodes ==> n in t.nodes && t.nodes[n] == u.nodes[n]
  {
    var x := u.handles[h];
    var sending := x.(pc := Uploading(x.pc.up, x.version));
    t := Put(u, h, sending).(nodes := u.nodes[x.node := u.nodes[x.node]]);
    assert Attempting(x, u.nodes[x.node], OK) == Some((sending, u.nodes[x.node]));
    assert Step(c, u, Go(h, OK)) == Some(t);
    ReachedOneMore(c, u, Go(h, OK), t);
  }

  /**
   * In any reachable state a walk that passed a file before its mark can be overtaken by that file's
   * own upload: with both at their locks and the file still not marked, both uploads can run at once.
   */
  lemma EarlyWalkCanOverlap(c: Config, s: State, h: HandleId, g: HandleId) returns (t: State)
    requires Reached(c, s) && AtLock(s, h) && AtLock(s, g)
    requires s.handles[g].node in s.handles[h].pc.up.early && s.handles[h].node != s.handles[g].node
    ensures Reached(c, t) && h in t.handles && g in t.handles
    ensures t.handles[h].pc.Uploading? && t.handles[g].pc.Uploading?
    ensures t.handles[g].node in t.handles[h].pc.up.early
  {
    var u := LockThenUpload(c, s, h);
    t := LockThenUpload(c, u, g);
  }
}
