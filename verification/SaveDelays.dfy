/** A run in which a name's upload delay is never waited out: a rename overtakes the timer of the old name. */
module SaveDelays {
  import opened Wrappers
  import opened Buffers
  import opened SaveProtocol
  import opened SaveRaces
  import opened SaveStories

  lemma {:induction false} TaleOneMore(c: Config, s: State, run: seq<Action>, h: HandleId, y: Story, u: State, a: Action)
    requires Run(c, s, run) == Some(u) && Step(c, u, a).Some?
    ensures Tale(c, s, run + [a], h, y) == Told(Tale(c, s, run, h, y), u, a, h)
    decreases |run|
  {
    if run == [] {
      assert [a][1..] == [] && run + [a] == [a];
      assert Tale(c, s, [a], h, y) == Tale(c, Step(c, s, a).value, [], h, Told(y, s, a, h));
    } else {
      assert (run + [a])[1..] == run[1..] + [a];
      TaleOneMore(c, Step(c, s, run[0]).value, run[1..], h, Told(y, s, run[0], h), u, a);
    }
  }

  lemma LivedOneMore(c: Config, s: State, h: HandleId, y: Story, a: Action, t: State)
    requires Lived(c, s, h, y) && Step(c, s, a) == Some(t)
    ensures Lived(c, t, h, Told(y, s, a, h))
  {
    var run :| Run(c, EMPTY, run) == Some(s) && Tale(c, EMPTY, run, h, START) == y;
    RunOneMore(c, EMPTY, run, s, a, t);
    TaleOneMore(c, EMPTY, run, h, START, s, a);
  }

  /** The mount of one file, with the story of its handle. */
  ghost predicate LivedAs(c: Config, x: Handle, node: Node, y: Story) {
    Lived(c, OneAt(x, node, false, 0), 0, y) && x.node == 0
  }

  lemma Goes(c: Config, x: Handle, node: Node, y: Story, x': Handle, node': Node)
    requires LivedAs(c, x, node, y) && Advance(c, false, 0, x, node, OK) == Some((x', node')) && x'.node == 0
    ensures LivedAs(c, x', node', Heard(y, x, node.name))
  {
    var s := OneAt(x, node, false, 0);
    assert Step(c, s, Go(0, OK)) == GoStep(c, s, 0, OK);
    assert GoStep(c, s, 0, OK).value == OneAt(x', node', false, 0);
    LivedOneMore(c, s, 0, y, Go(0, OK), OneAt(x', node', false, 0));
  }

  lemma Acts(c: Config, x: Handle, node: Node, y: Story, a: Action, x': Handle)
    requires LivedAs(c, x, node, y) && (a.Close? || a.Take?) && a.h == 0
    requires HandleStep(false, 0, x, node, a) == Some(x') && x'.node == 0
    ensures LivedAs(c, x', node, Told(y, OneAt(x, node, false, 0), a, 0))
  {
    var s := OneAt(x, node, false, 0);
    assert Step(c, s, a) == Some(Put(s, 0, x'));
    assert Put(s, 0, x') == OneAt(x', node, false, 0);
    LivedOneMore(c, s, 0, y, a, OneAt(x', node, false, 0));
  }

  lemma CloseIsLived(c: Config, name: Name)
    ensures LivedAs(c, Closed(Fresh(0, true)), NodeFor(0, name), START)
  {
    var x, node := Fresh(0, true), NodeFor(0, name);
    assert Run(c, EMPTY, []) == Some(EMPTY) && Tale(c, EMPTY, [], 0, START) == START;
    assert Step(c, EMPTY, Create(0, 0, name)).value == OneAt(x, node, false, 0);
    LivedOneMore(c, EMPTY, 0, START, Create(0, 0, name), OneAt(x, node, false, 0));
    Acts(c, x, node, START, Close(0), Closed(x));
  }

  /** The story of a Release that has read name and parked for its delay. */
  function ParkedFor(c: Config, name: Name): Story {
    START.(read := Some(name), wait := Some(Wait(name, c.delay(name), 0)))
  }

  lemma ParkIsLived(c: Config, name: Name) returns (x: Handle)
    requires !c.excluded(name) && c.delay(name) > 0
    ensures LivedAs(c, x, NodeFor(0, name), ParkedFor(c, name))
    ensures x.buffer == Closed(Fresh(0, true)).buffer.Park(c.delay(name)) && x.pc.Waiting?
  {
    CloseIsLived(c, name);
    var node, x0 := NodeFor(0, name), Closed(Fresh(0, true));
    var x1 := x0.(pc := Snapped(true, false));
    Goes(c, x0, node, START, x1, node);
    var x2 := x1.(pc := Chosen(true, false, None, name));
    Goes(c, x1, node, START, x2, node);
    var y := START.(read := Some(name));
    assert Heard(START, x1, name) == y;
    var x3 := x2.(pc := Parking(c.delay(name), false));
    Goes(c, x2, node, y, x3, node);
    x := x3.(pc := Waiting, buffer := x3.buffer.Park(c.delay(name)), inDelayed := true);
    Goes(c, x3, node, y, x, node);
    assert Heard(y, x3, name) == ParkedFor(c, name);
  }

  /** The timer takes the buffer, and a rename, which finds nothing parked to take, gives the file its new name. */
  lemma TimerThenRename(c: Config, from: Name, to: Name) returns (x: Handle, y: Story)
    requires !c.excluded(from) && c.delay(from) > 0
    ensures LivedAs(c, x, NodeFor(0, to), y) && x.pc == Untracking(true, ToRelease)
    ensures !x.buffer.gone && x.buffer.dirty && x.buffer.due
    ensures Taken(false, x, Rename).None?
    ensures y == ParkedFor(c, from).(taker := Some(Timer), renames := [to])
  {
    var parked := ParkIsLived(c, from);
    x := parked.(buffer := parked.buffer.Settle(), pc := Untracking(true, ToRelease));
    Acts(c, parked, NodeFor(0, from), ParkedFor(c, from), Take(0, Timer), x);
    var y1 := ParkedFor(c, from).(taker := Some(Timer));
    var s, a := OneAt(x, NodeFor(0, from), false, 0), Retarget(0, None, to);
    assert Step(c, s, a).value == OneAt(x, NodeFor(0, to), false, 0);
    LivedOneMore(c, s, 0, y1, a, OneAt(x, NodeFor(0, to), false, 0));
    y := y1.(renames := [to]);
    assert [] + [to] == [to];
  }

  /**
   * A save parked for the delay of one name; its timer takes it, a rename gives the file another name,
   * which has a delay of its own, and the Release tries the upload under that name at once. Its own delay
   * never began.
   */
  lemma RenameUnderTheTimerSkipsTheDelay(c: Config, from: Name, to: Name) returns (s: State, y: Story)
    requires from != to && !c.excluded(from) && !c.excluded(to) && c.delay(from) > 0 && c.delay(to) > 0
    ensures Lived(c, s, 0, y) && 0 in s.handles
    ensures s.handles[0].pc == Trying(Attempt(None, to, true, {}, {}))
    ensures y.wait == Some(Wait(from, c.delay(from), 0)) && y.between == [to]
  {
    var x, y0 := TimerThenRename(c, from, to);
    var node := NodeFor(0, to);
    var x1 := x.(pc := Entered, inDelayed := false);
    Goes(c, x, node, y0, x1, node);
    var x2 := x1.(pc := Snapped(true, true), buffer := x1.buffer.(due := false));
    Goes(c, x1, node, y0, x2, node);
    var x3 := x2.(pc := Chosen(true, true, None, to));
    Goes(c, x2, node, y0, x3, node);
    y := Heard(y0, x2, to);
    var x4 := x3.(pc := Trying(Attempt(None, to, true, {}, {})));
    Goes(c, x3, node, y, x4, node);
    s := OneAt(x4, node, false, 0);
  }
}
