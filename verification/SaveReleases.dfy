/**
 * A Release with nothing between its regions, from the close of the file to its end: what becomes of the
 * buffer, the file and the save in each of its cases, whatever the drive and the disk answer.
 */
module SaveReleases {
  import opened Wrappers
  import opened Buffers
  import opened SaveProtocol

  /** The regions of one Release, one after another, each with its luck. */
  function Regions(c: Config, closing: bool, h: HandleId, x: Handle, node: Node, lucks: seq<Luck>): Option<(Handle, Node)>
    decreases |lucks|
  {
    if lucks == [] then Some((x, node))
    else
      var next := Advance(c, closing, h, x, node, lucks[0]);
      if next.None? then None else Regions(c, closing, h, next.value.0, next.value.1, lucks[1..])
  }

  function Gos(h: HandleId, lucks: seq<Luck>): seq<Action> {
    if lucks == [] then [] else [Go(h, lucks[0])] + Gos(h, lucks[1..])
  }

  /** They are a run of the mount that touches nothing but the handle and its file. */
  lemma {:induction false} RegionsAreARun(c: Config, s: State, h: HandleId, lucks: seq<Luck>)
    requires Has(s, h) && Regions(c, s.closing, h, s.handles[h], s.nodes[s.handles[h].node], lucks).Some?
    ensures var n := s.handles[h].node;
      var end := Regions(c, s.closing, h, s.handles[h], s.nodes[n], lucks).value;
      Run(c, s, Gos(h, lucks)) == Some(s.(handles := s.handles[h := end.0], nodes := s.nodes[n := end.1]))
    decreases |lucks|
  {
    var x, n := s.handles[h], s.handles[h].node;
    if lucks == [] {
      assert s.handles[h := x] == s.handles && s.nodes[n := s.nodes[n]] == s.nodes;
    } else {
      var next := Advance(c, s.closing, h, x, s.nodes[n], lucks[0]).value;
      var t := s.(handles := s.handles[h := next.0], nodes := s.nodes[n := next.1]);
      assert Step(c, s, Go(h, lucks[0])) == Some(t);
      RegionKeepsNode(c, s.closing, h, x, s.nodes[n], lucks[0]);
      RegionsAreARun(c, t, h, lucks[1..]);
      var end := Regions(c, t.closing, h, t.handles[h], t.nodes[n], lucks[1..]).value;
      assert t.handles[h := end.0] == s.handles[h := end.0] && t.nodes[n := end.1] == s.nodes[n := end.1];
      assert ([Go(h, lucks[0])] + Gos(h, lucks[1..]))[1..] == Gos(h, lucks[1..]);
    }
  }

  lemma RegionKeepsNode(c: Config, closing: bool, h: HandleId, x: Handle, node: Node, luck: Luck)
    requires Advance(c, closing, h, x, node, luck).Some?
    ensures Advance(c, closing, h, x, node, luck).value.0.node == x.node
  {
    match x.pc
    case LettingGo(_, _) => assert Unmounted(c, h, x, node, luck).value.0.node == x.node;
    case Discarding(_) | Keeping(_) | Dropping(_) => assert LettingLoose(h, x, node, luck).value.0.node == x.node;
    case Failing(_, _) | Retrying(_, _) => assert KeepingForRetry(closing, x, node).value.0.node == x.node;
    case Uploading(_, _) | Uploaded(_, _, _) => assert Answered(x, node, luck).value.0.node == x.node;
    case _ =>
  }

  lemma Goes(c: Config, closing: bool, h: HandleId, x: Handle, node: Node, luck: Luck, x': Handle, node': Node, rest: seq<Luck>)
    requires Advance(c, closing, h, x, node, luck) == Some((x', node'))
    ensures Regions(c, closing, h, x, node, [luck] + rest) == Regions(c, closing, h, x', node', rest)
  {
    assert ([luck] + rest)[1..] == rest;
  }

  /** What a Release has read of the handle and the file when it decides. */
  function Decided(x: Handle, node: Node): Handle {
    x.(pc := Chosen(x.buffer.dirty, x.buffer.due, node.link, node.name), buffer := x.buffer.(due := false))
  }

  lemma ReleaseDecides(c: Config, closing: bool, h: HandleId, x: Handle, node: Node, any: Luck, rest: seq<Luck>)
    requires x.pc.Entered?
    ensures Regions(c, closing, h, x, node, [any] + ([any] + rest)) == Regions(c, closing, h, Decided(x, node), node, rest)
  {
    var x1 := x.(pc := Snapped(x.buffer.dirty, x.buffer.due), buffer := x.buffer.(due := false));
    Goes(c, closing, h, x, node, any, x1, node, [any] + rest);
    Goes(c, closing, h, x1, node, any, Decided(x, node), node, rest);
  }

  /** The bytes of x are gone from its temp file, and nothing points at it any more. */
  predicate LetLoose(h: HandleId, x: Handle, node: Node, x': Handle, node': Node) {
    && x'.pc.Done? && !x'.buffer.hasTmp && x'.version == x.version && x'.node == x.node
    && node'.handle == (if node.handle == Some(h) then None else node.handle)
    && node'.name == node.name && node'.leftAt == node.leftAt
  }

  /** The bytes moved to the unsaved folder, or stayed where they are when that failed. */
  predicate SetAside(x: Handle, x': Handle, moved: bool) {
    && x'.onDisk == !moved
    && x'.past == if moved then x.past.(unsaved := x.past.unsaved + {x.version}) else x.past
  }

  lemma DiscardingEnds(c: Config, closing: bool, h: HandleId, y: Handle, node: Node, any: Luck, keep: Luck)
    requires y.pc == Discarding(false)
    ensures var end := Regions(c, closing, h, y, node, [any] + ([keep] + []));
      && end.Some?
      && LetLoose(h, y, node, end.value.0, end.value.1)
      && end.value.1.link == node.link && end.value.1.supersedes == node.supersedes && end.value.1.mu == node.mu
      && if y.buffer.failed then SetAside(y, end.value.0, keep.ok) else !end.value.0.onDisk && end.value.0.past == y.past
  {
    var z := y.(pc := if y.buffer.failed then Keeping(false) else Dropping(false));
    Goes(c, closing, h, y, node, any, z, node, [keep] + []);
    var end := LettingLoose(h, z, node, keep).value;
    Goes(c, closing, h, z, node, keep, end.0, end.1, []);
  }

  /** A buffer marked gone is deleted, unless its upload had failed for good, which sets it aside. */
  lemma GoneRelease(c: Config, closing: bool, h: HandleId, x: Handle, node: Node, any: Luck, keep: Luck)
    requires x.pc.Entered? && x.buffer.gone
    ensures var end := Regions(c, closing, h, x, node, [any] + ([any] + ([any] + ([any] + ([keep] + [])))));
      && end.Some?
      && LetLoose(h, x, node, end.value.0, end.value.1)
      && end.value.1.link == node.link && end.value.1.supersedes == node.supersedes && end.value.1.mu == node.mu
      && if x.buffer.failed then SetAside(x, end.value.0, keep.ok) else !end.value.0.onDisk && end.value.0.past == x.past
  {
    var d := Decided(x, node);
    ReleaseDecides(c, closing, h, x, node, any, [any] + ([any] + ([keep] + [])));
    Goes(c, closing, h, d, node, any, d.(pc := Discarding(false)), node, [any] + ([keep] + []));
    DiscardingEnds(c, closing, h, d.(pc := Discarding(false)), node, any, keep);
  }

  /** A written buffer under an excluded name, or with a delay to wait out, is parked, and nothing else happens. */
  lemma ParkedRelease(c: Config, closing: bool, h: HandleId, x: Handle, node: Node, any: Luck)
    requires x.pc.Entered? && !x.buffer.gone && x.buffer.dirty
    requires c.excluded(node.name) || (!x.buffer.due && c.delay(node.name) > 0)
    ensures var end := Regions(c, closing, h, x, node, [any] + ([any] + ([any] + ([any] + []))));
      var timed := !c.excluded(node.name);
      && end.Some? && end.value.1 == node
      && end.value.0 == x.(pc := Waiting,
                           buffer := x.buffer.(due := false, hasTmp := true, parked := true, timer := timed),
                           inDelayed := x.inDelayed || timed, inKept := x.inKept || !timed)
  {
    var d := Decided(x, node);
    var delay := if c.excluded(node.name) then 0 else c.delay(node.name);
    ReleaseDecides(c, closing, h, x, node, any, [any] + ([any] + []));
    Goes(c, closing, h, d, node, any, d.(pc := Parking(delay, false)), node, [any] + []);
    var y := d.(pc := Waiting, buffer := d.buffer.Park(delay), inDelayed := d.inDelayed || delay > 0, inKept := d.inKept || delay == 0);
    Goes(c, closing, h, d.(pc := Parking(delay, false)), node, any, y, node, []);
  }

  /** One nobody wrote is dropped. */
  lemma UnwrittenRelease(c: Config, closing: bool, h: HandleId, x: Handle, node: Node, any: Luck)
    requires x.pc.Entered? && !x.buffer.gone && !x.buffer.dirty
    ensures var end := Regions(c, closing, h, x, node, [any] + ([any] + ([any] + ([any] + []))));
      && end.Some?
      && LetLoose(h, x, node, end.value.0, end.value.1)
      && end.value.1.link == node.link && end.value.1.supersedes == node.supersedes && end.value.1.mu == node.mu
      && !end.value.0.onDisk && end.value.0.past == x.past
  {
    var d := Decided(x, node);
    ReleaseDecides(c, closing, h, x, node, any, [any] + ([any] + []));
    Goes(c, closing, h, d, node, any, d.(pc := Dropping(false)), node, [any] + []);
    var end := Detached(h, d.(pc := Dropping(false)), node, false, false);
    Goes(c, closing, h, d.(pc := Dropping(false)), node, any, end.0, end.1, []);
  }

  /**
   * A Release that is to upload: written, not gone, under a name neither excluded nor with a delay left, with
   * nothing to wait for.
   */
  predicate Uploads(c: Config, x: Handle, node: Node) {
    && x.pc.Entered? && !x.buffer.gone && x.buffer.dirty
    && !c.excluded(node.name) && (x.buffer.due || c.delay(node.name) == 0)
    && node.supersedes.None? && node.mu.Free?
  }

  function Tried(x: Handle, node: Node): Attempt {
    Attempt(node.link, node.name, x.buffer.due, {}, {})
  }

  lemma WalkStarts(c: Config, closing: bool, h: HandleId, x: Handle, node: Node, any: Luck, good: Luck, rest: seq<Luck>)
    requires Uploads(c, x, node) && good.ok
    ensures Regions(c, closing, h, x, node, [any] + ([any] + ([any] + ([good] + rest)))) ==
      Regions(c, closing, h, Decided(x, node).(pc := Walking(None, Tried(x, node))), node, rest)
  {
    var d, up := Decided(x, node), Tried(x, node);
    ReleaseDecides(c, closing, h, x, node, any, [any] + ([good] + rest));
    Goes(c, closing, h, d, node, any, d.(pc := Trying(up)), node, [good] + rest);
    Goes(c, closing, h, d.(pc := Trying(up)), node, good, d.(pc := Walking(None, up)), node, rest);
  }

  /** Its regions up to the answer of the drive. */
  lemma UploadStarts(c: Config, closing: bool, h: HandleId, x: Handle, node: Node, any: Luck, good: Luck, rest: seq<Luck>)
    requires Uploads(c, x, node) && good.ok
    ensures var y := Decided(x, node).(pc := Uploading(Tried(x, node), x.version));
      Regions(c, closing, h, x, node, [any] + ([any] + ([any] + ([good] + ([any] + ([good] + rest)))))) ==
        Regions(c, closing, h, y, node.(mu := Held), rest)
  {
    var d, up, held := Decided(x, node), Tried(x, node), node.(mu := Held);
    WalkStarts(c, closing, h, x, node, any, good, [any] + ([good] + rest));
    Goes(c, closing, h, d.(pc := Walking(None, up)), node, any, d.(pc := Holding(up)), held, [good] + rest);
    Goes(c, closing, h, d.(pc := Holding(up)), held, good, d.(pc := Uploading(up, x.version)), held, rest);
  }

  /**
   * An accepted upload: the file has its link, when it could be read back, the save is on the drive, the
   * listing has it, and the buffer is deleted.
   */
  lemma AcceptedRelease(c: Config, closing: bool, h: HandleId, x: Handle, node: Node, any: Luck, good: Luck, answer: Luck)
    requires Uploads(c, x, node) && good.ok && answer.ok
    ensures var last := [answer] + ([any] + ([any] + ([any] + [])));
      var end := Regions(c, closing, h, x, node, [any] + ([any] + ([any] + ([good] + ([any] + ([good] + last))))));
      && end.Some?
      && LetLoose(h, x, node, end.value.0, end.value.1)
      && !end.value.0.onDisk
      && end.value.1.link == (if answer.link.Some? then answer.link else node.link)
      && end.value.1.supersedes.None? && end.value.1.mu.Leaving?
      && end.value.0.past.sent == x.past.sent + {x.version} && end.value.0.past.landed == x.past.landed + {x.version}
      && end.value.0.past.fate.claimed && end.value.0.past.fate.trashed == x.past.fate.trashed
      && (end.value.0.past.fate.patched <==> x.past.fate.patched || answer.link.Some?)
      && (end.value.0.past.fate.created <==> x.past.fate.created || node.link.None?)
  {
    var last := [answer] + ([any] + ([any] + ([any] + [])));
    UploadStarts(c, closing, h, x, node, any, good, last);
    var y := Decided(x, node).(pc := Uploading(Tried(x, node), x.version));
    AcceptedEnds(c, closing, h, y, node.(mu := Held), any, answer);
  }

  /** The handle and its file once the claim has landed. */
  function Landed(y: Handle, answer: Luck): Handle
    requires y.pc.Uploading?
  {
    var fate := Made(y.past.fate, y.pc.up, answer.link).(claimed := true);
    y.(pc := Claimed(y.pc.up, y.version, answer.link),
       past := y.past.(sent := y.past.sent + {y.version}, landed := y.past.landed + {y.version}, fate := fate))
  }

  function Linked(node: Node, answer: Luck): Node {
    node.(link := if answer.link.Some? then answer.link else node.link, supersedes := None)
  }

  lemma ClaimGoes(c: Config, closing: bool, h: HandleId, y: Handle, node: Node, any: Luck, answer: Luck, rest: seq<Luck>)
    requires y.pc.Uploading? && y.pc.version == y.version && !y.buffer.gone && answer.ok
    ensures Regions(c, closing, h, y, node, [answer] + ([any] + rest)) ==
      Regions(c, closing, h, Landed(y, answer), Linked(node, answer), rest)
  {
    var up, v := y.pc.up, y.version;
    var y1 := y.(pc := Uploaded(up, v, answer.link),
                 past := y.past.(sent := y.past.sent + {v}, fate := Made(y.past.fate, up, answer.link)));
    Goes(c, closing, h, y, node, answer, y1, node, [any] + rest);
    Goes(c, closing, h, y1, node, any, Landed(y, answer), Linked(node, answer), rest);
  }

  lemma ClaimedGoes(c: Config, closing: bool, h: HandleId, y: Handle, node: Node, any: Luck)
    requires y.pc.Claimed?
    ensures var fate := Patched(y.past.fate, y.pc.up, y.pc.link, node.name, any.ok);
      Regions(c, closing, h, y, node, [any] + ([any] + [])) ==
        Some(Detached(h, y.(pc := Dropping(true), past := y.past.(fate := fate)), node, false, true))
  {
    var y3 := y.(pc := Dropping(true), past := y.past.(fate := Patched(y.past.fate, y.pc.up, y.pc.link, node.name, any.ok)));
    Goes(c, closing, h, y, node, any, y3, node, [any] + []);
    var end := Detached(h, y3, node, false, true);
    Goes(c, closing, h, y3, node, any, end.0, end.1, []);
  }

  lemma AcceptedEnds(c: Config, closing: bool, h: HandleId, y: Handle, node: Node, any: Luck, answer: Luck)
    requires y.pc.Uploading? && y.pc.version == y.version && !y.buffer.gone && answer.ok && y.pc.up.name == node.name
    ensures var end := Regions(c, closing, h, y, node, [answer] + ([any] + ([any] + ([any] + []))));
      && end.Some?
      && LetLoose(h, y, node, end.value.0, end.value.1)
      && !end.value.0.onDisk
      && end.value.1.link == (if answer.link.Some? then answer.link else node.link)
      && end.value.1.supersedes.None? && end.value.1.mu.Leaving?
      && end.value.0.past.sent == y.past.sent + {y.version} && end.value.0.past.landed == y.past.landed + {y.version}
      && end.value.0.past.fate.claimed && end.value.0.past.fate.trashed == y.past.fate.trashed
      && (end.value.0.past.fate.patched <==> y.past.fate.patched || answer.link.Some?)
      && (end.value.0.past.fate.created <==> y.past.fate.created || y.pc.up.existing.None?)
  {
    ClaimGoes(c, closing, h, y, node, any, answer, [any] + ([any] + []));
    ClaimedGoes(c, closing, h, Landed(y, answer), Linked(node, answer), any);
  }

  /**
   * A refused upload: while unmount closes the buffer is set aside; otherwise it is parked, with no timer and
   * marked failed when no retry can help, and with the next wait of the backoff when one may.
   */
  lemma RefusedRelease(c: Config, h: HandleId, x: Handle, node: Node, any: Luck, good: Luck, answer: Luck)
    requires Uploads(c, x, node) && good.ok && !answer.ok
    ensures var last := [answer] + ([any] + ([any] + ([any] + [])));
      var end := Regions(c, false, h, x, node, [any] + ([any] + ([any] + ([good] + ([any] + ([good] + last))))));
      && end.Some? && end.value.1 == node.(mu := Leaving)
      && end.value.0.pc.Waiting? && end.value.0.onDisk == x.onDisk && end.value.0.version == x.version
      && end.value.0.past == (if answer.permanent then x.past else x.past.(fails := x.past.fails + 1))
      && (if answer.permanent then
            && end.value.0.buffer == x.buffer.(due := false, failed := true, hasTmp := true, parked := true, timer := false)
            && end.value.0.inKept && end.value.0.inDelayed == x.inDelayed
          else
            && end.value.0.buffer ==
               x.buffer.(due := false, retryIn := x.buffer.BackOff().retryIn, hasTmp := true, parked := true, timer := true)
            && end.value.0.inDelayed && end.value.0.inKept == x.inKept)
  {
    var last := [answer] + ([any] + ([any] + ([any] + [])));
    UploadStarts(c, false, h, x, node, any, good, last);
    var y, held := Decided(x, node).(pc := Uploading(Tried(x, node), x.version)), node.(mu := Held);
    var p := answer.permanent;
    Goes(c, false, h, y, held, answer, y.(pc := Failing(p, true)), held, [any] + ([any] + ([any] + [])));
    FailingParks(c, h, y.(pc := Failing(p, true)), held, any);
  }

  lemma FailingParks(c: Config, h: HandleId, y: Handle, node: Node, any: Luck)
    requires y.pc.Failing? && !y.buffer.gone
    ensures var p, delay := y.pc.permanent, if y.pc.permanent then 0 else y.buffer.BackOff().retryIn;
      var b := if p then y.buffer.GiveUp() else y.buffer.BackOff();
      Regions(c, false, h, y, node, [any] + ([any] + ([any] + []))) ==
        Some((y.(pc := Waiting, buffer := b.Park(delay), inDelayed := y.inDelayed || !p, inKept := y.inKept || p,
                 past := if p then y.past else y.past.(fails := y.past.fails + 1)),
              node.(mu := if y.pc.locked then Leaving else node.mu)))
  {
    var p, locked := y.pc.permanent, y.pc.locked;
    var delay := if p then 0 else y.buffer.BackOff().retryIn;
    var b := if p then y.buffer.GiveUp() else y.buffer.BackOff();
    var y2 := y.(pc := Parking(delay, locked), buffer := b, past := if p then y.past else y.past.(fails := y.past.fails + 1));
    FailingDecides(c, h, y, node, any, y2, [any] + []);
    var y3 := y2.(pc := Waiting, buffer := b.Park(delay), inDelayed := y.inDelayed || !p, inKept := y.inKept || p);
    Goes(c, false, h, y2, node, any, y3, node.(mu := if locked then Leaving else node.mu), []);
  }

  lemma FailingDecides(c: Config, h: HandleId, y: Handle, node: Node, any: Luck, y2: Handle, rest: seq<Luck>)
    requires y.pc.Failing? && !y.buffer.gone
    requires y2 ==
      if y.pc.permanent then y.(pc := Parking(0, y.pc.locked), buffer := y.buffer.GiveUp())
      else y.(pc := Parking(y.buffer.BackOff().retryIn, y.pc.locked), buffer := y.buffer.BackOff(),
              past := y.past.(fails := y.past.fails + 1))
    ensures Regions(c, false, h, y, node, [any] + ([any] + rest)) == Regions(c, false, h, y2, node, rest)
  {
    var y1 := y.(pc := Retrying(y.pc.permanent, y.pc.locked));
    Goes(c, false, h, y, node, any, y1, node, [any] + rest);
    Goes(c, false, h, y1, node, any, y2, node, rest);
  }

  lemma FailingIsSetAside(c: Config, h: HandleId, y: Handle, node: Node, any: Luck, keep: Luck)
    requires y.pc.Failing? && y.pc.locked && !y.buffer.gone
    ensures var end := Regions(c, true, h, y, node, [any] + ([any] + ([keep] + [])));
      && end.Some?
      && LetLoose(h, y, node, end.value.0, end.value.1)
      && end.value.1.link == node.link && end.value.1.supersedes == node.supersedes && end.value.1.mu.Leaving?
      && SetAside(y, end.value.0, keep.ok)
  {
    var y1, y2 := y.(pc := Retrying(y.pc.permanent, true)), y.(pc := Keeping(true));
    Goes(c, true, h, y, node, any, y1, node, [any] + ([keep] + []));
    Goes(c, true, h, y1, node, any, y2, node, [keep] + []);
    var end := LettingLoose(h, y2, node, keep).value;
    Goes(c, true, h, y2, node, keep, end.0, end.1, []);
  }

  /** While unmount closes a refused buffer is set aside at once. */
  lemma RefusedAtUnmount(c: Config, h: HandleId, x: Handle, node: Node, any: Luck, good: Luck, answer: Luck, keep: Luck)
    requires Uploads(c, x, node) && good.ok && !answer.ok
    ensures var last := [answer] + ([any] + ([any] + ([keep] + [])));
      var end := Regions(c, true, h, x, node, [any] + ([any] + ([any] + ([good] + ([any] + ([good] + last))))));
      && end.Some?
      && LetLoose(h, x, node, end.value.0, end.value.1)
      && end.value.1.link == node.link && end.value.1.supersedes == node.supersedes && end.value.1.mu.Leaving?
      && SetAside(x, end.value.0, keep.ok)
  {
    var last := [any] + ([any] + ([keep] + []));
    UploadStarts(c, true, h, x, node, any, good, [answer] + last);
    var y, held := Decided(x, node).(pc := Uploading(Tried(x, node), x.version)), node.(mu := Held);
    Goes(c, true, h, y, held, answer, y.(pc := Failing(answer.permanent, true)), held, last);
    FailingIsSetAside(c, h, y.(pc := Failing(answer.permanent, true)), held, any, keep);
  }

  /** A temp file that cannot be read, or a queue left before its turn, counts as a failure a retry may fix. */
  lemma UnreadableRelease(c: Config, h: HandleId, x: Handle, node: Node, any: Luck, bad: Luck)
    requires Uploads(c, x, node) && !bad.ok
    ensures var end := Regions(c, false, h, x, node, [any] + ([any] + ([any] + ([bad] + ([any] + ([any] + ([any] + [])))))));
      && end.Some? && end.value.1 == node
      && end.value.0.pc.Waiting? && end.value.0.onDisk == x.onDisk && end.value.0.past.fails == x.past.fails + 1
      && end.value.0.past.sent == x.past.sent
      && end.value.0.buffer == x.buffer.(due := false).BackOff().Park(x.buffer.BackOff().retryIn) && end.value.0.inDelayed
  {
    var d, up := Decided(x, node), Tried(x, node);
    ReleaseDecides(c, false, h, x, node, any, [any] + ([bad] + ([any] + ([any] + ([any] + [])))));
    Goes(c, false, h, d, node, any, d.(pc := Trying(up)), node, [bad] + ([any] + ([any] + ([any] + []))));
    Goes(c, false, h, d.(pc := Trying(up)), node, bad, d.(pc := Failing(false, false)), node, [any] + ([any] + ([any] + [])));
    FailingParks(c, h, d.(pc := Failing(false, false)), node, any);
  }

  // ----- a buffer marked gone on the way -----

  /** Marked before its last check, once it has the lock: it is discarded, and the drive hears nothing of it. */
  lemma GoneAtTheLock(c: Config, closing: bool, h: HandleId, y: Handle, node: Node, any: Luck)
    requires y.pc.Walking? && y.pc.ahead.None? && y.buffer.gone && !y.buffer.failed && node.mu.Free?
    ensures var end := Regions(c, closing, h, y, node, [any] + ([any] + ([any] + [])));
      && end.Some?
      && LetLoose(h, y, node, end.value.0, end.value.1)
      && !end.value.0.onDisk && end.value.0.past == y.past
      && end.value.1.link == node.link && end.value.1.supersedes == node.supersedes && end.value.1.mu.Leaving?
  {
    Goes(c, closing, h, y, node, any, y.(pc := Discarding(true)), node.(mu := Held), [any] + ([any] + []));
    LockedDiscard(c, closing, h, y.(pc := Discarding(true)), node.(mu := Held), any);
  }

  lemma LockedDiscard(c: Config, closing: bool, h: HandleId, y: Handle, node: Node, any: Luck)
    requires y.pc == Discarding(true) && !y.buffer.failed
    ensures var end := Regions(c, closing, h, y, node, [any] + ([any] + []));
      && end.Some?
      && LetLoose(h, y, node, end.value.0, end.value.1)
      && !end.value.0.onDisk && end.value.0.past == y.past
      && end.value.1.link == node.link && end.value.1.supersedes == node.supersedes && end.value.1.mu.Leaving?
  {
    Goes(c, closing, h, y, node, any, y.(pc := Dropping(true)), node, [any] + []);
    var end := Detached(h, y.(pc := Dropping(true)), node, false, true);
    Goes(c, closing, h, y.(pc := Dropping(true)), node, any, end.0, end.1, []);
  }

  /** Marked while a refused upload ran: it is discarded too, and never tried again. */
  lemma GoneAndRefused(c: Config, closing: bool, h: HandleId, y: Handle, node: Node, any: Luck, answer: Luck)
    requires y.pc.Uploading? && y.buffer.gone && !y.buffer.failed && !answer.ok
    ensures var end := Regions(c, closing, h, y, node, [answer] + ([any] + ([any] + ([any] + []))));
      && end.Some?
      && LetLoose(h, y, node, end.value.0, end.value.1)
      && !end.value.0.onDisk && end.value.0.past == y.past
      && end.value.1.link == node.link && end.value.1.supersedes == node.supersedes && end.value.1.mu.Leaving?
  {
    Goes(c, closing, h, y, node, answer, y.(pc := Failing(answer.permanent, true)), node, [any] + ([any] + ([any] + [])));
    Goes(c, closing, h, y.(pc := Failing(answer.permanent, true)), node, any, y.(pc := Discarding(true)), node, [any] + ([any] + []));
    LockedDiscard(c, closing, h, y.(pc := Discarding(true)), node, any);
  }

  /**
   * Marked while an accepted upload ran: the file takes neither its link nor anything else of it, and a new
   * file it made is trashed when its link is known and the trash works; a revision is left alone.
   */
  lemma GoneAndAccepted(c: Config, closing: bool, h: HandleId, y: Handle, node: Node, any: Luck, answer: Luck, trash: Luck)
    requires y.pc.Uploading? && y.pc.version == y.version && y.buffer.gone && answer.ok && y.past.fate == NO_FATE
    ensures var end := Regions(c, closing, h, y, node, [answer] + ([any] + ([trash] + ([any] + []))));
      && end.Some?
      && LetLoose(h, y, node, end.value.0, end.value.1)
      && !end.value.0.onDisk
      && end.value.1.link == node.link && end.value.1.supersedes == node.supersedes && end.value.1.mu.Leaving?
      && end.value.0.past.landed == y.past.landed && !end.value.0.past.fate.claimed && !end.value.0.past.fate.patched
      && (end.value.0.past.fate.trashed <==> y.pc.up.existing.None? && answer.link.Some? && trash.ok)
  {
    var up := y.pc.up;
    var y1 := y.(pc := Uploaded(up, y.version, answer.link),
                 past := y.past.(sent := y.past.sent + {y.version}, fate := Made(y.past.fate, up, answer.link)));
    Goes(c, closing, h, y, node, answer, y1, node, [any] + ([trash] + ([any] + [])));
    Goes(c, closing, h, y1, node, any, y1.(pc := Lost(up, answer.link)), node, [trash] + ([any] + []));
    LostEnds(c, closing, h, y1.(pc := Lost(up, answer.link)), node, trash, any);
  }

  lemma LostEnds(c: Config, closing: bool, h: HandleId, y: Handle, node: Node, trash: Luck, any: Luck)
    requires y.pc.Lost?
    ensures var fate := Discarded(y.past.fate, y.pc.up, y.pc.link, trash.ok);
      Regions(c, closing, h, y, node, [trash] + ([any] + [])) ==
        Some(Detached(h, y.(pc := Dropping(true), past := y.past.(fate := fate)), node, false, true))
  {
    var y1 := y.(pc := Dropping(true), past := y.past.(fate := Discarded(y.past.fate, y.pc.up, y.pc.link, trash.ok)));
    Goes(c, closing, h, y, node, trash, y1, node, [any] + []);
    var end := Detached(h, y1, node, false, true);
    Goes(c, closing, h, y1, node, any, end.0, end.1, []);
  }

  /**
   * A claimed upload goes into the listing of the directory its file is in now exactly when its link was read
   * back, and the file was not renamed since its Release read the name, or the drive moves the upload there.
   */
  lemma ClaimedIsPatchedIff(c: Config, closing: bool, h: HandleId, y: Handle, node: Node, luck: Luck)
    requires y.pc.Claimed? && !y.past.fate.patched
    ensures var next := Advance(c, closing, h, y, node, luck);
      && next.Some? && next.value.1 == node
      && (next.value.0.past.fate.patched <==> y.pc.link.Some? && (node.name == y.pc.up.name || luck.ok))
      && next.value.0.past.fate.claimed == y.past.fate.claimed && next.value.0.past.landed == y.past.landed
  {
  }
}
