/** The invariant of the whole mount, and that every step of every run keeps it. */
module SaveRuns {
  import opened Wrappers
  import opened Buffers
  import opened SaveProtocol
  import opened SaveInvariants

  /** b left the tree, and before the moment limit when there is one. */
  predicate Older(s: State, b: NodeId, limit: Option<nat>) {
    && b in s.nodes
    && s.nodes[b].leftAt.Some?
    && (limit.Some? ==> s.nodes[b].leftAt.value < limit.value)
  }

  /** Each node's handle belongs to it, and every edge to a file a rename replaced goes back in time. */
  predicate NodeOk(s: State, n: NodeId)
    requires n in s.nodes
  {
    var node := s.nodes[n];
    && (node.handle.Some? ==> node.handle.value in s.handles && s.handles[node.handle.value].node == n)
    && (node.handle.None? ==> !node.mu.Held?)
    && (node.leftAt.Some? ==> node.leftAt.value < s.clock)
    && (node.supersedes.Some? ==> Older(s, node.supersedes.value, node.leftAt))
  }

  /** b is out of the tree, and its buffer, when it still has one, is gone and not being sent. */
  predicate Quiet(s: State, b: NodeId) {
    && b in s.nodes
    && s.nodes[b].leftAt.Some?
    && Marked(s, b)
    && (s.nodes[b].handle.Some? ==> !Sending(s.handles[s.nodes[b].handle.value].pc))
  }

  /** What a Release has walked past: out of the tree, later than what lies ahead, and quiet unless early. */
  ghost predicate Behind(s: State, pc: Pc, b: NodeId) {
    && AttemptOf(pc).Some?
    && b in s.nodes
    && s.nodes[b].leftAt.Some?
    && (b in AttemptOf(pc).value.early || Quiet(s, b))
    && (pc.Walking? && pc.ahead.Some? ==> Older(s, pc.ahead.value, s.nodes[b].leftAt))
  }

  ghost predicate Walked(s: State, pc: Pc) {
    && (AttemptOf(pc).Some? ==> forall b <- AttemptOf(pc).value.walked :: Behind(s, pc, b))
    && (pc.Trying? ==> pc.up.walked == {})
    && (pc.Walking? && pc.ahead.Some? ==> Older(s, pc.ahead.value, None))
  }

  ghost predicate HandlesOk(s: State) {
    forall h <- s.handles :: s.handles[h].node in s.nodes && HandleOk(h, s.handles[h], s.nodes[s.handles[h].node])
  }

  ghost predicate NodesOk(s: State) {
    forall n <- s.nodes :: NodeOk(s, n)
  }

  ghost predicate WalksOk(s: State) {
    forall h <- s.handles :: Walked(s, s.handles[h].pc)
  }

  ghost predicate Inv(s: State) {
    HandlesOk(s) && NodesOk(s) && WalksOk(s)
  }

  // ----- steps that change one handle, and perhaps its own node -----

  function Changed(s: State, h: HandleId, x': Handle, node': Node): State
    requires h in s.handles
  {
    Put(s, h, x').(nodes := s.nodes[s.handles[h].node := node'])
  }

  ghost predicate Change(s: State, h: HandleId, x': Handle, node': Node) {
    && Has(s, h)
    && var x := s.handles[h];
    && var node := s.nodes[x.node];
    && HandleOk(h, x', node')
    && Frame(x, node, x', node')
    && (Live(x.pc) || node' == node)
  }

  lemma ChangeKeepsHandles(s: State, h: HandleId, x': Handle, node': Node)
    requires Inv(s) && Change(s, h, x', node')
    ensures HandlesOk(Changed(s, h, x', node'))
  {
    var t := Changed(s, h, x', node');
    var x := s.handles[h];
    forall g | g in t.handles
      ensures t.handles[g].node in t.nodes && HandleOk(g, t.handles[g], t.nodes[t.handles[g].node])
    {
      if g != h && s.handles[g].node == x.node && Live(x.pc) {
        OverKeeps(g, s.handles[g], s.nodes[x.node], node');
      }
    }
  }

  lemma ChangeKeepsNodes(s: State, h: HandleId, x': Handle, node': Node)
    requires Inv(s) && Change(s, h, x', node')
    ensures NodesOk(Changed(s, h, x', node'))
  {
    var t := Changed(s, h, x', node');
    forall n | n in t.nodes ensures NodeOk(t, n) {
      assert NodeOk(s, n);
    }
  }

  lemma ChangeKeepsQuiet(s: State, h: HandleId, x': Handle, node': Node, b: NodeId)
    requires Inv(s) && Change(s, h, x', node')
    requires Quiet(s, b)
    ensures Quiet(Changed(s, h, x', node'), b)
  {
    assert NodeOk(s, b);
  }

  /** What left the tree stays there, at the same time, and what was quiet stays quiet. */
  ghost predicate Later(s: State, t: State) {
    && (forall h <- s.handles :: h in t.handles && Onward(s.handles[h], t.handles[h]))
    && LaterNodes(s, t)
  }

  ghost predicate LaterNodes(s: State, t: State) {
    forall b <- s.nodes | s.nodes[b].leftAt.Some? ::
      b in t.nodes && t.nodes[b].leftAt == s.nodes[b].leftAt && (Quiet(s, b) ==> Quiet(t, b))
  }

  /** What one step leaves: Later, and no temp file of a failed buffer lost. */
  ghost predicate Follows(s: State, t: State) {
    Later(s, t) && forall h <- s.handles :: Spared(s.handles[h], t.handles[h])
  }

  lemma LaterKeepsWalked(s: State, t: State, pc: Pc)
    requires LaterNodes(s, t) && Walked(s, pc)
    ensures Walked(t, pc)
  {
    if AttemptOf(pc).Some? {
      forall b | b in AttemptOf(pc).value.walked ensures Behind(t, pc, b) {
        assert Behind(s, pc, b);
      }
    }
  }

  lemma ChangeIsFollowed(s: State, h: HandleId, x': Handle, node': Node)
    requires Inv(s) && Change(s, h, x', node')
    ensures Follows(s, Changed(s, h, x', node'))
  {
    forall b | b in s.nodes && Quiet(s, b) ensures Quiet(Changed(s, h, x', node'), b) {
      ChangeKeepsQuiet(s, h, x', node', b);
    }
  }

  lemma ChangeKeepsWalks(s: State, h: HandleId, x': Handle, node': Node)
    requires Inv(s) && Change(s, h, x', node')
    ensures WalksOk(Changed(s, h, x', node'))
  {
    var t := Changed(s, h, x', node');
    ChangeIsFollowed(s, h, x', node');
    forall g | g in t.handles ensures Walked(t, t.handles[g].pc) {
      assert Walked(s, s.handles[g].pc);
      LaterKeepsWalked(s, t, s.handles[g].pc);
    }
  }

  lemma ChangeKeepsInv(s: State, h: HandleId, x': Handle, node': Node)
    requires Inv(s) && Change(s, h, x', node')
    ensures Inv(Changed(s, h, x', node')) && Follows(s, Changed(s, h, x', node'))
  {
    ChangeIsFollowed(s, h, x', node');
    ChangeKeepsHandles(s, h, x', node');
    ChangeKeepsNodes(s, h, x', node');
    ChangeKeepsWalks(s, h, x', node');
  }

  lemma GoKeepsInv(c: Config, s: State, h: HandleId, luck: Luck)
    requires Inv(s) && GoStep(c, s, h, luck).Some?
    ensures Inv(GoStep(c, s, h, luck).value) && Follows(s, GoStep(c, s, h, luck).value)
  {
    var x := s.handles[h];
    var node := s.nodes[x.node];
    AdvanceKeeps(c, s.closing, h, x, node, luck);
    var next := Advance(c, s.closing, h, x, node, luck).value;
    OnlyLiveGo(c, s.closing, h, x, node, luck);
    ChangeKeepsInv(s, h, next.0, next.1);
    GoIsChange(c, s, h, luck);
  }

  lemma OnlyLiveGo(c: Config, closing: bool, h: HandleId, x: Handle, node: Node, luck: Luck)
    requires Advance(c, closing, h, x, node, luck).Some?
    ensures Live(x.pc)
  {
  }

  lemma GoIsChange(c: Config, s: State, h: HandleId, luck: Luck)
    requires GoStep(c, s, h, luck).Some?
    ensures var next := Advance(c, s.closing, h, s.handles[h], s.nodes[s.handles[h].node], luck).value;
      GoStep(c, s, h, luck).value == Changed(s, h, next.0, next.1)
  {
  }

  lemma HandleStepKeepsInv(s: State, h: HandleId, a: Action)
    requires Inv(s) && Has(s, h)
    requires HandleStep(s.closing, h, s.handles[h], s.nodes[s.handles[h].node], a).Some?
    ensures var t := Put(s, h, HandleStep(s.closing, h, s.handles[h], s.nodes[s.handles[h].node], a).value);
            Inv(t) && Follows(s, t)
  {
    var x := s.handles[h];
    var node := s.nodes[x.node];
    HandleStepKeeps(s.closing, h, x, node, a);
    HandleChangeKeepsInv(s, h, HandleStep(s.closing, h, x, node, a).value);
  }

  lemma HandleChangeKeepsInv(s: State, h: HandleId, x': Handle)
    requires Has(s, h) && Inv(s) && Change(s, h, x', s.nodes[s.handles[h].node])
    ensures Inv(Put(s, h, x')) && Follows(s, Put(s, h, x'))
  {
    ChangeKeepsInv(s, h, x', s.nodes[s.handles[h].node]);
    PutIsChange(s, h, x');
  }

  lemma PutIsChange(s: State, h: HandleId, x': Handle)
    requires Has(s, h)
    ensures Put(s, h, x') == Changed(s, h, x', s.nodes[s.handles[h].node])
  {
  }

  lemma WalkStepKeepsQuiet(s: State, h: HandleId, b: NodeId)
    requires WalkStep(s, h).Some? && Quiet(s, b)
    ensures Quiet(Put(s, h, WalkStep(s, h).value), b)
  {
  }

  lemma WalkStepIsFollowed(s: State, h: HandleId)
    requires WalkStep(s, h).Some?
    ensures Follows(s, Put(s, h, WalkStep(s, h).value))
  {
    var t := Put(s, h, WalkStep(s, h).value);
    forall b | b in s.nodes && Quiet(s, b) ensures Quiet(t, b) {
      WalkStepKeepsQuiet(s, h, b);
    }
  }

  /** A marked file whose uploadMu is free is not being uploaded. */
  lemma FreeIsQuiet(s: State, b: NodeId)
    requires HandlesOk(s) && NodesOk(s) && b in s.nodes
    requires s.nodes[b].mu.Free? && s.nodes[b].leftAt.Some? && Marked(s, b)
    ensures Quiet(s, b)
  {
    assert NodeOk(s, b);
    if s.nodes[b].handle.Some? {
      var g := s.nodes[b].handle.value;
      assert Shape(g, s.handles[g], s.nodes[b]);
    }
  }

  lemma PassedIsBehind(s: State, h: HandleId)
    requires Inv(s) && WalkStep(s, h).Some?
    ensures var pc := WalkStep(s, h).value.pc;
      && Behind(s, pc, s.handles[h].pc.ahead.value)
      && (pc.ahead.Some? ==> Older(s, pc.ahead.value, s.nodes[s.handles[h].pc.ahead.value].leftAt))
  {
    var b := s.handles[h].pc.ahead.value;
    assert NodeOk(s, b);
    assert Walked(s, s.handles[h].pc);
    if Marked(s, b) {
      FreeIsQuiet(s, b);
    }
  }

  lemma StaysBehind(s: State, was: Pc, pc: Pc, b: NodeId, w: NodeId)
    requires was.Walking? && was.ahead == Some(b) && Behind(s, was, w) && Older(s, b, None)
    requires pc.Walking? && (w in was.up.early ==> w in pc.up.early)
    requires pc.ahead.Some? ==> Older(s, pc.ahead.value, s.nodes[b].leftAt)
    ensures Behind(s, pc, w)
  {
  }

  /** The file just walked past is quiet, unless its mark is still to come, and the next one is older. */
  lemma WalkStepGoesOn(s: State, h: HandleId)
    requires Inv(s) && WalkStep(s, h).Some?
    ensures Walked(s, WalkStep(s, h).value.pc)
  {
    var was, pc := s.handles[h].pc, WalkStep(s, h).value.pc;
    var b := was.ahead.value;
    assert Walked(s, was);
    PassedIsBehind(s, h);
    forall w | w in pc.up.walked ensures Behind(s, pc, w) {
      if w != b {
        StaysBehind(s, was, pc, b, w);
      }
    }
  }

  lemma WalkStepKeepsHandle(s: State, h: HandleId)
    requires HandlesOk(s) && WalkStep(s, h).Some?
    ensures HandleOk(h, WalkStep(s, h).value, s.nodes[s.handles[h].node])
  {
  }

  lemma WalkKeepsInv(s: State, h: HandleId)
    requires Inv(s) && WalkStep(s, h).Some?
    ensures Inv(Put(s, h, WalkStep(s, h).value))
  {
    var x' := WalkStep(s, h).value;
    var t := Put(s, h, x');
    WalkStepKeepsHandle(s, h);
    forall n | n in t.nodes ensures NodeOk(t, n) {
      assert NodeOk(s, n);
    }
    WalkStepIsFollowed(s, h);
    WalkStepGoesOn(s, h);
    forall g | g in t.handles ensures Walked(t, t.handles[g].pc) {
      if g != h { assert Walked(s, s.handles[g].pc); }
      LaterKeepsWalked(s, t, t.handles[g].pc);
    }
  }

  ghost predicate Relabel(s: State, n: NodeId, node': Node) {
    && n in s.nodes
    && node'.handle == s.nodes[n].handle
    && node'.leftAt == s.nodes[n].leftAt
    && (node'.supersedes.Some? ==> Older(s, node'.supersedes.value, node'.leftAt))
    && (node'.mu.Held? <==> s.nodes[n].mu.Held?)
  }

  lemma RelabelKeepsWalks(s: State, n: NodeId, node': Node)
    requires NodesOk(s) && WalksOk(s) && Relabel(s, n, node')
    ensures var t := s.(nodes := s.nodes[n := node']); NodesOk(t) && WalksOk(t) && Follows(s, t)
  {
    var t := s.(nodes := s.nodes[n := node']);
    forall m | m in t.nodes ensures NodeOk(t, m) {
      assert NodeOk(s, m);
    }
    forall g | g in t.handles ensures Walked(t, t.handles[g].pc) {
      assert Walked(s, s.handles[g].pc);
      LaterKeepsWalked(s, t, t.handles[g].pc);
    }
  }

  /** A node that keeps its handle and its place in time may change its link, name, lock or edge. */
  lemma RelabelKeepsInv(s: State, n: NodeId, node': Node)
    requires Inv(s) && Relabel(s, n, node')
    ensures var t := s.(nodes := s.nodes[n := node']); Inv(t) && Follows(s, t)
  {
    var t := s.(nodes := s.nodes[n := node']);
    RelabelKeepsWalks(s, n, node');
    forall g | g in t.handles ensures t.handles[g].node in t.nodes && HandleOk(g, t.handles[g], t.nodes[t.handles[g].node]) {
      if s.handles[g].node == n { RelabelKeeps(g, s.handles[g], s.nodes[n], node'); }
    }
  }

  // ----- new files and new handles -----

  /** t is s with node n, new or without a handle, now node', and with a fresh handle h on it if any. */
  ghost predicate Grown(s: State, t: State, n: NodeId, h: Option<HandleId>, node': Node) {
    && (n in s.nodes ==> node' == s.nodes[n].(handle := h) && s.nodes[n].handle.None? && s.nodes[n].leftAt.None?)
    && (n !in s.nodes ==> node'.handle == h && node'.supersedes.None? && node'.leftAt.None? && node'.mu.Free?)
    && t.nodes == s.nodes[n := node']
    && t.closing == s.closing
    && t.clock == s.clock
    && (h.None? ==> t.handles == s.handles)
    && (h.Some? ==> h.value !in s.handles && exists dirty :: t.handles == s.handles[h.value := Fresh(n, dirty)])
  }

  lemma FreshIsOk(h: HandleId, n: NodeId, dirty: bool, node: Node)
    requires node.handle == Some(h) && node.leftAt.None? && !node.mu.Held?
    ensures HandleOk(h, Fresh(n, dirty), node)
  {
  }

  lemma GrownKeepsHandles(s: State, t: State, n: NodeId, h: Option<HandleId>, node': Node)
    requires HandlesOk(s) && NodesOk(s) && Grown(s, t, n, h, node')
    ensures HandlesOk(t)
  {
    forall g | g in t.handles ensures t.handles[g].node in t.nodes && HandleOk(g, t.handles[g], t.nodes[t.handles[g].node]) {
      if h == Some(g) {
        var dirty :| t.handles == s.handles[g := Fresh(n, dirty)];
        assert n in s.nodes ==> NodeOk(s, n);
        FreshIsOk(g, n, dirty, node');
      } else if s.handles[g].node == n {
        OverKeeps(g, s.handles[g], s.nodes[n], node');
      }
    }
  }

  lemma GrownKeepsNodes(s: State, t: State, n: NodeId, h: Option<HandleId>, node': Node)
    requires NodesOk(s) && Grown(s, t, n, h, node')
    ensures NodesOk(t)
  {
    forall m | m in t.nodes ensures NodeOk(t, m) {
      assert m in s.nodes ==> NodeOk(s, m);
    }
  }

  lemma GrownIsFollowed(s: State, t: State, n: NodeId, h: Option<HandleId>, node': Node)
    requires NodesOk(s) && Grown(s, t, n, h, node')
    ensures Follows(s, t)
  {
    forall b | b in s.nodes && Quiet(s, b) ensures Quiet(t, b) {
      assert NodeOk(s, b);
    }
  }

  lemma GrownKeepsInv(s: State, t: State, n: NodeId, h: Option<HandleId>, node': Node)
    requires Inv(s) && Grown(s, t, n, h, node')
    ensures Inv(t) && Follows(s, t)
  {
    GrownKeepsHandles(s, t, n, h, node');
    GrownKeepsNodes(s, t, n, h, node');
    GrownIsFollowed(s, t, n, h, node');
    forall g | g in t.handles ensures Walked(t, t.handles[g].pc) {
      if g in s.handles {
        assert Walked(s, s.handles[g].pc);
        LaterKeepsWalked(s, t, t.handles[g].pc);
      }
    }
  }

  // ----- a rename over a file -----

  lemma LeftTreeKeepsHandles(s: State, dst: NodeId)
    requires Inv(s) && dst in s.nodes && s.nodes[dst].leftAt.None?
    ensures HandlesOk(LeftTree(s, dst))
  {
    var t := LeftTree(s, dst);
    forall g | g in t.handles ensures t.handles[g].node in t.nodes && HandleOk(g, t.handles[g], t.nodes[t.handles[g].node]) {
      LeftTreeKeepsHandle(s, dst, g);
    }
  }

  lemma LeftTreeKeepsHandle(s: State, dst: NodeId, g: HandleId)
    requires HandlesOk(s) && dst in s.nodes && NodeOk(s, dst) && s.nodes[dst].leftAt.None? && g in s.handles
    ensures var t := LeftTree(s, dst);
      g in t.handles && t.handles[g].node in t.nodes && HandleOk(g, t.handles[g], t.nodes[t.handles[g].node])
  {
    if s.handles[g].node == dst {
      LeavingKeeps(g, s.handles[g], s.nodes[dst], LeftTree(s, dst).nodes[dst]);
    }
  }

  lemma LeftTreeKeepsNodes(s: State, dst: NodeId)
    requires NodesOk(s) && dst in s.nodes && s.nodes[dst].leftAt.None?
    ensures NodesOk(LeftTree(s, dst))
  {
    var t := LeftTree(s, dst);
    forall m | m in t.nodes ensures NodeOk(t, m) {
      assert NodeOk(s, m);
    }
  }

  lemma LeftTreeKeepsWalks(s: State, dst: NodeId)
    requires NodesOk(s) && WalksOk(s) && dst in s.nodes && s.nodes[dst].leftAt.None?
    ensures Follows(s, LeftTree(s, dst)) && WalksOk(LeftTree(s, dst))
  {
    var t := LeftTree(s, dst);
    assert LaterNodes(s, t);
    forall g | g in t.handles ensures Walked(t, t.handles[g].pc) {
      assert Walked(s, s.handles[g].pc);
      LaterKeepsWalked(s, t, t.handles[g].pc);
    }
  }

  lemma ReplaceLinkKeepsInv(s: State, src: Option<NodeId>, dst: NodeId)
    requires Inv(s) && NodeStep(s, ReplaceLink(src, dst)).Some?
    ensures var t := NodeStep(s, ReplaceLink(src, dst)).value; Inv(t) && Follows(s, t)
  {
    LeftTreeKeepsHandles(s, dst);
    LeftTreeKeepsNodes(s, dst);
    LeftTreeKeepsWalks(s, dst);
    var u := LeftTree(s, dst);
    if src.Some? {
      RelabelKeepsInv(u, src.value, u.nodes[src.value].(supersedes := Some(dst)));
    }
  }

  lemma NodeStepKeepsInv(s: State, a: Action)
    requires Inv(s) && NodeStep(s, a).Some?
    ensures Inv(NodeStep(s, a).value) && Follows(s, NodeStep(s, a).value)
  {
    match a
    case Mount(n, id, name) => GrownKeepsInv(s, NodeStep(s, a).value, n, None, Node(Some(id), name, None, None, None, Free));
    case Create(n, h, name) => GrownKeepsInv(s, NodeStep(s, a).value, n, Some(h), Node(None, name, Some(h), None, None, Free));
    case OpenNew(n, h) => GrownKeepsInv(s, NodeStep(s, a).value, n, Some(h), s.nodes[n].(handle := Some(h)));
    case Retarget(n, link, name) =>
      assert NodeOk(s, n);
      RelabelKeepsInv(s, n, s.nodes[n].(link := link, name := name));
    case ReplaceLink(src, dst) => ReplaceLinkKeepsInv(s, src, dst);
    case Unlock(n) =>
      assert NodeOk(s, n);
      RelabelKeepsInv(s, n, s.nodes[n].(mu := Free));
    case StartClosing => ClosingKeepsInv(s);
    case _ =>
  }

  lemma ClosingKeepsInv(s: State)
    requires Inv(s)
    ensures var t := s.(closing := true); Inv(t) && Follows(s, t)
  {
    var t := s.(closing := true);
    forall m | m in t.nodes ensures NodeOk(t, m) {
      assert NodeOk(s, m);
    }
    forall g | g in t.handles ensures Walked(t, t.handles[g].pc) {
      assert Walked(s, s.handles[g].pc);
      LaterKeepsWalked(s, t, t.handles[g].pc);
    }
  }

  /** Every step keeps the invariant, and leaves what left the tree and what was quiet as it was. */
  lemma StepKeepsInv(c: Config, s: State, a: Action)
    requires Inv(s) && Step(c, s, a).Some?
    ensures Inv(Step(c, s, a).value) && Follows(s, Step(c, s, a).value)
  {
    match a
    case Go(h, luck) => GoKeepsInv(c, s, h, luck);
    case Walk(h) =>
      WalkKeepsInv(s, h);
      WalkStepIsFollowed(s, h);
    case Mount(_, _, _) | Create(_, _, _) | OpenNew(_, _) | Retarget(_, _, _) | ReplaceLink(_, _) | Unlock(_) | StartClosing =>
      NodeStepKeepsInv(s, a);
    case _ => HandleStepKeepsInv(s, a.h, a);
  }

  lemma EmptyIsInv()
    ensures Inv(EMPTY)
  {
  }

  lemma {:induction false} RunKeepsInv(c: Config, s: State, run: seq<Action>)
    requires Inv(s) && Run(c, s, run).Some?
    ensures Inv(Run(c, s, run).value) && Later(s, Run(c, s, run).value)
    decreases |run|
  {
    if run != [] {
      var u := Step(c, s, run[0]).value;
      StepKeepsInv(c, s, run[0]);
      RunKeepsInv(c, u, run[1..]);
    }
  }
}
