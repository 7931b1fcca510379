/**
 * Cached previews against removals: writeThumb writes a preview and then looks whether its file is
 * still listed, removeChild drops the entry and then forgets the preview. One directory that stays in
 * the tree under one path; any number of both run at once, one step per lock-protected region.
 */
module Previews {
  import opened Wrappers
  import opened Listings

  type CallId = nat

  /** How far one writeThumb or one removeChild is. */
  datatype Call =
    | Fetched(link: LinkId, name: Name)
    | Written(link: LinkId, name: Name)
    | Unlisted(name: Name)
    | Removing(name: Name)
    | Forgetting(name: Name)
    | Over

  /**
   * previews: the names with a preview in the cache. removed: the names whose last listing change
   * was a removeChild that left none of that name.
   */
  datatype State = State(children: Option<Listing>, previews: set<Name>, calls: map<CallId, Call>, removed: set<Name>)

  const START: State := State(None, {}, map[], {})

  datatype Action =
    | Job(id: CallId, link: LinkId, name: Name)
    | Remove(id: CallId, name: Name)
    | Go(id: CallId, ok: bool)
    | Add(e: Entry)
    | Reload(listing: Option<Listing>)

  function Names(children: Option<Listing>): set<Name> {
    match children
    case None => {}
    case Some(l) => set e | e in l :: e.name
  }

  /** stillListed: the entry with the job's link goes by the name it was queued with. */
  function StillListed(l: Listing, link: LinkId, name: Name): bool {
    if l == [] then false
    else if l[0].link == link then l[0].name == name
    else StillListed(l[1..], link, name)
  }

  /** The listing changed to children; what it lists now is no longer removed. */
  function Changed(s: State, children: Option<Listing>): State {
    s.(children := children, removed := s.removed - Names(children))
  }

  function Moved(s: State, id: CallId, x: Call): State {
    s.(calls := s.calls[id := x])
  }

  /** The next region of a call; ok is how a write turns out. */
  function GoStep(s: State, id: CallId, ok: bool): Option<State>
    requires id in s.calls
  {
    match s.calls[id]
    case Fetched(link, name) =>
      Some(if ok then Moved(s, id, Written(link, name)).(previews := s.previews + {name}) else Moved(s, id, Over))
    case Written(link, name) =>
      Some(Moved(s, id, if s.children.Some? && StillListed(s.children.value, link, name) then Over else Unlisted(name)))
    case Unlisted(name) => Some(Moved(s, id, Over).(previews := s.previews - {name}))
    case Removing(name) =>
      var children := if s.children.Some? then Some(Listings.Remove(s.children.value, name)) else None;
      var t := Changed(s, children);
      Some(Moved(t, id, Forgetting(name)).(removed := if name in Names(children) then t.removed else t.removed + {name}))
    case Forgetting(name) => Some(Moved(s, id, Over).(previews := s.previews - {name}))
    case Over => None
  }

  function Step(s: State, a: Action): Option<State> {
    match a
    case Job(id, link, name) => if id in s.calls then None else Some(Moved(s, id, Fetched(link, name)))
    case Remove(id, name) => if id in s.calls then None else Some(Moved(s, id, Removing(name)))
    case Go(id, ok) => if id in s.calls then GoStep(s, id, ok) else None
    case Add(e) => Some(Changed(s, Some(Upsert(if s.children.Some? then s.children.value else [], e))))
    case Reload(listing) => Some(Changed(s, listing))
  }

  function Run(s: State, run: seq<Action>): Option<State>
    decreases |run|
  {
    if run == [] then Some(s)
    else
      var s' := Step(s, run[0]);
      if s'.None? then None else Run(s'.value, run[1..])
  }

  /** The call still has to look at the preview of name, or to remove it. */
  predicate Pending(x: Call, name: Name) {
    || (x.Written? && x.name == name)
    || (x.Unlisted? && x.name == name)
    || (x.Forgetting? && x.name == name)
  }

  /** A preview of a removed name has a call that will still remove it. */
  ghost predicate Cleared(s: State, name: Name) {
    name in s.previews ==> exists id :: id in s.calls && Pending(s.calls[id], name)
  }

  ghost predicate Inv(s: State) {
    && s.removed !! Names(s.children)
    && forall name <- s.removed :: Cleared(s, name)
  }

  /** A removal from a listing with no duplicate names counts, and goes on counting until the name is listed again. */
  lemma RemovalCounts(s: State, a: Action)
    requires Step(s, a).Some?
    ensures var t := Step(s, a).value;
      && (forall name <- s.removed :: name in t.removed || name in Names(t.children))
      && (a.Go? && s.calls[a.id].Removing? && (s.children.Some? ==> Distinct(s.children.value)) ==> s.calls[a.id].name in t.removed)
  {
    if a.Go? && s.calls[a.id].Removing? && s.children.Some? && Distinct(s.children.value) {
      RemoveKeepsDistinct(s.children.value, s.calls[a.id].name);
    }
  }

  lemma {:induction false} ListedIsNamed(l: Listing, link: LinkId, name: Name)
    requires StillListed(l, link, name)
    ensures name in Names(Some(l))
  {
    if l[0].link != link {
      ListedIsNamed(l[1..], link, name);
      assert forall e <- l[1..] :: e in l;
    } else {
      assert l[0] in l;
    }
  }

  lemma GoKeepsInv(s: State, id: CallId, ok: bool)
    requires Inv(s) && id in s.calls && GoStep(s, id, ok).Some?
    ensures Inv(GoStep(s, id, ok).value)
  {
    var t := GoStep(s, id, ok).value;
    var x := s.calls[id];
    if x.Written? && t.calls[id].Over? {
      ListedIsNamed(s.children.value, x.link, x.name);
    }
    forall name | name in t.removed ensures Cleared(t, name) {
      if name in t.previews {
        if Pending(t.calls[id], name) {
        } else if name in s.removed {
          var other :| other in s.calls && Pending(s.calls[other], name);
          assert other != id;
          assert t.calls[other] == s.calls[other];
        }
      }
    }
  }

  lemma StepKeepsInv(s: State, a: Action)
    requires Inv(s) && Step(s, a).Some?
    ensures Inv(Step(s, a).value)
  {
    var t := Step(s, a).value;
    if a.Go? {
      GoKeepsInv(s, a.id, a.ok);
    } else {
      forall name | name in t.removed ensures Cleared(t, name) {
        if name in t.previews {
          var other :| other in s.calls && Pending(s.calls[other], name);
          assert t.calls[other] == s.calls[other];
        }
      }
    }
  }

  lemma {:induction false} RunKeepsInv(s: State, run: seq<Action>)
    requires Inv(s) && Run(s, run).Some?
    ensures Inv(Run(s, run).value)
    decreases |run|
  {
    if run != [] {
      StepKeepsInv(s, run[0]);
      RunKeepsInv(Step(s, run[0]).value, run[1..]);
    }
  }

  /**
   * However the jobs and the removals interleave, once all have returned no preview is left for a
   * name whose last listing change was a removal.
   */
  lemma NoPreviewOutlivesItsRemoval(run: seq<Action>, name: Name)
    requires Run(START, run).Some?
    requires forall id <- Run(START, run).value.calls :: Run(START, run).value.calls[id].Over?
    ensures name in Run(START, run).value.removed ==> name !in Run(START, run).value.previews
  {
    RunKeepsInv(START, run);
    var t := Run(START, run).value;
    assert name in t.removed ==> Cleared(t, name);
  }

  // ----- previews that stay -----

  /** In a listing without duplicates a job's file is still listed exactly when some entry has its link and its name. */
  lemma {:induction false} StillListedIff(l: Listing, link: LinkId, name: Name)
    requires Distinct(l)
    ensures StillListed(l, link, name) <==> exists e <- l :: e.link == link && e.name == name
  {
    if l != [] {
      assert Distinct(l[1..]) by {
        assert forall i :: 0 <= i < |l[1..]| ==> l[1..][i] == l[i + 1];
      }
      StillListedIff(l[1..], link, name);
      assert l == [l[0]] + l[1..];
      assert forall e <- l[1..] :: e.link != l[0].link;
    }
  }

  /** The file the job is for is listed, under the name it was queued with. */
  ghost predicate Lists(children: Option<Listing>, link: LinkId, name: Name) {
    children.Some? && exists e <- children.value :: e.link == link && e.name == name
  }

  lemma RunStarts(s: State, a: Action, t: State, rest: seq<Action>)
    requires Step(s, a) == Some(t)
    ensures Run(s, [a] + rest) == Run(t, rest)
  {
    assert ([a] + rest)[1..] == rest;
  }

  /**
   * A job that looks at the listing leaves its preview exactly when the file is still listed under that
   * name; otherwise its next region takes the preview back.
   */
  lemma PreviewStaysIffListed(s: State, id: CallId, ok: bool)
    requires id in s.calls && s.calls[id].Written?
    requires s.children.Some? ==> Distinct(s.children.value)
    ensures Step(s, Go(id, ok)).Some?
    ensures var t, x := Step(s, Go(id, ok)).value, s.calls[id];
      if Lists(s.children, x.link, x.name) then t == s.(calls := s.calls[id := Over])
      else Run(s, [Go(id, ok)] + ([Go(id, ok)] + [])) == Some(s.(calls := s.calls[id := Over], previews := s.previews - {x.name}))
  {
    var a, x := Go(id, ok), s.calls[id];
    var t := Step(s, a).value;
    if s.children.Some? {
      StillListedIff(s.children.value, x.link, x.name);
    }
    if !Lists(s.children, x.link, x.name) {
      assert t == s.(calls := s.calls[id := Unlisted(x.name)]);
      var u := s.(calls := s.calls[id := Over], previews := s.previews - {x.name});
      assert t.calls[id := Over] == u.calls;
      assert Step(t, a) == Some(u);
      assert Run(u, []) == Some(u);
      RunStarts(s, a, t, [a] + []);
      RunStarts(t, a, u, []);
    }
  }

  lemma {:induction false} RemovesOne(l: Listing, name: Name)
    ensures |Listings.Remove(l, name)| == |l| - if name in Names(Some(l)) then 1 else 0
  {
    if l != [] {
      assert l == [l[0]] + l[1..];
      assert Names(Some(l)) == {l[0].name} + Names(Some(l[1..]));
      if l[0].name != name { RemovesOne(l[1..], name); }
    }
  }

  /** An entry put in is listed from then on, and no entry of another link and name comes or goes with it. */
  lemma AddListsTheEntry(s: State, e: Entry, other: Entry)
    ensures Step(s, Add(e)).Some?
    ensures var t := Step(s, Add(e)).value;
      && t.children.Some? && e in t.children.value && t.previews == s.previews && t.calls == s.calls
      && (!Matches(other, e) ==> (other in t.children.value <==> s.children.Some? && other in s.children.value))
  {
    UpsertContents(if s.children.Some? then s.children.value else [], e, other);
  }

  /** A removal takes nothing but an entry of its name off the listing, one when it lists the name, and touches no preview. */
  lemma RemovalTakesItsName(s: State, id: CallId, ok: bool, other: Entry)
    requires id in s.calls && s.calls[id].Removing?
    ensures Step(s, Go(id, ok)).Some?
    ensures var t, name := Step(s, Go(id, ok)).value, s.calls[id].name;
      && t.previews == s.previews && (t.children.Some? <==> s.children.Some?)
      && (other.name != name && s.children.Some? ==> (other in t.children.value <==> other in s.children.value))
      && (s.children.Some? ==> |t.children.value| == |s.children.value| - if name in Names(s.children) then 1 else 0)
  {
    if s.children.Some? {
      RemoveContents(s.children.value, s.calls[id].name, other);
      RemovesOne(s.children.value, s.calls[id].name);
    }
  }

  /** A preview whose write works is there for the job to look at, and one that fails changes none. */
  lemma WriteMakesThePreview(s: State, id: CallId, ok: bool)
    requires id in s.calls && s.calls[id].Fetched?
    ensures Step(s, Go(id, ok)).Some?
    ensures var t, x := Step(s, Go(id, ok)).value, s.calls[id];
      && t.children == s.children && id in t.calls
      && (if ok then t.previews == s.previews + {x.name} && t.calls[id] == Written(x.link, x.name)
          else t.previews == s.previews && t.calls[id] == Over)
  {
  }

  /** A preview goes only by a removal of its name, or by a job that found its own file no longer listed. */
  lemma PreviewGoesOnlyBy(s: State, a: Action, name: Name)
    requires Step(s, a).Some? && name in s.previews && name !in Step(s, a).value.previews
    ensures a.Go? && (s.calls[a.id] == Unlisted(name) || s.calls[a.id] == Forgetting(name))
  {
  }
}
