/**
 * The cache's size count when writes and evictions interleave. Put keeps its stat, rename and count
 * under one lock; PutListing does the first two outside it, and evict subtracts the sizes its walk
 * saw. An eviction may run at any moment. Which schedules keep the size the total of the files, and two
 * that do not.
 */
module DiskCacheRaces {
  import opened Wrappers
  import opened Blocks
  import opened Sums
  import opened DiskCache

  type WriterId = nat

  /** How far one PutListing is: statSize is what its stat saw, delta what it has still to add to the size. */
  datatype Writer = Statted(link: LinkId, data: Bytes, statSize: nat) | Renamed(delta: int) | Over

  /** walk: the sizes a running evict saw, for the files it has not come to yet; it holds the lock. */
  datatype State = State(files: Files, size: int, writers: map<WriterId, Writer>, walk: Option<map<Path, nat>>)

  datatype Action =
    | PutBlock(p: Path, data: Bytes, now: int)
    | Stat(w: WriterId, link: LinkId, data: Bytes)
    | Rename(w: WriterId, now: int)
    | RenameFails(w: WriterId)
    | Count(w: WriterId)
    | WalkFiles
    | Remove(p: Path)
    | EndEvict

  function SizeOf(files: Files, p: Path): nat {
    if p in files && !p.Temp? then |files[p].data| else 0
  }

  function Step(s: State, a: Action): Option<State> {
    match a
    case PutBlock(p, data, now) =>
      if !p.Block? || s.walk.Some? then None
      else Some(s.(files := s.files[p := Entry(data, now)], size := s.size + |data| - SizeOf(s.files, p)))
    case Stat(w, link, data) =>
      if w in s.writers then None
      else Some(s.(writers := s.writers[w := Statted(link, data, SizeOf(s.files, Listing(link)))]))
    case Rename(w, now) =>
      if w !in s.writers || !s.writers[w].Statted? then None
      else
        var x := s.writers[w];
        Some(s.(files := s.files[Listing(x.link) := Entry(x.data, now)],
                writers := s.writers[w := Renamed(|x.data| - x.statSize)]))
    case RenameFails(w) =>
      if w !in s.writers || !s.writers[w].Statted? then None else Some(s.(writers := s.writers[w := Over]))
    case Count(w) =>
      if w !in s.writers || !s.writers[w].Renamed? || s.walk.Some? then None
      else Some(s.(size := s.size + s.writers[w].delta, writers := s.writers[w := Over]))
    case WalkFiles =>
      if s.walk.Some? then None
      else Some(s.(walk := Some(map p | p in s.files && !p.Temp? :: |s.files[p].data|)))
    case Remove(p) =>
      if s.walk.None? || p !in s.walk.value || p !in s.files || p.Temp? then None
      else
        Some(s.(files := s.files - {p}, size := s.size - s.walk.value[p], walk := Some(s.walk.value - {p})))
    case EndEvict => if s.walk.None? then None else Some(s.(walk := None))
  }

  function Run(s: State, run: seq<Action>): Option<State>
    decreases |run|
  {
    if run == [] then Some(s)
    else
      var s' := Step(s, run[0]);
      if s'.None? then None else Run(s'.value, run[1..])
  }

  const EMPTY: State := State(map[], 0, map[], None)

  /** A cache just opened on the files found: its size is their total, nobody writes, nothing is evicted. */
  ghost function Opened(files: Files): State {
    State(files, Total(files), map[], None)
  }

  // ----- when the count is right -----

  /** What a writer has renamed into place and not added to the size yet. */
  function Owed(w: WriterId, x: Writer): int {
    if x.Renamed? then x.delta else 0
  }

  /** The size, with what is still to be added to it, is the total of the files. */
  ghost predicate Balanced(s: State) {
    s.size + SumOf(s.writers, Owed) == Total(s.files)
  }

  /** With no listing write half way, a balanced cache's size is the total. */
  lemma BalancedIsTotal(s: State)
    requires forall w <- s.writers :: !s.writers[w].Renamed?
    ensures Balanced(s) <==> s.size == Total(s.files)
  {
    SumIsZero(s.writers, Owed);
  }

  /** A listing write keeps a balanced cache balanced exactly when the file it replaces is as long as its stat saw. */
  lemma RenameCountsRightIff(s: State, w: WriterId, now: int)
    requires Balanced(s) && Step(s, Rename(w, now)).Some?
    ensures Balanced(Step(s, Rename(w, now)).value) <==> SizeOf(s.files, Listing(s.writers[w].link)) == s.writers[w].statSize
  {
    var x := s.writers[w];
    SumWith(s.files, Weight, Listing(x.link), Entry(x.data, now));
    SumWith(s.writers, Owed, w, Renamed(|x.data| - x.statSize));
  }

  /** An eviction does exactly when the file it removes is as long as its walk saw. */
  lemma RemoveCountsRightIff(s: State, p: Path)
    requires Balanced(s) && Step(s, Action.Remove(p)).Some?
    ensures Balanced(Step(s, Action.Remove(p)).value) <==> SizeOf(s.files, p) == s.walk.value[p]
  {
    SumWithout(s.files, Weight, p);
  }

  /** Every other step does always, and no other but a block write touches a file: its own, which it leaves with its bytes. */
  lemma OtherStepsCountRight(s: State, a: Action)
    requires Balanced(s) && Step(s, a).Some? && !a.Rename? && !a.Remove?
    ensures Balanced(Step(s, a).value)
    ensures Step(s, a).value.files == if a.PutBlock? then s.files[a.p := Entry(a.data, a.now)] else s.files
  {
    match a
    case PutBlock(p, data, now) => SumWith(s.files, Weight, p, Entry(data, now));
    case Stat(w, link, data) => SumWith(s.writers, Owed, w, Statted(link, data, SizeOf(s.files, Listing(link))));
    case Count(w) => SumWith(s.writers, Owed, w, Over);
    case RenameFails(w) => SumWith(s.writers, Owed, w, Over);
    case WalkFiles =>
    case EndEvict =>
  }

  // ----- schedules that count right -----

  /** Some other listing write has seen the size of link's file and not renamed yet. */
  ghost predicate Watched(s: State, link: LinkId, w: WriterId) {
    exists v <- s.writers :: v != w && s.writers[v].Statted? && s.writers[v].link == link
  }

  /**
   * The step comes between nobody's look at a file and what they do about it: it renames no listing
   * that another write has statted or a running evict still has to come to, and removes none that a
   * write has statted.
   */
  ghost predicate Calm(s: State, a: Action) {
    match a
    case Rename(w, _) =>
      w in s.writers && s.writers[w].Statted? ==>
        && !Watched(s, s.writers[w].link, w)
        && (s.walk.Some? ==> Listing(s.writers[w].link) !in s.walk.value)
    case Remove(p) => p.Listing? ==> forall v <- s.writers :: s.writers[v].Statted? ==> s.writers[v].link != p.link
    case _ => true
  }

  ghost predicate CalmRun(s: State, run: seq<Action>)
    requires Run(s, run).Some?
    decreases |run|
  {
    run != [] ==> Calm(s, run[0]) && CalmRun(Step(s, run[0]).value, run[1..])
  }

  /** Every size looked at is still right. */
  ghost predicate Seen(s: State) {
    && (forall w <- s.writers :: s.writers[w].Statted? ==> s.writers[w].statSize == SizeOf(s.files, Listing(s.writers[w].link)))
    && (s.walk.Some? ==> forall p <- s.walk.value :: s.walk.value[p] == SizeOf(s.files, p))
  }

  lemma CalmStepKeepsSeen(s: State, a: Action)
    requires Seen(s) && Calm(s, a) && Step(s, a).Some?
    ensures Seen(Step(s, a).value)
  {
    var t := Step(s, a).value;
    match a
    case Rename(w, now) =>
      forall v | v in t.writers && t.writers[v].Statted?
        ensures t.writers[v].statSize == SizeOf(t.files, Listing(t.writers[v].link))
      {
        assert v != w && s.writers[v].Statted?;
      }
    case _ =>
  }

  lemma CalmStepKeepsBalance(s: State, a: Action)
    requires Balanced(s) && Seen(s) && Calm(s, a) && Step(s, a).Some?
    ensures Balanced(Step(s, a).value) && Seen(Step(s, a).value)
  {
    CalmStepKeepsSeen(s, a);
    match a
    case Rename(w, now) => RenameCountsRightIff(s, w, now);
    case Remove(p) => RemoveCountsRightIff(s, p);
    case _ => OtherStepsCountRight(s, a);
  }

  lemma {:induction false} CalmRunKeepsBalance(s: State, run: seq<Action>)
    requires Balanced(s) && Seen(s) && Run(s, run).Some? && CalmRun(s, run)
    ensures Balanced(Run(s, run).value)
    decreases |run|
  {
    if run != [] {
      CalmStepKeepsBalance(s, run[0]);
      CalmRunKeepsBalance(Step(s, run[0]).value, run[1..]);
    }
  }

  /**
   * From whatever files it opened on, and however writes and evictions interleave, as long as no listing is renamed or removed between
   * another write's stat of it and that write's rename, and none is renamed between an evict's walk
   * and the evict coming to it, the size is the total of the files whenever no listing write is half way.
   */
  lemma CalmSchedulesCountRight(files: Files, run: seq<Action>)
    requires Run(Opened(files), run).Some? && CalmRun(Opened(files), run)
    requires forall w <- Run(Opened(files), run).value.writers :: !Run(Opened(files), run).value.writers[w].Renamed?
    ensures var t := Run(Opened(files), run).value; t.size == Total(t.files)
  {
    BalancedIsTotal(Opened(files));
    CalmRunKeepsBalance(Opened(files), run);
    BalancedIsTotal(Run(Opened(files), run).value);
  }

  lemma {:induction false} BlocksAreCalm(s: State, run: seq<Action>)
    requires s.writers == map[] && Run(s, run).Some? && forall a <- run :: !a.Stat?
    ensures CalmRun(s, run) && Run(s, run).value.writers == map[]
    decreases |run|
  {
    if run != [] {
      BlocksAreCalm(Step(s, run[0]).value, run[1..]);
    }
  }

  /** With no listing written the size is the total of the files, however Puts and evictions interleave. */
  lemma BlockWritesCountRight(files: Files, run: seq<Action>)
    requires Run(Opened(files), run).Some? && forall a <- run :: !a.Stat?
    ensures var t := Run(Opened(files), run).value; t.size == Total(t.files)
  {
    BlocksAreCalm(Opened(files), run);
    CalmSchedulesCountRight(files, run);
  }

  // ----- schedules that do not -----

  lemma RunStarts(s: State, a: Action, t: State, rest: seq<Action>)
    requires Step(s, a) == Some(t)
    ensures Run(s, [a] + rest) == Run(t, rest)
  {
    assert ([a] + rest)[1..] == rest;
  }

  lemma {:induction false} RunJoins(s: State, a: seq<Action>, t: State, b: seq<Action>)
    requires Run(s, a) == Some(t)
    ensures Run(s, a + b) == Run(t, b)
    decreases |a|
  {
    if a == [] {
      assert a + b == b;
    } else {
      assert (a + b)[1..] == a[1..] + b;
      RunJoins(Step(s, a[0]).value, a[1..], t, b);
    }
  }

  lemma BothStatted(link: LinkId, data: Bytes) returns (s: State, run: seq<Action>)
    ensures Run(EMPTY, run) == Some(s)
    ensures s == State(map[Listing(link) := Entry(data, 0)], 0, map[0 := Renamed(|data|), 1 := Statted(link, data, 0)], None)
  {
    var a1, a2, a3 := Stat(0, link, data), Stat(1, link, data), Rename(0, 0);
    var s1 := Step(EMPTY, a1).value;
    var s2 := Step(s1, a2).value;
    s := Step(s2, a3).value;
    assert s.files == map[Listing(link) := Entry(data, 0)];
    assert s.writers == map[0 := Renamed(|data|), 1 := Statted(link, data, 0)];
    assert Run(s, []) == Some(s);
    RunStarts(s2, a3, s, []);
    RunStarts(s1, a2, s2, [a3]);
    RunStarts(EMPTY, a1, s1, [a2, a3]);
    run := [a1] + [a2, a3];
    assert [a2] + [a3] == [a2, a3] && [a3] + [] == [a3];
  }

  lemma BothCounted(s0: State, link: LinkId, data: Bytes) returns (s: State, run: seq<Action>)
    requires s0 == State(map[Listing(link) := Entry(data, 0)], 0, map[0 := Renamed(|data|), 1 := Statted(link, data, 0)], None)
    ensures Run(s0, run) == Some(s)
    ensures s == State(map[Listing(link) := Entry(data, 0)], 2 * |data|, map[0 := Over, 1 := Over], None)
  {
    var a1, a2, a3 := Rename(1, 0), Count(0), Count(1);
    var s1 := Step(s0, a1).value;
    var s2 := Step(s1, a2).value;
    s := Step(s2, a3).value;
    assert s.files == map[Listing(link) := Entry(data, 0)];
    assert s.writers == map[0 := Over, 1 := Over];
    assert Run(s, []) == Some(s);
    RunStarts(s2, a3, s, []);
    RunStarts(s1, a2, s2, [a3]);
    RunStarts(s0, a1, s1, [a2, a3]);
    run := [a1] + [a2, a3];
    assert [a2] + [a3] == [a2, a3] && [a3] + [] == [a3];
  }

  /**
   * Two writes of one new listing that both stat before either renames, from two directory objects of
   * one folder: counted twice, on disk once.
   */
  lemma TwoListingWritesCountTwice(link: LinkId, data: Bytes) returns (run: seq<Action>, s: State)
    ensures Run(EMPTY, run) == Some(s)
    ensures s.size == 2 * |data| && Total(s.files) == |data|
    ensures forall w <- s.writers :: s.writers[w].Over?
  {
    var s1, first := BothStatted(link, data);
    var rest;
    s, rest := BothCounted(s1, link, data);
    run := first + rest;
    RunJoins(EMPTY, first, s1, rest);
    SumWith(map[], Weight, Listing(link), Entry(data, 0));
  }

  lemma FirstIsWritten(link: LinkId, data: Bytes) returns (s: State, run: seq<Action>)
    ensures Run(EMPTY, run) == Some(s)
    ensures s == State(map[Listing(link) := Entry(data, 0)], |data|, map[0 := Over], None)
  {
    var a1, a2, a3 := Stat(0, link, data), Rename(0, 0), Count(0);
    var s1 := Step(EMPTY, a1).value;
    var s2 := Step(s1, a2).value;
    s := Step(s2, a3).value;
    assert Run(s, []) == Some(s);
    RunStarts(s2, a3, s, []);
    RunStarts(s1, a2, s2, [a3]);
    RunStarts(EMPTY, a1, s1, [a2, a3]);
    run := [a1] + [a2, a3];
    assert [a2] + [a3] == [a2, a3] && [a3] + [] == [a3];
    assert s.files == map[Listing(link) := Entry(data, 0)] && s.writers == map[0 := Over];
  }

  /** The second write statted and renamed under the walk. */
  lemma RewriteUnderWalk(s0: State, link: LinkId, first: Bytes, second: Bytes) returns (s: State, run: seq<Action>)
    requires s0 == State(map[Listing(link) := Entry(first, 0)], |first|, map[0 := Over], None)
    ensures Run(s0, run) == Some(s)
    ensures s == State(map[Listing(link) := Entry(second, 1)], |first|,
                       map[0 := Over, 1 := Renamed(|second| - |first|)], Some(map[Listing(link) := |first|]))
  {
    var a1, a2, a3 := WalkFiles, Stat(1, link, second), Rename(1, 1);
    var s1 := Step(s0, a1).value;
    assert s1.walk.value == map[Listing(link) := |first|];
    var s2 := Step(s1, a2).value;
    s := Step(s2, a3).value;
    assert s.files == map[Listing(link) := Entry(second, 1)];
    assert s.writers == map[0 := Over, 1 := Renamed(|second| - |first|)];
    assert Run(s, []) == Some(s);
    RunStarts(s2, a3, s, []);
    RunStarts(s1, a2, s2, [a3]);
    RunStarts(s0, a1, s1, [a2, a3]);
    run := [a1] + [a2, a3];
    assert [a2] + [a3] == [a2, a3] && [a3] + [] == [a3];
  }

  /** The evict then removes the file under the size its walk saw, and the write adds what its stat saw. */
  lemma RemoveThenCount(s0: State, link: LinkId, first: Bytes, second: Bytes) returns (s: State, run: seq<Action>)
    requires s0 == State(map[Listing(link) := Entry(second, 1)], |first|,
                         map[0 := Over, 1 := Renamed(|second| - |first|)], Some(map[Listing(link) := |first|]))
    ensures Run(s0, run) == Some(s)
    ensures s == State(map[], |second| - |first|, map[0 := Over, 1 := Over], None)
  {
    var a1, a2, a3 := Action.Remove(Listing(link)), EndEvict, Count(1);
    var s1 := Step(s0, a1).value;
    assert s1.files == map[] && s1.size == 0;
    var s2 := Step(s1, a2).value;
    s := Step(s2, a3).value;
    assert s.writers == map[0 := Over, 1 := Over];
    assert Run(s, []) == Some(s);
    RunStarts(s2, a3, s, []);
    RunStarts(s1, a2, s2, [a3]);
    RunStarts(s0, a1, s1, [a2, a3]);
    run := [a1] + [a2, a3];
    assert [a2] + [a3] == [a2, a3] && [a3] + [] == [a3];
  }

  /**
   * One listing written twice, one write after the other, the second while an evict that has walked the
   * first is about to remove it: the size ends off by the difference in their lengths, with no file left.
   */
  lemma RewriteDuringEvictMiscounts(link: LinkId, first: Bytes, second: Bytes) returns (run: seq<Action>, s: State)
    ensures Run(EMPTY, run) == Some(s)
    ensures s.files == map[] && s.walk.None? && s.size == |second| - |first|
    ensures forall w <- s.writers :: s.writers[w].Over?
  {
    var s1, head := FirstIsWritten(link, first);
    var s2, middle := RewriteUnderWalk(s1, link, first, second);
    var rest;
    s, rest := RemoveThenCount(s2, link, first, second);
    RunJoins(s1, middle, s2, rest);
    run := head + (middle + rest);
    RunJoins(EMPTY, head, s1, middle + rest);
  }
}
