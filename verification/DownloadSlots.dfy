/**
 * Block downloads under a cap: getRawRetrying takes a slot for each HTTP attempt and gives it back
 * before it waits, retries 429, 503 and transport errors up to four attempts, and getRawSlotted
 * starts over once after a token refresh.
 */
module DownloadSlots {
  import opened Wrappers
  import opened Sums

  /** Tries of one getRawRetrying. */
  const GET_RAW_ATTEMPTS: nat := 4

  type FetchId = nat

  /** How an attempt came back: its body, a 401, another status, 429 or 503, or no answer at all. */
  datatype Answer = Body | Unauthorized | OtherStatus | RateLimited | TransportError

  predicate Retried(a: Answer) {
    a.RateLimited? || a.TransportError?
  }

  /** How far one fetch is. */
  datatype Pc = Queued | InAttempt | BackingOff | Refreshing | Returned

  /** slotted: the fetch takes download slots. attempt: which try of this round; made: attempts in all. */
  datatype Fetch = Fetch(slotted: bool, pc: Pc, round: nat, attempt: nat, made: nat)

  /** cap: the channel's size, None when there is no limit; held: what is in it. */
  datatype State = State(cap: Option<nat>, held: nat, fetches: map<FetchId, Fetch>)

  /** SetMaxDownloads before the first fetch. */
  function Start(n: int): State {
    State(if n <= 0 then None else Some(n), 0, map[])
  }

  datatype Action =
    | Begin(id: FetchId, slotted: bool)
    | Acquire(id: FetchId)
    | Cancel(id: FetchId)
    | Respond(id: FetchId, answer: Answer, cancelled: bool)
    | Wake(id: FetchId)
    | Refresh(id: FetchId, ok: bool)

  /** acquireDownload sends on the channel: the fetch takes slots, and there is a limit. */
  predicate TakesSlots(s: State, f: Fetch) {
    f.slotted && s.cap.Some?
  }

  /** What getRawRetrying and getRawSlotted do with an answer, once the slot is back. */
  function After(f: Fetch, answer: Answer, cancelled: bool): Fetch {
    var f' := f.(made := f.made + 1);
    if Retried(answer) then f'.(pc := if cancelled || f.attempt == GET_RAW_ATTEMPTS then Returned else BackingOff)
    else if answer.Unauthorized? && f.round == 1 then f'.(pc := Refreshing)
    else f'.(pc := Returned)
  }

  function Step(s: State, a: Action): Option<State> {
    match a
    case Begin(id, slotted) =>
      if id in s.fetches then None else Some(s.(fetches := s.fetches[id := Fetch(slotted, Queued, 1, 1, 0)]))
    case _ => if a.id in s.fetches then FetchStep(s, a.id, s.fetches[a.id], a) else None
  }

  function FetchStep(s: State, id: FetchId, f: Fetch, a: Action): Option<State> {
    match a
    case Acquire(_) =>
      if !f.pc.Queued? || (TakesSlots(s, f) && s.held >= s.cap.value) then None
      else Some(s.(held := if TakesSlots(s, f) then s.held + 1 else s.held, fetches := s.fetches[id := f.(pc := InAttempt)]))
    case Cancel(_) =>
      if f.pc.BackingOff? || (f.pc.Queued? && TakesSlots(s, f)) then Some(s.(fetches := s.fetches[id := f.(pc := Returned)])) else None
    case Respond(_, answer, cancelled) =>
      if !f.pc.InAttempt? || (TakesSlots(s, f) && s.held == 0) then None
      else Some(s.(held := if TakesSlots(s, f) then s.held - 1 else s.held, fetches := s.fetches[id := After(f, answer, cancelled)]))
    case Wake(_) =>
      if !f.pc.BackingOff? then None
      else Some(s.(fetches := s.fetches[id := f.(pc := Queued, attempt := f.attempt + 1)]))
    case Refresh(_, ok) =>
      if !f.pc.Refreshing? then None
      else Some(s.(fetches := s.fetches[id := if ok then f.(pc := Queued, round := 2, attempt := 1) else f.(pc := Returned)]))
    case Begin(_, _) => None
  }

  function Run(s: State, run: seq<Action>): Option<State>
    decreases |run|
  {
    if run == [] then Some(s)
    else
      var s' := Step(s, run[0]);
      if s'.None? then None else Run(s'.value, run[1..])
  }

  ghost predicate Reached(n: int, s: State) {
    exists run :: Run(Start(n), run) == Some(s)
  }

  // ----- the invariant -----

  function Holds(id: FetchId, f: Fetch): int {
    if f.slotted && f.pc.InAttempt? then 1 else 0
  }

  /** The fetches that hold a slot. */
  ghost function Holders(fs: map<FetchId, Fetch>): set<FetchId> {
    set id | id in fs && fs[id].slotted && fs[id].pc.InAttempt?
  }

  /** Attempts made so far, and the round and try they leave the fetch in. */
  predicate Counted(f: Fetch) {
    && 1 <= f.attempt <= GET_RAW_ATTEMPTS
    && (f.round == 1 || f.round == 2)
    && (f.pc.BackingOff? ==> f.attempt < GET_RAW_ATTEMPTS)
    && (f.pc.Refreshing? ==> f.round == 1)
    && f.made <= GET_RAW_ATTEMPTS * (f.round - 1) + f.attempt - (if f.pc.Queued? || f.pc.InAttempt? then 1 else 0)
  }

  ghost predicate Inv(s: State) {
    && (s.cap.Some? ==> s.held == SumOf(s.fetches, Holds) && s.held <= s.cap.value)
    && (s.cap.None? ==> s.held == 0)
    && forall id <- s.fetches :: Counted(s.fetches[id])
  }

  lemma StepKeepsInv(s: State, a: Action)
    requires Inv(s) && Step(s, a).Some?
    ensures Inv(Step(s, a).value) && Step(s, a).value.cap == s.cap
  {
    var t := Step(s, a).value;
    SumWith(s.fetches, Holds, a.id, t.fetches[a.id]);
    assert a.id in s.fetches ==> Counted(s.fetches[a.id]);
  }

  lemma {:induction false} RunKeepsInv(s: State, run: seq<Action>)
    requires Inv(s) && Run(s, run).Some?
    ensures Inv(Run(s, run).value) && Run(s, run).value.cap == s.cap
    decreases |run|
  {
    if run != [] {
      StepKeepsInv(s, run[0]);
      RunKeepsInv(Step(s, run[0]).value, run[1..]);
    }
  }

  lemma ReachedIsInv(n: int, s: State)
    requires Reached(n, s)
    ensures Inv(s) && s.cap == Start(n).cap
  {
    var run :| Run(Start(n), run) == Some(s);
    RunKeepsInv(Start(n), run);
  }

  // ----- what holds in every run -----

  /**
   * With a limit the held slots are exactly the fetches inside an attempt, never more than the
   * limit; a fetch that backs off, refreshes its token or has returned holds none.
   */
  lemma HeldSlotsAreAttempts(n: int, s: State)
    requires Reached(n, s) && n > 0
    ensures s.cap == Some(n) && s.held == SumOf(s.fetches, Holds) && s.held <= n
    ensures s.held == |Holders(s.fetches)|
    ensures forall id <- Holders(s.fetches) :: s.fetches[id].pc.InAttempt?
  {
    ReachedIsInv(n, s);
    CountHolders(s.fetches);
  }

  lemma {:induction false} CountHolders(fs: map<FetchId, Fetch>)
    ensures SumOf(fs, Holds) == |Holders(fs)|
    decreases |fs|
  {
    if fs != map[] {
      var id :| id in fs;
      SumWithout(fs, Holds, id);
      CountHolders(fs - {id});
      assert Holders(fs - {id}) == Holders(fs) - {id};
    }
  }

  /** With no limit set nothing is counted and nobody waits for a slot. */
  lemma NoLimitNeverBlocks(n: int, s: State, id: FetchId)
    requires Reached(n, s) && n <= 0
    requires id in s.fetches && s.fetches[id].pc.Queued?
    ensures s.held == 0 && Step(s, Acquire(id)).Some?
  {
    ReachedIsInv(n, s);
  }

  /** A fetch makes at most four attempts, or eight when its first four ended in a 401 and the token was refreshed. */
  lemma AttemptsAreBounded(n: int, s: State, id: FetchId)
    requires Reached(n, s) && id in s.fetches
    ensures s.fetches[id].made <= 8
    ensures s.fetches[id].round == 1 ==> s.fetches[id].made <= 4
  {
    ReachedIsInv(n, s);
    assert Counted(s.fetches[id]);
  }

  /** Whenever a fetch cannot get a slot, some fetch is inside an attempt whose answer will free one. */
  lemma SlotsComeBack(n: int, s: State, id: FetchId, answer: Answer)
    returns (other: FetchId)
    requires Reached(n, s) && id in s.fetches && s.fetches[id].pc.Queued?
    requires Step(s, Acquire(id)).None?
    ensures other in s.fetches && Step(s, Respond(other, answer, false)).Some?
    ensures Step(Step(s, Respond(other, answer, false)).value, Acquire(id)).Some?
  {
    ReachedIsInv(n, s);
    CountHolders(s.fetches);
    assert Holders(s.fetches) != {};
    other :| other in Holders(s.fetches);
  }

  // ----- which answers are tried again -----

  /**
   * An answer gives the slot back and counts one attempt. The fetch waits to try again exactly on a 429, a
   * 503 or no answer, before its fourth attempt and while its caller is there; it refreshes its token
   * exactly on the first round's 401; on anything else it returns. No other fetch is touched.
   */
  lemma AnswerLeadsTo(n: int, s: State, id: FetchId, answer: Answer, cancelled: bool)
    requires Reached(n, s) && id in s.fetches && s.fetches[id].pc.InAttempt?
    ensures Step(s, Respond(id, answer, cancelled)).Some?
    ensures var t, f := Step(s, Respond(id, answer, cancelled)).value, s.fetches[id];
      && t.fetches.Keys == s.fetches.Keys && (forall other <- s.fetches :: other != id ==> t.fetches[other] == s.fetches[other])
      && t.held == (if f.slotted && n > 0 then s.held - 1 else s.held)
      && t.fetches[id] == Fetch(f.slotted, t.fetches[id].pc, f.round, f.attempt, f.made + 1)
      && (t.fetches[id].pc.BackingOff? <==> answer in {RateLimited, TransportError} && f.attempt < 4 && !cancelled)
      && (t.fetches[id].pc.Refreshing? <==> answer == Unauthorized && f.round == 1)
      && (t.fetches[id].pc.BackingOff? || t.fetches[id].pc.Refreshing? || t.fetches[id].pc.Returned?)
  {
    ReachedIsInv(n, s);
    if s.fetches[id].slotted && s.cap.Some? {
      CountHolders(s.fetches);
      assert id in Holders(s.fetches);
    }
  }

  /** A slot is free, or the fetch needs none. */
  predicate Free(s: State, f: Fetch) {
    TakesSlots(s, f) ==> s.held < s.cap.value
  }

  function With(s: State, id: FetchId, f: Fetch): State {
    s.(fetches := s.fetches[id := f])
  }

  /** A caller can leave exactly while its fetch waits, between attempts or for a slot; the slots stay as they are. */
  lemma LeavesWhileWaitingIff(n: int, s: State, id: FetchId)
    requires Reached(n, s) && id in s.fetches
    ensures var f := s.fetches[id];
      && (Step(s, Cancel(id)).Some? <==> f.pc.BackingOff? || (f.pc.Queued? && f.slotted && n > 0))
      && (Step(s, Cancel(id)).Some? ==> Step(s, Cancel(id)) == Some(With(s, id, f.(pc := Returned))))
  {
    ReachedIsInv(n, s);
  }

  /** An attempt and its answer leave the slots as they were, and the fetch as the answer has it. */
  lemma OneAttempt(s: State, id: FetchId, f: Fetch, answer: Answer, cancelled: bool, rest: seq<Action>)
    requires id in s.fetches && s.fetches[id] == f && f.pc.Queued? && Free(s, f)
    ensures Run(s, [Acquire(id), Respond(id, answer, cancelled)] + rest) == Run(With(s, id, After(f, answer, cancelled)), rest)
  {
    var steps := [Acquire(id), Respond(id, answer, cancelled)] + rest;
    var s1 := Step(s, steps[0]).value;
    assert s1.fetches[id] == f.(pc := InAttempt);
    assert s1.fetches[id := After(f, answer, cancelled)] == s.fetches[id := After(f, answer, cancelled)];
    assert steps[1..][1..] == rest;
  }

  lemma Overwritten(s: State, id: FetchId, f: Fetch, g: Fetch)
    ensures With(With(s, id, f), id, g) == With(s, id, g)
  {
    assert s.fetches[id := f][id := g] == s.fetches[id := g];
  }

  lemma OneTry(s: State, id: FetchId, f: Fetch, answer: Answer, rest: seq<Action>)
    requires id in s.fetches && s.fetches[id] == f && f.pc.Queued? && Free(s, f)
    requires answer in {RateLimited, TransportError} && f.attempt < 4
    ensures Run(s, [Acquire(id), Respond(id, answer, false)] + ([Wake(id)] + rest)) ==
      Run(With(s, id, f.(attempt := f.attempt + 1, made := f.made + 1)), rest)
  {
    var waiting := f.(pc := BackingOff, made := f.made + 1);
    OneAttempt(s, id, f, answer, false, [Wake(id)] + rest);
    Overwritten(s, id, waiting, f.(attempt := f.attempt + 1, made := f.made + 1));
    assert ([Wake(id)] + rest)[1..] == rest;
  }

  /** The steps of a fetch that gets these answers in a row and waits after each. */
  function Tries(id: FetchId, answers: seq<Answer>): seq<Action> {
    if answers == [] then []
    else [Acquire(id), Respond(id, answers[0], false)] + ([Wake(id)] + Tries(id, answers[1..]))
  }

  /**
   * While it may, a fetch whose answers are all worth a retry takes as many attempts as it gets answers,
   * and goes on with the next.
   */
  lemma {:induction false} RetriesInARow(s: State, id: FetchId, f: Fetch, answers: seq<Answer>, rest: seq<Action>)
    requires id in s.fetches && s.fetches[id] == f && f.pc.Queued? && Free(s, f)
    requires (forall i :: 0 <= i < |answers| ==> answers[i] in {RateLimited, TransportError}) && f.attempt + |answers| <= 4
    ensures Run(s, Tries(id, answers) + rest) ==
      Run(With(s, id, f.(attempt := f.attempt + |answers|, made := f.made + |answers|)), rest)
    decreases |answers|
  {
    if answers == [] {
      assert With(s, id, f) == s && [] + rest == rest;
    } else {
      var more := Tries(id, answers[1..]) + rest;
      assert Tries(id, answers) + rest == [Acquire(id), Respond(id, answers[0], false)] + ([Wake(id)] + more);
      OneTry(s, id, f, answers[0], more);
      var g := f.(attempt := f.attempt + 1, made := f.made + 1);
      RetriesInARow(With(s, id, g), id, g, answers[1..], rest);
      Overwritten(s, id, g, g.(attempt := f.attempt + |answers|, made := f.made + |answers|));
    }
  }

  /**
   * A round of one fetch: it makes four attempts when the first three are worth a retry, whatever the fourth
   * brings, and then only a first round's 401 keeps it from returning. Its slots are all back.
   */
  lemma FourthAttemptIsTheLast(s: State, id: FetchId, answers: seq<Answer>, last: Answer, cancelled: bool)
    requires id in s.fetches && s.fetches[id].pc.Queued? && s.fetches[id].attempt == 1 && Free(s, s.fetches[id])
    requires |answers| == 3 && forall i :: 0 <= i < 3 ==> answers[i] in {RateLimited, TransportError}
    ensures var f := s.fetches[id];
      var pc := if last == Unauthorized && f.round == 1 then Refreshing else Returned;
      Run(s, Tries(id, answers) + [Acquire(id), Respond(id, last, cancelled)]) ==
        Some(With(s, id, f.(pc := pc, attempt := 4, made := f.made + 4)))
  {
    var f := s.fetches[id];
    var g := f.(attempt := 4, made := f.made + 3);
    var steps := [Acquire(id), Respond(id, last, cancelled)];
    RetriesInARow(s, id, f, answers, steps);
    assert steps == steps + [];
    OneAttempt(With(s, id, g), id, g, last, cancelled, []);
    Overwritten(s, id, g, After(g, last, cancelled));
  }

  /** A refreshed token starts a second round from its first attempt; a second 401 ends it. */
  lemma SecondRoundIsTheLast(s: State, id: FetchId, cancelled: bool)
    requires id in s.fetches && s.fetches[id].pc.Refreshing? && Free(s, s.fetches[id])
    ensures var f := s.fetches[id];
      && Run(s, [Refresh(id, false)]) == Some(With(s, id, f.(pc := Returned)))
      && Run(s, [Refresh(id, true)]) == Some(With(s, id, f.(pc := Queued, round := 2, attempt := 1)))
      && Run(s, [Refresh(id, true), Acquire(id), Respond(id, Unauthorized, cancelled)]) ==
           Some(With(s, id, f.(pc := Returned, round := 2, attempt := 1, made := f.made + 1)))
  {
    var f := s.fetches[id];
    var g := f.(pc := Queued, round := 2, attempt := 1);
    var steps := [Acquire(id), Respond(id, Unauthorized, cancelled)];
    assert [Refresh(id, true)] + steps == [Refresh(id, true), Acquire(id), Respond(id, Unauthorized, cancelled)];
    assert ([Refresh(id, true)] + steps)[1..] == steps == steps + [];
    OneAttempt(With(s, id, g), id, g, Unauthorized, cancelled, []);
    Overwritten(s, id, g, After(g, Unauthorized, cancelled));
  }

  // ----- one fetch as the code it is -----

  /**
   * What happens to one round of a fetch, by attempt: how the attempt is answered, whether the caller's
   * context is over once the answer is in, whether it ends during the wait after it, and whether it ends
   * while the fetch is queued for the attempt's slot.
   */
  datatype Script = Script(answer: nat -> Answer, over: nat -> bool, leaves: nat -> bool, givesUp: nat -> bool)
  {
    /** After attempt i the fetch has reason to try again, and nothing that keeps it from it. */
    predicate Again(i: nat) {
      (answer(i) == RateLimited || answer(i) == TransportError) && !over(i) && !leaves(i)
    }
  }

  class Client {
    const downloads: Option<nat>
    var held: nat
    /** How often the shared backoff window was opened or extended. */
    var noted: nat

    /** SetMaxDownloads: n <= 0 leaves downloads unbounded. */
    constructor (n: int)
      ensures downloads == Start(n).cap && held == 0 && noted == 0
    {
      downloads, held, noted := if n <= 0 then None else Some(n), 0, 0;
    }

    /** acquireDownload: a slot, or none when the caller gives up while it is queued. */
    method AcquireDownload(givesUp: bool) returns (ok: bool)
      modifies this`held
      ensures ok <==> downloads.None? || (old(held) < downloads.value && !givesUp)
      ensures held == if ok && downloads.Some? then old(held) + 1 else old(held)
    {
      if downloads.None? { return true; }
      if held >= downloads.value || givesUp { return false; }
      held := held + 1;
      return true;
    }

    /** The func acquireDownload returns. */
    method ReleaseDownload()
      requires downloads.Some? ==> held > 0
      modifies this`held
      ensures held == if downloads.Some? then old(held) - 1 else old(held)
    {
      if downloads.Some? { held := held - 1; }
    }

    /** The fetch can have a slot for its i-th attempt, or needs none. */
    predicate HasSlot(slotted: bool, script: Script, i: nat)
      reads this`held
    {
      slotted && downloads.Some? ==> held < downloads.value && !script.givesUp(i)
    }

    /**
     * getRawRetrying on what the script says: the attempts before the last were all a 429, a 503 or no
     * answer, and nothing made it leave; it stops at the fourth, at any other answer, when its caller's
     * context is over, or when that ends while it is queued for a slot. Every slot it took is back, and it
     * touches the backoff window exactly when what it gives up on is a 429 or 503, unless its context was
     * over by then.
     */
    method GetRawRetrying(slotted: bool, script: Script) returns (answer: Option<Answer>, attempts: nat)
      modifies this`held, this`noted
      ensures held == old(held) && attempts <= GET_RAW_ATTEMPTS
      ensures forall i :: 1 <= i < attempts ==> script.Again(i)
      ensures attempts > 0 ==> old(HasSlot(slotted, script, attempts))
      ensures answer.None? ==>
        && attempts < GET_RAW_ATTEMPTS && !old(HasSlot(slotted, script, attempts + 1))
        && (attempts > 0 ==> script.Again(attempts))
      ensures answer.Some? ==>
        && attempts > 0 && answer == Some(script.answer(attempts))
        && (attempts == GET_RAW_ATTEMPTS || !script.Again(attempts))
      ensures noted == old(noted) + if answer == Some(RateLimited) && !script.over(attempts) then 1 else 0
    {
      attempts := 0;
      while true
        invariant held == old(held) && noted == old(noted) && attempts < GET_RAW_ATTEMPTS
        invariant forall i :: 1 <= i <= attempts ==> script.Again(i)
        invariant attempts > 0 ==> HasSlot(slotted, script, attempts)
        decreases GET_RAW_ATTEMPTS - attempts
      {
        if slotted {
          var ok := AcquireDownload(script.givesUp(attempts + 1));
          if !ok { return None, attempts; }
        }
        attempts := attempts + 1;
        var a := script.answer(attempts);
        if slotted { ReleaseDownload(); }
        if a != Body && script.over(attempts) { return Some(a), attempts; }
        if !Retried(a) { return Some(a), attempts; }
        if attempts == GET_RAW_ATTEMPTS {
          if a.RateLimited? { noted := noted + 1; }
          return Some(a), attempts;
        }
        if script.leaves(attempts) {
          if a.RateLimited? { noted := noted + 1; }
          return Some(a), attempts;
        }
      }
    }

    /**
     * getRawSlotted: a second round exactly when the first ended in a 401 and the token could be refreshed;
     * the answer is then the second's.
     */
    method GetRawSlotted(slotted: bool, first: Script, refreshes: bool, second: Script)
      returns (answer: Option<Answer>, attempts: nat, again: Option<nat>)
      modifies this`held, this`noted
      ensures held == old(held)
      ensures attempts <= GET_RAW_ATTEMPTS && (again.Some? ==> again.value <= GET_RAW_ATTEMPTS)
      ensures again.Some? <==> attempts > 0 && first.answer(attempts) == Unauthorized && refreshes && old(HasSlot(slotted, first, attempts))
      ensures again.None? && answer.Some? ==> attempts > 0 && answer == Some(first.answer(attempts))
      ensures again.Some? && answer.Some? ==> again.value > 0 && answer == Some(second.answer(again.value))
      ensures answer == Some(Body) ==> noted == old(noted)
    {
      answer, attempts := GetRawRetrying(slotted, first);
      again := None;
      if answer != Some(Unauthorized) { return; }
      if !refreshes { return; }
      var more;
      answer, more := GetRawRetrying(slotted, second);
      again := Some(more);
    }
  }
}
