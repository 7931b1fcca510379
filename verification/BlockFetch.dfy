/**
 * getBlock under any number of concurrent callers, one step per lock-protected region: the memory
 * cache, the claim of a block by one caller, the fetch, and the wake-up of everyone who waited for it.
 */
module BlockFetch {
  import opened Wrappers
  import opened Blocks
  import opened BlockFile

  type CallerId = nat
  /** A claim record; each claim makes its own. */
  type RecordId = nat

  /** How far one getBlock is. */
  datatype Caller =
    | Asking(idx: nat)
    | Missed(idx: nat)
    | Fetching(idx: nat, rec: RecordId)
    | Fetched(idx: nat, rec: RecordId, data: Option<Bytes>)
    | Releasing(idx: nat, rec: RecordId, data: Option<Bytes>)
    | Closing(idx: nat, rec: RecordId, data: Option<Bytes>)
    | Awaiting(idx: nat, rec: RecordId)
    | Woken(idx: nat)
    | Returned(idx: nat, data: Option<Bytes>)

  /** A blockFetch: the block it is for, the caller that fetches it, how often done was closed, and its error. */
  datatype Record = Record(idx: nat, owner: CallerId, closes: nat, failed: bool)

  datatype State = State(
    cache: Cache,
    inflight: map<nat, RecordId>,
    records: map<RecordId, Record>,
    callers: map<CallerId, Caller>)

  const START: State := State(NO_BLOCKS, map[], map[], map[])

  /** Go: the caller's next region; ok is how its fetch turns out. GiveUp: its request was cancelled while it waited. */
  datatype Action = Ask(id: CallerId, idx: nat) | Go(id: CallerId, ok: bool) | GiveUp(id: CallerId)

  function Cached(c: Cache, idx: nat): Option<Bytes> {
    if idx in c.blocks then Some(c.blocks[idx]) else None
  }

  /** What a fetch of block idx comes back with; a block the list lacks fails. */
  function Answer(content: Bytes, idx: nat, ok: bool): Option<Bytes> {
    if ok && 1 <= idx <= BlockCount(|content|) then Some(Chunk(content, idx)) else None
  }

  function NewRecord(s: State): RecordId {
    |s.records|
  }

  /** claimBlock: the first caller to ask for the block stores a record and fetches, any other waits on it. */
  function Claim(s: State, id: CallerId, idx: nat): State {
    if idx in s.inflight then s.(callers := s.callers[id := Awaiting(idx, s.inflight[idx])])
    else
      var r := NewRecord(s);
      s.(inflight := s.inflight[idx := r],
         records := s.records[r := Record(idx, id, 0, false)],
         callers := s.callers[id := Fetching(idx, r)])
  }

  /** releaseBlock: un-claims the block, then stores the error and closes done. */
  function Unclaim(s: State, id: CallerId, idx: nat, rec: RecordId, data: Option<Bytes>): State {
    s.(inflight := s.inflight - {idx}, callers := s.callers[id := Closing(idx, rec, data)])
  }

  function Close(s: State, id: CallerId, idx: nat, rec: RecordId, data: Option<Bytes>): State
    requires rec in s.records
  {
    var r := s.records[rec];
    s.(records := s.records[rec := r.(closes := r.closes + 1, failed := data.None?)],
       callers := s.callers[id := Returned(idx, data)])
  }

  /** The next region of a caller that touches neither inflight nor records. */
  function Advance(content: Bytes, s: State, x: Caller, ok: bool): Option<(Cache, Caller)> {
    match x
    case Asking(idx) =>
      var hit := Cached(s.cache, idx);
      Some((s.cache, if hit.Some? then Returned(idx, hit) else Missed(idx)))
    case Fetching(idx, rec) => Some((s.cache, Fetched(idx, rec, Answer(content, idx, ok))))
    case Fetched(idx, rec, data) =>
      Some((if data.Some? then s.cache.Put(idx, data.value) else s.cache, Releasing(idx, rec, data)))
    case Awaiting(idx, rec) =>
      if rec !in s.records || s.records[rec].closes == 0 then None
      else if s.records[rec].failed then Some((s.cache, Returned(idx, None)))
      else Some((s.cache, Woken(idx)))
    case Woken(idx) => Some((s.cache, Returned(idx, Cached(s.cache, idx))))
    case _ => None
  }

  function GoStep(content: Bytes, s: State, id: CallerId, ok: bool): Option<State>
    requires id in s.callers
  {
    match s.callers[id]
    case Missed(idx) => Some(Claim(s, id, idx))
    case Releasing(idx, rec, data) => Some(Unclaim(s, id, idx, rec, data))
    case Closing(idx, rec, data) => if rec in s.records then Some(Close(s, id, idx, rec, data)) else None
    case x =>
      var next := Advance(content, s, x, ok);
      if next.None? then None else Some(s.(cache := next.value.0, callers := s.callers[id := next.value.1]))
  }

  function Step(content: Bytes, s: State, a: Action): Option<State> {
    match a
    case Ask(id, idx) => if id in s.callers then None else Some(s.(callers := s.callers[id := Asking(idx)]))
    case Go(id, ok) => if id in s.callers then GoStep(content, s, id, ok) else None
    case GiveUp(id) =>
      if id in s.callers && s.callers[id].Awaiting? then Some(s.(callers := s.callers[id := Returned(s.callers[id].idx, None)]))
      else None
  }

  function Run(content: Bytes, s: State, run: seq<Action>): Option<State>
    decreases |run|
  {
    if run == [] then Some(s)
    else
      var s' := Step(content, s, run[0]);
      if s'.None? then None else Run(content, s'.value, run[1..])
  }

  ghost predicate Reached(content: Bytes, s: State) {
    exists run :: Run(content, START, run) == Some(s)
  }

  // ----- the invariant -----

  /** The record the caller has to close, if it claimed a block. */
  function Owes(x: Caller): Option<RecordId> {
    match x
    case Fetching(_, rec) => Some(rec)
    case Fetched(_, rec, _) => Some(rec)
    case Releasing(_, rec, _) => Some(rec)
    case Closing(_, rec, _) => Some(rec)
    case _ => None
  }

  predicate Holding(x: Caller) {
    x.Fetching? || x.Fetched? || x.Releasing?
  }

  /** Data in a caller's hands is its block's plaintext. */
  predicate Correct(content: Bytes, idx: nat, data: Option<Bytes>) {
    data.Some? ==> 1 <= idx <= BlockCount(|content|) && data.value == Chunk(content, idx)
  }

  predicate CallerData(content: Bytes, x: Caller) {
    match x
    case Fetched(idx, _, data) => Correct(content, idx, data)
    case Releasing(idx, _, data) => Correct(content, idx, data)
    case Closing(idx, _, data) => Correct(content, idx, data)
    case Returned(idx, data) => Correct(content, idx, data)
    case _ => true
  }

  predicate CallerOk(s: State, id: CallerId, x: Caller) {
    && (Owes(x).Some? ==>
          var r := Owes(x).value;
          r in s.records && s.records[r].owner == id && s.records[r].idx == x.idx && s.records[r].closes == 0)
    && (Holding(x) ==> x.idx in s.inflight && s.inflight[x.idx] == x.rec)
    && (x.Awaiting? ==> x.rec in s.records && s.records[x.rec].idx == x.idx)
  }

  predicate RecordOk(s: State, r: RecordId, rec: Record) {
    && r < |s.records|
    && rec.owner in s.callers
    && rec.closes == (if Owes(s.callers[rec.owner]) == Some(r) then 0 else 1)
  }

  predicate ClaimOk(s: State, idx: nat, r: RecordId) {
    && r in s.records
    && s.records[r].idx == idx
    && s.records[r].owner in s.callers
    && Holding(s.callers[s.records[r].owner])
    && s.callers[s.records[r].owner].rec == r
    && s.callers[s.records[r].owner].idx == idx
  }

  ghost predicate CallersOk(s: State) {
    forall id <- s.callers :: CallerOk(s, id, s.callers[id])
  }

  ghost predicate RecordsOk(s: State) {
    forall r <- s.records :: RecordOk(s, r, s.records[r])
  }

  ghost predicate ClaimsOk(s: State) {
    forall idx <- s.inflight :: ClaimOk(s, idx, s.inflight[idx])
  }

  ghost predicate Claims(s: State) {
    CallersOk(s) && RecordsOk(s) && ClaimsOk(s)
  }

  ghost predicate Data(content: Bytes, s: State) {
    && s.cache.Valid()
    && s.cache.Holds(content)
    && (forall id <- s.callers :: CallerData(content, s.callers[id]))
  }

  ghost predicate Inv(content: Bytes, s: State) {
    Claims(s) && Data(content, s)
  }

  lemma AdvanceKeepsData(content: Bytes, s: State, x: Caller, ok: bool)
    requires s.cache.Valid() && s.cache.Holds(content) && CallerData(content, x)
    requires Advance(content, s, x, ok).Some?
    ensures var (c, x') := Advance(content, s, x, ok).value;
      c.Valid() && c.Holds(content) && CallerData(content, x')
  {
    if x.Fetched? && x.data.Some? {
      PutKeepsValid(s.cache, x.idx, x.data.value);
      PutKeepsHolds(s.cache, content, x.idx);
    }
  }

  /** A region that neither claims nor closes: the caller owes and holds what it did. */
  lemma AdvanceKeepsClaims(content: Bytes, s: State, id: CallerId, ok: bool)
    requires Claims(s) && id in s.callers && Advance(content, s, s.callers[id], ok).Some?
    ensures var (c, x') := Advance(content, s, s.callers[id], ok).value;
      Claims(s.(cache := c, callers := s.callers[id := x']))
  {
    var x := s.callers[id];
    var (c, x') := Advance(content, s, x, ok).value;
    assert CallerOk(s, id, x);
    assert Owes(x') == Owes(x) && Holding(x') == Holding(x) && x'.idx == x.idx;
    MoveKeepsClaims(s, id, x', c);
  }

  lemma MoveKeepsClaims(s: State, id: CallerId, x': Caller, c: Cache)
    requires Claims(s) && id in s.callers
    requires Owes(x') == Owes(s.callers[id]) && Holding(x') == Holding(s.callers[id]) && x'.idx == s.callers[id].idx
    requires x'.Awaiting? ==> x' == s.callers[id]
    ensures Claims(s.(cache := c, callers := s.callers[id := x']))
  {
    var t := s.(cache := c, callers := s.callers[id := x']);
    assert CallerOk(s, id, s.callers[id]);
    forall g | g in t.callers ensures CallerOk(t, g, t.callers[g]) {
      assert g != id ==> CallerOk(s, g, s.callers[g]);
    }
    forall r | r in t.records ensures RecordOk(t, r, t.records[r]) {
      assert RecordOk(s, r, s.records[r]);
    }
    forall idx | idx in t.inflight ensures ClaimOk(t, idx, t.inflight[idx]) {
      assert ClaimOk(s, idx, s.inflight[idx]);
    }
  }

  lemma NewRecordIsNew(s: State)
    requires RecordsOk(s)
    ensures NewRecord(s) !in s.records
  {
    forall r | r in s.records ensures r < NewRecord(s) {
      assert RecordOk(s, r, s.records[r]);
    }
  }

  lemma ClaimKeepsCallers(s: State, id: CallerId, idx: nat)
    requires Claims(s) && id in s.callers && s.callers[id] == Missed(idx)
    ensures CallersOk(Claim(s, id, idx))
  {
    var t := Claim(s, id, idx);
    NewRecordIsNew(s);
    assert idx in s.inflight ==> ClaimOk(s, idx, s.inflight[idx]);
    forall g | g in t.callers ensures CallerOk(t, g, t.callers[g]) {
      assert CallerOk(s, g, s.callers[g]);
    }
  }

  lemma ClaimKeepsRecords(s: State, id: CallerId, idx: nat)
    requires Claims(s) && id in s.callers && s.callers[id] == Missed(idx)
    ensures RecordsOk(Claim(s, id, idx))
  {
    var t := Claim(s, id, idx);
    NewRecordIsNew(s);
    assert idx !in s.inflight ==> |t.records| == |s.records| + 1;
    forall q | q in t.records ensures RecordOk(t, q, t.records[q]) {
      assert q in s.records ==> RecordOk(s, q, s.records[q]);
    }
  }

  lemma ClaimKeepsClaims(s: State, id: CallerId, idx: nat)
    requires Claims(s) && id in s.callers && s.callers[id] == Missed(idx)
    ensures Claims(Claim(s, id, idx))
  {
    var t := Claim(s, id, idx);
    NewRecordIsNew(s);
    ClaimKeepsCallers(s, id, idx);
    ClaimKeepsRecords(s, id, idx);
    forall k | k in t.inflight ensures ClaimOk(t, k, t.inflight[k]) {
      assert k in s.inflight ==> ClaimOk(s, k, s.inflight[k]);
    }
  }

  lemma UnclaimKeepsCallers(s: State, id: CallerId)
    requires Claims(s) && id in s.callers && s.callers[id].Releasing?
    ensures var x := s.callers[id]; CallersOk(Unclaim(s, id, x.idx, x.rec, x.data))
  {
    var x := s.callers[id];
    var t := Unclaim(s, id, x.idx, x.rec, x.data);
    assert CallerOk(s, id, x);
    forall g | g in t.callers ensures CallerOk(t, g, t.callers[g]) {
      assert CallerOk(s, g, s.callers[g]);
    }
  }

  lemma UnclaimKeepsClaims(s: State, id: CallerId)
    requires Claims(s) && id in s.callers && s.callers[id].Releasing?
    ensures var x := s.callers[id]; Claims(Unclaim(s, id, x.idx, x.rec, x.data))
  {
    var x := s.callers[id];
    var t := Unclaim(s, id, x.idx, x.rec, x.data);
    UnclaimKeepsCallers(s, id);
    assert CallerOk(s, id, x);
    forall q | q in t.records ensures RecordOk(t, q, t.records[q]) {
      assert RecordOk(s, q, s.records[q]);
    }
    forall k | k in t.inflight ensures ClaimOk(t, k, t.inflight[k]) {
      assert ClaimOk(s, k, s.inflight[k]);
    }
  }

  lemma CloseKeepsClaims(s: State, id: CallerId)
    requires Claims(s) && id in s.callers && s.callers[id].Closing? && s.callers[id].rec in s.records
    ensures var x := s.callers[id]; Claims(Close(s, id, x.idx, x.rec, x.data))
  {
    var x := s.callers[id];
    var t := Close(s, id, x.idx, x.rec, x.data);
    assert CallerOk(s, id, x);
    assert |t.records| == |s.records|;
    forall g | g in t.callers ensures CallerOk(t, g, t.callers[g]) {
      assert CallerOk(s, g, s.callers[g]);
    }
    forall q | q in t.records ensures RecordOk(t, q, t.records[q]) {
      assert RecordOk(s, q, s.records[q]);
    }
    forall k | k in t.inflight ensures ClaimOk(t, k, t.inflight[k]) {
      assert ClaimOk(s, k, s.inflight[k]);
    }
  }

  lemma GoKeepsClaims(content: Bytes, s: State, id: CallerId, ok: bool)
    requires Claims(s) && id in s.callers && GoStep(content, s, id, ok).Some?
    ensures Claims(GoStep(content, s, id, ok).value)
  {
    match s.callers[id]
    case Missed(idx) => ClaimKeepsClaims(s, id, idx);
    case Releasing(_, _, _) => UnclaimKeepsClaims(s, id);
    case Closing(_, _, _) => CloseKeepsClaims(s, id);
    case _ => AdvanceKeepsClaims(content, s, id, ok);
  }

  lemma GoKeepsData(content: Bytes, s: State, id: CallerId, ok: bool)
    requires Data(content, s) && id in s.callers && GoStep(content, s, id, ok).Some?
    ensures Data(content, GoStep(content, s, id, ok).value)
  {
    var x := s.callers[id];
    assert CallerData(content, x);
    if !x.Missed? && !x.Releasing? && !x.Closing? {
      AdvanceKeepsData(content, s, x, ok);
    }
  }

  lemma AskKeepsClaims(s: State, id: CallerId, idx: nat)
    requires Claims(s) && id !in s.callers
    ensures Claims(s.(callers := s.callers[id := Asking(idx)]))
  {
    var t := s.(callers := s.callers[id := Asking(idx)]);
    forall g | g in t.callers ensures CallerOk(t, g, t.callers[g]) {
      assert g != id ==> CallerOk(s, g, s.callers[g]);
    }
    forall r | r in t.records ensures RecordOk(t, r, t.records[r]) {
      assert RecordOk(s, r, s.records[r]);
    }
    forall k | k in t.inflight ensures ClaimOk(t, k, t.inflight[k]) {
      assert ClaimOk(s, k, s.inflight[k]);
    }
  }

  lemma StepKeepsInv(content: Bytes, s: State, a: Action)
    requires Inv(content, s) && Step(content, s, a).Some?
    ensures Inv(content, Step(content, s, a).value)
  {
    match a
    case Ask(id, idx) => AskKeepsClaims(s, id, idx);
    case Go(id, ok) =>
      GoKeepsClaims(content, s, id, ok);
      GoKeepsData(content, s, id, ok);
    case GiveUp(id) => MoveKeepsClaims(s, id, Returned(s.callers[id].idx, None), s.cache);
  }

  lemma {:induction false} RunKeepsInv(content: Bytes, s: State, run: seq<Action>)
    requires Inv(content, s) && Run(content, s, run).Some?
    ensures Inv(content, Run(content, s, run).value)
    decreases |run|
  {
    if run != [] {
      StepKeepsInv(content, s, run[0]);
      RunKeepsInv(content, Step(content, s, run[0]).value, run[1..]);
    }
  }

  lemma ReachedIsInv(content: Bytes, s: State)
    requires Reached(content, s)
    ensures Inv(content, s)
  {
    var run :| Run(content, START, run) == Some(s);
    RunKeepsInv(content, START, run);
  }

  // ----- what callers can rely on -----

  /** No two fetches of one block run at once. */
  lemma OneFetchPerBlock(content: Bytes, s: State, a: CallerId, b: CallerId)
    requires Reached(content, s)
    requires a in s.callers && b in s.callers
    requires s.callers[a].Fetching? && s.callers[b].Fetching? && s.callers[a].idx == s.callers[b].idx
    ensures a == b
  {
    ReachedIsInv(content, s);
    assert CallerOk(s, a, s.callers[a]) && CallerOk(s, b, s.callers[b]);
  }

  /** Whatever a getBlock returns is its block's plaintext, and so is whatever the cache holds. */
  lemma ReturnedBytesAreTheBlock(content: Bytes, s: State, id: CallerId)
    requires Reached(content, s)
    ensures id in s.callers && s.callers[id].Returned? ==> Correct(content, s.callers[id].idx, s.callers[id].data)
    ensures s.cache.Holds(content)
  {
    ReachedIsInv(content, s);
    if id in s.callers {
      assert CallerData(content, s.callers[id]);
    }
  }

  /** At most four blocks are cached, under an order list that names each once and nothing else. */
  lemma CacheStaysSmall(content: Bytes, s: State)
    requires Reached(content, s)
    ensures s.cache.Valid() && |s.cache.blocks| <= MAX_CACHED_BLOCKS
  {
    ReachedIsInv(content, s);
    SizeOfDistinct(s.cache.order, s.cache.blocks.Keys);
    assert |s.cache.blocks| == |s.cache.blocks.Keys|;
  }

  lemma {:induction false} SizeOfDistinct(order: seq<nat>, keys: set<nat>)
    requires forall i, j :: 0 <= i < j < |order| ==> order[i] != order[j]
    requires forall k :: k in keys <==> k in order
    ensures |keys| == |order|
  {
    if order == [] {
      assert keys == {};
    } else {
      var n := |order| - 1;
      SizeOfDistinct(order[..n], keys - {order[n]});
    }
  }

  /** The regions a claim's owner still has before it closes the record. */
  function ToClose(x: Caller): nat {
    match x
    case Fetching(_, _) => 4
    case Fetched(_, _, _) => 3
    case Releasing(_, _, _) => 2
    case Closing(_, _, _) => 1
    case _ => 0
  }

  /**
   * Each record is closed exactly once, by the caller that claimed it: until then that caller's next
   * region cannot be held up, whether its fetch works or fails, and brings the close nearer.
   */
  lemma RecordIsClosedOnce(content: Bytes, s: State, r: RecordId, ok: bool)
    requires Reached(content, s) && r in s.records
    ensures s.records[r].closes <= 1 && s.records[r].owner in s.callers
    ensures s.records[r].closes == 0 ==>
      var id := s.records[r].owner;
      && Owes(s.callers[id]) == Some(r)
      && Step(content, s, Go(id, ok)).Some?
      && var t := Step(content, s, Go(id, ok)).value;
         ToClose(t.callers[id]) == ToClose(s.callers[id]) - 1 && (ToClose(t.callers[id]) == 0 ==> t.records[r].closes == 1)
  {
    ReachedIsInv(content, s);
    OpenRecordIsOwed(s, r);
    if s.records[r].closes == 0 {
      OwnerComesNearer(content, s, r, ok);
    }
  }

  lemma OpenRecordIsOwed(s: State, r: RecordId)
    requires Claims(s) && r in s.records
    ensures s.records[r].closes <= 1 && s.records[r].owner in s.callers
    ensures s.records[r].closes == 0 ==> Owes(s.callers[s.records[r].owner]) == Some(r)
  {
    assert RecordOk(s, r, s.records[r]);
    assert CallerOk(s, s.records[r].owner, s.callers[s.records[r].owner]);
  }

  lemma OwnerComesNearer(content: Bytes, s: State, r: RecordId, ok: bool)
    requires r in s.records && s.records[r].closes == 0
    requires var id := s.records[r].owner; id in s.callers && Owes(s.callers[id]) == Some(r)
    ensures var id := s.records[r].owner;
      && Step(content, s, Go(id, ok)).Some?
      && var t := Step(content, s, Go(id, ok)).value;
         id in t.callers && ToClose(t.callers[id]) == ToClose(s.callers[id]) - 1 &&
         (ToClose(t.callers[id]) == 0 ==> r in t.records && t.records[r].closes == 1)
  {
  }

  /** A waiter waits for a record that was closed, and then it goes on, or whose owner is still on its way to closing it. */
  lemma NoWaiterIsStranded(content: Bytes, s: State, id: CallerId)
    requires Reached(content, s) && id in s.callers && s.callers[id].Awaiting?
    ensures var r := s.callers[id].rec;
      && r in s.records
      && s.records[r].idx == s.callers[id].idx
      && (s.records[r].closes == 1 ==> Step(content, s, Go(id, true)).Some?)
      && s.records[r].owner in s.callers
      && (s.records[r].closes != 1 ==> ToClose(s.callers[s.records[r].owner]) > 0)
  {
    ReachedIsInv(content, s);
    assert CallerOk(s, id, s.callers[id]);
    assert RecordOk(s, s.callers[id].rec, s.records[s.callers[id].rec]);
  }
}
