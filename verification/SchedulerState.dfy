/** What the scheduler keeps between events, and the step of one request among all the others. */
module SchedulerState {
  import opened Prelude
  import opened PageTree
  import opened TreeEdits
  import opened TierState
  import opened TreeWalk
  import opened TreeFrames
  import opened BlockEvents
  import opened CacheState
  import opened CacheRefs
  import opened WriteBack
  import opened RequestState
  import opened RequestSteps
  import opened PrefillEvents
  import opened DecodeEvents
  import opened WriteBackEvents
  import opened World

  // ---------------------------------------------------------------- the empty cache

  function RootNode(): Node {
    Node(ROOT, map[], [], 0, None, None, false, 0)
  }

  function EmptyCache(hash: BlockHash, deviceTotal: nat, hostTotal: nat): Cache {
    Cache(map[ROOT := RootNode()], 1, Manager(PageIds(deviceTotal), {}, map[]), Manager(PageIds(hostTotal), {}, map[]), Log(hash, {}, []))
  }

  lemma EmptyTier(t: Tree, tier: Tier, m: Manager)
    requires t == map[ROOT := RootNode()] && m.lru == {} && m.nodeTime == map[]
    ensures WF(t) && TierInv(t, m, tier, map[]) && Bag(t, tier) == multiset{}
  {
    assert forall n :: !On(t, n, tier);
    assert Holders(t, map[], ROOT) == {};
    assert RefsExact(t, tier, map[]);
    assert TierPages(t, tier) == map[][ROOT := []];
    GatherAdd(map[], ROOT, []);
  }

  lemma EmptyInv(hash: BlockHash, deviceTotal: nat, hostTotal: nat)
    ensures var c := EmptyCache(hash, deviceTotal, hostTotal);
            CacheInv(c, Live(map[], map[])) && NoSnapshots(c.tree) && Told(c.log, c.tree)
            && PagesIn(c, Device) == multiset(PageIds(deviceTotal)) && PagesIn(c, Host) == multiset(PageIds(hostTotal))
  {
    var c := EmptyCache(hash, deviceTotal, hostTotal);
    EmptyTier(c.tree, Device, c.device);
    EmptyTier(c.tree, Host, c.host);
    ToldNothing(hash, c.tree);
  }

  lemma EmptyWorld(hash: BlockHash, size: nat, deviceTotal: nat, hostTotal: nat)
    requires size > 0
    ensures WorldInv(EmptyCache(hash, deviceTotal, hostTotal), map[], size, deviceTotal, hostTotal)
  {
    EmptyInv(hash, deviceTotal, hostTotal);
    assert LiveOf(map[]) == Live(map[], map[]);
    assert Locals(map[]) == map[];
  }

  /** Why a step of a request can fail: its prefill length ends before its whole pages do, it was given a negative reserve, or
      it must be retracted when its tokens fill whole pages exactly. */
  predicate Breaks(r: Request, cfg: Config)
    requires cfg.size > 0
  {
    || (r.phase == Submitted && CachedBeyond(r, cfg))
    || (r.phase == Decoding && r.reserve < 0)
    || (r.phase in {PrefillDone, Decoding} && |r.tokens| % cfg.size == 0)
  }

  lemma WholeTokens(depth: nat, size: nat, n: nat)
    requires size > 0 && depth * size == n
    ensures n % size == 0
  {
    DivUnique(n, size, depth, 0);
  }

  /** No request but this one has changed, and none has come or gone. */
  ghost predicate OnlyChanged(reqs: Requests, reqs': Requests, id: string) {
    reqs'.Keys == reqs.Keys && forall o :: o in reqs && o != id ==> reqs'[o] == reqs[o]
  }

  /** These pairs were handed out under an operation id that leads back to the request. */
  ghost predicate CopyFor(copies: seq<(nat, seq<(nat, nat)>)>, ops: map<nat, string>, next: nat, id: string, pairs: seq<(nat, nat)>) {
    exists i :: 0 <= i < |copies| && copies[i].1 == pairs && copies[i].0 < next && copies[i].0 in ops && ops[copies[i].0] == id
  }

  lemma CopyMore(copies: seq<(nat, seq<(nat, nat)>)>, ops: map<nat, string>, next: nat, id: string, pairs: seq<(nat, nat)>,
                 more: seq<(nat, seq<(nat, nat)>)>, o: string)
    requires CopyFor(copies, ops, next, id, pairs)
    ensures CopyFor(copies + more, ops[next := o], next + 1, id, pairs) && CopyFor(copies + more, ops, next, id, pairs)
  {
    var i :| 0 <= i < |copies| && copies[i].1 == pairs && copies[i].0 < next && copies[i].0 in ops && ops[copies[i].0] == id;
    assert (copies + more)[i] == copies[i];
  }

  /** What handing out the write-backs makes of a request. */
  ghost predicate Committed(r: Request, r': Request, copies: seq<(nat, seq<(nat, nat)>)>, ops: map<nat, string>, next: nat, id: string) {
    if r.phase != Draining then r' == r
    else if r.pairs == [] then r'.phase == Finished
    else r' == r.(phase := WritingBack) && CopyFor(copies, ops, next, id, r.pairs)
  }

  /** Tokens of a whole batch. */
  function Total(batch: seq<(string, int)>): int {
    if batch == [] then 0 else Total(batch[..|batch| - 1]) + batch[|batch| - 1].1
  }

  lemma TotalMore(batch: seq<(string, int)>, id: string, tokens: int)
    ensures Total(batch + [(id, tokens)]) == Total(batch) + tokens
  {
    assert (batch + [(id, tokens)])[..|batch|] == batch;
  }

  /** All requests but those still to do have been through it. */
  ghost predicate AllCommitted(reqs: Requests, reqs': Requests, todo: set<string>, copies: seq<(nat, seq<(nat, nat)>)>, ops: map<nat, string>, next: nat) {
    && reqs'.Keys == reqs.Keys && todo <= reqs.Keys
    && (forall id :: id in todo ==> reqs'[id] == reqs[id])
    && (forall id :: id in reqs && id !in todo ==> Committed(reqs[id], reqs'[id], copies, ops, next, id))
  }

  lemma CommittedMore(reqs: Requests, mid: Requests, reqs': Requests, todo: set<string>, id: string,
                      copies: seq<(nat, seq<(nat, nat)>)>, ops: map<nat, string>, next: nat,
                      copies': seq<(nat, seq<(nat, nat)>)>, ops': map<nat, string>, next': nat)
    requires AllCommitted(reqs, mid, todo, copies, ops, next) && id in todo && OnlyChanged(mid, reqs', id)
    requires Committed(mid[id], reqs'[id], copies', ops', next', id)
    requires forall o, pairs {:trigger CopyFor(copies', ops', next', o, pairs)} ::
               CopyFor(copies, ops, next, o, pairs) ==> CopyFor(copies', ops', next', o, pairs)
    ensures AllCommitted(reqs, reqs', todo - {id}, copies', ops', next')
  {
    forall o | o in reqs && o !in todo - {id} ensures Committed(reqs[o], reqs'[o], copies', ops', next', o) {
      if o != id { assert Committed(reqs[o], mid[o], copies, ops, next, o); }
    }
  }

  // ---------------------------------------------------------------- copies in flight

  /** The request waits for a copy the executor is making. */
  predicate Flying(r: Request) {
    r.phase in {WritingBack, Retracting}
  }

  /** An operation the request of this id is waiting for. */
  ghost predicate LiveOp(ops: map<nat, string>, stale: set<nat>, op: nat, id: string) {
    op in ops && op !in stale && ops[op] == id
  }

  ghost predicate Waits(reqs: Requests, id: string, pairs: seq<(nat, nat)>) {
    id in reqs && Flying(reqs[id]) && reqs[id].pairs == pairs
  }

  /** An operation that is not stale copies the pairs its request still holds captured. */
  ghost predicate OpOk(reqs: Requests, ops: map<nat, string>, flights: map<nat, seq<(nat, nat)>>, stale: set<nat>, op: nat) {
    op in ops && op !in stale ==> op in flights && Waits(reqs, ops[op], flights[op])
  }

  /** A request that waits for a copy waits for some operation. */
  ghost predicate HasLive(reqs: Requests, ops: map<nat, string>, stale: set<nat>, id: string) {
    id in reqs && Flying(reqs[id]) ==> exists op {:trigger LiveOp(ops, stale, op, id)} :: LiveOp(ops, stale, op, id)
  }

  ghost predicate OneLive(ops: map<nat, string>, stale: set<nat>, a: nat, b: nat) {
    a in ops && b in ops && a !in stale && b !in stale && ops[a] == ops[b] ==> a == b
  }

  /** Every outstanding copy that is not stale is of the pairs its request still holds captured, and every request that
      waits for a copy waits for exactly one. */
  ghost predicate CopiesOk(reqs: Requests, ops: map<nat, string>, flights: map<nat, seq<(nat, nat)>>, stale: set<nat>, next: nat) {
    exists known {:trigger CopiesAll(known, reqs, ops, flights, stale, next)} :: CopiesAll(known, reqs, ops, flights, stale, next)
  }

  ghost predicate CopiesAll(known: set<nat>, reqs: Requests, ops: map<nat, string>, flights: map<nat, seq<(nat, nat)>>, stale: set<nat>, next: nat) {
    && known == flights.Keys == ops.Keys && stale <= ops.Keys && (forall op :: op in known ==> op < next)
    && (forall op {:trigger OpOk(reqs, ops, flights, stale, op)} :: OpOk(reqs, ops, flights, stale, op))
    && (forall id {:trigger HasLive(reqs, ops, stale, id)} :: HasLive(reqs, ops, stale, id))
    && (forall a, b {:trigger OneLive(ops, stale, a, b)} :: OneLive(ops, stale, a, b))
  }

  /** A request that waits for no copy before or after, or for the same pairs before and after. */
  ghost predicate SameFlight(r: Request, r': Request) {
    (Flying(r') <==> Flying(r)) && (Flying(r) ==> r'.pairs == r.pairs)
  }

  lemma CopiesSame(reqs: Requests, reqs': Requests, id: string, ops: map<nat, string>, flights: map<nat, seq<(nat, nat)>>, stale: set<nat>, next: nat)
    requires CopiesOk(reqs, ops, flights, stale, next) && OnlyChanged(reqs, reqs', id)
    requires id in reqs ==> SameFlight(reqs[id], reqs'[id])
    ensures CopiesOk(reqs', ops, flights, stale, next)
  {
    forall op ensures OpOk(reqs', ops, flights, stale, op) { assert OpOk(reqs, ops, flights, stale, op); }
    forall i ensures HasLive(reqs', ops, stale, i) { assert HasLive(reqs, ops, stale, i); }
    assert CopiesAll(ops.Keys, reqs', ops, flights, stale, next);
  }

  /** Requests that wait for nothing come and go. */
  lemma CopiesAdded(reqs: Requests, id: string, r: Request, ops: map<nat, string>, flights: map<nat, seq<(nat, nat)>>, stale: set<nat>, next: nat)
    requires CopiesOk(reqs, ops, flights, stale, next) && id !in reqs && !Flying(r)
    ensures CopiesOk(reqs[id := r], ops, flights, stale, next)
  {
    var reqs': Requests := reqs[id := r];
    forall op ensures OpOk(reqs', ops, flights, stale, op) { assert OpOk(reqs, ops, flights, stale, op); }
    forall i ensures HasLive(reqs', ops, stale, i) { assert HasLive(reqs, ops, stale, i); }
    assert CopiesAll(ops.Keys, reqs', ops, flights, stale, next);
  }

  lemma CopiesErased(reqs: Requests, id: string, ops: map<nat, string>, flights: map<nat, seq<(nat, nat)>>, stale: set<nat>, next: nat)
    requires CopiesOk(reqs, ops, flights, stale, next) && id in reqs && !Flying(reqs[id])
    ensures CopiesOk(reqs - {id}, ops, flights, stale, next)
  {
    forall op ensures OpOk(reqs - {id}, ops, flights, stale, op) { assert OpOk(reqs, ops, flights, stale, op); }
    forall i ensures HasLive(reqs - {id}, ops, stale, i) { assert HasLive(reqs, ops, stale, i); }
    assert CopiesAll(ops.Keys, reqs - {id}, ops, flights, stale, next);
  }

  /** A request starts to wait for a copy of its pairs under a new operation. */
  lemma CopiesStarted(reqs: Requests, reqs': Requests, id: string, ops: map<nat, string>, flights: map<nat, seq<(nat, nat)>>, stale: set<nat>, next: nat)
    requires CopiesOk(reqs, ops, flights, stale, next) && OnlyChanged(reqs, reqs', id) && id in reqs
    requires !Flying(reqs[id]) && Flying(reqs'[id])
    ensures CopiesOk(reqs', ops[next := id], flights[next := reqs'[id].pairs], stale, next + 1)
  {
    var ops', flights' := ops[next := id], flights[next := reqs'[id].pairs];
    forall op ensures OpOk(reqs', ops', flights', stale, op) { assert OpOk(reqs, ops, flights, stale, op); }
    forall i ensures HasLive(reqs', ops', stale, i) {
      if i == id {
        assert LiveOp(ops', stale, next, id);
      } else if i in reqs && Flying(reqs[i]) {
        assert HasLive(reqs, ops, stale, i);
        var op :| LiveOp(ops, stale, op, i);
        assert LiveOp(ops', stale, op, i);
      }
    }
    forall a, b ensures OneLive(ops', stale, a, b) {
      assert OneLive(ops, stale, a, b) && OpOk(reqs, ops, flights, stale, a) && OpOk(reqs, ops, flights, stale, b);
    }
    assert CopiesAll(ops'.Keys, reqs', ops', flights', stale, next + 1);
  }

  /** A request no longer waits: the operation it waited for is stale from now on. */
  lemma CopiesStale(reqs: Requests, reqs': Requests, id: string, ops: map<nat, string>, flights: map<nat, seq<(nat, nat)>>, stale: set<nat>, next: nat,
                    op: nat)
    requires CopiesOk(reqs, ops, flights, stale, next) && OnlyChanged(reqs, reqs', id) && id in reqs
    requires !Flying(reqs'[id]) && LiveOp(ops, stale, op, id)
    ensures CopiesOk(reqs', ops, flights, stale + {op}, next)
  {
    forall o ensures OpOk(reqs', ops, flights, stale + {op}, o) {
      assert OpOk(reqs, ops, flights, stale, o) && OneLive(ops, stale, o, op);
    }
    forall i ensures HasLive(reqs', ops, stale + {op}, i) {
      if i != id && i in reqs && Flying(reqs[i]) {
        assert HasLive(reqs, ops, stale, i);
        var o :| LiveOp(ops, stale, o, i);
        assert LiveOp(ops, stale + {op}, o, i);
      }
    }
    forall a, b ensures OneLive(ops, stale + {op}, a, b) { assert OneLive(ops, stale, a, b); }
    assert CopiesAll(ops.Keys, reqs', ops, flights, stale + {op}, next);
  }

  /** A stale operation is forgotten. */
  lemma CopiesForgotten(reqs: Requests, ops: map<nat, string>, flights: map<nat, seq<(nat, nat)>>, stale: set<nat>, next: nat, op: nat)
    requires CopiesOk(reqs, ops, flights, stale, next) && (op in stale || op !in ops)
    ensures CopiesOk(reqs, ops - {op}, flights - {op}, stale - {op}, next)
  {
    var ops', flights', stale' := ops - {op}, flights - {op}, stale - {op};
    forall o ensures OpOk(reqs, ops', flights', stale', o) { assert OpOk(reqs, ops, flights, stale, o); }
    forall i ensures HasLive(reqs, ops', stale', i) {
      assert HasLive(reqs, ops, stale, i);
      if i in reqs && Flying(reqs[i]) {
        var o :| LiveOp(ops, stale, o, i);
        assert LiveOp(ops', stale', o, i);
      }
    }
    forall a, b ensures OneLive(ops', stale', a, b) { assert OneLive(ops, stale, a, b); }
    assert CopiesAll(ops'.Keys, reqs, ops', flights', stale', next);
  }

  /** What the invariant says of one operation, of one waiting request, and of no operations at all. */
  lemma CopiesWait(reqs: Requests, ops: map<nat, string>, flights: map<nat, seq<(nat, nat)>>, stale: set<nat>, next: nat, op: nat)
    requires CopiesOk(reqs, ops, flights, stale, next)
    ensures op in ops ==> op in flights && (op !in stale ==> Waits(reqs, ops[op], flights[op]))
    ensures op !in ops ==> op !in stale && op !in flights
  {
    assert OpOk(reqs, ops, flights, stale, op);
  }

  lemma CopiesLive(reqs: Requests, ops: map<nat, string>, flights: map<nat, seq<(nat, nat)>>, stale: set<nat>, next: nat, id: string)
    returns (op: nat)
    requires CopiesOk(reqs, ops, flights, stale, next) && id in reqs && Flying(reqs[id])
    ensures LiveOp(ops, stale, op, id)
  {
    assert HasLive(reqs, ops, stale, id);
    op :| LiveOp(ops, stale, op, id);
  }

  lemma CopiesUnique(reqs: Requests, ops: map<nat, string>, flights: map<nat, seq<(nat, nat)>>, stale: set<nat>, next: nat, a: nat, b: nat, id: string)
    requires CopiesOk(reqs, ops, flights, stale, next) && LiveOp(ops, stale, a, id) && LiveOp(ops, stale, b, id)
    ensures a == b
  {
    assert OneLive(ops, stale, a, b);
  }

  lemma CopiesNone()
    ensures CopiesOk(map[], map[], map[], {}, 1)
  {
    assert CopiesAll({}, map[], map[], map[], {}, 1);
  }

  /** All finished requests but those still to do are gone, and nothing else is. */
  ghost predicate Erasing(reqs: Requests, reqs': Requests, todo: set<string>) {
    && reqs'.Keys <= reqs.Keys && todo <= reqs'.Keys
    && (forall id :: id in reqs' ==> reqs'[id] == reqs[id] && (id in todo || reqs'[id].phase != Finished))
    && (forall id :: id in reqs && reqs[id].phase != Finished ==> id in reqs')
  }

  /** A first window of no tokens ends the prefill at once. */
  lemma FirstWindow(t: Tree, r: Request, t': Tree, r': Request, budget: int, cfg: Config)
    requires cfg.size > 0 && WF(t) && StartsChunks(t, r, t', r', budget, cfg) && budget > 0
    ensures r'.size <= budget && r'.phase in {Prefilling, PrefillDone} && (r'.size == 0 ==> r'.phase == PrefillDone)
    ensures r'.size < 0 ==> CachedBeyond(r, cfg)
  {
    var dm, hm :| ChunkAfter(t, r, t', r', dm, hm, budget, cfg);
    OverrunsAt(t, r, dm, hm, cfg);
  }

  /** What never changes: settings, block hash and page counts. */
  datatype Setup = Setup(cfg: Config, hash: BlockHash, deviceTotal: nat, hostTotal: nat)

  /** The scheduler's requests, cache and log are in order, whichever request is looked at. */
  ghost predicate Sane(c: Cache, reqs: Requests, k: Setup) {
    forall id {:trigger SaneFor(c, reqs, k, id)} :: SaneFor(c, reqs, k, id)
  }

  ghost predicate SaneFor(c: Cache, reqs: Requests, k: Setup, id: string) {
    && WorldInv(c, reqs, k.cfg.size, k.deviceTotal, k.hostTotal) && c.log.hash == k.hash
    && (id in reqs ==> Begin(c, LiveOf(reqs), id, reqs[id], k.cfg.size) && PhaseOk(c.tree, reqs[id], k.cfg.size))
  }

  lemma SaneIs(c: Cache, reqs: Requests, k: Setup)
    requires WorldInv(c, reqs, k.cfg.size, k.deviceTotal, k.hostTotal) && c.log.hash == k.hash
    ensures Sane(c, reqs, k)
  {
    forall id ensures SaneFor(c, reqs, k, id) {
      if id in reqs { WorldBegin(c, reqs, id, k.cfg.size, k.deviceTotal, k.hostTotal); }
    }
  }

  lemma SaneWorld(c: Cache, reqs: Requests, k: Setup)
    requires Sane(c, reqs, k)
    ensures WorldInv(c, reqs, k.cfg.size, k.deviceTotal, k.hostTotal) && c.log.hash == k.hash
  {
    assert SaneFor(c, reqs, k, "");
  }

  lemma SaneBegin(c: Cache, reqs: Requests, id: string, k: Setup)
    requires Sane(c, reqs, k) && id in reqs
    ensures Begin(c, LiveOf(reqs), id, reqs[id], k.cfg.size) && PhaseOk(c.tree, reqs[id], k.cfg.size)
  {
    assert SaneFor(c, reqs, k, id);
  }

  lemma SaneStep(c: Cache, reqs: Requests, id: string, c': Cache, r': Request, k: Setup)
    requires Sane(c, reqs, k) && id in reqs
    requires StepOk(c, LiveOf(reqs), id, reqs[id], c', r', k.cfg.size) && PhaseOk(c'.tree, r', k.cfg.size)
    ensures Sane(c', reqs[id := r'], k) && Grows(c.log, c'.log)
  {
    SaneWorld(c, reqs, k);
    WorldStep(c, reqs, id, c', r', k.cfg.size, k.deviceTotal, k.hostTotal);
    SaneIs(c', reqs[id := r'], k);
  }

  lemma SaneSubmit(c: Cache, reqs: Requests, id: string, r: Request, k: Setup)
    requires Sane(c, reqs, k) && id !in reqs
    requires r.phase == Submitted && Bare(r) && r.prefill <= |r.tokens|
    ensures Sane(c, reqs[id := r], k)
  {
    SaneWorld(c, reqs, k);
    WorldSubmit(c, reqs, id, r, k.cfg.size, k.deviceTotal, k.hostTotal);
    SaneIs(c, reqs[id := r], k);
  }

  lemma SaneErase(c: Cache, reqs: Requests, id: string, k: Setup)
    requires Sane(c, reqs, k) && id in reqs && reqs[id].phase == Finished
    ensures Sane(c, reqs - {id}, k)
  {
    SaneWorld(c, reqs, k);
    WorldErase(c, reqs, id, k.cfg.size, k.deviceTotal, k.hostTotal);
    SaneIs(c, reqs - {id}, k);
  }

  lemma SaneEmpty(k: Setup)
    requires k.cfg.size > 0
    ensures Sane(EmptyCache(k.hash, k.deviceTotal, k.hostTotal), map[], k)
  {
    EmptyWorld(k.hash, k.cfg.size, k.deviceTotal, k.hostTotal);
    SaneIs(EmptyCache(k.hash, k.deviceTotal, k.hostTotal), map[], k);
  }

  // ---------------------------------------------------------------- steps of one request among all

  /** The outcome of a step: everything is in order, and the log has only grown. */
  ghost predicate StepDone(c: Cache, reqs: Requests, id: string, c': Cache, r': Request, k: Setup) {
    Sane(c', reqs[id := r'], k) && Grows(c.log, c'.log)
  }

  /** Results arrive. */
  method ExtendOne(c: Cache, reqs: Requests, id: string, more: seq<Token>, now: int, k: Setup) returns (c': Cache, r': Request, threw: bool)
    requires Sane(c, reqs, k) && id in reqs
    ensures !threw ==> StepDone(c, reqs, id, c', r', k)
    ensures threw <==> ResultThrows(reqs[id])
    ensures !threw ==> SameFlight(reqs[id], r') && (reqs[id].phase != Finished ==> r'.tokens == reqs[id].tokens + more)
  {
    SaneBegin(c, reqs, id, k);
    c', r', threw := ExtendResult(c, LiveOf(reqs), id, reqs[id], more, k.cfg, now);
    if !threw { SaneStep(c, reqs, id, c', r', k); }
  }

  /** A new reserve. */
  method ReserveOne(c: Cache, reqs: Requests, id: string, value: int, k: Setup) returns (r': Request, threw: bool)
    requires Sane(c, reqs, k) && id in reqs
    ensures StepDone(c, reqs, id, c, r', k) && SameFlight(reqs[id], r')
    ensures threw <==> reqs[id].phase !in {Decoding, Retracting, Retracted, Finished}
    ensures r' == if reqs[id].phase == Decoding then reqs[id].(reserve := value) else reqs[id]
  {
    SaneBegin(c, reqs, id, k);
    r', threw := UpdateReserve(reqs[id], value);
    QuietStart(c, LiveOf(reqs), id, reqs[id], k.cfg.size);
    Relabel(c, LiveOf(reqs), id, reqs[id], c, reqs[id], r', k.cfg.size);
    SaneStep(c, reqs, id, c, r', k);
  }

  /** The executor reports the end of a request. */
  method FinishOne(c: Cache, reqs: Requests, id: string, now: int, k: Setup) returns (c': Cache, r': Request, threw: bool)
    requires Sane(c, reqs, k) && id in reqs && k.cfg.size > 0
    ensures !threw ==> StepDone(c, reqs, id, c', r', k)
    ensures !threw ==> SameFlight(reqs[id], r') && r'.phase in {Finished, Draining, WritingBack}
    ensures !threw && reqs[id].phase in {PrefillDone, Decoding} ==> Settled(c', r', KeyPages(reqs[id].tokens, k.cfg.size), k.cfg)
  {
    SaneBegin(c, reqs, id, k);
    c', r', threw := Finish(c, LiveOf(reqs), id, reqs[id], k.cfg, now);
    if !threw { SaneStep(c, reqs, id, c', r', k); }
  }

  /** The client gives up. */
  method AbortOne(c: Cache, reqs: Requests, id: string, k: Setup) returns (c': Cache, r': Request, threw: bool)
    requires Sane(c, reqs, k) && id in reqs
    ensures !threw ==> StepDone(c, reqs, id, c', r', k)
    ensures threw <==> reqs[id].phase == WritingBack
    ensures !threw ==> r'.phase == Finished && Bare(r')
  {
    SaneBegin(c, reqs, id, k);
    c', r', threw := Abort(c, LiveOf(reqs), id, reqs[id], k.cfg.size);
    if !threw { SaneStep(c, reqs, id, c', r', k); }
  }

  /** The copies of a request are done. */
  method CopiedOne(c: Cache, reqs: Requests, id: string, k: Setup) returns (c': Cache, r': Request, threw: bool)
    requires Sane(c, reqs, k) && id in reqs
    ensures !threw ==> StepDone(c, reqs, id, c', r', k)
    ensures threw <==> !Flying(reqs[id])
    ensures !threw ==> TierKept(c.tree, c'.tree, Host)
    ensures !threw ==> r'.phase == if reqs[id].phase == WritingBack then Finished else Retracted
  {
    SaneBegin(c, reqs, id, k);
    c', r', threw := WriteBackDone(c, LiveOf(reqs), id, reqs[id], k.cfg.size);
    if !threw { SaneStep(c, reqs, id, c', r', k); }
  }

  /** A draining request goes on. */
  method CommitOne(c: Cache, reqs: Requests, id: string, k: Setup) returns (c': Cache, r': Request)
    requires Sane(c, reqs, k) && id in reqs && reqs[id].phase == Draining
    ensures StepDone(c, reqs, id, c', r', k)
    ensures if reqs[id].pairs != [] then r' == reqs[id].(phase := WritingBack) else r'.phase == Finished
  {
    SaneBegin(c, reqs, id, k);
    c', r' := CommitDraining(c, LiveOf(reqs), id, reqs[id], k.cfg.size);
    SaneStep(c, reqs, id, c', r', k);
  }

  /** A later prefill chunk. */
  method ChunkOne(c: Cache, reqs: Requests, id: string, budget: int, admit: bool, now: int, k: Setup) returns (c': Cache, r': Request, took: bool, threw: bool)
    requires Sane(c, reqs, k) && id in reqs && reqs[id].phase == Prefilling && budget > 0
    ensures !threw ==> StepDone(c, reqs, id, c', r', k)
    ensures !threw && r'.phase in {Prefilling, PrefillDone} && (took ==> 0 < r'.size <= budget)
  {
    SaneBegin(c, reqs, id, k);
    c', r', took, threw := PrefillChunk(c, LiveOf(reqs), id, reqs[id], budget, k.cfg, admit, now);
    if !threw { SaneStep(c, reqs, id, c', r', k); }
  }

  /** A first chunk. */
  method FirstOne(c: Cache, reqs: Requests, id: string, budget: int, slots: bool, admit: bool, now: int, k: Setup) returns (c': Cache, r': Request, took: bool, threw: bool)
    requires Sane(c, reqs, k) && id in reqs && reqs[id].phase == Submitted && budget > 0 && k.cfg.size > 0
    ensures !threw ==> StepDone(c, reqs, id, c', r', k)
    ensures threw ==> Breaks(reqs[id], k.cfg)
    ensures !threw ==> if took then 0 <= r'.size <= budget && r'.phase in {Prefilling, PrefillDone} && (r'.size == 0 ==> r'.phase == PrefillDone)
                       else r' == reqs[id]
  {
    SaneBegin(c, reqs, id, k);
    c', r', took, threw := FirstChunk(c, LiveOf(reqs), id, reqs[id], budget, k.cfg, slots, admit, now);
    if took && !threw { FirstWindow(c.tree, reqs[id], c'.tree, r', budget, k.cfg); }
    if !threw { SaneStep(c, reqs, id, c', r', k); }
  }

  /** A decode step. */
  method DecodeOne(c: Cache, reqs: Requests, id: string, admit: bool, now: int, k: Setup) returns (c': Cache, r': Request, took: bool, threw: bool)
    requires Sane(c, reqs, k) && id in reqs && reqs[id].phase in {PrefillDone, Decoding}
    ensures !threw ==> StepDone(c, reqs, id, c', r', k)
    ensures threw <==> reqs[id].phase == Decoding && reqs[id].reserve < 0
    ensures !threw ==> if took then r'.phase == Decoding else r' == reqs[id]
  {
    SaneBegin(c, reqs, id, k);
    c', r', took, threw := Decode(c, LiveOf(reqs), id, reqs[id], k.cfg, admit, now);
    if !threw { SaneStep(c, reqs, id, c', r', k); }
  }

  /** The recovery of a retracted request. */
  method RecoverOne(c: Cache, reqs: Requests, id: string, slots: bool, admit: bool, now: int, k: Setup) returns (c': Cache, r': Request, took: bool, threw: bool)
    requires Sane(c, reqs, k) && id in reqs && reqs[id].phase == Retracted
    ensures !threw ==> StepDone(c, reqs, id, c', r', k)
    ensures !threw && if took then r'.phase == Decoding else r' == reqs[id]
  {
    SaneBegin(c, reqs, id, k);
    c', r', took, threw := DecodeFromRetracted(c, LiveOf(reqs), id, reqs[id], k.cfg, slots, admit, now);
    if !threw { SaneStep(c, reqs, id, c', r', k); }
  }

  /** A decoding request is pushed off the device. */
  method RetractFrom(c: Cache, reqs: Requests, id: string, now: int, k: Setup) returns (c': Cache, r': Request, threw: bool)
    requires Sane(c, reqs, k) && id in reqs && reqs[id].phase in {PrefillDone, Decoding} && k.cfg.size > 0
    ensures !threw ==> StepDone(c, reqs, id, c', r', k) && r'.phase in {Retracting, Retracted, Finished}
    ensures threw ==> Breaks(reqs[id], k.cfg)
  {
    SaneBegin(c, reqs, id, k);
    ghost var depth := c.tree[reqs[id].dev.value].depth;
    c', r', threw := Retract(c, LiveOf(reqs), id, reqs[id], k.cfg, now);
    if threw { WholeTokens(depth, k.cfg.size, |reqs[id].tokens|); } else { SaneStep(c, reqs, id, c', r', k); }
  }
}
