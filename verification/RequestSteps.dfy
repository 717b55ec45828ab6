/** The moves that events are made of, each on the cache and one request. */
module RequestSteps {
  import opened Prelude
  import opened PageTree
  import opened TreeEdits
  import opened TierState
  import opened TierEdits
  import opened TreeWalk
  import opened TreeFrames
  import opened BlockEvents
  import opened CacheState
  import opened CacheWalk
  import opened CacheAttach
  import opened CacheInsert
  import opened CacheDemote
  import opened CacheRefs
  import opened WriteBack
  import opened LocalPages
  import opened RequestState

  // ---------------------------------------------------------------- the free list

  /** The free list plays no part in the cache invariant. */
  lemma FreeInv(c: Cache, live: Live, tier: Tier, free: seq<nat>)
    requires CacheInv(c, live)
    ensures CacheInv(WithMgr(c, tier, Mgr(c, tier).(free := free)), live)
  {
  }

  lemma OthersSame(t: Tree, live: Live, id: string)
    requires WF(t) && RefsExact(t, Device, live.device) && RefsExact(t, Host, live.host)
    ensures OthersKept(t, t, live, id)
  {
  }

  /** Exchanging the request's own pages with the free list is a step. */
  lemma PoolStep(c: Cache, live: Live, id: string, r: Request, free: seq<nat>, local: seq<nat>, tail: nat, size: nat)
    requires Begin(c, live, id, r, size)
    requires multiset(free) + multiset(local) == multiset(c.device.free) + multiset(r.local)
    ensures StepOk(c, live, id, r, c.(device := c.device.(free := free)), r.(local := local, tail := tail), size)
  {
    FreeInv(c, live, Device, free);
    OthersSame(c.tree, live, id);
    Regroup(multiset(free), Bag(c.tree, Device), multiset(local), multiset(c.device.free), multiset(r.local));
  }

  lemma Regroup(a: multiset<nat>, b: multiset<nat>, x: multiset<nat>, a': multiset<nat>, x': multiset<nat>)
    requires a + x == a' + x'
    ensures (a + b) + x == (a' + b) + x'
  {
    assert (a + b) + x == (a + x) + b;
    assert (a' + b) + x' == (a' + x') + b;
  }

  /** Take device pages for num more tokens. */
  method AcquireTokens(c: Cache, ghost live: Live, ghost id: string, r: Request, num: int, size: nat)
    returns (c': Cache, r': Request, ok: bool)
    requires Begin(c, live, id, r, size)
    ensures StepOk(c, live, id, r, c', r', size) && c'.tree == c.tree
    ensures r' == r.(local := r'.local, tail := r'.tail)
    ensures ok <==> PagesFor(num, r.tail, size) <= |c.device.free|
    ensures !ok ==> c' == c && r' == r
    ensures ok ==> r.local <= r'.local && (|r'.local|, r'.tail) == Grow((|r.local|, r.tail), num, size)
    ensures ok ==> |c'.device.free| == |c.device.free| - PagesFor(num, r.tail, size)
  {
    var free, local, tail;
    free, local, tail, ok := Acquire(c.device.free, r.local, r.tail, num, size);
    PoolStep(c, live, id, r, free, local, tail, size);
    c', r' := c.(device := c.device.(free := free)), r.(local := local, tail := tail);
  }

  /** The request's own allocator gives all its pages back. */
  method FreeLocal(c: Cache, ghost live: Live, ghost id: string, r: Request, ghost size: nat) returns (c': Cache, r': Request)
    requires Begin(c, live, id, r, size)
    ensures StepOk(c, live, id, r, c', r', size) && c'.tree == c.tree && c'.host == c.host && r' == r.(local := [], tail := 0)
  {
    assert multiset(c.device.free + r.local) == multiset(c.device.free) + multiset(r.local);
    PoolStep(c, live, id, r, c.device.free + r.local, [], 0, size);
    c', r' := c.(device := c.device.(free := c.device.free + r.local)), r.(local := [], tail := 0);
  }

  // ---------------------------------------------------------------- matching and making room

  /** Match whole pages; the request is not touched. */
  method MatchFor(c: Cache, ghost live: Live, ghost id: string, ghost r: Request, q: seq<Page>, now: int, bypass: bool, ghost size: nat)
    returns (c': Cache, d: NodeId, h: NodeId)
    requires Begin(c, live, id, r, size)
    ensures StepOk(c, live, id, r, c', r, size) && SameMeaning(c.tree, c'.tree)
    ensures c' == c.(tree := c'.tree, next := c'.next)
    ensures TierMatch(c'.tree, q, Device, d) && TierMatch(c'.tree, q, Host, h)
    ensures bypass ==> d == ROOT && h == ROOT
    ensures !bypass ==> LongestResident(c'.tree, q, Device, c'.tree[d].depth) && LongestResident(c'.tree, q, Host, c'.tree[h].depth)
  {
    c', d, h := Match(c, live, q, now, bypass);
    KeptByExtends(c, live, c'.tree);
    QuietStep(c, live, id, r, c', size);
  }

  lemma NoTemp(live: Live, tier: Tier)
    requires OnlyOwn(live)
    ensures Temp !in RefsOn(live, tier) && forall id :: New(id) !in RefsOn(live, tier)
  {
  }

  /** Evict under a temporary lock; the request is not touched. */
  method RoomFor(c: Cache, ghost live: Live, ghost id: string, ghost r: Request, lockTier: Tier, n: NodeId, tier: Tier, required: int, ghost size: nat)
    returns (c': Cache, ok: bool)
    requires Begin(c, live, id, r, size) && n in c.tree && (n == ROOT || On(c.tree, n, lockTier))
    ensures StepOk(c, live, id, r, c', r, size)
    ensures AllKept(c.tree, c'.tree, live) && Kept(c.tree, c'.tree, n, lockTier) && TierKept(c.tree, c'.tree, Other(tier))
    ensures ok <==> |Mgr(c', tier).free| >= required
    ensures NoneGained(c.tree, c'.tree) && (required <= |Mgr(c, tier).free| ==> |Mgr(c', tier).free| == |Mgr(c, tier).free|)
  {
    NoTemp(live, lockTier);
    c', ok := MakeRoom(c, live, lockTier, n, tier, required);
    QuietStep(c, live, id, r, c', size);
  }

  /** Evict with no extra lock. */
  method RoomUnlocked(c: Cache, ghost live: Live, ghost id: string, ghost r: Request, required: int, ghost size: nat)
    returns (c': Cache, ok: bool)
    requires Begin(c, live, id, r, size)
    ensures StepOk(c, live, id, r, c', r, size) && AllKept(c.tree, c'.tree, live)
    ensures ok <==> |c'.device.free| >= required
  {
    c', ok := EvictFor(c, live, Device, required);
    QuietStep(c, live, id, r, c', size);
  }

  // ---------------------------------------------------------------- references

  /** The pages of the path the request holds on the device. */
  method PrefixPages(c: Cache, ghost live: Live, ghost id: string, r: Request, ghost size: nat) returns (pages: seq<nat>)
    requires Begin(c, live, id, r, size) && r.dev.Some?
    ensures r.dev.value in c.tree && pages == Chain(c.tree, r.dev.value, Device) && |pages| == c.tree[r.dev.value].depth
  {
    OwnRefs(live, id, r, Device);
    pages := DevicePagesFromRoot(c.tree, r.dev.value);
    ChainLength(c.tree, r.dev.value, Device);
  }

  function WithRef(r: Request, tier: Tier, o: Option<NodeId>): Request {
    match tier case Device => r.(dev := o) case Host => r.(host := o)
  }

  function RefOf(r: Request, tier: Tier): Option<NodeId> {
    match tier case Device => r.dev case Host => r.host
  }

  lemma OwnRefs(live: Live, id: string, r: Request, tier: Tier)
    requires live == After(live, id, r)
    ensures if RefOf(r, tier).Some? then Own(id) in RefsOn(live, tier) && RefsOn(live, tier)[Own(id)] == RefOf(r, tier).value
            else Own(id) !in RefsOn(live, tier)
  {
  }

  lemma HeldLive(live: Live, id: string, r: Request, tier: Tier, n: NodeId)
    requires live == After(live, id, r)
    ensures After(live, id, WithRef(r, tier, Some(n))) == WithRefs(live, tier, RefsOn(live, tier)[Own(id) := n])
    ensures After(live, id, WithRef(r, tier, None)) == WithRefs(live, tier, RefsOn(live, tier) - {Own(id)})
    ensures OnlyOwn(live) ==> OnlyOwn(After(live, id, WithRef(r, tier, Some(n)))) && OnlyOwn(After(live, id, WithRef(r, tier, None)))
  {
  }

  /** A change of one reference is a step once the cache invariant is known for the new references. */
  lemma RefStep(c: Cache, live: Live, id: string, r: Request, c': Cache, r': Request, size: nat)
    requires Begin(c, live, id, r, size) && SamePages(c, c')
    requires CacheInv(c', After(live, id, r')) && OnlyOwn(After(live, id, r')) && r'.local == r.local
    requires Fits(c'.tree, r', size)
    ensures StepOk(c, live, id, r, c', r', size)
  {
    AfterAfter(live, id, r', r');
    KeptByExtends(c, live, c'.tree);
    OthersFromAll(c.tree, c'.tree, live, id);
  }

  /** The request's reference on a tier moves to node n. */
  method HoldNode(c: Cache, ghost live: Live, ghost id: string, r: Request, tier: Tier, n: NodeId, ghost size: nat)
    returns (c': Cache, r': Request)
    requires Begin(c, live, id, r, size) && r.pairs == [] && n in c.tree && (n == ROOT || On(c.tree, n, tier))
    requires tier == Device ==> Path(c.tree, n) <= FullPages(r.tokens, size)
    ensures StepOk(c, live, id, r, c', r', size) && SamePages(c, c') && r' == WithRef(r, tier, Some(n))
  {
    NoTemp(live, tier);
    OwnRefs(live, id, r, tier);
    HeldLive(live, id, r, tier, n);
    c' := Hold(c, live, tier, id, RefOf(r, tier), n);
    r' := WithRef(r, tier, Some(n));
    FitsHeld(c, live, id, r, c', tier, n, size);
    RefStep(c, live, id, r, c', r', size);
  }

  lemma FitsHeld(c: Cache, live: Live, id: string, r: Request, c': Cache, tier: Tier, n: NodeId, size: nat)
    requires Begin(c, live, id, r, size) && r.pairs == [] && n in c.tree && (n == ROOT || On(c.tree, n, tier))
    requires tier == Device ==> Path(c.tree, n) <= FullPages(r.tokens, size)
    requires SamePages(c, c')
    ensures Fits(c'.tree, WithRef(r, tier, Some(n)), size)
  {
    OwnRefs(live, id, r, Device);
    assert Kept(c.tree, c'.tree, n, tier);
    if r.dev.Some? { assert Kept(c.tree, c'.tree, r.dev.value, Device); }
  }

  /** The request drops its reference on a tier, and with it what it had captured. */
  method ReleaseNode(c: Cache, ghost live: Live, ghost id: string, r: Request, tier: Tier, ghost size: nat) returns (c': Cache, r': Request)
    requires Begin(c, live, id, r, size)
    ensures StepOk(c, live, id, r, c', r', size) && SamePages(c, c') && r' == WithRef(r, tier, None).(pairs := [])
  {
    OwnRefs(live, id, r, tier);
    HeldLive(live, id, r, tier, ROOT);
    c' := Release(c, live, tier, id, RefOf(r, tier));
    r' := WithRef(r, tier, None).(pairs := []);
    OwnRefs(live, id, r, Device);
    if r.dev.Some? { assert Kept(c.tree, c'.tree, r.dev.value, Device); }
    assert After(live, id, r') == After(live, id, WithRef(r, tier, None));
    RefStep(c, live, id, r, c', r', size);
  }

  // ---------------------------------------------------------------- insertion

  lemma CutBag(local: seq<nat>, k: nat, total: multiset<nat>)
    requires k <= |local|
    ensures (total + multiset(local[..k])) + multiset(local[k..]) == total + multiset(local)
  {
    MultisetSplit(local, k);
  }

  lemma PrefixOfBoth(a: seq<Page>, q: seq<Page>, all: seq<Page>)
    requires a <= all && q <= all && |a| <= |q|
    ensures a == q[..|a|]
  {
  }

  /** Insert whole pages q of the request, the first of them those of its device node, offering its own first pages for the rest. */
  method InsertFrom(c: Cache, ghost live: Live, ghost id: string, r: Request, q: seq<Page>, d: nat, now: int, ghost size: nat)
    returns (c': Cache, r': Request, last: NodeId)
    requires Begin(c, live, id, r, size) && r.dev.Some? && q <= FullPages(r.tokens, size)
    requires d == c.tree[r.dev.value].depth <= |q| <= d + |r.local|
    ensures StepOk(c, live, id, r, c', r', size) && r' == r.(local := r.local[|q| - d..])
    ensures last in c'.tree && Path(c'.tree, last) == q && (last == ROOT || On(c'.tree, last, Device))
    ensures Extends(c.tree, c'.tree)
    ensures |c'.device.free| >= |c.device.free|
  {
    DevNode(c, live, id, r, q, size);
    var k := |q| - d;
    c', last := InsertPages(c, live, q, d, r.local[..k], now, r.dev.value);
    r' := r.(local := r.local[k..]);
    InsertStep(c, live, id, r, c', k, size);
  }

  lemma DevNode(c: Cache, live: Live, id: string, r: Request, q: seq<Page>, size: nat)
    requires Begin(c, live, id, r, size) && r.dev.Some? && q <= FullPages(r.tokens, size)
    requires c.tree[r.dev.value].depth <= |q|
    ensures var p := r.dev.value; Path(c.tree, p) == q[..c.tree[p].depth] && (p == ROOT || On(c.tree, p, Device))
  {
    OwnRefs(live, id, r, Device);
    PrefixOfBoth(Path(c.tree, r.dev.value), q, FullPages(r.tokens, size));
  }

  /** Insertion as a request sees it. */
  method InsertPages(c: Cache, ghost live: Live, q: seq<Page>, d: nat, alloc: seq<nat>, now: int, ghost p: NodeId)
    returns (c': Cache, last: NodeId)
    requires CacheInv(c, live) && NoSnapshots(c.tree) && d + |alloc| == |q|
    requires p in c.tree && (p == ROOT || On(c.tree, p, Device)) && Path(c.tree, p) == q[..d]
    ensures CacheInv(c', live) && Extends(c.tree, c'.tree) && NoSnapshots(c'.tree)
    ensures last in c'.tree && Path(c'.tree, last) == q && (last == ROOT || On(c'.tree, last, Device))
    ensures PagesIn(c', Device) == PagesIn(c, Device) + multiset(alloc) && PagesIn(c', Host) == PagesIn(c, Host)
    ensures |c'.device.free| >= |c.device.free| && Keeps(c, c')
  {
    NeverBlocked(c.tree, q);
    var inserted, broken;
    c', last, inserted, broken := Insert(c, live, Device, q, d, alloc, now, p);
  }

  lemma InsertStep(c: Cache, live: Live, id: string, r: Request, c': Cache, k: nat, size: nat)
    requires Begin(c, live, id, r, size) && k <= |r.local|
    requires CacheInv(c', live) && Extends(c.tree, c'.tree) && NoSnapshots(c'.tree)
    requires PagesIn(c', Device) == PagesIn(c, Device) + multiset(r.local[..k]) && PagesIn(c', Host) == PagesIn(c, Host)
    requires Keeps(c, c')
    ensures StepOk(c, live, id, r, c', r.(local := r.local[k..]), size)
  {
    KeptByExtends(c, live, c'.tree);
    OthersFromAll(c.tree, c'.tree, live, id);
    OwnRefs(live, id, r, Device);
    OwnRefs(live, id, r, Host);
    FitsKept(c.tree, c'.tree, r, size);
    CutBag(r.local, k, PagesIn(c, Device));
  }

  // ---------------------------------------------------------------- load-back, write-back, demotion

  /** Give the whole root path of x pages on a tier. */
  method BringTo(c: Cache, ghost live: Live, ghost id: string, ghost r: Request, tier: Tier, x: NodeId, ghost size: nat)
    returns (c': Cache, ok: bool)
    requires Begin(c, live, id, r, size) && x in c.tree
    ensures StepOk(c, live, id, r, c', r, size) && Extends(c.tree, c'.tree)
    ensures ok <==> c.tree[x].depth - |Chain(c.tree, x, tier)| <= |Mgr(c, tier).free|
    ensures !ok ==> c' == c
    ensures ok ==> SameShape(c.tree, c'.tree) && (x == ROOT || On(c'.tree, x, tier))
    ensures ok ==> |Mgr(c', tier).free| == |Mgr(c, tier).free| - (c.tree[x].depth - |Chain(c.tree, x, tier)|)
  {
    c', ok := AllocateResourceOfType(c, live, tier, x);
    KeptByExtends(c, live, c'.tree);
    QuietStep(c, live, id, r, c', size);
  }

  /** Release the device reference, then give back device pages the host covers. */
  method DemoteFor(c: Cache, ghost live: Live, ghost id: string, ghost r: Request, n: NodeId, ghost size: nat) returns (c': Cache)
    requires Begin(c, live, id, r, size) && n in c.tree
    ensures StepOk(c, live, id, r, c', r, size) && TierKept(c.tree, c'.tree, Host)
  {
    ghost var gone;
    c', gone := ReleaseDeviceResourcesPresentOnHost(c, live, n);
    KeptByShrinks(c, live, c'.tree, Device);
    QuietStep(c, live, id, r, c', size);
  }
}
