/** One request: its tokens, its scheduling phase, the tree references it holds and the pages of its own. */
module RequestState {
  import opened Prelude
  import opened PageTree
  import opened TierState
  import opened TreeFrames
  import opened BlockEvents
  import opened CacheState
  import opened CacheRefs
  import opened WriteBack

  datatype Phase =
    Submitted | Prefilling | PrefillDone | Decoding | Draining | WritingBack | Retracting | Retracted | Finished

  /** `dev` and `host` are the nodes whose root paths the request locks; `local` the pages of its own allocator, the
      last of which has room for `tail` tokens; [start, start + size) the prefill window; `pairs` the captured
      device and host pages of a pending write-back. */
  datatype Request = Request(
    tokens: seq<Token>,
    prefill: nat,
    phase: Phase,
    dev: Option<NodeId>,
    host: Option<NodeId>,
    local: seq<nat>,
    tail: nat,
    start: int,
    size: int,
    reserve: int,
    pairs: seq<(nat, nat)>)

  // ---------------------------------------------------------------- whole pages of tokens

  lemma WholePage(n: nat, size: nat, i: nat)
    requires size > 0 && i < n / size
    ensures 0 <= i * size <= (i + 1) * size <= n
  {
    MulMonotone(i + 1, n / size, size);
    assert n == (n / size) * size + n % size;
  }

  /** The tokens cut into whole pages; a partial last page is left out. */
  function FullPages(tokens: seq<Token>, size: nat): (q: seq<Page>)
    requires size > 0
    ensures |q| == |tokens| / size
  {
    seq(|tokens| / size, i requires 0 <= i < |tokens| / size =>
      WholePage(|tokens|, size, i); tokens[i * size..(i + 1) * size])
  }

  /** Whole pages when the last token is not counted. */
  function KeyLen(tokens: seq<Token>, size: nat): (n: nat)
    requires size > 0
    ensures n <= |tokens| / size
  {
    if tokens == [] then 0 else
      DivMonotone(|tokens| - 1, |tokens|, size);
      (|tokens| - 1) / size
  }

  function KeyPages(tokens: seq<Token>, size: nat): (q: seq<Page>)
    requires size > 0
    ensures q <= FullPages(tokens, size)
  {
    FullPages(tokens, size)[..KeyLen(tokens, size)]
  }

  lemma DivMonotone(a: nat, b: nat, d: nat)
    requires a <= b && d > 0
    ensures a / d <= b / d
  {
    assert a == (a / d) * d + a % d && b == (b / d) * d + b % d;
    MulMonotone(b / d + 1, a / d, d);
  }

  /** Appending tokens keeps the whole pages there were. */
  lemma ExtendKeepsPages(tokens: seq<Token>, more: seq<Token>, size: nat)
    requires size > 0
    ensures FullPages(tokens, size) <= FullPages(tokens + more, size)
  {
    var all := tokens + more;
    DivMonotone(|tokens|, |all|, size);
    forall i | 0 <= i < |tokens| / size ensures FullPages(all, size)[i] == FullPages(tokens, size)[i] {
      WholePage(|tokens|, size, i);
      assert all[i * size..(i + 1) * size] == tokens[i * size..(i + 1) * size];
    }
  }

  // ---------------------------------------------------------------- how a request sits in the tree

  /** The request's device node spells whole pages of its tokens, and its captured pairs are true of that node. */
  ghost predicate Fits(t: Tree, r: Request, size: nat)
    requires size > 0
  {
    && WF(t)
    && (r.dev.Some? ==> r.dev.value in t && Path(t, r.dev.value) <= FullPages(r.tokens, size))
    && (r.pairs != [] ==> r.dev.Some? && r.host == r.dev && Captured(t, r.dev.value, r.pairs))
  }

  lemma FitsKept(t: Tree, t': Tree, r: Request, size: nat)
    requires size > 0 && Fits(t, r, size) && WF(t')
    requires r.dev.Some? ==> Kept(t, t', r.dev.value, Device)
    requires r.host.Some? ==> r.host.value in t && Kept(t, t', r.host.value, Host)
    ensures Fits(t', r, size)
    ensures r.dev.Some? ==> t'[r.dev.value].depth == t[r.dev.value].depth
  {
    if r.pairs != [] { CapturedKept(t, t', r.dev.value, r.pairs); }
    if r.dev.Some? { assert |Path(t', r.dev.value)| == |Path(t, r.dev.value)|; }
  }

  lemma FitsExtended(t: Tree, r: Request, more: seq<Token>, size: nat)
    requires size > 0 && Fits(t, r, size)
    ensures Fits(t, r.(tokens := r.tokens + more), size)
  {
    ExtendKeepsPages(r.tokens, more, size);
  }

  // ---------------------------------------------------------------- what each phase holds

  /** Tokens that n pages hold. */
  function Room(n: nat, size: nat): nat {
    if n == 0 then 0 else Room(n - 1, size) + size
  }

  lemma {:induction false} RoomIs(n: nat, size: nat)
    ensures Room(n, size) == n * size
  {
    if n > 0 { RoomIs(n - 1, size); }
  }

  /** The device node's path and the request's own pages, less the room left in the tail, reach the end of the
      prefill window. */
  ghost predicate Covers(t: Tree, r: Request, size: nat)
    requires r.dev.Some? && r.dev.value in t
  {
    r.start + r.size + r.tail <= Room(t[r.dev.value].depth + |r.local|, size)
  }

  ghost predicate PhaseOk(t: Tree, r: Request, size: nat) {
    && r.prefill <= |r.tokens|
    && (r.dev.Some? ==> r.dev.value in t)
    && match r.phase
       case Submitted => Bare(r)
       case Finished => Bare(r)
       case Prefilling => r.dev.Some? && r.pairs == [] && Covers(t, r, size) && 0 <= r.start && 0 < r.size && r.start + r.size < r.prefill
       case PrefillDone => r.dev.Some? && r.pairs == [] && Covers(t, r, size) && r.start + r.size == r.prefill
       case Decoding => r.dev.Some? && r.pairs == []
       case Draining => r.dev.Some? && r.host == r.dev && r.local == [] && r.tail == 0
       case WritingBack => r.dev.Some? && r.host == r.dev && r.local == [] && r.tail == 0
       case Retracting => r.dev.Some? && r.host == r.dev
       case Retracted => r.dev.None? && r.host.Some? && r.pairs == []
  }

  /** Holds nothing at all. */
  ghost predicate Bare(r: Request) {
    r.dev.None? && r.host.None? && r.local == [] && r.tail == 0 && r.pairs == []
  }

  /** The whole state of one request agrees with the tree. */
  ghost predicate ReqOk(t: Tree, r: Request, size: nat) {
    size > 0 && Fits(t, r, size) && PhaseOk(t, r, size)
  }

  lemma ReqKept(t: Tree, t': Tree, r: Request, size: nat)
    requires ReqOk(t, r, size) && WF(t')
    requires r.dev.Some? ==> Kept(t, t', r.dev.value, Device)
    requires r.host.Some? ==> r.host.value in t && Kept(t, t', r.host.value, Host)
    ensures ReqOk(t', r, size)
  {
    FitsKept(t, t', r, size);
  }

  // ---------------------------------------------------------------- references of one request

  function Rehold(refs: Refs, id: string, o: Option<NodeId>): Refs {
    if o.Some? then refs[Own(id) := o.value] else refs - {Own(id)}
  }

  /** The live references once request id holds what r says. */
  function After(live: Live, id: string, r: Request): Live {
    Live(Rehold(live.device, id, r.dev), Rehold(live.host, id, r.host))
  }

  lemma AfterAfter(live: Live, id: string, r: Request, r': Request)
    ensures After(After(live, id, r), id, r') == After(live, id, r')
  {
    forall refs: Refs, o, o' ensures Rehold(Rehold(refs, id, o), id, o') == Rehold(refs, id, o') {
      assert Rehold(Rehold(refs, id, o), id, o') == Rehold(refs, id, o');
    }
  }

  /** Only requests' own references are live between events. */
  ghost predicate OnlyOwn(live: Live) {
    (forall h :: h in live.device ==> h.Own?) && (forall h :: h in live.host ==> h.Own?)
  }

  ghost predicate HandleKept(t: Tree, t': Tree, n: NodeId, tier: Tier) {
    WF(t) && WF(t') && n in t && Kept(t, t', n, tier)
  }

  /** Every reference that is not request id's keeps its node. */
  ghost predicate OthersKept(t: Tree, t': Tree, live: Live, id: string) {
    && (forall h {:trigger HandleKept(t, t', live.device[h], Device)} :: h in live.device && h != Own(id) ==> HandleKept(t, t', live.device[h], Device))
    && (forall h {:trigger HandleKept(t, t', live.host[h], Host)} :: h in live.host && h != Own(id) ==> HandleKept(t, t', live.host[h], Host))
  }

  /** Where a step of request id may start. */
  ghost predicate Begin(c: Cache, live: Live, id: string, r: Request, size: nat) {
    && CacheInv(c, live) && NoSnapshots(c.tree) && OnlyOwn(live)
    && live == After(live, id, r)
    && size > 0 && Fits(c.tree, r, size) && Told(c.log, c.tree)
  }

  /** What a step of request id keeps: the cache, everyone else's references, and the count of every page. */
  ghost predicate StepOk(c: Cache, live: Live, id: string, r: Request, c': Cache, r': Request, size: nat) {
    && Begin(c', After(live, id, r'), id, r', size)
    && OthersKept(c.tree, c'.tree, live, id)
    && PagesIn(c', Device) + multiset(r'.local) == PagesIn(c, Device) + multiset(r.local)
    && PagesIn(c', Host) == PagesIn(c, Host)
    && Grows(c.log, c'.log)
  }

  lemma StepTrans(c: Cache, live: Live, id: string, r: Request, c1: Cache, r1: Request, c2: Cache, r2: Request, size: nat)
    requires StepOk(c, live, id, r, c1, r1, size) && StepOk(c1, After(live, id, r1), id, r1, c2, r2, size)
    ensures StepOk(c, live, id, r, c2, r2, size)
  {
    AfterAfter(live, id, r1, r2);
    OthersTrans(c.tree, c1.tree, c2.tree, live, After(live, id, r1), id);
  }

  lemma OthersTrans(t: Tree, t1: Tree, t2: Tree, live: Live, live1: Live, id: string)
    requires OthersKept(t, t1, live, id) && OthersKept(t1, t2, live1, id)
    requires forall h :: h in live.device && h != Own(id) ==> h in live1.device && live1.device[h] == live.device[h]
    requires forall h :: h in live.host && h != Own(id) ==> h in live1.host && live1.host[h] == live.host[h]
    ensures OthersKept(t, t2, live, id)
  {
    forall h | h in live.device && h != Own(id) ensures HandleKept(t, t2, live.device[h], Device) {
      assert HandleKept(t, t1, live.device[h], Device) && HandleKept(t1, t2, live1.device[h], Device);
    }
    forall h | h in live.host && h != Own(id) ensures HandleKept(t, t2, live.host[h], Host) {
      assert HandleKept(t, t1, live.host[h], Host) && HandleKept(t1, t2, live1.host[h], Host);
    }
  }

  /** Same tokens, references, pages and pairs: as far as the cache goes, the same request. */
  ghost predicate SameHoldings(r: Request, r': Request) {
    r'.tokens == r.tokens && r'.dev == r.dev && r'.host == r.host && r'.local == r.local && r'.pairs == r.pairs
  }

  lemma Relabel(c: Cache, live: Live, id: string, r: Request, c': Cache, r1: Request, r2: Request, size: nat)
    requires StepOk(c, live, id, r, c', r1, size) && SameHoldings(r1, r2)
    ensures StepOk(c, live, id, r, c', r2, size)
  {
    assert After(live, id, r2) == After(live, id, r1);
  }

  /** An operation that keeps all references and all pages is a step that leaves the request alone. */
  lemma QuietStep(c: Cache, live: Live, id: string, r: Request, c': Cache, size: nat)
    requires Begin(c, live, id, r, size)
    requires CacheInv(c', live) && AllKept(c.tree, c'.tree, live) && SameTotals(c, c')
    ensures StepOk(c, live, id, r, c', r, size)
  {
    if r.dev.Some? { assert Own(id) in live.device && live.device[Own(id)] == r.dev.value; }
    if r.host.Some? { assert Own(id) in live.host && live.host[Own(id)] == r.host.value; }
    FitsKept(c.tree, c'.tree, r, size);
    OthersFromAll(c.tree, c'.tree, live, id);
  }

  lemma OthersFromAll(t: Tree, t': Tree, live: Live, id: string)
    requires AllKept(t, t', live)
    ensures OthersKept(t, t', live, id)
  {
  }
}
