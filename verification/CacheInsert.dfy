/** Inserting a run of pages: the walk, the new node, and the adoption of pages from the leaf up. */
module CacheInsert {
  import opened Prelude
  import opened PageTree
  import opened TreeEdits
  import opened TierState
  import opened TierEdits
  import opened TreeWalk
  import opened TreeFrames
  import opened BlockEvents
  import opened CacheState
  import opened CacheWalk
  import opened CacheAttach

  // ---------------------------------------------------------------- the reference: insertion into a trie

  function At(pages: seq<nat>, i: int): Option<nat> {
    if 0 <= i < |pages| then Some(pages[i]) else None
  }

  ghost function PageOf(c: Option<Cell>, tier: Tier): Option<nat> {
    if c.None? then None else TierCell(c.value, tier)
  }

  ghost function RefsIn(c: Option<Cell>): (nat, nat) {
    if c.None? then (0, 0) else (c.value.deviceRefs, c.value.hostRefs)
  }

  /** What insertion does to one path: a prefix of q keeps its page or gains the allocator page of its place. */
  ghost predicate InsertedAt(t: Tree, t': Tree, q: seq<Page>, d: nat, alloc: seq<nat>, tier: Tier, r: seq<Page>)
    requires WF(t) && WF(t')
  {
    if r != [] && r <= q
    then GainedCell(Lookup(t, r), Lookup(t', r), tier, At(alloc, |r| - 1 - d))
    else Lookup(t', r) == Lookup(t, r)
  }

  /** The place is stored, with its old page on the tier or else the offered one; the rest is as it was. */
  ghost predicate GainedCell(before: Option<Cell>, after: Option<Cell>, tier: Tier, offer: Option<nat>) {
    && after.Some?
    && PageOf(after, tier) == (if PageOf(before, tier).Some? then PageOf(before, tier) else offer)
    && PageOf(after, Other(tier)) == PageOf(before, Other(tier))
    && RefsIn(after) == RefsIn(before)
  }

  ghost predicate TrieInsert(t: Tree, t': Tree, q: seq<Page>, d: nat, alloc: seq<nat>, tier: Tier)
    requires WF(t) && WF(t')
  {
    forall r :: InsertedAt(t, t', q, d, alloc, tier, r)
  }

  // ---------------------------------------------------------------- places on a root path

  /** Page j of x's path lies in some node of its root path. */
  lemma {:induction false} PlaceOnPath(t: Tree, x: NodeId, j: nat) returns (n: NodeId)
    requires WF(t) && x in t && 0 < j <= t[x].depth
    ensures n in t && n != ROOT && IsAnc(t, n, x) && |t[n].run| <= t[n].depth
    ensures t[n].depth - |t[n].run| < j <= t[n].depth
    ensures Descend(t, Path(t, x)[..j]) == Some(Pos(n, j - (t[n].depth - |t[n].run|)))
    decreases t[x].depth
  {
    assert UpOk(t, x);
    var p := t[x].parent;
    if j <= t[p].depth {
      n := PlaceOnPath(t, p, j);
      assert Path(t, x)[..j] == Path(t, p)[..j];
      assert IsAnc(t, p, p) && IsAnc(t, p, x);
      IsAncTrans(t, n, p, x);
    } else {
      n := x;
      var pos := Pos(x, j - t[p].depth);
      SpellsDescend(t, pos);
      assert PosPath(t, pos) == Path(t, x)[..j];
    }
  }

  lemma PlaceOfPrefix(t: Tree, x: NodeId, r: seq<Page>) returns (n: NodeId, i: nat)
    requires WF(t) && x in t && r != [] && r <= Path(t, x)
    ensures n in t && n != ROOT && IsAnc(t, n, x) && |t[n].run| <= t[n].depth
    ensures i + 1 <= |t[n].run| && |r| == t[n].depth - |t[n].run| + i + 1
    ensures Descend(t, r) == Some(Pos(n, i + 1))
  {
    n := PlaceOnPath(t, x, |r|);
    i := |r| - (t[n].depth - |t[n].run|) - 1;
    assert r == Path(t, x)[..|r|];
  }

  /** A path ending in a node of x's root path is a prefix of x's path. */
  lemma {:induction false} AncPath(t: Tree, a: NodeId, x: NodeId)
    requires WF(t) && x in t && IsAnc(t, a, x)
    ensures Path(t, a) <= Path(t, x)
    decreases t[x].depth
  {
    if a != x {
      assert UpOk(t, x);
      AncPath(t, a, t[x].parent);
    }
  }

  lemma PlaceIsPrefix(t: Tree, x: NodeId, r: seq<Page>)
    requires WF(t) && x in t && Descend(t, r).Some? && IsAnc(t, Descend(t, r).value.node, x)
    ensures r <= Path(t, x)
  {
    var p := Descend(t, r).value;
    DescendSpells(t, r);
    AncPath(t, p.node, x);
    if p.node != ROOT { assert UpOk(t, p.node); }
  }

  // ---------------------------------------------------------------- the new node

  lemma HangLookup(t: Tree, p: NodeId, q: seq<Page>, m: nat, nu: NodeId, time: int, r: seq<Page>)
    requires m < |q| && CanHang(t, p, q[m..], nu) && Path(t, p) == q[..m]
    ensures WF(HangNode(t, p, q[m..], nu, time))
    ensures var t' := HangNode(t, p, q[m..], nu, time);
            && (Lookup(t, r).Some? ==> Lookup(t', r) == Lookup(t, r))
            && (Lookup(t, r).None? && r != [] && r <= q ==> Lookup(t', r) == Some(Cell(None, None, 0, 0)))
            && (Lookup(t, r).None? && !(r <= q) ==> Lookup(t', r).None?)
  {
    HangDescend(t, p, q[m..], nu, time, r);
    var t' := HangNode(t, p, q[m..], nu, time);
    HangPath(t, p, q, m, nu, time);
    if Lookup(t, r).None? && r != [] {
      if r <= q {
        var n := PlaceOnPath(t', nu, |r|);
        assert Path(t', nu)[..|r|] == r;
      } else if Descend(t', r).Some? {
        assert IsAnc(t', nu, nu);
        PlaceIsPrefix(t', nu, r);
        assert false;
      }
    }
  }

  lemma HangPath(t: Tree, p: NodeId, q: seq<Page>, m: nat, nu: NodeId, time: int)
    requires m < |q| && CanHang(t, p, q[m..], nu) && Path(t, p) == q[..m]
    ensures var t' := HangNode(t, p, q[m..], nu, time); WF(t') && Path(t', nu) == q
  {
    HangFacts(t, p, q[m..], nu, time, p, p, Device);
    assert UpOk(HangNode(t, p, q[m..], nu, time), nu);
    assert q[..m] + q[m..] == q;
  }

  // ---------------------------------------------------------------- adopting pages from the leaf up

  /** How many allocator pages belong to the first e pages of the run. */
  function Owed(e: nat, d: nat): nat {
    if e > d then e - d else 0
  }

  /** Node x lies wholly beyond the prefix, within the pages on offer. */
  predicate Beyond(x: Node, d: nat, alloc: seq<nat>) {
    |x.run| <= x.depth && d <= x.depth - |x.run| && x.depth - d <= |alloc|
  }

  /** The allocator pages that belong to node x. */
  function Share(x: Node, d: nat, alloc: seq<nat>): seq<nat>
    requires Beyond(x, d, alloc)
  {
    alloc[x.depth - |x.run| - d..x.depth - d]
  }

  ghost predicate Shared(t0: Tree, t: Tree, tier: Tier, done: set<NodeId>, d: nat, alloc: seq<nat>) {
    forall n :: n in done ==> n in t0 && n in t && Beyond(t0[n], d, alloc)
                              && Res(t[n], tier) == Some(Resource(Share(t0[n], d, alloc), 0))
  }

  /** What holds when nodes of x's root path below y have been served. */
  ghost predicate Adopting(t0: Tree, t: Tree, m: Manager, tier: Tier, refs: Refs, x: NodeId, d: nat, alloc: seq<nat>,
                           y: NodeId, left: seq<nat>, spare: seq<nat>, done: set<NodeId>, bag: multiset<nat>)
  {
    && Attaching(t0, t, m, tier, refs, done, bag)
    && x in t0 && y in t0 && IsAnc(t0, y, x)
    && done + OffTier(t0, y, tier) == OffTier(t0, x, tier) && done !! OffTier(t0, y, tier)
    && Owed(t0[y].depth, d) <= |alloc| && left == alloc[..Owed(t0[y].depth, d)]
    && bag + multiset(left) + multiset(spare) == multiset(alloc)
    && Shared(t0, t, tier, done, d, alloc)
  }

  /** Pages the prefix covers are already resident, so a node off the tier starts beyond it. */
  lemma StartsBeyond(t: Tree, tier: Tier, x: NodeId, p: NodeId, n: NodeId)
    requires WF(t) && Closed(t, tier) && x in t && p in t && (p == ROOT || On(t, p, tier)) && IsAnc(t, p, x)
    requires n in t && n != ROOT && IsAnc(t, n, x) && !On(t, n, tier)
    ensures |t[n].run| <= t[n].depth && t[p].depth <= t[n].depth - |t[n].run|
  {
    assert UpOk(t, n);
    if t[n].depth <= t[p].depth {
      IsAncLinear(t, n, p, x);
      assert IsAnc(t, n, ROOT) ==> n == ROOT;
      AncestorsOn(t, p, n, tier);
      assert false;
    }
    IsAncLinear(t, p, n, x);
  }

  lemma TakeBack(bag: multiset<nat>, left: seq<nat>, spare: seq<nat>, k: nat, alloc: seq<nat>)
    requires k <= |left| && bag + multiset(left) + multiset(spare) == multiset(alloc)
    ensures (bag + multiset(left[k..])) + multiset(left[..k]) + multiset(spare) == multiset(alloc)
    ensures bag + multiset(left[..k]) + multiset(spare + left[k..]) == multiset(alloc)
  {
    MultisetSplit(left, k);
    assert multiset(spare + left[k..]) == multiset(spare) + multiset(left[k..]);
  }

  /** A node already on the tier: the pages that overlap it are not needed. */
  lemma SkipNode(t0: Tree, t: Tree, m: Manager, tier: Tier, refs: Refs, x: NodeId, d: nat, alloc: seq<nat>,
                 y: NodeId, left: seq<nat>, spare: seq<nat>, done: set<NodeId>, bag: multiset<nat>, k: nat)
    requires Adopting(t0, t, m, tier, refs, x, d, alloc, y, left, spare, done, bag) && y != ROOT && On(t0, y, tier)
    requires t0[y].parent in t0 && k == Owed(t0[t0[y].parent].depth, d) <= |left|
    ensures Adopting(t0, t, m, tier, refs, x, d, alloc, t0[y].parent, left[..k], spare + left[k..], done, bag)
  {
    NoSelfParent(t0, y);
    var p := t0[y].parent;
    assert IsAnc(t0, p, p) && IsAnc(t0, p, y);
    IsAncTrans(t0, p, y, x);
    OffTierEnd(t0, y, tier);
    forall n | n in OffTier(t0, p, tier) ensures n in OffTier(t0, y, tier) { IsAncTrans(t0, n, p, y); }
    TakeBack(bag, left, spare, k, alloc);
  }

  lemma OffTierBelow(t: Tree, y: NodeId, x: NodeId, tier: Tier, done: set<NodeId>)
    requires WF(t) && y in t && x in t && y != ROOT && !On(t, y, tier) && IsAnc(t, y, x)
    requires done + OffTier(t, y, tier) == OffTier(t, x, tier) && done !! OffTier(t, y, tier)
    ensures t[y].parent in t && IsAnc(t, t[y].parent, x) && y !in done
    ensures (done + {y}) + OffTier(t, t[y].parent, tier) == OffTier(t, x, tier)
    ensures (done + {y}) !! OffTier(t, t[y].parent, tier)
  {
    OffTierStep(t, y, x, tier);
    NoSelfParent(t, y);
    assert y !in OffTier(t, t[y].parent, tier);
  }

  lemma NotServed(t0: Tree, t: Tree, tier: Tier, x: NodeId, y: NodeId, done: set<NodeId>)
    requires WF(t0) && x in t0 && y in t0 && y != ROOT && Attached(t0, t, tier, done)
    requires done !! OffTier(t0, y, tier)
    ensures y !in done && t[y] == t0[y]
  {
    assert IsAnc(t0, y, y);
    assert !On(t0, y, tier) ==> y in OffTier(t0, y, tier);
  }

  lemma SharedMore(t0: Tree, t: Tree, t': Tree, tier: Tier, done: set<NodeId>, d: nat, alloc: seq<nat>, y: NodeId, share: seq<nat>)
    requires Shared(t0, t, tier, done, d, alloc) && y in t0 && y in t && y !in done && Beyond(t0[y], d, alloc)
    requires t' == SetRes(t, y, tier, Some(Resource(share, 0))) && share == Share(t0[y], d, alloc)
    ensures Shared(t0, t', tier, done + {y}, d, alloc)
  {
  }

  /** A node off the tier adopts the pages of its own places, taken from the back. */
  lemma GiveNode(t0: Tree, t: Tree, m: Manager, tier: Tier, refs: Refs, x: NodeId, d: nat, alloc: seq<nat>,
                 y: NodeId, left: seq<nat>, spare: seq<nat>, done: set<NodeId>, bag: multiset<nat>, k: nat,
                 t': Tree, m': Manager)
    requires Adopting(t0, t, m, tier, refs, x, d, alloc, y, left, spare, done, bag) && y != ROOT && !On(t0, y, tier)
    requires y in t && |t0[y].run| <= t0[y].depth && d <= t0[y].depth - |t0[y].run|
    requires k == t0[y].depth - |t0[y].run| - d <= |left|
    requires t' == SetRes(t, y, tier, Some(Resource(left[k..], 0)))
    requires Attaching(t0, t', m', tier, refs, done + {y}, bag + multiset(left[k..]))
    ensures t0[y].parent in t0
    ensures Adopting(t0, t', m', tier, refs, x, d, alloc, t0[y].parent, left[..k], spare, done + {y}, bag + multiset(left[k..]))
  {
    OffTierBelow(t0, y, x, tier, done);
    TakeBack(bag, left, spare, k, alloc);
    assert UpOk(t0, y);
    ShareSlice(t0[y], d, alloc, left, k);
    SharedMore(t0, t, t', tier, done, d, alloc, y, left[k..]);
  }

  lemma ShareSlice(x: Node, d: nat, alloc: seq<nat>, left: seq<nat>, k: nat)
    requires |x.run| <= x.depth && d <= x.depth - |x.run| && k == x.depth - |x.run| - d
    requires Owed(x.depth, d) <= |alloc| && left == alloc[..Owed(x.depth, d)]
    ensures Beyond(x, d, alloc) && k <= |left| && left[k..] == Share(x, d, alloc) && left[..k] == alloc[..Owed(x.depth - |x.run|, d)]
  {
  }

  /** Serve one node of the path: adopt its pages, or set aside those it does not need. */
  method AdoptNode(ghost t0: Tree, t: Tree, m: Manager, tier: Tier, ghost refs: Refs, ghost x: NodeId, d: nat,
                   ghost alloc: seq<nat>, ghost p: NodeId, y: NodeId, left: seq<nat>, spare: seq<nat>,
                   stored: seq<NodeId>, ghost bag: multiset<nat>)
    returns (t': Tree, m': Manager, left': seq<nat>, spare': seq<nat>, stored': seq<NodeId>, ghost bag': multiset<nat>)
    requires Adopting(t0, t, m, tier, refs, x, d, alloc, y, left, spare, Elems(stored), bag) && y != ROOT && y in t
    requires p in t0 && (p == ROOT || On(t0, p, tier)) && IsAnc(t0, p, x) && t0[p].depth == d
    ensures t0[y].parent in t0 && t[y].parent == t0[y].parent && m'.free == m.free
    ensures Adopting(t0, t', m', tier, refs, x, d, alloc, t0[y].parent, left', spare', Elems(stored'), bag')
  {
    ghost var done := Elems(stored);
    AdoptFacts(t0, t, m, tier, refs, x, d, alloc, p, y, left, spare, done, bag);
    var k := Owed(t[y].depth - |t[y].run|, d);
    if On(t, y, tier) {
      SkipNode(t0, t, m, tier, refs, x, d, alloc, y, left, spare, done, bag, k);
      t', m', left', spare', stored', bag' := t, m, left[..k], spare + left[k..], stored, bag;
    } else {
      t', m', bag' := ServeNode(t0, t, m, tier, refs, x, d, alloc, y, left, spare, done, bag, k);
      left', spare', stored' := left[..k], spare, stored + [y];
      assert Elems(stored') == done + {y};
    }
  }

  lemma AdoptFacts(t0: Tree, t: Tree, m: Manager, tier: Tier, refs: Refs, x: NodeId, d: nat, alloc: seq<nat>, p: NodeId,
                   y: NodeId, left: seq<nat>, spare: seq<nat>, done: set<NodeId>, bag: multiset<nat>)
    requires Adopting(t0, t, m, tier, refs, x, d, alloc, y, left, spare, done, bag) && y != ROOT && y in t
    requires p in t0 && (p == ROOT || On(t0, p, tier)) && IsAnc(t0, p, x) && t0[p].depth == d
    ensures y in t0 && t[y] == t0[y] && y !in done && t0[y].parent in t0 && |t0[y].run| <= t0[y].depth
    ensures t0[t0[y].parent].depth == t0[y].depth - |t0[y].run| && Owed(t0[y].depth - |t0[y].run|, d) <= |left|
    ensures !On(t0, y, tier) ==> d <= t0[y].depth - |t0[y].run|
  {
    NoSelfParent(t0, y);
    assert UpOk(t0, y);
    NotServed(t0, t, tier, x, y, done);
    if !On(t0, y, tier) { StartsBeyond(t0, tier, x, p, y); }
  }

  /** A node off the tier is given the offered pages from place k on. */
  method ServeNode(ghost t0: Tree, t: Tree, m: Manager, tier: Tier, ghost refs: Refs, ghost x: NodeId, ghost d: nat,
                   ghost alloc: seq<nat>, y: NodeId, left: seq<nat>, ghost spare: seq<nat>, ghost done: set<NodeId>,
                   ghost bag: multiset<nat>, k: nat)
    returns (t': Tree, m': Manager, ghost bag': multiset<nat>)
    requires Adopting(t0, t, m, tier, refs, x, d, alloc, y, left, spare, done, bag) && y != ROOT && !On(t0, y, tier)
    requires y in t && y !in done && t[y] == t0[y] && |t0[y].run| <= t0[y].depth && d <= t0[y].depth - |t0[y].run|
    requires k == t0[y].depth - |t0[y].run| - d <= |left|
    ensures t0[y].parent in t0 && m'.free == m.free
    ensures Adopting(t0, t', m', tier, refs, x, d, alloc, t0[y].parent, left[..k], spare, done + {y}, bag')
  {
    t', m' := AttachNode(t0, t, m, tier, refs, done, bag, y, left[k..]);
    bag' := bag + multiset(left[k..]);
    GiveNode(t0, t, m, tier, refs, x, d, alloc, y, left, spare, done, bag, k, t', m');
  }

  lemma AdoptStart(t: Tree, m: Manager, tier: Tier, refs: Refs, x: NodeId, d: nat, alloc: seq<nat>)
    requires WF(t) && TierInv(t, m, tier, refs) && x in t && t[x].depth == d + |alloc|
    ensures Adopting(t, t, m, tier, refs, x, d, alloc, x, alloc, [], {}, multiset{})
  {
    AttachStart(t, m, tier, refs);
    assert alloc[..|alloc|] == alloc && IsAnc(t, x, x);
  }

  lemma AdoptEnd(t0: Tree, t: Tree, m: Manager, tier: Tier, refs: Refs, x: NodeId, d: nat, alloc: seq<nat>,
                 left: seq<nat>, spare: seq<nat>, done: set<NodeId>, bag: multiset<nat>)
    requires Adopting(t0, t, m, tier, refs, x, d, alloc, ROOT, left, spare, done, bag)
    ensures done == OffTier(t0, x, tier) && bag + multiset(spare) == multiset(alloc)
  {
    OffTierEnd(t0, ROOT, tier);
    assert left == [];
  }

  /** Climb from x to the root, serving every node. */
  method AdoptPages(t0: Tree, m0: Manager, tier: Tier, ghost refs: Refs, x: NodeId, d: nat, alloc: seq<nat>, ghost p: NodeId)
    returns (t: Tree, m: Manager, spare: seq<nat>, stored: seq<NodeId>, ghost bag: multiset<nat>)
    requires WF(t0) && TierInv(t0, m0, tier, refs) && x in t0 && t0[x].depth == d + |alloc|
    requires p in t0 && (p == ROOT || On(t0, p, tier)) && IsAnc(t0, p, x) && t0[p].depth == d
    ensures Attaching(t0, t, m, tier, refs, OffTier(t0, x, tier), bag) && m.free == m0.free
    ensures Shared(t0, t, tier, OffTier(t0, x, tier), d, alloc)
    ensures bag + multiset(spare) == multiset(alloc) && Elems(stored) == OffTier(t0, x, tier)
  {
    t, m, spare, stored, bag := t0, m0, [], [], multiset{};
    var y, left := x, alloc;
    AdoptStart(t0, m0, tier, refs, x, d, alloc);
    assert Elems(stored) == {};
    while y != ROOT
      invariant Adopting(t0, t, m, tier, refs, x, d, alloc, y, left, spare, Elems(stored), bag) && m.free == m0.free
      decreases t0[y].depth
    {
      NoSelfParent(t0, y);
      var up := t[y].parent;
      t, m, left, spare, stored, bag := AdoptNode(t0, t, m, tier, refs, x, d, alloc, p, y, left, spare, stored, bag);
      y := up;
    }
    AdoptEnd(t0, t, m, tier, refs, x, d, alloc, left, spare, Elems(stored), bag);
  }

  /** In a served node, the place at depth j gains the allocator page of that depth. */
  lemma ServedCell(x: Node, y: Node, tier: Tier, d: nat, alloc: seq<nat>, j: nat, i: nat)
    requires Beyond(x, d, alloc) && Res(x, tier).None? && y == WithRes(x, tier, Some(Resource(Share(x, d, alloc), 0)))
    requires x.depth - |x.run| < j <= x.depth && i == j - (x.depth - |x.run|) - 1
    ensures GainedCell(Some(CellIn(x, i)), Some(CellIn(y, i)), tier, At(alloc, j - 1 - d))
  {
  }

  /** Attaching the shares of the off-tier nodes of x's path is insertion into the trie. */
  lemma AttachInserted(t0: Tree, t: Tree, tier: Tier, x: NodeId, d: nat, alloc: seq<nat>, r: seq<Page>)
    requires WF(t0) && WF(t) && x in t0 && Attached(t0, t, tier, OffTier(t0, x, tier))
    requires Shared(t0, t, tier, OffTier(t0, x, tier), d, alloc)
    ensures InsertedAt(t0, t, Path(t0, x), d, alloc, tier, r)
  {
    var off := OffTier(t0, x, tier);
    SameShapeDescend(t0, t, r);
    if r != [] && r <= Path(t0, x) {
      AttachInsertedOn(t0, t, tier, x, d, alloc, r);
    } else if r != [] && Descend(t0, r).Some? {
      NotOnPath(t0, x, r);
      UntouchedCell(t0, t, tier, off, r);
    }
  }

  lemma UntouchedCell(t0: Tree, t: Tree, tier: Tier, done: set<NodeId>, r: seq<Page>)
    requires WF(t0) && WF(t) && Attached(t0, t, tier, done)
    requires Descend(t0, r).Some? && Descend(t, r) == Descend(t0, r) && Descend(t0, r).value.node !in done
    ensures Lookup(t, r) == Lookup(t0, r)
  {
  }

  lemma AttachInsertedOn(t0: Tree, t: Tree, tier: Tier, x: NodeId, d: nat, alloc: seq<nat>, r: seq<Page>)
    requires WF(t0) && WF(t) && x in t0 && Attached(t0, t, tier, OffTier(t0, x, tier))
    requires Shared(t0, t, tier, OffTier(t0, x, tier), d, alloc)
    requires r != [] && r <= Path(t0, x) && Descend(t, r) == Descend(t0, r)
    ensures GainedCell(Lookup(t0, r), Lookup(t, r), tier, At(alloc, |r| - 1 - d))
  {
    var n, i := PlaceOfPrefix(t0, x, r);
    assert n in OffTier(t0, x, tier) <==> !On(t0, n, tier);
    ServedNode(t0, t, tier, OffTier(t0, x, tier), d, alloc, n);
    GainedAt(t0, t, tier, d, alloc, r, n, i);
  }

  /** Place i of a node lies at depth j, and the node kept its pages or gained its share. */
  ghost predicate GainedPlace(x: Node, y: Node, tier: Tier, d: nat, alloc: seq<nat>, j: nat, i: nat) {
    && ResOk(x) && |x.run| <= x.depth && i < |x.run| && j == x.depth - |x.run| + i + 1
    && ServedOrKept(x, y, tier, d, alloc)
  }

  ghost predicate ServedOrKept(x: Node, y: Node, tier: Tier, d: nat, alloc: seq<nat>) {
    if Res(x, tier).Some? then y == x
    else Beyond(x, d, alloc) && y == WithRes(x, tier, Some(Resource(Share(x, d, alloc), 0)))
  }

  lemma ServedNode(t0: Tree, t: Tree, tier: Tier, done: set<NodeId>, d: nat, alloc: seq<nat>, n: NodeId)
    requires WF(t0) && Attached(t0, t, tier, done) && Shared(t0, t, tier, done, d, alloc)
    requires n in t0 && (n in done <==> !On(t0, n, tier))
    ensures n in t && ResOk(t0[n]) && ServedOrKept(t0[n], t[n], tier, d, alloc)
  {
  }

  lemma GainedAt(t0: Tree, t: Tree, tier: Tier, d: nat, alloc: seq<nat>, r: seq<Page>, n: NodeId, i: nat)
    requires WF(t0) && WF(t) && r != [] && Descend(t, r) == Descend(t0, r) == Some(Pos(n, i + 1))
    requires GainedPlace(t0[n], t[n], tier, d, alloc, |r|, i)
    ensures GainedCell(Lookup(t0, r), Lookup(t, r), tier, At(alloc, |r| - 1 - d))
  {
    var before := LookupAt(t0, r, n, i);
    var after := LookupAt(t, r, n, i);
    GainedInNode(t0[n], t[n], tier, d, alloc, |r|, i, before, after);
    GainedThere(t0, t, r, tier, At(alloc, |r| - 1 - d), before, after);
  }

  lemma GainedThere(t0: Tree, t: Tree, r: seq<Page>, tier: Tier, offer: Option<nat>, before: Cell, after: Cell)
    requires WF(t0) && WF(t) && Lookup(t0, r) == Some(before) && Lookup(t, r) == Some(after)
    requires GainedCell(Some(before), Some(after), tier, offer)
    ensures GainedCell(Lookup(t0, r), Lookup(t, r), tier, offer)
  {
  }

  lemma GainedInNode(x: Node, y: Node, tier: Tier, d: nat, alloc: seq<nat>, j: nat, i: nat, before: Cell, after: Cell)
    requires GainedPlace(x, y, tier, d, alloc, j, i) && before == CellIn(x, i) && after == CellIn(y, i)
    ensures GainedCell(Some(before), Some(after), tier, At(alloc, j - 1 - d))
  {
    if Res(x, tier).None? { ServedCell(x, y, tier, d, alloc, j, i); }
  }

  lemma LookupAt(t: Tree, r: seq<Page>, n: NodeId, i: nat) returns (c: Cell)
    requires WF(t) && r != [] && Descend(t, r) == Some(Pos(n, i + 1))
    ensures c == CellIn(t[n], i) && Lookup(t, r) == Some(c)
  {
    c := CellIn(t[n], i);
  }

  lemma NotOnPath(t: Tree, x: NodeId, r: seq<Page>)
    requires WF(t) && x in t && Descend(t, r).Some? && !(r <= Path(t, x))
    ensures !IsAnc(t, Descend(t, r).value.node, x)
  {
    if IsAnc(t, Descend(t, r).value.node, x) { PlaceIsPrefix(t, x, r); }
  }

  /** The tree with every prefix of q stored: the walk's tree, with a new node where q went on. */
  ghost predicate Spelled(t: Tree, t1: Tree, q: seq<Page>) {
    && WF(t) && WF(t1)
    && forall r :: if r != [] && r <= q
                   then Lookup(t1, r) == (if Lookup(t, r).Some? then Lookup(t, r) else Some(Cell(None, None, 0, 0)))
                   else Lookup(t1, r) == Lookup(t, r)
  }

  lemma SpelledInsert(t: Tree, t1: Tree, t2: Tree, tier: Tier, x: NodeId, d: nat, alloc: seq<nat>)
    requires WF(t1) && x in t1 && Spelled(t, t1, Path(t1, x)) && WF(t2)
    requires Attached(t1, t2, tier, OffTier(t1, x, tier)) && Shared(t1, t2, tier, OffTier(t1, x, tier), d, alloc)
    ensures TrieInsert(t, t2, Path(t1, x), d, alloc, tier)
  {
    forall r ensures InsertedAt(t, t2, Path(t1, x), d, alloc, tier, r) {
      AttachInserted(t1, t2, tier, x, d, alloc, r);
      assert if r != [] && r <= Path(t1, x)
             then Lookup(t1, r) == (if Lookup(t, r).Some? then Lookup(t, r) else Some(Cell(None, None, 0, 0)))
             else Lookup(t1, r) == Lookup(t, r);
    }
  }

  // ---------------------------------------------------------------- insertion

  lemma SpellWalked(t: Tree, t1: Tree, q: seq<Page>)
    requires WF(t) && WF(t1) && SameTrie(t, t1) && Descend(t1, q).Some?
    ensures Spelled(t, t1, q)
  {
    forall r | r != [] && r <= q ensures Lookup(t1, r).Some? {
      DescendPrefix(t1, q, |r|);
      assert q[..|r|] == r;
    }
  }

  lemma SpellHung(t: Tree, t1: Tree, p: NodeId, q: seq<Page>, m: nat, nu: NodeId, time: int)
    requires WF(t) && WF(t1) && SameTrie(t, t1) && m < |q| && CanHang(t1, p, q[m..], nu) && Path(t1, p) == q[..m]
    ensures Spelled(t, HangNode(t1, p, q[m..], nu, time), q)
  {
    HangWF(t1, p, q[m..], nu, time);
    var t' := HangNode(t1, p, q[m..], nu, time);
    forall r ensures if r != [] && r <= q
                     then Lookup(t', r) == (if Lookup(t, r).Some? then Lookup(t, r) else Some(Cell(None, None, 0, 0)))
                     else Lookup(t', r) == Lookup(t, r)
    {
      HangLookup(t1, p, q, m, nu, time, r);
      assert Lookup(t1, r) == Lookup(t, r);
    }
  }

  lemma HangInv(c: Cache, live: Live, p: NodeId, run: seq<Page>, time: int)
    requires CacheInv(c, live) && CanHang(c.tree, p, run, c.next)
    ensures CacheInv(c.(tree := HangNode(c.tree, p, run, c.next, time), next := c.next + 1), live)
  {
    HangWF(c.tree, p, run, c.next, time);
    HangTier(c.tree, p, run, c.next, time, c.device, Device, live.device);
    HangTier(c.tree, p, run, c.next, time, c.host, Host, live.host);
    HangMarks(c.tree, p, run, c.next, time);
  }

  lemma HangMeaning(t: Tree, p: NodeId, run: seq<Page>, nu: NodeId, time: int)
    requires CanHang(t, p, run, nu)
    ensures var t' := HangNode(t, p, run, nu, time);
            && WF(t') && Extends(t, t') && (NoSnapshots(t) ==> NoSnapshots(t'))
            && Bag(t', Device) == Bag(t, Device) && Bag(t', Host) == Bag(t, Host)
  {
    HangExtends(t, p, run, nu, time);
    HangBag(t, p, run, nu, time, Device);
    HangBag(t, p, run, nu, time, Host);
    HangMarks(t, p, run, nu, time);
  }

  lemma HangMarks(t: Tree, p: NodeId, run: seq<Page>, nu: NodeId, time: int)
    requires CanHang(t, p, run, nu)
    ensures HangNode(t, p, run, nu, time).Keys == t.Keys + {nu}
    ensures NoSnapshots(t) ==> NoSnapshots(HangNode(t, p, run, nu, time))
  {
  }

  /** A walk that a snapshot stopped ends at a node that already has a child for the next page. */
  lemma BlockedEnd(t0: Tree, t: Tree, q: seq<Page>, terminal: NodeId, m: nat, dNode: NodeId, hNode: NodeId)
    requires WalkResult(t0, t, q, terminal, m, dNode, hNode)
    ensures Blocked(t0, q) <==> m < |q| && q[m] in t[terminal].children
  {
    SameTrieStored(t0, t, q);
    DescendNode(t, terminal);
    StoredLenMax(t, q, m);
    if Blocked(t0, q) {
      StoredBelow(t, q, m + 1, StoredLen(t, q));
      StepAtEnd(t, terminal, q, m);
    }
  }

  /** Adding a child over an existing key cuts the old child off: the tree is no longer well-formed. */
  lemma OverwriteBreaks(t: Tree, p: NodeId, run: seq<Page>, nu: NodeId, time: int)
    requires WF(t) && p in t && run != [] && run[0] in t[p].children && nu !in t
    ensures !WF(HangNode(t, p, run, nu, time))
  {
    assert DownOk(t, p, run[0]);
    var c := t[p].children[run[0]];
    NoSelfParent(t, c);
    assert !UpOk(HangNode(t, p, run, nu, time), c);
  }

  /** Walk down q and hang a new node for what is not stored yet. If a snapshot stopped the walk the new node takes the
      key of an existing child, and the tree breaks; in every other case it stays whole. */
  method Spell(c: Cache, ghost live: Live, q: seq<Page>, time: int) returns (c': Cache, x: NodeId, broken: bool)
    requires CacheInv(c, live)
    ensures broken <==> Blocked(c.tree, q)
    ensures broken ==> !WF(c'.tree)
    ensures !broken ==> Spelt(c, live, q, c', x)
  {
    var c1, terminal, m, dNode, hNode := Walk(c, live, q, time);
    BlockedEnd(c.tree, c1.tree, q, terminal, m, dNode, hNode);
    broken := m < |q| && q[m] in c1.tree[terminal].children;
    if m < |q| {
      x := c1.next;
      c' := c1.(tree := HangNode(c1.tree, terminal, q[m..], c1.next, time), next := c1.next + 1);
      if broken {
        OverwriteBreaks(c1.tree, terminal, q[m..], c1.next, time);
      } else {
        HangSpelt(c, live, c1, terminal, q, m, time);
      }
    } else {
      assert q[..m] == q;
      DescendNode(c1.tree, terminal);
      SpellWalked(c.tree, c1.tree, q);
      x := terminal;
      c' := c1;
    }
  }

  /** The tree stores every prefix of q, x is the end of q, and nothing else has changed. */
  ghost predicate Spelt(c: Cache, live: Live, q: seq<Page>, c': Cache, x: NodeId)
    requires WF(c.tree)
  {
    && CacheInv(c', live) && c' == c.(tree := c'.tree, next := c'.next)
    && x in c'.tree && Path(c'.tree, x) == q
    && Spelled(c.tree, c'.tree, q) && Extends(c.tree, c'.tree) && (NoSnapshots(c.tree) ==> NoSnapshots(c'.tree))
    && Bag(c'.tree, Device) == Bag(c.tree, Device) && Bag(c'.tree, Host) == Bag(c.tree, Host)
  }

  lemma HangSpelt(c: Cache, live: Live, c1: Cache, p: NodeId, q: seq<Page>, m: nat, time: int)
    requires CacheInv(c1, live) && c1 == c.(tree := c1.tree, next := c1.next) && SameMeaning(c.tree, c1.tree)
    requires p in c1.tree && m < |q| && Path(c1.tree, p) == q[..m] && q[m] !in c1.tree[p].children
    ensures Spelt(c, live, q, c1.(tree := HangNode(c1.tree, p, q[m..], c1.next, time), next := c1.next + 1), c1.next)
  {
    HangInv(c1, live, p, q[m..], time);
    HangMeaning(c1.tree, p, q[m..], c1.next, time);
    SpellHung(c.tree, c1.tree, p, q, m, c1.next, time);
    HangPath(c1.tree, p, q, m, c1.next, time);
    ExtendsTrans(c.tree, c1.tree, HangNode(c1.tree, p, q[m..], c1.next, time));
  }

  lemma AdoptPagesIn(c: Cache, tier: Tier, t: Tree, m: Manager, alloc: seq<nat>, spare: seq<nat>, bag: multiset<nat>)
    requires Bag(t, tier) == Bag(c.tree, tier) + bag && Bag(t, Other(tier)) == Bag(c.tree, Other(tier))
    requires m.free == Mgr(c, tier).free + spare && bag + multiset(spare) == multiset(alloc)
    ensures var c' := WithMgr(c.(tree := t), tier, m);
            PagesIn(c', tier) == PagesIn(c, tier) + multiset(alloc) && PagesIn(c', Other(tier)) == PagesIn(c, Other(tier))
    ensures |bag| + |spare| == |alloc|
  {
    GiveBack(Mgr(c, tier).free, spare, Bag(c.tree, tier), bag, alloc);
  }

  lemma GiveBack(free: seq<nat>, spare: seq<nat>, tree: multiset<nat>, bag: multiset<nat>, alloc: seq<nat>)
    requires bag + multiset(spare) == multiset(alloc)
    ensures multiset(free + spare) + (tree + bag) == multiset(free) + tree + multiset(alloc)
    ensures |bag| + |spare| == |alloc|
  {
    assert multiset(free + spare) == multiset(free) + multiset(spare);
    assert |multiset(alloc)| == |alloc| && |multiset(spare)| == |spare|;
  }

  /** Insert the run q whose first d pages are resident, offering allocator pages for the rest: page i keeps its old
      page if it has one and else takes offered page i - d, nothing else changes, and unadopted pages go back. This holds
      exactly when q does not leave the trie strictly inside a node that carries a snapshot: there the insertion breaks
      the tree. */
  method Insert(c: Cache, ghost live: Live, tier: Tier, q: seq<Page>, d: nat, alloc: seq<nat>, time: int, ghost p: NodeId)
    returns (c': Cache, last: NodeId, inserted: nat, broken: bool)
    requires CacheInv(c, live) && d + |alloc| == |q|
    requires p in c.tree && (p == ROOT || On(c.tree, p, tier)) && Path(c.tree, p) == q[..d]
    ensures broken <==> Blocked(c.tree, q)
    ensures broken ==> !WF(c'.tree)
    ensures !broken ==> InsertedAs(c, live, tier, q, d, alloc, c', last, inserted)
  {
    var c1, x;
    c1, x, broken := Spell(c, live, q, time);
    c', last, inserted := c1, x, 0;
    if !broken {
      c', last, inserted := AdoptInto(c, live, tier, q, d, alloc, c1, x, p);
    }
  }

  /** What an insertion that does not break the tree does. */
  ghost predicate InsertedAs(c: Cache, live: Live, tier: Tier, q: seq<Page>, d: nat, alloc: seq<nat>, c': Cache, last: NodeId, inserted: nat)
    requires WF(c.tree)
  {
    && CacheInv(c', live) && TrieInsert(c.tree, c'.tree, q, d, alloc, tier)
    && last in c'.tree && Path(c'.tree, last) == q && (last == ROOT || On(c'.tree, last, tier))
    && Extends(c.tree, c'.tree) && (NoSnapshots(c.tree) ==> NoSnapshots(c'.tree))
    && PagesIn(c', tier) == PagesIn(c, tier) + multiset(alloc) && PagesIn(c', Other(tier)) == PagesIn(c, Other(tier))
    && inserted <= |alloc| && |Mgr(c', tier).free| == |Mgr(c, tier).free| + |alloc| - inserted
    && Mgr(c', Other(tier)) == Mgr(c, Other(tier)) && Keeps(c, c')
  }

  /** Storing a path without pages changes no block. */
  lemma SpelledDevice(t: Tree, t': Tree, q: seq<Page>)
    requires WF(t) && WF(t') && Spelled(t, t', q)
    ensures SameDevice(t, t')
  {
    forall r ensures OnDevice(t', r) <==> OnDevice(t, r) {
      if r != [] {
        OnDeviceIsResident(t, r);
        OnDeviceIsResident(t', r);
        assert r <= q ==> Lookup(t', r) == (if Lookup(t, r).Some? then Lookup(t, r) else Some(Cell(None, None, 0, 0)));
        assert !(r <= q) ==> Lookup(t', r) == Lookup(t, r);
      }
    }
  }

  /** Adopt the offered pages along the path that now spells q. */
  method AdoptInto(ghost c: Cache, ghost live: Live, tier: Tier, ghost q: seq<Page>, d: nat, alloc: seq<nat>, c1: Cache, x: NodeId, ghost p: NodeId)
    returns (c': Cache, last: NodeId, inserted: nat)
    requires CacheInv(c, live) && d + |alloc| == |q| && Spelt(c, live, q, c1, x)
    requires p in c.tree && (p == ROOT || On(c.tree, p, tier)) && Path(c.tree, p) == q[..d]
    ensures InsertedAs(c, live, tier, q, d, alloc, c', last, inserted)
  {
    assert Kept(c.tree, c1.tree, p, tier);
    assert q[..d] <= q;
    PathPrefixAnc(c1.tree, p, x);
    var t, m, spare, stored;
    ghost var bag;
    t, m, spare, stored, bag := AdoptPages(c1.tree, Mgr(c1, tier), tier, RefsOn(live, tier), x, d, alloc, p);
    FreeIrrelevant(c1.tree, t, m, tier, RefsOn(live, tier), OffTier(c1.tree, x, tier), bag, m.free + spare);
    m := m.(free := m.free + spare);
    AttachInv(c1, live, tier, t, m, x, bag);
    AdoptPagesIn(c1, tier, t, m, alloc, spare, bag);
    SameShapeFacts(c1.tree, t, x, x);
    SpelledInsert(c.tree, c1.tree, t, tier, x, d, alloc);
    ExtendsTrans(c.tree, c1.tree, t);
    var log := TellAttached(c1.log, c1.tree, t, tier, stored);
    c' := WithMgr(c1.(tree := t, log := log), tier, m);
    LogFree(WithMgr(c1.(tree := t), tier, m), live, log);
    SpelledDevice(c.tree, c1.tree, q);
    KeepsQuietly(c, c1);
    KeepsTrans(c, c1, c');
    last, inserted := x, |alloc| - |spare|;
  }
}
