/** Attaching pages along a root path: load-back and write-back allocation. */
module CacheAttach {
  import opened Prelude
  import opened PagePool
  import opened PageTree
  import opened TreeEdits
  import opened TierState
  import opened TierEdits
  import opened TreeWalk
  import opened TreeFrames
  import opened BlockEvents
  import opened CacheState

  /** Exactly the nodes in `done` have gained pages on the tier, with no lock. */
  ghost predicate Attached(t0: Tree, t: Tree, tier: Tier, done: set<NodeId>) {
    && SameShape(t0, t) && done <= t0.Keys
    && (forall n :: n in done ==> n != ROOT && !On(t0, n, tier) && On(t, n, tier) && t[n] == WithRes(t0[n], tier, Res(t[n], tier)))
    && (forall n :: n in t0 && n !in done ==> t[n] == t0[n])
  }

  /** What holds while pages are being attached to nodes that are off the tier. */
  ghost predicate Attaching(t0: Tree, t: Tree, m: Manager, tier: Tier, refs: Refs, done: set<NodeId>, bag: multiset<nat>) {
    && WF(t0) && WF(t) && Closed(t0, tier) && RefsExact(t0, tier, refs)
    && Attached(t0, t, tier, done)
    && Indexed(t, m, tier) && RefsExact(t, tier, refs)
    && Bag(t, tier) == Bag(t0, tier) + bag
  }

  lemma AttachStart(t: Tree, m: Manager, tier: Tier, refs: Refs)
    requires WF(t) && TierInv(t, m, tier, refs)
    ensures Attaching(t, t, m, tier, refs, {}, multiset{})
  {
  }

  lemma AttachStep(t0: Tree, t: Tree, m: Manager, tier: Tier, refs: Refs, done: set<NodeId>, bag: multiset<nat>,
                   n: NodeId, pages: seq<nat>, t': Tree, m': Manager)
    requires Attaching(t0, t, m, tier, refs, done, bag)
    requires n in t0 && n != ROOT && !On(t0, n, tier) && n !in done && |pages| == |t0[n].run|
    requires t' == SetRes(t, n, tier, Some(Resource(pages, 0))) && m' == UpdateLeaves(t', m, tier, n)
    ensures Attaching(t0, t', m', tier, refs, done + {n}, bag + multiset(pages)) && m'.free == m.free
  {
    SetResWF(t, n, tier, Some(Resource(pages, 0)));
    AttachedMore(t0, t, tier, done, n, pages);
    NoHoldersOffTier(t0, tier, refs, n);
    SameShapeHolders(t0, t, refs, n);
    AttachRefs(t, n, tier, pages, refs);
    AttachIndex(t, n, m, tier, pages);
    AttachBag(t0, t, tier, n, pages, bag);
  }

  lemma AttachedMore(t0: Tree, t: Tree, tier: Tier, done: set<NodeId>, n: NodeId, pages: seq<nat>)
    requires Attached(t0, t, tier, done) && n in t0 && n != ROOT && !On(t0, n, tier) && n !in done
    ensures !On(t, n, tier) && Attached(t0, SetRes(t, n, tier, Some(Resource(pages, 0))), tier, done + {n})
  {
  }

  lemma AttachBag(t0: Tree, t: Tree, tier: Tier, n: NodeId, pages: seq<nat>, bag: multiset<nat>)
    requires n in t && !On(t, n, tier) && Bag(t, tier) == Bag(t0, tier) + bag
    ensures Bag(SetRes(t, n, tier, Some(Resource(pages, 0))), tier) == Bag(t0, tier) + (bag + multiset(pages))
  {
    SetResBag(t, n, tier, Some(Resource(pages, 0)));
    assert PagesOn(t[n], tier) == [];
    var b' := Bag(SetRes(t, n, tier, Some(Resource(pages, 0))), tier);
    assert b' + multiset{} == b';
    assert (Bag(t0, tier) + bag) + multiset(pages) == Bag(t0, tier) + (bag + multiset(pages));
  }

  /** The nodes on the root path of x that are off the tier. */
  ghost function OffTier(t: Tree, x: NodeId, tier: Tier): set<NodeId>
    requires WF(t) && x in t
  {
    set n | n in t && n != ROOT && IsAnc(t, n, x) && !On(t, n, tier)
  }

  /** Once every such node has pages the tier is closed again and x is resident. */
  lemma AttachClosed(t0: Tree, t: Tree, tier: Tier, x: NodeId)
    requires WF(t0) && WF(t) && Closed(t0, tier) && x in t0 && Attached(t0, t, tier, OffTier(t0, x, tier))
    ensures Closed(t, tier) && (x == ROOT || On(t, x, tier))
  {
    forall n | n in t ensures ClosedAt(t, n, tier) {
      assert ClosedAt(t0, n, tier);
      if n in OffTier(t0, x, tier) {
        NoSelfParent(t0, n);
        var p := t0[n].parent;
        assert IsAnc(t0, p, p) && IsAnc(t0, p, n);
        IsAncTrans(t0, p, n, x);
      }
    }
    assert IsAnc(t0, x, x);
    assert x != ROOT && !On(t0, x, tier) ==> x in OffTier(t0, x, tier);
  }

  lemma AttachExtends(t0: Tree, t: Tree, tier: Tier, done: set<NodeId>)
    requires WF(t0) && WF(t) && Closed(t0, tier) && Attached(t0, t, tier, done)
    ensures Extends(t0, t) && SameTier(t0, t, Other(tier)) && (NoSnapshots(t0) ==> NoSnapshots(t))
  {
    forall n, o | n in t0 && (n == ROOT || On(t0, n, o)) ensures Kept(t0, t, n, o) {
      SameShapeFacts(t0, t, n, n);
      forall a | IsAnc(t0, a, n) ensures a in t && t[a].parent == t0[a].parent && PagesOn(t[a], o) == PagesOn(t0[a], o) {
        assert IsAnc(t0, a, ROOT) ==> a == ROOT;
        if o == tier && n != ROOT && a != ROOT { AncestorsOn(t0, n, a, tier); }
      }
      SameChain(t0, t, n, o);
    }
  }

  /** Nodes from x up to the first one on the tier, leaf first; together they hold the pages x's path lacks. */
  method NodesWithout(t: Tree, tier: Tier, x: NodeId) returns (nodes: seq<NodeId>, total: nat)
    requires WF(t) && Closed(t, tier) && x in t
    ensures Elems(nodes) == OffTier(t, x, tier) && Distinct(nodes)
    ensures forall i :: 0 <= i < |nodes| ==> nodes[i] in t
    ensures total == t[x].depth - |Chain(t, x, tier)| && total == PageTotal(t, nodes)
  {
    nodes, total := [], 0;
    var y := x;
    assert IsAnc(t, x, x);
    while y != ROOT && !On(t, y, tier)
      invariant y in t && IsAnc(t, y, x)
      invariant forall i :: 0 <= i < |nodes| ==> nodes[i] in t && t[nodes[i]].depth > t[y].depth
      invariant Distinct(nodes)
      invariant Elems(nodes) + OffTier(t, y, tier) == OffTier(t, x, tier)
      invariant total + t[y].depth == t[x].depth && total == PageTotal(t, nodes)
      invariant Chain(t, y, tier) == Chain(t, x, tier)
      decreases t[y].depth
    {
      OffTierStep(t, y, x, tier);
      NoSelfParent(t, y);
      assert UpOk(t, y);
      PageTotalAdd(t, nodes, y);
      assert Elems(nodes + [y]) == Elems(nodes) + {y};
      nodes, total := nodes + [y], total + |t[y].run|;
      y := t[y].parent;
    }
    OffTierEnd(t, y, tier);
    ChainLength(t, y, tier);
  }

  lemma OffTierStep(t: Tree, y: NodeId, x: NodeId, tier: Tier)
    requires WF(t) && y in t && x in t && y != ROOT && !On(t, y, tier) && IsAnc(t, y, x)
    ensures t[y].parent in t && IsAnc(t, t[y].parent, x)
    ensures OffTier(t, y, tier) == OffTier(t, t[y].parent, tier) + {y}
    ensures Chain(t, t[y].parent, tier) == Chain(t, y, tier)
  {
    NoSelfParent(t, y);
    var p := t[y].parent;
    assert IsAnc(t, p, p) && IsAnc(t, p, y);
    IsAncTrans(t, p, y, x);
  }

  lemma OffTierEnd(t: Tree, y: NodeId, tier: Tier)
    requires WF(t) && Closed(t, tier) && y in t && (y == ROOT || On(t, y, tier))
    ensures OffTier(t, y, tier) == {}
  {
    forall n | n in t && n != ROOT && IsAnc(t, n, y) ensures On(t, n, tier) {
      assert IsAnc(t, n, ROOT) ==> n == ROOT;
      AncestorsOn(t, y, n, tier);
    }
  }

  function PageTotal(t: Tree, nodes: seq<NodeId>): nat
    requires forall i :: 0 <= i < |nodes| ==> nodes[i] in t
  {
    if nodes == [] then 0 else |t[nodes[0]].run| + PageTotal(t, nodes[1..])
  }

  lemma {:induction false} PageTotalAdd(t: Tree, nodes: seq<NodeId>, n: NodeId)
    requires n in t && forall i :: 0 <= i < |nodes| ==> nodes[i] in t
    ensures PageTotal(t, nodes + [n]) == PageTotal(t, nodes) + |t[n].run|
  {
    if nodes == [] {
      assert nodes + [n] == [n];
      assert [n][1..] == [];
    } else {
      assert (nodes + [n])[1..] == nodes[1..] + [n];
      PageTotalAdd(t, nodes[1..], n);
    }
  }

  /** Attach one share to one node, and refresh the node and its parent in the index. */
  method AttachNode(ghost t0: Tree, t: Tree, m: Manager, tier: Tier, ghost refs: Refs, ghost done: set<NodeId>,
                    ghost bag: multiset<nat>, n: NodeId, share: seq<nat>)
    returns (t': Tree, m': Manager)
    requires Attaching(t0, t, m, tier, refs, done, bag)
    requires n in t0 && n in t && n != ROOT && !On(t0, n, tier) && n !in done && |share| == |t0[n].run|
    ensures Attaching(t0, t', m', tier, refs, done + {n}, bag + multiset(share)) && m'.free == m.free
    ensures t' == SetRes(t, n, tier, Some(Resource(share, 0)))
  {
    t' := SetRes(t, n, tier, Some(Resource(share, 0)));
    m' := UpdateLeaves(t', m, tier, n);
    AttachStep(t0, t, m, tier, refs, done, bag, n, share, t', m');
  }

  /** The first i listed nodes have their pages; `rest` is what is left for the others. */
  ghost predicate AttachList(t0: Tree, t: Tree, m: Manager, tier: Tier, refs: Refs, nodes: seq<NodeId>, i: nat,
                             rest: seq<nat>, bag: multiset<nat>)
  {
    && i <= |nodes| && Distinct(nodes)
    && (forall j :: 0 <= j < |nodes| ==> nodes[j] in t0 && nodes[j] != ROOT && !On(t0, nodes[j], tier))
    && |rest| == PageTotal(t0, nodes[i..])
    && Attaching(t0, t, m, tier, refs, Elems(nodes[..i]), bag)
  }

  method AttachNext(ghost t0: Tree, t: Tree, m: Manager, tier: Tier, ghost refs: Refs, nodes: seq<NodeId>, i: nat,
                    rest: seq<nat>, ghost bag: multiset<nat>, ghost pages: seq<nat>)
    returns (t': Tree, m': Manager, rest': seq<nat>, ghost bag': multiset<nat>)
    requires AttachList(t0, t, m, tier, refs, nodes, i, rest, bag) && i < |nodes| && bag + multiset(rest) == multiset(pages)
    ensures AttachList(t0, t', m', tier, refs, nodes, i + 1, rest', bag') && bag' + multiset(rest') == multiset(pages)
    ensures m'.free == m.free
  {
    var k := |t[nodes[i]].run|;
    NextInList(nodes, i);
    ShareOut(bag, rest, k, pages);
    t', m' := AttachNode(t0, t, m, tier, refs, Elems(nodes[..i]), bag, nodes[i], rest[..k]);
    rest', bag' := rest[k..], bag + multiset(rest[..k]);
  }

  /** Attach pages to the listed nodes, leaf first, each taking its share from the front. */
  method AttachAll(t0: Tree, m0: Manager, tier: Tier, ghost refs: Refs, nodes: seq<NodeId>, pages: seq<nat>)
    returns (t: Tree, m: Manager)
    requires WF(t0) && TierInv(t0, m0, tier, refs) && Distinct(nodes)
    requires forall i :: 0 <= i < |nodes| ==> nodes[i] in t0 && nodes[i] != ROOT && !On(t0, nodes[i], tier)
    requires |pages| == PageTotal(t0, nodes)
    ensures Attaching(t0, t, m, tier, refs, Elems(nodes), multiset(pages)) && m.free == m0.free
  {
    t, m := t0, m0;
    var i, rest := 0, pages;
    ghost var bag := multiset{};
    AttachStart(t0, m0, tier, refs);
    assert nodes[i..] == nodes && nodes[..i] == [];
    while i < |nodes|
      invariant AttachList(t0, t, m, tier, refs, nodes, i, rest, bag) && bag + multiset(rest) == multiset(pages)
      invariant m.free == m0.free
    {
      t, m, rest, bag := AttachNext(t0, t, m, tier, refs, nodes, i, rest, bag, pages);
      i := i + 1;
    }
    assert nodes[..i] == nodes && multiset(rest) == multiset{};
  }

  lemma ShareOut(bag: multiset<nat>, rest: seq<nat>, k: nat, pages: seq<nat>)
    requires k <= |rest| && bag + multiset(rest) == multiset(pages)
    ensures bag + multiset(rest[..k]) + multiset(rest[k..]) == multiset(pages)
  {
    MultisetSplit(rest, k);
  }

  lemma NextInList(nodes: seq<NodeId>, i: nat)
    requires i < |nodes| && Distinct(nodes)
    ensures nodes[i] !in nodes[..i]
    ensures nodes[i..][0] == nodes[i] && nodes[i..][1..] == nodes[i + 1..]
    ensures Elems(nodes[..i + 1]) == Elems(nodes[..i]) + {nodes[i]}
  {
    assert nodes[..i + 1] == nodes[..i] + [nodes[i]];
  }

  /** Bring the whole root path of x onto a tier: pages are taken all or none, and attached to just the
      nodes that lack them. */
  method AllocateResourceOfType(c: Cache, ghost live: Live, tier: Tier, x: NodeId) returns (c': Cache, ok: bool)
    requires CacheInv(c, live) && x in c.tree
    ensures CacheInv(c', live)
    ensures ok <==> c.tree[x].depth - |Chain(c.tree, x, tier)| <= |Mgr(c, tier).free|
    ensures !ok ==> c' == c
    ensures ok ==> Attached(c.tree, c'.tree, tier, OffTier(c.tree, x, tier)) && (x == ROOT || On(c'.tree, x, tier))
    ensures ok ==> |Mgr(c', tier).free| == |Mgr(c, tier).free| - (c.tree[x].depth - |Chain(c.tree, x, tier)|)
    ensures Extends(c.tree, c'.tree) && (NoSnapshots(c.tree) ==> NoSnapshots(c'.tree))
    ensures PagesIn(c', tier) == PagesIn(c, tier) && PagesIn(c', Other(tier)) == PagesIn(c, Other(tier))
    ensures Mgr(c', Other(tier)) == Mgr(c, Other(tier)) && c'.next == c.next && Keeps(c, c')
  {
    var nodes, total := NodesWithout(c.tree, tier, x);
    var free, pages := Allocate(Mgr(c, tier).free, total);
    EqualButTimeFacts(c.tree, c.tree);
    ok := |pages| >= total;
    if !ok {
      c' := c;
      return;
    }
    forall i | 0 <= i < |nodes| ensures nodes[i] in OffTier(c.tree, x, tier) { assert nodes[i] in Elems(nodes); }
    var t, m := AttachAll(c.tree, Mgr(c, tier).(free := free), tier, RefsOn(live, tier), nodes, pages);
    AttachDone(c, live, tier, t, m, x, pages);
    var log := TellAttached(c.log, c.tree, t, tier, nodes);
    c' := WithMgr(c.(tree := t, log := log), tier, m);
    LogFree(WithMgr(c.(tree := t), tier, m), live, log);
  }

  /** Nodes that gained device pages are published from the root down, though they were served from the leaf up. */
  method TellAttached(log: Log, ghost t0: Tree, t: Tree, tier: Tier, nodes: seq<NodeId>) returns (log': Log)
    requires WF(t0) && WF(t) && Attached(t0, t, tier, Elems(nodes))
    ensures StillTold(log, t0, log', t) && (tier == Host ==> log' == log)
  {
    log' := log;
    if tier == Device {
      ReversedBag(nodes);
      SameElems(nodes, Reversed(nodes));
      var down := Reversed(nodes);
      forall i | 0 <= i < |down| ensures down[i] in t && down[i] != ROOT { assert down[i] in Elems(down); }
      log' := PublishStored(log, t0, t, down);
    } else {
      SameShapeDevice(t0, t);
      ToldSame(log, t0, t);
    }
  }

  lemma SameElems(a: seq<NodeId>, b: seq<NodeId>)
    requires multiset(a) == multiset(b)
    ensures Elems(a) == Elems(b)
  {
    forall n: nat ensures n in a <==> n in b {
      assert n in a <==> n in multiset(a);
      assert n in b <==> n in multiset(b);
    }
  }

  /** Serving every off-tier node of x's path restores the cache invariant. */
  lemma AttachInv(c: Cache, live: Live, tier: Tier, t: Tree, m: Manager, x: NodeId, bag: multiset<nat>)
    requires CacheInv(c, live) && x in c.tree
    requires Attaching(c.tree, t, m, tier, RefsOn(live, tier), OffTier(c.tree, x, tier), bag)
    ensures CacheInv(WithMgr(c.(tree := t), tier, m), live) && (x == ROOT || On(t, x, tier))
    ensures Extends(c.tree, t) && (NoSnapshots(c.tree) ==> NoSnapshots(t))
    ensures Bag(t, tier) == Bag(c.tree, tier) + bag && Bag(t, Other(tier)) == Bag(c.tree, Other(tier))
  {
    AttachClosed(c.tree, t, tier, x);
    AttachExtends(c.tree, t, tier, OffTier(c.tree, x, tier));
    SameTierInv(c.tree, t, Mgr(c, Other(tier)), Other(tier), RefsOn(live, Other(tier)));
  }

  lemma AttachDone(c: Cache, live: Live, tier: Tier, t: Tree, m: Manager, x: NodeId, pages: seq<nat>)
    requires CacheInv(c, live) && x in c.tree
    requires Attaching(c.tree, t, m, tier, RefsOn(live, tier), OffTier(c.tree, x, tier), multiset(pages))
    requires multiset(m.free) + multiset(pages) == multiset(Mgr(c, tier).free)
    ensures CacheInv(WithMgr(c.(tree := t), tier, m), live) && (x == ROOT || On(t, x, tier))
    ensures Extends(c.tree, t) && (NoSnapshots(c.tree) ==> NoSnapshots(t))
    ensures var c' := WithMgr(c.(tree := t), tier, m);
            PagesIn(c', tier) == PagesIn(c, tier) && PagesIn(c', Other(tier)) == PagesIn(c, Other(tier))
  {
    assert multiset(m.free) + (Bag(c.tree, tier) + multiset(pages)) == (multiset(m.free) + multiset(pages)) + Bag(c.tree, tier);
    AttachInv(c, live, tier, t, m, x, multiset(pages));
  }

  lemma FreeIrrelevant(t0: Tree, t: Tree, m: Manager, tier: Tier, refs: Refs, done: set<NodeId>, bag: multiset<nat>, free: seq<nat>)
    requires Attaching(t0, t, m, tier, refs, done, bag)
    ensures Attaching(t0, t, m.(free := free), tier, refs, done, bag)
  {
  }
}
