/** Removing emptied nodes after an eviction, and making room for an allocation. */
module CachePrune {
  import opened Prelude
  import opened PageTree
  import opened TreeEdits
  import opened TierState
  import opened TierEdits
  import opened TreeWalk
  import opened TreeFrames
  import opened BlockEvents
  import opened CacheState
  import opened CacheEvict

  predicate Empty(t: Tree, n: NodeId) {
    n in t && t[n].children == map[] && !On(t, n, Device) && !On(t, n, Host)
  }

  /** Only nodes without pages on either tier have gone. */
  ghost predicate Pruned(t: Tree, t': Tree) {
    && t'.Keys <= t.Keys
    && (forall n :: n in t' ==> t'[n] == t[n].(children := t'[n].children))
    && (forall n :: n in t && n !in t' ==> !On(t, n, Device) && !On(t, n, Host))
  }

  lemma {:induction false} PrunedFacts(t: Tree, t': Tree, n: NodeId, tier: Tier)
    requires WF(t) && WF(t') && Pruned(t, t') && n in t'
    ensures Path(t', n) == Path(t, n) && Chain(t', n, tier) == Chain(t, n, tier)
    decreases t[n].depth
  {
    if n != ROOT {
      assert UpOk(t, n) && UpOk(t', n);
      PrunedFacts(t, t', t[n].parent, tier);
    }
  }

  lemma PrunedExtends(t: Tree, t': Tree)
    requires WF(t) && WF(t') && Pruned(t, t')
    ensures Extends(t, t') && (NoSnapshots(t) ==> NoSnapshots(t'))
  {
    forall n, o | n in t && (n == ROOT || On(t, n, o)) ensures Kept(t, t', n, o) {
      PrunedFacts(t, t', n, o);
    }
  }

  lemma RemoveEmpty(c: Cache, live: Live, n: NodeId)
    requires CacheInv(c, live) && n != ROOT && Empty(c.tree, n)
    ensures CanRemove(c.tree, n)
    ensures CacheInv(c.(tree := RemoveNode(c.tree, n)), live)
    ensures Pruned(c.tree, RemoveNode(c.tree, n)) && RemoveNode(c.tree, n).Keys == c.tree.Keys - {n}
    ensures Bag(RemoveNode(c.tree, n), Device) == Bag(c.tree, Device)
    ensures Bag(RemoveNode(c.tree, n), Host) == Bag(c.tree, Host)
  {
    RemoveWF(c.tree, n);
    NoSelfParent(c.tree, n);
    RemoveTier(c.tree, n, c.device, Device, live.device);
    RemoveTier(c.tree, n, c.host, Host, live.host);
  }

  lemma PrunedTrans(t: Tree, t1: Tree, t2: Tree)
    requires Pruned(t, t1) && Pruned(t1, t2)
    ensures Pruned(t, t2)
  {
  }

  method RemoveOne(c: Cache, ghost live: Live, n: NodeId) returns (c': Cache, parent: NodeId)
    requires CacheInv(c, live) && n != ROOT && Empty(c.tree, n)
    ensures CacheInv(c', live) && c' == c.(tree := c'.tree) && Pruned(c.tree, c'.tree)
    ensures CanRemove(c.tree, n) && c'.tree == RemoveNode(c.tree, n) && parent == c.tree[n].parent && parent in c'.tree
    ensures c'.tree[parent].depth < c.tree[n].depth
    ensures Bag(c'.tree, Device) == Bag(c.tree, Device) && Bag(c'.tree, Host) == Bag(c.tree, Host)
  {
    RemoveEmpty(c, live, n);
    NoSelfParent(c.tree, n);
    parent := c.tree[n].parent;
    c' := c.(tree := RemoveNode(c.tree, n));
  }

  /** The nodes from n upwards, below `at`. */
  ghost function Line(t: Tree, n: NodeId, at: NodeId): set<NodeId>
    requires WF(t) && n in t && IsAnc(t, at, n)
    decreases t[n].depth
  {
    if n == at then {} else
      assert UpOk(t, n);
      {n} + Line(t, t[n].parent, at)
  }

  lemma {:induction false} LineMore(t: Tree, n: NodeId, at: NodeId)
    requires WF(t) && n in t && at in t && at != ROOT && IsAnc(t, at, n)
    ensures t[at].depth <= t[n].depth && IsAnc(t, t[at].parent, n) && Line(t, n, t[at].parent) == Line(t, n, at) + {at}
    decreases t[n].depth
  {
    assert UpOk(t, at);
    if n != at {
      assert UpOk(t, n);
      LineMore(t, t[n].parent, at);
    }
  }

  /** A climb from n has come to `at`: exactly the nodes on the way are gone; they held no pages on either tier and had no
      children but one another; and all other nodes are as they were, but that `at` has lost the last of them. */
  ghost predicate Climb(t: Tree, t': Tree, n: NodeId, at: NodeId)
    requires WF(t) && n in t
  {
    && at in t' && IsAnc(t, at, n) && t'.Keys == t.Keys - Line(t, n, at)
    && (forall x {:trigger Bared(t, x, Line(t, n, at))} :: x in Line(t, n, at) ==> Bared(t, x, Line(t, n, at)))
    && (forall x {:trigger t'[x]} :: x in t' && x != at ==> t'[x] == t[x])
    && t'[at] == t[at].(children := Without(t[at].children, Line(t, n, at)))
  }

  /** No pages on either tier, and no children but these. */
  ghost predicate Bared(t: Tree, x: NodeId, line: set<NodeId>) {
    x in t && !On(t, x, Device) && !On(t, x, Host) && forall k :: k in t[x].children ==> t[x].children[k] in line
  }

  ghost function Without(children: map<Page, NodeId>, line: set<NodeId>): map<Page, NodeId> {
    map k | k in children && children[k] !in line :: children[k]
  }

  /** Climb from n removing empty nodes; the climb cannot pass a parent that holds pages. */
  method PruneEmptyByNode(c: Cache, ghost live: Live, n: NodeId) returns (c': Cache, survivor: NodeId)
    requires CacheInv(c, live) && n in c.tree
    ensures CacheInv(c', live) && c' == c.(tree := c'.tree)
    ensures Pruned(c.tree, c'.tree) && survivor in c'.tree && (survivor == ROOT || !Empty(c'.tree, survivor))
    ensures Bag(c'.tree, Device) == Bag(c.tree, Device) && Bag(c'.tree, Host) == Bag(c.tree, Host)
    ensures Climb(c.tree, c'.tree, n, survivor)
  {
    c', survivor := c, n;
    ClimbStart(c.tree, n);
    while survivor != ROOT && Empty(c'.tree, survivor)
      invariant CacheInv(c', live) && c' == c.(tree := c'.tree)
      invariant Pruned(c.tree, c'.tree) && survivor in c'.tree
      invariant Bag(c'.tree, Device) == Bag(c.tree, Device) && Bag(c'.tree, Host) == Bag(c.tree, Host)
      invariant Climb(c.tree, c'.tree, n, survivor)
      decreases c'.tree[survivor].depth
    {
      var c1, parent := RemoveOne(c', live, survivor);
      PrunedTrans(c.tree, c'.tree, c1.tree);
      ClimbStep(c.tree, c'.tree, c1.tree, n, survivor);
      c', survivor := c1, parent;
    }
  }

  lemma ClimbStart(t: Tree, n: NodeId)
    requires WF(t) && n in t
    ensures Climb(t, t, n, n)
  {
    assert Without(t[n].children, {}) == t[n].children;
  }

  lemma ClimbStep(t: Tree, t1: Tree, t2: Tree, n: NodeId, at: NodeId)
    requires WF(t) && n in t && Climb(t, t1, n, at) && at != ROOT && Empty(t1, at)
    requires CanRemove(t1, at) && t2 == RemoveNode(t1, at)
    ensures Climb(t, t2, n, t1[at].parent)
  {
    var up := t1[at].parent;
    NoSelfParent(t1, at);
    LineMore(t, n, at);
    var line, line' := Line(t, n, at), Line(t, n, up);
    forall x | x in line' ensures Bared(t, x, line') {
      if x == at { NoMore(t, t1, at, line); } else { assert Bared(t, x, line); }
    }
    assert UpOk(t1, at);
    LastGone(t, t1, at, up, line);
  }

  /** A node that has lost all its children had none but these. */
  lemma NoMore(t: Tree, t1: Tree, at: NodeId, line: set<NodeId>)
    requires at in t && Empty(t1, at) && t1[at] == t[at].(children := Without(t[at].children, line))
    ensures Bared(t, at, line + {at})
  {
    forall k | k in t[at].children ensures t[at].children[k] in line {
      assert k in Without(t[at].children, line) <==> t[at].children[k] !in line;
    }
  }

  /** The parent loses exactly this child. */
  lemma LastGone(t: Tree, t1: Tree, at: NodeId, up: NodeId, line: set<NodeId>)
    requires WF(t) && WF(t1) && at in t && at in t1 && at != ROOT && up in t && t[at].run == t1[at].run && t[at].parent == up && t1[at].run != []
    requires t1.Keys == t.Keys - line
    requires up in t1 && t1[up] == t[up]
    ensures t1[up].children - {t1[at].run[0]} == Without(t[up].children, line + {at})
  {
    assert UpOk(t, at) && UpOk(t1, at);
    forall k | k in t[up].children ensures t[up].children[k] !in line && (t[up].children[k] == at <==> k == t1[at].run[0]) {
      assert DownOk(t, up, k) && DownOk(t1, up, k);
    }
  }

  /** An evicted node that pruning removes: it is empty, and its parent was not evicted with it. */
  ghost predicate Doomed(t: Tree, gone: seq<NodeId>, n: NodeId)
    requires n in t
  {
    n in gone && n != ROOT && t[n].parent !in gone && Empty(t, n)
  }

  /** What holds after the first i evicted nodes were looked at: the doomed among them are gone, and every evicted node
      still there is as it was. */
  ghost predicate PruneInv(c: Cache, c': Cache, tier: Tier, gone: seq<NodeId>, i: nat)
    requires i <= |gone|
  {
    && Pruned(c.tree, c'.tree)
    && c' == WithMgr(c.(tree := c'.tree), tier, Mgr(c', tier)) && Mgr(c', tier).free == Mgr(c, tier).free
    && Bag(c'.tree, Device) == Bag(c.tree, Device) && Bag(c'.tree, Host) == Bag(c.tree, Host)
    && (forall x {:trigger x in c'.tree} :: x in c.tree ==> (x !in c'.tree <==> Doomed(c.tree, gone, x) && x in gone[..i]))
    && (forall x :: x in c'.tree && x in gone ==> c'.tree[x] == c.tree[x])
  }

  lemma StillThere(c: Cache, c': Cache, tier: Tier, gone: seq<NodeId>, i: nat)
    requires i < |gone| && PruneInv(c, c', tier, gone, i) && Distinct(gone) && gone[i] in c.tree
    ensures gone[i] in c'.tree
  {
    assert gone[i] !in gone[..i];
  }

  lemma PruneNext(c: Cache, c1: Cache, c2: Cache, tier: Tier, gone: seq<NodeId>, i: nat)
    requires i < |gone| && PruneInv(c, c1, tier, gone, i) && Pruned(c1.tree, c2.tree)
    requires c2 == WithMgr(c1.(tree := c2.tree), tier, Mgr(c2, tier)) && Mgr(c2, tier).free == Mgr(c1, tier).free
    requires Bag(c2.tree, Device) == Bag(c1.tree, Device) && Bag(c2.tree, Host) == Bag(c1.tree, Host)
    requires gone[i] in c1.tree && gone[i] != ROOT && WF(c1.tree)
    requires c2.tree == if Doomed(c1.tree, gone, gone[i]) then RemoveNode(c1.tree, gone[i]) else c1.tree
    ensures PruneInv(c, c2, tier, gone, i + 1)
  {
    PrunedTrans(c.tree, c1.tree, c2.tree);
    assert gone[..i + 1] == gone[..i] + [gone[i]];
    assert UpOk(c1.tree, gone[i]);
  }

  /** Exactly the evicted nodes that are empty and whose parent was not evicted too are removed, and no other node: the
      climb from one stops at that parent, so every later entry of the list is still in the tree when it is read. */
  method PruneEvicted(c: Cache, ghost live: Live, ghost t0: Tree, tier: Tier, gone: seq<NodeId>) returns (c': Cache)
    requires CacheInv(c, live)
    requires WF(t0) && Closed(t0, tier) && Evicted(t0, c.tree, tier, Elems(gone)) && Distinct(gone)
    ensures CacheInv(c', live) && PruneInv(c, c', tier, gone, |gone|)
    ensures forall x :: x in c.tree ==> (x in c'.tree <==> !Doomed(c.tree, gone, x))
  {
    c' := c;
    var i := 0;
    while i < |gone|
      invariant 0 <= i <= |gone| && CacheInv(c', live) && PruneInv(c, c', tier, gone, i)
    {
      assert gone[i] in Elems(gone);
      StillThere(c, c', tier, gone, i);
      var c1 := c';
      if c'.tree[gone[i]].parent !in gone {
        var survivor;
        c1, survivor := PruneOne(c', live, c.tree, t0, tier, gone, gone[i]);
      }
      PruneNext(c, c', c1, tier, gone, i);
      c' := c1;
      i := i + 1;
    }
  }

  lemma ParentKept(t0: Tree, t: Tree, t': Tree, tier: Tier, gone: seq<NodeId>, n: NodeId)
    requires WF(t0) && Closed(t0, tier) && Evicted(t0, t, tier, Elems(gone)) && Pruned(t, t') && n in t' && n in gone
    requires WF(t') && t'[n].parent !in gone
    ensures n != ROOT && (t'[n].parent == ROOT || On(t', t'[n].parent, tier))
  {
    assert n in Elems(gone);
    assert ClosedAt(t0, n, tier);
    assert UpOk(t', n);
    assert t'[n].parent !in Elems(gone);
  }

  /** The climb does not pass a parent that holds pages. */
  lemma OneUp(t: Tree, t': Tree, n: NodeId, at: NodeId, tier: Tier)
    requires WF(t) && n in t && n != ROOT && Climb(t, t', n, at) && at != n
    requires t[n].parent == ROOT || On(t, t[n].parent, tier)
    ensures at == t[n].parent
  {
    assert UpOk(t, n);
    var p := t[n].parent;
    var line := Line(t, n, at);
    assert line == {n} + Line(t, p, at) && (p != at ==> p in Line(t, p, at));
    assert p in line ==> Bared(t, p, line);
  }

  lemma NoSelfChild(t: Tree, n: NodeId)
    requires WF(t) && n in t && n != ROOT
    ensures forall k :: k in t[n].children ==> t[n].children[k] != n
  {
    NoSelfParent(t, n);
    forall k | k in t[n].children ensures t[n].children[k] != n { assert DownOk(t, n, k); }
  }

  lemma RemovedIs(t: Tree, t': Tree, n: NodeId)
    requires CanRemove(t, n) && t[n].parent in t && t[n].parent != n && t[n].run != [] && t'.Keys == t.Keys - {n}
    requires t'[t[n].parent] == t[t[n].parent].(children := t[t[n].parent].children - {t[n].run[0]})
    requires forall x :: x in t' && x != t[n].parent ==> t'[x] == t[x]
    ensures t' == RemoveNode(t, n)
  {
  }

  lemma ClimbStops(t: Tree, t': Tree, n: NodeId, at: NodeId, tier: Tier)
    requires WF(t) && n in t && n != ROOT && Climb(t, t', n, at) && (at == ROOT || !Empty(t', at))
    requires t[n].parent == ROOT || On(t, t[n].parent, tier)
    ensures Empty(t, n) ==> CanRemove(t, n)
    ensures t' == if Empty(t, n) then RemoveNode(t, n) else t
  {
    if at == n {
      assert Without(t[n].children, {}) == t[n].children;
      assert t' == t;
    } else {
      assert UpOk(t, n);
      var line := Line(t, n, at);
      NoSelfParent(t, n);
      OneUp(t, t', n, at, tier);
      assert line == {n} + Line(t, at, at) == {n};
      assert Bared(t, n, line);
      NoSelfChild(t, n);
      assert t[n].children == map[];
      LastGone(t, t, n, at, {});
      assert {} + {n} == line;
      RemovedIs(t, t', n);
    }
  }

  /** Prune one evicted node and refresh the node where the climb ended. */
  method PruneOne(c: Cache, ghost live: Live, ghost t: Tree, ghost t0: Tree, tier: Tier, gone: seq<NodeId>, n: NodeId)
    returns (c': Cache, survivor: NodeId)
    requires CacheInv(c, live) && n in c.tree && n in gone && c.tree[n].parent !in gone
    requires WF(t0) && Closed(t0, tier) && Evicted(t0, t, tier, Elems(gone)) && Pruned(t, c.tree)
    ensures CacheInv(c', live) && Pruned(c.tree, c'.tree) && survivor in c'.tree
    ensures c' == WithMgr(c.(tree := c'.tree), tier, Mgr(c', tier)) && Mgr(c', tier).free == Mgr(c, tier).free
    ensures Bag(c'.tree, Device) == Bag(c.tree, Device) && Bag(c'.tree, Host) == Bag(c.tree, Host)
    ensures n != ROOT && (Empty(c.tree, n) ==> CanRemove(c.tree, n))
    ensures c'.tree == if Empty(c.tree, n) then RemoveNode(c.tree, n) else c.tree
  {
    ParentKept(t0, t, c.tree, tier, gone, n);
    c', survivor := PruneEmptyByNode(c, live, n);
    ClimbStops(c.tree, c'.tree, n, survivor, tier);
    UpdateLeavesRepairs(c'.tree, Mgr(c', tier), tier, survivor, {});
    assert {} - {survivor, c'.tree[survivor].parent} == {};
    c' := WithMgr(c', tier, UpdateLeaves(c'.tree, Mgr(c', tier), tier, survivor));
  }

  // ---------------------------------------------------------------- making room

  lemma PlaceKept(t: Tree, t': Tree, p: Pos)
    requires WF(t) && WF(t') && Pruned(t, t') && ValidPos(t', p) && p.node != ROOT
    ensures ValidPos(t, p) && PosPath(t, p) == PosPath(t', p)
  {
    assert UpOk(t', p.node) && UpOk(t, p.node);
    PrunedFacts(t, t', t'[p.node].parent, Device);
  }

  /** Pruning changes no block. */
  lemma PrunedDevice(t: Tree, t': Tree)
    requires WF(t) && WF(t') && Pruned(t, t')
    ensures SameDevice(t, t')
  {
    forall q ensures OnDevice(t', q) <==> OnDevice(t, q) {
      if OnDevice(t', q) {
        var p := Descend(t', q).value;
        DescendSpells(t', q);
        PlaceKept(t, t', p);
        SpellsDescend(t, p);
      }
      if OnDevice(t, q) {
        var p := Descend(t, q).value;
        DescendSpells(t, q);
        assert UpOk(t, p.node) && p.node in t';
        PlaceKept(t, t', p);
        SpellsDescend(t', p);
      }
    }
  }

  /** Evicted device nodes are published as removed; host evictions publish nothing. */
  method TellEvicted(log: Log, ghost t0: Tree, t: Tree, tier: Tier, gone: seq<NodeId>) returns (log': Log)
    requires WF(t0) && WF(t) && Evicted(t0, t, tier, Elems(gone))
    ensures StillTold(log, t0, log', t) && (tier == Host ==> log' == log)
  {
    log' := log;
    if tier == Device {
      forall i | 0 <= i < |gone| ensures gone[i] in t && gone[i] != ROOT { assert gone[i] in Elems(gone); }
      log' := PublishRemoved(log, t0, t, gone);
    } else {
      SameShapeDevice(t0, t);
      ToldSame(log, t0, t);
    }
  }

  lemma ShrinksThenExtends(t: Tree, t1: Tree, t2: Tree, tier: Tier)
    requires WF(t) && WF(t1) && WF(t2) && Shrinks(t, t1, tier) && Extends(t1, t2)
    ensures Shrinks(t, t2, tier)
  {
    forall n, o | n in t && (n == ROOT || (o != tier && On(t, n, o)) || Locked(t, n, o)) ensures Kept(t, t2, n, o) {
      assert Kept(t, t1, n, o) && Kept(t1, t2, n, o);
    }
  }

  lemma EvictableSurvivesPrune(t: Tree, t': Tree, tier: Tier)
    requires WF(t) && WF(t') && Pruned(t, t')
    ensures EvictablePages(t', tier) == EvictablePages(t, tier)
  {
    assert EvictableMap(t', tier) == EvictableMap(t, tier);
  }

  /** Make room for `required` pages on a tier: it succeeds exactly if the free pages and all pages on
      unlocked nodes of the tier suffice, it takes pages from unlocked nodes only, and never evicts once there is room. */
  method EnsureCapacityByEvict(c: Cache, ghost live: Live, tier: Tier, required: int) returns (c': Cache, ok: bool)
    requires CacheInv(c, live)
    ensures CacheInv(c', live)
    ensures ok <==> |Mgr(c, tier).free| + EvictablePages(c.tree, tier) >= required
    ensures ok <==> |Mgr(c', tier).free| >= required
    ensures |Mgr(c', tier).free| + EvictablePages(c'.tree, tier) == |Mgr(c, tier).free| + EvictablePages(c.tree, tier)
    ensures required <= |Mgr(c, tier).free| ==> c' == c
    ensures |Mgr(c', tier).free| != |Mgr(c, tier).free| ==>
              exists n {:trigger On(c.tree, n, tier)} :: On(c.tree, n, tier) && |Mgr(c', tier).free| < required + |PagesOn(c.tree[n], tier)|
    ensures Shrinks(c.tree, c'.tree, tier)
    ensures PagesIn(c', Device) == PagesIn(c, Device) && PagesIn(c', Host) == PagesIn(c, Host)
    ensures Mgr(c', Other(tier)) == Mgr(c, Other(tier)) && c'.next == c.next
    ensures NoSnapshots(c.tree) ==> NoSnapshots(c'.tree)
    ensures Keeps(c, c') && NoneGained(c.tree, c'.tree)
  {
    c' := c;
    if required > 0 && |Mgr(c, tier).free| < required {
      c' := EvictPages(c, live, tier, required - |Mgr(c, tier).free|);
    } else {
      EvictStart(c.tree, Mgr(c, tier), tier, RefsOn(live, tier));
      EvictedShrinks(c.tree, c.tree, tier, RefsOn(live, tier), {});
    }
    ok := |Mgr(c', tier).free| >= required;
  }

  /** Evict until num more pages are free or nothing evictable is left, tell the listener, and prune. */
  method EvictPages(c: Cache, ghost live: Live, tier: Tier, num: nat) returns (c': Cache)
    requires CacheInv(c, live)
    ensures CacheInv(c', live)
    ensures |Mgr(c', tier).free| >= |Mgr(c, tier).free| + num || EvictablePages(c'.tree, tier) == 0
    ensures |Mgr(c', tier).free| + EvictablePages(c'.tree, tier) == |Mgr(c, tier).free| + EvictablePages(c.tree, tier)
    ensures |Mgr(c', tier).free| != |Mgr(c, tier).free| ==>
              exists n {:trigger On(c.tree, n, tier)} :: On(c.tree, n, tier) && |Mgr(c', tier).free| < |Mgr(c, tier).free| + num + |PagesOn(c.tree[n], tier)|
    ensures Shrinks(c.tree, c'.tree, tier)
    ensures PagesIn(c', Device) == PagesIn(c, Device) && PagesIn(c', Host) == PagesIn(c, Host)
    ensures Mgr(c', Other(tier)) == Mgr(c, Other(tier)) && c'.next == c.next
    ensures NoSnapshots(c.tree) ==> NoSnapshots(c'.tree)
    ensures Keeps(c, c') && NoneGained(c.tree, c'.tree)
  {
    var t, m, gone := EvictLoop(c.tree, Mgr(c, tier), tier, num, RefsOn(live, tier));
    EvictDone(c, live, tier, t, m, Elems(gone));
    EvictedShrinks(c.tree, t, tier, RefsOn(live, tier), Elems(gone));
    var log := TellEvicted(c.log, c.tree, t, tier, gone);
    var c1 := WithMgr(c.(tree := t, log := log), tier, m);
    LogFree(WithMgr(c.(tree := t), tier, m), live, log);
    if gone != [] {
      assert Last(gone) in Elems(gone);
      assert On(c.tree, Last(gone), tier);
    }
    c' := PruneEvicted(c1, live, c.tree, tier, gone);
    AfterPrune(c, c1, c', tier, gone);
  }

  lemma AfterPrune(c: Cache, c1: Cache, c': Cache, tier: Tier, gone: seq<NodeId>)
    requires WF(c.tree) && WF(c1.tree) && WF(c'.tree) && Evicted(c.tree, c1.tree, tier, Elems(gone)) && Shrinks(c.tree, c1.tree, tier)
    requires Pruned(c1.tree, c'.tree) && c'.log == c1.log && Keeps(c, c1)
    ensures Shrinks(c.tree, c'.tree, tier) && (NoSnapshots(c1.tree) ==> NoSnapshots(c'.tree))
    ensures EvictablePages(c'.tree, tier) == EvictablePages(c1.tree, tier)
    ensures Keeps(c, c') && NoneGained(c.tree, c'.tree)
  {
    PrunedExtends(c1.tree, c'.tree);
    PrunedDevice(c1.tree, c'.tree);
    FewerDevice(c.tree, c1.tree);
    KeepsQuietly(c1, c');
    KeepsTrans(c, c1, c');
    EvictableSurvivesPrune(c1.tree, c'.tree, tier);
    ShrinksThenExtends(c.tree, c1.tree, c'.tree, tier);
  }
}
