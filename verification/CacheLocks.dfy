/** Locking and unlocking a root path one node at a time. */
module CacheLocks {
  import opened Prelude
  import opened PageTree
  import opened TreeEdits
  import opened TierState
  import opened TierEdits
  import opened TreeWalk
  import opened TreeFrames
  import opened CacheState

  /** The counts of the nodes from x up to, but not including, c have been moved. */
  ghost function PartBumped(t: Tree, x: NodeId, c: NodeId, tier: Tier, delta: int): Tree
    requires WF(t) && x in t && c in t
  {
    map n | n in t ::
      if n != ROOT && IsAnc(t, n, x) && !IsAnc(t, n, c)
      then WithRes(t[n], tier, AddRefs(Res(t[n], tier), delta)) else t[n]
  }

  lemma PartBumpedStart(t: Tree, x: NodeId, tier: Tier, delta: int)
    requires WF(t) && x in t
    ensures PartBumped(t, x, x, tier, delta) == t
  {
  }

  lemma PartBumpedEnd(t: Tree, x: NodeId, tier: Tier, delta: int)
    requires WF(t) && x in t
    ensures PartBumped(t, x, ROOT, tier, delta) == Bumped(t, x, tier, delta)
  {
    forall n ensures IsAnc(t, n, ROOT) <==> n == ROOT {}
  }

  lemma PartBumpedStep(t: Tree, x: NodeId, c: NodeId, tier: Tier, delta: int)
    requires WF(t) && x in t && c in t && c != ROOT && IsAnc(t, c, x)
    ensures t[c].parent in t && IsAnc(t, t[c].parent, x)
    ensures var b := PartBumped(t, x, c, tier, delta);
            b[c] == t[c] &&
            PartBumped(t, x, t[c].parent, tier, delta) == b[c := WithRes(t[c], tier, AddRefs(Res(t[c], tier), delta))]
  {
    NoSelfParent(t, c);
    var p := t[c].parent;
    assert IsAnc(t, p, p) && IsAnc(t, p, c);
    IsAncTrans(t, p, c, x);
    assert IsAnc(t, c, c) && !IsAnc(t, c, p);
    forall n | n in t && n != c ensures IsAnc(t, n, c) <==> IsAnc(t, n, p) {}
  }

  lemma PartBumpedFacts(t: Tree, x: NodeId, c: NodeId, tier: Tier, delta: int)
    requires WF(t) && x in t && c in t
    ensures WF(PartBumped(t, x, c, tier, delta)) && SameShape(t, PartBumped(t, x, c, tier, delta))
    ensures forall n, o :: n in t ==> PagesOn(PartBumped(t, x, c, tier, delta)[n], o) == PagesOn(t[n], o)
  {
    var t' := PartBumped(t, x, c, tier, delta);
    assert SameShape(t, t');
    forall n | n in t' ensures ResOk(t'[n]) { assert ResOk(t[n]); }
    SameShapeWF(t, t');
  }

  /** Refreshing an entry half way through an unlock keeps the index exact. */
  lemma RefreshIndex(t: Tree, t': Tree, m: Manager, tier: Tier, n: NodeId)
    requires WF(t) && WF(t') && SameShape(t, t') && Indexed(t, m, tier)
    requires forall x :: x in t ==> PagesOn(t'[x], tier) == PagesOn(t[x], tier)
    ensures Indexed(t, UpdateLeaf(t', m, tier, n), tier) && UpdateLeaf(t', m, tier, n).free == m.free
  {
    forall x ensures IsLeaf(t', x, tier) <==> IsLeaf(t, x, tier) { SameLeaves(t, t', tier, x); }
    assert Indexed(t', m, tier);
    UpdateLeafRepairs(t', m, tier, n, {});
    assert IndexedExcept(t', UpdateLeaf(t', m, tier, n), tier, {} - {n});
  }

  /** A locked or unlocked path leaves the cache invariant with the handle added or dropped. */
  lemma LockInv(c: Cache, live: Live, x: NodeId, tier: Tier, h: Handle)
    requires CacheInv(c, live) && x in c.tree && (x == ROOT || On(c.tree, x, tier)) && h !in RefsOn(live, tier)
    ensures CacheInv(c.(tree := Bumped(c.tree, x, tier, 1)), WithRefs(live, tier, RefsOn(live, tier)[h := x]))
    ensures SameMeaningButRefs(c.tree, Bumped(c.tree, x, tier, 1))
  {
    LockRefs(c.tree, x, tier, RefsOn(live, tier), h);
    BumpMeaning(c.tree, x, tier, 1);
    BumpTiers(c, live, x, tier, 1);
  }

  lemma UnlockInv(c: Cache, live: Live, tier: Tier, h: Handle)
    requires CacheInv(c, live) && h in RefsOn(live, tier)
    ensures var x := RefsOn(live, tier)[h];
            && x in c.tree
            && CacheInv(c.(tree := Bumped(c.tree, x, tier, -1)), WithRefs(live, tier, RefsOn(live, tier) - {h}))
            && SameMeaningButRefs(c.tree, Bumped(c.tree, x, tier, -1))
  {
    var refs := RefsOn(live, tier);
    UnlockRefs(c.tree, tier, refs, h);
    BumpMeaning(c.tree, refs[h], tier, -1);
    BumpTiers(c, live, refs[h], tier, -1);
  }

  /** Same paths and pages; only lock counts may differ. */
  ghost predicate SameMeaningButRefs(t: Tree, t': Tree) {
    && WF(t) && WF(t') && Extends(t, t') && SameShape(t, t')
    && Bag(t', Device) == Bag(t, Device) && Bag(t', Host) == Bag(t, Host)
    && (NoSnapshots(t) ==> NoSnapshots(t'))
  }

  lemma BumpMeaning(t: Tree, x: NodeId, tier: Tier, delta: int)
    requires WF(t) && x in t
    ensures SameMeaningButRefs(t, Bumped(t, x, tier, delta))
  {
    BumpedWF(t, x, tier, delta);
    BumpedExtends(t, x, tier, delta);
    var t' := Bumped(t, x, tier, delta);
    forall o ensures Bag(t', o) == Bag(t, o) { assert TierPages(t', o) == TierPages(t, o); }
  }

  lemma BumpTiers(c: Cache, live: Live, x: NodeId, tier: Tier, delta: int)
    requires CacheInv(c, live) && x in c.tree
    ensures var t' := Bumped(c.tree, x, tier, delta);
            && WF(t') && (forall n :: n in t' ==> n < c.next)
            && Closed(t', tier) && Indexed(t', Mgr(c, tier), tier)
            && TierOk(c.(tree := t'), live, Other(tier))
  {
    BumpedWF(c.tree, x, tier, delta);
    BumpedTier(c.tree, x, tier, delta, Mgr(c, tier));
    SameTierInv(c.tree, Bumped(c.tree, x, tier, delta), Mgr(c, Other(tier)), Other(tier), RefsOn(live, Other(tier)));
  }

  /** Take a reference: lock every node on the root path of n. */
  method Lock(c: Cache, ghost live: Live, tier: Tier, n: NodeId, ghost h: Handle) returns (c': Cache)
    requires CacheInv(c, live) && n in c.tree && (n == ROOT || On(c.tree, n, tier)) && h !in RefsOn(live, tier)
    ensures c' == c.(tree := Bumped(c.tree, n, tier, 1))
    ensures CacheInv(c', WithRefs(live, tier, RefsOn(live, tier)[h := n])) && SameMeaningButRefs(c.tree, c'.tree)
  {
    var t, x := c.tree, n;
    PartBumpedStart(t, n, tier, 1);
    assert IsAnc(c.tree, n, n);
    while x != ROOT
      invariant x in c.tree && IsAnc(c.tree, x, n) && t == PartBumped(c.tree, n, x, tier, 1)
      decreases c.tree[x].depth
    {
      PartBumpedStep(c.tree, n, x, tier, 1);
      NoSelfParent(c.tree, x);
      t := t[x := WithRes(t[x], tier, AddRefs(Res(t[x], tier), 1))];
      x := t[x].parent;
    }
    PartBumpedEnd(c.tree, n, tier, 1);
    LockInv(c, live, n, tier, h);
    c' := c.(tree := t);
  }

  /** Drop a reference: unlock its root path, refreshing the entry of a leaf that becomes evictable. */
  method Unlock(c: Cache, ghost live: Live, tier: Tier, n: NodeId, ghost h: Handle) returns (c': Cache)
    requires CacheInv(c, live) && h in RefsOn(live, tier) && RefsOn(live, tier)[h] == n
    ensures CacheInv(c', WithRefs(live, tier, RefsOn(live, tier) - {h})) && SameMeaningButRefs(c.tree, c'.tree)
    ensures c' == WithMgr(c.(tree := Bumped(c.tree, n, tier, -1)), tier, Mgr(c', tier))
    ensures Mgr(c', tier).free == Mgr(c, tier).free
  {
    var t, m, x := c.tree, Mgr(c, tier), n;
    PartBumpedStart(t, n, tier, -1);
    assert IsAnc(c.tree, n, n);
    while x != ROOT
      invariant x in c.tree && IsAnc(c.tree, x, n) && t == PartBumped(c.tree, n, x, tier, -1)
      invariant Indexed(c.tree, m, tier) && m.free == Mgr(c, tier).free
      decreases c.tree[x].depth
    {
      PartBumpedStep(c.tree, n, x, tier, -1);
      NoSelfParent(c.tree, x);
      PartBumpedFacts(c.tree, n, c.tree[x].parent, tier, -1);
      t := t[x := WithRes(t[x], tier, AddRefs(Res(t[x], tier), -1))];
      if RefsOf(Res(t[x], tier)) == 0 && x in m.nodeTime {
        RefreshIndex(c.tree, t, m, tier, x);
        m := UpdateLeaf(t, m, tier, x);
      }
      x := t[x].parent;
    }
    PartBumpedEnd(c.tree, n, tier, -1);
    UnlockInv(WithMgr(c, tier, m), live, tier, h);
    c' := WithMgr(c.(tree := t), tier, m);
  }
}
