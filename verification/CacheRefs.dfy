/** What requests do to the cache between events: match, take and drop references, make room under a lock. */
module CacheRefs {
  import opened Prelude
  import opened PageTree
  import opened TreeEdits
  import opened TierState
  import opened TierEdits
  import opened TreeWalk
  import opened TreeFrames
  import opened BlockEvents
  import opened CacheState
  import opened CacheLocks
  import opened CachePrune
  import opened CacheWalk

  /** Every live reference of both tiers keeps its node, path and pages. */
  ghost predicate AllKept(t: Tree, t': Tree, live: Live) {
    && WF(t) && WF(t') && RefsIn(t, live.device) && RefsIn(t, live.host)
    && HeldKept(t, t', Device, live.device) && HeldKept(t, t', Host, live.host)
  }

  lemma KeptByExtends(c: Cache, live: Live, t': Tree)
    requires CacheInv(c, live) && WF(t') && Extends(c.tree, t')
    ensures AllKept(c.tree, t', live)
  {
    ExtendsHeld(c.tree, t', Device, live.device);
    ExtendsHeld(c.tree, t', Host, live.host);
  }

  lemma KeptByShrinks(c: Cache, live: Live, t': Tree, tier: Tier)
    requires CacheInv(c, live) && WF(t') && Shrinks(c.tree, t', tier)
    ensures AllKept(c.tree, t', live)
  {
    ShrinksHeld(c.tree, t', tier, Device, live.device);
    ShrinksHeld(c.tree, t', tier, Host, live.host);
  }

  // ---------------------------------------------------------------- matching

  lemma NeverBlocked(t: Tree, q: seq<Page>)
    requires WF(t) && NoSnapshots(t)
    ensures !Blocked(t, q)
  {
  }

  /** The deepest device-resident and host-resident nodes on the query's path; the root when reuse is switched off. */
  method Match(c: Cache, ghost live: Live, q: seq<Page>, now: int, bypass: bool) returns (c': Cache, d: NodeId, h: NodeId)
    requires CacheInv(c, live) && NoSnapshots(c.tree)
    ensures CacheInv(c', live) && c' == c.(tree := c'.tree, next := c'.next) && SameMeaning(c.tree, c'.tree) && Keeps(c, c')
    ensures TierMatch(c'.tree, q, Device, d) && TierMatch(c'.tree, q, Host, h)
    ensures bypass ==> d == ROOT && h == ROOT
    ensures !bypass ==> LongestResident(c'.tree, q, Device, c'.tree[d].depth) && LongestResident(c'.tree, q, Host, c'.tree[h].depth)
  {
    if bypass {
      c', d, h := c, ROOT, ROOT;
      EqualButTimeFacts(c.tree, c.tree);
    } else {
      var terminal, matched;
      c', terminal, matched, d, h := Walk(c, live, q, now);
      NeverBlocked(c.tree, q);
    }
    KeepsMeaning(c, c');
  }

  /** Both tiers' matches lie on one root path, the shallower above the deeper. */
  lemma MatchesNest(t: Tree, q: seq<Page>, a: NodeId, b: NodeId, ta: Tier, tb: Tier)
    requires WF(t) && TierMatch(t, q, ta, a) && TierMatch(t, q, tb, b) && t[a].depth <= t[b].depth
    ensures IsAnc(t, a, b)
  {
    assert q[..t[b].depth][..t[a].depth] == q[..t[a].depth];
    PathPrefixAnc(t, a, b);
  }

  // ---------------------------------------------------------------- references

  /** Same pages everywhere and every resident node kept; only lock counts and the leaf index may differ. */
  ghost predicate SamePages(c: Cache, c': Cache) {
    && WF(c.tree) && WF(c'.tree) && Extends(c.tree, c'.tree) && c'.next == c.next
    && c'.device.free == c.device.free && c'.host.free == c.host.free
    && Bag(c'.tree, Device) == Bag(c.tree, Device) && Bag(c'.tree, Host) == Bag(c.tree, Host)
    && (NoSnapshots(c.tree) ==> NoSnapshots(c'.tree)) && Keeps(c, c') && NoneGained(c.tree, c'.tree)
  }

  lemma SamePagesTrans(c: Cache, c1: Cache, c2: Cache)
    requires SamePages(c, c1) && SamePages(c1, c2)
    ensures SamePages(c, c2)
  {
    ExtendsTrans(c.tree, c1.tree, c2.tree);
    KeepsTrans(c, c1, c2);
  }

  /** Locks and unlocks tell a listener nothing. */
  lemma KeepsBumped(c: Cache, c': Cache, n: NodeId, tier: Tier, delta: int)
    requires WF(c.tree) && n in c.tree && c'.tree == Bumped(c.tree, n, tier, delta) && c'.log == c.log
    ensures WF(c'.tree) && Keeps(c, c') && NoneGained(c.tree, c'.tree)
  {
    BumpedWF(c.tree, n, tier, delta);
    SameShapeDevice(c.tree, c'.tree);
    KeepsQuietly(c, c');
  }

  method LockAs(c: Cache, ghost live: Live, tier: Tier, n: NodeId, ghost h: Handle) returns (c': Cache)
    requires CacheInv(c, live) && n in c.tree && (n == ROOT || On(c.tree, n, tier)) && h !in RefsOn(live, tier)
    ensures CacheInv(c', WithRefs(live, tier, RefsOn(live, tier)[h := n])) && SamePages(c, c')
  {
    c' := Lock(c, live, tier, n, h);
    KeepsBumped(c, c', n, tier, 1);
  }

  method UnlockAs(c: Cache, ghost live: Live, tier: Tier, n: NodeId, ghost h: Handle) returns (c': Cache)
    requires CacheInv(c, live) && h in RefsOn(live, tier) && RefsOn(live, tier)[h] == n
    ensures CacheInv(c', WithRefs(live, tier, RefsOn(live, tier) - {h})) && SamePages(c, c')
  {
    c' := Unlock(c, live, tier, n, h);
    KeepsBumped(c, c', n, tier, -1);
  }

  lemma RenameInv(c: Cache, live: Live, tier: Tier, h: Handle, h': Handle)
    requires CacheInv(c, live) && h in RefsOn(live, tier) && h' !in RefsOn(live, tier)
    ensures CacheInv(c, WithRefs(live, tier, (RefsOn(live, tier) - {h})[h' := RefsOn(live, tier)[h]]))
  {
    RenameRefs(c.tree, tier, RefsOn(live, tier), h, h');
  }

  lemma RenamedRefs(refs: Refs, id: string, n: NodeId)
    requires New(id) !in refs && Own(id) in refs
    ensures (refs[New(id) := n] - {Own(id)} - {New(id)})[Own(id) := n] == refs[Own(id) := n]
    ensures New(id) in refs[New(id) := n] - {Own(id)} && (refs[New(id) := n] - {Own(id)})[New(id)] == n
  {
  }

  lemma SwappedInv(c: Cache, live: Live, tier: Tier, id: string, n: NodeId)
    requires New(id) !in RefsOn(live, tier) && Own(id) in RefsOn(live, tier)
    requires CacheInv(c, WithRefs(live, tier, RefsOn(live, tier)[New(id) := n] - {Own(id)}))
    ensures CacheInv(c, WithRefs(live, tier, RefsOn(live, tier)[Own(id) := n]))
  {
    RenamedRefs(RefsOn(live, tier), id, n);
    RenameInv(c, WithRefs(live, tier, RefsOn(live, tier)[New(id) := n] - {Own(id)}), tier, New(id), Own(id));
  }

  lemma WithRefsTwice(live: Live, tier: Tier, a: Refs, b: Refs)
    ensures WithRefs(WithRefs(live, tier, a), tier, b) == WithRefs(live, tier, b)
    ensures RefsOn(WithRefs(live, tier, a), tier) == a
    ensures WithRefs(live, tier, RefsOn(live, tier)) == live
  {
  }

  /** A new reference replaces the one a request held on the tier: the new path is locked before the old is released. */
  method Hold(c: Cache, ghost live: Live, tier: Tier, ghost id: string, prior: Option<NodeId>, n: NodeId) returns (c': Cache)
    requires CacheInv(c, live) && n in c.tree && (n == ROOT || On(c.tree, n, tier)) && New(id) !in RefsOn(live, tier)
    requires if prior.Some? then Own(id) in RefsOn(live, tier) && RefsOn(live, tier)[Own(id)] == prior.value
             else Own(id) !in RefsOn(live, tier)
    ensures CacheInv(c', WithRefs(live, tier, RefsOn(live, tier)[Own(id) := n])) && SamePages(c, c')
  {
    if prior.None? {
      c' := LockAs(c, live, tier, n, Own(id));
    } else {
      ghost var refs1 := RefsOn(live, tier)[New(id) := n];
      WithRefsTwice(live, tier, refs1, refs1 - {Own(id)});
      var c1 := LockAs(c, live, tier, n, New(id));
      c' := UnlockAs(c1, WithRefs(live, tier, refs1), tier, prior.value, Own(id));
      SamePagesTrans(c, c1, c');
      SwappedInv(c', live, tier, id, n);
    }
  }

  /** Drop whatever reference a request holds on the tier. */
  method Release(c: Cache, ghost live: Live, tier: Tier, ghost id: string, prior: Option<NodeId>) returns (c': Cache)
    requires CacheInv(c, live)
    requires if prior.Some? then Own(id) in RefsOn(live, tier) && RefsOn(live, tier)[Own(id)] == prior.value
             else Own(id) !in RefsOn(live, tier)
    ensures CacheInv(c', WithRefs(live, tier, RefsOn(live, tier) - {Own(id)})) && SamePages(c, c')
  {
    if prior.None? {
      c' := c;
      assert RefsOn(live, tier) - {Own(id)} == RefsOn(live, tier);
      EqualButTimeFacts(c.tree, c.tree);
      ToldSame(c.log, c.tree, c.tree);
    } else {
      c' := UnlockAs(c, live, tier, prior.value, Own(id));
    }
  }

  // ---------------------------------------------------------------- making room under a lock

  /** Nodes resident on a tier keep their paths and pages. */
  ghost predicate TierKept(t: Tree, t': Tree, tier: Tier) {
    WF(t) && WF(t') && forall m {:trigger Kept(t, t', m, tier)} :: m in t && (m == ROOT || On(t, m, tier)) ==> Kept(t, t', m, tier)
  }

  /** The same pages in the cache on each tier. */
  ghost predicate SameTotals(c: Cache, c': Cache) {
    && PagesIn(c', Device) == PagesIn(c, Device) && PagesIn(c', Host) == PagesIn(c, Host)
    && (NoSnapshots(c.tree) ==> NoSnapshots(c'.tree)) && Keeps(c, c')
  }

  /** Evict, knowing that references keep their nodes. */
  method EvictFor(c: Cache, ghost live: Live, tier: Tier, required: int) returns (c': Cache, ok: bool)
    requires CacheInv(c, live)
    ensures CacheInv(c', live) && AllKept(c.tree, c'.tree, live) && Shrinks(c.tree, c'.tree, tier) && SameTotals(c, c')
    ensures ok <==> |Mgr(c', tier).free| >= required
    ensures NoneGained(c.tree, c'.tree) && (required <= |Mgr(c, tier).free| ==> c' == c)
  {
    c', ok := EnsureCapacityByEvict(c, live, tier, required);
    KeptByShrinks(c, live, c'.tree, tier);
  }

  /** Evict under a temporary lock on one node. Every reference, the locked node and the other tier keep their pages. */
  method MakeRoom(c: Cache, ghost live: Live, lockTier: Tier, n: NodeId, tier: Tier, required: int) returns (c': Cache, ok: bool)
    requires CacheInv(c, live) && n in c.tree && (n == ROOT || On(c.tree, n, lockTier)) && Temp !in RefsOn(live, lockTier)
    ensures CacheInv(c', live) && AllKept(c.tree, c'.tree, live) && Kept(c.tree, c'.tree, n, lockTier)
    ensures TierKept(c.tree, c'.tree, Other(tier)) && SameTotals(c, c')
    ensures ok <==> |Mgr(c', tier).free| >= required
    ensures NoneGained(c.tree, c'.tree) && (required <= |Mgr(c, tier).free| ==> |Mgr(c', tier).free| == |Mgr(c, tier).free|)
  {
    ghost var refs := RefsOn(live, lockTier);
    ghost var live1 := WithRefs(live, lockTier, refs[Temp := n]);
    WithRefsTwice(live, lockTier, refs[Temp := n], refs);
    assert refs[Temp := n] - {Temp} == refs;
    var c1 := LockAs(c, live, lockTier, n, Temp);
    var c2;
    c2, ok := EvictFor(c1, live1, tier, required);
    c' := UnlockAs(c2, live1, lockTier, n, Temp);
    KeepsTrans(c, c1, c2);
    KeepsTrans(c, c2, c');
    RoomKept(c, live, lockTier, n, tier, c1.tree, c2.tree, c'.tree);
  }

  lemma RoomKept(c: Cache, live: Live, lockTier: Tier, n: NodeId, tier: Tier, t1: Tree, t2: Tree, t3: Tree)
    requires CacheInv(c, live) && WF(t1) && WF(t2) && WF(t3)
    requires n in c.tree && (n == ROOT || On(c.tree, n, lockTier))
    requires Extends(c.tree, t1) && Shrinks(t1, t2, tier) && Extends(t2, t3)
    requires AllKept(t1, t2, WithRefs(live, lockTier, RefsOn(live, lockTier)[Temp := n])) && Temp !in RefsOn(live, lockTier)
    ensures AllKept(c.tree, t3, live) && Kept(c.tree, t3, n, lockTier)
    ensures TierKept(c.tree, t3, Other(tier))
  {
    var live1 := WithRefs(live, lockTier, RefsOn(live, lockTier)[Temp := n]);
    assert Kept(t1, t2, RefsOn(live1, lockTier)[Temp], lockTier);
    assert Kept(c.tree, t1, n, lockTier) && Kept(t2, t3, n, lockTier);
    forall o, h | h in RefsOn(live, o) ensures Kept(c.tree, t3, RefsOn(live, o)[h], o) {
      assert h in RefsOn(live1, o) && RefsOn(live1, o)[h] == RefsOn(live, o)[h];
      var m := RefsOn(live, o)[h];
      assert Kept(c.tree, t1, m, o) && Kept(t1, t2, m, o) && Kept(t2, t3, m, o);
    }
    assert forall h :: h in live.device ==> h in RefsOn(live, Device);
    assert forall h :: h in live.host ==> h in RefsOn(live, Host);
    forall m | m in c.tree && (m == ROOT || On(c.tree, m, Other(tier))) ensures Kept(c.tree, t3, m, Other(tier)) {
      assert Kept(c.tree, t1, m, Other(tier)) && Kept(t1, t2, m, Other(tier)) && Kept(t2, t3, m, Other(tier));
    }
  }
}
