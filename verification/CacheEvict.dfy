/** Evicting unlocked leaves and pruning the nodes this empties. */
module CacheEvict {
  import opened Prelude
  import opened PageTree
  import opened TreeEdits
  import opened TierState
  import opened TierEdits
  import opened TreeWalk
  import opened TreeFrames
  import opened CacheState

  // ---------------------------------------------------------------- what can be evicted

  predicate Evictable(t: Tree, n: NodeId, tier: Tier) {
    On(t, n, tier) && Res(t[n], tier).value.refs == 0
  }

  ghost function EvictableMap(t: Tree, tier: Tier): map<NodeId, seq<nat>> {
    map n | n in t && Evictable(t, n, tier) :: Res(t[n], tier).value.pages
  }

  /** Pages held by nodes of the tier that no reference locks. */
  ghost function EvictablePages(t: Tree, tier: Tier): nat {
    |Gather(EvictableMap(t, tier))|
  }

  ghost function Deeper(t: Tree, n: NodeId): set<NodeId>
    requires n in t
  {
    set x | x in t && t[x].depth > t[n].depth
  }

  /** Below every node of a tier there is a leaf of the tier. */
  lemma {:induction false} LeafBelow(t: Tree, n: NodeId, tier: Tier) returns (l: NodeId)
    requires WF(t) && On(t, n, tier)
    ensures l in t && IsLeaf(t, l, tier) && IsAnc(t, n, l)
    decreases Deeper(t, n)
  {
    assert ResOk(t[n]) && n != ROOT && UpOk(t, n);
    if !HasChildWithPages(t, n, tier) {
      l := n;
    } else {
      var k :| k in t[n].children && HoldsPages(t, t[n].children[k], tier);
      assert DownOk(t, n, k);
      var c := t[n].children[k];
      assert UpOk(t, c);
      assert c in Deeper(t, n) && c !in Deeper(t, c);
      l := LeafBelow(t, c, tier);
      assert IsAnc(t, n, n) && IsAnc(t, n, c);
      IsAncTrans(t, n, c, l);
    }
  }

  /** If every leaf of a tier is locked, no page of the tier can be evicted. */
  lemma AllLeavesLocked(t: Tree, tier: Tier, refs: Refs)
    requires Closed(t, tier) && RefsExact(t, tier, refs)
    requires forall n :: IsLeaf(t, n, tier) ==> Locked(t, n, tier)
    ensures EvictablePages(t, tier) == 0
  {
    forall n | On(t, n, tier) ensures Locked(t, n, tier) {
      var l := LeafBelow(t, n, tier);
      RefsMonotone(t, tier, refs, n, l);
    }
    assert EvictableMap(t, tier) == map[];
  }

  lemma DetachEvictable(t: Tree, n: NodeId, tier: Tier, mark: bool)
    requires n in t && Evictable(t, n, tier)
    ensures EvictablePages(DetachRes(t, n, tier, mark), tier) + |Res(t[n], tier).value.pages| == EvictablePages(t, tier)
  {
    var m := EvictableMap(t, tier);
    assert EvictableMap(DetachRes(t, n, tier, mark), tier) == m - {n};
    GatherPick(m, n);
  }

  // ---------------------------------------------------------------- the oldest leaf

  predicate KeyLe(a: (int, NodeId), b: (int, NodeId)) {
    a.0 < b.0 || (a.0 == b.0 && a.1 <= b.1)
  }

  /** The least key of the index: oldest access first, sequence id as tiebreaker. */
  method Oldest(lru: set<(int, NodeId)>) returns (k: (int, NodeId))
    requires lru != {}
    ensures k in lru && forall x :: x in lru ==> KeyLe(k, x)
  {
    k :| k in lru;
    var rest := lru - {k};
    while rest != {}
      invariant k in lru && rest <= lru
      invariant forall x :: x in lru && x !in rest ==> KeyLe(k, x)
      decreases rest
    {
      var y :| y in rest;
      if KeyLe(y, k) { k := y; }
      rest := rest - {y};
    }
  }

  // ---------------------------------------------------------------- the eviction loop

  /** Exactly the nodes in `gone` have lost their pages on the tier, and none of them was locked. */
  ghost predicate Evicted(t0: Tree, t: Tree, tier: Tier, gone: set<NodeId>) {
    && SameShape(t0, t)
    && gone <= t0.Keys
    && (forall n :: n in gone ==> On(t0, n, tier) && !Locked(t0, n, tier) && !On(t, n, tier))
    && (forall n :: n in t0 && n !in gone ==> t[n] == t0[n])
    && (forall n, o :: n in t0 && o != tier ==> Res(t[n], o) == Res(t0[n], o))
    && (forall n :: n in t0 && t[n].snapshot ==> t0[n].snapshot)
  }

  /** What holds between rounds of the eviction loop. `held` are locked leaves set aside. */
  ghost predicate EvictInv(t0: Tree, t: Tree, free0: seq<nat>, m: Manager, tier: Tier, refs: Refs,
                           gone: seq<NodeId>, held: set<NodeId>)
  {
    && WF(t0) && WF(t) && Closed(t, tier) && RefsExact(t, tier, refs)
    && IndexedExcept(t, m, tier, held)
    && (forall n :: n in held ==> n !in m.nodeTime && IsLeaf(t, n, tier) && Locked(t, n, tier))
    && Evicted(t0, t, tier, Elems(gone))
    && Distinct(gone)
    && multiset(m.free) + Bag(t, tier) == multiset(free0) + Bag(t0, tier)
    && |m.free| + EvictablePages(t, tier) == |free0| + EvictablePages(t0, tier)
  }

  lemma EvictStart(t: Tree, m: Manager, tier: Tier, refs: Refs)
    requires WF(t) && TierInv(t, m, tier, refs)
    ensures EvictInv(t, t, m.free, m, tier, refs, [], {})
  {
  }

  function PopLeaf(m: Manager, k: (int, NodeId)): Manager {
    m.(lru := m.lru - {k}, nodeTime := m.nodeTime - {k.1})
  }

  lemma PopIndexed(t: Tree, m: Manager, tier: Tier, skip: set<NodeId>, k: (int, NodeId))
    requires IndexedExcept(t, m, tier, skip) && k in m.lru
    ensures IndexedExcept(t, PopLeaf(m, k), tier, skip + {k.1})
    ensures k.1 in m.nodeTime && k.1 != ROOT && (k.1 !in skip ==> IsLeaf(t, k.1, tier))
  {
  }

  /** A locked leaf is set aside. */
  lemma DeferRound(t0: Tree, t: Tree, free0: seq<nat>, m: Manager, tier: Tier, refs: Refs,
                   gone: seq<NodeId>, held: set<NodeId>, k: (int, NodeId))
    requires EvictInv(t0, t, free0, m, tier, refs, gone, held) && k in m.lru && Locked(t, k.1, tier)
    ensures EvictInv(t0, t, free0, PopLeaf(m, k), tier, refs, gone, held + {k.1})
    ensures k.1 !in held
  {
    PopIndexed(t, m, tier, held, k);
  }

  /** The manager after a leaf was detached: its pages are free, and its parent may have become a leaf. */
  function AfterDetach(t: Tree, t': Tree, m: Manager, tier: Tier, k: (int, NodeId)): Manager
    requires k.1 in t
  {
    var m1 := PopLeaf(m, k);
    UpdateLeaf(t', m1.(free := m1.free + PagesOn(t[k.1], tier)), tier, t[k.1].parent)
  }

  lemma EvictIndex(t: Tree, m: Manager, tier: Tier, mark: bool, held: set<NodeId>, k: (int, NodeId))
    requires WF(t) && IndexedExcept(t, m, tier, held) && k in m.lru && k.1 !in held
    requires forall n :: n in held ==> n !in m.nodeTime && IsLeaf(t, n, tier)
    ensures k.1 in t && IsLeaf(t, k.1, tier)
    ensures var t' := DetachRes(t, k.1, tier, mark);
            var m' := AfterDetach(t, t', m, tier, k);
            && IndexedExcept(t', m', tier, held) && m'.free == m.free + PagesOn(t[k.1], tier)
            && (forall n :: n in held ==> n !in m'.nodeTime && IsLeaf(t', n, tier))
  {
    PopIndexed(t, m, tier, held, k);
    var n := k.1;
    var m1 := PopLeaf(m, k).(free := m.free + PagesOn(t[n], tier));
    DetachLeafIndex(t, n, m1, tier, mark, held);
    var t' := DetachRes(t, n, tier, mark);
    DetachWF(t, n, tier, mark);
    forall x | x in held ensures x !in UpdateLeaf(t', m1, tier, t[n].parent).nodeTime && IsLeaf(t', x, tier) {
      LeafChangeIsLocal(t, t', n, tier, x);
    }
  }

  lemma EvictBag(t0: Tree, t: Tree, free0: seq<nat>, free: seq<nat>, n: NodeId, tier: Tier, mark: bool)
    requires n in t && Evictable(t, n, tier)
    requires multiset(free) + Bag(t, tier) == multiset(free0) + Bag(t0, tier)
    requires |free| + EvictablePages(t, tier) == |free0| + EvictablePages(t0, tier)
    ensures var free', t' := free + PagesOn(t[n], tier), DetachRes(t, n, tier, mark);
            && multiset(free') + Bag(t', tier) == multiset(free0) + Bag(t0, tier)
            && |free'| + EvictablePages(t', tier) == |free0| + EvictablePages(t0, tier)
  {
    DetachBag(t, n, tier, mark);
    DetachEvictable(t, n, tier, mark);
    assert multiset(free + PagesOn(t[n], tier)) == multiset(free) + multiset(PagesOn(t[n], tier));
  }

  lemma EvictedMore(t0: Tree, t: Tree, tier: Tier, mark: bool, gone: set<NodeId>, n: NodeId)
    requires WF(t) && Evicted(t0, t, tier, gone) && n in t && n != ROOT && Evictable(t, n, tier) && (mark ==> t[n].snapshot)
    ensures n !in gone && Evicted(t0, DetachRes(t, n, tier, mark), tier, gone + {n})
  {
    DetachWF(t, n, tier, mark);
    var t' := DetachRes(t, n, tier, mark);
    forall x, o | x in t0 && o != tier ensures Res(t'[x], o) == Res(t0[x], o) {
      assert Res(t'[x], o) == Res(t[x], o);
    }
  }

  lemma GoneMore(gone: seq<NodeId>, n: NodeId)
    requires n !in gone && Distinct(gone)
    ensures Elems(gone + [n]) == Elems(gone) + {n}
    ensures Distinct(gone + [n])
  {
  }

  /** An unlocked leaf loses its pages. */
  lemma EvictRound(t0: Tree, t: Tree, free0: seq<nat>, m: Manager, tier: Tier, refs: Refs,
                   gone: seq<NodeId>, held: set<NodeId>, k: (int, NodeId), mark: bool, t': Tree, m': Manager)
    requires EvictInv(t0, t, free0, m, tier, refs, gone, held) && k in m.lru && k.1 in t && Evictable(t, k.1, tier)
    requires mark ==> t[k.1].snapshot
    requires t' == DetachRes(t, k.1, tier, mark) && m' == AfterDetach(t, t', m, tier, k)
    ensures EvictInv(t0, t', free0, m', tier, refs, gone + [k.1], held)
  {
    var n := k.1;
    assert n !in held;
    EvictIndex(t, m, tier, mark, held, k);
    DetachWF(t, n, tier, mark);
    DetachLeafKeeps(t, n, tier, mark, refs);
    EvictBag(t0, t, free0, m.free, n, tier, mark);
    EvictedMore(t0, t, tier, mark, Elems(gone), n);
    GoneMore(gone, n);
    forall x | x in held ensures Locked(t', x, tier) {}
  }

  // ---------------------------------------------------------------- after the loop

  function PutBack(t: Tree, m: Manager, n: NodeId): Manager
    requires n in t
  {
    m.(lru := m.lru + {(t[n].time, n)}, nodeTime := m.nodeTime[n := t[n].time])
  }

  lemma PutBackIndexed(t: Tree, m: Manager, tier: Tier, skip: set<NodeId>, n: NodeId)
    requires IndexedExcept(t, m, tier, skip) && n in t && IsLeaf(t, n, tier) && n !in m.nodeTime
    ensures IndexedExcept(t, PutBack(t, m, n), tier, skip - {n}) && PutBack(t, m, n).free == m.free
  {
  }

  /** When the loop stops short, nothing evictable is left. */
  lemma EvictExhausted(t0: Tree, t: Tree, free0: seq<nat>, m: Manager, tier: Tier, refs: Refs,
                       gone: seq<NodeId>, held: set<NodeId>)
    requires EvictInv(t0, t, free0, m, tier, refs, gone, held) && m.lru == {}
    ensures EvictablePages(t, tier) == 0
  {
    assert m.nodeTime.Keys == {};
    AllLeavesLocked(t, tier, refs);
  }

  /** Eviction touches nothing that is locked and nothing of the other tier. */
  lemma EvictedShrinks(t0: Tree, t: Tree, tier: Tier, refs: Refs, gone: set<NodeId>)
    requires WF(t) && Closed(t0, tier) && RefsExact(t0, tier, refs) && Evicted(t0, t, tier, gone)
    ensures Shrinks(t0, t, tier)
  {
    forall n, o | n in t0 && (n == ROOT || (o != tier && On(t0, n, o)) || Locked(t0, n, o)) ensures Kept(t0, t, n, o) {
      SameShapeFacts(t0, t, n, n);
      forall a | IsAnc(t0, a, n) ensures a in t && t[a].parent == t0[a].parent && PagesOn(t[a], o) == PagesOn(t0[a], o) {
        if o == tier && n != ROOT && a != ROOT {
          RefsMonotone(t0, tier, refs, a, n);
          assert a !in gone;
        }
      }
      SameChain(t0, t, n, o);
    }
  }

  ghost function OnTier(t: Tree, tier: Tier): set<NodeId> {
    set n | n in t && On(t, n, tier)
  }

  /** Either nothing was evicted, or the oldest leaf was, and its pages came free. */
  ghost predicate TookOldest(t0: Tree, m: Manager, tier: Tier, gone: seq<NodeId>, gone': seq<NodeId>, free': nat) {
    || (gone' == gone && free' == |m.free|)
    || (gone' != [] && gone' == gone + [Last(gone')] && Last(gone') in t0
        && (exists time :: (time, Last(gone')) in m.lru && forall x :: x in m.lru ==> KeyLe((time, Last(gone')), x))
        && free' == |m.free| + |PagesOn(t0[Last(gone')], tier)|)
  }

  function Last(s: seq<NodeId>): NodeId
    requires s != []
  {
    s[|s| - 1]
  }

  lemma TookLeaf(t0: Tree, t: Tree, t': Tree, m: Manager, tier: Tier, gone: seq<NodeId>, k: (int, NodeId))
    requires k in m.lru && (forall x :: x in m.lru ==> KeyLe(k, x))
    requires Evicted(t0, t, tier, Elems(gone)) && k.1 in t && On(t, k.1, tier)
    ensures TookOldest(t0, m, tier, gone, gone + [k.1], |AfterDetach(t, t', m, tier, k).free|)
  {
    var time, n := k.0, k.1;
    var gone' := gone + [n];
    assert n !in Elems(gone) && t[n] == t0[n];
    assert Last(gone') == n && gone' == gone + [Last(gone')];
    assert (time, Last(gone')) in m.lru && forall x :: x in m.lru ==> KeyLe((time, Last(gone')), x);
    assert |AfterDetach(t, t', m, tier, k).free| == |m.free| + |PagesOn(t0[n], tier)|;
  }

  /** Nothing was evicted once `target` pages were free: without its last node the eviction would have fallen short. */
  ghost predicate NoneInVain(t0: Tree, tier: Tier, gone: seq<NodeId>, free0: nat, free: nat, target: nat) {
    if gone == [] then free == free0
    else Last(gone) in t0 && free < target + |PagesOn(t0[Last(gone)], tier)|
  }

  /** One round: take the oldest leaf; set it aside if it is locked, else free its pages. */
  method EvictOne(ghost t0: Tree, ghost free0: seq<nat>, t: Tree, m: Manager, tier: Tier, ghost refs: Refs,
                  gone: seq<NodeId>, held: seq<NodeId>)
    returns (t': Tree, m': Manager, gone': seq<NodeId>, held': seq<NodeId>)
    requires EvictInv(t0, t, free0, m, tier, refs, gone, Elems(held)) && Distinct(held) && m.lru != {}
    ensures EvictInv(t0, t', free0, m', tier, refs, gone', Elems(held')) && Distinct(held')
    ensures OnTier(t', tier) < OnTier(t, tier) || (OnTier(t', tier) == OnTier(t, tier) && m'.lru < m.lru)
    ensures TookOldest(t0, m, tier, gone, gone', |m'.free|)
  {
    var key := Oldest(m.lru);
    PopIndexed(t, m, tier, Elems(held), key);
    if !Evictable(t, key.1, tier) {
      DeferRound(t0, t, free0, m, tier, refs, gone, Elems(held), key);
      GoneMore(held, key.1);
      t', m', gone', held' := t, PopLeaf(m, key), gone, held + [key.1];
      assert key in m.lru && key !in m'.lru;
    } else {
      var mark := tier == Host && t[key.1].snapshot;
      t' := DetachRes(t, key.1, tier, mark);
      m' := AfterDetach(t, t', m, tier, key);
      EvictRound(t0, t, free0, m, tier, refs, gone, Elems(held), key, mark, t', m');
      gone', held' := gone + [key.1], held;
      TookLeaf(t0, t, t', m, tier, gone, key);
      DetachOnTier(t, key.1, tier, mark);
    }
  }

  lemma DetachOnTier(t: Tree, n: NodeId, tier: Tier, mark: bool)
    requires n in t && On(t, n, tier)
    ensures OnTier(DetachRes(t, n, tier, mark), tier) < OnTier(t, tier)
  {
    var t' := DetachRes(t, n, tier, mark);
    assert n in OnTier(t, tier) && n !in OnTier(t', tier);
  }

  /** Rounds until num pages came free or no candidate is left; then the set-aside leaves go back. */
  method EvictLoop(t0: Tree, m0: Manager, tier: Tier, num: nat, ghost refs: Refs)
    returns (t: Tree, m: Manager, gone: seq<NodeId>)
    requires WF(t0) && TierInv(t0, m0, tier, refs)
    ensures EvictInv(t0, t, m0.free, m, tier, refs, gone, {})
    ensures |m.free| >= |m0.free| + num || EvictablePages(t, tier) == 0
    ensures NoneInVain(t0, tier, gone, |m0.free|, |m.free|, |m0.free| + num)
  {
    var held;
    t, m, gone, held := t0, m0, [], [];
    EvictStart(t0, m0, tier, refs);
    while |m.free| < |m0.free| + num && m.lru != {}
      invariant EvictInv(t0, t, m0.free, m, tier, refs, gone, Elems(held)) && Distinct(held)
      invariant NoneInVain(t0, tier, gone, |m0.free|, |m.free|, |m0.free| + num)
      decreases OnTier(t, tier), m.lru
    {
      t, m, gone, held := EvictOne(t0, m0.free, t, m, tier, refs, gone, held);
    }
    if m.lru == {} { EvictExhausted(t0, t, m0.free, m, tier, refs, gone, Elems(held)); }
    m := Restore(t, m, tier, held);
  }

  /** Locked leaves set aside during eviction become candidates again. */
  method Restore(t: Tree, m0: Manager, tier: Tier, held: seq<NodeId>) returns (m: Manager)
    requires WF(t) && IndexedExcept(t, m0, tier, Elems(held)) && Distinct(held)
    requires forall n :: n in Elems(held) ==> n !in m0.nodeTime && IsLeaf(t, n, tier)
    ensures Indexed(t, m, tier) && m.free == m0.free
  {
    m := m0;
    var i := 0;
    while i < |held|
      invariant 0 <= i <= |held| && m.free == m0.free
      invariant IndexedExcept(t, m, tier, Elems(held[i..]))
      invariant forall n :: n in Elems(held[i..]) ==> n !in m.nodeTime && IsLeaf(t, n, tier)
    {
      assert held[i] in Elems(held[i..]);
      PutBackIndexed(t, m, tier, Elems(held[i..]), held[i]);
      assert held[i..] == [held[i]] + held[i + 1..];
      assert held[i] !in held[i + 1..];
      assert Elems(held[i..]) - {held[i]} == Elems(held[i + 1..]);
      m := PutBack(t, m, held[i]);
      i := i + 1;
    }
    assert held[i..] == [] && Elems(held[i..]) == {};
  }

  /** The cache invariant after the loop, with the tier's manager replaced. */
  lemma EvictDone(c: Cache, live: Live, tier: Tier, t: Tree, m: Manager, gone: set<NodeId>)
    requires CacheInv(c, live) && WF(t) && Evicted(c.tree, t, tier, gone)
    requires Closed(t, tier) && Indexed(t, m, tier) && RefsExact(t, tier, RefsOn(live, tier))
    ensures CacheInv(WithMgr(c.(tree := t), tier, m), live)
    ensures Bag(t, Other(tier)) == Bag(c.tree, Other(tier))
  {
    SameTierInv(c.tree, t, Mgr(c, Other(tier)), Other(tier), RefsOn(live, Other(tier)));
  }
}
