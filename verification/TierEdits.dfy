/** Attaching, detaching and locking pages of one tier, and what that keeps on both tiers. */
module TierEdits {
  import opened Prelude
  import opened PageTree
  import opened TreeEdits
  import opened TierState

  function SetRes(t: Tree, n: NodeId, tier: Tier, r: Option<Resource>): Tree
    requires n in t
  {
    t[n := WithRes(t[n], tier, r)]
  }

  /** Same resources on the tier, node by node. */
  ghost predicate SameTier(t: Tree, t': Tree, tier: Tier) {
    SameShape(t, t') && forall n :: n in t ==> Res(t'[n], tier) == Res(t[n], tier)
  }

  /** An edit that leaves a tier's resources alone leaves its invariant alone. */
  lemma SameTierInv(t: Tree, t': Tree, m: Manager, tier: Tier, refs: Refs)
    requires WF(t') && SameTier(t, t', tier) && TierInv(t, m, tier, refs)
    ensures TierInv(t', m, tier, refs)
    ensures Bag(t', tier) == Bag(t, tier)
  {
    forall n | n in t' ensures ClosedAt(t', n, tier) { assert ClosedAt(t, n, tier); }
    forall n ensures n in m.nodeTime <==> IsLeaf(t', n, tier) { SameLeaves(t, t', tier, n); }
    SameShapeRefs(t, t', tier, refs);
    assert TierPages(t', tier) == TierPages(t, tier);
  }

  lemma SameShapeHolders(t: Tree, t': Tree, refs: Refs, n: NodeId)
    requires WF(t) && WF(t') && SameShape(t, t') && RefsIn(t, refs)
    ensures RefsIn(t', refs) && Holders(t', refs, n) == Holders(t, refs, n)
  {
    forall h | h in refs ensures IsAnc(t', n, refs[h]) <==> IsAnc(t, n, refs[h]) {
      SameShapeFacts(t, t', refs[h], n);
    }
  }

  lemma SameShapeRefs(t: Tree, t': Tree, tier: Tier, refs: Refs)
    requires WF(t') && SameTier(t, t', tier) && RefsExact(t, tier, refs)
    ensures RefsExact(t', tier, refs)
  {
    forall n | n in t' ensures RefsAt(t', tier, refs, n) {
      assert RefsAt(t, tier, refs, n);
      SameShapeHolders(t, t', refs, n);
    }
  }

  lemma SetResWF(t: Tree, n: NodeId, tier: Tier, r: Option<Resource>)
    requires WF(t) && n in t && n != ROOT && (r.Some? ==> |r.value.pages| == |t[n].run|)
    ensures WF(SetRes(t, n, tier, r)) && SameShape(t, SetRes(t, n, tier, r))
    ensures forall o :: o != tier ==> SameTier(t, SetRes(t, n, tier, r), o)
  {
    var t' := SetRes(t, n, tier, r);
    forall x | x in t' ensures ResOk(t'[x]) { assert ResOk(t[x]); }
    SameShapeWF(t, t');
  }

  lemma BagUpdate(t: Tree, t': Tree, n: NodeId, tier: Tier)
    requires n in t && t'.Keys == t.Keys
    requires forall x :: x in t && x != n ==> PagesOn(t'[x], tier) == PagesOn(t[x], tier)
    ensures Bag(t', tier) + multiset(PagesOn(t[n], tier)) == Bag(t, tier) + multiset(PagesOn(t'[n], tier))
  {
    assert TierPages(t', tier) == TierPages(t, tier)[n := PagesOn(t'[n], tier)];
    GatherUpdate(TierPages(t, tier), n, PagesOn(t'[n], tier));
  }

  lemma SetResBag(t: Tree, n: NodeId, tier: Tier, r: Option<Resource>)
    requires n in t
    ensures Bag(SetRes(t, n, tier, r), tier) + multiset(PagesOn(t[n], tier))
         == Bag(t, tier) + multiset(if r.Some? then r.value.pages else [])
  {
    BagUpdate(t, SetRes(t, n, tier, r), n, tier);
  }

  /** Nothing is held at or below a node that is off the tier. */
  lemma NoHoldersOffTier(t: Tree, tier: Tier, refs: Refs, n: NodeId)
    requires Closed(t, tier) && RefsExact(t, tier, refs) && n in t && n != ROOT && !On(t, n, tier)
    ensures Holders(t, refs, n) == {}
  {
    forall h | h in refs ensures !IsAnc(t, n, refs[h]) {
      assert IsAnc(t, n, ROOT) ==> n == ROOT;
      if IsAnc(t, n, refs[h]) { AncestorsOn(t, refs[h], n, tier); }
    }
  }

  lemma AttachRefs(t: Tree, n: NodeId, tier: Tier, pages: seq<nat>, refs: Refs)
    requires RefsExact(t, tier, refs) && n in t && n != ROOT && !On(t, n, tier) && |pages| == |t[n].run|
    requires Holders(t, refs, n) == {}
    ensures RefsExact(SetRes(t, n, tier, Some(Resource(pages, 0))), tier, refs)
  {
    SetResWF(t, n, tier, Some(Resource(pages, 0)));
    var t' := SetRes(t, n, tier, Some(Resource(pages, 0)));
    forall x | x in t' ensures RefsAt(t', tier, refs, x) {
      assert RefsAt(t, tier, refs, x);
      SameShapeHolders(t, t', refs, x);
    }
  }

  /** Attaching pages and refreshing the node and its parent keeps the index exact. */
  lemma AttachIndex(t: Tree, n: NodeId, m: Manager, tier: Tier, pages: seq<nat>)
    requires WF(t) && Indexed(t, m, tier) && n in t && n != ROOT && !On(t, n, tier) && |pages| == |t[n].run|
    ensures var t' := SetRes(t, n, tier, Some(Resource(pages, 0)));
            Indexed(t', UpdateLeaves(t', m, tier, n), tier) && UpdateLeaves(t', m, tier, n).free == m.free
  {
    SetResWF(t, n, tier, Some(Resource(pages, 0)));
    var t' := SetRes(t, n, tier, Some(Resource(pages, 0)));
    var skip := {n, t[n].parent};
    forall x | x !in skip ensures x in m.nodeTime <==> IsLeaf(t', x, tier) {
      LeafChangeIsLocal(t, t', n, tier, x);
    }
    UpdateLeavesRepairs(t', m, tier, n, skip);
    assert skip - {n, t'[n].parent} == {};
  }

  // ---------------------------------------------------------------- detaching an unlocked leaf

  /** The node loses its pages on the tier; `mark` says whether its snapshot stays. */
  function DetachRes(t: Tree, n: NodeId, tier: Tier, mark: bool): Tree
    requires n in t
  {
    t[n := WithRes(t[n], tier, None).(snapshot := mark)]
  }

  lemma DetachWF(t: Tree, n: NodeId, tier: Tier, mark: bool)
    requires WF(t) && n in t && n != ROOT
    ensures WF(DetachRes(t, n, tier, mark)) && SameShape(t, DetachRes(t, n, tier, mark))
    ensures forall o :: o != tier ==> SameTier(t, DetachRes(t, n, tier, mark), o)
    ensures forall x :: x in t && x != n ==> DetachRes(t, n, tier, mark)[x] == t[x]
    ensures !On(DetachRes(t, n, tier, mark), n, tier)
  {
    var t' := DetachRes(t, n, tier, mark);
    forall x | x in t' ensures ResOk(t'[x]) { assert ResOk(t[x]); }
    SameShapeWF(t, t');
  }

  lemma DetachBag(t: Tree, n: NodeId, tier: Tier, mark: bool)
    requires n in t
    ensures Bag(DetachRes(t, n, tier, mark), tier) + multiset(PagesOn(t[n], tier)) == Bag(t, tier)
  {
    var t' := DetachRes(t, n, tier, mark);
    BagUpdate(t, t', n, tier);
    assert PagesOn(t'[n], tier) == [];
    AddNothing(Bag(t, tier));
  }

  lemma AddNothing(b: multiset<nat>)
    ensures b + multiset([]) == b
  {
  }

  lemma LeafChildrenOff(t: Tree, n: NodeId, tier: Tier, x: NodeId)
    requires WF(t) && IsLeaf(t, n, tier) && x in t && x != ROOT && t[x].parent == n
    ensures !On(t, x, tier)
  {
    assert UpOk(t, x) && ResOk(t[x]);
    assert On(t, x, tier) ==> HoldsPages(t, x, tier);
    assert t[n].children[t[x].run[0]] == x;
  }

  lemma DetachLeafKeeps(t: Tree, n: NodeId, tier: Tier, mark: bool, refs: Refs)
    requires Closed(t, tier) && RefsExact(t, tier, refs) && IsLeaf(t, n, tier) && !Locked(t, n, tier)
    ensures Closed(DetachRes(t, n, tier, mark), tier) && RefsExact(DetachRes(t, n, tier, mark), tier, refs)
  {
    DetachWF(t, n, tier, mark);
    var t' := DetachRes(t, n, tier, mark);
    forall x | x in t' ensures ClosedAt(t', x, tier) {
      assert ClosedAt(t, x, tier);
      if x != ROOT && t[x].parent == n { LeafChildrenOff(t, n, tier, x); }
    }
    assert RefsAt(t, tier, refs, n);
    forall h | h in refs ensures refs[h] == ROOT || On(t', refs[h], tier) {
      assert Holders(t, refs, n) == {};
      assert h !in Holders(t, refs, n);
      assert IsAnc(t, n, n);
    }
    forall x | x in t' ensures RefsAt(t', tier, refs, x) {
      assert RefsAt(t, tier, refs, x);
      SameShapeHolders(t, t', refs, x);
    }
  }

  /** Detaching a leaf can only make its parent a leaf. */
  lemma DetachLeafIndex(t: Tree, n: NodeId, m: Manager, tier: Tier, mark: bool, skip: set<NodeId>)
    requires WF(t) && IndexedExcept(t, m, tier, skip + {n}) && IsLeaf(t, n, tier) && n !in m.nodeTime && n !in skip
    ensures var t' := DetachRes(t, n, tier, mark);
            var m' := UpdateLeaf(t', m, tier, t[n].parent);
            IndexedExcept(t', m', tier, skip) && m'.free == m.free
    ensures t[n].parent !in skip || t[n].parent == ROOT || !IsLeaf(t, t[n].parent, tier)
  {
    DetachWF(t, n, tier, mark);
    NoSelfParent(t, n);
    var t' := DetachRes(t, n, tier, mark);
    var p := t[n].parent;
    forall x | x !in skip + {n, p} ensures x in m.nodeTime <==> IsLeaf(t', x, tier) {
      LeafChangeIsLocal(t, t', n, tier, x);
    }
    assert UpOk(t, n);
    assert HoldsPages(t, t[p].children[t[n].run[0]], tier);
    assert IndexedExcept(t', m, tier, skip + {p}) by {
      assert n !in m.nodeTime && !IsLeaf(t', n, tier);
    }
    UpdateLeafRepairs(t', m, tier, p, skip + {p});
    assert IndexedExcept(t', UpdateLeaf(t', m, tier, p), tier, skip) by {
      assert skip + {p} - {p} <= skip;
    }
  }

  // ---------------------------------------------------------------- locks

  function AddRefs(r: Option<Resource>, delta: int): Option<Resource> {
    if r.Some? && r.value.refs + delta >= 0 then Some(r.value.(refs := r.value.refs + delta)) else r
  }

  /** Every node on the root path of x has its lock count moved by delta. */
  ghost function Bumped(t: Tree, x: NodeId, tier: Tier, delta: int): Tree
    requires WF(t) && x in t
  {
    map n | n in t :: if n != ROOT && IsAnc(t, n, x) then WithRes(t[n], tier, AddRefs(Res(t[n], tier), delta)) else t[n]
  }

  lemma BumpedWF(t: Tree, x: NodeId, tier: Tier, delta: int)
    requires WF(t) && x in t
    ensures WF(Bumped(t, x, tier, delta)) && SameShape(t, Bumped(t, x, tier, delta))
    ensures forall o :: o != tier ==> SameTier(t, Bumped(t, x, tier, delta), o)
    ensures forall n, o :: n in t ==> PagesOn(Bumped(t, x, tier, delta)[n], o) == PagesOn(t[n], o)
  {
    var t' := Bumped(t, x, tier, delta);
    assert SameShape(t, t');
    forall n | n in t' ensures ResOk(t'[n]) { assert ResOk(t[n]); }
    SameShapeWF(t, t');
  }

  lemma HoldersAdd(t: Tree, refs: Refs, h: Handle, x: NodeId, n: NodeId)
    requires WF(t) && RefsIn(t, refs) && h !in refs && x in t
    ensures RefsIn(t, refs[h := x])
    ensures |Holders(t, refs[h := x], n)| == |Holders(t, refs, n)| + (if IsAnc(t, n, x) then 1 else 0)
  {
    var extra := if IsAnc(t, n, x) then {h} else {};
    assert Holders(t, refs[h := x], n) == Holders(t, refs, n) + extra;
  }

  lemma HoldersDrop(t: Tree, refs: Refs, h: Handle, n: NodeId)
    requires WF(t) && RefsIn(t, refs) && h in refs
    ensures RefsIn(t, refs - {h})
    ensures |Holders(t, refs - {h}, n)| == |Holders(t, refs, n)| - (if IsAnc(t, n, refs[h]) then 1 else 0)
  {
    var gone := if IsAnc(t, n, refs[h]) then {h} else {};
    assert Holders(t, refs - {h}, n) == Holders(t, refs, n) - gone;
  }

  /** Locking the root path of x for a new handle keeps counts exact. */
  lemma LockRefs(t: Tree, x: NodeId, tier: Tier, refs: Refs, h: Handle)
    requires RefsExact(t, tier, refs) && x in t && (x == ROOT || On(t, x, tier)) && h !in refs
    ensures RefsExact(Bumped(t, x, tier, 1), tier, refs[h := x])
  {
    BumpedWF(t, x, tier, 1);
    var t', refs' := Bumped(t, x, tier, 1), refs[h := x];
    forall n | n in t' ensures RefsAt(t', tier, refs', n) {
      assert RefsAt(t, tier, refs, n);
      HoldersAdd(t, refs, h, x, n);
      SameShapeHolders(t, t', refs', n);
    }
  }

  /** Dropping a handle unlocks exactly the path it had locked, and no count is already zero there. */
  lemma UnlockRefs(t: Tree, tier: Tier, refs: Refs, h: Handle)
    requires RefsExact(t, tier, refs) && Closed(t, tier) && h in refs
    ensures RefsExact(Bumped(t, refs[h], tier, -1), tier, refs - {h})
  {
    var x := refs[h];
    BumpedWF(t, x, tier, -1);
    var t', refs' := Bumped(t, x, tier, -1), refs - {h};
    forall n | n in t' ensures RefsAt(t', tier, refs', n) {
      assert RefsAt(t, tier, refs, n);
      HoldersDrop(t, refs, h, n);
      SameShapeHolders(t, t', refs', n);
    }
  }

  /** Moving a reference from one handle to another changes no count. */
  lemma RenameRefs(t: Tree, tier: Tier, refs: Refs, h: Handle, h': Handle)
    requires RefsExact(t, tier, refs) && h in refs && h' !in refs
    ensures RefsExact(t, tier, (refs - {h})[h' := refs[h]])
  {
    var refs' := (refs - {h})[h' := refs[h]];
    forall n | n in t ensures RefsAt(t, tier, refs', n) {
      assert RefsAt(t, tier, refs, n);
      HoldersDrop(t, refs, h, n);
      HoldersAdd(t, refs - {h}, h', refs[h], n);
    }
  }

  lemma BumpedTier(t: Tree, x: NodeId, tier: Tier, delta: int, m: Manager)
    requires WF(t) && x in t && Closed(t, tier) && Indexed(t, m, tier)
    ensures WF(Bumped(t, x, tier, delta))
    ensures Closed(Bumped(t, x, tier, delta), tier) && Indexed(Bumped(t, x, tier, delta), m, tier)
    ensures Bag(Bumped(t, x, tier, delta), tier) == Bag(t, tier)
  {
    BumpedWF(t, x, tier, delta);
    var t' := Bumped(t, x, tier, delta);
    forall n | n in t' ensures ClosedAt(t', n, tier) { assert ClosedAt(t, n, tier); }
    SameIndex(t, t', tier, m);
    assert TierPages(t', tier) == TierPages(t, tier);
  }

  /** With the same pages in the same places the index stays exact. */
  lemma SameIndex(t: Tree, t': Tree, tier: Tier, m: Manager)
    requires WF(t) && WF(t') && SameShape(t, t') && Indexed(t, m, tier)
    requires forall n :: n in t ==> PagesOn(t'[n], tier) == PagesOn(t[n], tier)
    ensures Indexed(t', m, tier)
  {
    forall n ensures n in m.nodeTime <==> IsLeaf(t', n, tier) { SameLeaves(t, t', tier, n); }
  }
}
