/** What must hold of one tier of the tree: prefix closure, the index of evictable leaves, lock counts
    equal to the live references at or below each node, and the bag of physical pages held. */
module TierState {
  import opened Prelude
  import opened PageTree
  import opened TreeEdits

  // ---------------------------------------------------------------- prefix closure

  ghost predicate ClosedAt(t: Tree, n: NodeId, tier: Tier)
    requires n in t
  {
    On(t, n, tier) ==> n != ROOT && t[n].parent in t && (t[n].parent == ROOT || On(t, t[n].parent, tier))
  }

  /** A node on a tier has its parent on that tier (or hangs off the root). */
  ghost predicate Closed(t: Tree, tier: Tier) {
    forall n {:trigger ClosedAt(t, n, tier)} :: n in t ==> ClosedAt(t, n, tier)
  }

  lemma {:induction false} AncestorsOn(t: Tree, n: NodeId, a: NodeId, tier: Tier)
    requires WF(t) && Closed(t, tier) && On(t, n, tier) && IsAnc(t, a, n) && a != ROOT
    ensures On(t, a, tier)
    decreases t[n].depth
  {
    if a != n {
      assert UpOk(t, n) && ClosedAt(t, n, tier);
      AncestorsOn(t, t[n].parent, a, tier);
    }
  }

  /** On a closed tier the chain of a resident node has one page per page of its path. */
  lemma {:induction false} ChainLength(t: Tree, n: NodeId, tier: Tier)
    requires WF(t) && Closed(t, tier) && n in t && (n == ROOT || On(t, n, tier))
    ensures |Chain(t, n, tier)| == t[n].depth
    decreases t[n].depth
  {
    if n != ROOT {
      assert UpOk(t, n) && ClosedAt(t, n, tier) && ResOk(t[n]);
      ChainLength(t, t[n].parent, tier);
    }
  }

  // ---------------------------------------------------------------- the index of leaves

  /** A tier's allocator and its index of leaves: an ordered set of keys, and the key of each node. */
  datatype Manager = Manager(free: seq<nat>, lru: set<(int, NodeId)>, nodeTime: map<NodeId, int>)

  predicate HoldsPages(t: Tree, n: NodeId, tier: Tier) {
    On(t, n, tier) && Res(t[n], tier).value.pages != []
  }

  predicate HasChildWithPages(t: Tree, n: NodeId, tier: Tier)
    requires n in t
  {
    exists k :: k in t[n].children && HoldsPages(t, t[n].children[k], tier)
  }

  predicate IsLeaf(t: Tree, n: NodeId, tier: Tier) {
    n != ROOT && HoldsPages(t, n, tier) && !HasChildWithPages(t, n, tier)
  }

  ghost predicate KeysAgree(m: Manager) {
    && (forall k :: k in m.lru ==> k.1 in m.nodeTime && m.nodeTime[k.1] == k.0)
    && (forall n :: n in m.nodeTime ==> (m.nodeTime[n], n) in m.lru)
  }

  /** The index holds exactly the tier's leaves, except perhaps for nodes in `skip`. */
  ghost predicate IndexedExcept(t: Tree, m: Manager, tier: Tier, skip: set<NodeId>) {
    KeysAgree(m) && ROOT !in m.nodeTime && forall n :: n !in skip ==> (n in m.nodeTime <==> IsLeaf(t, n, tier))
  }

  ghost predicate Indexed(t: Tree, m: Manager, tier: Tier) {
    IndexedExcept(t, m, tier, {})
  }

  function RemoveLeaf(m: Manager, n: NodeId): Manager {
    if n in m.nodeTime
    then m.(lru := m.lru - {(m.nodeTime[n], n)}, nodeTime := m.nodeTime - {n})
    else m
  }

  function UpdateLeaf(t: Tree, m: Manager, tier: Tier, n: NodeId): Manager {
    if n == ROOT then m else
      var m1 := RemoveLeaf(m, n);
      if IsLeaf(t, n, tier)
      then m1.(lru := m1.lru + {(t[n].time, n)}, nodeTime := m1.nodeTime[n := t[n].time])
      else m1
  }

  function UpdateLeaves(t: Tree, m: Manager, tier: Tier, n: NodeId): Manager {
    var m1 := UpdateLeaf(t, m, tier, n);
    if n in t then UpdateLeaf(t, m1, tier, t[n].parent) else m1
  }

  /** Refreshing a node repairs its entry and disturbs no other. */
  lemma UpdateLeafRepairs(t: Tree, m: Manager, tier: Tier, n: NodeId, skip: set<NodeId>)
    requires IndexedExcept(t, m, tier, skip)
    requires WF(t)
    ensures IndexedExcept(t, UpdateLeaf(t, m, tier, n), tier, skip - {n})
    ensures UpdateLeaf(t, m, tier, n).free == m.free
  {
  }

  lemma UpdateLeavesRepairs(t: Tree, m: Manager, tier: Tier, n: NodeId, skip: set<NodeId>)
    requires WF(t) && n in t && IndexedExcept(t, m, tier, skip)
    ensures IndexedExcept(t, UpdateLeaves(t, m, tier, n), tier, skip - {n, t[n].parent})
    ensures UpdateLeaves(t, m, tier, n).free == m.free
  {
    UpdateLeafRepairs(t, m, tier, n, skip);
    var m1 := UpdateLeaf(t, m, tier, n);
    UpdateLeafRepairs(t, m1, tier, t[n].parent, skip - {n});
    assert skip - {n} - {t[n].parent} == skip - {n, t[n].parent};
  }

  /** Changing one node's pages on a tier can change leafhood only of the node and of its parent. */
  lemma LeafChangeIsLocal(t: Tree, t': Tree, n: NodeId, tier: Tier, m: NodeId)
    requires WF(t) && WF(t') && SameShape(t, t') && n in t && n != ROOT
    requires forall x :: x in t && x != n ==> PagesOn(t'[x], tier) == PagesOn(t[x], tier)
    requires m != n && m != t[n].parent
    ensures IsLeaf(t', m, tier) <==> IsLeaf(t, m, tier)
  {
    if m in t {
      assert HoldsPages(t, m, tier) <==> PagesOn(t[m], tier) != [];
      assert HoldsPages(t', m, tier) <==> PagesOn(t'[m], tier) != [];
      forall k | k in t[m].children ensures HoldsPages(t', t[m].children[k], tier) <==> HoldsPages(t, t[m].children[k], tier) {
        assert DownOk(t, m, k);
        var c := t[m].children[k];
        assert HoldsPages(t, c, tier) <==> PagesOn(t[c], tier) != [];
        assert HoldsPages(t', c, tier) <==> PagesOn(t'[c], tier) != [];
      }
    }
  }

  lemma SameLeaves(t: Tree, t': Tree, tier: Tier, m: NodeId)
    requires WF(t) && WF(t') && SameShape(t, t')
    requires forall x :: x in t ==> PagesOn(t'[x], tier) == PagesOn(t[x], tier)
    ensures IsLeaf(t', m, tier) <==> IsLeaf(t, m, tier)
  {
    if m in t {
      assert HoldsPages(t, m, tier) <==> PagesOn(t[m], tier) != [];
      assert HoldsPages(t', m, tier) <==> PagesOn(t'[m], tier) != [];
      forall k | k in t[m].children ensures HoldsPages(t', t[m].children[k], tier) <==> HoldsPages(t, t[m].children[k], tier) {
        assert DownOk(t, m, k);
        var c := t[m].children[k];
        assert HoldsPages(t, c, tier) <==> PagesOn(t[c], tier) != [];
        assert HoldsPages(t', c, tier) <==> PagesOn(t'[c], tier) != [];
      }
    }
  }

  // ---------------------------------------------------------------- live references

  /** A live reference is known by a handle: the request's own, one under construction, or a temporary. */
  datatype Handle = Own(id: string) | New(id: string) | Temp

  type Refs = map<Handle, NodeId>

  ghost function Holders(t: Tree, refs: Refs, n: NodeId): set<Handle>
    requires WF(t) && RefsIn(t, refs)
  {
    set h | h in refs && IsAnc(t, n, refs[h])
  }

  ghost predicate RefsIn(t: Tree, refs: Refs) {
    forall h :: h in refs ==> refs[h] in t
  }

  ghost predicate RefsAt(t: Tree, tier: Tier, refs: Refs, n: NodeId)
    requires WF(t) && RefsIn(t, refs) && n in t
  {
    On(t, n, tier) ==> Res(t[n], tier).value.refs == |Holders(t, refs, n)|
  }

  /** Every live reference is on the tier, and a node's count is the number of references at or below it. */
  ghost predicate RefsExact(t: Tree, tier: Tier, refs: Refs) {
    && WF(t)
    && RefsIn(t, refs)
    && (forall h :: h in refs ==> refs[h] == ROOT || On(t, refs[h], tier))
    && (forall n {:trigger RefsAt(t, tier, refs, n)} :: n in t ==> RefsAt(t, tier, refs, n))
  }

  ghost predicate Locked(t: Tree, n: NodeId, tier: Tier) {
    On(t, n, tier) && Res(t[n], tier).value.refs > 0
  }

  /** A node with a live reference at or below it is locked. */
  lemma HeldIsLocked(t: Tree, tier: Tier, refs: Refs, h: Handle, a: NodeId)
    requires RefsExact(t, tier, refs) && Closed(t, tier) && h in refs && IsAnc(t, a, refs[h]) && a != ROOT
    ensures Locked(t, a, tier)
  {
    assert IsAnc(t, a, ROOT) ==> a == ROOT;
    AncestorsOn(t, refs[h], a, tier);
    assert RefsAt(t, tier, refs, a);
    assert h in Holders(t, refs, a);
  }

  /** A locked node has a live reference at or below it. */
  lemma LockedIsHeld(t: Tree, tier: Tier, refs: Refs, n: NodeId) returns (h: Handle)
    requires RefsExact(t, tier, refs) && Locked(t, n, tier)
    ensures h in refs && IsAnc(t, n, refs[h])
  {
    assert RefsAt(t, tier, refs, n);
    var hs := Holders(t, refs, n);
    assert hs != {};
    h :| h in hs;
  }

  /** Lock counts never grow downwards. */
  lemma RefsMonotone(t: Tree, tier: Tier, refs: Refs, a: NodeId, n: NodeId)
    requires RefsExact(t, tier, refs) && Closed(t, tier) && On(t, n, tier) && IsAnc(t, a, n) && a != ROOT
    ensures On(t, a, tier) && Res(t[n], tier).value.refs <= Res(t[a], tier).value.refs
  {
    AncestorsOn(t, n, a, tier);
    assert RefsAt(t, tier, refs, a) && RefsAt(t, tier, refs, n);
    var hs, as_ := Holders(t, refs, n), Holders(t, refs, a);
    forall h | h in hs ensures h in as_ { IsAncTrans(t, a, n, refs[h]); }
    SubsetCardinality(hs, as_);
  }

  lemma {:induction false} SubsetCardinality<T>(a: set<T>, b: set<T>)
    requires a <= b
    ensures |a| <= |b|
    decreases a
  {
    if a != {} {
      var x :| x in a;
      SubsetCardinality(a - {x}, b - {x});
    }
  }

  // ---------------------------------------------------------------- physical pages

  ghost function TierPages(t: Tree, tier: Tier): map<NodeId, seq<nat>> {
    map n | n in t :: PagesOn(t[n], tier)
  }

  /** The physical pages the tree holds on a tier, with multiplicity. */
  ghost function Bag(t: Tree, tier: Tier): multiset<nat> {
    Gather(TierPages(t, tier))
  }

  /** The invariant of one tier. */
  ghost predicate TierInv(t: Tree, m: Manager, tier: Tier, refs: Refs) {
    Closed(t, tier) && Indexed(t, m, tier) && RefsExact(t, tier, refs)
  }

  // ---------------------------------------------------------------- split

  lemma SplitLeaf(t: Tree, c: NodeId, k: nat, nu: NodeId, tier: Tier, n: NodeId)
    requires CanSplit(t, c, k, nu)
    ensures IsLeaf(SplitNode(t, c, k, nu), n, tier) <==> IsLeaf(t, n, tier)
  {
    var t' := SplitNode(t, c, k, nu);
    NoSelfParent(t, c);
    assert UpOk(t, c) && ResOk(t[c]);
    assert HoldsPages(t', c, tier) <==> HoldsPages(t, c, tier);
    assert HoldsPages(t', nu, tier) <==> HoldsPages(t, c, tier);
    forall x | x in t && x != c ensures HoldsPages(t', x, tier) <==> HoldsPages(t, x, tier) {}
    if n == nu {
      assert t'[nu].children[t[c].run[k]] == c;
    } else if n in t {
      var p := t[c].parent;
      if n == p {
        assert t'[p].children[t[c].run[0]] == nu;
        forall g | g in t[p].children && g != t[c].run[0]
          ensures HoldsPages(t', t'[p].children[g], tier) <==> HoldsPages(t, t[p].children[g], tier)
        {
          assert DownOk(t, p, g);
        }
      } else {
        forall g | g in t[n].children
          ensures HoldsPages(t', t'[n].children[g], tier) <==> HoldsPages(t, t[n].children[g], tier)
        {
          assert DownOk(t, n, g);
        }
      }
    }
  }

  lemma SplitClosed(t: Tree, c: NodeId, k: nat, nu: NodeId, tier: Tier)
    requires CanSplit(t, c, k, nu) && Closed(t, tier)
    ensures Closed(SplitNode(t, c, k, nu), tier)
  {
    var t' := SplitNode(t, c, k, nu);
    NoSelfParent(t, c);
    assert UpOk(t, c) && ClosedAt(t, c, tier);
    forall n | n in t' ensures ClosedAt(t', n, tier) {
      if n in t { assert ClosedAt(t, n, tier); }
    }
  }

  /** The new prefix node has below it exactly the references the split node had. */
  lemma SplitRefs(t: Tree, c: NodeId, k: nat, nu: NodeId, tier: Tier, refs: Refs)
    requires CanSplit(t, c, k, nu) && RefsExact(t, tier, refs)
    ensures RefsExact(SplitNode(t, c, k, nu), tier, refs)
  {
    SplitWF(t, c, k, nu);
    var t' := SplitNode(t, c, k, nu);
    NoSelfParent(t, c);
    assert ResOk(t[c]);
    forall n | n in t' ensures RefsAt(t', tier, refs, n) {
      var o := if n == nu then c else n;
      assert RefsAt(t, tier, refs, o);
      forall h | h in refs ensures IsAnc(t', n, refs[h]) <==> IsAnc(t, o, refs[h]) {
        SplitAnc(t, c, k, nu, n, refs[h]);
      }
      assert Holders(t', refs, n) == Holders(t, refs, o);
    }
  }

  lemma SplitTier(t: Tree, c: NodeId, k: nat, nu: NodeId, m: Manager, tier: Tier, refs: Refs)
    requires CanSplit(t, c, k, nu) && TierInv(t, m, tier, refs)
    ensures TierInv(SplitNode(t, c, k, nu), m, tier, refs)
  {
    SplitClosed(t, c, k, nu, tier);
    SplitRefs(t, c, k, nu, tier, refs);
    forall n ensures n in m.nodeTime <==> IsLeaf(SplitNode(t, c, k, nu), n, tier) {
      SplitLeaf(t, c, k, nu, tier, n);
    }
  }

  lemma SplitPages(t: Tree, c: NodeId, k: nat, nu: NodeId, tier: Tier, kk: nat)
    requires CanSplit(t, c, k, nu)
    requires kk == if Res(t[c], tier).Some? then k else 0
    ensures kk <= |PagesOn(t[c], tier)|
    ensures PagesOn(SplitNode(t, c, k, nu)[c], tier) == PagesOn(t[c], tier)[kk..]
    ensures PagesOn(SplitNode(t, c, k, nu)[nu], tier) == PagesOn(t[c], tier)[..kk]
    ensures forall n :: n in t && n != c ==> PagesOn(SplitNode(t, c, k, nu)[n], tier) == PagesOn(t[n], tier)
  {
    NoSelfParent(t, c);
    assert ResOk(t[c]);
  }

  /** Dividing one owner's pages between it and a new owner keeps the gathered bag. */
  lemma GatherDivide(m: map<NodeId, seq<nat>>, m': map<NodeId, seq<nat>>, c: NodeId, nu: NodeId, k: nat)
    requires c in m && nu !in m && k <= |m[c]|
    requires m'.Keys == m.Keys + {nu} && m'[c] == m[c][k..] && m'[nu] == m[c][..k]
    requires forall n :: n in m && n != c ==> m'[n] == m[n]
    ensures Gather(m') == Gather(m)
  {
    var m1: map<NodeId, seq<nat>> := m[c := m[c][k..]];
    assert m' == m1[nu := m[c][..k]];
    GatherPick(m, c);
    GatherPick(m1, c);
    WithoutUpdated(m, c, m[c][k..]);
    GatherAdd(m1, nu, m[c][..k]);
    MultisetSplit(m[c], k);
    Regroup(Gather(m'), Gather(m1), Gather(m), multiset(m[c][..k]), multiset(m[c][k..]), Gather(m - {c}));
  }

  lemma WithoutUpdated(m: map<NodeId, seq<nat>>, c: NodeId, pages: seq<nat>)
    requires c in m
    ensures m[c := pages] - {c} == m - {c}
  {
  }

  lemma Regroup(all': multiset<nat>, rest: multiset<nat>, all: multiset<nat>, a: multiset<nat>, b: multiset<nat>, g: multiset<nat>)
    requires all' == rest + a && rest == b + g && all == (a + b) + g
    ensures all' == all
  {
  }

  lemma SplitBag(t: Tree, c: NodeId, k: nat, nu: NodeId, tier: Tier)
    requires CanSplit(t, c, k, nu)
    ensures Bag(SplitNode(t, c, k, nu), tier) == Bag(t, tier)
  {
    NoSelfParent(t, c);
    var kk := if Res(t[c], tier).Some? then k else 0;
    SplitPages(t, c, k, nu, tier, kk);
    GatherDivide(TierPages(t, tier), TierPages(SplitNode(t, c, k, nu), tier), c, nu, kk);
  }

  // ---------------------------------------------------------------- hanging a node

  lemma HangRefs(t: Tree, p: NodeId, run: seq<Page>, nu: NodeId, time: int, tier: Tier, refs: Refs)
    requires CanHang(t, p, run, nu) && RefsExact(t, tier, refs)
    ensures RefsExact(HangNode(t, p, run, nu, time), tier, refs)
  {
    HangWF(t, p, run, nu, time);
    var t' := HangNode(t, p, run, nu, time);
    forall n | n in t' ensures RefsAt(t', tier, refs, n) {
      if n in t {
        assert RefsAt(t, tier, refs, n);
        forall h | h in refs ensures IsAnc(t', n, refs[h]) <==> IsAnc(t, n, refs[h]) {
          HangFacts(t, p, run, nu, time, refs[h], n, tier);
        }
        assert Holders(t', refs, n) == Holders(t, refs, n);
      }
    }
  }

  lemma HangBag(t: Tree, p: NodeId, run: seq<Page>, nu: NodeId, time: int, tier: Tier)
    requires CanHang(t, p, run, nu)
    ensures Bag(HangNode(t, p, run, nu, time), tier) == Bag(t, tier)
  {
    assert TierPages(HangNode(t, p, run, nu, time), tier) == TierPages(t, tier)[nu := []];
    GatherAdd(TierPages(t, tier), nu, []);
  }

  lemma HangTier(t: Tree, p: NodeId, run: seq<Page>, nu: NodeId, time: int, m: Manager, tier: Tier, refs: Refs)
    requires CanHang(t, p, run, nu) && TierInv(t, m, tier, refs)
    ensures TierInv(HangNode(t, p, run, nu, time), m, tier, refs)
  {
    HangWF(t, p, run, nu, time);
    var t' := HangNode(t, p, run, nu, time);
    forall n | n in t' ensures ClosedAt(t', n, tier) {
      if n in t { assert ClosedAt(t, n, tier); }
    }
    forall n ensures n in m.nodeTime <==> IsLeaf(t', n, tier) {
      HangLeaf(t, p, run, nu, time, tier, n);
    }
    HangRefs(t, p, run, nu, time, tier, refs);
  }

  lemma HangLeaf(t: Tree, p: NodeId, run: seq<Page>, nu: NodeId, time: int, tier: Tier, n: NodeId)
    requires CanHang(t, p, run, nu)
    ensures IsLeaf(HangNode(t, p, run, nu, time), n, tier) <==> IsLeaf(t, n, tier)
  {
    var t' := HangNode(t, p, run, nu, time);
    if n in t {
      forall g | g in t[n].children
        ensures HoldsPages(t', t'[n].children[g], tier) <==> HoldsPages(t, t[n].children[g], tier)
      {
        assert DownOk(t, n, g);
      }
    }
  }

  // ---------------------------------------------------------------- removing an empty node

  lemma RemoveRefs(t: Tree, n: NodeId, tier: Tier, refs: Refs)
    requires CanRemove(t, n) && RefsExact(t, tier, refs) && !On(t, n, tier)
    ensures RefsExact(RemoveNode(t, n), tier, refs)
  {
    RemoveWF(t, n);
    NoSelfParent(t, n);
    var t' := RemoveNode(t, n);
    forall h | h in refs ensures refs[h] in t' && (refs[h] == ROOT || On(t', refs[h], tier)) {}
    forall x | x in t' ensures RefsAt(t', tier, refs, x) {
      assert RefsAt(t, tier, refs, x);
      forall h | h in refs ensures IsAnc(t', x, refs[h]) <==> IsAnc(t, x, refs[h]) {
        RemoveFacts(t, n, refs[h], x, tier);
      }
      assert Holders(t', refs, x) == Holders(t, refs, x);
    }
  }

  lemma RemoveBag(t: Tree, n: NodeId, tier: Tier)
    requires CanRemove(t, n) && !On(t, n, tier)
    ensures Bag(RemoveNode(t, n), tier) == Bag(t, tier)
  {
    RemoveWF(t, n);
    NoSelfParent(t, n);
    assert TierPages(RemoveNode(t, n), tier) == TierPages(t, tier) - {n};
    GatherRemove(TierPages(t, tier), n);
  }

  lemma RemoveTier(t: Tree, n: NodeId, m: Manager, tier: Tier, refs: Refs)
    requires CanRemove(t, n) && TierInv(t, m, tier, refs) && !On(t, n, tier)
    ensures TierInv(RemoveNode(t, n), m, tier, refs)
    ensures Bag(RemoveNode(t, n), tier) == Bag(t, tier)
  {
    RemoveWF(t, n);
    NoSelfParent(t, n);
    var t' := RemoveNode(t, n);
    forall x | x in t' ensures ClosedAt(t', x, tier) {
      assert ClosedAt(t, x, tier);
    }
    forall x ensures x in m.nodeTime <==> IsLeaf(t', x, tier) {
      RemoveLeafKeeps(t, n, tier, x);
    }
    RemoveRefs(t, n, tier, refs);
    RemoveBag(t, n, tier);
  }

  lemma RemoveLeafKeeps(t: Tree, n: NodeId, tier: Tier, x: NodeId)
    requires CanRemove(t, n) && !On(t, n, tier)
    ensures IsLeaf(RemoveNode(t, n), x, tier) <==> IsLeaf(t, x, tier)
  {
    RemoveWF(t, n);
    NoSelfParent(t, n);
    assert UpOk(t, n);
    var t' := RemoveNode(t, n);
    if x in t && x != n {
      forall g | g in t[x].children
        ensures HoldsPages(t, t[x].children[g], tier)
            ==> g in t'[x].children && HoldsPages(t', t'[x].children[g], tier)
      {
        assert DownOk(t, x, g);
      }
      forall g | g in t'[x].children
        ensures g in t[x].children && (HoldsPages(t', t'[x].children[g], tier) ==> HoldsPages(t, t[x].children[g], tier))
      {
        assert DownOk(t, x, g);
      }
    }
  }
}
