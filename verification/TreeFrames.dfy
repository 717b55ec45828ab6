/** What one operation may do to nodes that others rely on. */
module TreeFrames {
  import opened Prelude
  import opened PageTree
  import opened TreeEdits
  import opened TierState
  import opened TierEdits
  import opened TreeWalk

  /** n is still there, spells the same tokens, and names the same pages of the tier. */
  ghost predicate Kept(t: Tree, t': Tree, n: NodeId, tier: Tier)
    requires WF(t) && WF(t') && n in t
  {
    n in t' && Path(t', n) == Path(t, n) && (n == ROOT || On(t', n, tier)) && Chain(t', n, tier) == Chain(t, n, tier)
  }

  /** Everything resident stays as it is. */
  ghost predicate Extends(t: Tree, t': Tree)
    requires WF(t) && WF(t')
  {
    forall n, o {:trigger Kept(t, t', n, o)} :: n in t && (n == ROOT || On(t, n, o)) ==> Kept(t, t', n, o)
  }

  /** Only unlocked nodes of one tier may lose their pages. */
  ghost predicate Shrinks(t: Tree, t': Tree, tier: Tier)
    requires WF(t) && WF(t')
  {
    forall n, o {:trigger Kept(t, t', n, o)} ::
      n in t && (n == ROOT || (o != tier && On(t, n, o)) || Locked(t, n, o)) ==> Kept(t, t', n, o)
  }

  lemma ExtendsTrans(t: Tree, t1: Tree, t2: Tree)
    requires WF(t) && WF(t1) && WF(t2) && Extends(t, t1) && Extends(t1, t2)
    ensures Extends(t, t2)
  {
    forall n, o | n in t && (n == ROOT || On(t, n, o)) ensures Kept(t, t2, n, o) {
      assert Kept(t, t1, n, o) && Kept(t1, t2, n, o);
    }
  }

  /** Every reference of a tier survives. */
  ghost predicate HeldKept(t: Tree, t': Tree, tier: Tier, refs: Refs)
    requires WF(t) && WF(t') && RefsIn(t, refs)
  {
    forall h :: h in refs ==> Kept(t, t', refs[h], tier)
  }

  lemma ExtendsHeld(t: Tree, t': Tree, tier: Tier, refs: Refs)
    requires WF(t') && RefsExact(t, tier, refs) && Extends(t, t')
    ensures HeldKept(t, t', tier, refs)
  {
    forall h | h in refs ensures Kept(t, t', refs[h], tier) {}
  }

  lemma ShrinksHeld(t: Tree, t': Tree, tier: Tier, o: Tier, refs: Refs)
    requires WF(t') && RefsExact(t, o, refs) && Closed(t, o) && Shrinks(t, t', tier)
    ensures HeldKept(t, t', o, refs)
  {
    forall h | h in refs ensures Kept(t, t', refs[h], o) {
      assert IsAnc(t, refs[h], refs[h]);
      if refs[h] != ROOT { HeldIsLocked(t, o, refs, h, refs[h]); }
    }
  }

  ghost predicate SameTrie(t: Tree, t': Tree)
    requires WF(t) && WF(t')
  {
    forall r :: Lookup(t', r) == Lookup(t, r)
  }

  lemma SameTrieStored(t: Tree, t': Tree, q: seq<Page>)
    requires WF(t) && WF(t') && SameTrie(t, t')
    ensures StoredLen(t', q) == StoredLen(t, q)
  {
    forall r ensures Descend(t', r).Some? <==> Descend(t, r).Some? {
      assert Lookup(t', r) == Lookup(t, r);
    }
    StoredLenSame(t, t', q);
  }

  // ---------------------------------------------------------------- equal but for access times

  ghost predicate EqualButTime(t: Tree, t': Tree) {
    t'.Keys == t.Keys && forall n :: n in t ==> t'[n] == t[n].(time := t'[n].time)
  }

  lemma EqualButTimeFacts(t: Tree, t': Tree)
    requires WF(t) && EqualButTime(t, t')
    ensures WF(t') && SameShape(t, t') && SameTier(t, t', Device) && SameTier(t, t', Host)
    ensures Extends(t, t') && SameTrie(t, t')
  {
    forall n | n in t' ensures ResOk(t'[n]) { assert ResOk(t[n]); }
    SameShapeWF(t, t');
    SameTierExtends(t, t');
    forall r ensures Lookup(t', r) == Lookup(t, r) { SameShapeDescend(t, t', r); }
  }

  lemma SameTierExtends(t: Tree, t': Tree)
    requires WF(t) && WF(t') && SameShape(t, t')
    requires forall n, o :: n in t ==> PagesOn(t'[n], o) == PagesOn(t[n], o)
    requires forall n, o :: On(t, n, o) ==> On(t', n, o)
    ensures Extends(t, t')
  {
    forall n, o | n in t && (n == ROOT || On(t, n, o)) ensures Kept(t, t', n, o) {
      SameShapeFacts(t, t', n, n);
      SameChain(t, t', n, o);
    }
  }

  lemma SplitExtends(t: Tree, c: NodeId, k: nat, nu: NodeId)
    requires CanSplit(t, c, k, nu)
    ensures WF(SplitNode(t, c, k, nu)) && Extends(t, SplitNode(t, c, k, nu)) && SameTrie(t, SplitNode(t, c, k, nu))
  {
    SplitWF(t, c, k, nu);
    var t' := SplitNode(t, c, k, nu);
    forall n, o | n in t && (n == ROOT || On(t, n, o)) ensures Kept(t, t', n, o) {
      SplitNodeFacts(t, c, k, nu, n, o);
      NoSelfParent(t, c);
      if n == c { assert ResOk(t[c]); }
    }
    forall r ensures Lookup(t', r) == Lookup(t, r) { SplitKeepsTrie(t, c, k, nu, r); }
  }

  lemma HangExtends(t: Tree, p: NodeId, run: seq<Page>, nu: NodeId, time: int)
    requires CanHang(t, p, run, nu)
    ensures WF(HangNode(t, p, run, nu, time)) && Extends(t, HangNode(t, p, run, nu, time))
  {
    HangWF(t, p, run, nu, time);
    forall n, o | n in t && (n == ROOT || On(t, n, o)) ensures Kept(t, HangNode(t, p, run, nu, time), n, o) {
      HangFacts(t, p, run, nu, time, n, n, o);
    }
  }

  lemma BumpedExtends(t: Tree, x: NodeId, tier: Tier, delta: int)
    requires WF(t) && x in t
    ensures WF(Bumped(t, x, tier, delta)) && Extends(t, Bumped(t, x, tier, delta))
  {
    BumpedWF(t, x, tier, delta);
    SameTierExtends(t, Bumped(t, x, tier, delta));
  }
}
