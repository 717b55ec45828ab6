/** The four edits from which every tree operation is built, and what each keeps:
    splitting a node in place, hanging a new node, removing an empty node, and changing resources. */
module TreeEdits {
  import opened Prelude
  import opened PageTree

  // ---------------------------------------------------------------- split

  function FirstPages(r: Option<Resource>, k: nat): Option<Resource> {
    if r.Some? && k <= |r.value.pages| then Some(Resource(r.value.pages[..k], r.value.refs)) else r
  }

  function RestPages(r: Option<Resource>, k: nat): Option<Resource> {
    if r.Some? && k <= |r.value.pages| then Some(Resource(r.value.pages[k..], r.value.refs)) else r
  }

  ghost predicate CanSplit(t: Tree, c: NodeId, k: nat, nu: NodeId) {
    WF(t) && c in t && c != ROOT && 0 < k < |t[c].run| && nu !in t
  }

  /** The new node takes the first k pages of c's run, and copies its lock counts. */
  function PrefixNode(x: Node, c: NodeId, k: nat): Node
    requires 0 < k < |x.run| <= x.depth
  {
    Node(x.parent, map[x.run[k] := c], x.run[..k], x.depth - |x.run| + k,
         FirstPages(x.device, k), FirstPages(x.host, k), false, x.time)
  }

  function SuffixNode(x: Node, k: nat, prefix: NodeId): Node
    requires 0 < k < |x.run|
  {
    x.(parent := prefix, run := x.run[k..], device := RestPages(x.device, k), host := RestPages(x.host, k))
  }

  function SplitNode(t: Tree, c: NodeId, k: nat, nu: NodeId): Tree
    requires CanSplit(t, c, k, nu)
  {
    assert UpOk(t, c);
    var x := t[c];
    var p := t[x.parent];
    t[x.parent := p.(children := p.children[x.run[0] := nu])]
     [nu := PrefixNode(x, c, k)]
     [c := SuffixNode(x, k, nu)]
  }

  lemma NoSelfParent(t: Tree, n: NodeId)
    requires WF(t) && n in t && n != ROOT
    ensures t[n].parent != n && t[n].parent in t && t[t[n].parent].depth < t[n].depth
  {
    assert UpOk(t, n);
  }

  lemma SplitUp(t: Tree, c: NodeId, k: nat, nu: NodeId, n: NodeId)
    requires CanSplit(t, c, k, nu) && n in SplitNode(t, c, k, nu) && n != ROOT
    ensures UpOk(SplitNode(t, c, k, nu), n)
  {
    NoSelfParent(t, c);
    assert UpOk(t, c);
    if n in t { assert UpOk(t, n); }
  }

  lemma SplitDown(t: Tree, c: NodeId, k: nat, nu: NodeId, p: NodeId, g: Page)
    requires CanSplit(t, c, k, nu) && p in SplitNode(t, c, k, nu) && g in SplitNode(t, c, k, nu)[p].children
    ensures DownOk(SplitNode(t, c, k, nu), p, g)
  {
    NoSelfParent(t, c);
    assert UpOk(t, c);
    if p in t && g in t[p].children { assert DownOk(t, p, g); }
  }

  lemma SplitWF(t: Tree, c: NodeId, k: nat, nu: NodeId)
    requires CanSplit(t, c, k, nu)
    ensures WF(SplitNode(t, c, k, nu))
  {
    var t' := SplitNode(t, c, k, nu);
    NoSelfParent(t, c);
    forall n | n in t' && n != ROOT ensures UpOk(t', n) { SplitUp(t, c, k, nu, n); }
    forall p, g | p in t' && g in t'[p].children ensures DownOk(t', p, g) { SplitDown(t, c, k, nu, p, g); }
    assert ResOk(t[c]);
    forall n | n in t' ensures ResOk(t'[n]) {
      if n in t { assert ResOk(t[n]); }
    }
  }

  lemma Rejoin<T>(front: seq<T>, s: seq<T>, k: nat)
    requires k <= |s|
    ensures front + s[..k] + s[k..] == front + s
  {
  }

  lemma {:induction false} SplitNodeFacts(t: Tree, c: NodeId, k: nat, nu: NodeId, n: NodeId, tier: Tier)
    requires CanSplit(t, c, k, nu) && n in t
    ensures WF(SplitNode(t, c, k, nu))
    ensures Path(SplitNode(t, c, k, nu), n) == Path(t, n)
    ensures Chain(SplitNode(t, c, k, nu), n, tier) == Chain(t, n, tier)
    decreases t[n].depth
  {
    SplitWF(t, c, k, nu);
    var t' := SplitNode(t, c, k, nu);
    if n != ROOT {
      assert UpOk(t, n) && UpOk(t', n);
      SplitNodeFacts(t, c, k, nu, t[n].parent, tier);
      if n == c {
        assert UpOk(t', nu) && ResOk(t[c]);
        Rejoin(Path(t, t[c].parent), t[c].run, k);
        if Res(t[c], tier).Some? { Rejoin(Chain(t, t[c].parent, tier), PagesOn(t[c], tier), k); }
      }
    }
  }

  lemma {:induction false} SplitAnc(t: Tree, c: NodeId, k: nat, nu: NodeId, a: NodeId, b: NodeId)
    requires CanSplit(t, c, k, nu) && b in t
    ensures WF(SplitNode(t, c, k, nu))
    ensures a != nu ==> (IsAnc(SplitNode(t, c, k, nu), a, b) <==> IsAnc(t, a, b))
    ensures IsAnc(SplitNode(t, c, k, nu), nu, b) <==> IsAnc(t, c, b)
    decreases t[b].depth
  {
    SplitWF(t, c, k, nu);
    var t' := SplitNode(t, c, k, nu);
    if b != ROOT {
      assert UpOk(t, b) && UpOk(t', b);
      SplitAnc(t, c, k, nu, a, t[b].parent);
      if b == c {
        assert UpOk(t', nu);
      }
    }
  }

  /** Where a place goes when its node is split. */
  function Moved(c: NodeId, k: nat, nu: NodeId, p: Pos): Pos {
    if p.node != c then p else if p.off <= k then Pos(nu, p.off) else Pos(c, p.off - k)
  }

  lemma {:induction false} SplitDescend(t: Tree, c: NodeId, k: nat, nu: NodeId, q: seq<Page>)
    requires CanSplit(t, c, k, nu)
    ensures WF(SplitNode(t, c, k, nu))
    ensures var r := Descend(t, q);
            Descend(SplitNode(t, c, k, nu), q) == (if r.None? then None else Some(Moved(c, k, nu, r.value)))
  {
    SplitWF(t, c, k, nu);
    if q != [] {
      var q0, g := q[..|q| - 1], q[|q| - 1];
      SplitDescend(t, c, k, nu, q0);
      var r := Descend(t, q0);
      if r.Some? {
        SplitStep(t, c, k, nu, r.value, g);
      }
    }
  }

  lemma SplitStep(t: Tree, c: NodeId, k: nat, nu: NodeId, p: Pos, g: Page)
    requires CanSplit(t, c, k, nu) && ValidPos(t, p)
    ensures var r := Step(t, p, g);
            Moved(c, k, nu, p).node in SplitNode(t, c, k, nu) &&
            Step(SplitNode(t, c, k, nu), Moved(c, k, nu, p), g)
              == (if r.None? then None else Some(Moved(c, k, nu, r.value)))
  {
    var t' := SplitNode(t, c, k, nu);
    assert UpOk(t, c);
    var x := t[p.node];
    if p.off == |x.run| && g in x.children {
      assert DownOk(t, p.node, g);
    }
  }

  /** Splitting in place leaves the abstract trie as it was: pages, lock counts and stored paths. */
  lemma SplitKeepsTrie(t: Tree, c: NodeId, k: nat, nu: NodeId, q: seq<Page>)
    requires CanSplit(t, c, k, nu)
    ensures WF(SplitNode(t, c, k, nu))
    ensures Lookup(SplitNode(t, c, k, nu), q) == Lookup(t, q)
  {
    SplitDescend(t, c, k, nu, q);
    var r := Descend(t, q);
    if r.Some? && q != [] { SplitCell(t, c, k, nu, r.value); }
  }

  lemma SplitCell(t: Tree, c: NodeId, k: nat, nu: NodeId, p: Pos)
    requires CanSplit(t, c, k, nu) && ValidPos(t, p) && p.node != ROOT
    ensures var p', t' := Moved(c, k, nu, p), SplitNode(t, c, k, nu);
            ValidPos(t', p') && p'.node != ROOT && CellIn(t'[p'.node], p'.off - 1) == CellIn(t[p.node], p.off - 1)
  {
    assert ResOk(t[p.node]);
  }

  // ---------------------------------------------------------------- a new leaf node

  ghost predicate CanHang(t: Tree, p: NodeId, run: seq<Page>, nu: NodeId) {
    WF(t) && p in t && run != [] && run[0] !in t[p].children && nu !in t
  }

  function NewNode(p: NodeId, base: nat, run: seq<Page>, time: int): Node {
    Node(p, map[], run, base + |run|, None, None, false, time)
  }

  function HangNode(t: Tree, p: NodeId, run: seq<Page>, nu: NodeId, time: int): Tree
    requires p in t && run != []
  {
    t[p := t[p].(children := t[p].children[run[0] := nu])][nu := NewNode(p, t[p].depth, run, time)]
  }

  lemma HangUp(t: Tree, p: NodeId, run: seq<Page>, nu: NodeId, time: int, n: NodeId)
    requires CanHang(t, p, run, nu) && n in HangNode(t, p, run, nu, time) && n != ROOT
    ensures UpOk(HangNode(t, p, run, nu, time), n)
  {
    if n in t { assert UpOk(t, n); }
  }

  lemma HangDown(t: Tree, p: NodeId, run: seq<Page>, nu: NodeId, time: int, m: NodeId, g: Page)
    requires CanHang(t, p, run, nu) && m in HangNode(t, p, run, nu, time) && g in HangNode(t, p, run, nu, time)[m].children
    ensures DownOk(HangNode(t, p, run, nu, time), m, g)
  {
    if m in t && g in t[m].children { assert DownOk(t, m, g); }
  }

  lemma HangWF(t: Tree, p: NodeId, run: seq<Page>, nu: NodeId, time: int)
    requires CanHang(t, p, run, nu)
    ensures WF(HangNode(t, p, run, nu, time))
  {
    var t' := HangNode(t, p, run, nu, time);
    forall n | n in t' && n != ROOT ensures UpOk(t', n) { HangUp(t, p, run, nu, time, n); }
    forall m, g | m in t' && g in t'[m].children ensures DownOk(t', m, g) { HangDown(t, p, run, nu, time, m, g); }
    forall n | n in t' ensures ResOk(t'[n]) {
      if n in t { assert ResOk(t[n]); }
    }
  }

  lemma {:induction false} HangFacts(t: Tree, p: NodeId, run: seq<Page>, nu: NodeId, time: int, n: NodeId, a: NodeId, tier: Tier)
    requires CanHang(t, p, run, nu) && n in t
    ensures WF(HangNode(t, p, run, nu, time))
    ensures Path(HangNode(t, p, run, nu, time), n) == Path(t, n)
    ensures Chain(HangNode(t, p, run, nu, time), n, tier) == Chain(t, n, tier)
    ensures IsAnc(HangNode(t, p, run, nu, time), a, n) <==> IsAnc(t, a, n)
    decreases t[n].depth
  {
    HangWF(t, p, run, nu, time);
    if n != ROOT {
      assert UpOk(t, n) && UpOk(HangNode(t, p, run, nu, time), n);
      HangFacts(t, p, run, nu, time, t[n].parent, a, tier);
    }
  }

  /** Hanging a run below p stores exactly the new paths, with no page on either tier. */
  lemma {:induction false} HangDescend(t: Tree, p: NodeId, run: seq<Page>, nu: NodeId, time: int, q: seq<Page>)
    requires CanHang(t, p, run, nu)
    ensures WF(HangNode(t, p, run, nu, time))
    ensures var t' := HangNode(t, p, run, nu, time);
            var r, r' := Descend(t, q), Descend(t', q);
            (r.Some? ==> r' == r) && (r.None? && r'.Some? ==> r'.value.node == nu)
  {
    HangWF(t, p, run, nu, time);
    var t' := HangNode(t, p, run, nu, time);
    if q != [] {
      var q0, g := q[..|q| - 1], q[|q| - 1];
      HangDescend(t, p, run, nu, time, q0);
      var r := Descend(t, q0);
      if r.Some? {
        var x := t[r.value.node];
        if r.value.off == |x.run| && g in x.children { assert DownOk(t, r.value.node, g); }
      }
    }
  }

  // ---------------------------------------------------------------- removal of an empty node

  ghost predicate CanRemove(t: Tree, n: NodeId) {
    WF(t) && n in t && n != ROOT && t[n].children == map[]
  }

  function RemoveNode(t: Tree, n: NodeId): Tree
    requires CanRemove(t, n)
  {
    assert UpOk(t, n);
    var p := t[n].parent;
    (t - {n})[p := t[p].(children := t[p].children - {t[n].run[0]})]
  }

  lemma RemoveWF(t: Tree, n: NodeId)
    requires CanRemove(t, n)
    ensures WF(RemoveNode(t, n))
    ensures RemoveNode(t, n).Keys == t.Keys - {n}
  {
    var t' := RemoveNode(t, n);
    assert UpOk(t, n);
    NoSelfParent(t, n);
    forall m | m in t' && m != ROOT ensures UpOk(t', m) { RemoveUp(t, n, m); }
    forall m, g | m in t' && g in t'[m].children ensures DownOk(t', m, g) { RemoveDown(t, n, m, g); }
    forall m | m in t' ensures ResOk(t'[m]) {
      assert ResOk(t[m]);
    }
  }

  lemma RemoveUp(t: Tree, n: NodeId, m: NodeId)
    requires CanRemove(t, n) && m in RemoveNode(t, n) && m != ROOT
    ensures UpOk(RemoveNode(t, n), m)
  {
    NoSelfParent(t, n);
    assert UpOk(t, n) && UpOk(t, m);
  }

  lemma RemoveDown(t: Tree, n: NodeId, m: NodeId, g: Page)
    requires CanRemove(t, n) && m in RemoveNode(t, n) && g in RemoveNode(t, n)[m].children
    ensures DownOk(RemoveNode(t, n), m, g)
  {
    NoSelfParent(t, n);
    assert UpOk(t, n) && DownOk(t, m, g);
  }

  lemma {:induction false} RemoveFacts(t: Tree, n: NodeId, m: NodeId, a: NodeId, tier: Tier)
    requires CanRemove(t, n) && m in t && m != n
    ensures WF(RemoveNode(t, n)) && m in RemoveNode(t, n)
    ensures Path(RemoveNode(t, n), m) == Path(t, m)
    ensures Chain(RemoveNode(t, n), m, tier) == Chain(t, m, tier)
    ensures IsAnc(RemoveNode(t, n), a, m) <==> IsAnc(t, a, m)
    decreases t[m].depth
  {
    RemoveWF(t, n);
    if m != ROOT {
      assert UpOk(t, m) && UpOk(RemoveNode(t, n), m);
      RemoveFacts(t, n, t[m].parent, a, tier);
    }
  }

  /** Removing a childless node forgets its own paths and nothing else. */
  lemma {:induction false} RemoveDescend(t: Tree, n: NodeId, q: seq<Page>)
    requires CanRemove(t, n)
    ensures WF(RemoveNode(t, n))
    ensures var r := Descend(t, q);
            Descend(RemoveNode(t, n), q) == (if r.Some? && r.value.node == n then None else r)
  {
    RemoveWF(t, n);
    var t' := RemoveNode(t, n);
    assert UpOk(t, n);
    if q != [] {
      var q0, g := q[..|q| - 1], q[|q| - 1];
      RemoveDescend(t, n, q0);
      var r := Descend(t, q0);
      if r.Some? {
        var x := t[r.value.node];
        if r.value.off == |x.run| && g in x.children {
          assert DownOk(t, r.value.node, g);
        }
      }
    }
  }

  // ---------------------------------------------------------------- resources only

  ghost predicate SameNodeShape(x: Node, y: Node) {
    x.parent == y.parent && x.children == y.children && x.run == y.run && x.depth == y.depth
  }

  /** Same nodes, runs and links; resources, marks and times may differ. */
  ghost predicate SameShape(t: Tree, t': Tree) {
    t.Keys == t'.Keys && forall n :: n in t ==> SameNodeShape(t[n], t'[n])
  }

  lemma SameShapeWF(t: Tree, t': Tree)
    requires WF(t) && SameShape(t, t')
    requires t'[ROOT].device.None? && t'[ROOT].host.None?
    requires forall n :: n in t' ==> ResOk(t'[n])
    ensures WF(t')
  {
    forall n | n in t' && n != ROOT ensures UpOk(t', n) { assert UpOk(t, n); }
    forall p, k | p in t' && k in t'[p].children ensures DownOk(t', p, k) { assert DownOk(t, p, k); }
  }

  lemma {:induction false} SameShapeFacts(t: Tree, t': Tree, n: NodeId, a: NodeId)
    requires WF(t) && WF(t') && SameShape(t, t') && n in t
    ensures Path(t', n) == Path(t, n)
    ensures IsAnc(t', a, n) <==> IsAnc(t, a, n)
    decreases t[n].depth
  {
    if n != ROOT {
      assert UpOk(t, n) && UpOk(t', n);
      SameShapeFacts(t, t', t[n].parent, a);
    }
  }

  lemma {:induction false} SameShapeDescend(t: Tree, t': Tree, q: seq<Page>)
    requires WF(t) && WF(t') && SameShape(t, t')
    ensures Descend(t', q) == Descend(t, q)
  {
    if q != [] {
      SameShapeDescend(t, t', q[..|q| - 1]);
    }
  }

  /** If the pages on one tier agree along a root path, so does the chain of pages. */
  lemma {:induction false} SameChain(t: Tree, t': Tree, n: NodeId, tier: Tier)
    requires WF(t) && WF(t') && n in t && n in t'
    requires forall m :: IsAnc(t, m, n) ==> m in t' && t'[m].parent == t[m].parent && PagesOn(t'[m], tier) == PagesOn(t[m], tier)
    ensures Chain(t', n, tier) == Chain(t, n, tier)
    decreases t[n].depth
  {
    if n != ROOT {
      assert UpOk(t, n) && UpOk(t', n);
      assert IsAnc(t, n, n);
      var p := t[n].parent;
      assert IsAnc(t, p, p) && IsAnc(t, p, n);
      forall m | IsAnc(t, m, p)
        ensures m in t' && t'[m].parent == t[m].parent && PagesOn(t'[m], tier) == PagesOn(t[m], tier)
      {
        assert IsAnc(t, m, n);
      }
      SameChain(t, t', p, tier);
    }
  }
}
