/** Device-to-host transfers: the page lists of a root path, and the captured pairs of pages to copy. */
module WriteBack {
  import opened Prelude
  import opened PageTree
  import opened TreeEdits
  import opened TierState
  import opened TreeWalk
  import opened TreeFrames
  import opened CacheAttach

  // ---------------------------------------------------------------- pages of a root path

  /** The device pages on the root path of n, from the root down. */
  method DevicePagesFromRoot(t: Tree, n: NodeId) returns (ids: seq<nat>)
    requires WF(t) && n in t
    ensures ids == Chain(t, n, Device)
  {
    ids := [];
    var y := n;
    while y != ROOT
      invariant y in t && Chain(t, y, Device) + ids == Chain(t, n, Device)
      decreases t[y].depth
    {
      assert UpOk(t, y);
      ids := PagesOn(t[y], Device) + ids;
      y := t[y].parent;
    }
  }

  /** A page of an ancestor sits in the chain at the place the ancestor has on the path. */
  lemma {:induction false} ChainAt(t: Tree, a: NodeId, n: NodeId, tier: Tier, i: nat)
    requires WF(t) && Closed(t, tier) && On(t, n, tier) && IsAnc(t, a, n) && a in t && a != ROOT && i < |t[a].run|
    ensures On(t, a, tier) && |PagesOn(t[a], tier)| == |t[a].run| <= t[a].depth
    ensures var j := t[a].depth - |t[a].run| + i;
            j < |Chain(t, n, tier)| && Chain(t, n, tier)[j] == PagesOn(t[a], tier)[i]
    decreases t[n].depth
  {
    AncestorsOn(t, n, a, tier);
    assert n != ROOT && UpOk(t, n) && UpOk(t, a) && ResOk(t[a]) && ClosedAt(t, n, tier);
    var p := t[n].parent;
    ChainLength(t, p, tier);
    if a != n {
      assert IsAnc(t, a, ROOT) ==> a == ROOT;
      ChainAt(t, a, p, tier, i);
    }
  }

  /** On a closed tier, entry j of a node's chain is the page of the first j + 1 pages of its path. */
  lemma {:induction false} ChainCell(t: Tree, n: NodeId, tier: Tier, j: nat)
    requires WF(t) && Closed(t, tier) && n in t && (n == ROOT || On(t, n, tier)) && j < |Chain(t, n, tier)|
    ensures j < |Path(t, n)| && Lookup(t, Path(t, n)[..j + 1]).Some?
    ensures TierCell(Lookup(t, Path(t, n)[..j + 1]).value, tier) == Some(Chain(t, n, tier)[j])
    decreases t[n].depth
  {
    assert n != ROOT && UpOk(t, n) && ClosedAt(t, n, tier) && ResOk(t[n]);
    var p := t[n].parent;
    ChainLength(t, p, tier);
    if j < t[p].depth {
      ChainCell(t, p, tier, j);
      assert Path(t, n)[..j + 1] == Path(t, p)[..j + 1];
    } else {
      ChainCellHere(t, n, tier, j);
    }
  }

  lemma ChainCellHere(t: Tree, n: NodeId, tier: Tier, j: nat)
    requires WF(t) && n != ROOT && On(t, n, tier) && t[n].parent in t && |Chain(t, t[n].parent, tier)| == t[t[n].parent].depth <= j
    requires j < |Chain(t, n, tier)|
    ensures j < |Path(t, n)| && Lookup(t, Path(t, n)[..j + 1]).Some?
    ensures TierCell(Lookup(t, Path(t, n)[..j + 1]).value, tier) == Some(Chain(t, n, tier)[j])
  {
    assert UpOk(t, n) && ResOk(t[n]);
    var pos := Pos(n, j + 1 - t[t[n].parent].depth);
    SpellsDescend(t, pos);
    assert PosPath(t, pos) == Path(t, n)[..j + 1];
  }

  // ---------------------------------------------------------------- captured pairs

  /** The pair names the device page and the host page of one place on the root path of n. */
  ghost predicate PairAt(t: Tree, n: NodeId, p: (nat, nat))
    requires WF(t) && n in t
  {
    exists j :: 0 <= j < |Chain(t, n, Device)| && j < |Chain(t, n, Host)|
                && Chain(t, n, Device)[j] == p.0 && Chain(t, n, Host)[j] == p.1
  }

  ghost predicate Captured(t: Tree, n: NodeId, pairs: seq<(nat, nat)>)
    requires WF(t) && n in t
  {
    forall p :: p in pairs ==> PairAt(t, n, p)
  }

  /** A node kept on both tiers keeps its captured pairs true, whatever else was split, inserted or evicted. */
  lemma CapturedKept(t: Tree, t': Tree, n: NodeId, pairs: seq<(nat, nat)>)
    requires WF(t) && WF(t') && n in t && Captured(t, n, pairs) && Kept(t, t', n, Device) && Kept(t, t', n, Host)
    ensures Captured(t', n, pairs)
  {
    forall p | p in pairs ensures PairAt(t', n, p) {
      assert PairAt(t, n, p);
    }
  }

  lemma PairInNode(t: Tree, a: NodeId, n: NodeId, i: nat)
    requires WF(t) && Closed(t, Device) && Closed(t, Host) && On(t, n, Device) && On(t, n, Host)
    requires a in t && a != ROOT && IsAnc(t, a, n) && i < |t[a].run|
    ensures On(t, a, Device) && On(t, a, Host)
    ensures |t[a].device.value.pages| == |t[a].run| && |t[a].host.value.pages| == |t[a].run|
    ensures PairAt(t, n, (t[a].device.value.pages[i], t[a].host.value.pages[i]))
  {
    ChainAt(t, a, n, Device, i);
    ChainAt(t, a, n, Host, i);
    assert ResOk(t[a]);
  }

  /** The device page and the host page of each place of a node, in order. */
  function NodePairs(x: Node): (r: seq<(nat, nat)>)
    requires x.device.Some? && x.host.Some? && |x.device.value.pages| == |x.host.value.pages|
  {
    seq(|x.device.value.pages|, i requires 0 <= i < |x.device.value.pages| => (x.device.value.pages[i], x.host.value.pages[i]))
  }

  ghost predicate BothAt(t: Tree, n: NodeId) {
    On(t, n, Device) && On(t, n, Host) && n in t && t[n].device.Some? && t[n].host.Some?
    && |t[n].device.value.pages| == |t[n].host.value.pages|
  }

  ghost predicate OnBoth(t: Tree, nodes: seq<NodeId>) {
    forall i {:trigger nodes[i]} :: 0 <= i < |nodes| ==> BothAt(t, nodes[i])
  }

  ghost function AllPairs(t: Tree, nodes: seq<NodeId>): seq<(nat, nat)>
    requires OnBoth(t, nodes)
  {
    if nodes == [] then [] else
      assert BothAt(t, nodes[|nodes| - 1]);
      AllPairs(t, nodes[..|nodes| - 1]) + NodePairs(t[nodes[|nodes| - 1]])
  }

  method PairsOfNode(t: Tree, a: NodeId, ghost n: NodeId) returns (pairs: seq<(nat, nat)>)
    requires WF(t) && Closed(t, Device) && Closed(t, Host) && On(t, n, Device) && On(t, n, Host)
    requires a in t && a != ROOT && IsAnc(t, a, n)
    ensures Captured(t, n, pairs) && |pairs| == |t[a].run|
    ensures BothAt(t, a) && pairs == NodePairs(t[a])
  {
    pairs := [];
    assert UpOk(t, a);
    PairInNode(t, a, n, 0);
    var dev, host := t[a].device.value.pages, t[a].host.value.pages;
    var i := 0;
    while i < |dev|
      invariant 0 <= i <= |dev| && |pairs| == i && Captured(t, n, pairs)
      invariant forall j :: 0 <= j < i ==> pairs[j] == (dev[j], host[j])
    {
      PairInNode(t, a, n, i);
      pairs := pairs + [(dev[i], host[i])];
      i := i + 1;
    }
  }

  lemma BothMore(t: Tree, nodes: seq<NodeId>, a: NodeId)
    requires OnBoth(t, nodes) && BothAt(t, a)
    ensures OnBoth(t, nodes + [a]) && AllPairs(t, nodes + [a]) == AllPairs(t, nodes) + NodePairs(t[a])
  {
    assert (nodes + [a])[..|nodes|] == nodes;
  }

  /** The pairs of all nodes that just gained host pages. */
  method BuildWriteBackPairs(t: Tree, nodes: seq<NodeId>, ghost n: NodeId) returns (pairs: seq<(nat, nat)>)
    requires WF(t) && Closed(t, Device) && Closed(t, Host) && On(t, n, Device) && On(t, n, Host)
    requires forall i :: 0 <= i < |nodes| ==> nodes[i] in t && nodes[i] != ROOT && IsAnc(t, nodes[i], n)
    ensures Captured(t, n, pairs) && |pairs| == PageTotal(t, nodes)
    ensures OnBoth(t, nodes) && pairs == AllPairs(t, nodes)
  {
    pairs := [];
    var i := 0;
    while i < |nodes|
      invariant 0 <= i <= |nodes| && Captured(t, n, pairs) && |pairs| == PageTotal(t, nodes[..i])
      invariant OnBoth(t, nodes[..i]) && pairs == AllPairs(t, nodes[..i])
    {
      var more := PairsOfNode(t, nodes[i], n);
      pairs := pairs + more;
      assert nodes[..i + 1] == nodes[..i] + [nodes[i]];
      BothMore(t, nodes[..i], nodes[i]);
      PageTotalAdd(t, nodes[..i], nodes[i]);
      i := i + 1;
    }
    assert nodes[..i] == nodes;
  }
}
