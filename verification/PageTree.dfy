/** The compressed page trie: nodes hold runs of token pages, and optionally pages on each tier.
    Every node is a record in a table keyed by its sequence id; all operations here are single edits
    of that table, and the lemmas say what each edit keeps. */
module PageTree {
  import opened Prelude

  type Token = int
  type Page = seq<Token>
  type NodeId = nat

  const ROOT: NodeId := 0

  datatype Tier = Device | Host

  /** Physical pages attached to a node on one tier, with the number of locks on them. */
  datatype Resource = Resource(pages: seq<nat>, refs: nat)

  datatype Node = Node(
    parent: NodeId,
    children: map<Page, NodeId>,
    run: seq<Page>,
    depth: nat,
    device: Option<Resource>,
    host: Option<Resource>,
    snapshot: bool,
    time: int)

  type Tree = map<NodeId, Node>

  function Res(x: Node, tier: Tier): Option<Resource> {
    match tier case Device => x.device case Host => x.host
  }

  function WithRes(x: Node, tier: Tier, r: Option<Resource>): Node {
    match tier case Device => x.(device := r) case Host => x.(host := r)
  }

  predicate On(t: Tree, n: NodeId, tier: Tier) {
    n in t && Res(t[n], tier).Some?
  }

  // ---------------------------------------------------------------- well-formedness

  /** A non-root node hangs off its parent under the first page of its run. */
  ghost predicate UpOk(t: Tree, n: NodeId)
    requires n in t
  {
    var x := t[n];
    && x.parent in t
    && x.run != []
    && x.depth == t[x.parent].depth + |x.run|
    && x.run[0] in t[x.parent].children
    && t[x.parent].children[x.run[0]] == n
  }

  ghost predicate DownOk(t: Tree, p: NodeId, k: Page)
    requires p in t && k in t[p].children
  {
    var c := t[p].children[k];
    c in t && c != ROOT && t[c].parent == p && t[c].run != [] && t[c].run[0] == k
  }

  ghost predicate ResOk(x: Node) {
    && (x.device.Some? ==> |x.device.value.pages| == |x.run|)
    && (x.host.Some? ==> |x.host.value.pages| == |x.run|)
  }

  ghost predicate RootOk(t: Tree) {
    ROOT in t && t[ROOT].run == [] && t[ROOT].depth == 0 && t[ROOT].device.None? && t[ROOT].host.None?
  }

  ghost predicate WF(t: Tree) {
    && RootOk(t)
    && (forall n {:trigger UpOk(t, n)} :: n in t && n != ROOT ==> UpOk(t, n))
    && (forall p, k {:trigger DownOk(t, p, k)} :: p in t && k in t[p].children ==> DownOk(t, p, k))
    && (forall n {:trigger ResOk(t[n])} :: n in t ==> ResOk(t[n]))
  }

  // ---------------------------------------------------------------- paths and ancestors

  /** The pages spelled from the root down to the end of node n. */
  ghost function Path(t: Tree, n: NodeId): (q: seq<Page>)
    requires WF(t) && n in t
    ensures |q| == t[n].depth
    decreases t[n].depth
  {
    if n == ROOT then [] else
      assert UpOk(t, n);
      Path(t, t[n].parent) + t[n].run
  }

  /** a lies on the root path of b (b included). */
  ghost predicate IsAnc(t: Tree, a: NodeId, b: NodeId)
    requires WF(t) && b in t
    ensures IsAnc(t, a, b) ==> a in t && t[a].depth <= t[b].depth && (t[a].depth == t[b].depth ==> a == b)
    decreases t[b].depth
  {
    a == b || (b != ROOT && assert UpOk(t, b); IsAnc(t, a, t[b].parent))
  }

  /** The tier pages found on the root path of n, from the root down. */
  ghost function Chain(t: Tree, n: NodeId, tier: Tier): (ids: seq<nat>)
    requires WF(t) && n in t
    decreases t[n].depth
  {
    if n == ROOT then [] else
      assert UpOk(t, n);
      Chain(t, t[n].parent, tier) + PagesOn(t[n], tier)
  }

  function PagesOn(x: Node, tier: Tier): seq<nat> {
    if Res(x, tier).Some? then Res(x, tier).value.pages else []
  }

  lemma {:induction false} IsAncTrans(t: Tree, a: NodeId, b: NodeId, c: NodeId)
    requires WF(t) && c in t && b in t && IsAnc(t, b, c) && IsAnc(t, a, b)
    ensures IsAnc(t, a, c)
    decreases t[c].depth
  {
    if b != c {
      assert UpOk(t, c);
      IsAncTrans(t, a, b, t[c].parent);
    }
  }

  /** Two ancestors of one node are ordered by depth. */
  lemma {:induction false} IsAncLinear(t: Tree, a: NodeId, b: NodeId, c: NodeId)
    requires WF(t) && c in t && IsAnc(t, a, c) && IsAnc(t, b, c)
    requires t[a].depth <= t[b].depth
    ensures IsAnc(t, a, b)
    decreases t[c].depth
  {
    if b != c && a != c {
      assert UpOk(t, c);
      IsAncLinear(t, a, b, t[c].parent);
    }
  }

  // ---------------------------------------------------------------- denotation

  /** A place inside the trie: after the first `off` pages of a node's run. */
  datatype Pos = Pos(node: NodeId, off: nat)

  ghost predicate ValidPos(t: Tree, p: Pos) {
    p.node in t && p.off <= |t[p.node].run| && (p.off == 0 <==> p.node == ROOT)
  }

  /** Reading one more page from a place. */
  function Step(t: Tree, p: Pos, g: Page): Option<Pos>
    requires p.node in t
  {
    var x := t[p.node];
    if p.off < |x.run| then
      if x.run[p.off] == g then Some(Pos(p.node, p.off + 1)) else None
    else if g in x.children then Some(Pos(x.children[g], 1)) else None
  }

  /** The place reached by spelling q from the root, if q is stored. */
  ghost function Descend(t: Tree, q: seq<Page>): (r: Option<Pos>)
    requires WF(t)
    ensures r.Some? ==> ValidPos(t, r.value)
  {
    if q == [] then Some(Pos(ROOT, 0)) else
      var p := Descend(t, q[..|q| - 1]);
      if p.None? then None else
        var x := t[p.value.node];
        var g := q[|q| - 1];
        assert p.value.off == |x.run| && g in x.children ==> DownOk(t, p.value.node, g);
        Step(t, p.value, g)
  }

  /** What the trie records about one stored page path. */
  datatype Cell = Cell(device: Option<nat>, host: Option<nat>, deviceRefs: nat, hostRefs: nat)

  function PageAt(r: Option<Resource>, i: nat): Option<nat> {
    if r.Some? && i < |r.value.pages| then Some(r.value.pages[i]) else None
  }

  function RefsOf(r: Option<Resource>): nat {
    if r.Some? then r.value.refs else 0
  }

  function CellIn(x: Node, i: nat): Cell {
    Cell(PageAt(x.device, i), PageAt(x.host, i), RefsOf(x.device), RefsOf(x.host))
  }

  /** The abstract trie: page path to cell. */
  ghost function Lookup(t: Tree, q: seq<Page>): Option<Cell>
    requires WF(t)
  {
    var p := Descend(t, q);
    if q == [] || p.None? then None else Some(CellIn(t[p.value.node], p.value.off - 1))
  }

  ghost function TierCell(c: Cell, tier: Tier): Option<nat> {
    match tier case Device => c.device case Host => c.host
  }

  /** q is stored and its last page is resident on the tier (the empty path always is). */
  ghost predicate Resident(t: Tree, q: seq<Page>, tier: Tier)
    requires WF(t)
  {
    q == [] || (Lookup(t, q).Some? && TierCell(Lookup(t, q).value, tier).Some?)
  }

  ghost function PosPath(t: Tree, p: Pos): (q: seq<Page>)
    requires WF(t) && ValidPos(t, p)
  {
    if p.node == ROOT then [] else
      assert UpOk(t, p.node);
      Path(t, t[p.node].parent) + t[p.node].run[..p.off]
  }

  /** Spelling leads only to the place whose path was spelled. */
  lemma {:induction false} DescendSpells(t: Tree, q: seq<Page>)
    requires WF(t) && Descend(t, q).Some?
    ensures PosPath(t, Descend(t, q).value) == q
  {
    if q != [] {
      var q0, g := q[..|q| - 1], q[|q| - 1];
      DescendSpells(t, q0);
      var p := Descend(t, q0).value;
      var x := t[p.node];
      assert q == q0 + [g];
      if p.off < |x.run| {
        assert x.run[..p.off + 1] == x.run[..p.off] + [g];
      } else {
        assert DownOk(t, p.node, g);
        assert x.run[..p.off] == x.run;
        assert UpOk(t, x.children[g]);
        var c := t[x.children[g]];
        assert c.run[..1] == [g];
        if p.node == ROOT { assert Path(t, ROOT) == []; }
      }
    }
  }

  /** Every place is reached by its own path, so a stored path names exactly one place. */
  lemma {:induction false} SpellsDescend(t: Tree, p: Pos)
    requires WF(t) && ValidPos(t, p)
    ensures Descend(t, PosPath(t, p)) == Some(p)
    decreases if p.node in t then t[p.node].depth - |t[p.node].run| + p.off else 0
  {
    if p.node != ROOT {
      var x := t[p.node];
      assert UpOk(t, p.node);
      var q := PosPath(t, p);
      if p.off == 1 {
        var up := Pos(x.parent, |t[x.parent].run|);
        assert x.parent != ROOT ==> UpOk(t, x.parent);
        SpellsDescend(t, up);
        assert t[x.parent].run[..|t[x.parent].run|] == t[x.parent].run;
        assert PosPath(t, up) == Path(t, x.parent);
        assert q[..|q| - 1] == Path(t, x.parent);
      } else {
        var before := Pos(p.node, p.off - 1);
        SpellsDescend(t, before);
        assert q[..|q| - 1] == PosPath(t, before);
      }
    }
  }

  /** The end of a node is reached by the node's path. */
  lemma DescendNode(t: Tree, n: NodeId)
    requires WF(t) && n in t
    ensures Descend(t, Path(t, n)) == Some(Pos(n, |t[n].run|))
  {
    var p := Pos(n, |t[n].run|);
    assert n != ROOT ==> UpOk(t, n);
    SpellsDescend(t, p);
    assert t[n].run[..|t[n].run|] == t[n].run;
    assert PosPath(t, p) == Path(t, n);
  }
}
