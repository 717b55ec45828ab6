/** Walking the tree for a query. */
module CacheWalk {
  import opened Prelude
  import opened PageTree
  import opened TreeEdits
  import opened TierState
  import opened TierEdits
  import opened TreeWalk
  import opened TreeFrames
  import opened CacheState

  /** Split node n after k pages of its run; the new node takes the front. */
  method SplitChild(c: Cache, ghost live: Live, n: NodeId, k: nat) returns (c': Cache, prefix: NodeId)
    requires CacheInv(c, live) && n in c.tree && n != ROOT && 0 < k < |c.tree[n].run|
    ensures CacheInv(c', live) && c' == c.(tree := c'.tree, next := c'.next) && SameMeaning(c.tree, c'.tree)
    ensures prefix != ROOT && prefix in c'.tree && c.tree[n].parent in c.tree
    ensures c'.tree[prefix].parent == c.tree[n].parent && c'.tree[prefix].parent in c'.tree
    ensures Path(c'.tree, c.tree[n].parent) == Path(c.tree, c.tree[n].parent)
    ensures Path(c'.tree, prefix) == Path(c.tree, c.tree[n].parent) + c.tree[n].run[..k]
  {
    SplitMeaning(c.tree, n, k, c.next);
    SplitInv(c, live, n, k);
    SplitPaths(c.tree, n, k, c.next);
    prefix := c.next;
    c' := c.(tree := SplitNode(c.tree, n, k, c.next), next := c.next + 1);
  }

  method Touch(c: Cache, ghost live: Live, n: NodeId, time: int) returns (c': Cache)
    requires CacheInv(c, live) && n in c.tree
    ensures CacheInv(c', live) && c' == c.(tree := c'.tree) && SameMeaning(c.tree, c'.tree)
    ensures EqualButTime(c.tree, c'.tree) && SameShape(c.tree, c'.tree)
    ensures forall x :: x in c'.tree ==> Path(c'.tree, x) == Path(c.tree, x)
  {
    c' := c.(tree := c.tree[n := c.tree[n].(time := time)]);
    TouchAll(c, live, c'.tree);
  }

  /** Step down to the first k pages of node n, splitting it if its run is longer. */
  method Enter(c: Cache, ghost live: Live, n: NodeId, k: nat, time: int) returns (c': Cache, next: NodeId)
    requires CacheInv(c, live) && n in c.tree && n != ROOT && 0 < k <= |c.tree[n].run|
    ensures CacheInv(c', live) && c' == c.(tree := c'.tree, next := c'.next) && SameMeaning(c.tree, c'.tree)
    ensures next in c'.tree && next != ROOT && c.tree[n].parent in c.tree
    ensures c'.tree[next].parent == c.tree[n].parent && c'.tree[next].parent in c'.tree
    ensures Path(c'.tree, c.tree[n].parent) == Path(c.tree, c.tree[n].parent)
    ensures Path(c'.tree, next) == Path(c.tree, c.tree[n].parent) + c.tree[n].run[..k]
    ensures k == |c.tree[n].run| ==> EqualButTime(c.tree, c'.tree)
  {
    var c1 := c;
    next := n;
    assert UpOk(c.tree, n);
    if k < |c.tree[n].run| {
      c1, next := SplitChild(c, live, n, k);
    } else {
      assert c.tree[n].run[..k] == c.tree[n].run;
      EqualButTimeFacts(c.tree, c.tree);
    }
    c' := Touch(c1, live, next, time);
    SameMeaningTrans(c.tree, c1.tree, c'.tree);
  }

  /** Enter child n of cur and carry each tier's match along. */
  method WalkInto(c: Cache, ghost live: Live, ghost t0: Tree, q: seq<Page>, cur: NodeId, m: nat, n: NodeId, k: nat,
                  time: int, dNode: NodeId, dAlive: bool, hNode: NodeId, hAlive: bool)
    returns (c': Cache, next: NodeId, dNode': NodeId, dAlive': bool, hNode': NodeId, hAlive': bool)
    requires CacheInv(c, live) && WalkInv(t0, c.tree, q, cur, m, dNode, dAlive, hNode, hAlive, false)
    requires m < |q| && n in c.tree && n != ROOT && c.tree[n].parent == cur && Agree(c.tree[n].run, q, m, k)
    requires k < |c.tree[n].run| ==> m + k == StoredLen(t0, q) && !Blocked(t0, q)
    ensures CacheInv(c', live) && c' == c.(tree := c'.tree, next := c'.next)
    ensures WalkInv(t0, c'.tree, q, next, m + k, dNode', dAlive', hNode', hAlive', k < |c.tree[n].run|)
  {
    JoinSlices(q, m, k);
    c', next := Enter(c, live, n, k, time);
    WalkRound(t0, c.tree, c'.tree, q, cur, m, dNode, dAlive, hNode, hAlive, k < |c.tree[n].run|, next, k);
    dAlive', hAlive' := dAlive && On(c'.tree, next, Device), hAlive && On(c'.tree, next, Host);
    dNode', hNode' := if dAlive' then next else dNode, if hAlive' then next else hNode;
  }

  /** One round of the walk: enter the next child, or stop at a snapshot that would have to be split. */
  method WalkStep(c: Cache, ghost live: Live, ghost t0: Tree, q: seq<Page>, cur: NodeId, m: nat,
                  time: int, dNode: NodeId, dAlive: bool, hNode: NodeId, hAlive: bool, ghost split: bool)
    returns (c': Cache, next: NodeId, m': nat, dNode': NodeId, dAlive': bool, hNode': NodeId, hAlive': bool,
             ghost split': bool, stop: bool)
    requires CacheInv(c, live) && WalkInv(t0, c.tree, q, cur, m, dNode, dAlive, hNode, hAlive, split)
    requires m < |q| && q[m] in c.tree[cur].children
    ensures CacheInv(c', live) && c' == c.(tree := c'.tree, next := c'.next)
    ensures WalkInv(t0, c'.tree, q, next, m', dNode', dAlive', hNode', hAlive', split')
    ensures if stop then Blocked(t0, q) && m' < StoredLen(t0, q) else m < m' <= |q|
  {
    var n, k;
    n, k, stop := NextChild(t0, c.tree, q, cur, m, split);
    if stop {
      c', next, m', dNode', dAlive', hNode', hAlive', split' := c, cur, m, dNode, dAlive, hNode, hAlive, split;
    } else {
      c', next, dNode', dAlive', hNode', hAlive' :=
        WalkInto(c, live, t0, q, cur, m, n, k, time, dNode, dAlive, hNode, hAlive);
      m', split' := m + k, k < |c.tree[n].run|;
    }
  }

  /** Follow the query from the root until it leaves the trie, splitting the node it leaves inside. */
  method Walk(c: Cache, ghost live: Live, q: seq<Page>, time: int)
    returns (c': Cache, terminal: NodeId, matched: nat, dNode: NodeId, hNode: NodeId)
    requires CacheInv(c, live)
    ensures CacheInv(c', live) && c' == c.(tree := c'.tree, next := c'.next)
    ensures WalkResult(c.tree, c'.tree, q, terminal, matched, dNode, hNode)
  {
    c', terminal, matched, dNode, hNode := c, ROOT, 0, ROOT, ROOT;
    var dAlive, hAlive := true, true;
    ghost var split := false;
    WalkStart(c.tree, q);
    var stop := false;
    while !stop && matched < |q| && q[matched] in c'.tree[terminal].children
      invariant CacheInv(c', live) && c' == c.(tree := c'.tree, next := c'.next)
      invariant WalkInv(c.tree, c'.tree, q, terminal, matched, dNode, dAlive, hNode, hAlive, split)
      invariant stop ==> Blocked(c.tree, q) && matched < StoredLen(c.tree, q)
      decreases !stop, |q| - matched
    {
      c', terminal, matched, dNode, dAlive, hNode, hAlive, split, stop :=
        WalkStep(c', live, c.tree, q, terminal, matched, time, dNode, dAlive, hNode, hAlive, split);
    }
    WalkOver(c.tree, c'.tree, q, terminal, matched, dNode, dAlive, hNode, hAlive, split, stop);
  }
}
