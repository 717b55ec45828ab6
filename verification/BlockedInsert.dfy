/** A cache, otherwise in order, whose tree an insertion breaks. */
module BlockedInsert {
  import opened Prelude
  import opened PageTree
  import opened TreeEdits
  import opened TierState
  import opened TierEdits
  import opened TreeWalk
  import opened TreeFrames
  import opened BlockEvents
  import opened CacheState
  import opened CacheAttach
  import opened CacheInsert
  import opened SchedulerState

  /** A snapshot is left on a node: nothing else changes, and the cache stays in order. */
  lemma MarkInv(c: Cache, live: Live, n: NodeId)
    requires CacheInv(c, live) && n in c.tree && n != ROOT
    ensures CacheInv(c.(tree := c.tree[n := c.tree[n].(snapshot := true)]), live)
  {
    var t' := c.tree[n := c.tree[n].(snapshot := true)];
    forall x | x in t' ensures ResOk(t'[x]) { assert ResOk(c.tree[x]); }
    SameShapeWF(c.tree, t');
    SameTierInv(c.tree, t', c.device, Device, live.device);
    SameTierInv(c.tree, t', c.host, Host, live.host);
  }

  /** Two pages stored in one node. */
  method Hung(a: Page, b: Page, hash: BlockHash) returns (c: Cache)
    ensures CacheInv(c, Live(map[], map[])) && 1 in c.tree && c.tree[1] == NewNode(ROOT, 0, [a, b], 0) && |c.device.free| == 2
  {
    var c0 := EmptyCache(hash, 3, 0);
    EmptyInv(hash, 3, 0);
    HangInv(c0, Live(map[], map[]), ROOT, [a, b], 0);
    c := c0.(tree := HangNode(c0.tree, ROOT, [a, b], 1, 0), next := 2);
  }

  /** The same on the device. */
  method OnDeviceNode(a: Page, b: Page, hash: BlockHash) returns (c: Cache)
    ensures CacheInv(c, Live(map[], map[])) && 1 in c.tree && c.tree[1].parent == ROOT && c.tree[1].run == [a, b]
    ensures On(c.tree, 1, Device)
  {
    var c1 := Hung(a, b, hash);
    assert Chain(c1.tree, 1, Device) == [] by { assert Chain(c1.tree, ROOT, Device) == []; }
    var ok;
    c, ok := AllocateResourceOfType(c1, Live(map[], map[]), Device, 1);
  }

  /** Two pages in one node on the device, which carries a snapshot. */
  method Marked(a: Page, b: Page, hash: BlockHash) returns (c: Cache)
    ensures CacheInv(c, Live(map[], map[])) && 1 in c.tree && c.tree[1].parent == ROOT && c.tree[1].run == [a, b]
    ensures On(c.tree, 1, Device) && c.tree[1].snapshot
  {
    var c2 := OnDeviceNode(a, b, hash);
    MarkInv(c2, Live(map[], map[]), 1);
    c := c2.(tree := c2.tree[1 := c2.tree[1].(snapshot := true)]);
  }

  /** A query that shares just the first page leaves the trie inside that node. */
  lemma LeavesInNode(t: Tree, a: Page, b: Page, e: Page)
    requires WF(t) && 1 in t && t[1].parent == ROOT && t[1].run == [a, b] && t[1].snapshot && b != e
    ensures Blocked(t, [a, e])
  {
    var q := [a, e];
    assert UpOk(t, 1);
    assert Path(t, ROOT) == q[..0] && t[1].run[..1] == q[0..1];
    EndsInside(t, ROOT, 1, q, 0, 1);
  }

  /** Inserting it overwrites the node's link and breaks the tree. */
  method InsertBreaks(a: Page, b: Page, e: Page, hash: BlockHash, time: int) returns (c: Cache, c': Cache)
    requires b != e
    ensures CacheInv(c, Live(map[], map[])) && On(c.tree, 1, Device) && Blocked(c.tree, [a, e]) && !WF(c'.tree)
  {
    c := Marked(a, b, hash);
    LeavesInNode(c.tree, a, b, e);
    var last, inserted, broken;
    assert [a, e][..0] == [];
    c', last, inserted, broken := Insert(c, Live(map[], map[]), Device, [a, e], 0, [3, 4], time, ROOT);
  }
}
