/** Giving back device pages that have been written back to the host. */
module CacheDemote {
  import opened Prelude
  import opened PageTree
  import opened TreeEdits
  import opened TierState
  import opened TierEdits
  import opened TreeWalk
  import opened TreeFrames
  import opened BlockEvents
  import opened CacheState
  import opened CacheEvict

  /** Every demoted node is on the root path of n and still has its pages on the host. */
  ghost predicate HostCovers(t: Tree, n: NodeId, gone: seq<NodeId>)
    requires WF(t) && n in t
  {
    forall g :: g in gone ==> IsAnc(t, g, n) && On(t, g, Host)
  }

  /** A leaf of the device tier is in the index, so popping its key is what removing it does. */
  lemma LeafKey(t: Tree, m: Manager, n: NodeId)
    requires Indexed(t, m, Device) && IsLeaf(t, n, Device)
    ensures n in m.nodeTime && (m.nodeTime[n], n) in m.lru
    ensures RemoveLeaf(m, n) == PopLeaf(m, (m.nodeTime[n], n))
  {
  }

  /** Detach the device pages of one unlocked leaf and refresh its parent and grandparent. */
  method DemoteNode(ghost t0: Tree, t: Tree, ghost free0: seq<nat>, m: Manager, ghost refs: Refs, ghost gone: seq<NodeId>, y: NodeId)
    returns (t': Tree, m': Manager)
    requires EvictInv(t0, t, free0, m, Device, refs, gone, {})
    requires y in t && IsLeaf(t, y, Device) && Evictable(t, y, Device)
    ensures EvictInv(t0, t', free0, m', Device, refs, gone + [y], {}) && t'.Keys == t.Keys
    ensures SameShape(t, t') && forall x :: x in t ==> (On(t', x, Device) <==> On(t, x, Device) && x != y)
  {
    LeafKey(t, m, y);
    ghost var key := (m.nodeTime[y], y);
    ghost var m1 := AfterDetach(t, DetachRes(t, y, Device, t[y].snapshot), m, Device, key);
    t' := DetachRes(t, y, Device, t[y].snapshot);
    EvictRound(t0, t, free0, m, Device, refs, gone, {}, key, t[y].snapshot, t', m1);
    NoSelfParent(t, y);
    var p := t[y].parent;
    m' := RemoveLeaf(m, y);
    m' := UpdateLeaves(t', m'.(free := m'.free + PagesOn(t[y], Device)), Device, p);
    assert m' == UpdateLeaf(t', m1, Device, t'[p].parent);
    UpdateLeafRepairs(t', m1, Device, t'[p].parent, {});
    assert {} - {t'[p].parent} == {};
  }

  /** What holds between rounds of the climb from n, which has reached y. */
  ghost predicate Demoting(t0: Tree, t: Tree, free0: seq<nat>, m: Manager, refs: Refs, n: NodeId, y: NodeId, gone: seq<NodeId>) {
    && EvictInv(t0, t, free0, m, Device, refs, gone, {})
    && n in t0 && y in t && y in t0 && IsAnc(t0, y, n) && HostCovers(t0, n, gone)
    && OffBelow(t0, t, n, y)
  }

  /** Below y nothing on the root path of n is on the device any more. */
  ghost predicate OffBelow(t0: Tree, t: Tree, n: NodeId, y: NodeId)
    requires WF(t0) && n in t0 && y in t0
  {
    forall x :: IsAnc(t0, x, n) && t0[x].depth > t0[y].depth ==> !On(t, x, Device)
  }

  /** Where a climb must stop: the host lacks the node's pages, or it is locked, or a child still has device pages. */
  predicate Stuck(t: Tree, y: NodeId) {
    On(t, y, Device) && (!On(t, y, Host) || !Evictable(t, y, Device) || HasChildWithPages(t, y, Device))
  }

  /** The climb has given back everything on the root path of n up to a node where it had to stop, or all of it. */
  ghost predicate ClimbedOut(t0: Tree, t: Tree, n: NodeId)
    requires WF(t0) && n in t0
  {
    exists y {:trigger OffBelow(t0, t, n, y)} :: y in t0 && IsAnc(t0, y, n) && OffBelow(t0, t, n, y) && (y == ROOT || Stuck(t, y))
  }

  lemma AboveParent(t: Tree, x: NodeId, y: NodeId)
    requires WF(t) && y in t && y != ROOT && IsAnc(t, x, y)
    ensures x != y ==> x in t && t[y].parent in t && t[x].depth <= t[t[y].parent].depth
  {
    assert UpOk(t, y);
  }

  lemma OffBelowUp(t0: Tree, t: Tree, t': Tree, n: NodeId, y: NodeId, p: NodeId)
    requires WF(t0) && n in t0 && y in t0 && y != ROOT && IsAnc(t0, y, n) && p == t0[y].parent && p in t0
    requires OffBelow(t0, t, n, y) && !On(t', y, Device) && forall x :: x in t0 && On(t', x, Device) ==> On(t, x, Device)
    ensures OffBelow(t0, t', n, p)
  {
    forall x | IsAnc(t0, x, n) && t0[x].depth > t0[p].depth ensures !On(t', x, Device) {
      if t0[x].depth <= t0[y].depth {
        IsAncLinear(t0, x, y, n);
        AboveParent(t0, x, y);
      }
    }
  }

  /** One round: stop, pass by a node that is off the device, or demote the node and go on from its parent. */
  method DemoteStep(ghost t0: Tree, t: Tree, ghost free0: seq<nat>, m: Manager, ghost refs: Refs, ghost n: NodeId, y: NodeId,
                    ghost gone: seq<NodeId>, log: Log)
    returns (t': Tree, m': Manager, up: NodeId, ghost gone': seq<NodeId>, stop: bool, log': Log)
    requires Demoting(t0, t, free0, m, refs, n, y, gone) && y != ROOT && StillTold(log, t, log, t)
    ensures Demoting(t0, t', free0, m', refs, n, up, gone') && StillTold(log, t, log', t')
    ensures if stop then up == y && Stuck(t', y) else t0[up].depth < t0[y].depth
  {
    ClimbUp(t0, y, n);
    assert t[y].parent == t0[y].parent && t0[y].parent in t;
    t', m', up, gone', log' := t, m, t[y].parent, gone, log;
    stop := Stuck(t, y);
    if stop {
      up := y;
    } else if On(t, y, Device) {
      HostStays(t0, t, y, Elems(gone));
      t', m' := DemoteNode(t0, t, free0, m, refs, gone, y);
      log' := TellDemoted(log, t, t', y);
      OffBelowUp(t0, t, t', n, y, up);
      CoverMore(t0, n, gone, y);
      gone' := gone + [y];
      assert HostCovers(t0, n, gone');
    } else {
      OffBelowUp(t0, t, t, n, y, up);
    }
  }

  method TellDemoted(log: Log, ghost t0: Tree, t: Tree, y: NodeId) returns (log': Log)
    requires WF(t0) && WF(t) && SameShape(t0, t) && y in t && y != ROOT
    requires forall x :: x in t0 ==> (On(t, x, Device) <==> On(t0, x, Device) && x != y)
    ensures StillTold(log, t0, log', t)
  {
    assert Elems([y]) == {y};
    log' := PublishRemoved(log, t0, t, [y]);
  }

  lemma CoverMore(t: Tree, n: NodeId, gone: seq<NodeId>, y: NodeId)
    requires WF(t) && n in t && HostCovers(t, n, gone) && IsAnc(t, y, n) && On(t, y, Host)
    ensures HostCovers(t, n, gone + [y])
  {
  }

  /** Climb from n, giving back the device pages of nodes whose pages the host also has; stop at the first node
      that is off the host, locked, or has a child with device pages. */
  method ReleaseDeviceResourcesPresentOnHost(c: Cache, ghost live: Live, n: NodeId) returns (c': Cache, ghost gone: seq<NodeId>)
    requires CacheInv(c, live) && n in c.tree
    ensures CacheInv(c', live) && Shrinks(c.tree, c'.tree, Device)
    ensures Evicted(c.tree, c'.tree, Device, Elems(gone)) && HostCovers(c.tree, n, gone)
    ensures PagesIn(c', Device) == PagesIn(c, Device) && PagesIn(c', Host) == PagesIn(c, Host)
    ensures c'.host == c.host && c'.next == c.next && (NoSnapshots(c.tree) ==> NoSnapshots(c'.tree))
    ensures ClimbedOut(c.tree, c'.tree, n) && Keeps(c, c')
  {
    var t, m, y, log := c.tree, c.device, n, c.log;
    gone := [];
    EvictStart(t, m, Device, live.device);
    assert IsAnc(t, n, n);
    var stop := false;
    while y != ROOT && !stop
      invariant Demoting(c.tree, t, c.device.free, m, live.device, n, y, gone) && StillTold(c.log, c.tree, log, t)
      invariant stop ==> Stuck(t, y)
      decreases c.tree[y].depth, !stop
    {
      ghost var t1, log1 := t, log;
      t, m, y, gone, stop, log := DemoteStep(c.tree, t, c.device.free, m, live.device, n, y, gone, log);
      StillToldTrans(c.log, c.tree, log1, t1, log, t);
    }
    EvictDone(c, live, Device, t, m, Elems(gone));
    EvictedShrinks(c.tree, t, Device, live.device, Elems(gone));
    c' := c.(tree := t, device := m, log := log);
    LogFree(c.(tree := t, device := m), live, log);
  }

  lemma ClimbUp(t: Tree, y: NodeId, n: NodeId)
    requires WF(t) && y in t && n in t && y != ROOT && IsAnc(t, y, n)
    ensures t[y].parent in t && t[t[y].parent].depth < t[y].depth && IsAnc(t, t[y].parent, n)
  {
    assert UpOk(t, y);
    assert IsAnc(t, t[y].parent, t[y].parent) && IsAnc(t, t[y].parent, y);
    IsAncTrans(t, t[y].parent, y, n);
  }

  lemma HostStays(t0: Tree, t: Tree, y: NodeId, gone: set<NodeId>)
    requires Evicted(t0, t, Device, gone) && y in t0 && On(t, y, Host) && WF(t) && y != ROOT
    requires On(t, y, Device)
    ensures On(t0, y, Host) && Res(t[y], Device).value.pages != []
  {
    assert Res(t[y], Host) == Res(t0[y], Host);
    assert UpOk(t, y) && ResOk(t[y]);
  }

  // ---------------------------------------------------------------- no page of KV is lost

  /** Demotion loses no data: a path that loses its device page keeps its host page, and nothing else changes. */
  lemma DemoteKeepsData(t: Tree, t': Tree, n: NodeId, gone: seq<NodeId>, r: seq<Page>)
    requires WF(t) && WF(t') && n in t && Evicted(t, t', Device, Elems(gone)) && HostCovers(t, n, gone)
    ensures Lookup(t', r).Some? <==> Lookup(t, r).Some?
    ensures Lookup(t, r).Some? ==>
              var before, after := Lookup(t, r).value, Lookup(t', r).value;
              && after.host == before.host && after.hostRefs == before.hostRefs
              && (after.device != before.device ==> after.device.None? && before.host.Some?)
  {
    SameShapeDescend(t, t', r);
    if r != [] && Descend(t, r).Some? {
      var p := Descend(t, r).value;
      assert ResOk(t[p.node]);
      assert Res(t'[p.node], Host) == Res(t[p.node], Host);
      assert p.node in Elems(gone) <==> p.node in gone;
    }
  }
}
