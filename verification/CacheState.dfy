/** The state of the whole prefix cache, and the lemmas behind its operations. */
module CacheState {
  import opened Prelude
  import opened PageTree
  import opened TreeEdits
  import opened TierState
  import opened TierEdits
  import opened TreeWalk
  import opened TreeFrames
  import opened BlockEvents

  /** The cache: the tree, the next sequence id, per tier a pool and an index of leaves, and what its listener was told. */
  datatype Cache = Cache(tree: Tree, next: NodeId, device: Manager, host: Manager, log: Log)

  /** The live references of each tier. */
  datatype Live = Live(device: Refs, host: Refs)

  function Mgr(c: Cache, tier: Tier): Manager {
    match tier case Device => c.device case Host => c.host
  }

  function WithMgr(c: Cache, tier: Tier, m: Manager): Cache {
    match tier case Device => c.(device := m) case Host => c.(host := m)
  }

  function RefsOn(live: Live, tier: Tier): Refs {
    match tier case Device => live.device case Host => live.host
  }

  function WithRefs(live: Live, tier: Tier, refs: Refs): Live {
    match tier case Device => live.(device := refs) case Host => live.(host := refs)
  }

  function Other(tier: Tier): Tier {
    match tier case Device => Host case Host => Device
  }

  ghost predicate TierOk(c: Cache, live: Live, tier: Tier) {
    TierInv(c.tree, Mgr(c, tier), tier, RefsOn(live, tier))
  }

  /** A well-formed tree whose two tiers are closed, indexed and counted. */
  ghost predicate CacheInv(c: Cache, live: Live) {
    && WF(c.tree)
    && (forall n :: n in c.tree ==> n < c.next)
    && TierOk(c, live, Device)
    && TierOk(c, live, Host)
  }

  /** What was told plays no part in the cache invariant. */
  lemma LogFree(c: Cache, live: Live, log: Log)
    requires CacheInv(c, live)
    ensures CacheInv(c.(log := log), live)
  {
  }

  /** From one state of the cache to another the log grows and still tells everything. */
  ghost predicate Keeps(c: Cache, c': Cache) {
    StillTold(c.log, c.tree, c'.log, c'.tree)
  }

  lemma KeepsTrans(c: Cache, c1: Cache, c2: Cache)
    requires Keeps(c, c1) && Keeps(c1, c2)
    ensures Keeps(c, c2)
  {
    StillToldTrans(c.log, c.tree, c1.log, c1.tree, c2.log, c2.tree);
  }

  /** Nothing is told when the same blocks stay on the device. */
  lemma KeepsQuietly(c: Cache, c': Cache)
    requires WF(c.tree) && WF(c'.tree) && SameDevice(c.tree, c'.tree) && c'.log == c.log
    ensures Keeps(c, c')
  {
    ToldSame(c.log, c.tree, c'.tree);
  }

  lemma KeepsMeaning(c: Cache, c': Cache)
    requires SameMeaning(c.tree, c'.tree) && c'.log == c.log
    ensures Keeps(c, c')
  {
    SameTrieDevice(c.tree, c'.tree);
    KeepsQuietly(c, c');
  }

  /** Pages free or in the tree: what the cache is answerable for on a tier. */
  ghost function PagesIn(c: Cache, tier: Tier): multiset<nat> {
    multiset(Mgr(c, tier).free) + Bag(c.tree, tier)
  }

  /** The same trie with the same pages, in perhaps more nodes. */
  ghost predicate SameMeaning(t: Tree, t': Tree) {
    && WF(t) && WF(t') && Extends(t, t') && SameTrie(t, t')
    && Bag(t', Device) == Bag(t, Device) && Bag(t', Host) == Bag(t, Host)
    && (NoSnapshots(t) ==> NoSnapshots(t'))
  }

  lemma SameMeaningTrans(t: Tree, t1: Tree, t2: Tree)
    requires SameMeaning(t, t1) && SameMeaning(t1, t2)
    ensures SameMeaning(t, t2)
  {
    ExtendsTrans(t, t1, t2);
    forall r ensures Lookup(t2, r) == Lookup(t, r) { assert Lookup(t1, r) == Lookup(t, r); }
  }

  lemma JoinSlices(q: seq<Page>, m: nat, k: nat)
    requires m + k <= |q|
    ensures q[..m] + q[m..m + k] == q[..m + k]
  {
  }

  /** n is a resident node spelling a prefix of the query. */
  ghost predicate TierMatch(t: Tree, q: seq<Page>, tier: Tier, n: NodeId)
    requires WF(t)
  {
    n in t && (n == ROOT || On(t, n, tier)) && t[n].depth <= |q| && Path(t, n) == q[..t[n].depth]
  }

  /** One tier's running match: still following the walk, or left behind at its last resident node. */
  ghost predicate TierWalk(t: Tree, q: seq<Page>, tier: Tier, n: NodeId, alive: bool, cur: NodeId)
    requires WF(t)
  {
    && TierMatch(t, q, tier, n)
    && (alive ==> n == cur)
    && (!alive ==> t[n].depth < |q| && !Resident(t, q[..t[n].depth + 1], tier))
  }

  lemma TierWalkStep(t: Tree, t': Tree, q: seq<Page>, tier: Tier, n: NodeId, alive: bool, cur: NodeId, next: NodeId)
    requires WF(t) && WF(t') && Extends(t, t') && SameTrie(t, t')
    requires TierWalk(t, q, tier, n, alive, cur)
    requires cur in t && cur in t' && next in t' && next != ROOT && t'[next].parent == cur
    requires t'[cur].depth < t'[next].depth <= |q| && Path(t', next) == q[..t'[next].depth]
    requires Path(t', cur) == q[..t'[cur].depth]
    ensures var on := On(t', next, tier);
            TierWalk(t', q, tier, if alive && on then next else n, alive && on, next)
  {
    assert Kept(t, t', n, tier);
    if !alive {
      assert Lookup(t', q[..t[n].depth + 1]) == Lookup(t, q[..t[n].depth + 1]);
    } else if !On(t', next, tier) {
      assert UpOk(t', next);
      assert q[..t'[next].depth][t'[cur].depth] == t'[next].run[0];
      ChildResident(t', cur, q, tier);
    }
  }

  /** Where a walk that was not stopped ends, storage ends. */
  lemma WalkEnd(t0: Tree, t: Tree, q: seq<Page>, n: NodeId, m: nat)
    requires WF(t0) && WF(t) && SameTrie(t0, t) && n in t && m <= |q| && Path(t, n) == q[..m]
    requires m < |q| ==> q[m] !in t[n].children
    ensures StoredLen(t0, q) == m && StoredLen(t, q) == m
    ensures m < |q| ==> Descend(t, q[..m + 1]).None?
    ensures EqualButTime(t0, t) ==> !Blocked(t0, q)
  {
    DescendNode(t, n);
    if m < |q| { StepAtEnd(t, n, q, m); }
    StoredLenIs(t, q, m);
    SameTrieStored(t0, t, q);
    if EqualButTime(t0, t) { SameShapeDescend(t0, t, q[..m]); }
  }

  lemma TierWalkEnd(t: Tree, q: seq<Page>, tier: Tier, n: NodeId, alive: bool, cur: NodeId, m: nat)
    requires WF(t) && Closed(t, tier) && TierWalk(t, q, tier, n, alive, cur)
    requires cur in t && t[cur].depth == m && (m < |q| ==> Descend(t, q[..m + 1]).None?)
    ensures LongestResident(t, q, tier, t[n].depth)
  {
    NodeIsLongest(t, q, tier, n);
  }

  ghost predicate NoSnapshots(t: Tree) {
    forall n :: n in t ==> !t[n].snapshot
  }

  lemma SplitMarks(t: Tree, c: NodeId, k: nat, nu: NodeId)
    requires CanSplit(t, c, k, nu)
    ensures SplitNode(t, c, k, nu).Keys == t.Keys + {nu}
    ensures NoSnapshots(t) ==> NoSnapshots(SplitNode(t, c, k, nu))
  {
    NoSelfParent(t, c);
  }

  lemma SplitMeaning(t: Tree, c: NodeId, k: nat, nu: NodeId)
    requires CanSplit(t, c, k, nu)
    ensures SameMeaning(t, SplitNode(t, c, k, nu))
  {
    SplitExtends(t, c, k, nu);
    SplitBag(t, c, k, nu, Device);
    SplitBag(t, c, k, nu, Host);
    SplitMarks(t, c, k, nu);
  }

  lemma SplitInv(c: Cache, live: Live, n: NodeId, k: nat)
    requires CanSplit(c.tree, n, k, c.next) && CacheInv(c, live)
    ensures CacheInv(c.(tree := SplitNode(c.tree, n, k, c.next), next := c.next + 1), live)
  {
    SplitWF(c.tree, n, k, c.next);
    SplitTier(c.tree, n, k, c.next, c.device, Device, live.device);
    SplitTier(c.tree, n, k, c.next, c.host, Host, live.host);
    SplitMarks(c.tree, n, k, c.next);
  }

  lemma TouchAll(c: Cache, live: Live, t': Tree)
    requires CacheInv(c, live) && EqualButTime(c.tree, t')
    ensures CacheInv(c.(tree := t'), live) && SameMeaning(c.tree, t') && SameShape(c.tree, t')
    ensures forall x :: x in t' ==> Path(t', x) == Path(c.tree, x)
  {
    EqualButTimeFacts(c.tree, t');
    SameTierInv(c.tree, t', c.device, Device, live.device);
    SameTierInv(c.tree, t', c.host, Host, live.host);
    forall x | x in t' ensures Path(t', x) == Path(c.tree, x) { SameShapeFacts(c.tree, t', x, x); }
  }

  /** Everything the walk knows between rounds. */
  ghost predicate WalkInv(t0: Tree, t: Tree, q: seq<Page>, cur: NodeId, m: nat,
                          dNode: NodeId, dAlive: bool, hNode: NodeId, hAlive: bool, split: bool)
  {
    && SameMeaning(t0, t)
    && cur in t && m <= |q| && Path(t, cur) == q[..m]
    && TierWalk(t, q, Device, dNode, dAlive, cur)
    && TierWalk(t, q, Host, hNode, hAlive, cur)
    && (!split ==> EqualButTime(t0, t))
    && (split ==> m == StoredLen(t0, q) && !Blocked(t0, q))
  }

  lemma WalkStart(t: Tree, q: seq<Page>)
    requires WF(t)
    ensures WalkInv(t, t, q, ROOT, 0, ROOT, true, ROOT, true, false)
  {
    EqualButTimeFacts(t, t);
  }

  lemma WalkRound(t0: Tree, t: Tree, t': Tree, q: seq<Page>, cur: NodeId, m: nat,
                  dNode: NodeId, dAlive: bool, hNode: NodeId, hAlive: bool, split: bool, next: NodeId, k: nat)
    requires WalkInv(t0, t, q, cur, m, dNode, dAlive, hNode, hAlive, false)
    requires SameMeaning(t, t') && next in t' && next != ROOT && t'[next].parent == cur && cur in t'
    requires 0 < k && m + k <= |q| && Path(t', next) == q[..m + k] && Path(t', cur) == q[..m]
    requires !split ==> EqualButTime(t, t')
    requires split ==> m + k == StoredLen(t0, q) && !Blocked(t0, q)
    ensures var d, h := dAlive && On(t', next, Device), hAlive && On(t', next, Host);
            WalkInv(t0, t', q, next, m + k, if d then next else dNode, d, if h then next else hNode, h, split)
  {
    SameMeaningTrans(t0, t, t');
    TierWalkStep(t, t', q, Device, dNode, dAlive, cur, next);
    TierWalkStep(t, t', q, Host, hNode, hAlive, cur, next);
  }

  /** What a walk reports: the terminal, and per tier the last resident node of the query. */
  ghost predicate WalkResult(t0: Tree, t: Tree, q: seq<Page>, terminal: NodeId, m: nat, dNode: NodeId, hNode: NodeId) {
    && SameMeaning(t0, t)
    && terminal in t && m <= |q| && Path(t, terminal) == q[..m]
    && (m == StoredLen(t0, q) <==> !Blocked(t0, q))
    && TierMatch(t, q, Device, dNode) && TierMatch(t, q, Host, hNode)
    && (!Blocked(t0, q) ==>
          && (m < |q| ==> q[m] !in t[terminal].children)
          && LongestResident(t, q, Device, t[dNode].depth)
          && LongestResident(t, q, Host, t[hNode].depth))
  }

  lemma WalkFinish(t0: Tree, t: Tree, q: seq<Page>, cur: NodeId, m: nat,
                   dNode: NodeId, dAlive: bool, hNode: NodeId, hAlive: bool, split: bool)
    requires WalkInv(t0, t, q, cur, m, dNode, dAlive, hNode, hAlive, split)
    requires Closed(t, Device) && Closed(t, Host)
    requires m < |q| ==> q[m] !in t[cur].children
    ensures WalkResult(t0, t, q, cur, m, dNode, hNode)
  {
    WalkEnd(t0, t, q, cur, m);
    TierWalkEnd(t, q, Device, dNode, dAlive, cur, m);
    TierWalkEnd(t, q, Host, hNode, hAlive, cur, m);
  }

  /** Stopped by a snapshot or at the end of storage, the walk reports what it promises. */
  lemma WalkOver(t0: Tree, t: Tree, q: seq<Page>, cur: NodeId, m: nat,
                 dNode: NodeId, dAlive: bool, hNode: NodeId, hAlive: bool, split: bool, stop: bool)
    requires WalkInv(t0, t, q, cur, m, dNode, dAlive, hNode, hAlive, split)
    requires Closed(t, Device) && Closed(t, Host)
    requires stop ==> Blocked(t0, q) && m < StoredLen(t0, q)
    requires !stop && m < |q| ==> q[m] !in t[cur].children
    ensures WalkResult(t0, t, q, cur, m, dNode, hNode)
  {
    if !stop { WalkFinish(t0, t, q, cur, m, dNode, dAlive, hNode, hAlive, split); }
  }

  /** While a child can still be entered nothing has been split. */
  lemma MidWalk(t0: Tree, t: Tree, q: seq<Page>, n: NodeId, m: nat, split: bool)
    requires WF(t0) && WF(t) && SameTrie(t0, t) && n in t && m < |q| && Path(t, n) == q[..m]
    requires q[m] in t[n].children
    requires split ==> m == StoredLen(t0, q)
    ensures !split
    ensures var c := t[n].children[q[m]]; c in t && c != ROOT && t[c].parent == n && t[c].run != [] && t[c].run[0] == q[m]
  {
    assert DownOk(t, n, q[m]);
    SameTrieStored(t0, t, q);
    StepAtEnd(t, n, q, m);
    StoredLenMax(t, q, m + 1);
  }

  /** A child left part way tells whether the walk is blocked there. */
  lemma PartWay(t0: Tree, t: Tree, q: seq<Page>, n: NodeId, m: nat, c: NodeId, k: nat)
    requires WF(t0) && WF(t) && SameTrie(t0, t) && EqualButTime(t0, t) && n in t && m < |q| && Path(t, n) == q[..m]
    requires c in t && c != ROOT && t[c].parent == n && Agree(t[c].run, q, m, k) && k < |t[c].run|
    ensures StoredLen(t0, q) == m + k && (Blocked(t0, q) <==> t[c].snapshot)
  {
    StoredInside(t, n, c, q, m, k);
    SameTrieStored(t0, t, q);
    SameShapeDescend(t0, t, q[..m + k]);
    BlockedAt(t0, q, m + k, Pos(c, k));
  }

  /** Find the child to enter and how far it agrees with the query; stop at a snapshot that would have to be split. */
  method NextChild(ghost t0: Tree, t: Tree, q: seq<Page>, cur: NodeId, m: nat, ghost split: bool)
    returns (c: NodeId, k: nat, stop: bool)
    requires WF(t0) && WF(t) && SameTrie(t0, t) && cur in t && m < |q| && Path(t, cur) == q[..m]
    requires q[m] in t[cur].children
    requires !split ==> EqualButTime(t0, t)
    requires split ==> m == StoredLen(t0, q)
    ensures !split && c in t && c != ROOT && t[c].parent == cur && Agree(t[c].run, q, m, k)
    ensures stop ==> Blocked(t0, q) && StoredLen(t0, q) == m + k
    ensures !stop && k < |t[c].run| ==> m + k == StoredLen(t0, q) && !Blocked(t0, q)
  {
    MidWalk(t0, t, q, cur, m, split);
    c := t[cur].children[q[m]];
    k := MatchedPages(t[c].run, q[m..]);
    MatchedAgree(t[c].run, q, m);
    stop := k < |t[c].run| && t[c].snapshot;
    if k < |t[c].run| { PartWay(t0, t, q, cur, m, c, k); }
  }

  lemma SplitPaths(t: Tree, c: NodeId, k: nat, nu: NodeId)
    requires CanSplit(t, c, k, nu)
    ensures var t' := SplitNode(t, c, k, nu);
            && WF(t') && t[c].parent in t && t'[nu].parent == t[c].parent
            && Path(t', t[c].parent) == Path(t, t[c].parent)
            && Path(t', nu) == Path(t, t[c].parent) + t[c].run[..k]
  {
    NoSelfParent(t, c);
    SplitNodeFacts(t, c, k, nu, t[c].parent, Device);
    assert UpOk(SplitNode(t, c, k, nu), nu);
  }
}
