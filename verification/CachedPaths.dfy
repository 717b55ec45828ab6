/** Paths that a tier holds from end to end, and what keeps them so. */
module CachedPaths {
  import opened PageTree
  import opened TierState
  import opened TreeWalk
  import opened TreeFrames
  import opened BlockEvents
  import opened CacheState
  import opened CacheRefs

  /** n is resident and its path runs through q. */
  ghost predicate CachedAt(t: Tree, n: NodeId, q: seq<Page>, tier: Tier)
    requires WF(t)
  {
    n in t && q <= Path(t, n) && (n == ROOT || On(t, n, tier))
  }

  ghost predicate Cached(t: Tree, q: seq<Page>, tier: Tier) {
    WF(t) && exists n {:trigger CachedAt(t, n, q, tier)} :: CachedAt(t, n, q, tier)
  }

  /** Every page of a cached path is resident. */
  lemma CachedResident(t: Tree, q: seq<Page>, tier: Tier, j: nat)
    requires Cached(t, q, tier) && Closed(t, tier) && j <= |q|
    ensures Resident(t, q[..j], tier)
  {
    var n :| CachedAt(t, n, q, tier);
    PathResident(t, n, tier, j);
    assert Path(t, n)[..j] == q[..j];
  }

  lemma ShorterPrefix(q: seq<Page>, a: nat, b: nat)
    requires a <= b <= |q|
    ensures q[..b][..a] == q[..a]
  {
  }

  /** No page of a tier lies below the tier's longest resident prefix. */
  lemma {:induction false} ChainStops(t: Tree, q: seq<Page>, tier: Tier, d: NodeId, stop: nat)
    requires WF(t) && Closed(t, tier) && d in t && t[d].depth <= |q| && Path(t, d) == q[..t[d].depth]
    requires LongestResident(t, q, tier, stop)
    ensures |Chain(t, d, tier)| <= stop
    decreases t[d].depth
  {
    if d == ROOT || On(t, d, tier) {
      ChainLength(t, d, tier);
      if t[d].depth > stop {
        ShorterPrefix(q, stop + 1, t[d].depth);
        PathResident(t, d, tier, stop + 1);
      }
    } else {
      assert UpOk(t, d);
      var p := t[d].parent;
      assert Path(t, p) == q[..t[d].depth][..t[p].depth] == q[..t[p].depth];
      ChainStops(t, q, tier, p, stop);
    }
  }

  /** The longest device prefix stays the longest while its node stays and nothing comes onto the device. */
  lemma LongestStays(t: Tree, t': Tree, q: seq<Page>, d: NodeId, m: nat)
    requires WF(t) && WF(t') && Closed(t', Device) && NoneGained(t, t') && LongestResident(t, q, Device, m)
    requires TierMatch(t', q, Device, d) && t'[d].depth == m
    ensures LongestResident(t', q, Device, m)
  {
    if m < |q| {
      OnDeviceIsResident(t, q[..m + 1]);
      OnDeviceIsResident(t', q[..m + 1]);
    }
    NodeIsLongest(t', q, Device, d);
  }

  lemma CachedKept(t: Tree, t': Tree, q: seq<Page>, tier: Tier)
    requires Cached(t, q, tier) && TierKept(t, t', tier)
    ensures Cached(t', q, tier)
  {
    var n :| CachedAt(t, n, q, tier);
    assert Kept(t, t', n, tier);
    assert CachedAt(t', n, q, tier);
  }

  /** A match of a cached path reaches its end. */
  lemma CachedMatch(t: Tree, q: seq<Page>, tier: Tier, n: NodeId)
    requires Cached(t, q, tier) && Closed(t, tier) && TierMatch(t, q, tier, n) && LongestResident(t, q, tier, t[n].depth)
    ensures Path(t, n) == q
  {
    if t[n].depth < |q| { CachedResident(t, q, tier, t[n].depth + 1); }
  }

  lemma TierKeptTrans(t: Tree, t1: Tree, t2: Tree, tier: Tier)
    requires TierKept(t, t1, tier) && TierKept(t1, t2, tier)
    ensures TierKept(t, t2, tier)
  {
    forall m | m in t && (m == ROOT || On(t, m, tier)) ensures Kept(t, t2, m, tier) {
      assert Kept(t, t1, m, tier) && Kept(t1, t2, m, tier);
    }
  }

  lemma ExtendsKeeps(t: Tree, t': Tree, tier: Tier)
    requires WF(t) && WF(t') && Extends(t, t')
    ensures TierKept(t, t', tier)
  {
  }

  /** What a match finds: the longest prefix each tier has, or nothing when matching is switched off. */
  ghost predicate Best(t: Tree, q: seq<Page>, dm: nat, hm: nat, bypass: bool)
    requires WF(t)
  {
    if bypass then dm == 0 && hm == 0 else LongestResident(t, q, Device, dm) && LongestResident(t, q, Host, hm)
  }

  lemma BestSame(t: Tree, t': Tree, q: seq<Page>, dm: nat, hm: nat, bypass: bool)
    requires WF(t) && WF(t') && SameTrie(t, t')
    ensures Best(t, q, dm, hm, bypass) <==> Best(t', q, dm, hm, bypass)
  {
    forall j, tier | 0 <= j <= |q| ensures Resident(t', q[..j], tier) <==> Resident(t, q[..j], tier) {
      assert Lookup(t', q[..j]) == Lookup(t, q[..j]);
    }
  }
}
