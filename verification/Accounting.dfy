/** What the scheduler's invariant means for physical pages and for copies in flight. */
module Accounting {
  import opened Prelude
  import opened PageTree
  import opened TierState
  import opened TreeFrames
  import opened BlockEvents
  import opened CacheState
  import opened CacheInsert
  import opened WriteBack
  import opened RequestState
  import opened RequestSteps
  import opened World
  import opened SchedulerState

  // ---------------------------------------------------------------- the partition of page ids

  lemma {:induction false} PageIdsOnce(total: nat, p: nat)
    ensures multiset(PageIds(total))[p] == if 1 <= p < total then 1 else 0
  {
    if total > 1 {
      PageIdsOnce(total - 1, p);
      assert PageIds(total) == PageIds(total - 1) + [total - 1];
    } else {
      assert PageIds(total) == [];
    }
  }

  /** No page is lost and none is in two places: each id from 1 on is exactly once either free, or in the tree, or with one request. */
  lemma PagesPartitioned(c: Cache, reqs: Requests, deviceTotal: nat, hostTotal: nat, p: nat)
    requires Conserved(c, reqs, deviceTotal, hostTotal)
    ensures multiset(c.device.free)[p] + Bag(c.tree, Device)[p] + Gather(Locals(reqs))[p] == if 1 <= p < deviceTotal then 1 else 0
    ensures multiset(c.host.free)[p] + Bag(c.tree, Host)[p] == if 1 <= p < hostTotal then 1 else 0
  {
    PageIdsOnce(deviceTotal, p);
    PageIdsOnce(hostTotal, p);
    assert (PagesIn(c, Device) + Gather(Locals(reqs)))[p] == multiset(PageIds(deviceTotal))[p];
    assert PagesIn(c, Host)[p] == multiset(PageIds(hostTotal))[p];
  }

  // ---------------------------------------------------------------- the run-time memory check

  /** The scheduler's own check of its device memory: no page with two requests or twice with one, none twice in the tree,
      the counts add up, and all ids are in range. The tree's pages are counted without repetition. */
  ghost predicate CheckDeviceMem(c: Cache, reqs: Requests, deviceTotal: nat) {
    var tree, own := Bag(c.tree, Device), Gather(Locals(reqs));
    && (forall p: nat :: own[p] <= 1)
    && (forall p: nat :: tree[p] <= 1)
    && |Support(tree)| + |own| + |c.device.free| == (if deviceTotal == 0 then 0 else deviceTotal - 1)
    && (forall p: nat :: p in own || p in tree ==> 1 <= p < deviceTotal)
  }

  ghost function Support(b: multiset<nat>): set<nat> {
    set p | p in b
  }

  /** Without repetitions, counting distinct elements counts all of them. */
  lemma {:induction false} SupportSize(b: multiset<nat>)
    requires forall p: nat :: b[p] <= 1
    ensures |Support(b)| == |b|
    decreases |b|
  {
    if |b| > 0 {
      var p :| p in b;
      var b' := b - multiset{p};
      forall x: nat ensures b'[x] <= 1 { assert b[x] <= 1; }
      SupportSize(b');
      assert b[p] <= 1;
      assert Support(b) == Support(b') + {p};
      assert b == b' + multiset{p};
    } else {
      assert Support(b) == {};
    }
  }

  lemma MultisetSize(a: multiset<nat>, b: multiset<nat>, s: seq<nat>, all: seq<nat>)
    requires multiset(s) + a + b == multiset(all)
    ensures |s| + |a| + |b| == |all|
  {
    assert |multiset(s)| == |s| && |multiset(all)| == |all|;
    assert |multiset(s) + a + b| == |multiset(s)| + |a| + |b|;
  }

  /** The run-time check can never fail. */
  lemma CheckNeverFails(c: Cache, reqs: Requests, deviceTotal: nat, hostTotal: nat)
    requires Conserved(c, reqs, deviceTotal, hostTotal)
    ensures CheckDeviceMem(c, reqs, deviceTotal)
  {
    forall p: nat ensures Bag(c.tree, Device)[p] + Gather(Locals(reqs))[p] <= if 1 <= p < deviceTotal then 1 else 0 {
      PagesPartitioned(c, reqs, deviceTotal, hostTotal, p);
    }
    SupportSize(Bag(c.tree, Device));
    MultisetSize(Bag(c.tree, Device), Gather(Locals(reqs)), c.device.free, PageIds(deviceTotal));
  }

  // ---------------------------------------------------------------- copies in flight

  /** Whatever was matched, inserted, split, evicted or demoted since it was captured, each pair of a pending write-back
      still names the device page and the host page of one stored path of its request. */
  lemma CapturedPairsHold(c: Cache, reqs: Requests, size: nat, deviceTotal: nat, hostTotal: nat, id: string, p: (nat, nat))
    returns (r: seq<Page>)
    requires WorldInv(c, reqs, size, deviceTotal, hostTotal) && id in reqs && p in reqs[id].pairs
    ensures r <= FullPages(reqs[id].tokens, size) && Lookup(c.tree, r).Some?
    ensures Lookup(c.tree, r).value.device == Some(p.0) && Lookup(c.tree, r).value.host == Some(p.1)
    ensures Lookup(c.tree, r).value.deviceRefs > 0 && Lookup(c.tree, r).value.hostRefs > 0
  {
    assert ReqOk(c.tree, reqs[id], size);
    var n := reqs[id].dev.value;
    assert PairAt(c.tree, n, p);
    assert n != ROOT;
    HeldOn(c, reqs, Device, id, n);
    HeldOn(c, reqs, Host, id, n);
    var j;
    r, j := PlaceOfPair(c.tree, n, p);
    PlaceLocked(c, reqs, Device, id, n, j);
    PlaceLocked(c, reqs, Host, id, n, j);
  }

  /** Every copy the executor may still be making, unless it has gone stale, is between the device page and the host page of one
      stored path of its request, locked on both tiers. */
  lemma OutstandingCopyHolds(c: Cache, reqs: Requests, k: Setup, ops: map<nat, string>, flights: map<nat, seq<(nat, nat)>>, stale: set<nat>,
                             next: nat, op: nat, p: (nat, nat)) returns (r: seq<Page>)
    requires Sane(c, reqs, k) && CopiesOk(reqs, ops, flights, stale, next) && k.cfg.size > 0
    requires op in ops && op !in stale && op in flights && p in flights[op]
    ensures WF(c.tree) && ops[op] in reqs && r <= FullPages(reqs[ops[op]].tokens, k.cfg.size) && Lookup(c.tree, r).Some?
    ensures Lookup(c.tree, r).value.device == Some(p.0) && Lookup(c.tree, r).value.host == Some(p.1)
    ensures Lookup(c.tree, r).value.deviceRefs > 0 && Lookup(c.tree, r).value.hostRefs > 0
  {
    CopiesWait(reqs, ops, flights, stale, next, op);
    SaneWorld(c, reqs, k);
    r := CapturedPairsHold(c, reqs, k.cfg.size, k.deviceTotal, k.hostTotal, ops[op], p);
  }

  /** Nothing stays locked that no request holds: every locked node lies on the path some request holds on that tier. */
  lemma LockedByRequest(c: Cache, reqs: Requests, size: nat, deviceTotal: nat, hostTotal: nat, tier: Tier, n: NodeId) returns (id: string)
    requires WorldInv(c, reqs, size, deviceTotal, hostTotal) && n in c.tree && Locked(c.tree, n, tier)
    ensures id in reqs && RefOf(reqs[id], tier).Some? && RefOf(reqs[id], tier).value in c.tree
    ensures IsAnc(c.tree, n, RefOf(reqs[id], tier).value)
  {
    var h := LockedIsHeld(c.tree, tier, TierRefs(reqs, tier), n);
    id := h.id;
    TierRefsAt(reqs, tier, id);
  }

  /** Whoever replays every event the cache has published, from nothing, holds exactly the chained hashes of the blocks that
      are on the device, if hashes tell paths apart. */
  lemma EventsExact(c: Cache, reqs: Requests, size: nat, deviceTotal: nat, hostTotal: nat)
    requires WorldInv(c, reqs, size, deviceTotal, hostTotal) && Injective(c.log.hash)
    ensures forall q {:trigger Chained(c.log.hash, q)} :: q != [] && Resident(c.tree, q, Device) ==> Chained(c.log.hash, q).value in Replay(c.log.events)
    ensures forall b :: b in Replay(c.log.events) ==>
              exists q {:trigger OnDevice(c.tree, q)} :: q != [] && Resident(c.tree, q, Device) && OnDevice(c.tree, q) && Chained(c.log.hash, q) == Some(b)
  {
    var held :| TellsAll(c.log, c.tree, held);
    forall q | q != [] && Resident(c.tree, q, Device) ensures Chained(c.log.hash, q).value in held {
      OnDeviceIsResident(c.tree, q);
    }
    forall b | b in held
      ensures exists q {:trigger OnDevice(c.tree, q)} :: q != [] && Resident(c.tree, q, Device) && OnDevice(c.tree, q) && Chained(c.log.hash, q) == Some(b)
    {
      var q :| OnDevice(c.tree, q) && Chained(c.log.hash, q) == Some(b);
      OnDeviceIsResident(c.tree, q);
    }
  }

  lemma HeldOn(c: Cache, reqs: Requests, tier: Tier, id: string, n: NodeId)
    requires CacheInv(c, LiveOf(reqs)) && id in reqs && RefOf(reqs[id], tier) == Some(n) && n != ROOT
    ensures On(c.tree, n, tier)
  {
    TierRefsAt(reqs, tier, id);
  }

  lemma PlaceOfPair(t: Tree, n: NodeId, p: (nat, nat)) returns (r: seq<Page>, j: nat)
    requires WF(t) && Closed(t, Device) && Closed(t, Host) && On(t, n, Device) && On(t, n, Host) && PairAt(t, n, p)
    ensures j < |Path(t, n)| && r == Path(t, n)[..j + 1] && Lookup(t, r).Some?
    ensures Lookup(t, r).value.device == Some(p.0) && Lookup(t, r).value.host == Some(p.1)
  {
    var i :| 0 <= i < |Chain(t, n, Device)| && i < |Chain(t, n, Host)|
             && Chain(t, n, Device)[i] == p.0 && Chain(t, n, Host)[i] == p.1;
    ChainCell(t, n, Device, i);
    ChainCell(t, n, Host, i);
    r, j := Path(t, n)[..i + 1], i;
  }

  lemma PlaceLocked(c: Cache, reqs: Requests, tier: Tier, id: string, n: NodeId, j: nat)
    requires CacheInv(c, LiveOf(reqs)) && id in reqs && RefOf(reqs[id], tier) == Some(n)
    requires n in c.tree && j < |Path(c.tree, n)|
    ensures Lookup(c.tree, Path(c.tree, n)[..j + 1]).Some?
    ensures var cell := Lookup(c.tree, Path(c.tree, n)[..j + 1]).value;
            match tier case Device => cell.deviceRefs > 0 case Host => cell.hostRefs > 0
  {
    TierRefsAt(reqs, tier, id);
    var a := PlaceOnPath(c.tree, n, j + 1);
    HeldIsLocked(c.tree, tier, TierRefs(reqs, tier), Own(id), a);
  }
}
