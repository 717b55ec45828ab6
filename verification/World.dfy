/** The scheduler's whole state: the cache and all requests, and what every step of every request keeps of it. */
module World {
  import opened Prelude
  import opened PageTree
  import opened TreeEdits
  import opened TierState
  import opened TreeWalk
  import opened TreeFrames
  import opened BlockEvents
  import opened CacheState
  import opened CacheRefs
  import opened WriteBack
  import opened RequestState
  import opened RequestSteps

  type Requests = map<string, Request>

  ghost function OwnHandles(reqs: Requests): set<Handle> {
    set id | id in reqs :: Own(id)
  }

  /** The references the requests hold on a tier. */
  ghost function TierRefs(reqs: Requests, tier: Tier): Refs {
    map h | h in OwnHandles(reqs) && RefOf(reqs[h.id], tier).Some? :: RefOf(reqs[h.id], tier).value
  }

  ghost function LiveOf(reqs: Requests): Live {
    Live(TierRefs(reqs, Device), TierRefs(reqs, Host))
  }

  ghost function Locals(reqs: Requests): map<string, seq<nat>> {
    map id | id in reqs :: reqs[id].local
  }

  /** Page ids 1 to total - 1; id 0 is never given out. */
  function PageIds(total: nat): (s: seq<nat>)
    ensures |s| == if total == 0 then 0 else total - 1
    ensures forall i :: 0 <= i < |s| ==> s[i] == i + 1
  {
    seq(if total == 0 then 0 else total - 1, i => i + 1)
  }

  /** Every device page is in exactly one place: free, in the tree, or in one request's allocator; host pages likewise,
      but that requests hold none of their own. */
  ghost predicate Conserved(c: Cache, reqs: Requests, deviceTotal: nat, hostTotal: nat) {
    && PagesIn(c, Device) + Gather(Locals(reqs)) == multiset(PageIds(deviceTotal))
    && PagesIn(c, Host) == multiset(PageIds(hostTotal))
  }

  ghost predicate AllReqsOk(t: Tree, reqs: Requests, size: nat) {
    forall id {:trigger ReqOk(t, reqs[id], size)} :: id in reqs ==> ReqOk(t, reqs[id], size)
  }

  ghost predicate WorldInv(c: Cache, reqs: Requests, size: nat, deviceTotal: nat, hostTotal: nat) {
    && size > 0
    && CacheInv(c, LiveOf(reqs)) && NoSnapshots(c.tree)
    && AllReqsOk(c.tree, reqs, size)
    && Conserved(c, reqs, deviceTotal, hostTotal)
    && Told(c.log, c.tree)
  }

  // ---------------------------------------------------------------- one request among all

  lemma TierRefsAt(reqs: Requests, tier: Tier, id: string)
    ensures Own(id) in TierRefs(reqs, tier) <==> id in reqs && RefOf(reqs[id], tier).Some?
    ensures id in reqs && RefOf(reqs[id], tier).Some? ==> TierRefs(reqs, tier)[Own(id)] == RefOf(reqs[id], tier).value
  {
    if id in reqs { assert Own(id) in OwnHandles(reqs); }
  }

  /** Changing one request changes just its own handle. */
  lemma TierRefsUpdate(reqs: Requests, tier: Tier, id: string, r: Request)
    ensures TierRefs(reqs[id := r], tier) == Rehold(TierRefs(reqs, tier), id, RefOf(r, tier))
  {
    var a, b := TierRefs(reqs[id := r], tier), Rehold(TierRefs(reqs, tier), id, RefOf(r, tier));
    forall h: Handle ensures (h in a <==> h in b) && (h in a ==> a[h] == b[h]) {
      if h.Own? {
        TierRefsAt(reqs[id := r], tier, h.id);
        TierRefsAt(reqs, tier, h.id);
      }
    }
  }

  lemma LiveUpdate(reqs: Requests, id: string, r: Request)
    ensures LiveOf(reqs[id := r]) == After(LiveOf(reqs), id, r)
  {
    TierRefsUpdate(reqs, Device, id, r);
    TierRefsUpdate(reqs, Host, id, r);
  }

  /** A step of a request may start from any state of the world. */
  lemma WorldBegin(c: Cache, reqs: Requests, id: string, size: nat, deviceTotal: nat, hostTotal: nat)
    requires WorldInv(c, reqs, size, deviceTotal, hostTotal) && id in reqs
    ensures Begin(c, LiveOf(reqs), id, reqs[id], size) && PhaseOk(c.tree, reqs[id], size)
  {
    assert ReqOk(c.tree, reqs[id], size);
    LiveUpdate(reqs, id, reqs[id]);
    assert reqs[id := reqs[id]] == reqs;
  }

  lemma OtherReqKept(t: Tree, t': Tree, reqs: Requests, id: string, o: string, size: nat)
    requires AllReqsOk(t, reqs, size) && o in reqs && o != id && WF(t')
    requires OthersKept(t, t', LiveOf(reqs), id)
    ensures ReqOk(t', reqs[o], size)
  {
    TierRefsAt(reqs, Device, o);
    TierRefsAt(reqs, Host, o);
    assert ReqOk(t, reqs[o], size);
    var live := LiveOf(reqs);
    if reqs[o].dev.Some? { assert HandleKept(t, t', live.device[Own(o)], Device); }
    if reqs[o].host.Some? { assert HandleKept(t, t', live.host[Own(o)], Host); }
    ReqKept(t, t', reqs[o], size);
  }

  lemma LocalsUpdate(reqs: Requests, id: string, r: Request, total: multiset<nat>, pages: multiset<nat>, pages': multiset<nat>)
    requires id in reqs && pages + Gather(Locals(reqs)) == total
    requires pages' + multiset(r.local) == pages + multiset(reqs[id].local)
    ensures pages' + Gather(Locals(reqs[id := r])) == total
  {
    assert Locals(reqs[id := r]) == Locals(reqs)[id := r.local];
    GatherUpdate(Locals(reqs), id, r.local);
    Cancel(pages', pages, Gather(Locals(reqs[id := r])), Gather(Locals(reqs)), multiset(r.local), multiset(reqs[id].local));
  }

  lemma Cancel(p': multiset<nat>, p: multiset<nat>, g': multiset<nat>, g: multiset<nat>, x': multiset<nat>, x: multiset<nat>)
    requires p' + x' == p + x && g' + x == g + x'
    ensures p' + g' == p + g
  {
    forall k ensures (p' + g')[k] == (p + g)[k] {
      assert (p' + x')[k] == (p + x)[k] && (g' + x)[k] == (g + x')[k];
    }
  }

  /** What a step does to its own request and keeps for the others is an invariant of the world. */
  lemma WorldStep(c: Cache, reqs: Requests, id: string, c': Cache, r': Request, size: nat, deviceTotal: nat, hostTotal: nat)
    requires WorldInv(c, reqs, size, deviceTotal, hostTotal) && id in reqs
    requires StepOk(c, LiveOf(reqs), id, reqs[id], c', r', size) && PhaseOk(c'.tree, r', size)
    ensures WorldInv(c', reqs[id := r'], size, deviceTotal, hostTotal)
  {
    LiveUpdate(reqs, id, r');
    LocalsUpdate(reqs, id, r', multiset(PageIds(deviceTotal)), PagesIn(c, Device), PagesIn(c', Device));
    var reqs': Requests := reqs[id := r'];
    forall o | o in reqs' ensures ReqOk(c'.tree, reqs'[o], size) {
      if o != id { OtherReqKept(c.tree, c'.tree, reqs, id, o, size); }
    }
  }

  // ---------------------------------------------------------------- requests come and go

  lemma LiveSubmit(reqs: Requests, id: string, r: Request)
    requires id !in reqs && Bare(r)
    ensures LiveOf(reqs[id := r]) == LiveOf(reqs)
  {
    LiveUpdate(reqs, id, r);
    TierRefsAt(reqs, Device, id);
    TierRefsAt(reqs, Host, id);
  }

  lemma LocalsSubmit(reqs: Requests, id: string, r: Request)
    requires id !in reqs && Bare(r)
    ensures Gather(Locals(reqs[id := r])) == Gather(Locals(reqs))
  {
    assert Locals(reqs[id := r]) == Locals(reqs)[id := []];
    GatherAdd(Locals(reqs), id, []);
  }

  lemma WorldSubmit(c: Cache, reqs: Requests, id: string, r: Request, size: nat, deviceTotal: nat, hostTotal: nat)
    requires WorldInv(c, reqs, size, deviceTotal, hostTotal) && id !in reqs
    requires r.phase == Submitted && Bare(r) && r.prefill <= |r.tokens|
    ensures WorldInv(c, reqs[id := r], size, deviceTotal, hostTotal)
  {
    LiveSubmit(reqs, id, r);
    LocalsSubmit(reqs, id, r);
    var reqs': Requests := reqs[id := r];
    forall o | o in reqs' ensures ReqOk(c.tree, reqs'[o], size) {
      if o != id { assert ReqOk(c.tree, reqs[o], size); }
    }
  }

  lemma LiveErase(reqs: Requests, id: string)
    requires id in reqs && Bare(reqs[id])
    ensures LiveOf(reqs - {id}) == LiveOf(reqs) && Gather(Locals(reqs - {id})) == Gather(Locals(reqs))
  {
    EraseRefs(reqs, id, Device);
    EraseRefs(reqs, id, Host);
    assert Locals(reqs - {id}) == Locals(reqs) - {id};
    GatherRemove(Locals(reqs), id);
  }

  lemma WorldErase(c: Cache, reqs: Requests, id: string, size: nat, deviceTotal: nat, hostTotal: nat)
    requires WorldInv(c, reqs, size, deviceTotal, hostTotal) && id in reqs && reqs[id].phase == Finished
    ensures WorldInv(c, reqs - {id}, size, deviceTotal, hostTotal)
  {
    var reqs' := reqs - {id};
    assert ReqOk(c.tree, reqs[id], size);
    LiveErase(reqs, id);
    forall o | o in reqs' ensures ReqOk(c.tree, reqs'[o], size) { assert ReqOk(c.tree, reqs[o], size); }
  }

  lemma EraseRefs(reqs: Requests, id: string, tier: Tier)
    requires id in reqs && RefOf(reqs[id], tier).None?
    ensures TierRefs(reqs - {id}, tier) == TierRefs(reqs, tier)
  {
    var a, b := TierRefs(reqs - {id}, tier), TierRefs(reqs, tier);
    forall h: Handle ensures (h in a <==> h in b) && (h in a ==> a[h] == b[h]) {
      if h.Own? {
        TierRefsAt(reqs - {id}, tier, h.id);
        TierRefsAt(reqs, tier, h.id);
      }
    }
  }
}
