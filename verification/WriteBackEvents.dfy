/** Leaving the device: finishing, retracting, aborting, and the write-backs in between. */
module WriteBackEvents {
  import opened Prelude
  import opened PageTree
  import opened TreeEdits
  import opened TierState
  import opened TreeWalk
  import opened TreeFrames
  import opened CacheState
  import opened CacheAttach
  import opened CacheRefs
  import opened CachedPaths
  import opened WriteBack
  import opened LocalPages
  import opened RequestState
  import opened RequestSteps
  import opened PrefillEvents

  // ---------------------------------------------------------------- letting go

  /** The request drops everything it holds. */
  method Retire(c: Cache, ghost live: Live, ghost id: string, r: Request, ghost size: nat) returns (c': Cache, r': Request)
    requires Begin(c, live, id, r, size) && r.prefill <= |r.tokens|
    ensures StepOk(c, live, id, r, c', r', size) && PhaseOk(c'.tree, r', size)
    ensures r'.phase == Finished && r'.tokens == r.tokens
    ensures Extends(c.tree, c'.tree) && c'.host.free == c.host.free
  {
    var c1, r1 := ReleaseNode(c, live, id, r, Device, size);
    var c2, r2 := ReleaseNode(c1, After(live, id, r1), id, r1, Host, size);
    StepTrans(c, live, id, r, c1, r1, c2, r2, size);
    ExtendsTrans(c.tree, c1.tree, c2.tree);
    var c3, r3 := FreeLocal(c2, After(live, id, r2), id, r2, size);
    StepTrans(c, live, id, r, c2, r2, c3, r3, size);
    c', r' := c3, r3.(phase := Finished);
    Relabel(c, live, id, r, c3, r3, r', size);
  }

  // ---------------------------------------------------------------- copying a path to the host

  lemma {:induction false} SameTotal(t: Tree, t': Tree, nodes: seq<NodeId>)
    requires SameShape(t, t') && forall i :: 0 <= i < |nodes| ==> nodes[i] in t
    ensures forall i :: 0 <= i < |nodes| ==> nodes[i] in t'
    ensures PageTotal(t', nodes) == PageTotal(t, nodes)
  {
    forall i | 0 <= i < |nodes| ensures nodes[i] in t' {}
    if nodes != [] { SameTotal(t, t', nodes[1..]); }
  }

  /** Give d's path host pages and list the pairs of pages to copy. */
  method CopyToHost(c: Cache, ghost live: Live, ghost id: string, ghost r: Request, d: NodeId, ghost size: nat)
    returns (c': Cache, ok: bool, pairs: seq<(nat, nat)>)
    requires Begin(c, live, id, r, size) && On(c.tree, d, Device)
    ensures StepOk(c, live, id, r, c', r, size) && Extends(c.tree, c'.tree)
    ensures c.tree[d].depth - |Chain(c.tree, d, Host)| <= |c.host.free| ==> ok
    ensures ok ==> On(c'.tree, d, Host) && Captured(c'.tree, d, pairs)
    ensures ok ==> |pairs| == c.tree[d].depth - |Chain(c.tree, d, Host)|
  {
    var nodes, total := NodesWithout(c.tree, Host, d);
    pairs := [];
    c', ok := BringTo(c, live, id, r, Host, d, size);
    if ok {
      assert Kept(c.tree, c'.tree, d, Device);
      forall i | 0 <= i < |nodes| ensures nodes[i] in c'.tree && nodes[i] != ROOT && IsAnc(c'.tree, nodes[i], d) {
        assert nodes[i] in Elems(nodes);
        SameShapeFacts(c.tree, c'.tree, d, nodes[i]);
      }
      pairs := BuildWriteBackPairs(c'.tree, nodes, d);
      SameTotal(c.tree, c'.tree, nodes);
    }
  }

  lemma PairsStep(c: Cache, live: Live, id: string, r: Request, c': Cache, r1: Request, d: NodeId, pairs: seq<(nat, nat)>, size: nat)
    requires StepOk(c, live, id, r, c', r1, size) && r1.dev == Some(d) && r1.host == Some(d) && Captured(c'.tree, d, pairs)
    ensures StepOk(c, live, id, r, c', r1.(pairs := pairs), size)
  {
    assert After(live, id, r1.(pairs := pairs)) == After(live, id, r1);
  }

  /** Hold d on both tiers and remember the captured pairs. */
  method HoldBoth(c: Cache, ghost live: Live, ghost id: string, r: Request, d: NodeId, pairs: seq<(nat, nat)>, ghost size: nat)
    returns (c': Cache, r': Request)
    requires Begin(c, live, id, r, size) && r.pairs == [] && On(c.tree, d, Device) && On(c.tree, d, Host)
    requires Path(c.tree, d) <= FullPages(r.tokens, size) && Captured(c.tree, d, pairs)
    ensures StepOk(c, live, id, r, c', r', size) && r' == r.(dev := Some(d), host := Some(d), pairs := pairs)
    ensures Extends(c.tree, c'.tree)
  {
    var c1, r1 := HoldNode(c, live, id, r, Device, d, size);
    assert Kept(c.tree, c1.tree, d, Device) && Kept(c.tree, c1.tree, d, Host);
    CapturedKept(c.tree, c1.tree, d, pairs);
    var c2, r2 := HoldNode(c1, After(live, id, r1), id, r1, Host, d, size);
    assert Kept(c1.tree, c2.tree, d, Device) && Kept(c1.tree, c2.tree, d, Host);
    CapturedKept(c1.tree, c2.tree, d, pairs);
    StepTrans(c, live, id, r, c1, r1, c2, r2, size);
    PairsStep(c, live, id, r, c2, r2, d, pairs, size);
    ExtendsTrans(c.tree, c1.tree, c2.tree);
    c', r' := c2, r2.(pairs := pairs);
  }

  // ---------------------------------------------------------------- finish

  /** Insert the whole pages of a request, all but its last token's, offering its own pages. Fails exactly when results
      arrived for pages the request never acquired. */
  method InsertKeys(c: Cache, ghost live: Live, ghost id: string, r: Request, q: seq<Page>, now: int, ghost size: nat)
    returns (c': Cache, r': Request, threw: bool)
    requires Begin(c, live, id, r, size) && r.dev.Some? && q <= FullPages(r.tokens, size)
    ensures threw <==> |q| > c.tree[r.dev.value].depth + |r.local|
    ensures !threw ==> StepOk(c, live, id, r, c', r', size) && r' == r.(local := r'.local)
    ensures !threw ==> Cached(c'.tree, q, Device)
  {
    c', r' := c, r;
    QuietStart(c, live, id, r, size);
    var prefix := PrefixPages(c, live, id, r, size);
    threw := |q| > |prefix| + |r.local|;
    if !threw && |q| > |prefix| {
      var last;
      c', r', last := InsertFrom(c, live, id, r, q, |prefix|, now, size);
      assert CachedAt(c'.tree, last, q, Device);
    } else if !threw {
      OwnRefs(live, id, r, Device);
      PrefixOfBoth(q, Path(c.tree, r.dev.value), FullPages(r.tokens, size));
      assert CachedAt(c.tree, r.dev.value, q, Device);
    }
  }

  /** Why a path that is on the device is not copied: the host is switched off, nothing is ever matched, the host has the
      path already, or it has no room for it. */
  ghost predicate NoCopy(c: Cache, q: seq<Page>, cfg: Config) {
    cfg.noHost || cfg.noPrefix || Cached(c.tree, q, Host) || |c.host.free| < |q|
  }

  /** How a finished request leaves its whole pages: all on the device, and held there until they are copied to the host
      unless there is a reason not to copy them. */
  ghost predicate Settled(c: Cache, r: Request, q: seq<Page>, cfg: Config) {
    exists n {:trigger SettledAt(c, r, q, cfg, n)} :: SettledAt(c, r, q, cfg, n)
  }

  ghost predicate SettledAt(c: Cache, r: Request, q: seq<Page>, cfg: Config, n: NodeId) {
    && WF(c.tree) && CachedAt(c.tree, n, q, Device)
    && if r.phase == Draining then r.dev.Some? && r.dev.value in c.tree && Path(c.tree, r.dev.value) == q else NoCopy(c, q, cfg)
  }

  /** Match the finished pages; if the device knows more than the host, make room there for the difference. */
  method RoomToDrain(c: Cache, ghost live: Live, ghost id: string, ghost r: Request, q: seq<Page>, cfg: Config, now: int)
    returns (c': Cache, drain: bool, d: NodeId)
    requires Begin(c, live, id, r, cfg.size) && q <= FullPages(r.tokens, cfg.size)
    ensures StepOk(c, live, id, r, c', r, cfg.size)
    ensures drain ==> !cfg.noHost && On(c'.tree, d, Device) && Path(c'.tree, d) <= FullPages(r.tokens, cfg.size)
    ensures drain ==> c'.tree[d].depth - |Chain(c'.tree, d, Host)| <= |c'.host.free|
    ensures TierKept(c.tree, c'.tree, Device)
    ensures Cached(c.tree, q, Device) ==> if drain then Path(c'.tree, d) == q else NoCopy(c', q, cfg)
  {
    var c1, h := MatchToDrain(c, live, id, r, q, cfg, now);
    c', d := c1, h.0;
    drain := !cfg.noHost && c1.tree[h.0].depth > c1.tree[h.1].depth;
    if drain {
      assert After(live, id, r) == live;
      c', drain := RoomOnHost(c1, live, id, r, q, h.0, h.1, cfg);
      StepTrans(c, live, id, r, c1, r, c', r, cfg.size);
      TierKeptTrans(c.tree, c1.tree, c'.tree, Device);
    }
  }

  /** The deepest nodes of the path on either tier. */
  method MatchToDrain(c: Cache, ghost live: Live, ghost id: string, ghost r: Request, q: seq<Page>, cfg: Config, now: int)
    returns (c': Cache, found: (NodeId, NodeId))
    requires Begin(c, live, id, r, cfg.size) && q <= FullPages(r.tokens, cfg.size)
    ensures StepOk(c, live, id, r, c', r, cfg.size) && Matched(c'.tree, q, found.0, found.1) && TierKept(c.tree, c'.tree, Device)
    ensures c'.tree[found.0].depth > c'.tree[found.1].depth ==> LongestResident(c'.tree, q, Host, c'.tree[found.1].depth)
    ensures Cached(c.tree, q, Device) ==>
              if !cfg.noHost && c'.tree[found.0].depth > c'.tree[found.1].depth then Path(c'.tree, found.0) == q else NoCopy(c', q, cfg)
  {
    var d, h;
    c', d, h := MatchFor(c, live, id, r, q, now, cfg.noPrefix, cfg.size);
    found := (d, h);
    ExtendsKeeps(c.tree, c'.tree, Device);
    if !cfg.noPrefix && Cached(c.tree, q, Device) {
      CachedKept(c.tree, c'.tree, q, Device);
      CachedMatch(c'.tree, q, Device, d);
      if c'.tree[d].depth <= c'.tree[h].depth { assert CachedAt(c'.tree, h, q, Host); }
    }
  }

  /** Make room on the host for what d's path has beyond h's, which stays locked meanwhile. */
  method RoomOnHost(c: Cache, ghost live: Live, ghost id: string, ghost r: Request, ghost q: seq<Page>, d: NodeId, h: NodeId, cfg: Config)
    returns (c': Cache, ok: bool)
    requires Begin(c, live, id, r, cfg.size) && q <= FullPages(r.tokens, cfg.size) && Matched(c.tree, q, d, h)
    requires c.tree[d].depth > c.tree[h].depth && LongestResident(c.tree, q, Host, c.tree[h].depth)
    ensures StepOk(c, live, id, r, c', r, cfg.size) && TierKept(c.tree, c'.tree, Device)
    ensures On(c'.tree, d, Device) && Path(c'.tree, d) == Path(c.tree, d) <= FullPages(r.tokens, cfg.size)
    ensures if ok then c'.tree[d].depth - |Chain(c'.tree, d, Host)| <= |c'.host.free| else |c'.host.free| < |q|
  {
    var nodes, total := NodesWithout(c.tree, Host, d);
    ChainStops(c.tree, q, Host, d, c.tree[h].depth);
    c', ok := RoomFor(c, live, id, r, Host, h, Host, total, cfg.size);
    assert Kept(c.tree, c'.tree, d, Other(Host));
    MatchedKept(c.tree, c'.tree, q, d, h);
    MatchedSpells(c'.tree, r.tokens, cfg.size, d, h, q);
    LackedPages(c'.tree, q, Host, h, d);
  }

  /** A decoding request ends: its pages go to the tree, and from there to the host if there is room. */
  method FinishForward(c: Cache, ghost live: Live, ghost id: string, r: Request, cfg: Config, now: int)
    returns (c': Cache, r': Request, threw: bool)
    requires Begin(c, live, id, r, cfg.size) && PhaseOk(c.tree, r, cfg.size) && (r.phase == PrefillDone || r.phase == Decoding)
    ensures threw <==> KeyLen(r.tokens, cfg.size) > c.tree[r.dev.value].depth + |r.local|
    ensures !threw ==> StepOk(c, live, id, r, c', r', cfg.size) && PhaseOk(c'.tree, r', cfg.size)
    ensures !threw ==> r'.phase == Finished || (r'.phase == Draining && !cfg.noHost)
    ensures !threw ==> Settled(c', r', KeyPages(r.tokens, cfg.size), cfg)
  {
    c', r', threw := InsertKeys(c, live, id, r, KeyPages(r.tokens, cfg.size), now, cfg.size);
    if !threw {
      var c1, r1 := c', r';
      c', r' := DrainOrRetire(c1, After(live, id, r1), id, r1, cfg, now);
      StepTrans(c, live, id, r, c1, r1, c', r', cfg.size);
    }
  }

  method DrainOrRetire(c: Cache, ghost live: Live, ghost id: string, r: Request, cfg: Config, now: int) returns (c': Cache, r': Request)
    requires Begin(c, live, id, r, cfg.size) && r.pairs == [] && r.prefill <= |r.tokens|
    ensures StepOk(c, live, id, r, c', r', cfg.size) && PhaseOk(c'.tree, r', cfg.size)
    ensures r'.phase == Finished || (r'.phase == Draining && !cfg.noHost)
    ensures Cached(c.tree, KeyPages(r.tokens, cfg.size), Device) ==> Settled(c', r', KeyPages(r.tokens, cfg.size), cfg)
  {
    ghost var q := KeyPages(r.tokens, cfg.size);
    var c1, drain, d := RoomToDrain(c, live, id, r, KeyPages(r.tokens, cfg.size), cfg, now);
    assert After(live, id, r) == live;
    if drain {
      c', r' := Drain(c1, live, id, r, d, cfg);
    } else {
      c', r' := Retire(c1, live, id, r, cfg.size);
    }
    if Cached(c.tree, q, Device) {
      CachedKept(c.tree, c1.tree, q, Device);
      StaysCached(c1.tree, c'.tree, q);
      ghost var n :| CachedAt(c'.tree, n, q, Device);
      assert SettledAt(c', r', q, cfg, n);
    }
    StepTrans(c, live, id, r, c1, r, c', r', cfg.size);
  }

  lemma StaysCached(t: Tree, t': Tree, q: seq<Page>)
    requires WF(t) && WF(t') && Extends(t, t')
    ensures forall tier :: Cached(t, q, tier) ==> Cached(t', q, tier)
  {
    forall tier | Cached(t, q, tier) ensures Cached(t', q, tier) {
      ExtendsKeeps(t, t', tier);
      CachedKept(t, t', q, tier);
    }
  }

  /** Allocate host pages, hold the path on both tiers, capture the pairs, and give up the request's own pages. */
  method Drain(c: Cache, ghost live: Live, ghost id: string, r: Request, d: NodeId, cfg: Config) returns (c': Cache, r': Request)
    requires Begin(c, live, id, r, cfg.size) && r.pairs == [] && r.prefill <= |r.tokens|
    requires On(c.tree, d, Device) && Path(c.tree, d) <= FullPages(r.tokens, cfg.size)
    requires c.tree[d].depth - |Chain(c.tree, d, Host)| <= |c.host.free|
    ensures StepOk(c, live, id, r, c', r', cfg.size) && PhaseOk(c'.tree, r', cfg.size) && r'.phase == Draining
    ensures r'.dev == Some(d) && Extends(c.tree, c'.tree) && d in c'.tree && Path(c'.tree, d) == Path(c.tree, d)
    ensures |r'.pairs| == c.tree[d].depth - |Chain(c.tree, d, Host)|
  {
    var c1, ok, pairs := CopyToHost(c, live, id, r, d, cfg.size);
    assert Kept(c.tree, c1.tree, d, Device);
    assert After(live, id, r) == live;
    var c2, r2 := HoldBoth(c1, live, id, r, d, pairs, cfg.size);
    StepTrans(c, live, id, r, c1, r, c2, r2, cfg.size);
    ExtendsTrans(c.tree, c1.tree, c2.tree);
    assert Kept(c.tree, c2.tree, d, Device);
    var c3, r3 := FreeLocal(c2, After(live, id, r2), id, r2, cfg.size);
    StepTrans(c, live, id, r, c2, r2, c3, r3, cfg.size);
    c', r' := c3, r3.(phase := Draining);
    Relabel(c, live, id, r, c3, r3, r', cfg.size);
  }

  /** The executor reports that a request is done. */
  method Finish(c: Cache, ghost live: Live, ghost id: string, r: Request, cfg: Config, now: int)
    returns (c': Cache, r': Request, threw: bool)
    requires Begin(c, live, id, r, cfg.size) && PhaseOk(c.tree, r, cfg.size)
    ensures threw <==>
      r.phase in {Submitted, Prefilling, Draining, WritingBack} || (r.phase in {PrefillDone, Decoding} && KeyLen(r.tokens, cfg.size) > c.tree[r.dev.value].depth + |r.local|)
    ensures !threw ==> StepOk(c, live, id, r, c', r', cfg.size) && PhaseOk(c'.tree, r', cfg.size)
    ensures !threw ==> if r.phase == Retracting then r'.phase == WritingBack && r'.pairs == r.pairs
                       else r'.phase == Finished || (r'.phase == Draining && !cfg.noHost)
    ensures !threw && r.phase in {PrefillDone, Decoding} ==> Settled(c', r', KeyPages(r.tokens, cfg.size), cfg)
  {
    c', r', threw := c, r, r.phase in {Submitted, Prefilling, Draining, WritingBack};
    QuietStart(c, live, id, r, cfg.size);
    if r.phase == PrefillDone || r.phase == Decoding {
      c', r', threw := FinishForward(c, live, id, r, cfg, now);
    } else if r.phase == Retracting {
      var c1, r1 := FreeLocal(c, live, id, r, cfg.size);
      c', r' := c1, r1.(phase := WritingBack);
      Relabel(c, live, id, r, c1, r1, r', cfg.size);
    } else if r.phase == Retracted {
      c', r' := Retire(c, live, id, r, cfg.size);
    }
  }

  // ---------------------------------------------------------------- write-back

  /** A draining request's copies are handed to the executor; one with nothing to copy is let go. */
  method CommitDraining(c: Cache, ghost live: Live, ghost id: string, r: Request, ghost size: nat) returns (c': Cache, r': Request)
    requires Begin(c, live, id, r, size) && PhaseOk(c.tree, r, size) && r.phase == Draining
    ensures StepOk(c, live, id, r, c', r', size) && PhaseOk(c'.tree, r', size)
    ensures if r.pairs != [] then r' == r.(phase := WritingBack) else r'.phase == Finished
  {
    if r.pairs != [] {
      c', r' := c, r.(phase := WritingBack);
      QuietStart(c, live, id, r, size);
      Relabel(c, live, id, r, c, r, r', size);
    } else {
      c', r' := Retire(c, live, id, r, size);
    }
  }

  /** Release the device path and give its written-back pages back. */
  method LeaveDevice(c: Cache, ghost live: Live, ghost id: string, r: Request, ghost size: nat) returns (c': Cache, r': Request)
    requires Begin(c, live, id, r, size) && r.dev.Some?
    ensures StepOk(c, live, id, r, c', r', size) && r' == r.(dev := None, pairs := []) && TierKept(c.tree, c'.tree, Host)
  {
    OwnRefs(live, id, r, Device);
    var c1, r1 := ReleaseNode(c, live, id, r, Device, size);
    assert Kept(c.tree, c1.tree, r.dev.value, Device);
    c' := DemoteFor(c1, After(live, id, r1), id, r1, r.dev.value, size);
    r' := r1;
    StepTrans(c, live, id, r, c1, r1, c', r', size);
    ExtendsKeeps(c.tree, c1.tree, Host);
    TierKeptTrans(c.tree, c1.tree, c'.tree, Host);
  }

  /** The copies are done: a finished request is gone, a retracted one waits on the host. */
  method WriteBackDone(c: Cache, ghost live: Live, ghost id: string, r: Request, ghost size: nat)
    returns (c': Cache, r': Request, threw: bool)
    requires Begin(c, live, id, r, size) && PhaseOk(c.tree, r, size)
    ensures threw <==> r.phase !in {WritingBack, Retracting}
    ensures !threw ==> StepOk(c, live, id, r, c', r', size) && PhaseOk(c'.tree, r', size)
    ensures !threw ==> r'.phase == if r.phase == WritingBack then Finished else Retracted
    ensures !threw ==> r'.tokens == r.tokens && TierKept(c.tree, c'.tree, Host) && (r.phase == Retracting ==> r'.host == r.host)
  {
    c', r', threw := c, r, r.phase !in {WritingBack, Retracting};
    if !threw {
      var c1, r1 := LeaveDevice(c, live, id, r, size);
      if r.phase == WritingBack {
        c', r' := Retire(c1, After(live, id, r1), id, r1, size);
        StepTrans(c, live, id, r, c1, r1, c', r', size);
        ExtendsKeeps(c1.tree, c'.tree, Host);
        TierKeptTrans(c.tree, c1.tree, c'.tree, Host);
      } else {
        c', r' := c1, r1.(phase := Retracted);
        Relabel(c, live, id, r, c1, r1, r', size);
      }
    }
  }

  /** The client gives up; only a write-back in flight cannot be aborted. */
  method Abort(c: Cache, ghost live: Live, ghost id: string, r: Request, ghost size: nat) returns (c': Cache, r': Request, threw: bool)
    requires Begin(c, live, id, r, size) && PhaseOk(c.tree, r, size)
    ensures threw <==> r.phase == WritingBack
    ensures !threw ==> StepOk(c, live, id, r, c', r', size) && PhaseOk(c'.tree, r', size) && r'.phase == Finished
  {
    threw := r.phase == WritingBack;
    c', r' := Retire(c, live, id, r, size);
  }

  // ---------------------------------------------------------------- retraction

  /** A request whose device path covers all its tokens has one whole page more than it may offer. */
  lemma RetractOverrun(t: Tree, r: Request, size: nat)
    requires size > 0 && Fits(t, r, size) && r.dev.Some?
    ensures t[r.dev.value].depth > KeyLen(r.tokens, size)
       <==> t[r.dev.value].depth > 0 && t[r.dev.value].depth * size == |r.tokens|
  {
    var depth, n := t[r.dev.value].depth, |r.tokens|;
    assert depth <= n / size;
    assert n == (n / size) * size + n % size;
    MulMonotone(depth, n / size, size);
    if n > 0 {
      var k := (n - 1) / size;
      assert n - 1 == k * size + (n - 1) % size;
      MulMonotone(k + 1, depth, size);
      MulMonotone(depth, k, size);
      Distribute(k, 1, size);
    } else if depth > 0 {
      MulMonotone(1, depth, size);
    }
  }

  /** Match what was inserted; if the device knows more than the host, make room there for the difference. */
  method RoomToRetract(c: Cache, ghost live: Live, ghost id: string, ghost r: Request, q: seq<Page>, cfg: Config, now: int)
    returns (c': Cache, ok: bool, d: NodeId, h: NodeId)
    requires Begin(c, live, id, r, cfg.size)
    ensures StepOk(c, live, id, r, c', r, cfg.size) && Matched(c'.tree, q, d, h)
    ensures ok && c'.tree[d].depth > c'.tree[h].depth ==> c'.tree[d].depth - c'.tree[h].depth <= |c'.host.free|
    ensures Cached(c.tree, q, Device) ==> Path(c'.tree, d) == q
    ensures !ok ==> |c'.host.free| < |q|
  {
    var c1;
    c1, d, h := MatchFor(c, live, id, r, q, now, false, cfg.size);
    if Cached(c.tree, q, Device) {
      StaysCached(c.tree, c1.tree, q);
      CachedMatch(c1.tree, q, Device, d);
    }
    var asked := Max(0, c1.tree[d].depth - c1.tree[h].depth);
    assert After(live, id, r) == live;
    c', ok := RoomFor(c1, live, id, r, Host, h, Host, asked, cfg.size);
    StepTrans(c, live, id, r, c1, r, c', r, cfg.size);
    assert Kept(c1.tree, c'.tree, d, Other(Host));
    MatchedKept(c1.tree, c'.tree, q, d, h);
  }

  /** Give d's path host pages, hold it on both tiers, and wait for the copies. */
  method CopyAndHold(c: Cache, ghost live: Live, ghost id: string, r: Request, d: NodeId, cfg: Config) returns (c': Cache, r': Request)
    requires Begin(c, live, id, r, cfg.size) && r.pairs == [] && r.prefill <= |r.tokens|
    requires On(c.tree, d, Device) && Path(c.tree, d) <= FullPages(r.tokens, cfg.size)
    requires c.tree[d].depth - |Chain(c.tree, d, Host)| <= |c.host.free|
    ensures StepOk(c, live, id, r, c', r', cfg.size) && PhaseOk(c'.tree, r', cfg.size)
    ensures r' == r.(dev := Some(d), host := Some(d), pairs := r'.pairs, phase := Retracting)
    ensures d in c'.tree && Path(c'.tree, d) == Path(c.tree, d)
  {
    var c1, ok, pairs := CopyToHost(c, live, id, r, d, cfg.size);
    assert Kept(c.tree, c1.tree, d, Device);
    assert After(live, id, r) == live;
    var c2, r2 := HoldBoth(c1, live, id, r, d, pairs, cfg.size);
    StepTrans(c, live, id, r, c1, r, c2, r2, cfg.size);
    ExtendsTrans(c.tree, c1.tree, c2.tree);
    assert Kept(c.tree, c2.tree, d, Device);
    c', r' := c2, r2.(phase := Retracting);
    Relabel(c, live, id, r, c2, r2, r', cfg.size);
  }

  /** The device knows more: copy the path to the host, and stay on both tiers until the copies are done. */
  method RetractCopying(c: Cache, ghost live: Live, ghost id: string, r: Request, q: seq<Page>, d: NodeId, h: NodeId, cfg: Config)
    returns (c': Cache, r': Request)
    requires Begin(c, live, id, r, cfg.size) && r.pairs == [] && r.prefill <= |r.tokens|
    requires q <= FullPages(r.tokens, cfg.size) && Matched(c.tree, q, d, h) && c.tree[h].depth < c.tree[d].depth
    requires c.tree[d].depth - c.tree[h].depth <= |c.host.free|
    ensures StepOk(c, live, id, r, c', r', cfg.size) && PhaseOk(c'.tree, r', cfg.size)
    ensures r'.phase == (if r'.pairs != [] then Retracting else Retracted) && r'.tokens == r.tokens
    ensures r'.host == Some(d) && d in c'.tree && Path(c'.tree, d) == Path(c.tree, d)
  {
    LackedPages(c.tree, q, Host, h, d);
    MatchedSpells(c.tree, r.tokens, cfg.size, d, h, q);
    var c2, r3 := CopyAndHold(c, live, id, r, d, cfg);
    c', r' := c2, r3;
    if r3.pairs == [] {
      var threw;
      OwnRefs(After(live, id, r3), id, r3, Host);
      c', r', threw := WriteBackDone(c2, After(live, id, r3), id, r', cfg.size);
      assert Kept(c2.tree, c'.tree, d, Host);
      StepTrans(c, live, id, r, c2, r3, c', r', cfg.size);
    }
  }

  /** The host already knows the path: hold it there and leave the device at once. */
  method RetractAtOnce(c: Cache, ghost live: Live, ghost id: string, r: Request, q: seq<Page>, d: NodeId, h: NodeId, cfg: Config)
    returns (c': Cache, r': Request)
    requires Begin(c, live, id, r, cfg.size) && r.pairs == [] && r.prefill <= |r.tokens|
    requires Matched(c.tree, q, d, h) && c.tree[d].depth <= c.tree[h].depth
    ensures StepOk(c, live, id, r, c', r', cfg.size) && PhaseOk(c'.tree, r', cfg.size)
    ensures r'.phase == Retracted && r'.tokens == r.tokens
    ensures r'.host == Some(d) && d in c'.tree && Path(c'.tree, d) == Path(c.tree, d)
  {
    MatchesNest(c.tree, q, d, h, Device, Host);
    assert IsAnc(c.tree, d, ROOT) ==> d == ROOT;
    if d != ROOT { AncestorsOn(c.tree, h, d, Host); }
    var c1, r1 := HoldNode(c, live, id, r, Host, d, cfg.size);
    var c2, r2 := ReleaseNode(c1, After(live, id, r1), id, r1, Device, cfg.size);
    StepTrans(c, live, id, r, c1, r1, c2, r2, cfg.size);
    ExtendsTrans(c.tree, c1.tree, c2.tree);
    assert Kept(c.tree, c2.tree, d, Device);
    c', r' := c2, r2.(phase := Retracted);
    Relabel(c, live, id, r, c2, r2, r', cfg.size);
  }

  /** The first n pages of a path, or all of it. */
  function Upto(q: seq<Page>, n: nat): seq<Page> {
    if |q| > n then q[..n] else q
  }

  /** A retracted request holds its whole path on the host; only for want of room there was it aborted. */
  ghost predicate Stowed(c: Cache, r: Request, q: seq<Page>) {
    WF(c.tree) && if r.phase == Finished then |c.host.free| < |q| else r.host.Some? && r.host.value in c.tree && Path(c.tree, r.host.value) == q
  }

  /** Device memory is exhausted: the request's pages go to the tree and its path to the host. It fails exactly when its
      device path already covers all its tokens, and it is aborted only when the host has no room. */
  method Retract(c: Cache, ghost live: Live, ghost id: string, r: Request, cfg: Config, now: int)
    returns (c': Cache, r': Request, threw: bool)
    requires Begin(c, live, id, r, cfg.size) && PhaseOk(c.tree, r, cfg.size) && (r.phase == PrefillDone || r.phase == Decoding)
    ensures threw <==> c.tree[r.dev.value].depth > 0 && c.tree[r.dev.value].depth * cfg.size == |r.tokens|
    ensures !threw ==> StepOk(c, live, id, r, c', r', cfg.size) && PhaseOk(c'.tree, r', cfg.size)
    ensures !threw ==> r'.phase in {Retracting, Retracted, Finished} && r'.tokens == r.tokens
    ensures !threw ==> Stowed(c', r', Upto(KeyPages(r.tokens, cfg.size), c.tree[r.dev.value].depth + |r.local|))
  {
    var prefix := PrefixPages(c, live, id, r, cfg.size);
    var q := Upto(KeyPages(r.tokens, cfg.size), |prefix| + |r.local|);
    RetractPages(c.tree, r, q, cfg.size);
    c', r', threw := c, r, |q| < |prefix|;
    if !threw { c', r' := RetractWith(c, live, id, r, q, |prefix|, cfg, now); }
  }

  /** The pages to insert: as many as the request has, and too few for its device path exactly if that covers all its tokens. */
  lemma RetractPages(t: Tree, r: Request, q: seq<Page>, size: nat)
    requires size > 0 && Fits(t, r, size) && r.dev.Some? && q == Upto(KeyPages(r.tokens, size), t[r.dev.value].depth + |r.local|)
    ensures q <= FullPages(r.tokens, size) && |q| <= t[r.dev.value].depth + |r.local|
    ensures |q| < t[r.dev.value].depth <==> t[r.dev.value].depth > 0 && t[r.dev.value].depth * size == |r.tokens|
  {
    RetractOverrun(t, r, size);
  }

  /** Insert the pages q, and move the request to the host. */
  method RetractWith(c: Cache, ghost live: Live, ghost id: string, r: Request, q: seq<Page>, d: nat, cfg: Config, now: int)
    returns (c': Cache, r': Request)
    requires Begin(c, live, id, r, cfg.size) && r.dev.Some? && r.pairs == [] && r.prefill <= |r.tokens| && q <= FullPages(r.tokens, cfg.size)
    requires d == c.tree[r.dev.value].depth <= |q| <= d + |r.local|
    ensures StepOk(c, live, id, r, c', r', cfg.size) && PhaseOk(c'.tree, r', cfg.size)
    ensures r'.phase in {Retracting, Retracted, Finished} && r'.tokens == r.tokens && Stowed(c', r', q)
  {
    var c1, r1, last := InsertFrom(c, live, id, r, q, d, now, cfg.size);
    assert CachedAt(c1.tree, last, q, Device);
    c', r' := RetractOrAbort(c1, After(live, id, r1), id, r1, q, cfg, now);
    StepTrans(c, live, id, r, c1, r1, c', r', cfg.size);
  }

  method RetractOrAbort(c: Cache, ghost live: Live, ghost id: string, r: Request, q: seq<Page>, cfg: Config, now: int)
    returns (c': Cache, r': Request)
    requires Begin(c, live, id, r, cfg.size) && r.pairs == [] && r.prefill <= |r.tokens| && q <= FullPages(r.tokens, cfg.size)
    ensures StepOk(c, live, id, r, c', r', cfg.size) && PhaseOk(c'.tree, r', cfg.size)
    ensures r'.phase in {Retracting, Retracted, Finished} && r'.tokens == r.tokens
    ensures Cached(c.tree, q, Device) ==> Stowed(c', r', q)
  {
    var c1, ok, d, h := RoomToRetract(c, live, id, r, q, cfg, now);
    assert After(live, id, r) == live;
    if !ok {
      c', r' := Retire(c1, live, id, r, cfg.size);
    } else if c1.tree[d].depth > c1.tree[h].depth {
      c', r' := RetractCopying(c1, live, id, r, q, d, h, cfg);
    } else {
      c', r' := RetractAtOnce(c1, live, id, r, q, d, h, cfg);
    }
    StepTrans(c, live, id, r, c1, r, c', r', cfg.size);
  }
}
