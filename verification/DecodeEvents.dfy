/** Scheduling decode steps, recovery of retracted requests, and the results that come back from the executor. */
module DecodeEvents {
  import opened Prelude
  import opened PageTree
  import opened TreeEdits
  import opened TierState
  import opened TreeWalk
  import opened TreeFrames
  import opened CacheState
  import opened CacheRefs
  import opened CachedPaths
  import opened WriteBack
  import opened LocalPages
  import opened RequestState
  import opened RequestSteps
  import opened PrefillEvents

  /** A request in a decode phase, with the reserve for the step after this one. */
  function Decoded(r: Request, reserve: int): Request {
    r.(phase := Decoding, reserve := reserve)
  }

  lemma DecodedOk(t: Tree, r: Request, reserve: int, size: nat)
    requires r.dev.Some? && r.dev.value in t && r.pairs == [] && r.prefill <= |r.tokens|
    ensures PhaseOk(t, Decoded(r, reserve), size)
  {
  }

  // ---------------------------------------------------------------- decode

  /** The room asked for a decode step is exactly what its reserve will take. */
  lemma DecodeRoom(reserve: int, tail: nat, size: nat)
    requires size > 0
    ensures PagesAsked(Max(0, reserve - tail), size) == PagesFor(reserve, tail, size)
  {
    AskedIsCeil(Max(0, reserve - tail), size);
  }

  /** Take the reserve's pages and go on decoding. */
  method TakeReserve(c: Cache, ghost live: Live, ghost id: string, r: Request, num: int, cfg: Config)
    returns (c': Cache, r': Request, threw: bool)
    requires Begin(c, live, id, r, cfg.size) && r.dev.Some? && r.pairs == [] && r.prefill <= |r.tokens|
    ensures threw <==> PagesFor(num, r.tail, cfg.size) > |c.device.free|
    ensures !threw ==> StepOk(c, live, id, r, c', r', cfg.size) && PhaseOk(c'.tree, r', cfg.size)
    ensures !threw ==> c'.tree == c.tree && r' == Decoded(r.(local := r'.local, tail := r'.tail), cfg.decode)
    ensures !threw ==> (|r'.local|, r'.tail) == Grow((|r.local|, r.tail), num, cfg.size)
  {
    var ok;
    c', r', ok := AcquireTokens(c, live, id, r, num, cfg.size);
    threw := !ok;
    if ok {
      ghost var r1 := r';
      DecodedOk(c'.tree, r1, cfg.decode, cfg.size);
      r' := Decoded(r', cfg.decode);
      Relabel(c, live, id, r, c', r1, r', cfg.size);
    }
  }

  /** The whole pages of the window a prefill ended with are in the tree, if chunks are inserted as they run. */
  ghost predicate LastWindowIn(t: Tree, r: Request, t': Tree, r': Request, cfg: Config)
    requires cfg.size > 0
  {
    r.phase == PrefillDone && cfg.hybrid && r.start + r.size >= 0 && r.dev.Some? && r.dev.value in t && |WindowPages(r, cfg.size)| > t[r.dev.value].depth
    ==> WF(t') && r'.dev.Some? && r'.dev.value in t' && Path(t', r'.dev.value) == WindowPages(r, cfg.size)
  }

  /** After a prefill the whole pages of its last window are inserted first. */
  method InsertLastWindow(c: Cache, ghost live: Live, ghost id: string, r: Request, cfg: Config, now: int) returns (c': Cache, r': Request)
    requires Begin(c, live, id, r, cfg.size) && PhaseOk(c.tree, r, cfg.size) && (r.phase == PrefillDone || r.phase == Decoding)
    ensures StepOk(c, live, id, r, c', r', cfg.size) && r' == r.(dev := r'.dev, local := r'.local) && r'.dev.Some?
    ensures |c'.device.free| >= |c.device.free| && c'.tree[r'.dev.value].depth + |r'.local| == c.tree[r.dev.value].depth + |r.local|
    ensures LastWindowIn(c.tree, r, c'.tree, r', cfg)
  {
    c', r' := c, r;
    if r.phase == PrefillDone {
      WindowCovered(c.tree, r, cfg.size);
      c', r' := InsertHybridCache(c, live, id, r, WindowPages(r, cfg.size), cfg, now);
    } else {
      QuietStart(c, live, id, r, cfg.size);
    }
  }

  /** A decode step. It fails only on a negative reserve, never for lack of device pages. */
  method Decode(c: Cache, ghost live: Live, ghost id: string, r: Request, cfg: Config, admit: bool, now: int)
    returns (c': Cache, r': Request, took: bool, threw: bool)
    requires Begin(c, live, id, r, cfg.size) && PhaseOk(c.tree, r, cfg.size) && (r.phase == PrefillDone || r.phase == Decoding)
    ensures !threw ==> StepOk(c, live, id, r, c', r', cfg.size) && PhaseOk(c'.tree, r', cfg.size)
    ensures !took && !threw ==> r' == r
    ensures threw <==> r.phase == Decoding && r.reserve < 0
    ensures took && !threw ==> Reserved(c, r, c', r', cfg)
  {
    c', r', took, threw := c, r, false, r.phase == Decoding && r.reserve < 0;
    if !threw {
      var ok;
      DecodeRoom(r.reserve, r.tail, cfg.size);
      c', ok := RoomUnlocked(c, live, id, r, PagesAsked(Max(0, r.reserve - r.tail), cfg.size), cfg.size);
      PhaseKept(c, live, id, r, c', cfg.size);
      took := ok && admit;
      if took {
        var c1 := c';
        assert After(live, id, r) == live;
        c', r', threw := ApplyDecode(c1, live, id, r, cfg, now);
        StepTrans(c, live, id, r, c1, r, c', r', cfg.size);
        ReservedFrom(c, c1, r, c', r', cfg);
      }
    }
  }

  lemma ReservedIs(c: Cache, r: Request, c1: Cache, r1: Request, c2: Cache, r2: Request, cfg: Config)
    requires cfg.size > 0 && r.dev.Some? && r.dev.value in c.tree && r1.dev.Some? && r1.dev.value in c1.tree && c2.tree == c1.tree
    requires r1 == r.(dev := r1.dev, local := r1.local)
    requires c1.tree[r1.dev.value].depth + |r1.local| == c.tree[r.dev.value].depth + |r.local|
    requires r2 == Decoded(r1.(local := r2.local, tail := r2.tail), cfg.decode)
    requires (|r2.local|, r2.tail) == Grow((|r1.local|, r1.tail), r.reserve, cfg.size) && LastWindowIn(c.tree, r, c1.tree, r1, cfg)
    ensures Reserved(c, r, c2, r2, cfg)
  {
  }

  lemma ReservedFrom(c: Cache, c1: Cache, r: Request, c2: Cache, r2: Request, cfg: Config)
    requires cfg.size > 0 && Reserved(c1, r, c2, r2, cfg)
    requires r.dev.Some? && r.dev.value in c.tree && c1.tree[r.dev.value].depth == c.tree[r.dev.value].depth
    ensures Reserved(c, r, c2, r2, cfg)
  {
  }

  method ApplyDecode(c: Cache, ghost live: Live, ghost id: string, r: Request, cfg: Config, now: int)
    returns (c': Cache, r': Request, threw: bool)
    requires Begin(c, live, id, r, cfg.size) && PhaseOk(c.tree, r, cfg.size) && (r.phase == PrefillDone || r.phase == Decoding)
    requires PagesFor(r.reserve, r.tail, cfg.size) <= |c.device.free|
    ensures !threw && StepOk(c, live, id, r, c', r', cfg.size) && PhaseOk(c'.tree, r', cfg.size)
    ensures Reserved(c, r, c', r', cfg)
  {
    var c1, r1 := InsertLastWindow(c, live, id, r, cfg, now);
    c', r', threw := TakeReserve(c1, After(live, id, r1), id, r1, r.reserve, cfg);
    StepTrans(c, live, id, r, c1, r1, c', r', cfg.size);
    ReservedIs(c, r, c1, r1, c', r', cfg);
  }

  /** The request decodes. Counted over its tree path and its own pages together, it holds just the pages its reserve
      added to those it had, wherever they have moved. */
  ghost predicate Reserved(c: Cache, r: Request, c': Cache, r': Request, cfg: Config)
    requires cfg.size > 0
  {
    && r'.phase == Decoding && r'.reserve == cfg.decode && r'.tokens == r.tokens && r'.prefill == r.prefill
    && r.dev.Some? && r.dev.value in c.tree && r'.dev.Some? && r'.dev.value in c'.tree
    && (c'.tree[r'.dev.value].depth + |r'.local|, r'.tail)
       == Grow((c.tree[r.dev.value].depth + |r.local|, r.tail), r.reserve, cfg.size)
    && LastWindowIn(c.tree, r, c'.tree, r', cfg)
  }

  // ---------------------------------------------------------------- recovery of a retracted request

  function RecoveryAsked(dm: nat, hm: nat, cfg: Config): int
    requires cfg.size > 0
  {
    PagesAsked((if hm > dm then cfg.size * (hm - dm) else 0) + cfg.decode, cfg.size)
  }

  lemma RecoveryRoom(dm: nat, hm: nat, tail: nat, cfg: Config)
    requires cfg.size > 0
    ensures Loaded(dm, hm, false) + PagesFor(cfg.decode, tail, cfg.size) <= RecoveryAsked(dm, hm, cfg)
  {
    CeilShift(Loaded(dm, hm, false), cfg.decode, cfg.size);
    AcquireWithin(cfg.decode, tail, cfg.size);
    AskedIsCeil(cfg.decode, cfg.size);
  }

  /** Match all whole pages but the last, and make room for what recovery will load back and decode. */
  method ScheduleRecovery(c: Cache, ghost live: Live, ghost id: string, r: Request, cfg: Config, slots: bool, admit: bool, now: int)
    returns (c': Cache, took: bool, d: NodeId, h: NodeId)
    requires Begin(c, live, id, r, cfg.size)
    ensures StepOk(c, live, id, r, c', r, cfg.size)
    ensures took ==> Matched(c'.tree, KeyPages(r.tokens, cfg.size), d, h)
    ensures took ==> RecoveryAsked(c'.tree[d].depth, c'.tree[h].depth, cfg) <= |c'.device.free|
    ensures took ==> Best(c.tree, KeyPages(r.tokens, cfg.size), c'.tree[d].depth, c'.tree[h].depth, false)
  {
    took := false;
    if !slots {
      c', d, h := c, ROOT, ROOT;
      QuietStart(c, live, id, r, cfg.size);
    } else {
      var c1, ok;
      c1, d, h := MatchFor(c, live, id, r, KeyPages(r.tokens, cfg.size), now, false, cfg.size);
      BestSame(c.tree, c1.tree, KeyPages(r.tokens, cfg.size), c1.tree[d].depth, c1.tree[h].depth, false);
      assert After(live, id, r) == live;
      c', ok := RoomFor(c1, live, id, r, Device, d, Device, RecoveryAsked(c1.tree[d].depth, c1.tree[h].depth, cfg), cfg.size);
      assert Kept(c1.tree, c'.tree, h, Other(Device));
      MatchedKept(c1.tree, c'.tree, KeyPages(r.tokens, cfg.size), d, h);
      StepTrans(c, live, id, r, c1, r, c', r, cfg.size);
      took := ok && admit;
    }
  }

  /** Lock the match on the device, loading it back if need be; the host stays locked only for what was loaded back. */
  method HoldRecovered(c: Cache, ghost live: Live, ghost id: string, r: Request, d: NodeId, h: NodeId, cfg: Config)
    returns (c': Cache, r': Request, ok: bool)
    requires Begin(c, live, id, r, cfg.size) && r.pairs == [] && Matched(c.tree, KeyPages(r.tokens, cfg.size), d, h)
    ensures ok ==> StepOk(c, live, id, r, c', r', cfg.size) && r' == r.(dev := r'.dev, host := r'.host) && r'.dev.Some?
    ensures ok ==> |c'.device.free| >= |c.device.free| - Loaded(c.tree[d].depth, c.tree[h].depth, false)
    ensures Loaded(c.tree[d].depth, c.tree[h].depth, false) <= |c.device.free| ==> ok
    ensures ok ==> HoldsDepth(c'.tree, r', Found(c.tree[d].depth, c.tree[h].depth, false))
  {
    if c.tree[h].depth > c.tree[d].depth {
      c', r', ok := LoadBack(c, live, id, r, d, h, cfg.size);
    } else {
      MatchedSpells(c.tree, r.tokens, cfg.size, d, h, KeyPages(r.tokens, cfg.size));
      var c1, r1 := HoldNode(c, live, id, r, Device, d, cfg.size);
      c', r' := ReleaseNode(c1, After(live, id, r1), id, r1, Host, cfg.size);
      StepTrans(c, live, id, r, c1, r1, c', r', cfg.size);
      ExtendsTrans(c.tree, c1.tree, c'.tree);
      assert Kept(c.tree, c'.tree, d, Device);
      MatchKept(c.tree, c'.tree, KeyPages(r.tokens, cfg.size), Device, d);
      ok := true;
    }
  }

  /** The request decodes again, holding on the device the longest prefix of its whole pages that either tier had, with
      pages of its own for one decode step more than it kept. */
  ghost predicate Recovered(t: Tree, r: Request, t': Tree, r': Request, dm: nat, hm: nat, cfg: Config)
    requires cfg.size > 0 && WF(t)
  {
    && Best(t, KeyPages(r.tokens, cfg.size), dm, hm, false) && HoldsDepth(t', r', Found(dm, hm, false))
    && (|r'.local|, r'.tail) == Grow((|r.local|, r.tail), cfg.decode, cfg.size)
    && r'.phase == Decoding && r'.reserve == cfg.decode && r'.tokens == r.tokens && r'.prefill == r.prefill
  }

  ghost predicate Recovers(t: Tree, r: Request, t': Tree, r': Request, cfg: Config)
    requires cfg.size > 0 && WF(t)
  {
    exists dm, hm {:trigger Recovered(t, r, t', r', dm, hm, cfg)} :: Recovered(t, r, t', r', dm, hm, cfg)
  }

  /** A retracted request goes back to decoding. Recovery never fails for lack of device pages. */
  method DecodeFromRetracted(c: Cache, ghost live: Live, ghost id: string, r: Request, cfg: Config, slots: bool, admit: bool, now: int)
    returns (c': Cache, r': Request, took: bool, threw: bool)
    requires Begin(c, live, id, r, cfg.size) && PhaseOk(c.tree, r, cfg.size) && r.phase == Retracted
    ensures !threw && StepOk(c, live, id, r, c', r', cfg.size) && PhaseOk(c'.tree, r', cfg.size)
    ensures if took then Recovers(c.tree, r, c'.tree, r', cfg) else r' == r
  {
    var d, h;
    c', took, d, h := ScheduleRecovery(c, live, id, r, cfg, slots, admit, now);
    r', threw := r, false;
    if took {
      var c1 := c';
      RecoveryRoom(c1.tree[d].depth, c1.tree[h].depth, r.tail, cfg);
      assert After(live, id, r) == live;
      var c2, r2, ok := HoldRecovered(c1, live, id, r, d, h, cfg);
      StepTrans(c, live, id, r, c1, r, c2, r2, cfg.size);
      c', r', threw := TakeReserve(c2, After(live, id, r2), id, r2, cfg.decode, cfg);
      StepTrans(c, live, id, r, c2, r2, c', r', cfg.size);
      assert Recovered(c.tree, r, c'.tree, r', c1.tree[d].depth, c1.tree[h].depth, cfg);
    }
  }

  // ---------------------------------------------------------------- results from the executor

  /** These tokens complete a page that a decoding request is to offer to the tree. */
  predicate CompletesPage(r: Request, more: seq<Token>, cfg: Config)
    requires cfg.size > 0
  {
    r.phase == Decoding && cfg.hybrid && KeyLen(r.tokens + more, cfg.size) > KeyLen(r.tokens, cfg.size)
  }

  /** The states that take no results throw; so does a decoding request with a negative reserve, which is asserted on after the
      tokens are taken. */
  predicate ResultThrows(r: Request) {
    r.phase in {Submitted, Prefilling, Draining, WritingBack} || (r.phase == Decoding && r.reserve < 0)
  }

  /** Result tokens arrive. A decoding request that completed a page offers its completed pages to the tree, if it holds
      enough of its own; the states that no longer decode only take the tokens, and a finished one ignores them. */
  method ExtendResult(c: Cache, ghost live: Live, ghost id: string, r: Request, more: seq<Token>, cfg: Config, now: int)
    returns (c': Cache, r': Request, threw: bool)
    requires Begin(c, live, id, r, cfg.size) && PhaseOk(c.tree, r, cfg.size)
    ensures threw <==> ResultThrows(r)
    ensures !threw ==> StepOk(c, live, id, r, c', r', cfg.size) && PhaseOk(c'.tree, r', cfg.size)
    ensures !threw ==> r'.phase == r.phase && r'.tokens == (if r.phase == Finished then r.tokens else r.tokens + more) && r'.pairs == r.pairs
    ensures !threw && CompletesPage(r, more, cfg) ==> Published(c.tree, r.(tokens := r.tokens + more), c'.tree, r', cfg)
  {
    c', r', threw := c, r, r.phase in {Submitted, Prefilling, Draining, WritingBack};
    QuietStart(c, live, id, r, cfg.size);
    if !threw && r.phase != Finished {
      r' := r.(tokens := r.tokens + more);
      if r.phase == Decoding && r.reserve < 0 {
        threw := true;
        return;
      }
      ExtendStep(c, live, id, r, more, cfg.size);
      if CompletesPage(r, more, cfg) {
        ghost var r1 := r';
        c', r' := Publish(c, After(live, id, r'), id, r', cfg, now);
        StepTrans(c, live, id, r, c, r1, c', r', cfg.size);
      }
    }
  }

  lemma ExtendStep(c: Cache, live: Live, id: string, r: Request, more: seq<Token>, size: nat)
    requires Begin(c, live, id, r, size) && PhaseOk(c.tree, r, size)
    ensures StepOk(c, live, id, r, c, r.(tokens := r.tokens + more), size) && PhaseOk(c.tree, r.(tokens := r.tokens + more), size)
  {
    FitsExtended(c.tree, r, more, size);
    OthersSame(c.tree, live, id);
    assert After(live, id, r.(tokens := r.tokens + more)) == live;
  }

  /** Completed pages that the request has are in the tree and its path ends with them; short of pages nothing has moved. */
  ghost predicate Published(t: Tree, r: Request, t': Tree, r': Request, cfg: Config)
    requires cfg.size > 0
  {
    && WF(t') && r.dev.Some? && r.dev.value in t && r'.dev.Some? && r'.dev.value in t'
    && var q, depth := KeyPages(r.tokens, cfg.size), t[r.dev.value].depth;
       if cfg.hybrid && depth < |q| <= depth + |r.local| then Path(t', r'.dev.value) == q && |r'.local| == depth + |r.local| - |q|
       else r'.dev == r.dev && r'.local == r.local
  }

  /** Offer the whole pages of a decoding request, all but its last token's, to the tree. */
  method Publish(c: Cache, ghost live: Live, ghost id: string, r: Request, cfg: Config, now: int) returns (c': Cache, r': Request)
    requires Begin(c, live, id, r, cfg.size) && PhaseOk(c.tree, r, cfg.size) && r.phase == Decoding
    ensures StepOk(c, live, id, r, c', r', cfg.size) && PhaseOk(c'.tree, r', cfg.size)
    ensures r' == r.(dev := r'.dev, local := r'.local)
    ensures Published(c.tree, r, c'.tree, r', cfg)
  {
    c', r' := c, r;
    QuietStart(c, live, id, r, cfg.size);
    var q := KeyPages(r.tokens, cfg.size);
    var prefix := PrefixPages(c, live, id, r, cfg.size);
    if |q| > |prefix| && |r.local| >= |q| - |prefix| {
      c', r' := InsertHybridCache(c, live, id, r, q, cfg, now);
      DecodedOk(c'.tree, r', r'.reserve, cfg.size);
      PublishedIs(c.tree, r, c'.tree, r', cfg);
    }
  }

  lemma PublishedIs(t: Tree, r: Request, t': Tree, r': Request, cfg: Config)
    requires cfg.size > 0 && WF(t') && r.dev.Some? && r.dev.value in t && r'.dev.Some? && r'.dev.value in t'
    requires t'[r'.dev.value].depth + |r'.local| == t[r.dev.value].depth + |r.local|
    requires if cfg.hybrid && |KeyPages(r.tokens, cfg.size)| > t[r.dev.value].depth then Path(t', r'.dev.value) == KeyPages(r.tokens, cfg.size)
             else r' == r
    requires |KeyPages(r.tokens, cfg.size)| <= t[r.dev.value].depth + |r.local|
    ensures Published(t, r, t', r', cfg)
  {
  }

  /** A new reserve for the next decode step. */
  method UpdateReserve(r: Request, value: int) returns (r': Request, threw: bool)
    ensures threw <==> r.phase !in {Decoding, Retracting, Retracted, Finished}
    ensures r' == if r.phase == Decoding then r.(reserve := value) else r
  {
    threw := r.phase !in {Decoding, Retracting, Retracted, Finished};
    r' := if r.phase == Decoding then r.(reserve := value) else r;
  }
}
