/** Scheduling prefill: the first chunk of a request, with load-back from the host, and the chunks after it. */
module PrefillEvents {
  import opened Prelude
  import opened PageTree
  import opened TreeEdits
  import opened TierState
  import opened TreeWalk
  import opened TreeFrames
  import opened BlockEvents
  import opened CacheState
  import opened CacheRefs
  import opened CachedPaths
  import opened WriteBack
  import opened LocalPages
  import opened PrefillInputs
  import opened RequestState
  import opened RequestSteps

  /** Scheduler settings that steer a request: page size, tokens per decode step, whether the host tier is off, whether
      chunks are inserted while a request runs, and whether prefix matching is off. */
  datatype Config = Config(size: nat, decode: nat, noHost: bool, hybrid: bool, noPrefix: bool)

  function Min(a: int, b: int): int { if a < b then a else b }

  function Max(a: int, b: int): int { if a < b then b else a }

  /** Division as the schedulers write it: towards zero. */
  function TruncDiv(x: int, d: nat): int
    requires d > 0
  {
    if x >= 0 then x / d else -((-x) / d)
  }

  /** Pages a scheduler asks room for before num tokens are acquired. */
  function PagesAsked(num: int, size: nat): int
    requires size > 0
  {
    TruncDiv(num + size - 1, size)
  }

  // ---------------------------------------------------------------- room asked for is room enough

  lemma AskedIsCeil(num: nat, size: nat)
    requires size > 0
    ensures PagesAsked(num, size) == CeilDiv(num, size)
  {
  }

  lemma CeilShift(k: nat, s: int, size: nat)
    requires size > 0 && s + size > 0
    ensures PagesAsked(k * size + s, size) == k + PagesFor(s, 0, size)
  {
    var r: int := PagesFor(s, 0, size);
    Distribute(k, r, size);
    Distribute(k, r - 1, size);
    var x := k * size + s;
    if x >= 0 {
      if s <= 0 { Distribute(k, -1, size); }
      CeilDivUnique(x, size, k + r);
      AskedIsCeil(x, size);
    } else {
      MulMonotone(1, k, size);
    }
  }

  /** Acquiring twice takes as many pages as acquiring the sum at once. */
  lemma TwoAcquires(a: int, b: nat, size: nat)
    requires size > 0
    ensures var tail := Grow((0, 0), a, size).1;
            PagesFor(a, 0, size) + PagesFor(b, tail, size) == PagesFor(a + b, 0, size)
  {
    GrowCovers((0, 0), a, size);
    var (n, tail) := Grow((0, 0), a, size);
    if b > tail {
      var m := CeilDiv(b - tail, size);
      Distribute(n, m, size);
      Distribute(n, m - 1, size);
      CeilDivUnique(a + b, size, n + m);
    } else if a > 0 {
      Distribute(n, -1, size);
      CeilDivUnique(a + b, size, n);
    }
  }

  /** The room asked for before a first chunk suffices for its load-back and its own pages exactly when nothing is loaded
      back or the tokens left over do not fall a whole page short of zero. */
  lemma FirstChunkRoom(loaded: nat, now: int, decode: nat, size: nat)
    requires size > 0
    ensures loaded + PagesFor(now + decode, 0, size) <= Max(0, PagesAsked(loaded * size + now + decode, size))
       <==> loaded == 0 || now + decode + size > 0
  {
    var s := now + decode;
    if s + size > 0 {
      CeilShift(loaded, s, size);
    } else {
      MulMonotone(0, loaded, size);
      if loaded * size + s + size - 1 >= 0 && loaded > 0 {
        Distribute(loaded, -1, size);
        DivBelow(loaded * size + s + size - 1, loaded, size);
      }
    }
  }

  lemma DivBelow(x: nat, k: nat, d: nat)
    requires d > 0 && x < k * d
    ensures x / d < k
  {
    assert x == (x / d) * d + x % d;
    MulMonotone(k, x / d, d);
  }

  // ---------------------------------------------------------------- matches carried along

  lemma MatchKept(t: Tree, t': Tree, q: seq<Page>, tier: Tier, n: NodeId)
    requires WF(t) && WF(t') && TierMatch(t, q, tier, n) && Kept(t, t', n, tier)
    ensures TierMatch(t', q, tier, n) && t'[n].depth == t[n].depth
  {
    assert |Path(t', n)| == |Path(t, n)|;
  }

  lemma {:induction false} ChainGrows(t: Tree, a: NodeId, n: NodeId, tier: Tier)
    requires WF(t) && n in t && a in t && IsAnc(t, a, n)
    ensures |Chain(t, a, tier)| <= |Chain(t, n, tier)|
    decreases t[n].depth
  {
    if a != n {
      assert UpOk(t, n);
      ChainGrows(t, a, t[n].parent, tier);
    }
  }

  /** With one match above the other, the deeper path lacks no more pages of the shallower one's tier than lie between. */
  lemma LackedPages(t: Tree, q: seq<Page>, tier: Tier, a: NodeId, b: NodeId)
    requires WF(t) && Closed(t, tier) && TierMatch(t, q, tier, a) && TierMatch(t, q, Other(tier), b)
    requires t[a].depth <= t[b].depth
    ensures t[b].depth - |Chain(t, b, tier)| <= t[b].depth - t[a].depth
  {
    MatchesNest(t, q, a, b, tier, Other(tier));
    ChainLength(t, a, tier);
    ChainGrows(t, a, b, tier);
  }

  /** With both longest matches known, the deeper path lacks exactly the device pages that lie between. */
  lemma LackedExactly(t: Tree, q: seq<Page>, d: NodeId, h: NodeId)
    requires WF(t) && Closed(t, Device) && Matched(t, q, d, h) && t[d].depth <= t[h].depth && LongestResident(t, q, Device, t[d].depth)
    ensures |Chain(t, h, Device)| == t[d].depth
  {
    LackedPages(t, q, Device, d, h);
    ChainStops(t, q, Device, h, t[d].depth);
  }

  // ---------------------------------------------------------------- the first chunk

  /** Both matches of a query, carried through an operation that keeps them. */
  ghost predicate Matched(t: Tree, q: seq<Page>, d: NodeId, h: NodeId) {
    WF(t) && TierMatch(t, q, Device, d) && TierMatch(t, q, Host, h)
  }

  lemma MatchedKept(t: Tree, t': Tree, q: seq<Page>, d: NodeId, h: NodeId)
    requires Matched(t, q, d, h) && WF(t') && Kept(t, t', d, Device) && Kept(t, t', h, Host)
    ensures Matched(t', q, d, h) && t'[d].depth == t[d].depth && t'[h].depth == t[h].depth
  {
    MatchKept(t, t', q, Device, d);
    MatchKept(t, t', q, Host, h);
  }

  lemma MatchedSpells(t: Tree, tokens: seq<Token>, size: nat, d: NodeId, h: NodeId, q: seq<Page>)
    requires size > 0 && q <= FullPages(tokens, size) && Matched(t, q, d, h)
    ensures Path(t, d) <= FullPages(tokens, size) && Path(t, h) <= FullPages(tokens, size)
  {
  }

  /** Bring the host-resident path of h onto the device and hold it on both tiers. */
  method LoadBack(c: Cache, ghost live: Live, ghost id: string, r: Request, d: NodeId, h: NodeId, size: nat)
    returns (c': Cache, r': Request, ok: bool)
    requires Begin(c, live, id, r, size) && r.pairs == [] && Matched(c.tree, KeyPages(r.tokens, size), d, h)
    requires c.tree[d].depth <= c.tree[h].depth
    ensures StepOk(c, live, id, r, c', r', size)
    ensures r' == r.(dev := r'.dev, host := Some(h)) && (ok ==> r'.dev == Some(h))
    ensures c.tree[h].depth - c.tree[d].depth <= |c.device.free| ==> ok
    ensures ok ==> h in c'.tree && c'.tree[h].depth == c.tree[h].depth
    ensures ok ==> |c'.device.free| >= |c.device.free| - (c.tree[h].depth - c.tree[d].depth)
    ensures LongestResident(c.tree, KeyPages(r.tokens, size), Device, c.tree[d].depth) ==>
              && (ok <==> c.tree[h].depth - c.tree[d].depth <= |c.device.free|)
              && (ok ==> |c'.device.free| == |c.device.free| - (c.tree[h].depth - c.tree[d].depth))
  {
    ghost var q := KeyPages(r.tokens, size);
    var c1, r1 := HoldNode(c, live, id, r, Host, h, size);
    MatchedKept(c.tree, c1.tree, q, d, h);
    LackedPages(c1.tree, q, Device, d, h);
    if LongestResident(c.tree, q, Device, c.tree[d].depth) {
      LongestStays(c.tree, c1.tree, q, d, c.tree[d].depth);
      LackedExactly(c1.tree, q, d, h);
    }
    var c2;
    c2, ok := BringTo(c1, After(live, id, r1), id, r1, Device, h, size);
    StepTrans(c, live, id, r, c1, r1, c2, r1, size);
    c', r' := c2, r1;
    if ok {
      MatchedKept(c1.tree, c2.tree, q, d, h);
      MatchedSpells(c2.tree, r.tokens, size, d, h, KeyPages(r.tokens, size));
      c', r' := HoldNode(c2, After(live, id, r1), id, r1, Device, h, size);
      StepTrans(c, live, id, r, c2, r1, c', r', size);
      assert Kept(c2.tree, c'.tree, h, Device);
      MatchedKept(c2.tree, c'.tree, q, d, h);
    }
  }

  /** Pages loaded back from the host for matches of these depths. */
  function Loaded(dm: nat, hm: nat, noHost: bool): nat {
    if !noHost && hm > dm then hm - dm else 0
  }

  /** Pages of the prompt found in the cache. */
  function Found(dm: nat, hm: nat, noHost: bool): nat {
    if noHost then dm else Max(dm, hm)
  }

  /** The room asked for matches of these depths and a chunk of this many tokens is there. */
  predicate RoomThere(c: Cache, dm: nat, hm: nat, tokens: int, cfg: Config)
    requires cfg.size > 0
  {
    Asked(dm, hm, tokens, cfg) <= |c.device.free|
  }

  function Asked(dm: nat, hm: nat, tokens: int, cfg: Config): int
    requires cfg.size > 0
  {
    PagesAsked(Loaded(dm, hm, cfg.noHost) * cfg.size + tokens + cfg.decode, cfg.size)
  }

  function ChunkTokens(remaining: int, prefill: nat, dm: nat, hm: nat, cfg: Config): int {
    Min(remaining, prefill - Begins(dm, hm, cfg))
  }

  /** Match the prompt and make room for what the first chunk will take; refuse if a slot, room or admission is lacking. */
  method ScheduleFirstChunk(c: Cache, ghost live: Live, ghost id: string, r: Request, remaining: int, cfg: Config,
                            slots: bool, admit: bool, now: int)
    returns (c': Cache, took: bool, d: NodeId, h: NodeId, tokens: int)
    requires Begin(c, live, id, r, cfg.size)
    ensures StepOk(c, live, id, r, c', r, cfg.size)
    ensures took ==> Matched(c'.tree, KeyPages(r.tokens, cfg.size), d, h)
    ensures took ==> tokens == ChunkTokens(remaining, r.prefill, c'.tree[d].depth, c'.tree[h].depth, cfg)
    ensures took ==> Best(c.tree, KeyPages(r.tokens, cfg.size), c'.tree[d].depth, c'.tree[h].depth, cfg.noPrefix)
    ensures took ==> RoomThere(c', c'.tree[d].depth, c'.tree[h].depth, tokens, cfg)
    ensures took && !cfg.noPrefix ==> LongestResident(c'.tree, KeyPages(r.tokens, cfg.size), Device, c'.tree[d].depth)
    ensures FallsShort(c, r, remaining, cfg) && slots && admit ==> took && Short(c', c'.tree[d].depth, c'.tree[h].depth, tokens, cfg)
    ensures Roomy(c, r, remaining, cfg) && slots && admit ==> took
  {
    took, tokens := false, 0;
    if !slots {
      c', d, h := c, ROOT, ROOT;
      QuietStart(c, live, id, r, cfg.size);
    } else {
      var c1;
      c1, d, h := MatchFor(c, live, id, r, KeyPages(r.tokens, cfg.size), now, cfg.noPrefix, cfg.size);
      BestSame(c.tree, c1.tree, KeyPages(r.tokens, cfg.size), c1.tree[d].depth, c1.tree[h].depth, cfg.noPrefix);
      assert After(live, id, r) == live;
      var ok;
      c', ok, tokens := RoomForChunk(c1, live, id, r, d, h, remaining, cfg);
      StepTrans(c, live, id, r, c1, r, c', r, cfg.size);
      took := ok && admit;
      ShortAt(c, r, remaining, cfg, c1, d, h, tokens);
      RoomyAt(c, r, remaining, cfg, c1, d, h, tokens);
    }
  }

  /** The room asked for is there without evicting anything, and yet it is too little. */
  ghost predicate FallsShort(c: Cache, r: Request, remaining: int, cfg: Config)
    requires cfg.size > 0 && WF(c.tree)
  {
    && !cfg.noPrefix
    && exists dm, hm {:trigger Best(c.tree, KeyPages(r.tokens, cfg.size), dm, hm, false)} ::
         Best(c.tree, KeyPages(r.tokens, cfg.size), dm, hm, false) && ShortFor(c, r, remaining, cfg, dm, hm)
  }

  ghost predicate ShortFor(c: Cache, r: Request, remaining: int, cfg: Config, dm: nat, hm: nat)
    requires cfg.size > 0
  {
    var tokens := ChunkTokens(remaining, r.prefill, dm, hm, cfg);
    RoomThere(c, dm, hm, tokens, cfg) && Short(c, dm, hm, tokens, cfg)
  }

  lemma ShortAt(c: Cache, r: Request, remaining: int, cfg: Config, c1: Cache, d: NodeId, h: NodeId, tokens: int)
    requires cfg.size > 0 && WF(c.tree) && d in c1.tree && h in c1.tree && c1.device.free == c.device.free
    requires Best(c.tree, KeyPages(r.tokens, cfg.size), c1.tree[d].depth, c1.tree[h].depth, cfg.noPrefix)
    requires tokens == ChunkTokens(remaining, r.prefill, c1.tree[d].depth, c1.tree[h].depth, cfg)
    ensures FallsShort(c, r, remaining, cfg) ==>
              RoomThere(c1, c1.tree[d].depth, c1.tree[h].depth, tokens, cfg) && Short(c1, c1.tree[d].depth, c1.tree[h].depth, tokens, cfg)
  {
    if FallsShort(c, r, remaining, cfg) {
      var q := KeyPages(r.tokens, cfg.size);
      var dm, hm :| Best(c.tree, q, dm, hm, false) && ShortFor(c, r, remaining, cfg, dm, hm);
      OneLongest(c.tree, q, Device, dm, c1.tree[d].depth);
      OneLongest(c.tree, q, Host, hm, c1.tree[h].depth);
    }
  }

  lemma OneLongest(t: Tree, q: seq<Page>, tier: Tier, a: nat, b: nat)
    requires WF(t) && LongestResident(t, q, tier, a) && LongestResident(t, q, tier, b)
    ensures a == b
  {
  }

  /** Evict under a lock on the device match until the chunk's pages are free. */
  method RoomForChunk(c: Cache, ghost live: Live, ghost id: string, r: Request, d: NodeId, h: NodeId, remaining: int, cfg: Config)
    returns (c': Cache, ok: bool, tokens: int)
    requires Begin(c, live, id, r, cfg.size) && Matched(c.tree, KeyPages(r.tokens, cfg.size), d, h)
    ensures StepOk(c, live, id, r, c', r, cfg.size) && Matched(c'.tree, KeyPages(r.tokens, cfg.size), d, h)
    ensures c'.tree[d].depth == c.tree[d].depth && c'.tree[h].depth == c.tree[h].depth
    ensures RoomThere(c, c.tree[d].depth, c.tree[h].depth, tokens, cfg) ==> ok && |c'.device.free| == |c.device.free|
    ensures LongestResident(c.tree, KeyPages(r.tokens, cfg.size), Device, c.tree[d].depth)
            ==> LongestResident(c'.tree, KeyPages(r.tokens, cfg.size), Device, c.tree[d].depth)
    ensures tokens == ChunkTokens(remaining, r.prefill, c'.tree[d].depth, c'.tree[h].depth, cfg)
    ensures ok ==> RoomThere(c', c'.tree[d].depth, c'.tree[h].depth, tokens, cfg)
  {
    var dm, hm := c.tree[d].depth, c.tree[h].depth;
    tokens := ChunkTokens(remaining, r.prefill, dm, hm, cfg);
    c', ok := RoomFor(c, live, id, r, Device, d, Device, Asked(dm, hm, tokens, cfg), cfg.size);
    assert Kept(c.tree, c'.tree, h, Other(Device));
    MatchedKept(c.tree, c'.tree, KeyPages(r.tokens, cfg.size), d, h);
    if LongestResident(c.tree, KeyPages(r.tokens, cfg.size), Device, dm) {
      LongestStays(c.tree, c'.tree, KeyPages(r.tokens, cfg.size), d, dm);
    }
  }

  lemma QuietStart(c: Cache, live: Live, id: string, r: Request, size: nat)
    requires Begin(c, live, id, r, size)
    ensures StepOk(c, live, id, r, c, r, size)
  {
    OthersSame(c.tree, live, id);
  }

  /** A chunk from `begin` stays within the prefill, and is empty only at its end. */
  predicate ChunkFits(prefill: nat, begin: int, tokens: int) {
    begin + tokens <= prefill && (begin + tokens < prefill ==> tokens > 0)
  }

  /** Where the first chunk begins: after the whole pages found in the cache. */
  function Begins(dm: nat, hm: nat, cfg: Config): nat {
    Room(Found(dm, hm, cfg.noHost), cfg.size)
  }

  /** Lock the match, loading the host's part of it back first if the host knows more. */
  method HoldMatch(c: Cache, ghost live: Live, ghost id: string, r: Request, d: NodeId, h: NodeId, cfg: Config)
    returns (c': Cache, r': Request, ok: bool)
    requires Begin(c, live, id, r, cfg.size) && Bare(r) && Matched(c.tree, KeyPages(r.tokens, cfg.size), d, h)
    ensures ok ==> StepOk(c, live, id, r, c', r', cfg.size) && r' == r.(dev := r'.dev, host := r'.host) && r'.dev.Some?
    ensures ok ==> c'.tree[r'.dev.value].depth == Found(c.tree[d].depth, c.tree[h].depth, cfg.noHost)
    ensures ok ==> |c'.device.free| >= |c.device.free| - Loaded(c.tree[d].depth, c.tree[h].depth, cfg.noHost)
    ensures Loaded(c.tree[d].depth, c.tree[h].depth, cfg.noHost) <= |c.device.free| ==> ok
    ensures LongestResident(c.tree, KeyPages(r.tokens, cfg.size), Device, c.tree[d].depth) ==>
              && (ok <==> Loaded(c.tree[d].depth, c.tree[h].depth, cfg.noHost) <= |c.device.free|)
              && (ok ==> |c'.device.free| == |c.device.free| - Loaded(c.tree[d].depth, c.tree[h].depth, cfg.noHost))
  {
    if !cfg.noHost && c.tree[h].depth > c.tree[d].depth {
      c', r', ok := LoadBack(c, live, id, r, d, h, cfg.size);
    } else {
      MatchedSpells(c.tree, r.tokens, cfg.size, d, h, KeyPages(r.tokens, cfg.size));
      c', r' := HoldNode(c, live, id, r, Device, d, cfg.size);
      assert Kept(c.tree, c'.tree, d, Device);
      MatchKept(c.tree, c'.tree, KeyPages(r.tokens, cfg.size), Device, d);
      ok := true;
    }
  }

  /** The chunk after its pages were taken. */
  function Chunked(r: Request, begin: int, tokens: int, reserve: int): Request {
    r.(phase := if begin + tokens == r.prefill then PrefillDone else Prefilling, start := begin, size := tokens, reserve := reserve)
  }

  lemma ChunkOk(t: Tree, r: Request, begin: int, tokens: int, reserve: int, size: nat)
    requires size > 0 && r.dev.Some? && r.dev.value in t && r.pairs == [] && r.prefill <= |r.tokens|
    requires begin + tokens + r.tail <= Room(t[r.dev.value].depth + |r.local|, size) && 0 <= begin
    requires ChunkFits(r.prefill, begin, tokens)
    ensures PhaseOk(t, Chunked(r, begin, tokens, reserve), size)
  {
  }

  lemma RoomTaken(tokens: int, decode: nat, size: nat)
    requires size > 0
    ensures var (n, tail) := Grow(Grow((0, 0), tokens, size), decode, size); Room(n, size) - tail == tokens + decode
    ensures PagesFor(tokens, 0, size) + PagesFor(decode, Grow((0, 0), tokens, size).1, size) == PagesFor(tokens + decode, 0, size)
  {
    TwoAcquires(tokens, decode, size);
    GrowCovers((0, 0), tokens, size);
    GrowCovers(Grow((0, 0), tokens, size), decode, size);
    RoomIs(Grow(Grow((0, 0), tokens, size), decode, size).0, size);
  }

  /** Pages of its own for the first chunk and for the decode step after it. */
  method TakeFirstPages(c: Cache, ghost live: Live, ghost id: string, r: Request, tokens: int, cfg: Config)
    returns (c': Cache, r': Request, threw: bool)
    requires Begin(c, live, id, r, cfg.size) && r.local == [] && r.tail == 0
    ensures StepOk(c, live, id, r, c', r', cfg.size) && c'.tree == c.tree && r' == r.(local := r'.local, tail := r'.tail)
    ensures threw <==> PagesFor(tokens + cfg.decode, 0, cfg.size) > |c.device.free|
    ensures !threw ==> Room(|r'.local|, cfg.size) - r'.tail == tokens + cfg.decode
  {
    RoomTaken(tokens, cfg.decode, cfg.size);
    var ok;
    c', r', ok := AcquireTokens(c, live, id, r, tokens, cfg.size);
    threw := !ok;
    if ok {
      var c1, r1 := c', r';
      c', r', ok := AcquireTokens(c1, After(live, id, r1), id, r1, cfg.decode, cfg.size);
      StepTrans(c, live, id, r, c1, r1, c', r', cfg.size);
      threw := !ok;
    }
  }

  /** The device pages do not suffice for what is loaded back and taken. */
  predicate Short(c: Cache, dm: nat, hm: nat, tokens: int, cfg: Config)
    requires cfg.size > 0
  {
    Loaded(dm, hm, cfg.noHost) + PagesFor(tokens + cfg.decode, 0, cfg.size) > |c.device.free|
  }

  lemma ShortIs(c: Cache, c1: Cache, dm: nat, hm: nat, tokens: int, cfg: Config, ok: bool)
    requires cfg.size > 0 && (ok <==> Loaded(dm, hm, cfg.noHost) <= |c.device.free|)
    requires ok ==> |c1.device.free| == |c.device.free| - Loaded(dm, hm, cfg.noHost)
    ensures Short(c, dm, hm, tokens, cfg) <==> !ok || PagesFor(tokens + cfg.decode, 0, cfg.size) > |c1.device.free|
  {
  }

  lemma ShortOnlyIf(dm: nat, hm: nat, tokens: int, cfg: Config, free: nat)
    requires cfg.size > 0 && Asked(dm, hm, tokens, cfg) <= free
    ensures Loaded(dm, hm, cfg.noHost) + PagesFor(tokens + cfg.decode, 0, cfg.size) > free
        ==> Loaded(dm, hm, cfg.noHost) > 0 && tokens + cfg.decode + cfg.size <= 0
  {
    FirstChunkRoom(Loaded(dm, hm, cfg.noHost), tokens, cfg.decode, cfg.size);
  }

  lemma FirstReaches(depth: nat, local: nat, tail: nat, tokens: int, cfg: Config)
    requires Room(local, cfg.size) - tail == tokens + cfg.decode
    ensures Room(depth, cfg.size) + tokens + tail <= Room(depth + local, cfg.size)
  {
    RoomIs(depth, cfg.size);
    RoomIs(local, cfg.size);
    RoomIs(depth + local, cfg.size);
    Distribute(depth, local, cfg.size);
  }

  lemma FirstOk(t: Tree, r: Request, r1: Request, begin: nat, tokens: int, cfg: Config)
    requires cfg.size > 0 && r.dev.Some? && r.dev.value in t && r.pairs == []
    requires begin == Room(t[r.dev.value].depth, cfg.size) && ChunkFits(r.prefill, begin, tokens) && r.prefill <= |r.tokens|
    requires r1 == r.(local := r1.local, tail := r1.tail) && Room(|r1.local|, cfg.size) - r1.tail == tokens + cfg.decode
    ensures PhaseOk(t, Chunked(r1, begin, tokens, cfg.decode), cfg.size)
    ensures Windowed(r, Chunked(r1, begin, tokens, cfg.decode), begin, tokens, cfg.decode)
  {
    FirstReaches(t[r.dev.value].depth, |r1.local|, r1.tail, tokens, cfg);
    ChunkOk(t, r1, begin, tokens, cfg.decode, cfg.size);
  }

  /** Take pages for the chunk and for the decode step after it, and set the window. */
  method TakeChunk(c: Cache, ghost live: Live, ghost id: string, r: Request, begin: nat, tokens: int, cfg: Config)
    returns (c': Cache, r': Request, threw: bool)
    requires Begin(c, live, id, r, cfg.size) && r.dev.Some? && r.local == [] && r.tail == 0 && r.pairs == []
    requires begin == Room(c.tree[r.dev.value].depth, cfg.size) && ChunkFits(r.prefill, begin, tokens) && r.prefill <= |r.tokens|
    ensures threw <==> PagesFor(tokens + cfg.decode, 0, cfg.size) > |c.device.free|
    ensures !threw ==> StepOk(c, live, id, r, c', r', cfg.size) && PhaseOk(c'.tree, r', cfg.size)
    ensures !threw ==> Windowed(r, r', begin, tokens, cfg.decode)
    ensures !threw ==> c'.tree == c.tree && r'.dev == r.dev
  {
    c', r', threw := TakeFirstPages(c, live, id, r, tokens, cfg);
    if !threw {
      ghost var r1 := r';
      FirstOk(c.tree, r, r1, begin, tokens, cfg);
      r' := Chunked(r', begin, tokens, cfg.decode);
      Relabel(c, live, id, r, c', r1, r', cfg.size);
    }
  }

  /** The request holds a device path of this many pages. */
  ghost predicate HoldsDepth(t: Tree, r: Request, depth: nat) {
    r.dev.Some? && r.dev.value in t && t[r.dev.value].depth == depth
  }

  /** Lock the match and take pages for the chunk and for the decode step after it. The source does not look at whether the
      load-back succeeded: the failure here stands for the access to a missing device page that follows. */
  method ApplyFirstChunk(c: Cache, ghost live: Live, ghost id: string, r: Request, d: NodeId, h: NodeId, tokens: int, cfg: Config)
    returns (c': Cache, r': Request, threw: bool)
    requires Begin(c, live, id, r, cfg.size) && Bare(r) && Matched(c.tree, KeyPages(r.tokens, cfg.size), d, h)
    requires RoomThere(c, c.tree[d].depth, c.tree[h].depth, tokens, cfg) && r.prefill <= |r.tokens|
    requires ChunkFits(r.prefill, Begins(c.tree[d].depth, c.tree[h].depth, cfg), tokens)
    ensures threw ==> Loaded(c.tree[d].depth, c.tree[h].depth, cfg.noHost) > 0 && tokens + cfg.decode + cfg.size <= 0
    ensures LongestResident(c.tree, KeyPages(r.tokens, cfg.size), Device, c.tree[d].depth) ==>
              (threw <==> Short(c, c.tree[d].depth, c.tree[h].depth, tokens, cfg))
    ensures !threw ==> StepOk(c, live, id, r, c', r', cfg.size) && PhaseOk(c'.tree, r', cfg.size)
    ensures !threw ==> Windowed(r, r', Begins(c.tree[d].depth, c.tree[h].depth, cfg), tokens, cfg.decode)
    ensures !threw ==> HoldsDepth(c'.tree, r', Found(c.tree[d].depth, c.tree[h].depth, cfg.noHost))
  {
    var begin := Begins(c.tree[d].depth, c.tree[h].depth, cfg);
    ShortOnlyIf(c.tree[d].depth, c.tree[h].depth, tokens, cfg, |c.device.free|);
    var c1, r1, ok := HoldMatch(c, live, id, r, d, h, cfg);
    c', r', threw := c1, r1, !ok;
    if LongestResident(c.tree, KeyPages(r.tokens, cfg.size), Device, c.tree[d].depth) {
      ShortIs(c, c1, c.tree[d].depth, c.tree[h].depth, tokens, cfg, ok);
    }
    if ok {
      c', r', threw := TakeChunk(c1, After(live, id, r1), id, r1, begin, tokens, cfg);
      if !threw { StepTrans(c, live, id, r, c1, r1, c', r', cfg.size); }
    }
  }

  /** The request has moved to the window [begin, begin + tokens), and is done with its prefill exactly at the end of it. */
  ghost predicate Windowed(r: Request, r': Request, begin: int, tokens: int, reserve: int) {
    && r'.start == begin && r'.size == tokens && r'.reserve == reserve
    && r'.phase == (if begin + tokens == r.prefill then PrefillDone else Prefilling)
    && r'.tokens == r.tokens && r'.prefill == r.prefill
  }

  /** The settings and the request for which the first chunk can fail: pages may be loaded back from the host, and the prefill
      length, the decode step and one page more still end within the whole pages of the prompt. */
  predicate StopsShort(r: Request, cfg: Config)
    requires cfg.size > 0
  {
    !cfg.noHost && !cfg.noPrefix && r.prefill + cfg.decode + cfg.size <= KeyLen(r.tokens, cfg.size) * cfg.size
  }

  /** More of the prompt's whole pages are in the cache than the prefill length reaches, so the first window has a negative
      size. */
  ghost predicate Overruns(t: Tree, r: Request, cfg: Config)
    requires cfg.size > 0 && WF(t)
  {
    exists dm, hm {:trigger Best(t, KeyPages(r.tokens, cfg.size), dm, hm, cfg.noPrefix)} ::
      Best(t, KeyPages(r.tokens, cfg.size), dm, hm, cfg.noPrefix) && Begins(dm, hm, cfg) > r.prefill
  }

  /** The settings and the request for which this can come about. */
  predicate CachedBeyond(r: Request, cfg: Config)
    requires cfg.size > 0
  {
    !cfg.noPrefix && r.prefill < KeyLen(r.tokens, cfg.size) * cfg.size
  }

  lemma OverrunsAt(t: Tree, r: Request, dm: nat, hm: nat, cfg: Config)
    requires cfg.size > 0 && WF(t) && Best(t, KeyPages(r.tokens, cfg.size), dm, hm, cfg.noPrefix)
    ensures Overruns(t, r, cfg) <==> Begins(dm, hm, cfg) > r.prefill
    ensures Overruns(t, r, cfg) ==> CachedBeyond(r, cfg)
  {
    var q := KeyPages(r.tokens, cfg.size);
    if Overruns(t, r, cfg) {
      var a, b :| Best(t, q, a, b, cfg.noPrefix) && Begins(a, b, cfg) > r.prefill;
      if !cfg.noPrefix {
        OneLongest(t, q, Device, a, dm);
        OneLongest(t, q, Host, b, hm);
        MulMonotone(Found(dm, hm, cfg.noHost), KeyLen(r.tokens, cfg.size), cfg.size);
      }
      RoomIs(Found(dm, hm, cfg.noHost), cfg.size);
    }
  }

  /** The room the first chunk asks for is there without evicting anything. */
  ghost predicate Roomy(c: Cache, r: Request, remaining: int, cfg: Config)
    requires cfg.size > 0 && WF(c.tree)
  {
    && !cfg.noPrefix
    && exists dm, hm {:trigger Best(c.tree, KeyPages(r.tokens, cfg.size), dm, hm, false)} ::
         Best(c.tree, KeyPages(r.tokens, cfg.size), dm, hm, false) && RoomThere(c, dm, hm, ChunkTokens(remaining, r.prefill, dm, hm, cfg), cfg)
  }

  lemma RoomyAt(c: Cache, r: Request, remaining: int, cfg: Config, c1: Cache, d: NodeId, h: NodeId, tokens: int)
    requires cfg.size > 0 && WF(c.tree) && d in c1.tree && h in c1.tree && c1.device.free == c.device.free
    requires Best(c.tree, KeyPages(r.tokens, cfg.size), c1.tree[d].depth, c1.tree[h].depth, cfg.noPrefix)
    requires tokens == ChunkTokens(remaining, r.prefill, c1.tree[d].depth, c1.tree[h].depth, cfg)
    ensures Roomy(c, r, remaining, cfg) ==> RoomThere(c1, c1.tree[d].depth, c1.tree[h].depth, tokens, cfg)
  {
    if Roomy(c, r, remaining, cfg) {
      var q := KeyPages(r.tokens, cfg.size);
      var dm, hm :| Best(c.tree, q, dm, hm, false) && RoomThere(c, dm, hm, ChunkTokens(remaining, r.prefill, dm, hm, cfg), cfg);
      OneLongest(c.tree, q, Device, dm, c1.tree[d].depth);
      OneLongest(c.tree, q, Host, hm, c1.tree[h].depth);
    }
  }

  /** The whole first-chunk event with the making of its operation. Once scheduled it throws exactly if more of the prompt is
      cached than its prefill length reaches: if not for want of device pages, then because the operation's inputs have a
      negative size. */
  method FirstChunk(c: Cache, ghost live: Live, ghost id: string, r: Request, remaining: int, cfg: Config,
                    slots: bool, admit: bool, now: int)
    returns (c': Cache, r': Request, took: bool, threw: bool)
    requires Begin(c, live, id, r, cfg.size) && r.phase == Submitted && PhaseOk(c.tree, r, cfg.size) && remaining > 0
    ensures !threw ==> StepOk(c, live, id, r, c', r', cfg.size) && PhaseOk(c'.tree, r', cfg.size)
    ensures !took ==> !threw && r' == r
    ensures took && !threw ==> StartsChunks(c.tree, r, c'.tree, r', remaining, cfg) && r'.size >= 0
    ensures took ==> (threw <==> Overruns(c.tree, r, cfg))
    ensures threw ==> CachedBeyond(r, cfg)
    ensures Roomy(c, r, remaining, cfg) && slots && admit ==> took
    ensures FallsShort(c, r, remaining, cfg) && slots && admit ==> took && threw
  {
    var d, h, tokens;
    c', took, d, h, tokens := ScheduleFirstChunk(c, live, id, r, remaining, cfg, slots, admit, now);
    r', threw := r, false;
    if took {
      var c1 := c';
      FirstChunkEdges(r, c1.tree[d].depth, c1.tree[h].depth, remaining, cfg);
      OverrunsAt(c.tree, r, c1.tree[d].depth, c1.tree[h].depth, cfg);
      assert After(live, id, r) == live;
      c', r', threw := ApplyFirstChunk(c1, live, id, r, d, h, tokens, cfg);
      if !threw {
        StepTrans(c, live, id, r, c1, r, c', r', cfg.size);
        assert ChunkAfter(c.tree, r, c'.tree, r', c1.tree[d].depth, c1.tree[h].depth, remaining, cfg);
        var shifted;
        shifted, threw := ComputeShiftedInputIds(r'.tokens, r'.prefill, r'.start, r'.size);
      }
    }
  }

  lemma FirstChunkEdges(r: Request, dm: nat, hm: nat, remaining: int, cfg: Config)
    requires cfg.size > 0 && dm <= KeyLen(r.tokens, cfg.size) && hm <= KeyLen(r.tokens, cfg.size) && remaining > 0
    ensures ChunkFits(r.prefill, Begins(dm, hm, cfg), ChunkTokens(remaining, r.prefill, dm, hm, cfg))
    ensures ChunkTokens(remaining, r.prefill, dm, hm, cfg) + cfg.decode + cfg.size <= 0
        ==> r.prefill + cfg.decode + cfg.size <= KeyLen(r.tokens, cfg.size) * cfg.size
  {
    RoomIs(Found(dm, hm, cfg.noHost), cfg.size);
    MulMonotone(Found(dm, hm, cfg.noHost), KeyLen(r.tokens, cfg.size), cfg.size);
  }

  /** The first window begins right after the longest prefix of the prompt's whole pages that the cache had on either tier,
      all of which the request now holds on the device, and takes what the budget allows. */
  ghost predicate StartsChunks(t: Tree, r: Request, t': Tree, r': Request, remaining: int, cfg: Config)
    requires cfg.size > 0 && WF(t)
  {
    exists dm, hm {:trigger ChunkAfter(t, r, t', r', dm, hm, remaining, cfg)} :: ChunkAfter(t, r, t', r', dm, hm, remaining, cfg)
  }

  ghost predicate ChunkAfter(t: Tree, r: Request, t': Tree, r': Request, dm: nat, hm: nat, remaining: int, cfg: Config)
    requires cfg.size > 0 && WF(t)
  {
    && Best(t, KeyPages(r.tokens, cfg.size), dm, hm, cfg.noPrefix)
    && HoldsDepth(t', r', Found(dm, hm, cfg.noHost))
    && Windowed(r, r', Begins(dm, hm, cfg), ChunkTokens(remaining, r.prefill, dm, hm, cfg), cfg.decode)
  }

  // ---------------------------------------------------------------- later chunks

  /** Where chunks are inserted as they run: whole pages q of the request beyond its device node move from the request
      to the tree, and its device reference moves to the end of them. */
  method InsertHybridCache(c: Cache, ghost live: Live, ghost id: string, r: Request, q: seq<Page>, cfg: Config, now: int)
    returns (c': Cache, r': Request)
    requires Begin(c, live, id, r, cfg.size) && r.dev.Some? && r.pairs == [] && q <= FullPages(r.tokens, cfg.size)
    requires |q| <= c.tree[r.dev.value].depth + |r.local|
    ensures StepOk(c, live, id, r, c', r', cfg.size) && r' == r.(dev := r'.dev, local := r'.local) && r'.dev.Some?
    ensures c'.tree[r'.dev.value].depth + |r'.local| == c.tree[r.dev.value].depth + |r.local|
    ensures |c'.device.free| >= |c.device.free|
    ensures cfg.hybrid && |q| > c.tree[r.dev.value].depth ==> Path(c'.tree, r'.dev.value) == q
    ensures !(cfg.hybrid && |q| > c.tree[r.dev.value].depth) ==> c' == c && r' == r
  {
    c', r' := c, r;
    QuietStart(c, live, id, r, cfg.size);
    var prefix := PrefixPages(c, live, id, r, cfg.size);
    if cfg.hybrid && |q| > |prefix| {
      var c1, r1, last := InsertFrom(c, live, id, r, q, |prefix|, now, cfg.size);
      c', r' := HoldNode(c1, After(live, id, r1), id, r1, Device, last, cfg.size);
      StepTrans(c, live, id, r, c1, r1, c', r', cfg.size);
      assert Kept(c1.tree, c'.tree, last, Device);
      assert |Path(c'.tree, last)| == |q|;
    }
  }

  /** Moving pages from the request to the tree keeps the window covered. */
  lemma CoversMoved(t: Tree, r: Request, t': Tree, r': Request, size: nat)
    requires r.dev.Some? && r.dev.value in t && r'.dev.Some? && r'.dev.value in t' && Covers(t, r, size)
    requires r' == r.(dev := r'.dev, local := r'.local)
    requires t'[r'.dev.value].depth + |r'.local| == t[r.dev.value].depth + |r.local|
    ensures Covers(t', r', size)
  {
  }

  /** Whole pages up to the end of the window. */
  function WindowPages(r: Request, size: nat): (q: seq<Page>)
    requires size > 0 && r.start + r.size >= 0
    ensures q <= FullPages(r.tokens, size) && |q| * size <= r.start + r.size
  {
    var end := (r.start + r.size) / size;
    var all := FullPages(r.tokens, size);
    MulMonotone(|all|, end, size);
    assert r.start + r.size == end * size + (r.start + r.size) % size;
    if end < |all| then all[..end] else all
  }

  lemma FitsInRoom(pages: nat, end: int, n: nat, size: nat)
    requires size > 0 && pages * size <= end <= Room(n, size)
    ensures pages <= n
  {
    RoomIs(n, size);
    MulMonotone(n + 1, pages, size);
  }

  lemma WindowCovered(t: Tree, r: Request, size: nat)
    requires size > 0 && r.dev.Some? && r.dev.value in t && Covers(t, r, size) && r.start + r.size >= 0
    ensures |WindowPages(r, size)| <= t[r.dev.value].depth + |r.local|
  {
    FitsInRoom(|WindowPages(r, size)|, r.start + r.size, t[r.dev.value].depth + |r.local|, size);
  }

  lemma AcquireWithin(num: nat, tail: nat, size: nat)
    requires size > 0
    ensures PagesFor(num, tail, size) <= PagesAsked(num, size)
  {
    AskedIsCeil(num, size);
    if num > tail { DivMonotone(num - tail + size - 1, num + size - 1, size); }
  }

  lemma NextReaches(depth: nat, held: (nat, nat), tokens: nat, size: nat, end: int)
    requires size > 0 && end + held.1 <= Room(depth + held.0, size)
    ensures var (n, tail) := Grow(held, tokens, size); end + tokens + tail <= Room(depth + n, size)
  {
    RoomIs(depth + held.0, size);
    RoomIs(depth + Grow(held, tokens, size).0, size);
    GrowCovers(held, tokens, size);
    Distribute(depth, held.0, size);
    Distribute(depth, Grow(held, tokens, size).0, size);
  }

  lemma NextOk(t: Tree, r: Request, r1: Request, tokens: nat, cfg: Config)
    requires cfg.size > 0 && r.dev.Some? && r.dev.value in t && r.pairs == [] && Covers(t, r, cfg.size)
    requires 0 <= r.start + r.size && 0 < tokens && r.start + r.size + tokens <= r.prefill <= |r.tokens|
    requires r1 == r.(local := r1.local, tail := r1.tail) && (|r1.local|, r1.tail) == Grow((|r.local|, r.tail), tokens, cfg.size)
    ensures PhaseOk(t, Chunked(r1, r.start + r.size, tokens, cfg.decode), cfg.size)
    ensures Windowed(r, Chunked(r1, r.start + r.size, tokens, cfg.decode), r.start + r.size, tokens, cfg.decode)
  {
    NextReaches(t[r.dev.value].depth, (|r.local|, r.tail), tokens, cfg.size, r.start + r.size);
    ChunkOk(t, r1, r.start + r.size, tokens, cfg.decode, cfg.size);
  }

  /** Take pages for the next chunk and move the window to it. */
  method NextChunk(c: Cache, ghost live: Live, ghost id: string, r: Request, tokens: nat, cfg: Config)
    returns (c': Cache, r': Request, threw: bool)
    requires Begin(c, live, id, r, cfg.size) && r.dev.Some? && r.pairs == [] && Covers(c.tree, r, cfg.size)
    requires 0 <= r.start + r.size && 0 < tokens && r.start + r.size + tokens <= r.prefill <= |r.tokens|
    ensures threw <==> PagesFor(tokens, r.tail, cfg.size) > |c.device.free|
    ensures !threw ==> StepOk(c, live, id, r, c', r', cfg.size) && PhaseOk(c'.tree, r', cfg.size)
    ensures !threw ==> Windowed(r, r', r.start + r.size, tokens, cfg.decode)
    ensures !threw ==> c'.tree == c.tree && r'.dev == r.dev && (|r'.local|, r'.tail) == Grow((|r.local|, r.tail), tokens, cfg.size)
  {
    var ok;
    c', r', ok := AcquireTokens(c, live, id, r, tokens, cfg.size);
    threw := !ok;
    if ok {
      ghost var r1 := r';
      NextOk(c.tree, r, r1, tokens, cfg);
      r' := Chunked(r', r.start + r.size, tokens, cfg.decode);
      Relabel(c, live, id, r, c', r1, r', cfg.size);
    }
  }

  /** Counted over tree path and own pages together the request holds just the pages these tokens added, wherever they have
      moved; and the whole pages of the finished window are in the tree if chunks are inserted as they run. */
  ghost predicate ChunkAdvances(t: Tree, r: Request, t': Tree, r': Request, tokens: int, cfg: Config)
    requires cfg.size > 0
  {
    && r.dev.Some? && r.dev.value in t && r'.dev.Some? && r'.dev.value in t' && WF(t')
    && (t'[r'.dev.value].depth + |r'.local|, r'.tail) == Grow((t[r.dev.value].depth + |r.local|, r.tail), tokens, cfg.size)
    && (cfg.hybrid && r.start + r.size >= 0 && |WindowPages(r, cfg.size)| > t[r.dev.value].depth
        ==> Path(t', r'.dev.value) == WindowPages(r, cfg.size))
  }

  lemma ChunkAdvancesIs(t: Tree, r: Request, t1: Tree, r1: Request, r2: Request, tokens: int, cfg: Config)
    requires cfg.size > 0 && WF(t1) && r.dev.Some? && r.dev.value in t && r1.dev.Some? && r1.dev.value in t1 && r.start + r.size >= 0
    requires r1 == r.(dev := r1.dev, local := r1.local) && r2.dev == r1.dev
    requires t1[r1.dev.value].depth + |r1.local| == t[r.dev.value].depth + |r.local|
    requires (|r2.local|, r2.tail) == Grow((|r1.local|, r1.tail), tokens, cfg.size)
    requires cfg.hybrid && |WindowPages(r, cfg.size)| > t[r.dev.value].depth ==> Path(t1, r1.dev.value) == WindowPages(r, cfg.size)
    ensures ChunkAdvances(t, r, t1, r2, tokens, cfg)
  {
  }

  lemma AdvancedFrom(t: Tree, t1: Tree, r: Request, t2: Tree, r2: Request, tokens: int, cfg: Config)
    requires cfg.size > 0 && ChunkAdvances(t1, r, t2, r2, tokens, cfg)
    requires r.dev.Some? && r.dev.value in t && t1[r.dev.value].depth == t[r.dev.value].depth
    ensures ChunkAdvances(t, r, t2, r2, tokens, cfg)
  {
  }

  /** Insert what the last chunk computed, take pages and move the window, given room for the new tokens. */
  method ApplyChunk(c: Cache, ghost live: Live, ghost id: string, r: Request, tokens: nat, cfg: Config, now: int)
    returns (c': Cache, r': Request, threw: bool)
    requires Begin(c, live, id, r, cfg.size) && r.phase == Prefilling && PhaseOk(c.tree, r, cfg.size)
    requires 0 < tokens && r.start + r.size + tokens <= r.prefill && PagesAsked(tokens, cfg.size) <= |c.device.free|
    ensures !threw && StepOk(c, live, id, r, c', r', cfg.size) && PhaseOk(c'.tree, r', cfg.size)
    ensures Windowed(r, r', r.start + r.size, tokens, cfg.decode) && ChunkAdvances(c.tree, r, c'.tree, r', tokens, cfg)
  {
    WindowCovered(c.tree, r, cfg.size);
    var c1, r1 := InsertHybridCache(c, live, id, r, WindowPages(r, cfg.size), cfg, now);
    CoversMoved(c.tree, r, c1.tree, r1, cfg.size);
    AcquireWithin(tokens, r1.tail, cfg.size);
    c', r', threw := NextChunk(c1, After(live, id, r1), id, r1, tokens, cfg);
    StepTrans(c, live, id, r, c1, r1, c', r', cfg.size);
    ChunkAdvancesIs(c.tree, r, c1.tree, r1, r', tokens, cfg);
  }

  /** A step that leaves the request alone leaves its phase in order. */
  lemma PhaseKept(c: Cache, live: Live, id: string, r: Request, c': Cache, size: nat)
    requires Begin(c, live, id, r, size) && PhaseOk(c.tree, r, size) && CacheInv(c', live) && AllKept(c.tree, c'.tree, live)
    ensures PhaseOk(c'.tree, r, size)
    ensures r.dev.Some? ==> r.dev.value in c.tree && r.dev.value in c'.tree && c'.tree[r.dev.value].depth == c.tree[r.dev.value].depth
  {
    OwnRefs(live, id, r, Device);
    OwnRefs(live, id, r, Host);
    FitsKept(c.tree, c'.tree, r, size);
  }

  /** A later chunk: make room, insert what the last chunk computed, take pages, move the window. It never fails. */
  method PrefillChunk(c: Cache, ghost live: Live, ghost id: string, r: Request, remaining: int, cfg: Config, admit: bool, now: int)
    returns (c': Cache, r': Request, took: bool, threw: bool)
    requires Begin(c, live, id, r, cfg.size) && r.phase == Prefilling && PhaseOk(c.tree, r, cfg.size) && remaining > 0
    ensures !threw && StepOk(c, live, id, r, c', r', cfg.size) && PhaseOk(c'.tree, r', cfg.size)
    ensures !took ==> r' == r
    ensures took ==> Windowed(r, r', r.start + r.size, Min(remaining, r.prefill - (r.start + r.size)), cfg.decode)
    ensures took ==> ChunkAdvances(c.tree, r, c'.tree, r', Min(remaining, r.prefill - (r.start + r.size)), cfg)
  {
    var tokens := Min(remaining, r.prefill - (r.start + r.size));
    var ok;
    c', ok := RoomUnlocked(c, live, id, r, PagesAsked(tokens, cfg.size), cfg.size);
    PhaseKept(c, live, id, r, c', cfg.size);
    r', took, threw := r, ok && admit, false;
    if took {
      var c1 := c';
      assert After(live, id, r) == live;
      c', r', threw := ApplyChunk(c1, live, id, r, tokens, cfg, now);
      StepTrans(c, live, id, r, c1, r, c', r', cfg.size);
      AdvancedFrom(c.tree, c1.tree, r, c'.tree, r', tokens, cfg);
    }
  }
}
