/** A prompt whose prefill length stops short of its whole pages can fail: for want of device pages, or because its first
    window has a negative size. */
module ShortPrefill {
  import opened Prelude
  import opened PageTree
  import opened TierState
  import opened TreeWalk
  import opened TreeFrames
  import opened BlockEvents
  import opened CacheState
  import opened CacheInsert
  import opened CacheRefs
  import opened CachedPaths
  import opened LocalPages
  import opened RequestState
  import opened PrefillEvents
  import opened World
  import opened SchedulerState

  /** Room is asked for fewer pages than the path to load back has. */
  lemma AskedTooLittle(prefill: nat, decode: nat, size: nat, n: nat, tokens: int, free: nat)
    requires size > 0 && prefill + decode + size <= n * size && n == free + 1 && tokens == prefill - n * size
    ensures PagesAsked(n * size + tokens + decode, size) <= free && tokens < 0
  {
    AskedIsCeil(prefill + decode, size);
    Distribute(free, 1, size);
    MulMonotone(free, CeilDiv(prefill + decode, size) - 1, size);
  }

  lemma NoneThere(c0: Cache, c: Cache, q: seq<Page>, alloc: seq<nat>, tier: Tier)
    requires WF(c0.tree) && WF(c.tree) && c0.tree.Keys == {ROOT} && c0.tree[ROOT].children == map[] && c0.tree[ROOT].run == []
    requires TrieInsert(c0.tree, c.tree, q, 0, alloc, tier)
    ensures LongestResident(c.tree, q, Other(tier), 0)
  {
    assert q[..0] == [];
    if q != [] {
      var r := q[..1];
      assert r[..0] == [] && r <= q;
      assert Descend(c0.tree, r[..0]) == Some(Pos(ROOT, 0));
      assert Descend(c0.tree, r) == None;
      assert InsertedAt(c0.tree, c.tree, q, 0, alloc, tier, r);
    }
  }

  /** The path is on the host and not on the device, where one page fewer is free. */
  ghost predicate OnHost(c: Cache, q: seq<Page>) {
    && CacheInv(c, Live(map[], map[])) && NoSnapshots(c.tree) && Told(c.log, c.tree)
    && |c.device.free| == |q| - 1 && PagesIn(c, Device) == multiset(PageIds(|q|)) && PagesIn(c, Host) == multiset(PageIds(|q| + 1))
    && Best(c.tree, q, 0, |q|, false)
  }

  /** The first path of an empty tree. */
  method InsertFirst(c0: Cache, tier: Tier, q: seq<Page>, alloc: seq<nat>, now: int) returns (c: Cache, last: NodeId, inserted: nat)
    requires CacheInv(c0, Live(map[], map[])) && NoSnapshots(c0.tree) && |alloc| == |q|
    ensures InsertedAs(c0, Live(map[], map[]), tier, q, 0, alloc, c, last, inserted)
  {
    NeverBlocked(c0.tree, q);
    var broken;
    c, last, inserted, broken := Insert(c0, Live(map[], map[]), tier, q, 0, alloc, now, ROOT);
  }

  method HostOnly(q: seq<Page>, hash: BlockHash, now: int) returns (c: Cache)
    requires q != []
    ensures OnHost(c, q)
  {
    var c0, alloc := EmptyCache(hash, |q|, 0), PageIds(|q| + 1);
    EmptyInv(hash, |q|, 0);
    var last, inserted;
    c, last, inserted := InsertFirst(c0, Host, q, alloc, now);
    HostBest(c0, c, q, last, inserted);
    OnHostIs(c0, c, q, alloc, last, inserted);
  }

  lemma OnHostIs(c0: Cache, c: Cache, q: seq<Page>, alloc: seq<nat>, last: NodeId, inserted: nat)
    requires WF(c0.tree) && NoSnapshots(c0.tree) && Told(c0.log, c0.tree) && |c0.device.free| == |q| - 1
    requires InsertedAs(c0, Live(map[], map[]), Host, q, 0, alloc, c, last, inserted) && Best(c.tree, q, 0, |q|, false)
    requires PagesIn(c0, Device) == multiset(PageIds(|q|)) && PagesIn(c0, Host) == multiset(PageIds(0)) && alloc == PageIds(|q| + 1)
    ensures OnHost(c, q)
  {
    assert PageIds(0) == [];
  }

  lemma HostBest(c0: Cache, c: Cache, q: seq<Page>, last: NodeId, inserted: nat)
    requires WF(c0.tree) && c0.tree.Keys == {ROOT} && c0.tree[ROOT].children == map[] && c0.tree[ROOT].run == []
    requires InsertedAs(c0, Live(map[], map[]), Host, q, 0, PageIds(|q| + 1), c, last, inserted)
    ensures WF(c.tree) && Best(c.tree, q, 0, |q|, false)
  {
    assert Path(c.tree, last) == q && q[..|q|] == q;
    NodeIsLongest(c.tree, q, Host, last);
    NoneThere(c0, c, q, PageIds(|q| + 1), Host);
  }

  lemma OneRequest(c: Cache, id: string, r: Request, size: nat, deviceTotal: nat, hostTotal: nat)
    requires size > 0 && CacheInv(c, Live(map[], map[])) && NoSnapshots(c.tree) && Told(c.log, c.tree)
    requires PagesIn(c, Device) == multiset(PageIds(deviceTotal)) && PagesIn(c, Host) == multiset(PageIds(hostTotal))
    requires r.phase == Submitted && Bare(r) && r.prefill <= |r.tokens|
    ensures WorldInv(c, map[id := r], size, deviceTotal, hostTotal)
  {
    assert LiveOf(map[]) == Live(map[], map[]);
    assert Locals(map[]) == map[];
    WorldSubmit(c, map[], id, r, size, deviceTotal, hostTotal);
    assert map[][id := r] == map[id := r];
  }

  lemma ShortThere(c: Cache, r: Request, remaining: int, cfg: Config)
    requires cfg.size > 0 && WF(c.tree) && StopsShort(r, cfg) && remaining > 0
    requires Best(c.tree, KeyPages(r.tokens, cfg.size), 0, KeyLen(r.tokens, cfg.size), false)
    requires |c.device.free| == KeyLen(r.tokens, cfg.size) - 1
    ensures FallsShort(c, r, remaining, cfg)
  {
    var n := KeyLen(r.tokens, cfg.size);
    RoomIs(n, cfg.size);
    AskedTooLittle(r.prefill, cfg.decode, cfg.size, n, ChunkTokens(remaining, r.prefill, 0, n, cfg), |c.device.free|);
    assert ShortFor(c, r, remaining, cfg, 0, n);
  }

  /** For every such request there is a cache, otherwise in order, in which its first chunk is scheduled with all the room it
      asks for, and then fails. */
  method FirstChunkFails(id: string, r: Request, remaining: int, cfg: Config, hash: BlockHash, now: int) returns (c: Cache, threw: bool)
    requires cfg.size > 0 && StopsShort(r, cfg) && remaining > 0
    requires r.phase == Submitted && Bare(r) && r.prefill <= |r.tokens|
    ensures WorldInv(c, map[id := r], cfg.size, KeyLen(r.tokens, cfg.size), KeyLen(r.tokens, cfg.size) + 1)
    ensures FallsShort(c, r, remaining, cfg) && threw
  {
    var n := KeyLen(r.tokens, cfg.size);
    c := HostOnly(KeyPages(r.tokens, cfg.size), hash, now);
    OneRequest(c, id, r, cfg.size, n, n + 1);
    ShortThere(c, r, remaining, cfg);
    WorldBegin(c, map[id := r], id, cfg.size, n, n + 1);
    var c', r', took;
    c', r', took, threw := FirstChunk(c, LiveOf(map[id := r]), id, r, remaining, cfg, true, true, now);
  }

  // ---------------------------------------------------------------- a first window of negative size

  /** The ids of a tree's pages, after those that stay free. */
  function LaterIds(free: nat, n: nat): (ids: seq<nat>)
    ensures |ids| == n
  {
    PageIds(free + 1 + n)[free..]
  }

  lemma LaterIdsRest(free: nat, n: nat, total: nat)
    requires total == free + 1 + n
    ensures multiset(PageIds(free + 1)) + multiset(LaterIds(free, n)) == multiset(PageIds(total))
  {
    var all := PageIds(total);
    assert all[..free] == PageIds(free + 1);
    MultisetSplit(all, free);
  }

  /** The path is on the device, with this many pages free beside it and nothing on the host. */
  ghost predicate OnDevice(c: Cache, q: seq<Page>, free: nat, total: nat) {
    && CacheInv(c, Live(map[], map[])) && NoSnapshots(c.tree) && Told(c.log, c.tree)
    && |c.device.free| >= free && PagesIn(c, Device) == multiset(PageIds(total)) && PagesIn(c, Host) == multiset(PageIds(0))
    && Best(c.tree, q, |q|, 0, false)
  }

  method DeviceOnly(q: seq<Page>, hash: BlockHash, free: nat, total: nat, now: int) returns (c: Cache)
    requires total == free + 1 + |q|
    ensures OnDevice(c, q, free, total)
  {
    var c0, alloc := EmptyCache(hash, free + 1, 0), LaterIds(free, |q|);
    EmptyInv(hash, free + 1, 0);
    var last, inserted;
    c, last, inserted := InsertFirst(c0, Device, q, alloc, now);
    DeviceBest(c0, c, q, alloc, last, inserted);
    LaterIdsRest(free, |q|, total);
    OnDeviceIs(c0, c, q, alloc, free, total, last, inserted);
  }

  lemma OnDeviceIs(c0: Cache, c: Cache, q: seq<Page>, alloc: seq<nat>, free: nat, total: nat, last: NodeId, inserted: nat)
    requires WF(c0.tree) && NoSnapshots(c0.tree) && Told(c0.log, c0.tree) && |c0.device.free| == free
    requires InsertedAs(c0, Live(map[], map[]), Device, q, 0, alloc, c, last, inserted) && Best(c.tree, q, |q|, 0, false)
    requires PagesIn(c0, Device) + multiset(alloc) == multiset(PageIds(total)) && PagesIn(c0, Host) == multiset(PageIds(0))
    ensures OnDevice(c, q, free, total)
  {
  }

  lemma DeviceBest(c0: Cache, c: Cache, q: seq<Page>, alloc: seq<nat>, last: NodeId, inserted: nat)
    requires WF(c0.tree) && c0.tree.Keys == {ROOT} && c0.tree[ROOT].children == map[] && c0.tree[ROOT].run == []
    requires InsertedAs(c0, Live(map[], map[]), Device, q, 0, alloc, c, last, inserted)
    ensures WF(c.tree) && Best(c.tree, q, |q|, 0, false)
  {
    assert Path(c.tree, last) == q && q[..|q|] == q;
    NodeIsLongest(c.tree, q, Device, last);
    NoneThere(c0, c, q, alloc, Device);
  }

  /** The pages asked for are at most those of a decode step. */
  lemma AskedAtMost(num: int, decode: nat, size: nat)
    requires size > 0 && num <= decode
    ensures PagesAsked(num, size) <= PagesFor(decode, 0, size)
  {
    if num >= 0 {
      AskedIsCeil(num, size);
      DivMonotone(num + size - 1, decode + size - 1, size);
    }
  }

  lemma BeyondThere(c: Cache, r: Request, remaining: int, cfg: Config)
    requires cfg.size > 0 && WF(c.tree) && CachedBeyond(r, cfg) && remaining > 0
    requires Best(c.tree, KeyPages(r.tokens, cfg.size), KeyLen(r.tokens, cfg.size), 0, false)
    requires |c.device.free| >= PagesFor(cfg.decode, 0, cfg.size)
    ensures Roomy(c, r, remaining, cfg) && Overruns(c.tree, r, cfg)
  {
    var n := KeyLen(r.tokens, cfg.size);
    RoomIs(n, cfg.size);
    var tokens := ChunkTokens(remaining, r.prefill, n, 0, cfg);
    AskedAtMost(tokens + cfg.decode, cfg.decode, cfg.size);
    assert RoomThere(c, n, 0, tokens, cfg);
    OverrunsAt(c.tree, r, n, 0, cfg);
  }

  /** Device pages for the prompt and one decode step, and the one that is never given out. */
  function Enough(r: Request, cfg: Config): nat
    requires cfg.size > 0
  {
    PagesFor(cfg.decode, 0, cfg.size) + 1 + KeyLen(r.tokens, cfg.size)
  }

  /** For every request whose prefill length ends before its whole pages do, and whatever the settings but for prefix matching,
      there is a cache in order in which its first chunk is scheduled and then throws. */
  method NegativeWindow(id: string, r: Request, remaining: int, cfg: Config, hash: BlockHash, now: int) returns (c: Cache, took: bool, threw: bool)
    requires cfg.size > 0 && CachedBeyond(r, cfg) && remaining > 0
    requires r.phase == Submitted && Bare(r) && r.prefill <= |r.tokens|
    ensures WorldInv(c, map[id := r], cfg.size, Enough(r, cfg), 0)
    ensures Overruns(c.tree, r, cfg) && took && threw
  {
    ghost var total := Enough(r, cfg);
    c := DeviceOnly(KeyPages(r.tokens, cfg.size), hash, PagesFor(cfg.decode, 0, cfg.size), Enough(r, cfg), now);
    OneRequest(c, id, r, cfg.size, total, 0);
    BeyondThere(c, r, remaining, cfg);
    took, threw := TryFirst(c, id, r, remaining, cfg, total, 0, now);
  }

  /** The first chunk of the only request. */
  method TryFirst(c: Cache, id: string, r: Request, remaining: int, cfg: Config, ghost deviceTotal: nat, ghost hostTotal: nat, now: int)
    returns (took: bool, threw: bool)
    requires cfg.size > 0 && remaining > 0 && r.phase == Submitted && WorldInv(c, map[id := r], cfg.size, deviceTotal, hostTotal)
    ensures Roomy(c, r, remaining, cfg) ==> took && (threw <==> Overruns(c.tree, r, cfg))
  {
    WorldBegin(c, map[id := r], id, cfg.size, deviceTotal, hostTotal);
    var c', r';
    c', r', took, threw := FirstChunk(c, LiveOf(map[id := r]), id, r, remaining, cfg, true, true, now);
  }

  /** Concretely: nine tokens in pages of four, of which five are to be prefilled. Device pages never run short, and yet the
      first chunk can throw. */
  lemma NegativeWindowExample(r: Request, cfg: Config)
    requires cfg.size == 4 && cfg.decode == 4 && !cfg.noPrefix && |r.tokens| == 9 && r.prefill == 5
    ensures CachedBeyond(r, cfg) && !StopsShort(r, cfg)
  {
    assert KeyLen(r.tokens, 4) == 2;
  }
}
