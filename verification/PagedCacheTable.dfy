/** One request's pages of one paged-cache group: borrowed pages first, then its own, over a sliding base. */
module PagedCacheTable {
  import opened Prelude
  import opened PagePool

  /** A group: rows and stride make up the tokens of a page; sliding groups keep a window of tokens only; history groups
      need every page from the start, state groups only the window at the end. */
  datatype Group = Group(rows: nat, stride: nat, window: Option<nat>, history: bool)

  ghost predicate GroupOk(g: Group) {
    g.rows > 0 && g.stride > 0 && (g.window.Some? ==> g.window.value > 0)
  }

  function PageTokens(g: Group): nat {
    g.rows * g.stride
  }

  lemma PageTokensPositive(g: Group)
    requires GroupOk(g)
    ensures PageTokens(g) > 0
  {
  }

  /** Pages that hold a number of tokens, counted in entries first as the tables do. */
  function PagesNeeded(tokens: int, g: Group): nat
    requires GroupOk(g)
  {
    var entries := if tokens <= 0 then 0 else CeilDiv(tokens, g.stride);
    (entries + g.rows - 1) / g.rows
  }

  lemma TwoLevels(pages: int, entries: int, g: Group)
    ensures pages * PageTokens(g) == (pages * g.rows) * g.stride
    ensures entries <= pages * g.rows ==> entries * g.stride <= pages * PageTokens(g)
    ensures pages * g.rows <= entries ==> pages * PageTokens(g) <= entries * g.stride
  {
    MulMonotone(entries, pages * g.rows, g.stride);
    MulMonotone(pages * g.rows, entries, g.stride);
  }

  /** Rounding up twice is rounding up once. */
  lemma PagesNeededIsCeil(tokens: nat, g: Group)
    requires GroupOk(g)
    ensures PageTokens(g) > 0 && PagesNeeded(tokens, g) == CeilDiv(tokens, PageTokens(g))
  {
    PageTokensPositive(g);
    var e: int := CeilDiv(tokens, g.stride);
    var p: int := CeilDiv(e, g.rows);
    TwoLevels(p, e, g);
    TwoLevels(p - 1, e - 1, g);
    if tokens == 0 { CeilDivUnique(0, g.stride, 0); }
    CeilDivUnique(tokens, PageTokens(g), p);
  }

  // ---------------------------------------------------------------- the table as a value

  datatype Table = Table(base: nat, borrowed: seq<nat>, owned: seq<nat>, cursor: nat, committed: nat)

  const FRESH := Table(0, [], [], 0, 0)

  function View(t: Table): seq<nat> {
    t.borrowed + t.owned
  }

  function End(t: Table): nat {
    t.base + |t.borrowed| + |t.owned|
  }

  /** The physical page of an absolute logical page. */
  function Phys(t: Table, l: int): Option<nat> {
    if t.base <= l < End(t) then Some(View(t)[l - t.base]) else None
  }

  /** The pages reach the cursor, and what is committed lies below it. */
  ghost predicate Covered(t: Table, g: Group)
    requires GroupOk(g)
  {
    PagesNeeded(t.cursor, g) <= End(t) && t.committed <= t.cursor
  }

  /** Pages that survive an operation keep their physical page. */
  ghost predicate SamePhys(t: Table, t': Table) {
    forall l :: t.base <= l < End(t) && t'.base <= l < End(t') ==> Phys(t', l) == Phys(t, l)
  }

  /** Like SamePhys, but logical pages [lo, hi) now hold the given ids. */
  ghost predicate Adopted(t: Table, t': Table, lo: int, ids: seq<nat>) {
    && (forall l :: lo <= l < lo + |ids| ==> Phys(t', l) == Some(ids[l - lo]))
    && (forall l :: t.base <= l < End(t) && t'.base <= l < End(t') && !(lo <= l < lo + |ids|) ==> Phys(t', l) == Phys(t, l))
  }

  function MinNat(a: nat, b: nat): nat { if a < b then a else b }

  /** Without its first n pages: borrowed ones go first, then owned ones. */
  function DropFront(t: Table, n: nat): Table
    requires n <= |t.borrowed| + |t.owned|
  {
    var b := MinNat(n, |t.borrowed|);
    t.(base := t.base + n, borrowed := t.borrowed[b..], owned := t.owned[n - b..])
  }

  /** The owned pages DropFront gives back. */
  function FrontOwned(t: Table, n: nat): seq<nat>
    requires n <= |t.borrowed| + |t.owned|
  {
    t.owned[..n - MinNat(n, |t.borrowed|)]
  }

  /** A table whose view is the tail of another's keeps every page it still has in its place. */
  lemma TailKeeps(t: Table, t': Table, n: nat)
    requires n <= |View(t)| && t'.base == t.base + n && View(t') == View(t)[n..]
    ensures End(t') == End(t) && SamePhys(t, t')
  {
    assert |View(t)| == |t.borrowed| + |t.owned| && |View(t')| == |t'.borrowed| + |t'.owned|;
  }

  lemma DropFrontView(t: Table, n: nat)
    requires n <= |t.borrowed| + |t.owned|
    ensures View(DropFront(t, n)) == View(t)[n..]
  {
    if n <= |t.borrowed| {
      assert t.owned[0..] == t.owned;
    } else {
      assert t.borrowed[|t.borrowed|..] == [];
    }
  }

  lemma DropFrontKeeps(t: Table, n: nat)
    requires n <= |t.borrowed| + |t.owned|
    ensures End(DropFront(t, n)) == End(t) && View(DropFront(t, n)) == View(t)[n..] && SamePhys(t, DropFront(t, n))
  {
    DropFrontView(t, n);
    TailKeeps(t, DropFront(t, n), n);
  }

  /** How many front pages lie below a logical page. */
  function Below(t: Table, page: nat): nat {
    if page <= t.base then 0 else MinNat(page - t.base, |t.borrowed| + |t.owned|)
  }

  // ---------------------------------------------------------------- operations on values

  function NeedFor(t: Table, target: nat, g: Group): nat
    requires GroupOk(g)
  {
    if PagesNeeded(target, g) > End(t) then PagesNeeded(target, g) - End(t) else 0
  }

  function Grown(t: Table, target: nat, nu: seq<nat>): Table {
    t.(owned := t.owned + nu, cursor := if target > t.cursor then target else t.cursor)
  }

  lemma GrownOk(t: Table, target: nat, nu: seq<nat>, g: Group)
    requires GroupOk(g) && Covered(t, g) && |nu| == (if target > t.cursor then NeedFor(t, target, g) else 0)
    ensures Covered(Grown(t, target, nu), g) && SamePhys(t, Grown(t, target, nu))
  {
    assert View(Grown(t, target, nu)) == View(t) + nu;
  }

  /** A sliding release: on an empty table the base moves at once, else front pages go as far as there are any. */
  function Released(t: Table, page: nat): Table {
    if |t.borrowed| + |t.owned| == 0 && page > t.base then t.(base := page) else DropFront(t, Below(t, page))
  }

  lemma ReleasedOk(t: Table, page: nat, g: Group)
    requires GroupOk(g) && Covered(t, g)
    ensures Covered(Released(t, page), g) && SamePhys(t, Released(t, page)) && Released(t, page).committed == t.committed
  {
    DropFrontKeeps(t, Below(t, page));
  }

  /** The first k owned pages become borrowed: no page changes its place. */
  function Lend(t: Table, k: nat, target: nat): Table
    requires k <= |t.owned|
  {
    t.(borrowed := t.borrowed + t.owned[..k], owned := t.owned[k..], committed := target)
  }

  lemma LendOk(t: Table, k: nat, target: nat, g: Group)
    requires GroupOk(g) && Covered(t, g) && k <= |t.owned| && target <= t.cursor
    ensures Covered(Lend(t, k, target), g) && View(Lend(t, k, target)) == View(t) && SamePhys(t, Lend(t, k, target))
  {
    assert View(Lend(t, k, target)) == View(t);
  }

  /** History adoption: the first |ids| owned pages make way for the snapshot's. */
  function AdoptHistory(t: Table, ids: seq<nat>, target: nat): Table
    requires |ids| <= |t.owned|
  {
    t.(borrowed := t.borrowed + ids, owned := t.owned[|ids|..], committed := target)
  }

  /** The adopted ids take the places right after the borrowed pages; every other page stays where it is. */
  lemma AdoptHistoryOk(t: Table, ids: seq<nat>, target: nat, g: Group)
    requires GroupOk(g) && Covered(t, g) && |ids| <= |t.owned| && target <= t.cursor
    ensures Covered(AdoptHistory(t, ids, target), g)
    ensures Adopted(t, AdoptHistory(t, ids, target), t.base + |t.borrowed|, ids)
  {
  }

  function LivePage(target: nat, window: nat, g: Group): nat
    requires GroupOk(g)
  {
    PageTokensPositive(g);
    (if target > window then target - window else 0) / PageTokens(g)
  }

  /** State checkpoint, first part: pages below the window of the target go. */
  function Trimmed(t: Table, target: nat, window: nat, g: Group): Table
    requires GroupOk(g)
  {
    DropFront(t, Below(t, LivePage(target, window, g)))
  }

  /** State checkpoint, second part: how many owned pages the snapshot keeps. */
  function SegmentLen(t: Table, page: nat): nat {
    var front := t.base + |t.borrowed|;
    if page <= front then 0 else MinNat(page - front, |t.owned|)
  }

  function Checkpointed(t: Table, target: nat, window: nat, g: Group): Table
    requires GroupOk(g)
  {
    PageTokensPositive(g);
    var t1 := Trimmed(t, target, window, g);
    Lend(t1, SegmentLen(t1, target / PageTokens(g)), target)
  }

  /** A checkpoint changes no surviving page; what it leaves behind are the pages of its places. */
  lemma CheckpointedOk(t: Table, target: nat, window: nat, g: Group)
    requires GroupOk(g) && Covered(t, g) && target <= t.cursor
    ensures Covered(Checkpointed(t, target, window, g), g) && SamePhys(t, Checkpointed(t, target, window, g))
  {
    PageTokensPositive(g);
    var t1 := Trimmed(t, target, window, g);
    var k := SegmentLen(t1, target / PageTokens(g));
    DropFrontKeeps(t, Below(t, LivePage(target, window, g)));
    LendOk(t1, k, target, g);
    SamePhysTrans(t, t1, Lend(t1, k, target));
  }

  lemma SamePhysTrans(t: Table, t1: Table, t2: Table)
    requires SamePhys(t, t1) && SamePhys(t1, t2) && t1.base <= t2.base && End(t2) <= End(t1)
    ensures SamePhys(t, t2)
  {
  }

  /** What a checkpoint leaves behind are the pages of its places. */
  lemma LeftBehindPages(t: Table, target: nat, window: nat, g: Group, i: nat)
    requires GroupOk(g) && i < |LeftBehind(t, target, window, g).pages|
    ensures var s := LeftBehind(t, target, window, g); Phys(t, s.base + i) == Some(s.pages[i])
  {
    var t1 := Trimmed(t, target, window, g);
    DropFrontKeeps(t, Below(t, LivePage(target, window, g)));
    assert View(t1)[|t1.borrowed| + i] == t1.owned[i];
  }

  lemma LeftBehindAll(t: Table, target: nat, window: nat, g: Group)
    requires GroupOk(g)
    ensures var s := LeftBehind(t, target, window, g);
            forall i :: 0 <= i < |s.pages| ==> Phys(t, s.base + i) == Some(s.pages[i])
  {
    forall i | 0 <= i < |LeftBehind(t, target, window, g).pages| {
      LeftBehindPages(t, target, window, g, i);
    }
  }

  /** State adoption: pages before the segment go, and the segment's ids replace the next |ids| pages. */
  function AdoptState(t: Table, ids: seq<nat>, base: nat, target: nat): Table
    requires t.base <= base && base - t.base + |ids| <= |t.borrowed| + |t.owned|
  {
    var t1 := DropFront(t, base - t.base + |ids|);
    t1.(base := base, borrowed := ids + t1.borrowed, committed := target)
  }

  lemma AdoptStateOk(t: Table, ids: seq<nat>, base: nat, target: nat, g: Group)
    requires GroupOk(g) && Covered(t, g) && target <= t.cursor
    requires t.base <= base && base - t.base + |ids| <= |t.borrowed| + |t.owned|
    ensures Covered(AdoptState(t, ids, base, target), g) && Adopted(t, AdoptState(t, ids, base, target), base, ids)
  {
    var n, t' := base - t.base + |ids|, AdoptState(t, ids, base, target);
    DropFrontKeeps(t, n);
    AdoptStateView(t, ids, base, target);
    AdoptedView(t, t', base, ids);
  }

  lemma AdoptStateView(t: Table, ids: seq<nat>, base: nat, target: nat)
    requires t.base <= base && base - t.base + |ids| <= |t.borrowed| + |t.owned|
    ensures View(AdoptState(t, ids, base, target)) == ids + View(DropFront(t, base - t.base + |ids|))
  {
    var t1 := DropFront(t, base - t.base + |ids|);
    assert (ids + t1.borrowed) + t1.owned == ids + (t1.borrowed + t1.owned);
  }

  lemma AdoptedView(t: Table, t': Table, base: nat, ids: seq<nat>)
    requires t.base <= base && base - t.base + |ids| <= |View(t)| && t'.base == base
    requires View(t') == ids + View(t)[base - t.base + |ids|..]
    ensures End(t') == End(t) && Adopted(t, t', base, ids)
  {
  }

  /** A segment that ends at a page-aligned target within the cursor always fits: the table has the pages to replace. */
  lemma StateAdoptionFits(t: Table, ids: seq<nat>, base: nat, target: nat, g: Group)
    requires GroupOk(g) && Covered(t, g) && SegmentFits(t, ids, base, target, g)
    ensures target <= t.cursor && t.base <= base && base - t.base + |ids| <= |t.borrowed| + |t.owned|
  {
    PagesNeededIsCeil(t.cursor, g);
    WithinCeil(base + |ids|, target, t.cursor, PageTokens(g));
  }

  lemma WithinCeil(pages: nat, tokens: nat, cursor: nat, d: nat)
    requires d > 0 && pages * d == tokens <= cursor
    ensures pages <= CeilDiv(cursor, d)
  {
    MulMonotone(CeilDiv(cursor, d), pages - 1, d);
  }

  function Rewound(t: Table, tokens: nat, g: Group): Table
    requires GroupOk(g)
  {
    var target := if tokens > t.committed then tokens else t.committed;
    if target >= t.cursor then t
    else t.(owned := t.owned[..KeepOwned(t, PagesNeeded(target, g))], cursor := target)
  }

  function KeepOwned(t: Table, pages: nat): nat {
    var front := t.base + |t.borrowed|;
    if pages <= front then 0 else MinNat(pages - front, |t.owned|)
  }

  lemma NeededMonotone(a: nat, b: nat, g: Group)
    requires GroupOk(g) && a <= b
    ensures PagesNeeded(a, g) <= PagesNeeded(b, g)
  {
    PagesNeededIsCeil(a, g);
    PagesNeededIsCeil(b, g);
    MulMonotone(PagesNeeded(b, g), PagesNeeded(a, g) - 1, PageTokens(g));
  }

  lemma RewoundOk(t: Table, tokens: nat, g: Group)
    requires GroupOk(g) && Covered(t, g)
    ensures Covered(Rewound(t, tokens, g), g) && SamePhys(t, Rewound(t, tokens, g))
    ensures Rewound(t, tokens, g).borrowed == t.borrowed && Rewound(t, tokens, g).committed == t.committed
  {
    var target := if tokens > t.committed then tokens else t.committed;
    if target < t.cursor { NeededMonotone(target, t.cursor, g); }
  }

  /** A prefix hit on a fresh table. It is covered exactly if the ids reach the tokens they are said to cover. */
  function Imported(ids: seq<nat>, base: nat, tokens: nat): Table {
    Table(base, ids, [], tokens, tokens)
  }

  lemma ImportedOk(ids: seq<nat>, base: nat, tokens: nat, g: Group)
    requires GroupOk(g)
    ensures Covered(Imported(ids, base, tokens), g) <==> PagesNeeded(tokens, g) <= base + |ids|
  {
  }

  // ---------------------------------------------------------------- the table in place

  class Pool {
    var free: seq<nat>
    constructor (free: seq<nat>)
      ensures this.free == free
    {
      this.free := free;
    }
  }

  /** What a commit or checkpoint leaves on a tree node: pages, and the logical page of the first. */
  datatype Segment = Segment(pages: seq<nat>, base: nat)

  class PagedCacheGroupTable {
    const group: Group
    const pool: Pool
    var base: nat
    var borrowed: seq<nat>
    var owned: seq<nat>
    var cursor: nat
    var committed: nat
    var view: seq<nat>

    function Model(): Table
      reads this
    {
      Table(base, borrowed, owned, cursor, committed)
    }

    ghost predicate Valid()
      reads this
    {
      GroupOk(group) && Covered(Model(), group) && view == View(Model())
    }

    constructor (group: Group, pool: Pool)
      requires GroupOk(group)
      ensures Valid() && Model() == FRESH && this.pool == pool && this.group == group
    {
      this.group, this.pool := group, pool;
      base, borrowed, owned, cursor, committed, view := 0, [], [], 0, 0, [];
    }

    method Refresh()
      modifies this`view
      ensures view == View(Model())
    {
      view := borrowed + owned;
    }

    /** Grow to a target: just the pages that are lacking are taken, all or none. */
    method Acquire(target: nat) returns (threw: bool)
      requires Valid()
      modifies this, pool
      ensures Valid()
      ensures threw <==> target > old(cursor) && NeedFor(old(Model()), target, group) > |old(pool.free)|
      ensures threw ==> Model() == old(Model()) && pool.free == old(pool.free)
      ensures !threw ==> exists nu :: GrewBy(old(Model()), old(pool.free), Model(), pool.free, target, group, nu)
    {
      threw := false;
      var nu := [];
      ghost var t0, free0 := Model(), pool.free;
      if target > cursor {
        var need := NeedFor(Model(), target, group);
        var free;
        free, nu := Allocate(pool.free, need);
        threw := |nu| < need;
        if !threw {
          pool.free, owned, cursor := free, owned + nu, target;
          Refresh();
          GrownOk(t0, target, nu, group);
        }
      }
      assert !threw ==> GrewBy(t0, free0, Model(), pool.free, target, group, nu);
    }

    /** Drop front pages: borrowed ones only from the table, owned ones back to the pool. */
    method PopFront(n: nat)
      requires GroupOk(group) && n <= |borrowed| + |owned|
      modifies this`base, this`borrowed, this`owned, pool
      ensures Model() == DropFront(old(Model()), n) && pool.free == old(pool.free) + FrontOwned(old(Model()), n)
    {
      var b := MinNat(n, |borrowed|);
      pool.free := pool.free + owned[..n - b];
      base, borrowed, owned := base + n, borrowed[b..], owned[n - b..];
    }

    /** Commit whole pages of a history group: they are lent to a snapshot and stay in view. */
    method CommitHistoryToSnapshot(target: nat) returns (segment: Option<Segment>, threw: bool)
      requires Valid()
      modifies this
      ensures Valid()
      ensures threw || target <= old(committed) ==> segment.None? && Model() == old(Model())
      ensures threw <==> !CanCommitHistory(old(Model()), target, group)
      ensures !threw && target > old(committed) ==> LentBy(old(Model()), target, group, Model(), segment) && view == old(view)
    {
      segment, threw := None, false;
      PageTokensPositive(group);
      var size := PageTokens(group);
      if !group.history { threw := true; return; }
      if target <= committed { return; }
      if target > cursor || committed % size != 0 || target % size != 0 { threw := true; return; }
      var k := CommitCount(Model(), target, group);
      if k > |owned| { threw := true; return; }
      LendOk(Model(), k, target, group);
      segment := Some(Segment(owned[..k], committed / size));
      borrowed, owned, committed := borrowed + owned[..k], owned[k..], target;
      Refresh();
    }

    /** Replace the next pages of a history group by the snapshot's; the replaced ones go back to the pool. */
    method AdoptSnapshotSegment(ids: seq<nat>, target: nat) returns (threw: bool)
      requires Valid()
      modifies this, pool
      ensures Valid()
      ensures threw || target <= old(committed) ==> Model() == old(Model()) && pool.free == old(pool.free)
      ensures threw <==> !CanAdoptHistory(old(Model()), ids, target, group)
      ensures !threw && target > old(committed) ==>
                && Model() == AdoptHistory(old(Model()), ids, target) && pool.free == old(pool.free) + old(owned)[..|ids|]
    {
      threw := false;
      PageTokensPositive(group);
      var size := PageTokens(group);
      if !group.history { threw := true; return; }
      if target <= committed { return; }
      if target > cursor || committed % size != 0 || target % size != 0 { threw := true; return; }
      var k := CommitCount(Model(), target, group);
      if |ids| != k || k > |owned| { threw := true; return; }
      AdoptHistoryOk(Model(), ids, target, group);
      pool.free := pool.free + owned[..k];
      borrowed, owned, committed := borrowed + ids, owned[k..], target;
      Refresh();
    }

    /** Checkpoint a state group: pages below the target's window go, the owned pages up to the target are lent. */
    method CheckpointStateToSnapshot(target: nat) returns (segment: Option<Segment>, threw: bool)
      requires Valid()
      modifies this, pool
      ensures Valid()
      ensures threw || target <= old(committed) ==> segment.None? && Model() == old(Model()) && pool.free == old(pool.free)
      ensures threw <==> !CanCheckpoint(old(Model()), target, group)
      ensures !threw && target > old(committed) ==>
                && Model() == Checkpointed(old(Model()), target, group.window.value, group)
                && segment == Some(LeftBehind(old(Model()), target, group.window.value, group))
                && pool.free == old(pool.free) + FrontOwned(old(Model()), Below(old(Model()), LivePage(target, group.window.value, group)))
      ensures segment.Some? ==> forall i :: 0 <= i < |segment.value.pages| ==> Phys(old(Model()), segment.value.base + i) == Some(segment.value.pages[i])
    {
      segment, threw := None, false;
      PageTokensPositive(group);
      var size := PageTokens(group);
      if group.history || group.window.None? { threw := true; return; }
      if target <= committed { return; }
      if target > cursor || target % size != 0 { threw := true; return; }
      CheckpointedOk(Model(), target, group.window.value, group);
      LeftBehindAll(Model(), target, group.window.value, group);
      PopFront(Below(Model(), LivePage(target, group.window.value, group)));
      var k := SegmentLen(Model(), target / size);
      segment := Some(Segment(owned[..k], base + |borrowed|));
      borrowed, owned, committed := borrowed + owned[..k], owned[k..], target;
      Refresh();
    }

    /** Replace the pages of a state segment by the snapshot's. With the guards passed there are always enough pages to
        replace, so running short of them is impossible. */
    method AdoptStateSnapshotSegment(ids: seq<nat>, segmentBase: int, target: nat) returns (threw: bool)
      requires Valid()
      modifies this, pool
      ensures Valid()
      ensures threw || target <= old(committed) ==> Model() == old(Model()) && pool.free == old(pool.free)
      ensures threw <==> !CanAdoptState(old(Model()), ids, segmentBase, target, group)
      ensures !threw && target > old(committed) ==>
                var n := segmentBase - old(base) + |ids|;
                && old(base) <= segmentBase && n <= |old(borrowed)| + |old(owned)|
                && Model() == AdoptState(old(Model()), ids, segmentBase, target)
                && pool.free == old(pool.free) + FrontOwned(old(Model()), n)
    {
      threw := false;
      if group.history { threw := true; return; }
      if target <= committed { return; }
      if !SegmentFits(Model(), ids, segmentBase, target, group) { threw := true; return; }
      StateAdoptionFits(Model(), ids, segmentBase, target, group);
      AdoptStateOk(Model(), ids, segmentBase, target, group);
      ReplaceFront(ids, segmentBase, target);
    }

    /** Front pages up to the end of a segment make way for it. */
    method ReplaceFront(ids: seq<nat>, segmentBase: nat, target: nat)
      requires Valid() && base <= segmentBase && segmentBase - base + |ids| <= |borrowed| + |owned|
      requires Covered(AdoptState(Model(), ids, segmentBase, target), group)
      modifies this, pool
      ensures Valid() && Model() == AdoptState(old(Model()), ids, segmentBase, target)
      ensures pool.free == old(pool.free) + FrontOwned(old(Model()), segmentBase - old(base) + |ids|)
    {
      PopFront(segmentBase - base + |ids|);
      base, borrowed, committed := segmentBase, ids + borrowed, target;
      Refresh();
    }

    /** Import a prefix hit into a fresh table; the table is valid if the hit's ids reach the tokens they cover. */
    method ImportPrefixBorrowed(ids: seq<nat>, importBase: nat, tokens: nat) returns (threw: bool)
      requires Valid()
      modifies this
      ensures threw <==> old(Model()) != FRESH
      ensures if threw then Model() == old(Model()) else Model() == Imported(ids, importBase, tokens)
      ensures Valid() <==> threw || PagesNeeded(tokens, group) <= importBase + |ids|
    {
      threw := base != 0 || borrowed != [] || owned != [] || cursor != 0 || committed != 0;
      if !threw {
        base, borrowed, cursor, committed := importBase, ids, tokens, tokens;
        Refresh();
        ImportedOk(ids, importBase, tokens, group);
      }
    }

    /** Drop front pages below a token position, in sliding groups only. */
    method ReleaseSkipped(lower: int)
      requires Valid()
      modifies this, pool
      ensures Valid()
      ensures Model() == Released(old(Model()), SkipPage(lower, group))
      ensures pool.free == old(pool.free) + FrontOwned(old(Model()), Below(old(Model()), SkipPage(lower, group)))
    {
      ReleaseTo(SkipPage(lower, group));
    }

    method ReleaseTo(page: nat)
      requires Valid()
      modifies this, pool
      ensures Valid()
      ensures Model() == Released(old(Model()), page) && pool.free == old(pool.free) + FrontOwned(old(Model()), Below(old(Model()), page))
    {
      ReleasedOk(Model(), page, group);
      if |borrowed| + |owned| == 0 {
        assert owned[..0] == [] && pool.free + [] == pool.free;
        if page > base { base := page; }
      } else {
        PopFront(Below(Model(), page));
        Refresh();
      }
    }

    /** Drop owned tail pages beyond the accepted tokens; committed pages stay. */
    method RewindTail(tokens: nat)
      requires Valid()
      modifies this, pool
      ensures Valid()
      ensures Model() == Rewound(old(Model()), tokens, group)
      ensures multiset(pool.free) + multiset(owned) == multiset(old(pool.free)) + multiset(old(owned))
    {
      var target := if tokens > committed then tokens else committed;
      RewoundOk(Model(), tokens, group);
      if target < cursor {
        var keep := KeepOwned(Model(), PagesNeeded(target, group));
        SplitTail(owned, keep, pool.free);
        pool.free := pool.free + owned[keep..];
        owned, cursor := owned[..keep], target;
        Refresh();
      }
    }

    method ReleaseAll()
      requires Valid()
      modifies this, pool
      ensures Valid() && Model() == FRESH && pool.free == old(pool.free) + old(owned)
    {
      pool.free := pool.free + owned;
      base, borrowed, owned, cursor, committed := 0, [], [], 0, 0;
      Refresh();
    }

    // -------------------------------------------------------------- any sequence of operations

    /** One operation, whether it goes through or throws; `lent` are the pages it left with a snapshot. */
    method Apply(op: Operation) returns (lent: seq<nat>)
      requires Valid() && (op.Import? ==> Reaches(op, group))
      modifies this, pool
      ensures Valid() && Moves(old(pool.free), old(owned), pool.free, owned, lent)
      ensures Places(op, old(Model()), Model())
    {
      lent := [];
      ghost var t, free := Model(), pool.free;
      match op
      case Acquire(target) => Growing(target);
      case Commit(target) =>
        var segment, threw := CommitHistoryToSnapshot(target);
        if segment.Some? {
          lent := segment.value.pages;
          LendOk(t, CommitCount(t, target, group), target, group);
          MovesLend(free, t.owned, CommitCount(t, target, group));
        } else {
          MovesNothing(free, t.owned);
        }
      case Checkpoint(target) => lent := Checkpointing(target);
      case Adopt(ids, segmentBase, target) => Adopting(ids, segmentBase, target);
      case Import(ids, importBase, tokens) =>
        var threw := ImportPrefixBorrowed(ids, importBase, tokens);
        MovesNothing(free, t.owned);
      case Slide(lower) =>
        ReleaseSkipped(lower);
        ReleasedOk(t, SkipPage(lower, group), group);
        MovesFront(free, t.owned, |FrontOwned(t, Below(t, SkipPage(lower, group)))|);
      case Rewind(tokens) =>
        RewindTail(tokens);
        RewoundOk(t, tokens, group);
      case Clear => ReleaseAll();
    }

    method Growing(target: nat)
      requires Valid()
      modifies this, pool
      ensures Valid() && Moves(old(pool.free), old(owned), pool.free, owned, []) && SamePhys(old(Model()), Model())
    {
      ghost var t, free := Model(), pool.free;
      var threw := Acquire(target);
      if threw {
        MovesNothing(free, t.owned);
      } else {
        ghost var nu :| GrewBy(t, free, Model(), pool.free, target, group, nu);
        GrownOk(t, target, nu, group);
      }
    }

    method Checkpointing(target: nat) returns (lent: seq<nat>)
      requires Valid()
      modifies this, pool
      ensures Valid() && Moves(old(pool.free), old(owned), pool.free, owned, lent) && SamePhys(old(Model()), Model())
    {
      ghost var t, free := Model(), pool.free;
      var segment, threw := CheckpointStateToSnapshot(target);
      lent := [];
      if segment.Some? {
        lent := segment.value.pages;
        CheckpointedOk(t, target, group.window.value, group);
        MovesCheckpoint(t, free, target, group.window.value, group);
      } else {
        MovesNothing(free, t.owned);
      }
    }

    method Adopting(ids: seq<nat>, segmentBase: int, target: nat)
      requires Valid()
      modifies this, pool
      ensures Valid() && Moves(old(pool.free), old(owned), pool.free, owned, [])
      ensures SamePhys(old(Model()), Model()) || exists lo :: Adopted(old(Model()), Model(), lo, ids)
    {
      ghost var t, free := Model(), pool.free;
      var threw;
      if group.history {
        threw := AdoptSnapshotSegment(ids, target);
        if threw || target <= t.committed { MovesNothing(free, t.owned); } else {
          AdoptHistoryOk(t, ids, target, group);
          MovesFront(free, t.owned, |ids|);
        }
      } else {
        threw := AdoptStateSnapshotSegment(ids, segmentBase, target);
        if threw || target <= t.committed { MovesNothing(free, t.owned); } else {
          AdoptStateOk(t, ids, segmentBase, target, group);
          MovesFront(free, t.owned, |FrontOwned(t, segmentBase - t.base + |ids|)|);
        }
      }
    }

    /** Whatever is done to a table in whatever order, its pages reach its cursor, its commit point stays within it, its view
        is its pages, and no physical page is lost or doubled between the pool, the table and the snapshots. */
    method Run(ops: seq<Operation>) returns (lent: seq<nat>)
      requires Valid() && forall i :: 0 <= i < |ops| && ops[i].Import? ==> Reaches(ops[i], group)
      modifies this, pool
      ensures Valid() && Moves(old(pool.free), old(owned), pool.free, owned, lent)
    {
      lent := [];
      for i := 0 to |ops|
        invariant Valid() && Moves(old(pool.free), old(owned), pool.free, owned, lent)
      {
        ghost var free1, owned1 := pool.free, owned;
        var more := Apply(ops[i]);
        MovesTrans(old(pool.free), old(owned), free1, owned1, lent, pool.free, owned, more);
        lent := lent + more;
      }
    }
  }

  datatype Operation =
    | Acquire(target: nat)
    | Commit(target: nat)
    | Checkpoint(target: nat)
    | Adopt(ids: seq<nat>, segmentBase: int, target: nat)
    | Import(ids: seq<nat>, importBase: nat, tokens: nat)
    | Slide(lower: int)
    | Rewind(tokens: nat)
    | Clear

  /** A prefix hit whose ids reach the tokens they are said to cover. */
  ghost predicate Reaches(op: Operation, g: Group)
    requires op.Import? && GroupOk(g)
  {
    PagesNeeded(op.tokens, g) <= op.importBase + |op.ids|
  }

  /** What an operation may do to the places of pages: only an adoption puts other pages in places that stay. */
  ghost predicate Places(op: Operation, t: Table, t': Table) {
    match op
    case Adopt(ids, _, _) => SamePhys(t, t') || exists lo :: Adopted(t, t', lo, ids)
    case Import(_, _, _) => t == FRESH || t' == t
    case Clear => t' == FRESH
    case _ => SamePhys(t, t')
  }

  /** Pages only change hands: between the pool, the table's own, and those lent to a snapshot. */
  ghost predicate Moves(free: seq<nat>, owned: seq<nat>, free': seq<nat>, owned': seq<nat>, lent: seq<nat>) {
    multiset(free') + multiset(owned') + multiset(lent) == multiset(free) + multiset(owned)
  }

  lemma MovesNothing(free: seq<nat>, owned: seq<nat>)
    ensures Moves(free, owned, free, owned, [])
  {
  }

  lemma MovesFront(free: seq<nat>, owned: seq<nat>, k: nat)
    requires k <= |owned|
    ensures Moves(free, owned, free + owned[..k], owned[k..], [])
  {
    MultisetSplit(owned, k);
  }

  lemma MovesLend(free: seq<nat>, owned: seq<nat>, k: nat)
    requires k <= |owned|
    ensures Moves(free, owned, free, owned[k..], owned[..k])
  {
    MultisetSplit(owned, k);
  }

  lemma MovesTrans(f: seq<nat>, o: seq<nat>, f1: seq<nat>, o1: seq<nat>, lent: seq<nat>, f2: seq<nat>, o2: seq<nat>, more: seq<nat>)
    requires Moves(f, o, f1, o1, lent) && Moves(f1, o1, f2, o2, more)
    ensures Moves(f, o, f2, o2, lent + more)
  {
    assert multiset(lent + more) == multiset(lent) + multiset(more);
    assert multiset(f2) + multiset(o2) + multiset(lent + more) == (multiset(f2) + multiset(o2) + multiset(more)) + multiset(lent);
  }

  /** A checkpoint gives the pages below its window back to the pool and lends the rest of its segment. */
  lemma MovesCheckpoint(t: Table, free: seq<nat>, target: nat, window: nat, g: Group)
    requires GroupOk(g)
    ensures Moves(free, t.owned, free + FrontOwned(t, Below(t, LivePage(target, window, g))),
                  Checkpointed(t, target, window, g).owned, LeftBehind(t, target, window, g).pages)
  {
    PageTokensPositive(g);
    var n := Below(t, LivePage(target, window, g));
    var k := |FrontOwned(t, n)|;
    var t1 := Trimmed(t, target, window, g);
    var len := SegmentLen(t1, target / PageTokens(g));
    assert t1.owned == t.owned[k..];
    MovesFront(free, t.owned, k);
    MovesLend(free + t.owned[..k], t1.owned, len);
    MovesTrans(free, t.owned, free + t.owned[..k], t1.owned, [], free + t.owned[..k], t1.owned[len..], t1.owned[..len]);
    assert [] + t1.owned[..len] == t1.owned[..len];
  }

  // ---------------------------------------------------------------- when the operations succeed

  /** Pages between what is committed and a target. */
  function CommitCount(t: Table, target: nat, g: Group): nat
    requires GroupOk(g) && t.committed <= target
  {
    PageTokensPositive(g);
    (target - t.committed) / PageTokens(g)
  }

  /** The next pages up to the target are lent, and the segment names them with the place of the first. */
  ghost predicate LentBy(t: Table, target: nat, g: Group, t': Table, segment: Option<Segment>)
    requires GroupOk(g) && t.committed <= target
  {
    PageTokensPositive(g);
    var k := CommitCount(t, target, g);
    && k <= |t.owned| && t' == Lend(t, k, target)
    && segment == Some(Segment(t.owned[..k], t.committed / PageTokens(g)))
  }

  predicate CanCommitHistory(t: Table, target: nat, g: Group)
    requires GroupOk(g)
  {
    PageTokensPositive(g);
    g.history &&
      (target <= t.committed || (target <= t.cursor && t.committed % PageTokens(g) == 0 && target % PageTokens(g) == 0
                                 && CommitCount(t, target, g) <= |t.owned|))
  }

  predicate CanAdoptHistory(t: Table, ids: seq<nat>, target: nat, g: Group)
    requires GroupOk(g)
  {
    PageTokensPositive(g);
    g.history &&
      (target <= t.committed || (target <= t.cursor && t.committed % PageTokens(g) == 0 && target % PageTokens(g) == 0
                                 && |ids| == CommitCount(t, target, g) && |ids| <= |t.owned|))
  }

  predicate CanCheckpoint(t: Table, target: nat, g: Group)
    requires GroupOk(g)
  {
    PageTokensPositive(g);
    !g.history && g.window.Some? && (target <= t.committed || (target <= t.cursor && target % PageTokens(g) == 0))
  }

  /** A continuation checkpoint's guards: an aligned target that has been acquired, and a table that spans its whole window. */
  predicate SpansWindow(t: Table, target: nat, g: Group)
    requires GroupOk(g) && g.window.Some?
  {
    PageTokensPositive(g);
    && target % PageTokens(g) == 0 && target <= t.cursor && g.window.value % PageTokens(g) == 0
    && t.base <= LivePage(target, g.window.value, g) && End(t) >= target / PageTokens(g)
  }

  predicate CanAdoptState(t: Table, ids: seq<nat>, base: int, target: nat, g: Group)
    requires GroupOk(g)
  {
    !g.history && (target <= t.committed || SegmentFits(t, ids, base, target, g))
  }

  /** A non-empty segment that starts within the table and ends at a page-aligned target within the cursor. */
  predicate SegmentFits(t: Table, ids: seq<nat>, base: int, target: nat, g: Group)
    requires GroupOk(g)
  {
    PageTokensPositive(g);
    && target <= t.cursor && base >= 0 && target % PageTokens(g) == 0 && ids != []
    && (base + |ids|) * PageTokens(g) == target && base >= t.base
  }

  /** The first token still inside the window of a position. */
  function LowerBound(first: int, g: Group): int {
    if g.window.None? then 0 else
      var lower := first - g.window.value + 1;
      if lower < 0 then 0 else lower
  }

  /** The page a sliding release goes to: none in groups that keep everything. */
  function SkipPage(lower: int, g: Group): nat
    requires GroupOk(g)
  {
    PageTokensPositive(g);
    if lower <= 0 || g.window.None? then 0 else lower / PageTokens(g)
  }

  /** The segment a checkpoint leaves behind. */
  function LeftBehind(t: Table, target: nat, window: nat, g: Group): Segment
    requires GroupOk(g)
  {
    PageTokensPositive(g);
    var t1 := Trimmed(t, target, window, g);
    Segment(t1.owned[..SegmentLen(t1, target / PageTokens(g))], t1.base + |t1.borrowed|)
  }

  lemma SplitTail(owned: seq<nat>, k: nat, free: seq<nat>)
    requires k <= |owned|
    ensures multiset(free + owned[k..]) + multiset(owned[..k]) == multiset(free) + multiset(owned)
  {
    MultisetSplit(owned, k);
    assert multiset(free + owned[k..]) == multiset(free) + multiset(owned[k..]);
  }

  /** The table grew by exactly the pages it lacked, taken from the pool. */
  ghost predicate GrewBy(t: Table, free: seq<nat>, t': Table, free': seq<nat>, target: nat, g: Group, nu: seq<nat>)
    requires GroupOk(g)
  {
    && t' == Grown(t, target, nu) && |nu| == (if target > t.cursor then NeedFor(t, target, g) else 0)
    && multiset(free') + multiset(nu) == multiset(free)
  }
}
