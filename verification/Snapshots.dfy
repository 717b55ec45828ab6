/** Snapshot segments left on tree nodes, and their reassembly into the pages of a table. */
module Snapshots {
  import opened Prelude
  import opened PagedCacheTable

  function SegmentEnd(s: Segment): nat {
    s.base + |s.pages|
  }

  /** The physical page a segment records for a logical page. */
  function SegmentAt(s: Segment, l: int): Option<nat> {
    if s.base <= l < SegmentEnd(s) then Some(s.pages[l - s.base]) else None
  }

  function MaxNat(a: nat, b: nat): nat { if a < b then b else a }

  // ---------------------------------------------------------------- state groups: the checked assembler

  /** One segment's contribution when [lower, next) has been collected: skip it, stop, fail on a gap, or go on with more. */
  datatype Outcome = Stop | Gap | More(ids: seq<nat>, next: nat)

  function Absorb(s: Segment, lower: nat, target: nat, ids: seq<nat>, next: nat): Outcome {
    if s.pages == [] || SegmentEnd(s) <= lower then More(ids, next)
    else if s.base >= target then Stop
    else
      var begin := MaxNat(s.base, lower);
      if begin > next then Gap
      else
        var from, to := MaxNat(begin, next), MinNat(SegmentEnd(s), target);
        if to <= from then More(ids, next) else More(ids + s.pages[from - s.base..to - s.base], to)
  }

  /** Some segment records this physical page for this logical page. */
  ghost predicate Recorded(chain: seq<Segment>, l: int, page: nat) {
    exists i {:trigger chain[i]} :: 0 <= i < |chain| && SegmentAt(chain[i], l) == Some(page)
  }

  /** The collected ids are right: each comes from a segment that records it for that logical page. */
  ghost predicate Collected(chain: seq<Segment>, lower: nat, next: nat, ids: seq<nat>) {
    && lower <= next && |ids| == next - lower
    && forall k {:trigger ids[k]} :: 0 <= k < |ids| ==> Recorded(chain, lower + k, ids[k])
  }

  lemma AbsorbKeeps(chain: seq<Segment>, n: nat, lower: nat, target: nat, ids: seq<nat>, next: nat)
    requires n < |chain| && Collected(chain, lower, next, ids) && next <= target
    requires Absorb(chain[n], lower, target, ids, next).More?
    ensures var o := Absorb(chain[n], lower, target, ids, next);
            Collected(chain, lower, o.next, o.ids) && next <= o.next <= target
  {
    var o := Absorb(chain[n], lower, target, ids, next);
    forall k | 0 <= k < |o.ids| ensures Recorded(chain, lower + k, o.ids[k]) {
      if k < |ids| {
        assert o.ids[k] == ids[k];
      } else {
        assert SegmentAt(chain[n], lower + k) == Some(o.ids[k]);
      }
    }
  }

  /** What is collected from segment i on. */
  function Scan(chain: seq<Segment>, i: nat, lower: nat, target: nat, ids: seq<nat>, next: nat): Outcome
    requires i <= |chain|
    decreases |chain| - i
  {
    if i == |chain| then More(ids, next) else
      match Absorb(chain[i], lower, target, ids, next)
      case Stop => More(ids, next)
      case Gap => Gap
      case More(ids', next') => Scan(chain, i + 1, lower, target, ids', next')
  }

  /** Whatever the chain, a scan collects ids that are free of gaps and right at every index. */
  lemma {:induction false} ScanSound(chain: seq<Segment>, i: nat, lower: nat, target: nat, ids: seq<nat>, next: nat)
    requires i <= |chain| && Collected(chain, lower, next, ids) && next <= target
    ensures var o := Scan(chain, i, lower, target, ids, next);
            o.More? ==> Collected(chain, lower, o.next, o.ids) && o.next <= target
    decreases |chain| - i
  {
    if i < |chain| {
      var o := Absorb(chain[i], lower, target, ids, next);
      if o.More? {
        AbsorbKeeps(chain, i, lower, target, ids, next);
        ScanSound(chain, i + 1, lower, target, o.ids, o.next);
      }
    }
  }

  /** Reassemble a state group's window that ends at the target. Any success is free of gaps and right at every index,
      whatever the chain; it agrees with a plain scan of the segments. */
  method AssembleState(chain: seq<Segment>, target: int, retained: int, g: Group) returns (r: Option<seq<nat>>, base: nat)
    requires GroupOk(g)
    ensures r.Some? ==> Restorable(target, retained, g)
    ensures r.Some? ==> base == LivePage(target, retained, g) && Collected(chain, base, EndPage(target, g), r.value)
    ensures Restorable(target, retained, g) ==>
              r == Success(Scan(chain, 0, LivePage(target, retained, g), EndPage(target, g), [], LivePage(target, retained, g)), EndPage(target, g))
  {
    r, base := None, 0;
    if !Restorable(target, retained, g) { return; }
    var lower, end := LivePage(target, retained, g), EndPage(target, g);
    LiveBelowEnd(target, retained, g);
    ScanSound(chain, 0, lower, end, [], lower);
    var ids, next, i, gap, stop := [], lower, 0, false, false;
    while i < |chain| && !gap && !stop
      invariant 0 <= i <= |chain|
      invariant Scan(chain, 0, lower, end, [], lower) ==
                if gap then Gap else if stop then More(ids, next) else Scan(chain, i, lower, end, ids, next)
      decreases |chain| - i, !gap && !stop
    {
      match Absorb(chain[i], lower, end, ids, next)
      case Stop => stop := true;
      case Gap => gap := true;
      case More(ids', next') => ids, next, i := ids', next', i + 1;
    }
    if !gap && next == end { r, base := Some(ids), lower; }
  }

  /** Positive, page-aligned target and window. */
  predicate Restorable(target: int, retained: int, g: Group)
    requires GroupOk(g)
  {
    target > 0 && retained > 0 && Aligned(target, g) && Aligned(retained, g)
  }

  predicate Aligned(tokens: int, g: Group)
    requires GroupOk(g)
  {
    PageTokensPositive(g);
    tokens % PageTokens(g) == 0
  }

  function EndPage(target: nat, g: Group): nat
    requires GroupOk(g)
  {
    PageTokensPositive(g);
    target / PageTokens(g)
  }

  function Success(o: Outcome, end: nat): Option<seq<nat>> {
    if o.More? && o.next == end then Some(o.ids) else None
  }

  lemma LiveBelowEnd(target: nat, retained: nat, g: Group)
    requires GroupOk(g)
    ensures LivePage(target, retained, g) <= EndPage(target, g)
  {
    PageTokensPositive(g);
    DivMono(if target > retained then target - retained else 0, target, PageTokens(g));
  }

  lemma DivMono(a: nat, b: nat, d: nat)
    requires a <= b && d > 0
    ensures a / d <= b / d
  {
    assert a == (a / d) * d + a % d && b == (b / d) * d + b % d;
    MulMonotone(b / d + 1, a / d, d);
  }

  // ---------------------------------------------------------------- state groups: what checkpoints leave behind

  /** Checkpoints j = 0, 1, 2, ... in pages: `ends(j)` is the first page after checkpoint j, `lives(j)` the first page
      still inside its window. */
  ghost predicate Ladder(ends: nat -> nat, lives: nat -> nat) {
    ends(0) == 0 && forall j: nat {:trigger Rung(ends, lives, j)} :: Rung(ends, lives, j)
  }

  ghost predicate Rung(ends: nat -> nat, lives: nat -> nat, j: nat) {
    ends(j) < ends(j + 1) && lives(j) <= lives(j + 1) < ends(j + 1)
  }

  lemma {:induction false} Climb(ends: nat -> nat, lives: nat -> nat, i: nat, k: nat)
    requires Ladder(ends, lives) && i <= k
    ensures ends(i) <= ends(k) && lives(i) <= lives(k)
    decreases k
  {
    if i < k {
      Climb(ends, lives, i, k - 1);
      assert Rung(ends, lives, k - 1);
    }
  }

  /** The segment from one page to another of the physical pages a table had. */
  ghost predicate SegmentIs(s: Segment, hist: seq<nat>, from: nat, to: nat) {
    from <= to <= |hist| && s == Segment(hist[from..to], from)
  }

  /** Checkpoint j leaves behind all pages since the checkpoint before it that are still inside its own window. */
  ghost predicate Laid(chain: seq<Segment>, hist: seq<nat>, ends: nat -> nat, lives: nat -> nat) {
    forall j {:trigger chain[j]} :: 0 <= j < |chain| ==> SegmentIs(chain[j], hist, MaxNat(ends(j), lives(j + 1)), ends(j + 1))
  }

  /** A table and the chain of segments it left behind: `hist` gives the physical page of every logical page it ever had. */
  ghost predicate Trail(t: Table, chain: seq<Segment>, hist: seq<nat>, ends: nat -> nat, lives: nat -> nat) {
    && Ladder(ends, lives)
    && |hist| == End(t) && View(t) == hist[t.base..]
    && t.base <= lives(|chain| + 1)
    && t.base + |t.borrowed| == MaxNat(ends(|chain|), t.base)
    && Laid(chain, hist, ends, lives)
  }

  lemma LaidKept(chain: seq<Segment>, hist: seq<nat>, hist': seq<nat>, ends: nat -> nat, lives: nat -> nat)
    requires Ladder(ends, lives) && Laid(chain, hist, ends, lives)
    requires hist <= hist' || (hist' <= hist && ends(|chain|) <= |hist'|)
    ensures Laid(chain, hist', ends, lives)
  {
    forall j | 0 <= j < |chain| ensures SegmentIs(chain[j], hist', MaxNat(ends(j), lives(j + 1)), ends(j + 1)) {
      var from, to := MaxNat(ends(j), lives(j + 1)), ends(j + 1);
      Climb(ends, lives, j + 1, |chain|);
      assert SegmentIs(chain[j], hist, from, to);
      assert hist[from..to] == hist'[from..to];
    }
  }

  /** Growing keeps the trail. */
  lemma TrailGrow(t: Table, chain: seq<Segment>, hist: seq<nat>, ends: nat -> nat, lives: nat -> nat, target: nat, nu: seq<nat>)
    requires Trail(t, chain, hist, ends, lives)
    ensures Trail(Grown(t, target, nu), chain, hist + nu, ends, lives)
  {
    assert View(Grown(t, target, nu)) == View(t) + nu;
    assert (hist + nu)[t.base..] == hist[t.base..] + nu;
    LaidKept(chain, hist, hist + nu, ends, lives);
  }

  /** Releasing only pages below the next checkpoint's window keeps the trail. */
  lemma TrailRelease(t: Table, chain: seq<Segment>, hist: seq<nat>, ends: nat -> nat, lives: nat -> nat, page: nat)
    returns (hist': seq<nat>)
    requires Trail(t, chain, hist, ends, lives) && page <= lives(|chain| + 1)
    ensures Trail(Released(t, page), chain, hist', ends, lives) && hist <= hist'
  {
    var t' := Released(t, page);
    hist' := hist;
    if |t.borrowed| + |t.owned| == 0 && page > t.base {
      hist' := hist + Zeros(page - |hist|);
      assert hist'[page..] == [] && View(t') == [];
    } else {
      DropFrontKeeps(t, Below(t, page));
    }
    LaidKept(chain, hist, hist', ends, lives);
  }

  function Zeros(n: nat): (s: seq<nat>)
    ensures |s| == n
  {
    if n == 0 then [] else Zeros(n - 1) + [0]
  }

  /** Rewinding keeps the trail: lent pages stay. */
  lemma TrailRewind(t: Table, chain: seq<Segment>, hist: seq<nat>, ends: nat -> nat, lives: nat -> nat, tokens: nat, g: Group)
    returns (hist': seq<nat>)
    requires GroupOk(g) && Trail(t, chain, hist, ends, lives)
    ensures Trail(Rewound(t, tokens, g), chain, hist', ends, lives) && hist' <= hist
  {
    var t' := Rewound(t, tokens, g);
    hist' := hist[..End(t')];
    assert View(t') == View(t)[..|View(t')|];
    CutTail(hist, t.base, End(t'));
    LaidKept(chain, hist, hist', ends, lives);
  }

  lemma CutTail(hist: seq<nat>, a: nat, b: nat)
    requires a <= b <= |hist|
    ensures hist[a..][..b - a] == hist[..b][a..]
  {
  }

  lemma LendTrail(t1: Table, hist: seq<nat>, len: nat)
    requires t1.base <= |hist| && View(t1) == hist[t1.base..] && len <= |t1.owned|
    ensures var front := t1.base + |t1.borrowed|;
            front + len <= |hist| && t1.owned[..len] == hist[front..front + len]
  {
    assert t1.owned == View(t1)[|t1.borrowed|..];
  }

  /** The next checkpoint keeps the trail, and its segment joins the chain. */
  lemma TrailCheckpoint(t: Table, chain: seq<Segment>, hist: seq<nat>, ends: nat -> nat, lives: nat -> nat, t1: Table, len: nat, target: nat)
    requires Trail(t, chain, hist, ends, lives) && ends(|chain| + 1) <= End(t)
    requires t1 == DropFront(t, Below(t, lives(|chain| + 1)))
    requires len == SegmentLen(t1, ends(|chain| + 1))
    ensures Trail(Lend(t1, len, target), chain + [Segment(t1.owned[..len], t1.base + |t1.borrowed|)], hist, ends, lives)
  {
    TrailTrimmed(t, chain, hist, ends, lives, t1);
    LentSegment(t1, hist, ends(|chain| + 1), len, target);
    var s := Segment(t1.owned[..len], t1.base + |t1.borrowed|);
    LaidMore(chain, hist, ends, lives, s);
    assert Rung(ends, lives, |chain| + 1);
    TrailIs(Lend(t1, len, target), chain + [s], hist, ends, lives);
  }

  /** Trimmed to the next window, the table starts there, and is lent up to the last checkpoint or that start. */
  lemma TrailTrimmed(t: Table, chain: seq<Segment>, hist: seq<nat>, ends: nat -> nat, lives: nat -> nat, t1: Table)
    requires Trail(t, chain, hist, ends, lives) && ends(|chain| + 1) <= End(t)
    requires t1 == DropFront(t, Below(t, lives(|chain| + 1)))
    ensures var live, front := lives(|chain| + 1), t1.base + |t1.borrowed|;
            && t1.base == live <= front == MaxNat(ends(|chain|), live) && front < ends(|chain| + 1)
            && |hist| == End(t1) == End(t) && View(t1) == hist[t1.base..]
  {
    var live := lives(|chain| + 1);
    assert Rung(ends, lives, |chain|);
    DropFrontKeeps(t, Below(t, live));
    TrimFront(t, live, ends(|chain|));
    TailOfTail(hist, t.base, live);
  }

  /** The owned pages up to `end` are lent: a segment of what the table had. */
  lemma LentSegment(t1: Table, hist: seq<nat>, end: nat, len: nat, target: nat)
    requires |hist| == End(t1) && View(t1) == hist[t1.base..] && t1.base + |t1.borrowed| <= end <= End(t1) && len == SegmentLen(t1, end)
    ensures SegmentIs(Segment(t1.owned[..len], t1.base + |t1.borrowed|), hist, t1.base + |t1.borrowed|, end)
    ensures var t' := Lend(t1, len, target);
            t'.base == t1.base && t'.base + |t'.borrowed| == end && End(t') == |hist| && View(t') == hist[t'.base..]
  {
    LendTrail(t1, hist, len);
    LendKeeps(t1, len, target);
  }

  lemma TrailIs(t: Table, chain: seq<Segment>, hist: seq<nat>, ends: nat -> nat, lives: nat -> nat)
    requires Ladder(ends, lives) && |hist| == End(t) && View(t) == hist[t.base..] && Laid(chain, hist, ends, lives)
    requires t.base <= lives(|chain| + 1) && t.base <= ends(|chain|) == t.base + |t.borrowed|
    ensures Trail(t, chain, hist, ends, lives)
  {
  }

  /** Trimming to a live page leaves the lent pages ending where they did, or at the live page if that is further on. */
  lemma TrimFront(t: Table, live: nat, lent: nat)
    requires t.base <= live <= End(t) && t.base + |t.borrowed| == MaxNat(lent, t.base)
    ensures var t1 := DropFront(t, Below(t, live)); t1.base == live && t1.base + |t1.borrowed| == MaxNat(lent, live)
  {
  }

  lemma TailOfTail(hist: seq<nat>, a: nat, b: nat)
    requires a <= b <= |hist|
    ensures hist[a..][b - a..] == hist[b..]
  {
  }

  lemma LendKeeps(t: Table, k: nat, target: nat)
    requires k <= |t.owned|
    ensures View(Lend(t, k, target)) == View(t) && End(Lend(t, k, target)) == End(t)
  {
    assert View(Lend(t, k, target)) == View(t);
  }

  lemma LaidMore(chain: seq<Segment>, hist: seq<nat>, ends: nat -> nat, lives: nat -> nat, s: Segment)
    requires Laid(chain, hist, ends, lives)
    requires SegmentIs(s, hist, MaxNat(ends(|chain|), lives(|chain| + 1)), ends(|chain| + 1))
    ensures Laid(chain + [s], hist, ends, lives)
  {
    var chain' := chain + [s];
    forall j | 0 <= j < |chain'| ensures SegmentIs(chain'[j], hist, MaxNat(ends(j), lives(j + 1)), ends(j + 1)) {
      if j < |chain| { assert chain'[j] == chain[j]; }
    }
  }

  // ---------------------------------------------------------------- state groups: the round trip

  lemma AbsorbLaid(s: Segment, hist: seq<nat>, from: nat, to: nat, lower: nat, end: nat, next: nat)
    requires SegmentIs(s, hist, from, to) && from < to <= end && from <= next && lower <= next <= |hist|
    requires next < to || to <= lower
    ensures Absorb(s, lower, end, hist[lower..next], next) ==
            if to <= lower then More(hist[lower..next], next) else More(hist[lower..to], to)
  {
    if to > lower {
      assert hist[from..to][next - from..to - from] == hist[next..to];
      assert hist[lower..next] + hist[next..to] == hist[lower..to];
    }
  }

  /** One more laid segment takes the scan from the end of the one before it to its own end. */
  lemma ScanOne(chain: seq<Segment>, hist: seq<nat>, i: nat, from: nat, to: nat, lower: nat, end: nat, next: nat)
    requires i < |chain| && SegmentIs(chain[i], hist, from, to) && from < to <= end && from <= next && lower <= next <= |hist|
    requires next < to || to <= lower
    ensures lower <= MaxNat(next, to) <= |hist|
    ensures Scan(chain, i, lower, end, hist[lower..next], next)
         == Scan(chain, i + 1, lower, end, hist[lower..MaxNat(next, to)], MaxNat(next, to))
  {
    AbsorbLaid(chain[i], hist, from, to, lower, end, next);
  }

  lemma {:induction false} ScanLaid(chain: seq<Segment>, hist: seq<nat>, ends: nat -> nat, lives: nat -> nat, i: nat, next: nat)
    requires Ladder(ends, lives) && Laid(chain, hist, ends, lives) && i <= |chain| && 0 < |chain|
    requires next == MaxNat(lives(|chain|), ends(i)) && ends(|chain|) <= |hist|
    ensures lives(|chain|) <= next <= ends(|chain|)
    ensures Scan(chain, i, lives(|chain|), ends(|chain|), hist[lives(|chain|)..next], next)
         == More(hist[lives(|chain|)..ends(|chain|)], ends(|chain|))
    decreases |chain| - i
  {
    var k := |chain|;
    Climb(ends, lives, i, k);
    assert Rung(ends, lives, k - 1);
    if i < k {
      assert Rung(ends, lives, i);
      Climb(ends, lives, i + 1, k);
      ScanOne(chain, hist, i, MaxNat(ends(i), lives(i + 1)), ends(i + 1), lives(k), ends(k), next);
      ScanLaid(chain, hist, ends, lives, i + 1, MaxNat(next, ends(i + 1)));
    }
  }

  /** Checkpoint and reassembly: after any growing, sliding, rewinding and checkpointing, the segments left behind up to
      checkpoint k reassemble into exactly the pages the table had in the window of that checkpoint. */
  lemma TrailRoundTrip(t: Table, chain: seq<Segment>, hist: seq<nat>, ends: nat -> nat, lives: nat -> nat, k: nat)
    requires Trail(t, chain, hist, ends, lives) && 0 < k <= |chain|
    ensures lives(k) <= ends(k) <= |hist|
    ensures Success(Scan(chain[..k], 0, lives(k), ends(k), [], lives(k)), ends(k)) == Some(hist[lives(k)..ends(k)])
    ensures forall l :: MaxNat(t.base, lives(k)) <= l < ends(k) ==> Phys(t, l) == Some(hist[l])
  {
    assert SegmentIs(chain[k - 1], hist, MaxNat(ends(k - 1), lives(k - 1 + 1)), ends(k - 1 + 1));
    assert Rung(ends, lives, k - 1);
    forall j | 0 <= j < k ensures SegmentIs(chain[..k][j], hist, MaxNat(ends(j), lives(j + 1)), ends(j + 1)) {
      assert chain[..k][j] == chain[j];
    }
    assert hist[lives(k)..lives(k)] == [];
    ScanLaid(chain[..k], hist, ends, lives, 0, lives(k));
  }

  // ---------------------------------------------------------------- checkpoints at multiples of the alignment

  /** Token boundaries of successive checkpoints. */
  function Boundary(j: nat, align: nat): nat {
    if j == 0 then 0 else Boundary(j - 1, align) + align
  }

  lemma {:induction false} BoundaryAligned(j: nat, align: nat, g: Group)
    requires GroupOk(g) && Aligned(align, g)
    ensures Aligned(Boundary(j, align), g) && Boundary(j, align) == j * align
  {
    PageTokensPositive(g);
    if j > 0 {
      BoundaryAligned(j - 1, align, g);
      SumAligned(Boundary(j - 1, align), align, PageTokens(g));
    }
  }

  lemma SumAligned(a: nat, b: nat, d: nat)
    requires d > 0 && a % d == 0 && b % d == 0
    ensures (a + b) % d == 0
  {
    assert a == (a / d) * d && b == (b / d) * d;
    DivUnique(a + b, d, a / d + b / d, 0);
  }

  function Ends(align: nat, g: Group): nat -> nat
    requires GroupOk(g)
  {
    j => EndPage(Boundary(j, align), g)
  }

  function Lives(align: nat, window: nat, g: Group): nat -> nat
    requires GroupOk(g)
  {
    j => LivePage(Boundary(j, align), window, g)
  }

  lemma BelowNext(a: nat, b: nat, d: nat)
    requires d > 0 && a < b && b % d == 0
    ensures a / d < b / d
  {
    assert b == (b / d) * d && a == (a / d) * d + a % d;
    MulMonotone(b / d, a / d, d);
  }

  /** One rung: the next boundary is a whole number of pages further, and its window starts before it. */
  lemma NextRung(a: nat, align: nat, window: nat, d: nat)
    requires d > 0 && align > 0 && window > 0 && (a + align) % d == 0
    ensures a / d < (a + align) / d
    ensures Live(a, window) / d <= Live(a + align, window) / d < (a + align) / d
  {
    BelowNext(a, a + align, d);
    BelowNext(Live(a + align, window), a + align, d);
    DivMono(Live(a, window), Live(a + align, window), d);
  }

  function Live(a: nat, window: nat): nat {
    if a > window then a - window else 0
  }

  lemma MultiplesLadder(align: nat, window: nat, g: Group)
    requires GroupOk(g) && align > 0 && window > 0 && Aligned(align, g)
    ensures Ladder(Ends(align, g), Lives(align, window, g))
  {
    PageTokensPositive(g);
    DivUnique(0, PageTokens(g), 0, 0);
    forall j: nat ensures Rung(Ends(align, g), Lives(align, window, g), j) {
      BoundaryAligned(j + 1, align, g);
      NextRung(Boundary(j, align), align, window, PageTokens(g));
    }
  }

  /** A covered table has every page up to an aligned target within its cursor. */
  lemma PagesReach(t: Table, target: nat, g: Group)
    requires GroupOk(g) && Covered(t, g) && target <= t.cursor
    ensures EndPage(target, g) <= End(t)
  {
    PagesNeededIsCeil(t.cursor, g);
    PageTokensPositive(g);
    var d := PageTokens(g);
    assert target == (target / d) * d + target % d;
    MulMonotone(PagesNeeded(t.cursor, g), target / d - 1, d);
  }

  /** A state group's table that has checkpointed at every multiple of the alignment so far. */
  ghost predicate StateTrail(t: Table, chain: seq<Segment>, hist: seq<nat>, align: nat, window: nat, g: Group)
    requires GroupOk(g)
  {
    && align > 0 && window > 0 && Aligned(align, g) && Covered(t, g)
    && t.committed == Boundary(|chain|, align)
    && Trail(t, chain, hist, Ends(align, g), Lives(align, window, g))
  }

  lemma StateStart(align: nat, window: nat, g: Group)
    requires GroupOk(g) && align > 0 && window > 0 && Aligned(align, g)
    ensures StateTrail(FRESH, [], [], align, window, g)
  {
    MultiplesLadder(align, window, g);
    PagesNeededIsCeil(0, g);
    CeilDivUnique(0, PageTokens(g), 0);
  }

  lemma StateGrow(t: Table, chain: seq<Segment>, hist: seq<nat>, align: nat, window: nat, g: Group, target: nat, nu: seq<nat>)
    requires GroupOk(g) && StateTrail(t, chain, hist, align, window, g)
    requires |nu| == (if target > t.cursor then NeedFor(t, target, g) else 0)
    ensures StateTrail(Grown(t, target, nu), chain, hist + nu, align, window, g)
  {
    GrownOk(t, target, nu, g);
    TrailGrow(t, chain, hist, Ends(align, g), Lives(align, window, g), target, nu);
  }

  /** A sliding release no further than the next checkpoint's window keeps the trail. */
  lemma StateRelease(t: Table, chain: seq<Segment>, hist: seq<nat>, align: nat, window: nat, g: Group, page: nat) returns (hist': seq<nat>)
    requires GroupOk(g) && StateTrail(t, chain, hist, align, window, g)
    requires page <= LivePage(Boundary(|chain| + 1, align), window, g)
    ensures StateTrail(Released(t, page), chain, hist', align, window, g) && hist <= hist'
  {
    ReleasedOk(t, page, g);
    hist' := TrailRelease(t, chain, hist, Ends(align, g), Lives(align, window, g), page);
  }

  lemma StateRewind(t: Table, chain: seq<Segment>, hist: seq<nat>, align: nat, window: nat, g: Group, tokens: nat) returns (hist': seq<nat>)
    requires GroupOk(g) && StateTrail(t, chain, hist, align, window, g)
    ensures StateTrail(Rewound(t, tokens, g), chain, hist', align, window, g) && hist' <= hist
  {
    RewoundOk(t, tokens, g);
    hist' := TrailRewind(t, chain, hist, Ends(align, g), Lives(align, window, g), tokens, g);
  }

  /** The next checkpoint's segment joins the chain; no recorded page changes. */
  lemma StateCheckpoint(t: Table, chain: seq<Segment>, hist: seq<nat>, align: nat, window: nat, g: Group)
    requires GroupOk(g) && StateTrail(t, chain, hist, align, window, g) && Boundary(|chain| + 1, align) <= t.cursor
    ensures var target := Boundary(|chain| + 1, align);
            StateTrail(Checkpointed(t, target, window, g), chain + [LeftBehind(t, target, window, g)], hist, align, window, g)
  {
    var target := Boundary(|chain| + 1, align);
    CheckpointedOk(t, target, window, g);
    PagesReach(t, target, g);
    var t1 := Trimmed(t, target, window, g);
    var len := SegmentLen(t1, EndPage(target, g));
    TrailCheckpoint(t, chain, hist, Ends(align, g), Lives(align, window, g), t1, len, target);
    CheckpointParts(t, target, window, g, t1, len);
  }

  lemma CheckpointParts(t: Table, target: nat, window: nat, g: Group, t1: Table, len: nat)
    requires GroupOk(g) && t1 == Trimmed(t, target, window, g) && len == SegmentLen(t1, EndPage(target, g))
    ensures Checkpointed(t, target, window, g) == Lend(t1, len, target)
    ensures LeftBehind(t, target, window, g) == Segment(t1.owned[..len], t1.base + |t1.borrowed|)
  {
  }

  /** Checkpoint and reassembly: after any growing, sliding, rewinding and checkpointing, the segments left behind up to
      checkpoint k reassemble into exactly the pages the table had in the window of that checkpoint. */
  lemma StateRoundTrip(t: Table, chain: seq<Segment>, hist: seq<nat>, align: nat, window: nat, g: Group, k: nat)
    requires GroupOk(g) && StateTrail(t, chain, hist, align, window, g) && 0 < k <= |chain|
    ensures var target := Boundary(k, align);
            var lower, end := LivePage(target, window, g), EndPage(target, g);
            && lower <= end <= |hist|
            && Success(Scan(chain[..k], 0, lower, end, [], lower), end) == Some(hist[lower..end])
            && forall l :: MaxNat(t.base, lower) <= l < end ==> Phys(t, l) == Some(hist[l])
  {
    TrailRoundTrip(t, chain, hist, Ends(align, g), Lives(align, window, g), k);
  }

  // ---------------------------------------------------------------- state groups: whole runs

  /** What may be done to a state group's table between two checkpoints, and a checkpoint at the next boundary. */
  datatype StateOp = Enlarge(target: nat, nu: seq<nat>) | SlideTo(page: nat) | RewindTo(tokens: nat) | CheckpointNext

  /** A table and the segments it has left behind. */
  type Laying = (Table, seq<Segment>)

  /** New pages come in the number needed, sliding stays below the next checkpoint's window, and a checkpoint waits until its
      boundary has been acquired. */
  ghost predicate StateOpLegal(s: Laying, op: StateOp, align: nat, window: nat, g: Group)
    requires GroupOk(g)
  {
    match op
    case Enlarge(target, nu) => |nu| == if target > s.0.cursor then NeedFor(s.0, target, g) else 0
    case SlideTo(page) => page <= LivePage(Boundary(|s.1| + 1, align), window, g)
    case RewindTo(_) => true
    case CheckpointNext => Boundary(|s.1| + 1, align) <= s.0.cursor
  }

  ghost function Do(s: Laying, op: StateOp, align: nat, window: nat, g: Group): Laying
    requires GroupOk(g)
  {
    match op
    case Enlarge(target, nu) => (Grown(s.0, target, nu), s.1)
    case SlideTo(page) => (Released(s.0, page), s.1)
    case RewindTo(tokens) => (Rewound(s.0, tokens, g), s.1)
    case CheckpointNext =>
      var target := Boundary(|s.1| + 1, align);
      (Checkpointed(s.0, target, window, g), s.1 + [LeftBehind(s.0, target, window, g)])
  }

  ghost function RunTo(ops: seq<StateOp>, align: nat, window: nat, g: Group): Laying
    requires GroupOk(g)
  {
    if ops == [] then (FRESH, []) else Do(RunTo(ops[..|ops| - 1], align, window, g), ops[|ops| - 1], align, window, g)
  }

  ghost predicate LegalRun(ops: seq<StateOp>, align: nat, window: nat, g: Group)
    requires GroupOk(g)
  {
    ops == [] || (LegalRun(ops[..|ops| - 1], align, window, g)
                  && StateOpLegal(RunTo(ops[..|ops| - 1], align, window, g), ops[|ops| - 1], align, window, g))
  }

  /** For some account of all the pages the table ever had, its segments are what checkpoints left behind. */
  ghost predicate Sound(t: Table, chain: seq<Segment>, align: nat, window: nat, g: Group)
    requires GroupOk(g)
  {
    exists hist {:trigger StateTrail(t, chain, hist, align, window, g)} :: StateTrail(t, chain, hist, align, window, g)
  }

  lemma NextSound(t: Table, chain: seq<Segment>, align: nat, window: nat, g: Group)
    requires GroupOk(g) && Sound(t, chain, align, window, g) && Boundary(|chain| + 1, align) <= t.cursor
    ensures var target := Boundary(|chain| + 1, align);
            Sound(Checkpointed(t, target, window, g), chain + [LeftBehind(t, target, window, g)], align, window, g)
  {
    var hist :| StateTrail(t, chain, hist, align, window, g);
    StateCheckpoint(t, chain, hist, align, window, g);
  }

  lemma EnlargeSound(t: Table, chain: seq<Segment>, align: nat, window: nat, g: Group, target: nat, nu: seq<nat>)
    requires GroupOk(g) && Sound(t, chain, align, window, g) && |nu| == (if target > t.cursor then NeedFor(t, target, g) else 0)
    ensures Sound(Grown(t, target, nu), chain, align, window, g)
  {
    var hist :| StateTrail(t, chain, hist, align, window, g);
    StateGrow(t, chain, hist, align, window, g, target, nu);
  }

  lemma SlideSound(t: Table, chain: seq<Segment>, align: nat, window: nat, g: Group, page: nat)
    requires GroupOk(g) && Sound(t, chain, align, window, g) && page <= LivePage(Boundary(|chain| + 1, align), window, g)
    ensures Sound(Released(t, page), chain, align, window, g)
  {
    var hist :| StateTrail(t, chain, hist, align, window, g);
    var hist' := StateRelease(t, chain, hist, align, window, g, page);
  }

  lemma RewindSound(t: Table, chain: seq<Segment>, align: nat, window: nat, g: Group, tokens: nat)
    requires GroupOk(g) && Sound(t, chain, align, window, g)
    ensures Sound(Rewound(t, tokens, g), chain, align, window, g)
  {
    var hist :| StateTrail(t, chain, hist, align, window, g);
    var hist' := StateRewind(t, chain, hist, align, window, g, tokens);
  }

  lemma StepSound(s: Laying, op: StateOp, align: nat, window: nat, g: Group)
    requires GroupOk(g) && Sound(s.0, s.1, align, window, g) && StateOpLegal(s, op, align, window, g)
    ensures var s' := Do(s, op, align, window, g); Sound(s'.0, s'.1, align, window, g)
  {
    match op
    case Enlarge(target, nu) => EnlargeSound(s.0, s.1, align, window, g, target, nu);
    case SlideTo(page) => SlideSound(s.0, s.1, align, window, g, page);
    case RewindTo(tokens) => RewindSound(s.0, s.1, align, window, g, tokens);
    case CheckpointNext => NextSound(s.0, s.1, align, window, g);
  }

  lemma {:induction false} RunSound(ops: seq<StateOp>, align: nat, window: nat, g: Group)
    requires GroupOk(g) && align > 0 && window > 0 && Aligned(align, g) && LegalRun(ops, align, window, g)
    ensures var s := RunTo(ops, align, window, g); Sound(s.0, s.1, align, window, g)
  {
    if ops == [] {
      StateStart(align, window, g);
    } else {
      var front := ops[..|ops| - 1];
      RunSound(front, align, window, g);
      StepSound(RunTo(front, align, window, g), ops[|ops| - 1], align, window, g);
    }
  }

  /** Segments once left behind stay. */
  lemma {:induction false} ChainStays(ops: seq<StateOp>, n: nat, align: nat, window: nat, g: Group)
    requires GroupOk(g) && n <= |ops|
    ensures RunTo(ops[..n], align, window, g).1 <= RunTo(ops, align, window, g).1
  {
    if n == |ops| {
      assert ops[..n] == ops;
    } else {
      assert ops[..|ops| - 1][..n] == ops[..n];
      ChainStays(ops[..|ops| - 1], n, align, window, g);
    }
  }

  lemma {:induction false} LegalFront(ops: seq<StateOp>, n: nat, align: nat, window: nat, g: Group)
    requires GroupOk(g) && n <= |ops| && LegalRun(ops, align, window, g)
    ensures LegalRun(ops[..n], align, window, g)
  {
    if n == |ops| {
      assert ops[..n] == ops;
    } else {
      assert ops[..|ops| - 1][..n] == ops[..n];
      LegalFront(ops[..|ops| - 1], n, align, window, g);
    }
  }

  /** Right after a checkpoint the table starts at the first page of that checkpoint's window. */
  lemma CheckpointBase(t: Table, chain: seq<Segment>, align: nat, window: nat, g: Group)
    requires GroupOk(g) && Sound(t, chain, align, window, g) && Boundary(|chain| + 1, align) <= t.cursor
    ensures var target := Boundary(|chain| + 1, align);
            Checkpointed(t, target, window, g).base == LivePage(target, window, g)
  {
    var target := Boundary(|chain| + 1, align);
    var hist :| StateTrail(t, chain, hist, align, window, g);
    PagesReach(t, target, g);
    assert Rung(Ends(align, g), Lives(align, window, g), |chain|);
    TrimFront(t, LivePage(target, window, g), Ends(align, g)(|chain|));
    CheckpointParts(t, target, window, g, Trimmed(t, target, window, g), SegmentLen(Trimmed(t, target, window, g), EndPage(target, g)));
  }

  /** From this chain, the segments up to its k-th checkpoint reassemble into the pages this table has. */
  ghost predicate Reassembles(taken: Table, chain: seq<Segment>, k: nat, align: nat, window: nat, g: Group)
    requires GroupOk(g) && k <= |chain|
  {
    var target := Boundary(k, align);
    var lower, end := LivePage(target, window, g), EndPage(target, g);
    var found := Success(Scan(chain[..k], 0, lower, end, [], lower), end);
    && lower <= end && found.Some? && |found.value| == end - lower
    && forall l :: lower <= l < end ==> Phys(taken, l) == Some(found.value[l - lower])
  }

  lemma ReassembledFrom(t: Table, chain: seq<Segment>, full: seq<Segment>, align: nat, window: nat, g: Group)
    requires GroupOk(g) && Sound(t, chain, align, window, g) && 0 < |chain| && chain <= full
    requires t.base == LivePage(Boundary(|chain|, align), window, g)
    ensures Reassembles(t, full, |chain|, align, window, g)
  {
    var hist :| StateTrail(t, chain, hist, align, window, g);
    StateRoundTrip(t, chain, hist, align, window, g, |chain|);
    assert chain[..|chain|] == chain && full[..|chain|] == chain;
  }

  /** Whatever is done to the table before and after, the segments left behind up to a checkpoint reassemble, at any later
      time, into exactly the physical pages the table had for the checkpoint's window when it was taken. */
  lemma CheckpointReassembles(ops: seq<StateOp>, n: nat, align: nat, window: nat, g: Group)
    requires GroupOk(g) && align > 0 && window > 0 && Aligned(align, g)
    requires n < |ops| && ops[n].CheckpointNext? && LegalRun(ops, align, window, g)
    ensures RunTo(ops[..n + 1], align, window, g).1 <= RunTo(ops, align, window, g).1
    ensures var (taken, chain) := RunTo(ops[..n + 1], align, window, g);
            Reassembles(taken, RunTo(ops, align, window, g).1, |chain|, align, window, g)
  {
    ChainStays(ops, n + 1, align, window, g);
    LegalFront(ops, n + 1, align, window, g);
    LegalFront(ops, n, align, window, g);
    RunSound(ops[..n], align, window, g);
    RunCheckpoint(ops, n, align, window, g);
    var before := RunTo(ops[..n], align, window, g);
    CheckpointBase(before.0, before.1, align, window, g);
    RunSound(ops[..n + 1], align, window, g);
    var s := RunTo(ops[..n + 1], align, window, g);
    ReassembledFrom(s.0, s.1, RunTo(ops, align, window, g).1, align, window, g);
  }

  lemma RunCheckpoint(ops: seq<StateOp>, n: nat, align: nat, window: nat, g: Group)
    requires GroupOk(g) && n < |ops| && ops[n].CheckpointNext? && LegalRun(ops[..n + 1], align, window, g)
    ensures var (t, chain) := RunTo(ops[..n], align, window, g);
            && Boundary(|chain| + 1, align) <= t.cursor
            && RunTo(ops[..n + 1], align, window, g).0 == Checkpointed(t, Boundary(|chain| + 1, align), window, g)
            && |RunTo(ops[..n + 1], align, window, g).1| == |chain| + 1
  {
    assert ops[..n + 1][..n] == ops[..n];
  }

  // ---------------------------------------------------------------- history groups

  function Concat(chain: seq<Segment>): seq<nat> {
    if chain == [] then [] else Concat(chain[..|chain| - 1]) + chain[|chain| - 1].pages
  }

  /** The unchecked assembler of a full-history group: all segments one after the other, from logical page 0. */
  method AssembleHistory(chain: seq<Segment>) returns (ids: seq<nat>, base: nat)
    ensures ids == Concat(chain) && base == 0
  {
    ids, base := [], 0;
    var i := 0;
    while i < |chain|
      invariant 0 <= i <= |chain| && ids == Concat(chain[..i])
    {
      assert chain[..i + 1][..i] == chain[..i];
      ids := ids + chain[i].pages;
      i := i + 1;
    }
    assert chain[..i] == chain;
  }

  ghost predicate Steps(chain: seq<Segment>, align: nat, g: Group)
    requires GroupOk(g)
  {
    forall j {:trigger chain[j]} :: 0 <= j < |chain| ==> StepSegment(chain[j], j, align, g)
  }

  /** Segment j holds the pages of one alignment step and names the first of them. */
  ghost predicate StepSegment(s: Segment, j: nat, align: nat, g: Group)
    requires GroupOk(g)
  {
    s.base == EndPage(Boundary(j, align), g) && SegmentEnd(s) == EndPage(Boundary(j + 1, align), g)
  }

  lemma ConcatMore(chain: seq<Segment>, s: Segment)
    ensures Concat(chain + [s]) == Concat(chain) + s.pages
  {
    assert (chain + [s])[..|chain|] == chain;
  }

  lemma StepPages(a: nat, step: nat, d: nat)
    requires d > 0 && a % d == 0 && step % d == 0
    ensures (a + step) / d == a / d + step / d
  {
    AlignedPages(a, d);
    AlignedPages(step, d);
    DivUnique(a + step, d, a / d + step / d, 0);
  }

  lemma AlignedPages(a: nat, d: nat)
    requires d > 0 && a % d == 0
    ensures (a / d) * d == a
  {
  }

  lemma StepsMore(chain: seq<Segment>, chain': seq<Segment>, s: Segment, align: nat, g: Group)
    requires GroupOk(g) && Steps(chain, align, g) && StepSegment(s, |chain|, align, g) && chain' == chain + [s]
    ensures Steps(chain', align, g) && Concat(chain') == Concat(chain) + s.pages
  {
    ConcatMore(chain, s);
    forall j | 0 <= j < |chain'| ensures StepSegment(chain'[j], j, align, g) {
      if j < |chain| { assert chain'[j] == chain[j]; }
    }
  }

  lemma {:induction false} ConcatLength(chain: seq<Segment>, align: nat, g: Group)
    requires GroupOk(g) && Steps(chain, align, g)
    ensures |Concat(chain)| == EndPage(Boundary(|chain|, align), g)
  {
    PageTokensPositive(g);
    if chain == [] {
      DivUnique(0, PageTokens(g), 0, 0);
    } else {
      var front := chain[..|chain| - 1];
      forall j | 0 <= j < |front| ensures StepSegment(front[j], j, align, g) { assert front[j] == chain[j]; }
      ConcatLength(front, align, g);
      assert StepSegment(chain[|chain| - 1], |chain| - 1, align, g);
    }
  }

  /** A prefix hit on a chain of k complete steps imports a correct table: the ids number exactly the pages of k alignment
      steps, and reach the tokens they are said to cover. */
  lemma HistoryImport(chain: seq<Segment>, align: nat, g: Group)
    requires GroupOk(g) && align > 0 && Aligned(align, g) && Steps(chain, align, g)
    ensures var tokens := Boundary(|chain|, align);
            && Covered(Imported(Concat(chain), 0, tokens), g)
            && |Concat(chain)| * PageTokens(g) == tokens == |chain| * align
  {
    PageTokensPositive(g);
    ConcatLength(chain, align, g);
    BoundaryAligned(|chain|, align, g);
    var tokens := Boundary(|chain|, align);
    PagesNeededIsCeil(tokens, g);
    AlignedCeil(tokens, PageTokens(g));
    AlignedPages(tokens, PageTokens(g));
  }

  lemma AlignedCeil(a: nat, d: nat)
    requires d > 0 && a % d == 0
    ensures CeilDiv(a, d) == a / d
  {
    AlignedPages(a, d);
    var k: int := a / d;
    MulMonotone(k - 1, k, d);
    CeilDivUnique(a, d, k);
  }
}
