/** The unchecked way of restoring a state group: the segments of the last snapshots, one after the other as they are. */
module StateFallback {
  import opened Prelude
  import opened PagedCacheTable
  import opened Snapshots
  import opened SnapshotColumns
  import opened SnapshotPaths
  import opened SnapshotTree
  import opened SnapshotRuns

  /** No page is missing between the segments of checkpoints from + 1 to k. */
  ghost predicate NoGap(ends: nat -> nat, lives: nat -> nat, from: nat, k: nat) {
    forall j: nat {:trigger Meets(ends, lives, j)} :: from < j < k ==> Meets(ends, lives, j)
  }

  /** The window of the next boundary starts no later than this one. */
  ghost predicate Meets(ends: nat -> nat, lives: nat -> nat, j: nat) {
    lives(j + 1) <= ends(j)
  }

  /** Where the segment of checkpoint j + 1 starts. */
  ghost function From(ends: nat -> nat, lives: nat -> nat, j: nat): nat {
    MaxNat(ends(j), lives(j + 1))
  }

  lemma {:induction false} TailLaid(chain: seq<Segment>, hist: seq<nat>, ends: nat -> nat, lives: nat -> nat, from: nat, k: nat)
    requires Ladder(ends, lives) && Laid(chain, hist, ends, lives) && from < k <= |chain| && ends(|chain|) <= |hist|
    ensures From(ends, lives, from) <= ends(k) <= |hist|
    ensures |Concat(chain[from..k])| <= ends(k) - From(ends, lives, from)
    ensures NoGap(ends, lives, from, k) ==> Concat(chain[from..k]) == hist[From(ends, lives, from)..ends(k)]
    ensures !NoGap(ends, lives, from, k) ==> |Concat(chain[from..k])| < ends(k) - From(ends, lives, from)
    decreases k
  {
    var tail := chain[from..k];
    assert Rung(ends, lives, k - 1);
    Climb(ends, lives, k, |chain|);
    assert SegmentIs(chain[k - 1], hist, From(ends, lives, k - 1), ends(k));
    assert tail[..|tail| - 1] == chain[from..k - 1] && tail[|tail| - 1] == chain[k - 1];
    if from == k - 1 {
      assert Concat(chain[from..k - 1]) == [] && chain[from..k - 1] == [];
      assert Concat(tail) == [] + chain[k - 1].pages;
    } else {
      TailLaid(chain, hist, ends, lives, from, k - 1);
      Joined(ends, lives, from, k);
      TailMore(Concat(chain[from..k - 1]), chain[k - 1].pages, hist, From(ends, lives, from), ends(k - 1), From(ends, lives, k - 1), ends(k));
    }
  }

  /** One more segment: the tail stays whole only if the segment starts where the tail ends. */
  lemma TailMore(ids: seq<nat>, pages: seq<nat>, hist: seq<nat>, a: nat, b: nat, from: nat, to: nat)
    requires a <= b <= from <= to <= |hist| && |ids| <= b - a && pages == hist[from..to]
    ensures |ids + pages| <= to - a
    ensures ids == hist[a..b] && from == b ==> ids + pages == hist[a..to]
    ensures |ids| < b - a || from > b ==> |ids + pages| < to - a
  {
    if from == b { assert hist[a..b] + hist[b..to] == hist[a..to]; }
  }

  lemma Joined(ends: nat -> nat, lives: nat -> nat, from: nat, k: nat)
    requires from + 1 < k
    ensures NoGap(ends, lives, from, k) <==> NoGap(ends, lives, from, k - 1) && Meets(ends, lives, k - 1)
  {
    if NoGap(ends, lives, from, k - 1) && Meets(ends, lives, k - 1) {
      forall j: nat | from < j < k ensures Meets(ends, lives, j) { }
    }
    if NoGap(ends, lives, from, k) { assert Meets(ends, lives, k - 1); }
  }

  /** One boundary's window starts no later than the boundary before exactly if it spans more than the alignment less a page. */
  lemma WindowReaches(j: nat, align: nat, window: nat, g: Group)
    requires GroupOk(g) && Aligned(align, g) && align > 0
    ensures PageTokens(g) > 0
    ensures LivePage(Boundary(j + 1, align), window, g) <= EndPage(Boundary(j, align), g) <==> window + PageTokens(g) > align
  {
    PageTokensPositive(g);
    BoundaryAligned(j, align, g);
    var a, d := Boundary(j, align), PageTokens(g);
    if align > window {
      AddAligned(a, align - window, d);
      SmallQuotient(align - window, d);
    } else {
      DivMono(if a + align > window then a + align - window else 0, a, d);
    }
  }

  lemma AddAligned(a: nat, x: nat, d: nat)
    requires d > 0 && a % d == 0
    ensures (a + x) / d == a / d + x / d
  {
    AlignedPages(a, d);
    DivUnique(a + x, d, a / d + x / d, x % d);
  }

  lemma SmallQuotient(x: nat, d: nat)
    requires d > 0
    ensures x / d == 0 <==> x < d
  {
    if x < d { DivUnique(x, d, 0, x); } else { DivMono(d, x, d); DivUnique(d, d, 1, 0); }
  }

  lemma MeetsExactly(align: nat, window: nat, g: Group, j: nat)
    requires GroupOk(g) && Aligned(align, g) && align > 0
    ensures PageTokens(g) > 0 && (Meets(Ends(align, g), Lives(align, window, g), j) <==> window + PageTokens(g) > align)
  {
    WindowReaches(j, align, window, g);
  }

  lemma GapExactly(align: nat, window: nat, g: Group, from: nat, k: nat)
    requires GroupOk(g) && Aligned(align, g) && align > 0 && from < k
    ensures PageTokens(g) > 0
    ensures NoGap(Ends(align, g), Lives(align, window, g), from, k) <==> from + 1 == k || window + PageTokens(g) > align
  {
    var ends, lives := Ends(align, g), Lives(align, window, g);
    PageTokensPositive(g);
    forall j: nat | from < j < k ensures Meets(ends, lives, j) <==> window + PageTokens(g) > align { MeetsExactly(align, window, g, j); }
    assert from + 1 < k && NoGap(ends, lives, from, k) ==> Meets(ends, lives, from + 1);
  }

  /** The plain concatenation from checkpoint `from` on: where it starts, what it is, and whether that is what the table had. */
  ghost predicate Restores(chain: seq<Segment>, hist: seq<nat>, from: nat, end: nat)
    requires from < |chain| && chain[from].base <= end <= |hist|
  {
    Concat(chain[from..]) == hist[chain[from].base..end]
  }

  /** What is restored is the pages the table had from the first segment on exactly if there is but one segment or the window
      spans more than the alignment less a page; otherwise pages are missing in between, and the ids end before the target. */
  lemma FallbackExactly(t: Table, chain: seq<Segment>, hist: seq<nat>, align: nat, window: nat, g: Group, from: nat)
    requires GroupOk(g) && StateTrail(t, chain, hist, align, window, g) && from < |chain|
    ensures chain[from].base <= EndPage(Boundary(|chain|, align), g) <= |hist| && PageTokens(g) > 0
    ensures Restores(chain, hist, from, EndPage(Boundary(|chain|, align), g)) <==> from + 1 == |chain| || window + PageTokens(g) > align
    ensures !Restores(chain, hist, from, EndPage(Boundary(|chain|, align), g)) ==>
              chain[from].base + |Concat(chain[from..])| < EndPage(Boundary(|chain|, align), g)
  {
    var ends, lives, k := Ends(align, g), Lives(align, window, g), |chain|;
    PagesReach(t, t.committed, g);
    GapExactly(align, window, g, from, k);
    LaidRestores(chain, hist, ends, lives, from);
  }

  lemma LaidRestores(chain: seq<Segment>, hist: seq<nat>, ends: nat -> nat, lives: nat -> nat, from: nat)
    requires Ladder(ends, lives) && Laid(chain, hist, ends, lives) && from < |chain| && ends(|chain|) <= |hist|
    ensures chain[from].base <= ends(|chain|)
    ensures Restores(chain, hist, from, ends(|chain|)) <==> NoGap(ends, lives, from, |chain|)
    ensures !Restores(chain, hist, from, ends(|chain|)) ==> chain[from].base + |Concat(chain[from..])| < ends(|chain|)
  {
    assert SegmentIs(chain[from], hist, From(ends, lives, from), ends(from + 1));
    assert chain[from..|chain|] == chain[from..];
    TailLaid(chain, hist, ends, lives, from, |chain|);
  }

  /** If the snapshots taken span the window, what is restored starts no later than the target's window. */
  lemma FallbackReaches(t: Table, chain: seq<Segment>, hist: seq<nat>, align: nat, window: nat, g: Group, n: nat)
    requires GroupOk(g) && StateTrail(t, chain, hist, align, window, g) && 0 < |chain| && n * align >= window && n > 0
    ensures chain[Sub(|chain|, n)].base <= LivePage(Boundary(|chain|, align), window, g)
  {
    var ends, lives, k, from := Ends(align, g), Lives(align, window, g), |chain|, Sub(|chain|, n);
    assert SegmentIs(chain[from], hist, From(ends, lives, from), ends(from + 1));
    Climb(ends, lives, from + 1, k);
    WindowStarts(from, k, n, align, window, g);
  }

  /** n steps before a boundary lies before its window if they span it. */
  lemma WindowStarts(from: nat, k: nat, n: nat, align: nat, window: nat, g: Group)
    requires GroupOk(g) && Aligned(align, g) && from == Sub(k, n) && n * align >= window
    ensures EndPage(Boundary(from, align), g) <= LivePage(Boundary(k, align), window, g)
  {
    PageTokensPositive(g);
    BoundaryAligned(from, align, g);
    BoundaryAligned(k, align, g);
    Times(k, from, n, align);
    DivMono(Boundary(from, align), if Boundary(k, align) > window then Boundary(k, align) - window else 0, PageTokens(g));
  }

  lemma Times(k: nat, from: nat, n: nat, align: nat)
    requires from == Sub(k, n)
    ensures from * align == 0 || k * align == from * align + n * align
  {
    if k > n { assert k == from + n; }
  }

  // ---------------------------------------------------------------- as a hit offers it

  lemma {:induction false} SpanIsTail(segs: map<Path, Segment>, p: Path, from: nat, k: nat, align: nat)
    requires Present(segs, p, k, align) && from <= k
    ensures |ChainOf(segs, p, k, align)| == k && Span(segs, p, from, k, align) == ChainOf(segs, p, k, align)[from..]
    decreases k
  {
    if k == 0 {
    } else if from == k {
      SpanIsTail(segs, p, k - 1, k - 1, align);
      assert ChainOf(segs, p, k, align)[k..] == [];
    } else {
      SpanIsTail(segs, p, from, k - 1, align);
      var rest, s := ChainOf(segs, p, k - 1, align), segs[p[..Boundary(k, align)]];
      assert (rest + [s])[from..] == rest[from..] + [s];
    }
  }

  /** A hit that restores a required state group without checking, where one request left all the segments: the ids are the
      pages the request had exactly if one snapshot is taken or the group's window spans more than the alignment less a page.
      How many are taken depends on the widest window of all groups, so a narrow window beside a wide one fails. */
  lemma PlainStateExactly(c: Config, a: Adjunct, p: Path, k: nat, i: nat, t: Table, chain: seq<Segment>, hist: seq<nat>)
    requires ConfigOk(c) && |a.cols| == |c.groups| && i < c.required && !c.groups[i].history && 0 < k
    requires Present(a.cols[i].segs, p, k, c.align) && chain == ChainOf(a.cols[i].segs, p, k, c.align)
    requires StateTrail(t, chain, hist, c.align, c.groups[i].window.value, c.groups[i])
    ensures var (ids, base) := PlainHit(c, a, p, k, i);
            var end := EndPage(Boundary(k, c.align), c.groups[i]);
            && base <= end <= |hist| && PageTokens(c.groups[i]) > 0
            && (ids == hist[base..end] <==> k == 1 || Needed(c) == 1 || c.groups[i].window.value + PageTokens(c.groups[i]) > c.align)
  {
    var g, segs, from := c.groups[i], a.cols[i].segs, Sub(k, Needed(c));
    SpanIsTail(segs, p, from, k, c.align);
    NeededPositive(c);
    SpanStarts(segs, p, from, k, c.align);
    FallbackExactly(t, chain, hist, c.align, g.window.value, g, from);
  }

  lemma NeededPositive(c: Config)
    requires ConfigOk(c)
    ensures Needed(c) >= 1
  {
  }

  lemma {:induction false} SpanStarts(segs: map<Path, Segment>, p: Path, from: nat, k: nat, align: nat)
    requires Present(segs, p, k, align) && from < k
    ensures |ChainOf(segs, p, k, align)| == k && Boundary(from + 1, align) <= |p| && p[..Boundary(from + 1, align)] in segs
    ensures ChainOf(segs, p, k, align)[from] == segs[p[..Boundary(from + 1, align)]]
    decreases k
  {
    SpanIsTail(segs, p, 0, k - 1, align);
    if from < k - 1 { SpanStarts(segs, p, from, k - 1, align); }
  }

  // ---------------------------------------------------------------- a group it fails for

  /** Two checkpoints four tokens apart with a window of two: the pages of tokens 4 and 5 are in neither segment. */
  lemma FallbackExample(g: Group, ops: seq<StateOp>)
    requires g == Group(1, 1, Some(2), false) && ops == [Enlarge(8, [0, 1, 2, 3, 4, 5, 6, 7]), CheckpointNext, CheckpointNext]
    ensures GroupOk(g) && Aligned(4, g) && LegalRun(ops, 4, 2, g) && |RunTo(ops, 4, 2, g).1| == 2
    ensures exists hist {:trigger StateTrail(RunTo(ops, 4, 2, g).0, RunTo(ops, 4, 2, g).1, hist, 4, 2, g)} ::
              && StateTrail(RunTo(ops, 4, 2, g).0, RunTo(ops, 4, 2, g).1, hist, 4, 2, g)
              && RunTo(ops, 4, 2, g).1[0].base <= EndPage(8, g) <= |hist| && !Restores(RunTo(ops, 4, 2, g).1, hist, 0, EndPage(8, g))
  {
    ExampleLegal(g, ops);
    RunSound(ops, 4, 2, g);
    var (t, chain) := RunTo(ops, 4, 2, g);
    var hist :| StateTrail(t, chain, hist, 4, 2, g);
    FallbackExactly(t, chain, hist, 4, 2, g, 0);
    assert Boundary(2, 4) == 8 by { assert Boundary(1, 4) == 4; }
  }

  lemma ExampleLegal(g: Group, ops: seq<StateOp>)
    requires g == Group(1, 1, Some(2), false) && ops == [Enlarge(8, [0, 1, 2, 3, 4, 5, 6, 7]), CheckpointNext, CheckpointNext]
    ensures GroupOk(g) && Aligned(4, g) && LegalRun(ops, 4, 2, g) && |RunTo(ops, 4, 2, g).1| == 2 && PageTokens(g) == 1
  {
    PagesNeededIsCeil(8, g);
    CeilDivUnique(8, 1, 8);
    assert ops[..2][..1] == ops[..1] && ops[..1][..0] == [] && Boundary(1, 4) == 4 && Boundary(2, 4) == 8;
    assert PagesNeeded(8, g) == 8;
    assert LegalRun(ops[..1][..0], 4, 2, g) && RunTo(ops[..1][..0], 4, 2, g) == (FRESH, []);
    assert StateOpLegal((FRESH, []), ops[..1][0], 4, 2, g);
    var s1 := RunTo(ops[..1], 4, 2, g);
    assert s1.0.cursor == 8 && s1.1 == [] && LegalRun(ops[..1], 4, 2, g);
    var s2 := RunTo(ops[..2], 4, 2, g);
    assert s2 == Do(s1, CheckpointNext, 4, 2, g) && |s2.1| == 1 && LegalRun(ops[..2], 4, 2, g);
    CheckpointCursor(s1.0, 4, 2, g);
  }

  lemma CheckpointCursor(t: Table, target: nat, window: nat, g: Group)
    requires GroupOk(g)
    ensures Checkpointed(t, target, window, g).cursor == t.cursor
  {
  }
}
