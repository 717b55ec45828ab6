/** The snapshots along a tree path, and the tables that go on from them. */
module SnapshotPaths {
  import opened Prelude
  import opened PagedCacheTable
  import opened Snapshots
  import opened CommitSteps
  import opened SnapshotColumns

  // ---------------------------------------------------------------- borrowed pages are a snapshot's

  /** Some snapshot on the path holds the page. */
  ghost predicate OnPath(segs: map<Path, Segment>, p: Path, x: nat) {
    exists q {:trigger q in segs} :: q in segs && q <= p && x in segs[q].pages
  }

  ghost predicate Backed(segs: map<Path, Segment>, p: Path, xs: seq<nat>) {
    forall x {:trigger OnPath(segs, p, x)} :: x in xs ==> OnPath(segs, p, x)
  }

  /** Snapshots on the path stay. */
  ghost predicate KeepsAlong(segs: map<Path, Segment>, segs': map<Path, Segment>, p: Path) {
    forall q {:trigger q in segs} {:trigger q in segs'} :: q in segs && q <= p ==> q in segs' && segs'[q] == segs[q]
  }

  lemma BackedKept(segs: map<Path, Segment>, segs': map<Path, Segment>, p: Path, xs: seq<nat>)
    requires Backed(segs, p, xs) && KeepsAlong(segs, segs', p)
    ensures Backed(segs', p, xs)
  {
    forall x | x in xs ensures OnPath(segs', p, x) {
      assert OnPath(segs, p, x);
      var q :| q in segs && q <= p && x in segs[q].pages;
      assert q in segs';
    }
  }

  lemma BackedLonger(segs: map<Path, Segment>, p: Path, p': Path, xs: seq<nat>)
    requires Backed(segs, p, xs) && p <= p'
    ensures Backed(segs, p', xs)
  {
    forall x | x in xs ensures OnPath(segs, p', x) {
      assert OnPath(segs, p, x);
      var q :| q in segs && q <= p && x in segs[q].pages;
      assert q <= p';
    }
  }

  /** A table that borrows nothing but what it borrowed before, and pages of one snapshot on the path, stays backed. */
  lemma BackedMore(segs: map<Path, Segment>, p: Path, xs: seq<nat>, q: Path, xs': seq<nat>)
    requires Backed(segs, p, xs) && q in segs && q <= p
    requires forall x {:trigger x in xs'} :: x in xs' ==> x in xs || x in segs[q].pages
    ensures Backed(segs, p, xs')
  {
    forall x | x in xs' ensures OnPath(segs, p, x) {
      if x !in xs { assert q in segs; }
    }
  }

  lemma BackedLess(segs: map<Path, Segment>, p: Path, xs: seq<nat>, xs': seq<nat>)
    requires Backed(segs, p, xs) && forall x {:trigger x in xs'} :: x in xs' ==> x in xs
    ensures Backed(segs, p, xs')
  {
  }

  lemma LayBorrows(t: Table, width: nat, g: Group, x: nat)
    requires GroupOk(g) && StepLegal(t, Lay, width, g) && x in StepTable(t, Lay, width, g).borrowed
    ensures x in t.borrowed || x in Leaves(t, width, g).pages
  {
    if !g.history {
      var target := t.committed + width;
      var t1 := Trimmed(t, target, g.window.value, g);
      CheckpointParts(t, target, g.window.value, g, t1, SegmentLen(t1, EndPage(target, g)));
    }
  }

  lemma TakeBorrows(t: Table, s: CommitStep, width: nat, g: Group, x: nat)
    requires GroupOk(g) && s.Take? && StepLegal(t, s, width, g) && x in StepTable(t, s, width, g).borrowed
    ensures x in t.borrowed || x in s.ids
  {
  }

  // ---------------------------------------------------------------- the chain of snapshots along a path

  /** The segments of the first k boundaries of the path, as far as there are any. */
  function ChainOf(segs: map<Path, Segment>, p: Path, k: nat, align: nat): seq<Segment> {
    if k == 0 then [] else
      var rest := ChainOf(segs, p, k - 1, align);
      var d := Boundary(k, align);
      if d <= |p| && p[..d] in segs then rest + [segs[p[..d]]] else rest
  }

  /** There is a segment at each of the first k boundaries. */
  predicate Present(segs: map<Path, Segment>, p: Path, k: nat, align: nat) {
    k == 0 || (Present(segs, p, k - 1, align) && Boundary(k, align) <= |p| && p[..Boundary(k, align)] in segs)
  }

  lemma {:induction false} ChainKept(segs: map<Path, Segment>, segs': map<Path, Segment>, p: Path, k: nat, align: nat)
    requires Present(segs, p, k, align) && KeepsAlong(segs, segs', p)
    ensures Present(segs', p, k, align) && ChainOf(segs', p, k, align) == ChainOf(segs, p, k, align)
  {
    if k > 0 {
      ChainKept(segs, segs', p, k - 1, align);
      assert p[..Boundary(k, align)] in segs && p[..Boundary(k, align)] <= p;
    }
  }

  /** Only the path up to the last boundary matters. */
  lemma {:induction false} ChainLonger(segs: map<Path, Segment>, p: Path, p': Path, k: nat, align: nat)
    requires p <= p' && Boundary(k, align) <= |p|
    ensures Present(segs, p', k, align) == Present(segs, p, k, align) && ChainOf(segs, p', k, align) == ChainOf(segs, p, k, align)
  {
    if k > 0 {
      ChainLonger(segs, p, p', k - 1, align);
      assert p'[..Boundary(k, align)] == p[..Boundary(k, align)];
    }
  }

  ghost predicate FromPath(segs: map<Path, Segment>, p: Path, s: Segment) {
    exists q {:trigger q in segs} :: q in segs && q <= p && segs[q] == s
  }

  lemma {:induction false} ChainFrom(segs: map<Path, Segment>, p: Path, k: nat, align: nat, i: nat)
    requires i < |ChainOf(segs, p, k, align)|
    ensures FromPath(segs, p, ChainOf(segs, p, k, align)[i])
  {
    if k > 0 {
      var d := Boundary(k, align);
      if i < |ChainOf(segs, p, k - 1, align)| { ChainFrom(segs, p, k - 1, align, i); } else { assert p[..d] in segs && p[..d] <= p; }
    }
  }

  lemma FromBacked(segs: map<Path, Segment>, p: Path, s: Segment, x: nat)
    requires FromPath(segs, p, s) && x in s.pages
    ensures OnPath(segs, p, x)
  {
    var q :| q in segs && q <= p && segs[q] == s;
    assert q in segs;
  }

  lemma {:induction false} ConcatFrom(chain: seq<Segment>, x: nat) returns (i: nat)
    requires x in Concat(chain)
    ensures i < |chain| && x in chain[i].pages
  {
    var front := chain[..|chain| - 1];
    if x in Concat(front) { i := ConcatFrom(front, x); } else { i := |chain| - 1; }
  }

  /** Segments from the path, put one after the other, are backed by the path. */
  lemma ConcatBacked(segs: map<Path, Segment>, p: Path, chain: seq<Segment>)
    requires forall i {:trigger chain[i]} :: 0 <= i < |chain| ==> FromPath(segs, p, chain[i])
    ensures Backed(segs, p, Concat(chain))
  {
    forall x | x in Concat(chain) ensures OnPath(segs, p, x) {
      var i := ConcatFrom(chain, x);
      FromBacked(segs, p, chain[i], x);
    }
  }

  lemma CollectedBacked(segs: map<Path, Segment>, p: Path, chain: seq<Segment>, lower: nat, next: nat, ids: seq<nat>)
    requires forall i {:trigger chain[i]} :: 0 <= i < |chain| ==> FromPath(segs, p, chain[i])
    requires Collected(chain, lower, next, ids)
    ensures Backed(segs, p, ids)
  {
    forall x | x in ids ensures OnPath(segs, p, x) {
      var k :| 0 <= k < |ids| && ids[k] == x;
      assert Recorded(chain, lower + k, ids[k]);
      var i :| 0 <= i < |chain| && SegmentAt(chain[i], lower + k) == Some(x);
      FromBacked(segs, p, chain[i], x);
    }
  }

  // ---------------------------------------------------------------- whole steps

  /** The segment at a node holds the pages of exactly the alignment step that ends there. */
  ghost predicate Stepped(q: Path, s: Segment, align: nat, g: Group)
    requires GroupOk(g)
  {
    exists k: nat {:trigger StepAt(q, s, k, align, g)} :: StepAt(q, s, k, align, g)
  }

  ghost predicate StepAt(q: Path, s: Segment, k: nat, align: nat, g: Group)
    requires GroupOk(g)
  {
    |q| == Boundary(k + 1, align) && StepSegment(s, k, align, g)
  }

  ghost predicate AllStepped(segs: map<Path, Segment>, align: nat, g: Group)
    requires GroupOk(g)
  {
    forall q {:trigger q in segs} {:trigger segs[q]} :: q in segs ==> Stepped(q, segs[q], align, g)
  }

  lemma {:induction false} BoundaryGrows(i: nat, j: nat, align: nat)
    requires align > 0 && i < j
    ensures Boundary(i, align) < Boundary(j, align)
    decreases j
  {
    if i < j - 1 { BoundaryGrows(i, j - 1, align); }
  }

  lemma StepOfDepth(q: Path, s: Segment, k: nat, align: nat, g: Group)
    requires GroupOk(g) && align > 0 && Stepped(q, s, align, g) && |q| == Boundary(k + 1, align)
    ensures StepSegment(s, k, align, g)
  {
    var j: nat :| StepAt(q, s, j, align, g);
    if j < k { BoundaryGrows(j + 1, k + 1, align); }
    if k < j { BoundaryGrows(k + 1, j + 1, align); }
  }

  /** Along a path whose snapshots each hold one whole step, the chain is the steps in order. */
  lemma {:induction false} ChainSteps(segs: map<Path, Segment>, p: Path, k: nat, align: nat, g: Group)
    requires GroupOk(g) && align > 0 && AllStepped(segs, align, g) && Present(segs, p, k, align)
    ensures |ChainOf(segs, p, k, align)| == k && Steps(ChainOf(segs, p, k, align), align, g)
  {
    if k > 0 {
      var q := p[..Boundary(k, align)];
      ChainSteps(segs, p, k - 1, align, g);
      assert q in segs;
      StepOfDepth(q, segs[q], k - 1, align, g);
      StepsMore(ChainOf(segs, p, k - 1, align), ChainOf(segs, p, k, align), segs[q], align, g);
    }
  }

  // ---------------------------------------------------------------- tables that go on from a chain

  /** A history table that has committed just the steps of a chain: what it still borrows is the chain's tail from its base,
      unless sliding has taken it beyond the chain. */
  ghost predicate Rides(t: Table, chain: seq<Segment>, align: nat, g: Group)
    requires GroupOk(g)
  {
    && align > 0 && Aligned(align, g) && Covered(t, g) && t.committed == Boundary(|chain|, align) && Steps(chain, align, g)
    && t.borrowed == if t.base <= |Concat(chain)| then Concat(chain)[t.base..] else []
  }

  /** What is checked of every group before a commit step. */
  predicate Preflight(t: Table, target: nat, g: Group)
    requires GroupOk(g)
  {
    PageTokensPositive(g);
    && t.committed % PageTokens(g) == 0 && target % PageTokens(g) == 0 && t.committed < target <= t.cursor
    && (g.history ==> t.base + |t.borrowed| == t.committed / PageTokens(g) && CommitCount(t, target, g) <= |t.owned|)
  }

  lemma PreflightLegal(t: Table, target: nat, g: Group)
    requires GroupOk(g) && Preflight(t, target, g) && (!g.history ==> g.window.Some?)
    ensures StepLegal(t, Lay, target - t.committed, g)
  {
  }

  /** A history table's commit lays down just the step that ends at the target exactly if it has committed up to the boundary
      before. */
  lemma InStepExactly(t: Table, k: nat, align: nat, g: Group)
    requires GroupOk(g) && g.history && align > 0 && Aligned(align, g) && Preflight(t, Boundary(k + 1, align), g)
    ensures StepLegal(t, Lay, Boundary(k + 1, align) - t.committed, g)
    ensures StepSegment(Leaves(t, Boundary(k + 1, align) - t.committed, g), k, align, g) <==> t.committed == Boundary(k, align)
  {
    var d := PageTokens(g);
    PageTokensPositive(g);
    BoundaryAligned(k, align, g);
    BoundaryAligned(k + 1, align, g);
    var target := Boundary(k + 1, align);
    AlignedPages(t.committed, d);
    AlignedPages(Boundary(k, align), d);
    AlignedGap(t.committed, target, d);
  }

  lemma AlignedGap(a: nat, b: nat, d: nat)
    requires d > 0 && a <= b && a % d == 0 && b % d == 0
    ensures a / d + (b - a) / d == b / d && (b - a) % d == 0
  {
    AlignedPages(a, d);
    AlignedPages(b, d);
    DivUnique(b - a, d, b / d - a / d, 0);
  }

  /** The next step of a history table passes the check before it exactly if its boundary has been acquired and sliding has not
      taken the table beyond what it has committed: there are always pages enough. */
  lemma PreflightExactly(t: Table, chain: seq<Segment>, align: nat, g: Group)
    requires GroupOk(g) && g.history && Rides(t, chain, align, g)
    ensures Preflight(t, Boundary(|chain| + 1, align), g) <==> Boundary(|chain| + 1, align) <= t.cursor && t.base <= |Concat(chain)|
  {
    var target := Boundary(|chain| + 1, align);
    PageTokensPositive(g);
    ConcatLength(chain, align, g);
    BoundaryAligned(|chain|, align, g);
    BoundaryAligned(|chain| + 1, align, g);
    if target <= t.cursor {
      PagesReach(t, target, g);
      StepPages(t.committed, align, PageTokens(g));
    }
  }

  /** The numbers of the next step. */
  lemma NextStep(t: Table, chain: seq<Segment>, align: nat, g: Group)
    requires GroupOk(g) && g.history && Rides(t, chain, align, g) && Preflight(t, Boundary(|chain| + 1, align), g)
    ensures Boundary(|chain| + 1, align) == t.committed + align && CommitCount(t, t.committed + align, g) <= |t.owned|
    ensures EndPage(t.committed, g) + CommitCount(t, t.committed + align, g) == EndPage(t.committed + align, g)
    ensures t.base <= |Concat(chain)| == EndPage(t.committed, g)
  {
    var d := PageTokens(g);
    PageTokensPositive(g);
    ConcatLength(chain, align, g);
    AlignedGap(t.committed, t.committed + align, d);
    NotBeyond(t, chain, g);
  }

  lemma NotBeyond(t: Table, chain: seq<Segment>, g: Group)
    requires GroupOk(g) && t.base + |t.borrowed| == EndPage(t.committed, g) == |Concat(chain)|
    ensures t.base <= |Concat(chain)|
  {
  }

  lemma LayIs(t: Table, align: nat, g: Group)
    requires GroupOk(g) && g.history && align > 0 && Preflight(t, t.committed + align, g)
    ensures StepLegal(t, Lay, align, g)
    ensures StepTable(t, Lay, align, g) == Lend(t, CommitCount(t, t.committed + align, g), t.committed + align)
    ensures Leaves(t, align, g) == Segment(t.owned[..CommitCount(t, t.committed + align, g)], EndPage(t.committed, g))
  {
  }

  lemma LendRides(t: Table, chain: seq<Segment>, n: nat, target: nat, align: nat, g: Group)
    requires GroupOk(g) && Rides(t, chain, align, g) && n <= |t.owned| && target == Boundary(|chain| + 1, align) <= t.cursor
    requires t.base <= |Concat(chain)| && EndPage(t.committed, g) + n == EndPage(target, g)
    ensures var s := Segment(t.owned[..n], EndPage(t.committed, g));
            StepSegment(s, |chain|, align, g) && Rides(Lend(t, n, target), chain + [s], align, g)
  {
    var s := Segment(t.owned[..n], EndPage(t.committed, g));
    LendOk(t, n, target, g);
    StepsMore(chain, chain + [s], s, align, g);
    assert (Concat(chain) + s.pages)[t.base..] == Concat(chain)[t.base..] + s.pages;
  }

  /** The next step joins its segment to the chain. */
  lemma RidesLay(t: Table, chain: seq<Segment>, align: nat, g: Group)
    requires GroupOk(g) && g.history && Rides(t, chain, align, g) && Preflight(t, Boundary(|chain| + 1, align), g)
    ensures StepLegal(t, Lay, align, g) && StepSegment(Leaves(t, align, g), |chain|, align, g)
    ensures Rides(StepTable(t, Lay, align, g), chain + [Leaves(t, align, g)], align, g)
  {
    NextStep(t, chain, align, g);
    LayIs(t, align, g);
    LendRides(t, chain, CommitCount(t, t.committed + align, g), t.committed + align, align, g);
  }

  lemma TakeIs(t: Table, s: Segment, align: nat, g: Group)
    requires GroupOk(g) && g.history && align > 0 && Preflight(t, t.committed + align, g) && |s.pages| == CommitCount(t, t.committed + align, g)
    ensures StepLegal(t, TakeOf(s), align, g)
    ensures StepTable(t, TakeOf(s), align, g) == AdoptHistory(t, s.pages, t.committed + align)
  {
  }

  lemma AdoptRides(t: Table, chain: seq<Segment>, s: Segment, target: nat, align: nat, g: Group)
    requires GroupOk(g) && Rides(t, chain, align, g) && |s.pages| <= |t.owned| && target == Boundary(|chain| + 1, align) <= t.cursor
    requires t.base <= |Concat(chain)| && StepSegment(s, |chain|, align, g)
    ensures Rides(AdoptHistory(t, s.pages, target), chain + [s], align, g)
  {
    AdoptHistoryOk(t, s.pages, target, g);
    StepsMore(chain, chain + [s], s, align, g);
    assert (Concat(chain) + s.pages)[t.base..] == Concat(chain)[t.base..] + s.pages;
  }

  /** Another request's next step may be taken over, and joins the chain too. */
  lemma RidesTake(t: Table, chain: seq<Segment>, s: Segment, align: nat, g: Group)
    requires GroupOk(g) && g.history && Rides(t, chain, align, g) && Preflight(t, Boundary(|chain| + 1, align), g)
    requires StepSegment(s, |chain|, align, g)
    ensures StepLegal(t, TakeOf(s), align, g) && Rides(StepTable(t, TakeOf(s), align, g), chain + [s], align, g)
  {
    NextStep(t, chain, align, g);
    TakeIs(t, s, align, g);
    AdoptRides(t, chain, s, t.committed + align, align, g);
  }

  lemma RidesGrow(t: Table, chain: seq<Segment>, align: nat, g: Group, target: nat, nu: seq<nat>)
    requires GroupOk(g) && Rides(t, chain, align, g) && |nu| == (if target > t.cursor then NeedFor(t, target, g) else 0)
    ensures Rides(Grown(t, target, nu), chain, align, g)
  {
    GrownOk(t, target, nu, g);
  }

  lemma RidesSlide(t: Table, chain: seq<Segment>, align: nat, g: Group, page: nat)
    requires GroupOk(g) && Rides(t, chain, align, g)
    ensures Rides(Released(t, page), chain, align, g)
  {
    ReleasedOk(t, page, g);
    var all := Concat(chain);
    var t' := Released(t, page);
    if t.base <= |all| && t'.base <= |all| {
      assert all[t.base..][t'.base - t.base..] == all[t'.base..];
    }
  }

  lemma RidesRewind(t: Table, chain: seq<Segment>, align: nat, g: Group, tokens: nat)
    requires GroupOk(g) && Rides(t, chain, align, g)
    ensures Rides(Rewound(t, tokens, g), chain, align, g)
  {
    RewoundOk(t, tokens, g);
  }

  /** A prefix hit on the whole chain imports a table that goes on from it. */
  lemma RidesImport(chain: seq<Segment>, align: nat, g: Group)
    requires GroupOk(g) && align > 0 && Aligned(align, g) && Steps(chain, align, g)
    ensures Rides(Imported(Concat(chain), 0, Boundary(|chain|, align)), chain, align, g)
  {
    HistoryImport(chain, align, g);
  }
}
