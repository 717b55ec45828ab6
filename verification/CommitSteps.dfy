/** What committing a chunk does to the table of one required group: one alignment step after another, each either leaving a
    segment with a snapshot or taking over the segment of a snapshot that is already there. */
module CommitSteps {
  import opened Prelude
  import opened PagedCacheTable
  import opened Snapshots

  /** One alignment step: lay down a segment, or take over one that starts at a logical page. */
  datatype CommitStep = Lay | Take(ids: seq<nat>, base: int)

  /** The step's guards hold: its boundary has been acquired, is page-aligned, and the table has the pages. A table that covers
      its cursor always has the pages of a state segment that may be taken over. */
  predicate StepLegal(t: Table, s: CommitStep, align: nat, g: Group)
    requires GroupOk(g)
  {
    var target := t.committed + align;
    && align > 0 && target <= t.cursor
    && if g.history then (if s.Lay? then CanCommitHistory(t, target, g) else CanAdoptHistory(t, s.ids, target, g))
       else (if s.Lay? then CanCheckpoint(t, target, g) else CanAdoptState(t, s.ids, s.base, target, g) && Within(t, s))
  }

  /** The segment lies within the table. */
  predicate Within(t: Table, s: CommitStep)
    requires s.Take?
  {
    t.base <= s.base && s.base - t.base + |s.ids| <= |t.borrowed| + |t.owned|
  }

  /** The last guard of a covered table never fails. */
  lemma AlwaysWithin(t: Table, s: CommitStep, align: nat, g: Group)
    requires GroupOk(g) && Covered(t, g) && align > 0 && !g.history && s.Take? && CanAdoptState(t, s.ids, s.base, t.committed + align, g)
    ensures Within(t, s)
  {
    StateAdoptionFits(t, s.ids, s.base, t.committed + align, g);
  }

  /** A segment that is taken over ends at the target. */
  lemma TakeFits(t: Table, s: CommitStep, align: nat, g: Group)
    requires GroupOk(g) && StepLegal(t, s, align, g) && !g.history && s.Take?
    ensures s.base + |s.ids| == EndPage(t.committed + align, g)
  {
    PageTokensPositive(g);
    DivUnique(t.committed + align, PageTokens(g), s.base + |s.ids|, 0);
  }

  function StepTable(t: Table, s: CommitStep, align: nat, g: Group): Table
    requires GroupOk(g) && StepLegal(t, s, align, g)
  {
    var target := t.committed + align;
    if g.history then (if s.Lay? then Lend(t, CommitCount(t, target, g), target) else AdoptHistory(t, s.ids, target))
    else if s.Lay? then Checkpointed(t, target, g.window.value, g) else AdoptState(t, s.ids, s.base, target)
  }

  /** The pages the step gives back to the pool. */
  function StepBack(t: Table, s: CommitStep, align: nat, g: Group): seq<nat>
    requires GroupOk(g) && StepLegal(t, s, align, g)
  {
    var target := t.committed + align;
    if g.history then (if s.Lay? then [] else t.owned[..|s.ids|])
    else if s.Lay? then FrontOwned(t, Below(t, LivePage(target, g.window.value, g)))
    else FrontOwned(t, s.base - t.base + |s.ids|)
  }

  /** Covered as before, committed up to the target, and neither end nor base has moved back. */
  ghost predicate Advanced(t: Table, t': Table, target: nat, g: Group)
    requires GroupOk(g)
  {
    exists base {:trigger AdvancedTo(t, t', target, base, g)} :: AdvancedTo(t, t', target, base, g)
  }

  ghost predicate AdvancedTo(t: Table, t': Table, target: nat, base: nat, g: Group)
    requires GroupOk(g)
  {
    Covered(t', g) && End(t') == End(t) && t'.base == base >= t.base && t'.cursor == t.cursor && t'.committed == target
  }

  lemma StepKeeps(t: Table, s: CommitStep, align: nat, g: Group)
    requires GroupOk(g) && Covered(t, g) && StepLegal(t, s, align, g)
    ensures Advanced(t, StepTable(t, s, align, g), t.committed + align, g)
  {
    var target := t.committed + align;
    if g.history {
      HistoryKeeps(t, s, align, target, g);
    } else if s.Lay? {
      LayKeeps(t, target, g.window.value, g);
    } else {
      TakeKeeps(t, s, align, target, g);
    }
  }

  lemma HistoryKeeps(t: Table, s: CommitStep, align: nat, target: nat, g: Group)
    requires GroupOk(g) && Covered(t, g) && StepLegal(t, s, align, g) && g.history && target == t.committed + align
    ensures Advanced(t, if s.Lay? then Lend(t, CommitCount(t, target, g), target) else AdoptHistory(t, s.ids, target), target, g)
  {
    var t' := if s.Lay? then Lend(t, CommitCount(t, target, g), target) else AdoptHistory(t, s.ids, target);
    if s.Lay? { LendOk(t, CommitCount(t, target, g), target, g); } else { AdoptHistoryOk(t, s.ids, target, g); }
    assert AdvancedTo(t, t', target, t.base, g);
  }

  lemma TakeKeeps(t: Table, s: CommitStep, align: nat, target: nat, g: Group)
    requires GroupOk(g) && Covered(t, g) && StepLegal(t, s, align, g) && !g.history && s.Take? && target == t.committed + align
    ensures Advanced(t, AdoptState(t, s.ids, s.base, target), target, g)
  {
    AdoptStateOk(t, s.ids, s.base, target, g);
    DropFrontKeeps(t, s.base - t.base + |s.ids|);
    assert AdvancedTo(t, AdoptState(t, s.ids, s.base, target), target, s.base, g);
  }

  lemma LayKeeps(t: Table, target: nat, window: nat, g: Group)
    requires GroupOk(g) && Covered(t, g) && target <= t.cursor
    ensures Advanced(t, Checkpointed(t, target, window, g), target, g)
  {
    CheckpointedOk(t, target, window, g);
    var t1 := Trimmed(t, target, window, g);
    DropFrontKeeps(t, Below(t, LivePage(target, window, g)));
    CheckpointParts(t, target, window, g, t1, SegmentLen(t1, EndPage(target, g)));
    LendKeeps(t1, SegmentLen(t1, EndPage(target, g)), target);
    assert AdvancedTo(t, Checkpointed(t, target, window, g), target, t1.base, g);
  }

  /** Owned pages among the first n. */
  function OwnedIn(t: Table, n: nat): nat {
    if n <= |t.borrowed| then 0 else n - |t.borrowed|
  }

  lemma OwnedInFront(t: Table, n: nat)
    requires n <= |t.borrowed| + |t.owned|
    ensures |FrontOwned(t, n)| == OwnedIn(t, n)
  {
  }

  /** Owned pages the first checkpoint would give back. */
  function FirstDrop(t: Table, step: nat, g: Group): nat
    requires GroupOk(g) && g.window.Some?
  {
    OwnedIn(t, Below(t, LivePage(t.committed + step, g.window.value, g)))
  }

  /** The first step of a state group gives back at least what its first checkpoint would, even if it takes over a segment. */
  lemma FirstGives(t: Table, s: CommitStep, align: nat, g: Group)
    requires GroupOk(g) && Covered(t, g) && StepLegal(t, s, align, g) && !g.history && g.window.Some?
    ensures |StepBack(t, s, align, g)| >= FirstDrop(t, align, g)
  {
    var target := t.committed + align;
    OwnedInFront(t, Below(t, LivePage(target, g.window.value, g)));
    if s.Take? {
      TakeFits(t, s, align, g);
      OwnedInFront(t, s.base - t.base + |s.ids|);
      LiveBelowEnd(target, g.window.value, g);
    }
  }

  // ---------------------------------------------------------------- several steps

  ghost predicate LegalSteps(t: Table, steps: seq<CommitStep>, align: nat, g: Group)
    requires GroupOk(g)
    decreases |steps|
  {
    steps == [] || (StepLegal(t, steps[0], align, g) && LegalSteps(StepTable(t, steps[0], align, g), steps[1..], align, g))
  }

  /** The table after all the steps, and everything they gave back. */
  ghost function RunSteps(t: Table, steps: seq<CommitStep>, align: nat, g: Group): (Table, seq<nat>)
    requires GroupOk(g) && LegalSteps(t, steps, align, g)
    decreases |steps|
  {
    if steps == [] then (t, []) else
      var (t', back) := RunSteps(StepTable(t, steps[0], align, g), steps[1..], align, g);
      (t', StepBack(t, steps[0], align, g) + back)
  }

  lemma {:induction false} RunStepsKeeps(t: Table, steps: seq<CommitStep>, align: nat, g: Group)
    requires GroupOk(g) && Covered(t, g) && LegalSteps(t, steps, align, g)
    ensures var (t', back) := RunSteps(t, steps, align, g);
            && Covered(t', g) && End(t') == End(t) && t'.base >= t.base && t'.cursor == t.cursor
            && (steps != [] && !g.history && g.window.Some? ==> |back| >= FirstDrop(t, align, g))
    decreases |steps|
  {
    if steps != [] {
      StepKeeps(t, steps[0], align, g);
      RunStepsKeeps(StepTable(t, steps[0], align, g), steps[1..], align, g);
      if !g.history && g.window.Some? { FirstGives(t, steps[0], align, g); }
    }
  }

  // ---------------------------------------------------------------- the continuation checkpoint

  /** A chunk may end with a checkpoint of a state group, required or not, at the chunk's own depth; it happens only beyond
      what is committed. */
  predicate EndsBeyond(t: Table, ending: Option<nat>) {
    ending.Some? && ending.value > t.committed
  }

  predicate EndingLegal(t: Table, ending: Option<nat>, g: Group)
    requires GroupOk(g)
  {
    EndsBeyond(t, ending) ==> !g.history && g.window.Some? && SpansWindow(t, ending.value, g)
  }

  function EndTable(t: Table, ending: Option<nat>, g: Group): Table
    requires GroupOk(g) && EndingLegal(t, ending, g)
  {
    if EndsBeyond(t, ending) then Checkpointed(t, ending.value, g.window.value, g) else t
  }

  /** The pages it gives back to the pool. */
  function EndBack(t: Table, ending: Option<nat>, g: Group): seq<nat>
    requires GroupOk(g) && EndingLegal(t, ending, g)
  {
    if EndsBeyond(t, ending) then FrontOwned(t, Below(t, LivePage(ending.value, g.window.value, g))) else []
  }

  lemma EndKeeps(t: Table, ending: Option<nat>, g: Group)
    requires GroupOk(g) && Covered(t, g) && EndingLegal(t, ending, g)
    ensures var t' := EndTable(t, ending, g); Covered(t', g) && End(t') == End(t) && t'.base >= t.base && t'.cursor == t.cursor
  {
    if EndsBeyond(t, ending) { LayKeeps(t, ending.value, g.window.value, g); }
  }

  /** Owned pages given back by a checkpoint at a target and a release to a page after it: those below the checkpoint's window,
      and those of the release that lie beyond the target. */
  function EndingBack(t: Table, target: nat, page: nat, g: Group): nat
    requires GroupOk(g) && g.window.Some?
  {
    OwnedIn(t, Below(t, LivePage(target, g.window.value, g))) + Sub(OwnedIn(t, Below(t, page)), OwnedIn(t, Below(t, EndPage(target, g))))
  }

  lemma EndGives(t: Table, target: nat, page: nat, g: Group)
    requires GroupOk(g) && target > t.committed && EndingLegal(t, Some(target), g)
    ensures var t' := EndTable(t, Some(target), g);
            |EndBack(t, Some(target), g)| + |FrontOwned(t', Below(t', page))| == EndingBack(t, target, page, g)
  {
    var live, end := LivePage(target, g.window.value, g), EndPage(target, g);
    var n := Below(t, live);
    LiveBelowEnd(target, g.window.value, g);
    OwnedInFront(t, n);
    var t1 := DropFront(t, n);
    var len := SegmentLen(t1, end);
    CheckpointParts(t, target, g.window.value, g, t1, len);
    GivesBySizes(t, live, end, page, t1, len, EndTable(t, Some(target), g));
  }

  /** Owned pages of the trimmed and lent table among its first n. */
  lemma GivesBySizes(t: Table, live: nat, end: nat, page: nat, t1: Table, len: nat, t': Table)
    requires t.base <= live <= end <= End(t) && t1 == DropFront(t, Below(t, live)) && len == SegmentLen(t1, end)
    requires t' == Lend(t1, len, t'.committed)
    ensures |FrontOwned(t', Below(t', page))| == Sub(OwnedIn(t, Below(t, page)), OwnedIn(t, Below(t, end)))
  {
    TrimmedSizes(t, live, t1);
    OwnedInFront(t', Below(t', page));
    GivesByNumbers(t.base, |t.borrowed|, |t.owned|, live, end, page, |t1.borrowed|, |t1.owned|, len);
  }

  lemma TrimmedSizes(t: Table, live: nat, t1: Table)
    requires t.base <= live <= End(t) && t1 == DropFront(t, Below(t, live))
    ensures t1.base == live && |t1.borrowed| == Sub(t.base + |t.borrowed|, live)
    ensures |t1.owned| == |t.owned| - Sub(live, t.base + |t.borrowed|)
  {
  }

  /** The same on numbers alone. */
  lemma GivesByNumbers(base: nat, borrowed: nat, owned: nat, live: nat, end: nat, page: nat, borrowed1: nat, owned1: nat, len: nat)
    requires base <= live <= end <= base + borrowed + owned && borrowed1 == Sub(base + borrowed, live) && owned1 == owned - Sub(live, base + borrowed)
    requires len == if end <= live + borrowed1 then 0 else MinNat(end - (live + borrowed1), owned1)
    ensures var inFront := if page <= live then 0 else MinNat(page - live, borrowed1 + owned1);
            var before := if page <= base then 0 else MinNat(page - base, borrowed + owned);
            var upTo := if end <= base then 0 else MinNat(end - base, borrowed + owned);
            Sub(inFront, borrowed1 + len) == Sub(Sub(before, borrowed), Sub(upTo, borrowed))
  {
  }

  /** A table that ends no earlier and starts no earlier still ends no earlier after a sliding release. */
  lemma ReleasedLater(t: Table, t': Table, page: nat)
    requires End(t') == End(t) && t'.base >= t.base
    ensures End(Released(t', page)) >= End(Released(t, page))
  {
    DropFrontKeeps(t, Below(t, page));
    DropFrontKeeps(t', Below(t', page));
  }
}
