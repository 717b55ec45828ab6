/** Admission of a chunk against one paged-cache group: what releasing and acquiring will do is predicted without doing it. */
module Admission {
  import opened Prelude
  import opened PagePool
  import opened PagedCacheTable
  import opened Snapshots
  import opened CommitSteps

  /** What a prefix hit offers a group: page ids, the logical page of the first, and the tokens they cover. */
  datatype Hit = Hit(ids: seq<nat>, base: nat, tokens: nat)

  /** Pages a chunk will take, and owned pages it will give back first. */
  datatype Forecast = Forecast(needed: nat, releasable: nat)

  /** A commit of a state group is due: its next boundary lies within what has been acquired. */
  predicate CommitDue(t: Table, step: nat, g: Group) {
    !g.history && g.window.Some? && step > 0 && t.committed + step <= t.cursor
  }

  /** The table whose release and growth are forecast: the request's own, or what a hit would import, or a fresh one. */
  function Viewed(table: Option<Table>, hit: Option<Hit>): Table {
    if table.Some? then table.value
    else if hit.Some? then Imported(hit.value.ids, hit.value.base, hit.value.tokens) else FRESH
  }

  /** What the check is to forecast: what releasing and acquiring do, except that a due commit of a state group is taken to
      give back just what its first checkpoint drops. */
  function Predicted(table: Option<Table>, hit: Option<Hit>, first: int, target: nat, g: Group, step: nat): Forecast
    requires GroupOk(g)
  {
    var t := Viewed(table, hit);
    var f := Expected(t, first, target, g);
    if table.Some? && CommitDue(t, step, g) then f.(releasable := FirstDrop(t, step, g)) else f
  }

  /** The forecast for a request: `table` is its table if it has one, `hit` its prefix hit if it has none. `step` is the
      alignment of required state groups, 0 for groups that take no snapshots. */
  method Check(table: Option<Table>, hit: Option<Hit>, first: int, target: nat, g: Group, step: nat) returns (f: Forecast)
    requires GroupOk(g)
    ensures f == Predicted(table, hit, first, target, g, step)
  {
    var base, borrowed, owned := 0, 0, 0;
    if table.Some? {
      base, borrowed, owned := table.value.base, |table.value.borrowed|, |table.value.owned|;
    } else if hit.Some? {
      base, borrowed := hit.value.base, |hit.value.ids|;
    }
    ghost var t := Viewed(table, hit);
    var page := SkipPage(LowerBound(first, g), g);
    var have, releasable := AfterRelease(base, borrowed, owned, page), ReleasedOwned(base, borrowed, owned, page);
    ReleaseBySizes(t, page);
    if table.Some? && CommitDue(table.value, step, g) {
      releasable := StaleOwned(base, borrowed, owned, LivePage(table.value.committed + step, g.window.value, g));
      StaleBySizes(t, LivePage(t.committed + step, g.window.value, g));
    }
    f := Forecast(Sub(PagesNeeded(target, g), have), releasable);
  }

  /** Where the table would end after a sliding release, from its sizes alone: an empty one moves its base. */
  function AfterRelease(base: nat, borrowed: nat, owned: nat, page: nat): nat {
    if borrowed + owned == 0 && page > base then page else base + borrowed + owned
  }

  /** Owned pages a sliding release would give back, borrowed pages going first. */
  function ReleasedOwned(base: nat, borrowed: nat, owned: nat, page: nat): nat {
    var total := MinNat(Sub(page, base), borrowed + owned);
    total - MinNat(total, borrowed)
  }

  lemma ReleaseBySizes(t: Table, page: nat)
    ensures End(Released(t, page)) == AfterRelease(t.base, |t.borrowed|, |t.owned|, page)
    ensures |FrontOwned(t, Below(t, page))| == ReleasedOwned(t.base, |t.borrowed|, |t.owned|, page)
  {
  }

  lemma StaleBySizes(t: Table, live: nat)
    ensures OwnedIn(t, Below(t, live)) == StaleOwned(t.base, |t.borrowed|, |t.owned|, live)
  {
  }

  /** Owned pages below a live page, borrowed pages going first. */
  function StaleOwned(base: nat, borrowed: nat, owned: nat, live: nat): nat {
    var front := if live > base then base + MinNat(live - base, borrowed) else base;
    if live > front then MinNat(live - front, owned) else 0
  }

  /** What releasing and acquiring do to a table: pages it will lack after the release, owned pages the release gives back. */
  function Expected(t: Table, first: int, target: nat, g: Group): Forecast
    requires GroupOk(g)
  {
    var page := SkipPage(LowerBound(first, g), g);
    Forecast(Sub(PagesNeeded(target, g), End(Released(t, page))), |FrontOwned(t, Below(t, page))|)
  }

  // ---------------------------------------------------------------- forecasts come true

  /** Growing after the release takes just the forecast pages. */
  lemma NeedAsForecast(t: Table, page: nat, target: nat, g: Group)
    requires GroupOk(g) && Covered(t, g)
    ensures var t1 := Released(t, page);
            (if target > t1.cursor then NeedFor(t1, target, g) else 0) == Sub(PagesNeeded(target, g), End(t1))
  {
    ReleasedOk(t, page, g);
    var t1 := Released(t, page);
    if target <= t1.cursor { NeededMonotone(target, t1.cursor, g); }
  }

  lemma FreeCount(free: seq<nat>, free': seq<nat>, nu: seq<nat>)
    requires multiset(free') + multiset(nu) == multiset(free)
    ensures |free'| + |nu| == |free|
  {
    assert |multiset(free)| == |free| && |multiset(free')| == |free'| && |multiset(nu)| == |nu|;
    assert |multiset(free') + multiset(nu)| == |multiset(free')| + |multiset(nu)|;
  }

  // ---------------------------------------------------------------- prefix hits

  /** A hit without ids for a group is not imported, but its base still enters the forecast. The forecast for the fresh
      table is then right exactly if that base is not beyond what the sliding window skips anyway, or nothing is needed
      beyond it. */
  lemma EmptyHitForecast(base: nat, tokens: nat, first: int, target: nat, g: Group, page: nat, need: nat)
    requires GroupOk(g) && page == SkipPage(LowerBound(first, g), g) && need == PagesNeeded(target, g)
    ensures Expected(Imported([], base, tokens), first, target, g) == Expected(FRESH, first, target, g)
       <==> base <= page || need <= page
  {
    EmptyForecast(Imported([], base, tokens), first, target, g, page, need);
    EmptyForecast(FRESH, first, target, g, page, need);
  }

  lemma EmptyForecast(t: Table, first: int, target: nat, g: Group, page: nat, need: nat)
    requires GroupOk(g) && page == SkipPage(LowerBound(first, g), g) && need == PagesNeeded(target, g)
    requires t.borrowed == [] && t.owned == []
    ensures Expected(t, first, target, g) == Forecast(Sub(need, if page > t.base then page else t.base), 0)
  {
    ReleaseBySizes(t, page);
  }

  /** Concretely: one page forecast too few, so an admitted chunk could find the pool empty. */
  lemma EmptyHitExample(g: Group)
    requires g == Group(1, 1, Some(4), false)
    ensures Expected(Imported([], 1, 1), 0, 1, g).needed == 0 && Expected(FRESH, 0, 1, g).needed == 1
  {
    PagesNeededIsCeil(1, g);
    CeilDivUnique(1, 1, 1);
    EmptyForecast(Imported([], 1, 1), 0, 1, g, 0, 1);
    EmptyForecast(FRESH, 0, 1, g, 0, 1);
  }

  // ---------------------------------------------------------------- a due commit that does not happen

  /** The sliding release gives back no less than the first checkpoint would have: it goes at least as far, or there is no
      owned page below the checkpoint's window. */
  predicate SafeUncommitted(t: Table, page: nat, step: nat, g: Group)
    requires GroupOk(g) && g.window.Some?
  {
    var live := LivePage(t.committed + step, g.window.value, g);
    page >= live || live <= t.base + |t.borrowed| || page >= End(t) || t.owned == []
  }

  lemma SafeExactly(t: Table, page: nat, step: nat, g: Group)
    requires GroupOk(g) && g.window.Some?
    ensures |FrontOwned(t, Below(t, page))| >= FirstDrop(t, step, g) <==> SafeUncommitted(t, page, step, g)
  {
    OwnedInFront(t, Below(t, page));
  }

  /** A chunk of a state group whose commit is due, admitted against the free pages themselves, and then not committed: the
      count afterwards is no more than the free pages exactly in the safe case, and in the unsafe case acquiring itself runs
      out of pages in some pool exactly if it needs more than the release gives back. */
  lemma UncommittedExactly(t: Table, first: int, target: nat, step: nat, g: Group)
    requires GroupOk(g) && Covered(t, g) && CommitDue(t, step, g)
    ensures var page := SkipPage(LowerBound(first, g), g);
            var f := Predicted(Some(t), None, first, target, g, step);
            var back := |FrontOwned(t, Below(t, page))|;
            && (SafeUncommitted(t, page, step, g) <==> (forall free: nat {:trigger Admits(free, f)} :: Admits(free, f) ==> free + f.releasable - f.needed <= free + back - f.needed))
            && (!SafeUncommitted(t, page, step, g) && f.needed > back <==> (exists free: nat {:trigger Admits(free, f)} :: Admits(free, f) && free + back < f.needed))
  {
    var page := SkipPage(LowerBound(first, g), g);
    var f := Predicted(Some(t), None, first, target, g, step);
    var back := |FrontOwned(t, Below(t, page))|;
    SafeExactly(t, page, step, g);
    assert Admits(f.needed, f);
    if !SafeUncommitted(t, page, step, g) && f.needed > back {
      var free := Sub(f.needed, f.releasable);
      assert Admits(free, f) && free + back < f.needed;
    }
  }

  predicate Admits(free: nat, f: Forecast) {
    free + f.releasable >= f.needed
  }

  // ---------------------------------------------------------------- a chunk that ends with a continuation checkpoint

  /** The release credits no owned page between the checkpoint's window and its target. */
  predicate SafeEnding(t: Table, depth: nat, page: nat, g: Group)
    requires GroupOk(g) && g.window.Some?
  {
    var front := MaxNat(LivePage(depth, g.window.value, g), t.base + |t.borrowed|);
    page <= front || EndPage(depth, g) <= front
  }

  lemma EndingExactly(t: Table, depth: nat, page: nat, g: Group)
    requires GroupOk(g) && depth > t.committed && EndingLegal(t, Some(depth), g)
    ensures EndingBack(t, depth, page, g) >= OwnedIn(t, Below(t, page)) <==> SafeEnding(t, depth, page, g)
  {
    LiveBelowEnd(depth, g.window.value, g);
    EndingBySizes(t, LivePage(depth, g.window.value, g), EndPage(depth, g), page);
  }

  lemma EndingBySizes(t: Table, live: nat, end: nat, page: nat)
    requires t.base <= live <= end <= End(t)
    ensures var front := MaxNat(live, t.base + |t.borrowed|);
            OwnedIn(t, Below(t, live)) + Sub(OwnedIn(t, Below(t, page)), OwnedIn(t, Below(t, end))) >= OwnedIn(t, Below(t, page))
            <==> page <= front || end <= front
  {
  }

  /** If a commit was due as well, a checkpoint at or beyond its boundary gives back what was forecast. */
  lemma EndingCovers(t: Table, depth: nat, page: nat, step: nat, g: Group)
    requires GroupOk(g) && EndingLegal(t, Some(depth), g) && g.window.Some? && t.committed + step <= depth && depth > t.committed
    ensures EndingBack(t, depth, page, g) >= FirstDrop(t, step, g)
  {
    var window := g.window.value;
    PageTokensPositive(g);
    DivMono(if t.committed + step > window then t.committed + step - window else 0, if depth > window then depth - window else 0, PageTokens(g));
    assert LivePage(t.committed + step, window, g) <= LivePage(depth, window, g);
  }

  /** The window of a checkpoint holds at least the target's own page, so the table does not become empty. */
  lemma LiveBefore(depth: nat, g: Group)
    requires GroupOk(g) && g.window.Some? && depth > 0 && depth % PageTokens(g) == 0 && g.window.value % PageTokens(g) == 0
    ensures LivePage(depth, g.window.value, g) < EndPage(depth, g)
  {
    PageTokensPositive(g);
    BeforeMultiple(depth, if depth > g.window.value then depth - g.window.value else 0, PageTokens(g));
  }

  lemma BeforeMultiple(a: nat, b: nat, d: nat)
    requires d > 0 && b < a && a % d == 0
    ensures b / d < a / d
  {
    if b / d >= a / d {
      MulMonotone(a / d, b / d, d);
    }
  }

  /** What a chunk that ends this way needs, once it is checkpointed and released, is what was forecast. */
  lemma EndingNeeds(t: Table, depth: nat, page: nat, target: nat, g: Group)
    requires GroupOk(g) && Covered(t, g) && depth > t.committed && EndingLegal(t, Some(depth), g)
    ensures var t' := Released(EndTable(t, Some(depth), g), page);
            (if target > t'.cursor then NeedFor(t', target, g) else 0) == Sub(PagesNeeded(target, g), End(Released(t, page)))
  {
    var t' := EndTable(t, Some(depth), g);
    EndKeeps(t, Some(depth), g);
    NeedAsForecast(t', page, target, g);
    LiveBefore(depth, g);
    KeepsEnd(t, t', LivePage(depth, g.window.value, g), EndPage(depth, g), page);
    CheckpointBase(t, depth, g);
  }

  lemma CheckpointBase(t: Table, depth: nat, g: Group)
    requires GroupOk(g) && depth > t.committed && EndingLegal(t, Some(depth), g)
    ensures EndTable(t, Some(depth), g).base == LivePage(depth, g.window.value, g)
  {
    LiveBelowEnd(depth, g.window.value, g);
    CheckpointParts(t, depth, g.window.value, g, Trimmed(t, depth, g.window.value, g), SegmentLen(Trimmed(t, depth, g.window.value, g), EndPage(depth, g)));
  }

  lemma KeepsEnd(t: Table, t': Table, live: nat, end: nat, page: nat)
    requires t.base <= live < end <= End(t) == End(t') && t'.base == live
    ensures End(Released(t', page)) == End(Released(t, page))
  {
    DropFrontKeeps(t, Below(t, page));
    DropFrontKeeps(t', Below(t', page));
  }

  /** A state group without a due commit, whose chunk ends with a continuation checkpoint: the count afterwards is no more
      than the free pages exactly in the safe case, and in the unsafe case acquiring itself runs out of pages in some pool
      exactly if it needs more than checkpoint and release give back. */
  lemma ContinuationExactly(t: Table, first: int, target: nat, depth: nat, step: nat, g: Group)
    requires GroupOk(g) && Covered(t, g) && depth > t.committed && EndingLegal(t, Some(depth), g) && !CommitDue(t, step, g)
    ensures var page := SkipPage(LowerBound(first, g), g);
            var f := Predicted(Some(t), None, first, target, g, step);
            var t1 := EndTable(t, Some(depth), g);
            var t2 := Released(t1, page);
            var back := |EndBack(t, Some(depth), g)| + |FrontOwned(t1, Below(t1, page))|;
            var need := if target > t2.cursor then NeedFor(t2, target, g) else 0;
            && (SafeEnding(t, depth, page, g) <==> (forall free: nat {:trigger Admits(free, f)} :: Admits(free, f) ==> free + f.releasable - f.needed <= free + back - need))
            && (!SafeEnding(t, depth, page, g) && f.needed > back <==> (exists free: nat {:trigger Admits(free, f)} :: Admits(free, f) && free + back < need))
  {
    var page := SkipPage(LowerBound(first, g), g);
    var f := Predicted(Some(t), None, first, target, g, step);
    EndGives(t, depth, page, g);
    EndingExactly(t, depth, page, g);
    EndingNeeds(t, depth, page, target, g);
    OwnedInFront(t, Below(t, page));
    var back := EndingBack(t, depth, page, g);
    assert Admits(f.needed, f);
    if !SafeEnding(t, depth, page, g) && f.needed > back {
      var free := Sub(f.needed, f.releasable);
      assert Admits(free, f) && free + back < f.needed;
    }
  }

  /** A table of a group that only travels with the prefix: four tokens prefilled, four more to come. One page is forecast to
      come back, but the checkpoint lends all four, so three free pages are found enough for four. */
  lemma ContinuationExample(t: Table, g: Group)
    requires g == Group(1, 1, Some(4), false) && t == Table(0, [], [1, 2, 3, 4], 4, 0)
    ensures GroupOk(g) && Covered(t, g) && EndingLegal(t, Some(4), g) && !SafeEnding(t, 4, SkipPage(LowerBound(4, g), g), g)
    ensures Predicted(Some(t), None, 4, 8, g, 0) == Forecast(4, 1) && EndingBack(t, 4, SkipPage(LowerBound(4, g), g), g) == 0
    ensures Admits(3, Forecast(4, 1))
  {
    UnitPages(g);
    UnitNeed(4, g);
    UnitNeed(8, g);
    UnitAligned(4);
    assert LivePage(4, 4, g) == 0 && EndPage(4, g) == 4 && SkipPage(LowerBound(4, g), g) == 1;
    ContinuationSizes(t);
  }

  lemma UnitAligned(x: nat)
    ensures x % 1 == 0
  {
  }

  lemma ContinuationSizes(t: Table)
    requires t == Table(0, [], [1, 2, 3, 4], 4, 0)
    ensures End(t) == 4 && End(Released(t, 1)) == 4 && |FrontOwned(t, Below(t, 1))| == 1
    ensures OwnedIn(t, Below(t, 0)) == 0 && OwnedIn(t, Below(t, 1)) == 1 && OwnedIn(t, Below(t, 4)) == 4
  {
  }

  // ---------------------------------------------------------------- commits of a sliding history group

  /** Pages that steps take over from snapshots. */
  function Taken(steps: seq<CommitStep>): nat {
    if steps == [] then 0 else (if steps[0].Take? then |steps[0].ids| else 0) + Taken(steps[1..])
  }

  predicate OnlyTakes(steps: seq<CommitStep>) {
    forall i {:trigger steps[i]} :: 0 <= i < |steps| ==> steps[i].Take?
  }

  /** Steps of a history group give back just the pages they take over from snapshots; those and the pages they lend, at
      least one for each segment laid, all become borrowed. */
  lemma {:induction false} HistorySteps(t: Table, steps: seq<CommitStep>, align: nat, g: Group)
    requires GroupOk(g) && Covered(t, g) && g.history && LegalSteps(t, steps, align, g)
    ensures var (t', back) := RunSteps(t, steps, align, g);
            && |back| == Taken(steps) && t'.base == t.base && End(t') == End(t)
            && |t'.borrowed| >= |t.borrowed| + Taken(steps)
            && (|t'.borrowed| == |t.borrowed| + Taken(steps) <==> OnlyTakes(steps))
    decreases |steps|
  {
    if steps != [] {
      StepKeeps(t, steps[0], align, g);
      var t1 := StepTable(t, steps[0], align, g);
      HistorySteps(t1, steps[1..], align, g);
      HistoryStep(t, steps[0], align, g);
      assert OnlyTakes(steps) <==> steps[0].Take? && OnlyTakes(steps[1..]) by {
        if steps[0].Take? && OnlyTakes(steps[1..]) {
          forall i | 0 <= i < |steps| ensures steps[i].Take? { if i > 0 { assert steps[i] == steps[1..][i - 1]; } }
        }
        if OnlyTakes(steps) {
          forall i | 0 <= i < |steps[1..]| ensures steps[1..][i].Take? { assert steps[1..][i] == steps[i + 1]; }
        }
      }
    }
  }

  lemma HistoryStep(t: Table, s: CommitStep, align: nat, g: Group)
    requires GroupOk(g) && Covered(t, g) && g.history && StepLegal(t, s, align, g)
    ensures var t' := StepTable(t, s, align, g);
            var n := if s.Take? then |s.ids| else 0;
            && |StepBack(t, s, align, g)| == n && t'.base == t.base && End(t') == End(t)
            && if s.Take? then |t'.borrowed| == |t.borrowed| + n else |t'.borrowed| > |t.borrowed|
  {
    PageTokensPositive(g);
    if s.Lay? { AlignedStep(t.committed, align, PageTokens(g)); }
  }

  lemma AlignedStep(a: nat, step: nat, d: nat)
    requires d > 0 && step > 0 && a % d == 0 && (a + step) % d == 0
    ensures step / d > 0
  {
    if step < d { DivUnique(a + step, d, a / d, step); }
  }

  /** The forecast looks at the table as it is before the commits. */
  predicate SafeHistory(t: Table, steps: seq<CommitStep>, page: nat) {
    OnlyTakes(steps) || OwnedIn(t, Below(t, page)) <= Taken(steps)
  }

  /** With its commits, the release of a sliding history group gives back what was forecast exactly in these cases: it lends
      no page, or takes over as many as the release was to give back. */
  lemma SlidingHistoryExactly(t: Table, steps: seq<CommitStep>, page: nat, align: nat, g: Group)
    requires GroupOk(g) && Covered(t, g) && g.history && LegalSteps(t, steps, align, g)
    ensures var (t1, back) := RunSteps(t, steps, align, g);
            |back| + |FrontOwned(t1, Below(t1, page))| >= |FrontOwned(t, Below(t, page))| <==> SafeHistory(t, steps, page)
  {
    HistorySteps(t, steps, align, g);
    var (t1, back) := RunSteps(t, steps, align, g);
    OwnedInFront(t, Below(t, page));
    OwnedInFront(t1, Below(t1, page));
    assert Below(t1, page) == Below(t, page);
  }

  /** A table that is over-admitted: its commit lends the very page the release was to give back. */
  lemma SlidingHistoryExample(t: Table, g: Group)
    requires g == Group(1, 1, Some(1), true) && t == Table(0, [], [1, 2, 3], 3, 0)
    ensures GroupOk(g) && Covered(t, g) && SkipPage(LowerBound(1, g), g) == 1
    ensures StepLegal(t, Lay, 1, g) && LegalSteps(t, [Lay], 1, g) && !SafeHistory(t, [Lay], 1)
  {
    assert PageTokens(g) == 1;
    PagesNeededIsCeil(3, g);
    CeilDivUnique(3, 1, 3);
    DivUnique(1, 1, 1, 0);
    assert CommitCount(t, 1, g) == 1;
    assert !([Lay][0].Take?) && Taken([Lay]) == 0;
  }

  /** A table that is over-admitted: ten tokens acquired by a decode step that has not reported yet, planned once more. */
  lemma UncommittedExample(t: Table, g: Group)
    requires g == Group(1, 1, Some(4), false) && t == Table(1, [], [1, 2, 3, 4, 5, 6, 7, 8, 9], 10, 0)
    ensures GroupOk(g) && Covered(t, g) && CommitDue(t, 9, g)
    ensures FirstDrop(t, 9, g) == 4 && |FrontOwned(t, Below(t, SkipPage(LowerBound(4, g), g)))| == 0
    ensures !SafeUncommitted(t, SkipPage(LowerBound(4, g), g), 9, g)
  {
    ExampleCovered(t, g);
    ExamplePages(g);
    ExampleDrops(t);
  }

  lemma ExampleCovered(t: Table, g: Group)
    requires g == Group(1, 1, Some(4), false) && t.cursor == 10 && t.base == 1 && |t.borrowed| == 0 && |t.owned| == 9 && t.committed == 0
    ensures GroupOk(g) && Covered(t, g)
  {
    UnitNeed(10, g);
  }

  lemma ExamplePages(g: Group)
    requires g == Group(1, 1, Some(4), false)
    ensures GroupOk(g) && SkipPage(LowerBound(4, g), g) == 1 && LivePage(9, 4, g) == 5
  {
    UnitPages(g);
  }

  lemma ExampleDrops(t: Table)
    requires t.base == 1 && |t.borrowed| == 0 && |t.owned| == 9
    ensures Below(t, 1) == 0 && |FrontOwned(t, 0)| == 0 && OwnedIn(t, Below(t, 5)) == 4 && End(t) == 10
  {
  }

  lemma UnitPages(g: Group)
    requires g == Group(1, 1, Some(4), false)
    ensures GroupOk(g) && PageTokens(g) == 1 && forall x: nat :: x / PageTokens(g) == x
  {
    forall x: nat ensures x / 1 == x { DivUnique(x, 1, x, 0); }
  }

  lemma UnitNeed(n: nat, g: Group)
    requires g == Group(1, 1, Some(4), false)
    ensures PagesNeeded(n, g) == n
  {
    PagesNeededIsCeil(n, g);
    CeilDivUnique(n, 1, n);
  }
}
