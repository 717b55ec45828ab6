/** Admission of a batch: each request is admitted for all its groups or for none, against counts that are only simulated,
    and what was admitted is then carried out. */
module BatchAdmission {
  import opened Prelude
  import opened PagedCacheTable
  import opened Snapshots
  import opened CommitSteps
  import opened Admission

  /** What one request brings to one group: whether it has a table, whether that table is to be given up first, a prefix hit
      for a table that starts afresh, the commit steps its chunk makes, and the depth of the continuation checkpoint that may
      follow them. */
  datatype Share = Share(has: bool, recovered: bool, hit: Option<Hit>, steps: seq<CommitStep>, ending: Option<nat>)

  /** A table starts afresh, on a hit's pages if it has any. */
  function Started(hit: Option<Hit>): Table {
    if hit.Some? && hit.value.ids != [] then Imported(hit.value.ids, hit.value.base, hit.value.tokens) else FRESH
  }

  /** The table that is released and grown. */
  function Base(t: Table, s: Share): Table {
    if s.has && !s.recovered then t else Started(s.hit)
  }

  /** The table the forecast looks at. */
  function Seen(t: Table, s: Share): Option<Table> {
    if s.has && !s.recovered then Some(t) else None
  }

  /** Own pages a request gives up before it starts afresh. */
  function Credit(t: Table, s: Share): nat {
    if s.recovered then |t.owned| else 0
  }

  function RequiredStep(required: bool, align: nat): nat {
    if required then align else 0
  }

  /** A hit reaches what it covers, and one without pages starts no further on than the window. Commit steps are legal and
      those of a required group; those of a sliding history group do not lend what the release was to give back. A
      continuation checkpoint is legal after the steps. Without steps, what was forecast comes back all the same. */
  ghost predicate ShareReady(t: Table, s: Share, first: int, target: nat, required: bool, align: nat, g: Group)
    requires GroupOk(g)
  {
    var page := SkipPage(LowerBound(first, g), g);
    && Covered(t, g) && Covered(Base(t, s), g)
    && (!s.has ==> t == FRESH) && (s.recovered ==> s.has) && (s.has && !s.recovered ==> s.hit.None?)
    && LegalSteps(Base(t, s), s.steps, align, g) && EndingLegal(RunSteps(Base(t, s), s.steps, align, g).0, s.ending, g)
    && (s.steps != [] ==> required && s.has && !s.recovered) && (s.ending.Some? ==> s.has && !s.recovered)
    && (g.history ==> SafeHistory(Base(t, s), s.steps, page))
    && (s.has && !s.recovered && s.steps == [] ==> ReadyUncommitted(t, s.ending, page, RequiredStep(required, align), g))
    && (s.hit.Some? && s.hit.value.ids == [] ==> s.hit.value.base <= page || PagesNeeded(target, g) <= page)
  }

  /** Without commit steps: a due commit is made up for by the release, or by a continuation checkpoint, which stands at a
      boundary too; and where none was due such a checkpoint does not lend what the release was to give back. */
  predicate ReadyUncommitted(t: Table, ending: Option<nat>, page: nat, step: nat, g: Group)
    requires GroupOk(g) && EndingLegal(t, ending, g)
  {
    if EndsBeyond(t, ending) then
      if CommitDue(t, step, g) then t.committed + step <= ending.value else SafeEnding(t, ending.value, page, g)
    else
      CommitDue(t, step, g) ==> SafeUncommitted(t, page, step, g)
  }

  /** What carrying out a share does: pages given back by commits, by a continuation checkpoint and by the release, and pages
      needed after them. */
  ghost function AfterShare(t: Table, s: Share, first: int, align: nat, g: Group): (Table, seq<nat>)
    requires GroupOk(g) && Covered(Base(t, s), g) && LegalSteps(Base(t, s), s.steps, align, g)
    requires EndingLegal(RunSteps(Base(t, s), s.steps, align, g).0, s.ending, g)
  {
    var (t1, back) := RunSteps(Base(t, s), s.steps, align, g);
    var t2 := EndTable(t1, s.ending, g);
    var page := SkipPage(LowerBound(first, g), g);
    (Released(t2, page), back + EndBack(t1, s.ending, g) + FrontOwned(t2, Below(t2, page)))
  }

  /** The forecast promises no more pages back than will come, and no fewer needed than will be taken. */
  lemma ForecastSafe(t: Table, s: Share, first: int, target: nat, required: bool, align: nat, g: Group)
    requires GroupOk(g) && ShareReady(t, s, first, target, required, align, g)
    ensures var (t', back) := AfterShare(t, s, first, align, g);
            var f := Predicted(Seen(t, s), s.hit, first, target, g, RequiredStep(required, align));
            Covered(t', g) && |back| >= f.releasable && (if target > t'.cursor then NeedFor(t', target, g) else 0) <= f.needed
  {
    var page := SkipPage(LowerBound(first, g), g);
    var t0 := Base(t, s);
    var (t1, laid) := RunSteps(t0, s.steps, align, g);
    RunStepsKeeps(t0, s.steps, align, g);
    EndKeeps(t1, s.ending, g);
    var t2 := EndTable(t1, s.ending, g);
    ReleasedLater(t0, t2, page);
    ReleasedOk(t2, page, g);
    NeedAsForecast(t2, page, target, g);
    NeededAtMost(t, s, first, target, required, align, g);
    BackAtLeast(t, s, first, target, required, align, g, t1, laid);
  }

  lemma NeededAtMost(t: Table, s: Share, first: int, target: nat, required: bool, align: nat, g: Group)
    requires GroupOk(g) && ShareReady(t, s, first, target, required, align, g)
    ensures var page := SkipPage(LowerBound(first, g), g);
            Predicted(Seen(t, s), s.hit, first, target, g, RequiredStep(required, align)).needed == Sub(PagesNeeded(target, g), End(Released(Base(t, s), page)))
  {
    var page := SkipPage(LowerBound(first, g), g);
    if Seen(t, s).None? && s.hit.Some? && s.hit.value.ids == [] {
      EmptyHitForecast(s.hit.value.base, s.hit.value.tokens, first, target, g, page, PagesNeeded(target, g));
    }
  }

  lemma BackAtLeast(t: Table, s: Share, first: int, target: nat, required: bool, align: nat, g: Group, t1: Table, laid: seq<nat>)
    requires GroupOk(g) && ShareReady(t, s, first, target, required, align, g)
    requires (t1, laid) == RunSteps(Base(t, s), s.steps, align, g)
    ensures var page := SkipPage(LowerBound(first, g), g);
            var t2 := EndTable(t1, s.ending, g);
            |laid| + |EndBack(t1, s.ending, g)| + |FrontOwned(t2, Below(t2, page))|
            >= Predicted(Seen(t, s), s.hit, first, target, g, RequiredStep(required, align)).releasable
  {
    var page := SkipPage(LowerBound(first, g), g);
    var t0 := Base(t, s);
    RunStepsKeeps(t0, s.steps, align, g);
    OwnedInFront(t0, Below(t0, page));
    if Seen(t, s).None? {
      ReleaseBySizes(Viewed(None, s.hit), page);
    } else if s.steps == [] {
      UncommittedBack(t, s.ending, page, RequiredStep(required, align), g);
    } else if !CommitDue(t, RequiredStep(required, align), g) {
      if g.history { SlidingHistoryExactly(t, s.steps, page, align, g); } else { NotDueNoSteps(t, s, align, g); }
    }
  }

  /** What comes back without commit steps. */
  lemma UncommittedBack(t: Table, ending: Option<nat>, page: nat, step: nat, g: Group)
    requires GroupOk(g) && EndingLegal(t, ending, g) && ReadyUncommitted(t, ending, page, step, g)
    ensures var t2 := EndTable(t, ending, g);
            |EndBack(t, ending, g)| + |FrontOwned(t2, Below(t2, page))|
            >= if CommitDue(t, step, g) then FirstDrop(t, step, g) else |FrontOwned(t, Below(t, page))|
  {
    OwnedInFront(t, Below(t, page));
    if EndsBeyond(t, ending) {
      EndGives(t, ending.value, page, g);
      if CommitDue(t, step, g) { EndingCovers(t, ending.value, page, step, g); } else { EndingExactly(t, ending.value, page, g); }
    } else if CommitDue(t, step, g) {
      SafeExactly(t, page, step, g);
    }
  }

  /** A state group commits only when a commit is due, or keeps everything and forecasts nothing. */
  lemma NotDueNoSteps(t: Table, s: Share, align: nat, g: Group)
    requires GroupOk(g) && Covered(t, g) && LegalSteps(t, s.steps, align, g) && s.steps != [] && !g.history
    requires !CommitDue(t, align, g)
    ensures g.window.None?
  {
  }

  // ---------------------------------------------------------------- carrying out one share

  /** One commit step in place. */
  method CarryStep(table: PagedCacheGroupTable, s: CommitStep, align: nat)
    requires table.Valid() && StepLegal(table.Model(), s, align, table.group)
    modifies table, table.pool
    ensures table.Valid()
    ensures table.Model() == StepTable(old(table.Model()), s, align, table.group)
    ensures table.pool.free == old(table.pool.free) + StepBack(old(table.Model()), s, align, table.group)
  {
    if table.group.history { CarryHistory(table, s, align); } else { CarryState(table, s, align); }
  }

  method CarryHistory(table: PagedCacheGroupTable, s: CommitStep, align: nat)
    requires table.Valid() && StepLegal(table.Model(), s, align, table.group) && table.group.history
    modifies table, table.pool
    ensures table.Valid()
    ensures table.Model() == StepTable(old(table.Model()), s, align, table.group)
    ensures table.pool.free == old(table.pool.free) + StepBack(old(table.Model()), s, align, table.group)
  {
    var target := table.committed + align;
    if s.Lay? {
      var segment, threw := table.CommitHistoryToSnapshot(target);
      assert table.pool.free + [] == table.pool.free;
    } else {
      var threw := table.AdoptSnapshotSegment(s.ids, target);
    }
  }

  method CarryState(table: PagedCacheGroupTable, s: CommitStep, align: nat)
    requires table.Valid() && StepLegal(table.Model(), s, align, table.group) && !table.group.history
    modifies table, table.pool
    ensures table.Valid()
    ensures table.Model() == StepTable(old(table.Model()), s, align, table.group)
    ensures table.pool.free == old(table.pool.free) + StepBack(old(table.Model()), s, align, table.group)
  {
    var target := table.committed + align;
    if s.Lay? {
      var segment, threw := table.CheckpointStateToSnapshot(target);
    } else {
      var threw := table.AdoptStateSnapshotSegment(s.ids, s.base, target);
    }
  }

  method CarrySteps(table: PagedCacheGroupTable, steps: seq<CommitStep>, align: nat)
    requires table.Valid() && LegalSteps(table.Model(), steps, align, table.group)
    modifies table, table.pool
    ensures table.Valid()
    ensures (table.Model(), table.pool.free) == Carried(old(table.Model()), old(table.pool.free), steps, align, table.group)
    decreases |steps|
  {
    if steps == [] {
      assert table.pool.free + [] == table.pool.free;
    } else {
      ghost var t, free := table.Model(), table.pool.free;
      CarryStep(table, steps[0], align);
      CarrySteps(table, steps[1..], align);
      CarriedMore(t, free, steps, align, table.group);
    }
  }

  ghost function Carried(t: Table, free: seq<nat>, steps: seq<CommitStep>, align: nat, g: Group): (Table, seq<nat>)
    requires GroupOk(g) && Covered(t, g) && LegalSteps(t, steps, align, g)
  {
    var (t', back) := RunSteps(t, steps, align, g);
    (t', free + back)
  }

  lemma CarriedMore(t: Table, free: seq<nat>, steps: seq<CommitStep>, align: nat, g: Group)
    requires GroupOk(g) && Covered(t, g) && LegalSteps(t, steps, align, g) && steps != []
    ensures var t1 := StepTable(t, steps[0], align, g);
            Covered(t1, g) && Carried(t1, free + StepBack(t, steps[0], align, g), steps[1..], align, g) == Carried(t, free, steps, align, g)
  {
    StepKeeps(t, steps[0], align, g);
    var t1 := StepTable(t, steps[0], align, g);
    var rest := RunSteps(t1, steps[1..], align, g).1;
    assert free + StepBack(t, steps[0], align, g) + rest == free + (StepBack(t, steps[0], align, g) + rest);
  }

  /** Start the table afresh if it has to be: give up its own pages, and import a hit. */
  method StartTable(table: PagedCacheGroupTable, s: Share)
    requires table.Valid() && Covered(Base(table.Model(), s), table.group) && (!s.has ==> table.Model() == FRESH) && (s.recovered ==> s.has)
    modifies table, table.pool
    ensures table.Valid() && table.Model() == Base(old(table.Model()), s)
    ensures |table.pool.free| == |old(table.pool.free)| + Credit(old(table.Model()), s)
  {
    if s.recovered { table.ReleaseAll(); }
    if (!s.has || s.recovered) && s.hit.Some? && s.hit.value.ids != [] {
      ImportedOk(s.hit.value.ids, s.hit.value.base, s.hit.value.tokens, table.group);
      var threw := table.ImportPrefixBorrowed(s.hit.value.ids, s.hit.value.base, s.hit.value.tokens);
    }
  }

  /** The continuation checkpoint in place. */
  method CarryEnding(table: PagedCacheGroupTable, ending: Option<nat>)
    requires table.Valid() && EndingLegal(table.Model(), ending, table.group)
    modifies table, table.pool
    ensures table.Valid() && table.Model() == EndTable(old(table.Model()), ending, table.group)
    ensures table.pool.free == old(table.pool.free) + EndBack(old(table.Model()), ending, table.group)
  {
    assert table.pool.free + [] == table.pool.free;
    if EndsBeyond(table.Model(), ending) {
      var segment, threw := table.CheckpointStateToSnapshot(ending.value);
    }
  }

  /** Carry out an admitted share: commit, checkpoint, start afresh if need be, release, acquire. It never runs out of pages, and the
      simulated count never exceeds the free pages. */
  method CarryOut(table: PagedCacheGroupTable, s: Share, first: int, target: nat, required: bool, align: nat, ghost simulated: int)
    requires table.Valid() && ShareReady(table.Model(), s, first, target, required, align, table.group) && simulated <= |table.pool.free|
    requires ShareFits(table.Model(), s, first, target, required, align, table.group, simulated)
    modifies table, table.pool
    ensures table.Valid() && table.cursor >= target
    ensures Debited(old(table.Model()), s, first, target, required, align, table.group, simulated) <= |table.pool.free|
  {
    ghost var t := table.Model();
    ForecastSafe(t, s, first, target, required, align, table.group);
    StartTable(table, s);
    ghost var free0 := table.pool.free;
    CarrySteps(table, s.steps, align);
    CarryEnding(table, s.ending);
    table.ReleaseSkipped(LowerBound(first, table.group));
    assert |table.pool.free| == |free0| + |AfterShare(t, s, first, align, table.group).1|;
    GrowTo(table, target);
  }

  /** Acquire, knowing there are enough pages. */
  method GrowTo(table: PagedCacheGroupTable, target: nat)
    requires table.Valid() && (if target > table.cursor then NeedFor(table.Model(), target, table.group) else 0) <= |table.pool.free|
    modifies table, table.pool
    ensures table.Valid() && table.cursor >= target
    ensures |table.pool.free| == |old(table.pool.free)| - (if target > old(table.cursor) then NeedFor(old(table.Model()), target, table.group) else 0)
  {
    ghost var t, free := table.Model(), table.pool.free;
    var threw := table.Acquire(target);
    ghost var nu :| GrewBy(t, free, table.Model(), table.pool.free, target, table.group, nu);
    FreeCount(free, table.pool.free, nu);
  }

  ghost function ForecastOf(t: Table, s: Share, first: int, target: nat, required: bool, align: nat, g: Group): Forecast
    requires GroupOk(g)
  {
    Predicted(Seen(t, s), s.hit, first, target, g, RequiredStep(required, align))
  }

  /** The group has room by the forecast. */
  ghost predicate ShareFits(t: Table, s: Share, first: int, target: nat, required: bool, align: nat, g: Group, simulated: int)
    requires GroupOk(g)
  {
    var f := ForecastOf(t, s, first, target, required, align, g);
    simulated + Credit(t, s) + f.releasable >= f.needed
  }

  /** The count once the share is admitted. */
  ghost function Debited(t: Table, s: Share, first: int, target: nat, required: bool, align: nat, g: Group, simulated: int): int
    requires GroupOk(g)
  {
    var f := ForecastOf(t, s, first, target, required, align, g);
    simulated + Credit(t, s) + f.releasable - f.needed
  }

  // ---------------------------------------------------------------- all groups of one request

  /** What a chunk asks of each group. */
  datatype Chunk = Chunk(groups: seq<Group>, required: seq<bool>, align: nat, shares: seq<Share>, first: int, target: nat)

  ghost predicate Whole(c: Chunk, n: nat) {
    |c.groups| == |c.required| == |c.shares| == n && forall i {:trigger c.groups[i]} :: 0 <= i < n ==> GroupOk(c.groups[i])
  }

  ghost predicate ReadyAt(c: Chunk, t: Table, i: nat)
    requires i < |c.groups| && i < |c.required| && i < |c.shares|
  {
    GroupOk(c.groups[i]) && ShareReady(t, c.shares[i], c.first, c.target, c.required[i], c.align, c.groups[i])
  }

  ghost predicate RoomAt(c: Chunk, t: Table, simulated: int, i: nat)
    requires i < |c.groups| && i < |c.required| && i < |c.shares|
  {
    GroupOk(c.groups[i]) && ShareFits(t, c.shares[i], c.first, c.target, c.required[i], c.align, c.groups[i], simulated)
  }

  ghost function DebitedAt(c: Chunk, t: Table, simulated: int, i: nat): int
    requires i < |c.groups| && i < |c.required| && i < |c.shares| && GroupOk(c.groups[i])
  {
    Debited(t, c.shares[i], c.first, c.target, c.required[i], c.align, c.groups[i], simulated)
  }

  /** Check one group. */
  method CheckOne(c: Chunk, t: Table, simulated: int, i: nat) returns (ok: bool, debited: int)
    requires i < |c.groups| && i < |c.required| && i < |c.shares| && GroupOk(c.groups[i])
    ensures (ok <==> RoomAt(c, t, simulated, i)) && debited == DebitedAt(c, t, simulated, i)
  {
    var s := c.shares[i];
    var f := Check(Seen(t, s), s.hit, c.first, c.target, c.groups[i], RequiredStep(c.required[i], c.align));
    debited := simulated + Credit(t, s) + f.releasable - f.needed;
    ok := debited >= 0;
  }

  /** Check every group: the chunk is admitted only if all have room. */
  method CheckAll(c: Chunk, ts: seq<Table>, simulated: seq<int>) returns (ok: bool, debited: seq<int>)
    requires Whole(c, |ts|) && |simulated| == |ts|
    ensures ok <==> forall i {:trigger RoomAt(c, ts[i], simulated[i], i)} :: 0 <= i < |ts| ==> RoomAt(c, ts[i], simulated[i], i)
    ensures |debited| == |ts| && forall i {:trigger debited[i]} :: 0 <= i < |ts| ==> debited[i] == DebitedAt(c, ts[i], simulated[i], i)
  {
    ok, debited := true, [];
    var i := 0;
    while i < |ts|
      invariant 0 <= i <= |ts| && |debited| == i
      invariant ok <==> forall j {:trigger RoomAt(c, ts[j], simulated[j], j)} :: 0 <= j < i ==> RoomAt(c, ts[j], simulated[j], j)
      invariant forall j {:trigger debited[j]} :: 0 <= j < i ==> debited[j] == DebitedAt(c, ts[j], simulated[j], j)
    {
      var room, left := CheckOne(c, ts[i], simulated[i], i);
      ok, debited, i := ok && room, debited + [left], i + 1;
    }
  }

  /** The groups' pools are separate, and each table draws on its group's pool. */
  ghost predicate Apart(c: Chunk, tables: seq<PagedCacheGroupTable>, pools: seq<Pool>) {
    && |tables| == |pools| && Whole(c, |pools|)
    && (forall i {:trigger tables[i]} {:trigger pools[i]} :: 0 <= i < |pools| ==> tables[i].pool == pools[i] && tables[i].group == c.groups[i])
    && (forall i, j :: 0 <= i < j < |pools| ==> pools[i] != pools[j] && tables[i] != tables[j])
  }

  ghost function Models(tables: seq<PagedCacheGroupTable>): (ts: seq<Table>)
    reads tables
  {
    seq(|tables|, i requires 0 <= i < |tables| reads tables => tables[i].Model())
  }

  ghost function Counts(pools: seq<Pool>): (ns: seq<nat>)
    reads pools
  {
    seq(|pools|, i requires 0 <= i < |pools| reads pools => |pools[i].free|)
  }

  ghost predicate AllValid(tables: seq<PagedCacheGroupTable>)
    reads tables
  {
    forall i {:trigger tables[i]} :: 0 <= i < |tables| ==> tables[i].Valid()
  }

  /** No simulated count exceeds the free pages. */
  ghost predicate Honest(ns: seq<nat>, simulated: seq<int>) {
    |simulated| == |ns| && forall i {:trigger simulated[i]} {:trigger ns[i]} :: 0 <= i < |ns| ==> simulated[i] <= ns[i]
  }

  /** The first i groups have been carried out, the others not touched. */
  ghost predicate Carrying(c: Chunk, ms: seq<Table>, ns: seq<nat>, ts: seq<Table>, simulated: seq<int>, debited: seq<int>, i: nat) {
    exists n {:trigger CarryingOf(c, ms, ns, ts, simulated, debited, i, n)} :: CarryingOf(c, ms, ns, ts, simulated, debited, i, n)
  }

  /** There are n groups. */
  ghost predicate CarryingOf(c: Chunk, ms: seq<Table>, ns: seq<nat>, ts: seq<Table>, simulated: seq<int>, debited: seq<int>, i: nat, n: nat) {
    && n == |ms| == |ns| == |ts| == |simulated| == |debited| && i <= n
    && (forall j {:trigger ms[j]} :: 0 <= j < i ==> ms[j].cursor >= c.target)
    && (forall j {:trigger debited[j]} {:trigger ns[j]} :: 0 <= j < i ==> debited[j] <= ns[j])
    && (forall j {:trigger ms[j]} {:trigger ts[j]} :: i <= j < |ms| ==> ms[j] == ts[j])
    && (forall j {:trigger simulated[j]} {:trigger ns[j]} :: i <= j < |ns| ==> simulated[j] <= ns[j])
  }

  lemma CarriedNext(c: Chunk, ms: seq<Table>, ns: seq<nat>, ts: seq<Table>, simulated: seq<int>, debited: seq<int>, i: nat, t: Table, n: nat)
    requires i < |ms| == |ns| && Carrying(c, ms, ns, ts, simulated, debited, i) && i < |debited| && t.cursor >= c.target && debited[i] <= n
    ensures Carrying(c, ms[i := t], ns[i := n], ts, simulated, debited, i + 1)
  {
    assert CarryingOf(c, ms[i := t], ns[i := n], ts, simulated, debited, i + 1, |ms|);
  }

  method CarryNext(c: Chunk, tables: seq<PagedCacheGroupTable>, pools: seq<Pool>, ghost t: Table, ghost simulated: int, i: nat)
    requires Apart(c, tables, pools) && AllValid(tables) && i < |pools|
    requires tables[i].Model() == t && simulated <= |pools[i].free| && ReadyAt(c, t, i) && RoomAt(c, t, simulated, i)
    modifies tables[i], pools[i]
    ensures AllValid(tables) && Models(tables) == old(Models(tables))[i := tables[i].Model()] && Counts(pools) == old(Counts(pools))[i := |pools[i].free|]
    ensures tables[i].cursor >= c.target && DebitedAt(c, t, simulated, i) <= |pools[i].free|
  {
    ghost var ms, ns := Models(tables), Counts(pools);
    CarryGroup(c, tables[i], pools[i], t, simulated, i);
    ModelsAre(tables, ms, i);
    CountsAre(pools, ns, i);
  }

  lemma ModelsAre(tables: seq<PagedCacheGroupTable>, ms: seq<Table>, i: nat)
    requires i < |tables| == |ms| && forall j {:trigger tables[j]} :: 0 <= j < |tables| && j != i ==> tables[j].Model() == ms[j]
    ensures Models(tables) == ms[i := tables[i].Model()]
  {
  }

  lemma CountsAre(pools: seq<Pool>, ns: seq<nat>, i: nat)
    requires i < |pools| == |ns| && forall j {:trigger pools[j]} :: 0 <= j < |pools| && j != i ==> |pools[j].free| == ns[j]
    ensures Counts(pools) == ns[i := |pools[i].free|]
  {
  }

  method CarryGroup(c: Chunk, table: PagedCacheGroupTable, pool: Pool, ghost t: Table, ghost simulated: int, i: nat)
    requires i < |c.groups| && i < |c.required| && i < |c.shares| && table.pool == pool && table.group == c.groups[i]
    requires table.Valid() && table.Model() == t && simulated <= |pool.free| && ReadyAt(c, t, i) && RoomAt(c, t, simulated, i)
    modifies table, pool
    ensures table.Valid() && table.cursor >= c.target && DebitedAt(c, t, simulated, i) <= |pool.free|
  {
    CarryOut(table, c.shares[i], c.first, c.target, c.required[i], c.align, simulated);
  }

  /** The tables as they are. */
  method Read(tables: seq<PagedCacheGroupTable>) returns (ts: seq<Table>)
    ensures ts == Models(tables)
  {
    ts := [];
    var i := 0;
    while i < |tables|
      invariant 0 <= i <= |tables| && |ts| == i && forall j {:trigger ts[j]} :: 0 <= j < i ==> ts[j] == tables[j].Model()
    {
      ts, i := ts + [tables[i].Model()], i + 1;
    }
  }

  /** Carry out an admitted chunk, group by group. */
  method CarryAll(c: Chunk, tables: seq<PagedCacheGroupTable>, pools: seq<Pool>, ghost simulated: seq<int>)
    requires Apart(c, tables, pools) && AllValid(tables) && Honest(Counts(pools), simulated)
    requires ReadyAll(c, Models(tables)) && RoomAll(c, Models(tables), simulated)
    modifies tables, pools
    ensures AllValid(tables) && Honest(Counts(pools), DebitedAll(c, old(Models(tables)), simulated)) && ReachAll(c, Models(tables))
  {
    ghost var ts, debited := Models(tables), DebitedAll(c, Models(tables), simulated);
    var i := 0;
    assert CarryingOf(c, Models(tables), Counts(pools), ts, simulated, debited, 0, |ts|);
    while i < |pools|
      invariant 0 <= i <= |pools| && AllValid(tables)
      invariant Carrying(c, Models(tables), Counts(pools), ts, simulated, debited, i)
    {
      CarryOne(c, tables, pools, ts, simulated, debited, i);
      i := i + 1;
    }
  }

  method CarryOne(c: Chunk, tables: seq<PagedCacheGroupTable>, pools: seq<Pool>, ghost ts: seq<Table>, ghost simulated: seq<int>, ghost debited: seq<int>, i: nat)
    requires Apart(c, tables, pools) && AllValid(tables) && i < |pools| == |ts| == |simulated|
    requires ReadyAll(c, ts) && RoomAll(c, ts, simulated) && debited == DebitedAll(c, ts, simulated)
    requires Carrying(c, Models(tables), Counts(pools), ts, simulated, debited, i)
    modifies tables, pools
    ensures AllValid(tables) && Carrying(c, Models(tables), Counts(pools), ts, simulated, debited, i + 1)
  {
    ghost var ms, ns := Models(tables), Counts(pools);
    assert ms[i] == ts[i] && simulated[i] <= ns[i];
    assert RoomAt(c, ts[i], simulated[i], i) && ReadyAt(c, ts[i], i);
    CarryNext(c, tables, pools, ts[i], simulated[i], i);
    CarriedNext(c, ms, ns, ts, simulated, debited, i, tables[i].Model(), |pools[i].free|);
  }

  /** Admit a chunk for all its groups or for none, and carry it out. Acquiring never fails, and no group's simulated count
      ever exceeds its free pages. */
  method AdmitChunk(c: Chunk, tables: seq<PagedCacheGroupTable>, pools: seq<Pool>, simulated: seq<int>) returns (ok: bool, simulated': seq<int>)
    requires Apart(c, tables, pools) && AllValid(tables) && Honest(Counts(pools), simulated)
    requires ReadyAll(c, Models(tables))
    modifies tables, pools
    ensures AllValid(tables) && Honest(Counts(pools), simulated')
    ensures ok <==> RoomAll(c, old(Models(tables)), simulated)
    ensures simulated' == if ok then DebitedAll(c, old(Models(tables)), simulated) else simulated
    ensures if ok then ReachAll(c, Models(tables)) else Models(tables) == old(Models(tables))
  {
    var ts := Read(tables);
    var debited;
    ok, debited := CheckAll(c, ts, simulated);
    simulated' := simulated;
    if ok {
      assert debited == DebitedAll(c, ts, simulated);
      simulated' := debited;
      CarryAll(c, tables, pools, simulated);
    }
  }

  ghost predicate ReadyAll(c: Chunk, ts: seq<Table>) {
    Whole(c, |ts|) && forall i {:trigger ts[i]} :: 0 <= i < |ts| ==> ReadyAt(c, ts[i], i)
  }

  ghost predicate RoomAll(c: Chunk, ts: seq<Table>, simulated: seq<int>) {
    Whole(c, |ts|) && |simulated| == |ts| && forall i {:trigger RoomAt(c, ts[i], simulated[i], i)} :: 0 <= i < |ts| ==> RoomAt(c, ts[i], simulated[i], i)
  }

  /** The counts once every share is admitted. */
  ghost function DebitedAll(c: Chunk, ts: seq<Table>, simulated: seq<int>): seq<int>
    requires Whole(c, |ts|) && |simulated| == |ts|
  {
    seq(|ts|, i requires 0 <= i < |ts| => DebitedAt(c, ts[i], simulated[i], i))
  }

  /** Every table has acquired up to the chunk's target. */
  ghost predicate ReachAll(c: Chunk, ts: seq<Table>) {
    forall i {:trigger ts[i]} :: 0 <= i < |ts| ==> ts[i].cursor >= c.target
  }
  // ---------------------------------------------------------------- one planning round

  /** A request's chunk and its tables, one for each group. */
  datatype Member = Member(chunk: Chunk, tables: seq<PagedCacheGroupTable>)

  ghost predicate AllApart(ms: seq<Member>, pools: seq<Pool>) {
    && (forall i {:trigger ms[i]} :: 0 <= i < |ms| ==> Apart(ms[i].chunk, ms[i].tables, pools))
    && (forall i, j {:trigger ms[i], ms[j]} :: 0 <= i < |ms| && 0 <= j < |ms| && i != j ==> Strange(ms[i], ms[j]))
  }

  /** The two share no table. */
  ghost predicate Strange(m: Member, m': Member) {
    forall x {:trigger x in m.tables} {:trigger x in m'.tables} :: x in m.tables ==> x !in m'.tables
  }

  /** The requests' tables are all among these. */
  ghost predicate Among(ms: seq<Member>, all: set<object>) {
    forall i, k {:trigger ms[i].tables[k]} :: 0 <= i < |ms| && 0 <= k < |ms[i].tables| ==> ms[i].tables[k] in all
  }

  ghost predicate AllInOrder(ms: seq<Member>, all: set<object>)
    requires Among(ms, all)
    reads all
  {
    forall i {:trigger ms[i]} :: 0 <= i < |ms| ==> AllValid(ms[i].tables)
  }

  ghost function AllModels(ms: seq<Member>, all: set<object>): (now: seq<seq<Table>>)
    requires Among(ms, all)
    reads all
  {
    seq(|ms|, i requires 0 <= i < |ms| reads all => Models(ms[i].tables))
  }

  /** Each request was decided on the counts its predecessors left, and changed them by just what its forecasts say. */
  ghost predicate Decided(ms: seq<Member>, was: seq<seq<Table>>, oks: seq<bool>, sims: seq<seq<int>>) {
    && |oks| <= |ms| == |was| && |sims| == |oks| + 1
    && forall i {:trigger oks[i]} :: 0 <= i < |oks| ==> DecidedAt(ms[i].chunk, was[i], oks[i], sims[i], sims[i + 1])
  }

  ghost predicate DecidedAt(c: Chunk, was: seq<Table>, ok: bool, sim: seq<int>, sim': seq<int>) {
    && Whole(c, |was|) && |sim| == |was| && (ok <==> RoomAll(c, was, sim))
    && sim' == if ok then DebitedAll(c, was, sim) else sim
  }

  /** The tables of a request that was decided: they reach its target if it was admitted, and are as they were if not. */
  ghost predicate DecidedTables(c: Chunk, ok: bool, was: seq<Table>, now: seq<Table>) {
    if ok then ReachAll(c, now) else now == was
  }

  /** The requests decided so far are settled, the others are as they were. */
  ghost predicate Settling(ms: seq<Member>, oks: seq<bool>, was: seq<seq<Table>>, now: seq<seq<Table>>) {
    && |oks| <= |ms| == |was| == |now|
    && (forall i {:trigger oks[i]} :: 0 <= i < |oks| ==> DecidedTables(ms[i].chunk, oks[i], was[i], now[i]))
    && (forall i {:trigger now[i]} {:trigger was[i]} :: |oks| <= i < |ms| ==> now[i] == was[i])
  }

  lemma SettlingMore(ms: seq<Member>, oks: seq<bool>, was: seq<seq<Table>>, now: seq<seq<Table>>, ok: bool, ts: seq<Table>)
    requires Settling(ms, oks, was, now) && |oks| < |ms| && DecidedTables(ms[|oks|].chunk, ok, was[|oks|], ts)
    ensures Settling(ms, oks + [ok], was, now[|oks| := ts])
  {
  }

  lemma NoPool(x: PagedCacheGroupTable, pools: seq<Pool>)
    ensures forall i {:trigger pools[i]} :: 0 <= i < |pools| ==> (pools[i] as object) != x
    ensures (x as object) !in pools
  {
  }

  twostate lemma Stay(tables: seq<PagedCacheGroupTable>)
    requires old(AllValid(tables)) && forall i {:trigger tables[i]} :: 0 <= i < |tables| ==> unchanged(tables[i])
    ensures AllValid(tables) && Models(tables) == old(Models(tables))
  {
  }

  /** Admit one request; the others' tables stay as they are. */
  method PlanNext(ms: seq<Member>, pools: seq<Pool>, simulated: seq<int>, i: nat, ghost all: set<object>) returns (ok: bool, simulated': seq<int>)
    requires AllApart(ms, pools) && Among(ms, all) && AllInOrder(ms, all) && i < |ms|
    requires ReadyAll(ms[i].chunk, AllModels(ms, all)[i]) && Honest(Counts(pools), simulated)
    modifies all, pools
    ensures AllInOrder(ms, all) && AllModels(ms, all) == old(AllModels(ms, all))[i := Models(ms[i].tables)]
    ensures DecidedTables(ms[i].chunk, ok, old(AllModels(ms, all))[i], Models(ms[i].tables))
    ensures Honest(Counts(pools), simulated') && DecidedAt(ms[i].chunk, old(AllModels(ms, all))[i], ok, simulated, simulated')
  {
    ok, simulated' := AdmitChunk(ms[i].chunk, ms[i].tables, pools, simulated);
    forall k | 0 <= k < |ms| && k != i ensures AllValid(ms[k].tables) && Models(ms[k].tables) == old(Models(ms[k].tables)) {
      assert Strange(ms[i], ms[k]);
      forall a | 0 <= a < |ms[k].tables| ensures unchanged(ms[k].tables[a]) {
        var x := ms[k].tables[a];
        assert x in ms[k].tables && x !in ms[i].tables;
        NoPool(x, pools);
        assert unchanged(x);
      }
      Stay(ms[k].tables);
    }
  }

  /** A planning round over any requests, whatever mix of first chunks, further chunks with commits, decodes without and
      recoveries they are: it starts from the pages that are free, each request is admitted for all its groups or for none,
      no acquisition ever fails, and at the end no count claims more pages than are free. */
  method Plan(ms: seq<Member>, pools: seq<Pool>, simulated: seq<int>, ghost all: set<object>) returns (oks: seq<bool>, ghost sims: seq<seq<int>>)
    requires AllApart(ms, pools) && Among(ms, all) && AllInOrder(ms, all) && simulated == Counts(pools)
    requires forall i {:trigger ms[i]} :: 0 <= i < |ms| ==> ReadyAll(ms[i].chunk, AllModels(ms, all)[i])
    modifies all, pools
    ensures |oks| == |ms| && Decided(ms, old(AllModels(ms, all)), oks, sims) && sims[0] == old(Counts(pools))
    ensures AllInOrder(ms, all) && Settling(ms, oks, old(AllModels(ms, all)), AllModels(ms, all)) && Honest(Counts(pools), sims[|ms|])
  {
    ghost var was := AllModels(ms, all);
    oks, sims := [], [simulated];
    var now, i := simulated, 0;
    while i < |ms|
      invariant 0 <= i <= |ms| && |oks| == i && Decided(ms, was, oks, sims) && sims[0] == simulated && sims[i] == now
      invariant AllInOrder(ms, all) && Settling(ms, oks, was, AllModels(ms, all)) && Honest(Counts(pools), now)
    {
      ghost var models := AllModels(ms, all);
      assert models[i] == was[i];
      var ok, next := PlanNext(ms, pools, now, i, all);
      SettlingMore(ms, oks, was, models, ok, Models(ms[i].tables));
      oks, sims, now, i := oks + [ok], sims + [next], next, i + 1;
    }
  }
}
