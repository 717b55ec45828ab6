/** A run from nothing but free pages to the state before the two commits: one request leaves snapshots at one and two tokens,
    the state of the second is evicted, and another request is matched to one token and acquires three. */
module CanonicalRun {
  import opened Prelude
  import opened PagePool
  import opened PagedCacheTable
  import opened Snapshots
  import opened CommitSteps
  import opened SnapshotColumns
  import opened SnapshotPaths
  import opened SnapshotTree
  import opened SnapshotRuns
  import opened CacheRuns
  import opened CanonicalState

  const FREES: seq<seq<nat>> := [[13, 12, 11], [25, 24, 22, 21]]
  const NODES: set<Path> := {PATH_1, PATH_2, PATH_3}

  /** The first request acquires two tokens. */
  const STATE_FIRST := Table(0, [], [11, 12], 2, 0)
  const HISTORY_FIRST := Table(0, [], [21, 22], 2, 0)

  /** It commits one token, and then the other. */
  const STATE_HALF := Table(0, [11], [12], 2, 1)
  const HISTORY_HALF := Table(0, [21], [22], 2, 1)
  const STATE_DONE := Table(1, [12], [], 2, 2)
  const HISTORY_DONE := Table(0, [21, 22], [], 2, 2)

  /** The segments it leaves. */
  const STATE_ONE: map<Path, Segment> := map[PATH_1 := Segment([11], 0)]
  const HISTORY_ONE: map<Path, Segment> := map[PATH_1 := Segment([21], 0)]
  const STATE_TWO: map<Path, Segment> := map[PATH_1 := Segment([11], 0), PATH_2 := Segment([12], 1)]
  const HISTORY_TWO: map<Path, Segment> := map[PATH_1 := Segment([21], 0), PATH_2 := Segment([22], 1)]

  /** What the second request is matched to. */
  const HIT := Found(1, [[11], [21]], [0, 0])

  // ---------------------------------------------------------------- growing and laying down

  /** One operation takes one state to the next. */
  ghost predicate Does(b: Adjunct, op: CacheOp, a: Adjunct) {
    exists o {:trigger DoesBy(b, op, a, o)} :: DoesBy(b, op, a, o)
  }

  ghost predicate DoesBy(b: Adjunct, op: CacheOp, a: Adjunct, o: Progress) {
    Shape(CONFIG, b) && OpLegal(b, op) && o == Next(CONFIG, b, op) && o == Went(a)
  }

  lemma DoesIs(b: Adjunct, op: CacheOp, a: Adjunct)
    requires Shape(CONFIG, b) && OpLegal(b, op) && Next(CONFIG, b, op) == Went(a)
    ensures Does(b, op, a)
  {
    assert DoesBy(b, op, a, Next(CONFIG, b, op));
  }

  /** The first k operations lead here. */
  ghost predicate Reached(ops: seq<CacheOp>, k: nat, a: Adjunct) {
    exists front {:trigger ReachedBy(ops, k, a, front)} :: ReachedBy(ops, k, a, front)
  }

  ghost predicate ReachedBy(ops: seq<CacheOp>, k: nat, a: Adjunct, front: seq<CacheOp>) {
    ConfigOk(CONFIG) && k <= |ops| && front == ops[..k] && RunsTo(CONFIG, FREES, front, a)
  }

  lemma Further(ops: seq<CacheOp>, k: nat, op: CacheOp, b: Adjunct, a: Adjunct)
    requires k < |ops| && op == ops[k] && Reached(ops, k, b) && Does(b, op, a)
    ensures Reached(ops, k + 1, a)
  {
    var front: seq<CacheOp> :| ReachedBy(ops, k, b, front);
    var o: Progress :| DoesBy(b, op, a, o);
    var more := ops[..k + 1];
    assert more[..|more| - 1] == front && more[|more| - 1] == op;
    assert ReachedBy(ops, k + 1, a, more);
  }

  /** Two columns, as they are described. */
  lemma ShapeIs(a: Adjunct, state: Column, history: Column)
    requires a.cols == [state, history] && a.hits.Keys <= a.pins.Keys && state.tables.Keys == history.tables.Keys
    requires state.segs.Keys <= a.snaps && history.segs.Keys <= a.snaps
    ensures Shape(CONFIG, a)
  {
    Configured();
  }

  lemma TakesLast(free: seq<nat>, n: nat)
    requires n == 2 <= |free|
    ensures Reversed(free[|free| - 2..]) == [free[|free| - 1], free[|free| - 2]]
  {
    var s := free[|free| - 2..];
    assert s == [free[|free| - 2], free[|free| - 1]] && s[1..] == [free[|free| - 1]] && s[1..][1..] == [];
    assert Reversed(s[1..]) == Reversed([]) + [free[|free| - 1]];
    assert Reversed(s) == Reversed(s[1..]) + [s[0]];
  }

  /** Two pages are taken from the pool after the window has slid over nothing of the request's own. */
  lemma GrowIs(col: Column, id: Id, first: int, target: nat, g: Group, page: nat, t: Table, x: nat, y: nat, col': Column)
    requires g == STATE_GROUP || g == HISTORY_GROUP
    requires id in col.tables && page == Slides(first, g) && FrontOwned(col.tables[id], Below(col.tables[id], page)) == []
    requires t == Released(col.tables[id], page) && target > t.cursor && End(t) + 2 == target
    requires |col.free| >= 2 && x == col.free[|col.free| - 1] && y == col.free[|col.free| - 2]
    requires col'.free == col.free[..|col.free| - 2]
        && col'.tables == col.tables[id := Table(t.base, t.borrowed, t.owned + [x, y], target, t.committed)]
    requires col'.segs == col.segs
    ensures GroupOk(g) && Grow(col, id, first, target, g) == Some(col')
  {
    Unit(g);
    SlidesIs(first, g);
    assert col.free + [] == col.free;
    var slid := Slid(col, id, page);
    assert slid.free == col.free && slid.segs == col.segs && slid.tables == col.tables[id := t];
    assert NeedFor(t, target, g) == 2;
    TakesLast(col.free, 2);
    assert slid.tables[id := Grown(t, target, [x, y])] == col'.tables;
  }

  /** Where a window of one token slides to before a position. */
  function Slides(first: int, g: Group): nat {
    if g.window.None? || first < 1 then 0 else first
  }

  lemma SlidesIs(first: int, g: Group)
    requires g == STATE_GROUP || g == HISTORY_GROUP
    ensures GroupOk(g) && SkipPage(LowerBound(first, g), g) == Slides(first, g)
  {
    Unit(g);
    if first >= 1 { OneToken(first); }
  }

  lemma AffordsBoth(c: Config, a: Adjunct, id: Id, first: nat, target: nat)
    requires ConfigOk(c) && |a.cols| == |c.groups| == 2 && id in a.hits
    requires ObtainAt(c, a, id, first, target, 0).Some? && ObtainAt(c, a, id, first, target, 1).Some?
    ensures Affords(c, a, id, first, target)
  {
    forall i | 0 <= i < |a.cols| ensures ObtainAt(c, a, id, first, target, i).Some? {
      assert i == 0 || i == 1;
    }
  }

  lemma ObtainsAt(c: Config, a: Adjunct, id: Id, first: nat, target: nat, i: nat)
    requires ConfigOk(c) && |a.cols| == |c.groups| && (id in a.hits || Has(c, a, id)) && Affords(c, a, id, first, target) && i < |a.cols|
    ensures ObtainAt(c, a, id, first, target, i).Some?
        && ObtainAll(c, a, id, first, target)[i] == ObtainAt(c, a, id, first, target, i).value
  {
  }

  lemma ObtainsBoth(a: Adjunct, id: Id, first: nat, target: nat, cols: seq<Column>)
    requires ConfigOk(CONFIG) && |a.cols| == 2 && id in a.hits && |cols| == 2 && Affords(CONFIG, a, id, first, target)
    requires ObtainAt(CONFIG, a, id, first, target, 0) == Some(cols[0]) && ObtainAt(CONFIG, a, id, first, target, 1) == Some(cols[1])
    ensures ObtainAll(CONFIG, a, id, first, target) == cols
  {
    ObtainsAt(CONFIG, a, id, first, target, 0);
    ObtainsAt(CONFIG, a, id, first, target, 1);
  }

  lemma ObtainIs(a: Adjunct, id: Id, first: nat, target: nat, cols: seq<Column>)
    requires Shape(CONFIG, a) && id in a.hits && |cols| == 2
    requires ObtainAt(CONFIG, a, id, first, target, 0) == Some(cols[0]) && ObtainAt(CONFIG, a, id, first, target, 1) == Some(cols[1])
    ensures Next(CONFIG, a, Obtain(id, first, target)) == Went(a.(cols := cols, hits := a.hits - {id}))
  {
    AffordsBoth(CONFIG, a, id, first, target);
    ObtainsBoth(a, id, first, target, cols);
  }

  /** A history group lays down its next page. */
  lemma HistoryLays(t: Table, target: nat)
    requires t.committed + 1 == target <= t.cursor && |t.owned| > 0
    ensures GroupOk(HISTORY_GROUP) && StepLegal(t, Lay, 1, HISTORY_GROUP) && StepTable(t, Lay, 1, HISTORY_GROUP) == Lend(t, 1, target)
    ensures StepBack(t, Lay, 1, HISTORY_GROUP) == [] && Leaves(t, 1, HISTORY_GROUP) == Segment(t.owned[..1], t.committed)
  {
    Unit(HISTORY_GROUP);
    OneToken(target);
    OneToken(t.committed);
    OneToken(1);
    assert CommitCount(t, target, HISTORY_GROUP) == 1;
  }

  /** A state group is checkpointed one token on. */
  lemma StateLays(t: Table, target: nat, t1: Table, t': Table, s: Segment)
    requires t.committed + 1 == target <= t.cursor
    requires t1 == DropFront(t, Below(t, target - 1)) && FrontOwned(t, Below(t, target - 1)) == [] && SegmentLen(t1, target) == 1
    requires t' == Lend(t1, 1, target) && s == Segment(t1.owned[..1], t1.base + |t1.borrowed|)
    ensures GroupOk(STATE_GROUP) && StepLegal(t, Lay, 1, STATE_GROUP) && StepTable(t, Lay, 1, STATE_GROUP) == t'
    ensures StepBack(t, Lay, 1, STATE_GROUP) == [] && Leaves(t, 1, STATE_GROUP) == s
  {
    Checkpointing(t, target);
    CheckpointIs(t, target, t1, 1);
  }

  lemma StepIs(c: Config, a: Adjunct, id: Id, target: nat, q: Path, cols: seq<Column>)
    requires ConfigOk(c) && Has(c, a, id) && id in a.pins && target <= |a.pins[id]| && q == a.pins[id][..target] && q !in a.snaps
    requires SplitAt(a.nodes, a.snaps, a.pins[id], target, c.size) == Some(a.nodes) && PreflightAll(c, a, id, target)
    requires LayableAll(c, a, id, target) && LayAll(c, a, id, q, target) == cols
    ensures StepTo(c, a, id, target) == Went(a.(cols := cols, snaps := a.snaps + {q}))
  {
  }

  lemma LaidBoth(c: Config, a: Adjunct, id: Id, target: nat, q: Path, cols: seq<Column>)
    requires ConfigOk(c) && Has(c, a, id) && |c.groups| == 2 == c.required == |cols| && LayableAll(c, a, id, target)
    requires LayAll(c, a, id, q, target)[0] == cols[0] && LayAll(c, a, id, q, target)[1] == cols[1]
    ensures LayAll(c, a, id, q, target) == cols
  {
  }

  /** A node at the target, and tables that stand right before it. */
  lemma FlightIs(a: Adjunct, id: Id, target: nat)
    requires ConfigOk(CONFIG) && Has(CONFIG, a, id) && id in a.pins && 0 < target <= |a.pins[id]| && a.pins[id][..target] in a.nodes
    requires forall i {:trigger a.cols[i]} :: 0 <= i < 2 ==> a.cols[i].tables[id].committed + 1 == target <= a.cols[i].tables[id].cursor
    requires var t := a.cols[1].tables[id]; t.base + |t.borrowed| == t.committed && |t.owned| > 0
    ensures SplitAt(a.nodes, a.snaps, a.pins[id], target, 1) == Some(a.nodes) && PreflightAll(CONFIG, a, id, target)
  {
    Unit(STATE_GROUP);
    Unit(HISTORY_GROUP);
    OneToken(target);
    OneToken(target - 1);
    OneToken(1);
    assert NodeEnd(a.nodes, a.pins[id], target) == Some(target);
    assert Preflight(a.cols[0].tables[id], target, STATE_GROUP) && Preflight(a.cols[1].tables[id], target, HISTORY_GROUP);
  }

  // ---------------------------------------------------------------- the first request

  const START_STATE := Column([13, 12, 11], map[], map[])
  const START_HISTORY := Column([25, 24, 22, 21], map[], map[])

  const FIRST_STATE := Column([13], map[1 := STATE_FIRST], map[])
  const FIRST_HISTORY := Column([25, 24], map[1 := HISTORY_FIRST], map[])

  const HALF_STATE := Column([13], map[1 := STATE_HALF], STATE_ONE)
  const HALF_HISTORY := Column([25, 24], map[1 := HISTORY_HALF], HISTORY_ONE)

  const DONE_STATE := Column([13], map[1 := STATE_DONE], STATE_TWO)
  const DONE_HISTORY := Column([25, 24], map[1 := HISTORY_DONE], HISTORY_TWO)

  const LEFT_STATE := Column([13], map[], STATE_TWO)
  const LEFT_HISTORY := Column([25, 24], map[], HISTORY_TWO)

  const EVICTED_STATE := Column([13, 12], map[], STATE_ONE)

  function Both(state: Column, history: Column, snaps: set<Path>, pins: map<Id, Path>, hits: map<Id, Found>): Adjunct {
    Adjunct(NODES, snaps, [state, history], pins, hits)
  }

  const MATCHED := Both(START_STATE, START_HISTORY, {}, map[1 := []], map[1 := NOTHING])
  const OBTAINED := Both(FIRST_STATE, FIRST_HISTORY, {}, map[1 := []], map[])
  const COMMITTING := Both(FIRST_STATE, FIRST_HISTORY, {}, map[1 := PATH_2], map[])
  const HALFWAY := Both(HALF_STATE, HALF_HISTORY, {PATH_1}, map[1 := PATH_2], map[])
  const COMMITTED := Both(DONE_STATE, DONE_HISTORY, {PATH_1, PATH_2}, map[1 := PATH_2], map[])
  const LEFT := Both(LEFT_STATE, LEFT_HISTORY, {PATH_1, PATH_2}, map[], map[])
  const EVICTED := Both(EVICTED_STATE, LEFT_HISTORY, {PATH_1, PATH_2}, map[], map[])
  const REMATCHED := Both(EVICTED_STATE, LEFT_HISTORY, {PATH_1, PATH_2}, map[2 := PATH_1], map[2 := HIT])
  const REOBTAINED := Both(STATE_COLUMN, HISTORY_COLUMN, {PATH_1, PATH_2}, map[2 := PATH_1], map[])

  lemma FoundIs(a: Adjunct, id: Id, path: Path, f: Found, p: Path, a': Adjunct)
    requires Shape(CONFIG, a) && Augmented(CONFIG, a, path) == f && f.tokens <= |path| && p == path[..f.tokens]
    requires a.pins == map[] && a.hits == map[] && a' == a.(pins := map[id := p], hits := map[id := f])
    ensures Next(CONFIG, a, Find(id, path)) == Went(a')
  {
    assert a.pins[id := p] == map[id := p] && a.hits[id := f] == map[id := f];
  }

  const EMPTY := Both(START_STATE, START_HISTORY, {}, map[], map[])

  lemma Begun()
    ensures Does(Start(FREES), Reshape(NODES), EMPTY) && Does(EMPTY, Find(1, []), MATCHED)
  {
    Configured();
    var a := Start(FREES);
    assert a.cols == [START_STATE, START_HISTORY];
    ShapeIs(a, START_STATE, START_HISTORY);
    ShapeIs(EMPTY, START_STATE, START_HISTORY);
    Boundaries();
    assert Augmented(CONFIG, EMPTY, []) == NOTHING;
    FoundIs(EMPTY, 1, [], NOTHING, [], MATCHED);
    DoesIs(a, Reshape(NODES), EMPTY);
    DoesIs(EMPTY, Find(1, []), MATCHED);
  }

  /** A request without a table starts with this one and grows. */
  ghost predicate Renews(col: Column, id: Id, t: Table, first: nat, target: nat, g: Group, col': Column) {
    exists put {:trigger RenewsBy(col, id, t, first, target, g, col', put)} :: RenewsBy(col, id, t, first, target, g, col', put)
  }

  ghost predicate RenewsBy(col: Column, id: Id, t: Table, first: nat, target: nat, g: Group, col': Column, put: Column) {
    GroupOk(g) && put == Put(Dropped(col, id), id, t) && Grow(put, id, first, target, g) == Some(col')
  }

  lemma FreshTrim(t: Table)
    requires t == FRESH
    ensures Below(t, 0) == 0 && Released(t, 0) == t && FrontOwned(t, 0) == []
  {
    assert t.owned[0..] == [] && t.owned[..0] == [];
  }

  lemma FreshGrows(col: Column, g: Group, x: nat, y: nat, col': Column)
    requires (g == STATE_GROUP || g == HISTORY_GROUP) && col.tables == map[] && col.segs == map[]
    requires |col.free| >= 2 && x == col.free[|col.free| - 1] && y == col.free[|col.free| - 2]
    requires col' == Column(col.free[..|col.free| - 2], map[1 := Table(0, [], [x, y], 2, 0)], map[])
    ensures Renews(col, 1, FRESH, 0, 2, g, col')
  {
    Unit(g);
    var put := Put(Dropped(col, 1), 1, FRESH);
    assert put.tables[1] == FRESH && FRESH.owned + [x, y] == [x, y];
    FreshTrim(FRESH);
    assert col'.tables == put.tables[1 := Table(0, [], [x, y], 2, 0)];
    GrowIs(put, 1, 0, 2, g, 0, FRESH, x, y, col');
    assert RenewsBy(col, 1, FRESH, 0, 2, g, col', put);
  }

  /** What was matched is taken by both groups. */
  lemma RenewAll(a: Adjunct, id: Id, f: Found, first: nat, target: nat, state: Column, history: Column, state': Column, history': Column)
    requires Shape(CONFIG, a) && a.cols == [state, history] && id in a.hits && a.hits[id] == f
    requires Renews(state, id, Starting(f, 0), first, target, STATE_GROUP, state')
        && Renews(history, id, Starting(f, 1), first, target, HISTORY_GROUP, history')
    ensures Next(CONFIG, a, Obtain(id, first, target)) == Went(a.(cols := [state', history'], hits := a.hits - {id}))
  {
    var put: Column :| RenewsBy(state, id, Starting(f, 0), first, target, STATE_GROUP, state', put);
    var put': Column :| RenewsBy(history, id, Starting(f, 1), first, target, HISTORY_GROUP, history', put');
    ObtainIs(a, id, first, target, [state', history']);
  }

  lemma Obtained()
    ensures Does(MATCHED, Obtain(1, 0, 2), OBTAINED)
  {
    ShapeIs(MATCHED, START_STATE, START_HISTORY);
    FreshState(START_STATE, FIRST_STATE);
    FreshHistory(START_HISTORY, FIRST_HISTORY);
    assert Starting(NOTHING, 0) == FRESH && Starting(NOTHING, 1) == FRESH;
    RenewAll(MATCHED, 1, NOTHING, 0, 2, START_STATE, START_HISTORY, FIRST_STATE, FIRST_HISTORY);
    assert MATCHED.hits - {1} == map[];
    DoesIs(MATCHED, Obtain(1, 0, 2), OBTAINED);
  }

  lemma FreshState(col: Column, col': Column)
    requires col == Column([13, 12, 11], map[], map[]) && col' == Column([13], map[1 := Table(0, [], [11, 12], 2, 0)], map[])
    ensures Renews(col, 1, FRESH, 0, 2, STATE_GROUP, col')
  {
    assert col.free[..1] == [13];
    FreshGrows(col, STATE_GROUP, 11, 12, col');
  }

  lemma FreshHistory(col: Column, col': Column)
    requires col == Column([25, 24, 22, 21], map[], map[]) && col' == Column([25, 24], map[1 := Table(0, [], [21, 22], 2, 0)], map[])
    ensures Renews(col, 1, FRESH, 0, 2, HISTORY_GROUP, col')
  {
    assert col.free[..2] == [25, 24];
    FreshGrows(col, HISTORY_GROUP, 21, 22, col');
  }

  lemma FirstMoved()
    ensures Does(OBTAINED, Advance(1, PATH_2), COMMITTING)
  {
    ShapeIs(OBTAINED, FIRST_STATE, FIRST_HISTORY);
    assert OBTAINED.pins[1 := PATH_2] == map[1 := PATH_2];
    DoesIs(OBTAINED, Advance(1, PATH_2), COMMITTING);
  }

  // ---------------------------------------------------------------- its commit

  /** The first request's table leaves a segment at a node. */
  ghost predicate Lays(col: Column, q: Path, target: nat, g: Group, col': Column) {
    exists t {:trigger LaysBy(col, q, target, g, col', t)} :: LaysBy(col, q, target, g, col', t)
  }

  ghost predicate LaysBy(col: Column, q: Path, target: nat, g: Group, col': Column, t: Table) {
    && GroupOk(g) && 1 in col.tables && t == col.tables[1] && t.committed < target && StepLegal(t, Lay, target - t.committed, g)
    && LayColumn(col, 1, q, target - t.committed, g) == col'
  }

  lemma StateColumnLays(col: Column, q: Path, t: Table, t1: Table, t': Table, s: Segment, target: nat, col': Column)
    requires 1 in col.tables && col.tables[1] == t && t.committed + 1 == target <= t.cursor
    requires t1 == DropFront(t, Below(t, target - 1)) && FrontOwned(t, Below(t, target - 1)) == [] && SegmentLen(t1, target) == 1
    requires t' == Lend(t1, 1, target) && s == Segment(t1.owned[..1], t1.base + |t1.borrowed|)
    requires col'.free == col.free && col'.tables == col.tables[1 := t'] && col'.segs == col.segs[q := s]
    ensures Lays(col, q, target, STATE_GROUP, col')
  {
    StateLays(t, target, t1, t', s);
    LaysTo(col, 1, q, 1, STATE_GROUP, t', s, col');
    assert LaysBy(col, q, target, STATE_GROUP, col', t);
  }

  lemma HistoryColumnLays(col: Column, q: Path, t: Table, t': Table, s: Segment, target: nat, col': Column)
    requires 1 in col.tables && col.tables[1] == t && t.committed + 1 == target <= t.cursor && |t.owned| > 0
    requires t' == Lend(t, 1, target) && s == Segment(t.owned[..1], t.committed)
    requires col'.free == col.free && col'.tables == col.tables[1 := t'] && col'.segs == col.segs[q := s]
    ensures Lays(col, q, target, HISTORY_GROUP, col')
  {
    HistoryLays(t, target);
    LaysTo(col, 1, q, 1, HISTORY_GROUP, t', s, col');
    assert LaysBy(col, q, target, HISTORY_GROUP, col', t);
  }

  lemma HalfTrim(t: Table)
    requires t == Table(0, [], [11, 12], 2, 0)
    ensures Below(t, 0) == 0 && DropFront(t, 0) == t && FrontOwned(t, 0) == [] && SegmentLen(t, 1) == 1
    ensures Lend(t, 1, 1) == Table(0, [11], [12], 2, 1) && Segment(t.owned[..1], t.base + |t.borrowed|) == Segment([11], 0)
  {
    assert t.owned[..1] == [11] && t.owned[1..] == [12] && t.owned[0..] == t.owned && t.owned[..0] == [];
  }

  lemma DoneTrim(t: Table, t1: Table)
    requires t == Table(0, [11], [12], 2, 1) && t1 == Table(1, [], [12], 2, 1)
    ensures Below(t, 1) == 1 && DropFront(t, 1) == t1 && FrontOwned(t, 1) == [] && SegmentLen(t1, 2) == 1
    ensures Lend(t1, 1, 2) == Table(1, [12], [], 2, 2) && Segment(t1.owned[..1], t1.base + |t1.borrowed|) == Segment([12], 1)
  {
    assert t.borrowed[1..] == [] && t.owned[0..] == [12] && t.owned[..0] == [] && t1.owned[..1] == [12] && t1.owned[1..] == [];
  }

  lemma HalfState(t: Table, col: Column, col': Column)
    requires t == Table(0, [], [11, 12], 2, 0) && col == Column([13], map[1 := t], map[])
    requires col' == Column([13], map[1 := Table(0, [11], [12], 2, 1)], map[PATH_1 := Segment([11], 0)])
    ensures Lays(col, PATH_1, 1, STATE_GROUP, col')
  {
    HalfTrim(t);
    assert col'.tables == col.tables[1 := Table(0, [11], [12], 2, 1)] && col'.segs == col.segs[PATH_1 := Segment([11], 0)];
    StateColumnLays(col, PATH_1, t, t, Table(0, [11], [12], 2, 1), Segment([11], 0), 1, col');
  }

  lemma HalfHistory(t: Table, col: Column, col': Column)
    requires t == Table(0, [], [21, 22], 2, 0) && col == Column([25, 24], map[1 := t], map[])
    requires col' == Column([25, 24], map[1 := Table(0, [21], [22], 2, 1)], map[PATH_1 := Segment([21], 0)])
    ensures Lays(col, PATH_1, 1, HISTORY_GROUP, col')
  {
    assert t.owned[..1] == [21] && t.owned[1..] == [22] && Lend(t, 1, 1) == Table(0, [21], [22], 2, 1);
    assert col'.tables == col.tables[1 := Table(0, [21], [22], 2, 1)] && col'.segs == col.segs[PATH_1 := Segment([21], 0)];
    HistoryColumnLays(col, PATH_1, t, Table(0, [21], [22], 2, 1), Segment([21], 0), 1, col');
  }

  lemma DoneState(t: Table, col: Column, col': Column)
    requires t == Table(0, [11], [12], 2, 1) && col == Column([13], map[1 := t], map[PATH_1 := Segment([11], 0)])
    requires col' == Column([13], map[1 := Table(1, [12], [], 2, 2)], map[PATH_1 := Segment([11], 0), PATH_2 := Segment([12], 1)])
    ensures Lays(col, PATH_2, 2, STATE_GROUP, col')
  {
    var t1 := Table(1, [], [12], 2, 1);
    DoneTrim(t, t1);
    assert col'.tables == col.tables[1 := Table(1, [12], [], 2, 2)] && col'.segs == col.segs[PATH_2 := Segment([12], 1)];
    StateColumnLays(col, PATH_2, t, t1, Table(1, [12], [], 2, 2), Segment([12], 1), 2, col');
  }

  lemma DoneHistory(t: Table, col: Column, col': Column)
    requires t == Table(0, [21], [22], 2, 1) && col == Column([25, 24], map[1 := t], map[PATH_1 := Segment([21], 0)])
    requires col' == Column([25, 24], map[1 := Table(0, [21, 22], [], 2, 2)], map[PATH_1 := Segment([21], 0), PATH_2 := Segment([22], 1)])
    ensures Lays(col, PATH_2, 2, HISTORY_GROUP, col')
  {
    assert t.owned[..1] == [22] && t.owned[1..] == [] && [21] + [22] == [21, 22] && Lend(t, 1, 2) == Table(0, [21, 22], [], 2, 2);
    assert col'.tables == col.tables[1 := Table(0, [21, 22], [], 2, 2)] && col'.segs == col.segs[PATH_2 := Segment([22], 1)];
    HistoryColumnLays(col, PATH_2, t, Table(0, [21, 22], [], 2, 2), Segment([22], 1), 2, col');
  }

  /** One alignment step of the first request goes well. */
  ghost predicate StepsOn(a: Adjunct, target: nat, a': Adjunct) {
    exists o {:trigger StepsOnBy(a, target, a', o)} :: StepsOnBy(a, target, a', o)
  }

  ghost predicate StepsOnBy(a: Adjunct, target: nat, a': Adjunct, o: Progress) {
    && ConfigOk(CONFIG) && Has(CONFIG, a, 1) && 1 in a.pins && target <= |a.pins[1]|
    && o == StepTo(CONFIG, a, 1, target) && o == Went(a')
  }

  lemma StepBoth(a: Adjunct, target: nat, q: Path, state: Column, history: Column, state': Column, history': Column, a': Adjunct)
    requires a.cols == [state, history] && 1 in a.pins && 0 < target <= |a.pins[1]| && q == a.pins[1][..target] && q !in a.snaps
        && q in a.nodes
    requires Lays(state, q, target, STATE_GROUP, state') && Lays(history, q, target, HISTORY_GROUP, history')
    requires 1 in state.tables && 1 in history.tables && state.tables[1].committed + 1 == target == history.tables[1].committed + 1
    requires var t := history.tables[1]; t.base + |t.borrowed| == t.committed && |t.owned| > 0
    requires a' == a.(cols := [state', history'], snaps := a.snaps + {q})
    ensures StepsOn(a, target, a')
  {
    Configured();
    var t: Table :| LaysBy(state, q, target, STATE_GROUP, state', t);
    var u: Table :| LaysBy(history, q, target, HISTORY_GROUP, history', u);
    assert a.cols[0] == state && a.cols[1] == history && CONFIG.groups[0] == STATE_GROUP && CONFIG.groups[1] == HISTORY_GROUP;
    FlightIs(a, 1, target);
    PreflightLayable(CONFIG, a, 1, target);
    LaidAt(CONFIG, a, 1, q, target, 0);
    LaidAt(CONFIG, a, 1, q, target, 1);
    LaidBoth(CONFIG, a, 1, target, q, [state', history']);
    StepIs(CONFIG, a, 1, target, q, [state', history']);
    assert StepsOnBy(a, target, a', StepTo(CONFIG, a, 1, target));
  }

  lemma HalfBoth()
    ensures Lays(FIRST_STATE, PATH_1, 1, STATE_GROUP, HALF_STATE)
    ensures Lays(FIRST_HISTORY, PATH_1, 1, HISTORY_GROUP, HALF_HISTORY)
  {
    HalfState(STATE_FIRST, FIRST_STATE, HALF_STATE);
    HalfHistory(HISTORY_FIRST, FIRST_HISTORY, HALF_HISTORY);
  }

  lemma DoneBoth()
    ensures Lays(HALF_STATE, PATH_2, 2, STATE_GROUP, DONE_STATE)
    ensures Lays(HALF_HISTORY, PATH_2, 2, HISTORY_GROUP, DONE_HISTORY)
  {
    DoneState(STATE_HALF, HALF_STATE, DONE_STATE);
    DoneHistory(HISTORY_HALF, HALF_HISTORY, DONE_HISTORY);
  }

  lemma FirstNode()
    ensures 1 in COMMITTING.pins && |COMMITTING.pins[1]| == 2 && COMMITTING.pins[1][..1] == PATH_1 && PATH_1 in NODES
        && PATH_1 !in COMMITTING.snaps
    ensures HALFWAY == COMMITTING.(cols := [HALF_STATE, HALF_HISTORY], snaps := COMMITTING.snaps + {PATH_1})
  {
    assert COMMITTING.snaps + {PATH_1} == HALFWAY.snaps;
  }

  lemma SecondNode()
    ensures PATH_2[..2] == PATH_2 && PATH_2 in NODES && PATH_2 !in HALFWAY.snaps && COMMITTED.snaps == HALFWAY.snaps + {PATH_2}
  {
    assert PATH_2 != PATH_1;
  }

  lemma StepsToHalf()
    ensures StepsOn(COMMITTING, 1, HALFWAY)
  {
    HalfBoth();
    FirstNode();
    StepBoth(COMMITTING, 1, PATH_1, FIRST_STATE, FIRST_HISTORY, HALF_STATE, HALF_HISTORY, HALFWAY);
  }

  lemma StepsToDone()
    ensures StepsOn(HALFWAY, 2, COMMITTED)
  {
    DoneBoth();
    SecondNode();
    StepBoth(HALFWAY, 2, PATH_2, HALF_STATE, HALF_HISTORY, DONE_STATE, DONE_HISTORY, COMMITTED);
  }

  /** Two steps and nothing to add at the end. */
  lemma CommitsBoth(a: Adjunct, a1: Adjunct, a2: Adjunct, state: Column)
    requires Shape(CONFIG, a) && a.cols[0] == state && 1 in state.tables && state.tables[1].committed == 0 && 1 in a.pins
        && |a.pins[1]| == 2 && a1.pins == a.pins == a2.pins
    requires StepsOn(a, 1, a1) && StepsOn(a1, 2, a2) && Has(CONFIG, a2, 1) && Ended(CONFIG, a2, 1) == a2
    ensures Next(CONFIG, a, CommitChunk(1)) == Went(a2)
  {
    var o :| StepsOnBy(a, 1, a1, o);
    var o1 :| StepsOnBy(a1, 2, a2, o1);
    StepsUnfold(CONFIG, a, 1, 0, o);
    StepsUnfold(CONFIG, a1, 1, 1, o1);
    StepsStop(CONFIG, a2, 1, 2);
  }

  lemma FirstEnds()
    ensures ConfigOk(CONFIG) && Has(CONFIG, COMMITTED, 1) && Ended(CONFIG, COMMITTED, 1) == COMMITTED
  {
    Configured();
    assert COMMITTED.cols[0] == DONE_STATE && !Missing(COMMITTED, 0, PATH_2);
    assert EndFrom(CONFIG, COMMITTED, 1, PATH_2, COMMITTED.cols, 0) == EndFrom(CONFIG, COMMITTED, 1, PATH_2, COMMITTED.cols, 1) == COMMITTED.cols;
  }

  lemma FirstRequestCommits()
    ensures Does(COMMITTING, CommitChunk(1), COMMITTED)
  {
    ShapeIs(COMMITTING, FIRST_STATE, FIRST_HISTORY);
    StepsToHalf();
    StepsToDone();
    FirstEnds();
    CommitsBoth(COMMITTING, HALFWAY, COMMITTED, FIRST_STATE);
    DoesIs(COMMITTING, CommitChunk(1), COMMITTED);
  }

  // ---------------------------------------------------------------- it leaves, and the state of its second token is evicted

  lemma LeavesPages()
    ensures Dropped(DONE_STATE, 1) == LEFT_STATE && Dropped(DONE_HISTORY, 1) == LEFT_HISTORY && Shed(LEFT_STATE, PATH_2) == EVICTED_STATE
  {
    assert DONE_STATE.tables[1] == STATE_DONE && DONE_STATE.tables - {1} == map[] && [13] + STATE_DONE.owned == [13];
    assert DONE_HISTORY.tables[1] == HISTORY_DONE && DONE_HISTORY.tables - {1} == map[] && [25, 24] + HISTORY_DONE.owned == [25, 24];
    assert PATH_1 != PATH_2 && LEFT_STATE.segs[PATH_2] == Segment([12], 1) && [13] + [12] == [13, 12];
    assert LEFT_STATE.segs - {PATH_2} == STATE_ONE;
  }

  const RELEASED := Both(LEFT_STATE, LEFT_HISTORY, {PATH_1, PATH_2}, map[1 := PATH_2], map[])

  lemma ReleasedUnlocked()
    ensures Does(COMMITTED, Release(1), RELEASED) && Does(RELEASED, Unlock(1), LEFT)
  {
    ShapeIs(COMMITTED, DONE_STATE, DONE_HISTORY);
    ShapeIs(RELEASED, LEFT_STATE, LEFT_HISTORY);
    LeavesPages();
    var a := Next(CONFIG, COMMITTED, Release(1)).a;
    assert |a.cols| == 2 && a.cols[0] == LEFT_STATE && a.cols[1] == LEFT_HISTORY;
    assert a.cols == [LEFT_STATE, LEFT_HISTORY];
    assert RELEASED.pins - {1} == map[] && RELEASED.hits - {1} == map[];
    DoesIs(COMMITTED, Release(1), RELEASED);
    DoesIs(RELEASED, Unlock(1), LEFT);
  }

  lemma StateEvicted()
    ensures Does(LEFT, EvictState(PATH_2), EVICTED)
  {
    ShapeIs(LEFT, LEFT_STATE, LEFT_HISTORY);
    LeavesPages();
    var a := Next(CONFIG, LEFT, EvictState(PATH_2)).a;
    assert LEFT.cols[1] == LEFT_HISTORY && !Bare(CONFIG, LEFT, PATH_2);
    assert |a.cols| == 2 && a.cols[0] == EVICTED_STATE && a.cols[1] == LEFT_HISTORY;
    assert a.cols == [EVICTED_STATE, LEFT_HISTORY];
    DoesIs(LEFT, EvictState(PATH_2), EVICTED);
  }

  // ---------------------------------------------------------------- the second request is matched to one token

  lemma MatchWalk()
    ensures ConfigOk(CONFIG) && Boundary(0, 1) == 0 && Walk(CONFIG, EVICTED, PATH_2, 0) == 2
  {
    Configured();
    Boundaries();
    assert PATH_2[..1] == PATH_1 && PATH_2[..2] == PATH_2;
    assert EVICTED.cols[0] == EVICTED_STATE && EVICTED.cols[1] == LEFT_HISTORY;
    assert Walk(CONFIG, EVICTED, PATH_2, 2) == 2;
    assert Walk(CONFIG, EVICTED, PATH_2, 1) == 2;
  }

  lemma MatchStates()
    ensures ConfigOk(CONFIG) && !ContinuationComplete(CONFIG, EVICTED, PATH_2) && !TransportOnly(CONFIG) && RequiresState(CONFIG)
    ensures StateComplete(CONFIG, EVICTED, PATH_1) && !StateComplete(CONFIG, EVICTED, PATH_2)
  {
    Configured();
    assert PATH_2 != PATH_1 && EVICTED.cols[0] == EVICTED_STATE && CONFIG.states[0] == 0;
    assert PATH_2 !in EVICTED_STATE.segs && PATH_1 in EVICTED_STATE.segs;
    assert !CONFIG.groups[0].history;
  }

  lemma MatchNeeds()
    ensures ConfigOk(CONFIG) && Needed(CONFIG) == 1
  {
    Configured();
    assert CONFIG.groups[0] == STATE_GROUP && CONFIG.groups[1] == HISTORY_GROUP;
    assert Widest(CONFIG, 0) == 0;
    assert Widest(CONFIG, 1) == 1;
    assert Widest(CONFIG, 2) == 1;
    CeilDivUnique(1, 1, 1);
  }

  lemma MatchUsable()
    ensures ConfigOk(CONFIG) && Usable(CONFIG, EVICTED, PATH_2, 2) == 1
  {
    MatchStates();
    MatchNeeds();
    Boundaries();
    assert PATH_2[..1] == PATH_1 && PATH_2[..2] == PATH_2;
    assert !StatesFrom(CONFIG, EVICTED, PATH_2, 1, 2);
    assert StatesFrom(CONFIG, EVICTED, PATH_2, 0, 1);
    assert Usable(CONFIG, EVICTED, PATH_2, 1) == 1;
  }

  lemma OneSegment(s: Segment)
    ensures Concat([s]) == s.pages
  {
    assert [s][..0] == [] && [] + s.pages == s.pages;
  }

  lemma MatchState(segs: map<Path, Segment>, g: Group)
    requires g == STATE_GROUP && PATH_1 in segs && segs[PATH_1] == Segment([11], 0)
    ensures Concat(Span(segs, PATH_2, 0, 1, 1)) == [11] && SpanBase(segs, PATH_2, 0, 1, g) == 0
  {
    Boundaries();
    assert PATH_2[..1] == PATH_1;
    assert Span(segs, PATH_2, 0, 0, 1) == [];
    assert Span(segs, PATH_2, 0, 1, 1) == [] + [Segment([11], 0)] == [Segment([11], 0)];
    OneSegment(Segment([11], 0));
  }

  lemma MatchHistory(segs: map<Path, Segment>, g: Group)
    requires g == HISTORY_GROUP && PATH_1 in segs && segs[PATH_1] == Segment([21], 0)
    ensures Concat(ChainOf(segs, PATH_2, 1, 1)) == [21] && SpanBase(segs, PATH_2, 0, 1, g) == 0
  {
    Boundaries();
    assert PATH_2[..1] == PATH_1;
    assert ChainOf(segs, PATH_2, 0, 1) == [];
    assert ChainOf(segs, PATH_2, 1, 1) == [] + [Segment([21], 0)] == [Segment([21], 0)];
    OneSegment(Segment([21], 0));
  }

  lemma MatchFirst()
    ensures ConfigOk(CONFIG) && PlainHit(CONFIG, EVICTED, PATH_2, 1, 0) == ([11], 0)
  {
    Configured();
    MatchNeeds();
    MatchState(STATE_ONE, STATE_GROUP);
    assert EVICTED.cols[0] == EVICTED_STATE && CONFIG.groups[0] == STATE_GROUP;
  }

  lemma MatchSecond()
    ensures ConfigOk(CONFIG) && PlainHit(CONFIG, EVICTED, PATH_2, 1, 1) == ([21], 0)
  {
    Configured();
    MatchHistory(HISTORY_TWO, HISTORY_GROUP);
    assert EVICTED.cols[1] == LEFT_HISTORY && CONFIG.groups[1] == HISTORY_GROUP;
  }

  /** A hit over two groups is what it offers each. */
  lemma FoundBoth(c: Config, a: Adjunct, p: Path, k: nat, hit0: (seq<nat>, nat), hit1: (seq<nat>, nat))
    requires ConfigOk(c) && |a.cols| == |c.groups| == 2
    requires PlainHit(c, a, p, k, 0) == hit0 && PlainHit(c, a, p, k, 1) == hit1
    ensures PlainFound(c, a, p, k) == Found(Boundary(k, c.align), [hit0.0, hit1.0], [hit0.1, hit1.1])
  {
    var f := PlainFound(c, a, p, k);
    assert |f.ids| == 2 && |f.bases| == 2;
    assert f.ids == [hit0.0, hit1.0];
    assert f.bases == [hit0.1, hit1.1];
  }

  lemma MatchFinds()
    ensures ConfigOk(CONFIG) && PlainFound(CONFIG, EVICTED, PATH_2, 1) == HIT
  {
    MatchFirst();
    MatchSecond();
    Boundaries();
    FoundBoth(CONFIG, EVICTED, PATH_2, 1, ([11], 0), ([21], 0));
  }

  lemma Rematched()
    ensures Does(EVICTED, Find(2, PATH_2), REMATCHED)
  {
    ShapeIs(EVICTED, EVICTED_STATE, LEFT_HISTORY);
    MatchWalk();
    MatchStates();
    MatchUsable();
    MatchFinds();
    Boundaries();
    assert PATH_2[..1] == PATH_1 && PATH_2[..2] == PATH_2;
    assert Augmented(CONFIG, EVICTED, PATH_2) == HIT;
    FoundIs(EVICTED, 2, PATH_2, HIT, PATH_1, REMATCHED);
    DoesIs(EVICTED, Find(2, PATH_2), REMATCHED);
  }

  // ---------------------------------------------------------------- it acquires three tokens

  lemma RegrowTrim(imported: Table, t: Table)
    requires imported == Table(0, [11], [], 1, 1) && t == Table(1, [], [], 1, 1)
    ensures Below(imported, 1) == 1 && Released(imported, 1) == t && FrontOwned(imported, 1) == []
  {
    assert imported.borrowed[1..] == [] && imported.owned[0..] == [] && imported.owned[..0] == [];
  }

  lemma RegrowState(col: Column, col': Column)
    requires col == Column([13, 12], map[], map[PATH_1 := Segment([11], 0)])
    requires col' == Column([], map[2 := Table(1, [], [12, 13], 3, 1)], map[PATH_1 := Segment([11], 0)])
    ensures Renews(col, 2, Imported([11], 0, 1), 1, 3, STATE_GROUP, col')
  {
    Unit(STATE_GROUP);
    var imported, t := Imported([11], 0, 1), Table(1, [], [], 1, 1);
    var put := Put(Dropped(col, 2), 2, imported);
    RegrowTrim(imported, t);
    assert [] + [12, 13] == [12, 13] && col.free[..0] == [] && put.tables[2] == imported;
    assert col'.tables == put.tables[2 := Table(1, [], [12, 13], 3, 1)];
    GrowIs(put, 2, 1, 3, STATE_GROUP, 1, t, 12, 13, col');
    assert RenewsBy(col, 2, imported, 1, 3, STATE_GROUP, col', put);
  }

  lemma RegrowHistory(col: Column, segs: map<Path, Segment>, col': Column)
    requires col == Column([25, 24], map[], segs) && col' == Column([], map[2 := Table(0, [21], [24, 25], 3, 1)], segs)
    ensures Renews(col, 2, Imported([21], 0, 1), 1, 3, HISTORY_GROUP, col')
  {
    Unit(HISTORY_GROUP);
    var imported := Imported([21], 0, 1);
    var put := Put(Dropped(col, 2), 2, imported);
    assert imported.borrowed[0..] == [21] && Below(imported, 0) == 0 && FrontOwned(imported, 0) == [] && Released(imported, 0) == imported;
    assert [] + [24, 25] == [24, 25] && col.free[..0] == [] && put.tables[2] == imported;
    assert col'.tables == put.tables[2 := Table(0, [21], [24, 25], 3, 1)];
    GrowIs(put, 2, 1, 3, HISTORY_GROUP, 0, imported, 24, 25, col');
    assert RenewsBy(col, 2, imported, 1, 3, HISTORY_GROUP, col', put);
  }

  lemma RenewBoth()
    ensures Renews(EVICTED_STATE, 2, Starting(HIT, 0), 1, 3, STATE_GROUP, STATE_COLUMN)
    ensures Renews(LEFT_HISTORY, 2, Starting(HIT, 1), 1, 3, HISTORY_GROUP, HISTORY_COLUMN)
  {
    RegrowState(EVICTED_STATE, STATE_COLUMN);
    RegrowHistory(LEFT_HISTORY, HISTORY_TWO, HISTORY_COLUMN);
    assert Starting(HIT, 0) == Imported([11], 0, 1) && Starting(HIT, 1) == Imported([21], 0, 1);
  }

  lemma HitGone()
    ensures 2 in REMATCHED.hits && REMATCHED.hits[2] == HIT && REMATCHED.hits - {2} == map[]
  {
  }

  lemma Reobtained()
    ensures Does(REMATCHED, Obtain(2, 1, 3), REOBTAINED)
  {
    ShapeIs(REMATCHED, EVICTED_STATE, LEFT_HISTORY);
    RenewBoth();
    RenewAll(REMATCHED, 2, HIT, 1, 3, EVICTED_STATE, LEFT_HISTORY, STATE_COLUMN, HISTORY_COLUMN);
    HitGone();
    DoesIs(REMATCHED, Obtain(2, 1, 3), REOBTAINED);
  }

  lemma MovedAgain()
    ensures Does(REOBTAINED, Advance(2, PATH_2), BEFORE)
  {
    ShapeIs(REOBTAINED, STATE_COLUMN, HISTORY_COLUMN);
    assert PATH_1 <= PATH_2 && REOBTAINED.pins[2 := PATH_2] == map[2 := PATH_2];
    DoesIs(REOBTAINED, Advance(2, PATH_2), BEFORE);
  }

  // ---------------------------------------------------------------- the whole run

  const OPS := [Reshape(NODES), Find(1, []), Obtain(1, 0, 2), Advance(1, PATH_2), CommitChunk(1), Release(1), Unlock(1), EvictState(PATH_2),
                Find(2, PATH_2), Obtain(2, 1, 3), Advance(2, PATH_2), CommitChunk(2), Advance(2, PATH_3), CommitChunk(2)]

  lemma Begins()
    ensures Reached(OPS, 0, Start(FREES))
  {
    Configured();
    assert ReachedBy(OPS, 0, Start(FREES), OPS[..0]);
  }

  /** Two operations more. */
  lemma TwoFurther(ops: seq<CacheOp>, k: nat, b: Adjunct, op: CacheOp, m: Adjunct, op': CacheOp, a: Adjunct)
    requires k + 1 < |ops| && op == ops[k] && op' == ops[k + 1] && Reached(ops, k, b) && Does(b, op, m) && Does(m, op', a)
    ensures Reached(ops, k + 2, a)
  {
    Further(ops, k, op, b, m);
    Further(ops, k + 1, op', m, a);
  }

  lemma ReachesMatched()
    ensures Reached(OPS, 2, MATCHED)
  {
    Begins();
    Begun();
    TwoFurther(OPS, 0, Start(FREES), Reshape(NODES), EMPTY, Find(1, []), MATCHED);
  }

  lemma ReachesCommitting()
    ensures Reached(OPS, 4, COMMITTING)
  {
    ReachesMatched();
    Obtained();
    FirstMoved();
    TwoFurther(OPS, 2, MATCHED, Obtain(1, 0, 2), OBTAINED, Advance(1, PATH_2), COMMITTING);
  }

  lemma ReachesReleased()
    ensures Reached(OPS, 6, RELEASED)
  {
    ReachesCommitting();
    FirstRequestCommits();
    ReleasedUnlocked();
    TwoFurther(OPS, 4, COMMITTING, CommitChunk(1), COMMITTED, Release(1), RELEASED);
  }

  lemma ReachesEvicted()
    ensures Reached(OPS, 8, EVICTED)
  {
    ReachesReleased();
    ReleasedUnlocked();
    StateEvicted();
    TwoFurther(OPS, 6, RELEASED, Unlock(1), LEFT, EvictState(PATH_2), EVICTED);
  }

  lemma ReachesObtained()
    ensures Reached(OPS, 10, REOBTAINED)
  {
    ReachesEvicted();
    Rematched();
    Reobtained();
    TwoFurther(OPS, 8, EVICTED, Find(2, PATH_2), REMATCHED, Obtain(2, 1, 3), REOBTAINED);
  }

  lemma CommitsOnce()
    ensures Does(BEFORE, CommitChunk(2), MID)
  {
    ShapeIs(BEFORE, STATE_COLUMN, HISTORY_COLUMN);
    FirstCommit();
    DoesIs(BEFORE, CommitChunk(2), MID);
  }

  lemma MovesOn()
    ensures Does(MID, Advance(2, PATH_3), NEXT)
  {
    ShapeIs(MID, STATE_MID, HISTORY_COLUMN);
    assert PATH_2 <= PATH_3 && MID.pins[2 := PATH_3] == map[2 := PATH_3];
    DoesIs(MID, Advance(2, PATH_3), NEXT);
  }

  lemma CommitsAgain()
    ensures Does(NEXT, CommitChunk(2), END)
  {
    ShapeIs(NEXT, STATE_MID, HISTORY_COLUMN);
    SecondCommit();
    DoesIs(NEXT, CommitChunk(2), END);
  }

  lemma ReachesMid()
    ensures Reached(OPS, 12, MID)
  {
    ReachesObtained();
    MovedAgain();
    CommitsOnce();
    TwoFurther(OPS, 10, REOBTAINED, Advance(2, PATH_2), BEFORE, CommitChunk(2), MID);
  }

  lemma ReachesEnd()
    ensures Reached(OPS, 14, END)
  {
    ReachesMid();
    MovesOn();
    CommitsAgain();
    TwoFurther(OPS, 12, MID, Advance(2, PATH_3), NEXT, CommitChunk(2), END);
  }

  /** With a state group first, a run of fourteen operations from nothing but free pages ends where a prefix hit has more pages
      than the prefix. */
  lemma RunBreaks()
    ensures ConfigOk(CONFIG) && !Tracked(CONFIG, 0) && RunsTo(CONFIG, FREES, OPS, END)
    ensures |END.cols| == |CONFIG.groups| && Augmented(CONFIG, END, PATH_3).tokens == 3 && |Augmented(CONFIG, END, PATH_3).ids| == 2
    ensures |Augmented(CONFIG, END, PATH_3).ids[1]| * PageTokens(HISTORY_GROUP) != 3
  {
    ReachesEnd();
    var front: seq<CacheOp> :| ReachedBy(OPS, 14, END, front);
    assert OPS[..14] == OPS;
    StateFirstBreaks();
  }
}
