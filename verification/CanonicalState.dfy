/** When the first required group is a state group: two commits of one request, and a hit whose pages are not the prefix's. */
module CanonicalState {
  import opened Prelude
  import opened PagedCacheTable
  import opened Snapshots
  import opened CommitSteps
  import opened SnapshotColumns
  import opened SnapshotPaths
  import opened SnapshotTree
  import opened SnapshotRuns
  import opened CacheRuns

  const STATE_GROUP := Group(1, 1, Some(1), false)
  const HISTORY_GROUP := Group(1, 1, None, true)
  const CONFIG := Config([STATE_GROUP, HISTORY_GROUP], 2, 1, 1, [0])
  const PATH_1: Path := [7]
  const PATH_2: Path := [7, 7]
  const PATH_3: Path := [7, 7, 7]

  /** Pages of one token each. */
  lemma Unit(g: Group)
    requires g == STATE_GROUP || g == HISTORY_GROUP
    ensures GroupOk(g) && PageTokens(g) == 1
    ensures forall x: nat {:trigger EndPage(x, g)} :: EndPage(x, g) == x
    ensures forall x: nat {:trigger PagesNeeded(x, g)} :: PagesNeeded(x, g) == x
    ensures forall x: nat, w: nat {:trigger LivePage(x, w, g)} :: LivePage(x, w, g) == Sub(x, w)
  {
    forall x: nat ensures x / 1 == x { DivUnique(x, 1, x, 0); }
    forall x: nat ensures PagesNeeded(x, g) == x {
      PagesNeededIsCeil(x, g);
      CeilDivUnique(x, 1, x);
    }
  }

  lemma Boundaries()
    ensures Boundary(0, 1) == 0 && Boundary(1, 1) == 1 && Boundary(2, 1) == 2 && Boundary(3, 1) == 3
  {
    assert Boundary(1, 1) == Boundary(0, 1) + 1 && Boundary(2, 1) == Boundary(1, 1) + 1 && Boundary(3, 1) == Boundary(2, 1) + 1;
  }

  lemma Configured()
    ensures ConfigOk(CONFIG) && Tracked(CONFIG, 1) && !Tracked(CONFIG, 0)
  {
    Unit(STATE_GROUP);
    Unit(HISTORY_GROUP);
    assert CONFIG.groups[0] == STATE_GROUP && CONFIG.groups[1] == HISTORY_GROUP && CONFIG.states[0] == 0;
  }

  /** The request was matched to one token and has acquired three. Another one has left snapshots at one and two tokens; the
      state of the second has been evicted. */
  const STATE_COLUMN := Column([], map[2 := Table(1, [], [12, 13], 3, 1)], map[PATH_1 := Segment([11], 0)])
  const HISTORY_COLUMN := Column([], map[2 := Table(0, [21], [24, 25], 3, 1)], map[PATH_1 := Segment([21], 0), PATH_2 := Segment([22], 1)])
  const BEFORE := Adjunct({PATH_1, PATH_2, PATH_3}, {PATH_1, PATH_2}, [STATE_COLUMN, HISTORY_COLUMN], map[2 := PATH_2], map[])

  /** The continuation snapshot puts the state group ahead. */
  const STATE_MID := Column([], map[2 := Table(1, [12], [13], 3, 2)], map[PATH_1 := Segment([11], 0), PATH_2 := Segment([12], 1)])
  const MID := Adjunct({PATH_1, PATH_2, PATH_3}, {PATH_1, PATH_2}, [STATE_MID, HISTORY_COLUMN], map[2 := PATH_2], map[])

  /** The next commit lays down two steps of history at once. */
  const STATE_END := Column([], map[2 := Table(2, [13], [], 3, 3)],
      map[PATH_1 := Segment([11], 0), PATH_2 := Segment([12], 1), PATH_3 := Segment([13], 2)])
  const HISTORY_END := Column([], map[2 := Table(0, [21, 24, 25], [], 3, 3)],
      map[PATH_1 := Segment([21], 0), PATH_2 := Segment([22], 1), PATH_3 := Segment([24, 25], 1)])
  const END := Adjunct({PATH_1, PATH_2, PATH_3}, {PATH_1, PATH_2, PATH_3}, [STATE_END, HISTORY_END], map[2 := PATH_3], map[])

  // ---------------------------------------------------------------- the first commit

  lemma FirstPreflight()
    ensures ConfigOk(CONFIG) && Has(CONFIG, BEFORE, 2) && SplitAt(BEFORE.nodes, BEFORE.snaps, PATH_2, 2, 1) == Some(BEFORE.nodes)
    ensures PATH_2[..2] == PATH_2 && PATH_2 in BEFORE.snaps && !Complete(CONFIG, BEFORE, PATH_2)
  {
    Configured();
    assert BEFORE.cols[0] == STATE_COLUMN && BEFORE.cols[1] == HISTORY_COLUMN;
    assert PATH_2[..2] == PATH_2 && PATH_2 != PATH_1;
    assert NodeEnd(BEFORE.nodes, PATH_2, 2) == Some(2);
  }

  lemma FirstSteps()
    ensures ConfigOk(CONFIG) && Has(CONFIG, BEFORE, 2) && StepsFrom(CONFIG, BEFORE, 2, 1) == Went(BEFORE)
  {
    FirstPreflight();
    StepsUnfold(CONFIG, BEFORE, 2, 1, StepTo(CONFIG, BEFORE, 2, 2));
  }
  /** A checkpoint of the state group one token further on. */
  lemma Checkpointing(t: Table, target: nat)
    requires t.committed + 1 == target <= t.cursor && target >= 1
    ensures GroupOk(STATE_GROUP) && SpansWindow(t, target, STATE_GROUP) <==> t.base <= target - 1 && End(t) >= target
    ensures StepLegal(t, Lay, 1, STATE_GROUP)
    ensures StepTable(t, Lay, 1, STATE_GROUP) == Checkpointed(t, target, 1, STATE_GROUP)
        && StepBack(t, Lay, 1, STATE_GROUP) == FrontOwned(t, Below(t, target - 1))
    ensures Leaves(t, 1, STATE_GROUP) == LeftBehind(t, target, 1, STATE_GROUP)
  {
    Unit(STATE_GROUP);
    OneToken(target);
    assert LivePage(target, 1, STATE_GROUP) == target - 1;
  }

  lemma OneToken(x: nat)
    ensures x % 1 == 0 && x / 1 == x
  {
  }

  lemma CheckpointIs(t: Table, target: nat, t1: Table, len: nat)
    requires target >= 1 && t1 == DropFront(t, Below(t, target - 1)) && len == SegmentLen(t1, target)
    ensures GroupOk(STATE_GROUP) && Checkpointed(t, target, 1, STATE_GROUP) == Lend(t1, len, target)
    ensures LeftBehind(t, target, 1, STATE_GROUP) == Segment(t1.owned[..len], t1.base + |t1.borrowed|)
  {
    Unit(STATE_GROUP);
    assert LivePage(target, 1, STATE_GROUP) == target - 1 && EndPage(target, STATE_GROUP) == target;
    CheckpointParts(t, target, 1, STATE_GROUP, t1, len);
  }

  lemma FirstTrim(t: Table)
    requires t == Table(1, [], [12, 13], 3, 1)
    ensures Below(t, 1) == 0 && DropFront(t, 0) == t && FrontOwned(t, 0) == [] && SegmentLen(t, 2) == 1
    ensures Lend(t, 1, 2) == Table(1, [12], [13], 3, 2) && t.owned[..1] == [12]
  {
    assert t.owned[..1] == [12] && t.owned[1..] == [13];
  }

  lemma FirstChecked(t: Table)
    requires t == Table(1, [], [12, 13], 3, 1)
    ensures GroupOk(STATE_GROUP) && SpansWindow(t, 2, STATE_GROUP) && StepLegal(t, Lay, 1, STATE_GROUP)
    ensures StepTable(t, Lay, 1, STATE_GROUP) == Table(1, [12], [13], 3, 2) && StepBack(t, Lay, 1, STATE_GROUP) == []
        && Leaves(t, 1, STATE_GROUP) == Segment([12], 1)
  {
    Checkpointing(t, 2);
    FirstTrim(t);
    CheckpointIs(t, 2, t, 1);
  }

  lemma LaysTo(col: Column, id: Id, q: Path, width: nat, g: Group, t: Table, s: Segment, col': Column)
    requires GroupOk(g) && id in col.tables && StepLegal(col.tables[id], Lay, width, g)
    requires StepTable(col.tables[id], Lay, width, g) == t && StepBack(col.tables[id], Lay, width, g) == []
        && Leaves(col.tables[id], width, g) == s
    requires col'.free == col.free && col'.tables == col.tables[id := t] && col'.segs == col.segs[q := s]
    ensures LayColumn(col, id, q, width, g) == col'
  {
    assert col.free + [] == col.free;
  }

  lemma First(col: Column, col': Column)
    requires 2 in col.tables && col.tables[2] == Table(1, [], [12, 13], 3, 1) && col'.free == col.free
    requires col'.tables == col.tables[2 := Table(1, [12], [13], 3, 2)] && col'.segs == col.segs[PATH_2 := Segment([12], 1)]
    ensures GroupOk(STATE_GROUP) && SpansWindow(col.tables[2], 2, STATE_GROUP) && StepLegal(col.tables[2], Lay, 1, STATE_GROUP)
        && LayColumn(col, 2, PATH_2, 1, STATE_GROUP) == col'
  {
    FirstChecked(col.tables[2]);
    LaysTo(col, 2, PATH_2, 1, STATE_GROUP, Table(1, [12], [13], 3, 2), Segment([12], 1), col');
  }

  lemma FirstMaps()
    ensures STATE_COLUMN.tables[2] == Table(1, [], [12, 13], 3, 1) && STATE_MID.free == STATE_COLUMN.free
        && STATE_MID.segs[PATH_2].pages == [12]
    ensures STATE_MID.tables == STATE_COLUMN.tables[2 := Table(1, [12], [13], 3, 2)]
        && STATE_MID.segs == STATE_COLUMN.segs[PATH_2 := Segment([12], 1)]
  {
  }

  lemma FirstEnd()
    ensures GroupOk(STATE_GROUP) && 2 in STATE_COLUMN.tables && SpansWindow(STATE_COLUMN.tables[2], |PATH_2|, STATE_GROUP)
        && Checkable(STATE_COLUMN.tables[2], |PATH_2|, STATE_GROUP) && EndColumn(STATE_COLUMN, 2, PATH_2, STATE_GROUP) == (STATE_MID, true)
  {
    FirstMaps();
    First(STATE_COLUMN, STATE_MID);
    EndIs(STATE_COLUMN, 2, PATH_2, 1, STATE_GROUP);
  }

  lemma FirstEnded()
    ensures ConfigOk(CONFIG) && Has(CONFIG, BEFORE, 2) && Ended(CONFIG, BEFORE, 2) == MID
  {
    Configured();
    FirstPreflight();
    FirstEnd();
    assert HistoryComplete(CONFIG, BEFORE, PATH_2);
    assert EndReady(CONFIG, BEFORE, 2, PATH_2);
    assert Missing(BEFORE, 0, PATH_2);
    assert EndFrom(CONFIG, BEFORE, 2, PATH_2, BEFORE.cols, 0) == EndFrom(CONFIG, BEFORE, 2, PATH_2, [STATE_MID, HISTORY_COLUMN], 1) == [STATE_MID, HISTORY_COLUMN];
  }

  /** The first commit: history stays at one token, state goes to two. */
  lemma FirstCommit()
    ensures ConfigOk(CONFIG) && Has(CONFIG, BEFORE, 2) && Committed(CONFIG, BEFORE, 2) == Went(MID)
  {
    FirstSteps();
    FirstEnded();
  }

  // ---------------------------------------------------------------- the second commit

  const NEXT := MID.(pins := map[2 := PATH_3])

  lemma SecondPreflight()
    ensures ConfigOk(CONFIG) && Has(CONFIG, NEXT, 2) && PreflightAll(CONFIG, NEXT, 2, 3) && PATH_3[..3] == PATH_3 && PATH_3 !in NEXT.snaps
    ensures SplitAt(NEXT.nodes, NEXT.snaps, PATH_3, 3, 1) == Some(NEXT.nodes)
  {
    Configured();
    Unit(STATE_GROUP);
    Unit(HISTORY_GROUP);
    assert NEXT.cols[0] == STATE_MID && NEXT.cols[1] == HISTORY_COLUMN && PATH_3 != PATH_1 && PATH_3 != PATH_2;
    assert PATH_3[..3] == PATH_3;
    assert NodeEnd(NEXT.nodes, PATH_3, 3) == Some(3);
    assert CommitCount(HISTORY_COLUMN.tables[2], 3, HISTORY_GROUP) == 2;
    assert Preflight(STATE_MID.tables[2], 3, STATE_GROUP) && Preflight(HISTORY_COLUMN.tables[2], 3, HISTORY_GROUP);
  }

  lemma SecondTrim(t: Table, t1: Table)
    requires t == Table(1, [12], [13], 3, 2) && t1 == Table(2, [], [13], 3, 2)
    ensures Below(t, 2) == 1 && DropFront(t, 1) == t1 && FrontOwned(t, 1) == [] && SegmentLen(t1, 3) == 1
    ensures Lend(t1, 1, 3) == Table(2, [13], [], 3, 3) && t1.owned[..1] == [13]
  {
    assert t1.owned[..1] == [13] && t1.owned[1..] == [] && t.borrowed[1..] == [] && t.owned[0..] == [13];
  }

  lemma SecondChecked(t: Table)
    requires t == Table(1, [12], [13], 3, 2)
    ensures GroupOk(STATE_GROUP) && StepLegal(t, Lay, 1, STATE_GROUP)
    ensures StepTable(t, Lay, 1, STATE_GROUP) == Table(2, [13], [], 3, 3) && StepBack(t, Lay, 1, STATE_GROUP) == []
        && Leaves(t, 1, STATE_GROUP) == Segment([13], 2)
  {
    var t1 := Table(2, [], [13], 3, 2);
    Checkpointing(t, 3);
    SecondTrim(t, t1);
    CheckpointIs(t, 3, t1, 1);
  }

  lemma SecondMaps()
    ensures STATE_MID.tables[2] == Table(1, [12], [13], 3, 2) && STATE_END.free == STATE_MID.free
    ensures STATE_END.tables == STATE_MID.tables[2 := Table(2, [13], [], 3, 3)]
        && STATE_END.segs == STATE_MID.segs[PATH_3 := Segment([13], 2)]
  {
  }

  lemma SecondCheckpoint()
    ensures GroupOk(STATE_GROUP) && StepLegal(STATE_MID.tables[2], Lay, 1, STATE_GROUP)
        && LayColumn(STATE_MID, 2, PATH_3, 1, STATE_GROUP) == STATE_END
  {
    SecondMaps();
    Second(STATE_MID, STATE_END);
  }

  lemma Second(col: Column, col': Column)
    requires 2 in col.tables && col.tables[2] == Table(1, [12], [13], 3, 2) && col'.free == col.free
    requires col'.tables == col.tables[2 := Table(2, [13], [], 3, 3)] && col'.segs == col.segs[PATH_3 := Segment([13], 2)]
    ensures GroupOk(STATE_GROUP) && StepLegal(col.tables[2], Lay, 1, STATE_GROUP) && LayColumn(col, 2, PATH_3, 1, STATE_GROUP) == col'
  {
    SecondChecked(col.tables[2]);
    LaysTo(col, 2, PATH_3, 1, STATE_GROUP, Table(2, [13], [], 3, 3), Segment([13], 2), col');
  }

  /** Two steps in one segment. */
  lemma SecondLend()
    ensures GroupOk(HISTORY_GROUP) && StepLegal(HISTORY_COLUMN.tables[2], Lay, 2, HISTORY_GROUP)
    ensures LayColumn(HISTORY_COLUMN, 2, PATH_3, 2, HISTORY_GROUP) == HISTORY_END && !StepSegment(Segment([24, 25], 1), 2, 1, HISTORY_GROUP)
  {
    Unit(HISTORY_GROUP);
    Boundaries();
    var t := HISTORY_COLUMN.tables[2];
    assert t == Table(0, [21], [24, 25], 3, 1) && CommitCount(t, 3, HISTORY_GROUP) == 2 && EndPage(1, HISTORY_GROUP) == 1;
    assert t.owned[..2] == [24, 25] && t.owned[2..] == [] && [21] + [24, 25] == [21, 24, 25];
    assert StepTable(t, Lay, 2, HISTORY_GROUP) == Table(0, [21, 24, 25], [], 3, 3) && Leaves(t, 2, HISTORY_GROUP) == Segment([24, 25], 1);
    var laid := LayColumn(HISTORY_COLUMN, 2, PATH_3, 2, HISTORY_GROUP);
    assert laid.free == [] && laid.tables == HISTORY_END.tables && laid.segs == HISTORY_END.segs;
  }

  lemma SecondStep()
    ensures ConfigOk(CONFIG) && Has(CONFIG, NEXT, 2) && StepTo(CONFIG, NEXT, 2, 3) == Went(END)
  {
    SecondPreflight();
    SecondCheckpoint();
    SecondLend();
    PreflightLayable(CONFIG, NEXT, 2, 3);
    LaidAt(CONFIG, NEXT, 2, PATH_3, 3, 0);
    LaidAt(CONFIG, NEXT, 2, PATH_3, 3, 1);
    assert LayAll(CONFIG, NEXT, 2, PATH_3, 3) == [STATE_END, HISTORY_END];
  }

  lemma SecondEnded()
    ensures ConfigOk(CONFIG) && Has(CONFIG, END, 2) && Ended(CONFIG, END, 2) == END
  {
    Configured();
    assert END.cols[0] == STATE_END && !Missing(END, 0, PATH_3);
    assert EndFrom(CONFIG, END, 2, PATH_3, END.cols, 0) == EndFrom(CONFIG, END, 2, PATH_3, END.cols, 1) == END.cols;
  }

  lemma SecondCommit()
    ensures ConfigOk(CONFIG) && Has(CONFIG, NEXT, 2) && Committed(CONFIG, NEXT, 2) == Went(END)
  {
    SecondStep();
    StepsUnfold(CONFIG, NEXT, 2, 2, StepTo(CONFIG, NEXT, 2, 3));
    StepsStop(CONFIG, END, 2, 3);
    SecondEnded();
  }
  // ---------------------------------------------------------------- before, the invariant holds

  ghost const POOLS: seq<multiset<nat>> := [multiset{11, 12, 13}, multiset{21, 22, 24, 25}]

  lemma BagOf(col: Column, t: Table)
    requires col.tables == map[2 := t]
    ensures Gather(Owns(col)) == multiset(t.owned)
  {
    var none: map<Id, seq<nat>> := map[];
    assert Owns(col) == none[2 := t.owned];
    GatherAdd(none, 2, t.owned);
  }

  lemma BagOfOne(col: Column, xs: seq<nat>)
    requires Lent(col) == map[PATH_1 := xs]
    ensures Gather(Lent(col)) == multiset(xs)
  {
    var none: map<Path, seq<nat>> := map[];
    assert Lent(col) == none[PATH_1 := xs];
    GatherAdd(none, PATH_1, xs);
  }

  lemma BagOfTwo(col: Column, xs: seq<nat>, ys: seq<nat>)
    requires Lent(col) == map[PATH_1 := xs, PATH_2 := ys]
    ensures Gather(Lent(col)) == multiset(xs) + multiset(ys)
  {
    var one: map<Path, seq<nat>> := map[PATH_1 := xs];
    var none: map<Path, seq<nat>> := map[];
    assert PATH_1 != PATH_2 && one == none[PATH_1 := xs] && Lent(col) == one[PATH_2 := ys];
    GatherAdd(none, PATH_1, xs);
    GatherAdd(one, PATH_2, ys);
  }

  lemma StatePages()
    ensures Pages(STATE_COLUMN) == multiset{11, 12, 13}
  {
    BagOf(STATE_COLUMN, Table(1, [], [12, 13], 3, 1));
    BagOfOne(STATE_COLUMN, [11]);
  }

  lemma HistoryPages()
    ensures Pages(HISTORY_COLUMN) == multiset{21, 22, 24, 25}
  {
    BagOf(HISTORY_COLUMN, Table(0, [21], [24, 25], 3, 1));
    BagOfTwo(HISTORY_COLUMN, [21], [22]);
  }

  lemma BeforeStepping()
    ensures GroupOk(HISTORY_GROUP) && AllStepped(HISTORY_COLUMN.segs, 1, HISTORY_GROUP)
  {
    Unit(HISTORY_GROUP);
    Boundaries();
    assert StepSegment(Segment([21], 0), 0, 1, HISTORY_GROUP) && StepSegment(Segment([22], 1), 1, 1, HISTORY_GROUP);
    assert StepAt(PATH_1, HISTORY_COLUMN.segs[PATH_1], 0, 1, HISTORY_GROUP)
        && StepAt(PATH_2, HISTORY_COLUMN.segs[PATH_2], 1, 1, HISTORY_GROUP);
  }

  lemma BeforeFollows()
    ensures GroupOk(HISTORY_GROUP) && Follows(HISTORY_COLUMN, PATH_2, 2, 1, 1, HISTORY_GROUP)
  {
    Unit(HISTORY_GROUP);
    Boundaries();
    BeforeStepping();
    var chain := [Segment([21], 0)];
    assert PATH_2[..1] == PATH_1;
    assert ChainOf(HISTORY_COLUMN.segs, PATH_2, 0, 1) == [];
    assert ChainOf(HISTORY_COLUMN.segs, PATH_2, 1, 1) == [] + chain == chain && Present(HISTORY_COLUMN.segs, PATH_2, 1, 1);
    ChainSteps(HISTORY_COLUMN.segs, PATH_2, 1, 1, HISTORY_GROUP);
    assert chain[..0] == [] && Concat(chain) == [21] && [21][0..] == [21];
    assert Aligned(1, HISTORY_GROUP) && Rides(Table(0, [21], [24, 25], 3, 1), chain, 1, HISTORY_GROUP);
    FollowsIs(HISTORY_COLUMN, PATH_2, 2, 1, 1, HISTORY_GROUP, Table(0, [21], [24, 25], 3, 1), HISTORY_COLUMN.segs);
  }

  lemma BeforeShape()
    ensures Shape(CONFIG, BEFORE) && Stepping(CONFIG, BEFORE)
  {
    Configured();
    BeforeStepping();
    assert BEFORE.cols[0] == STATE_COLUMN && BEFORE.cols[1] == HISTORY_COLUMN;
    assert STATE_COLUMN.segs.Keys == {PATH_1} && HISTORY_COLUMN.segs.Keys == {PATH_1, PATH_2};
  }

  lemma BeforeConserved()
    ensures Conserved(BEFORE, POOLS)
  {
    StatePages();
    HistoryPages();
    Two(BEFORE, STATE_COLUMN, HISTORY_COLUMN, multiset{11, 12, 13}, multiset{21, 22, 24, 25});
  }

  lemma Two(a: Adjunct, col0: Column, col1: Column, bag0: multiset<nat>, bag1: multiset<nat>)
    requires a.cols == [col0, col1] && Pages(col0) == bag0 && Pages(col1) == bag1
    ensures Conserved(a, [bag0, bag1])
  {
  }

  lemma BeforeLive()
    ensures ConfigOk(CONFIG) && |BEFORE.cols| == |CONFIG.groups| && LiveOk(CONFIG, BEFORE, 2)
  {
    Configured();
    Boundaries();
    BeforeFollows();
    assert BEFORE.cols[0] == STATE_COLUMN && BEFORE.cols[1] == HISTORY_COLUMN;
    assert FollowsAt(CONFIG, BEFORE, 2, 1);
    assert PATH_1 <= PATH_2 && PATH_1 in HISTORY_COLUMN.segs && HISTORY_COLUMN.segs[PATH_1].pages == [21];
    assert OnPath(HISTORY_COLUMN.segs, PATH_2, 21);
  }

  /** Every request follows its path, every history segment is a whole step, and no page is lost. */
  lemma BeforeInv()
    ensures Inv(CONFIG, BEFORE, POOLS) && Serving(BEFORE, 2)
  {
    BeforeShape();
    BeforeConserved();
    BeforeLive();
    forall id: Id ensures RequestOk(CONFIG, BEFORE, id) { }
  }

  // ---------------------------------------------------------------- afterwards, a hit is wrong

  lemma EndChains()
    ensures ChainOf(STATE_END.segs, PATH_3, 3, 1) == [Segment([11], 0), Segment([12], 1), Segment([13], 2)]
    ensures ChainOf(HISTORY_END.segs, PATH_3, 3, 1) == [Segment([21], 0), Segment([22], 1), Segment([24, 25], 1)]
  {
    Boundaries();
    assert PATH_3[..1] == PATH_1 && PATH_3[..2] == PATH_2 && PATH_3[..3] == PATH_3;
    EndChain(STATE_END.segs, Segment([11], 0), Segment([12], 1), Segment([13], 2));
    EndChain(HISTORY_END.segs, Segment([21], 0), Segment([22], 1), Segment([24, 25], 1));
  }

  lemma EndChain(segs: map<Path, Segment>, s1: Segment, s2: Segment, s3: Segment)
    requires PATH_1 in segs && PATH_2 in segs && PATH_3 in segs && segs[PATH_1] == s1 && segs[PATH_2] == s2 && segs[PATH_3] == s3
    ensures ChainOf(segs, PATH_3, 3, 1) == [s1, s2, s3]
  {
    Boundaries();
    assert PATH_3[..1] == PATH_1 && PATH_3[..2] == PATH_2 && PATH_3[..3] == PATH_3;
    assert ChainOf(segs, PATH_3, 0, 1) == [];
    assert ChainOf(segs, PATH_3, 1, 1) == [s1];
    assert ChainOf(segs, PATH_3, 2, 1) == [s1] + [s2] == [s1, s2];
    assert ChainOf(segs, PATH_3, 3, 1) == [s1, s2] + [s3] == [s1, s2, s3];
  }

  lemma EndIds()
    ensures Concat([Segment([21], 0), Segment([22], 1), Segment([24, 25], 1)]) == [21, 22, 24, 25]
  {
    var a, b, c := Segment([21], 0), Segment([22], 1), Segment([24, 25], 1);
    assert [a][..0] == [] && [a, b][..1] == [a] && [a, b, c][..2] == [a, b];
    assert Concat([a]) == [21] && Concat([a, b]) == [21] + [22] && Concat([a, b, c]) == [21, 22] + [24, 25];
  }

  lemma EndState()
    ensures GroupOk(STATE_GROUP) && StateIds([Segment([11], 0), Segment([12], 1), Segment([13], 2)], 3, STATE_GROUP) == Some([13])
  {
    Unit(STATE_GROUP);
    OneToken(3);
    OneToken(1);
    var chain := [Segment([11], 0), Segment([12], 1), Segment([13], 2)];
    assert LivePage(3, 1, STATE_GROUP) == 2 && EndPage(3, STATE_GROUP) == 3;
    assert Scan(chain, 3, 2, 3, [13], 3) == More([13], 3);
    assert Absorb(chain[2], 2, 3, [], 2) == More([13], 3) by { assert [13][0..1] == [13]; }
    assert Scan(chain, 2, 2, 3, [], 2) == More([13], 3);
    assert Scan(chain, 1, 2, 3, [], 2) == More([13], 3);
    assert Scan(chain, 0, 2, 3, [], 2) == More([13], 3);
  }

  lemma EndWalk()
    ensures ConfigOk(CONFIG) && |END.cols| == |CONFIG.groups| && Walk(CONFIG, END, PATH_3, 0) == 3
  {
    Configured();
    Boundaries();
    assert Boundary(4, 1) == Boundary(3, 1) + 1;
    assert PATH_3[..1] == PATH_1 && PATH_3[..2] == PATH_2 && PATH_3[..3] == PATH_3;
    assert END.cols[0] == STATE_END && END.cols[1] == HISTORY_END;
    assert Walk(CONFIG, END, PATH_3, 3) == 3;
    assert Walk(CONFIG, END, PATH_3, 2) == 3;
    assert Walk(CONFIG, END, PATH_3, 1) == 3;
  }

  /** Three tokens are hit with four pages: the page of the last token is not the one the request stored it in. */
  lemma WrongHit()
    ensures ConfigOk(CONFIG) && |END.cols| == |CONFIG.groups|
    ensures var f := Augmented(CONFIG, END, PATH_3);
            && f.tokens == 3 && |f.ids| == 2 && f.ids[1] == [21, 22, 24, 25] && f.bases[1] == 0
            && Phys(Imported(f.ids[1], 0, 3), 2) == Some(24) && Phys(HISTORY_END.tables[2], 2) == Some(25)
  {
    EndWalk();
    EndChains();
    EndIds();
    EndState();
    Boundaries();
    assert PATH_3[..3] == PATH_3 && END.cols[0] == STATE_END && END.cols[1] == HISTORY_END && CONFIG.groups[0] == STATE_GROUP
        && CONFIG.groups[1] == HISTORY_GROUP;
    assert ContinuationComplete(CONFIG, END, PATH_3);
    assert Continues(CONFIG, END, PATH_3, 3);
    assert HISTORY_END.tables[2] == Table(0, [21, 24, 25], [], 3, 3);
  }

  /** With a state group first, two commits of one request take a state in which everything is as it should be to one in which
      a prefix hit has wrong pages. */
  lemma StateFirstBreaks()
    ensures ConfigOk(CONFIG) && !Tracked(CONFIG, 0) && Inv(CONFIG, BEFORE, POOLS) && Serving(BEFORE, 2)
    ensures Has(CONFIG, BEFORE, 2) && Committed(CONFIG, BEFORE, 2) == Went(MID) && BEFORE.pins[2] <= PATH_3
    ensures Has(CONFIG, MID.(pins := map[2 := PATH_3]), 2) && Committed(CONFIG, MID.(pins := map[2 := PATH_3]), 2) == Went(END)
    ensures |END.cols| == |CONFIG.groups| && Augmented(CONFIG, END, PATH_3).tokens == 3 && |Augmented(CONFIG, END, PATH_3).ids| == 2
    ensures |Augmented(CONFIG, END, PATH_3).ids[1]| * PageTokens(HISTORY_GROUP) != 3
  {
    Configured();
    BeforeInv();
    FirstCommit();
    SecondCommit();
    WrongHit();
    Unit(HISTORY_GROUP);
  }
}
