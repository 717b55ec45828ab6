/** What schedulers do with the snapshot tree, in any order: match and lock a prefix, acquire pages, commit, move on, rewind,
    release, unlock, and evict the snapshots of unlocked nodes. */
module CacheRuns {
  import opened Prelude
  import opened PagePool
  import opened PagedCacheTable
  import opened Snapshots
  import opened CommitSteps
  import opened SnapshotColumns
  import opened SnapshotPaths
  import opened SnapshotTree
  import opened SnapshotRuns

  datatype CacheOp =
    | Find(id: Id, path: Path)
    | Obtain(id: Id, first: int, target: nat)
    | Advance(id: Id, path: Path)
    | CommitChunk(id: Id)
    | RewindAll(id: Id, tokens: nat)
    | Release(id: Id)
    | Unlock(id: Id)
    | Evict(q: Path)
    | EvictState(q: Path)
    | Reshape(nodes: set<Path>)

  // ---------------------------------------------------------------- acquiring pages

  /** The table a request starts with: a hit's pages, if it has any for the group. */
  function Starting(f: Found, i: nat): Table {
    if f.tokens > 0 && i < |f.ids| && i < |f.bases| && f.ids[i] != [] then Imported(f.ids[i], f.bases[i], f.tokens) else FRESH
  }

  function Renewed(col: Column, id: Id, f: Found, i: nat): Column {
    Put(Dropped(col, id), id, Starting(f, i))
  }

  /** Drop what the window has left behind, then grow; none if the pool runs out. */
  function Grow(col: Column, id: Id, first: int, target: nat, g: Group): Option<Column>
    requires GroupOk(g) && id in col.tables
  {
    Fill(Slid(col, id, SkipPage(LowerBound(first, g), g)), id, target, g)
  }

  function Fill(col: Column, id: Id, target: nat, g: Group): Option<Column>
    requires GroupOk(g) && id in col.tables
  {
    var t := col.tables[id];
    var need := NeedFor(t, target, g);
    if target <= t.cursor then Some(col)
    else if need > |col.free| then None
    else
      var rest := |col.free| - need;
      Some(Column(col.free[..rest], col.tables[id := Grown(t, target, Reversed(col.free[rest..]))], col.segs))
  }

  /** The column to grow: with a fresh table if the request has just been matched. */
  function Ready(a: Adjunct, id: Id, i: nat): Column
    requires i < |a.cols|
  {
    if id in a.hits then Renewed(a.cols[i], id, a.hits[id], i) else a.cols[i]
  }

  function ObtainAt(c: Config, a: Adjunct, id: Id, first: int, target: nat, i: nat): Option<Column>
    requires ConfigOk(c) && |a.cols| == |c.groups| && i < |a.cols| && (id in a.hits || id in a.cols[i].tables)
  {
    Grow(Ready(a, id, i), id, first, target, c.groups[i])
  }

  predicate Affords(c: Config, a: Adjunct, id: Id, first: int, target: nat)
    requires ConfigOk(c) && |a.cols| == |c.groups| && (id in a.hits || Has(c, a, id))
  {
    forall i {:trigger ObtainAt(c, a, id, first, target, i)} :: 0 <= i < |a.cols| ==> ObtainAt(c, a, id, first, target, i).Some?
  }

  function ObtainAll(c: Config, a: Adjunct, id: Id, first: int, target: nat): seq<Column>
    requires ConfigOk(c) && |a.cols| == |c.groups| && (id in a.hits || Has(c, a, id)) && Affords(c, a, id, first, target)
  {
    seq(|a.cols|, i requires 0 <= i < |a.cols| && (id in a.hits || id in a.cols[i].tables) && ObtainAt(c, a, id, first, target, i).Some? =>
      ObtainAt(c, a, id, first, target, i).value)
  }

  // ---------------------------------------------------------------- one operation

  function RewindAt(c: Config, a: Adjunct, id: Id, tokens: nat, i: nat): Column
    requires ConfigOk(c) && |a.cols| == |c.groups| && i < |a.cols|
  {
    if id in a.cols[i].tables then Rewinding(a.cols[i], id, tokens, c.groups[i]) else a.cols[i]
  }

  /** Whether any group is left in a node's snapshot without its state groups. */
  predicate Bare(c: Config, a: Adjunct, q: Path)
    requires |a.cols| == |c.groups|
  {
    forall i {:trigger a.cols[i]} :: 0 <= i < |a.cols| && c.groups[i].history ==> q !in a.cols[i].segs
  }

  function Next(c: Config, a: Adjunct, op: CacheOp): Progress
    requires Shape(c, a)
  {
    match op
    case Find(id, path) =>
      var f := Augmented(c, a, path);
      if f.tokens > |path| then Threw else Went(a.(pins := a.pins[id := path[..f.tokens]], hits := a.hits[id := f]))
    case Obtain(id, first, target) =>
      if !(id in a.hits || id in a.cols[0].tables) then Threw
      else if !Affords(c, a, id, first, target) then Threw
      else Went(a.(cols := ObtainAll(c, a, id, first, target), hits := a.hits - {id}))
    case Advance(id, path) => Went(a.(pins := a.pins[id := path]))
    case CommitChunk(id) => Committed(c, a, id)
    case RewindAll(id, tokens) => Went(a.(cols := seq(|a.cols|, i requires 0 <= i < |a.cols| => RewindAt(c, a, id, tokens, i))))
    case Release(id) => Went(a.(cols := seq(|a.cols|, i requires 0 <= i < |a.cols| => Dropped(a.cols[i], id))))
    case Unlock(id) => Went(a.(pins := a.pins - {id}, hits := a.hits - {id}))
    case Evict(q) => Went(a.(cols := seq(|a.cols|, i requires 0 <= i < |a.cols| => Shed(a.cols[i], q)), snaps := a.snaps - {q}))
    case EvictState(q) =>
      Went(a.(cols := seq(|a.cols|, i requires 0 <= i < |a.cols| => if c.groups[i].history then a.cols[i] else Shed(a.cols[i], q)),
              snaps := if Bare(c, a, q) then a.snaps - {q} else a.snaps))
    case Reshape(nodes) => Went(a.(nodes := nodes))
  }

  /** What is true of operations when they are called: a request is matched while it holds no node, its node only moves down its
      own path, it commits with the tables it goes on with, and only snapshots that no request holds are evicted. */
  ghost predicate OpLegal(a: Adjunct, op: CacheOp)
    requires |a.cols| > 0
  {
    match op
    case Find(id, _) => id !in a.pins
    case Obtain(id, _, _) => id in a.pins && (id in a.hits || id in a.cols[0].tables)
    case Advance(id, path) => id in a.pins && id !in a.hits && a.pins[id] <= path
    case CommitChunk(id) => Serving(a, id) || id !in a.cols[0].tables
    case Evict(q) => Unheld(a, q)
    case EvictState(q) => Unheld(a, q)
    case _ => true
  }

  /** No request's locked node is at or below the node. */
  ghost predicate Unheld(a: Adjunct, q: Path) {
    forall id {:trigger a.pins[id]} :: id in a.pins ==> !(q <= a.pins[id])
  }

  // ---------------------------------------------------------------- operations on one request

  /** Only the request's table has changed, and pages have only changed hands. */
  ghost predicate OnlyTable(col: Column, col': Column, id: Id) {
    exists pages {:trigger OnlyTableBy(col, col', id, pages)} :: OnlyTableBy(col, col', id, pages)
  }

  ghost predicate OnlyTableBy(col: Column, col': Column, id: Id, pages: multiset<nat>) {
    pages == Pages(col) == Pages(col') && col'.segs == col.segs && col'.tables - {id} == col.tables - {id}
  }

  /** The operation touches one request only. */
  ghost predicate OnlyRequest(a: Adjunct, a': Adjunct, id: Id) {
    && |a'.cols| == |a.cols| && a'.snaps == a.snaps && a'.hits.Keys <= a'.pins.Keys
    && a'.pins - {id} == a.pins - {id} && a'.hits - {id} == a.hits - {id}
    && (forall i {:trigger a.cols[i]} {:trigger a'.cols[i]} :: 0 <= i < |a.cols| ==> OnlyTable(a.cols[i], a'.cols[i], id))
    && (forall i {:trigger a'.cols[i]} :: 0 <= i < |a.cols| ==> (id in a'.cols[i].tables <==> id in a'.cols[0].tables))
  }

  lemma OnlyRequestOthers(a: Adjunct, a': Adjunct, id: Id, other: Id)
    requires OnlyRequest(a, a', id) && other != id && |a.cols| > 0
    ensures Undisturbed(a, a', other)
  {
    assert other in a'.pins <==> other in a'.pins - {id};
    assert other in a'.hits <==> other in a'.hits - {id};
    assert other in a.pins ==> a.pins[other] == (a.pins - {id})[other];
    assert other in a.hits ==> a.hits[other] == (a.hits - {id})[other];
    forall i | 0 <= i < |a.cols| ensures SameFor(a.cols[i], a'.cols[i], a, other) {
      var pages :| OnlyTableBy(a.cols[i], a'.cols[i], id, pages);
      SameTable(a.cols[i].tables, a'.cols[i].tables, id, other);
    }
  }

  lemma SameTable(ts: map<Id, Table>, ts': map<Id, Table>, id: Id, other: Id)
    requires ts' - {id} == ts - {id} && other != id
    ensures (other in ts' <==> other in ts) && (other in ts ==> ts'[other] == ts[other])
  {
    assert other in ts' <==> other in ts' - {id};
    assert other in ts ==> ts[other] == (ts - {id})[other] && (ts' - {id})[other] == ts'[other];
  }

  lemma OnlyRequestShape(c: Config, a: Adjunct, a': Adjunct, id: Id, pools: seq<multiset<nat>>)
    requires Shape(c, a) && Conserved(a, pools) && OnlyRequest(a, a', id)
    ensures Shape(c, a') && Conserved(a', pools)
  {
    forall i | 0 <= i < |a'.cols|
      ensures a'.cols[i].tables.Keys == a'.cols[0].tables.Keys && a'.cols[i].segs.Keys <= a'.snaps && Pages(a'.cols[i]) == pools[i]
    {
      assert OnlyTable(a.cols[i], a'.cols[i], id) && OnlyTable(a.cols[0], a'.cols[0], id);
      var pages :| OnlyTableBy(a.cols[i], a'.cols[i], id, pages);
      var pages0 :| OnlyTableBy(a.cols[0], a'.cols[0], id, pages0);
      forall x ensures x in a'.cols[i].tables <==> x in a'.cols[0].tables {
        if x != id {
          SameTable(a.cols[i].tables, a'.cols[i].tables, id, x);
          SameTable(a.cols[0].tables, a'.cols[0].tables, id, x);
          assert x in a.cols[i].tables.Keys <==> x in a.cols[0].tables.Keys;
        }
      }
    }
  }

  lemma OnlyRequestKeeps(c: Config, a: Adjunct, a': Adjunct, id: Id, pools: seq<multiset<nat>>)
    requires Inv(c, a, pools) && OnlyRequest(a, a', id)
    requires |a'.cols| == |c.groups| ==> RequestOk(c, a', id)
    ensures Inv(c, a', pools)
  {
    OnlyRequestShape(c, a, a', id, pools);
    forall i | Tracked(c, i) ensures AllStepped(a'.cols[i].segs, c.align, c.groups[i]) {
      assert OnlyTable(a.cols[i], a'.cols[i], id) && AllStepped(a.cols[i].segs, c.align, c.groups[i]);
    }
    forall x: Id ensures RequestOk(c, a', x) {
      if x != id {
        assert RequestOk(c, a, x);
        OnlyRequestOthers(a, a', id, x);
        RequestKept(c, a, a', x);
      }
    }
  }
  // ---------------------------------------------------------------- matching, moving on, unlocking

  lemma SameTables(col: Column, id: Id)
    ensures OnlyTable(col, col, id)
  {
    assert OnlyTableBy(col, col, id, Pages(col));
  }

  lemma AllSame(c: Config, a: Adjunct, id: Id)
    requires Shape(c, a)
    ensures forall i {:trigger a.cols[i]} :: 0 <= i < |a.cols| ==> OnlyTable(a.cols[i], a.cols[i], id)
    ensures forall i {:trigger a.cols[i]} :: 0 <= i < |a.cols| ==> (id in a.cols[i].tables <==> id in a.cols[0].tables)
  {
    forall i | 0 <= i < |a.cols| ensures OnlyTable(a.cols[i], a.cols[i], id) { SameTables(a.cols[i], id); }
    forall i | 0 <= i < |a.cols| ensures id in a.cols[i].tables <==> id in a.cols[0].tables {
      assert id in a.cols[i].tables.Keys <==> id in a.cols[0].tables.Keys;
    }
  }

  lemma FindKeeps(c: Config, a: Adjunct, id: Id, path: Path, pools: seq<multiset<nat>>)
    requires Inv(c, a, pools) && id !in a.pins
    ensures Next(c, a, Find(id, path)).Went? && Inv(c, Next(c, a, Find(id, path)).a, pools)
  {
    AugmentedOk(c, a, path);
    FoundKeeps(c, a, id, path, Augmented(c, a, path), pools);
  }

  lemma FoundKeeps(c: Config, a: Adjunct, id: Id, path: Path, f: Found, pools: seq<multiset<nat>>)
    requires Inv(c, a, pools) && id !in a.pins && f.tokens <= |path| && HitOk(c, a.cols, path[..f.tokens], f)
    ensures Inv(c, a.(pins := a.pins[id := path[..f.tokens]], hits := a.hits[id := f]), pools)
  {
    var a' := a.(pins := a.pins[id := path[..f.tokens]], hits := a.hits[id := f]);
    AllSame(c, a, id);
    assert a'.pins - {id} == a.pins - {id} && a'.hits - {id} == a.hits - {id};
    OnlyRequestKeeps(c, a, a', id, pools);
  }

  lemma UnlockKeeps(c: Config, a: Adjunct, id: Id, pools: seq<multiset<nat>>)
    requires Inv(c, a, pools)
    ensures Inv(c, Next(c, a, Unlock(id)).a, pools)
  {
    var a' := Next(c, a, Unlock(id)).a;
    AllSame(c, a, id);
    assert a'.pins - {id} == a.pins - {id} && a'.hits - {id} == a.hits - {id};
    OnlyRequestKeeps(c, a, a', id, pools);
  }

  lemma AdvanceKeeps(c: Config, a: Adjunct, id: Id, path: Path, pools: seq<multiset<nat>>)
    requires Inv(c, a, pools) && OpLegal(a, Advance(id, path))
    ensures Inv(c, Next(c, a, Advance(id, path)).a, pools)
  {
    var a' := Next(c, a, Advance(id, path)).a;
    AllSame(c, a, id);
    assert a'.pins - {id} == a.pins - {id};
    if Serving(a', id) {
      assert RequestOk(c, a, id);
      var k: nat :| FollowsAt(c, a, id, k);
      AdvanceLive(c, a, a', id, path, k);
    }
    OnlyRequestKeeps(c, a, a', id, pools);
  }

  lemma AdvanceLive(c: Config, a: Adjunct, a': Adjunct, id: Id, path: Path, k: nat)
    requires ConfigOk(c) && |a.cols| == |c.groups| && id in a.pins && a.pins[id] <= path && a' == a.(pins := a.pins[id := path])
    requires BackedAt(a, id) && FollowsAt(c, a, id, k)
    ensures LiveOk(c, a', id)
  {
    forall i | 0 <= i < |a'.cols| && id in a'.cols[i].tables ensures Backed(a'.cols[i].segs, path, a'.cols[i].tables[id].borrowed) {
      BackedLonger(a.cols[i].segs, a.pins[id], path, a.cols[i].tables[id].borrowed);
    }
    forall i | Tracked(c, i) ensures Follows(a'.cols[i], path, id, k, c.align, c.groups[i]) {
      var chain :| FollowsBy(a.cols[i], a.pins[id], id, k, c.align, c.groups[i], chain);
      ChainLonger(a.cols[i].segs, a.pins[id], path, k, c.align);
      assert FollowsBy(a'.cols[i], path, id, k, c.align, c.groups[i], chain);
    }
    assert FollowsAt(c, a', id, k);
  }

  // ---------------------------------------------------------------- rewinding and releasing

  lemma RewindOne(col: Column, id: Id, tokens: nat, g: Group)
    requires GroupOk(g) && id in col.tables
    ensures OnlyTable(col, Rewinding(col, id, tokens, g), id)
  {
    RewindingPages(col, id, tokens, g);
    var col' := Rewinding(col, id, tokens, g);
    assert col'.tables - {id} == col.tables - {id};
    assert OnlyTableBy(col, col', id, Pages(col));
  }

  lemma RewindFollows(col: Column, p: Path, id: Id, k: nat, align: nat, tokens: nat, g: Group)
    requires GroupOk(g) && Follows(col, p, id, k, align, g) && id in col.tables
    ensures Follows(Rewinding(col, id, tokens, g), p, id, k, align, g)
  {
    var chain :| FollowsBy(col, p, id, k, align, g, chain);
    RidesRewind(col.tables[id], chain, align, g, tokens);
    assert FollowsBy(Rewinding(col, id, tokens, g), p, id, k, align, g, chain);
  }

  lemma RewindLive(c: Config, a: Adjunct, a': Adjunct, id: Id, tokens: nat)
    requires Shape(c, a) && LiveOk(c, a, id) && a' == a.(cols := a'.cols) && |a'.cols| == |a.cols|
    requires forall i {:trigger a'.cols[i]} :: 0 <= i < |a.cols| ==> a'.cols[i] == RewindAt(c, a, id, tokens, i)
    ensures LiveOk(c, a', id)
  {
    var k: nat :| FollowsAt(c, a, id, k);
    forall i | Tracked(c, i) ensures Follows(a'.cols[i], a.pins[id], id, k, c.align, c.groups[i]) {
      var chain :| FollowsBy(a.cols[i], a.pins[id], id, k, c.align, c.groups[i], chain);
      RewindFollows(a.cols[i], a.pins[id], id, k, c.align, tokens, c.groups[i]);
    }
    assert FollowsAt(c, a', id, k);
    forall i | 0 <= i < |a'.cols| && id in a'.cols[i].tables ensures Backed(a'.cols[i].segs, a.pins[id], a'.cols[i].tables[id].borrowed) {
      assert a'.cols[i] == RewindAt(c, a, id, tokens, i);
      assert Backed(a.cols[i].segs, a.pins[id], a.cols[i].tables[id].borrowed);
    }
  }

  lemma RewindKeeps(c: Config, a: Adjunct, id: Id, tokens: nat, pools: seq<multiset<nat>>)
    requires Inv(c, a, pools)
    ensures Inv(c, Next(c, a, RewindAll(id, tokens)).a, pools)
  {
    var a' := Next(c, a, RewindAll(id, tokens)).a;
    AllSame(c, a, id);
    forall i | 0 <= i < |a.cols| ensures OnlyTable(a.cols[i], a'.cols[i], id) && (id in a'.cols[i].tables <==> id in a.cols[i].tables) {
      if id in a.cols[i].tables { RewindOne(a.cols[i], id, tokens, c.groups[i]); }
    }
    assert RequestOk(c, a, id);
    RewindRequest(c, a, a', id, tokens);
    OnlyRequestKeeps(c, a, a', id, pools);
  }

  lemma RewindRequest(c: Config, a: Adjunct, a': Adjunct, id: Id, tokens: nat)
    requires Shape(c, a) && RequestOk(c, a, id) && a' == a.(cols := a'.cols) && |a'.cols| == |a.cols|
    requires forall i {:trigger a'.cols[i]} :: 0 <= i < |a.cols| ==> a'.cols[i] == RewindAt(c, a, id, tokens, i)
    ensures RequestOk(c, a', id)
  {
    if id in a.hits { HitKept(c, a.cols, a'.cols, a.pins[id], a.hits[id]); }
    if Serving(a', id) { RewindLive(c, a, a', id, tokens); }
  }

  lemma ReleaseOne(col: Column, id: Id)
    ensures OnlyTable(col, Dropped(col, id), id)
  {
    DroppedPages(col, id);
    var col' := Dropped(col, id);
    assert col'.tables - {id} == col.tables - {id};
    assert OnlyTableBy(col, col', id, Pages(col));
  }

  lemma ReleaseKeeps(c: Config, a: Adjunct, id: Id, pools: seq<multiset<nat>>)
    requires Inv(c, a, pools)
    ensures Inv(c, Next(c, a, Release(id)).a, pools)
  {
    var a' := Next(c, a, Release(id)).a;
    forall i | 0 <= i < |a.cols| ensures OnlyTable(a.cols[i], a'.cols[i], id) { ReleaseOne(a.cols[i], id); }
    assert RequestOk(c, a, id);
    if id in a.hits { HitKept(c, a.cols, a'.cols, a.pins[id], a.hits[id]); }
    OnlyRequestKeeps(c, a, a', id, pools);
  }
  // ---------------------------------------------------------------- acquiring

  lemma OnlyTableTrans(col: Column, col1: Column, col2: Column, id: Id)
    requires OnlyTable(col, col1, id) && OnlyTable(col1, col2, id)
    ensures OnlyTable(col, col2, id)
  {
    var pages :| OnlyTableBy(col, col1, id, pages);
    var pages1 :| OnlyTableBy(col1, col2, id, pages1);
    assert OnlyTableBy(col, col2, id, pages);
  }

  lemma RenewedOne(col: Column, id: Id, f: Found, i: nat)
    ensures OnlyTable(col, Renewed(col, id, f, i), id)
  {
    DroppedPages(col, id);
    PutPages(Dropped(col, id), id, Starting(f, i));
    var col' := Renewed(col, id, f, i);
    assert col'.tables - {id} == col.tables - {id};
    assert OnlyTableBy(col, col', id, Pages(col));
  }

  lemma SlidOne(col: Column, id: Id, page: nat)
    requires id in col.tables
    ensures OnlyTable(col, Slid(col, id, page), id)
  {
    SlidPages(col, id, page);
    assert Slid(col, id, page).tables - {id} == col.tables - {id};
    assert OnlyTableBy(col, Slid(col, id, page), id, Pages(col));
  }

  lemma FillOne(col: Column, id: Id, target: nat, g: Group)
    requires GroupOk(g) && id in col.tables && Fill(col, id, target, g).Some?
    ensures OnlyTable(col, Fill(col, id, target, g).value, id)
  {
    var t := col.tables[id];
    if target <= t.cursor {
      SameTables(col, id);
    } else {
      var rest := |col.free| - NeedFor(t, target, g);
      ReversedBag(col.free[rest..]);
      MultisetSplit(col.free, rest);
      TookOne(col, id, target, col.free[..rest], Reversed(col.free[rest..]));
    }
  }

  lemma TookOne(col: Column, id: Id, target: nat, free': seq<nat>, nu: seq<nat>)
    requires id in col.tables && multiset(free') + multiset(nu) == multiset(col.free)
    ensures OnlyTable(col, Column(free', col.tables[id := Grown(col.tables[id], target, nu)], col.segs), id)
  {
    GrowPages(col, id, target, free', nu);
    var col' := Column(free', col.tables[id := Grown(col.tables[id], target, nu)], col.segs);
    assert col'.tables - {id} == col.tables - {id};
    assert OnlyTableBy(col, col', id, Pages(col));
  }

  lemma GrowOne(col: Column, id: Id, first: int, target: nat, g: Group)
    requires GroupOk(g) && id in col.tables && Grow(col, id, first, target, g).Some?
    ensures OnlyTable(col, Grow(col, id, first, target, g).value, id) && id in Grow(col, id, first, target, g).value.tables
  {
    var page := SkipPage(LowerBound(first, g), g);
    SlidOne(col, id, page);
    FillOne(Slid(col, id, page), id, target, g);
    OnlyTableTrans(col, Slid(col, id, page), Grow(col, id, first, target, g).value, id);
  }

  /** Growing borrows nothing new. */
  lemma GrowBacked(col: Column, p: Path, id: Id, first: int, target: nat, g: Group)
    requires GroupOk(g) && id in col.tables && Grow(col, id, first, target, g).Some? && Backed(col.segs, p, col.tables[id].borrowed)
    ensures var col' := Grow(col, id, first, target, g).value;
            col'.segs == col.segs && id in col'.tables && Backed(col'.segs, p, col'.tables[id].borrowed)
  {
    var page := SkipPage(LowerBound(first, g), g);
    BackedLess(col.segs, p, col.tables[id].borrowed, Released(col.tables[id], page).borrowed);
  }

  lemma GrowFollows(col: Column, p: Path, id: Id, k: nat, align: nat, first: int, target: nat, g: Group)
    requires GroupOk(g) && id in col.tables && Follows(col, p, id, k, align, g) && Grow(col, id, first, target, g).Some?
    ensures Follows(Grow(col, id, first, target, g).value, p, id, k, align, g)
  {
    var chain :| FollowsBy(col, p, id, k, align, g, chain);
    var page := SkipPage(LowerBound(first, g), g);
    RidesSlide(col.tables[id], chain, align, g, page);
    var slid := Slid(col, id, page);
    assert FollowsBy(slid, p, id, k, align, g, chain);
    FillFollows(slid, p, id, k, align, target, g);
  }

  lemma FillFollows(col: Column, p: Path, id: Id, k: nat, align: nat, target: nat, g: Group)
    requires GroupOk(g) && id in col.tables && Follows(col, p, id, k, align, g) && Fill(col, id, target, g).Some?
    ensures Follows(Fill(col, id, target, g).value, p, id, k, align, g)
  {
    var chain :| FollowsBy(col, p, id, k, align, g, chain);
    var t := col.tables[id];
    if target > t.cursor {
      RidesGrow(t, chain, align, g, target, Reversed(col.free[|col.free| - NeedFor(t, target, g)..]));
    }
    assert FollowsBy(Fill(col, id, target, g).value, p, id, k, align, g, chain);
  }

  lemma FreshRides(align: nat, g: Group)
    requires GroupOk(g) && align > 0 && Aligned(align, g)
    ensures Rides(FRESH, [], align, g)
  {
    PagesNeededIsCeil(0, g);
    CeilDivUnique(0, PageTokens(g), 0);
  }

  /** A table started from a hit goes on from the hit's steps. */
  lemma StartFollows(c: Config, cols: seq<Column>, p: Path, f: Found, k: nat, id: Id, i: nat)
    requires ConfigOk(c) && |cols| == |c.groups| && HitAt(c, cols, p, f, k) && Tracked(c, i)
    requires AllStepped(cols[i].segs, c.align, c.groups[i])
    ensures Follows(Renewed(cols[i], id, f, i), p, id, k, c.align, c.groups[i])
  {
    if k == 0 {
      FreshRides(c.align, c.groups[i]);
      FollowsIs(Renewed(cols[i], id, f, i), p, id, 0, c.align, c.groups[i], FRESH, cols[i].segs);
    } else {
      assert HitsChain(cols[i], p, f.ids[i], f.bases[i], k, c.align);
      BoundaryGrows(0, k, c.align);
      ImportFollows(cols[i], p, f, k, id, i, c.align, c.groups[i]);
    }
  }

  lemma StepsNotEmpty(chain: seq<Segment>, align: nat, g: Group)
    requires GroupOk(g) && align > 0 && Aligned(align, g) && Steps(chain, align, g) && Boundary(|chain|, align) > 0
    ensures Concat(chain) != []
  {
    HistoryImport(chain, align, g);
  }

  lemma ImportFollows(col: Column, p: Path, f: Found, k: nat, id: Id, i: nat, align: nat, g: Group)
    requires GroupOk(g) && align > 0 && Aligned(align, g) && i < |f.ids| && i < |f.bases| && HitsChain(col, p, f.ids[i], f.bases[i], k, align)
    requires AllStepped(col.segs, align, g) && f.tokens == Boundary(k, align) > 0
    ensures Follows(Renewed(col, id, f, i), p, id, k, align, g)
  {
    var chain := ChainOf(col.segs, p, k, align);
    ChainSteps(col.segs, p, k, align, g);
    StepsNotEmpty(chain, align, g);
    RidesImport(chain, align, g);
    FollowsIs(Renewed(col, id, f, i), p, id, k, align, g, Imported(f.ids[i], 0, f.tokens), col.segs);
  }

  lemma StartBacked(c: Config, cols: seq<Column>, p: Path, f: Found, k: nat, id: Id, i: nat)
    requires ConfigOk(c) && |cols| == |c.groups| && HitAt(c, cols, p, f, k) && i < |cols|
    ensures var col' := Renewed(cols[i], id, f, i); col'.segs == cols[i].segs && Backed(col'.segs, p, col'.tables[id].borrowed)
  {
  }

  /** Before it grows, the request's table goes on from its path, be it its own or a fresh one. */
  ghost predicate ReadyOk(c: Config, a: Adjunct, id: Id, k: nat)
    requires ConfigOk(c) && |a.cols| == |c.groups| && id in a.pins
  {
    && Boundary(k, c.align) <= |a.pins[id]|
    && (forall i {:trigger Ready(a, id, i)} :: 0 <= i < |a.cols| ==>
          id in Ready(a, id, i).tables && Ready(a, id, i).segs == a.cols[i].segs
          && Backed(a.cols[i].segs, a.pins[id], Ready(a, id, i).tables[id].borrowed))
    && (forall i {:trigger Ready(a, id, i)} :: Tracked(c, i) ==> Follows(Ready(a, id, i), a.pins[id], id, k, c.align, c.groups[i]))
  }

  lemma ReadyFollows(c: Config, a: Adjunct, id: Id, pools: seq<multiset<nat>>) returns (k: nat)
    requires Inv(c, a, pools) && id in a.pins && (id in a.hits || id in a.cols[0].tables)
    ensures ReadyOk(c, a, id, k)
  {
    assert RequestOk(c, a, id);
    AllSame(c, a, id);
    if id in a.hits {
      k :| HitAt(c, a.cols, a.pins[id], a.hits[id], k);
      forall i | 0 <= i < |a.cols| ensures Backed(a.cols[i].segs, a.pins[id], Ready(a, id, i).tables[id].borrowed) && Ready(a, id, i).segs == a.cols[i].segs {
        StartBacked(c, a.cols, a.pins[id], a.hits[id], k, id, i);
      }
      forall i | Tracked(c, i) ensures Follows(Ready(a, id, i), a.pins[id], id, k, c.align, c.groups[i]) {
        assert AllStepped(a.cols[i].segs, c.align, c.groups[i]);
        StartFollows(c, a.cols, a.pins[id], a.hits[id], k, id, i);
      }
    } else {
      assert Serving(a, id);
      k :| FollowsAt(c, a, id, k);
    }
  }

  lemma ObtainLive(c: Config, a: Adjunct, a': Adjunct, id: Id, first: int, target: nat, k: nat)
    requires ConfigOk(c) && |a.cols| == |c.groups| && id in a.pins && ReadyOk(c, a, id, k) && a'.pins == a.pins && |a'.cols| == |a.cols|
    requires forall i {:trigger a'.cols[i]} :: 0 <= i < |a.cols| ==> ObtainedAt(c, a, a'.cols[i], id, first, target, i)
    ensures LiveOk(c, a', id)
  {
    forall i | 0 <= i < |a'.cols| && id in a'.cols[i].tables ensures Backed(a'.cols[i].segs, a'.pins[id], a'.cols[i].tables[id].borrowed) {
      assert ObtainedAt(c, a, a'.cols[i], id, first, target, i);
      GrowBacked(Ready(a, id, i), a.pins[id], id, first, target, c.groups[i]);
    }
    forall i | Tracked(c, i) ensures Follows(a'.cols[i], a'.pins[id], id, k, c.align, c.groups[i]) {
      assert Follows(Ready(a, id, i), a.pins[id], id, k, c.align, c.groups[i]) && ObtainedAt(c, a, a'.cols[i], id, first, target, i);
      GrowFollows(Ready(a, id, i), a.pins[id], id, k, c.align, first, target, c.groups[i]);
    }
    assert FollowsAt(c, a', id, k);
  }

  lemma ReadyOne(c: Config, a: Adjunct, id: Id, i: nat)
    requires i < |a.cols|
    ensures OnlyTable(a.cols[i], Ready(a, id, i), id)
  {
    if id in a.hits { RenewedOne(a.cols[i], id, a.hits[id], i); } else { SameTables(a.cols[i], id); }
  }

  lemma ObtainKeeps(c: Config, a: Adjunct, id: Id, first: int, target: nat, pools: seq<multiset<nat>>)
    requires Inv(c, a, pools) && OpLegal(a, Obtain(id, first, target))
    ensures var o := Next(c, a, Obtain(id, first, target)); o.Went? ==> Inv(c, o.a, pools)
  {
    AllSame(c, a, id);
    if Affords(c, a, id, first, target) {
      var k := ReadyFollows(c, a, id, pools);
      var a' := a.(cols := ObtainAll(c, a, id, first, target), hits := a.hits - {id});
      forall i | 0 <= i < |a.cols| ensures ObtainedAt(c, a, a'.cols[i], id, first, target, i) {
        assert ObtainAt(c, a, id, first, target, i).Some?;
      }
      ObtainedKeeps(c, a, a', id, first, target, k, pools);
    }
  }

  ghost predicate ObtainedAt(c: Config, a: Adjunct, col: Column, id: Id, first: int, target: nat, i: nat)
    requires ConfigOk(c) && |a.cols| == |c.groups| && i < |a.cols|
  {
    id in Ready(a, id, i).tables && Some(col) == Grow(Ready(a, id, i), id, first, target, c.groups[i])
  }

  lemma ObtainedOne(c: Config, a: Adjunct, col: Column, id: Id, first: int, target: nat, i: nat)
    requires ConfigOk(c) && |a.cols| == |c.groups| && i < |a.cols| && ObtainedAt(c, a, col, id, first, target, i)
    ensures OnlyTable(a.cols[i], col, id) && id in col.tables
  {
    ReadyOne(c, a, id, i);
    GrowOne(Ready(a, id, i), id, first, target, c.groups[i]);
    OnlyTableTrans(a.cols[i], Ready(a, id, i), col, id);
  }

  lemma ObtainedKeeps(c: Config, a: Adjunct, a': Adjunct, id: Id, first: int, target: nat, k: nat, pools: seq<multiset<nat>>)
    requires Inv(c, a, pools) && id in a.pins && ReadyOk(c, a, id, k)
    requires a' == a.(cols := a'.cols, hits := a.hits - {id}) && |a'.cols| == |a.cols|
    requires forall i {:trigger a'.cols[i]} :: 0 <= i < |a.cols| ==> ObtainedAt(c, a, a'.cols[i], id, first, target, i)
    ensures Inv(c, a', pools)
  {
    forall i | 0 <= i < |a.cols| ensures OnlyTable(a.cols[i], a'.cols[i], id) && id in a'.cols[i].tables {
      ObtainedOne(c, a, a'.cols[i], id, first, target, i);
    }
    assert a'.hits - {id} == a.hits - {id};
    ObtainLive(c, a, a', id, first, target, k);
    OnlyRequestKeeps(c, a, a', id, pools);
  }

  // ---------------------------------------------------------------- evicting snapshots

  /** The columns with or without the node's segment. */
  ghost predicate Shedding(a: Adjunct, a': Adjunct, q: Path) {
    && a'.pins == a.pins && a'.hits == a.hits && |a'.cols| == |a.cols|
    && forall i {:trigger a.cols[i]} {:trigger a'.cols[i]} :: 0 <= i < |a.cols| ==> a'.cols[i] == a.cols[i] || a'.cols[i] == Shed(a.cols[i], q)
  }

  lemma ShedSame(col: Column, q: Path, a: Adjunct, id: Id)
    requires Unheld(a, q)
    ensures SameFor(col, Shed(col, q), a, id)
  {
    if id in a.pins { assert !(q <= a.pins[id]); }
  }

  lemma SheddingKeeps(c: Config, a: Adjunct, a': Adjunct, q: Path, pools: seq<multiset<nat>>)
    requires Inv(c, a, pools) && Unheld(a, q) && Shedding(a, a', q)
    requires forall i {:trigger a'.cols[i]} :: 0 <= i < |a.cols| ==> a'.cols[i].segs.Keys <= a'.snaps
    ensures Inv(c, a', pools)
  {
    forall i | 0 <= i < |a.cols| ensures Pages(a'.cols[i]) == pools[i] && a'.cols[i].tables == a.cols[i].tables {
      assert a'.cols[i] == a.cols[i] || a'.cols[i] == Shed(a.cols[i], q);
      ShedPages(a.cols[i], q);
    }
    forall i | 0 <= i < |a.cols| ensures a'.cols[i].tables.Keys == a'.cols[0].tables.Keys {
      assert a.cols[i].tables.Keys == a.cols[0].tables.Keys;
    }
    forall i | Tracked(c, i) ensures AllStepped(a'.cols[i].segs, c.align, c.groups[i]) {
      assert AllStepped(a.cols[i].segs, c.align, c.groups[i]);
    }
    forall id: Id ensures RequestOk(c, a', id) {
      assert RequestOk(c, a, id);
      forall i | 0 <= i < |a.cols| ensures SameFor(a.cols[i], a'.cols[i], a, id) {
        assert a'.cols[i] == a.cols[i] || a'.cols[i] == Shed(a.cols[i], q);
        ShedSame(a.cols[i], q, a, id);
      }
      RequestKept(c, a, a', id);
    }
  }

  lemma EvictKeeps(c: Config, a: Adjunct, q: Path, pools: seq<multiset<nat>>)
    requires Inv(c, a, pools) && Unheld(a, q)
    ensures Inv(c, Next(c, a, Evict(q)).a, pools)
  {
    SheddingKeeps(c, a, Next(c, a, Evict(q)).a, q, pools);
  }

  lemma EvictStateKeeps(c: Config, a: Adjunct, q: Path, pools: seq<multiset<nat>>)
    requires Inv(c, a, pools) && Unheld(a, q)
    ensures Inv(c, Next(c, a, EvictState(q)).a, pools)
  {
    var a' := Next(c, a, EvictState(q)).a;
    forall i | 0 <= i < |a.cols| ensures a'.cols[i].segs.Keys <= a'.snaps {
      assert a.cols[i].segs.Keys <= a.snaps;
    }
    SheddingKeeps(c, a, a', q, pools);
  }

  // ---------------------------------------------------------------- any run

  lemma CommitKeeps(c: Config, a: Adjunct, id: Id, pools: seq<multiset<nat>>)
    requires Inv(c, a, pools) && Tracked(c, 0) && OpLegal(a, CommitChunk(id))
    ensures var o := Next(c, a, CommitChunk(id)); o.Went? ==> Inv(c, o.a, pools)
  {
    if Serving(a, id) {
      CommittedKeeps(c, a, id, pools);
      var o := Committed(c, a, id);
      if o.Went? {
        var k: nat :| At(c, o.a, id, k, pools);
        AtHas(c, o.a, id, k, pools);
      }
    }
  }

  /** Every operation keeps the invariant, if the first required group is a history group. */
  lemma NextKeeps(c: Config, a: Adjunct, op: CacheOp, pools: seq<multiset<nat>>)
    requires Inv(c, a, pools) && Tracked(c, 0) && OpLegal(a, op)
    ensures var o := Next(c, a, op); o.Went? ==> Inv(c, o.a, pools)
  {
    match op
    case Find(id, path) => FindKeeps(c, a, id, path, pools);
    case Obtain(id, first, target) => ObtainKeeps(c, a, id, first, target, pools);
    case Advance(id, path) => AdvanceKeeps(c, a, id, path, pools);
    case CommitChunk(id) => CommitKeeps(c, a, id, pools);
    case RewindAll(id, tokens) => RewindKeeps(c, a, id, tokens, pools);
    case Release(id) => ReleaseKeeps(c, a, id, pools);
    case Unlock(id) => UnlockKeeps(c, a, id, pools);
    case Evict(q) => EvictKeeps(c, a, q, pools);
    case EvictState(q) => EvictStateKeeps(c, a, q, pools);
    case Reshape(nodes) => NodesKeep(c, a, nodes, pools);
  }

  /** Before the first operation: nothing but free pages. */
  function Start(frees: seq<seq<nat>>): Adjunct {
    Adjunct({}, {}, seq(|frees|, i requires 0 <= i < |frees| => Column(frees[i], map[], map[])), map[], map[])
  }

  ghost function Bags(frees: seq<seq<nat>>): seq<multiset<nat>> {
    seq(|frees|, i requires 0 <= i < |frees| => multiset(frees[i]))
  }

  lemma StartInv(c: Config, frees: seq<seq<nat>>)
    requires ConfigOk(c) && |frees| == |c.groups|
    ensures Inv(c, Start(frees), Bags(frees))
  {
    var a := Start(frees);
    forall i | 0 <= i < |frees| ensures Pages(a.cols[i]) == Bags(frees)[i] {
      assert Owns(a.cols[i]) == map[] && Lent(a.cols[i]) == map[];
    }
    forall id: Id ensures RequestOk(c, a, id) { }
  }

  /** A run of operations, none of which throws, from nothing but free pages. */
  ghost predicate RunsTo(c: Config, frees: seq<seq<nat>>, ops: seq<CacheOp>, a: Adjunct)
    requires ConfigOk(c) && |frees| == |c.groups|
  {
    if ops == [] then a == Start(frees) else
      exists b {:trigger RunsTo(c, frees, ops[..|ops| - 1], b)} ::
        && RunsTo(c, frees, ops[..|ops| - 1], b) && Shape(c, b) && OpLegal(b, ops[|ops| - 1])
        && Next(c, b, ops[|ops| - 1]) == Went(a)
  }

  lemma {:induction false} RunKeeps(c: Config, frees: seq<seq<nat>>, ops: seq<CacheOp>, a: Adjunct)
    requires ConfigOk(c) && |frees| == |c.groups| && Tracked(c, 0) && RunsTo(c, frees, ops, a)
    ensures Inv(c, a, Bags(frees))
  {
    if ops == [] {
      StartInv(c, frees);
    } else {
      var b :| RunsTo(c, frees, ops[..|ops| - 1], b) && Shape(c, b) && OpLegal(b, ops[|ops| - 1]) && Next(c, b, ops[|ops| - 1]) == Went(a);
      RunKeeps(c, frees, ops[..|ops| - 1], b);
      NextKeeps(c, b, ops[|ops| - 1], Bags(frees));
    }
  }

  /** A hit's part for one history group: the segments of whole alignment steps in order, one after the other from logical
      page 0, and nothing else. */
  ghost predicate WholeSteps(ids: seq<nat>, base: nat, tokens: nat, align: nat, g: Group)
    requires GroupOk(g)
  {
    exists chain {:trigger Steps(chain, align, g)} ::
      Steps(chain, align, g) && ids == Concat(chain) && base == 0 && tokens == Boundary(|chain|, align)
  }

  /** After any run, whatever path is matched, the hit's pages of every required history group are those of whole steps in
      order, and importing them gives a table that covers just the hit's tokens. */
  lemma HitsAreWhole(c: Config, frees: seq<seq<nat>>, ops: seq<CacheOp>, a: Adjunct, path: Path, i: nat)
    requires ConfigOk(c) && |frees| == |c.groups| && Tracked(c, 0) && RunsTo(c, frees, ops, a)
    requires |a.cols| == |c.groups| && Augmented(c, a, path).tokens > 0 && Tracked(c, i)
    ensures var f := Augmented(c, a, path);
            && i < |f.ids| == |f.bases| && WholeSteps(f.ids[i], f.bases[i], f.tokens, c.align, c.groups[i])
            && Covered(Imported(f.ids[i], f.bases[i], f.tokens), c.groups[i])
            && |f.ids[i]| * PageTokens(c.groups[i]) == f.tokens <= |path|
  {
    RunKeeps(c, frees, ops, a);
    AugmentedOk(c, a, path);
    var f := Augmented(c, a, path);
    var p := path[..f.tokens];
    var k: nat :| HitAt(c, a.cols, p, f, k);
    assert HitsChain(a.cols[i], p, f.ids[i], f.bases[i], k, c.align) && AllStepped(a.cols[i].segs, c.align, c.groups[i]);
    var chain := ChainOf(a.cols[i].segs, p, k, c.align);
    ChainSteps(a.cols[i].segs, p, k, c.align, c.groups[i]);
    HistoryImport(chain, c.align, c.groups[i]);
  }

  /** After any run, a page that a running request borrows belongs to a snapshot on the path to its node: it is not free, and no
      request owns it. */
  lemma BorrowedIsHeld(c: Config, frees: seq<seq<nat>>, ops: seq<CacheOp>, a: Adjunct, id: Id, i: nat, x: nat)
    requires ConfigOk(c) && |frees| == |c.groups| && Tracked(c, 0) && RunsTo(c, frees, ops, a)
    requires i < |a.cols| && Serving(a, id) && id in a.cols[i].tables && x in a.cols[i].tables[id].borrowed
    requires i < |frees| && multiset(frees[i])[x] <= 1
    ensures OnPath(a.cols[i].segs, a.pins[id], x) && x !in a.cols[i].free
    ensures forall other {:trigger a.cols[i].tables[other]} :: other in a.cols[i].tables ==> x !in a.cols[i].tables[other].owned
  {
    RunKeeps(c, frees, ops, a);
    assert RequestOk(c, a, id) && BackedAt(a, id);
    var col := a.cols[i];
    assert OnPath(col.segs, a.pins[id], x);
    var q :| q in col.segs && q <= a.pins[id] && x in col.segs[q].pages;
    assert Pages(col) == Bags(frees)[i];
    HeldOnce(col, q, x);
  }

  /** A page that a snapshot holds, and that there is only once, is held by nobody else. */
  lemma HeldOnce(col: Column, q: Path, x: nat)
    requires q in col.segs && x in col.segs[q].pages && Pages(col)[x] <= 1
    ensures x !in col.free
    ensures forall id {:trigger col.tables[id]} :: id in col.tables ==> x !in col.tables[id].owned
  {
    GatherPick(Lent(col), q);
    assert Lent(col)[q] == col.segs[q].pages && Gather(Lent(col))[x] >= 1;
    forall id | id in col.tables ensures x !in col.tables[id].owned {
      GatherPick(Owns(col), id);
      assert Owns(col)[id] == col.tables[id].owned;
    }
  }
}
