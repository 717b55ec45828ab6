/** Every run of the snapshot tree: commits, prefix hits, evictions and the tables that go on from them. */
module SnapshotRuns {
  import opened Prelude
  import opened PagePool
  import opened PagedCacheTable
  import opened Snapshots
  import opened CommitSteps
  import opened SnapshotColumns
  import opened SnapshotPaths
  import opened SnapshotTree

  // ---------------------------------------------------------------- what a run keeps

  ghost predicate Shape(c: Config, a: Adjunct) {
    && ConfigOk(c) && |a.cols| == |c.groups| && a.hits.Keys <= a.pins.Keys
    && (forall i {:trigger a.cols[i]} :: 0 <= i < |a.cols| ==> a.cols[i].tables.Keys == a.cols[0].tables.Keys)
    && (forall i {:trigger a.cols[i]} :: 0 <= i < |a.cols| ==> a.cols[i].segs.Keys <= a.snaps)
  }

  /** Each group has the pages it started with. */
  ghost predicate Conserved(a: Adjunct, pools: seq<multiset<nat>>) {
    |pools| == |a.cols| && forall i {:trigger a.cols[i]} :: 0 <= i < |a.cols| ==> Pages(a.cols[i]) == pools[i]
  }

  /** Every history segment is one whole alignment step. */
  ghost predicate Stepping(c: Config, a: Adjunct)
    requires ConfigOk(c) && |a.cols| == |c.groups|
  {
    forall i {:trigger a.cols[i]} :: Tracked(c, i) ==> AllStepped(a.cols[i].segs, c.align, c.groups[i])
  }

  /** A request that has pages and a locked node. */
  predicate Serving(a: Adjunct, id: Id)
    requires |a.cols| > 0
  {
    id in a.pins && id !in a.hits && id in a.cols[0].tables
  }

  /** All it borrows is held by snapshots on the path to its locked node. */
  ghost predicate BackedAt(a: Adjunct, id: Id)
    requires id in a.pins
  {
    forall i {:trigger a.cols[i]} :: 0 <= i < |a.cols| && id in a.cols[i].tables ==> Backed(a.cols[i].segs, a.pins[id], a.cols[i].tables[id].borrowed)
  }

  /** In every required history group the request has committed just the first k steps of its path. */
  ghost predicate FollowsAt(c: Config, a: Adjunct, id: Id, k: nat)
    requires ConfigOk(c) && |a.cols| == |c.groups| && id in a.pins
  {
    && Boundary(k, c.align) <= |a.pins[id]|
    && forall i {:trigger a.cols[i]} :: Tracked(c, i) ==> Follows(a.cols[i], a.pins[id], id, k, c.align, c.groups[i])
  }

  ghost predicate Follows(col: Column, p: Path, id: Id, k: nat, align: nat, g: Group)
    requires GroupOk(g)
  {
    exists chain {:trigger FollowsBy(col, p, id, k, align, g, chain)} :: FollowsBy(col, p, id, k, align, g, chain)
  }

  ghost predicate FollowsBy(col: Column, p: Path, id: Id, k: nat, align: nat, g: Group, chain: seq<Segment>)
    requires GroupOk(g)
  {
    id in col.tables && Present(col.segs, p, k, align) && chain == ChainOf(col.segs, p, k, align) && Rides(col.tables[id], chain, align, g)
  }

  ghost predicate LiveOk(c: Config, a: Adjunct, id: Id)
    requires ConfigOk(c) && |a.cols| == |c.groups|
  {
    id in a.pins && BackedAt(a, id) && exists k: nat {:trigger FollowsAt(c, a, id, k)} :: FollowsAt(c, a, id, k)
  }

  /** A hit of k steps: its ids are held by snapshots on the path, and those of a required history group are the pages of the
      path's first k steps in order. */
  ghost predicate HitAt(c: Config, cols: seq<Column>, p: Path, f: Found, k: nat)
    requires ConfigOk(c) && |cols| == |c.groups|
  {
    && f.tokens == Boundary(k, c.align) <= |p|
    && if k == 0 then f == NOTHING else
         && |f.ids| == |f.bases| == |cols|
         && (forall i {:trigger cols[i]} :: 0 <= i < |cols| ==> Backed(cols[i].segs, p, f.ids[i]))
         && (forall i {:trigger cols[i]} :: Tracked(c, i) ==> HitsChain(cols[i], p, f.ids[i], f.bases[i], k, c.align))
  }

  ghost predicate HitsChain(col: Column, p: Path, ids: seq<nat>, base: nat, k: nat, align: nat) {
    Present(col.segs, p, k, align) && ids == Concat(ChainOf(col.segs, p, k, align)) && base == 0
  }

  ghost predicate HitOk(c: Config, cols: seq<Column>, p: Path, f: Found)
    requires ConfigOk(c) && |cols| == |c.groups|
  {
    exists k: nat {:trigger HitAt(c, cols, p, f, k)} :: HitAt(c, cols, p, f, k)
  }

  ghost predicate RequestOk(c: Config, a: Adjunct, id: Id)
    requires ConfigOk(c) && |a.cols| == |c.groups|
  {
    && (id in a.hits ==> id in a.pins && HitOk(c, a.cols, a.pins[id], a.hits[id]))
    && (Serving(a, id) ==> LiveOk(c, a, id))
  }

  ghost predicate Inv(c: Config, a: Adjunct, pools: seq<multiset<nat>>) {
    && Shape(c, a) && Conserved(a, pools) && Stepping(c, a)
    && forall id: Id {:trigger RequestOk(c, a, id)} :: RequestOk(c, a, id)
  }

  // ---------------------------------------------------------------- requests an operation does not touch

  /** Nothing the request depends on changes. */
  ghost predicate Undisturbed(a: Adjunct, a': Adjunct, id: Id) {
    && |a'.cols| == |a.cols| > 0
    && (id in a'.pins <==> id in a.pins) && (id in a.pins ==> a'.pins[id] == a.pins[id])
    && (id in a'.hits <==> id in a.hits) && (id in a.hits ==> a'.hits[id] == a.hits[id])
    && forall i {:trigger a.cols[i]} {:trigger a'.cols[i]} :: 0 <= i < |a.cols| ==> SameFor(a.cols[i], a'.cols[i], a, id)
  }

  ghost predicate SameFor(col: Column, col': Column, a: Adjunct, id: Id) {
    && (id in col'.tables <==> id in col.tables) && (id in col.tables ==> col'.tables[id] == col.tables[id])
    && (id in a.pins ==> KeepsAlong(col.segs, col'.segs, a.pins[id]))
  }

  lemma FollowsKept(c: Config, a: Adjunct, a': Adjunct, id: Id, k: nat)
    requires ConfigOk(c) && |a.cols| == |c.groups| && Undisturbed(a, a', id) && id in a.pins && FollowsAt(c, a, id, k)
    ensures FollowsAt(c, a', id, k)
  {
    forall i | Tracked(c, i) ensures Follows(a'.cols[i], a'.pins[id], id, k, c.align, c.groups[i]) {
      assert Follows(a.cols[i], a.pins[id], id, k, c.align, c.groups[i]) && SameFor(a.cols[i], a'.cols[i], a, id);
      ChainKept(a.cols[i].segs, a'.cols[i].segs, a.pins[id], k, c.align);
      assert FollowsBy(a'.cols[i], a'.pins[id], id, k, c.align, c.groups[i], ChainOf(a.cols[i].segs, a.pins[id], k, c.align));
    }
  }

  lemma LiveKept(c: Config, a: Adjunct, a': Adjunct, id: Id)
    requires ConfigOk(c) && |a.cols| == |c.groups| && Undisturbed(a, a', id) && LiveOk(c, a, id)
    ensures LiveOk(c, a', id)
  {
    var k: nat :| FollowsAt(c, a, id, k);
    FollowsKept(c, a, a', id, k);
    BackedAtKept(a, a', id);
  }

  lemma BackedAtKept(a: Adjunct, a': Adjunct, id: Id)
    requires Undisturbed(a, a', id) && id in a.pins && BackedAt(a, id)
    ensures BackedAt(a', id)
  {
    forall i | 0 <= i < |a'.cols| && id in a'.cols[i].tables
      ensures Backed(a'.cols[i].segs, a'.pins[id], a'.cols[i].tables[id].borrowed)
    {
      assert SameFor(a.cols[i], a'.cols[i], a, id);
      BackedKept(a.cols[i].segs, a'.cols[i].segs, a.pins[id], a.cols[i].tables[id].borrowed);
    }
  }

  lemma HitKept(c: Config, cols: seq<Column>, cols': seq<Column>, p: Path, f: Found)
    requires ConfigOk(c) && |cols| == |c.groups| == |cols'| && HitOk(c, cols, p, f)
    requires forall i {:trigger cols[i]} {:trigger cols'[i]} :: 0 <= i < |cols| ==> KeepsAlong(cols[i].segs, cols'[i].segs, p)
    ensures HitOk(c, cols', p, f)
  {
    var k: nat :| HitAt(c, cols, p, f, k);
    if k > 0 {
      forall i | 0 <= i < |cols'| ensures Backed(cols'[i].segs, p, f.ids[i]) {
        BackedKept(cols[i].segs, cols'[i].segs, p, f.ids[i]);
      }
      forall i | Tracked(c, i) ensures HitsChain(cols'[i], p, f.ids[i], f.bases[i], k, c.align) {
        assert HitsChain(cols[i], p, f.ids[i], f.bases[i], k, c.align);
        ChainKept(cols[i].segs, cols'[i].segs, p, k, c.align);
      }
    }
    assert HitAt(c, cols', p, f, k);
  }

  lemma RequestKept(c: Config, a: Adjunct, a': Adjunct, id: Id)
    requires ConfigOk(c) && |a.cols| == |c.groups| && Undisturbed(a, a', id) && RequestOk(c, a, id)
    ensures RequestOk(c, a', id)
  {
    if id in a.hits {
      forall i | 0 <= i < |a.cols| ensures KeepsAlong(a.cols[i].segs, a'.cols[i].segs, a.pins[id]) {
        assert SameFor(a.cols[i], a'.cols[i], a, id);
      }
      HitKept(c, a.cols, a'.cols, a.pins[id], a.hits[id]);
    }
    if Serving(a', id) {
      assert SameFor(a.cols[0], a'.cols[0], a, id);
      LiveKept(c, a, a', id);
    }
  }
  // ---------------------------------------------------------------- one column of a commit step

  lemma LayBacked(t: Table, segs: map<Path, Segment>, p: Path, q: Path, width: nat, g: Group)
    requires GroupOk(g) && StepLegal(t, Lay, width, g) && q <= p && q !in segs && Backed(segs, p, t.borrowed)
    ensures Backed(segs[q := Leaves(t, width, g)], p, StepTable(t, Lay, width, g).borrowed)
  {
    var s, t' := Leaves(t, width, g), StepTable(t, Lay, width, g);
    forall x | x in t'.borrowed ensures x in t.borrowed || x in s.pages { LayBorrows(t, width, g, x); }
    AddBacked(segs, p, q, s, t.borrowed, t'.borrowed);
  }

  lemma AddBacked(segs: map<Path, Segment>, p: Path, q: Path, s: Segment, xs: seq<nat>, xs': seq<nat>)
    requires q <= p && q !in segs && Backed(segs, p, xs)
    requires forall x {:trigger x in xs'} :: x in xs' ==> x in xs || x in s.pages
    ensures Backed(segs[q := s], p, xs')
  {
    BackedKept(segs, segs[q := s], p, xs);
    BackedMore(segs[q := s], p, xs, q, xs');
  }

  lemma LayOne(col: Column, id: Id, p: Path, q: Path, width: nat, g: Group)
    requires GroupOk(g) && id in col.tables && StepLegal(col.tables[id], Lay, width, g)
    requires q <= p && q !in col.segs && Backed(col.segs, p, col.tables[id].borrowed)
    ensures var col' := LayColumn(col, id, q, width, g);
            && Pages(col') == Pages(col) && Backed(col'.segs, p, col'.tables[id].borrowed)
            && col'.tables.Keys == col.tables.Keys && col'.segs.Keys == col.segs.Keys + {q}
  {
    LayPages(col, id, q, width, g);
    LayBacked(col.tables[id], col.segs, p, q, width, g);
  }

  lemma TakeOne(col: Column, id: Id, p: Path, q: Path, width: nat, g: Group)
    requires GroupOk(g) && id in col.tables && q in col.segs && StepLegal(col.tables[id], TakeOf(col.segs[q]), width, g)
    requires q <= p && Backed(col.segs, p, col.tables[id].borrowed)
    ensures var col' := TakeColumn(col, id, q, width, g);
            && Pages(col') == Pages(col) && Backed(col'.segs, p, col'.tables[id].borrowed)
            && col'.tables.Keys == col.tables.Keys && col'.segs == col.segs
  {
    TakePages(col, id, q, width, g);
    TakeBacked(col.tables[id], col.segs, p, q, width, g);
  }

  lemma TakeBacked(t: Table, segs: map<Path, Segment>, p: Path, q: Path, width: nat, g: Group)
    requires GroupOk(g) && q in segs && StepLegal(t, TakeOf(segs[q]), width, g) && q <= p && Backed(segs, p, t.borrowed)
    ensures Backed(segs, p, StepTable(t, TakeOf(segs[q]), width, g).borrowed)
  {
    var t' := StepTable(t, TakeOf(segs[q]), width, g);
    forall x | x in t'.borrowed ensures x in t.borrowed || x in segs[q].pages { TakeBorrows(t, TakeOf(segs[q]), width, g, x); }
    BackedMore(segs, p, t.borrowed, q, t'.borrowed);
  }

  lemma LayFollows(col: Column, col': Column, id: Id, p: Path, k: nat, align: nat, g: Group)
    requires id in col.tables && GroupOk(g) && StepLegal(col.tables[id], Lay, align, g) && Boundary(k + 1, align) <= |p|
    requires col' == LayColumn(col, id, p[..Boundary(k + 1, align)], align, g)
    requires g.history && Follows(col, p, id, k, align, g) && AllStepped(col.segs, align, g)
    requires Boundary(k + 1, align) <= |p| && p[..Boundary(k + 1, align)] !in col.segs && Preflight(col.tables[id], Boundary(k + 1, align), g)
    ensures Follows(col', p, id, k + 1, align, g) && AllStepped(col'.segs, align, g)
  {
    var t := col.tables[id];
    ChainSteps(col.segs, p, k, align, g);
    RidesLay(t, ChainOf(col.segs, p, k, align), align, g);
    FollowNext(col, col', id, p, k, align, g, StepTable(t, Lay, align, g), Leaves(t, align, g));
  }

  lemma FollowNext(col: Column, col': Column, id: Id, p: Path, k: nat, align: nat, g: Group, t: Table, s: Segment)
    requires GroupOk(g) && AllStepped(col.segs, align, g) && Present(col.segs, p, k, align) && Boundary(k + 1, align) <= |p|
    requires p[..Boundary(k + 1, align)] !in col.segs && StepSegment(s, k, align, g)
    requires Rides(t, ChainOf(col.segs, p, k, align) + [s], align, g)
    requires col'.tables == col.tables[id := t] && col'.segs == col.segs[p[..Boundary(k + 1, align)] := s]
    ensures Follows(col', p, id, k + 1, align, g) && AllStepped(col'.segs, align, g)
  {
    LaidNext(col.segs, p, k, align, g, s);
    FollowsIs(col', p, id, k + 1, align, g, t, col.segs[p[..Boundary(k + 1, align)] := s]);
  }

  lemma FollowsIs(col: Column, p: Path, id: Id, k: nat, align: nat, g: Group, t: Table, segs: map<Path, Segment>)
    requires GroupOk(g) && id in col.tables && col.tables[id] == t && col.segs == segs
    requires Present(segs, p, k, align) && Rides(t, ChainOf(segs, p, k, align), align, g)
    ensures Follows(col, p, id, k, align, g)
  {
    assert FollowsBy(col, p, id, k, align, g, ChainOf(segs, p, k, align));
  }

  lemma LaidNext(segs: map<Path, Segment>, p: Path, k: nat, align: nat, g: Group, s: Segment)
    requires GroupOk(g) && AllStepped(segs, align, g) && Present(segs, p, k, align) && Boundary(k + 1, align) <= |p|
    requires p[..Boundary(k + 1, align)] !in segs && StepSegment(s, k, align, g)
    ensures var segs' := segs[p[..Boundary(k + 1, align)] := s];
            && AllStepped(segs', align, g) && Present(segs', p, k + 1, align)
            && ChainOf(segs', p, k + 1, align) == ChainOf(segs, p, k, align) + [s]
  {
    var q := p[..Boundary(k + 1, align)];
    ChainKept(segs, segs[q := s], p, k, align);
    assert StepAt(q, s, k, align, g);
  }

  lemma TakeFollows(col: Column, id: Id, p: Path, k: nat, align: nat, g: Group)
    requires GroupOk(g) && g.history && Follows(col, p, id, k, align, g) && AllStepped(col.segs, align, g)
    requires Boundary(k + 1, align) <= |p| && p[..Boundary(k + 1, align)] in col.segs && Preflight(col.tables[id], Boundary(k + 1, align), g)
    ensures StepLegal(col.tables[id], TakeOf(col.segs[p[..Boundary(k + 1, align)]]), align, g)
    ensures Follows(TakeColumn(col, id, p[..Boundary(k + 1, align)], align, g), p, id, k + 1, align, g)
  {
    var q := p[..Boundary(k + 1, align)];
    ChainSteps(col.segs, p, k, align, g);
    StepOfDepth(q, col.segs[q], k, align, g);
    RidesTake(col.tables[id], ChainOf(col.segs, p, k, align), col.segs[q], align, g);
    assert FollowsBy(TakeColumn(col, id, q, align, g), p, id, k + 1, align, g, ChainOf(col.segs, p, k, align) + [col.segs[q]]);
  }
  // ---------------------------------------------------------------- a commit step of one request

  /** Only the request's table and the node's segment have changed, pages have only changed hands, and what the request borrows
      is still held on its path. */
  ghost predicate ColumnStep(col: Column, col': Column, id: Id, p: Path, q: Path) {
    exists pages {:trigger ColumnStepBy(col, col', id, p, q, pages)} :: ColumnStepBy(col, col', id, p, q, pages)
  }

  ghost predicate ColumnStepBy(col: Column, col': Column, id: Id, p: Path, q: Path, pages: multiset<nat>) {
    && pages == Pages(col) == Pages(col') && col'.tables.Keys == col.tables.Keys
    && (forall x {:trigger col'.tables[x]} {:trigger col.tables[x]} :: x in col.tables && x != id ==> col'.tables[x] == col.tables[x])
    && (forall q' {:trigger q' in col.segs} {:trigger q' in col'.segs} :: q' in col.segs ==> q' in col'.segs && col'.segs[q'] == col.segs[q'])
    && col'.segs.Keys <= col.segs.Keys + {q}
    && (id in col'.tables ==> Backed(col'.segs, p, col'.tables[id].borrowed))
  }

  ghost predicate StepOf(a: Adjunct, a': Adjunct, id: Id, q: Path)
    requires id in a.pins
  {
    && a'.pins == a.pins && a'.hits == a.hits && |a'.cols| == |a.cols| && q in a'.snaps && a.snaps <= a'.snaps
    && forall i {:trigger a.cols[i]} {:trigger a'.cols[i]} :: 0 <= i < |a.cols| ==> ColumnStep(a.cols[i], a'.cols[i], id, a.pins[id], q)
  }

  lemma StepOthers(a: Adjunct, a': Adjunct, id: Id, q: Path, other: Id)
    requires id in a.pins && StepOf(a, a', id, q) && other != id && |a.cols| > 0
    ensures Undisturbed(a, a', other)
  {
    forall i | 0 <= i < |a.cols| ensures SameFor(a.cols[i], a'.cols[i], a, other) {
      assert ColumnStep(a.cols[i], a'.cols[i], id, a.pins[id], q);
    }
  }

  lemma StepShape(c: Config, a: Adjunct, a': Adjunct, id: Id, q: Path, pools: seq<multiset<nat>>)
    requires Shape(c, a) && Conserved(a, pools) && id in a.pins && StepOf(a, a', id, q)
    ensures Shape(c, a') && Conserved(a', pools)
  {
    forall i | 0 <= i < |a'.cols| ensures a'.cols[i].tables.Keys == a'.cols[0].tables.Keys && a'.cols[i].segs.Keys <= a'.snaps && Pages(a'.cols[i]) == pools[i] {
      assert ColumnStep(a.cols[i], a'.cols[i], id, a.pins[id], q) && ColumnStep(a.cols[0], a'.cols[0], id, a.pins[id], q);
    }
  }

  /** A step of one request keeps the invariant if that request still follows its path. */
  lemma StepKeepsInv(c: Config, a: Adjunct, a': Adjunct, id: Id, q: Path, k: nat, pools: seq<multiset<nat>>)
    requires Inv(c, a, pools) && Serving(a, id) && StepOf(a, a', id, q)
    requires Stepping(c, a') && FollowsAt(c, a', id, k)
    ensures Inv(c, a', pools) && Serving(a', id)
  {
    StepShape(c, a, a', id, q, pools);
    assert ColumnStep(a.cols[0], a'.cols[0], id, a.pins[id], q);
    forall x: Id ensures RequestOk(c, a', x) {
      if x == id {
        forall i | 0 <= i < |a'.cols| && id in a'.cols[i].tables ensures Backed(a'.cols[i].segs, a'.pins[id], a'.cols[i].tables[id].borrowed) {
          assert ColumnStep(a.cols[i], a'.cols[i], id, a.pins[id], q);
        }
        assert BackedAt(a', id);
      } else {
        assert RequestOk(c, a, x);
        StepOthers(a, a', id, q, x);
        RequestKept(c, a, a', x);
      }
    }
  }

  lemma SameColumn(col: Column, id: Id, p: Path, q: Path)
    requires id in col.tables ==> Backed(col.segs, p, col.tables[id].borrowed)
    ensures ColumnStep(col, col, id, p, q)
  {
    assert ColumnStepBy(col, col, id, p, q, Pages(col));
  }

  lemma LayStep(col: Column, col': Column, id: Id, p: Path, q: Path, width: nat, g: Group)
    requires GroupOk(g) && id in col.tables && StepLegal(col.tables[id], Lay, width, g) && col' == LayColumn(col, id, q, width, g)
    requires q <= p && q !in col.segs && Backed(col.segs, p, col.tables[id].borrowed)
    ensures ColumnStep(col, col', id, p, q)
  {
    LayOne(col, id, p, q, width, g);
    assert ColumnStepBy(col, col', id, p, q, Pages(col));
  }

  lemma TakeStep(col: Column, id: Id, p: Path, q: Path, width: nat, g: Group)
    requires GroupOk(g) && id in col.tables && q in col.segs && StepLegal(col.tables[id], TakeOf(col.segs[q]), width, g)
    requires q <= p && Backed(col.segs, p, col.tables[id].borrowed)
    ensures ColumnStep(col, TakeColumn(col, id, q, width, g), id, p, q)
  {
    TakeOne(col, id, p, q, width, g);
    assert ColumnStepBy(col, TakeColumn(col, id, q, width, g), id, p, q, Pages(col));
  }

  /** What is known of a live request that has committed k steps. */
  ghost predicate At(c: Config, a: Adjunct, id: Id, k: nat, pools: seq<multiset<nat>>) {
    exists p {:trigger AtNode(c, a, id, k, pools, p)} :: AtNode(c, a, id, k, pools, p)
  }

  /** It holds the node at the end of this path. */
  ghost predicate AtNode(c: Config, a: Adjunct, id: Id, k: nat, pools: seq<multiset<nat>>, p: Path) {
    Inv(c, a, pools) && Serving(a, id) && a.pins[id] == p && FollowsAt(c, a, id, k)
  }

  lemma StepKeepsAt(c: Config, a: Adjunct, a': Adjunct, id: Id, q: Path, k: nat, pools: seq<multiset<nat>>)
    requires Inv(c, a, pools) && Serving(a, id) && StepOf(a, a', id, q)
    requires Stepping(c, a') && FollowsAt(c, a', id, k)
    ensures At(c, a', id, k, pools)
  {
    StepKeepsInv(c, a, a', id, q, k, pools);
    assert AtNode(c, a', id, k, pools, a'.pins[id]);
  }

  lemma AtHas(c: Config, a: Adjunct, id: Id, k: nat, pools: seq<multiset<nat>>)
    requires At(c, a, id, k, pools)
    ensures Inv(c, a, pools) && Serving(a, id) && FollowsAt(c, a, id, k) && Has(c, a, id) && BackedAt(a, id)
    ensures forall i {:trigger a.cols[i]} :: Tracked(c, i) ==> a.cols[i].tables[id].committed == Boundary(k, c.align)
  {
    assert RequestOk(c, a, id);
    forall i | Tracked(c, i) ensures a.cols[i].tables[id].committed == Boundary(k, c.align) {
      assert Follows(a.cols[i], a.pins[id], id, k, c.align, c.groups[i]);
      ChainSteps(a.cols[i].segs, a.pins[id], k, c.align, c.groups[i]);
    }
  }

  lemma LaidAt(c: Config, a: Adjunct, id: Id, q: Path, target: nat, i: nat)
    requires ConfigOk(c) && Has(c, a, id) && LayableAll(c, a, id, target) && i < |a.cols|
    ensures i < c.required ==> Layable(a.cols[i].tables[id], target, c.groups[i])
    ensures LayAll(c, a, id, q, target)[i] ==
            if i < c.required then LayColumn(a.cols[i], id, q, target - a.cols[i].tables[id].committed, c.groups[i]) else a.cols[i]
  {
  }

  lemma LayAllStep(c: Config, a: Adjunct, id: Id, q: Path, target: nat, i: nat)
    requires ConfigOk(c) && Has(c, a, id) && id in a.pins && BackedAt(a, id) && LayableAll(c, a, id, target)
    requires i < |a.cols| && q <= a.pins[id] && q !in a.cols[i].segs
    ensures ColumnStep(a.cols[i], LayAll(c, a, id, q, target)[i], id, a.pins[id], q)
  {
    LaidAt(c, a, id, q, target, i);
    if i < c.required {
      LayStep(a.cols[i], LayAll(c, a, id, q, target)[i], id, a.pins[id], q, target - a.cols[i].tables[id].committed, c.groups[i]);
    } else {
      SameColumn(a.cols[i], id, a.pins[id], q);
    }
  }

  lemma LayAllSteps(c: Config, a: Adjunct, a': Adjunct, id: Id, q: Path, target: nat)
    requires ConfigOk(c) && Has(c, a, id) && id in a.pins && BackedAt(a, id) && LayableAll(c, a, id, target)
    requires q <= a.pins[id] && q !in a.snaps && (forall i {:trigger a.cols[i]} :: 0 <= i < |a.cols| ==> a.cols[i].segs.Keys <= a.snaps)
    requires a'.cols == LayAll(c, a, id, q, target) && a'.snaps == a.snaps + {q} && a'.pins == a.pins && a'.hits == a.hits
    ensures StepOf(a, a', id, q)
  {
    forall i | 0 <= i < |a.cols| ensures ColumnStep(a.cols[i], a'.cols[i], id, a.pins[id], q) {
      LayAllStep(c, a, id, q, target, i);
    }
  }

  lemma LayAllFollow(c: Config, a: Adjunct, id: Id, k: nat, i: nat)
    requires ConfigOk(c) && Has(c, a, id) && id in a.pins && Tracked(c, i) && AllStepped(a.cols[i].segs, c.align, c.groups[i])
    requires Follows(a.cols[i], a.pins[id], id, k, c.align, c.groups[i])
    requires Boundary(k + 1, c.align) <= |a.pins[id]| && PreflightAll(c, a, id, Boundary(k + 1, c.align)) && LayableAll(c, a, id, Boundary(k + 1, c.align))
    requires a.pins[id][..Boundary(k + 1, c.align)] !in a.cols[i].segs
    ensures var col' := LayAll(c, a, id, a.pins[id][..Boundary(k + 1, c.align)], Boundary(k + 1, c.align))[i];
            Follows(col', a.pins[id], id, k + 1, c.align, c.groups[i]) && AllStepped(col'.segs, c.align, c.groups[i])
  {
    var p, d := a.pins[id], Boundary(k + 1, c.align);
    LaidAt(c, a, id, p[..d], d, i);
    ChainSteps(a.cols[i].segs, p, k, c.align, c.groups[i]);
    assert d - a.cols[i].tables[id].committed == c.align;
    LayFollows(a.cols[i], LayAll(c, a, id, p[..d], d)[i], id, p, k, c.align, c.groups[i]);
  }

  lemma LayAllFollows(c: Config, a: Adjunct, a': Adjunct, id: Id, k: nat)
    requires ConfigOk(c) && Has(c, a, id) && id in a.pins && Stepping(c, a) && FollowsAt(c, a, id, k)
    requires Boundary(k + 1, c.align) <= |a.pins[id]| && PreflightAll(c, a, id, Boundary(k + 1, c.align)) && LayableAll(c, a, id, Boundary(k + 1, c.align))
    requires a'.cols == LayAll(c, a, id, a.pins[id][..Boundary(k + 1, c.align)], Boundary(k + 1, c.align)) && a'.pins == a.pins
    requires forall i {:trigger a.cols[i]} :: 0 <= i < |a.cols| ==> a.pins[id][..Boundary(k + 1, c.align)] !in a.cols[i].segs
    ensures Stepping(c, a') && FollowsAt(c, a', id, k + 1)
  {
    forall i | Tracked(c, i) ensures Follows(a'.cols[i], a.pins[id], id, k + 1, c.align, c.groups[i]) && AllStepped(a'.cols[i].segs, c.align, c.groups[i]) {
      assert Follows(a.cols[i], a.pins[id], id, k, c.align, c.groups[i]) && AllStepped(a.cols[i].segs, c.align, c.groups[i]);
      LayAllFollow(c, a, id, k, i);
    }
  }

  /** A commit step keeps every history segment a whole step exactly if every required history group has committed up to the
      boundary before: what the first required group alone decides. */
  lemma LayExactly(c: Config, a: Adjunct, a': Adjunct, id: Id, k: nat)
    requires ConfigOk(c) && Has(c, a, id) && id in a.pins && Stepping(c, a)
    requires Boundary(k + 1, c.align) <= |a.pins[id]| && PreflightAll(c, a, id, Boundary(k + 1, c.align)) && LayableAll(c, a, id, Boundary(k + 1, c.align))
    requires a'.cols == LayAll(c, a, id, a.pins[id][..Boundary(k + 1, c.align)], Boundary(k + 1, c.align))
    ensures Stepping(c, a') <==> forall i {:trigger a.cols[i]} :: Tracked(c, i) ==> a.cols[i].tables[id].committed == Boundary(k, c.align)
  {
    forall i | Tracked(c, i)
      ensures AllStepped(a'.cols[i].segs, c.align, c.groups[i]) <==> a.cols[i].tables[id].committed == Boundary(k, c.align)
    {
      LayExactlyOne(c, a, id, k, i);
    }
  }

  lemma LayExactlyOne(c: Config, a: Adjunct, id: Id, k: nat, i: nat)
    requires ConfigOk(c) && Has(c, a, id) && id in a.pins && Tracked(c, i) && AllStepped(a.cols[i].segs, c.align, c.groups[i])
    requires Boundary(k + 1, c.align) <= |a.pins[id]| && PreflightAll(c, a, id, Boundary(k + 1, c.align)) && LayableAll(c, a, id, Boundary(k + 1, c.align))
    ensures var col' := LayAll(c, a, id, a.pins[id][..Boundary(k + 1, c.align)], Boundary(k + 1, c.align))[i];
            AllStepped(col'.segs, c.align, c.groups[i]) <==> a.cols[i].tables[id].committed == Boundary(k, c.align)
  {
    var d := Boundary(k + 1, c.align);
    LaidAt(c, a, id, a.pins[id][..d], d, i);
    assert Preflight(a.cols[i].tables[id], d, c.groups[i]) && Layable(a.cols[i].tables[id], d, c.groups[i]);
    InStepExactly(a.cols[i].tables[id], k, c.align, c.groups[i]);
    SteppedExactly(a.cols[i].segs, a.pins[id][..d], Leaves(a.cols[i].tables[id], d - a.cols[i].tables[id].committed, c.groups[i]), k, c.align, c.groups[i]);
  }

  lemma SteppedExactly(segs: map<Path, Segment>, q: Path, s: Segment, k: nat, align: nat, g: Group)
    requires GroupOk(g) && align > 0 && AllStepped(segs, align, g) && |q| == Boundary(k + 1, align)
    ensures AllStepped(segs[q := s], align, g) <==> StepSegment(s, k, align, g)
  {
    if AllStepped(segs[q := s], align, g) {
      assert q in segs[q := s];
      StepOfDepth(q, s, k, align, g);
    }
    if StepSegment(s, k, align, g) { assert StepAt(q, s, k, align, g); }
  }

  lemma LayAllKeeps(c: Config, a: Adjunct, id: Id, k: nat, nodes: set<Path>, pools: seq<multiset<nat>>)
    requires id in a.pins && At(c, a, id, k, pools) && Boundary(k + 1, c.align) <= |a.pins[id]| && a.pins[id][..Boundary(k + 1, c.align)] !in a.snaps
    requires Has(c, a, id) && PreflightAll(c, a, id, Boundary(k + 1, c.align)) && LayableAll(c, a, id, Boundary(k + 1, c.align))
    ensures var q := a.pins[id][..Boundary(k + 1, c.align)];
            At(c, a.(nodes := nodes, cols := LayAll(c, a, id, q, |q|), snaps := a.snaps + {q}), id, k + 1, pools)
  {
    var q := a.pins[id][..Boundary(k + 1, c.align)];
    var a' := a.(nodes := nodes, cols := LayAll(c, a, id, q, |q|), snaps := a.snaps + {q});
    AtHas(c, a, id, k, pools);
    LayAllSteps(c, a, a', id, q, |q|);
    LayAllFollows(c, a, a', id, k);
    StepKeepsAt(c, a, a', id, q, k + 1, pools);
  }

  lemma TakenAt(c: Config, a: Adjunct, id: Id, q: Path, target: nat, i: nat)
    requires ConfigOk(c) && Has(c, a, id) && Complete(c, a, q) && TakableAll(c, a, id, q, target) && i < |a.cols|
    ensures i < c.required ==> Takable(a.cols[i], id, q, target, c.groups[i])
    ensures TakeAll(c, a, id, q, target)[i] ==
            if i < c.required then TakeColumn(a.cols[i], id, q, target - a.cols[i].tables[id].committed, c.groups[i]) else a.cols[i]
  {
  }

  lemma TakeAllStep(c: Config, a: Adjunct, id: Id, q: Path, target: nat, i: nat)
    requires ConfigOk(c) && Has(c, a, id) && id in a.pins && BackedAt(a, id)
    requires q <= a.pins[id] && Complete(c, a, q) && TakableAll(c, a, id, q, target) && i < |a.cols|
    ensures ColumnStep(a.cols[i], TakeAll(c, a, id, q, target)[i], id, a.pins[id], q)
  {
    TakenAt(c, a, id, q, target, i);
    if i < c.required {
      TakeStep(a.cols[i], id, a.pins[id], q, target - a.cols[i].tables[id].committed, c.groups[i]);
    } else {
      SameColumn(a.cols[i], id, a.pins[id], q);
    }
  }

  lemma TakeAllSteps(c: Config, a: Adjunct, a': Adjunct, id: Id, q: Path, target: nat)
    requires ConfigOk(c) && Has(c, a, id) && id in a.pins && BackedAt(a, id)
    requires q <= a.pins[id] && q in a.snaps && Complete(c, a, q) && TakableAll(c, a, id, q, target)
    requires a'.cols == TakeAll(c, a, id, q, target) && a'.snaps == a.snaps && a'.pins == a.pins && a'.hits == a.hits
    ensures StepOf(a, a', id, q)
  {
    forall i | 0 <= i < |a.cols| ensures ColumnStep(a.cols[i], a'.cols[i], id, a.pins[id], q) {
      TakeAllStep(c, a, id, q, target, i);
    }
  }

  lemma TakeAllFollow(c: Config, a: Adjunct, id: Id, k: nat, i: nat)
    requires ConfigOk(c) && Has(c, a, id) && id in a.pins && Tracked(c, i) && AllStepped(a.cols[i].segs, c.align, c.groups[i])
    requires Follows(a.cols[i], a.pins[id], id, k, c.align, c.groups[i])
    requires Boundary(k + 1, c.align) <= |a.pins[id]| && PreflightAll(c, a, id, Boundary(k + 1, c.align))
    requires Complete(c, a, a.pins[id][..Boundary(k + 1, c.align)])
    requires TakableAll(c, a, id, a.pins[id][..Boundary(k + 1, c.align)], Boundary(k + 1, c.align))
    ensures var col' := TakeAll(c, a, id, a.pins[id][..Boundary(k + 1, c.align)], Boundary(k + 1, c.align))[i];
            Follows(col', a.pins[id], id, k + 1, c.align, c.groups[i]) && AllStepped(col'.segs, c.align, c.groups[i])
  {
    var p := a.pins[id];
    TakenAt(c, a, id, p[..Boundary(k + 1, c.align)], Boundary(k + 1, c.align), i);
    ChainSteps(a.cols[i].segs, p, k, c.align, c.groups[i]);
    TakeFollows(a.cols[i], id, p, k, c.align, c.groups[i]);
  }

  lemma TakeAllFollows(c: Config, a: Adjunct, a': Adjunct, id: Id, k: nat)
    requires ConfigOk(c) && Has(c, a, id) && id in a.pins && Stepping(c, a) && FollowsAt(c, a, id, k)
    requires Boundary(k + 1, c.align) <= |a.pins[id]| && PreflightAll(c, a, id, Boundary(k + 1, c.align))
    requires Complete(c, a, a.pins[id][..Boundary(k + 1, c.align)])
    requires TakableAll(c, a, id, a.pins[id][..Boundary(k + 1, c.align)], Boundary(k + 1, c.align))
    requires a'.cols == TakeAll(c, a, id, a.pins[id][..Boundary(k + 1, c.align)], Boundary(k + 1, c.align)) && a'.pins == a.pins
    ensures Stepping(c, a') && FollowsAt(c, a', id, k + 1)
  {
    forall i | Tracked(c, i) ensures Follows(a'.cols[i], a.pins[id], id, k + 1, c.align, c.groups[i]) && AllStepped(a'.cols[i].segs, c.align, c.groups[i]) {
      assert Follows(a.cols[i], a.pins[id], id, k, c.align, c.groups[i]) && AllStepped(a.cols[i].segs, c.align, c.groups[i]);
      TakeAllFollow(c, a, id, k, i);
    }
  }

  lemma TakeAllKeeps(c: Config, a: Adjunct, id: Id, k: nat, nodes: set<Path>, pools: seq<multiset<nat>>)
    requires id in a.pins && At(c, a, id, k, pools) && Boundary(k + 1, c.align) <= |a.pins[id]| && a.pins[id][..Boundary(k + 1, c.align)] in a.snaps
    requires Has(c, a, id) && PreflightAll(c, a, id, Boundary(k + 1, c.align)) && Complete(c, a, a.pins[id][..Boundary(k + 1, c.align)])
    requires TakableAll(c, a, id, a.pins[id][..Boundary(k + 1, c.align)], Boundary(k + 1, c.align))
    ensures var q := a.pins[id][..Boundary(k + 1, c.align)];
            At(c, a.(nodes := nodes, cols := TakeAll(c, a, id, q, |q|)), id, k + 1, pools)
  {
    var q := a.pins[id][..Boundary(k + 1, c.align)];
    var a' := a.(nodes := nodes, cols := TakeAll(c, a, id, q, |q|));
    AtHas(c, a, id, k, pools);
    TakeAllSteps(c, a, a', id, q, |q|);
    TakeAllFollows(c, a, a', id, k);
    StepKeepsAt(c, a, a', id, q, k + 1, pools);
  }
  /** Splitting nodes changes nothing else. */
  lemma NodesKeep(c: Config, a: Adjunct, nodes: set<Path>, pools: seq<multiset<nat>>)
    requires Inv(c, a, pools)
    ensures Inv(c, a.(nodes := nodes), pools)
  {
    var a' := a.(nodes := nodes);
    forall id: Id ensures RequestOk(c, a', id) {
      assert RequestOk(c, a, id);
      forall i | 0 <= i < |a.cols| ensures SameFor(a.cols[i], a'.cols[i], a, id) { }
      RequestKept(c, a, a', id);
    }
  }

  lemma NodesKeepAt(c: Config, a: Adjunct, id: Id, k: nat, nodes: set<Path>, pools: seq<multiset<nat>>)
    requires At(c, a, id, k, pools)
    ensures At(c, a.(nodes := nodes), id, k, pools)
  {
    var a' := a.(nodes := nodes);
    AtHas(c, a, id, k, pools);
    NodesKeep(c, a, nodes, pools);
    forall i | 0 <= i < |a.cols| ensures SameFor(a.cols[i], a'.cols[i], a, id) { }
    FollowsKept(c, a, a', id, k);
    assert AtNode(c, a', id, k, pools, a'.pins[id]);
  }

  /** One alignment step of a commit keeps the invariant, and the request goes on following its path. */
  lemma StepToKeeps(c: Config, a: Adjunct, id: Id, k: nat, pools: seq<multiset<nat>>) returns (o: Progress)
    requires id in a.pins && At(c, a, id, k, pools) && Has(c, a, id) && Boundary(k + 1, c.align) <= |a.pins[id]|
    ensures o == StepTo(c, a, id, Boundary(k + 1, c.align))
    ensures (o.Went? ==> At(c, o.a, id, k + 1, pools)) && (o.Halt? ==> At(c, o.a, id, k, pools))
  {
    var target := Boundary(k + 1, c.align);
    var q := a.pins[id][..target];
    o := StepTo(c, a, id, target);
    match SplitAt(a.nodes, a.snaps, a.pins[id], target, c.size)
    case None =>
    case Some(nodes) =>
      NodesKeepAt(c, a, id, k, nodes, pools);
      if PreflightAll(c, a, id, target) {
        if q !in a.snaps {
          PreflightLayable(c, a, id, target);
          LayAllKeeps(c, a, id, k, nodes, pools);
        } else if Complete(c, a, q) && TakableAll(c, a, id, q, target) {
          TakeAllKeeps(c, a, id, k, nodes, pools);
        }
      }
  }

  /** A live request that follows its path, however far it has committed. */
  ghost predicate Running(c: Config, a: Adjunct, id: Id, pools: seq<multiset<nat>>) {
    exists k: nat {:trigger At(c, a, id, k, pools)} :: At(c, a, id, k, pools)
  }

  /** The steps threw, or ended with the request still following its path. */
  ghost predicate Lands(c: Config, o: Progress, id: Id, pools: seq<multiset<nat>>) {
    exists b {:trigger LandsAt(c, o, id, pools, b)} :: LandsAt(c, o, id, pools, b)
  }

  ghost predicate LandsAt(c: Config, o: Progress, id: Id, pools: seq<multiset<nat>>, b: Adjunct) {
    o.Threw? || (o == Went(b) && Running(c, b, id, pools))
  }

  lemma {:induction false} StepsKeep(c: Config, a: Adjunct, id: Id, k: nat, pools: seq<multiset<nat>>)
    requires id in a.pins && At(c, a, id, k, pools) && Has(c, a, id)
    ensures Lands(c, StepsFrom(c, a, id, Boundary(k, c.align)), id, pools)
    decreases |a.pins[id]| - Boundary(k, c.align)
  {
    var last := Boundary(k, c.align);
    AtConfig(c, a, id, k, pools);
    if last + c.align > |a.pins[id]| {
      StepsStop(c, a, id, last);
      LandsHere(c, a, id, k, pools);
    } else {
      var o := OneStep(c, a, id, k, pools);
      match o
      case Went(a') => StepsKeep(c, a', id, k + 1, pools);
      case Halt(a') => LandsHere(c, a', id, k, pools);
      case Threw => assert LandsAt(c, Threw, id, pools, a);
    }
  }

  lemma OneStep(c: Config, a: Adjunct, id: Id, k: nat, pools: seq<multiset<nat>>) returns (o: Progress)
    requires ConfigOk(c) && id in a.pins && At(c, a, id, k, pools) && Has(c, a, id) && Boundary(k + 1, c.align) <= |a.pins[id]|
    ensures o.Went? ==>
              && Has(c, o.a, id) && o.a.pins == a.pins && At(c, o.a, id, k + 1, pools)
              && StepsFrom(c, a, id, Boundary(k, c.align)) == StepsFrom(c, o.a, id, Boundary(k + 1, c.align))
    ensures o.Halt? ==> At(c, o.a, id, k, pools) && StepsFrom(c, a, id, Boundary(k, c.align)) == Went(o.a)
    ensures o.Threw? ==> StepsFrom(c, a, id, Boundary(k, c.align)) == Threw
  {
    o := StepToKeeps(c, a, id, k, pools);
    StepsUnfold(c, a, id, Boundary(k, c.align), o);
  }

  lemma AtConfig(c: Config, a: Adjunct, id: Id, k: nat, pools: seq<multiset<nat>>)
    requires At(c, a, id, k, pools)
    ensures ConfigOk(c)
  {
  }

  lemma LandsHere(c: Config, a: Adjunct, id: Id, k: nat, pools: seq<multiset<nat>>)
    requires At(c, a, id, k, pools)
    ensures Lands(c, Went(a), id, pools)
  {
    assert LandsAt(c, Went(a), id, pools, a);
  }

  // ---------------------------------------------------------------- the continuation snapshot

  lemma EndIs(col: Column, id: Id, p: Path, width: nat, g: Group)
    requires GroupOk(g) && id in col.tables && col.tables[id].committed + width == |p| && width > 0 && StepLegal(col.tables[id], Lay, width, g)
    ensures EndColumn(col, id, p, g) == Attach(col, LayColumn(col, id, p, width, g), p)
  {
  }

  lemma EndNot(col: Column, id: Id, p: Path, g: Group)
    requires GroupOk(g) && id in col.tables && col.tables[id].committed >= |p|
    ensures EndColumn(col, id, p, g) == (col, false)
  {
  }

  lemma EndStep(col: Column, id: Id, p: Path, g: Group)
    requires GroupOk(g) && id in col.tables && Checkable(col.tables[id], |p|, g)
    requires p !in col.segs && Backed(col.segs, p, col.tables[id].borrowed)
    ensures ColumnStep(col, EndColumn(col, id, p, g).0, id, p, p)
  {
    var t := col.tables[id];
    if |p| <= t.committed {
      EndNot(col, id, p, g);
      SameColumn(col, id, p, p);
    } else {
      EndGoes(col, id, p, |p| - t.committed, g);
    }
  }

  lemma EndGoes(col: Column, id: Id, p: Path, width: nat, g: Group)
    requires GroupOk(g) && id in col.tables && col.tables[id].committed + width == |p| && width > 0 && StepLegal(col.tables[id], Lay, width, g)
    requires p !in col.segs && Backed(col.segs, p, col.tables[id].borrowed)
    ensures ColumnStep(col, EndColumn(col, id, p, g).0, id, p, p)
  {
    EndIs(col, id, p, width, g);
    var r := EndLaid(col, LayColumn(col, id, p, width, g), id, p, width, g);
  }

  lemma EndLaid(col: Column, laid: Column, id: Id, p: Path, width: nat, g: Group) returns (r: (Column, bool))
    requires GroupOk(g) && id in col.tables && StepLegal(col.tables[id], Lay, width, g) && laid == LayColumn(col, id, p, width, g)
    requires p !in col.segs && Backed(col.segs, p, col.tables[id].borrowed)
    ensures r == Attach(col, laid, p) && ColumnStep(col, r.0, id, p, p)
  {
    LayStep(col, laid, id, p, p, width, g);
    r := AttachStep(col, laid, id, p);
  }

  lemma AttachStep(col: Column, laid: Column, id: Id, p: Path) returns (r: (Column, bool))
    requires ColumnStep(col, laid, id, p, p) && p !in col.segs && p in laid.segs
    ensures r == Attach(col, laid, p) && ColumnStep(col, r.0, id, p, p)
  {
    r := Attach(col, laid, p);
    if laid.segs[p].pages == [] { EmptyStep(col, laid, id, p); }
  }

  /** A segment without pages may as well not be there. */
  lemma EmptyStep(col: Column, laid: Column, id: Id, p: Path)
    requires ColumnStep(col, laid, id, p, p) && p !in col.segs && p in laid.segs && laid.segs[p].pages == []
    ensures ColumnStep(col, laid.(segs := col.segs), id, p, p)
  {
    var col' := laid.(segs := col.segs);
    var pages :| ColumnStepBy(col, laid, id, p, p, pages);
    EmptyPages(col', laid, p);
    if id in col'.tables { EmptyBacked(col.segs, laid.segs, p, col'.tables[id].borrowed); }
    assert ColumnStepBy(col, col', id, p, p, pages);
  }

  lemma EmptyPages(col: Column, laid: Column, p: Path)
    requires p !in col.segs && p in laid.segs && laid.segs[p].pages == [] && laid == col.(segs := laid.segs)
    requires laid.segs == col.segs[p := laid.segs[p]]
    ensures Pages(col) == Pages(laid)
  {
    LentAdd(col, p, laid.segs[p]);
    assert Owns(laid) == Owns(col);
  }

  lemma EmptyBacked(segs: map<Path, Segment>, segs': map<Path, Segment>, p: Path, xs: seq<nat>)
    requires p !in segs && p in segs' && segs'[p].pages == [] && segs' == segs[p := segs'[p]] && Backed(segs', p, xs)
    ensures Backed(segs, p, xs)
  {
    forall x | x in xs ensures OnPath(segs, p, x) {
      assert OnPath(segs', p, x);
      var q :| q in segs' && q <= p && x in segs'[q].pages;
      assert q in segs;
    }
  }

  /** State groups checkpointed so far are a step further on, the others are as they were. */
  ghost predicate Ending(c: Config, a: Adjunct, cols: seq<Column>, id: Id, p: Path)
    requires ConfigOk(c) && |a.cols| == |c.groups|
  {
    && |cols| == |a.cols|
    && (forall i {:trigger cols[i]} {:trigger a.cols[i]} :: 0 <= i < |cols| ==> ColumnStep(a.cols[i], cols[i], id, p, p))
    && (forall i {:trigger cols[i]} {:trigger a.cols[i]} :: Tracked(c, i) ==> cols[i] == a.cols[i])
  }

  lemma {:induction false} EndFromKeeps(c: Config, a: Adjunct, id: Id, cols: seq<Column>, j: nat)
    requires ConfigOk(c) && Has(c, a, id) && j <= |c.states| && id in a.pins && EndReady(c, a, id, a.pins[id]) && BackedAt(a, id)
    requires |cols| == |a.cols| && forall i {:trigger c.states[i]} :: j <= i < |c.states| ==> cols[c.states[i]] == a.cols[c.states[i]]
    requires Ending(c, a, cols, id, a.pins[id])
    ensures Ending(c, a, EndFrom(c, a, id, a.pins[id], cols, j), id, a.pins[id])
    decreases |c.states| - j
  {
    var p := a.pins[id];
    if j < |c.states| {
      var i := c.states[j];
      if !Missing(a, i, p) {
        EndFromKeeps(c, a, id, cols, j + 1);
      } else {
        SpansCheckable(a.cols[i].tables[id], |p|, c.groups[i]);
        EndStep(a.cols[i], id, p, c.groups[i]);
        var (col, more) := EndColumn(a.cols[i], id, p, c.groups[i]);
        EndingMore(c, a, cols, id, p, i, col);
        if more { EndFromKeeps(c, a, id, cols[i := col], j + 1); }
      }
    }
  }

  lemma EndingMore(c: Config, a: Adjunct, cols: seq<Column>, id: Id, p: Path, i: nat, col: Column)
    requires ConfigOk(c) && |a.cols| == |c.groups| && Ending(c, a, cols, id, p) && i < |cols| && !c.groups[i].history
    requires ColumnStep(a.cols[i], col, id, p, p)
    ensures Ending(c, a, cols[i := col], id, p)
  {
  }

  lemma EndedKeeps(c: Config, a: Adjunct, id: Id, k: nat, pools: seq<multiset<nat>>)
    requires id in a.pins && At(c, a, id, k, pools) && Has(c, a, id)
    ensures At(c, Ended(c, a, id), id, k, pools)
  {
    var p := a.pins[id];
    AtHas(c, a, id, k, pools);
    if !(c.states == [] || p !in a.snaps || !HistoryComplete(c, a, p) || !EndReady(c, a, id, p)) {
      forall i | 0 <= i < |a.cols| ensures ColumnStep(a.cols[i], a.cols[i], id, p, p) { SameColumn(a.cols[i], id, p, p); }
      EndFromKeeps(c, a, id, a.cols, 0);
      EndingKeeps(c, a, Ended(c, a, id), id, k, pools);
    }
  }

  lemma EndingKeeps(c: Config, a: Adjunct, a': Adjunct, id: Id, k: nat, pools: seq<multiset<nat>>)
    requires id in a.pins && At(c, a, id, k, pools) && a' == a.(cols := a'.cols) && Ending(c, a, a'.cols, id, a.pins[id]) && a.pins[id] in a.snaps
    ensures At(c, a', id, k, pools)
  {
    AtHas(c, a, id, k, pools);
    assert StepOf(a, a', id, a.pins[id]);
    forall i | Tracked(c, i) ensures Follows(a'.cols[i], a'.pins[id], id, k, c.align, c.groups[i]) && AllStepped(a'.cols[i].segs, c.align, c.groups[i]) {
      assert a'.cols[i] == a.cols[i] && Follows(a.cols[i], a.pins[id], id, k, c.align, c.groups[i]);
      assert AllStepped(a.cols[i].segs, c.align, c.groups[i]);
    }
    StepKeepsAt(c, a, a', id, a.pins[id], k, pools);
  }

  /** Committing a chunk keeps the invariant, wherever it stops, provided the first required group is a history group. */
  lemma CommittedKeeps(c: Config, a: Adjunct, id: Id, pools: seq<multiset<nat>>)
    requires Inv(c, a, pools) && Serving(a, id) && Tracked(c, 0)
    ensures Has(c, a, id)
    ensures var o := Committed(c, a, id); o.Went? ==> Running(c, o.a, id, pools)
  {
    assert RequestOk(c, a, id);
    var k: nat :| FollowsAt(c, a, id, k);
    assert AtNode(c, a, id, k, pools, a.pins[id]);
    AtHas(c, a, id, k, pools);
    if |a.pins[id]| > 0 {
      var o := StepsFrom(c, a, id, Boundary(k, c.align));
      StepsKeep(c, a, id, k, pools);
      StepsHas(c, a, id, Boundary(k, c.align));
      if o.Went? {
        var k': nat :| At(c, o.a, id, k', pools);
        EndedKeeps(c, o.a, id, k', pools);
      }
    }
  }
  // ---------------------------------------------------------------- prefix hits

  /** Where the walk has been, every required history group has a segment. */
  lemma {:induction false} WalkPresent(c: Config, a: Adjunct, p: Path, k: nat, i: nat)
    requires ConfigOk(c) && |a.cols| == |c.groups| && Boundary(k, c.align) <= |p| && Tracked(c, i) && Present(a.cols[i].segs, p, k, c.align)
    ensures Present(a.cols[i].segs, p, Walk(c, a, p, k), c.align)
    decreases |p| - Boundary(k, c.align)
  {
    var d := Boundary(k + 1, c.align);
    if d <= |p| && p[..d] in a.snaps && HistoryComplete(c, a, p[..d]) {
      assert p[..d] in a.cols[i].segs;
      WalkPresent(c, a, p, k + 1, i);
    }
  }

  /** The boundary carries a snapshot with all history groups. */
  ghost predicate Carries(c: Config, a: Adjunct, p: Path, j: nat)
    requires ConfigOk(c) && |a.cols| == |c.groups|
  {
    var d := Boundary(j, c.align);
    d <= |p| && p[..d] in a.snaps && HistoryComplete(c, a, p[..d])
  }

  /** The walk goes exactly as far as boundaries carry such snapshots without a break. */
  lemma {:induction false} WalkLongest(c: Config, a: Adjunct, p: Path, k: nat)
    requires ConfigOk(c) && |a.cols| == |c.groups| && Boundary(k, c.align) <= |p|
    requires forall j {:trigger Carries(c, a, p, j)} :: 0 < j <= k ==> Carries(c, a, p, j)
    ensures forall j {:trigger Carries(c, a, p, j)} :: 0 < j <= Walk(c, a, p, k) ==> Carries(c, a, p, j)
    ensures !Carries(c, a, p, Walk(c, a, p, k) + 1)
    decreases |p| - Boundary(k, c.align)
  {
    if Carries(c, a, p, k + 1) { WalkLongest(c, a, p, k + 1); }
  }

  /** Of the steps the walk found, the most are used whose last snapshots, as many as the widest window spans, have state. */
  lemma {:induction false} UsableMost(c: Config, a: Adjunct, p: Path, k: nat)
    requires ConfigOk(c) && |a.cols| == |c.groups|
    ensures var e := Usable(c, a, p, k);
            && StatesFrom(c, a, p, Sub(e, Needed(c)), e)
            && forall j {:trigger StatesFrom(c, a, p, Sub(j, Needed(c)), j)} :: e < j <= k ==> !StatesFrom(c, a, p, Sub(j, Needed(c)), j)
  {
    if k > 0 && !StatesFrom(c, a, p, Sub(k, Needed(c)), k) { UsableMost(c, a, p, k - 1); }
  }

  lemma {:induction false} PresentLess(segs: map<Path, Segment>, p: Path, k: nat, e: nat, align: nat)
    requires Present(segs, p, k, align) && e <= k
    ensures Present(segs, p, e, align)
    decreases k
  {
    if e < k { PresentLess(segs, p, k - 1, e, align); }
  }

  lemma BoundaryLess(e: nat, k: nat, align: nat)
    requires align > 0 && e <= k
    ensures Boundary(e, align) <= Boundary(k, align)
  {
    if e < k { BoundaryGrows(e, k, align); }
  }

  lemma {:induction false} SpanFrom(segs: map<Path, Segment>, p: Path, from: nat, k: nat, align: nat, d: nat, i: nat)
    requires align > 0 && i < |Span(segs, p, from, k, align)| && Boundary(k, align) <= d <= |p|
    ensures FromPath(segs, p[..d], Span(segs, p, from, k, align)[i])
  {
    BoundaryLess(k - 1, k, align);
    var b := Boundary(k, align);
    if i < |Span(segs, p, from, k - 1, align)| {
      SpanFrom(segs, p, from, k - 1, align, d, i);
    } else {
      assert p[..b] in segs && p[..b] <= p[..d];
    }
  }

  /** A history group's part of a hit of k steps. */
  lemma HistoryPart(c: Config, a: Adjunct, p: Path, k: nat, i: nat)
    requires ConfigOk(c) && |a.cols| == |c.groups| && 0 < k && Boundary(k, c.align) <= |p| && Tracked(c, i)
    requires AllStepped(a.cols[i].segs, c.align, c.groups[i]) && Present(a.cols[i].segs, p, k, c.align)
    ensures var (ids, base) := HistoryHit(c, a, p, k, i);
            HitsChain(a.cols[i], p[..Boundary(k, c.align)], ids, base, k, c.align)
  {
    var segs, pin := a.cols[i].segs, p[..Boundary(k, c.align)];
    ChainLonger(segs, pin, p, k, c.align);
    PresentLess(segs, p, k, 1, c.align);
    PageTokensPositive(c.groups[i]);
    var q := p[..Boundary(1, c.align)];
    assert Present(segs, p, 1, c.align) && q in segs;
    StepOfDepth(q, segs[q], 0, c.align, c.groups[i]);
    DivUnique(0, PageTokens(c.groups[i]), 0, 0);
  }

  lemma ChainBacked(segs: map<Path, Segment>, p: Path, k: nat, align: nat)
    requires Boundary(k, align) <= |p|
    ensures Backed(segs, p[..Boundary(k, align)], Concat(ChainOf(segs, p, k, align)))
    ensures forall j {:trigger ChainOf(segs, p, k, align)[j]} :: 0 <= j < |ChainOf(segs, p, k, align)| ==> FromPath(segs, p[..Boundary(k, align)], ChainOf(segs, p, k, align)[j])
  {
    var pin := p[..Boundary(k, align)];
    ChainLonger(segs, pin, p, k, align);
    var chain := ChainOf(segs, pin, k, align);
    forall j | 0 <= j < |chain| ensures FromPath(segs, pin, chain[j]) { ChainFrom(segs, pin, k, align, j); }
    ConcatBacked(segs, pin, chain);
  }

  lemma StateBacked(segs: map<Path, Segment>, p: Path, k: nat, align: nat, g: Group)
    requires GroupOk(g) && g.window.Some? && Boundary(k, align) <= |p|
    requires StateIds(ChainOf(segs, p, k, align), Boundary(k, align), g).Some?
    ensures Backed(segs, p[..Boundary(k, align)], StateIds(ChainOf(segs, p, k, align), Boundary(k, align), g).value)
  {
    var target, chain := Boundary(k, align), ChainOf(segs, p, k, align);
    var lower, end := LivePage(target, g.window.value, g), EndPage(target, g);
    ChainBacked(segs, p, k, align);
    LiveBelowEnd(target, g.window.value, g);
    ScanSound(chain, 0, lower, end, [], lower);
    CollectedBacked(segs, p[..target], chain, lower, end, StateIds(chain, target, g).value);
  }

  /** All groups' parts: every id is held by a snapshot on the path. */
  lemma WholeBacked(c: Config, a: Adjunct, p: Path, k: nat, i: nat)
    requires ConfigOk(c) && |a.cols| == |c.groups| && i < |c.groups| && Boundary(k, c.align) <= |p| && Continues(c, a, p, k)
    ensures Backed(a.cols[i].segs, p[..Boundary(k, c.align)], WholeHit(c, a, p, k, i).0)
  {
    ChainBacked(a.cols[i].segs, p, k, c.align);
    if !c.groups[i].history {
      assert i in c.states;
      StateBacked(a.cols[i].segs, p, k, c.align, c.groups[i]);
    }
  }

  lemma PlainBacked(c: Config, a: Adjunct, p: Path, k: nat, i: nat)
    requires ConfigOk(c) && |a.cols| == |c.groups| && i < |c.groups| && Boundary(k, c.align) <= |p|
    ensures Backed(a.cols[i].segs, p[..Boundary(k, c.align)], PlainHit(c, a, p, k, i).0)
  {
    var segs, pin := a.cols[i].segs, p[..Boundary(k, c.align)];
    ChainBacked(segs, p, k, c.align);
    var span := Span(segs, p, Sub(k, Needed(c)), k, c.align);
    forall j | 0 <= j < |span| ensures FromPath(segs, pin, span[j]) { SpanFrom(segs, p, Sub(k, Needed(c)), k, c.align, |pin|, j); }
    ConcatBacked(segs, pin, span);
  }

  lemma PlainOk(c: Config, a: Adjunct, p: Path, k: nat)
    requires ConfigOk(c) && |a.cols| == |c.groups| && Stepping(c, a) && 0 < k && Boundary(k, c.align) <= |p|
    requires forall i {:trigger a.cols[i]} :: Tracked(c, i) ==> Present(a.cols[i].segs, p, k, c.align)
    ensures HitAt(c, a.cols, p[..Boundary(k, c.align)], PlainFound(c, a, p, k), k)
  {
    var f, pin := PlainFound(c, a, p, k), p[..Boundary(k, c.align)];
    forall i | 0 <= i < |a.cols| ensures Backed(a.cols[i].segs, pin, f.ids[i]) { PlainBacked(c, a, p, k, i); }
    forall i | Tracked(c, i) ensures HitsChain(a.cols[i], pin, f.ids[i], f.bases[i], k, c.align) {
      assert AllStepped(a.cols[i].segs, c.align, c.groups[i]);
      HistoryPart(c, a, p, k, i);
    }
  }

  lemma WholeOk(c: Config, a: Adjunct, p: Path, k: nat)
    requires ConfigOk(c) && |a.cols| == |c.groups| && Stepping(c, a) && 0 < k && Boundary(k, c.align) <= |p| && Continues(c, a, p, k)
    requires forall i {:trigger a.cols[i]} :: Tracked(c, i) ==> Present(a.cols[i].segs, p, k, c.align)
    ensures HitAt(c, a.cols, p[..Boundary(k, c.align)], WholeFound(c, a, p, k), k)
  {
    var f, pin := WholeFound(c, a, p, k), p[..Boundary(k, c.align)];
    forall i | 0 <= i < |a.cols| ensures Backed(a.cols[i].segs, pin, f.ids[i]) { WholeBacked(c, a, p, k, i); }
    forall i | Tracked(c, i) ensures HitsChain(a.cols[i], pin, f.ids[i], f.bases[i], k, c.align) {
      assert AllStepped(a.cols[i].segs, c.align, c.groups[i]);
      HistoryPart(c, a, p, k, i);
    }
  }

  /** Whatever the path, its hit is right: the ids of every required history group are the pages of the path's first steps in
      order, each step whole, and all ids are held by snapshots up to the node the hit ends at. */
  lemma AugmentedOk(c: Config, a: Adjunct, p: Path)
    requires ConfigOk(c) && |a.cols| == |c.groups| && Stepping(c, a)
    ensures Augmented(c, a, p).tokens <= |p|
    ensures HitOk(c, a.cols, p[..Augmented(c, a, p).tokens], Augmented(c, a, p))
  {
    var k := Walk(c, a, p, 0);
    forall i | Tracked(c, i) ensures Present(a.cols[i].segs, p, k, c.align) { WalkPresent(c, a, p, 0, i); }
    var f := Augmented(c, a, p);
    if f == NOTHING {
      assert HitAt(c, a.cols, p[..0], f, 0);
    } else if ContinuationComplete(c, a, p[..Boundary(k, c.align)]) && Continues(c, a, p, k) {
      WholeOk(c, a, p, k);
    } else {
      var e := if RequiresState(c) then Usable(c, a, p, k) else k;
      BoundaryLess(e, k, c.align);
      forall i | Tracked(c, i) ensures Present(a.cols[i].segs, p, e, c.align) { PresentLess(a.cols[i].segs, p, k, e, c.align); }
      PlainOk(c, a, p, e);
    }
  }
}
