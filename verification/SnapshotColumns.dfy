/** One paged-cache group as a whole: its free pages, every request's table, and the segment of every snapshot. */
module SnapshotColumns {
  import opened Prelude
  import opened PagedCacheTable
  import opened Snapshots
  import opened CommitSteps

  /** The tokens from the root to the end of a tree node. */
  type Path = seq<nat>

  type Id = nat

  datatype Column = Column(free: seq<nat>, tables: map<Id, Table>, segs: map<Path, Segment>)

  // ---------------------------------------------------------------- no page is lost or doubled

  ghost function Owns(col: Column): map<Id, seq<nat>> {
    map id | id in col.tables :: col.tables[id].owned
  }

  ghost function Lent(col: Column): map<Path, seq<nat>> {
    map q | q in col.segs :: col.segs[q].pages
  }

  /** Every page of the group, as often as it is free, owned by a request, or left with a snapshot. */
  ghost function Pages(col: Column): multiset<nat> {
    multiset(col.free) + Gather(Owns(col)) + Gather(Lent(col))
  }

  lemma OwnsUpdate(col: Column, id: Id, t: Table)
    requires id in col.tables
    ensures Gather(Owns(col.(tables := col.tables[id := t]))) + multiset(col.tables[id].owned) == Gather(Owns(col)) + multiset(t.owned)
  {
    assert Owns(col.(tables := col.tables[id := t])) == Owns(col)[id := t.owned];
    GatherUpdate(Owns(col), id, t.owned);
  }

  lemma OwnsAdd(col: Column, id: Id, t: Table)
    requires id !in col.tables
    ensures Gather(Owns(col.(tables := col.tables[id := t]))) == Gather(Owns(col)) + multiset(t.owned)
  {
    assert Owns(col.(tables := col.tables[id := t])) == Owns(col)[id := t.owned];
    GatherAdd(Owns(col), id, t.owned);
  }

  lemma OwnsRemove(col: Column, id: Id)
    requires id in col.tables
    ensures Gather(Owns(col.(tables := col.tables - {id}))) + multiset(col.tables[id].owned) == Gather(Owns(col))
  {
    assert Owns(col.(tables := col.tables - {id})) == Owns(col) - {id};
    GatherRemove(Owns(col), id);
  }

  lemma LentAdd(col: Column, q: Path, s: Segment)
    requires q !in col.segs
    ensures Gather(Lent(col.(segs := col.segs[q := s]))) == Gather(Lent(col)) + multiset(s.pages)
  {
    assert Lent(col.(segs := col.segs[q := s])) == Lent(col)[q := s.pages];
    GatherAdd(Lent(col), q, s.pages);
  }

  lemma LentRemove(col: Column, q: Path)
    requires q in col.segs
    ensures Gather(Lent(col.(segs := col.segs - {q}))) + multiset(col.segs[q].pages) == Gather(Lent(col))
  {
    assert Lent(col.(segs := col.segs - {q})) == Lent(col) - {q};
    GatherRemove(Lent(col), q);
  }

  // ---------------------------------------------------------------- what is done to a column

  /** The segment a commit step leaves behind. */
  function Leaves(t: Table, width: nat, g: Group): Segment
    requires GroupOk(g) && StepLegal(t, Lay, width, g)
  {
    var target := t.committed + width;
    if g.history then Segment(t.owned[..CommitCount(t, target, g)], EndPage(t.committed, g))
    else LeftBehind(t, target, g.window.value, g)
  }

  /** Lay down a segment at a node that has none. */
  function LayColumn(col: Column, id: Id, q: Path, width: nat, g: Group): (col': Column)
    requires GroupOk(g) && id in col.tables && StepLegal(col.tables[id], Lay, width, g)
    ensures q in col'.segs
  {
    var t := col.tables[id];
    Column(col.free + StepBack(t, Lay, width, g), col.tables[id := StepTable(t, Lay, width, g)], col.segs[q := Leaves(t, width, g)])
  }

  function TakeOf(s: Segment): CommitStep {
    Take(s.pages, s.base)
  }

  /** Take over the segment of a node. */
  function TakeColumn(col: Column, id: Id, q: Path, width: nat, g: Group): Column
    requires GroupOk(g) && id in col.tables && q in col.segs
    requires StepLegal(col.tables[id], TakeOf(col.segs[q]), width, g)
  {
    var t, s := col.tables[id], TakeOf(col.segs[q]);
    col.(free := col.free + StepBack(t, s, width, g), tables := col.tables[id := StepTable(t, s, width, g)])
  }

  /** Drop the segment of a node: its pages go back to the pool. */
  function Shed(col: Column, q: Path): Column {
    if q in col.segs then col.(free := col.free + col.segs[q].pages, segs := col.segs - {q}) else col
  }

  /** Release a request's table. */
  function Dropped(col: Column, id: Id): Column {
    if id in col.tables then col.(free := col.free + col.tables[id].owned, tables := col.tables - {id}) else col
  }

  function Put(col: Column, id: Id, t: Table): Column {
    col.(tables := col.tables[id := t])
  }

  function Slid(col: Column, id: Id, page: nat): Column
    requires id in col.tables
  {
    var t := col.tables[id];
    col.(free := col.free + FrontOwned(t, Below(t, page)), tables := col.tables[id := Released(t, page)])
  }

  function Rewinding(col: Column, id: Id, tokens: nat, g: Group): Column
    requires GroupOk(g) && id in col.tables
  {
    var t := col.tables[id];
    var t' := Rewound(t, tokens, g);
    col.(free := col.free + t.owned[|t'.owned|..], tables := col.tables[id := t'])
  }

  lemma Cancel(a: multiset<nat>, b: multiset<nat>, c: multiset<nat>)
    requires a + c == b + c
    ensures a == b
  {
    assert a == (a + c) - c && b == (b + c) - c;
  }

  lemma MoveTables(col: Column, col': Column, id: Id, t: Table, back: seq<nat>)
    requires id in col.tables && col' == col.(free := col.free + back, tables := col.tables[id := t])
    requires multiset(col.tables[id].owned) == multiset(back) + multiset(t.owned)
    ensures Pages(col') == Pages(col)
  {
    OwnsUpdate(col, id, t);
    var o, o' := Gather(Owns(col)), Gather(Owns(col.(tables := col.tables[id := t])));
    assert Owns(col') == Owns(col.(tables := col.tables[id := t])) && Lent(col') == Lent(col);
    assert (o' + multiset(back)) + multiset(t.owned) == o + multiset(t.owned);
    Cancel(o' + multiset(back), o, multiset(t.owned));
    assert multiset(col.free + back) == multiset(col.free) + multiset(back);
  }

  lemma SlidPages(col: Column, id: Id, page: nat)
    requires id in col.tables
    ensures Pages(Slid(col, id, page)) == Pages(col)
  {
    var t := col.tables[id];
    MultisetSplit(t.owned, |FrontOwned(t, Below(t, page))|);
    MoveTables(col, Slid(col, id, page), id, Released(t, page), FrontOwned(t, Below(t, page)));
  }

  lemma RewindingPages(col: Column, id: Id, tokens: nat, g: Group)
    requires GroupOk(g) && id in col.tables
    ensures Pages(Rewinding(col, id, tokens, g)) == Pages(col)
  {
    var t := col.tables[id];
    var t' := Rewound(t, tokens, g);
    MultisetSplit(t.owned, |t'.owned|);
    assert t'.owned == t.owned[..|t'.owned|];
    MoveTables(col, Rewinding(col, id, tokens, g), id, t', t.owned[|t'.owned|..]);
  }

  lemma DroppedPages(col: Column, id: Id)
    ensures Pages(Dropped(col, id)) == Pages(col)
  {
    if id in col.tables {
      OwnsRemove(col, id);
      var col' := Dropped(col, id);
      assert Owns(col') == Owns(col.(tables := col.tables - {id})) && Lent(col') == Lent(col);
    }
  }

  lemma ShedPages(col: Column, q: Path)
    ensures Pages(Shed(col, q)) == Pages(col)
  {
    if q in col.segs {
      LentRemove(col, q);
      var col' := Shed(col, q);
      assert Owns(col') == Owns(col) && Lent(col') == Lent(col.(segs := col.segs - {q}));
    }
  }

  lemma PutPages(col: Column, id: Id, t: Table)
    requires id !in col.tables && t.owned == []
    ensures Pages(Put(col, id, t)) == Pages(col)
  {
    OwnsAdd(col, id, t);
    assert Lent(Put(col, id, t)) == Lent(col);
  }

  lemma TakePages(col: Column, id: Id, q: Path, width: nat, g: Group)
    requires GroupOk(g) && id in col.tables && q in col.segs
    requires StepLegal(col.tables[id], TakeOf(col.segs[q]), width, g)
    ensures Pages(TakeColumn(col, id, q, width, g)) == Pages(col)
  {
    var t, s := col.tables[id], TakeOf(col.segs[q]);
    var back := StepBack(t, s, width, g);
    TakeParts(t, s, width, g);
    MultisetSplit(t.owned, |back|);
    MoveTables(col, TakeColumn(col, id, q, width, g), id, StepTable(t, s, width, g), back);
  }

  /** Taking over a segment gives back the front of what the table owned. */
  lemma TakeParts(t: Table, s: CommitStep, width: nat, g: Group)
    requires GroupOk(g) && s.Take? && StepLegal(t, s, width, g)
    ensures var n := |StepBack(t, s, width, g)|;
            n <= |t.owned| && StepBack(t, s, width, g) == t.owned[..n] && StepTable(t, s, width, g).owned == t.owned[n..]
  {
    if !g.history {
      TakeFits(t, s, width, g);
      var m := s.base - t.base + |s.ids|;
      assert StepBack(t, s, width, g) == FrontOwned(t, m) && StepTable(t, s, width, g).owned == DropFront(t, m).owned;
    }
  }

  /** Laying down a segment splits what the table owned into pages given back, pages lent and pages kept. */
  lemma LayParts(t: Table, width: nat, g: Group)
    requires GroupOk(g) && StepLegal(t, Lay, width, g)
    ensures var n, k := |StepBack(t, Lay, width, g)|, |Leaves(t, width, g).pages|;
            && n + k <= |t.owned| && StepBack(t, Lay, width, g) == t.owned[..n]
            && Leaves(t, width, g).pages == t.owned[n..][..k] && StepTable(t, Lay, width, g).owned == t.owned[n..][k..]
  {
    if g.history {
      assert t.owned[..0] == [] && t.owned[0..] == t.owned;
    }
  }

  lemma LayPages(col: Column, id: Id, q: Path, width: nat, g: Group)
    requires GroupOk(g) && id in col.tables && q !in col.segs && StepLegal(col.tables[id], Lay, width, g)
    ensures Pages(LayColumn(col, id, q, width, g)) == Pages(col)
  {
    var t := col.tables[id];
    LayParts(t, width, g);
    LayMoves(col, id, q, StepTable(t, Lay, width, g), StepBack(t, Lay, width, g), Leaves(t, width, g));
  }

  lemma LayMoves(col: Column, id: Id, q: Path, t: Table, back: seq<nat>, s: Segment)
    requires id in col.tables && q !in col.segs
    requires |back| + |s.pages| <= |col.tables[id].owned| && back == col.tables[id].owned[..|back|]
    requires s.pages == col.tables[id].owned[|back|..][..|s.pages|] && t.owned == col.tables[id].owned[|back|..][|s.pages|..]
    ensures Pages(Column(col.free + back, col.tables[id := t], col.segs[q := s])) == Pages(col)
  {
    var owned := col.tables[id].owned;
    MultisetSplit(owned, |back|);
    MultisetSplit(owned[|back|..], |s.pages|);
    var t1 := t.(owned := owned[|back|..]);
    var col1 := col.(free := col.free + back, tables := col.tables[id := t1]);
    MoveTables(col, col1, id, t1, back);
    assert col.tables[id := t1][id := t] == col.tables[id := t];
    LendPages(col1, Column(col.free + back, col.tables[id := t], col.segs[q := s]), id, q, t, s);
  }

  /** Owned pages become a snapshot's. */
  lemma LendPages(col: Column, col': Column, id: Id, q: Path, t: Table, s: Segment)
    requires id in col.tables && q !in col.segs && col' == Column(col.free, col.tables[id := t], col.segs[q := s])
    requires multiset(col.tables[id].owned) == multiset(s.pages) + multiset(t.owned)
    ensures Pages(col') == Pages(col)
  {
    OwnsUpdate(col, id, t);
    LentAdd(col, q, s);
    var o, o' := Gather(Owns(col)), Gather(Owns(col.(tables := col.tables[id := t])));
    assert (o' + multiset(s.pages)) + multiset(t.owned) == o + multiset(t.owned);
    Cancel(o' + multiset(s.pages), o, multiset(t.owned));
    assert Owns(col') == Owns(col.(tables := col.tables[id := t])) && Lent(col') == Lent(col.(segs := col.segs[q := s]));
  }

  lemma GrowPages(col: Column, id: Id, target: nat, free': seq<nat>, nu: seq<nat>)
    requires id in col.tables && multiset(free') + multiset(nu) == multiset(col.free)
    ensures Pages(Column(free', col.tables[id := Grown(col.tables[id], target, nu)], col.segs)) == Pages(col)
  {
    var t' := Grown(col.tables[id], target, nu);
    OwnsUpdate(col, id, t');
    var col' := Column(free', col.tables[id := t'], col.segs);
    var o, o' := Gather(Owns(col)), Gather(Owns(col.(tables := col.tables[id := t'])));
    assert Owns(col') == Owns(col.(tables := col.tables[id := t'])) && Lent(col') == Lent(col);
    assert multiset(t'.owned) == multiset(col.tables[id].owned) + multiset(nu);
    assert o' + multiset(col.tables[id].owned) == (o + multiset(nu)) + multiset(col.tables[id].owned);
    Cancel(o', o + multiset(nu), multiset(col.tables[id].owned));
  }
}
