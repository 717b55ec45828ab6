/** The snapshot tree in place. */
module HybridCache {
  import opened Prelude
  import opened PagedCacheTable
  import opened Snapshots
  import opened SnapshotColumns
  import opened SnapshotPaths
  import opened SnapshotTree
  import opened SnapshotRuns
  import opened CacheRuns

  /** One alignment step: refused steps end the loop. */
  method OneMore(c: Config, a: Adjunct, id: Id, last: nat) returns (o: Progress)
    requires ConfigOk(c) && Has(c, a, id) && id in a.pins && last + c.align <= |a.pins[id]|
    ensures o.Went? ==> Has(c, o.a, id) && o.a.pins == a.pins && StepsFrom(c, a, id, last) == StepsFrom(c, o.a, id, last + c.align)
    ensures o.Halt? ==> Has(c, o.a, id) && o.a.pins == a.pins && StepsFrom(c, a, id, last) == Went(o.a)
    ensures o.Threw? ==> StepsFrom(c, a, id, last) == Threw
  {
    o := StepTo(c, a, id, last + c.align);
    StepToHas(c, a, id, last + c.align);
    StepsUnfold(c, a, id, last, o);
  }

  /** One alignment step after another until a step is refused or the end of the request's path is reached. */
  method StepByStep(c: Config, start: Adjunct, id: Id, committed: nat) returns (o: Progress)
    requires ConfigOk(c) && Has(c, start, id) && id in start.pins
    ensures !o.Halt? && o == StepsFrom(c, start, id, committed) && (o.Went? ==> Has(c, o.a, id) && o.a.pins == start.pins)
  {
    ghost var all := StepsFrom(c, start, id, committed);
    var a, last, going := start, committed, true;
    while going && last + c.align <= |start.pins[id]|
      invariant Has(c, a, id) && a.pins == start.pins && all == if going then StepsFrom(c, a, id, last) else Went(a)
      decreases going, |start.pins[id]| - last
    {
      o := OneMore(c, a, id, last);
      match o
      case Went(a') => a, last := a', last + c.align;
      case Halt(a') => a, going := a', false;
      case Threw => return;
    }
    if going { StepsStop(c, a, id, last); }
    o := Went(a);
  }

  lemma CommittedIs(c: Config, a: Adjunct, id: Id)
    requires ConfigOk(c) && Has(c, a, id) && id in a.pins && |a.cols| > 0 && |a.pins[id]| > 0
    ensures var o := StepsFrom(c, a, id, a.cols[0].tables[id].committed);
            && (o.Threw? ==> Committed(c, a, id) == Threw)
            && (o.Went? ==> Has(c, o.a, id) && id in o.a.pins && Committed(c, a, id) == Went(Ended(c, o.a, id)))
  {
    StepsHas(c, a, id, a.cols[0].tables[id].committed);
  }

  class HybridPrefixCache {
    const config: Config
    ghost const pools: seq<multiset<nat>>
    var nodes: set<Path>
    var snaps: set<Path>
    var cols: seq<Column>
    var pins: map<Id, Path>
    var hits: map<Id, Found>

    function Model(): Adjunct
      reads this
    {
      Adjunct(nodes, snaps, cols, pins, hits)
    }

    ghost predicate Valid()
      reads this
    {
      Tracked(config, 0) && Inv(config, Model(), pools)
    }

    constructor (config: Config, frees: seq<seq<nat>>)
      requires ConfigOk(config) && |frees| == |config.groups| && Tracked(config, 0)
      ensures Valid() && Model() == CacheRuns.Start(frees) && pools == Bags(frees) && this.config == config
    {
      var a := CacheRuns.Start(frees);
      this.config, this.pools := config, Bags(frees);
      nodes, snaps, cols, pins, hits := a.nodes, a.snaps, a.cols, a.pins, a.hits;
      StartInv(config, frees);
    }

    method Put(a: Adjunct)
      modifies this
      ensures Model() == a
    {
      nodes, snaps, cols, pins, hits := a.nodes, a.snaps, a.cols, a.pins, a.hits;
    }

    /** Commit one alignment step after another until a step is refused, then the continuation snapshot. */
    method CommitChunk(id: Id) returns (threw: bool)
      requires Valid() && CacheRuns.OpLegal(Model(), CacheOp.CommitChunk(id))
      modifies this
      ensures var o := Next(config, old(Model()), CacheOp.CommitChunk(id));
              if threw then o.Threw? else o == Went(Model()) && Valid()
    {
      threw := false;
      CommitKeeps(config, Model(), id, pools);
      if id !in pins || id !in cols[0].tables || |pins[id]| == 0 { return; }
      CommittedKeeps(config, Model(), id, pools);
      CommittedIs(config, Model(), id);
      var o := StepByStep(config, Model(), id, cols[0].tables[id].committed);
      if o.Threw? { threw := true; } else { Put(Ended(config, o.a, id)); }
    }

    /** The hit of a path: the longest run of complete history snapshots, cut back to where state can be restored. */
    method Match(path: Path) returns (f: Found)
      requires Valid()
      ensures f == Augmented(config, Model(), path)
    {
      var a := Model();
      var k := Deepest(path);
      if k == 0 { return NOTHING; }
      if ContinuationComplete(config, a, path[..Boundary(k, config.align)]) && Continues(config, a, path, k) {
        return WholeFound(config, a, path, k);
      }
      if TransportOnly(config) { return NOTHING; }
      if !RequiresState(config) { return PlainFound(config, a, path, k); }
      var e := Restorable(path, k);
      f := if e == 0 then NOTHING else PlainFound(config, a, path, e);
    }

    method Deepest(path: Path) returns (k: nat)
      requires Valid()
      ensures k == Walk(config, Model(), path, 0)
    {
      k := 0;
      var going := true;
      while going
        invariant Boundary(k, config.align) <= |path|
        invariant Walk(config, Model(), path, 0) == if going then Walk(config, Model(), path, k) else k
        decreases going, |path| - Boundary(k, config.align)
      {
        var d := Boundary(k + 1, config.align);
        if d <= |path| && path[..d] in snaps && HistoryComplete(config, Model(), path[..d]) { k := k + 1; } else { going := false; }
      }
    }

    method Restorable(path: Path, k: nat) returns (e: nat)
      requires Valid()
      ensures e == Usable(config, Model(), path, k)
    {
      e := k;
      while e > 0 && !StatesFrom(config, Model(), path, Sub(e, Needed(config)), e)
        invariant Usable(config, Model(), path, k) == Usable(config, Model(), path, e)
      {
        e := e - 1;
      }
    }

    /** Any operation, in place. */
    method Apply(op: CacheOp) returns (threw: bool)
      requires Valid() && CacheRuns.OpLegal(Model(), op)
      modifies this
      ensures var o := Next(config, old(Model()), op);
              if threw then o.Threw? else o == Went(Model()) && Valid()
    {
      NextKeeps(config, Model(), op, pools);
      if op.CommitChunk? {
        threw := this.CommitChunk(op.id);
      } else if op.Find? {
        FindKeeps(config, Model(), op.id, op.path, pools);
        var f := Match(op.path);
        pins, hits, threw := pins[op.id := op.path[..f.tokens]], hits[op.id := f], false;
      } else {
        match Next(config, Model(), op)
        case Went(a) => Put(a); threw := false;
        case _ => threw := true;
      }
    }
  }
}
