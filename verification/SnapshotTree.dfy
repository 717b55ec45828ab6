/** Snapshots on tree nodes across all groups: committing a chunk, and finding the prefix hit of a path. */
module SnapshotTree {
  import opened Prelude
  import opened PagePool
  import opened PagedCacheTable
  import opened Snapshots
  import opened CommitSteps
  import opened SnapshotColumns
  import opened SnapshotPaths

  /** The groups, those required in snapshots first, as they are listed; the alignment of snapshots; the page size of the tree;
      and the state groups in the order of their names. */
  datatype Config = Config(groups: seq<Group>, required: nat, align: nat, size: nat, states: seq<nat>)

  ghost predicate ConfigOk(c: Config) {
    && 0 < c.required <= |c.groups| && c.align > 0 && c.size > 0
    && (forall i {:trigger c.groups[i]} :: 0 <= i < |c.groups| ==> GroupOk(c.groups[i]) && (!c.groups[i].history ==> c.groups[i].window.Some?))
    && (forall i {:trigger c.groups[i]} :: 0 <= i < c.required ==> Aligned(c.align, c.groups[i]))
    && (forall j {:trigger c.states[j]} :: 0 <= j < |c.states| ==> c.states[j] < |c.groups| && !c.groups[c.states[j]].history)
    && (forall i {:trigger c.groups[i]} :: 0 <= i < |c.groups| && !c.groups[i].history ==> i in c.states)
    && (forall i, j {:trigger c.states[i], c.states[j]} :: 0 <= i < j < |c.states| ==> c.states[i] != c.states[j])
  }

  /** A required history group. */
  predicate Tracked(c: Config, i: int) {
    0 <= i < c.required && i < |c.groups| && c.groups[i].history
  }

  /** A prefix hit: the tokens it covers, and for each group page ids and the logical page of the first. */
  datatype Found = Found(tokens: nat, ids: seq<seq<nat>>, bases: seq<nat>)

  /** Ends of tree nodes, those that carry a snapshot, the groups, each running request's locked node, and the hits of requests
      that have been matched but have not acquired pages yet. */
  datatype Adjunct = Adjunct(nodes: set<Path>, snaps: set<Path>, cols: seq<Column>, pins: map<Id, Path>, hits: map<Id, Found>)

  datatype Progress = Went(a: Adjunct) | Halt(a: Adjunct) | Threw

  /** A column for each group, a table in each for the request. */
  ghost predicate Has(c: Config, a: Adjunct, id: Id) {
    |a.cols| == |c.groups| && forall i {:trigger a.cols[i]} :: 0 <= i < |a.cols| ==> id in a.cols[i].tables
  }

  // ---------------------------------------------------------------- committing a chunk

  /** The end of the node that covers a depth. */
  function NodeEnd(nodes: set<Path>, p: Path, d: nat): (e: Option<nat>)
    requires d <= |p|
    ensures e.Some? ==> d <= e.value <= |p|
    decreases |p| - d
  {
    if p[..d] in nodes then Some(d) else if d == |p| then None else NodeEnd(nodes, p, d + 1)
  }

  /** Nodes after splitting the path at a depth; a node that carries a snapshot is not split. */
  function SplitAt(nodes: set<Path>, snaps: set<Path>, p: Path, d: nat, size: nat): Option<set<Path>>
    requires d <= |p| && size > 0
  {
    if d % size != 0 then None else
      match NodeEnd(nodes, p, d)
      case None => None
      case Some(e) => if e == d then Some(nodes) else if p[..e] in snaps then None else Some(nodes + {p[..d]})
  }

  predicate PreflightAll(c: Config, a: Adjunct, id: Id, target: nat)
    requires ConfigOk(c) && Has(c, a, id)
  {
    forall i {:trigger a.cols[i]} :: 0 <= i < c.required ==> Preflight(a.cols[i].tables[id], target, c.groups[i])
  }

  /** All required groups have a segment at the node. */
  predicate Complete(c: Config, a: Adjunct, q: Path)
    requires ConfigOk(c) && |a.cols| == |c.groups|
  {
    forall i {:trigger a.cols[i]} :: 0 <= i < c.required ==> q in a.cols[i].segs
  }

  predicate TakableAll(c: Config, a: Adjunct, id: Id, q: Path, target: nat)
    requires ConfigOk(c) && Has(c, a, id) && Complete(c, a, q)
  {
    forall i {:trigger Takable(a.cols[i], id, q, target, c.groups[i])} :: 0 <= i < c.required ==> Takable(a.cols[i], id, q, target, c.groups[i])
  }

  predicate Takable(col: Column, id: Id, q: Path, target: nat, g: Group)
    requires GroupOk(g) && id in col.tables && q in col.segs
  {
    col.tables[id].committed < target && StepLegal(col.tables[id], TakeOf(col.segs[q]), target - col.tables[id].committed, g)
  }

  ghost predicate LayableAll(c: Config, a: Adjunct, id: Id, target: nat)
    requires ConfigOk(c) && Has(c, a, id)
  {
    forall i {:trigger a.cols[i]} :: 0 <= i < c.required ==> Layable(a.cols[i].tables[id], target, c.groups[i])
  }

  predicate Layable(t: Table, target: nat, g: Group)
    requires GroupOk(g)
  {
    t.committed < target && StepLegal(t, Lay, target - t.committed, g)
  }

  lemma PreflightLayable(c: Config, a: Adjunct, id: Id, target: nat)
    requires ConfigOk(c) && Has(c, a, id) && PreflightAll(c, a, id, target)
    ensures LayableAll(c, a, id, target)
  {
    forall i | 0 <= i < c.required ensures Layable(a.cols[i].tables[id], target, c.groups[i]) {
      assert Preflight(a.cols[i].tables[id], target, c.groups[i]);
      PreflightLegal(a.cols[i].tables[id], target, c.groups[i]);
    }
  }

  /** Every required group lays down a segment at the node. */
  function LayAll(c: Config, a: Adjunct, id: Id, q: Path, target: nat): seq<Column>
    requires ConfigOk(c) && Has(c, a, id) && LayableAll(c, a, id, target)
  {
    seq(|a.cols|, i requires 0 <= i < |a.cols| && (i < c.required ==> Layable(a.cols[i].tables[id], target, c.groups[i])) =>
      if i >= c.required then a.cols[i] else LayColumn(a.cols[i], id, q, target - a.cols[i].tables[id].committed, c.groups[i]))
  }

  /** Every required group takes over the node's segment. */
  function TakeAll(c: Config, a: Adjunct, id: Id, q: Path, target: nat): seq<Column>
    requires ConfigOk(c) && Has(c, a, id) && Complete(c, a, q) && TakableAll(c, a, id, q, target)
  {
    seq(|a.cols|, i requires 0 <= i < |a.cols| && (i < c.required ==> Takable(a.cols[i], id, q, target, c.groups[i])) =>
      if i >= c.required then a.cols[i] else TakeColumn(a.cols[i], id, q, target - a.cols[i].tables[id].committed, c.groups[i]))
  }

  /** One alignment step of a commit. */
  function StepTo(c: Config, a: Adjunct, id: Id, target: nat): Progress
    requires ConfigOk(c) && Has(c, a, id) && id in a.pins && target <= |a.pins[id]|
  {
    var q := a.pins[id][..target];
    match SplitAt(a.nodes, a.snaps, a.pins[id], target, c.size)
    case None => Halt(a)
    case Some(nodes) =>
      var a1 := a.(nodes := nodes);
      if !PreflightAll(c, a, id, target) then Halt(a1)
      else if q !in a.snaps then
        PreflightLayable(c, a, id, target);
        Went(a1.(cols := LayAll(c, a, id, q, target), snaps := a.snaps + {q}))
      else if !Complete(c, a, q) then Halt(a1)
      else if !TakableAll(c, a, id, q, target) then Threw
      else Went(a1.(cols := TakeAll(c, a, id, q, target)))
  }

  lemma StepToHas(c: Config, a: Adjunct, id: Id, target: nat)
    requires ConfigOk(c) && Has(c, a, id) && id in a.pins && target <= |a.pins[id]|
    ensures var o := StepTo(c, a, id, target); !o.Threw? ==> Has(c, o.a, id) && o.a.pins == a.pins && o.a.hits == a.hits
  {
  }

  /** All alignment steps up to the depth of the request's node. */
  function StepsFrom(c: Config, a: Adjunct, id: Id, last: nat): Progress
    requires ConfigOk(c) && Has(c, a, id) && id in a.pins
    decreases |a.pins[id]| - last
  {
    if last + c.align > |a.pins[id]| then Went(a) else
      StepToHas(c, a, id, last + c.align);
      match StepTo(c, a, id, last + c.align)
      case Went(a') => StepsFrom(c, a', id, last + c.align)
      case Halt(a') => Went(a')
      case Threw => Threw
  }
  // ---------------------------------------------------------------- the continuation snapshot at the end of a chunk

  predicate Missing(a: Adjunct, i: nat, q: Path)
    requires i < |a.cols|
  {
    q !in a.cols[i].segs
  }

  /** A segment without pages is not put on the node, and no further group is tried. */
  function Attach(col: Column, laid: Column, q: Path): (Column, bool)
    requires q in laid.segs
  {
    if laid.segs[q].pages == [] then (laid.(segs := col.segs), false) else (laid, true)
  }

  predicate Checkable(t: Table, target: nat, g: Group)
    requires GroupOk(g)
  {
    target <= t.committed || StepLegal(t, Lay, target - t.committed, g)
  }

  lemma SpansCheckable(t: Table, target: nat, g: Group)
    requires GroupOk(g) && !g.history && g.window.Some? && SpansWindow(t, target, g)
    ensures Checkable(t, target, g)
  {
  }

  /** Checkpoint one state group. */
  function EndColumn(col: Column, id: Id, q: Path, g: Group): (Column, bool)
    requires GroupOk(g) && id in col.tables && Checkable(col.tables[id], |q|, g)
  {
    var t := col.tables[id];
    if |q| <= t.committed then (col, false) else Attach(col, LayColumn(col, id, q, |q| - t.committed, g), q)
  }

  /** From the j-th state group on. */
  function EndFrom(c: Config, a: Adjunct, id: Id, q: Path, cols: seq<Column>, j: nat): (cols': seq<Column>)
    requires ConfigOk(c) && Has(c, a, id) && j <= |c.states| && EndReady(c, a, id, q)
    requires |cols| == |a.cols| && forall i {:trigger c.states[i]} :: j <= i < |c.states| ==> cols[c.states[i]] == a.cols[c.states[i]]
    ensures |cols'| == |cols|
    decreases |c.states| - j
  {
    if j == |c.states| then cols else
      var i := c.states[j];
      if !Missing(a, i, q) then EndFrom(c, a, id, q, cols, j + 1) else
        SpansCheckable(a.cols[i].tables[id], |q|, c.groups[i]);
        var (col, more) := EndColumn(a.cols[i], id, q, c.groups[i]);
        var cols' := cols[i := col];
        if more then EndFrom(c, a, id, q, cols', j + 1) else cols'
  }

  predicate EndReady(c: Config, a: Adjunct, id: Id, q: Path)
    requires ConfigOk(c) && Has(c, a, id)
  {
    forall j {:trigger c.states[j]} :: 0 <= j < |c.states| && Missing(a, c.states[j], q) ==>
      SpansWindow(a.cols[c.states[j]].tables[id], |q|, c.groups[c.states[j]])
  }

  /** Add missing state groups to the snapshot at the end of the path, if all history groups are in it. */
  function Ended(c: Config, a: Adjunct, id: Id): Adjunct
    requires ConfigOk(c) && Has(c, a, id) && id in a.pins
  {
    var q := a.pins[id];
    if c.states == [] || q !in a.snaps || !HistoryComplete(c, a, q) || !EndReady(c, a, id, q) then a
    else a.(cols := EndFrom(c, a, id, q, a.cols, 0))
  }

  /** Commit what a request has acquired, up to the depth of its node. */
  function Committed(c: Config, a: Adjunct, id: Id): Progress
    requires ConfigOk(c) && (id in a.pins && |a.cols| > 0 && id in a.cols[0].tables ==> Has(c, a, id))
  {
    if id !in a.pins || |a.cols| == 0 || id !in a.cols[0].tables || |a.pins[id]| == 0 then Went(a) else
      StepsHas(c, a, id, a.cols[0].tables[id].committed);
      match StepsFrom(c, a, id, a.cols[0].tables[id].committed)
      case Went(a') => Went(Ended(c, a', id))
      case o => o
  }

  lemma StepsUnfold(c: Config, a: Adjunct, id: Id, last: nat, o: Progress)
    requires ConfigOk(c) && Has(c, a, id) && id in a.pins && last + c.align <= |a.pins[id]| && o == StepTo(c, a, id, last + c.align)
    ensures o.Went? ==> Has(c, o.a, id) && o.a.pins == a.pins && StepsFrom(c, a, id, last) == StepsFrom(c, o.a, id, last + c.align)
    ensures o.Halt? ==> StepsFrom(c, a, id, last) == Went(o.a)
    ensures o.Threw? ==> StepsFrom(c, a, id, last) == Threw
  {
    StepToHas(c, a, id, last + c.align);
  }

  lemma StepsStop(c: Config, a: Adjunct, id: Id, last: nat)
    requires ConfigOk(c) && Has(c, a, id) && id in a.pins && last + c.align > |a.pins[id]|
    ensures StepsFrom(c, a, id, last) == Went(a)
  {
  }

  lemma {:induction false} StepsHas(c: Config, a: Adjunct, id: Id, last: nat)
    requires ConfigOk(c) && Has(c, a, id) && id in a.pins
    ensures StillHas(c, a, StepsFrom(c, a, id, last), id)
    decreases |a.pins[id]| - last
  {
    if last + c.align > |a.pins[id]| {
      StepsStop(c, a, id, last);
      StillIs(c, a, Went(a), id);
    } else {
      var o := StepTo(c, a, id, last + c.align);
      StepToHas(c, a, id, last + c.align);
      StepsUnfold(c, a, id, last, o);
      if o.Went? {
        StepsHas(c, o.a, id, last + c.align);
        StillTrans(c, a, o.a, StepsFrom(c, o.a, id, last + c.align), id);
      } else {
        StillIs(c, a, StepsFrom(c, a, id, last), id);
      }
    }
  }

  /** The steps have not stopped halfway, and the request still has its tables and node. */
  ghost predicate StillHas(c: Config, a: Adjunct, o: Progress, id: Id) {
    exists pins {:trigger StillHasBy(c, a, o, id, pins)} :: StillHasBy(c, a, o, id, pins)
  }

  ghost predicate StillHasBy(c: Config, a: Adjunct, o: Progress, id: Id, pins: map<Id, Path>) {
    !o.Halt? && pins == a.pins && (o.Went? ==> Has(c, o.a, id) && o.a.pins == pins && o.a.hits == a.hits)
  }

  lemma StillIs(c: Config, a: Adjunct, o: Progress, id: Id)
    requires !o.Halt? && (o.Went? ==> Has(c, o.a, id) && o.a.pins == a.pins && o.a.hits == a.hits)
    ensures StillHas(c, a, o, id)
  {
    assert StillHasBy(c, a, o, id, a.pins);
  }

  lemma StillTrans(c: Config, a: Adjunct, b: Adjunct, o: Progress, id: Id)
    requires StillHas(c, b, o, id) && b.pins == a.pins && b.hits == a.hits
    ensures StillHas(c, a, o, id)
  {
    assert StillHasBy(c, a, o, id, a.pins);
  }

  // ---------------------------------------------------------------- the prefix hit of a path

  predicate HistoryComplete(c: Config, a: Adjunct, q: Path)
    requires ConfigOk(c) && |a.cols| == |c.groups|
  {
    forall i {:trigger a.cols[i]} :: 0 <= i < c.required && c.groups[i].history ==> q in a.cols[i].segs
  }

  /** How many alignment steps in a row carry a snapshot with all history groups. */
  function Walk(c: Config, a: Adjunct, p: Path, k: nat): (k': nat)
    requires ConfigOk(c) && |a.cols| == |c.groups| && Boundary(k, c.align) <= |p|
    ensures k <= k' && Boundary(k', c.align) <= |p|
    decreases |p| - Boundary(k, c.align)
  {
    var d := Boundary(k + 1, c.align);
    if d <= |p| && p[..d] in a.snaps && HistoryComplete(c, a, p[..d]) then Walk(c, a, p, k + 1) else k
  }

  /** The node has all required state groups. */
  predicate StateComplete(c: Config, a: Adjunct, q: Path)
    requires ConfigOk(c) && |a.cols| == |c.groups|
  {
    q in a.snaps && forall i {:trigger a.cols[i]} :: 0 <= i < c.required && !c.groups[i].history ==> q in a.cols[i].segs
  }

  /** The node has every state group. */
  predicate ContinuationComplete(c: Config, a: Adjunct, q: Path)
    requires ConfigOk(c) && |a.cols| == |c.groups|
  {
    c.states != [] && forall j {:trigger c.states[j]} :: 0 <= j < |c.states| ==> q in a.cols[c.states[j]].segs
  }

  /** Some state group is not required in snapshots. */
  predicate TransportOnly(c: Config) {
    exists j {:trigger c.states[j]} :: 0 <= j < |c.states| && c.states[j] >= c.required
  }

  predicate RequiresState(c: Config)
    requires c.required <= |c.groups|
  {
    exists i {:trigger c.groups[i]} :: 0 <= i < c.required && !c.groups[i].history
  }

  /** The widest window of the first i required state groups. */
  function Widest(c: Config, i: nat): nat
    requires i <= c.required <= |c.groups|
  {
    if i == 0 then 0 else
      var w := Widest(c, i - 1);
      var g := c.groups[i - 1];
      if !g.history && g.window.Some? then MaxNat(w, g.window.value) else w
  }

  /** Snapshots that the widest window spans. */
  function Needed(c: Config): nat
    requires ConfigOk(c)
  {
    if Widest(c, c.required) > 0 then CeilDiv(Widest(c, c.required), c.align) else 1
  }

  /** All state groups are at boundaries from + 1 to k. */
  predicate StatesFrom(c: Config, a: Adjunct, p: Path, from: nat, k: nat)
    requires ConfigOk(c) && |a.cols| == |c.groups|
  {
    forall j {:trigger Boundary(j, c.align)} :: from < j <= k ==> Boundary(j, c.align) <= |p| && StateComplete(c, a, p[..Boundary(j, c.align)])
  }

  /** The most steps, at most k, whose last snapshots have all state groups; 0 if there are none. */
  function Usable(c: Config, a: Adjunct, p: Path, k: nat): (e: nat)
    requires ConfigOk(c) && |a.cols| == |c.groups|
    ensures e <= k
  {
    if k == 0 || StatesFrom(c, a, p, Sub(k, Needed(c)), k) then k else Usable(c, a, p, k - 1)
  }

  /** Segments at boundaries from + 1 to k. */
  function Span(segs: map<Path, Segment>, p: Path, from: nat, k: nat, align: nat): seq<Segment> {
    if k <= from then [] else
      var rest := Span(segs, p, from, k - 1, align);
      var d := Boundary(k, align);
      if d <= |p| && p[..d] in segs then rest + [segs[p[..d]]] else rest
  }

  /** The logical page of a sliding group's first id, where the span starts at boundary from + 1. */
  function SpanBase(segs: map<Path, Segment>, p: Path, from: nat, align: nat, g: Group): nat {
    var d := Boundary(from + 1, align);
    if g.window.Some? && d <= |p| && p[..d] in segs then segs[p[..d]].base else 0
  }

  /** The checked assembler of a state group. */
  function StateIds(chain: seq<Segment>, target: nat, g: Group): Option<seq<nat>>
    requires GroupOk(g) && g.window.Some?
  {
    if !Restorable(target, g.window.value, g) then None
    else Success(Scan(chain, 0, LivePage(target, g.window.value, g), EndPage(target, g), [], LivePage(target, g.window.value, g)), EndPage(target, g))
  }

  /** Every state group's window before the target can be assembled. */
  predicate Continues(c: Config, a: Adjunct, p: Path, k: nat)
    requires ConfigOk(c) && |a.cols| == |c.groups|
  {
    forall j {:trigger c.states[j]} :: 0 <= j < |c.states| ==>
      StateIds(ChainOf(a.cols[c.states[j]].segs, p, k, c.align), Boundary(k, c.align), c.groups[c.states[j]]).Some?
  }

  const NOTHING := Found(0, [], [])

  /** What a hit of k steps offers one group when all state groups can be assembled. */
  function WholeHit(c: Config, a: Adjunct, p: Path, k: nat, i: nat): (seq<nat>, nat)
    requires ConfigOk(c) && |a.cols| == |c.groups| && i < |c.groups| && Continues(c, a, p, k)
  {
    var segs, g := a.cols[i].segs, c.groups[i];
    if g.history then HistoryHit(c, a, p, k, i)
    else
      assert i in c.states;
      (StateIds(ChainOf(segs, p, k, c.align), Boundary(k, c.align), g).value, LivePage(Boundary(k, c.align), g.window.value, g))
  }

  function HistoryHit(c: Config, a: Adjunct, p: Path, k: nat, i: nat): (seq<nat>, nat)
    requires |a.cols| == |c.groups| && i < |c.groups|
  {
    if i < c.required then (Concat(ChainOf(a.cols[i].segs, p, k, c.align)), SpanBase(a.cols[i].segs, p, 0, c.align, c.groups[i])) else ([], 0)
  }

  /** What it offers otherwise: for state groups the segments the widest window spans, as they are. */
  function PlainHit(c: Config, a: Adjunct, p: Path, k: nat, i: nat): (seq<nat>, nat)
    requires ConfigOk(c) && |a.cols| == |c.groups| && i < |c.groups|
  {
    var segs, g := a.cols[i].segs, c.groups[i];
    if g.history || i >= c.required then HistoryHit(c, a, p, k, i)
    else (Concat(Span(segs, p, Sub(k, Needed(c)), k, c.align)), SpanBase(segs, p, Sub(k, Needed(c)), c.align, g))
  }

  function WholeFound(c: Config, a: Adjunct, p: Path, k: nat): Found
    requires ConfigOk(c) && |a.cols| == |c.groups| && Continues(c, a, p, k)
  {
    Found(Boundary(k, c.align), seq(|a.cols|, i requires 0 <= i < |a.cols| => WholeHit(c, a, p, k, i).0),
          seq(|a.cols|, i requires 0 <= i < |a.cols| => WholeHit(c, a, p, k, i).1))
  }

  function PlainFound(c: Config, a: Adjunct, p: Path, k: nat): Found
    requires ConfigOk(c) && |a.cols| == |c.groups|
  {
    Found(Boundary(k, c.align), seq(|a.cols|, i requires 0 <= i < |a.cols| => PlainHit(c, a, p, k, i).0),
          seq(|a.cols|, i requires 0 <= i < |a.cols| => PlainHit(c, a, p, k, i).1))
  }

  /** The hit of a path: its tokens are the depth of the node it ends at, 0 for the root. */
  function Augmented(c: Config, a: Adjunct, p: Path): Found
    requires ConfigOk(c) && |a.cols| == |c.groups|
  {
    var k := Walk(c, a, p, 0);
    if k == 0 then NOTHING
    else if ContinuationComplete(c, a, p[..Boundary(k, c.align)]) && Continues(c, a, p, k) then WholeFound(c, a, p, k)
    else if TransportOnly(c) then NOTHING
    else if !RequiresState(c) then PlainFound(c, a, p, k)
    else
      var e := Usable(c, a, p, k);
      if e == 0 then NOTHING else PlainFound(c, a, p, e)
  }
}
