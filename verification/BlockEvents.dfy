/** Published block events: replaying them gives exactly the chained hashes of the device-resident pages. */
module BlockEvents {
  import opened Prelude
  import opened PageTree
  import opened TreeEdits
  import opened TierState
  import opened TreeWalk
  import opened TreeFrames

  type Hash = nat

  /** A block hash takes a page and the hash of the block before it, if there is one. */
  type BlockHash = (Page, Option<Hash>) -> Hash

  ghost predicate Injective(h: BlockHash) {
    forall p, a, q, c :: h(p, a) == h(q, c) ==> p == q && a == c
  }

  /** The hash of a block names its whole path. */
  function Chained(h: BlockHash, q: seq<Page>): Option<Hash> {
    if q == [] then None else Some(h(q[|q| - 1], Chained(h, q[..|q| - 1])))
  }

  lemma {:induction false} ChainedInjective(h: BlockHash, a: seq<Page>, b: seq<Page>)
    requires Injective(h) && Chained(h, a) == Chained(h, b)
    ensures a == b
  {
    if a != [] && b != [] {
      ChainedInjective(h, a[..|a| - 1], b[..|b| - 1]);
      assert a == a[..|a| - 1] + [a[|a| - 1]] && b == b[..|b| - 1] + [b[|b| - 1]];
    }
  }

  datatype Event = Stored(block: Hash) | Removed(blocks: seq<Hash>)

  /** What the cache has told its listener so far, and the hash it names blocks by. */
  datatype Log = Log(hash: BlockHash, published: set<Hash>, events: seq<Event>)

  /** Nothing told is taken back. */
  ghost predicate Grows(log: Log, log': Log) {
    log'.hash == log.hash && log.events <= log'.events
  }

  ghost function Heard(before: set<Hash>, e: Event): set<Hash> {
    if e.Stored? then before + {e.block} else before - Elems(e.blocks)
  }

  /** What a listener that started with nothing believes to be stored. */
  ghost function Replay(events: seq<Event>): set<Hash> {
    if events == [] then {} else Heard(Replay(events[..|events| - 1]), events[|events| - 1])
  }

  lemma ReplayMore(events: seq<Event>, e: Event)
    ensures Replay(events + [e]) == Heard(Replay(events), e)
  {
    assert (events + [e])[..|events|] == events;
  }

  /** The hash of the block at place i of node n. */
  ghost function HashAt(h: BlockHash, t: Tree, n: NodeId, i: nat): Hash
    requires WF(t) && n in t && n != ROOT && i < |t[n].run|
  {
    assert UpOk(t, n);
    Chained(h, Path(t, t[n].parent) + t[n].run[..i + 1]).value
  }

  /** The hashes of all blocks of a node. */
  ghost function NodeHashes(h: BlockHash, t: Tree, n: NodeId): set<Hash>
    requires WF(t) && n in t && n != ROOT
  {
    set i | 0 <= i < |t[n].run| :: HashAt(h, t, n, i)
  }

  lemma ChainOn(h: BlockHash, t: Tree, n: NodeId, i: nat)
    requires WF(t) && n in t && n != ROOT && i < |t[n].run|
    ensures t[n].parent in t
    ensures HashAt(h, t, n, i) == h(t[n].run[i], Chained(h, Path(t, t[n].parent) + t[n].run[..i]))
  {
    assert UpOk(t, n);
    var q := Path(t, t[n].parent) + t[n].run[..i + 1];
    assert q[..|q| - 1] == Path(t, t[n].parent) + t[n].run[..i];
  }

  /** The chained hashes of a node's blocks, from the last hash of its parent. */
  method BlockHashes(h: BlockHash, t: Tree, n: NodeId) returns (hashes: seq<Hash>)
    requires WF(t) && n in t && n != ROOT
    ensures |hashes| == |t[n].run| && forall i :: 0 <= i < |hashes| ==> hashes[i] == HashAt(h, t, n, i)
    decreases t[n].depth
  {
    assert UpOk(t, n);
    var p := t[n].parent;
    var prior: Option<Hash> := None;
    if p != ROOT {
      assert UpOk(t, p);
      var above := BlockHashes(h, t, p);
      prior := Some(above[|above| - 1]);
      assert t[p].run[..|t[p].run|] == t[p].run;
    }
    hashes := [];
    assert Path(t, p) + t[n].run[..0] == Path(t, p);
    while |hashes| < |t[n].run|
      invariant |hashes| <= |t[n].run| && prior == Chained(h, Path(t, p) + t[n].run[..|hashes|])
      invariant forall i :: 0 <= i < |hashes| ==> hashes[i] == HashAt(h, t, n, i)
    {
      ChainOn(h, t, n, |hashes|);
      prior := Some(h(t[n].run[|hashes|], prior));
      hashes := hashes + [prior.value];
    }
  }

  // ---------------------------------------------------------------- recording

  ghost predicate Replayed(log: Log) {
    Replay(log.events) == log.published
  }

  /** A node gained device pages: an event for each of its blocks not published yet. */
  method RecordStored(log: Log, t: Tree, n: NodeId) returns (log': Log)
    requires WF(t) && n in t && n != ROOT
    ensures Grows(log, log') && log'.published == log.published + NodeHashes(log.hash, t, n) && (Replayed(log) ==> Replayed(log'))
  {
    log' := log;
    var hashes := BlockHashes(log.hash, t, n);
    var i := 0;
    while i < |hashes|
      invariant 0 <= i <= |hashes| && Grows(log, log') && (Replayed(log) ==> Replayed(log'))
      invariant log'.published == log.published + (set j | 0 <= j < i :: HashAt(log.hash, t, n, j))
    {
      var b := hashes[i];
      if b !in log'.published {
        ReplayMore(log'.events, Stored(b));
        log' := log'.(published := log'.published + {b}, events := log'.events + [Stored(b)]);
      }
      i := i + 1;
    }
  }

  /** A node lost its device pages: one event with those of its blocks that were published. */
  method RecordRemoved(log: Log, t: Tree, n: NodeId) returns (log': Log)
    requires WF(t) && n in t && n != ROOT
    ensures Grows(log, log') && log'.published == log.published - NodeHashes(log.hash, t, n) && (Replayed(log) ==> Replayed(log'))
  {
    var published, removed := log.published, [];
    var hashes := BlockHashes(log.hash, t, n);
    var i := 0;
    while i < |hashes|
      invariant 0 <= i <= |hashes|
      invariant published == log.published - (set j | 0 <= j < i :: HashAt(log.hash, t, n, j))
      invariant published == log.published - Elems(removed)
    {
      var b := hashes[i];
      if b in published {
        published, removed := published - {b}, removed + [b];
      }
      i := i + 1;
    }
    log' := log.(published := published);
    if removed != [] {
      ReplayMore(log.events, Removed(removed));
      log' := log'.(events := log.events + [Removed(removed)]);
    }
  }

  // ---------------------------------------------------------------- resident blocks

  /** The last block of this path is on the device. */
  ghost predicate OnDevice(t: Tree, q: seq<Page>)
    requires WF(t)
  {
    q != [] && Descend(t, q).Some? && On(t, Descend(t, q).value.node, Device)
  }

  /** This is what the abstract trie calls device-resident. */
  lemma OnDeviceIsResident(t: Tree, q: seq<Page>)
    requires WF(t) && q != []
    ensures OnDevice(t, q) <==> Resident(t, q, Device)
  {
    if Descend(t, q).Some? { assert ResOk(t[Descend(t, q).value.node]); }
  }

  /** Published are exactly the chained hashes of the blocks on the device. */
  ghost predicate Exact(h: BlockHash, t: Tree, published: set<Hash>)
    requires WF(t)
  {
    && (forall q {:trigger Chained(h, q)} :: OnDevice(t, q) ==> Chained(h, q).value in published)
    && (forall b :: b in published ==> exists q {:trigger OnDevice(t, q)} :: OnDevice(t, q) && Chained(h, q) == Some(b))
  }

  /** A block's hash is among those of the node it lies in, and all hashes of a node are of blocks that lie in it. */
  lemma HashInNode(h: BlockHash, t: Tree, q: seq<Page>)
    requires WF(t) && q != [] && Descend(t, q).Some?
    ensures var n := Descend(t, q).value.node; n != ROOT && Chained(h, q).value in NodeHashes(h, t, n)
  {
    var p := Descend(t, q).value;
    DescendSpells(t, q);
    assert UpOk(t, p.node);
    assert Chained(h, q).value == HashAt(h, t, p.node, p.off - 1);
  }

  lemma NodeHashPath(h: BlockHash, t: Tree, n: NodeId, b: Hash) returns (q: seq<Page>)
    requires WF(t) && n in t && n != ROOT && b in NodeHashes(h, t, n)
    ensures q != [] && Chained(h, q) == Some(b) && Descend(t, q).Some? && Descend(t, q).value.node == n
  {
    var i :| 0 <= i < |t[n].run| && b == HashAt(h, t, n, i);
    assert UpOk(t, n);
    q := Path(t, t[n].parent) + t[n].run[..i + 1];
    SpellsDescend(t, Pos(n, i + 1));
  }

  /** The same blocks are on the device. */
  ghost predicate SameDevice(t: Tree, t': Tree)
    requires WF(t) && WF(t')
  {
    forall q {:trigger OnDevice(t', q)} {:trigger OnDevice(t, q)} :: OnDevice(t', q) <==> OnDevice(t, q)
  }

  /** No block has come onto the device. */
  ghost predicate NoneGained(t: Tree, t': Tree)
    requires WF(t) && WF(t')
  {
    forall q {:trigger OnDevice(t', q)} :: OnDevice(t', q) ==> OnDevice(t, q)
  }

  lemma FewerDevice(t: Tree, t': Tree)
    requires WF(t) && WF(t') && SameShape(t, t') && forall x :: x in t && On(t', x, Device) ==> On(t, x, Device)
    ensures NoneGained(t, t')
  {
    forall q | OnDevice(t', q) ensures OnDevice(t, q) {
      SameShapeDescend(t, t', q);
    }
  }

  /** Walks and splits change no block. */
  lemma SameTrieDevice(t: Tree, t': Tree)
    requires WF(t) && WF(t') && SameTrie(t, t')
    ensures SameDevice(t, t')
  {
    forall q ensures OnDevice(t', q) <==> OnDevice(t, q) {
      if q != [] {
        OnDeviceIsResident(t, q);
        OnDeviceIsResident(t', q);
        assert Lookup(t', q) == Lookup(t, q);
      }
    }
  }

  /** Locks, unlocks and host pages that come or go change no block. */
  lemma SameShapeDevice(t: Tree, t': Tree)
    requires WF(t) && WF(t') && SameShape(t, t')
    requires forall x :: x in t ==> (On(t', x, Device) <==> On(t, x, Device))
    ensures SameDevice(t, t')
  {
    forall q ensures OnDevice(t', q) <==> OnDevice(t, q) {
      SameShapeDescend(t, t', q);
    }
  }

  /** The hash is of a block of one of these nodes. */
  ghost predicate InNodes(h: BlockHash, t: Tree, nodes: set<NodeId>, b: Hash)
    requires WF(t)
  {
    exists n {:trigger n in nodes} :: n in nodes && n in t && n != ROOT && b in NodeHashes(h, t, n)
  }

  lemma BlockInNodes(h: BlockHash, t: Tree, nodes: set<NodeId>, q: seq<Page>)
    requires WF(t) && q != [] && Descend(t, q).Some? && Descend(t, q).value.node in nodes
    ensures InNodes(h, t, nodes, Chained(h, q).value)
  {
    HashInNode(h, t, q);
  }

  lemma BlockOfNodes(h: BlockHash, t: Tree, nodes: set<NodeId>, b: Hash) returns (q: seq<Page>)
    requires WF(t) && InNodes(h, t, nodes, b)
    ensures q != [] && Chained(h, q) == Some(b) && Descend(t, q).Some? && Descend(t, q).value.node in nodes
  {
    var n :| n in nodes && n in t && n != ROOT && b in NodeHashes(h, t, n);
    q := NodeHashPath(h, t, n, b);
  }

  /** Pages attached to some nodes: just their blocks join. */
  lemma StoredNodes(h: BlockHash, t: Tree, t': Tree, nodes: set<NodeId>, published: set<Hash>, published': set<Hash>)
    requires WF(t) && WF(t') && SameShape(t, t') && Exact(h, t, published)
    requires forall x :: x in t ==> (On(t', x, Device) <==> On(t, x, Device) || x in nodes)
    requires forall b :: b in published' <==> b in published || InNodes(h, t, nodes, b)
    ensures Exact(h, t', published')
  {
    forall q | OnDevice(t', q) ensures Chained(h, q).value in published' {
      SameShapeDescend(t, t', q);
      if Descend(t, q).value.node in nodes { BlockInNodes(h, t, nodes, q); } else { assert OnDevice(t, q); }
    }
    forall b | b in published' ensures exists q {:trigger OnDevice(t', q)} :: OnDevice(t', q) && Chained(h, q) == Some(b) {
      var q;
      if b in published { q :| OnDevice(t, q) && Chained(h, q) == Some(b); } else { q := BlockOfNodes(h, t, nodes, b); }
      SameShapeDescend(t, t', q);
      assert OnDevice(t', q);
    }
  }

  /** Pages detached from some nodes: their blocks go, and, hashes being injective, no others. */
  lemma RemovedNodes(h: BlockHash, t: Tree, t': Tree, nodes: set<NodeId>, published: set<Hash>, published': set<Hash>)
    requires WF(t) && WF(t') && SameShape(t, t') && Exact(h, t, published) && Injective(h)
    requires forall x :: x in t ==> (On(t', x, Device) <==> On(t, x, Device) && x !in nodes)
    requires forall b :: b in published' <==> b in published && !InNodes(h, t, nodes, b)
    ensures Exact(h, t', published')
  {
    forall q | OnDevice(t', q) ensures Chained(h, q).value in published' {
      SameShapeDescend(t, t', q);
      assert OnDevice(t, q);
      if InNodes(h, t, nodes, Chained(h, q).value) {
        var r := BlockOfNodes(h, t, nodes, Chained(h, q).value);
        ChainedInjective(h, q, r);
      }
    }
    forall b | b in published' ensures exists q {:trigger OnDevice(t', q)} :: OnDevice(t', q) && Chained(h, q) == Some(b) {
      var q :| OnDevice(t, q) && Chained(h, q) == Some(b);
      SameShapeDescend(t, t', q);
      if Descend(t, q).value.node in nodes { BlockInNodes(h, t, nodes, q); }
      assert OnDevice(t', q);
    }
  }

  // ---------------------------------------------------------------- several nodes

  lemma InNodesMore(h: BlockHash, t: Tree, nodes: seq<NodeId>, i: nat, b: Hash)
    requires WF(t) && i < |nodes| && nodes[i] in t && nodes[i] != ROOT
    ensures InNodes(h, t, Elems(nodes[..i + 1]), b) <==> InNodes(h, t, Elems(nodes[..i]), b) || b in NodeHashes(h, t, nodes[i])
  {
    var all, first := Elems(nodes[..i + 1]), Elems(nodes[..i]);
    assert nodes[..i + 1] == nodes[..i] + [nodes[i]];
    assert nodes[i] in all;
    if InNodes(h, t, all, b) {
      var n :| n in all && n in t && n != ROOT && b in NodeHashes(h, t, n);
      if n != nodes[i] { assert n in first; }
    }
    if InNodes(h, t, first, b) {
      var n :| n in first && n in t && n != ROOT && b in NodeHashes(h, t, n);
      assert n in all;
    }
  }

  /** Published so far: the blocks of these nodes have joined, or have gone. */
  ghost predicate Joined(h: BlockHash, t: Tree, nodes: set<NodeId>, published: set<Hash>, published': set<Hash>)
    requires WF(t)
  {
    forall b :: b in published' <==> b in published || InNodes(h, t, nodes, b)
  }

  ghost predicate Gone(h: BlockHash, t: Tree, nodes: set<NodeId>, published: set<Hash>, published': set<Hash>)
    requires WF(t)
  {
    forall b :: b in published' <==> b in published && !InNodes(h, t, nodes, b)
  }

  lemma OneMore(h: BlockHash, t: Tree, nodes: seq<NodeId>, i: nat, published: set<Hash>, was: set<Hash>, now: set<Hash>)
    requires WF(t) && i < |nodes| && nodes[i] in t && nodes[i] != ROOT
    ensures Joined(h, t, Elems(nodes[..i]), published, was) && now == was + NodeHashes(h, t, nodes[i])
            ==> Joined(h, t, Elems(nodes[..i + 1]), published, now)
    ensures Gone(h, t, Elems(nodes[..i]), published, was) && now == was - NodeHashes(h, t, nodes[i])
            ==> Gone(h, t, Elems(nodes[..i + 1]), published, now)
  {
    forall b ensures InNodes(h, t, Elems(nodes[..i + 1]), b) <==> InNodes(h, t, Elems(nodes[..i]), b) || b in NodeHashes(h, t, nodes[i]) {
      InNodesMore(h, t, nodes, i, b);
    }
  }

  /** Node hashes depend on the shape of the tree alone. */
  lemma SameHashes(h: BlockHash, t: Tree, t': Tree, nodes: set<NodeId>)
    requires WF(t) && WF(t') && SameShape(t, t')
    ensures forall b :: InNodes(h, t', nodes, b) <==> InNodes(h, t, nodes, b)
  {
    forall n | n in t && n != ROOT ensures NodeHashes(h, t', n) == NodeHashes(h, t, n) {
      assert UpOk(t, n);
      SameShapeFacts(t, t', t[n].parent, n);
      forall i: nat | i < |t[n].run| ensures HashAt(h, t', n, i) == HashAt(h, t, n, i) {}
    }
  }

  // ---------------------------------------------------------------- what a listener knows

  /** Replaying every event from nothing gives exactly the chained hashes of the blocks on the device, provided hashes tell
      paths apart. */
  ghost predicate TellsAll(log: Log, t: Tree, held: set<Hash>) {
    WF(t) && held == log.published && Replayed(log) && (Injective(log.hash) ==> Exact(log.hash, t, held))
  }

  ghost predicate Told(log: Log, t: Tree) {
    exists held {:trigger TellsAll(log, t, held)} :: TellsAll(log, t, held)
  }

  /** An operation adds to the log, and tells everything if everything was told before. */
  ghost predicate StillTold(log: Log, t: Tree, log': Log, t': Tree) {
    Grows(log, log') && (Told(log, t) ==> Told(log', t'))
  }

  lemma StillToldTrans(log: Log, t: Tree, log1: Log, t1: Tree, log2: Log, t2: Tree)
    requires StillTold(log, t, log1, t1) && StillTold(log1, t1, log2, t2)
    ensures StillTold(log, t, log2, t2)
  {
  }

  lemma ToldSame(log: Log, t: Tree, t': Tree)
    requires WF(t) && WF(t') && SameDevice(t, t')
    ensures StillTold(log, t, log, t')
  {
    if Told(log, t) {
      var held :| TellsAll(log, t, held);
      if Injective(log.hash) {
        forall q | OnDevice(t', q) ensures Chained(log.hash, q).value in held { assert OnDevice(t, q); }
        forall b | b in held ensures exists q {:trigger OnDevice(t', q)} :: OnDevice(t', q) && Chained(log.hash, q) == Some(b) {
          var q :| OnDevice(t, q) && Chained(log.hash, q) == Some(b);
          assert OnDevice(t', q);
        }
      }
      assert TellsAll(log, t', held);
    }
  }

  /** Insertion and load-back publish the nodes that gained device pages. */
  method PublishStored(log: Log, ghost t0: Tree, t: Tree, nodes: seq<NodeId>) returns (log': Log)
    requires WF(t0) && WF(t) && SameShape(t0, t) && forall i :: 0 <= i < |nodes| ==> nodes[i] in t && nodes[i] != ROOT
    requires forall x :: x in t0 ==> (On(t, x, Device) <==> On(t0, x, Device) || x in Elems(nodes))
    ensures StillTold(log, t0, log', t)
  {
    log' := log;
    var i := 0;
    while i < |nodes|
      invariant 0 <= i <= |nodes| && Grows(log, log') && (Replayed(log) ==> Replayed(log'))
      invariant Joined(log.hash, t, Elems(nodes[..i]), log.published, log'.published)
    {
      ghost var was := log'.published;
      log' := RecordStored(log', t, nodes[i]);
      OneMore(log.hash, t, nodes, i, log.published, was, log'.published);
      i := i + 1;
    }
    assert nodes[..i] == nodes;
    ToldStored(log, log', t0, t, Elems(nodes));
  }

  lemma ToldStored(log: Log, log': Log, t0: Tree, t: Tree, nodes: set<NodeId>)
    requires WF(t0) && WF(t) && SameShape(t0, t) && Grows(log, log') && (Replayed(log) ==> Replayed(log'))
    requires forall x :: x in t0 ==> (On(t, x, Device) <==> On(t0, x, Device) || x in nodes)
    requires Joined(log.hash, t, nodes, log.published, log'.published)
    ensures StillTold(log, t0, log', t)
  {
    if Told(log, t0) {
      var held :| TellsAll(log, t0, held);
      SameHashes(log.hash, t0, t, nodes);
      if Injective(log.hash) { StoredNodes(log.hash, t0, t, nodes, log.published, log'.published); }
      assert TellsAll(log', t, log'.published);
    }
  }

  /** Eviction and demotion publish the nodes that lost their device pages. */
  method PublishRemoved(log: Log, ghost t0: Tree, t: Tree, nodes: seq<NodeId>) returns (log': Log)
    requires WF(t0) && WF(t) && SameShape(t0, t) && forall i :: 0 <= i < |nodes| ==> nodes[i] in t && nodes[i] != ROOT
    requires forall x :: x in t0 ==> (On(t, x, Device) <==> On(t0, x, Device) && x !in Elems(nodes))
    ensures StillTold(log, t0, log', t)
  {
    log' := log;
    var i := 0;
    while i < |nodes|
      invariant 0 <= i <= |nodes| && Grows(log, log') && (Replayed(log) ==> Replayed(log'))
      invariant Gone(log.hash, t, Elems(nodes[..i]), log.published, log'.published)
    {
      ghost var was := log'.published;
      log' := RecordRemoved(log', t, nodes[i]);
      OneMore(log.hash, t, nodes, i, log.published, was, log'.published);
      i := i + 1;
    }
    assert nodes[..i] == nodes;
    ToldRemoved(log, log', t0, t, Elems(nodes));
  }

  lemma ToldRemoved(log: Log, log': Log, t0: Tree, t: Tree, nodes: set<NodeId>)
    requires WF(t0) && WF(t) && SameShape(t0, t) && Grows(log, log') && (Replayed(log) ==> Replayed(log'))
    requires forall x :: x in t0 ==> (On(t, x, Device) <==> On(t0, x, Device) && x !in nodes)
    requires Gone(log.hash, t, nodes, log.published, log'.published)
    ensures StillTold(log, t0, log', t)
  {
    if Told(log, t0) {
      var held :| TellsAll(log, t0, held);
      SameHashes(log.hash, t0, t, nodes);
      if Injective(log.hash) { RemovedNodes(log.hash, t0, t, nodes, log.published, log'.published); }
      assert TellsAll(log', t, log'.published);
    }
  }

  /** With nothing told and nothing on the device, everything has been told. */
  lemma ToldNothing(h: BlockHash, t: Tree)
    requires WF(t) && forall x :: !On(t, x, Device)
    ensures Told(Log(h, {}, []), t)
  {
    assert TellsAll(Log(h, {}, []), t, {});
  }
}
