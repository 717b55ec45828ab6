/** Reading a query down the trie: how many pages of it are stored, how many are resident on a tier,
    and when a walk is stopped early by a node that carries a snapshot. */
module TreeWalk {
  import opened Prelude
  import opened PageTree
  import opened TreeEdits
  import opened TierState

  // ---------------------------------------------------------------- common pages

  /** Whole pages two runs have in common at the front. */
  function MatchedPages(run: seq<Page>, rest: seq<Page>): (k: nat)
    ensures k <= |run| && k <= |rest|
    ensures run[..k] == rest[..k]
    ensures k < |run| && k < |rest| ==> run[k] != rest[k]
  {
    if run == [] || rest == [] || run[0] != rest[0] then 0 else
      var k := MatchedPages(run[1..], rest[1..]);
      assert run[..k + 1] == [run[0]] + run[1..][..k] && rest[..k + 1] == [rest[0]] + rest[1..][..k];
      k + 1
  }

  function Flatten(pages: seq<Page>): seq<Token> {
    if pages == [] then [] else pages[0] + Flatten(pages[1..])
  }

  ghost predicate Paged(pages: seq<Page>, size: nat) {
    forall i :: 0 <= i < |pages| ==> |pages[i]| == size
  }

  /** Tokens two token runs have in common at the front. */
  function Mismatch(a: seq<Token>, b: seq<Token>): (k: nat)
    ensures k <= |a| && k <= |b|
  {
    if a == [] || b == [] || a[0] != b[0] then 0 else 1 + Mismatch(a[1..], b[1..])
  }

  lemma {:induction false} MismatchSkip(p: seq<Token>, a: seq<Token>, b: seq<Token>)
    ensures Mismatch(p + a, p + b) == |p| + Mismatch(a, b)
  {
    if p == [] {
      assert p + a == a && p + b == b;
    } else {
      assert (p + a)[1..] == p[1..] + a && (p + b)[1..] == p[1..] + b;
      MismatchSkip(p[1..], a, b);
    }
  }

  lemma {:induction false} MismatchInside(p: seq<Token>, g: seq<Token>, a: seq<Token>, b: seq<Token>)
    requires |p| == |g| && p != g
    ensures Mismatch(p + a, g + b) < |p|
  {
    if p[0] == g[0] {
      assert p == [p[0]] + p[1..] && g == [g[0]] + g[1..];
      assert (p + a)[1..] == p[1..] + a && (g + b)[1..] == g[1..] + b;
      MismatchInside(p[1..], g[1..], a, b);
    }
  }

  lemma DivSmall(x: nat, d: nat)
    requires x < d
    ensures x / d == 0
  {
  }

  /** Comparing tokens and dividing by the page size counts the common whole pages. */
  lemma {:induction false} MatchedPagesByTokens(run: seq<Page>, rest: seq<Page>, size: nat)
    requires size > 0 && Paged(run, size) && Paged(rest, size)
    ensures Mismatch(Flatten(run), Flatten(rest)) / size == MatchedPages(run, rest)
  {
    if run != [] && rest != [] {
      assert |run[0]| == size && |rest[0]| == size;
      var a, b := Flatten(run[1..]), Flatten(rest[1..]);
      if run[0] == rest[0] {
        MismatchSkip(run[0], a, b);
        MatchedPagesByTokens(run[1..], rest[1..], size);
        DivAddOne(Mismatch(a, b), size);
      } else {
        MismatchInside(run[0], rest[0], a, b);
        DivSmall(Mismatch(run[0] + a, rest[0] + b), size);
      }
    }
  }

  // ---------------------------------------------------------------- stored prefixes

  lemma {:induction false} DescendPrefix(t: Tree, q: seq<Page>, j: nat)
    requires WF(t) && j <= |q| && Descend(t, q).Some?
    ensures Descend(t, q[..j]).Some?
  {
    if j == |q| {
      assert q[..j] == q;
    } else {
      assert q[..|q| - 1][..j] == q[..j];
      DescendPrefix(t, q[..|q| - 1], j);
    }
  }

  lemma StoredBelow(t: Tree, q: seq<Page>, j: nat, s: nat)
    requires WF(t) && j <= s <= |q|
    ensures Descend(t, q[..s]).Some? ==> Descend(t, q[..j]).Some?
  {
    assert q[..s][..j] == q[..j];
    if Descend(t, q[..s]).Some? { DescendPrefix(t, q[..s], j); }
  }

  /** Length of the longest stored prefix of a query. */
  ghost function StoredLen(t: Tree, q: seq<Page>): (m: nat)
    requires WF(t)
    ensures m <= |q| && Descend(t, q[..m]).Some?
  {
    if Descend(t, q).Some? then assert q[..|q|] == q; |q| else
      var m := StoredLen(t, q[..|q| - 1]);
      assert q[..|q| - 1][..m] == q[..m];
      m
  }

  lemma {:induction false} StoredLenMax(t: Tree, q: seq<Page>, j: nat)
    requires WF(t) && j <= |q| && Descend(t, q[..j]).Some?
    ensures j <= StoredLen(t, q)
  {
    assert q[..|q|] == q;
    if Descend(t, q).None? {
      assert q[..|q| - 1][..j] == q[..j];
      StoredLenMax(t, q[..|q| - 1], j);
    }
  }

  /** The stored length is where spelling first fails. */
  lemma StoredLenIs(t: Tree, q: seq<Page>, m: nat)
    requires WF(t) && m <= |q| && Descend(t, q[..m]).Some? && (m < |q| ==> Descend(t, q[..m + 1]).None?)
    ensures StoredLen(t, q) == m
  {
    StoredLenMax(t, q, m);
    forall s | m < s <= |q| ensures Descend(t, q[..s]).None? {
      StoredBelow(t, q, m + 1, s);
    }
  }

  /** The query leaves the trie strictly inside a node that carries a snapshot. */
  ghost predicate Blocked(t: Tree, q: seq<Page>)
    requires WF(t)
  {
    var p := Descend(t, q[..StoredLen(t, q)]).value;
    p.off < |t[p.node].run| && t[p.node].snapshot
  }

  lemma BlockedAt(t: Tree, q: seq<Page>, s: nat, p: Pos)
    requires WF(t) && StoredLen(t, q) == s && Descend(t, q[..s]) == Some(p)
    ensures Blocked(t, q) <==> p.off < |t[p.node].run| && t[p.node].snapshot
  {
  }

  lemma StoredLenSame(t: Tree, t': Tree, q: seq<Page>)
    requires WF(t) && WF(t')
    requires forall r :: Descend(t', r).Some? <==> Descend(t, r).Some?
    ensures StoredLen(t', q) == StoredLen(t, q)
  {
    var m := StoredLen(t, q);
    if m < |q| && Descend(t, q[..m + 1]).Some? { StoredLenMax(t, q, m + 1); }
    StoredLenIs(t', q, m);
  }

  // ---------------------------------------------------------------- one step of a walk

  /** From the end of a node, the next page is stored exactly if a child starts with it. */
  lemma StepAtEnd(t: Tree, n: NodeId, q: seq<Page>, m: nat)
    requires WF(t) && n in t && m < |q| && Path(t, n) == q[..m]
    ensures Descend(t, q[..m + 1]).Some? <==> q[m] in t[n].children
    ensures q[m] in t[n].children ==> Descend(t, q[..m + 1]) == Some(Pos(t[n].children[q[m]], 1))
  {
    DescendNode(t, n);
    assert q[..m + 1][..m] == q[..m];
  }

  lemma {:induction false} DescendInside(t: Tree, n: NodeId, c: NodeId, q: seq<Page>, m: nat, k: nat)
    requires WF(t) && n in t && m <= |q| && Path(t, n) == q[..m]
    requires c in t && c != ROOT && t[c].parent == n && 0 < k <= |t[c].run| && m + k <= |q|
    requires t[c].run[..k] == q[m..m + k]
    ensures Descend(t, q[..m + k]) == Some(Pos(c, k))
  {
    assert UpOk(t, c);
    SpellsDescend(t, Pos(c, k));
    assert q[..m] + q[m..m + k] == q[..m + k];
  }

  /** The run agrees with the query for exactly k > 0 pages from place m. */
  ghost predicate Agree(run: seq<Page>, q: seq<Page>, m: nat, k: nat) {
    && 0 < k <= |run| && m + k <= |q|
    && run[..k] == q[m..m + k]
    && (k < |run| && m + k < |q| ==> run[k] != q[m + k])
  }

  lemma MatchedAgree(run: seq<Page>, q: seq<Page>, m: nat)
    requires m < |q| && run != [] && run[0] == q[m]
    ensures Agree(run, q, m, MatchedPages(run, q[m..]))
  {
    var k := MatchedPages(run, q[m..]);
    assert q[m..][..k] == q[m..m + k];
  }

  /** A child that agrees for k pages and then does not puts the end of storage inside it. */
  lemma StoredInside(t: Tree, n: NodeId, c: NodeId, q: seq<Page>, m: nat, k: nat)
    requires WF(t) && n in t && m < |q| && Path(t, n) == q[..m]
    requires c in t && c != ROOT && t[c].parent == n && Agree(t[c].run, q, m, k) && k < |t[c].run|
    ensures StoredLen(t, q) == m + k && Descend(t, q[..m + k]) == Some(Pos(c, k))
  {
    EndsInside(t, n, c, q, m, k);
  }

  lemma EndsInside(t: Tree, n: NodeId, c: NodeId, q: seq<Page>, m: nat, k: nat)
    requires WF(t) && n in t && m <= |q| && Path(t, n) == q[..m]
    requires c in t && c != ROOT && t[c].parent == n && 0 < k < |t[c].run| && m + k <= |q|
    requires t[c].run[..k] == q[m..m + k] && (m + k < |q| ==> t[c].run[k] != q[m + k])
    ensures StoredLen(t, q) == m + k && Descend(t, q[..m + k]) == Some(Pos(c, k))
  {
    DescendInside(t, n, c, q, m, k);
    if m + k < |q| { LeavesInside(t, q, m + k, c, k); }
    StoredLenIs(t, q, m + k);
  }

  lemma LeavesInside(t: Tree, q: seq<Page>, m: nat, c: NodeId, k: nat)
    requires WF(t) && m < |q| && c in t && k < |t[c].run|
    requires Descend(t, q[..m]) == Some(Pos(c, k)) && t[c].run[k] != q[m]
    ensures Descend(t, q[..m + 1]).None?
  {
    var r := q[..m + 1];
    assert r[..|r| - 1] == q[..m] && r[|r| - 1] == q[m];
  }

  // ---------------------------------------------------------------- residency

  /** Every prefix of a resident node's path is resident. */
  lemma {:induction false} PathResident(t: Tree, n: NodeId, tier: Tier, j: nat)
    requires WF(t) && Closed(t, tier) && n in t && (n == ROOT || On(t, n, tier)) && j <= t[n].depth
    ensures Resident(t, Path(t, n)[..j], tier)
    decreases t[n].depth
  {
    if n != ROOT && j > 0 {
      assert UpOk(t, n) && ClosedAt(t, n, tier) && ResOk(t[n]);
      var p := t[n].parent;
      if j <= t[p].depth {
        PathResident(t, p, tier, j);
        assert Path(t, n)[..j] == Path(t, p)[..j];
      } else {
        var pos := Pos(n, j - t[p].depth);
        SpellsDescend(t, pos);
        assert PosPath(t, pos) == Path(t, n)[..j];
      }
    }
  }

  /** d is the length of the longest prefix of q all of whose pages are resident on the tier. */
  ghost predicate LongestResident(t: Tree, q: seq<Page>, tier: Tier, d: nat)
    requires WF(t)
  {
    && d <= |q|
    && (forall j :: 0 <= j <= d ==> Resident(t, q[..j], tier))
    && (d < |q| ==> !Resident(t, q[..d + 1], tier))
  }

  lemma NodeIsLongest(t: Tree, q: seq<Page>, tier: Tier, n: NodeId)
    requires WF(t) && Closed(t, tier) && n in t && (n == ROOT || On(t, n, tier))
    requires t[n].depth <= |q| && Path(t, n) == q[..t[n].depth]
    requires t[n].depth < |q| ==> !Resident(t, q[..t[n].depth + 1], tier)
    ensures LongestResident(t, q, tier, t[n].depth)
  {
    forall j | 0 <= j <= t[n].depth ensures Resident(t, q[..j], tier) {
      PathResident(t, n, tier, j);
      assert q[..t[n].depth][..j] == q[..j];
    }
  }

  /** The first page of a child is resident exactly if the child is on the tier. */
  lemma ChildResident(t: Tree, n: NodeId, q: seq<Page>, tier: Tier)
    requires WF(t) && n in t && t[n].depth < |q| && Path(t, n) == q[..t[n].depth]
    ensures var m := t[n].depth;
            Resident(t, q[..m + 1], tier) <==> q[m] in t[n].children && On(t, t[n].children[q[m]], tier)
  {
    var m := t[n].depth;
    StepAtEnd(t, n, q, m);
    if q[m] in t[n].children {
      assert DownOk(t, n, q[m]) && ResOk(t[t[n].children[q[m]]]);
    }
  }

  /** Nodes whose paths extend one another are ancestors of one another. */
  lemma {:induction false} PathPrefixAnc(t: Tree, a: NodeId, b: NodeId)
    requires WF(t) && a in t && b in t && Path(t, a) <= Path(t, b)
    ensures IsAnc(t, a, b)
    decreases t[b].depth
  {
    DescendNode(t, a);
    if b != ROOT {
      assert UpOk(t, b);
      var p := t[b].parent;
      if t[p].depth < t[a].depth {
        var pos := Pos(b, t[a].depth - t[p].depth);
        SpellsDescend(t, pos);
        assert PosPath(t, pos) == Path(t, a);
      } else {
        assert Path(t, a) <= Path(t, p);
        PathPrefixAnc(t, a, p);
      }
    }
  }
}
