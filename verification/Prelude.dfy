/** Shared vocabulary: optional values, ceiling division, and the pages gathered from a table of owners. */
module Prelude {

  datatype Option<+T> = None | Some(value: T)

  /** Subtraction that stops at zero. */
  function Sub(a: int, b: int): nat { if a > b then a - b else 0 }

  /** Ceiling division on naturals, as the schedulers write it: (x + d - 1) / d. */
  function CeilDiv(x: nat, d: nat): (r: nat)
    requires d > 0
    ensures (r - 1) * d < x <= r * d
  {
    (x + d - 1) / d
  }

  lemma MulMonotone(a: int, b: int, d: nat)
    ensures a <= b ==> a * d <= b * d
  {
  }

  /** The ceiling is the only count of blocks that covers x and would not without its last block. */
  lemma CeilDivUnique(x: nat, d: nat, r: nat)
    requires d > 0 && (r - 1) * d < x <= r * d
    ensures CeilDiv(x, d) == r
  {
    var c: int := CeilDiv(x, d);
    MulMonotone(c, r - 1, d);
    MulMonotone(r, c - 1, d);
  }

  lemma DivUnique(x: int, d: nat, q: int, r: int)
    requires d > 0 && x == q * d + r && 0 <= r < d
    ensures x / d == q && x % d == r
  {
    MulMonotone(x / d, q - 1, d);
    MulMonotone(q, x / d - 1, d);
    assert x == (x / d) * d + x % d;
  }

  lemma DivAddOne(x: int, d: nat)
    requires d > 0
    ensures (d + x) / d == 1 + x / d
  {
    DivUnique(d + x, d, 1 + x / d, x % d);
  }

  /** Every page id held by some owner of the table, counted as often as it is held. */
  ghost function Gather<K>(m: map<K, seq<nat>>): (bag: multiset<nat>)
  {
    if m == map[] then multiset{} else
      var k :| k in m;
      multiset(m[k]) + Gather(m - {k})
  }

  /** Gathering does not depend on the order of owners: any owner can be taken out first. */
  lemma {:induction false} GatherPick<K>(m: map<K, seq<nat>>, k: K)
    requires k in m
    ensures Gather(m) == multiset(m[k]) + Gather(m - {k})
    decreases m
  {
    var j :| j in m && Gather(m) == multiset(m[j]) + Gather(m - {j});
    if j != k {
      GatherPick(m - {j}, k);
      GatherPick(m - {k}, j);
      assert m - {j} - {k} == m - {k} - {j};
    }
  }

  lemma GatherAdd<K>(m: map<K, seq<nat>>, k: K, pages: seq<nat>)
    requires k !in m
    ensures Gather(m[k := pages]) == Gather(m) + multiset(pages)
  {
    var m' := m[k := pages];
    GatherPick(m', k);
    assert m' - {k} == m;
  }

  lemma GatherUpdate<K>(m: map<K, seq<nat>>, k: K, pages: seq<nat>)
    requires k in m
    ensures Gather(m[k := pages]) + multiset(m[k]) == Gather(m) + multiset(pages)
  {
    var m' := m[k := pages];
    GatherPick(m', k);
    GatherPick(m, k);
    assert m' - {k} == m - {k};
  }

  lemma GatherRemove<K>(m: map<K, seq<nat>>, k: K)
    requires k in m
    ensures Gather(m - {k}) + multiset(m[k]) == Gather(m)
  {
    GatherPick(m, k);
  }

  lemma MultisetSplit(s: seq<nat>, k: nat)
    requires k <= |s|
    ensures multiset(s) == multiset(s[..k]) + multiset(s[k..])
  {
    assert s == s[..k] + s[k..];
  }

  ghost function Elems<T(!new)>(s: seq<T>): set<T> {
    set x | x in s
  }

  ghost predicate Distinct<T(!new)>(s: seq<T>) {
    forall i, j :: 0 <= i < j < |s| ==> s[i] != s[j]
  }
}
