/** The free list of page ids: a stack taken from and returned to at its back. */
module PagePool {
  import opened Prelude

  function Reversed(s: seq<nat>): (r: seq<nat>)
    ensures |r| == |s|
  {
    if s == [] then [] else Reversed(s[1..]) + [s[0]]
  }

  lemma {:induction false} ReversedBag(s: seq<nat>)
    ensures multiset(Reversed(s)) == multiset(s)
  {
    if s != [] {
      ReversedBag(s[1..]);
      assert s == [s[0]] + s[1..];
    }
  }

  lemma PopBack(s: seq<nat>, k: nat)
    requires 0 < k <= |s|
    ensures Reversed(s[k - 1..]) == Reversed(s[k..]) + [s[k - 1]]
    ensures s[..k][..k - 1] == s[..k - 1] && s[..k][k - 1] == s[k - 1]
  {
    assert s[k - 1..][1..] == s[k..];
  }

  /** All or nothing: the last num_pages ids of the stack, newest first, or none at all. */
  method Allocate(free: seq<nat>, num: int) returns (free': seq<nat>, pages: seq<nat>)
    ensures if 0 < num <= |free|
            then free' == free[..|free| - num] && pages == Reversed(free[|free| - num..])
            else free' == free && pages == []
    ensures multiset(free') + multiset(pages) == multiset(free)
    ensures 0 <= num <= |free| ==> |pages| == num && |free'| == |free| - num
  {
    free', pages := free, [];
    if num <= 0 || num > |free| {
      return;
    }
    var i := 0;
    while i < num
      invariant 0 <= i <= num && free' == free[..|free| - i] && pages == Reversed(free[|free| - i..])
    {
      PopBack(free, |free| - i);
      pages := pages + [free'[|free'| - 1]];
      free' := free'[..|free'| - 1];
      i := i + 1;
    }
    ReversedBag(free[|free| - num..]);
    MultisetSplit(free, |free| - num);
  }
}
