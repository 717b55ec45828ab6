/** A request's own pages: tokens are acquired from the tail of the last page first, then from new pages. */
module LocalPages {
  import opened Prelude
  import opened PagePool

  /** Pages a request must take from the pool to acquire `num` tokens when its tail has room for `tail`. */
  function PagesFor(num: int, tail: nat, size: nat): (n: nat)
    requires size > 0
  {
    if num <= tail then 0 else CeilDiv(num - tail, size)
  }

  /** Pages held and room in the tail after acquiring num more tokens. */
  function Grow(held: (nat, nat), num: int, size: nat): (r: (nat, nat))
    requires size > 0
  {
    var (n, tail) := held;
    if num <= tail then (n, tail - num)
    else
      var over := num - tail;
      (n + CeilDiv(over, size), if over % size == 0 then 0 else size - over % size)
  }

  /** The pages held less the room in the tail count the tokens acquired. */
  lemma GrowCovers(held: (nat, nat), num: int, size: nat)
    requires size > 0
    ensures var (n, tail) := Grow(held, num, size);
            && n * size - tail == held.0 * size - held.1 + num
            && n == held.0 + PagesFor(num, held.1, size)
            && (num >= 0 && held.1 < size ==> tail < size)
  {
    var (n, tail) := Grow(held, num, size);
    if num > held.1 {
      RoomLeft(num - held.1, size, CeilDiv(num - held.1, size), tail);
      Distribute(held.0, CeilDiv(num - held.1, size), size);
    }
  }

  /** Acquire tokens: all the pages they need, or none and a failure. */
  method Acquire(free: seq<nat>, pages: seq<nat>, tail: nat, num: int, size: nat)
    returns (free': seq<nat>, pages': seq<nat>, tail': nat, ok: bool)
    requires size > 0
    ensures ok <==> PagesFor(num, tail, size) <= |free|
    ensures !ok ==> free' == free && pages' == pages && tail' == tail
    ensures multiset(free') + multiset(pages') == multiset(free) + multiset(pages)
    ensures ok ==> pages <= pages' && (|pages'|, tail') == Grow((|pages|, tail), num, size)
    ensures ok ==> |free'| == |free| - PagesFor(num, tail, size)
  {
    free', pages', tail', ok := free, pages, tail, true;
    if num <= tail {
      tail' := tail - num;
    } else {
      var over := num - tail;
      var count := CeilDiv(over, size);
      var got;
      free', got := Allocate(free, count);
      if |got| < count {
        free', ok := free, false;
        return;
      }
      MoveBag(free, free', pages, got);
      pages' := pages + got;
      var used := over % size;
      tail' := if used == 0 then 0 else size - used;
    }
  }

  lemma MoveBag(free: seq<nat>, free': seq<nat>, pages: seq<nat>, got: seq<nat>)
    requires multiset(free') + multiset(got) == multiset(free)
    ensures multiset(free') + multiset(pages + got) == multiset(free) + multiset(pages)
  {
    assert multiset(pages + got) == multiset(pages) + multiset(got);
  }

  lemma Distribute(a: int, b: int, d: nat)
    ensures (a + b) * d == a * d + b * d
  {
  }

  /** What is left of the last page is what rounding up adds. */
  lemma RoomLeft(over: nat, size: nat, count: nat, room: nat)
    requires size > 0 && count == CeilDiv(over, size)
    requires room == if over % size == 0 then 0 else size - over % size
    ensures count * size - room == over && room < size
  {
    var q := over / size;
    assert over == q * size + over % size;
    if over % size == 0 {
      CeilDivUnique(over, size, q);
    } else {
      Distribute(q, 1, size);
      CeilDivUnique(over, size, q + 1);
    }
  }

  // ---------------------------------------------------------------- acquisition is additive

  function Sum(amounts: seq<nat>): nat {
    if amounts == [] then 0 else Sum(amounts[..|amounts| - 1]) + amounts[|amounts| - 1]
  }

  /** Pages held and room in the tail after acquiring each amount in turn from nothing. */
  function Held(amounts: seq<nat>, size: nat): (nat, nat)
    requires size > 0
  {
    if amounts == [] then (0, 0) else Grow(Held(amounts[..|amounts| - 1], size), amounts[|amounts| - 1], size)
  }

  /** However tokens are chunked, the pages held are the ceiling of all of them over the page size. */
  lemma {:induction false} AcquireAdditive(amounts: seq<nat>, size: nat)
    requires size > 0
    ensures var (n, tail) := Held(amounts, size);
            tail < size && n * size - tail == Sum(amounts) && n == CeilDiv(Sum(amounts), size)
  {
    if amounts != [] {
      var front, num := amounts[..|amounts| - 1], amounts[|amounts| - 1];
      AcquireAdditive(front, size);
      GrowCovers(Held(front, size), num, size);
    }
    var (n, tail) := Held(amounts, size);
    Distribute(n, -1, size);
    CeilDivUnique(Sum(amounts), size, n);
  }
}
