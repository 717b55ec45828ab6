/** Chunked prefill: whatever the budgets, the windows of a request tile its prefill, and so do the inputs cut from them. */
module ChunkedPrefill {
  import opened Prelude
  import opened PageTree
  import opened PrefillInputs
  import opened RequestState
  import opened PrefillEvents

  ghost predicate Positive(budgets: seq<nat>) {
    forall i :: 0 <= i < |budgets| ==> budgets[i] > 0
  }

  /** Tokens the next chunk takes: what the budget allows of what is left. */
  function ChunkSize(from: nat, prefill: nat, budget: nat): nat
    requires from <= prefill
  {
    if budget < prefill - from then budget else prefill - from
  }

  /** Where the first n chunks end. */
  function End(start: nat, prefill: nat, budgets: seq<nat>, n: nat): (e: nat)
    requires start <= prefill && n <= |budgets|
    ensures start <= e <= prefill
  {
    if n == 0 then start else
      var e := End(start, prefill, budgets, n - 1);
      e + ChunkSize(e, prefill, budgets[n - 1])
  }

  /** The window of chunk i: from the end of the chunks before it to its own end. */
  function WindowAt(start: nat, prefill: nat, budgets: seq<nat>, i: nat): (w: Window)
    requires start <= prefill && i < |budgets|
    ensures w.0 + w.1 == End(start, prefill, budgets, i + 1)
  {
    var e := End(start, prefill, budgets, i);
    (e, ChunkSize(e, prefill, budgets[i]))
  }

  // ---------------------------------------------------------------- inputs

  /** Inputs of the first n chunks, one after the other. */
  function Inputs(tokens: seq<Token>, start: nat, prefill: nat, budgets: seq<nat>, n: nat): seq<Token>
    requires start <= prefill <= |tokens| && n <= |budgets|
  {
    if n == 0 then [] else
      Inputs(tokens, start, prefill, budgets, n - 1) + InputIds(tokens, WindowAt(start, prefill, budgets, n - 1))
  }

  function Shifted(tokens: seq<Token>, start: nat, prefill: nat, budgets: seq<nat>, n: nat): seq<Token>
    requires start <= prefill <= |tokens| && n <= |budgets|
  {
    if n == 0 then [] else
      Shifted(tokens, start, prefill, budgets, n - 1) + ShiftedIds(tokens, prefill, WindowAt(start, prefill, budgets, n - 1))
  }

  lemma Join(tokens: seq<Token>, a: nat, b: nat, c: nat)
    requires a <= b <= c <= |tokens|
    ensures tokens[a..b] + tokens[b..c] == tokens[a..c]
  {
  }

  /** No gap and no overlap: the inputs of n chunks are the tokens from the start to where they end. */
  lemma {:induction false} InputsTile(tokens: seq<Token>, start: nat, prefill: nat, budgets: seq<nat>, n: nat)
    requires start <= prefill <= |tokens| && n <= |budgets|
    ensures Inputs(tokens, start, prefill, budgets, n) == tokens[start..End(start, prefill, budgets, n)]
  {
    if n == 0 {
      assert tokens[start..start] == [];
    } else {
      var mid, to := End(start, prefill, budgets, n - 1), End(start, prefill, budgets, n);
      InputsTile(tokens, start, prefill, budgets, n - 1);
      Join(tokens, start, mid, to);
      assert WindowAt(start, prefill, budgets, n - 1) == (mid, to - mid);
      assert InputIds(tokens, (mid, to - mid)) == tokens[mid..to];
    }
  }

  /** Tokens one further on than [from, to), with -1 in the place beyond the prefill. */
  function ShiftedTo(tokens: seq<Token>, prefill: nat, from: nat, to: nat): seq<Token>
    requires from < to <= prefill <= |tokens|
  {
    if to < prefill then tokens[from + 1..to + 1] else tokens[from + 1..prefill] + [-1]
  }

  lemma OneShifted(tokens: seq<Token>, prefill: nat, from: nat, size: nat)
    requires size > 0 && from + size <= prefill <= |tokens|
    ensures ShiftedIds(tokens, prefill, (from, size)) == ShiftedTo(tokens, prefill, from, from + size)
  {
  }

  lemma Reassociate(a: seq<Token>, b: seq<Token>, c: seq<Token>)
    ensures a + (b + c) == (a + b) + c
  {
  }

  lemma MoreShifted(tokens: seq<Token>, prefill: nat, from: nat, mid: nat, to: nat)
    requires from < mid < to <= prefill <= |tokens|
    ensures ShiftedTo(tokens, prefill, from, mid) + ShiftedTo(tokens, prefill, mid, to) == ShiftedTo(tokens, prefill, from, to)
  {
    if to < prefill {
      Join(tokens, from + 1, mid + 1, to + 1);
    } else {
      Join(tokens, from + 1, mid + 1, prefill);
      Reassociate(tokens[from + 1..mid + 1], tokens[mid + 1..prefill], [-1]);
    }
  }

  lemma LastShifted(tokens: seq<Token>, start: nat, prefill: nat, budgets: seq<nat>, n: nat, mid: nat, to: nat)
    requires start <= prefill <= |tokens| && 0 < n <= |budgets| && mid < to <= prefill
    requires mid == End(start, prefill, budgets, n - 1) && to == End(start, prefill, budgets, n)
    requires ShiftedIds(tokens, prefill, (mid, to - mid)) == ShiftedTo(tokens, prefill, mid, to)
    ensures Shifted(tokens, start, prefill, budgets, n) == Shifted(tokens, start, prefill, budgets, n - 1) + ShiftedTo(tokens, prefill, mid, to)
  {
    assert WindowAt(start, prefill, budgets, n - 1) == (mid, to - mid);
  }

  /** As long as each chunk has something left to take, the shifted inputs are the tokens one further on, and a single -1
      once the prefill's end is reached. */
  lemma {:induction false} ShiftedTile(tokens: seq<Token>, start: nat, prefill: nat, budgets: seq<nat>, n: nat)
    requires start <= prefill <= |tokens| && 0 < n <= |budgets| && Positive(budgets)
    requires End(start, prefill, budgets, n - 1) < prefill
    ensures start < End(start, prefill, budgets, n)
    ensures Shifted(tokens, start, prefill, budgets, n) == ShiftedTo(tokens, prefill, start, End(start, prefill, budgets, n))
  {
    var mid, to := End(start, prefill, budgets, n - 1), End(start, prefill, budgets, n);
    OneShifted(tokens, prefill, mid, to - mid);
    LastShifted(tokens, start, prefill, budgets, n, mid, to);
    if n > 1 {
      EndsGrow(start, prefill, budgets, n - 2);
      ShiftedTile(tokens, start, prefill, budgets, n - 1);
      MoreShifted(tokens, prefill, start, mid, to);
    } else {
      assert Shifted(tokens, start, prefill, budgets, 0) == [] && [] + ShiftedTo(tokens, prefill, mid, to) == ShiftedTo(tokens, prefill, mid, to);
    }
  }

  // ---------------------------------------------------------------- progress

  /** A chunk with something left to take makes progress; what is left never grows. */
  lemma EndsGrow(start: nat, prefill: nat, budgets: seq<nat>, n: nat)
    requires start <= prefill && n < |budgets| && Positive(budgets)
    ensures var e, e' := End(start, prefill, budgets, n), End(start, prefill, budgets, n + 1);
            e <= e' && (e < prefill ==> e < e')
  {
  }

  /** Enough budgets always finish the prefill. */
  lemma {:induction false} EnoughBudgets(start: nat, prefill: nat, budgets: seq<nat>, n: nat)
    requires start <= prefill && n <= |budgets| && Positive(budgets)
    ensures End(start, prefill, budgets, n) >= (if start + n < prefill then start + n else prefill)
  {
    if n > 0 { EnoughBudgets(start, prefill, budgets, n - 1); }
  }

  // ---------------------------------------------------------------- the scheduler's windows

  /** The states of a request after each of its chunks. */
  ghost predicate ChunkRun(r: Request, rs: seq<Request>, start: nat, budgets: seq<nat>, reserve: int) {
    && |rs| <= |budgets|
    && forall i: nat {:trigger RunStep(r, rs, start, budgets, reserve, i)} :: i < |rs| ==> RunStep(r, rs, start, budgets, reserve, i)
  }

  ghost predicate RunStep(r: Request, rs: seq<Request>, start: nat, budgets: seq<nat>, reserve: int, i: nat)
    requires i < |rs| <= |budgets|
  {
    ChunkStep(if i == 0 then r else rs[i - 1], rs[i], i == 0, start, budgets[i], reserve)
  }

  ghost predicate ChunkStep(before: Request, after: Request, first: bool, start: nat, budget: nat, reserve: int) {
    var begin := if first then start as int else before.start + before.size;
    (!first ==> before.phase == Prefilling) && Windowed(before, after, begin, Min(budget, before.prefill - begin), reserve)
  }

  /** The state after chunk i has the window of the tiling, and is done exactly if that window ends the prefill. */
  ghost predicate AtChunk(r: Request, r0: Request, start: nat, budgets: seq<nat>, i: nat)
    requires start <= r0.prefill && i < |budgets|
  {
    && r.prefill == r0.prefill && r.tokens == r0.tokens
    && (r.start, r.size) == WindowAt(start, r0.prefill, budgets, i)
    && r.phase == (if End(start, r0.prefill, budgets, i + 1) == r0.prefill then PrefillDone else Prefilling)
  }

  lemma ChunkFollows(r0: Request, before: Request, after: Request, start: nat, budgets: seq<nat>, i: nat, reserve: int)
    requires start <= r0.prefill && i < |budgets| && Positive(budgets)
    requires ChunkStep(before, after, i == 0, start, budgets[i], reserve)
    requires if i == 0 then before == r0 else AtChunk(before, r0, start, budgets, i - 1)
    ensures AtChunk(after, r0, start, budgets, i)
    ensures i > 0 ==> End(start, r0.prefill, budgets, i) < End(start, r0.prefill, budgets, i + 1)
  {
  }

  /** The windows the scheduler gives a request are those of the tiling; it is done with its prefill in exactly the state
      whose window ends there, and until then every chunk leaves less to schedule. */
  lemma {:induction false} RunTiles(r: Request, rs: seq<Request>, start: nat, budgets: seq<nat>, reserve: int, i: nat)
    requires ChunkRun(r, rs, start, budgets, reserve) && start <= r.prefill && Positive(budgets) && i < |rs|
    ensures AtChunk(rs[i], r, start, budgets, i)
    ensures i > 0 ==> End(start, r.prefill, budgets, i) < End(start, r.prefill, budgets, i + 1)
  {
    var before := if i == 0 then r else rs[i - 1];
    assert RunStep(r, rs, start, budgets, reserve, i);
    if i > 0 { RunTiles(r, rs, start, budgets, reserve, i - 1); }
    ChunkFollows(r, before, rs[i], start, budgets, i, reserve);
  }

  /** A prompt whose cached pages reach beyond its prefill length is due a first window of negative size, for which no inputs
      can be made; otherwise the first window is cut like any other. */
  lemma FirstWindowCut(r: Request, r': Request, found: nat, budget: nat, cfg: Config)
    requires cfg.size > 0 && budget > 0
    requires Windowed(r, r', found * cfg.size, Min(budget, r.prefill - found * cfg.size), cfg.decode)
    ensures r'.size >= 0 <==> found * cfg.size <= r.prefill
    ensures 0 <= found * cfg.size <= r.prefill ==> (r'.start, r'.size) == WindowAt(found * cfg.size, r.prefill, [budget], 0)
  {
  }
}
