/** The input tokens of a prefill window, and the same one token further on. */
module PrefillInputs {
  import opened Prelude
  import opened PageTree

  /** A window's first token and its number of tokens. */
  type Window = (nat, nat)

  /** Input tokens of a window. */
  function InputIds(tokens: seq<Token>, w: Window): seq<Token>
    requires w.0 + w.1 <= |tokens|
  {
    tokens[w.0..w.0 + w.1]
  }

  /** The prefill tokens one further on than a window's, as far as there are any. */
  function NextTokens(tokens: seq<Token>, prefill: nat, w: Window): (s: seq<Token>)
    requires prefill <= |tokens|
    ensures |s| <= w.1
  {
    var to := if prefill < w.0 + 1 + w.1 then prefill else w.0 + 1 + w.1;
    if to > w.0 + 1 then tokens[w.0 + 1..to] else []
  }

  function ShiftedIds(tokens: seq<Token>, prefill: nat, w: Window): (s: seq<Token>)
    requires prefill <= |tokens|
    ensures |s| == w.1
  {
    var next := NextTokens(tokens, prefill, w);
    next + seq(w.1 - |next|, _ => -1)
  }

  /** Input tokens one further on, never reaching past the prefill, filled up with -1. Reserving a negative size throws. */
  method ComputeShiftedInputIds(tokens: seq<Token>, prefill: nat, begin: nat, size: int) returns (shifted: seq<Token>, threw: bool)
    requires prefill <= |tokens|
    ensures threw <==> size < 0
    ensures !threw ==> shifted == ShiftedIds(tokens, prefill, (begin, size))
  {
    shifted, threw := [], size < 0;
    if threw { return; }
    ghost var next := NextTokens(tokens, prefill, (begin, size));
    shifted := NextTokens(tokens, prefill, (begin, size));
    while |shifted| < size
      invariant |next| <= |shifted| <= size
      invariant shifted == next + seq(|shifted| - |next|, _ => -1)
    {
      shifted := shifted + [-1];
    }
  }
}
