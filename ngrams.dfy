/**
 Tokens, n-grams and the windows both engines slide over a sentence.

 An n-gram is a Python tuple of strings, here a sequence of strings. `Prefix`
 and `Suffix` are the slices `g[:-1]` and `g[1:]`, which Python allows on an
 empty tuple too (both give the empty tuple).
 */
module NGrams {

  type Token = string
  type NGram = seq<Token>

  /** `g[:-1]`: the n-gram without its last token (its context). */
  function Prefix(g: NGram): (r: NGram)
    ensures |r| == if |g| == 0 then 0 else |g| - 1
    ensures |g| >= 1 ==> r + [g[|g| - 1]] == g
  {
    if |g| == 0 then [] else g[..|g| - 1]
  }

  /** `g[1:]`: the n-gram without its first token. */
  function Suffix(g: NGram): (r: NGram)
    ensures |r| == if |g| == 0 then 0 else |g| - 1
    ensures |g| >= 1 ==> [g[0]] + r == g
  {
    if |g| == 0 then [] else g[1..]
  }

  /**
   The tuples `zip(*[tokens[i:] for i in range(n)])` yields: every contiguous run
   of `n` tokens, from left to right. `zip` stops at its shortest argument, so a
   sequence shorter than `n` gives none; for `n <= 0` the `zip` has no argument
   at all and gives none either.
   */
  function Windows(tokens: seq<Token>, n: int): (r: seq<NGram>)
    ensures forall j :: 0 <= j < |r| ==> |r[j]| == n
    ensures r != [] ==> 1 <= n <= |tokens|
    decreases |tokens|
  {
    if n <= 0 || |tokens| < n then []
    else [tokens[..n]] + Windows(tokens[1..], n)
  }

  /** A sequence of L tokens has exactly max(L - n + 1, 0) windows of length n >= 1. */
  lemma {:induction false} WindowsCount(tokens: seq<Token>, n: int)
    ensures |Windows(tokens, n)| == if n <= 0 || |tokens| < n then 0 else |tokens| - n + 1
    decreases |tokens|
  {
    if n > 0 && |tokens| >= n {
      WindowsCount(tokens[1..], n);
    }
  }

  /** The i-th window is the slice `tokens[i:i+n]`. */
  lemma {:induction false} WindowsAt(tokens: seq<Token>, n: int, i: int)
    requires 0 <= i < |Windows(tokens, n)|
    ensures n >= 1 && i + n <= |tokens|
    ensures Windows(tokens, n)[i] == tokens[i..i + n]
    decreases |tokens|
  {
    if i > 0 {
      WindowsAt(tokens[1..], n, i - 1);
      assert tokens[1..][i - 1..i - 1 + n] == tokens[i..i + n];
    }
  }
}
