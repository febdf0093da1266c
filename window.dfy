/**
 * The bounded FIFO window of a filter: Python's `collections.deque(maxlen=n)`,
 * modelled on sequences, oldest sample first.
 */
module Window {

  /** The last `n` elements of `s`, or all of `s` when it has at most `n`. */
  function Last<T>(s: seq<T>, n: nat): (r: seq<T>)
  {
    if |s| <= n then s else s[|s| - n..]
  }

  /**
   * `append` on a deque with `maxlen` n: when the deque is full the leftmost
   * (oldest) element is discarded; a deque with `maxlen` 0 stays empty.
   */
  function BoundedAppend<T>(w: seq<T>, x: T, n: nat): (r: seq<T>)
    requires |w| <= n
    ensures r == Last(w + [x], n)
  {
    if |w| < n then w + [x]
    else if n == 0 then []
    else w[1..] + [x]
  }

  /** Python's slice `s[-k:]`; note that `-0` is `0`, so `s[-0:]` is all of `s`. */
  function NegativeSlice<T>(s: seq<T>, k: nat): (r: seq<T>)
    ensures |r| == if k == 0 || |s| <= k then |s| else k
    ensures r == s[|s| - |r|..]
  {
    if k == 0 then s else Last(s, k)
  }

  /** Appending to a window that already holds the last `n` samples keeps the last `n` samples. */
  lemma {:induction false} LastThenAppend<T>(s: seq<T>, x: T, n: nat)
    ensures BoundedAppend(Last(s, n), x, n) == Last(s + [x], n)
  {
    var w := Last(s, n);
    var t := s + [x];
    assert w + [x] == t[|t| - |w + [x]|..];
  }

  /** One more step of refilling a window from `s`, sample by sample. */
  lemma AppendNext<T>(s: seq<T>, i: nat, n: nat)
    requires i < |s|
    ensures |Last(s[..i], n)| <= n
    ensures BoundedAppend(Last(s[..i], n), s[i], n) == Last(s[..i + 1], n)
  {
    LastThenAppend(s[..i], s[i], n);
    assert s[..i] + [s[i]] == s[..i + 1];
  }

  /** Keeping the last `n` of `s[-n:]` is keeping the last `n` of `s`. */
  lemma LastOfNegativeSlice<T>(s: seq<T>, n: nat)
    ensures Last(NegativeSlice(s, n), n) == Last(s, n)
  {
  }
}
