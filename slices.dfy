/** The tail windows the load handler cuts from the log with `Array.prototype.slice(-n)`. */
module Slices {

  function Min(a: int, b: int): int {
    if a <= b then a else b
  }

  /** A window size: `slice(-0)` would return the whole array, so a window is never empty. */
  type Window = n: nat | 0 < n witness 1

  /** `r` is what is left of `s` once some oldest entries are dropped. */
  ghost predicate IsSuffix<T>(r: seq<T>, s: seq<T>) {
    |r| <= |s| && r == s[|s| - |r|..]
  }

  /**
   * `s.slice(-n)`: the newest `n` entries, or all of them
   * when there are fewer, in their original order.
   */
  function Newest<T>(s: seq<T>, n: Window): (r: seq<T>)
    ensures |r| == Min(n, |s|)
    ensures IsSuffix(r, s)
  {
    if |s| <= n then s else s[|s| - n..]
  }

  /** Cutting to a wider window first does not change a narrower window. */
  lemma NewestOfNewest<T>(s: seq<T>, wide: Window, narrow: Window)
    requires narrow <= wide
    ensures Newest(Newest(s, wide), narrow) == Newest(s, narrow)
  {
    if |s| > wide {
      var w := s[|s| - wide..];
      if |w| > narrow {
        assert w[|w| - narrow..] == s[|s| - narrow..];
      }
    }
  }

  /** A window is unchanged by cutting it to its own size again. */
  lemma NewestIdempotent<T>(s: seq<T>, n: Window)
    ensures Newest(Newest(s, n), n) == Newest(s, n)
  {
  }
}
