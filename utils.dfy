/** The integer helper of the tool's utility module. */
module Utils {

  function Min(a: int, b: int): int {
    if a <= b then a else b
  }

  function Max(a: int, b: int): int {
    if a >= b then a else b
  }

  /**
   * `clamp(n, lo, hi) = max(lo, min(hi, n))`. With `lo <= hi` the result lies
   * in `[lo, hi]` and is `n` itself when `n` already does; because `max` is
   * applied last, an empty range (`lo > hi`) always gives `lo`.
   */
  function Clamp(n: int, lo: int, hi: int): (r: int)
    ensures lo <= hi ==> lo <= r <= hi
    ensures lo <= n <= hi ==> r == n
    ensures lo <= hi && n < lo ==> r == lo
    ensures lo <= hi && n > hi ==> r == hi
    ensures lo > hi ==> r == lo
  {
    Max(lo, Min(hi, n))
  }

  /** Clamping twice is clamping once. */
  lemma ClampIdempotent(n: int, lo: int, hi: int)
    ensures Clamp(Clamp(n, lo, hi), lo, hi) == Clamp(n, lo, hi)
  {
  }

  /** Clamping preserves order. */
  lemma ClampMonotone(m: int, n: int, lo: int, hi: int)
    requires m <= n
    ensures Clamp(m, lo, hi) <= Clamp(n, lo, hi)
  {
  }
}
