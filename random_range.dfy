/**
 * The random-range helper of the playground script: `getRandomNumber(min, max)`
 * computes `Math.floor(Math.random() * (max - min + 1)) + min`.
 *
 * The floating-point draw is replaced by the integer it floors to: a draw is an
 * integer `k` that `Math.floor(u * n)` can take for some `u` in [0, 1), where
 * `n == max - min + 1`. The result is then `min + k`. The helper does not guard
 * `min > max`, and neither does the model: such calls are given the values the
 * expression really produces.
 */
module RandomRange {

  /** The number of integers the caller asks for, `max - min + 1`. */
  function Span(min: int, max: int): int {
    max - min + 1
  }

  /**
   * The integers `Math.floor(u * n)` takes for `u` in [0, 1): [0, n) when `n` is
   * positive; when `n <= 0`, `u * n` lies in (n, 0], so its floor lies in [n, 0].
   */
  predicate IsDraw(n: int, k: int) {
    if n > 0 then 0 <= k < n else n <= k <= 0
  }

  /**
   * The values the helper can return: the inclusive range [min, max] for a proper
   * range, and (max, min] for a reversed one.
   */
  predicate InRange(min: int, max: int, v: int) {
    if min <= max then min <= v <= max else max < v <= min
  }

  /** getRandomNumber(min, max) for the draw `k`. */
  function RandomNumber(min: int, max: int, k: int): (r: int)
    requires IsDraw(Span(min, max), k)
    ensures min <= max ==> min <= r <= max
    ensures max < min ==> max < r <= min
  {
    min + k
  }

  /** The draw that yields `v`: every value in range is produced by exactly one draw. */
  function DrawFor(min: int, max: int, v: int): (k: int)
    requires InRange(min, max, v)
    ensures IsDraw(Span(min, max), k) && RandomNumber(min, max, k) == v
    ensures forall j :: IsDraw(Span(min, max), j) && RandomNumber(min, max, j) == v ==> j == k
  {
    v - min
  }

  /** A value can be returned by the helper exactly when it is in range. */
  lemma Reachable(min: int, max: int, v: int)
    ensures (exists k :: IsDraw(Span(min, max), k) && RandomNumber(min, max, k) == v)
        <==> InRange(min, max, v)
  {
    if InRange(min, max, v) {
      var k := DrawFor(min, max, v);
      assert IsDraw(Span(min, max), k) && RandomNumber(min, max, k) == v;
    }
  }

  /** A one-value range always yields that value: `getRandomNumber(5, 5)` is 5. */
  lemma SingletonRange(m: int, k: int)
    requires IsDraw(Span(m, m), k)
    ensures RandomNumber(m, m, k) == m
  {
  }

  /** `calculateRandomIncrement()`: the helper called with (1, 10). */
  function RandomIncrement(k: int): (r: int)
    requires IsDraw(Span(1, 10), k)
    ensures 1 <= r <= 10
  {
    RandomNumber(1, 10, k)
  }

  /** The particle count of `createParticles`: the helper called with (5, 15). */
  function ParticleCount(k: int): (r: int)
    requires IsDraw(Span(5, 15), k)
    ensures 5 <= r <= 15
  {
    RandomNumber(5, 15, k)
  }
}
