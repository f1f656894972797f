/** The bounded exponential retry delay, in microseconds. */
module RetryDelay {
  import opened Results

  function Power2(n: nat): (r: nat)
    ensures r >= 1
  {
    if n == 0 then 1 else 2 * Power2(n - 1)
  }

  function Min(a: int, b: int): int {
    if a <= b then a else b
  }

  /** What the documentation promises: `min(base * 2**(attempt - 1), maximum)`. */
  function BoundedDelay(attempt: nat, base: int, maximum: int): (r: int)
    requires attempt >= 1
  {
    Min(base * Power2(attempt - 1), maximum)
  }

  /** The doubling loop of the source; `None` stands for its ValueError. */
  method ComputeRetryDelay(attemptCount: int, base: int, maximum: int) returns (delay: Option<int>)
    ensures delay.None? <==> attemptCount < 1 || base <= 0 || maximum <= 0
    ensures delay.Some? ==> delay.value == BoundedDelay(attemptCount, base, maximum)
  {
    if attemptCount < 1 || base <= 0 || maximum <= 0 {
      return None;
    }
    var delayUs := Min(base, maximum);
    var i := 0;
    while i < attemptCount - 1
      invariant 0 <= i <= attemptCount - 1
      invariant delayUs == Min(base * Power2(i), maximum)
    {
      if delayUs >= maximum {
        DelayMonotone(i + 1, attemptCount, base, maximum);
        break;
      }
      delayUs := Min(delayUs * 2, maximum);
      i := i + 1;
    }
    delay := Some(delayUs);
  }

  lemma {:induction false} PowerMonotone(a: nat, b: nat)
    requires a <= b
    ensures Power2(a) <= Power2(b)
  {
    if a < b {
      PowerMonotone(a, b - 1);
    }
  }

  /** Later attempts never wait less, and no attempt waits longer than the maximum. */
  lemma DelayMonotone(m: nat, n: nat, base: int, maximum: int)
    requires 1 <= m <= n && base > 0 && maximum > 0
    ensures 0 < BoundedDelay(m, base, maximum) <= BoundedDelay(n, base, maximum) <= maximum
  {
    PowerMonotone(m - 1, n - 1);
    ScaleMonotone(base, Power2(m - 1), Power2(n - 1));
    ScaleMonotone(base, 1, Power2(m - 1));
  }

  lemma ScaleMonotone(k: int, a: int, b: int)
    requires k > 0 && a <= b
    ensures k * a <= k * b
  {
  }

  /** The delay doubles exactly until it reaches the maximum, and then stays there. */
  lemma DelayDoublesThenSaturates(n: nat, base: int, maximum: int)
    requires 1 <= n && base > 0 && maximum > 0
    ensures BoundedDelay(n + 1, base, maximum) == Min(2 * BoundedDelay(n, base, maximum), maximum)
  {
    assert base * Power2(n) == 2 * (base * Power2(n - 1));
    ScaleMonotone(base, 1, Power2(n - 1));
  }
}
