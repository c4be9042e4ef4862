/**
 * The HTTP client timeout of the retry policy: the client must outlive the
 * whole linear back-off (retry `k` waits `k * retryInterval` seconds, for
 * k = 1 .. retryCount) plus a buffer for the last attempt. The source
 * computes it with one expression in 32-bit `int` arithmetic; the settings
 * it is fed are read as 16-bit integers.
 */
module ResiliencyPolicy {

  const Int32Min: int := -0x8000_0000
  const Int32Max: int := 0x7FFF_FFFF
  const Int16Min: int := -0x8000
  const Int16Max: int := 0x7FFF

  predicate IsInt32(x: int) { Int32Min <= x <= Int32Max }

  /** A value `Convert.ToInt16` can produce. */
  predicate IsInt16(x: int) { Int16Min <= x <= Int16Max }

  /** Unchecked C# `int` arithmetic: the result modulo 2^32, read as signed. */
  function Wrap32(x: int): (r: int)
    ensures IsInt32(r)
    ensures (x - r) % 0x1_0000_0000 == 0
    ensures IsInt32(x) ==> r == x
  {
    (x - Int32Min) % 0x1_0000_0000 + Int32Min
  }

  /** C# `/` on `int`: the quotient truncated toward zero. */
  function TruncDiv(a: int, b: int): (q: int)
    requires b > 0
    ensures a >= 0 ==> q == a / b
    ensures a < 0 ==> q == -((-a) / b)
  {
    if a >= 0 then a / b else -((-a) / b)
  }

  /**
   * `CalculateTimeout` as written: every operation of
   * `(n * (r * 2 + (n - 1) * r)) / 2 + b` wraps around at 32 bits.
   */
  function CalculateTimeoutAsWritten(retryCount: int, retryInterval: int, bufferInterval: int := 0): (t: int)
    requires IsInt32(retryCount) && IsInt32(retryInterval) && IsInt32(bufferInterval)
    ensures IsInt32(t)
  {
    var twice := Wrap32(retryInterval * 2);
    var rest := Wrap32(Wrap32(retryCount - 1) * retryInterval);
    var step := Wrap32(twice + rest);
    var product := Wrap32(retryCount * step);
    Wrap32(TruncDiv(product, 2) + bufferInterval)
  }

  /** The total back-off delay of `retryCount` retries: the sum of `k * retryInterval` for k = 1 .. retryCount. */
  function TotalDelay(retryCount: nat, retryInterval: int): int
  {
    if retryCount == 0 then 0 else TotalDelay(retryCount - 1, retryInterval) + retryCount * retryInterval
  }

  /** Half of `n * (n + 1)`, which is always even. */
  function HalfConsecutive(n: int): (h: int)
    ensures n * (n + 1) == 2 * h
  {
    if n % 2 == 0 then
      assert n == 2 * (n / 2);
      (n / 2) * (n + 1)
    else
      assert n + 1 == 2 * ((n + 1) / 2);
      n * ((n + 1) / 2)
  }

  /** `n * (n + 1)` is even, so halving the back-off expression is exact. */
  lemma HalfExact(retryCount: int, retryInterval: int)
    ensures 2 * TruncDiv(retryCount * (retryInterval * 2 + (retryCount - 1) * retryInterval), 2)
            == retryInterval * retryCount * (retryCount + 1)
  {
    var n, r := retryCount, retryInterval;
    var h := HalfConsecutive(n);
    assert n * (r * 2 + (n - 1) * r) == 2 * (h * r) by {
      assert r * 2 + (n - 1) * r == (n + 1) * r;
      assert n * ((n + 1) * r) == (n * (n + 1)) * r;
    }
    assert TruncDiv(2 * (h * r), 2) == h * r;
    assert 2 * (h * r) == r * n * (n + 1) by {
      assert r * (n * (n + 1)) == r * n * (n + 1);
    }
  }

  /**
   * The same expression in exact arithmetic, as the comment on the source
   * intends: the buffer plus `retryInterval * n * (n + 1) / 2`, with no
   * remainder lost to the division.
   */
  function CalculateTimeout(retryCount: int, retryInterval: int, bufferInterval: int := 0): (t: int)
    ensures 2 * (t - bufferInterval) == retryInterval * retryCount * (retryCount + 1)
  {
    HalfExact(retryCount, retryInterval);
    TruncDiv(retryCount * (retryInterval * 2 + (retryCount - 1) * retryInterval), 2) + bufferInterval
  }

  /** The arithmetic progression summed in closed form. */
  lemma {:induction false} TotalDelayClosedForm(retryCount: nat, retryInterval: int)
    ensures 2 * TotalDelay(retryCount, retryInterval) == retryInterval * retryCount * (retryCount + 1)
  {
    if retryCount > 0 {
      var n := retryCount;
      TotalDelayClosedForm(n - 1, retryInterval);
      assert retryInterval * (n - 1) * n + 2 * (n * retryInterval) == retryInterval * n * (n + 1);
    }
  }

  /**
   * The timeout is the total back-off delay plus the buffer (the division
   * by two is exact, so truncating and flooring division agree), and with
   * no retries it is the buffer alone.
   */
  lemma TimeoutCoversBackOff(retryCount: nat, retryInterval: int, bufferInterval: int)
    ensures CalculateTimeout(retryCount, retryInterval, bufferInterval) == TotalDelay(retryCount, retryInterval) + bufferInterval
    ensures retryCount == 0 ==> CalculateTimeout(retryCount, retryInterval, bufferInterval) == bufferInterval
    ensures CalculateTimeout(retryCount, retryInterval) == TotalDelay(retryCount, retryInterval)
  {
    var n, r := retryCount, retryInterval;
    TotalDelayClosedForm(n, r);
    assert r * 2 + (n - 1) * r == (n + 1) * r;
    assert n * (r * 2 + (n - 1) * r) == 2 * TotalDelay(n, r);
  }

  /** With non-negative intervals more retries never shorten the back-off. */
  lemma {:induction false} TotalDelayMonotone(n: nat, m: nat, retryInterval: int)
    requires n <= m && retryInterval >= 0
    ensures 0 <= TotalDelay(n, retryInterval) <= TotalDelay(m, retryInterval)
    decreases m
  {
    if m > n {
      TotalDelayMonotone(n, m - 1, retryInterval);
      assert m * retryInterval >= 0;
    } else if n > 0 {
      TotalDelayMonotone(n - 1, n - 1, retryInterval);
      assert n * retryInterval >= 0;
    }
  }

  /** With non-negative settings the timeout is at least the buffer and grows with the retry count. */
  lemma TimeoutMonotone(n: nat, m: nat, retryInterval: int, bufferInterval: int)
    requires n <= m && retryInterval >= 0
    ensures bufferInterval <= CalculateTimeout(n, retryInterval, bufferInterval) <= CalculateTimeout(m, retryInterval, bufferInterval)
  {
    TimeoutCoversBackOff(n, retryInterval, bufferInterval);
    TimeoutCoversBackOff(m, retryInterval, bufferInterval);
    TotalDelayMonotone(n, m, retryInterval);
  }

  lemma MulMonotone(a: int, b: int, c: int, d: int)
    requires 0 <= a <= c && 0 <= b <= d
    ensures 0 <= a * b <= c * d
  {
    assert (c - a) * b >= 0;
    assert c * (d - b) >= 0;
  }

  /**
   * For settings of at most 1000 retries of at most 1000 seconds no
   * operation overflows, and the expression as written computes the timeout.
   */
  lemma AsWrittenExactForSmallSettings(retryCount: int, retryInterval: int, bufferInterval: int)
    requires 0 <= retryCount <= 1000 && 0 <= retryInterval <= 1000 && IsInt16(bufferInterval)
    ensures CalculateTimeoutAsWritten(retryCount, retryInterval, bufferInterval)
            == CalculateTimeout(retryCount, retryInterval, bufferInterval)
  {
    var n, r := retryCount, retryInterval;
    if n > 0 {
      MulMonotone(n - 1, r, 999, 1000);
      assert r * 2 + (n - 1) * r == (n + 1) * r;
      MulMonotone(n + 1, r, 1001, 1000);
      MulMonotone(n, (n + 1) * r, 1000, 1001000);
    }
  }

  /**
   * Two 16-bit settings for which the expression as written overflows:
   * 1000 retries of 10000 seconds give a timeout of about 8 days instead
   * of the 58 days the back-off takes.
   */
  lemma AsWrittenOverflows()
    ensures IsInt16(1000) && IsInt16(10000)
    ensures CalculateTimeoutAsWritten(1000, 10000, 0) == 710032704
    ensures CalculateTimeout(1000, 10000, 0) == TotalDelay(1000, 10000) == 5005000000
  {
    TimeoutCoversBackOff(1000, 10000, 0);
  }
}
