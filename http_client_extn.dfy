/**
 * The older revision of the HTTP client policy, with its own copy of the
 * timeout computation (the buffer has no default here).
 */
module HttpClientExtn {
  import ResiliencyPolicy

  /** `CalculateTimeout` as written, in 32-bit arithmetic. */
  function CalculateTimeoutAsWritten(retryCount: int, retryInterval: int, bufferInterval: int): (t: int)
    requires ResiliencyPolicy.IsInt32(retryCount) && ResiliencyPolicy.IsInt32(retryInterval)
    requires ResiliencyPolicy.IsInt32(bufferInterval)
    ensures ResiliencyPolicy.IsInt32(t)
  {
    var twice := ResiliencyPolicy.Wrap32(retryInterval * 2);
    var rest := ResiliencyPolicy.Wrap32(ResiliencyPolicy.Wrap32(retryCount - 1) * retryInterval);
    var step := ResiliencyPolicy.Wrap32(twice + rest);
    var product := ResiliencyPolicy.Wrap32(retryCount * step);
    ResiliencyPolicy.Wrap32(ResiliencyPolicy.TruncDiv(product, 2) + bufferInterval)
  }

  /** The same expression in exact arithmetic: the buffer plus `retryInterval * n * (n + 1) / 2`. */
  function CalculateTimeout(retryCount: int, retryInterval: int, bufferInterval: int): (t: int)
    ensures 2 * (t - bufferInterval) == retryInterval * retryCount * (retryCount + 1)
  {
    ResiliencyPolicy.HalfExact(retryCount, retryInterval);
    ResiliencyPolicy.TruncDiv(retryCount * (retryInterval * 2 + (retryCount - 1) * retryInterval), 2) + bufferInterval
  }

  /**
   * Both revisions compute the same timeout on every input, as written and
   * exactly; so this one too is the total back-off delay plus the buffer,
   * is the buffer alone with no retries, and grows with the retry count.
   */
  lemma AgreesWithResiliencyPolicy(retryCount: int, retryInterval: int, bufferInterval: int)
    ensures CalculateTimeout(retryCount, retryInterval, bufferInterval)
            == ResiliencyPolicy.CalculateTimeout(retryCount, retryInterval, bufferInterval)
    ensures ResiliencyPolicy.IsInt32(retryCount) && ResiliencyPolicy.IsInt32(retryInterval) && ResiliencyPolicy.IsInt32(bufferInterval) ==>
              CalculateTimeoutAsWritten(retryCount, retryInterval, bufferInterval)
              == ResiliencyPolicy.CalculateTimeoutAsWritten(retryCount, retryInterval, bufferInterval)
    ensures retryCount >= 0 ==>
              CalculateTimeout(retryCount, retryInterval, bufferInterval)
              == ResiliencyPolicy.TotalDelay(retryCount, retryInterval) + bufferInterval
  {
    if retryCount >= 0 {
      ResiliencyPolicy.TimeoutCoversBackOff(retryCount, retryInterval, bufferInterval);
    }
  }
}
