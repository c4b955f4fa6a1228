/** How the Worker classifies one attempt and when it tries again. */
module RetryPolicy {
  import opened Model
  import opened Text

  const SECOND: Time := 1_000_000

  const HOUR: Time := 3600 * SECOND

  // ----- Classification

  /** An error of Send; `permanent` is what outbound.IsPermanent says of it. */
  datatype SendError = SendError(permanent: bool, timedOut: bool)

  datatype AttemptClass = Delivered | Retryable | Rejected

  predicate SuccessStatus(status: int, configured: seq<int>) {
    if configured == [] then 200 <= status < 300 else status in configured
  }

  method IsSuccess(status: int, configured: seq<int>) returns (success: bool)
    ensures success <==> SuccessStatus(status, configured)
  {
    if |configured| == 0 {
      return 200 <= status < 300;
    }
    for i := 0 to |configured|
      invariant status !in configured[..i]
    {
      if status == configured[i] {
        return true;
      }
    }
    return false;
  }

  predicate RetryStatus(status: int, configured: seq<int>) {
    status in configured || status in {408, 425, 429} || status >= 500
  }

  /** A configured success wins over every retry rule; an error decides before any status. */
  method Classify(status: int, error: Option<SendError>, successStatuses: seq<int>, retryStatuses: seq<int>)
    returns (class_: AttemptClass)
    ensures class_ == Delivered <==> error.None? && SuccessStatus(status, successStatuses)
    ensures class_ == Retryable <==>
              || (error.Some? && !error.value.permanent)
              || (error.None? && !SuccessStatus(status, successStatuses) && RetryStatus(status, retryStatuses))
  {
    if error.Some? {
      return if error.value.permanent then Rejected else Retryable;
    }
    var success := IsSuccess(status, successStatuses);
    if success {
      return Delivered;
    }
    for i := 0 to |retryStatuses|
      invariant status !in retryStatuses[..i]
    {
      if status == retryStatuses[i] {
        return Retryable;
      }
    }
    if status == 408 || status == 425 || status == 429 || status >= 500 {
      return Retryable;
    }
    return Rejected;
  }

  // ----- Retry-After

  /** What a Retry-After that is no number asks for. */
  function DateDelay(now: Time, date: Option<Time>): Option<Time> {
    if date.Some? && now < date.value then Some(Min(date.value - now, HOUR)) else None
  }

  /** What is asked for by a number of seconds, if the text is one, or else by a date. */
  function Delay(now: Time, seconds: Option<int>, date: Option<Time>): Option<Time> {
    match seconds
    case Some(n) =>
      if n < 0 then None
      else if n > 3600 then Some(HOUR)
      else Some(n * SECOND)
    case None => DateDelay(now, date)
  }

  /** `date` is what http.ParseTime makes of the trimmed text. */
  function ParseRetryAfter(now: Time, raw: Bytes, date: Option<Time>): Option<Time> {
    var text := Trim(raw, WHITESPACE);
    if text == [] then None else Delay(now, ParseInt64(text), date)
  }

  function Pow2(n: nat): nat {
    if n == 0 then 1 else 2 * Pow2(n - 1)
  }

  lemma Pow2Positive(n: nat)
    ensures Pow2(n) > 0
  {
  }

  function BackoffCeiling(generation: Generation): (maximum: Time)
    ensures 0 < maximum <= HOUR
  {
    var exponent := if generation > 12 then 12 else generation;
    Pow2Positive(exponent);
    var maximum := SECOND * Pow2(exponent);
    if maximum > HOUR then HOUR else maximum
  }

  /** The jitter is a clock value reduced modulo the ceiling. */
  function NextAttemptAt(now: Time, generation: Generation, raw: Bytes, date: Option<Time>, entropy: nat): Time {
    match ParseRetryAfter(now, raw, date)
    case Some(delay) => now + delay
    case None => now + entropy % BackoffCeiling(generation)
  }

  lemma {:induction false} Pow2Grows(m: nat, n: nat)
    requires m <= n
    ensures Pow2(m) <= Pow2(n)
    decreases n - m
  {
    if m < n {
      Pow2Grows(m + 1, n);
    }
  }

  /** Stopping the exponent at 12 loses nothing: the ceiling is 2^generation seconds up to an hour,
      for every generation. */
  lemma CeilingDoubles(generation: Generation)
    ensures BackoffCeiling(generation) ==
            if SECOND * Pow2(generation) > HOUR then HOUR else SECOND * Pow2(generation)
  {
    if generation > 12 {
      assert Pow2(12) == 4096 by {
        assert Pow2(3) == 8 && Pow2(6) == 64 && Pow2(9) == 512;
      }
      Pow2Grows(12, generation);
    }
  }

  /** The next attempt is never in the past and never more than an hour away, whatever the supplier
      asks for; without a usable Retry-After it is strictly below the backoff ceiling. */
  lemma NextAttemptBounded(now: Time, generation: Generation, raw: Bytes, date: Option<Time>, entropy: nat)
    ensures now <= NextAttemptAt(now, generation, raw, date, entropy) <= now + HOUR
    ensures ParseRetryAfter(now, raw, date).None? ==>
              NextAttemptAt(now, generation, raw, date, entropy) < now + BackoffCeiling(generation)
  {
  }

  lemma PaddedNumber(v: int, left: Bytes, right: Bytes)
    requires AllIn(left, WHITESPACE) && AllIn(right, WHITESPACE)
    ensures Trim(left + FormatInt(v) + right, WHITESPACE) == FormatInt(v) != []
  {
    DigitsRoundTrip(if v < 0 then -v else v);
    TrimPadding(left, FormatInt(v), right, WHITESPACE);
  }

  /** The text of any whole number of seconds, in any padding, is honoured to the second up to an hour
      if it is not negative and fits 64 bits; a negative one leaves the backoff in force, and a longer
      one is read as a date. */
  lemma RetryAfterRoundTrip(now: Time, v: int, left: Bytes, right: Bytes, date: Option<Time>)
    requires AllIn(left, WHITESPACE) && AllIn(right, WHITESPACE)
    ensures ParseRetryAfter(now, left + FormatInt(v) + right, date) ==
            if v > MAX_INT64 || v < -MAX_INT64 - 1 then DateDelay(now, date)
            else if v < 0 then None
            else Some(Min(v * SECOND, HOUR))
  {
    PaddedNumber(v, left, right);
    FormatRoundTrip(v);
  }

  /** A supplier that asks for a longer wait never gets an earlier attempt, as long as both numbers
      can be read. */
  lemma LongerWaitsLonger(now: Time, generation: Generation, v: nat, w: nat, date: Option<Time>, entropy: nat)
    requires v <= w <= MAX_INT64
    ensures NextAttemptAt(now, generation, FormatInt(v), date, entropy)
            <= NextAttemptAt(now, generation, FormatInt(w), date, entropy)
  {
    assert [] + FormatInt(v) + [] == FormatInt(v) && [] + FormatInt(w) + [] == FormatInt(w);
    RetryAfterRoundTrip(now, v, [], [], date);
    RetryAfterRoundTrip(now, w, [], [], date);
  }
}
