/** Retry delays of the upload bridge: exponential backoff with a deterministic jitter. */
module Backoff {

  const U64_MAX: nat := 0xFFFF_FFFF_FFFF_FFFF
  const I64_LIMIT: nat := 0x8000_0000_0000_0000
  const U32_LIMIT: nat := 0x1_0000_0000

  datatype Config = Config(baseBackoff: nat, maxBackoff: nat, maxAttempts: nat, batchSize: nat)

  /** What loading a configuration checks, together with the widths of the fields. */
  predicate Validated(c: Config)
  {
    && 1 <= c.baseBackoff <= c.maxBackoff <= U64_MAX
    && 1 <= c.maxAttempts < U32_LIMIT
    && 1 <= c.batchSize <= 500
  }

  function Min(a: nat, b: nat): nat
  {
    if a <= b then a else b
  }

  function Pow2(k: nat): (p: nat)
    ensures p >= 1
  {
    if k == 0 then 1 else 2 * Pow2(k - 1)
  }

  function SaturatingMul(a: nat, b: nat): nat
  {
    Min(a * b, U64_MAX)
  }

  /** The capped exponential delay before jitter; `attempt` counts from 1. */
  function BaseDelay(c: Config, attempt: nat): nat
  {
    var exponent := Min(if attempt >= 1 then attempt - 1 else 0, 20);
    Min(SaturatingMul(c.baseBackoff, Pow2(Min(exponent, 32))), c.maxBackoff)
  }

  /** `bucket` is the number read from the first eight hex digits of the seed's hash. */
  function Delay(c: Config, attempt: nat, bucket: nat): nat
  {
    var base := BaseDelay(c, attempt);
    if base <= 1 then (if base >= 1 then base else 1)
    else
      var half := base / 2;
      half + bucket % (if base - half >= 1 then base - half else 1)
  }

  /** The conversion of an unsigned delay to a signed 64-bit number wraps. */
  function AsI64(x: nat): int
  {
    var low := x % (U64_MAX + 1);
    if low < I64_LIMIT then low else low - (U64_MAX + 1)
  }

  // ---- what the delays satisfy ----

  lemma PositiveProduct(a: nat, b: nat)
    requires a >= 1 && b >= 1
    ensures a * b >= 1
  {
  }

  lemma BaseDelayRange(c: Config, attempt: nat)
    requires Validated(c)
    ensures 1 <= BaseDelay(c, attempt) <= c.maxBackoff
  {
    var exponent := Min(if attempt >= 1 then attempt - 1 else 0, 20);
    PositiveProduct(c.baseBackoff, Pow2(Min(exponent, 32)));
  }

  /** Every delay lies between 1 and the configured maximum; its jittered part is in the
      half-open upper half of the base, so the base itself is never reached from 2 upwards. */
  lemma DelayRange(c: Config, attempt: nat, bucket: nat)
    requires Validated(c)
    ensures 1 <= Delay(c, attempt, bucket) <= c.maxBackoff <= U64_MAX
    ensures BaseDelay(c, attempt) >= 2 ==>
      BaseDelay(c, attempt) / 2 <= Delay(c, attempt, bucket) < BaseDelay(c, attempt)
  {
    BaseDelayRange(c, attempt);
  }

  lemma {:induction false} Pow2Step(k: nat)
    ensures Pow2(k + 1) == 2 * Pow2(k)
  {
  }

  lemma BaseDelayIs(c: Config, attempt: nat)
    requires Validated(c) && attempt >= 1
    ensures BaseDelay(c, attempt) == Min(c.baseBackoff * Pow2(Min(attempt - 1, 20)), c.maxBackoff)
  {
  }

  lemma DoubleProduct(a: nat, b: nat)
    ensures a * (2 * b) == 2 * (a * b)
  {
  }

  lemma BaseDelayStep(c: Config, attempt: nat)
    requires Validated(c) && attempt >= 1
    ensures BaseDelay(c, attempt) <= BaseDelay(c, attempt + 1) <= 2 * BaseDelay(c, attempt)
    ensures BaseDelay(c, attempt + 1) == 2 * BaseDelay(c, attempt)
       <==> attempt <= 20 && c.baseBackoff * Pow2(attempt) <= c.maxBackoff
  {
    BaseDelayRange(c, attempt);
    BaseDelayIs(c, attempt);
    BaseDelayIs(c, attempt + 1);
    if attempt <= 20 {
      Pow2Step(attempt - 1);
      DoubleProduct(c.baseBackoff, Pow2(attempt - 1));
    }
  }

  predicate WaitsLonger(c: Config, attempt: nat, seed: nat, nextSeed: nat)
  {
    Delay(c, attempt, seed) < Delay(c, attempt + 1, nextSeed)
  }

  lemma GrowsWhileDoubling(c: Config, attempt: nat, s: nat, t: nat)
    requires Validated(c) && attempt >= 1
    requires BaseDelay(c, attempt) >= 2 && BaseDelay(c, attempt + 1) == 2 * BaseDelay(c, attempt)
    ensures WaitsLonger(c, attempt, s, t)
  {
    DelayRange(c, attempt, s);
    DelayRange(c, attempt + 1, t);
  }

  lemma DelayAtBucket(c: Config, attempt: nat, bucket: nat)
    requires BaseDelay(c, attempt) >= 2 && bucket < BaseDelay(c, attempt) - BaseDelay(c, attempt) / 2
    ensures Delay(c, attempt, bucket) == BaseDelay(c, attempt) / 2 + bucket
  {
  }

  lemma StallsOtherwise(c: Config, attempt: nat) returns (s: nat, t: nat)
    requires Validated(c) && attempt >= 1 && BaseDelay(c, attempt) <= 2 * U32_LIMIT
    requires BaseDelay(c, attempt) == 1 || BaseDelay(c, attempt + 1) != 2 * BaseDelay(c, attempt)
    ensures s < U32_LIMIT && t < U32_LIMIT && !WaitsLonger(c, attempt, s, t)
  {
    BaseDelayStep(c, attempt);
    BaseDelayRange(c, attempt);
    var b, next := BaseDelay(c, attempt), BaseDelay(c, attempt + 1);
    t := 0;
    if b == 1 {
      s := 0;
      if next == 2 { DelayAtBucket(c, attempt + 1, 0); }
    } else {
      s := b - b / 2 - 1;
      DelayAtBucket(c, attempt, s);
      DelayAtBucket(c, attempt + 1, 0);
    }
  }

  /** The next attempt waits strictly longer, whatever the two seeds, exactly while the uncapped
      base is at least 2 and doubling keeps it within the cap. The bound on the base says that a
      32-bit bucket can reach every jitter. */
  lemma DelayGrows(c: Config, attempt: nat)
    requires Validated(c) && attempt >= 1
    requires BaseDelay(c, attempt) <= 2 * U32_LIMIT
    ensures (forall s, t :: 0 <= s < U32_LIMIT && 0 <= t < U32_LIMIT ==> WaitsLonger(c, attempt, s, t))
       <==> BaseDelay(c, attempt) >= 2 && attempt <= 20 && c.baseBackoff * Pow2(attempt) <= c.maxBackoff
  {
    BaseDelayStep(c, attempt);
    BaseDelayRange(c, attempt);
    if BaseDelay(c, attempt) >= 2 && BaseDelay(c, attempt + 1) == 2 * BaseDelay(c, attempt) {
      forall s, t | 0 <= s < U32_LIMIT && 0 <= t < U32_LIMIT ensures WaitsLonger(c, attempt, s, t) {
        GrowsWhileDoubling(c, attempt, s, t);
      }
    } else {
      var s, t := StallsOtherwise(c, attempt);
    }
  }

  /** A delay survives the conversion to a signed deadline exactly below 2^63. */
  lemma DelayAsSigned(c: Config, attempt: nat, bucket: nat)
    requires Validated(c)
    ensures AsI64(Delay(c, attempt, bucket)) == Delay(c, attempt, bucket)
       <==> Delay(c, attempt, bucket) < I64_LIMIT
    ensures Delay(c, attempt, bucket) >= I64_LIMIT ==> AsI64(Delay(c, attempt, bucket)) < 0
  {
    DelayRange(c, attempt, bucket);
  }
}
