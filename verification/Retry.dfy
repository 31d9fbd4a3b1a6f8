/** The retry policy of internal/consumer/handler.go and the timing check of internal/consumer/consumer.go. */
module Retry {
  import opened Domain

  /** Two's complement wrap-around of a 64-bit result. */
  function Wrap64(x: int): int64 {
    (x + INT64_LIMIT) % (2 * INT64_LIMIT) - INT64_LIMIT
  }

  /** The result differs from x by a multiple of 2^64. */
  lemma WrapIsCongruent(x: int)
    ensures (Wrap64(x) - x) % 0x1_0000_0000_0000_0000 == 0
  {
    var m := 2 * INT64_LIMIT;
    var q := (x + INT64_LIMIT) / m;
    assert Wrap64(x) - x == -q * m;
  }

  lemma WrapIsIdentity(x: int)
    requires -INT64_LIMIT <= x < INT64_LIMIT
    ensures Wrap64(x) == x
  {
  }

  lemma WrapFromAbove(x: int)
    requires INT64_LIMIT <= x < 3 * INT64_LIMIT
    ensures Wrap64(x) == x - 2 * INT64_LIMIT
  {
  }

  /** Go divides by truncating toward zero. */
  function Half(x: int64): int64 {
    var y: int := x;
    if y >= 0 then y / 2 else -((-y) / 2)
  }

  datatype RetryPolicy = RetryPolicy(maxAttempts: int64, backoff: int64)

  predicate ValidPolicy(p: RetryPolicy) {
    p.maxAttempts >= 1 && p.backoff >= 0
  }

  /** As the code computes it: every product wraps before the division. */
  function MaxWait(p: RetryPolicy): int64 {
    var n := Wrap64(p.maxAttempts - 1);
    Half(Wrap64(Wrap64(p.backoff * n) * Wrap64(n + 1)))
  }

  /** The wait requested after the given attempt; a negative one does not sleep. */
  function WaitAfter(p: RetryPolicy, attempt: nat): int64 {
    Wrap64(attempt * p.backoff)
  }

  function Positive(x: int): nat {
    if x < 0 then 0 else x
  }

  /** Total time spent sleeping after attempts 1 to k. */
  function Slept(p: RetryPolicy, k: nat): nat {
    if k == 0 then 0 else Slept(p, k - 1) + Positive(WaitAfter(p, k))
  }

  /** The product MaxWait divides by two does not overflow. */
  predicate Fits(p: RetryPolicy) {
    p.backoff * (p.maxAttempts - 1) * p.maxAttempts < INT64_LIMIT
  }

  lemma MulMonotone(a: nat, b: nat, c: nat)
    requires a <= b
    ensures a * c <= b * c
  {
  }

  lemma Triangle(b: int, k: int)
    ensures b * k * (k + 1) == b * (k - 1) * k + 2 * (k * b)
  {
    var t := b * k;
    assert t * (k + 1) == t * k + t;
    assert b * (k - 1) == t - b;
    assert (t - b) * k == t * k - b * k;
  }

  /** Without overflow the linear waits add up to the closed form. */
  lemma {:induction false} SleptIsTriangular(p: RetryPolicy, k: nat)
    requires p.backoff >= 0 && k * p.backoff < INT64_LIMIT
    ensures 2 * Slept(p, k) == p.backoff * k * (k + 1)
  {
    if k > 0 {
      MulMonotone(k - 1, k, p.backoff);
      SleptIsTriangular(p, k - 1);
      WrapIsIdentity(k * p.backoff);
      assert k * p.backoff >= 0;
      Triangle(p.backoff, k);
    } else {
      assert p.backoff * 0 * 1 == 0;
    }
  }

  lemma {:induction false} SleptGrows(p: RetryPolicy, j: nat, k: nat)
    requires j <= k
    ensures Slept(p, j) <= Slept(p, k)
    decreases k
  {
    if j < k {
      SleptGrows(p, j, k - 1);
    }
  }

  lemma ProductBounds(p: RetryPolicy)
    requires ValidPolicy(p) && Fits(p)
    ensures (p.maxAttempts - 1) * p.backoff < INT64_LIMIT
  {
    var b, n := p.backoff, p.maxAttempts - 1;
    assert (b * n) * (n + 1) == (b * n) * n + b * n;
    assert b * n >= 0 && (b * n) * n >= 0;
  }

  lemma FittingWaitIsExact(p: RetryPolicy)
    requires ValidPolicy(p) && Fits(p)
    ensures MaxWait(p) == Slept(p, p.maxAttempts - 1)
  {
    var b, n := p.backoff, p.maxAttempts - 1;
    ProductBounds(p);
    SleptIsTriangular(p, n);
    assert b * n >= 0;
    WrapIsIdentity(n);
    WrapIsIdentity(b * n);
    WrapIsIdentity(n + 1);
    assert b * n * (n + 1) >= 0;
    WrapIsIdentity(b * n * (n + 1));
  }

  /** While it fits, the wait after attempt k is k times the backoff. */
  lemma WaitIsLinear(p: RetryPolicy, k: nat)
    requires ValidPolicy(p) && Fits(p) && 1 <= k < p.maxAttempts
    ensures WaitAfter(p, k) == k * p.backoff
  {
    ProductBounds(p);
    MulMonotone(k, p.maxAttempts - 1, p.backoff);
    assert k * p.backoff >= 0;
    WrapIsIdentity(k * p.backoff);
  }

  /** When the product overflows the waits that are really slept exceed 2^62 nanoseconds. */
  lemma OverflowingPolicySleepsLong(p: RetryPolicy)
    requires ValidPolicy(p) && !Fits(p)
    ensures Slept(p, p.maxAttempts - 1) >= INT64_LIMIT / 2
  {
    var b, n := p.backoff, p.maxAttempts - 1;
    if n * b < INT64_LIMIT {
      SleptIsTriangular(p, n);
    } else {
      assert b > 0;
      var m := LastFitting(b);
      assert m < n by {
        if n <= m {
          MulMonotone(n, m, b);
        }
      }
      WrapIsIdentity(m * b);
      SleptGrows(p, m, n);
    }
  }

  /** The last multiple of b below the limit is at least half of the limit. */
  lemma LastFitting(b: nat) returns (m: nat)
    requires 0 < b < INT64_LIMIT
    ensures m > 0 && m * b < INT64_LIMIT && m * b >= INT64_LIMIT / 2
  {
    m := (INT64_LIMIT - 1) / b;
    var r := (INT64_LIMIT - 1) % b;
    assert INT64_LIMIT - 1 == m * b + r;
    assert m == 0 ==> m * b == 0;
    assert m > 0 ==> 1 * b <= m * b;
  }

  /** MaxWait is the total wait of an exhausted policy exactly when its product does not overflow. */
  lemma MaxWaitIsTotal(p: RetryPolicy)
    requires ValidPolicy(p)
    ensures MaxWait(p) == Slept(p, p.maxAttempts - 1) <==> Fits(p)
  {
    if Fits(p) {
      FittingWaitIsExact(p);
    } else {
      OverflowingPolicySleepsLong(p);
      HalfIsSmall(Wrap64(Wrap64(p.backoff * Wrap64(p.maxAttempts - 1)) * Wrap64(Wrap64(p.maxAttempts - 1) + 1)));
    }
  }

  lemma HalfIsSmall(x: int64)
    ensures Half(x) < INT64_LIMIT / 2
  {
  }

  // ----- Consumer configuration -----

  const SECOND: int64 := 1_000_000_000
  const REBALANCE_TIMEOUT: int64 := 60 * SECOND
  const COMMIT_TIMEOUT: int64 := 10 * SECOND
  const MAX_RECORD_TIMEOUT: int64 := REBALANCE_TIMEOUT / 2 - COMMIT_TIMEOUT

  datatype Config = Config(brokers: seq<string>, retry: RetryPolicy, recordTimeout: int64)

  predicate ValidConfig(c: Config) {
    && |c.brokers| > 0
    && ValidPolicy(c.retry)
    && 0 < c.recordTimeout <= MAX_RECORD_TIMEOUT
    && MaxWait(c.retry) < c.recordTimeout
  }

  /**
   * A validated configuration keeps all retry waits of a record inside its timeout exactly when the product
   * in MaxWait does not overflow; and then a record and its commit fit in half the rebalance timeout.
   */
  lemma ValidatedWaitsFit(c: Config)
    requires ValidConfig(c)
    ensures Slept(c.retry, c.retry.maxAttempts - 1) < c.recordTimeout <==> Fits(c.retry)
    ensures c.recordTimeout + COMMIT_TIMEOUT <= REBALANCE_TIMEOUT / 2
  {
    if Fits(c.retry) {
      FittingWaitIsExact(c.retry);
    } else {
      OverflowingPolicySleepsLong(c.retry);
    }
  }

  /**
   * As long as its product fits, a configuration passes exactly when it names a broker, allows an attempt, does
   * not wait negatively, gives a record at most 20 seconds and spends less than that waiting.
   */
  lemma ConfigAcceptedExactly(c: Config)
    requires Fits(c.retry)
    ensures ValidConfig(c) <==>
            && c.brokers != [] && c.retry.maxAttempts >= 1 && c.retry.backoff >= 0
            && 0 < c.recordTimeout <= 20_000_000_000
            && Slept(c.retry, c.retry.maxAttempts - 1) < c.recordTimeout
  {
    if ValidPolicy(c.retry) {
      FittingWaitIsExact(c.retry);
    }
  }

  /** Three attempts with a backoff of 2^61 nanoseconds pass validation, because the product wraps to a negative value. */
  lemma OverflowPassesValidation()
    ensures var c := Config(["kafka:9092"], RetryPolicy(3, 0x2000_0000_0000_0000), SECOND);
            ValidConfig(c) && Slept(c.retry, c.retry.maxAttempts - 1) > c.recordTimeout
  {
    var p := RetryPolicy(3, 0x2000_0000_0000_0000);
    WrapIsIdentity(2);
    WrapIsIdentity(3);
    WrapIsIdentity(p.backoff * 2);
    WrapFromAbove(p.backoff * 2 * 3);
    WrapIsIdentity(1 * p.backoff);
    hide Wrap64;
    assert MaxWait(p) < 0;
    assert Slept(p, 1) == Positive(WaitAfter(p, 1)) == 0x2000_0000_0000_0000;
    SleptGrows(p, 1, 2);
  }
}
