/**
 Backoff between HTTP attempts, over `real`: the program's float rounding and its truncation
 to whole nanoseconds are not modelled.
 */
module RetryPolicy {

  datatype HttpRetry = HttpRetry(
    maxAttempts: nat,
    initialInterval: real,
    maxInterval: real,
    backoffFactor: real,
    jitterFactor: real,
    resetOnExhaust: bool,
    retryStatusCodes: set<nat>) {

    /** What configuration validation guarantees. */
    predicate Valid() {
      && maxAttempts >= 1
      && 0.0 < initialInterval <= maxInterval
      && backoffFactor >= 1.0
      && 0.0 <= jitterFactor <= 1.0
    }

    predicate Retryable(status: nat) {
      status == 0 || status in retryStatusCodes
    }

    /** The longest a single wait can be. */
    function Longest(): real {
      maxInterval * (1.0 + jitterFactor)
    }
  }

  function Power(x: real, n: nat): real {
    if n == 0 then 1.0 else x * Power(x, n - 1)
  }

  function Minimum(a: real, b: real): real {
    if a > b then b else a
  }

  /** The initial interval after growing `n` times. */
  function Grown(c: HttpRetry, n: nat): real {
    c.initialInterval * Power(c.backoffFactor, n)
  }

  /** The delay before jitter after a given attempt; attempt zero, after a reset, counts as the first. */
  function BaseDelay(c: HttpRetry, attempt: nat): real {
    Minimum(Grown(c, if attempt == 0 then 0 else attempt - 1), c.maxInterval)
  }

  function RetryDelay(c: HttpRetry, attempt: nat, jitter: real): real {
    BaseDelay(c, attempt) * (1.0 + (jitter * 2.0 - 1.0) * c.jitterFactor)
  }

  /** The wait is the configured delay after that attempt, for some jitter. */
  ghost predicate IsDelay(c: HttpRetry, attempt: nat, wait: real) {
    exists jitter :: 0.0 <= jitter <= 1.0 && wait == RetryDelay(c, attempt, jitter)
  }

  /** The attempt number a wait is computed from; exhaustion with reset starts over at zero. */
  function NumberAfter(c: HttpRetry, attempts: nat): nat
    requires c.maxAttempts >= 1
  {
    if c.resetOnExhaust then attempts % c.maxAttempts else attempts
  }

  lemma NextNumber(c: HttpRetry, attempts: nat, number: nat)
    requires c.maxAttempts >= 1
    requires c.resetOnExhaust ==>
               number == if NumberAfter(c, attempts) + 1 >= c.maxAttempts then 0 else NumberAfter(c, attempts) + 1
    requires !c.resetOnExhaust ==> number == attempts + 1
    ensures number == NumberAfter(c, attempts + 1)
  {
    if c.resetOnExhaust {
      RemainderSteps(attempts, c.maxAttempts);
    }
  }

  lemma RemainderSteps(n: nat, m: nat)
    requires m >= 1
    ensures (n + 1) % m == if n % m + 1 >= m then 0 else n % m + 1
  {
    var q, d := n / m, n % m;
    assert n == q * m + d;
    if d + 1 < m {
      RemainderIs(n + 1, m, q, d + 1);
    } else {
      assert n + 1 == (q + 1) * m + 0;
      RemainderIs(n + 1, m, q + 1, 0);
    }
  }

  lemma MultipleIsFar(k: int, m: int)
    requires m >= 1
    ensures k >= 1 ==> k * m >= m
    ensures k <= -1 ==> k * m <= 0 - m
  {
  }

  lemma RemainderIs(n: nat, m: nat, q: nat, d: nat)
    requires d < m && n == q * m + d
    ensures n % m == d
  {
    var k: int := n / m - q;
    assert k * m == d - n % m;
    MultipleIsFar(k, m);
  }

  lemma NoAttempts(c: HttpRetry)
    requires c.maxAttempts >= 1
    ensures NumberAfter(c, 0) == 0
  {
  }

  ghost predicate FollowsPolicy(c: HttpRetry, waits: seq<real>)
    requires c.maxAttempts >= 1
  {
    forall i :: 0 <= i < |waits| ==> IsDelay(c, NumberAfter(c, i + 1), waits[i])
  }

  ghost predicate AllShort(c: HttpRetry, waits: seq<real>) {
    forall i :: 0 <= i < |waits| ==> 0.0 <= waits[i] <= c.Longest()
  }

  function Total(waits: seq<real>): real {
    if |waits| == 0 then 0.0 else Total(waits[..|waits| - 1]) + waits[|waits| - 1]
  }

  lemma {:induction false} PowerGrows(x: real, n: nat)
    requires x >= 1.0
    ensures 1.0 <= Power(x, n) <= Power(x, n + 1)
  {
    if n > 0 {
      PowerGrows(x, n - 1);
      assert Power(x, n + 1) - Power(x, n) == (x - 1.0) * Power(x, n);
    }
  }

  lemma ScaleKeepsOrder(k: real, a: real, b: real)
    requires k >= 0.0 && a <= b
    ensures k * a <= k * b
  {
  }

  lemma CappedProduct(initial: real, cap: real, p: real, q: real)
    requires 0.0 < initial <= cap && 1.0 <= p <= q
    ensures initial <= Minimum(initial * p, cap) <= Minimum(initial * q, cap) <= cap
  {
    ScaleKeepsOrder(initial, 1.0, p);
    ScaleKeepsOrder(initial, p, q);
  }

  lemma JitterIsBounded(jitter: real, factor: real)
    requires 0.0 <= jitter <= 1.0 && 0.0 <= factor
    ensures -factor <= (jitter * 2.0 - 1.0) * factor <= factor
  {
    var u := jitter * 2.0 - 1.0;
    ScaleKeepsOrder(factor, u, 1.0);
    ScaleKeepsOrder(factor, -1.0, u);
    assert factor * u == u * factor;
  }

  lemma StretchedProduct(delay: real, cap: real, stretch: real, factor: real)
    requires 0.0 <= delay <= cap && -factor <= stretch <= factor <= 1.0
    ensures 0.0 <= delay * (1.0 + stretch) <= cap * (1.0 + factor)
  {
    ScaleKeepsOrder(delay, 0.0, 1.0 + stretch);
    ScaleKeepsOrder(delay, 1.0 + stretch, 1.0 + factor);
    ScaleKeepsOrder(1.0 + factor, delay, cap);
  }

  lemma CapAndScale(d: real, next: real, factor: real, cap: real)
    requires d > 0.0 && cap > 0.0 && factor >= 1.0 && next == d * factor
    ensures Minimum(next, cap) == Minimum(Minimum(d, cap) * factor, cap)
  {
    if d > cap {
      ScaleKeepsOrder(cap, 1.0, factor);
      ScaleKeepsOrder(d, 1.0, factor);
    }
  }

  /**
   The schedule before jitter: the initial interval after the first attempt and after a reset,
   and after every other one the previous delay times the factor, up to the maximum.
   */
  lemma BaseDelayExactly(c: HttpRetry, attempt: nat)
    requires c.Valid()
    ensures BaseDelay(c, 0) == c.initialInterval && BaseDelay(c, 1) == c.initialInterval
    ensures attempt >= 1 ==>
              var next := BaseDelay(c, attempt) * c.backoffFactor;
              BaseDelay(c, attempt + 1) == if next > c.maxInterval then c.maxInterval else next
  {
    FirstDelay(c);
    if attempt >= 1 {
      NextDelay(c, attempt);
    }
    hide BaseDelay;
  }

  lemma FirstDelay(c: HttpRetry)
    requires c.Valid()
    ensures BaseDelay(c, 0) == c.initialInterval && BaseDelay(c, 1) == c.initialInterval
  {
    assert c.initialInterval * 1.0 == c.initialInterval;
  }

  lemma NextDelay(c: HttpRetry, attempt: nat)
    requires c.Valid() && attempt >= 1
    ensures BaseDelay(c, attempt + 1) == Minimum(BaseDelay(c, attempt) * c.backoffFactor, c.maxInterval)
  {
    CappedGrowth(c, attempt - 1);
    hide Minimum, Grown;
  }

  lemma CappedGrowth(c: HttpRetry, n: nat)
    requires c.Valid()
    ensures Minimum(Grown(c, n + 1), c.maxInterval) == Minimum(Minimum(Grown(c, n), c.maxInterval) * c.backoffFactor, c.maxInterval)
  {
    GrowsByFactor(c, n);
    hide Grown, Minimum;
    CapAndScale(Grown(c, n), Grown(c, n + 1), c.backoffFactor, c.maxInterval);
  }

  lemma GrowsByFactor(c: HttpRetry, n: nat)
    requires c.Valid()
    ensures Grown(c, n + 1) == Grown(c, n) * c.backoffFactor && Grown(c, n) > 0.0
  {
    PowerGrows(c.backoffFactor, n);
    var p, q := Power(c.backoffFactor, n), Power(c.backoffFactor, n + 1);
    assert q == c.backoffFactor * p;
    hide Power;
    Regroup(c.initialInterval, c.backoffFactor, p, q);
  }

  lemma Regroup(d: real, factor: real, p: real, q: real)
    requires d > 0.0 && p >= 1.0 && q == factor * p
    ensures d * q == d * p * factor && d * p > 0.0
  {
  }

  /** Jitter spreads a wait evenly around its base delay, by the jitter factor at most. */
  lemma JitterExactly(c: HttpRetry, attempt: nat, jitter: real)
    ensures var d := BaseDelay(c, attempt);
            && RetryDelay(c, attempt, 0.5) == d
            && RetryDelay(c, attempt, 0.0) == d - d * c.jitterFactor
            && RetryDelay(c, attempt, 1.0) == d + d * c.jitterFactor
            && RetryDelay(c, attempt, jitter) - d == (jitter - 0.5) * (2.0 * (d * c.jitterFactor))
  {
    hide BaseDelay;
    var d := BaseDelay(c, attempt);
    Spread(d, c.jitterFactor, jitter);
    Spread(d, c.jitterFactor, 0.0);
    Spread(d, c.jitterFactor, 0.5);
    Spread(d, c.jitterFactor, 1.0);
  }

  lemma Spread(d: real, factor: real, jitter: real)
    ensures d * (1.0 + (jitter * 2.0 - 1.0) * factor) == d + (jitter - 0.5) * (2.0 * (d * factor))
  {
    var u := jitter * 2.0 - 1.0;
    assert d * (1.0 + u * factor) == d + u * (d * factor);
    assert (jitter - 0.5) * 2.0 == u;
  }

  /** Base delays start at the initial interval, never shrink, and never exceed the maximum. */
  lemma BaseDelayIsMonotone(c: HttpRetry, attempt: nat)
    requires c.Valid()
    ensures c.initialInterval <= BaseDelay(c, attempt) <= BaseDelay(c, attempt + 1) <= c.maxInterval
  {
    var n := if attempt == 0 then 0 else attempt - 1;
    PowerGrows(c.backoffFactor, n);
    hide Minimum, Power;
    if attempt == 0 {
      CappedProduct(c.initialInterval, c.maxInterval, Power(c.backoffFactor, 0), Power(c.backoffFactor, 0));
    } else {
      CappedProduct(c.initialInterval, c.maxInterval, Power(c.backoffFactor, n), Power(c.backoffFactor, n + 1));
    }
  }

  /** Every wait lies between zero and the maximum interval stretched by the jitter factor. */
  lemma RetryDelayIsBounded(c: HttpRetry, attempt: nat, jitter: real)
    requires c.Valid() && 0.0 <= jitter <= 1.0
    ensures 0.0 <= RetryDelay(c, attempt, jitter) <= c.Longest()
  {
    hide BaseDelay;
    BaseDelayIsMonotone(c, attempt);
    JitterIsBounded(jitter, c.jitterFactor);
    StretchedProduct(BaseDelay(c, attempt), c.maxInterval, (jitter * 2.0 - 1.0) * c.jitterFactor, c.jitterFactor);
  }

  /** Waits that are each bounded are bounded in total. */
  lemma {:induction false} TotalIsBounded(waits: seq<real>, longest: real)
    requires forall i :: 0 <= i < |waits| ==> 0.0 <= waits[i] <= longest
    ensures 0.0 <= Total(waits) <= (|waits| as real) * longest
    decreases |waits|
  {
    if waits != [] {
      TotalIsBounded(waits[..|waits| - 1], longest);
      assert ((|waits| - 1) as real) * longest + longest == (|waits| as real) * longest;
    }
  }

  lemma WaitOnceMore(c: HttpRetry, waits: seq<real>, attempt: nat, jitter: real)
    requires c.Valid() && 0.0 <= jitter <= 1.0 && AllShort(c, waits)
    ensures var longer := waits + [RetryDelay(c, attempt, jitter)];
            && AllShort(c, longer)
            && (FollowsPolicy(c, waits) && attempt == NumberAfter(c, |waits| + 1) ==> FollowsPolicy(c, longer))
  {
    hide RetryDelay, NumberAfter;
    RetryDelayIsBounded(c, attempt, jitter);
    var w := RetryDelay(c, attempt, jitter);
    assert IsDelay(c, attempt, w);
    var longer := waits + [w];
    if FollowsPolicy(c, waits) && attempt == NumberAfter(c, |waits| + 1) {
      forall i | 0 <= i < |longer| ensures IsDelay(c, NumberAfter(c, i + 1), longer[i]) {
        if i < |waits| { assert longer[i] == waits[i]; }
      }
    }
  }

  lemma ScaleCount(n: nat, m: nat, k: real)
    requires k >= 0.0 && n <= m
    ensures (n as real) * k <= (m as real) * k
  {
    var a, b := n as real, m as real;
    ScaleKeepsOrder(k, a, b);
    assert k * a == a * k && k * b == b * k;
  }

  lemma LongestIsPositive(c: HttpRetry)
    requires c.Valid()
    ensures c.Longest() >= 0.0
  {
    ScaleKeepsOrder(c.maxInterval, 0.0, 1.0 + c.jitterFactor);
  }

  /** The bound on all the waits for one record. */
  lemma TotalWithinBudget(c: HttpRetry, waits: seq<real>)
    requires c.Valid() && AllShort(c, waits) && |waits| <= c.maxAttempts - 1
    ensures 0.0 <= Total(waits) <= (c.maxAttempts - 1) as real * c.Longest()
  {
    LongestIsPositive(c);
    hide HttpRetry.Longest, Total;
    TotalBelow(waits, c.Longest(), c.maxAttempts - 1);
  }

  lemma TotalBelow(waits: seq<real>, longest: real, count: nat)
    requires forall i :: 0 <= i < |waits| ==> 0.0 <= waits[i] <= longest
    requires longest >= 0.0 && |waits| <= count
    ensures 0.0 <= Total(waits) <= (count as real) * longest
  {
    hide *;
    TotalIsBounded(waits, longest);
    ScaleCount(|waits|, count, longest);
  }
}
