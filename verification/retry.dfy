/** The retry engine (src/utils/retry.ts): `withRetry` re-invokes a failing operation
    with capped exponential backoff while the configured predicate accepts the error.
    `shouldRetry` is any predicate on the error message; the built-in ones look for
    substrings of the lower-cased message. `Math.random()` is a parameter in `[0, 1)`;
    sleeping is left out and the computed waits are returned instead, together with the
    notices posted before each wait. */
module Retry {
  import opened Results
  import opened Text
  import opened Domain
  import opened Powers
  import Notifications

  /** `RetryConfig`; `shouldRetry` judges an error by its message. */
  datatype RetryConfig = RetryConfig(maxRetries: int, baseDelay: int, maxDelay: int, shouldRetry: string -> bool)

  /** `Partial<RetryConfig>`: a field left `None` is not supplied. */
  datatype PartialConfig = PartialConfig(maxRetries: Option<int>, baseDelay: Option<int>,
                                         maxDelay: Option<int>, shouldRetry: Option<string -> bool>)

  /** The built-in predicates: the lower-cased message contains one of the substrings, that
      is, one of them occurs in it at some position. */
  function ShouldRetry(retryOn: seq<string>, message: string): (retry: bool)
    ensures retry <==> exists i: nat, j: nat :: i < |retryOn| && OccursAt(ToLower(message), retryOn[i], j)
  {
    var lower := ToLower(message);
    assert forall i: nat :: i < |retryOn| ==> (Contains(lower, retryOn[i]) <==> exists j: nat :: OccursAt(lower, retryOn[i], j)) by {
      forall i: nat | i < |retryOn| ensures Contains(lower, retryOn[i]) <==> exists j: nat :: OccursAt(lower, retryOn[i], j) {
        ContainsIffOccurs(lower, retryOn[i]);
      }
    }
    exists i: nat :: i < |retryOn| && Contains(lower, retryOn[i])
  }

  /** The substrings of `DEFAULT_CONFIG.shouldRetry`. */
  const DefaultRetryOn: seq<string> := ["timeout", "rate limit", "too many requests", "model loading", "busy"]

  /** `DEFAULT_CONFIG`. */
  const DefaultConfig: RetryConfig :=
    RetryConfig(3, 1000, 10000, (m: string) => ShouldRetry(DefaultRetryOn, m))

  /** `{ ...DEFAULT_CONFIG, ...config }`. */
  function Resolve(config: PartialConfig): (c: RetryConfig)
    ensures config.maxRetries.None? ==> c.maxRetries == DefaultConfig.maxRetries
    ensures config.baseDelay.None? ==> c.baseDelay == DefaultConfig.baseDelay
    ensures config.maxDelay.None? ==> c.maxDelay == DefaultConfig.maxDelay
    ensures config.shouldRetry.None? ==> c.shouldRetry == DefaultConfig.shouldRetry
    ensures config.maxRetries.Some? ==> c.maxRetries == config.maxRetries.value
    ensures config.baseDelay.Some? ==> c.baseDelay == config.baseDelay.value
    ensures config.maxDelay.Some? ==> c.maxDelay == config.maxDelay.value
    ensures config.shouldRetry.Some? ==> c.shouldRetry == config.shouldRetry.value
  {
    RetryConfig(config.maxRetries.GetOr(DefaultConfig.maxRetries), config.baseDelay.GetOr(DefaultConfig.baseDelay),
                config.maxDelay.GetOr(DefaultConfig.maxDelay), config.shouldRetry.GetOr(DefaultConfig.shouldRetry))
  }

  /** `SERVICE_RETRY_CONFIGS[provider]`. */
  function ServiceConfig(p: Provider): (r: PartialConfig)
  {
    match p
    case OpenAI => PartialConfig(Some(3), Some(1000), None, Some((m: string) => ShouldRetry(ServiceRetryOn(p), m)))
    case Groq => PartialConfig(Some(4), Some(2000), None, Some((m: string) => ShouldRetry(ServiceRetryOn(p), m)))
    case HuggingFace => PartialConfig(Some(5), Some(3000), None, Some((m: string) => ShouldRetry(ServiceRetryOn(p), m)))
  }

  /** The substrings of each service's `shouldRetry`. */
  function ServiceRetryOn(p: Provider): (r: seq<string>)
  {
    match p
    case OpenAI => ["rate limit", "timeout", "server error"]
    case Groq => ["capacity", "timeout", "server error"]
    case HuggingFace => ["model loading", "busy", "timeout"]
  }

  /** The effective per-service limits: retries and base delay of their own, the default cap. */
  lemma ServiceConfigsResolved(p: Provider)
    ensures Resolve(ServiceConfig(p)).maxDelay == 10000
    ensures p == OpenAI ==> Resolve(ServiceConfig(p)).maxRetries == 3 && Resolve(ServiceConfig(p)).baseDelay == 1000
    ensures p == Groq ==> Resolve(ServiceConfig(p)).maxRetries == 4 && Resolve(ServiceConfig(p)).baseDelay == 2000
    ensures p == HuggingFace ==> Resolve(ServiceConfig(p)).maxRetries == 5 && Resolve(ServiceConfig(p)).baseDelay == 3000
  {
  }

  /** Every provider's predicate retries a message that mentions a timeout, in any letter case. */
  lemma TimeoutAlwaysRetried(p: Provider, message: string)
    requires Contains(ToLower(message), "timeout")
    ensures Resolve(ServiceConfig(p)).shouldRetry(message)
    ensures DefaultConfig.shouldRetry(message)
  {
    var on := ServiceRetryOn(p);
    assert DefaultRetryOn[0] == "timeout";
    match p
    case OpenAI => assert on[1] == "timeout";
    case Groq => assert on[1] == "timeout";
    case HuggingFace => assert on[2] == "timeout";
  }

  function MinInt(a: int, b: int): (r: int)
  {
    if a <= b then a else b
  }

  function MaxReal(a: real, b: real): (r: real)
  {
    if a >= b then a else b
  }

  /** `min(maxDelay, baseDelay * 2^(attempt - 1))`, the delay before jitter. */
  function Exponential(attempt: nat, baseDelay: int, maxDelay: int): (r: int)
    requires attempt >= 1
  {
    MinInt(maxDelay, baseDelay * Pow2(attempt - 1))
  }

  /** With a non-negative base, the pre-jitter delay never falls as the attempt grows and never exceeds the cap. */
  lemma ExponentialMonotone(a: nat, b: nat, baseDelay: int, maxDelay: int)
    requires 1 <= a <= b && baseDelay >= 0
    ensures Exponential(a, baseDelay, maxDelay) <= Exponential(b, baseDelay, maxDelay) <= maxDelay
  {
    Pow2Monotone(a - 1, b - 1);
    assert baseDelay * Pow2(a - 1) <= baseDelay * Pow2(b - 1) by {
      MulMonotone(baseDelay, Pow2(a - 1), Pow2(b - 1));
    }
  }

  lemma MulMonotone(x: int, m: int, n: int)
    requires x >= 0 && m <= n
    ensures x * m <= x * n
  {
  }

  /** `calculateDelay`, with `Math.random()` given as `random`. The jitter moves the delay by
      less than a quarter of the exponential part in either direction, and the delay never
      drops below `baseDelay`. */
  function CalculateDelay(attempt: nat, baseDelay: int, maxDelay: int, random: real): (d: real)
    requires attempt >= 1 && 0.0 <= random < 1.0
    ensures d >= baseDelay as real
    ensures var e := Exponential(attempt, baseDelay, maxDelay) as real;
            e >= 0.0 ==> 0.75 * e <= d && d <= MaxReal(baseDelay as real, 1.25 * e)
  {
    var e := Exponential(attempt, baseDelay, maxDelay) as real;
    var x := Jittered(e, random);
    MaxReal(baseDelay as real, x)
  }

  /** `e + e * 0.25 * (Math.random() * 2 - 1)`: within a quarter of `e` either way. */
  function Jittered(e: real, random: real): (x: real)
    requires 0.0 <= random < 1.0
    ensures e >= 0.0 ==> 0.75 * e <= x <= 1.25 * e
  {
    var f := random * 2.0 - 1.0;
    JitterBound(e, f);
    e + e * 0.25 * f
  }

  lemma JitterBound(e: real, f: real)
    requires -1.0 <= f <= 1.0
    ensures e >= 0.0 ==> -0.25 * e <= e * 0.25 * f <= 0.25 * e
  {
    if e >= 0.0 {
      var q := 0.25 * e;
      assert e * 0.25 * f == q * f;
      if f >= 0.0 {
        assert q * f <= q * 1.0;
      } else {
        assert q * f >= q * -1.0;
      }
    }
  }

  /** `Math.round`: to the nearest integer, halves upward. */
  function Round(x: real): (n: int)
    ensures x - 0.5 < n as real <= x + 0.5
  {
    (x + 0.5).Floor
  }

  /** The notice posted before waiting `delay` ms after failed attempt `attempt`; the wait is
      shown in whole seconds. */
  function RetryNotice(attempt: nat, maxRetries: int, delay: real): (r: Notifications.Notice)
  {
    Notifications.Notice(Notifications.Info,
      "Retrying operation (" + IntToString(attempt) + "/" + IntToString(maxRetries) + ") in "
      + IntToString(Round(delay / 1000.0)) + "s...")
  }

  /** The notices for the waits `delays`, the `k`-th posted after failed attempt `k + 1`. */
  function RetryNotices(maxRetries: int, delays: seq<real>): (ns: seq<Notifications.Notice>)
    ensures |ns| == |delays|
    ensures forall k :: 0 <= k < |ns| ==> ns[k] == RetryNotice(k + 1, maxRetries, delays[k])
  {
    seq(|delays|, k requires 0 <= k < |delays| => RetryNotice(k + 1, maxRetries, delays[k]))
  }

  /** `withRetry`: `op(k)` is the outcome of the `k`-th call (counted from 1) and `random(k)`
      the random number drawn before the `k + 1`-th. Returns the outcome, the number of calls,
      the waits made between them and the notice posted before each wait. */
  method WithRetry<T>(op: nat -> Result<T>, config: PartialConfig, random: nat -> real)
    returns (r: Result<T>, calls: nat, delays: seq<real>, notices: seq<Notifications.Notice>)
    requires forall k: nat :: 0.0 <= random(k) < 1.0
    ensures 1 <= calls
    ensures calls == 1 || calls <= Resolve(config).maxRetries
    ensures Resolve(config).maxRetries <= 1 ==> calls == 1
    ensures r == op(calls)
    ensures forall k :: 1 <= k < calls ==>
              op(k).Err? && Resolve(config).shouldRetry(op(k).error) && k < Resolve(config).maxRetries
    ensures r.Err? ==> calls >= Resolve(config).maxRetries || !Resolve(config).shouldRetry(r.error)
    ensures |delays| == calls - 1
    ensures forall k :: 0 <= k < |delays| ==>
              delays[k] == CalculateDelay(k + 1, Resolve(config).baseDelay, Resolve(config).maxDelay, random(k + 1))
    ensures |notices| == |delays|
    ensures forall k :: 0 <= k < |notices| ==> notices[k] == RetryNotice(k + 1, Resolve(config).maxRetries, delays[k])
  {
    var c := Resolve(config);
    var attempt: nat := 1;
    delays := [];
    while true
      invariant 1 <= attempt
      invariant attempt == 1 || attempt <= c.maxRetries
      invariant |delays| == attempt - 1
      invariant forall k :: 1 <= k < attempt ==> op(k).Err? && c.shouldRetry(op(k).error) && k < c.maxRetries
      invariant forall k :: 0 <= k < |delays| ==> delays[k] == CalculateDelay(k + 1, c.baseDelay, c.maxDelay, random(k + 1))
      decreases c.maxRetries - attempt
    {
      r := op(attempt);
      if r.Ok? || attempt >= c.maxRetries || !c.shouldRetry(r.error) {
        calls := attempt;
        notices := RetryNotices(c.maxRetries, delays);
        return;
      }
      delays := delays + [CalculateDelay(attempt, c.baseDelay, c.maxDelay, random(attempt))];
      attempt := attempt + 1;
    }
  }
}
