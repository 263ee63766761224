/** Retry with backoff, and provider failover: both stop at the first outcome that is not a transient error. */
module Retry {
  import opened RedisLists

  datatype Outcome<+T> = Success(value: T) | Transient(code: string) | Permanent(code: string)

  datatype Result<+T> = BadAttempts | Ended(outcome: Outcome<T>)

  function Power2(n: nat): (r: nat)
    ensures r >= 1
  {
    if n == 0 then 1 else 2 * Power2(n - 1)
  }

  /** The wait after failed attempt number `k`, counted from zero; `scale` is the jitter factor. */
  function Delay(base: real, limit: real, k: nat, scale: real): real {
    (if base * Power2(k) as real < limit then base * Power2(k) as real else limit) * scale
  }

  function Smaller(a: real, b: real): real { if a < b then a else b }

  /** The waits double until they meet the limit and stay there, and jitter scales them afterwards. */
  lemma DelayDoubles(base: real, limit: real, k: nat, scale: real)
    requires limit >= 0.0
    ensures Delay(base, limit, 0, 1.0) == Smaller(base, limit)
    ensures Delay(base, limit, k + 1, 1.0) == Smaller(2.0 * Delay(base, limit, k, 1.0), limit)
    ensures Delay(base, limit, k, scale) == Delay(base, limit, k, 1.0) * scale
  {
    var step := Power2(k) as real;
    assert Power2(k + 1) as real == 2.0 * step;
    assert base * (2.0 * step) == 2.0 * (base * step);
  }

  /** `calls` invocations of `operation`: every one but the last failed transiently, and the last one is either
      not transient or the last one allowed. */
  predicate StopsAfter<T(!new)>(operation: nat -> Outcome<T>, attempts: int, calls: nat) {
    && 1 <= calls <= attempts
    && (forall k :: 0 <= k < calls - 1 ==> operation(k).Transient?)
    && (calls == attempts || !operation(calls - 1).Transient?)
  }

  /** Invokes the operation up to the first outcome that is not transient, at most `attempts` times, waiting
      between invocations only, with doubling delays that are capped before jitter scales them. */
  method RetryAsync<T(!new)>(operation: nat -> Outcome<T>, attempts: int, base: real, limit: real, jitter: nat -> real)
    returns (r: Result<T>, calls: nat, delays: seq<real>)
    ensures attempts < 1 <==> r.BadAttempts?
    ensures attempts < 1 ==> calls == 0 && delays == []
    ensures attempts >= 1 ==> StopsAfter(operation, attempts, calls) && r == Ended(operation(calls - 1))
    ensures attempts >= 1 ==> |delays| == calls - 1
    ensures forall k :: 0 <= k < |delays| ==> delays[k] == Delay(base, limit, k, jitter(k))
  {
    calls, delays := 0, [];
    if attempts < 1 {
      return BadAttempts, 0, [];
    }
    var attempt := 1;
    while true
      invariant 1 <= attempt <= attempts && calls == attempt - 1
      invariant forall k :: 0 <= k < calls ==> operation(k).Transient?
      invariant |delays| == calls && forall k :: 0 <= k < |delays| ==> delays[k] == Delay(base, limit, k, jitter(k))
      decreases attempts - attempt
    {
      var outcome := operation(calls);
      calls := calls + 1;
      if !outcome.Transient? || attempt == attempts {
        return Ended(outcome), calls, delays;
      }
      var raw := base * Power2(attempt - 1) as real;
      delays := delays + [(if raw < limit then raw else limit) * jitter(attempt - 1)];
      attempt := attempt + 1;
    }
  }

  /** An ordered chain of providers; an empty one is refused. */
  class FailoverLlm<T(!new)> {
    const providers: seq<nat -> Outcome<T>>

    constructor (providers: seq<nat -> Outcome<T>>)
      requires providers != []
      ensures this.providers == providers
    {
      this.providers := providers;
    }

    /** The first provider that does not fail transiently decides; a permanent error is not passed on to the
        next provider; only if all fail transiently does the chain. */
    method Complete(call: nat) returns (r: Outcome<T>, asked: nat)
      requires providers != []
      ensures 1 <= asked <= |providers|
      ensures forall k :: 0 <= k < asked - 1 ==> providers[k](call).Transient?
      ensures r == providers[asked - 1](call)
      ensures r.Transient? ==> asked == |providers|
      ensures !providers[|providers| - 1](call).Transient? ==> !r.Transient?
    {
      var last: Option<Outcome<T>> := None;
      asked := 0;
      while asked < |providers|
        invariant 0 <= asked <= |providers|
        invariant forall k :: 0 <= k < asked ==> providers[k](call).Transient?
        invariant asked > 0 ==> last == Some(providers[asked - 1](call))
      {
        var outcome := providers[asked](call);
        asked := asked + 1;
        if !outcome.Transient? {
          return outcome, asked;
        }
        last := Some(outcome);
      }
      r := last.value;
    }
  }
}
