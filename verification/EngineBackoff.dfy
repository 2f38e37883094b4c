/** Waiting out a dead tunnel engine, and asking it about one proxy. */
module EngineBackoff {
  import opened Prelude

  type Seconds = x: int | 0 <= x <= I64_MAX

  /** Non-negative values clamp at the top of the 64-bit range. */
  function Saturate(x: nat): Seconds { Min(x, I64_MAX) }

  function Next(backoff: Seconds, max: Seconds): Seconds { Min(Saturate(backoff * 2), max) }

  /** Length of the `k`-th wait of an outage, counting from 0. */
  function Wait(initial: Seconds, max: Seconds, k: nat): Seconds {
    if k == 0 then initial else Next(Wait(initial, max, k - 1), max)
  }

  lemma {:induction false} LaterWaitsAreCapped(initial: Seconds, max: Seconds, k: nat)
    requires k > 0
    ensures Wait(initial, max, k) == Min(initial * Pow2(k), max)
  {
    if k == 1 {
      assert Wait(initial, max, 0) == initial && Pow2(1) == 2;
    } else {
      LaterWaitsAreCapped(initial, max, k - 1);
      assert initial * Pow2(k) == 2 * (initial * Pow2(k - 1));
    }
  }

  /** The waits are `min(initial * 2^k, max)` throughout exactly when the configured maximum is
      not below the initial wait: the cap is applied to the next wait, never to the first. */
  lemma WaitsAreCappedDoublings(initial: Seconds, max: Seconds)
    ensures (forall k: nat :: Wait(initial, max, k) == Min(initial * Pow2(k), max)) <==> initial <= max
  {
    if initial <= max {
      forall k: nat ensures Wait(initial, max, k) == Min(initial * Pow2(k), max) {
        if k == 0 { FirstWait(initial, max); } else { LaterWaitsAreCapped(initial, max, k); }
      }
    } else {
      FirstWait(initial, max);
      assert Wait(initial, max, 0) != Min(initial * Pow2(0), max);
    }
  }

  /** The first wait is not capped. */
  lemma FirstWait(initial: Seconds, max: Seconds)
    ensures Wait(initial, max, 0) == initial == initial * Pow2(0)
  {
    assert Pow2(0) == 1;
  }

  /** The engine's retry state.  `outages` counts the backoffs since the engine last answered. */
  class Engine {
    const initial: Seconds
    const max: Seconds
    var retryAt: Seconds
    var backoffSecs: Seconds
    ghost var outages: nat

    ghost predicate Valid()
      reads this
    {
      backoffSecs == Wait(initial, max, outages)
    }

    /** The configured initial wait is raised to one second; both limits clamp to 64 bits. */
    constructor (initialSecs: nat, maxSecs: nat)
      ensures Valid() && outages == 0 && retryAt == 0
      ensures initial == Saturate(if initialSecs == 0 then 1 else initialSecs) && max == Saturate(maxSecs)
    {
      initial := Saturate(if initialSecs == 0 then 1 else initialSecs);
      max := Saturate(maxSecs);
      retryAt, outages := 0, 0;
      backoffSecs := Saturate(if initialSecs == 0 then 1 else initialSecs);
    }

    /** The outage's next wait starts now. */
    method Backoff(now: Seconds)
      requires Valid()
      modifies this
      ensures Valid() && outages == old(outages) + 1
      ensures retryAt == Saturate(now + Wait(initial, max, old(outages)))
    {
      var backoff := backoffSecs;
      backoffSecs := Next(backoff, max);
      retryAt := Saturate(now + backoff);
      outages := outages + 1;
    }

    method Recovered()
      requires Valid()
      modifies this
      ensures Valid() && outages == 0 && retryAt == 0
    {
      backoffSecs := initial;
      retryAt := 0;
      outages := 0;
    }
  }

  // ---------------------------------------------------------------- one delay check

  /** What came back for one request: nothing, a body that is not JSON, or a JSON body. */
  datatype Response = Unreachable | NotJson | Json(status: nat, delay: Option<nat>)

  datatype DelayOutcome = Answered(delay: nat) | ProxyFailed | Unavailable

  function Classify(r: Response): DelayOutcome {
    match r
    case Unreachable => Unavailable
    case NotJson => Unavailable
    case Json(status, delay) =>
      if 200 <= status < 300 then (if delay.Some? then Answered(delay.value) else Unavailable)
      else if status == 503 || status == 504 then ProxyFailed
      else if 400 <= status <= 499 then ProxyFailed
      else Unavailable
  }

  /** The engine measured a delay. */
  predicate Measured(r: Response) { r.Json? && r.status / 100 == 2 && r.delay.Some? }

  /** The engine blames the proxy: a client error, or its own report of a dead or slow upstream. */
  predicate Blamed(r: Response) { r.Json? && (r.status / 100 == 4 || r.status in {503, 504}) }

  lemma VerdictOfStatus(r: Response)
    ensures Classify(r) == ProxyFailed <==> Blamed(r)
    ensures Classify(r).Answered? <==> Measured(r)
    ensures Measured(r) ==> Classify(r).delay == r.delay.value
  {}

  /** Asks until the engine gives a verdict or the attempts run out: the first verdict among the
      first `attempts` responses decides, and no request follows it. */
  method CheckDelayWithRetry(responses: seq<Response>, attempts: nat) returns (outcome: DelayOutcome, asked: nat, slept: nat)
    requires attempts <= |responses|
    ensures asked <= attempts && slept == if asked == 0 then 0 else asked - 1
    ensures forall i :: 0 <= i < asked - 1 ==> Classify(responses[i]) == Unavailable
    ensures outcome != Unavailable ==> asked > 0 && Classify(responses[asked - 1]) == outcome
    ensures outcome == Unavailable <==> forall i :: 0 <= i < attempts ==> Classify(responses[i]) == Unavailable
    ensures outcome == Unavailable ==> asked == attempts
    ensures forall i :: 0 <= i < asked - 1 ==> !Measured(responses[i]) && !Blamed(responses[i])
    ensures outcome.Answered? <==> asked > 0 && Measured(responses[asked - 1])
    ensures outcome.Answered? ==> outcome.delay == responses[asked - 1].delay.value
    ensures outcome.ProxyFailed? <==> asked > 0 && Blamed(responses[asked - 1])
  {
    forall i | 0 <= i < |responses| { VerdictOfStatus(responses[i]); }
    hide Classify, Measured, Blamed;
    asked, slept := 0, 0;
    for attempt := 0 to attempts
      invariant asked == attempt
      invariant slept == if attempt < attempts then attempt else if attempts == 0 then 0 else attempts - 1
      invariant forall i :: 0 <= i < attempt ==> Classify(responses[i]) == Unavailable
    {
      outcome := Classify(responses[attempt]);
      asked := asked + 1;
      if outcome != Unavailable {
        return;
      }
      if attempt + 1 < attempts {
        slept := slept + 1;
      }
    }
    outcome := Unavailable;
  }
}
