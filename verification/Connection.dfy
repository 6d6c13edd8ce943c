/** Connecting with retries and a deterministic, optionally capped, geometric backoff. */
module Connection {
  import opened Common

  datatype PolicyFields = RetryPolicy(
    maxAttempts: int, delay: real, backoffFactor: real, maxDelay: Option<real>)
  {
    predicate Valid() {
      && maxAttempts >= 1 && delay >= 0.0 && backoffFactor >= 1.0
      && (maxDelay.Some? ==> maxDelay.value >= 0.0)
    }
  }

  type RetryPolicy = p: PolicyFields | p.Valid() witness RetryPolicy(3, 2.0, 1.0, None)

  function Pow(x: real, n: nat): real {
    if n == 0 then 1.0 else x * Pow(x, n - 1)
  }

  /** The delay after the `attempt`-th attempt, counted from 1. */
  function DelayFor(p: RetryPolicy, attempt: int): Answer<real> {
    var _ :- Check(attempt >= 1);
    var delay := p.delay * Pow(p.backoffFactor, attempt - 1);
    Returned(if p.maxDelay.Some? && p.maxDelay.value < delay then p.maxDelay.value else delay)
  }

  datatype Health = Health(connected: bool, error: string)

  /** How the terminal answers one attempt: to `connect`, then to `check_health`. */
  datatype PortReply = PortReply(connect: Answer<()>, health: Answer<Health>)

  /** Only the terminal's own errors are retried; anything else escapes at once. */
  predicate IsMt5Error(exc: Exception) {
    exc.kind == Mt5Error || exc.kind == NotConnected
  }

  function TryOnce(reply: PortReply): Answer<Health> {
    var _ :- reply.connect;
    var health :- reply.health;
    if health.connected then Returned(health)
    else Raised(Exception(Mt5Error, "health: " + health.error))
  }

  /** Attempt number `attempt` is not followed by another one. */
  predicate EndsWith(p: RetryPolicy, replies: seq<PortReply>, attempt: nat)
    requires 1 <= attempt <= |replies|
  {
    var r := TryOnce(replies[attempt - 1]);
    r.Returned? || !IsMt5Error(r.exc) || attempt >= p.maxAttempts
  }

  /** The attempt failed in a way that only concerns the terminal: one of its own errors, or no connection. */
  predicate WorthRetrying(reply: PortReply) {
    if reply.connect.Raised? then reply.connect.exc.kind in {Mt5Error, NotConnected}
    else if reply.health.Raised? then reply.health.exc.kind in {Mt5Error, NotConnected}
    else !reply.health.value.connected
  }

  /** Total sleep after `n` failed attempts that were retried. */
  function SleepAfter(p: RetryPolicy, n: nat): real {
    if n == 0 then 0.0 else SleepAfter(p, n - 1) + DelayFor(p, n).value
  }

  class ConnectionService {
    const retry: RetryPolicy
    ghost var connects: nat
    ghost var slept: real

    constructor (retry: RetryPolicy)
      ensures this.retry == retry && connects == 0 && slept == 0.0
    {
      this.retry := retry;
      connects, slept := 0, 0.0;
    }

    /**
      * Connects until the terminal is healthy. Makes `n` attempts, the last of which ends the loop, all
      * earlier ones failed with a terminal error, and it slept exactly between them.
      */
    method EnsureConnected(replies: seq<PortReply>) returns (r: Answer<Health>, ghost n: nat)
      requires |replies| >= retry.maxAttempts
      modifies this
      ensures 1 <= n <= retry.maxAttempts && connects == old(connects) + n
      ensures slept == old(slept) + SleepAfter(retry, n - 1)
      ensures r == TryOnce(replies[n - 1]) && EndsWith(retry, replies, n)
      ensures forall k | 1 <= k < n :: !EndsWith(retry, replies, k)
      ensures r.Returned? ==> r.value.connected
    {
      var lastError: Option<Exception> := None;
      for attempt := 1 to retry.maxAttempts + 1
        invariant connects == old(connects) + (attempt - 1)
        invariant slept == old(slept)
          + SleepAfter(retry, if attempt <= retry.maxAttempts then attempt - 1 else attempt - 2)
        invariant forall k | 1 <= k < attempt && k < retry.maxAttempts :: !EndsWith(retry, replies, k)
        invariant attempt > 1 ==> lastError.Some? && TryOnce(replies[attempt - 2]) == Raised(lastError.value)
        invariant attempt > 1 ==> IsMt5Error(lastError.value)
      {
        connects := connects + 1;
        n := attempt;
        var connected := replies[attempt - 1].connect;
        if connected.Raised? {
          if !IsMt5Error(connected.exc) { return Raised(connected.exc), attempt; }
          lastError := Some(connected.exc);
        } else {
          var health := replies[attempt - 1].health;
          if health.Raised? {
            if !IsMt5Error(health.exc) { return Raised(health.exc), attempt; }
            lastError := Some(health.exc);
          } else if health.value.connected {
            return health, attempt;
          } else {
            lastError := Some(Exception(Mt5Error, "health: " + health.value.error));
          }
        }
        if attempt < retry.maxAttempts {
          var delay := DelayFor(retry, attempt).value;
          if delay > 0.0 {
            slept := slept + delay;
          }
          DelayIsBounded(retry, attempt);
        }
      }
      return Raised(lastError.value), retry.maxAttempts;
    }
  }

  // ---- One attempt -------------------------------------------------------------------------------

  /**
    * An attempt returns the terminal's health exactly if it connected, and the first exception otherwise; it is the
    * last one exactly if no more are allowed or it is not worth retrying.
    */
  lemma AttemptEnds(p: RetryPolicy, replies: seq<PortReply>, attempt: nat)
    requires 1 <= attempt <= |replies|
    ensures var reply := replies[attempt - 1];
      && (EndsWith(p, replies, attempt) <==> attempt >= p.maxAttempts || !WorthRetrying(reply))
      && (if reply.connect.Raised? then TryOnce(reply) == Raised(reply.connect.exc)
          else if reply.health.Returned? && !reply.health.value.connected then
            TryOnce(reply).Raised? && TryOnce(reply).exc.kind == Mt5Error
          else TryOnce(reply) == reply.health)
  {
  }

  // ---- The backoff -------------------------------------------------------------------------------

  lemma {:induction false} PowAtLeastOne(x: real, n: nat)
    requires x >= 1.0
    ensures Pow(x, n) >= 1.0
  {
    if n > 0 {
      PowAtLeastOne(x, n - 1);
    }
  }

  lemma DelayIsBounded(p: RetryPolicy, attempt: nat)
    requires attempt >= 1
    ensures DelayFor(p, attempt).Returned? && DelayFor(p, attempt).value >= 0.0
    ensures p.maxDelay.Some? ==> DelayFor(p, attempt).value <= p.maxDelay.value
  {
    PowAtLeastOne(p.backoffFactor, attempt - 1);
  }

  /**
    * What the delays are: the first one, without a cap, is the configured one; each next one is larger by the
    * factor; and a cap replaces exactly the delays above it. There is none before the first attempt.
    */
  lemma DelayIsGeometric(p: RetryPolicy, attempt: int)
    ensures DelayFor(p, attempt).Returned? <==> attempt >= 1
    ensures attempt >= 1 ==>
      var uncapped := p.(maxDelay := None);
      && DelayFor(uncapped, 1) == Returned(p.delay)
      && DelayFor(uncapped, attempt + 1).value == p.backoffFactor * DelayFor(uncapped, attempt).value
      && DelayFor(p, attempt).value ==
           (if p.maxDelay.Some? && p.maxDelay.value < DelayFor(uncapped, attempt).value then p.maxDelay.value
            else DelayFor(uncapped, attempt).value)
  {
    if attempt >= 1 {
      var power := Pow(p.backoffFactor, attempt - 1);
      assert Pow(p.backoffFactor, attempt) == p.backoffFactor * power;
      assert p.delay * (p.backoffFactor * power) == p.backoffFactor * (p.delay * power);
      assert Pow(p.backoffFactor, 0) == 1.0;
    }
  }

  lemma Scaled(a: real, b: real, c: real)
    requires a <= b && c >= 0.0
    ensures c * a <= c * b
  {
  }

  lemma NextDelay(p: RetryPolicy, attempt: nat)
    requires attempt >= 1
    ensures DelayFor(p, attempt).value <= DelayFor(p, attempt + 1).value
  {
    var power := Pow(p.backoffFactor, attempt - 1);
    PowAtLeastOne(p.backoffFactor, attempt - 1);
    Scaled(1.0, p.backoffFactor, power);
    assert Pow(p.backoffFactor, attempt) == p.backoffFactor * power;
    Scaled(power, Pow(p.backoffFactor, attempt), p.delay);
  }

  /** Delays never shrink from one attempt to a later one. */
  lemma {:induction false} DelayGrows(p: RetryPolicy, attempt: nat, later: nat)
    requires 1 <= attempt <= later
    ensures DelayFor(p, attempt).Returned? && DelayFor(p, later).Returned?
    ensures DelayFor(p, attempt).value <= DelayFor(p, later).value
  {
    if attempt < later {
      DelayGrows(p, attempt, later - 1);
      NextDelay(p, later - 1);
    }
  }

  /** One more term `delay * power` of a geometric sum with ratio `factor`. */
  lemma GeometricStep(earlier: real, total: real, delay: real, power: real, next: real, factor: real)
    requires earlier * (factor - 1.0) == delay * (power - 1.0)
    requires total == earlier + delay * power && next == factor * power
    ensures total * (factor - 1.0) == delay * (next - 1.0)
  {
    var term := delay * power;
    assert total * (factor - 1.0) == earlier * (factor - 1.0) + term * (factor - 1.0);
    assert delay * next == term * factor;
  }

  lemma NextSleep(p: RetryPolicy, n: nat, earlier: real, power: real)
    requires n > 0 && p.maxDelay.None? && earlier == SleepAfter(p, n - 1) && power == Pow(p.backoffFactor, n - 1)
    ensures SleepAfter(p, n) == earlier + p.delay * power
    ensures Pow(p.backoffFactor, n) == p.backoffFactor * power
  {
  }

  /** Without a cap the total sleep is the geometric sum. */
  lemma {:induction false} GeometricSleep(p: RetryPolicy, n: nat)
    requires p.maxDelay.None?
    ensures SleepAfter(p, n) * (p.backoffFactor - 1.0) == p.delay * (Pow(p.backoffFactor, n) - 1.0)
  {
    if n == 0 {
      assert SleepAfter(p, n) == 0.0 && Pow(p.backoffFactor, n) == 1.0;
    } else {
      GeometricSleep(p, n - 1);
      var earlier, power := SleepAfter(p, n - 1), Pow(p.backoffFactor, n - 1);
      NextSleep(p, n, earlier, power);
      GeometricStep(earlier, SleepAfter(p, n), p.delay, power, Pow(p.backoffFactor, n), p.backoffFactor);
    }
  }

  /** With a cap the total sleep is at most the cap per retry. */
  lemma {:induction false} CappedSleep(p: RetryPolicy, n: nat)
    requires p.maxDelay.Some?
    ensures 0.0 <= SleepAfter(p, n) <= n as real * p.maxDelay.value
  {
    if n > 0 {
      CappedSleep(p, n - 1);
      DelayIsBounded(p, n);
      assert n as real * p.maxDelay.value == (n - 1) as real * p.maxDelay.value + p.maxDelay.value;
    }
  }
}
