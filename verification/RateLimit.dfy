/**
 The rate-limited model transport (agent/src/vehicle_agent/model_providers/transports.py): attempts of all
 calls, retries included, are spaced by a minimum interval.
 */
module RateLimit {
  import opened Wrappers

  datatype Reply = Success | Retryable | Fatal

  /** One attempt as the outside world supplies it: the first clock reading, the one after the sleep, the reply. */
  datatype Attempt = Attempt(now: real, started: real, reply: Reply)

  datatype Outcome = Returned | RaisedRetryable | RaisedFatal

  function OutcomeOf(r: Reply): Outcome {
    match r
    case Success => Returned
    case Retryable => RaisedRetryable
    case Fatal => RaisedFatal
  }

  /** The clock does not run backwards and a sleep lasts at least as long as asked. */
  predicate FairAttempt(last: Option<real>, interval: real, a: Attempt) {
    && a.started >= a.now
    && (last.Some? ==>
          && a.now >= last.value
          && (interval - (a.now - last.value) > 0.0 ==> a.started >= a.now + (interval - (a.now - last.value))))
  }

  predicate Fair(last: Option<real>, interval: real, attempts: seq<Attempt>)
    decreases attempts
  {
    attempts == []
    || (FairAttempt(last, interval, attempts[0]) && Fair(Some(attempts[0].started), interval, attempts[1..]))
  }

  /** Whatever the provider replies, a clock and sleeps that are just on time are fair. */
  lemma {:induction false} FairWorld(last: Option<real>, interval: real, replies: seq<Reply>) returns (attempts: seq<Attempt>)
    requires interval >= 0.0
    ensures Fair(last, interval, attempts) && |attempts| == |replies|
    ensures forall i | 0 <= i < |replies| :: attempts[i].reply == replies[i]
    decreases replies
  {
    if replies == [] { return []; }
    var now := last.GetOr(0.0);
    var first := Attempt(now, now + interval, replies[0]);
    var rest := FairWorld(Some(first.started), interval, replies[1..]);
    attempts := [first] + rest;
    assert attempts[1..] == rest;
  }

  function Starts(attempts: seq<Attempt>): seq<real> {
    if attempts == [] then [] else [attempts[0].started] + Starts(attempts[1..])
  }

  ghost predicate Spaced(starts: seq<real>, interval: real) {
    forall i | 0 <= i < |starts| - 1 :: starts[i + 1] - starts[i] >= interval
  }

  /** k consecutive attempts span at least k-1 intervals. */
  lemma {:induction false} SpacedSpan(starts: seq<real>, interval: real, i: nat, j: nat)
    requires Spaced(starts, interval) && i <= j < |starts|
    ensures starts[j] - starts[i] >= (j - i) as real * interval
    decreases j
  {
    if i < j {
      SpacedSpan(starts, interval, i, j - 1);
      assert starts[j - 1 + 1] - starts[j - 1] >= interval;
      assert (j - i) as real * interval == (j - 1 - i) as real * interval + interval;
    }
  }

  class RateLimitedTransport {
    const requestsPerMinute: real
    const minimumInterval: real
    const maxAttempts: nat
    var lastStarted: Option<real>
    /** When each attempt of each call started. */
    ghost var starts: seq<real>

    ghost predicate Valid()
      reads this
    {
      && requestsPerMinute > 0.0 && minimumInterval == 60.0 / requestsPerMinute && (maxAttempts == 1 || maxAttempts == 2)
      && (starts == [] <==> lastStarted == None)
      && (starts != [] ==> lastStarted == Some(starts[|starts| - 1]))
      && Spaced(starts, minimumInterval)
    }

    /** The source raises ValueError unless the rate is positive and one or two attempts are asked for. */
    constructor (rpm: real, attempts: nat)
      requires rpm > 0.0 && (attempts == 1 || attempts == 2)
      ensures Valid() && starts == [] && maxAttempts == attempts && requestsPerMinute == rpm
    {
      requestsPerMinute := rpm;
      minimumInterval := 60.0 / rpm;
      maxAttempts := attempts;
      lastStarted := None;
      starts := [];
    }

    /** Sleep if needed and note the start; returns how long the sleep was asked to be. */
    method BeginAttempt(a: Attempt) returns (sleep: real)
      requires Valid() && FairAttempt(lastStarted, minimumInterval, a)
      modifies this
      ensures Valid() && starts == old(starts) + [a.started] && lastStarted == Some(a.started)
      ensures sleep >= 0.0 && a.started >= a.now + sleep
      ensures sleep > 0.0 ==> old(lastStarted).Some? && a.now + sleep == old(lastStarted).value + minimumInterval
      ensures old(lastStarted).Some? ==> a.now + sleep - old(lastStarted).value >= minimumInterval
    {
      sleep := 0.0;
      if lastStarted.Some? {
        var remaining := minimumInterval - (a.now - lastStarted.value);
        if remaining > 0.0 { sleep := remaining; }
      }
      lastStarted := Some(a.started);
      starts := starts + [a.started];
    }

    /** `__call__`: retry only retryable failures, at most `maxAttempts` attempts, each one recorded. */
    method Call(world: seq<Attempt>) returns (used: nat, outcome: Outcome)
      requires Valid() && |world| >= maxAttempts && Fair(lastStarted, minimumInterval, world)
      modifies this
      ensures Valid() && 1 <= used <= maxAttempts
      ensures starts == old(starts) + Starts(world[..used])
      ensures outcome == OutcomeOf(world[used - 1].reply)
      ensures (outcome.Returned? <==> world[used - 1].reply.Success?) && (outcome.RaisedFatal? <==> world[used - 1].reply.Fatal?)
      ensures forall i | 0 <= i < used - 1 :: world[i].reply.Retryable?
      ensures outcome.RaisedRetryable? ==> used == maxAttempts
    {
      used, outcome := 0, RaisedRetryable;
      ghost var before := starts;
      assert world[0..] == world && before + Starts(world[..0]) == before;
      while used < maxAttempts
        invariant Valid() && 0 <= used <= maxAttempts && outcome == RaisedRetryable
        invariant Fair(lastStarted, minimumInterval, world[used..])
        invariant starts == before + Starts(world[..used])
        invariant forall i | 0 <= i < used :: world[i].reply.Retryable?
      {
        assert world[used..][0] == world[used] && world[used..][1..] == world[used + 1..];
        hide Spaced;
        StartsGrow(world, used);
        var _ := BeginAttempt(world[used]);
        used := used + 1;
        if !world[used - 1].reply.Retryable? { return used, OutcomeOf(world[used - 1].reply); }
      }
    }

    /** Over all calls and retries, k consecutive attempts take at least (k-1) * 60 / rpm seconds. */
    lemma RateBound(first: nat, k: nat)
      requires Valid() && k >= 1 && first + k <= |starts|
      ensures starts[first + k - 1] - starts[first] >= (k - 1) as real * (60.0 / requestsPerMinute)
    {
      SpacedSpan(starts, minimumInterval, first, first + k - 1);
    }
  }

  lemma {:induction false} StartsGrow(world: seq<Attempt>, n: nat)
    requires n < |world|
    ensures Starts(world[..n + 1]) == Starts(world[..n]) + [world[n].started]
  {
    if n > 0 {
      assert world[..n + 1][1..] == world[1..][..n] && world[..n][1..] == world[1..][..n - 1];
      StartsGrow(world[1..], n - 1);
    }
  }
}
