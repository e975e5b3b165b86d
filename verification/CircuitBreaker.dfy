// The verification circuit breaker of internal/service/verify_circuit_breaker.go.
module CircuitBreaker {
  import opened Prelude

  const FAILURE_THRESHOLD := 3   // VerifyCBFailureThreshold
  const COOLDOWN := 30_000       // VerifyCBCooldownDuration, in milliseconds

  // What one verification reported, and when.
  datatype Outcome = Success(at: int) | Failure(at: int)

  // The length of the run of failures a history ends with.
  function Streak(history: seq<Outcome>): nat {
    if history == [] || history[|history| - 1].Success? then 0
    else 1 + Streak(history[..|history| - 1])
  }

  // When the current run of failures reached the threshold.
  function TripTime(history: seq<Outcome>): int
    requires Streak(history) >= FAILURE_THRESHOLD
  {
    var last := |history| - 1;
    if Streak(history) == FAILURE_THRESHOLD then history[last].at else TripTime(history[..last])
  }

  lemma {:induction false} StreakBounds(history: seq<Outcome>)
    ensures Streak(history) <= |history|
    ensures forall k: nat | |history| - Streak(history) <= k < |history| :: history[k].Failure?
    ensures Streak(history) < |history| ==> history[|history| - Streak(history) - 1].Success?
  {
    if history != [] && history[|history| - 1].Failure? {
      StreakBounds(history[..|history| - 1]);
    }
  }

  // TripTime is the time of failure number FAILURE_THRESHOLD of the run.
  lemma {:induction false} TripTimeIsThresholdFailure(history: seq<Outcome>)
    requires Streak(history) >= FAILURE_THRESHOLD
    ensures Streak(history) <= |history|
    ensures TripTime(history) == history[|history| - Streak(history) + FAILURE_THRESHOLD - 1].at
  {
    StreakBounds(history);
    if Streak(history) > FAILURE_THRESHOLD {
      TripTimeIsThresholdFailure(history[..|history| - 1]);
    }
  }

  // How long a caller that looks at time `now` has to wait: not at all while the
  // breaker is closed, otherwise until COOLDOWN after it tripped.
  function WaitAt(history: seq<Outcome>, now: int): nat {
    if Streak(history) < FAILURE_THRESHOLD then 0 else Max(0, TripTime(history) + COOLDOWN - now)
  }

  // A failure leaves the wait of an open breaker alone, and opens a closed one
  // exactly when it is the third of its run.
  lemma FailureWait(history: seq<Outcome>, at: int, now: int)
    ensures var after := history + [Failure(at)];
      WaitAt(after, now) == if Streak(history) + 1 == FAILURE_THRESHOLD then Max(0, at + COOLDOWN - now)
                            else WaitAt(history, now)
  {
    assert (history + [Failure(at)])[..|history|] == history;
  }

  class VerifyCircuitBreaker {
    var consecutiveFailures: nat
    var tripped: bool
    var lastTrippedAt: int
    ghost var history: seq<Outcome>

    // The fields are a summary of the history: the breaker is tripped exactly
    // while the last FAILURE_THRESHOLD or more outcomes are failures, and it
    // remembers when that began.
    ghost predicate Valid()
      reads this
    {
      && consecutiveFailures == Streak(history)
      && (tripped <==> Streak(history) >= FAILURE_THRESHOLD)
      && (tripped ==> lastTrippedAt == TripTime(history))
    }

    constructor ()
      ensures Valid() && history == []
    {
      consecutiveFailures, tripped, lastTrippedAt, history := 0, false, 0, [];
    }

    method RecordSuccess(now: int)
      requires Valid()
      modifies this
      ensures Valid() && history == old(history) + [Success(now)]
      ensures !tripped && consecutiveFailures == 0
    {
      consecutiveFailures := 0;
      history := history + [Success(now)];
      if tripped {
        tripped := false;
      }
    }

    method RecordFailure(now: int)
      requires Valid()
      modifies this
      ensures Valid() && history == old(history) + [Failure(now)]
      ensures consecutiveFailures == old(consecutiveFailures) + 1
      ensures tripped && !old(tripped) ==> consecutiveFailures == FAILURE_THRESHOLD && lastTrippedAt == now
    {
      assert (history + [Failure(now)])[..|history|] == history;
      consecutiveFailures := consecutiveFailures + 1;
      history := history + [Failure(now)];
      if consecutiveFailures >= FAILURE_THRESHOLD && !tripped {
        tripped := true;
        lastTrippedAt := now;
      }
    }

    // What is left of the cooldown.
    method RemainingWait(now: int) returns (wait: nat)
      requires Valid()
      ensures wait == WaitAt(history, now)
    {
      if !tripped {
        return 0;
      }
      var remaining := COOLDOWN - (now - lastTrippedAt);
      wait := if remaining <= 0 then 0 else remaining;
    }

    // Blocks until the cooldown is over or the context, which is done from
    // `doneAt` on if at all, ends the wait. When both happen at once either may
    // be seen. Without a wait the context is not looked at.
    method WaitIfTripped(now: int, doneAt: Option<int>) returns (ok: bool, until: int)
      requires Valid()
      ensures ok ==> until == now + WaitAt(history, now)
      ensures ok ==> Streak(history) < FAILURE_THRESHOLD || until >= TripTime(history) + COOLDOWN
      ensures ok && WaitAt(history, now) > 0 ==> doneAt.None? || doneAt.value >= until
      ensures !ok ==> doneAt.Some? && until == Max(now, doneAt.value)
      ensures !ok ==> WaitAt(history, now) > 0 && until <= now + WaitAt(history, now)
    {
      var remaining := RemainingWait(now);
      until := now + remaining;
      if remaining == 0 || doneAt.None? || doneAt.value > until {
        return true, until;
      }
      if doneAt.value == until {
        if * {
          return true, until;
        }
      }
      return false, Max(now, doneAt.value);
    }
  }
}
