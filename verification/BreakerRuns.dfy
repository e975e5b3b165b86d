// How the circuit breaker holds up the verifications of one Upload call: over
// whole runs of UploadRun, from the events alone.
module BreakerRuns {
  import opened CircuitBreaker
  import opened UploadRun
  import V = ChunkVerifier

  // What the verifications of the pipeline have reported to the breaker, in
  // order. Mismatches, aborts and the retry rounds report nothing.
  function Reports(run: seq<Event>): seq<Outcome> {
    if run == [] then []
    else Report(run[0]) + Reports(run[1..])
  }

  function Report(e: Event): seq<Outcome> {
    match e
    case Verify(Pass(_, _, at)) => [Success(at)]
    case Verify(Transient(_, at)) => [Failure(at)]
    case _ => []
  }

  // The breaker is open: the reports end in n >= 3 failures, and the third of
  // these came less than 30 seconds ago.
  ghost predicate Open(reports: seq<Outcome>, now: int) {
    exists n: nat :: 3 <= n <= |reports| && Trailing(reports, n) && now < reports[|reports| - n + 2].at + 30_000
  }

  ghost predicate Trailing(reports: seq<Outcome>, n: nat)
    requires n <= |reports|
  {
    && (forall k: nat | |reports| - n <= k < |reports| :: reports[k].Failure?)
    && (n < |reports| ==> reports[|reports| - n - 1].Success?)
  }

  predicate Looks(e: Event) {
    e.Verify? && e.f.CheckBreaker?
  }

  lemma TrailingIsStreak(reports: seq<Outcome>, n: nat)
    requires n <= |reports| && Trailing(reports, n)
    ensures n == Streak(reports)
  {
    StreakBounds(reports);
    var m := Streak(reports);
  }

  lemma OpenIff(reports: seq<Outcome>, now: int)
    ensures WaitAt(reports, now) > 0 <==> Open(reports, now)
  {
    StreakBounds(reports);
    var m := Streak(reports);
    assert Trailing(reports, m);
    if m >= 3 {
      TripTimeIsThresholdFailure(reports);
    }
    forall n: nat | n <= |reports| && Trailing(reports, n) ensures n == m {
      TrailingIsStreak(reports, n);
    }
  }

  lemma {:induction false} Split(c: Config, s: State, before: seq<Event>, after: seq<Event>)
    requires Valid(c, s, before + after)
    ensures Valid(c, s, before) && Valid(c, Exec(c, s, before), after)
    ensures Exec(c, s, before + after) == Exec(c, Exec(c, s, before), after)
    decreases |before|
  {
    if before == [] {
      assert before + after == after;
    } else {
      assert (before + after)[1..] == before[1..] + after;
      Split(c, Apply(c, s, before[0]), before[1..], after);
    }
  }

  predicate SameBreaker(s: State, t: State) {
    t.v.consumer == s.v.consumer && t.v.outcomes == s.v.outcomes
  }

  lemma GoroutineLeavesBreaker(c: Config, s: State, u: UploadEvent)
    requires UploadEnabled(c, s, u) && GoroutineEvent(u)
    ensures SameBreaker(s, ApplyUpload(c, s, u))
  {
  }

  lemma MainLeavesBreaker(c: Config, s: State, u: UploadEvent)
    requires UploadEnabled(c, s, u) && !GoroutineEvent(u)
    ensures SameBreaker(s, ApplyUpload(c, s, u))
  {
  }

  lemma FinishLeavesBreaker(s: State, x: FinishEvent)
    requires FinishEnabled(s, x)
    ensures SameBreaker(s, ApplyFinish(s, x))
  {
  }

  // Only the verifier's own events concern the consumer and the breaker.
  lemma OtherEvents(c: Config, s: State, e: Event)
    requires Enabled(c, s, e) && !e.Verify?
    ensures SameBreaker(s, Apply(c, s, e))
  {
    match e {
      case Upload(u) =>
        if GoroutineEvent(u) { GoroutineLeavesBreaker(c, s, u); } else { MainLeavesBreaker(c, s, u); }
      case Finish(x) => FinishLeavesBreaker(s, x);
      case Cancel =>
    }
  }

  lemma StepReports(c: Config, s: State, e: Event)
    requires Enabled(c, s, e)
    ensures Apply(c, s, e).v.outcomes == s.v.outcomes + Report(e)
  {
    if !e.Verify? {
      OtherEvents(c, s, e);
    }
  }

  lemma Associative(a: seq<Outcome>, b: seq<Outcome>, c: seq<Outcome>)
    ensures a + b + c == a + (b + c) && a + [] == a
  {
  }

  lemma {:induction false} OutcomesAreReports(c: Config, s: State, run: seq<Event>)
    requires Valid(c, s, run)
    ensures Exec(c, s, run).v.outcomes == s.v.outcomes + Reports(run)
    decreases |run|
  {
    if run != [] {
      var t := Apply(c, s, run[0]);
      StepReports(c, s, run[0]);
      OutcomesAreReports(c, t, run[1..]);
      Associative(s.v.outcomes, Report(run[0]), Reports(run[1..]));
    }
  }

  predicate Cooling(k: V.Consumer) {
    k.CoolingDown? || k.Cleared? || k.Exited?
  }

  lemma ConsumerStep(c: Config, s: State, e: Event)
    requires Enabled(c, s, e) && Cooling(s.v.consumer) && !Looks(e) && e != Verify(V.Dispatch)
    ensures var (k, k') := (s.v.consumer, Apply(c, s, e).v.consumer);
      && Cooling(k')
      && (e == Verify(V.WaitOver) ==> k.CoolingDown? && k'.Cleared?)
      && (e != Verify(V.WaitOver) ==> k' == k || k'.Exited?)
      && (k.Exited? ==> k'.Exited?)
  {
    if !e.Verify? {
      OtherEvents(c, s, e);
    }
  }

  // Having looked at the breaker, the consumer goes on to dispatch after a wait
  // exactly if it began one.
  lemma {:induction false} WaitsOnce(c: Config, s: State, run: seq<Event>)
    requires Valid(c, s, run) && Cooling(s.v.consumer)
    requires forall e | e in run :: !Looks(e) && e != Verify(V.Dispatch)
    ensures s.v.consumer.Exited? ==> Exec(c, s, run).v.consumer.Exited?
    ensures Exec(c, s, run).v.consumer.Cleared? ==> (Verify(V.WaitOver) in run <==> s.v.consumer.CoolingDown?)
    decreases |run|
  {
    if run != [] {
      assert run[0] in run && run == [run[0]] + run[1..];
      ConsumerStep(c, s, run[0]);
      WaitsOnce(c, Apply(c, s, run[0]), run[1..]);
    }
  }

  lemma LookThenWait(c: Config, s: State, now: int, during: seq<Event>)
    requires Enabled(c, s, Verify(V.CheckBreaker(now)))
    requires Valid(c, Apply(c, s, Verify(V.CheckBreaker(now))), during)
    requires Exec(c, Apply(c, s, Verify(V.CheckBreaker(now))), during).v.consumer.Cleared?
    requires forall e | e in during :: !Looks(e) && e != Verify(V.Dispatch)
    ensures Verify(V.WaitOver) in during <==> Open(s.v.outcomes, now)
  {
    OpenIff(s.v.outcomes, now);
    WaitsOnce(c, Apply(c, s, Verify(V.CheckBreaker(now))), during);
  }

  lemma ReachedReports(c: Config, run: seq<Event>)
    requires Valid(c, Init(c), run)
    ensures Exec(c, Init(c), run).v.outcomes == Reports(run)
  {
    OutcomesAreReports(c, Init(c), run);
  }

  lemma DispatchWaitsIffOpen(c: Config, before: seq<Event>, now: int, during: seq<Event>)
    requires Valid(c, Init(c), before + [Verify(V.CheckBreaker(now))] + during)
    requires Exec(c, Init(c), before + [Verify(V.CheckBreaker(now))] + during).v.consumer.Cleared?
    requires forall e | e in during :: !Looks(e) && e != Verify(V.Dispatch)
    ensures Verify(V.WaitOver) in during <==> Open(Reports(before), now)
  {
    var look := [Verify(V.CheckBreaker(now))];
    assert before + look + during == before + (look + during);
    Split(c, Init(c), before, look + during);
    Split(c, Exec(c, Init(c), before), look, during);
    ReachedReports(c, before);
    LookThenWait(c, Exec(c, Init(c), before), now, during);
  }

  predicate Looked(k: V.Consumer) {
    k.CoolingDown? || k.Cleared?
  }

  lemma LookedStep(c: Config, s: State, e: Event)
    requires Enabled(c, s, e) && Looked(Apply(c, s, e).v.consumer) && !Looks(e)
    ensures Looked(s.v.consumer) && e != Verify(V.Dispatch)
  {
    if !e.Verify? {
      OtherEvents(c, s, e);
    }
  }

  lemma {:induction false} LastLook(c: Config, run: seq<Event>) returns (i: nat)
    requires Valid(c, Init(c), run)
    requires Looked(Exec(c, Init(c), run).v.consumer)
    ensures i < |run| && Looks(run[i])
    ensures forall j: nat | i < j < |run| :: !Looks(run[j]) && run[j] != Verify(V.Dispatch)
    decreases |run|
  {
    assert run != [];
    var n := |run| - 1;
    var before, e := run[..n], run[n];
    assert run == before + [e];
    Split(c, Init(c), before, [e]);
    var s := Exec(c, Init(c), before);
    assert Exec(c, s, [e]) == Apply(c, s, e);
    if Looks(e) {
      i := n;
    } else {
      LookedStep(c, s, e);
      i := LastLook(c, before);
    }
  }

  // Before each dispatch the consumer has looked at the breaker, and there was a
  // cooldown in between exactly if the breaker was open then.
  lemma BreakerGatesDispatch(c: Config, run: seq<Event>) returns (i: nat)
    requires Valid(c, Init(c), run + [Verify(V.Dispatch)])
    ensures i < |run| && Looks(run[i])
    ensures forall j: nat | i < j < |run| :: !Looks(run[j]) && run[j] != Verify(V.Dispatch)
    ensures Verify(V.WaitOver) in run[i + 1..] <==> Open(Reports(run[..i]), run[i].f.now)
  {
    Split(c, Init(c), run, [Verify(V.Dispatch)]);
    i := LastLook(c, run);
    var before, during := run[..i], run[i + 1..];
    assert run == before + [run[i]] + during;
    forall e | e in during ensures !Looks(e) && e != Verify(V.Dispatch) {
      var k :| 0 <= k < |during| && during[k] == e;
      assert e == run[i + 1 + k];
    }
    DispatchWaitsIffOpen(c, before, run[i].f.now, during);
  }
}
