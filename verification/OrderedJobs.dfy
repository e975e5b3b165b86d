// The ordered worker pool of internal/service/ordered_jobs.go: a feeder hands
// job indices to workers, workers load them concurrently, and one collector
// hands the results to `handle` strictly in input order.
//
// The pool is a step system. Every Event is one atomic action of one
// goroutine; any sequence of enabled events is a run.
module OrderedJobs {
  import opened Prelude

  // The arguments of one call. `handle` transforms the state S of the sink the
  // results go to (the writer, the progress counters) and may fail.
  datatype Config<!J, !R, !S, !E> = Config(
    jobs: seq<J>,
    parallelism: int,
    handle: (S, J, R) -> (S, Option<E>),
    initial: S,
    ctxError: E)

  datatype Worker<+R> =
    | Idle
    | Loading(job: nat)
    | Sending(job: nat, value: R)
    | Exited

  datatype Collector = Receiving | Draining | Returned

  datatype State<+R, +S, +E> = State(
    fed: nat,                  // jobs 0..fed-1 have been handed to workers
    jobsClosed: bool,          // jobCh is closed
    workers: seq<Worker<R>>,
    queue: seq<(nat, R)>,      // resultCh
    closed: bool,              // resultCh is closed
    groupErr: Option<E>,       // first error of the errgroup
    cancelled: bool,           // cancel() was called after a handle error
    ctxDone: bool,             // the caller's context is done
    collector: Collector,
    pending: map<nat, R>,
    nextIndex: nat,
    sink: S,
    calls: nat,                // how often handle has been called
    handleErr: Option<E>,
    result: Option<E>,         // what the call returned, once Returned
    loaded: map<nat, R>,       // history: what each finished load produced
    failed: map<nat, E>)       // history: what each failed load reported

  datatype Event<+R, +E> =
    | Feed(w: nat)
    | FeedDone
    | FeedAbort
    | LoadOk(w: nat, value: R)
    | LoadFail(w: nat, error: E)
    | Send(w: nat)
    | SendAbort(w: nat)
    | WorkerStop(w: nat)
    | CloseResults
    | Receive
    | DrainNext
    | DrainDone
    | Return
    | CancelCtx

  function Parallelism<J, R, S, E>(c: Config<J, R, S, E>): int {
    Max(Min(c.parallelism, |c.jobs|), 1)
  }

  // A call without jobs returns nil at once.
  function Init<J, R, S, E>(c: Config<J, R, S, E>): State<R, S, E> {
    var none := |c.jobs| == 0;
    State(0, none, seq(Parallelism(c), _ => if none then Exited else Idle), [], none, None, false, false,
          if none then Returned else Receiving, map[], 0, c.initial, 0, None, None, map[], map[])
  }

  // The errgroup's context ends with the first group error, with cancel() and
  // with the caller's context.
  predicate GroupDone<R, S, E>(s: State<R, S, E>) {
    s.groupErr.Some? || s.cancelled || s.ctxDone
  }

  function FirstError<E>(current: Option<E>, next: E): Option<E> {
    if current.Some? then current else Some(next)
  }

  predicate At<R, S, E>(s: State<R, S, E>, w: nat) {
    w < |s.workers|
  }

  predicate Enabled<J, R, S, E>(c: Config<J, R, S, E>, s: State<R, S, E>, e: Event<R, E>) {
    match e
    case Feed(w) => !s.jobsClosed && s.fed < |c.jobs| && At(s, w) && s.workers[w].Idle?
    case FeedDone => !s.jobsClosed && s.fed >= |c.jobs|
    case FeedAbort => !s.jobsClosed && s.fed < |c.jobs| && GroupDone(s)
    case LoadOk(w, _) => At(s, w) && s.workers[w].Loading?
    case LoadFail(w, _) => At(s, w) && s.workers[w].Loading?
    case Send(w) => At(s, w) && s.workers[w].Sending? && !s.closed && |s.queue| < Parallelism(c)
    case SendAbort(w) => At(s, w) && s.workers[w].Sending? && GroupDone(s)
    case WorkerStop(w) => At(s, w) && s.workers[w].Idle? && s.jobsClosed
    case CloseResults =>
      !s.closed && s.jobsClosed && forall w | 0 <= w < |s.workers| :: s.workers[w].Exited?
    case Receive => s.collector.Receiving? && s.queue != []
    case DrainNext => s.collector.Draining? && s.nextIndex in s.pending && s.nextIndex < |c.jobs|
    case DrainDone => s.collector.Draining? && s.nextIndex !in s.pending
    case Return => s.collector.Receiving? && s.queue == [] && s.closed
    case CancelCtx => !s.ctxDone
  }

  /******* The sequential reference *******/

  datatype Loop<+S, +E> = Loop(sink: S, err: Option<E>, calls: nat)

  // One turn of the plain loop, which does nothing after the first error.
  function HandOver<J, R, S, E>(c: Config<J, R, S, E>, l: Loop<S, E>, job: J, value: R): Loop<S, E> {
    if l.err.Some? then l
    else
      var (sink, err) := c.handle(l.sink, job, value);
      Loop(sink, err, l.calls + 1)
  }

  // The plain loop: hand values[0], values[1], ... to handle and stop at the
  // first error.
  function Sequential<J, R, S, E>(c: Config<J, R, S, E>, values: seq<R>): Loop<S, E>
    requires |values| <= |c.jobs|
  {
    if values == [] then Loop(c.initial, None, 0)
    else
      var k := |values| - 1;
      HandOver(c, Sequential(c, values[..k]), c.jobs[k], values[k])
  }

  /******* The effect of each action *******/

  function Fed<R, S, E>(s: State<R, S, E>, w: nat): State<R, S, E>
    requires At(s, w)
  {
    s.(fed := s.fed + 1, workers := s.workers[w := Loading(s.fed)])
  }

  // A group goroutine returns its context's error.
  function Aborted<J, R, S, E>(c: Config<J, R, S, E>, s: State<R, S, E>): State<R, S, E> {
    s.(groupErr := FirstError(s.groupErr, c.ctxError))
  }

  function Loaded<R, S, E>(s: State<R, S, E>, w: nat, v: R): State<R, S, E>
    requires At(s, w) && s.workers[w].Loading?
  {
    var i := s.workers[w].job;
    s.(workers := s.workers[w := Sending(i, v)], loaded := s.loaded[i := v])
  }

  function LoadFailed<R, S, E>(s: State<R, S, E>, w: nat, x: E): State<R, S, E>
    requires At(s, w) && s.workers[w].Loading?
  {
    var i := s.workers[w].job;
    s.(workers := s.workers[w := Exited], groupErr := FirstError(s.groupErr, x), failed := s.failed[i := x])
  }

  function Sent<R, S, E>(s: State<R, S, E>, w: nat): State<R, S, E>
    requires At(s, w) && s.workers[w].Sending?
  {
    s.(workers := s.workers[w := Idle], queue := s.queue + [(s.workers[w].job, s.workers[w].value)])
  }

  function Stopped<R, S, E>(s: State<R, S, E>, w: nat): State<R, S, E>
    requires At(s, w)
  {
    s.(workers := s.workers[w := Exited])
  }

  function Received<R, S, E>(s: State<R, S, E>): State<R, S, E>
    requires s.queue != []
  {
    s.(queue := s.queue[1..], pending := s.pending[s.queue[0].0 := s.queue[0].1], collector := Draining)
  }

  // One pass of the collector's inner loop: unpark the next result and, while
  // no handle call has failed, hand it over; a failure cancels the work.
  function Drained<J, R, S, E>(c: Config<J, R, S, E>, s: State<R, S, E>): State<R, S, E>
    requires s.nextIndex in s.pending && s.nextIndex < |c.jobs|
  {
    var l := HandOver(c, Loop(s.sink, s.handleErr, s.calls), c.jobs[s.nextIndex], s.pending[s.nextIndex]);
    s.(pending := s.pending - {s.nextIndex}, nextIndex := s.nextIndex + 1,
       sink := l.sink, calls := l.calls, handleErr := l.err, cancelled := s.cancelled || l.err.Some?)
  }

  function ReturnValue<J, R, S, E>(c: Config<J, R, S, E>, s: State<R, S, E>): Option<E> {
    if s.handleErr.Some? then s.handleErr
    else if s.groupErr.Some? then s.groupErr
    else if s.ctxDone then Some(c.ctxError)
    else None
  }

  function Apply<J, R, S, E>(c: Config<J, R, S, E>, s: State<R, S, E>, e: Event<R, E>): State<R, S, E>
    requires Enabled(c, s, e)
  {
    match e
    case Feed(w) => Fed(s, w)
    case FeedDone => s.(jobsClosed := true)
    case FeedAbort => Aborted(c, s).(jobsClosed := true)
    case LoadOk(w, v) => Loaded(s, w, v)
    case LoadFail(w, x) => LoadFailed(s, w, x)
    case Send(w) => Sent(s, w)
    case SendAbort(w) => Stopped(Aborted(c, s), w)
    case WorkerStop(w) => Stopped(s, w)
    case CloseResults => s.(closed := true)
    case Receive => Received(s)
    case DrainNext => Drained(c, s)
    case DrainDone => s.(collector := Receiving)
    case Return => s.(collector := Returned, result := ReturnValue(c, s))
    case CancelCtx => s.(ctxDone := true)
  }

  predicate Valid<J, R, S, E>(c: Config<J, R, S, E>, s: State<R, S, E>, run: seq<Event<R, E>>)
    decreases |run|
  {
    run == [] || (Enabled(c, s, run[0]) && Valid(c, Apply(c, s, run[0]), run[1..]))
  }

  function Exec<J, R, S, E>(c: Config<J, R, S, E>, s: State<R, S, E>, run: seq<Event<R, E>>): State<R, S, E>
    requires Valid(c, s, run)
    decreases |run|
  {
    if run == [] then s else Exec(c, Apply(c, s, run[0]), run[1..])
  }

  predicate AllLoaded<R>(loaded: map<nat, R>, k: nat) {
    forall i: nat | i < k :: i in loaded
  }

  // What the first k loads produced, in job order.
  function Values<R>(loaded: map<nat, R>, k: nat): (vs: seq<R>)
    requires AllLoaded(loaded, k)
    ensures |vs| == k && forall i: nat | i < k :: vs[i] == loaded[i]
  {
    seq(k, i requires 0 <= i < k => loaded[i])
  }

  /******* Invariant *******/

  predicate Active<R>(w: Worker<R>) {
    w.Loading? || w.Sending?
  }

  ghost predicate InWorkers<R, S, E>(s: State<R, S, E>, i: nat) {
    exists w: nat :: w < |s.workers| && Active(s.workers[w]) && s.workers[w].job == i
  }

  ghost predicate InQueue<R, S, E>(s: State<R, S, E>, i: nat) {
    exists q: nat :: q < |s.queue| && s.queue[q].0 == i
  }

  // Every active worker has its own job, which is nowhere else.
  ghost predicate WorkersOk<R, S, E>(s: State<R, S, E>) {
    && (forall w: nat | w < |s.workers| && Active(s.workers[w]) ::
          && s.nextIndex <= s.workers[w].job < s.fed
          && s.workers[w].job !in s.pending
          && !InQueue(s, s.workers[w].job))
    && (forall w: nat, x: nat | w < x < |s.workers| && Active(s.workers[w]) && Active(s.workers[x]) ::
          s.workers[w].job != s.workers[x].job)
    && (forall w: nat | w < |s.workers| && s.workers[w].Loading? ::
          s.workers[w].job !in s.loaded && s.workers[w].job !in s.failed)
    && (forall w: nat | w < |s.workers| && s.workers[w].Sending? ::
          s.workers[w].job in s.loaded && s.loaded[s.workers[w].job] == s.workers[w].value)
  }

  ghost predicate QueueOk<R, S, E>(s: State<R, S, E>) {
    && (forall q: nat | q < |s.queue| ::
          && s.nextIndex <= s.queue[q].0 < s.fed
          && s.queue[q].0 !in s.pending
          && s.queue[q].0 in s.loaded && s.loaded[s.queue[q].0] == s.queue[q].1)
    && (forall q: nat, p: nat | q < p < |s.queue| :: s.queue[q].0 != s.queue[p].0)
  }

  ghost predicate PendingOk<R, S, E>(s: State<R, S, E>) {
    && (forall i | i in s.pending :: s.nextIndex <= i < s.fed && i in s.loaded && s.loaded[i] == s.pending[i])
    && (!s.collector.Draining? ==> s.nextIndex !in s.pending)
  }

  // While no goroutine has failed, no job has been lost.
  ghost predicate NothingLost<R, S, E>(s: State<R, S, E>) {
    s.groupErr.None? ==>
      forall i: nat | s.nextIndex <= i < s.fed :: i in s.pending || InQueue(s, i) || InWorkers(s, i)
  }

  ghost predicate Places<R, S, E>(s: State<R, S, E>) {
    && s.nextIndex <= s.fed
    && (forall i | i in s.loaded :: i < s.fed)
    && (forall i | i in s.failed :: i < s.fed)
    && WorkersOk(s) && QueueOk(s) && PendingOk(s) && NothingLost(s)
  }

  ghost predicate GroupOk<J, R, S, E>(c: Config<J, R, S, E>, s: State<R, S, E>) {
    && |s.workers| == Parallelism(c) && |s.queue| <= Parallelism(c)
    && s.fed <= |c.jobs|
    && (s.jobsClosed && s.groupErr.None? ==> s.fed == |c.jobs|)
    && (forall w: nat | w < |s.workers| && s.workers[w].Exited? :: s.jobsClosed || s.groupErr.Some?)
    && (s.closed ==> s.jobsClosed && forall w: nat | w < |s.workers| :: s.workers[w].Exited?)
    && (s.cancelled <==> s.handleErr.Some?)
  }

  ghost predicate LoadFailedWith<R, S, E>(s: State<R, S, E>, error: E) {
    exists i: nat :: i in s.failed && s.failed[i] == error
  }

  // The group error is a failed load's own error, or the context error after
  // the work was cancelled.
  ghost predicate GroupErrOk<J, R, S, E>(c: Config<J, R, S, E>, s: State<R, S, E>) {
    s.groupErr.Some? ==>
      || LoadFailedWith(s, s.groupErr.value)
      || ((s.cancelled || s.ctxDone) && s.groupErr.value == c.ctxError)
  }

  // The collector has done exactly what the sequential loop does on the first
  // nextIndex loaded values.
  ghost predicate Refines<J, R, S, E>(c: Config<J, R, S, E>, s: State<R, S, E>) {
    && s.nextIndex <= |c.jobs|
    && AllLoaded(s.loaded, s.nextIndex)
    && Loop(s.sink, s.handleErr, s.calls) == Sequential(c, Values(s.loaded, s.nextIndex))
  }

  ghost predicate ReturnOk<J, R, S, E>(c: Config<J, R, S, E>, s: State<R, S, E>) {
    s.collector.Returned? ==>
      && s.closed && s.queue == []
      && (s.handleErr.Some? ==> s.result == s.handleErr)
      && (s.handleErr.None? && s.groupErr.Some? ==> s.result == s.groupErr)
      && (s.handleErr.None? && s.groupErr.None? && s.result.Some? ==> s.ctxDone && s.result == Some(c.ctxError))
  }

  ghost predicate Control<J, R, S, E>(c: Config<J, R, S, E>, s: State<R, S, E>) {
    GroupOk(c, s) && GroupErrOk(c, s) && ReturnOk(c, s)
  }

  ghost predicate Inv<J, R, S, E>(c: Config<J, R, S, E>, s: State<R, S, E>) {
    Places(s) && Control(c, s) && Refines(c, s)
  }

  lemma InitInv<J, R, S, E>(c: Config<J, R, S, E>)
    ensures Inv(c, Init(c))
  {
  }

  /******* Where the jobs are *******/

  // Jobs stay where they are when workers and queues do not change.
  lemma SamePlaces<R, S, E>(s: State<R, S, E>, t: State<R, S, E>)
    requires Places(s)
    requires t.workers == s.workers && t.queue == s.queue && t.pending == s.pending && t.fed == s.fed
    requires t.nextIndex == s.nextIndex && t.loaded == s.loaded && t.failed == s.failed
    requires t.groupErr.None? ==> s.groupErr.None?
    requires t.collector.Draining? || s.nextIndex !in s.pending
    ensures Places(t)
  {
    assert forall i: nat :: InQueue(t, i) == InQueue(s, i);
    assert forall i: nat :: InWorkers(t, i) == InWorkers(s, i);
  }

  // An active worker other than w keeps its job when worker w changes.
  lemma OtherWorkersKept<R, S, E>(s: State<R, S, E>, t: State<R, S, E>, w: nat)
    requires At(s, w) && |t.workers| == |s.workers|
    requires forall x: nat | x < |s.workers| && x != w :: t.workers[x] == s.workers[x]
    ensures forall i: nat | InWorkers(s, i) && !(Active(s.workers[w]) && s.workers[w].job == i) :: InWorkers(t, i)
  {
    forall i: nat | InWorkers(s, i) && !(Active(s.workers[w]) && s.workers[w].job == i)
      ensures InWorkers(t, i)
    {
      var x: nat :| x < |s.workers| && Active(s.workers[x]) && s.workers[x].job == i;
      assert t.workers[x] == s.workers[x];
    }
  }

  lemma FeedPlaces<R, S, E>(s: State<R, S, E>, w: nat)
    requires Places(s) && At(s, w) && s.workers[w].Idle?
    ensures Places(Fed(s, w))
  {
    var t := Fed(s, w);
    assert forall i: nat :: InQueue(t, i) == InQueue(s, i);
    assert t.workers[w].job == s.fed && InWorkers(t, s.fed);
    OtherWorkersKept(s, t, w);
    assert !InQueue(s, s.fed);
  }

  lemma LoadPlaces<R, S, E>(s: State<R, S, E>, w: nat, v: R)
    requires Places(s) && At(s, w) && s.workers[w].Loading?
    ensures Places(Loaded(s, w, v))
  {
    var t := Loaded(s, w, v);
    assert forall i: nat :: InQueue(t, i) == InQueue(s, i);
    OtherWorkersKept(s, t, w);
    assert Active(t.workers[w]) && t.workers[w].job == s.workers[w].job;
    assert InWorkers(t, s.workers[w].job);
  }

  lemma LoadFailPlaces<R, S, E>(s: State<R, S, E>, w: nat, x: E)
    requires Places(s) && At(s, w) && s.workers[w].Loading?
    ensures Places(LoadFailed(s, w, x))
  {
    var t := LoadFailed(s, w, x);
    assert forall i: nat :: InQueue(t, i) == InQueue(s, i);
  }

  lemma SendPlaces<R, S, E>(s: State<R, S, E>, w: nat)
    requires Places(s) && At(s, w) && s.workers[w].Sending?
    ensures Places(Sent(s, w))
  {
    var t := Sent(s, w);
    var job := s.workers[w].job;
    assert t.queue[|s.queue|].0 == job;
    forall i: nat ensures InQueue(t, i) <==> InQueue(s, i) || i == job {
      if InQueue(s, i) {
        var q: nat :| q < |s.queue| && s.queue[q].0 == i;
        assert t.queue[q].0 == i;
      }
    }
    OtherWorkersKept(s, t, w);
  }

  lemma StopPlaces<R, S, E>(s: State<R, S, E>, w: nat)
    requires Places(s) && At(s, w)
    requires (s.workers[w].Sending? && s.groupErr.Some?) || s.workers[w].Idle?
    ensures Places(Stopped(s, w))
  {
    var t := Stopped(s, w);
    assert forall i: nat :: InQueue(t, i) == InQueue(s, i);
    OtherWorkersKept(s, t, w);
  }

  lemma ReceivePlaces<R, S, E>(s: State<R, S, E>)
    requires Places(s) && s.queue != []
    ensures Places(Received(s))
  {
    var t := Received(s);
    forall i: nat ensures InQueue(s, i) <==> InQueue(t, i) || i == s.queue[0].0 {
      if InQueue(s, i) && i != s.queue[0].0 {
        var q: nat :| q < |s.queue| && s.queue[q].0 == i;
        assert t.queue[q - 1].0 == i;
      }
    }
    assert forall i: nat :: InWorkers(t, i) == InWorkers(s, i);
    assert InQueue(s, s.queue[0].0);
  }

  lemma SameHolders<R, S, E>(s: State<R, S, E>, t: State<R, S, E>)
    requires t.workers == s.workers && t.queue == s.queue
    ensures forall i: nat :: InQueue(t, i) == InQueue(s, i)
    ensures forall i: nat :: InWorkers(t, i) == InWorkers(s, i)
  {
  }

  ghost predicate Unparked<R, S, E>(s: State<R, S, E>, t: State<R, S, E>) {
    && s.nextIndex in s.pending
    && t.nextIndex == s.nextIndex + 1 && t.pending == s.pending - {s.nextIndex}
    && t.workers == s.workers && t.queue == s.queue && t.fed == s.fed
    && t.loaded == s.loaded && t.failed == s.failed && t.groupErr == s.groupErr
  }

  lemma DrainWorkers<R, S, E>(s: State<R, S, E>, t: State<R, S, E>)
    requires Places(s) && Unparked(s, t)
    ensures WorkersOk(t)
  {
    SameHolders(s, t);
  }

  lemma DrainQueue<R, S, E>(s: State<R, S, E>, t: State<R, S, E>)
    requires Places(s) && Unparked(s, t)
    ensures QueueOk(t)
  {
  }

  lemma DrainNothingLost<R, S, E>(s: State<R, S, E>, t: State<R, S, E>)
    requires Places(s) && Unparked(s, t)
    ensures NothingLost(t)
  {
    SameHolders(s, t);
  }

  lemma DrainPlaces<R, S, E>(s: State<R, S, E>, t: State<R, S, E>)
    requires Places(s) && Unparked(s, t) && t.collector.Draining?
    ensures Places(t)
  {
    DrainWorkers(s, t);
    DrainQueue(s, t);
    DrainNothingLost(s, t);
  }

  /******* Errors, closing and returning *******/

  lemma GroupErrKept<J, R, S, E>(c: Config<J, R, S, E>, s: State<R, S, E>, t: State<R, S, E>)
    requires GroupErrOk(c, s)
    requires t.failed == s.failed
    requires (s.cancelled ==> t.cancelled) && (s.ctxDone ==> t.ctxDone)
    requires t.groupErr == s.groupErr
      || (s.groupErr.None? && (t.cancelled || t.ctxDone) && t.groupErr == Some(c.ctxError))
    ensures GroupErrOk(c, t)
  {
    if s.groupErr.Some? && LoadFailedWith(s, s.groupErr.value) {
      assert LoadFailedWith(t, s.groupErr.value);
    }
  }

  lemma LoadFailControl<J, R, S, E>(c: Config<J, R, S, E>, s: State<R, S, E>, w: nat, x: E)
    requires Places(s) && Control(c, s) && At(s, w) && s.workers[w].Loading?
    ensures Control(c, LoadFailed(s, w, x))
  {
    var t := LoadFailed(s, w, x);
    var i := s.workers[w].job;
    if s.groupErr.None? {
      assert t.failed[i] == t.groupErr.value;
    } else if LoadFailedWith(s, s.groupErr.value) {
      var k: nat :| k in s.failed && s.failed[k] == s.groupErr.value;
      assert t.failed[k] == t.groupErr.value;
    }
    assert GroupErrOk(c, t);
  }

  ghost predicate WorkerEvent<R, E>(e: Event<R, E>) {
    e.Feed? || e.LoadOk? || e.Send? || e.SendAbort? || e.WorkerStop?
  }

  lemma WorkerControl<J, R, S, E>(c: Config<J, R, S, E>, s: State<R, S, E>, e: Event<R, E>)
    requires Control(c, s) && Enabled(c, s, e) && WorkerEvent(e)
    ensures Control(c, Apply(c, s, e))
  {
    var t := Apply(c, s, e);
    GroupErrKept(c, s, t);
    assert GroupOk(c, t);
  }

  lemma CollectorControl<J, R, S, E>(c: Config<J, R, S, E>, s: State<R, S, E>, e: Event<R, E>)
    requires Control(c, s) && Enabled(c, s, e)
    requires e.Receive? || e.DrainNext? || e.DrainDone? || e.Return?
    ensures Control(c, Apply(c, s, e))
  {
    var t := Apply(c, s, e);
    GroupErrKept(c, s, t);
    assert t.workers == s.workers && GroupOk(c, t);
  }

  lemma StepControl<J, R, S, E>(c: Config<J, R, S, E>, s: State<R, S, E>, e: Event<R, E>)
    requires Control(c, s) && Enabled(c, s, e) && !e.LoadFail?
    ensures Control(c, Apply(c, s, e))
  {
    if WorkerEvent(e) {
      WorkerControl(c, s, e);
    } else if e.Receive? || e.DrainNext? || e.DrainDone? || e.Return? {
      CollectorControl(c, s, e);
    } else {
      var t := Apply(c, s, e);
      GroupErrKept(c, s, t);
      assert t.workers == s.workers && GroupOk(c, t);
    }
  }

  /******* Refinement *******/

  lemma DrainRefines<J, R, S, E>(c: Config<J, R, S, E>, s: State<R, S, E>)
    requires Refines(c, s) && PendingOk(s) && s.nextIndex in s.pending && s.nextIndex < |c.jobs|
    ensures Refines(c, Drained(c, s))
  {
    var vs := Values(s.loaded, s.nextIndex + 1);
    assert vs[..s.nextIndex] == Values(s.loaded, s.nextIndex);
  }

  // Growing the history of loads does not change values already handed over.
  lemma ValuesStable<R>(before: map<nat, R>, after: map<nat, R>, k: nat)
    requires AllLoaded(before, k) && AllLoaded(after, k)
    requires forall i: nat | i < k :: after[i] == before[i]
    ensures Values(after, k) == Values(before, k)
  {
  }

  lemma StepRefines<J, R, S, E>(c: Config<J, R, S, E>, s: State<R, S, E>, e: Event<R, E>)
    requires Places(s) && Refines(c, s) && Enabled(c, s, e)
    ensures Refines(c, Apply(c, s, e))
  {
    var t := Apply(c, s, e);
    if e.DrainNext? {
      DrainRefines(c, s);
    } else {
      ValuesStable(s.loaded, t.loaded, s.nextIndex);
    }
  }

  lemma WorkerStepPlaces<J, R, S, E>(c: Config<J, R, S, E>, s: State<R, S, E>, e: Event<R, E>)
    requires Places(s) && Enabled(c, s, e)
    requires e.Feed? || e.LoadOk? || e.LoadFail? || e.Send? || e.WorkerStop?
    ensures Places(Apply(c, s, e))
  {
    match e {
      case Feed(w) => FeedPlaces(s, w);
      case LoadOk(w, v) => LoadPlaces(s, w, v);
      case LoadFail(w, x) => LoadFailPlaces(s, w, x);
      case Send(w) => SendPlaces(s, w);
      case WorkerStop(w) => StopPlaces(s, w);
    }
  }

  lemma AbortPlaces<J, R, S, E>(c: Config<J, R, S, E>, s: State<R, S, E>, w: nat)
    requires Places(s) && At(s, w) && s.workers[w].Sending?
    ensures Places(Stopped(Aborted(c, s), w))
  {
    SamePlaces(s, Aborted(c, s));
    StopPlaces(Aborted(c, s), w);
  }

  lemma QuietStepPlaces<J, R, S, E>(c: Config<J, R, S, E>, s: State<R, S, E>, e: Event<R, E>)
    requires Places(s) && Enabled(c, s, e)
    requires e.FeedDone? || e.FeedAbort? || e.CloseResults? || e.DrainDone? || e.Return? || e.CancelCtx?
    ensures Places(Apply(c, s, e))
  {
    SamePlaces(s, Apply(c, s, e));
  }

  lemma StepPlaces<J, R, S, E>(c: Config<J, R, S, E>, s: State<R, S, E>, e: Event<R, E>)
    requires Places(s) && Enabled(c, s, e)
    ensures Places(Apply(c, s, e))
  {
    match e {
      case Receive => ReceivePlaces(s);
      case DrainNext => DrainPlaces(s, Drained(c, s));
      case SendAbort(w) => AbortPlaces(c, s, w);
      case Feed(_) => WorkerStepPlaces(c, s, e);
      case LoadOk(_, _) => WorkerStepPlaces(c, s, e);
      case LoadFail(_, _) => WorkerStepPlaces(c, s, e);
      case Send(_) => WorkerStepPlaces(c, s, e);
      case WorkerStop(_) => WorkerStepPlaces(c, s, e);
      case _ => QuietStepPlaces(c, s, e);
    }
  }

  // Every atomic action of every goroutine keeps the invariant.
  lemma Step<J, R, S, E>(c: Config<J, R, S, E>, s: State<R, S, E>, e: Event<R, E>)
    requires Inv(c, s) && Enabled(c, s, e)
    ensures Inv(c, Apply(c, s, e))
  {
    StepPlaces(c, s, e);
    StepRefines(c, s, e);
    if e.LoadFail? {
      LoadFailControl(c, s, e.w, e.error);
    } else {
      StepControl(c, s, e);
    }
  }

  lemma {:induction false} RunInv<J, R, S, E>(c: Config<J, R, S, E>, s: State<R, S, E>, run: seq<Event<R, E>>)
    requires Inv(c, s) && Valid(c, s, run)
    ensures Inv(c, Exec(c, s, run))
    decreases |run|
  {
    if run != [] {
      Step(c, s, run[0]);
      RunInv(c, Apply(c, s, run[0]), run[1..]);
    }
  }

  /******* What a call guarantees *******/

  // In every reachable state of every interleaving the sink is what the plain
  // loop makes of the results of loads 0..nextIndex-1, in that order. A nil
  // return means all jobs were handled without an error; a handle error is
  // returned as is; any other error is a load's own error or, only if the
  // caller's context is done, the context error.
  lemma RefinesSequentialLoop<J, R, S, E>(c: Config<J, R, S, E>, run: seq<Event<R, E>>)
    requires Valid(c, Init(c), run)
    ensures Refines(c, Exec(c, Init(c), run))
    ensures var s := Exec(c, Init(c), run);
      s.collector.Returned? ==>
        && (s.result.None? ==> s.nextIndex == |c.jobs| && s.handleErr.None? && s.calls == |c.jobs|)
        && (s.handleErr.Some? ==> s.result == s.handleErr)
        && (s.handleErr.None? && s.result.Some? ==>
              LoadFailedWith(s, s.result.value) || (s.ctxDone && s.result.value == c.ctxError))
  {
    InitInv(c);
    RunInv(c, Init(c), run);
    var s := Exec(c, Init(c), run);
    if s.collector.Returned? && s.result.None? {
      AllHandled(c, s);
      FirstErrorStops(c, Values(s.loaded, s.nextIndex));
    }
  }

  /******* Which error a call returns *******/

  // What a goroutine of the group fails with, if it does.
  function Failure<J, R, S, E>(c: Config<J, R, S, E>, e: Event<R, E>): Option<E> {
    match e
    case LoadFail(_, x) => Some(x)
    case FeedAbort => Some(c.ctxError)
    case SendAbort(_) => Some(c.ctxError)
    case _ => None
  }

  // The first failure of a run.
  function FirstFailure<J, R, S, E>(c: Config<J, R, S, E>, run: seq<Event<R, E>>): Option<E> {
    if run == [] then None
    else if Failure(c, run[0]).Some? then Failure(c, run[0])
    else FirstFailure(c, run[1..])
  }

  // The caller cancels before the call returns.
  predicate CancelledInTime<R, E>(run: seq<Event<R, E>>) {
    run != [] && !run[0].Return? && (run[0].CancelCtx? || CancelledInTime(run[1..]))
  }

  // A returned call's result, from its handle error, its first failure and its
  // context.
  ghost predicate ReturnedFirst<J, R, S, E>(c: Config<J, R, S, E>, t: State<R, S, E>,
                                            failure: Option<E>, ctxDone: bool)
  {
    t.result == if t.handleErr.Some? then t.handleErr
                else if failure.Some? then failure
                else if ctxDone then Some(c.ctxError)
                else None
  }

  lemma FailureIsKept<J, R, S, E>(c: Config<J, R, S, E>, s: State<R, S, E>, e: Event<R, E>)
    requires Enabled(c, s, e)
    ensures Apply(c, s, e).groupErr == if s.groupErr.Some? then s.groupErr else Failure(c, e)
  {
  }

  // Once a call has returned, nothing but the caller's context changes.
  lemma ReturnedIsQuiet<J, R, S, E>(c: Config<J, R, S, E>, s: State<R, S, E>, e: Event<R, E>)
    requires Inv(c, s) && s.collector.Returned? && Enabled(c, s, e)
    ensures e.CancelCtx?
  {
  }

  lemma {:induction false} QuietRun<J, R, S, E>(c: Config<J, R, S, E>, s: State<R, S, E>, run: seq<Event<R, E>>)
    requires Inv(c, s) && s.collector.Returned? && Valid(c, s, run)
    ensures var t := Exec(c, s, run); t.collector.Returned? && t.result == s.result && t.handleErr == s.handleErr
    ensures FirstFailure(c, run).None?
    decreases |run|
  {
    if run != [] {
      ReturnedIsQuiet(c, s, run[0]);
      Step(c, s, run[0]);
      QuietRun(c, Apply(c, s, run[0]), run[1..]);
    }
  }

  lemma StepTowardsReturn<J, R, S, E>(c: Config<J, R, S, E>, s: State<R, S, E>, e: Event<R, E>)
    requires !s.collector.Returned? && Enabled(c, s, e)
    ensures var t := Apply(c, s, e);
      && t.ctxDone == (s.ctxDone || e.CancelCtx?)
      && (t.collector.Returned? <==> e.Return?)
      && (e.Return? ==> t.handleErr == s.handleErr && Failure(c, e).None? && ReturnedFirst(c, t, s.groupErr, s.ctxDone))
  {
  }

  lemma {:induction false} FirstFailureFrom<J, R, S, E>(c: Config<J, R, S, E>, s: State<R, S, E>,
                                                        run: seq<Event<R, E>>)
    requires Inv(c, s) && !s.collector.Returned? && Valid(c, s, run) && Exec(c, s, run).collector.Returned?
    ensures ReturnedFirst(c, Exec(c, s, run), if s.groupErr.Some? then s.groupErr else FirstFailure(c, run),
                          s.ctxDone || CancelledInTime(run))
    decreases |run|
  {
    var t := Apply(c, s, run[0]);
    Step(c, s, run[0]);
    FailureIsKept(c, s, run[0]);
    StepTowardsReturn(c, s, run[0]);
    if run[0].Return? {
      QuietRun(c, t, run[1..]);
    } else {
      FirstFailureFrom(c, t, run[1..]);
    }
  }

  // The first error wins: without a handle error, a call returns the first
  // failure of its run, whatever failed after it, often because of it; without
  // any failure, nil or the error of a context done before the return.
  lemma FirstFailureIsReturned<J, R, S, E>(c: Config<J, R, S, E>, run: seq<Event<R, E>>)
    requires Valid(c, Init(c), run) && Exec(c, Init(c), run).collector.Returned?
    ensures ReturnedFirst(c, Exec(c, Init(c), run), FirstFailure(c, run), c.jobs != [] && CancelledInTime(run))
  {
    InitInv(c);
    if c.jobs == [] {
      QuietRun(c, Init(c), run);
    } else {
      FirstFailureFrom(c, Init(c), run);
    }
  }

  ghost predicate Failed<J, R, S, E>(c: Config<J, R, S, E>, s: State<R, S, E>, run: seq<Event<R, E>>) {
    s.handleErr.Some? || FirstFailure(c, run).Some? || CancelCtx in run
  }

  lemma {:induction false} FailureStops<J, R, S, E>(c: Config<J, R, S, E>, s: State<R, S, E>, run: seq<Event<R, E>>)
    requires Inv(c, s) && Valid(c, s, run)
    ensures var t := Exec(c, s, run);
      s.groupErr.Some? || s.ctxDone || Failed(c, t, run) ==> t.groupErr.Some? || t.ctxDone || t.cancelled
    decreases |run|
  {
    if run != [] {
      Step(c, s, run[0]);
      FailureIsKept(c, s, run[0]);
      FailureStops(c, Apply(c, s, run[0]), run[1..]);
    }
  }

  // After any failure, of a handle call too, the rest of the work can stop: the
  // feeder need not hand out another job, and no worker has to wait for room.
  lemma ErrorStopsWork<J, R, S, E>(c: Config<J, R, S, E>, run: seq<Event<R, E>>, w: nat)
    requires Valid(c, Init(c), run) && Failed(c, Exec(c, Init(c), run), run)
    ensures var s := Exec(c, Init(c), run);
      && (!s.jobsClosed && s.fed < |c.jobs| ==> Enabled(c, s, FeedAbort))
      && (w < |s.workers| && s.workers[w].Sending? ==> Enabled(c, s, SendAbort(w)))
  {
    InitInv(c);
    RunInv(c, Init(c), run);
    FailureStops(c, Init(c), run);
  }

  // At most `parallelism` loads run at once, and one worker always exists.
  lemma LoadsAreBounded<J, R, S, E>(c: Config<J, R, S, E>, run: seq<Event<R, E>>)
    requires Valid(c, Init(c), run)
    ensures var n := |Exec(c, Init(c), run).workers|;
      && n >= 1
      && (n <= c.parallelism || n == 1) && (n <= |c.jobs| || n == 1)
      && (n >= c.parallelism || n >= |c.jobs|)
  {
    InitInv(c);
    RunInv(c, Init(c), run);
  }

  lemma AllHandled<J, R, S, E>(c: Config<J, R, S, E>, s: State<R, S, E>)
    requires Inv(c, s) && s.collector.Returned? && s.handleErr.None? && s.groupErr.None?
    ensures s.nextIndex == |c.jobs|
  {
    assert !InQueue(s, s.nextIndex);
    assert !InWorkers(s, s.nextIndex);
  }

  // The loop's error is that of the last call it made: no call before it
  // failed and none was made after it.
  lemma {:induction false} FirstErrorStops<J, R, S, E>(c: Config<J, R, S, E>, values: seq<R>)
    requires |values| <= |c.jobs|
    ensures var l := Sequential(c, values);
      && (l.err.None? ==> l.calls == |values|)
      && (l.err.Some? ==> 0 < l.calls <= |values|
                          && Sequential(c, values[..l.calls]) == l
                          && Sequential(c, values[..l.calls - 1]).err.None?)
  {
    if values != [] {
      var k := |values| - 1;
      FirstErrorStops(c, values[..k]);
      var l := Sequential(c, values[..k]);
      if l.err.Some? {
        assert values[..k][..l.calls] == values[..l.calls];
        assert values[..k][..l.calls - 1] == values[..l.calls - 1];
      } else {
        assert values[..|values|] == values;
      }
    }
  }

  /******* Progress and termination *******/

  ghost predicate Internal<R, E>(e: Event<R, E>) {
    !e.CancelCtx?
  }

  // No state but the final one is stuck: if every load that is running can
  // return (here with value r), some goroutine can act.
  lemma Progress<J, R, S, E>(c: Config<J, R, S, E>, s: State<R, S, E>, r: R) returns (e: Event<R, E>)
    requires Inv(c, s) && !s.collector.Returned?
    ensures Enabled(c, s, e) && Internal(e)
  {
    if s.collector.Draining? {
      e := if s.nextIndex in s.pending then DrainNext else DrainDone;
    } else if s.queue != [] {
      e := Receive;
    } else if s.closed {
      e := Return;
    } else if w: nat :| w < |s.workers| && s.workers[w].Loading? {
      e := LoadOk(w, r);
    } else if w: nat :| w < |s.workers| && s.workers[w].Sending? {
      e := Send(w);
    } else if !s.jobsClosed {
      e := FeederProgress(c, s);
    } else if w: nat :| w < |s.workers| && s.workers[w].Idle? {
      e := WorkerStop(w);
    } else {
      e := CloseResults;
    }
  }

  lemma FeederProgress<J, R, S, E>(c: Config<J, R, S, E>, s: State<R, S, E>) returns (e: Event<R, E>)
    requires Control(c, s) && !s.jobsClosed
    requires forall w: nat | w < |s.workers| :: s.workers[w].Idle? || s.workers[w].Exited?
    ensures Enabled(c, s, e) && Internal(e)
  {
    if s.fed >= |c.jobs| {
      e := FeedDone;
    } else if w: nat :| w < |s.workers| && s.workers[w].Idle? {
      e := Feed(w);
    } else {
      assert s.workers[0].Exited?;
      e := FeedAbort;
    }
  }

  function WorkerWork<R>(w: Worker<R>): nat {
    match w
    case Idle => 1
    case Loading(_) => 6
    case Sending(_, _) => 5
    case Exited => 0
  }

  function WorkersWork<R>(ws: seq<Worker<R>>): nat {
    if ws == [] then 0 else WorkerWork(ws[0]) + WorkersWork(ws[1..])
  }

  lemma {:induction false} WorkersWorkUpdate<R>(ws: seq<Worker<R>>, w: nat, x: Worker<R>)
    requires w < |ws|
    ensures WorkersWork(ws[w := x]) == WorkersWork(ws) - WorkerWork(ws[w]) + WorkerWork(x)
  {
    if w == 0 {
      assert ws[w := x][1..] == ws[1..];
    } else {
      assert ws[w := x][1..] == ws[1..][w - 1 := x];
      WorkersWorkUpdate(ws[1..], w - 1, x);
    }
  }

  function CollectorWork(k: Collector): nat {
    match k
    case Draining => 2
    case Receiving => 1
    case Returned => 0
  }

  // Work left: every internal event uses some of it up.
  function Work<J, R, S, E>(c: Config<J, R, S, E>, s: State<R, S, E>): nat
    requires s.fed <= |c.jobs|
  {
    6 * (|c.jobs| - s.fed) + (if s.jobsClosed then 0 else 1) + WorkersWork(s.workers)
    + 3 * |s.queue| + |s.pending| + (if s.closed then 0 else 1) + CollectorWork(s.collector)
  }

  lemma WorkerWorkDecreases<J, R, S, E>(c: Config<J, R, S, E>, s: State<R, S, E>, e: Event<R, E>)
    requires s.fed <= |c.jobs| && Enabled(c, s, e)
    requires e.Feed? || e.LoadOk? || e.LoadFail? || e.Send? || e.SendAbort? || e.WorkerStop?
    ensures Apply(c, s, e).fed <= |c.jobs| && Work(c, Apply(c, s, e)) < Work(c, s)
  {
    var w := e.w;
    var t := Apply(c, s, e);
    assert t.workers == s.workers[w := t.workers[w]];
    WorkersWorkUpdate(s.workers, w, t.workers[w]);
  }

  lemma ReceiveWorkDecreases<J, R, S, E>(c: Config<J, R, S, E>, s: State<R, S, E>)
    requires s.fed <= |c.jobs| && s.collector.Receiving? && s.queue != []
    ensures Work(c, Received(s)) < Work(c, s)
  {
    PendingSize(s.pending, s.queue[0].0, s.queue[0].1);
  }

  lemma DrainWorkDecreases<J, R, S, E>(c: Config<J, R, S, E>, s: State<R, S, E>)
    requires s.fed <= |c.jobs| && s.nextIndex in s.pending && s.nextIndex < |c.jobs|
    ensures Work(c, Drained(c, s)) < Work(c, s)
  {
    PendingSize(s.pending, s.nextIndex, s.pending[s.nextIndex]);
    assert Drained(c, s).pending == s.pending - {s.nextIndex};
  }

  lemma ControlWorkDecreases<J, R, S, E>(c: Config<J, R, S, E>, s: State<R, S, E>, e: Event<R, E>)
    requires s.fed <= |c.jobs| && Enabled(c, s, e)
    requires e.FeedDone? || e.FeedAbort? || e.CloseResults? || e.DrainDone? || e.Return? || e.CancelCtx?
    ensures Apply(c, s, e).fed <= |c.jobs|
    ensures if Internal(e) then Work(c, Apply(c, s, e)) < Work(c, s) else Work(c, Apply(c, s, e)) == Work(c, s)
  {
    var t := Apply(c, s, e);
    assert t.workers == s.workers && t.fed == s.fed && t.queue == s.queue && t.pending == s.pending;
  }

  lemma WorkDecreases<J, R, S, E>(c: Config<J, R, S, E>, s: State<R, S, E>, e: Event<R, E>)
    requires s.fed <= |c.jobs| && Enabled(c, s, e)
    ensures Apply(c, s, e).fed <= |c.jobs|
    ensures if Internal(e) then Work(c, Apply(c, s, e)) < Work(c, s) else Work(c, Apply(c, s, e)) == Work(c, s)
  {
    if e.Feed? || e.LoadOk? || e.LoadFail? || e.Send? || e.SendAbort? || e.WorkerStop? {
      WorkerWorkDecreases(c, s, e);
    } else if e.Receive? {
      ReceiveWorkDecreases(c, s);
    } else if e.DrainNext? {
      DrainWorkDecreases(c, s);
    } else {
      ControlWorkDecreases(c, s, e);
    }
  }

  lemma PendingSize<R>(pending: map<nat, R>, i: nat, v: R)
    ensures |pending[i := v]| <= |pending| + 1
    ensures i in pending ==> |pending - {i}| == |pending| - 1
  {
    assert pending[i := v].Keys == pending.Keys + {i};
    assert (pending - {i}).Keys == pending.Keys - {i};
  }

  function InternalEvents<R, E>(run: seq<Event<R, E>>): nat {
    if run == [] then 0 else (if run[0].CancelCtx? then 0 else 1) + InternalEvents(run[1..])
  }

  // However the goroutines are scheduled, a call takes a bounded number of
  // steps; with Progress this means it returns once its loads return.
  lemma {:induction false} BoundedRun<J, R, S, E>(c: Config<J, R, S, E>, s: State<R, S, E>, run: seq<Event<R, E>>)
    requires Inv(c, s) && Valid(c, s, run)
    ensures InternalEvents(run) <= Work(c, s)
    decreases |run|
  {
    if run != [] {
      Step(c, s, run[0]);
      WorkDecreases(c, s, run[0]);
      BoundedRun(c, Apply(c, s, run[0]), run[1..]);
    }
  }

  /******* The collector's loop *******/

  // The results a closed channel delivered, by job index.
  function Delivered<R>(arrivals: seq<(nat, R)>): map<nat, R> {
    if arrivals == [] then map[]
    else
      var k := |arrivals| - 1;
      Delivered(arrivals[..k])[arrivals[k].0 := arrivals[k].1]
  }

  ghost predicate DistinctJobs<R>(arrivals: seq<(nat, R)>, n: nat) {
    && (forall k: nat | k < |arrivals| :: arrivals[k].0 < n)
    && (forall k: nat, l: nat | k < l < |arrivals| :: arrivals[k].0 != arrivals[l].0)
  }

  lemma {:induction false} DeliveredFrom<R>(arrivals: seq<(nat, R)>, i: nat)
    requires i in Delivered(arrivals)
    ensures exists k: nat :: k < |arrivals| && arrivals[k].0 == i
  {
    var k := |arrivals| - 1;
    if arrivals[k].0 != i {
      DeliveredFrom(arrivals[..k], i);
      var j: nat :| j < k && arrivals[..k][j].0 == i;
      assert arrivals[j].0 == i;
    }
  }

  // Of the results delivered so far, those from nextIndex on are parked and
  // those before it have been handed over.
  ghost predicate Parked<J, R, S, E>(c: Config<J, R, S, E>, got: map<nat, R>, pending: map<nat, R>,
                                     nextIndex: nat, l: Loop<S, E>)
  {
    && nextIndex <= |c.jobs|
    && AllLoaded(got, nextIndex)
    && (forall i :: i in pending <==> i in got && i >= nextIndex)
    && (forall i | i in pending :: pending[i] == got[i])
    && l == Sequential(c, Values(got, nextIndex))
  }

  lemma ParkOne<J, R, S, E>(c: Config<J, R, S, E>, got: map<nat, R>, pending: map<nat, R>,
                            nextIndex: nat, l: Loop<S, E>, i: nat, v: R)
    requires Parked(c, got, pending, nextIndex, l) && i !in got
    ensures Parked(c, got[i := v], pending[i := v], nextIndex, l)
  {
    ValuesStable(got, got[i := v], nextIndex);
  }

  lemma UnparkOne<J, R, S, E>(c: Config<J, R, S, E>, got: map<nat, R>, pending: map<nat, R>,
                              nextIndex: nat, l: Loop<S, E>)
    requires Parked(c, got, pending, nextIndex, l) && nextIndex in pending && nextIndex < |c.jobs|
    ensures Parked(c, got, pending - {nextIndex}, nextIndex + 1,
                   HandOver(c, l, c.jobs[nextIndex], pending[nextIndex]))
  {
    assert Values(got, nextIndex + 1)[..nextIndex] == Values(got, nextIndex);
  }

  ghost predicate JobsBelow<R>(got: map<nat, R>, n: nat) {
    forall i | i in got :: i < n
  }

  lemma DeliverOne<R>(arrivals: seq<(nat, R)>, n: nat, k: nat)
    requires DistinctJobs(arrivals, n) && k < |arrivals|
    ensures Delivered(arrivals[..k + 1]) == Delivered(arrivals[..k])[arrivals[k].0 := arrivals[k].1]
    ensures arrivals[k].0 !in Delivered(arrivals[..k])
    ensures JobsBelow(Delivered(arrivals[..k + 1]), n)
  {
    assert arrivals[..k + 1][..k] == arrivals[..k];
    if arrivals[k].0 in Delivered(arrivals[..k]) {
      DeliveredFrom(arrivals[..k], arrivals[k].0);
    }
    var got := Delivered(arrivals[..k + 1]);
    forall i | i in got ensures i < n {
      DeliveredFrom(arrivals[..k + 1], i);
    }
  }

  // The inner loop: hands over parked results while the next one is there.
  method DrainParked<J, R, S, E>(c: Config<J, R, S, E>, parked: map<nat, R>, from: nat, before: S, error: Option<E>,
                                 ghost got: map<nat, R>, ghost loop: Loop<S, E>)
    returns (pending: map<nat, R>, nextIndex: nat, sink: S, handleErr: Option<E>, ghost l: Loop<S, E>)
    requires Parked(c, got, parked, from, loop) && JobsBelow(got, |c.jobs|)
    requires before == loop.sink && error == loop.err
    ensures Parked(c, got, pending, nextIndex, l) && nextIndex !in pending
    ensures sink == l.sink && handleErr == l.err
  {
    pending, nextIndex, sink, handleErr, l := parked, from, before, error, loop;
    while nextIndex in pending
      invariant Parked(c, got, pending, nextIndex, l)
      invariant sink == l.sink && handleErr == l.err
      decreases |c.jobs| - nextIndex
    {
      var next := pending[nextIndex];
      UnparkOne(c, got, pending, nextIndex, l);
      l := HandOver(c, l, c.jobs[nextIndex], next);
      pending := pending - {nextIndex};
      nextIndex := nextIndex + 1;
      if handleErr.None? {
        var (after, err) := c.handle(sink, c.jobs[nextIndex - 1], next);
        sink, handleErr := after, err;
      }
    }
  }

  // The loop that parks results until their turn comes. For every order in
  // which results arrive it hands over exactly those before the first job that
  // did not arrive, as the sequential loop would.
  method CollectInOrder<J, R, S, E>(c: Config<J, R, S, E>, arrivals: seq<(nat, R)>)
    returns (sink: S, handleErr: Option<E>, nextIndex: nat)
    requires DistinctJobs(arrivals, |c.jobs|)
    ensures nextIndex <= |c.jobs| && AllLoaded(Delivered(arrivals), nextIndex)
    ensures nextIndex !in Delivered(arrivals)
    ensures var l := Sequential(c, Values(Delivered(arrivals), nextIndex));
      sink == l.sink && handleErr == l.err
  {
    sink, handleErr, nextIndex := c.initial, None, 0;
    var pending: map<nat, R> := map[];
    ghost var l := Loop(c.initial, None, 0);
    assert Parked(c, map[], pending, nextIndex, l);
    for k := 0 to |arrivals|
      invariant Parked(c, Delivered(arrivals[..k]), pending, nextIndex, l)
      invariant sink == l.sink && handleErr == l.err
      invariant nextIndex !in pending
    {
      DeliverOne(arrivals, |c.jobs|, k);
      ParkOne(c, Delivered(arrivals[..k]), pending, nextIndex, l, arrivals[k].0, arrivals[k].1);
      pending := pending[arrivals[k].0 := arrivals[k].1];
      pending, nextIndex, sink, handleErr, l :=
        DrainParked(c, pending, nextIndex, sink, handleErr, Delivered(arrivals[..k + 1]), l);
    }
    assert arrivals[..|arrivals|] == arrivals;
  }
}
