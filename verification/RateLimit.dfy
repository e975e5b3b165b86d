// The sliding-window limiter of internal/repository/storage_workers.go: every
// batch of worker tokens records one usage per token, counts the usages of the
// last minute, and old usages are deleted in the background. A batch is one
// atomic step and time, in seconds, never runs backwards.
module RateLimit {
  import opened Prelude

  const WINDOW := 60
  const CLEANUP_INTERVAL := 300

  // rateLimit usages per worker and minute. A worker serves one storage, or
  // every storage if it is assigned to none.
  datatype Worker = Worker(id: nat, storage: Option<nat>)

  datatype Config = Config(rateLimit: int, start: int)

  datatype Usage = Usage(worker: nat, at: int)

  datatype State = State(
    now: int,
    workers: seq<Worker>,
    usages: seq<Usage>,        // storage_workers_usages
    lastUsageCleanup: int,
    usageCleanupRunning: bool,
    history: seq<Usage>,       // every usage ever recorded
    cleanups: seq<int>)        // when each cleanup was started

  datatype Event =
    | Tick(now: int)
    | Assign(workers: seq<Worker>)              // workers are created, moved or removed
    | Batch(storage: nat, count: int, picks: seq<nat>)
    | BatchLost(storage: nat, count: int, picks: seq<nat>)   // committed, but reported as failed
    | DeleteExpired                             // the running cleanup's statement
    | CleanupOver

  function Init(c: Config): State {
    State(c.start, [], [], c.start, false, [], [])
  }

  ghost predicate DistinctIds(workers: seq<Worker>) {
    forall i: nat, j: nat | i < j < |workers| :: workers[i].id != workers[j].id
  }

  // Usages of w recorded at or after `from`.
  function Count(us: seq<Usage>, w: nat, from: int): nat {
    if us == [] then 0
    else
      var u := us[|us| - 1];
      Count(us[..|us| - 1], w, from) + if u.worker == w && u.at >= from then 1 else 0
  }

  predicate Serves(w: Worker, storage: nat) {
    w.storage.None? || w.storage == Some(storage)
  }

  function Free(c: Config, us: seq<Usage>, now: int, w: Worker, storage: nat): nat {
    if Serves(w, storage) then Max(c.rateLimit - Count(us, w.id, now - WINDOW), 0) else 0
  }

  function TotalFree(c: Config, us: seq<Usage>, now: int, workers: seq<Worker>, storage: nat): nat {
    if workers == [] then 0
    else Free(c, us, now, workers[0], storage) + TotalFree(c, us, now, workers[1..], storage)
  }

  function Occurrences(picks: seq<nat>, w: nat): nat {
    if picks == [] then 0
    else Occurrences(picks[..|picks| - 1], w) + if picks[|picks| - 1] == w then 1 else 0
  }

  ghost predicate IsWorker(workers: seq<Worker>, id: nat) {
    exists i: nat :: i < |workers| && workers[i].id == id
  }

  // What a batch may return, given the recorded usages: as many tokens as asked
  // for and free, from any eligible workers, none beyond its free slots.
  ghost predicate MayReturn(c: Config, us: seq<Usage>, now: int, workers: seq<Worker>, storage: nat, count: int,
                            picks: seq<nat>) {
    && |picks| == Min(Max(count, 0), TotalFree(c, us, now, workers, storage))
    && (forall w | w in picks :: IsWorker(workers, w))
    && (forall i: nat | i < |workers| :: Occurrences(picks, workers[i].id) <= Free(c, us, now, workers[i], storage))
  }

  function Recorded(picks: seq<nat>, at: int): seq<Usage> {
    seq(|picks|, i requires 0 <= i < |picks| => Usage(picks[i], at))
  }

  function Unexpired(us: seq<Usage>, now: int): seq<Usage> {
    if us == [] then []
    else Unexpired(us[..|us| - 1], now) + if us[|us| - 1].at >= now - WINDOW then [us[|us| - 1]] else []
  }

  ghost predicate Enabled(c: Config, s: State, e: Event) {
    match e
    case Tick(now) => s.now <= now
    case Assign(workers) => DistinctIds(workers)
    case Batch(storage, count, picks) => MayReturn(c, s.usages, s.now, s.workers, storage, count, picks)
    case BatchLost(storage, count, picks) => MayReturn(c, s.usages, s.now, s.workers, storage, count, picks)
    case DeleteExpired => s.usageCleanupRunning
    case CleanupOver => s.usageCleanupRunning
  }

  // scheduleUsageCleanup, called after every batch.
  predicate CleanupDue(s: State) {
    !s.usageCleanupRunning && s.now - s.lastUsageCleanup >= CLEANUP_INTERVAL
  }

  function ScheduleUsageCleanup(s: State): State {
    if CleanupDue(s) then s.(usageCleanupRunning := true, lastUsageCleanup := s.now, cleanups := s.cleanups + [s.now])
    else s
  }

  function Record(s: State, picks: seq<nat>): State {
    var used := Recorded(picks, s.now);
    s.(usages := s.usages + used, history := s.history + used)
  }

  function Apply(s: State, e: Event): State {
    match e
    case Tick(now) => s.(now := now)
    case Assign(workers) => s.(workers := workers)
    case Batch(_, _, picks) => ScheduleUsageCleanup(Record(s, picks))
    case BatchLost(_, _, picks) => Record(s, picks)
    case DeleteExpired => s.(usages := Unexpired(s.usages, s.now))
    case CleanupOver => s.(usageCleanupRunning := false)
  }

  /******* Counting *******/

  lemma {:induction false} CountAppend(a: seq<Usage>, b: seq<Usage>, w: nat, from: int)
    ensures Count(a + b, w, from) == Count(a, w, from) + Count(b, w, from)
  {
    if b == [] {
      assert a + b == a;
    } else {
      assert (a + b)[..|a + b| - 1] == a + b[..|b| - 1];
      CountAppend(a, b[..|b| - 1], w, from);
    }
  }

  lemma {:induction false} CountRecorded(picks: seq<nat>, at: int, w: nat, from: int)
    ensures Count(Recorded(picks, at), w, from) == if at >= from then Occurrences(picks, w) else 0
  {
    if picks != [] {
      CountRecorded(picks[..|picks| - 1], at, w, from);
      assert Recorded(picks, at)[..|picks| - 1] == Recorded(picks[..|picks| - 1], at);
    }
  }

  // Deleting expired usages changes no count over the last minute.
  lemma {:induction false} CountUnexpired(us: seq<Usage>, now: int, w: nat, from: int)
    requires from >= now - WINDOW
    ensures Count(Unexpired(us, now), w, from) == Count(us, w, from)
  {
    if us != [] {
      var front, u := us[..|us| - 1], us[|us| - 1];
      CountUnexpired(front, now, w, from);
      if u.at >= now - WINDOW {
        CountAppend(Unexpired(front, now), [u], w, from);
        assert [u][..0] == [];
      } else {
        assert Unexpired(front, now) + [] == Unexpired(front, now);
      }
    }
  }

  // No usage is recorded in the future.
  ghost predicate Past(us: seq<Usage>, now: int) {
    forall i: nat | i < |us| :: us[i].at <= now
  }

  ghost predicate Sorted(us: seq<Usage>) {
    forall i: nat, j: nat | i < j < |us| :: us[i].at <= us[j].at
  }

  lemma {:induction false} CountMonotone(us: seq<Usage>, w: nat, from: int, later: int)
    requires from <= later
    ensures Count(us, w, later) <= Count(us, w, from)
  {
    if us != [] {
      CountMonotone(us[..|us| - 1], w, from, later);
    }
  }

  /******* Invariant *******/

  // The table and the full history agree on everything a batch may look at, now
  // or later.
  ghost predicate Agree(s: State) {
    forall w: nat, from: int | from >= s.now - WINDOW :: Count(s.usages, w, from) == Count(s.history, w, from)
  }

  // Up to any point of the history, a worker has at most rateLimit usages within
  // the minute that ends there.
  ghost predicate WithinLimit(c: Config, us: seq<Usage>) {
    forall n: nat | 0 < n <= |us| ::
      Count(us[..n], us[n - 1].worker, us[n - 1].at - WINDOW) <= Max(c.rateLimit, 0)
  }

  ghost predicate CleanupsOk(s: State) {
    && (forall i: nat, j: nat | i < j < |s.cleanups| :: s.cleanups[j] - s.cleanups[i] >= CLEANUP_INTERVAL)
    && (s.cleanups != [] ==> s.cleanups[|s.cleanups| - 1] == s.lastUsageCleanup)
    && s.lastUsageCleanup <= s.now
  }

  ghost predicate Inv(c: Config, s: State) {
    && DistinctIds(s.workers)
    && Past(s.history, s.now) && Sorted(s.history)
    && Agree(s) && WithinLimit(c, s.history) && CleanupsOk(s)
  }

  lemma {:induction false} OccursOnlyIfPicked(picks: seq<nat>, w: nat)
    ensures Occurrences(picks, w) > 0 <==> w in picks
  {
    if picks != [] {
      OccursOnlyIfPicked(picks[..|picks| - 1], w);
      assert picks == picks[..|picks| - 1] + [picks[|picks| - 1]];
    }
  }

  lemma {:induction false} OccurrencesOfPrefix(picks: seq<nat>, n: nat, w: nat)
    requires n <= |picks|
    ensures Occurrences(picks[..n], w) <= Occurrences(picks, w)
  {
    if n < |picks| {
      OccurrencesOfPrefix(picks[..|picks| - 1], n, w);
      assert picks[..|picks| - 1][..n] == picks[..n];
    } else {
      assert picks[..n] == picks;
    }
  }

  // A batch stays within the limit of every worker it picks.
  lemma PickFits(c: Config, us: seq<Usage>, now: int, workers: seq<Worker>, storage: nat, count: int, picks: seq<nat>,
                 w: nat)
    requires MayReturn(c, us, now, workers, storage, count, picks) && w in picks
    ensures Count(us, w, now - WINDOW) + Occurrences(picks, w) <= Max(c.rateLimit, 0)
  {
    OccursOnlyIfPicked(picks, w);
    var i: nat :| i < |workers| && workers[i].id == w;
    assert Occurrences(picks, workers[i].id) <= Free(c, us, now, workers[i], storage);
  }

  lemma RecordKeepsLimit(c: Config, us: seq<Usage>, picks: seq<nat>, at: int)
    requires WithinLimit(c, us)
    requires forall w | w in picks :: Count(us, w, at - WINDOW) + Occurrences(picks, w) <= Max(c.rateLimit, 0)
    ensures WithinLimit(c, us + Recorded(picks, at))
  {
    var all := us + Recorded(picks, at);
    forall n: nat | 0 < n <= |all|
      ensures Count(all[..n], all[n - 1].worker, all[n - 1].at - WINDOW) <= Max(c.rateLimit, 0)
    {
      if n <= |us| {
        assert all[..n] == us[..n];
      } else {
        var k := n - |us|;
        var w := picks[k - 1];
        assert all[..n] == us + Recorded(picks[..k], at);
        CountAppend(us, Recorded(picks[..k], at), w, at - WINDOW);
        CountRecorded(picks[..k], at, w, at - WINDOW);
        OccurrencesOfPrefix(picks, k, w);
        assert w in picks;
      }
    }
  }

  lemma BatchAgrees(s: State, picks: seq<nat>)
    requires Agree(s)
    ensures Agree(Record(s, picks))
  {
    var used := Recorded(picks, s.now);
    forall w: nat, from: int | from >= s.now - WINDOW
      ensures Count(s.usages + used, w, from) == Count(s.history + used, w, from)
    {
      CountAppend(s.usages, used, w, from);
      CountAppend(s.history, used, w, from);
    }
  }

  lemma BatchKeepsLimit(c: Config, s: State, storage: nat, count: int, picks: seq<nat>)
    requires Inv(c, s) && MayReturn(c, s.usages, s.now, s.workers, storage, count, picks)
    ensures WithinLimit(c, s.history + Recorded(picks, s.now))
  {
    forall w | w in picks ensures Count(s.history, w, s.now - WINDOW) + Occurrences(picks, w) <= Max(c.rateLimit, 0) {
      PickFits(c, s.usages, s.now, s.workers, storage, count, picks, w);
    }
    RecordKeepsLimit(c, s.history, picks, s.now);
  }

  lemma Step(c: Config, s: State, e: Event)
    requires Inv(c, s) && Enabled(c, s, e)
    ensures Inv(c, Apply(s, e))
  {
    match e
    case Tick(_) =>
    case Assign(_) =>
    case Batch(storage, count, picks) =>
      BatchKeepsLimit(c, s, storage, count, picks);
      BatchAgrees(s, picks);
    case BatchLost(storage, count, picks) =>
      BatchKeepsLimit(c, s, storage, count, picks);
      BatchAgrees(s, picks);
    case DeleteExpired =>
      forall w: nat, from: int | from >= s.now - WINDOW
        ensures Count(Unexpired(s.usages, s.now), w, from) == Count(s.history, w, from)
      {
        CountUnexpired(s.usages, s.now, w, from);
      }
    case CleanupOver =>
  }

  /******* What the limiter guarantees *******/

  ghost predicate Valid(c: Config, s: State, run: seq<Event>)
    decreases |run|
  {
    run == [] || (Enabled(c, s, run[0]) && Valid(c, Apply(s, run[0]), run[1..]))
  }

  ghost function Exec(c: Config, s: State, run: seq<Event>): State
    requires Valid(c, s, run)
    decreases |run|
  {
    if run == [] then s else Exec(c, Apply(s, run[0]), run[1..])
  }

  lemma {:induction false} RunInv(c: Config, s: State, run: seq<Event>)
    requires Inv(c, s) && Valid(c, s, run)
    ensures Inv(c, Exec(c, s, run))
    decreases |run|
  {
    if run != [] {
      Step(c, s, run[0]);
      RunInv(c, Apply(s, run[0]), run[1..]);
    }
  }

  // Usages of w within [from, to].
  function CountWithin(us: seq<Usage>, w: nat, from: int, to: int): nat {
    if us == [] then 0
    else
      var u := us[|us| - 1];
      CountWithin(us[..|us| - 1], w, from, to) + if u.worker == w && from <= u.at <= to then 1 else 0
  }

  lemma {:induction false} WithinIsCounted(us: seq<Usage>, w: nat, from: int, to: int)
    ensures CountWithin(us, w, from, to) <= Count(us, w, from)
  {
    if us != [] {
      WithinIsCounted(us[..|us| - 1], w, from, to);
    }
  }

  lemma {:induction false} MinuteWithinLimit(c: Config, us: seq<Usage>, w: nat, from: int)
    requires WithinLimit(c, us)
    ensures CountWithin(us, w, from, from + WINDOW) <= Max(c.rateLimit, 0)
  {
    if us != [] {
      var front, u := us[..|us| - 1], us[|us| - 1];
      if u.worker == w && u.at <= from + WINDOW {
        assert us[..|us|] == us;
        WithinIsCounted(us, w, from, from + WINDOW);
        CountMonotone(us, w, u.at - WINDOW, from);
      } else {
        assert forall n: nat | n <= |front| :: us[..n] == front[..n];
        MinuteWithinLimit(c, front, w, from);
      }
    }
  }

  // In every run of batches and cleanups, each closed one-minute window holds at
  // most rateLimit recorded usages of any worker.
  lemma RateLimitHolds(c: Config, run: seq<Event>, w: nat, from: int)
    requires Valid(c, Init(c), run)
    ensures CountWithin(Exec(c, Init(c), run).history, w, from, from + 60) <= Max(c.rateLimit, 0)
  {
    RunInv(c, Init(c), run);
    MinuteWithinLimit(c, Exec(c, Init(c), run).history, w, from);
  }

  ghost predicate SameCounts(us: seq<Usage>, vs: seq<Usage>, from: int) {
    forall w: nat :: Count(us, w, from) == Count(vs, w, from)
  }

  lemma {:induction false} SameFree(c: Config, us: seq<Usage>, vs: seq<Usage>, now: int, workers: seq<Worker>,
                                    storage: nat)
    requires SameCounts(us, vs, now - WINDOW)
    ensures TotalFree(c, us, now, workers, storage) == TotalFree(c, vs, now, workers, storage)
  {
    if workers != [] {
      SameFree(c, us, vs, now, workers[1..], storage);
    }
  }

  // No cleanup ever changes what a later batch may return: it is always what it
  // would be if no usage had ever been deleted.
  lemma CleanupIsInvisible(c: Config, run: seq<Event>, now: int, storage: nat, count: int, picks: seq<nat>)
    requires Valid(c, Init(c), run) && now >= Exec(c, Init(c), run).now
    ensures var s := Exec(c, Init(c), run);
      MayReturn(c, s.usages, now, s.workers, storage, count, picks)
      <==> MayReturn(c, s.history, now, s.workers, storage, count, picks)
  {
    RunInv(c, Init(c), run);
    var s := Exec(c, Init(c), run);
    assert SameCounts(s.usages, s.history, now - WINDOW);
    SameFree(c, s.usages, s.history, now, s.workers, storage);
  }

  lemma {:induction false} TotalFreeZero(c: Config, us: seq<Usage>, now: int, workers: seq<Worker>, storage: nat)
    ensures TotalFree(c, us, now, workers, storage) == 0
      <==> forall i: nat | i < |workers| && Serves(workers[i], storage) ::
             Count(us, workers[i].id, now - WINDOW) >= c.rateLimit
  {
    if workers != [] {
      var rest := workers[1..];
      TotalFreeZero(c, us, now, rest, storage);
      assert forall i: nat | i < |rest| :: rest[i] == workers[i + 1];
      assert forall i: nat | 0 < i < |workers| :: workers[i] == rest[i - 1];
    }
  }

  // Only the storage's own workers, and those of no storage, are used.
  lemma PickedWorkersServe(c: Config, us: seq<Usage>, now: int, workers: seq<Worker>, storage: nat, count: int,
                           picks: seq<nat>, w: nat)
    requires MayReturn(c, us, now, workers, storage, count, picks) && w in picks
    ensures exists i: nat :: i < |workers| && workers[i].id == w
              && (workers[i].storage.None? || workers[i].storage == Some(storage))
  {
    OccursOnlyIfPicked(picks, w);
    var i: nat :| i < |workers| && workers[i].id == w;
    assert Free(c, us, now, workers[i], storage) > 0;
  }

  function TotalPicked(workers: seq<Worker>, picks: seq<nat>): nat {
    if workers == [] then 0 else Occurrences(picks, workers[0].id) + TotalPicked(workers[1..], picks)
  }

  lemma {:induction false} PickedByOne(workers: seq<Worker>, front: seq<nat>, p: nat)
    requires DistinctIds(workers)
    ensures TotalPicked(workers, front + [p]) == TotalPicked(workers, front) + if IsWorker(workers, p) then 1 else 0
  {
    if workers != [] {
      var rest := workers[1..];
      assert (front + [p])[..|front|] == front;
      assert DistinctIds(rest) by { assert forall i: nat | i < |rest| :: rest[i] == workers[i + 1]; }
      PickedByOne(rest, front, p);
      assert IsWorker(workers, p) <==> workers[0].id == p || IsWorker(rest, p) by {
        if i: nat :| i < |rest| && rest[i].id == p { assert workers[i + 1].id == p; }
        if i: nat :| i < |workers| && workers[i].id == p && i > 0 { assert rest[i - 1].id == p; }
      }
      assert forall i: nat | i < |rest| :: rest[i].id != workers[0].id;
    }
  }

  lemma {:induction false} PickedAddUp(workers: seq<Worker>, picks: seq<nat>)
    requires DistinctIds(workers) && forall w | w in picks :: IsWorker(workers, w)
    ensures TotalPicked(workers, picks) == |picks|
  {
    if picks == [] {
      NonePicked(workers);
    } else {
      var front := picks[..|picks| - 1];
      assert picks == front + [picks[|picks| - 1]];
      PickedAddUp(workers, front);
      PickedByOne(workers, front, picks[|picks| - 1]);
    }
  }

  lemma {:induction false} NonePicked(workers: seq<Worker>)
    ensures TotalPicked(workers, []) == 0
  {
    if workers != [] {
      NonePicked(workers[1..]);
    }
  }

  // If together the workers are picked as often as they are free, each is.
  lemma {:induction false} EachIsExhausted(c: Config, us: seq<Usage>, now: int, workers: seq<Worker>, storage: nat,
                                           picks: seq<nat>)
    requires forall i: nat | i < |workers| ::
      Occurrences(picks, workers[i].id) <= Free(c, us, now, workers[i], storage)
    ensures TotalPicked(workers, picks) <= TotalFree(c, us, now, workers, storage)
    ensures TotalPicked(workers, picks) == TotalFree(c, us, now, workers, storage) ==>
      forall i: nat | i < |workers| :: Occurrences(picks, workers[i].id) == Free(c, us, now, workers[i], storage)
  {
    if workers != [] {
      var rest := workers[1..];
      assert forall i: nat | i < |rest| :: rest[i] == workers[i + 1];
      assert forall i: nat | 0 < i < |workers| :: workers[i] == rest[i - 1];
      EachIsExhausted(c, us, now, rest, storage, picks);
    }
  }

  // A batch is as large as asked for, unless it takes every worker that serves
  // the storage to its limit.
  lemma BatchIsLarge(c: Config, us: seq<Usage>, now: int, workers: seq<Worker>, storage: nat, count: nat,
                     picks: seq<nat>)
    requires DistinctIds(workers) && MayReturn(c, us, now, workers, storage, count, picks)
    ensures |picks| <= count
    ensures |picks| < count ==>
      forall i: nat | i < |workers| && (workers[i].storage.None? || workers[i].storage == Some(storage)) ::
        Count(us + Recorded(picks, now), workers[i].id, now - WINDOW) >= c.rateLimit
  {
    if |picks| < count {
      PickedAddUp(workers, picks);
      EachIsExhausted(c, us, now, workers, storage, picks);
      forall i: nat | i < |workers| && Serves(workers[i], storage)
        ensures Count(us + Recorded(picks, now), workers[i].id, now - WINDOW) >= c.rateLimit
      {
        CountAppend(us, Recorded(picks, now), workers[i].id, now - WINDOW);
        CountRecorded(picks, now, workers[i].id, now - WINDOW);
      }
    }
  }

  // A batch comes back empty exactly when every eligible worker is at its limit.
  lemma EmptyBatchIffSaturated(c: Config, us: seq<Usage>, now: int, workers: seq<Worker>, storage: nat, count: int,
                               picks: seq<nat>)
    requires MayReturn(c, us, now, workers, storage, count, picks) && count > 0
    ensures picks == []
      <==> forall i: nat | i < |workers| && (workers[i].storage.None? || workers[i].storage == Some(storage)) ::
             Count(us, workers[i].id, now - WINDOW) >= c.rateLimit
  {
    TotalFreeZero(c, us, now, workers, storage);
  }

  function Repeat(w: nat, n: nat): (ps: seq<nat>)
    ensures |ps| == n && forall p | p in ps :: p == w
  {
    seq(n, _ => w)
  }

  lemma {:induction false} OccurrencesAppend(a: seq<nat>, b: seq<nat>, w: nat)
    ensures Occurrences(a + b, w) == Occurrences(a, w) + Occurrences(b, w)
  {
    if b == [] {
      assert a + b == a;
    } else {
      assert (a + b)[..|a + b| - 1] == a + b[..|b| - 1];
      OccurrencesAppend(a, b[..|b| - 1], w);
    }
  }

  lemma {:induction false} OccurrencesOfRepeat(w: nat, n: nat, v: nat)
    ensures Occurrences(Repeat(w, n), v) == if v == w then n else 0
  {
    if n > 0 {
      assert Repeat(w, n)[..n - 1] == Repeat(w, n - 1);
      OccurrencesOfRepeat(w, n - 1, v);
    }
  }

  // Some batch is always possible: the limiter never has to refuse a request
  // that free slots could serve.
  lemma {:induction false} SomeBatch(c: Config, us: seq<Usage>, now: int, workers: seq<Worker>, storage: nat,
                                     count: nat)
    returns (picks: seq<nat>)
    requires DistinctIds(workers)
    ensures MayReturn(c, us, now, workers, storage, count, picks)
  {
    if workers == [] {
      picks := [];
    } else {
      var w, rest := workers[0], workers[1..];
      var n := Min(count, Free(c, us, now, w, storage));
      assert DistinctIds(rest) by {
        assert forall i: nat | i < |rest| :: rest[i] == workers[i + 1];
      }
      var more := SomeBatch(c, us, now, rest, storage, count - n);
      picks := Repeat(w.id, n) + more;
      ExtendBatch(c, us, now, workers, storage, count, n, more);
    }
  }

  lemma ExtendBatch(c: Config, us: seq<Usage>, now: int, workers: seq<Worker>, storage: nat, count: nat, n: nat,
                    more: seq<nat>)
    requires workers != [] && DistinctIds(workers)
    requires n == Min(count, Free(c, us, now, workers[0], storage))
    requires MayReturn(c, us, now, workers[1..], storage, count - n, more)
    ensures MayReturn(c, us, now, workers, storage, count, Repeat(workers[0].id, n) + more)
  {
    var w, rest := workers[0], workers[1..];
    var picks := Repeat(w.id, n) + more;
    forall p | p in picks ensures IsWorker(workers, p) {
      if p in more {
        var i: nat :| i < |rest| && rest[i].id == p;
        assert workers[i + 1].id == p;
      }
    }
    forall i: nat | i < |workers| ensures Occurrences(picks, workers[i].id) <= Free(c, us, now, workers[i], storage) {
      OccurrencesAppend(Repeat(w.id, n), more, workers[i].id);
      OccurrencesOfRepeat(w.id, n, workers[i].id);
      if i == 0 {
        OnlyWorkersOccur(rest, more, w.id);
      } else {
        assert rest[i - 1] == workers[i];
      }
    }
  }

  lemma OnlyWorkersOccur(workers: seq<Worker>, picks: seq<nat>, w: nat)
    requires forall p | p in picks :: IsWorker(workers, p)
    requires forall i: nat | i < |workers| :: workers[i].id != w
    ensures Occurrences(picks, w) == 0
  {
    OccursOnlyIfPicked(picks, w);
  }

  // A cleanup deletes exactly the usages that are older than a minute.
  lemma {:induction false} UnexpiredIff(us: seq<Usage>, now: int, u: Usage)
    ensures multiset(Unexpired(us, now))[u] == if u.at >= now - 60 then multiset(us)[u] else 0
  {
    if us != [] {
      UnexpiredIff(us[..|us| - 1], now, u);
      assert us == us[..|us| - 1] + [us[|us| - 1]];
    }
  }

  // After every successful batch a cleanup runs, or one was started, or the
  // limiter itself, less than five minutes ago.
  lemma CleanupsKeepUp(c: Config, run: seq<Event>, storage: nat, count: int, picks: seq<nat>)
    requires Valid(c, Init(c), run) && Enabled(c, Exec(c, Init(c), run), Batch(storage, count, picks))
    ensures var t := Apply(Exec(c, Init(c), run), Batch(storage, count, picks));
      t.usageCleanupRunning || t.now - (if t.cleanups == [] then c.start else t.cleanups[|t.cleanups| - 1]) < 300
  {
    RunInv(c, Init(c), run);
    StartKept(c, Init(c), run);
  }

  lemma {:induction false} StartKept(c: Config, s: State, run: seq<Event>)
    requires Valid(c, s, run) && (s.cleanups == [] ==> s.lastUsageCleanup == c.start)
    ensures var t := Exec(c, s, run); t.cleanups == [] ==> t.lastUsageCleanup == c.start
    decreases |run|
  {
    if run != [] {
      StartKept(c, Apply(s, run[0]), run[1..]);
    }
  }

  // Cleanups start at least five minutes apart.
  lemma CleanupsAreSpaced(c: Config, run: seq<Event>)
    requires Valid(c, Init(c), run)
    ensures var starts := Exec(c, Init(c), run).cleanups;
      forall i: nat, j: nat | i < j < |starts| :: starts[j] - starts[i] >= 300
  {
    RunInv(c, Init(c), run);
  }
}
