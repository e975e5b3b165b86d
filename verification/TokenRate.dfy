// The token scheduler over the limiter's table: what GetTokenBatch records as
// usages, GetToken hands out as tokens (internal/service/worker_scheduler.go
// and internal/repository/storage_workers.go).
module TokenRate {
  import opened Prelude
  import RateLimit
  import WorkerScheduler

  datatype State = State(limiter: RateLimit.State, scheduler: WorkerScheduler.State)

  datatype Event =
    | Limiter(l: RateLimit.Event)          // the clock, the workers, the cleanup
    | Scheduler(w: WorkerScheduler.Event)  // what calls do between their batches
    | Fetch(c: nat, picks: seq<nat>)       // GetTokenBatch returned these workers' tokens
    | FetchLost(c: nat, picks: seq<nat>)   // it committed, but reported an error

  function Init(c: RateLimit.Config): State {
    State(RateLimit.Init(c), WorkerScheduler.INIT)
  }

  // The batch call c asks for.
  function BatchOf(s: State, c: nat, picks: seq<nat>): RateLimit.Event
    requires WorkerScheduler.At(s.scheduler, c)
  {
    RateLimit.Batch(s.scheduler.calls[c].storage, WorkerScheduler.TOKEN_BATCH_SIZE, picks)
  }

  function LostBatchOf(s: State, c: nat, picks: seq<nat>): RateLimit.Event
    requires WorkerScheduler.At(s.scheduler, c)
  {
    RateLimit.BatchLost(s.scheduler.calls[c].storage, WorkerScheduler.TOKEN_BATCH_SIZE, picks)
  }

  // One token for each usage that is recorded next.
  function Tokens(storage: nat, next: nat, n: nat): (ts: seq<WorkerScheduler.Token>)
    ensures |ts| == n && forall i: nat | i < n :: ts[i] == WorkerScheduler.Token(storage, next + i)
  {
    seq(n, i requires 0 <= i < n => WorkerScheduler.Token(storage, next + i))
  }

  function TokensOf(s: State, c: nat, picks: seq<nat>): seq<WorkerScheduler.Token>
    requires WorkerScheduler.At(s.scheduler, c)
  {
    Tokens(s.scheduler.calls[c].storage, |s.limiter.history|, |picks|)
  }

  predicate Looping(s: State, c: nat) {
    WorkerScheduler.At(s.scheduler, c) && s.scheduler.calls[c].phase.Looping?
  }

  ghost predicate Enabled(c: RateLimit.Config, s: State, e: Event) {
    match e
    case Limiter(l) => !l.Batch? && !l.BatchLost? && RateLimit.Enabled(c, s.limiter, l)
    case Scheduler(w) => !w.BatchOk? && !w.BatchEmpty? && WorkerScheduler.Enabled(s.scheduler, w)
    case Fetch(call, picks) => Looping(s, call) && RateLimit.Enabled(c, s.limiter, BatchOf(s, call, picks))
    case FetchLost(call, picks) =>
      Looping(s, call) && picks != [] && RateLimit.Enabled(c, s.limiter, LostBatchOf(s, call, picks))
  }

  function Apply(c: RateLimit.Config, s: State, e: Event): State
    requires Enabled(c, s, e)
  {
    match e
    case Limiter(l) => s.(limiter := RateLimit.Apply(s.limiter, l))
    case Scheduler(w) => s.(scheduler := WorkerScheduler.Apply(s.scheduler, w))
    case Fetch(call, picks) =>
      State(RateLimit.Apply(s.limiter, BatchOf(s, call, picks)),
            if picks == [] then WorkerScheduler.Apply(s.scheduler, WorkerScheduler.BatchEmpty(call))
            else WorkerScheduler.Fetched(s.scheduler, call, TokensOf(s, call, picks)))
    case FetchLost(call, picks) =>
      State(RateLimit.Apply(s.limiter, LostBatchOf(s, call, picks)),
            WorkerScheduler.Apply(s.scheduler, WorkerScheduler.BatchFail(call)))
  }

  /******* Both halves run as before *******/

  // Every recorded token stands for its own recorded usage.
  ghost predicate Linked(s: State) {
    && (forall t | t in s.scheduler.recorded :: t.usage < |s.limiter.history|)
    && (forall t, u | t in s.scheduler.recorded && u in s.scheduler.recorded && t.usage == u.usage :: t == u)
  }

  // What the event is for the limiter, and for the scheduler, if anything.
  function LimiterPart(s: State, e: Event): Option<RateLimit.Event>
    requires e.Fetch? || e.FetchLost? ==> Looping(s, e.c)
  {
    match e
    case Limiter(l) => Some(l)
    case Scheduler(_) => None
    case Fetch(c, picks) => Some(BatchOf(s, c, picks))
    case FetchLost(c, picks) => Some(LostBatchOf(s, c, picks))
  }

  function SchedulerPart(s: State, e: Event): Option<WorkerScheduler.Event>
    requires e.Fetch? || e.FetchLost? ==> Looping(s, e.c)
  {
    match e
    case Limiter(_) => None
    case Scheduler(w) => Some(w)
    case Fetch(c, picks) =>
      Some(if picks == [] then WorkerScheduler.BatchEmpty(c) else WorkerScheduler.BatchOk(c, TokensOf(s, c, picks)))
    case FetchLost(c, _) => Some(WorkerScheduler.BatchFail(c))
  }

  // Tokens of new usages are fresh, so a fetched batch is one the scheduler
  // expects.
  lemma FetchIsFresh(c: RateLimit.Config, s: State, call: nat, picks: seq<nat>)
    requires Linked(s) && Enabled(c, s, Fetch(call, picks)) && picks != []
    ensures WorkerScheduler.FreshBatch(s.scheduler, s.scheduler.calls[call].storage, TokensOf(s, call, picks))
  {
  }

  lemma Parts(c: RateLimit.Config, s: State, e: Event)
    requires Linked(s) && Enabled(c, s, e)
    ensures var t := Apply(c, s, e);
      && (match LimiterPart(s, e)
          case None => t.limiter == s.limiter
          case Some(l) => RateLimit.Enabled(c, s.limiter, l) && t.limiter == RateLimit.Apply(s.limiter, l))
      && (match SchedulerPart(s, e)
          case None => t.scheduler == s.scheduler
          case Some(w) =>
            WorkerScheduler.Enabled(s.scheduler, w) && t.scheduler == WorkerScheduler.Apply(s.scheduler, w))
  {
    if e.Fetch? && e.picks != [] {
      FetchIsFresh(c, s, e.c, e.picks);
    }
  }

  // The tokens a call gets are those of the picked workers, fetched now.
  lemma FetchedArePicked(c: RateLimit.Config, s: State, call: nat, picks: seq<nat>)
    requires Enabled(c, s, Fetch(call, picks))
    ensures var after := Apply(c, s, Fetch(call, picks)).limiter.history;
      var tokens := TokensOf(s, call, picks);
      forall i: nat | i < |picks| ::
        tokens[i].usage < |after| && after[tokens[i].usage] == RateLimit.Usage(picks[i], s.limiter.now)
  {
    var used := RateLimit.Recorded(picks, s.limiter.now);
    assert Apply(c, s, Fetch(call, picks)).limiter.history == s.limiter.history + used;
  }

  lemma HistoryGrows(c: RateLimit.Config, s: State, e: Event)
    requires Enabled(c, s, e)
    ensures s.limiter.history <= Apply(c, s, e).limiter.history
  {
  }

  lemma FetchLinks(c: RateLimit.Config, s: State, call: nat, picks: seq<nat>)
    requires Linked(s) && Enabled(c, s, Fetch(call, picks)) && picks != []
    ensures Linked(Apply(c, s, Fetch(call, picks)))
  {
    var t := Apply(c, s, Fetch(call, picks));
    FetchedArePicked(c, s, call, picks);
    assert t.scheduler.recorded == s.scheduler.recorded + multiset(TokensOf(s, call, picks));
  }

  lemma LinkedStep(c: RateLimit.Config, s: State, e: Event)
    requires Linked(s) && Enabled(c, s, e)
    ensures Linked(Apply(c, s, e))
  {
    if e.Fetch? && e.picks != [] {
      FetchLinks(c, s, e.c, e.picks);
    } else {
      HistoryGrows(c, s, e);
      assert Apply(c, s, e).scheduler.recorded == s.scheduler.recorded;
    }
  }

  ghost predicate Valid(c: RateLimit.Config, s: State, run: seq<Event>)
    decreases |run|
  {
    run == [] || (Enabled(c, s, run[0]) && Valid(c, Apply(c, s, run[0]), run[1..]))
  }

  ghost function Exec(c: RateLimit.Config, s: State, run: seq<Event>): State
    requires Valid(c, s, run)
    decreases |run|
  {
    if run == [] then s else Exec(c, Apply(c, s, run[0]), run[1..])
  }

  lemma Cons<E>(e: E, rest: seq<E>)
    ensures ([e] + rest)[0] == e && ([e] + rest)[1..] == rest
  {
  }

  // A joint run is a run of the limiter and a run of the scheduler, so what
  // each of them guarantees holds of it.
  lemma {:induction false} Project(c: RateLimit.Config, s: State, run: seq<Event>)
    returns (ls: seq<RateLimit.Event>, ws: seq<WorkerScheduler.Event>)
    requires Linked(s) && Valid(c, s, run)
    ensures Linked(Exec(c, s, run))
    ensures RateLimit.Valid(c, s.limiter, ls) && RateLimit.Exec(c, s.limiter, ls) == Exec(c, s, run).limiter
    ensures WorkerScheduler.Valid(s.scheduler, ws)
    ensures WorkerScheduler.Exec(s.scheduler, ws) == Exec(c, s, run).scheduler
    decreases |run|
  {
    if run == [] {
      ls, ws := [], [];
    } else {
      Parts(c, s, run[0]);
      LinkedStep(c, s, run[0]);
      ls, ws := Project(c, Apply(c, s, run[0]), run[1..]);
      var l, w := LimiterPart(s, run[0]), SchedulerPart(s, run[0]);
      if l.Some? {
        Cons(l.value, ls);
        ls := [l.value] + ls;
      }
      if w.Some? {
        Cons(w.value, ws);
        ws := [w.value] + ws;
      }
    }
  }

  /******* Tokens within the limit *******/

  lemma {:induction false} Injection<A>(m: map<A, nat>, targets: set<nat>)
    requires forall a | a in m :: m[a] in targets
    requires forall a, b | a in m && b in m && m[a] == m[b] :: a == b
    ensures |m.Keys| <= |targets|
    decreases |targets|
  {
    if m.Keys != {} {
      var a :| a in m.Keys;
      Injection(m - {a}, targets - {m[a]});
      assert (m - {a}).Keys == m.Keys - {a};
    }
  }

  // Usage i is one of worker w within [from, to].
  predicate Within(us: seq<RateLimit.Usage>, i: nat, w: nat, from: int, to: int) {
    i < |us| && us[i].worker == w && from <= us[i].at <= to
  }

  function Matching(us: seq<RateLimit.Usage>, w: nat, from: int, to: int): set<nat> {
    set i: nat | i < |us| && Within(us, i, w, from, to)
  }

  lemma {:induction false} MatchingCount(us: seq<RateLimit.Usage>, w: nat, from: int, to: int)
    ensures |Matching(us, w, from, to)| == RateLimit.CountWithin(us, w, from, to)
  {
    if us == [] {
      assert Matching(us, w, from, to) == {};
    } else {
      var n := |us| - 1;
      MatchingCount(us[..n], w, from, to);
      var before := Matching(us[..n], w, from, to);
      assert Matching(us, w, from, to) == before + if Within(us, n, w, from, to) then {n} else {};
    }
  }

  // The tokens of worker w fetched within the minute from `from` on.
  ghost function Fetched(s: State, w: nat, from: int): map<WorkerScheduler.Token, nat> {
    map t: WorkerScheduler.Token
      | t in s.scheduler.recorded && Within(s.limiter.history, t.usage, w, from, from + RateLimit.WINDOW) :: t.usage
  }

  // However calls, batches and cleanups interleave, at most rateLimit tokens of
  // any one worker are fetched within any one minute.
  lemma FetchedWithinLimit(c: RateLimit.Config, run: seq<Event>, w: nat, from: int)
    requires Valid(c, Init(c), run)
    ensures |Fetched(Exec(c, Init(c), run), w, from).Keys| <= Max(c.rateLimit, 0)
  {
    var s := Exec(c, Init(c), run);
    var ls, ws := Project(c, Init(c), run);
    Injection(Fetched(s, w, from), Matching(s.limiter.history, w, from, from + RateLimit.WINDOW));
    MatchingCount(s.limiter.history, w, from, from + RateLimit.WINDOW);
    RateLimit.RateLimitHolds(c, ls, w, from);
  }

  // The calls that have returned a token of worker w fetched within the minute
  // from `from` on, with the usage each of them stands for.
  ghost function Served(s: State, w: nat, from: int): map<nat, nat> {
    map c: nat | c < |s.scheduler.calls| && ServedBy(s, c, w, from) :: s.scheduler.calls[c].phase.token.value.usage
  }

  ghost predicate ServedBy(s: State, c: nat, w: nat, from: int) {
    && WorkerScheduler.At(s.scheduler, c)
    && s.scheduler.calls[c].phase.Returned? && s.scheduler.calls[c].phase.token.Some?
    && Within(s.limiter.history, s.scheduler.calls[c].phase.token.value.usage, w, from, from + RateLimit.WINDOW)
  }

  // So at most rateLimit calls get tokens of any one worker that were fetched
  // within the same minute.
  lemma HandedOutWithinLimit(c: RateLimit.Config, run: seq<Event>, w: nat, from: int)
    requires Valid(c, Init(c), run)
    ensures |Served(Exec(c, Init(c), run), w, from).Keys| <= Max(c.rateLimit, 0)
  {
    var s := Exec(c, Init(c), run);
    var ls, ws := Project(c, Init(c), run);
    var served := Served(s, w, from);
    forall a, b | a in served && b in served && served[a] == served[b] ensures a == b {
      var t, u := s.scheduler.calls[a].phase.token.value, s.scheduler.calls[b].phase.token.value;
      WorkerScheduler.HandedOutOnce(ws, a, t);
      WorkerScheduler.HandedOutOnce(ws, b, u);
    }
    Injection(served, Matching(s.limiter.history, w, from, from + RateLimit.WINDOW));
    MatchingCount(s.limiter.history, w, from, from + RateLimit.WINDOW);
    RateLimit.RateLimitHolds(c, ls, w, from);
  }
}
