// Download trackers (internal/handler/download_handler.go and
// progress_tracker.go): requests with the same download id replace each other,
// an interrupted one waits for the browser to come back, and timers remove what
// is over. Every Event is one region of code under downloadsMu, or the start of
// a timer; timers fire at any time.
module DownloadTracker {
  import opened Prelude

  datatype Failure = ClientDisconnected | TransferFailed

  /******* One tracker *******/

  datatype Flags = Flags(canceled: bool, interrupted: bool, done: bool, err: Option<Failure>)

  const NEW := Flags(false, false, false, None)

  datatype Status = Downloading | Interrupted | Done | Error | Cancelled

  function StatusOf(f: Flags): Status {
    if f.done && f.canceled then Cancelled
    else if f.done && f.err.Some? then Error
    else if f.done then Done
    else if f.interrupted then Interrupted
    else Downloading
  }

  function Rank(s: Status): nat {
    match s
    case Downloading => 0
    case Interrupted => 1
    case Done => 2
    case Error => 2
    case Cancelled => 3
  }

  function MarkCancelled(f: Flags): Flags { f.(canceled := true, done := true) }

  function Finished(f: Flags, err: Option<Failure>): Flags { f.(done := true, err := err) }

  function Parked(f: Flags): Flags { f.(interrupted := true) }

  function Expired(f: Flags): Flags {
    if f.done then f else f.(done := true, err := Some(ClientDisconnected))
  }

  class Tracker {
    var canceled: bool
    var interrupted: bool
    var err: Option<Failure>
    var done: bool
    var contextDone: bool     // what cancel() ends

    ghost function Contents(): Flags
      reads this
    {
      Flags(canceled, interrupted, done, err)
    }

    constructor ()
      ensures Contents() == NEW && !contextDone
    {
      canceled, interrupted, done, err, contextDone := false, false, false, None, false;
    }

    method MarkCancelledLocked()
      modifies this
      ensures Contents() == MarkCancelled(old(Contents())) && contextDone
    {
      canceled := true;
      done := true;
      contextDone := true;
    }

    method Finish(failure: Option<Failure>)
      modifies this
      ensures Contents() == Finished(old(Contents()), failure) && contextDone == old(contextDone)
    {
      done := true;
      err := failure;
    }

    method StatusLocked() returns (s: Status)
      ensures s == StatusOf(Contents())
    {
      if done && canceled {
        s := Cancelled;
      } else if done && err.Some? {
        s := Error;
      } else if done {
        s := Done;
      } else if interrupted {
        s := Interrupted;
      } else {
        s := Downloading;
      }
    }
  }

  /******* The handler *******/

  // Where the request that made a tracker is.
  datatype Request =
    | Active
    | Failing(canceled: bool)      // failTracker has read `canceled`
    | Parking                      // marked interrupted, the grace timer not started yet
    | Ending                       // before the deferred cleanup
    | Over

  // A tracker with its request and its timers: pending grace timers, expired
  // ones about to schedule a removal, and pending removals.
  datatype Entry = Entry(id: nat, flags: Flags, request: Request, grace: nat, expiring: nat, removals: nat)

  datatype State = State(trackers: seq<Entry>, downloads: map<nat, nat>)

  datatype Event =
    | Setup(id: nat)
    | CancelDownload(id: nat)
    | Finish(t: nat)
    | Fail(t: nat)
    | FailFinish(t: nat)
    | FailInterrupt(t: nat)
    | StartGrace(t: nat)
    | RequestOver(t: nat)
    | GraceFires(t: nat)
    | ScheduleRemoval(t: nat)
    | RemovalFires(t: nat)

  const INIT := State([], map[])

  predicate At(s: State, t: nat) {
    t < |s.trackers|
  }

  // Tracker t is the one its id leads to.
  predicate Current(s: State, t: nat)
    requires At(s, t)
  {
    s.trackers[t].id in s.downloads && s.downloads[s.trackers[t].id] == t
  }

  predicate Enabled(s: State, e: Event) {
    match e
    case Setup(_) => true
    case CancelDownload(_) => true
    case Finish(t) => At(s, t) && s.trackers[t].request.Active?
    case Fail(t) => At(s, t) && s.trackers[t].request.Active?
    case FailFinish(t) => At(s, t) && s.trackers[t].request.Failing?
    case FailInterrupt(t) => At(s, t) && s.trackers[t].request.Failing? && !s.trackers[t].request.canceled
    case StartGrace(t) => At(s, t) && s.trackers[t].request.Parking?
    case RequestOver(t) => At(s, t) && s.trackers[t].request.Ending?
    case GraceFires(t) => At(s, t) && s.trackers[t].grace > 0
    case ScheduleRemoval(t) => At(s, t) && s.trackers[t].expiring > 0
    case RemovalFires(t) => At(s, t) && s.trackers[t].removals > 0
  }

  function Put(s: State, t: nat, x: Entry): State
    requires At(s, t)
  {
    s.(trackers := s.trackers[t := x])
  }

  // The tracker an id leads to is marked cancelled.
  function CancelCurrent(s: State, id: nat): State {
    if id in s.downloads && At(s, s.downloads[id]) then
      var t := s.downloads[id];
      Put(s, t, s.trackers[t].(flags := MarkCancelled(s.trackers[t].flags)))
    else s
  }

  predicate Waiting(f: Flags) {
    f.interrupted && !f.done
  }

  function Apply(s: State, e: Event): State
    requires Enabled(s, e)
  {
    match e
    case Setup(id) =>
      var r := CancelCurrent(s, id);
      State(r.trackers + [Entry(id, NEW, Active, 0, 0, 0)], s.downloads[id := |r.trackers|])
    case CancelDownload(id) => CancelCurrent(s, id)
    case Finish(t) => Put(s, t, s.trackers[t].(flags := Finished(s.trackers[t].flags, None), request := Ending))
    case Fail(t) => Put(s, t, s.trackers[t].(request := Failing(s.trackers[t].flags.canceled)))
    case FailFinish(t) =>
      Put(s, t, s.trackers[t].(flags := Finished(s.trackers[t].flags, Some(TransferFailed)), request := Ending))
    case FailInterrupt(t) => Put(s, t, s.trackers[t].(flags := Parked(s.trackers[t].flags), request := Parking))
    case StartGrace(t) => Put(s, t, s.trackers[t].(grace := s.trackers[t].grace + 1, request := Ending))
    case RequestOver(t) => Put(s, t, s.trackers[t].(removals := s.trackers[t].removals + 1, request := Over))
    case GraceFires(t) =>
      var x := s.trackers[t];
      if Current(s, t) then Put(s, t, x.(grace := x.grace - 1, expiring := x.expiring + 1, flags := Expired(x.flags)))
      else Put(s, t, x.(grace := x.grace - 1))
    case ScheduleRemoval(t) =>
      var x := s.trackers[t];
      Put(s, t, x.(expiring := x.expiring - 1, removals := x.removals + 1))
    case RemovalFires(t) =>
      var x := s.trackers[t];
      var fired := Put(s, t, x.(removals := x.removals - 1));
      if Current(s, t) && !Waiting(x.flags) then fired.(downloads := s.downloads - {x.id}) else fired
  }

  /******* The code under downloadsMu *******/

  // Only tracker n's flags have changed, to f.
  ghost predicate Sets(s: State, t: State, n: nat, f: Flags) {
    && |t.trackers| == |s.trackers| && n < |t.trackers| && t.trackers[n].flags == f
    && forall u: nat | u < |t.trackers| && u != n :: t.trackers[u].flags == s.trackers[u].flags
  }

  lemma CancelEffect(s: State, id: nat)
    ensures var t := CancelCurrent(s, id);
      && t.downloads == s.downloads && |t.trackers| == |s.trackers|
      && if id in s.downloads && At(s, s.downloads[id])
         then Sets(s, t, s.downloads[id], MarkCancelled(s.trackers[s.downloads[id]].flags)) else t == s
  {
  }

  lemma FinishEffect(s: State, n: nat, e: Event)
    requires Enabled(s, e) && (e == Finish(n) || e == FailFinish(n))
    ensures Apply(s, e).downloads == s.downloads
    ensures Sets(s, Apply(s, e), n,
                 Finished(s.trackers[n].flags, if e.Finish? then None else Some(TransferFailed)))
  {
  }

  lemma GraceEffect(s: State, n: nat)
    requires Enabled(s, GraceFires(n))
    ensures Apply(s, GraceFires(n)).downloads == s.downloads
    ensures var f := s.trackers[n].flags;
      Sets(s, Apply(s, GraceFires(n)), n, if Current(s, n) then Expired(f) else f)
  {
  }

  lemma RemovalEffect(s: State, n: nat)
    requires Enabled(s, RemovalFires(n))
    ensures var x := s.trackers[n];
      && Sets(s, Apply(s, RemovalFires(n)), n, x.flags)
      && Apply(s, RemovalFires(n)).downloads
         == if Current(s, n) && !Waiting(x.flags) then s.downloads - {x.id} else s.downloads
  {
  }

  ghost predicate Distinct(made: seq<Tracker>) {
    forall i: nat, j: nat | i < j < |made| :: made[i] != made[j]
  }

  // The trackers have the flags the step system says.
  ghost predicate Flagged(made: seq<Tracker>, trackers: seq<Entry>)
    reads made
  {
    && |made| == |trackers|
    && forall i: nat | i < |made| :: made[i].Contents() == trackers[i].flags
  }

  // Each id leads to the tracker with the number the step system says.
  ghost predicate Named(downloads: map<nat, Tracker>, made: seq<Tracker>, numbers: map<nat, nat>) {
    && (forall id :: id in downloads <==> id in numbers)
    && (forall id | id in downloads :: numbers[id] < |made| && made[numbers[id]] == downloads[id])
  }

  lemma NameRemoved(downloads: map<nat, Tracker>, made: seq<Tracker>, numbers: map<nat, nat>, id: nat)
    requires Named(downloads, made, numbers)
    ensures Named(downloads - {id}, made, numbers - {id})
  {
  }

  lemma NameAdded(downloads: map<nat, Tracker>, made: seq<Tracker>, numbers: map<nat, nat>, id: nat, tracker: Tracker)
    requires Named(downloads, made, numbers)
    ensures Named(downloads[id := tracker], made + [tracker], numbers[id := |made|])
  {
  }

  lemma DistinctAdded(made: seq<Tracker>, tracker: Tracker)
    requires Distinct(made) && tracker !in made
    ensures Distinct(made + [tracker])
  {
  }

  // The handler's table of trackers. `made` are all trackers ever set up, in the
  // order the step system numbers them, and `steps` is its state: every region
  // of code under the lock is one of its events.
  class DownloadHandler {
    var downloads: map<nat, Tracker>
    ghost var made: seq<Tracker>
    ghost var steps: State

    ghost predicate Numbers(t: Tracker, n: nat)
      reads this
    {
      n < |made| && made[n] == t
    }

    ghost predicate Valid()
      reads this, made
    {
      && Distinct(made) && Flagged(made, steps.trackers)
      && Named(downloads, made, steps.downloads)
    }

    constructor ()
      ensures Valid() && steps == INIT
    {
      downloads, made, steps := map[], [], INIT;
    }

    method CancelDownload(id: nat) returns (found: bool)
      requires Valid()
      modifies this`steps, made
      ensures Valid() && (found <==> id in downloads)
      ensures steps == Apply(old(steps), Event.CancelDownload(id))
    {
      CancelEffect(steps, id);
      found := id in downloads;
      if found {
        downloads[id].MarkCancelledLocked();
      }
      steps := Apply(steps, Event.CancelDownload(id));
    }

    // setupDownloadTracker: what it does to a previous tracker is what a cancel
    // request does.
    method Setup(id: nat) returns (tracker: Tracker)
      requires Valid()
      modifies this, made
      ensures Valid() && fresh(tracker) && made == old(made) + [tracker]
      ensures steps == Apply(old(steps), Event.Setup(id))
    {
      var _ := CancelDownload(id);
      tracker := new Tracker();
      NameAdded(downloads, made, steps.downloads, id, tracker);
      DistinctAdded(made, tracker);
      downloads := downloads[id := tracker];
      steps := State(steps.trackers + [Entry(id, NEW, Active, 0, 0, 0)], steps.downloads[id := |made|]);
      made := made + [tracker];
    }

    method FinishTracker(tracker: Tracker, failed: bool, ghost n: nat)
      requires Valid() && Numbers(tracker, n)
      requires Enabled(steps, if failed then FailFinish(n) else Event.Finish(n))
      modifies this`steps, tracker
      ensures Valid() && steps == Apply(old(steps), if failed then FailFinish(n) else Event.Finish(n))
    {
      ghost var e := if failed then FailFinish(n) else Event.Finish(n);
      FinishEffect(steps, n, e);
      tracker.Finish(if failed then Some(TransferFailed) else None);
      steps := Apply(steps, e);
    }

    // The first region of failTracker.
    method ReadCanceled(tracker: Tracker, ghost n: nat) returns (canceled: bool)
      requires Valid() && Numbers(tracker, n) && Enabled(steps, Fail(n))
      modifies this`steps
      ensures Valid() && steps == Apply(old(steps), Fail(n))
      ensures !canceled <==> Enabled(steps, FailInterrupt(n))
    {
      canceled := tracker.canceled;
      steps := Apply(steps, Fail(n));
    }

    // The first region of interruptTracker.
    method Interrupt(tracker: Tracker, ghost n: nat)
      requires Valid() && Numbers(tracker, n) && Enabled(steps, FailInterrupt(n))
      modifies this`steps, tracker
      ensures Valid() && steps == Apply(old(steps), FailInterrupt(n))
    {
      tracker.interrupted := true;
      steps := Apply(steps, FailInterrupt(n));
    }

    // The code compares pointers.
    lemma SamePointer(id: nat, tracker: Tracker, n: nat)
      requires Valid() && Numbers(tracker, n) && At(steps, n) && steps.trackers[n].id == id
      ensures id in downloads && downloads[id] == tracker <==> Current(steps, n)
      ensures tracker.Contents() == steps.trackers[n].flags
    {
    }

    // What the grace timer does under the lock: true if it has to schedule the
    // tracker's removal.
    method GraceOver(id: nat, tracker: Tracker, ghost n: nat) returns (current: bool)
      requires Valid() && Numbers(tracker, n) && Enabled(steps, GraceFires(n)) && steps.trackers[n].id == id
      modifies this`steps, tracker
      ensures Valid() && steps == Apply(old(steps), GraceFires(n))
      ensures current <==> Current(old(steps), n)
    {
      SamePointer(id, tracker, n);
      GraceEffect(steps, n);
      current := id in downloads && downloads[id] == tracker;
      if current && !tracker.done {
        tracker.done := true;
        tracker.err := Some(ClientDisconnected);
      }
      steps := Apply(steps, GraceFires(n));
    }

    // cleanupDownloadTracker
    method Cleanup(id: nat, tracker: Tracker, ghost n: nat)
      requires Valid() && Numbers(tracker, n) && Enabled(steps, RemovalFires(n)) && steps.trackers[n].id == id
      modifies this`downloads, this`steps
      ensures Valid() && steps == Apply(old(steps), RemovalFires(n))
    {
      SamePointer(id, tracker, n);
      RemovalEffect(steps, n);
      NameRemoved(downloads, made, steps.downloads, id);
      steps := Apply(steps, RemovalFires(n));
      if !(id in downloads && downloads[id] == tracker) {
        return;
      }
      if tracker.interrupted && !tracker.done {
        return;
      }
      downloads := downloads - {id};
    }

    // What the progress stream of a download reports, if there is a tracker.
    method Status(id: nat) returns (status: Option<Status>)
      requires Valid()
      ensures status == if id in steps.downloads && At(steps, steps.downloads[id])
                        then Some(StatusOf(steps.trackers[steps.downloads[id]].flags)) else None
    {
      if id !in downloads {
        return None;
      }
      var s := downloads[id].StatusLocked();
      status := Some(s);
    }
  }

  /******* Invariant *******/

  // A registered tracker's request is running, or a pending timer will end it.
  predicate Attended(x: Entry) {
    || !x.request.Over?
    || x.grace > 0
    || x.expiring > 0
    || (x.removals > 0 && !Waiting(x.flags))
  }

  ghost predicate Registered(s: State) {
    forall id | id in s.downloads :: At(s, s.downloads[id]) && s.trackers[s.downloads[id]].id == id
  }

  // A registered tracker that waits for the browser has its grace period ahead,
  // or is about to start it.
  predicate GraceAhead(x: Entry) {
    Waiting(x.flags) ==> x.grace > 0 || x.request.Parking?
  }

  ghost predicate Inv(s: State) {
    && Registered(s)
    && (forall t: nat | At(s, t) && Current(s, t) :: Attended(s.trackers[t]) && GraceAhead(s.trackers[t]))
  }

  lemma PutKeeps(s: State, t: nat, x: Entry)
    requires Inv(s) && At(s, t) && x.id == s.trackers[t].id
    requires Current(s, t) ==> Attended(x) && GraceAhead(x)
    ensures Inv(Put(s, t, x))
  {
    var r := Put(s, t, x);
    forall u: nat | At(r, u) && Current(r, u) ensures Attended(r.trackers[u]) && GraceAhead(r.trackers[u]) {
      assert Current(s, u);
    }
  }

  lemma CancelKeeps(s: State, id: nat)
    requires Inv(s)
    ensures Inv(CancelCurrent(s, id))
  {
    if id in s.downloads {
      var t := s.downloads[id];
      assert Current(s, t);
      PutKeeps(s, t, s.trackers[t].(flags := MarkCancelled(s.trackers[t].flags)));
    }
  }

  lemma SetupKeeps(s: State, id: nat)
    requires Inv(s)
    ensures Inv(Apply(s, Setup(id)))
  {
    CancelKeeps(s, id);
    var r, t := CancelCurrent(s, id), Apply(s, Setup(id));
    forall u: nat | At(t, u) && Current(t, u) ensures Attended(t.trackers[u]) && GraceAhead(t.trackers[u]) {
      if u < |r.trackers| {
        assert Current(r, u);
      }
    }
  }

  lemma RemovalKeeps(s: State, t: nat)
    requires Inv(s) && Enabled(s, RemovalFires(t))
    ensures Inv(Apply(s, RemovalFires(t)))
  {
    var x := s.trackers[t];
    var y := x.(removals := x.removals - 1);
    if Current(s, t) && !Waiting(x.flags) {
      var r := Apply(s, RemovalFires(t));
      forall u: nat | At(r, u) && Current(r, u) ensures Attended(r.trackers[u]) && GraceAhead(r.trackers[u]) {
        assert Current(s, u) && u != t;
      }
    } else {
      PutKeeps(s, t, y);
    }
  }

  lemma GraceKeeps(s: State, t: nat)
    requires Inv(s) && Enabled(s, GraceFires(t))
    ensures Inv(Apply(s, GraceFires(t)))
  {
    var x := s.trackers[t];
    PutKeeps(s, t, if Current(s, t) then x.(grace := x.grace - 1, expiring := x.expiring + 1, flags := Expired(x.flags))
                   else x.(grace := x.grace - 1));
  }

  lemma RequestKeeps(s: State, e: Event)
    requires Inv(s) && Enabled(s, e)
    requires e.Finish? || e.Fail? || e.FailFinish? || e.FailInterrupt? || e.StartGrace? || e.RequestOver?
          || e.ScheduleRemoval?
    ensures Inv(Apply(s, e))
  {
    PutKeeps(s, e.t, Apply(s, e).trackers[e.t]);
  }

  lemma Step(s: State, e: Event)
    requires Inv(s) && Enabled(s, e)
    ensures Inv(Apply(s, e))
  {
    match e
    case Setup(id) => SetupKeeps(s, id);
    case CancelDownload(id) => CancelKeeps(s, id);
    case GraceFires(t) => GraceKeeps(s, t);
    case RemovalFires(t) => RemovalKeeps(s, t);
    case _ => RequestKeeps(s, e);
  }

  /******* What every run keeps *******/

  predicate Valid(s: State, run: seq<Event>)
    decreases |run|
  {
    run == [] || (Enabled(s, run[0]) && Valid(Apply(s, run[0]), run[1..]))
  }

  function Exec(s: State, run: seq<Event>): State
    requires Valid(s, run)
    decreases |run|
  {
    if run == [] then s else Exec(Apply(s, run[0]), run[1..])
  }

  lemma {:induction false} RunInv(s: State, run: seq<Event>)
    requires Inv(s) && Valid(s, run)
    ensures Inv(Exec(s, run))
    decreases |run|
  {
    if run != [] {
      Step(s, run[0]);
      RunInv(Apply(s, run[0]), run[1..]);
    }
  }

  // Every registered tracker has a running request or a pending timer; once its
  // request is over and its timers have fired, it is gone.
  lemma RegisteredIsAttended(run: seq<Event>, id: nat)
    requires Valid(INIT, run) && id in Exec(INIT, run).downloads
    ensures var s := Exec(INIT, run);
      At(s, s.downloads[id]) && s.trackers[s.downloads[id]].id == id && Attended(s.trackers[s.downloads[id]])
  {
    RunInv(INIT, run);
    var s := Exec(INIT, run);
    assert Current(s, s.downloads[id]);
  }

  // What an event may do to another tracker: only a newer request or a cancel
  // request for the same id changes it, by cancelling it.
  lemma OthersKept(s: State, e: Event, u: nat)
    requires Inv(s) && Enabled(s, e) && At(s, u)
    requires !e.Setup? && !e.CancelDownload? ==> e.t != u
    ensures At(Apply(s, e), u)
    ensures var x, y := s.trackers[u], Apply(s, e).trackers[u];
      || y == x
      || ((e.Setup? || e.CancelDownload?) && e.id == x.id && Current(s, u) && y == x.(flags := MarkCancelled(x.flags)))
    ensures !e.Setup? && Current(s, u) ==> Current(Apply(s, e), u)
  {
  }

  // A timer of one tracker neither removes nor changes any other, in particular
  // not a newer one with the same id.
  lemma StaleTimersAreHarmless(s: State, e: Event, u: nat)
    requires Inv(s) && Enabled(s, e) && At(s, u)
    requires (e.GraceFires? || e.ScheduleRemoval? || e.RemovalFires?) && e.t != u
    ensures Apply(s, e).trackers[u] == s.trackers[u]
    ensures Current(s, u) ==> Current(Apply(s, e), u)
  {
    OthersKept(s, e, u);
  }

  lemma FlagsOnlyAdvance(s: State, e: Event, u: nat)
    requires Enabled(s, e) && At(s, u)
    ensures At(Apply(s, e), u)
    ensures Rank(StatusOf(s.trackers[u].flags)) <= Rank(StatusOf(Apply(s, e).trackers[u].flags))
  {
  }

  // No tracker's status ever moves back.
  lemma {:induction false} StatusNeverMovesBack(s: State, run: seq<Event>, u: nat)
    requires Valid(s, run) && At(s, u)
    ensures At(Exec(s, run), u)
    ensures Rank(StatusOf(s.trackers[u].flags)) <= Rank(StatusOf(Exec(s, run).trackers[u].flags))
    decreases |run|
  {
    if run != [] {
      FlagsOnlyAdvance(s, run[0], u);
      StatusNeverMovesBack(Apply(s, run[0]), run[1..], u);
    }
  }

  // A cancel request, or a newer request, reaches tracker u through its id.
  predicate Cancels(s: State, e: Event, u: nat) {
    (e.Setup? || e.CancelDownload?) && At(s, u) && Current(s, u) && e.id == s.trackers[u].id
  }

  ghost predicate CancelledBy(s: State, run: seq<Event>, u: nat)
    requires Valid(s, run)
    decreases |run|
  {
    run != [] && (Cancels(s, run[0], u) || CancelledBy(Apply(s, run[0]), run[1..], u))
  }

  predicate ReportsCancelled(s: State, u: nat)
    requires At(s, u)
  {
    StatusOf(s.trackers[u].flags) == Cancelled
  }

  lemma CancelStep(s: State, e: Event, u: nat)
    requires Inv(s) && Enabled(s, e) && At(s, u)
    requires s.trackers[u].flags.canceled ==> s.trackers[u].flags.done
    ensures At(Apply(s, e), u)
    ensures ReportsCancelled(Apply(s, e), u) <==> ReportsCancelled(s, u) || Cancels(s, e, u)
    ensures var f := Apply(s, e).trackers[u].flags; f.canceled ==> f.done
  {
    if e.Setup? || e.CancelDownload? || e.t != u {
      OthersKept(s, e, u);
    }
  }

  lemma {:induction false} CancelRun(s: State, run: seq<Event>, u: nat)
    requires Inv(s) && Valid(s, run) && At(s, u)
    requires s.trackers[u].flags.canceled ==> s.trackers[u].flags.done
    ensures At(Exec(s, run), u)
    ensures ReportsCancelled(Exec(s, run), u) <==> ReportsCancelled(s, u) || CancelledBy(s, run, u)
    decreases |run|
  {
    if run != [] {
      Step(s, run[0]);
      CancelStep(s, run[0], u);
      CancelRun(Apply(s, run[0]), run[1..], u);
    }
  }

  // Once a request has set up its tracker, the tracker reports "cancelled"
  // exactly when a cancel request or a newer request found it under its id,
  // however the download itself went on or ended.
  lemma CancelledExactlyOnRequest(s: State, id: nat, run: seq<Event>)
    requires Inv(s) && Valid(Apply(s, Setup(id)), run)
    ensures var t, u := Apply(s, Setup(id)), |s.trackers|;
      && At(t, u) && Current(t, u) && At(Exec(t, run), u)
      && (ReportsCancelled(Exec(t, run), u) <==> CancelledBy(t, run, u))
  {
    Step(s, Setup(id));
    CancelRun(Apply(s, Setup(id)), run, |s.trackers|);
  }

  /******* What a tracker reports *******/

  // The flags fit where the request is.
  ghost predicate Consistent(x: Entry) {
    && (x.flags.canceled || x.flags.err.Some? ==> x.flags.done)
    && (x.request.Active? || x.request.Failing? ==> !x.flags.interrupted && (x.flags.done ==> x.flags.canceled))
    && (x.request.Active? || x.request.Failing? || x.request.Parking? ==> x.grace == 0)
    && (x.grace > 0 || x.request.Parking? ==> x.flags.interrupted)
    && (x.request.Parking? ==> x.flags.done ==> x.flags.canceled)
    && (x.flags.done && !x.flags.canceled && x.flags.err.None? ==> x.grace == 0)
  }

  // The grace period of tracker u ends while its id still leads to it.
  predicate Expires(s: State, e: Event, u: nat) {
    e == GraceFires(u) && At(s, u) && Current(s, u)
  }

  predicate ExpiresIn(s: State, run: seq<Event>, u: nat)
    requires Valid(s, run)
    decreases |run|
  {
    run != [] && (Expires(s, run[0], u) || ExpiresIn(Apply(s, run[0]), run[1..], u))
  }

  predicate Reports(s: State, u: nat, status: Status)
    requires At(s, u)
  {
    StatusOf(s.trackers[u].flags) == status
  }

  lemma ReportStep(s: State, e: Event, u: nat)
    requires Inv(s) && Enabled(s, e) && At(s, u) && Consistent(s.trackers[u])
    ensures var t := Apply(s, e);
      && At(t, u) && Consistent(t.trackers[u])
      && (!Reports(t, u, Cancelled) ==>
            && !Reports(s, u, Cancelled)
            && (Reports(t, u, Done) <==> Reports(s, u, Done) || e == Finish(u))
            && (Reports(t, u, Error) <==> Reports(s, u, Error) || e == FailFinish(u) || Expires(s, e, u))
            && (s.trackers[u].flags.interrupted || e == FailInterrupt(u) <==> t.trackers[u].flags.interrupted))
  {
    if e.Setup? || e.CancelDownload? || e.t != u {
      OthersKept(s, e, u);
    }
  }

  lemma {:induction false} ReportRun(s: State, run: seq<Event>, u: nat)
    requires Inv(s) && Valid(s, run) && At(s, u) && Consistent(s.trackers[u])
    ensures var t := Exec(s, run);
      && At(t, u)
      && (!Reports(t, u, Cancelled) ==>
            && !Reports(s, u, Cancelled)
            && (Reports(t, u, Done) <==> Reports(s, u, Done) || Finish(u) in run)
            && (Reports(t, u, Error) <==> Reports(s, u, Error) || FailFinish(u) in run || ExpiresIn(s, run, u))
            && (s.trackers[u].flags.interrupted || FailInterrupt(u) in run <==> t.trackers[u].flags.interrupted))
    decreases |run|
  {
    if run != [] {
      Step(s, run[0]);
      ReportStep(s, run[0], u);
      ReportRun(Apply(s, run[0]), run[1..], u);
      assert run == [run[0]] + run[1..];
    }
  }

  // Unless it was cancelled, a tracker reports "done" exactly once its request
  // has finished, "error" exactly once it has failed or its grace period has
  // ended, and until then "interrupted" exactly once its client has left.
  lemma ReportsWhatHappened(s: State, id: nat, run: seq<Event>)
    requires Inv(s) && Valid(Apply(s, Setup(id)), run)
    ensures var t, u := Apply(s, Setup(id)), |s.trackers|;
      && At(Exec(t, run), u)
      && (!Reports(Exec(t, run), u, Cancelled) ==>
            && (Reports(Exec(t, run), u, Done) <==> Finish(u) in run)
            && (Reports(Exec(t, run), u, Error) <==> FailFinish(u) in run || ExpiresIn(t, run, u))
            && (Reports(Exec(t, run), u, Interrupted)
                <==> FailInterrupt(u) in run && !Reports(Exec(t, run), u, Done) && !Reports(Exec(t, run), u, Error)))
  {
    Step(s, Setup(id));
    ReportRun(Apply(s, Setup(id)), run, |s.trackers|);
  }

  predicate IsTimer(e: Event) {
    e.GraceFires? || e.ScheduleRemoval? || e.RemovalFires?
  }

  // Once a registered tracker's request is over, letting its timers fire removes
  // it: at most the grace period, the scheduling it does, and one removal.
  lemma TimersRemove(s: State, t: nat) returns (run: seq<Event>)
    requires Inv(s) && At(s, t) && Current(s, t) && s.trackers[t].request.Over?
    ensures Valid(s, run) && |run| <= 3 && (forall i: nat | i < |run| :: IsTimer(run[i]) && run[i].t == t)
    ensures s.trackers[t].id !in Exec(s, run).downloads
  {
    var x := s.trackers[t];
    if x.removals > 0 && !Waiting(x.flags) {
      run := [];
    } else if x.expiring > 0 && !Waiting(x.flags) {
      run := [ScheduleRemoval(t)];
      OneStep(s, run[0], []);
    } else {
      run := [GraceFires(t), ScheduleRemoval(t)];
      var s1 := Apply(s, run[0]);
      OneStep(s1, ScheduleRemoval(t), []);
      OneStep(s, GraceFires(t), [ScheduleRemoval(t)]);
    }
    var last := Exec(s, run);
    assert Current(last, t) && last.trackers[t].removals > 0 && !Waiting(last.trackers[t].flags);
    RunSnoc(s, run, RemovalFires(t));
    run := run + [RemovalFires(t)];
  }

  lemma OneStep(s: State, e: Event, rest: seq<Event>)
    requires Enabled(s, e) && Valid(Apply(s, e), rest)
    ensures Valid(s, [e] + rest) && Exec(s, [e] + rest) == Exec(Apply(s, e), rest)
    ensures [e] + [] == [e]
  {
    assert ([e] + rest)[1..] == rest;
  }

  lemma {:induction false} RunSnoc(s: State, run: seq<Event>, e: Event)
    requires Valid(s, run) && Enabled(Exec(s, run), e)
    ensures Valid(s, run + [e]) && Exec(s, run + [e]) == Apply(Exec(s, run), e)
    decreases |run|
  {
    if run == [] {
      assert run + [e] == [e] && [e][1..] == [];
    } else {
      assert (run + [e])[1..] == run[1..] + [e];
      RunSnoc(Apply(s, run[0]), run[1..], e);
    }
  }
}
