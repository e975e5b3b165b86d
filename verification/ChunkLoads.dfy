// downloadAndDecryptChunkCached of internal/service/chunk_downloader.go: range
// requests share the stream cache and, through golang.org/x/sync/singleflight,
// the loads that are already running. Every Event is one atomic action; any
// sequence of enabled events is a run.
module ChunkLoads {
  import opened Prelude
  import opened ChunkLayout
  import opened StreamCache

  // A load's error; a context error is a cancellation or a missed deadline.
  datatype Error = ContextError | LoadError(cause: string)

  type Outcome = Result<Bytes, Error>

  datatype Phase =
    | Started                       // before the first look into the cache
    | Looping                       // about to call loads.Do
    | Checking(flight: nat)         // leading: second look into the cache
    | Loading(flight: nat)          // leading: downloading and decrypting
    | Storing(flight: nat, data: Bytes)
    | Waiting(flight: nat)          // sharing another call's flight
    | Landed(flight: nat)           // leading: the flight is over
    | Returned(outcome: Outcome, live: bool, from: Option<nat>)

  datatype Call = Call(key: Key, ctxDone: bool, phase: Phase)

  // One execution of the shared function; dups counts the calls that joined.
  datatype Flight = Flight(key: Key, leader: nat, dups: nat, outcome: Option<Outcome>)

  datatype State = State(
    calls: seq<Call>,
    table: map<Key, nat>,            // singleflight: the flight in progress by key
    flights: seq<Flight>,
    cache: map<Key, Bytes>,
    produced: set<(Key, Bytes)>)     // history: what uncached loads returned

  datatype Event =
    | Arrive(key: Key)
    | Cancel(c: nat)
    | Evict(key: Key)
    | FirstLook(c: nat)
    | Join(c: nat)
    | Lead(c: nat)
    | SecondLook(c: nat)
    | LoadOk(c: nat, data: Bytes)
    | LoadFail(c: nat, error: Error)
    | Store(c: nat, accepted: bool)
    | Return(c: nat)

  const INIT := State([], map[], [], map[], {})

  predicate In(s: State, c: nat) {
    c < |s.calls|
  }

  predicate Sharing(p: Phase) {
    p.Waiting? || p.Landed?
  }

  predicate Leading(p: Phase) {
    p.Checking? || p.Loading? || p.Storing?
  }

  predicate Enabled(s: State, e: Event) {
    match e
    case Arrive(_) => true
    case Cancel(c) => In(s, c)
    case Evict(_) => true
    case FirstLook(c) => In(s, c) && s.calls[c].phase.Started?
    case Join(c) =>
      In(s, c) && s.calls[c].phase.Looping? && s.calls[c].key in s.table && s.table[s.calls[c].key] < |s.flights|
    case Lead(c) => In(s, c) && s.calls[c].phase.Looping? && s.calls[c].key !in s.table
    case SecondLook(c) => In(s, c) && s.calls[c].phase.Checking? && s.calls[c].phase.flight < |s.flights|
    case LoadOk(c, _) => In(s, c) && s.calls[c].phase.Loading?
    case LoadFail(c, _) => In(s, c) && s.calls[c].phase.Loading? && s.calls[c].phase.flight < |s.flights|
    case Store(c, _) => In(s, c) && s.calls[c].phase.Storing? && s.calls[c].phase.flight < |s.flights|
    case Return(c) =>
      In(s, c) && Sharing(s.calls[c].phase) && s.calls[c].phase.flight < |s.flights|
      && s.flights[s.calls[c].phase.flight].outcome.Some?
  }

  /******* The effect of each action *******/

  function To(s: State, c: nat, p: Phase): State
    requires In(s, c)
  {
    s.(calls := s.calls[c := s.calls[c].(phase := p)])
  }

  // The shared function has returned: the flight leaves the table.
  function Land(s: State, c: nat, f: nat, outcome: Outcome): State
    requires In(s, c) && f < |s.flights|
  {
    s.(calls := s.calls[c := s.calls[c].(phase := Landed(f))],
       table := s.table - {s.calls[c].key},
       flights := s.flights[f := s.flights[f].(outcome := Some(outcome))])
  }

  // loads.Do's `shared`: true for every call that joined, and for the leader if
  // some call did.
  predicate Shared(s: State, c: nat)
    requires In(s, c) && Sharing(s.calls[c].phase) && s.calls[c].phase.flight < |s.flights|
  {
    s.calls[c].phase.Waiting? || s.flights[s.calls[c].phase.flight].dups > 0
  }

  // A shared context error is retried by a call whose own context is live.
  function AfterDo(s: State, c: nat, outcome: Outcome): Phase
    requires In(s, c) && Sharing(s.calls[c].phase) && s.calls[c].phase.flight < |s.flights|
  {
    if outcome == Err(ContextError) && Shared(s, c) && !s.calls[c].ctxDone then Looping
    else Returned(outcome, !s.calls[c].ctxDone, Some(s.calls[c].phase.flight))
  }

  function Apply(s: State, e: Event): State
    requires Enabled(s, e)
  {
    match e
    case Arrive(k) => s.(calls := s.calls + [Call(k, false, Started)])
    case Cancel(c) => s.(calls := s.calls[c := s.calls[c].(ctxDone := true)])
    case Evict(k) => s.(cache := s.cache - {k})
    case FirstLook(c) =>
      var k := s.calls[c].key;
      To(s, c, if k in s.cache then Returned(Ok(s.cache[k]), !s.calls[c].ctxDone, None) else Looping)
    case Join(c) =>
      var f := s.table[s.calls[c].key];
      s.(calls := s.calls[c := s.calls[c].(phase := Waiting(f))],
         flights := s.flights[f := s.flights[f].(dups := s.flights[f].dups + 1)])
    case Lead(c) =>
      var f := |s.flights|;
      s.(calls := s.calls[c := s.calls[c].(phase := Checking(f))],
         table := s.table[s.calls[c].key := f],
         flights := s.flights + [Flight(s.calls[c].key, c, 0, None)])
    case SecondLook(c) =>
      var k := s.calls[c].key;
      var f := s.calls[c].phase.flight;
      if k in s.cache then Land(s, c, f, Ok(s.cache[k])) else To(s, c, Loading(f))
    case LoadOk(c, data) =>
      To(s, c, Storing(s.calls[c].phase.flight, data)).(produced := s.produced + {(s.calls[c].key, data)})
    case LoadFail(c, x) => Land(s, c, s.calls[c].phase.flight, Err(x))
    case Store(c, accepted) =>
      var data := s.calls[c].phase.data;
      var cache := if accepted then s.cache[s.calls[c].key := data] else s.cache;
      Land(s, c, s.calls[c].phase.flight, Ok(data)).(cache := cache)
    case Return(c) => To(s, c, AfterDo(s, c, s.flights[s.calls[c].phase.flight].outcome.value))
  }

  /******* Invariant *******/

  ghost predicate CacheOk(s: State) {
    forall k | k in s.cache :: (k, s.cache[k]) in s.produced
  }

  predicate OutcomeOk(s: State, k: Key, o: Outcome) {
    o.Ok? ==> (k, o.value) in s.produced
  }

  // A flight in the table is in progress, and its leader is at work on it; a
  // finished flight reports a load's result.
  ghost predicate FlightOk(s: State, f: nat)
    requires f < |s.flights|
  {
    var x := s.flights[f];
    && In(s, x.leader) && s.calls[x.leader].key == x.key
    && (x.outcome.None? ==>
          && x.key in s.table && s.table[x.key] == f
          && Leading(s.calls[x.leader].phase) && s.calls[x.leader].phase.flight == f)
    && (x.outcome.Some? ==> OutcomeOk(s, x.key, x.outcome.value))
  }

  ghost predicate TableOk(s: State) {
    forall k | k in s.table ::
      s.table[k] < |s.flights| && s.flights[s.table[k]].key == k && s.flights[s.table[k]].outcome.None?
  }

  // What a call's phase says about its flight.
  ghost predicate CallOk(s: State, c: nat)
    requires In(s, c)
  {
    var call := s.calls[c];
    match call.phase
    case Started => true
    case Looping => true
    case Checking(f) => Leads(s, c, f)
    case Loading(f) => Leads(s, c, f)
    case Storing(f, data) => Leads(s, c, f) && (call.key, data) in s.produced
    case Waiting(f) => f < |s.flights| && s.flights[f].key == call.key && s.flights[f].dups > 0
    case Landed(f) =>
      f < |s.flights| && s.flights[f].key == call.key && s.flights[f].leader == c && s.flights[f].outcome.Some?
    case Returned(o, live, f) => OutcomeOk(s, call.key, o) && OwnContext(s, c, o, live, f)
  }

  ghost predicate Leads(s: State, c: nat, f: nat)
    requires In(s, c)
  {
    && f < |s.flights| && s.flights[f].leader == c && s.flights[f].key == s.calls[c].key
    && s.flights[f].outcome.None?
  }

  // A context error that reaches a call with a live context is that of a flight
  // it led itself and shared with nobody.
  ghost predicate OwnContext(s: State, c: nat, o: Outcome, live: bool, flight: Option<nat>) {
    o == Err(ContextError) && live ==>
      && flight.Some? && flight.value < |s.flights|
      && s.flights[flight.value].leader == c && s.flights[flight.value].dups == 0
      && s.flights[flight.value].outcome == Some(o)
  }

  ghost predicate Inv(s: State) {
    && CacheOk(s) && TableOk(s)
    && (forall f: nat | f < |s.flights| :: FlightOk(s, f))
    && (forall c: nat | In(s, c) :: CallOk(s, c))
  }

  // From s to t only call c has moved, and no flight has ended: calls may have
  // arrived, flights may have started, and running ones may have been joined.
  ghost predicate OnlyMoves(s: State, t: State, c: nat) {
    && |s.calls| <= |t.calls| && |s.flights| <= |t.flights| && s.produced <= t.produced
    && (forall d: nat | In(s, d) && d != c :: t.calls[d] == s.calls[d])
    && (In(s, c) ==>
          && t.calls[c].key == s.calls[c].key
          && (Leading(s.calls[c].phase) ==>
                Leading(t.calls[c].phase) && t.calls[c].phase.flight == s.calls[c].phase.flight))
    && (forall f: nat | f < |s.flights| :: Joined(s.flights[f], t.flights[f]))
    && (forall k | k in s.table :: k in t.table && t.table[k] == s.table[k])
  }

  predicate Joined(x: Flight, y: Flight) {
    y == x || (x.outcome.None? && y == x.(dups := y.dups) && y.dups > x.dups)
  }

  // Then the invariant is kept if the call that moved and whatever is new obey it.
  lemma MoveKeeps(s: State, t: State, c: nat)
    requires Inv(s) && OnlyMoves(s, t, c) && CacheOk(t) && TableOk(t)
    requires forall d: nat | In(t, d) && (d == c || d >= |s.calls|) :: CallOk(t, d)
    requires forall f: nat | |s.flights| <= f < |t.flights| :: FlightOk(t, f)
    ensures Inv(t)
  {
    forall f: nat | f < |s.flights| ensures FlightOk(t, f) {
      assert FlightOk(s, f) && Joined(s.flights[f], t.flights[f]);
    }
    forall d: nat | In(s, d) && d != c ensures CallOk(t, d) {
      assert CallOk(s, d);
    }
  }

  lemma NewcomerKeeps(s: State, e: Event)
    requires Inv(s) && Enabled(s, e) && (e.Arrive? || e.Evict?)
    ensures Inv(Apply(s, e))
  {
    MoveKeeps(s, Apply(s, e), |s.calls|);
  }

  lemma CallKeeps(s: State, e: Event)
    requires Inv(s) && Enabled(s, e) && (e.Cancel? || e.FirstLook? || e.LoadOk?)
    ensures Inv(Apply(s, e))
  {
    assert CallOk(s, e.c);
    MoveKeeps(s, Apply(s, e), e.c);
  }

  lemma FlightKeeps(s: State, e: Event)
    requires Inv(s) && Enabled(s, e) && (e.Join? || e.Lead?)
    ensures Inv(Apply(s, e))
  {
    MoveKeeps(s, Apply(s, e), e.c);
  }

  lemma ReturnKeeps(s: State, c: nat)
    requires Inv(s) && Enabled(s, Return(c))
    ensures Inv(Apply(s, Return(c)))
  {
    assert CallOk(s, c) && FlightOk(s, s.calls[c].phase.flight);
    MoveKeeps(s, Apply(s, Return(c)), c);
  }

  lemma LandKeeps(s: State, c: nat, f: nat, outcome: Outcome)
    requires Inv(s) && In(s, c) && Leading(s.calls[c].phase) && s.calls[c].phase.flight == f && f < |s.flights|
    requires OutcomeOk(s, s.calls[c].key, outcome)
    ensures Inv(Land(s, c, f, outcome))
  {
    var t := Land(s, c, f, outcome);
    assert CallOk(s, c) && FlightOk(s, f);
    forall g: nat | g < |t.flights| ensures FlightOk(t, g) {
      assert FlightOk(s, g);
    }
    forall d: nat | In(t, d) ensures CallOk(t, d) {
      assert CallOk(s, d);
    }
  }

  lemma SecondLookKeeps(s: State, c: nat)
    requires Inv(s) && Enabled(s, SecondLook(c))
    ensures Inv(Apply(s, SecondLook(c)))
  {
    var f, k := s.calls[c].phase.flight, s.calls[c].key;
    assert CallOk(s, c);
    if k in s.cache {
      LandKeeps(s, c, f, Ok(s.cache[k]));
    } else {
      MoveKeeps(s, To(s, c, Loading(f)), c);
    }
  }

  lemma StoreKeeps(s: State, c: nat, accepted: bool)
    requires Inv(s) && Enabled(s, Store(c, accepted))
    ensures Inv(Apply(s, Store(c, accepted)))
  {
    assert CallOk(s, c);
    var data := s.calls[c].phase.data;
    LandKeeps(s, c, s.calls[c].phase.flight, Ok(data));
    MoveKeeps(Land(s, c, s.calls[c].phase.flight, Ok(data)), Apply(s, Store(c, accepted)), |s.calls|);
  }

  // Every action keeps the invariant.
  lemma Step(s: State, e: Event)
    requires Inv(s) && Enabled(s, e)
    ensures Inv(Apply(s, e))
  {
    match e
    case SecondLook(c) => SecondLookKeeps(s, c);
    case LoadFail(c, x) =>
      assert CallOk(s, c);
      LandKeeps(s, c, s.calls[c].phase.flight, Err(x));
    case Store(c, accepted) => StoreKeeps(s, c, accepted);
    case Return(c) => ReturnKeeps(s, c);
    case _ =>
      if e.Arrive? || e.Evict? {
        NewcomerKeeps(s, e);
      } else if e.Join? || e.Lead? {
        FlightKeeps(s, e);
      } else {
        CallKeeps(s, e);
      }
  }

  /******* What concurrent loads guarantee *******/

  predicate Valid(s: State, run: seq<Event>)
    decreases |run|
  {
    run == [] || (Enabled(s, run[0]) && Valid(Apply(s, run[0]), run[1..]))
  }

  function Exec(s: State, run: seq<Event>): State
    requires Valid(s, run)
    decreases |run|
  {
    if run == [] then s else Exec(Apply(s, run[0]), run[1..])
  }

  lemma {:induction false} RunInv(s: State, run: seq<Event>)
    requires Inv(s) && Valid(s, run)
    ensures Inv(Exec(s, run))
    decreases |run|
  {
    if run != [] {
      Step(s, run[0]);
      RunInv(Apply(s, run[0]), run[1..]);
    }
  }

  // Whatever interleaving produced it, returned data is what an uncached load
  // of the same chunk returned.
  lemma ReturnsLoadedData(run: seq<Event>, c: nat)
    requires Valid(INIT, run) && In(Exec(INIT, run), c)
    ensures var s := Exec(INIT, run);
      var p := s.calls[c].phase;
      p.Returned? && p.outcome.Ok? ==> (s.calls[c].key, p.outcome.value) in s.produced
  {
    RunInv(INIT, run);
    assert CallOk(Exec(INIT, run), c);
  }

  // At most one load per key runs at a time.
  lemma OneLoadPerKey(run: seq<Event>, c: nat, d: nat)
    requires Valid(INIT, run)
    requires var s := Exec(INIT, run); In(s, c) && In(s, d) && Leading(s.calls[c].phase) && Leading(s.calls[d].phase)
    requires var s := Exec(INIT, run); s.calls[c].key == s.calls[d].key
    ensures c == d
  {
    RunInv(INIT, run);
    var s := Exec(INIT, run);
    assert CallOk(s, c) && CallOk(s, d);
    assert FlightOk(s, s.calls[c].phase.flight) && FlightOk(s, s.calls[d].phase.flight);
  }

  // A call whose context is live when it returns never fails with another
  // call's context error: the load was its own, and nobody shared it.
  lemma NoForeignContextError(run: seq<Event>, c: nat)
    requires Valid(INIT, run) && In(Exec(INIT, run), c)
    ensures var s := Exec(INIT, run);
      var p := s.calls[c].phase;
      p.Returned? && p.outcome == Err(ContextError) && p.live ==>
        && p.from.Some? && p.from.value < |s.flights|
        && s.flights[p.from.value].leader == c && s.flights[p.from.value].dups == 0
  {
    RunInv(INIT, run);
    assert CallOk(Exec(INIT, run), c);
  }

  // A call returns what its flight ended with, data or error. It goes round again
  // only for a context error of a shared flight while its own context is live.
  lemma TakesOutcome(run: seq<Event>, c: nat)
    requires Valid(INIT, run) && Enabled(Exec(INIT, run), Return(c))
    ensures var s := Exec(INIT, run);
      var f, p := s.flights[s.calls[c].phase.flight], Apply(s, Return(c)).calls[c].phase;
      && f.key == s.calls[c].key && f.outcome.Some?
      && (p.Returned? ==> p.outcome == f.outcome.value && p.live == !s.calls[c].ctxDone)
      && (!p.Returned? ==> p.Looping? && f.outcome == Some(Err(ContextError)) && f.dups > 0 && !s.calls[c].ctxDone)
  {
    RunInv(INIT, run);
    assert CallOk(Exec(INIT, run), c);
  }

  // No call is stuck: one that has not returned can act itself, or waits for a
  // flight whose leader can, once the load it runs returns.
  lemma NeverStuck(s: State, c: nat, data: Bytes) returns (e: Event)
    requires Inv(s) && In(s, c) && !s.calls[c].phase.Returned?
    ensures Enabled(s, e) && !e.Arrive? && !e.Cancel? && !e.Evict?
  {
    assert CallOk(s, c);
    match s.calls[c].phase
    case Started => e := FirstLook(c);
    case Looping => e := if s.calls[c].key in s.table then Join(c) else Lead(c);
    case Checking(_) => e := SecondLook(c);
    case Loading(_) => e := LoadOk(c, data);
    case Storing(_, _) => e := Store(c, true);
    case Landed(_) => e := Return(c);
    case Waiting(f) =>
      assert FlightOk(s, f);
      var leader := s.flights[f].leader;
      assert CallOk(s, leader);
      if s.flights[f].outcome.Some? {
        e := Return(c);
      } else if s.calls[leader].phase.Checking? {
        e := SecondLook(leader);
      } else if s.calls[leader].phase.Loading? {
        e := LoadOk(leader, data);
      } else {
        e := Store(leader, true);
      }
  }
}
