// The verification pipeline of internal/service/chunk_uploader.go: uploaded
// chunks are submitted to a bounded channel, one consumer dispatches them, and
// at most PIPELINE_VERIFY_PARALLELISM goroutines download and hash-check them.
module ChunkVerifier {
  import opened Prelude
  import ChunkLayout
  import CircuitBreaker

  const PIPELINE_VERIFY_PARALLELISM := 5

  // SHA-256 as an ideal hash: equal hashes mean equal contents.
  datatype Hash = Hash(of: seq<byte>)

  // `index` says which chunk of the source it is; the code keeps Position.
  datatype Uploaded = Uploaded(fileId: string, messageId: int, index: nat, plainHash: Hash)

  // The int16 counter of the read loop.
  function Position(r: Uploaded): int {
    ChunkLayout.Int16(r.index)
  }

  // The loop of consume: it holds a result, asks the breaker, may wait, and
  // hands the result to a verify goroutine.
  datatype Consumer =
    | Receiving
    | Holding(result: Uploaded)
    | CoolingDown(result: Uploaded)
    | Cleared(result: Uploaded)
    | Exited

  datatype Verifier = Verifier(
    buffer: nat,
    input: seq<Uploaded>,               // the channel `in`
    closed: bool,
    consumer: Consumer,
    verifying: multiset<Uploaded>,      // running verify goroutines
    retryQueue: seq<Uploaded>,
    failedPos: seq<int>,
    err: bool,                          // the errgroup has a first error
    outcomes: seq<CircuitBreaker.Outcome>,   // what the circuit breaker has recorded
    // history
    accepted: multiset<Uploaded>,       // everything submit returned nil for
    verified: multiset<Uploaded>,
    evidence: map<Uploaded, seq<byte>>, // what a passing verification downloaded
    mismatched: multiset<Uploaded>,
    dropped: multiset<Uploaded>)

  datatype Event =
    | Consume
    | ConsumerEnd
    | CheckBreaker(now: int)
    | WaitOver
    | GiveUp
    | Dispatch
    | Pass(result: Uploaded, data: seq<byte>, at: int)
    | Mismatch(result: Uploaded, data: seq<byte>)
    | Transient(result: Uploaded, at: int)
    | Abort(result: Uploaded)

  function Start(buffer: nat): Verifier {
    Verifier(buffer, [], false, Receiving, multiset{}, [], [], false, [],
             multiset{}, multiset{}, map[], multiset{}, multiset{})
  }

  // The errgroup's context: done with the upload's context or the first error.
  predicate ContextDone(v: Verifier, ctxDone: bool) {
    ctxDone || v.err
  }

  // submit can only queue into an open channel with room; a send on the closed
  // channel would panic.
  predicate CanSubmit(v: Verifier) {
    !v.closed && |v.input| < v.buffer
  }

  function Submit(v: Verifier, r: Uploaded): Verifier {
    v.(input := v.input + [r], accepted := v.accepted + multiset{r})
  }

  predicate Enabled(v: Verifier, ctxDone: bool, e: Event) {
    match e
    case Consume => v.consumer.Receiving? && v.input != []
    case ConsumerEnd => v.consumer.Receiving? && v.input == [] && v.closed
    case CheckBreaker(_) => v.consumer.Holding?
    case WaitOver => v.consumer.CoolingDown?
    case GiveUp => v.consumer.CoolingDown? && ContextDone(v, ctxDone)
    case Dispatch => v.consumer.Cleared? && |v.verifying| < PIPELINE_VERIFY_PARALLELISM
    case Pass(r, data, _) => r in v.verifying && Hash(data) == r.plainHash
    case Mismatch(r, data) => r in v.verifying && Hash(data) != r.plainHash && !ContextDone(v, ctxDone)
    case Transient(r, _) => r in v.verifying && !ContextDone(v, ctxDone)
    case Abort(r) => r in v.verifying && ContextDone(v, ctxDone)
  }

  function Apply(v: Verifier, ctxDone: bool, e: Event): Verifier
    requires Enabled(v, ctxDone, e)
  {
    match e
    case Consume => v.(input := v.input[1..], consumer := Holding(v.input[0]))
    case ConsumerEnd => v.(consumer := Exited)
    case CheckBreaker(now) =>
      v.(consumer := if CircuitBreaker.WaitAt(v.outcomes, now) > 0 then CoolingDown(v.consumer.result)
                     else Cleared(v.consumer.result))
    case WaitOver => v.(consumer := Cleared(v.consumer.result))
    case GiveUp => v.(consumer := Exited, dropped := v.dropped + multiset{v.consumer.result})
    case Dispatch => v.(consumer := Receiving, verifying := v.verifying + multiset{v.consumer.result})
    case Pass(r, data, at) =>
      v.(verifying := v.verifying - multiset{r}, verified := v.verified + multiset{r},
         evidence := v.evidence[r := data], outcomes := v.outcomes + [CircuitBreaker.Success(at)])
    case Mismatch(r, _) =>
      v.(verifying := v.verifying - multiset{r}, mismatched := v.mismatched + multiset{r},
         failedPos := v.failedPos + [Position(r)], err := true)
    case Transient(r, at) =>
      v.(verifying := v.verifying - multiset{r}, retryQueue := v.retryQueue + [r],
         outcomes := v.outcomes + [CircuitBreaker.Failure(at)])
    case Abort(r) =>
      v.(verifying := v.verifying - multiset{r}, dropped := v.dropped + multiset{r}, err := true)
  }

  function Held(k: Consumer): multiset<Uploaded> {
    if k.Holding? || k.CoolingDown? || k.Cleared? then multiset{k.result} else multiset{}
  }

  // How often r occurs in the places a result can be.
  function Places(v: Verifier, retrying: multiset<Uploaded>, r: Uploaded): nat {
    multiset(v.input)[r] + Held(v.consumer)[r] + v.verifying[r] + v.verified[r] + v.mismatched[r] + v.dropped[r]
    + multiset(v.retryQueue)[r] + retrying[r]
  }

  // Every accepted result is in exactly one place; `retrying` are the results
  // taken out of the retry queue for later rounds.
  ghost predicate Conserved(v: Verifier, retrying: multiset<Uploaded>) {
    forall r :: Places(v, retrying, r) == v.accepted[r]
  }

  ghost predicate Sound(v: Verifier, ctxDone: bool) {
    && (v.dropped != multiset{} ==> ContextDone(v, ctxDone))
    && |v.mismatched| == |v.failedPos|
    && (v.failedPos != [] ==> v.err)
    && (v.consumer.Exited? && !(v.closed && v.input == []) ==> v.dropped != multiset{})
    && (forall r | r in v.verified :: r in v.evidence && Hash(v.evidence[r]) == r.plainHash)
    && |v.verifying| <= PIPELINE_VERIFY_PARALLELISM
    && |v.input| <= v.buffer
  }

  ghost predicate Inv(v: Verifier, ctxDone: bool, retrying: multiset<Uploaded>) {
    Conserved(v, retrying) && Sound(v, ctxDone)
  }

  // A verification ends: its result moves to where its outcome says.
  lemma OutcomeConserves(v: Verifier, ctxDone: bool, retrying: multiset<Uploaded>, e: Event)
    requires Conserved(v, retrying) && Enabled(v, ctxDone, e)
    requires e.Pass? || e.Mismatch? || e.Transient? || e.Abort?
    ensures Conserved(Apply(v, ctxDone, e), retrying)
  {
    var t := Apply(v, ctxDone, e);
    forall r ensures Places(t, retrying, r) == t.accepted[r] {
      assert Places(v, retrying, r) == v.accepted[r];
    }
  }

  lemma ConsumeConserves(v: Verifier, ctxDone: bool, retrying: multiset<Uploaded>)
    requires Conserved(v, retrying) && Enabled(v, ctxDone, Consume)
    ensures Conserved(Apply(v, ctxDone, Consume), retrying)
  {
    var t := Apply(v, ctxDone, Consume);
    assert v.input == [v.input[0]] + v.input[1..];
    forall r ensures Places(t, retrying, r) == t.accepted[r] {
      assert Places(v, retrying, r) == v.accepted[r];
    }
  }

  lemma SamePlaces(v: Verifier, w: Verifier, retrying: multiset<Uploaded>)
    requires Conserved(v, retrying)
    requires w == v.(consumer := w.consumer) && Held(w.consumer) == Held(v.consumer)
    ensures Conserved(w, retrying)
  {
    forall r ensures Places(w, retrying, r) == w.accepted[r] {
      assert Places(v, retrying, r) == v.accepted[r];
    }
  }

  // The consumer still holds its result, or still holds none.
  lemma HoldConserves(v: Verifier, ctxDone: bool, retrying: multiset<Uploaded>, e: Event)
    requires Conserved(v, retrying) && Enabled(v, ctxDone, e)
    requires e.CheckBreaker? || e.WaitOver? || e.ConsumerEnd?
    ensures Conserved(Apply(v, ctxDone, e), retrying)
  {
    match e {
      case CheckBreaker(now) =>
        var k := v.consumer;
        SamePlaces(v, v.(consumer := CoolingDown(k.result)), retrying);
        SamePlaces(v, v.(consumer := Cleared(k.result)), retrying);
      case WaitOver => SamePlaces(v, v.(consumer := Cleared(v.consumer.result)), retrying);
      case ConsumerEnd => SamePlaces(v, v.(consumer := Exited), retrying);
    }
  }

  // The consumer hands its result on or gives it up.
  lemma LeaveConserves(v: Verifier, ctxDone: bool, retrying: multiset<Uploaded>, e: Event)
    requires Conserved(v, retrying) && Enabled(v, ctxDone, e) && (e.GiveUp? || e.Dispatch?)
    ensures Conserved(Apply(v, ctxDone, e), retrying)
  {
    var t := Apply(v, ctxDone, e);
    forall r ensures Places(t, retrying, r) == t.accepted[r] {
      assert Places(v, retrying, r) == v.accepted[r];
    }
  }

  lemma StepConserves(v: Verifier, ctxDone: bool, retrying: multiset<Uploaded>, e: Event)
    requires Conserved(v, retrying) && Enabled(v, ctxDone, e)
    ensures Conserved(Apply(v, ctxDone, e), retrying)
  {
    if e.Pass? || e.Mismatch? || e.Transient? || e.Abort? {
      OutcomeConserves(v, ctxDone, retrying, e);
    } else if e.Consume? {
      ConsumeConserves(v, ctxDone, retrying);
    } else if e.GiveUp? || e.Dispatch? {
      LeaveConserves(v, ctxDone, retrying, e);
    } else {
      HoldConserves(v, ctxDone, retrying, e);
    }
  }

  lemma OutcomeSound(v: Verifier, ctxDone: bool, e: Event)
    requires Sound(v, ctxDone) && Enabled(v, ctxDone, e)
    requires e.Pass? || e.Mismatch? || e.Transient? || e.Abort?
    ensures Sound(Apply(v, ctxDone, e), ctxDone)
  {
  }

  lemma ConsumerSound(v: Verifier, ctxDone: bool, e: Event)
    requires Sound(v, ctxDone) && Enabled(v, ctxDone, e)
    requires e.Consume? || e.ConsumerEnd? || e.CheckBreaker? || e.WaitOver? || e.GiveUp? || e.Dispatch?
    ensures Sound(Apply(v, ctxDone, e), ctxDone)
  {
  }

  lemma StepSound(v: Verifier, ctxDone: bool, e: Event)
    requires Sound(v, ctxDone) && Enabled(v, ctxDone, e)
    ensures Sound(Apply(v, ctxDone, e), ctxDone)
  {
    if e.Pass? || e.Mismatch? || e.Transient? || e.Abort? {
      OutcomeSound(v, ctxDone, e);
    } else {
      ConsumerSound(v, ctxDone, e);
    }
  }

  // Queued, in flight, verified, waiting for a retry, failed or dropped:
  // every step keeps each accepted result in exactly one of these places.
  lemma Step(v: Verifier, ctxDone: bool, retrying: multiset<Uploaded>, e: Event)
    requires Inv(v, ctxDone, retrying) && Enabled(v, ctxDone, e)
    ensures Inv(Apply(v, ctxDone, e), ctxDone, retrying)
  {
    StepConserves(v, ctxDone, retrying, e);
    StepSound(v, ctxDone, e);
  }

  lemma SubmitKeeps(v: Verifier, ctxDone: bool, retrying: multiset<Uploaded>, r: Uploaded)
    requires Inv(v, ctxDone, retrying) && CanSubmit(v)
    ensures Inv(Submit(v, r), ctxDone, retrying)
  {
    var t := Submit(v, r);
    forall x ensures Places(t, retrying, x) == t.accepted[x] {
      assert Places(v, retrying, x) == v.accepted[x];
    }
  }

  predicate Drained(v: Verifier) {
    v.consumer.Exited? && v.verifying == multiset{}
  }

  // What stop's nil return means: while the upload's context is live, each
  // accepted result has either passed verification or awaits a retry.
  lemma StoppedCleanly(v: Verifier, retrying: multiset<Uploaded>)
    requires Inv(v, false, retrying) && v.closed && Drained(v) && !v.err
    ensures v.verified + multiset(v.retryQueue) + retrying == v.accepted
    ensures v.failedPos == [] && v.dropped == multiset{}
  {
    assert v.dropped == multiset{};
    assert v.mismatched == multiset{};
    assert v.input == [];
    forall r ensures (v.verified + multiset(v.retryQueue) + retrying)[r] == v.accepted[r] {
      assert Places(v, retrying, r) == v.accepted[r];
    }
  }

  // The pipeline never stalls: after close, or while a result is queued, some
  // goroutine can act until everything is drained.
  lemma Progress(v: Verifier, ctxDone: bool) returns (e: Event)
    requires !Drained(v) && (v.closed || v.input != [] || Held(v.consumer) != multiset{} || v.verifying != multiset{})
    requires v.consumer.Exited? ==> v.verifying != multiset{}
    ensures Enabled(v, ctxDone, e) && !e.Mismatch?
  {
    if v.consumer.Receiving? && v.input != [] {
      e := Consume;
    } else if v.consumer.Holding? {
      e := CheckBreaker(0);
    } else if v.consumer.CoolingDown? {
      e := WaitOver;
    } else if v.consumer.Cleared? && |v.verifying| < PIPELINE_VERIFY_PARALLELISM {
      e := Dispatch;
    } else if v.verifying != multiset{} {
      var r :| r in v.verifying;
      e := if ContextDone(v, ctxDone) then Abort(r) else Transient(r, 0);
    } else {
      e := ConsumerEnd;
    }
  }
}
