// One Upload call of internal/service/chunk_uploader.go, as the interleaving of
// its goroutines: the read loop, the parallel chunk uploads, the sequential
// second round, the verifier pipeline, the retry rounds and the final commit or
// cleanup. Telegram and the database succeed or fail nondeterministically; the
// caller may cancel at any time, and cancellation is permanent.
module UploadRun {
  import opened Prelude
  import opened ChunkVerifier

  const MAX_RETRY_ROUNDS := 3   // VerifyCBMaxRetryRounds

  // What the source splits into, and the upload parallelism (also the size of
  // the verifier's channel).
  datatype Config = Config(chunks: seq<seq<byte>>, chunkSize: nat, parallelism: nat)

  ghost predicate WellFormed(c: Config) {
    && c.parallelism >= 1
    && (forall i: nat | i < |c.chunks| :: 0 < |c.chunks[i]| <= c.chunkSize)
    && (forall i: nat | i + 1 < |c.chunks| :: |c.chunks[i]| == c.chunkSize)
  }

  datatype Phase =
    | Reading           // the read loop of uploadChunks
    | Waiting           // g.Wait
    | Retrying          // retryFailedChunks
    | Stopping          // verifier.stop on the success path
    | Cooldown          // before a retry round
    | Round             // verifying the retry queue
    | Persisting
    | Aborting          // verifier.stop on a failure path
    | Finished

  datatype State = State(
    phase: Phase,
    next: nat,                      // chunks read so far
    sourceErr: bool,
    ctxDone: bool,
    uploading: set<nat>,            // upload goroutines, by chunk
    submitting: multiset<Uploaded>, // upload goroutines blocked in submit
    groupErr: bool,                 // the upload errgroup has a first error
    results: seq<Uploaded>,
    failedChunks: seq<nat>,
    retried: nat,                   // failed chunks the second round has uploaded
    pendingSubmit: Option<Uploaded>,
    v: Verifier,
    round: nat,
    todo: seq<Uploaded>,            // this round's queue
    still: seq<Uploaded>,           // stillFailed
    roundFailed: seq<int>,          // positions failed for good
    uploadedChunks: nat,
    verificationTotal: nat,
    verifiedChunks: nat,
    committed: Option<seq<Uploaded>>,
    cleanups: seq<seq<int>>,        // message ids handed to the deleter
    // history
    lost: multiset<nat>,            // uploads given up after cancellation
    unsubmitted: multiset<Uploaded>,
    mismatched: multiset<Uploaded>) // hash mismatches found by retry rounds

  // What the read loop, the upload goroutines and the second round do.
  datatype UploadEvent =
    | ReadChunk
    | ReadEof
    | ReadError
    | ReadCancelled
    | UploadOk(index: nat, fileId: string, messageId: int)
    | UploadTransient(index: nat)
    | UploadAborted(index: nat)
    | SubmitQueued(result: Uploaded)
    | SubmitAborted(result: Uploaded)
    | UploadsDone
    | RetryOk(fileId: string, messageId: int)
    | RetryAborted
    | RetryQueued
    | RetrySubmitAborted
    | RetryDone

  // What the main goroutine does once it has asked the verifier to stop.
  datatype FinishEvent =
    | Stopped
    | CooldownOver
    | RoundCancelled
    | RoundPass(data: seq<byte>)
    | RoundMismatch(data: seq<byte>)
    | RoundTransient(result: Uploaded)
    | RoundEnd
    | PersistOk(records: seq<Uploaded>)
    | PersistFail
    | AbortDone

  datatype Event =
    | Cancel
    | Upload(u: UploadEvent)
    | Verify(f: ChunkVerifier.Event)
    | Finish(x: FinishEvent)

  function Init(c: Config): State {
    State(Reading, 0, false, false, {}, multiset{}, false, [], [], 0, None, Start(c.parallelism),
          0, [], [], [], 0, 0, 0, None, [], multiset{}, multiset{}, multiset{})
  }

  // The upload errgroup's context: done with the caller's context, with the
  // first group error and once a broken source cancelled the uploads.
  predicate GroupDone(s: State) {
    s.ctxDone || s.groupErr || s.sourceErr
  }

  ghost predicate Ordered(records: seq<Uploaded>) {
    forall i: nat, j: nat | i < j < |records| :: Position(records[i]) <= Position(records[j])
  }

  // sort.Slice by position.
  ghost predicate SortedBy(records: seq<Uploaded>, results: seq<Uploaded>) {
    multiset(records) == multiset(results) && Ordered(records)
  }

  predicate UploadEnabled(c: Config, s: State, u: UploadEvent) {
    match u
    case ReadChunk =>
      s.phase.Reading? && s.next < |c.chunks| && |s.uploading| + |s.submitting| < c.parallelism
    case ReadEof => s.phase.Reading? && s.next >= |c.chunks|
    case ReadError => s.phase.Reading?
    case ReadCancelled => s.phase.Reading? && s.ctxDone
    case UploadOk(p, _, _) => p in s.uploading
    case UploadTransient(p) => p in s.uploading && !GroupDone(s)
    case UploadAborted(p) => p in s.uploading && GroupDone(s)
    case SubmitQueued(r) => r in s.submitting && CanSubmit(s.v)
    case SubmitAborted(r) => r in s.submitting && (GroupDone(s) || ContextDone(s.v, s.ctxDone))
    case UploadsDone => s.phase.Waiting? && s.uploading == {} && s.submitting == multiset{}
    case RetryOk(_, _) => s.phase.Retrying? && s.pendingSubmit.None? && s.retried < |s.failedChunks|
    case RetryAborted => s.phase.Retrying? && s.pendingSubmit.None? && s.retried < |s.failedChunks|
    case RetryQueued => s.phase.Retrying? && s.pendingSubmit.Some? && CanSubmit(s.v)
    case RetrySubmitAborted =>
      s.phase.Retrying? && s.pendingSubmit.Some? && ContextDone(s.v, s.ctxDone)
    case RetryDone => s.phase.Retrying? && s.pendingSubmit.None? && s.retried >= |s.failedChunks|
  }

  ghost predicate FinishEnabled(s: State, x: FinishEvent) {
    match x
    case Stopped => s.phase.Stopping? && Drained(s.v)
    case CooldownOver => s.phase.Cooldown?
    case RoundCancelled => (s.phase.Cooldown? || s.phase.Round?) && s.ctxDone
    case RoundPass(data) => s.phase.Round? && s.todo != [] && Hash(data) == s.todo[0].plainHash
    case RoundMismatch(data) =>
      s.phase.Round? && s.todo != [] && Hash(data) != s.todo[0].plainHash && !s.ctxDone
    case RoundTransient(r) => s.phase.Round? && s.todo != [] && r == s.todo[0] && !s.ctxDone
    case RoundEnd => s.phase.Round? && s.todo == []
    case PersistOk(records) => s.phase.Persisting? && !s.ctxDone && SortedBy(records, s.results)
    case PersistFail => s.phase.Persisting?
    case AbortDone => s.phase.Aborting? && Drained(s.v)
  }

  ghost predicate Enabled(c: Config, s: State, e: Event) {
    match e
    case Cancel => !s.ctxDone
    case Upload(u) => UploadEnabled(c, s, u)
    case Verify(f) => ChunkVerifier.Enabled(s.v, s.ctxDone, f)
    case Finish(x) => FinishEnabled(s, x)
  }

  /******* Effects *******/

  function Indices(rs: seq<Uploaded>): (ps: seq<nat>)
    ensures |ps| == |rs| && forall i: nat | i < |rs| :: ps[i] == rs[i].index
  {
    seq(|rs|, i requires 0 <= i < |rs| => rs[i].index)
  }

  function Positions(rs: seq<Uploaded>): (ps: seq<int>)
    ensures |ps| == |rs| && forall i: nat | i < |rs| :: ps[i] == Position(rs[i])
  {
    seq(|rs|, i requires 0 <= i < |rs| => Position(rs[i]))
  }

  function MessageIds(rs: seq<Uploaded>): (ids: seq<int>)
    ensures |ids| == |rs| && forall i: nat | i < |rs| :: ids[i] == rs[i].messageId
  {
    seq(|rs|, i requires 0 <= i < |rs| => rs[i].messageId)
  }

  // The result of uploading chunk p.
  function Result(c: Config, p: nat, fileId: string, messageId: int): Uploaded {
    Uploaded(fileId, messageId, p, Hash(if p < |c.chunks| then c.chunks[p] else []))
  }

  function Recorded(s: State, r: Uploaded): State {
    s.(results := s.results + [r], uploadedChunks := s.uploadedChunks + 1,
       verificationTotal := s.verificationTotal + 1)
  }

  // abort: closes the verifier's intake and waits for it.
  function Abort(s: State): State {
    s.(phase := Aborting, v := s.v.(closed := true))
  }

  // The next retry round, or the end of retryFailedVerifications: what still
  // fails then aborts the upload (whose verifier has already stopped).
  function NextRound(s: State, queue: seq<Uploaded>, failed: seq<int>, round: nat): State {
    var again := queue != [] && round <= MAX_RETRY_ROUNDS;
    var allFailed := failed + if again then [] else Positions(queue);
    s.(todo := queue, still := [], round := round, roundFailed := allFailed,
       phase := if again then Cooldown else if allFailed == [] then Persisting else Aborting)
  }

  // cleanupAll: hands every recorded message to the deleter, if there is one.
  function CleanedUp(s: State): State {
    s.(phase := Finished, cleanups := s.cleanups + if s.results == [] then [] else [MessageIds(s.results)])
  }

  function ApplyUpload(c: Config, s: State, u: UploadEvent): State
    requires UploadEnabled(c, s, u)
  {
    match u
    case ReadChunk =>
      s.(uploading := s.uploading + {s.next}, next := s.next + 1,
         phase := if |c.chunks[s.next]| < c.chunkSize then Waiting else Reading)
    case ReadEof => s.(phase := Waiting)
    case ReadError => s.(phase := Waiting, sourceErr := true)
    case ReadCancelled => s.(phase := Waiting)
    case UploadOk(p, f, m) =>
      Recorded(s, Result(c, p, f, m)).(
        uploading := s.uploading - {p}, submitting := s.submitting + multiset{Result(c, p, f, m)})
    case UploadTransient(p) => s.(uploading := s.uploading - {p}, failedChunks := s.failedChunks + [p])
    case UploadAborted(p) => s.(uploading := s.uploading - {p}, lost := s.lost + multiset{p}, groupErr := true)
    case SubmitQueued(r) => s.(submitting := s.submitting - multiset{r}, v := Submit(s.v, r))
    case SubmitAborted(r) =>
      s.(submitting := s.submitting - multiset{r}, unsubmitted := s.unsubmitted + multiset{r}, groupErr := true)
    case UploadsDone => if GroupDone(s) then Abort(s) else s.(phase := Retrying)
    case RetryOk(f, m) =>
      var r := Result(c, s.failedChunks[s.retried], f, m);
      Recorded(s, r).(retried := s.retried + 1, pendingSubmit := Some(r))
    case RetryAborted => Abort(s)
    case RetryQueued => s.(pendingSubmit := None, v := Submit(s.v, s.pendingSubmit.value))
    case RetrySubmitAborted => Abort(s)
    case RetryDone => s.(phase := Stopping, v := s.v.(closed := true))
  }

  function ApplyVerify(s: State, f: ChunkVerifier.Event): State
    requires ChunkVerifier.Enabled(s.v, s.ctxDone, f)
  {
    s.(v := ChunkVerifier.Apply(s.v, s.ctxDone, f), verifiedChunks := s.verifiedChunks + if f.Pass? then 1 else 0)
  }

  // A retry round verifies the next result of its queue.
  function Rechecked(v: Verifier, r: Uploaded, data: seq<byte>): Verifier {
    v.(verified := v.verified + multiset{r}, evidence := v.evidence[r := data])
  }

  function ApplyFinish(s: State, x: FinishEvent): State
    requires FinishEnabled(s, x)
  {
    match x
    case Stopped =>
      if s.v.err then Abort(s)
      else NextRound(s.(v := s.v.(retryQueue := [])), s.v.retryQueue, s.v.failedPos, 1)
    case CooldownOver => s.(phase := Round)
    case RoundCancelled => Abort(s)
    case RoundPass(data) =>
      s.(todo := s.todo[1..], verifiedChunks := s.verifiedChunks + 1, v := Rechecked(s.v, s.todo[0], data))
    case RoundMismatch(_) =>
      s.(todo := s.todo[1..], roundFailed := s.roundFailed + [Position(s.todo[0])],
         mismatched := s.mismatched + multiset{s.todo[0]})
    case RoundTransient(r) => s.(todo := s.todo[1..], still := s.still + [r])
    case RoundEnd => NextRound(s, s.still, s.roundFailed, s.round + 1)
    case PersistOk(records) => s.(phase := Finished, committed := Some(records))
    case PersistFail => CleanedUp(s)
    case AbortDone => CleanedUp(s)
  }

  function Apply(c: Config, s: State, e: Event): State
    requires Enabled(c, s, e)
  {
    match e
    case Cancel => s.(ctxDone := true)
    case Upload(u) => ApplyUpload(c, s, u)
    case Verify(f) => ApplyVerify(s, f)
    case Finish(x) => ApplyFinish(s, x)
  }

  /******* Invariant *******/

  // How often chunk p occurs among: being uploaded, uploaded, waiting for
  // the second round, given up.
  ghost function Spots(s: State, p: nat): nat
    requires s.retried <= |s.failedChunks|
  {
    (if p in s.uploading then 1 else 0) + multiset(Indices(s.results))[p]
    + multiset(s.failedChunks[s.retried..])[p] + s.lost[p]
  }

  // Every chunk read so far is in exactly one of these places, and no other
  // chunk is anywhere.
  ghost predicate IndicesOk(c: Config, s: State) {
    && s.next <= |c.chunks|
    && s.retried <= |s.failedChunks|
    && (forall k: nat | k < |s.failedChunks| :: s.failedChunks[k] < s.next)
    && (forall p | p in s.uploading :: p < s.next)
    && (forall p: nat :: Spots(s, p) == if p < s.next then 1 else 0)
  }

  ghost function Pending(s: State, r: Uploaded): nat {
    if s.pendingSubmit == Some(r) then 1 else 0
  }

  ghost predicate Genuine(c: Config, r: Uploaded) {
    r.index < |c.chunks| && r.plainHash == Hash(c.chunks[r.index])
  }

  // Every recorded result carries its chunk's hash and has been accepted by
  // the verifier, is about to be submitted, or its submission was given up.
  ghost predicate ResultsOk(c: Config, s: State) {
    && (forall r | r in s.results :: Genuine(c, r))
    && (forall r :: multiset(s.results)[r] ==
                    s.v.accepted[r] + s.submitting[r] + s.unsubmitted[r] + Pending(s, r))
    && s.uploadedChunks == s.verificationTotal == |s.results|
    && s.verifiedChunks == |s.v.verified|
  }

  // Results the retry rounds hold outside the verifier's own queue.
  ghost function InRounds(s: State): multiset<Uploaded> {
    multiset(s.todo) + multiset(s.still) + s.mismatched
  }

  ghost predicate VerifierOk(s: State) {
    ChunkVerifier.Inv(s.v, s.ctxDone, InRounds(s))
  }

  predicate Uploading(p: Phase) { p.Reading? || p.Waiting? }

  predicate AfterStop(p: Phase) { p.Cooldown? || p.Round? || p.Persisting? }

  ghost predicate UploadFlow(c: Config, s: State) {
    && (Uploading(s.phase) ==> s.retried == 0 && s.pendingSubmit.None?)
    && (s.phase.Waiting? ==> s.next == |c.chunks| || s.sourceErr || s.ctxDone)
    && (!Uploading(s.phase) ==> s.uploading == {} && s.submitting == multiset{})
    && (s.phase.Retrying? || s.phase.Stopping? || AfterStop(s.phase) ==>
          s.next == |c.chunks| && !s.groupErr && !s.sourceErr)
    && (s.phase.Stopping? || AfterStop(s.phase) ==> s.retried == |s.failedChunks| && s.pendingSubmit.None?)
    && (!s.groupErr ==> s.lost == multiset{} && s.unsubmitted == multiset{})
    && |s.uploading| + |s.submitting| <= c.parallelism == s.v.buffer
  }

  ghost predicate RoundsOk(s: State) {
    s.phase.Cooldown? || s.phase.Round? ==> 1 <= s.round <= MAX_RETRY_ROUNDS
  }

  ghost predicate VerifyFlow(s: State) {
    && RoundsOk(s)
    && (s.v.closed <==> !(Uploading(s.phase) || s.phase.Retrying?))
    && (Uploading(s.phase) || s.phase.Retrying? || s.phase.Stopping? ==>
          s.todo == [] && s.still == [] && s.roundFailed == [] && s.mismatched == multiset{})
    && (AfterStop(s.phase) ==> Drained(s.v) && !s.v.err && s.v.retryQueue == [])
    && (AfterStop(s.phase) ==> |s.mismatched| == |s.roundFailed|)
    && (s.phase.Cooldown? ==> s.still == [])
    && (s.phase.Persisting? ==> s.todo == [] && s.still == [] && s.roundFailed == [])
    && (s.phase.Finished? ==> Drained(s.v))
  }

  // A run ends in one commit, or in one cleanup of everything it recorded.
  ghost predicate Outcome(s: State) {
    && (!s.phase.Finished? || s.committed.Some? ==> s.cleanups == [])
    && (!s.phase.Finished? ==> s.committed.None?)
    && (s.phase.Finished? && s.committed.None? ==>
          s.cleanups == if s.results == [] then [] else [MessageIds(s.results)])
  }

  ghost predicate OnceBelow(ks: seq<nat>, n: nat) {
    forall k: nat :: multiset(ks)[k] == if k < n then 1 else 0
  }

  // Some download of the record's message returned its chunk's own bytes.
  ghost predicate Checked(c: Config, s: State, r: Uploaded) {
    r.index < |c.chunks| && r in s.v.evidence && s.v.evidence[r] == c.chunks[r.index]
  }

  // What the database holds after a commit: one checked record per chunk,
  // sorted by position.
  ghost predicate Stored(c: Config, s: State, records: seq<Uploaded>) {
    && SortedBy(records, s.results)
    && OnceBelow(Indices(records), |c.chunks|)
    && (forall i: nat | i < |records| :: Checked(c, s, records[i]))
    && s.uploadedChunks == s.verificationTotal == s.verifiedChunks == |records| == |c.chunks|
  }

  // What makes it the file: positions 0..n-1 in order, and record i is the one
  // of chunk i.
  ghost predicate InOrder(records: seq<Uploaded>) {
    forall i: nat | i < |records| :: Position(records[i]) == i == records[i].index
  }

  ghost predicate CommittedOk(c: Config, s: State) {
    s.committed.Some? ==> Stored(c, s, s.committed.value)
  }

  ghost predicate Inv(c: Config, s: State) {
    && IndicesOk(c, s) && ResultsOk(c, s) && VerifierOk(s)
    && UploadFlow(c, s) && VerifyFlow(s) && Outcome(s) && CommittedOk(c, s)
  }

  lemma InitInv(c: Config)
    ensures Inv(c, Init(c))
  {
    assert Indices([]) == [];
  }

  /******* Steps: chunks *******/

  lemma SameIndices(c: Config, s: State, t: State)
    requires IndicesOk(c, s)
    requires t.next == s.next && t.uploading == s.uploading && t.results == s.results
    requires t.failedChunks == s.failedChunks && t.retried == s.retried && t.lost == s.lost
    ensures IndicesOk(c, t)
  {
    forall p: nat ensures Spots(t, p) == if p < t.next then 1 else 0 {
      assert Spots(s, p) == if p < s.next then 1 else 0;
    }
  }

  lemma ReadIndices(c: Config, s: State)
    requires IndicesOk(c, s) && s.next < |c.chunks|
    ensures s.next !in s.uploading
    ensures IndicesOk(c, s.(uploading := s.uploading + {s.next}, next := s.next + 1))
  {
    var t := s.(uploading := s.uploading + {s.next}, next := s.next + 1);
    forall p: nat ensures Spots(t, p) == if p < t.next then 1 else 0 {
      assert Spots(s, p) == if p < s.next then 1 else 0;
    }
  }

  // The goroutine for p ends: its chunk moves to the results, the failed
  // chunks or the uploads given up.
  lemma UploadIndices(c: Config, s: State, t: State, p: nat)
    requires IndicesOk(c, s) && p in s.uploading
    requires t.next == s.next && t.uploading == s.uploading - {p} && t.retried == s.retried
    requires
      || (t.failedChunks == s.failedChunks && t.lost == s.lost
          && exists r: Uploaded :: r.index == p && t.results == s.results + [r])
      || (t.failedChunks == s.failedChunks + [p] && t.lost == s.lost && t.results == s.results)
      || (t.failedChunks == s.failedChunks && t.lost == s.lost + multiset{p} && t.results == s.results)
    ensures IndicesOk(c, t)
  {
    assert multiset(Indices(t.results)) ==
           multiset(Indices(s.results)) + if t.results == s.results then multiset{} else multiset{p}
    by {
      if t.results != s.results {
        assert Indices(t.results) == Indices(s.results) + [p];
      }
    }
    assert (s.failedChunks + [p])[s.retried..] == s.failedChunks[s.retried..] + [p];
    forall q: nat ensures Spots(t, q) == if q < t.next then 1 else 0 {
      assert Spots(s, q) == if q < s.next then 1 else 0;
    }
  }

  lemma RetryIndices(c: Config, s: State, t: State, r: Uploaded)
    requires IndicesOk(c, s) && s.retried < |s.failedChunks| && r.index == s.failedChunks[s.retried]
    requires t.next == s.next && t.uploading == s.uploading && t.lost == s.lost
    requires t.failedChunks == s.failedChunks && t.retried == s.retried + 1 && t.results == s.results + [r]
    ensures IndicesOk(c, t)
  {
    assert Indices(t.results) == Indices(s.results) + [r.index];
    assert s.failedChunks[s.retried..] == [r.index] + s.failedChunks[s.retried + 1..];
    forall q: nat ensures Spots(t, q) == if q < t.next then 1 else 0 {
      assert Spots(s, q) == if q < s.next then 1 else 0;
    }
  }

  // The state of the uploads.
  predicate SameUploads(s: State, t: State) {
    && t.next == s.next && t.uploading == s.uploading && t.results == s.results
    && t.failedChunks == s.failedChunks && t.retried == s.retried && t.lost == s.lost
    && t.submitting == s.submitting && t.unsubmitted == s.unsubmitted && t.pendingSubmit == s.pendingSubmit
    && t.groupErr == s.groupErr && t.sourceErr == s.sourceErr && t.ctxDone == s.ctxDone
    && t.uploadedChunks == s.uploadedChunks && t.verificationTotal == s.verificationTotal
    && t.v.accepted == s.v.accepted && t.v.buffer == s.v.buffer
  }

  lemma VerifyKeepsUploads(s: State, f: ChunkVerifier.Event)
    requires ChunkVerifier.Enabled(s.v, s.ctxDone, f)
    ensures SameUploads(s, ApplyVerify(s, f))
  {
  }

  lemma NextRoundKeepsUploads(s: State, queue: seq<Uploaded>, failed: seq<int>, round: nat)
    ensures var t := NextRound(s, queue, failed, round);
      SameUploads(s, t) && t.v == s.v
  {
  }

  lemma FinishKeepsUploads(s: State, x: FinishEvent)
    requires FinishEnabled(s, x)
    ensures SameUploads(s, ApplyFinish(s, x))
  {
    if x.Stopped? {
      if !s.v.err {
        NextRoundKeepsUploads(s.(v := s.v.(retryQueue := [])), s.v.retryQueue, s.v.failedPos, 1);
      }
    } else if x.RoundEnd? {
      NextRoundKeepsUploads(s, s.still, s.roundFailed, s.round + 1);
    }
  }

  predicate MovesIndices(u: UploadEvent) {
    u.ReadChunk? || u.UploadOk? || u.UploadTransient? || u.UploadAborted? || u.RetryOk?
  }

  lemma OtherUploadEventsKeepIndices(c: Config, s: State, u: UploadEvent)
    requires UploadEnabled(c, s, u) && !MovesIndices(u)
    ensures var t := ApplyUpload(c, s, u);
      && t.next == s.next && t.uploading == s.uploading && t.results == s.results
      && t.failedChunks == s.failedChunks && t.retried == s.retried && t.lost == s.lost
  {
  }

  lemma MoveIndices(c: Config, s: State, u: UploadEvent)
    requires IndicesOk(c, s) && UploadEnabled(c, s, u) && MovesIndices(u)
    ensures IndicesOk(c, ApplyUpload(c, s, u))
  {
    var t := ApplyUpload(c, s, u);
    match u {
      case ReadChunk =>
        ReadIndices(c, s);
        SameIndices(c, s.(uploading := s.uploading + {s.next}, next := s.next + 1), t);
      case UploadOk(p, f, m) =>
        assert Result(c, p, f, m).index == p && t.results == s.results + [Result(c, p, f, m)];
        UploadIndices(c, s, t, p);
      case UploadTransient(p) => UploadIndices(c, s, t, p);
      case UploadAborted(p) => UploadIndices(c, s, t, p);
      case RetryOk(f, m) => RetryIndices(c, s, t, Result(c, s.failedChunks[s.retried], f, m));
    }
  }

  lemma StepIndices(c: Config, s: State, e: Event)
    requires IndicesOk(c, s) && Enabled(c, s, e)
    ensures IndicesOk(c, Apply(c, s, e))
  {
    match e {
      case Cancel => SameIndices(c, s, s.(ctxDone := true));
      case Upload(u) =>
        if MovesIndices(u) {
          MoveIndices(c, s, u);
        } else {
          OtherUploadEventsKeepIndices(c, s, u);
          SameIndices(c, s, ApplyUpload(c, s, u));
        }
      case Verify(f) =>
        VerifyKeepsUploads(s, f);
        SameIndices(c, s, ApplyVerify(s, f));
      case Finish(x) =>
        FinishKeepsUploads(s, x);
        SameIndices(c, s, ApplyFinish(s, x));
    }
  }

  /******* Steps: results *******/

  // A chunk has been uploaded: its result is recorded and about to be submitted.
  lemma RecordResult(c: Config, s: State, t: State, r: Uploaded)
    requires ResultsOk(c, s) && Genuine(c, r)
    requires t.results == s.results + [r] && t.v == s.v && t.unsubmitted == s.unsubmitted
    requires
      || (t.submitting == s.submitting + multiset{r} && t.pendingSubmit == s.pendingSubmit)
      || (t.submitting == s.submitting && s.pendingSubmit.None? && t.pendingSubmit == Some(r))
    requires t.uploadedChunks == s.uploadedChunks + 1 && t.verificationTotal == s.verificationTotal + 1
    requires t.verifiedChunks == s.verifiedChunks
    ensures ResultsOk(c, t)
  {
    forall x ensures multiset(t.results)[x] ==
                     t.v.accepted[x] + t.submitting[x] + t.unsubmitted[x] + Pending(t, x)
    {
      assert multiset(s.results)[x] == s.v.accepted[x] + s.submitting[x] + s.unsubmitted[x] + Pending(s, x);
    }
  }

  // A submission ends: the verifier accepted the result or it was given up.
  lemma SubmitResult(c: Config, s: State, t: State, r: Uploaded)
    requires ResultsOk(c, s) && t.results == s.results
    requires
      || (t.v == Submit(s.v, r) && t.unsubmitted == s.unsubmitted)
      || (t.v == s.v && t.unsubmitted == s.unsubmitted + multiset{r})
    requires
      || (r in s.submitting && t.submitting == s.submitting - multiset{r} && t.pendingSubmit == s.pendingSubmit)
      || (t.submitting == s.submitting && s.pendingSubmit == Some(r) && t.pendingSubmit.None?)
    requires t.uploadedChunks == s.uploadedChunks && t.verificationTotal == s.verificationTotal
    requires t.verifiedChunks == s.verifiedChunks
    ensures ResultsOk(c, t)
  {
    forall x ensures multiset(t.results)[x] ==
                     t.v.accepted[x] + t.submitting[x] + t.unsubmitted[x] + Pending(t, x)
    {
      assert multiset(s.results)[x] == s.v.accepted[x] + s.submitting[x] + s.unsubmitted[x] + Pending(s, x);
    }
  }

  predicate MovesResults(u: UploadEvent) {
    u.UploadOk? || u.SubmitQueued? || u.SubmitAborted? || u.RetryOk? || u.RetryQueued?
  }

  lemma MoveResults(c: Config, s: State, u: UploadEvent)
    requires IndicesOk(c, s) && ResultsOk(c, s) && UploadEnabled(c, s, u) && MovesResults(u)
    ensures ResultsOk(c, ApplyUpload(c, s, u))
  {
    var t := ApplyUpload(c, s, u);
    match u {
      case UploadOk(p, f, m) => RecordResult(c, s, t, Result(c, p, f, m));
      case RetryOk(f, m) => RecordResult(c, s, t, Result(c, s.failedChunks[s.retried], f, m));
      case SubmitQueued(r) => SubmitResult(c, s, t, r);
      case SubmitAborted(r) => SubmitResult(c, s, t, r);
      case RetryQueued => SubmitResult(c, s, t, s.pendingSubmit.value);
    }
  }

  lemma OtherUploadEventsKeepResults(c: Config, s: State, u: UploadEvent)
    requires UploadEnabled(c, s, u) && !MovesResults(u)
    ensures var t := ApplyUpload(c, s, u);
      && t.results == s.results && t.submitting == s.submitting && t.unsubmitted == s.unsubmitted
      && t.pendingSubmit == s.pendingSubmit && t.v == s.v.(closed := t.v.closed)
      && t.uploadedChunks == s.uploadedChunks && t.verificationTotal == s.verificationTotal
      && t.verifiedChunks == s.verifiedChunks
  {
  }

  lemma KeepResults(c: Config, s: State, t: State)
    requires ResultsOk(c, s)
    requires t.results == s.results && t.submitting == s.submitting && t.unsubmitted == s.unsubmitted
    requires t.pendingSubmit == s.pendingSubmit && t.v.accepted == s.v.accepted
    requires t.uploadedChunks == s.uploadedChunks && t.verificationTotal == s.verificationTotal
    requires t.verifiedChunks == |t.v.verified|
    ensures ResultsOk(c, t)
  {
    forall r ensures multiset(t.results)[r] ==
                     t.v.accepted[r] + t.submitting[r] + t.unsubmitted[r] + Pending(t, r)
    {
      assert multiset(s.results)[r] == s.v.accepted[r] + s.submitting[r] + s.unsubmitted[r] + Pending(s, r);
    }
  }

  lemma VerifyCounts(s: State, f: ChunkVerifier.Event)
    requires ChunkVerifier.Enabled(s.v, s.ctxDone, f) && s.verifiedChunks == |s.v.verified|
    ensures var t := ApplyVerify(s, f); t.verifiedChunks == |t.v.verified|
  {
  }

  lemma FinishCounts(s: State, x: FinishEvent)
    requires FinishEnabled(s, x) && s.verifiedChunks == |s.v.verified|
    ensures var t := ApplyFinish(s, x); t.verifiedChunks == |t.v.verified|
  {
    if x.Stopped? {
      assert ApplyFinish(s, x).v.verified == s.v.verified;
    } else if x.RoundEnd? {
      NextRoundKeepsUploads(s, s.still, s.roundFailed, s.round + 1);
    }
  }

  lemma StepResults(c: Config, s: State, e: Event)
    requires IndicesOk(c, s) && ResultsOk(c, s) && Enabled(c, s, e)
    ensures ResultsOk(c, Apply(c, s, e))
  {
    match e {
      case Cancel => KeepResults(c, s, s.(ctxDone := true));
      case Upload(u) =>
        if MovesResults(u) {
          MoveResults(c, s, u);
        } else {
          OtherUploadEventsKeepResults(c, s, u);
          KeepResults(c, s, ApplyUpload(c, s, u));
        }
      case Verify(f) =>
        VerifyKeepsUploads(s, f);
        VerifyCounts(s, f);
        KeepResults(c, s, ApplyVerify(s, f));
      case Finish(x) =>
        FinishKeepsUploads(s, x);
        FinishCounts(s, x);
        KeepResults(c, s, ApplyFinish(s, x));
    }
  }

  /******* Steps: the verifier *******/

  lemma MoveRetries(v: Verifier, w: Verifier, before: multiset<Uploaded>, after: multiset<Uploaded>)
    requires Conserved(v, before)
    requires w == v.(retryQueue := w.retryQueue)
    requires multiset(w.retryQueue) + after == multiset(v.retryQueue) + before
    ensures Conserved(w, after)
  {
    forall r ensures Places(w, after, r) == w.accepted[r] {
      assert Places(v, before, r) == v.accepted[r];
      assert (multiset(w.retryQueue) + after)[r] == (multiset(v.retryQueue) + before)[r];
    }
  }

  lemma RecheckConserves(v: Verifier, before: multiset<Uploaded>, r: Uploaded, data: seq<byte>)
    requires Conserved(v, before) && r in before
    ensures Conserved(Rechecked(v, r, data), before - multiset{r})
  {
    var w := Rechecked(v, r, data);
    forall x ensures Places(w, before - multiset{r}, x) == w.accepted[x] {
      assert Places(v, before, x) == v.accepted[x];
    }
  }

  lemma NextRoundKeepsRetries(s: State, queue: seq<Uploaded>, failed: seq<int>, round: nat)
    requires ChunkVerifier.Inv(s.v, s.ctxDone, multiset(queue) + s.mismatched)
    ensures VerifierOk(NextRound(s, queue, failed, round))
  {
    var t := NextRound(s, queue, failed, round);
    assert InRounds(t) == multiset(queue) + s.mismatched;
  }

  // Closing the intake and cancelling the upload moves no result.
  lemma CloseKeepsVerifier(v: Verifier, ctxDone: bool, retrying: multiset<Uploaded>, ctxDone': bool)
    requires ChunkVerifier.Inv(v, ctxDone, retrying) && (ctxDone ==> ctxDone')
    ensures ChunkVerifier.Inv(v, ctxDone', retrying) && ChunkVerifier.Inv(v.(closed := true), ctxDone', retrying)
  {
    var w := v.(closed := true);
    forall r ensures Places(w, retrying, r) == w.accepted[r] {
      assert Places(v, retrying, r) == v.accepted[r];
    }
  }

  lemma StoppedKeepsVerifier(s: State)
    requires VerifierOk(s) && s.phase.Stopping? && s.todo == [] && s.still == [] && Drained(s.v)
    ensures VerifierOk(ApplyFinish(s, Stopped))
  {
    if s.v.err {
      CloseKeepsVerifier(s.v, s.ctxDone, InRounds(s), s.ctxDone);
      assert InRounds(Abort(s)) == InRounds(s);
    } else {
      var w := s.v.(retryQueue := []);
      var after := multiset(s.v.retryQueue) + s.mismatched;
      assert InRounds(s) == s.mismatched;
      MoveRetries(s.v, w, InRounds(s), after);
      assert ChunkVerifier.Inv(w, s.ctxDone, after);
      NextRoundKeepsRetries(s.(v := w), s.v.retryQueue, s.v.failedPos, 1);
    }
  }

  lemma TakeNext(todo: seq<Uploaded>, still: seq<Uploaded>, failed: multiset<Uploaded>)
    requires todo != []
    ensures var all := multiset(todo) + multiset(still) + failed;
      && todo[0] in all
      && multiset(todo[1..]) + multiset(still) + failed == all - multiset{todo[0]}
      && multiset(todo[1..]) + multiset(still + [todo[0]]) + failed == all
      && multiset(todo[1..]) + multiset(still) + (failed + multiset{todo[0]}) == all
  {
    assert todo == [todo[0]] + todo[1..];
    assert multiset(todo) == multiset{todo[0]} + multiset(todo[1..]);
    assert multiset(still + [todo[0]]) == multiset(still) + multiset{todo[0]};
  }

  lemma RoundPassKeepsVerifier(s: State, data: seq<byte>)
    requires VerifierOk(s) && FinishEnabled(s, RoundPass(data))
    ensures VerifierOk(ApplyFinish(s, RoundPass(data)))
  {
    TakeNext(s.todo, s.still, s.mismatched);
    RecheckConserves(s.v, InRounds(s), s.todo[0], data);
    var w := Rechecked(s.v, s.todo[0], data);
    assert Sound(w, s.ctxDone);
    assert InRounds(ApplyFinish(s, RoundPass(data))) == InRounds(s) - multiset{s.todo[0]};
  }

  lemma RoundFailKeepsVerifier(s: State, x: FinishEvent)
    requires VerifierOk(s) && FinishEnabled(s, x) && (x.RoundMismatch? || x.RoundTransient?)
    ensures VerifierOk(ApplyFinish(s, x))
  {
    var t := ApplyFinish(s, x);
    TakeNext(s.todo, s.still, s.mismatched);
    assert InRounds(t) == InRounds(s) && t.v == s.v;
  }

  lemma FinishKeepsVerifier(s: State, x: FinishEvent)
    requires VerifierOk(s) && VerifyFlow(s) && FinishEnabled(s, x)
    ensures VerifierOk(ApplyFinish(s, x))
  {
    match x {
      case Stopped => StoppedKeepsVerifier(s);
      case RoundPass(data) => RoundPassKeepsVerifier(s, data);
      case RoundMismatch(_) => RoundFailKeepsVerifier(s, x);
      case RoundTransient(_) => RoundFailKeepsVerifier(s, x);
      case RoundEnd =>
        assert InRounds(s) == multiset(s.still) + s.mismatched;
        NextRoundKeepsRetries(s, s.still, s.roundFailed, s.round + 1);
      case _ =>
        CloseKeepsVerifier(s.v, s.ctxDone, InRounds(s), s.ctxDone);
    }
  }

  lemma UploadKeepsVerifier(c: Config, s: State, u: UploadEvent)
    requires VerifierOk(s) && UploadEnabled(c, s, u)
    ensures VerifierOk(ApplyUpload(c, s, u))
  {
    var t := ApplyUpload(c, s, u);
    assert InRounds(t) == InRounds(s);
    if u.SubmitQueued? {
      SubmitKeeps(s.v, s.ctxDone, InRounds(s), u.result);
    } else if u.RetryQueued? {
      SubmitKeeps(s.v, s.ctxDone, InRounds(s), s.pendingSubmit.value);
    } else {
      CloseKeepsVerifier(s.v, s.ctxDone, InRounds(s), s.ctxDone);
    }
  }

  lemma StepVerifier(c: Config, s: State, e: Event)
    requires VerifierOk(s) && VerifyFlow(s) && Enabled(c, s, e)
    ensures VerifierOk(Apply(c, s, e))
  {
    match e {
      case Cancel => CloseKeepsVerifier(s.v, s.ctxDone, InRounds(s), true);
      case Upload(u) => UploadKeepsVerifier(c, s, u);
      case Verify(f) => ChunkVerifier.Step(s.v, s.ctxDone, InRounds(s), f);
      case Finish(x) => FinishKeepsVerifier(s, x);
    }
  }

  /******* Steps: control flow *******/

  predicate GoroutineEvent(u: UploadEvent) {
    u.UploadOk? || u.UploadTransient? || u.UploadAborted? || u.SubmitQueued? || u.SubmitAborted?
  }

  lemma GoroutineKeepsFlow(c: Config, s: State, u: UploadEvent)
    requires UploadFlow(c, s) && UploadEnabled(c, s, u) && GoroutineEvent(u)
    ensures UploadFlow(c, ApplyUpload(c, s, u))
  {
  }

  lemma MainKeepsFlow(c: Config, s: State, u: UploadEvent)
    requires WellFormed(c) && IndicesOk(c, s) && UploadFlow(c, s) && UploadEnabled(c, s, u) && !GoroutineEvent(u)
    ensures UploadFlow(c, ApplyUpload(c, s, u))
  {
  }

  lemma GoroutineKeepsVerifyFlow(c: Config, s: State, u: UploadEvent)
    requires VerifyFlow(s) && UploadFlow(c, s) && UploadEnabled(c, s, u) && GoroutineEvent(u)
    ensures VerifyFlow(ApplyUpload(c, s, u))
  {
    assert Uploading(s.phase);
    assert ApplyUpload(c, s, u).phase == s.phase;
  }

  lemma ReadKeepsVerifyFlow(c: Config, s: State, u: UploadEvent)
    requires VerifyFlow(s) && UploadEnabled(c, s, u) && !GoroutineEvent(u) && Uploading(s.phase)
    ensures VerifyFlow(ApplyUpload(c, s, u))
  {
    var t := ApplyUpload(c, s, u);
    assert Uploading(t.phase) || t.phase.Retrying? || t.phase.Aborting?;
    assert t.v == s.v.(closed := t.phase.Aborting?);
  }

  lemma RetryKeepsVerifyFlow(c: Config, s: State, u: UploadEvent)
    requires VerifyFlow(s) && UploadEnabled(c, s, u) && !GoroutineEvent(u) && s.phase.Retrying?
    ensures VerifyFlow(ApplyUpload(c, s, u))
  {
    var t := ApplyUpload(c, s, u);
    assert t.phase.Retrying? || t.phase.Stopping? || t.phase.Aborting?;
    assert t.v.closed <==> !t.phase.Retrying?;
  }

  lemma UploadKeepsFlow(c: Config, s: State, u: UploadEvent)
    requires WellFormed(c) && IndicesOk(c, s) && UploadFlow(c, s) && VerifyFlow(s) && UploadEnabled(c, s, u)
    ensures UploadFlow(c, ApplyUpload(c, s, u)) && VerifyFlow(ApplyUpload(c, s, u))
  {
    if GoroutineEvent(u) {
      GoroutineKeepsFlow(c, s, u);
      GoroutineKeepsVerifyFlow(c, s, u);
    } else {
      MainKeepsFlow(c, s, u);
      if Uploading(s.phase) {
        ReadKeepsVerifyFlow(c, s, u);
      } else {
        RetryKeepsVerifyFlow(c, s, u);
      }
    }
  }

  // Once drained the verifier does nothing more.
  lemma DrainedIsQuiet(v: Verifier, ctxDone: bool, f: ChunkVerifier.Event)
    requires Drained(v)
    ensures !ChunkVerifier.Enabled(v, ctxDone, f)
  {
  }

  lemma VerifyKeepsFlow(c: Config, s: State, f: ChunkVerifier.Event)
    requires UploadFlow(c, s) && VerifyFlow(s) && ChunkVerifier.Enabled(s.v, s.ctxDone, f)
    ensures UploadFlow(c, ApplyVerify(s, f)) && VerifyFlow(ApplyVerify(s, f))
  {
    VerifyKeepsUploads(s, f);
    if Drained(s.v) {
      DrainedIsQuiet(s.v, s.ctxDone, f);
    }
  }

  lemma NextRoundFlow(c: Config, s: State, queue: seq<Uploaded>, failed: seq<int>, round: nat)
    requires UploadFlow(c, s) && (s.phase.Stopping? || s.phase.Round?) && round >= 1
    requires s.v.closed && Drained(s.v) && !s.v.err && s.v.retryQueue == [] && |s.mismatched| == |failed|
    ensures var t := NextRound(s, queue, failed, round); UploadFlow(c, t) && VerifyFlow(t)
  {
    NextRoundKeepsUploads(s, queue, failed, round);
  }

  lemma FinishKeepsUploadFlow(c: Config, s: State, x: FinishEvent)
    requires UploadFlow(c, s) && FinishEnabled(s, x) && !x.Stopped? && !x.RoundEnd?
    ensures UploadFlow(c, ApplyFinish(s, x))
  {
    FinishKeepsUploads(s, x);
  }

  predicate RoundEvent(x: FinishEvent) {
    x.CooldownOver? || x.RoundPass? || x.RoundMismatch? || x.RoundTransient?
  }

  lemma RoundKeepsVerifyFlow(s: State, x: FinishEvent)
    requires VerifyFlow(s) && FinishEnabled(s, x) && RoundEvent(x)
    ensures VerifyFlow(ApplyFinish(s, x))
  {
    var t := ApplyFinish(s, x);
    assert t.phase.Round? && t.v.closed && t.round == s.round;
    assert t.v.consumer == s.v.consumer && t.v.verifying == s.v.verifying;
    assert t.v.err == s.v.err && t.v.retryQueue == s.v.retryQueue;
  }

  lemma EndKeepsVerifyFlow(s: State, x: FinishEvent)
    requires VerifyFlow(s) && FinishEnabled(s, x) && !x.Stopped? && !x.RoundEnd? && !RoundEvent(x)
    ensures VerifyFlow(ApplyFinish(s, x))
  {
    var t := ApplyFinish(s, x);
    assert t.v.closed;
    assert t.v.consumer == s.v.consumer && t.v.verifying == s.v.verifying;
    assert t.v.err == s.v.err && t.v.retryQueue == s.v.retryQueue;
  }

  lemma StoppedKeepsFlow(c: Config, s: State)
    requires UploadFlow(c, s) && VerifyFlow(s) && VerifierOk(s) && FinishEnabled(s, Stopped)
    ensures UploadFlow(c, ApplyFinish(s, Stopped)) && VerifyFlow(ApplyFinish(s, Stopped))
  {
    FinishKeepsUploads(s, Stopped);
    if !s.v.err {
      NextRoundFlow(c, s.(v := s.v.(retryQueue := [])), s.v.retryQueue, s.v.failedPos, 1);
    }
  }

  lemma FinishKeepsFlow(c: Config, s: State, x: FinishEvent)
    requires UploadFlow(c, s) && VerifyFlow(s) && VerifierOk(s) && FinishEnabled(s, x)
    ensures UploadFlow(c, ApplyFinish(s, x)) && VerifyFlow(ApplyFinish(s, x))
  {
    if x.Stopped? {
      StoppedKeepsFlow(c, s);
    } else if x.RoundEnd? {
      NextRoundFlow(c, s, s.still, s.roundFailed, s.round + 1);
    } else {
      FinishKeepsUploadFlow(c, s, x);
      if RoundEvent(x) {
        RoundKeepsVerifyFlow(s, x);
      } else {
        EndKeepsVerifyFlow(s, x);
      }
    }
  }

  lemma StepFlow(c: Config, s: State, e: Event)
    requires WellFormed(c) && IndicesOk(c, s) && VerifierOk(s) && UploadFlow(c, s) && VerifyFlow(s)
    requires Enabled(c, s, e)
    ensures UploadFlow(c, Apply(c, s, e)) && VerifyFlow(Apply(c, s, e))
  {
    match e {
      case Cancel =>
      case Upload(u) => UploadKeepsFlow(c, s, u);
      case Verify(f) => VerifyKeepsFlow(c, s, f);
      case Finish(x) => FinishKeepsFlow(c, s, x);
    }
  }

  /******* Steps: commit and cleanup *******/

  lemma {:induction false} SameIndicesMultiset(a: seq<Uploaded>, b: seq<Uploaded>)
    requires multiset(a) == multiset(b)
    ensures multiset(Indices(a)) == multiset(Indices(b))
    decreases |a|
  {
    if a == [] {
      assert |multiset(b)| == |b|;
    } else {
      var a', b' := RemoveFromBoth(a, b);
      SameIndicesMultiset(a', b');
    }
  }

  lemma RemoveFromBoth(a: seq<Uploaded>, b: seq<Uploaded>) returns (a': seq<Uploaded>, b': seq<Uploaded>)
    requires a != [] && multiset(a) == multiset(b)
    ensures |a'| < |a| && multiset(a') == multiset(b')
    ensures multiset(Indices(a)) == multiset(Indices(a')) + multiset{a[0].index}
    ensures multiset(Indices(b)) == multiset(Indices(b')) + multiset{a[0].index}
  {
    assert a[0] in multiset(b);
    a' := RemoveOne(a, a[0]);
    b' := RemoveOne(b, a[0]);
    MultisetCancel(multiset(a'), multiset(b'), multiset{a[0]});
  }

  lemma MultisetCancel(x: multiset<Uploaded>, y: multiset<Uploaded>, z: multiset<Uploaded>)
    requires x + z == y + z
    ensures x == y
  {
    assert x == (x + z) - z;
    assert y == (y + z) - z;
  }

  lemma RemoveOne(a: seq<Uploaded>, r: Uploaded) returns (rest: seq<Uploaded>)
    requires r in a
    ensures |rest| < |a| && multiset(rest) + multiset{r} == multiset(a)
    ensures multiset(Indices(a)) == multiset(Indices(rest)) + multiset{r.index}
  {
    var j: nat :| j < |a| && a[j] == r;
    rest := a[..j] + a[j + 1..];
    RemoveAt(a, j);
  }

  lemma RemoveAt(a: seq<Uploaded>, j: nat)
    requires j < |a|
    ensures var rest := a[..j] + a[j + 1..];
      && multiset(a) == multiset(rest) + multiset{a[j]}
      && multiset(Indices(a)) == multiset(Indices(rest)) + multiset{a[j].index}
  {
    var rest := a[..j] + a[j + 1..];
    assert a == a[..j] + ([a[j]] + a[j + 1..]);
    assert Indices(a) == Indices(a[..j]) + ([a[j].index] + Indices(a[j + 1..]));
    assert Indices(rest) == Indices(a[..j]) + Indices(a[j + 1..]);
  }

  lemma WithoutAt(ks: seq<nat>, j: nat) returns (rest: seq<nat>)
    requires j < |ks|
    ensures |rest| == |ks| - 1 && multiset(ks) == multiset(rest) + multiset{ks[j]}
  {
    rest := ks[..j] + ks[j + 1..];
    assert ks == ks[..j] + ([ks[j]] + ks[j + 1..]);
  }

  lemma {:induction false} OnceCount(ks: seq<nat>, n: nat)
    requires OnceBelow(ks, n)
    ensures |ks| == n
    decreases n
  {
    if n == 0 {
      assert multiset(ks) == multiset{};
      assert |multiset(ks)| == |ks|;
    } else {
      assert n - 1 in multiset(ks);
      var j: nat :| j < |ks| && ks[j] == n - 1;
      var rest: seq<nat> := WithoutAt(ks, j);
      forall k: nat ensures multiset(rest)[k] == if k < n - 1 then 1 else 0 {
        assert multiset(ks)[k] == if k < n then 1 else 0;
      }
      OnceCount(rest, n - 1);
    }
  }

  ghost predicate Ascending(ps: seq<nat>) {
    forall i: nat, j: nat | i < j < |ps| :: ps[i] <= ps[j]
  }

  lemma LargestIsLast(ps: seq<nat>, n: nat)
    requires Ascending(ps) && OnceBelow(ps, n) && n > 0
    ensures ps != [] && ps[|ps| - 1] == n - 1
  {
    assert multiset(ps)[n - 1] == 1;
    assert (n - 1) in multiset(ps);
    var j: nat :| j < |ps| && ps[j] == n - 1;
    var k: nat := |ps| - 1;
    var last: nat := ps[k];
    assert last in multiset(ps);
    assert multiset(ps)[last] == if last < n then 1 else 0;
    assert ps[j] <= last;
  }

  lemma WithoutLast(ps: seq<nat>, n: nat)
    requires OnceBelow(ps, n) && n > 0 && ps != [] && ps[|ps| - 1] == n - 1
    ensures OnceBelow(ps[..|ps| - 1], n - 1)
  {
    var rest := ps[..|ps| - 1];
    assert ps == rest + [n - 1];
    forall p: nat ensures multiset(rest)[p] == if p < n - 1 then 1 else 0 {
      assert multiset(ps)[p] == if p < n then 1 else 0;
    }
  }

  // A sorted sequence holding each of 0..n-1 once is 0, 1, ..., n-1.
  lemma {:induction false} SortedOnce(ps: seq<nat>, n: nat)
    requires Ascending(ps) && OnceBelow(ps, n)
    ensures |ps| == n && forall i: nat | i < n :: ps[i] == i
  {
    OnceCount(ps, n);
    if n > 0 {
      LargestIsLast(ps, n);
      WithoutLast(ps, n);
      SortedOnce(ps[..|ps| - 1], n - 1);
    }
  }

  // With every chunk recorded once and no more chunks than int16 has
  // non-negative values, sorting by position makes record i the one of chunk i.
  lemma SortedRecords(records: seq<Uploaded>, results: seq<Uploaded>, n: nat)
    requires SortedBy(records, results) && OnceBelow(Indices(records), n) && n <= 32768
    ensures |records| == n && InOrder(records)
  {
    var ks := Indices(records);
    forall i: nat | i < |ks| ensures ks[i] < n {
      assert ks[i] in multiset(ks);
    }
    assert Ascending(ks) by {
      forall i: nat, j: nat | i < j < |ks| ensures ks[i] <= ks[j] {
        assert Position(records[i]) <= Position(records[j]);
      }
    }
    SortedOnce(ks, n);
  }

  // One chunk more and the counter has wrapped: the chunk at -32768 sorts first.
  lemma WrappedRecords(records: seq<Uploaded>, results: seq<Uploaded>, n: nat)
    requires SortedBy(records, results) && OnceBelow(Indices(records), n) && n > 32768
    ensures records != [] && Position(records[0]) == -32768
  {
    var ks := Indices(records);
    assert 32768 in multiset(ks);
    var j: nat :| j < |ks| && ks[j] == 32768;
    assert Position(records[j]) == -32768;
    assert Position(records[0]) <= Position(records[j]);
  }

  lemma RecordedOnce(c: Config, s: State, records: seq<Uploaded>)
    requires IndicesOk(c, s) && s.next == |c.chunks| && s.uploading == {} && s.lost == multiset{}
    requires s.retried == |s.failedChunks| && multiset(records) == multiset(s.results)
    ensures OnceBelow(Indices(records), |c.chunks|)
  {
    SameIndicesMultiset(records, s.results);
    forall k: nat ensures multiset(Indices(records))[k] == if k < |c.chunks| then 1 else 0 {
      assert Spots(s, k) == if k < s.next then 1 else 0;
    }
  }

  lemma ResultsAreAccepted(c: Config, s: State)
    requires ResultsOk(c, s) && s.submitting == multiset{} && s.unsubmitted == multiset{} && s.pendingSubmit.None?
    ensures multiset(s.results) == s.v.accepted
  {
    forall r ensures multiset(s.results)[r] == s.v.accepted[r] {
      assert multiset(s.results)[r] == s.v.accepted[r] + s.submitting[r] + s.unsubmitted[r] + Pending(s, r);
    }
  }

  // When nothing is left to upload or to verify, the sorted results are one
  // checked record per chunk.
  lemma PersistCompletes(c: Config, s: State, records: seq<Uploaded>)
    requires IndicesOk(c, s) && ResultsOk(c, s) && VerifierOk(s) && UploadFlow(c, s) && VerifyFlow(s)
    requires s.phase.Persisting? && !s.ctxDone && SortedBy(records, s.results)
    ensures Stored(c, s, records)
  {
    RecordedOnce(c, s, records);
    OnceCount(Indices(records), |c.chunks|);
    ResultsAreAccepted(c, s);
    assert s.mismatched == multiset{};
    assert InRounds(s) == multiset{};
    StoppedCleanly(s.v, InRounds(s));
    assert s.v.verified == s.v.accepted == multiset(records);
    forall i: nat | i < |records| ensures Checked(c, s, records[i]) {
      assert records[i] in multiset(records);
      assert records[i] in multiset(s.results);
      assert Genuine(c, records[i]);
    }
    assert |multiset(records)| == |records| && |multiset(s.results)| == |s.results|;
  }

  lemma StepOutcome(c: Config, s: State, e: Event)
    requires Outcome(s) && UploadFlow(c, s) && VerifyFlow(s) && Enabled(c, s, e)
    ensures Outcome(Apply(c, s, e))
  {
    match e {
      case Cancel =>
      case Upload(u) => UploadKeepsOutcome(c, s, u);
      case Verify(f) => VerifyKeepsUploads(s, f);
      case Finish(x) => FinishKeepsOutcome(s, x);
    }
  }

  lemma UploadKeepsOutcome(c: Config, s: State, u: UploadEvent)
    requires Outcome(s) && UploadFlow(c, s) && UploadEnabled(c, s, u)
    ensures Outcome(ApplyUpload(c, s, u)) && !s.phase.Finished? && ApplyUpload(c, s, u).committed == s.committed
  {
  }

  lemma NextRoundKeepsOutcome(s: State, queue: seq<Uploaded>, failed: seq<int>, round: nat)
    requires Outcome(s) && !s.phase.Finished?
    ensures var t := NextRound(s, queue, failed, round);
      Outcome(t) && !t.phase.Finished? && t.committed == s.committed
  {
  }

  lemma FinishKeepsOutcome(s: State, x: FinishEvent)
    requires Outcome(s) && FinishEnabled(s, x)
    ensures Outcome(ApplyFinish(s, x)) && !s.phase.Finished?
    ensures !x.PersistOk? ==> ApplyFinish(s, x).committed == s.committed
  {
    if x.Stopped? {
      if !s.v.err {
        NextRoundKeepsOutcome(s.(v := s.v.(retryQueue := [])), s.v.retryQueue, s.v.failedPos, 1);
      }
    } else if x.RoundEnd? {
      NextRoundKeepsOutcome(s, s.still, s.roundFailed, s.round + 1);
    }
  }

  lemma StepCommitted(c: Config, s: State, e: Event)
    requires Inv(c, s) && Enabled(c, s, e)
    ensures CommittedOk(c, Apply(c, s, e))
  {
    match e {
      case Cancel =>
      case Upload(u) => UploadKeepsOutcome(c, s, u);
      case Verify(f) => if s.phase.Finished? { DrainedIsQuiet(s.v, s.ctxDone, f); }
      case Finish(x) =>
        FinishKeepsOutcome(s, x);
        if x.PersistOk? {
          PersistCompletes(c, s, x.records);
        }
    }
  }

  // Every atomic action of every goroutine keeps the invariant.
  lemma Step(c: Config, s: State, e: Event)
    requires WellFormed(c) && Inv(c, s) && Enabled(c, s, e)
    ensures Inv(c, Apply(c, s, e))
  {
    StepIndices(c, s, e);
    StepResults(c, s, e);
    StepVerifier(c, s, e);
    StepFlow(c, s, e);
    StepOutcome(c, s, e);
    StepCommitted(c, s, e);
  }

  /******* What an upload guarantees *******/

  ghost predicate Valid(c: Config, s: State, run: seq<Event>)
    decreases |run|
  {
    run == [] || (Enabled(c, s, run[0]) && Valid(c, Apply(c, s, run[0]), run[1..]))
  }

  ghost function Exec(c: Config, s: State, run: seq<Event>): State
    requires Valid(c, s, run)
    decreases |run|
  {
    if run == [] then s else Exec(c, Apply(c, s, run[0]), run[1..])
  }

  lemma {:induction false} RunInv(c: Config, s: State, run: seq<Event>)
    requires WellFormed(c) && Inv(c, s) && Valid(c, s, run)
    ensures Inv(c, Exec(c, s, run))
    decreases |run|
  {
    if run != [] {
      Step(c, s, run[0]);
      RunInv(c, Apply(c, s, run[0]), run[1..]);
    }
  }

  // In every interleaving, what a commit stores is one record for each chunk,
  // each of which was downloaded again and found to hold the source's bytes;
  // and the progress counters agree. The records are in order, at positions
  // 0..n-1, exactly for at most 32768 chunks; beyond them position -32768 comes
  // first.
  lemma CommitIsComplete(c: Config, run: seq<Event>)
    requires WellFormed(c) && Valid(c, Init(c), run) && Exec(c, Init(c), run).committed.Some?
    ensures var s := Exec(c, Init(c), run);
      && Stored(c, s, s.committed.value)
      && (InOrder(s.committed.value) <==> |c.chunks| <= 32768)
      && (|c.chunks| > 32768 ==> s.committed.value != [] && Position(s.committed.value[0]) == -32768)
  {
    InitInv(c);
    RunInv(c, Init(c), run);
    var s := Exec(c, Init(c), run);
    if |c.chunks| <= 32768 {
      SortedRecords(s.committed.value, s.results, |c.chunks|);
    } else {
      WrappedRecords(s.committed.value, s.results, |c.chunks|);
    }
  }

  // Every run ends in exactly one of: a commit and no cleanup, or no commit
  // and one cleanup of every message it recorded.
  lemma CommitXorCleanup(c: Config, run: seq<Event>)
    requires WellFormed(c) && Valid(c, Init(c), run)
    ensures var s := Exec(c, Init(c), run);
      if !s.phase.Finished? then s.committed.None? && s.cleanups == []
      else if s.committed.Some? then s.cleanups == []
      else s.cleanups == if s.results == [] then [] else [MessageIds(s.results)]
  {
    InitInv(c);
    RunInv(c, Init(c), run);
  }

  // Nothing is ever sent on the closed verifier channel: it is closed only
  // once nobody is left who could submit.
  lemma NoSendOnClosedChannel(c: Config, run: seq<Event>)
    requires WellFormed(c) && Valid(c, Init(c), run)
    ensures var s := Exec(c, Init(c), run);
      s.v.closed ==> s.uploading == {} && s.submitting == multiset{} && !s.phase.Retrying?
  {
    InitInv(c);
    RunInv(c, Init(c), run);
  }

  // Each result submit accepted is at all times in exactly one place, and is
  // dropped only once the verifier's context is done.
  lemma ResultsConserved(c: Config, run: seq<Event>, r: Uploaded)
    requires WellFormed(c) && Valid(c, Init(c), run)
    ensures var s := Exec(c, Init(c), run);
      && Places(s.v, InRounds(s), r) == s.v.accepted[r] <= 1
      && (r in s.v.dropped ==> ContextDone(s.v, s.ctxDone))
  {
    InitInv(c);
    RunInv(c, Init(c), run);
    AcceptedOnce(c, Exec(c, Init(c), run), r);
  }

  lemma AcceptedOnce(c: Config, s: State, r: Uploaded)
    requires IndicesOk(c, s) && ResultsOk(c, s)
    ensures s.v.accepted[r] <= 1
  {
    CountByIndex(s.results, r);
    assert Spots(s, r.index) <= 1;
    assert multiset(s.results)[r] == s.v.accepted[r] + s.submitting[r] + s.unsubmitted[r] + Pending(s, r);
  }

  lemma {:induction false} CountByIndex(rs: seq<Uploaded>, r: Uploaded)
    ensures multiset(rs)[r] <= multiset(Indices(rs))[r.index]
  {
    if rs != [] {
      var rest := rs[1..];
      CountByIndex(rest, r);
      assert rs == [rs[0]] + rest;
      IndicesOfCons(rs[0], rest);
    }
  }

  lemma IndicesOfCons(r: Uploaded, rest: seq<Uploaded>)
    ensures Indices([r] + rest) == [r.index] + Indices(rest)
  {
  }

  /******* Progress and termination *******/

  // What makes an upload fail at once: cancellation, a broken source, a chunk
  // whose second-round upload fails, content that differs after the round trip,
  // or the database.
  ghost predicate Trouble(s: State, e: Event) {
    match e
    case Cancel => !s.phase.Finished?
    case Upload(u) => u.ReadError? || u.RetryAborted?
    case Verify(f) => f.Mismatch?
    case Finish(x) => x.RoundMismatch? || x.PersistFail?
  }

  // A result fails verification in a retry round.
  predicate IsTransient(e: Event) {
    e.Finish? && e.x.RoundTransient?
  }

  // It does so in the last one.
  predicate Exhausts(s: State, e: Event) {
    IsTransient(e) && s.round >= MAX_RETRY_ROUNDS
  }

  ghost predicate Harmless(s: State, e: Event) {
    !Trouble(s, e) && !Exhausts(s, e)
  }

  // No trouble so far, and no result given up.
  ghost predicate Untroubled(s: State) {
    if s.phase.Finished? then s.committed.Some?
    else
      && !s.ctxDone && !s.sourceErr && !s.groupErr && !s.v.err
      && !s.phase.Aborting? && s.roundFailed == []
      && (s.phase.Round? && s.round >= MAX_RETRY_ROUNDS ==> s.still == [])
  }

  // A full queue or a result in flight: the verifier can act.
  lemma ConsumerProgress(c: Config, s: State) returns (e: Event)
    requires VerifierOk(s) && !ContextDone(s.v, s.ctxDone) && s.v.input != []
    ensures Enabled(c, s, e) && e.Verify? && Harmless(s, e)
  {
    var f := ChunkVerifier.Progress(s.v, s.ctxDone);
    e := Verify(f);
  }

  lemma DrainProgress(c: Config, s: State) returns (e: Event)
    requires VerifierOk(s) && s.v.closed && !Drained(s.v)
    ensures Enabled(c, s, e) && e.Verify? && Harmless(s, e)
  {
    var f := ChunkVerifier.Progress(s.v, s.ctxDone);
    e := Verify(f);
  }

  lemma GoroutineProgress(c: Config, s: State) returns (e: Event)
    requires WellFormed(c) && VerifierOk(s) && UploadFlow(c, s) && VerifyFlow(s) && Uploading(s.phase)
    requires s.uploading != {} || s.submitting != multiset{}
    ensures Enabled(c, s, e) && !e.Cancel? && !e.Finish? && Harmless(s, e)
  {
    if s.uploading != {} {
      var p :| p in s.uploading;
      e := Upload(if GroupDone(s) then UploadAborted(p) else UploadTransient(p));
    } else {
      var r :| r in s.submitting;
      if ContextDone(s.v, s.ctxDone) {
        e := Upload(SubmitAborted(r));
      } else if |s.v.input| < s.v.buffer {
        e := Upload(SubmitQueued(r));
      } else {
        e := ConsumerProgress(c, s);
      }
    }
  }

  lemma RetryProgress(c: Config, s: State) returns (e: Event)
    requires WellFormed(c) && VerifierOk(s) && UploadFlow(c, s) && VerifyFlow(s) && s.phase.Retrying?
    ensures Enabled(c, s, e) && !e.Cancel? && !e.Finish? && Harmless(s, e)
  {
    if s.pendingSubmit.None? {
      e := Upload(if s.retried < |s.failedChunks| then RetryOk("", 0) else RetryDone);
    } else if ContextDone(s.v, s.ctxDone) {
      e := Upload(RetrySubmitAborted);
    } else if |s.v.input| < s.v.buffer {
      e := Upload(RetryQueued);
    } else {
      e := ConsumerProgress(c, s);
    }
  }

  lemma UploadProgress(c: Config, s: State) returns (e: Event)
    requires WellFormed(c) && VerifierOk(s) && UploadFlow(c, s) && VerifyFlow(s) && Uploading(s.phase)
    ensures Enabled(c, s, e) && !e.Cancel? && !e.Finish? && Harmless(s, e)
  {
    if s.phase.Waiting? && s.uploading == {} && s.submitting == multiset{} {
      e := Upload(UploadsDone);
    } else if s.phase.Reading? && |s.uploading| + |s.submitting| < c.parallelism {
      e := Upload(if s.next < |c.chunks| then ReadChunk else ReadEof);
    } else {
      e := GoroutineProgress(c, s);
    }
  }

  // Where r goes in a sorted list.
  lemma InsertionPoint(records: seq<Uploaded>, r: Uploaded) returns (k: nat)
    requires Ordered(records)
    ensures k <= |records|
    ensures forall i: nat | i < k :: Position(records[i]) <= Position(r)
    ensures forall i: nat | k <= i < |records| :: Position(r) <= Position(records[i])
  {
    k := 0;
    while k < |records| && Position(records[k]) <= Position(r)
      invariant k <= |records|
      invariant forall i: nat | i < k :: Position(records[i]) <= Position(r)
    {
      k := k + 1;
    }
  }

  lemma InsertAt(records: seq<Uploaded>, r: Uploaded, k: nat)
    requires Ordered(records) && k <= |records|
    requires forall i: nat | i < k :: Position(records[i]) <= Position(r)
    requires forall i: nat | k <= i < |records| :: Position(r) <= Position(records[i])
    ensures var more := records[..k] + [r] + records[k..];
      Ordered(more) && multiset(more) == multiset{r} + multiset(records)
  {
    assert records == records[..k] + records[k..];
  }

  lemma {:induction false} Sort(results: seq<Uploaded>) returns (records: seq<Uploaded>)
    ensures SortedBy(records, results)
  {
    if results == [] {
      records := [];
    } else {
      var rest := Sort(results[1..]);
      var k := InsertionPoint(rest, results[0]);
      InsertAt(rest, results[0], k);
      records := rest[..k] + [results[0]] + rest[k..];
      assert results == [results[0]] + results[1..];
    }
  }

  lemma RoundProgress(s: State) returns (x: FinishEvent)
    requires s.phase.Round?
    ensures FinishEnabled(s, x)
    ensures !x.RoundTransient? && (Untroubled(s) ==> Harmless(s, Finish(x)))
  {
    x := if s.todo == [] then RoundEnd else if s.ctxDone then RoundCancelled else RoundPass(s.todo[0].plainHash.of);
  }

  lemma PersistProgress(s: State) returns (x: FinishEvent)
    requires s.phase.Persisting?
    ensures FinishEnabled(s, x)
    ensures !x.RoundTransient? && (Untroubled(s) ==> Harmless(s, Finish(x)))
  {
    var records := Sort(s.results);
    x := if s.ctxDone then PersistFail else PersistOk(records);
  }

  lemma FinishProgress(s: State) returns (x: FinishEvent)
    requires !Uploading(s.phase) && !s.phase.Retrying? && !s.phase.Finished?
    requires s.phase.Stopping? || s.phase.Aborting? ==> Drained(s.v)
    ensures FinishEnabled(s, x)
    ensures !x.RoundTransient? && (Untroubled(s) ==> Harmless(s, Finish(x)))
  {
    if s.phase.Round? {
      x := RoundProgress(s);
    } else if s.phase.Persisting? {
      x := PersistProgress(s);
    } else {
      x := if s.phase.Stopping? then Stopped else if s.phase.Cooldown? then CooldownOver else AbortDone;
    }
  }

  // No state but the final one is stuck, whatever has failed or been
  // cancelled: some goroutine can act without waiting for the caller, and
  // while nothing has gone wrong it need not go wrong next.
  lemma Progress(c: Config, s: State) returns (e: Event)
    requires WellFormed(c) && Inv(c, s) && !s.phase.Finished?
    ensures Enabled(c, s, e) && !e.Cancel? && !IsTransient(e)
    ensures Untroubled(s) ==> Harmless(s, e)
  {
    if Uploading(s.phase) {
      e := UploadProgress(c, s);
    } else if s.phase.Retrying? {
      e := RetryProgress(c, s);
    } else if (s.phase.Stopping? || s.phase.Aborting?) && !Drained(s.v) {
      e := DrainProgress(c, s);
    } else {
      var x := FinishProgress(s);
      e := Finish(x);
    }
  }

  function PhaseWork(p: Phase): nat {
    match p
    case Reading => 10
    case Waiting => 9
    case Retrying => 8
    case Stopping => 7
    case Cooldown => 6
    case Round => 5
    case Persisting => 3
    case Aborting => 2
    case Finished => 0
  }

  // What n results cost in retry rounds from the given one on.
  function RoundWork(round: nat, n: nat): nat {
    if round <= 1 then 12 * n else if round == 2 then 8 * n else if round == 3 then 4 * n else 0
  }

  function ConsumerWork(k: Consumer): nat {
    match k
    case Receiving => 1
    case Holding(_) => 24
    case CoolingDown(_) => 23
    case Cleared(_) => 22
    case Exited => 0
  }

  function VerifierWork(v: Verifier): nat {
    24 * |v.input| + ConsumerWork(v.consumer) + 20 * |v.verifying| + 18 * |v.retryQueue|
  }

  function UploadWork(c: Config, s: State): int {
    32 * (|c.chunks| - s.next) + 30 * |s.uploading| + 28 * (|s.failedChunks| - s.retried)
    + 26 * |s.submitting| + if s.pendingSubmit.Some? then 26 else 0
  }

  function RetryWork(s: State): nat {
    if s.phase.Cooldown? || s.phase.Round? then
      RoundWork(s.round, |s.todo|) + RoundWork(s.round + 1, |s.still|) + 2 * |s.still|
    else 0
  }

  // Work left: every action of the upload uses some of it up.
  function Work(c: Config, s: State): int {
    UploadWork(c, s) + VerifierWork(s.v) + RetryWork(s) + PhaseWork(s.phase)
  }

  lemma GoroutineWorkDecreases(c: Config, s: State, u: UploadEvent)
    requires UploadEnabled(c, s, u) && GoroutineEvent(u)
    ensures Work(c, ApplyUpload(c, s, u)) < Work(c, s)
  {
    var t := ApplyUpload(c, s, u);
    assert t.phase == s.phase && RetryWork(t) == RetryWork(s);
    assert t.next == s.next && t.retried == s.retried && t.pendingSubmit == s.pendingSubmit;
    if u.SubmitQueued? {
      assert VerifierWork(t.v) == VerifierWork(s.v) + 24;
      assert |t.submitting| == |s.submitting| - 1;
    } else {
      assert t.v == s.v;
    }
  }

  lemma ReadWorkDecreases(c: Config, s: State)
    requires IndicesOk(c, s) && UploadEnabled(c, s, ReadChunk)
    ensures Work(c, ApplyUpload(c, s, ReadChunk)) < Work(c, s)
  {
    ReadIndices(c, s);
    assert |s.uploading + {s.next}| == |s.uploading| + 1;
  }

  lemma MainWorkDecreases(c: Config, s: State, u: UploadEvent)
    requires UploadEnabled(c, s, u) && !GoroutineEvent(u) && !u.ReadChunk?
    ensures Work(c, ApplyUpload(c, s, u)) < Work(c, s)
  {
    var t := ApplyUpload(c, s, u);
    assert RetryWork(t) == RetryWork(s) == 0;
    assert t.uploading == s.uploading && t.submitting == s.submitting && t.next == s.next;
    assert !u.RetryQueued? ==> VerifierWork(t.v) == VerifierWork(s.v);
  }

  lemma UploadWorkDecreases(c: Config, s: State, u: UploadEvent)
    requires IndicesOk(c, s) && UploadEnabled(c, s, u)
    ensures Work(c, ApplyUpload(c, s, u)) < Work(c, s)
  {
    if GoroutineEvent(u) {
      GoroutineWorkDecreases(c, s, u);
    } else if u.ReadChunk? {
      ReadWorkDecreases(c, s);
    } else {
      MainWorkDecreases(c, s, u);
    }
  }

  lemma VerifierWorkDecreases(v: Verifier, ctxDone: bool, f: ChunkVerifier.Event)
    requires ChunkVerifier.Enabled(v, ctxDone, f)
    ensures VerifierWork(ChunkVerifier.Apply(v, ctxDone, f)) < VerifierWork(v)
  {
  }

  lemma VerifyWorkDecreases(c: Config, s: State, f: ChunkVerifier.Event)
    requires ChunkVerifier.Enabled(s.v, s.ctxDone, f)
    ensures Work(c, ApplyVerify(s, f)) < Work(c, s)
  {
    VerifierWorkDecreases(s.v, s.ctxDone, f);
    VerifyKeepsUploads(s, f);
  }

  // A queue sent to its next round costs at most its work there.
  lemma NextRoundWork(s: State, queue: seq<Uploaded>, failed: seq<int>, round: nat)
    ensures var t := NextRound(s, queue, failed, round);
      && t.v == s.v
      && RetryWork(t) + PhaseWork(t.phase) <= RoundWork(round, |queue|) + if queue == [] then 3 else 6
  {
  }

  lemma StoppedWorkDecreases(c: Config, s: State)
    requires FinishEnabled(s, Stopped)
    ensures Work(c, ApplyFinish(s, Stopped)) < Work(c, s)
  {
    FinishKeepsUploads(s, Stopped);
    if !s.v.err {
      var w := s.v.(retryQueue := []);
      NextRoundWork(s.(v := w), s.v.retryQueue, s.v.failedPos, 1);
      assert VerifierWork(w) == VerifierWork(s.v) - 18 * |s.v.retryQueue|;
    }
  }

  lemma RoundEndWorkDecreases(c: Config, s: State)
    requires FinishEnabled(s, RoundEnd)
    ensures Work(c, ApplyFinish(s, RoundEnd)) < Work(c, s)
  {
    FinishKeepsUploads(s, RoundEnd);
    NextRoundWork(s, s.still, s.roundFailed, s.round + 1);
  }

  lemma RoundWorkDecreases(c: Config, s: State, x: FinishEvent)
    requires FinishEnabled(s, x) && 1 <= s.round <= MAX_RETRY_ROUNDS
    requires x.RoundPass? || x.RoundMismatch? || x.RoundTransient?
    ensures Work(c, ApplyFinish(s, x)) < Work(c, s)
  {
    FinishKeepsUploads(s, x);
    var t := ApplyFinish(s, x);
    assert VerifierWork(t.v) == VerifierWork(s.v);
    assert |t.todo| == |s.todo| - 1 && |t.still| <= |s.still| + 1;
  }

  lemma CooldownWorkDecreases(c: Config, s: State)
    requires FinishEnabled(s, CooldownOver)
    ensures Work(c, ApplyFinish(s, CooldownOver)) < Work(c, s)
  {
    FinishKeepsUploads(s, CooldownOver);
    assert ApplyFinish(s, CooldownOver).v == s.v;
  }

  lemma OtherFinishWorkDecreases(c: Config, s: State, x: FinishEvent)
    requires FinishEnabled(s, x) && (x.RoundCancelled? || x.PersistOk? || x.PersistFail? || x.AbortDone?)
    ensures Work(c, ApplyFinish(s, x)) < Work(c, s)
  {
    FinishKeepsUploads(s, x);
    var t := ApplyFinish(s, x);
    assert VerifierWork(t.v) == VerifierWork(s.v);
    assert t.todo == s.todo && t.still == s.still && t.round == s.round;
  }

  lemma WorkDecreases(c: Config, s: State, e: Event)
    requires IndicesOk(c, s) && RoundsOk(s) && Enabled(c, s, e) && !e.Cancel?
    ensures Work(c, Apply(c, s, e)) < Work(c, s)
  {
    match e {
      case Upload(u) => UploadWorkDecreases(c, s, u);
      case Verify(f) => VerifyWorkDecreases(c, s, f);
      case Finish(x) =>
        if x.Stopped? {
          StoppedWorkDecreases(c, s);
        } else if x.RoundEnd? {
          RoundEndWorkDecreases(c, s);
        } else if x.CooldownOver? {
          CooldownWorkDecreases(c, s);
        } else if x.RoundPass? || x.RoundMismatch? || x.RoundTransient? {
          RoundWorkDecreases(c, s, x);
        } else {
          OtherFinishWorkDecreases(c, s, x);
        }
    }
  }

  function Actions(run: seq<Event>): nat {
    if run == [] then 0 else (if run[0].Cancel? then 0 else 1) + Actions(run[1..])
  }

  lemma StepWork(c: Config, s: State, e: Event)
    requires IndicesOk(c, s) && RoundsOk(s) && Enabled(c, s, e)
    ensures Work(c, Apply(c, s, e)) <= Work(c, s) - if e.Cancel? then 0 else 1
  {
    if !e.Cancel? {
      WorkDecreases(c, s, e);
    }
  }

  lemma WorkNonNegative(c: Config, s: State)
    requires IndicesOk(c, s)
    ensures Work(c, s) >= 0
  {
  }

  // However it is scheduled, an upload takes a bounded number of actions; with
  // Progress this means it finishes once its network and database calls return.
  lemma {:induction false} BoundedRun(c: Config, s: State, run: seq<Event>)
    requires WellFormed(c) && Inv(c, s) && Valid(c, s, run)
    ensures Actions(run) <= Work(c, s)
    decreases |run|
  {
    if run == [] {
      WorkNonNegative(c, s);
    } else {
      Step(c, s, run[0]);
      StepWork(c, s, run[0]);
      BoundedRun(c, Apply(c, s, run[0]), run[1..]);
    }
  }

  /******* When an upload commits *******/

  // A goroutine fails the group only after the context it uses has ended.
  lemma GoroutineErrors(c: Config, s: State, u: UploadEvent)
    requires UploadEnabled(c, s, u) && GoroutineEvent(u)
    ensures var t := ApplyUpload(c, s, u);
      && t.phase == s.phase && t.round == s.round && t.still == s.still && t.roundFailed == s.roundFailed
      && t.ctxDone == s.ctxDone && t.sourceErr == s.sourceErr && t.v.err == s.v.err
      && (s.groupErr ==> t.groupErr)
      && (t.groupErr ==> s.groupErr || s.ctxDone || s.sourceErr || s.v.err)
  {
  }

  lemma GoroutineTrouble(c: Config, s: State, u: UploadEvent)
    requires UploadFlow(c, s) && UploadEnabled(c, s, u) && GoroutineEvent(u)
    ensures Untroubled(ApplyUpload(c, s, u)) <==> Untroubled(s)
  {
    GoroutineErrors(c, s, u);
    assert !s.phase.Finished?;
  }

  lemma MainTrouble(c: Config, s: State, u: UploadEvent)
    requires UploadFlow(c, s) && UploadEnabled(c, s, u) && !GoroutineEvent(u)
    ensures Untroubled(ApplyUpload(c, s, u)) <==> Untroubled(s) && Harmless(s, Upload(u))
  {
    var t := ApplyUpload(c, s, u);
    assert !t.phase.Finished? && !s.phase.Finished?;
    assert t.v.err == s.v.err && t.ctxDone == s.ctxDone && t.roundFailed == s.roundFailed;
  }

  lemma UploadTrouble(c: Config, s: State, u: UploadEvent)
    requires UploadFlow(c, s) && UploadEnabled(c, s, u)
    ensures Untroubled(ApplyUpload(c, s, u)) <==> Untroubled(s) && Harmless(s, Upload(u))
  {
    if GoroutineEvent(u) {
      GoroutineTrouble(c, s, u);
    } else {
      MainTrouble(c, s, u);
    }
  }

  lemma VerifierError(v: Verifier, ctxDone: bool, f: ChunkVerifier.Event)
    requires ChunkVerifier.Enabled(v, ctxDone, f)
    ensures ChunkVerifier.Apply(v, ctxDone, f).err <==> v.err || f.Mismatch? || f.Abort?
    ensures f.Abort? ==> ContextDone(v, ctxDone)
  {
  }

  lemma VerifyKeepsPhase(s: State, f: ChunkVerifier.Event)
    requires ChunkVerifier.Enabled(s.v, s.ctxDone, f)
    ensures var t := ApplyVerify(s, f);
      && t.phase == s.phase && t.round == s.round && t.still == s.still
      && t.roundFailed == s.roundFailed && t.committed == s.committed
      && t.v == ChunkVerifier.Apply(s.v, s.ctxDone, f)
  {
  }

  lemma VerifyTrouble(s: State, f: ChunkVerifier.Event)
    requires VerifyFlow(s) && ChunkVerifier.Enabled(s.v, s.ctxDone, f)
    ensures Untroubled(ApplyVerify(s, f)) <==> Untroubled(s) && Harmless(s, Verify(f))
  {
    if s.phase.Finished? {
      DrainedIsQuiet(s.v, s.ctxDone, f);
    }
    VerifierError(s.v, s.ctxDone, f);
    VerifyKeepsPhase(s, f);
    VerifyKeepsUploads(s, f);
  }

  // Going to the next round brings no trouble unless positions have failed or
  // no round is left.
  lemma NextRoundTrouble(s: State, queue: seq<Uploaded>, failed: seq<int>, round: nat)
    requires s.phase.Stopping? || s.phase.Round?
    ensures Untroubled(NextRound(s, queue, failed, round)) <==>
              && !s.ctxDone && !s.sourceErr && !s.groupErr && !s.v.err
              && failed == [] && (queue == [] || round <= MAX_RETRY_ROUNDS)
  {
    if queue != [] {
      assert |Positions(queue)| == |queue|;
    }
  }

  lemma StoppedTrouble(s: State)
    requires (s.v.failedPos != [] ==> s.v.err) && VerifyFlow(s) && FinishEnabled(s, Stopped)
    ensures Untroubled(ApplyFinish(s, Stopped)) <==> Untroubled(s)
  {
    if !s.v.err {
      assert s.v.failedPos == [];
      NextRoundTrouble(s.(v := s.v.(retryQueue := [])), s.v.retryQueue, s.v.failedPos, 1);
    }
  }

  lemma RoundEndTrouble(s: State)
    requires VerifyFlow(s) && FinishEnabled(s, RoundEnd)
    ensures Untroubled(ApplyFinish(s, RoundEnd)) <==> Untroubled(s)
  {
    NextRoundTrouble(s, s.still, s.roundFailed, s.round + 1);
  }

  lemma RoundTrouble(s: State, x: FinishEvent)
    requires VerifyFlow(s) && FinishEnabled(s, x) && RoundEvent(x)
    ensures Untroubled(ApplyFinish(s, x)) <==> Untroubled(s) && Harmless(s, Finish(x))
  {
    var t := ApplyFinish(s, x);
    assert t.v.err == s.v.err && t.ctxDone == s.ctxDone && t.round == s.round;
    assert t.phase.Round? && !s.phase.Finished?;
  }

  lemma EndTrouble(c: Config, s: State, x: FinishEvent)
    requires UploadFlow(c, s) && VerifyFlow(s) && Outcome(s) && FinishEnabled(s, x)
    requires x.RoundCancelled? || x.PersistOk? || x.PersistFail? || x.AbortDone?
    ensures Untroubled(ApplyFinish(s, x)) <==> Untroubled(s) && Harmless(s, Finish(x))
  {
    var t := ApplyFinish(s, x);
    assert !s.phase.Finished? && (t.phase.Finished? || t.phase.Aborting?);
  }

  lemma FinishTrouble(c: Config, s: State, x: FinishEvent)
    requires (s.v.failedPos != [] ==> s.v.err) && UploadFlow(c, s) && VerifyFlow(s) && Outcome(s)
    requires FinishEnabled(s, x)
    ensures Untroubled(ApplyFinish(s, x)) <==> Untroubled(s) && Harmless(s, Finish(x))
  {
    if x.Stopped? {
      StoppedTrouble(s);
    } else if x.RoundEnd? {
      RoundEndTrouble(s);
    } else if RoundEvent(x) {
      RoundTrouble(s, x);
    } else {
      EndTrouble(c, s, x);
    }
  }

  lemma StepTrouble(c: Config, s: State, e: Event)
    requires Inv(c, s) && Enabled(c, s, e)
    ensures Untroubled(Apply(c, s, e)) <==> Untroubled(s) && Harmless(s, e)
  {
    match e {
      case Cancel =>
      case Upload(u) => UploadTrouble(c, s, u);
      case Verify(f) => VerifyTrouble(s, f);
      case Finish(x) => FinishTrouble(c, s, x);
    }
  }

  ghost predicate AllHarmless(c: Config, s: State, run: seq<Event>)
    requires Valid(c, s, run)
    decreases |run|
  {
    run == [] || (Harmless(s, run[0]) && AllHarmless(c, Apply(c, s, run[0]), run[1..]))
  }

  lemma {:induction false} RunHarmless(c: Config, s: State, run: seq<Event>)
    requires WellFormed(c) && Inv(c, s) && Valid(c, s, run)
    ensures Untroubled(Exec(c, s, run)) <==> Untroubled(s) && AllHarmless(c, s, run)
    decreases |run|
  {
    if run != [] {
      Step(c, s, run[0]);
      StepTrouble(c, s, run[0]);
      RunHarmless(c, Apply(c, s, run[0]), run[1..]);
    }
  }

  /******* Retry rounds *******/

  // The results whose verification failed in a retry round, once for each time.
  function Transients(run: seq<Event>): multiset<Uploaded> {
    if run == [] then multiset{}
    else
      (if IsTransient(run[0]) then multiset{run[0].x.result} else multiset{})
      + Transients(run[1..])
  }

  // The waits before retry rounds.
  function Cooldowns(run: seq<Event>): nat {
    if run == [] then 0 else (if run[0] == Finish(CooldownOver) then 1 else 0) + Cooldowns(run[1..])
  }

  // After `cooled` waits and these failures: the results of a round have failed
  // once in each round before it, and once more if they have failed in it.
  ghost predicate RetriesOk(s: State, failed: multiset<Uploaded>, cooled: nat) {
    && (Uploading(s.phase) || s.phase.Retrying? || s.phase.Stopping? ==> failed == multiset{} && cooled == 0)
    && (s.phase.Cooldown? || s.phase.Round? ==>
          && cooled == (if s.phase.Round? then s.round else s.round - 1)
          && (forall r | r in s.todo :: failed[r] == s.round - 1)
          && (forall r | r in s.still :: failed[r] == s.round)
          && (forall r | r !in s.still :: failed[r] < s.round))
    && cooled <= 3
    && forall r :: failed[r] <= cooled
  }

  // No result is in a round's queues twice.
  lemma QueuedOnce(c: Config, s: State)
    requires Inv(c, s) && s.todo != []
    ensures s.todo[0] !in s.todo[1..] && s.todo[0] !in s.still
  {
    var r := s.todo[0];
    AcceptedOnce(c, s, r);
    assert Places(s.v, InRounds(s), r) == s.v.accepted[r];
    assert s.todo == [r] + s.todo[1..];
    assert multiset(s.todo) == multiset{r} + multiset(s.todo[1..]);
  }

  lemma NextRoundRetries(s: State, queue: seq<Uploaded>, bad: seq<int>, round: nat,
                         failed: multiset<Uploaded>, cooled: nat)
    requires s.phase.Stopping? || s.phase.Round?
    requires 1 <= round <= 4 && cooled == round - 1
    requires forall r :: failed[r] <= cooled
    requires forall r | r in queue :: failed[r] == round - 1
    ensures RetriesOk(NextRound(s, queue, bad, round), failed, cooled)
  {
  }

  lemma TransientRetries(s: State, r: Uploaded, failed: multiset<Uploaded>, cooled: nat)
    requires RoundsOk(s) && RetriesOk(s, failed, cooled) && FinishEnabled(s, RoundTransient(r))
    requires r !in s.todo[1..] && r !in s.still
    ensures RetriesOk(ApplyFinish(s, RoundTransient(r)), failed + multiset{r}, cooled)
    ensures s.round >= MAX_RETRY_ROUNDS <==> (failed + multiset{r})[r] == 3
  {
    var t := ApplyFinish(s, RoundTransient(r));
    assert r in s.todo && t.phase.Round? && t.round == s.round;
    forall x ensures (failed + multiset{r})[x] == failed[x] + if x == r then 1 else 0 {
    }
    assert forall x :: x in t.still <==> x in s.still || x == r;
    assert forall x | x in t.todo :: x in s.todo && x != r;
  }

  predicate EndEvent(x: FinishEvent) {
    x.RoundCancelled? || x.PersistOk? || x.PersistFail? || x.AbortDone?
  }

  // Outside the rounds nothing is known of them but what has happened.
  lemma EndRetries(s: State, t: State, failed: multiset<Uploaded>, cooled: nat)
    requires RetriesOk(s, failed, cooled) && (t.phase.Aborting? || t.phase.Finished?)
    ensures RetriesOk(t, failed, cooled)
  {
  }

  lemma CooldownRetries(s: State, failed: multiset<Uploaded>, cooled: nat)
    requires RoundsOk(s) && RetriesOk(s, failed, cooled) && FinishEnabled(s, CooldownOver) && s.still == []
    ensures RetriesOk(ApplyFinish(s, CooldownOver), failed, cooled + 1)
  {
  }

  lemma CheckedRetries(s: State, x: FinishEvent, failed: multiset<Uploaded>, cooled: nat)
    requires RetriesOk(s, failed, cooled) && FinishEnabled(s, x) && (x.RoundPass? || x.RoundMismatch?)
    ensures RetriesOk(ApplyFinish(s, x), failed, cooled)
  {
    var t := ApplyFinish(s, x);
    assert t.phase == s.phase && t.round == s.round && t.still == s.still;
    assert forall r | r in t.todo :: r in s.todo;
  }

  lemma StoppedRetries(s: State, failed: multiset<Uploaded>, cooled: nat)
    requires RetriesOk(s, failed, cooled) && FinishEnabled(s, Stopped)
    ensures RetriesOk(ApplyFinish(s, Stopped), failed, cooled)
  {
    if s.v.err {
      EndRetries(s, Abort(s), failed, cooled);
    } else {
      NextRoundRetries(s.(v := s.v.(retryQueue := [])), s.v.retryQueue, s.v.failedPos, 1, failed, cooled);
    }
  }

  lemma RoundEndRetries(s: State, failed: multiset<Uploaded>, cooled: nat)
    requires RoundsOk(s) && RetriesOk(s, failed, cooled) && FinishEnabled(s, RoundEnd)
    ensures RetriesOk(ApplyFinish(s, RoundEnd), failed, cooled)
  {
    NextRoundRetries(s, s.still, s.roundFailed, s.round + 1, failed, cooled);
  }

  lemma FinishRetries(s: State, x: FinishEvent, failed: multiset<Uploaded>, cooled: nat)
    requires VerifyFlow(s) && RetriesOk(s, failed, cooled) && FinishEnabled(s, x) && !x.RoundTransient?
    ensures RetriesOk(ApplyFinish(s, x), failed, cooled + if x.CooldownOver? then 1 else 0)
  {
    if EndEvent(x) {
      EndRetries(s, ApplyFinish(s, x), failed, cooled);
    } else if x.Stopped? {
      StoppedRetries(s, failed, cooled);
    } else if x.RoundEnd? {
      RoundEndRetries(s, failed, cooled);
    } else if x.CooldownOver? {
      CooldownRetries(s, failed, cooled);
    } else {
      CheckedRetries(s, x, failed, cooled);
    }
  }

  lemma UploadPhases(c: Config, s: State, u: UploadEvent)
    requires UploadFlow(c, s) && UploadEnabled(c, s, u)
    ensures Uploading(s.phase) || s.phase.Retrying?
    ensures var t := ApplyUpload(c, s, u);
      Uploading(t.phase) || t.phase.Retrying? || t.phase.Stopping? || t.phase.Aborting?
  {
  }

  lemma OtherRetries(c: Config, s: State, e: Event, failed: multiset<Uploaded>, cooled: nat)
    requires UploadFlow(c, s) && RetriesOk(s, failed, cooled) && Enabled(c, s, e) && !e.Finish?
    ensures RetriesOk(Apply(c, s, e), failed, cooled)
  {
    match e {
      case Cancel =>
      case Upload(u) => UploadPhases(c, s, u);
      case Verify(f) => assert ApplyVerify(s, f).phase == s.phase;
    }
  }

  lemma OneEvent(e: Event)
    ensures Transients([e]) == if IsTransient(e) then multiset{e.x.result} else multiset{}
    ensures Cooldowns([e]) == if e == Finish(CooldownOver) then 1 else 0
  {
    assert [e][1..] == [];
  }

  lemma StepRetries(c: Config, s: State, e: Event, failed: multiset<Uploaded>, cooled: nat)
    requires Inv(c, s) && RetriesOk(s, failed, cooled) && Enabled(c, s, e)
    ensures RetriesOk(Apply(c, s, e), failed + Transients([e]), cooled + Cooldowns([e]))
    ensures Exhausts(s, e) <==> IsTransient(e) && (failed + Transients([e]))[e.x.result] == 3
  {
    OneEvent(e);
    if IsTransient(e) {
      QueuedOnce(c, s);
      TransientRetries(s, e.x.result, failed, cooled);
    } else {
      assert failed + multiset{} == failed;
      if e.Finish? {
        FinishRetries(s, e.x, failed, cooled);
      } else {
        OtherRetries(c, s, e, failed, cooled);
      }
    }
  }

  ghost predicate TroubleFree(c: Config, s: State, run: seq<Event>)
    requires Valid(c, s, run)
    decreases |run|
  {
    run == [] || (!Trouble(s, run[0]) && TroubleFree(c, Apply(c, s, run[0]), run[1..]))
  }

  // No result has failed in three retry rounds.
  ghost predicate NoneExhausted(failed: multiset<Uploaded>) {
    forall r :: failed[r] < 3
  }

  lemma RunTail(run: seq<Event>, failed: multiset<Uploaded>)
    requires run != []
    ensures failed + Transients(run) == (failed + Transients([run[0]])) + Transients(run[1..])
    ensures Cooldowns(run) == Cooldowns([run[0]]) + Cooldowns(run[1..])
  {
    assert [run[0]][1..] == [];
  }

  lemma NothingFailsLess(a: multiset<Uploaded>, b: multiset<Uploaded>)
    ensures NoneExhausted(a + b) ==> NoneExhausted(a)
  {
    forall r ensures a[r] <= (a + b)[r] {
    }
  }

  lemma ExhaustedStep(s: State, e: Event, failed: multiset<Uploaded>)
    requires Exhausts(s, e) <==> IsTransient(e) && (failed + Transients([e]))[e.x.result] == 3
    requires forall r :: (failed + Transients([e]))[r] <= 3
    ensures NoneExhausted(failed + Transients([e])) <==> NoneExhausted(failed) && !Exhausts(s, e)
  {
    OneEvent(e);
    NothingFailsLess(failed, Transients([e]));
    forall r ensures (failed + Transients([e]))[r] == failed[r] + if IsTransient(e) && e.x.result == r then 1 else 0 {
    }
  }

  lemma {:induction false} RunRetries(c: Config, s: State, run: seq<Event>, failed: multiset<Uploaded>, cooled: nat)
    requires WellFormed(c) && Inv(c, s) && Valid(c, s, run) && RetriesOk(s, failed, cooled)
    ensures RetriesOk(Exec(c, s, run), failed + Transients(run), cooled + Cooldowns(run))
    ensures AllHarmless(c, s, run) && NoneExhausted(failed)
       <==> TroubleFree(c, s, run) && NoneExhausted(failed + Transients(run))
    decreases |run|
  {
    if run == [] {
      assert failed + multiset{} == failed;
    } else {
      var e, t := run[0], Apply(c, s, run[0]);
      var failed', cooled' := failed + Transients([e]), cooled + Cooldowns([e]);
      Step(c, s, e);
      StepRetries(c, s, e, failed, cooled);
      ExhaustedStep(s, e, failed);
      RunTail(run, failed);
      RunRetries(c, t, run[1..], failed', cooled');
      NothingFailsLess(failed', Transients(run[1..]));
    }
  }

  // A finished upload has committed exactly when no trouble came and no result
  // failed in three retry rounds; none is tried more often, and each round comes
  // after a wait of its own.
  lemma CommitsUnlessTroubled(c: Config, run: seq<Event>)
    requires WellFormed(c) && Valid(c, Init(c), run)
    ensures Exec(c, Init(c), run).phase.Finished? ==>
      (Exec(c, Init(c), run).committed.Some? <==>
         TroubleFree(c, Init(c), run) && forall r :: Transients(run)[r] < 3)
    ensures forall r :: Transients(run)[r] <= Cooldowns(run) <= 3
  {
    InitInv(c);
    RunHarmless(c, Init(c), run);
    RunRetries(c, Init(c), run, multiset{}, 0);
    assert multiset{} + Transients(run) == Transients(run);
  }

  lemma Prepend(c: Config, s: State, e: Event, rest: seq<Event>)
    requires Enabled(c, s, e) && Valid(c, Apply(c, s, e), rest)
    ensures Valid(c, s, [e] + rest) && Exec(c, s, [e] + rest) == Exec(c, Apply(c, s, e), rest)
    ensures !Trouble(s, e) && TroubleFree(c, Apply(c, s, e), rest) ==> TroubleFree(c, s, [e] + rest)
    ensures !IsTransient(e) ==> Transients([e] + rest) == Transients(rest)
  {
    assert ([e] + rest)[1..] == rest;
  }

  // Whatever transient failures it has met, an upload without trouble so far
  // can still commit, meeting no more of either.
  lemma CanCommit(c: Config, s: State) returns (run: seq<Event>)
    requires WellFormed(c) && Inv(c, s) && Untroubled(s)
    ensures Valid(c, s, run) && TroubleFree(c, s, run) && Transients(run) == multiset{}
    ensures Exec(c, s, run).phase.Finished? && Exec(c, s, run).committed.Some?
    decreases Work(c, s)
  {
    if s.phase.Finished? {
      run := [];
    } else {
      var e := Progress(c, s);
      Step(c, s, e);
      StepTrouble(c, s, e);
      StepWork(c, s, e);
      WorkNonNegative(c, s);
      var rest := CanCommit(c, Apply(c, s, e));
      Prepend(c, s, e, rest);
      run := [e] + rest;
    }
  }
}
