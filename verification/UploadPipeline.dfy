// runUploadPipeline of ui/src/pages/Files/operations.js: while one upload is
// being verified the next one may send its data, never more. Any promises may
// settle, one way or the other, whenever the pipeline waits.
module UploadPipeline {
  import opened Prelude

  // A started upload: the promise of its request and of its completion, if it
  // has them.
  datatype Upload = Upload(item: nat, request: Option<nat>, completion: Option<nat>)

  datatype StartResult = Started(upload: Upload) | Declined | Threw

  // One call of the start function and what came of it.
  datatype Call = Call(item: nat, result: StartResult)

  predicate Settled(settled: set<nat>, promise: Option<nat>) {
    promise.Some? ==> promise.value in settled
  }

  // How many started uploads have not completed.
  function Unfinished(settled: set<nat>, started: seq<Upload>): nat {
    if started == [] then 0
    else
      Unfinished(settled, started[..|started| - 1])
      + if Settled(settled, started[|started| - 1].completion) then 0 else 1
  }

  lemma {:induction false} FewUnfinished(settled: set<nat>, started: seq<Upload>, n: nat)
    requires forall i: nat | i + n < |started| :: Settled(settled, started[i].completion)
    ensures Unfinished(settled, started) <= n
  {
    if started != [] {
      FewUnfinished(settled, started[..|started| - 1], if n > 0 then n - 1 else 0);
    }
  }

  // The browser: which starts have been asked for and which uploads have been
  // started, in order, and which promises have settled.
  class World {
    var settled: set<nat>
    var started: seq<Upload>
    var calls: seq<Call>

    constructor ()
      ensures Valid() && started == [] && calls == []
    {
      settled, started, calls := {}, [], [];
    }

    // All but the last n uploads have completed.
    ghost predicate CompletedBut(n: nat)
      reads this
    {
      forall i: nat | i + n < |started| :: Settled(settled, started[i].completion)
    }

    // At no time are more than two uploads unfinished.
    ghost predicate Valid()
      reads this
    {
      CompletedBut(2)
    }

    // The next upload may start: the last request has settled, and every upload
    // before it has completed.
    ghost predicate MayStart()
      reads this
    {
      && (started != [] ==> Settled(settled, started[|started| - 1].request))
      && CompletedBut(1)
    }

    // settlePromise: rejections are swallowed.
    method SettlePromise(promise: Option<nat>)
      requires Valid()
      modifies this`settled
      ensures Valid() && old(settled) <= settled && Settled(settled, promise)
    {
      var others: set<nat> := *;
      settled := settled + others;
      if promise.Some? {
        settled := settled + {promise.value};
      }
    }

    method StartUpload(item: nat) returns (result: StartResult)
      requires Valid() && MayStart()
      modifies this
      ensures Valid() && old(settled) <= settled
      ensures calls == old(calls) + [Call(item, result)]
      ensures match result
        case Started(upload) => upload.item == item && started == old(started) + [upload]
        case _ => started == old(started)
    {
      var others: set<nat> := *;
      settled := settled + others;
      result := *;
      if result.Started? {
        result := Started(result.upload.(item := item));
        started := started + [result.upload];
      }
      calls := calls + [Call(item, result)];
    }
  }

  function RequestOf(u: Option<Upload>): Option<nat> {
    if u.Some? then u.value.request else None
  }

  function CompletionOf(u: Option<Upload>): Option<nat> {
    if u.Some? then u.value.completion else None
  }

  // Exactly these items were started, in this order, each by a call of its own.
  ghost predicate AllStarted(started: seq<Upload>, calls: seq<Call>, items: seq<nat>) {
    && |started| == |items| <= |calls|
    && forall i: nat | i < |items| :: started[i].item == items[i] && calls[i] == Call(items[i], Started(started[i]))
  }

  // Items are started in order, each only when it may. Only a start that was
  // declined, or threw, keeps the rest from being started. On a normal return
  // every started upload has completed.
  method RunUploadPipeline(items: seq<nat>, world: World) returns (threw: bool)
    requires world.Valid() && world.started == [] && world.calls == []
    modifies world
    ensures world.Valid()
    ensures |world.started| <= |items| && AllStarted(world.started, world.calls, items[..|world.started|])
    ensures if |world.started| == |items| then |world.calls| == |items| && !threw
            else world.calls[|world.started|..] == [Call(items[|world.started|], if threw then Threw else Declined)]
    ensures !threw ==> forall i: nat | i < |world.started| :: Settled(world.settled, world.started[i].completion)
  {
    var verifyingUpload: Option<Upload> := None;
    var uploadingUpload: Option<Upload> := None;
    threw := false;
    for n := 0 to |items|
      invariant world.Valid()
      invariant |world.calls| == n && AllStarted(world.started, world.calls, items[..n])
      invariant uploadingUpload == if n > 0 then Some(world.started[n - 1]) else None
      invariant verifyingUpload == if n > 1 then Some(world.started[n - 2]) else None
    {
      world.SettlePromise(RequestOf(uploadingUpload));
      world.SettlePromise(CompletionOf(verifyingUpload));
      verifyingUpload := None;
      var nextUpload := world.StartUpload(items[n]);
      if nextUpload.Threw? {
        return true;
      }
      if nextUpload.Declined? {
        break;
      }
      verifyingUpload := uploadingUpload;
      uploadingUpload := Some(nextUpload.upload);
    }
    world.SettlePromise(RequestOf(uploadingUpload));
    world.SettlePromise(CompletionOf(verifyingUpload));
    world.SettlePromise(CompletionOf(uploadingUpload));
  }
}
