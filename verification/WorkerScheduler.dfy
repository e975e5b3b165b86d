// The token scheduler of internal/service/worker_scheduler.go: concurrent
// GetToken calls share a buffer of tokens fetched in batches and report whether
// a storage is waiting for a worker. What the mutexes make atomic is one step.
module WorkerScheduler {
  import opened Prelude

  const TOKEN_BATCH_SIZE := 5

  // A token stands for the usage recorded for it; no two are the same.
  datatype Token = Token(storage: nat, usage: nat)

  /******* The protected maps *******/

  function WaitingCount(waiting: map<nat, int>, storage: nat): int {
    if storage in waiting then waiting[storage] else 0
  }

  function WaitingAfter(waiting: map<nat, int>, storage: nat, delta: int): map<nat, int> {
    var n := WaitingCount(waiting, storage) + delta;
    if n <= 0 then waiting - {storage} else waiting[storage := n]
  }

  function Buffered(buf: map<nat, seq<Token>>, storage: nat): seq<Token> {
    if storage in buf then buf[storage] else []
  }

  class Scheduler {
    var waiting: map<nat, int>
    var tokenBuf: map<nat, seq<Token>>

    constructor ()
      ensures waiting == map[] && tokenBuf == map[]
    {
      waiting, tokenBuf := map[], map[];
    }

    method SetWaiting(storage: nat, delta: int)
      modifies this`waiting
      ensures waiting == WaitingAfter(old(waiting), storage, delta)
    {
      waiting := waiting[storage := (if storage in waiting then waiting[storage] else 0) + delta];
      if waiting[storage] <= 0 {
        waiting := waiting - {storage};
      }
    }

    method IsWaiting(storage: nat) returns (answer: bool)
      ensures answer <==> WaitingCount(waiting, storage) > 0
    {
      answer := storage in waiting && waiting[storage] > 0;
    }

    // The oldest buffered token, if any.
    method PopBufferedToken(storage: nat) returns (token: Option<Token>)
      modifies this`tokenBuf
      ensures var before := Buffered(old(tokenBuf), storage);
        match token
        case None => before == [] && tokenBuf == old(tokenBuf)
        case Some(t) => before == [t] + Buffered(tokenBuf, storage)
      ensures forall other | other != storage :: Buffered(tokenBuf, other) == Buffered(old(tokenBuf), other)
    {
      if storage !in tokenBuf || tokenBuf[storage] == [] {
        return None;
      }
      var buf := tokenBuf[storage];
      tokenBuf := tokenBuf[storage := buf[1..]];
      return Some(buf[0]);
    }

    // The extra tokens of a batch go to the back, in order.
    method BufferTokens(storage: nat, extras: seq<Token>)
      modifies this`tokenBuf
      ensures Buffered(tokenBuf, storage) == Buffered(old(tokenBuf), storage) + extras
      ensures forall other | other != storage :: Buffered(tokenBuf, other) == Buffered(old(tokenBuf), other)
    {
      if |extras| == 0 {
        return;
      }
      for i := 0 to |extras|
        invariant Buffered(tokenBuf, storage) == Buffered(old(tokenBuf), storage) + extras[..i]
        invariant forall other | other != storage :: Buffered(tokenBuf, other) == Buffered(old(tokenBuf), other)
      {
        var buf := if storage in tokenBuf then tokenBuf[storage] else [];
        tokenBuf := tokenBuf[storage := buf + [extras[i]]];
      }
    }
  }

  /******* Concurrent calls *******/

  datatype Phase =
    | Started
    | Looping                            // at the head of the loop
    | Saturated                          // the batch came back empty
    | Sleeping
    | Holding(tokens: seq<Token>)        // a batch not yet buffered
    | Leaving(token: Option<Token>)      // returning, the deferred call still to run
    | Returned(token: Option<Token>)

  datatype Call = Call(storage: nat, ctxDone: bool, waiting: bool, phase: Phase)

  datatype State = State(
    calls: seq<Call>,
    waiting: map<nat, int>,
    tokenBuf: map<nat, seq<Token>>,
    recorded: multiset<Token>,           // history: tokens of successful batches
    pushed: seq<Token>,                  // history: tokens as they were buffered
    popped: seq<Token>)                  // and as they were taken from the buffer

  datatype Event =
    | Arrive(storage: nat)
    | Cancel(c: nat)
    | TryBuffer(c: nat)
    | GiveUp(c: nat)                     // the context is done
    | BatchOk(c: nat, tokens: seq<Token>)
    | BatchEmpty(c: nat)
    | BatchFail(c: nat)
    | Wait(c: nat)                       // setWaiting the first time, then sleep
    | Wake(c: nat)
    | BufferExtras(c: nat)
    | Leave(c: nat)

  const INIT := State([], map[], map[], multiset{}, [], [])

  predicate At(s: State, c: nat) {
    c < |s.calls|
  }

  ghost predicate FreshBatch(s: State, storage: nat, tokens: seq<Token>) {
    && 0 < |tokens| <= TOKEN_BATCH_SIZE
    && (forall i: nat | i < |tokens| :: tokens[i].storage == storage && tokens[i] !in s.recorded)
    && (forall i: nat, j: nat | i < j < |tokens| :: tokens[i] != tokens[j])
  }

  ghost predicate Enabled(s: State, e: Event) {
    match e
    case Arrive(_) => true
    case Cancel(c) => At(s, c)
    case TryBuffer(c) => At(s, c) && s.calls[c].phase.Started?
    case GiveUp(c) => At(s, c) && s.calls[c].ctxDone && (s.calls[c].phase.Looping? || s.calls[c].phase.Sleeping?)
    case BatchOk(c, tokens) => At(s, c) && s.calls[c].phase.Looping? && FreshBatch(s, s.calls[c].storage, tokens)
    case BatchEmpty(c) => At(s, c) && s.calls[c].phase.Looping?
    case BatchFail(c) => At(s, c) && s.calls[c].phase.Looping?
    case Wait(c) => At(s, c) && s.calls[c].phase.Saturated?
    case Wake(c) => At(s, c) && s.calls[c].phase.Sleeping?
    case BufferExtras(c) => At(s, c) && s.calls[c].phase.Holding? && s.calls[c].phase.tokens != []
    case Leave(c) => At(s, c) && s.calls[c].phase.Leaving?
  }

  function To(s: State, c: nat, p: Phase): State
    requires At(s, c)
  {
    s.(calls := s.calls[c := s.calls[c].(phase := p)])
  }

  function Popped(s: State, c: nat): State
    requires At(s, c) && Buffered(s.tokenBuf, s.calls[c].storage) != []
  {
    var buf := Buffered(s.tokenBuf, s.calls[c].storage);
    s.(calls := s.calls[c := s.calls[c].(phase := Leaving(Some(buf[0])))],
       tokenBuf := s.tokenBuf[s.calls[c].storage := buf[1..]],
       popped := s.popped + [buf[0]])
  }

  // A batch has been fetched for call c.
  function Fetched(s: State, c: nat, tokens: seq<Token>): State
    requires At(s, c)
  {
    s.(calls := s.calls[c := s.calls[c].(phase := Holding(tokens))], recorded := s.recorded + multiset(tokens))
  }

  function Apply(s: State, e: Event): State
    requires Enabled(s, e)
  {
    match e
    case Arrive(st) => s.(calls := s.calls + [Call(st, false, false, Started)])
    case Cancel(c) => s.(calls := s.calls[c := s.calls[c].(ctxDone := true)])
    case TryBuffer(c) => if Buffered(s.tokenBuf, s.calls[c].storage) == [] then To(s, c, Looping) else Popped(s, c)
    case GiveUp(c) => To(s, c, Leaving(None))
    case BatchOk(c, tokens) => Fetched(s, c, tokens)
    case BatchEmpty(c) => To(s, c, Saturated)
    case BatchFail(c) => To(s, c, Leaving(None))
    case Wait(c) =>
      s.(calls := s.calls[c := s.calls[c].(phase := Sleeping, waiting := true)],
         waiting := if s.calls[c].waiting then s.waiting else WaitingAfter(s.waiting, s.calls[c].storage, 1))
    case Wake(c) => To(s, c, Looping)
    case BufferExtras(c) =>
      var st, ts := s.calls[c].storage, s.calls[c].phase.tokens;
      s.(calls := s.calls[c := s.calls[c].(phase := Leaving(Some(ts[0])))],
         tokenBuf := s.tokenBuf[st := Buffered(s.tokenBuf, st) + ts[1..]],
         pushed := s.pushed + ts[1..])
    case Leave(c) =>
      s.(calls := s.calls[c := s.calls[c].(phase := Returned(s.calls[c].phase.token), waiting := false)],
         waiting := if s.calls[c].waiting then WaitingAfter(s.waiting, s.calls[c].storage, -1) else s.waiting)
  }

  /******* Waiting calls *******/

  // The calls of a storage that have announced that they wait for a worker and
  // have not returned yet.
  function Blocked(calls: seq<Call>, storage: nat): nat {
    if calls == [] then 0
    else
      var call := calls[|calls| - 1];
      Blocked(calls[..|calls| - 1], storage) + if call.waiting && call.storage == storage then 1 else 0
  }

  ghost predicate WaitingOk(s: State) {
    && (forall st: nat :: WaitingCount(s.waiting, st) == Blocked(s.calls, st))
    && (forall c: nat | At(s, c) && (s.calls[c].phase.Returned? || s.calls[c].phase.Started?) :: !s.calls[c].waiting)
    && (forall c: nat | At(s, c) && s.calls[c].phase.Sleeping? :: s.calls[c].waiting)
  }

  function Weight(call: Call, storage: nat): nat {
    if call.waiting && call.storage == storage then 1 else 0
  }

  lemma {:induction false} BlockedUpdate(calls: seq<Call>, c: nat, call: Call, storage: nat)
    requires c < |calls|
    ensures Blocked(calls[c := call], storage)
         == Blocked(calls, storage) - Weight(calls[c], storage) + Weight(call, storage)
  {
    var n := |calls| - 1;
    if c == n {
      assert calls[c := call][..n] == calls[..n];
    } else {
      assert calls[c := call][..n] == calls[..n][c := call];
      BlockedUpdate(calls[..n], c, call, storage);
    }
  }

  lemma {:induction false} BlockedIncludes(calls: seq<Call>, c: nat)
    requires c < |calls| && calls[c].waiting
    ensures Blocked(calls, calls[c].storage) > 0
  {
    if c < |calls| - 1 {
      BlockedIncludes(calls[..|calls| - 1], c);
    }
  }

  lemma UpdateKeepsWaiting(s: State, t: State, c: nat)
    requires WaitingOk(s) && At(s, c) && At(t, c)
    requires t.calls == s.calls[c := t.calls[c]] && t.calls[c].storage == s.calls[c].storage
    requires t.calls[c].phase.Returned? || t.calls[c].phase.Started? ==> !t.calls[c].waiting
    requires t.calls[c].phase.Sleeping? ==> t.calls[c].waiting
    requires if t.calls[c].waiting == s.calls[c].waiting then t.waiting == s.waiting
             else t.waiting == WaitingAfter(s.waiting, s.calls[c].storage, if t.calls[c].waiting then 1 else -1)
    ensures WaitingOk(t)
  {
    forall st: nat ensures WaitingCount(t.waiting, st) == Blocked(t.calls, st) {
      BlockedUpdate(s.calls, c, t.calls[c], st);
    }
    if s.calls[c].waiting {
      BlockedIncludes(s.calls, c);
    }
  }

  lemma ArriveKeepsWaiting(s: State, st: nat)
    requires WaitingOk(s)
    ensures WaitingOk(Apply(s, Arrive(st)))
  {
    var t := Apply(s, Arrive(st));
    assert t.calls[..|s.calls|] == s.calls;
  }

  lemma StepWaiting(s: State, e: Event)
    requires WaitingOk(s) && Enabled(s, e)
    ensures WaitingOk(Apply(s, e))
  {
    if e.Arrive? {
      ArriveKeepsWaiting(s, e.storage);
    } else {
      UpdateKeepsWaiting(s, Apply(s, e), e.c);
    }
  }

  /******* Where the tokens are *******/

  // How often a call holds a token: in a batch it has not buffered yet, or as
  // the one it returns.
  function Carries(p: Phase, t: Token): nat {
    match p
    case Holding(tokens) => multiset(tokens)[t]
    case Leaving(token) => if token == Some(t) then 1 else 0
    case Returned(token) => if token == Some(t) then 1 else 0
    case _ => 0
  }

  function Carried(calls: seq<Call>, t: Token): nat {
    if calls == [] then 0 else Carried(calls[..|calls| - 1], t) + Carries(calls[|calls| - 1].phase, t)
  }

  ghost function InBuffer(s: State, t: Token): nat {
    multiset(Buffered(s.tokenBuf, t.storage))[t]
  }

  // Every recorded token is in exactly one place.
  ghost predicate Conserved(s: State) {
    forall t: Token :: Carried(s.calls, t) + InBuffer(s, t) == s.recorded[t] <= 1
  }

  ghost predicate OwnStorage(s: State) {
    forall c: nat | At(s, c) && s.calls[c].phase.Holding? ::
      s.calls[c].phase.tokens != [] && forall t | t in s.calls[c].phase.tokens :: t.storage == s.calls[c].storage
  }

  ghost predicate AllOf(ts: seq<Token>, storage: nat) {
    forall i: nat | i < |ts| :: ts[i].storage == storage
  }

  // A buffer holds its own storage's tokens.
  ghost predicate BuffersOwn(buf: map<nat, seq<Token>>) {
    forall st: nat :: AllOf(Buffered(buf, st), st)
  }

  lemma PutBuffer(buf: map<nat, seq<Token>>, st: nat, ts: seq<Token>)
    requires BuffersOwn(buf) && AllOf(ts, st)
    ensures BuffersOwn(buf[st := ts])
  {
    var after := buf[st := ts];
    forall other: nat ensures AllOf(Buffered(after, other), other) {
      assert AllOf(Buffered(buf, other), other);
    }
  }

  ghost predicate TokensOk(s: State) {
    Conserved(s) && OwnStorage(s) && BuffersOwn(s.tokenBuf)
  }

  lemma {:induction false} CarriedUpdate(calls: seq<Call>, c: nat, call: Call, t: Token)
    requires c < |calls|
    ensures Carried(calls[c := call], t) == Carried(calls, t) - Carries(calls[c].phase, t) + Carries(call.phase, t)
  {
    var n := |calls| - 1;
    if c == n {
      assert calls[c := call][..n] == calls[..n];
    } else {
      assert calls[c := call][..n] == calls[..n][c := call];
      CarriedUpdate(calls[..n], c, call, t);
    }
  }

  // An action that leaves buffer, records and carried tokens as they are.
  lemma SameTokens(s: State, t: State, c: nat)
    requires TokensOk(s) && At(s, c) && At(t, c)
    requires t.calls == s.calls[c := t.calls[c]] && t.tokenBuf == s.tokenBuf && t.recorded == s.recorded
    requires forall x :: Carries(t.calls[c].phase, x) == Carries(s.calls[c].phase, x)
    requires t.calls[c].phase.Holding? ==>
      t.calls[c].phase == s.calls[c].phase && t.calls[c].storage == s.calls[c].storage
    ensures TokensOk(t)
  {
    forall x: Token ensures Carried(t.calls, x) + InBuffer(t, x) == t.recorded[x] <= 1 {
      CarriedUpdate(s.calls, c, t.calls[c], x);
    }
  }

  lemma ArriveKeepsTokens(s: State, st: nat)
    requires TokensOk(s)
    ensures TokensOk(Apply(s, Arrive(st)))
  {
    var t := Apply(s, Arrive(st));
    assert t.calls[..|s.calls|] == s.calls;
    forall x: Token ensures Carried(t.calls, x) + InBuffer(t, x) == t.recorded[x] <= 1 {
      assert Carried(t.calls, x) == Carried(s.calls, x);
      assert InBuffer(t, x) == InBuffer(s, x);
    }
  }

  lemma FirstAndRest(ts: seq<Token>, x: Token)
    requires ts != []
    ensures multiset(ts)[x] == (if ts[0] == x then 1 else 0) + multiset(ts[1..])[x]
  {
    assert ts == [ts[0]] + ts[1..];
  }

  lemma PopKeepsTokens(s: State, c: nat)
    requires TokensOk(s) && At(s, c) && s.calls[c].phase.Started?
    requires Buffered(s.tokenBuf, s.calls[c].storage) != []
    ensures TokensOk(Popped(s, c))
  {
    var st := s.calls[c].storage;
    var buf := Buffered(s.tokenBuf, st);
    var t := Popped(s, c);
    assert AllOf(buf, st);
    PutBuffer(s.tokenBuf, st, buf[1..]);
    forall x: Token ensures Carried(t.calls, x) + InBuffer(t, x) == t.recorded[x] <= 1 {
      CarriedUpdate(s.calls, c, t.calls[c], x);
      FirstAndRest(buf, x);
      assert Carried(s.calls, x) + InBuffer(s, x) == s.recorded[x] <= 1;
    }
  }

  lemma {:induction false} DistinctOnce(ts: seq<Token>, x: Token)
    requires forall i: nat, j: nat | i < j < |ts| :: ts[i] != ts[j]
    ensures multiset(ts)[x] <= 1
  {
    if ts != [] {
      FirstAndRest(ts, x);
      DistinctOnce(ts[1..], x);
      if ts[0] == x {
        assert x !in ts[1..];
      }
    }
  }

  lemma BatchKeepsTokens(s: State, c: nat, tokens: seq<Token>)
    requires TokensOk(s) && Enabled(s, BatchOk(c, tokens))
    ensures TokensOk(Apply(s, BatchOk(c, tokens)))
  {
    var t := Apply(s, BatchOk(c, tokens));
    forall x: Token ensures Carried(t.calls, x) + InBuffer(t, x) == t.recorded[x] <= 1 {
      CarriedUpdate(s.calls, c, t.calls[c], x);
      DistinctOnce(tokens, x);
      assert Carried(s.calls, x) + InBuffer(s, x) == s.recorded[x] <= 1;
    }
  }

  lemma ExtrasAreOwn(s: State, c: nat)
    requires TokensOk(s) && Enabled(s, BufferExtras(c))
    ensures AllOf(s.calls[c].phase.tokens, s.calls[c].storage)
    ensures AllOf(Buffered(s.tokenBuf, s.calls[c].storage) + s.calls[c].phase.tokens[1..], s.calls[c].storage)
  {
    var st, ts := s.calls[c].storage, s.calls[c].phase.tokens;
    assert AllOf(Buffered(s.tokenBuf, st), st);
    assert forall i: nat | i < |ts| :: ts[i] in ts;
  }

  lemma ExtrasCount(buf: seq<Token>, ts: seq<Token>, st: nat, x: Token)
    requires ts != [] && AllOf(ts, st)
    ensures (if ts[0] == x then 1 else 0) + (if x.storage == st then multiset(buf + ts[1..])[x] else 0)
         == multiset(ts)[x] + (if x.storage == st then multiset(buf)[x] else 0)
  {
    FirstAndRest(ts, x);
    if x.storage != st {
      assert x !in ts;
    }
  }

  lemma BufferConserves(s: State, c: nat, x: Token)
    requires TokensOk(s) && Enabled(s, BufferExtras(c))
    ensures var t := Apply(s, BufferExtras(c));
      Carried(t.calls, x) + InBuffer(t, x) == t.recorded[x] <= 1
  {
    var t := Apply(s, BufferExtras(c));
    var st, ts := s.calls[c].storage, s.calls[c].phase.tokens;
    ExtrasAreOwn(s, c);
    CarriedUpdate(s.calls, c, t.calls[c], x);
    ExtrasCount(Buffered(s.tokenBuf, st), ts, st, x);
    assert Carried(s.calls, x) + InBuffer(s, x) == s.recorded[x] <= 1;
  }

  lemma BufferKeepsTokens(s: State, c: nat)
    requires TokensOk(s) && Enabled(s, BufferExtras(c))
    ensures TokensOk(Apply(s, BufferExtras(c)))
  {
    var st, ts := s.calls[c].storage, s.calls[c].phase.tokens;
    ExtrasAreOwn(s, c);
    PutBuffer(s.tokenBuf, st, Buffered(s.tokenBuf, st) + ts[1..]);
    forall x: Token
      ensures var t := Apply(s, BufferExtras(c)); Carried(t.calls, x) + InBuffer(t, x) == t.recorded[x] <= 1
    {
      BufferConserves(s, c, x);
    }
  }

  lemma StepTokens(s: State, e: Event)
    requires TokensOk(s) && Enabled(s, e)
    ensures TokensOk(Apply(s, e))
  {
    match e
    case Arrive(st) => ArriveKeepsTokens(s, st);
    case BatchOk(c, tokens) => BatchKeepsTokens(s, c, tokens);
    case BufferExtras(c) => BufferKeepsTokens(s, c);
    case TryBuffer(c) =>
      if Buffered(s.tokenBuf, s.calls[c].storage) == [] {
        SameTokens(s, Apply(s, e), c);
      } else {
        PopKeepsTokens(s, c);
      }
    case _ => SameTokens(s, Apply(s, e), e.c);
  }

  /******* First in, first out *******/

  function Of(ts: seq<Token>, st: nat): seq<Token> {
    if ts == [] then []
    else Of(ts[..|ts| - 1], st) + if ts[|ts| - 1].storage == st then [ts[|ts| - 1]] else []
  }

  lemma {:induction false} OfAppend(a: seq<Token>, b: seq<Token>, st: nat)
    ensures Of(a + b, st) == Of(a, st) + Of(b, st)
  {
    if b == [] {
      assert a + b == a;
    } else {
      assert (a + b)[..|a + b| - 1] == a + b[..|b| - 1];
      OfAppend(a, b[..|b| - 1], st);
    }
  }

  lemma {:induction false} OfOne(ts: seq<Token>, own: nat, st: nat)
    requires AllOf(ts, own)
    ensures Of(ts, st) == if st == own then ts else []
  {
    if ts != [] {
      assert ts == ts[..|ts| - 1] + [ts[|ts| - 1]];
      OfOne(ts[..|ts| - 1], own, st);
    }
  }

  // Each storage's buffer is what has been pushed and not popped, in order.
  ghost predicate Queued(s: State) {
    forall st: nat :: Of(s.pushed, st) == Of(s.popped, st) + Buffered(s.tokenBuf, st)
  }

  lemma OfSnoc(ts: seq<Token>, x: Token, st: nat)
    ensures Of(ts + [x], st) == if x.storage == st then Of(ts, st) + [x] else Of(ts, st)
  {
    assert (ts + [x])[..|ts|] == ts;
  }

  lemma Reassociate(a: seq<Token>, buf: seq<Token>)
    requires buf != []
    ensures (a + [buf[0]]) + buf[1..] == a + buf
  {
  }

  lemma PushQueue(pushed: seq<Token>, popped: seq<Token>, buf: seq<Token>, extras: seq<Token>, st: nat)
    requires AllOf(extras, st) && Of(pushed, st) == Of(popped, st) + buf
    ensures Of(pushed + extras, st) == Of(popped, st) + (buf + extras)
  {
    OfAppend(pushed, extras, st);
    OfOne(extras, st, st);
  }

  lemma OthersPass(ts: seq<Token>, more: seq<Token>, own: nat, st: nat)
    requires AllOf(more, own) && st != own
    ensures Of(ts + more, st) == Of(ts, st)
  {
    OfAppend(ts, more, st);
    OfOne(more, own, st);
  }

  lemma PopKeepsQueue(s: State, c: nat)
    requires TokensOk(s) && Queued(s) && At(s, c) && Buffered(s.tokenBuf, s.calls[c].storage) != []
    ensures Queued(Popped(s, c))
  {
    var own := s.calls[c].storage;
    var buf := Buffered(s.tokenBuf, own);
    var t := Popped(s, c);
    assert AllOf(buf, own);
    forall st: nat ensures Of(t.pushed, st) == Of(t.popped, st) + Buffered(t.tokenBuf, st) {
      OfSnoc(s.popped, buf[0], st);
      if st == own {
        Reassociate(Of(s.popped, st), buf);
      }
    }
  }

  lemma BufferKeepsQueue(s: State, c: nat)
    requires TokensOk(s) && Queued(s) && Enabled(s, BufferExtras(c))
    ensures Queued(Apply(s, BufferExtras(c)))
  {
    var t := Apply(s, BufferExtras(c));
    var own, ts := s.calls[c].storage, s.calls[c].phase.tokens;
    ExtrasAreOwn(s, c);
    forall st: nat ensures Of(t.pushed, st) == Of(t.popped, st) + Buffered(t.tokenBuf, st) {
      if st == own {
        PushQueue(s.pushed, s.popped, Buffered(s.tokenBuf, own), ts[1..], st);
      } else {
        OthersPass(s.pushed, ts[1..], own, st);
      }
    }
  }

  lemma StepQueue(s: State, e: Event)
    requires TokensOk(s) && Queued(s) && Enabled(s, e)
    ensures Queued(Apply(s, e))
  {
    if e.BufferExtras? {
      BufferKeepsQueue(s, e.c);
    } else if e.TryBuffer? && Buffered(s.tokenBuf, s.calls[e.c].storage) != [] {
      PopKeepsQueue(s, e.c);
    } else {
      assert Apply(s, e).tokenBuf == s.tokenBuf && Apply(s, e).pushed == s.pushed && Apply(s, e).popped == s.popped;
    }
  }

  /******* What every run keeps *******/

  ghost predicate Inv(s: State) {
    WaitingOk(s) && TokensOk(s) && Queued(s)
  }

  ghost predicate Valid(s: State, run: seq<Event>)
    decreases |run|
  {
    run == [] || (Enabled(s, run[0]) && Valid(Apply(s, run[0]), run[1..]))
  }

  ghost function Exec(s: State, run: seq<Event>): State
    requires Valid(s, run)
    decreases |run|
  {
    if run == [] then s else Exec(Apply(s, run[0]), run[1..])
  }

  lemma {:induction false} RunInv(s: State, run: seq<Event>)
    requires Inv(s) && Valid(s, run)
    ensures Inv(Exec(s, run))
    decreases |run|
  {
    if run != [] {
      StepWaiting(s, run[0]);
      StepTokens(s, run[0]);
      StepQueue(s, run[0]);
      RunInv(Apply(s, run[0]), run[1..]);
    }
  }

  // The tokens calls hold or have returned, and those still buffered, are
  // exactly the recorded ones, each once.
  lemma TokensAreConserved(run: seq<Event>, t: Token)
    requires Valid(INIT, run)
    ensures var s := Exec(INIT, run); Carried(s.calls, t) + InBuffer(s, t) == s.recorded[t] <= 1
  {
    RunInv(INIT, run);
  }

  lemma {:induction false} CarriedAt(calls: seq<Call>, c: nat, t: Token)
    requires c < |calls|
    ensures Carried(calls, t) >= Carries(calls[c].phase, t)
  {
    if c < |calls| - 1 {
      CarriedAt(calls[..|calls| - 1], c, t);
    }
  }

  lemma {:induction false} CarriedByTwo(calls: seq<Call>, c: nat, d: nat, t: Token)
    requires c < d < |calls|
    ensures Carried(calls, t) >= Carries(calls[c].phase, t) + Carries(calls[d].phase, t)
  {
    if d < |calls| - 1 {
      CarriedByTwo(calls[..|calls| - 1], c, d, t);
    } else {
      CarriedAt(calls[..d], c, t);
    }
  }

  // No token is handed out twice, and none that is still buffered.
  lemma HandedOutOnce(run: seq<Event>, c: nat, t: Token)
    requires Valid(INIT, run) && At(Exec(INIT, run), c) && Exec(INIT, run).calls[c].phase == Returned(Some(t))
    ensures var s := Exec(INIT, run);
      && t in s.recorded && t !in Buffered(s.tokenBuf, t.storage)
      && forall d: nat | At(s, d) && d != c :: s.calls[d].phase != Returned(Some(t))
  {
    RunInv(INIT, run);
    var s := Exec(INIT, run);
    CarriedAt(s.calls, c, t);
    assert Carried(s.calls, t) + InBuffer(s, t) == s.recorded[t] <= 1;
    forall d: nat | At(s, d) && d != c ensures s.calls[d].phase != Returned(Some(t)) {
      if s.calls[d].phase == Returned(Some(t)) {
        CarriedByTwo(s.calls, if c < d then c else d, if c < d then d else c, t);
      }
    }
  }

  // Buffered tokens leave in the order they came.
  lemma BufferIsFifo(run: seq<Event>, storage: nat)
    requires Valid(INIT, run)
    ensures var s := Exec(INIT, run); Of(s.pushed, storage) == Of(s.popped, storage) + Buffered(s.tokenBuf, storage)
  {
    RunInv(INIT, run);
  }

  lemma {:induction false} BlockedIff(calls: seq<Call>, storage: nat)
    ensures Blocked(calls, storage) > 0
      <==> exists c: nat :: c < |calls| && calls[c].waiting && calls[c].storage == storage
  {
    if calls != [] {
      BlockedIff(calls[..|calls| - 1], storage);
    }
  }

  // The counter is the number of calls that have announced that they wait and
  // are still running, so a storage reports waiting exactly when there is one.
  // Every call that is blocked is among them and no returned one is.
  lemma WaitingIsExact(run: seq<Event>, storage: nat)
    requires Valid(INIT, run)
    ensures var s := Exec(INIT, run);
      && WaitingCount(s.waiting, storage) == Blocked(s.calls, storage)
      && (WaitingCount(s.waiting, storage) > 0
          <==> exists c: nat :: At(s, c) && s.calls[c].waiting && s.calls[c].storage == storage)
      && (forall c: nat | At(s, c) && s.calls[c].phase.Sleeping? :: s.calls[c].waiting)
      && (forall c: nat | At(s, c) && s.calls[c].phase.Returned? :: !s.calls[c].waiting)
  {
    RunInv(INIT, run);
    BlockedIff(Exec(INIT, run).calls, storage);
  }

  /******* Which token a call gets *******/

  lemma {:induction false} Split(s: State, a: seq<Event>, b: seq<Event>)
    requires Valid(s, a + b)
    ensures Valid(s, a) && Valid(Exec(s, a), b) && Exec(s, a + b) == Exec(Exec(s, a), b)
    decreases |a|
  {
    if a == [] {
      assert a + b == b;
    } else {
      assert (a + b)[1..] == a[1..] + b;
      Split(Apply(s, a[0]), a[1..], b);
    }
  }

  // Call c returns, or has returned, this token.
  predicate Gets(s: State, c: nat, token: Option<Token>) {
    At(s, c) && (s.calls[c].phase == Leaving(token) || s.calls[c].phase == Returned(token))
  }

  lemma {:induction false} KeepsToken(s: State, run: seq<Event>, c: nat, token: Option<Token>)
    requires Valid(s, run) && Gets(s, c, token)
    ensures Gets(Exec(s, run), c, token)
    decreases |run|
  {
    if run != [] {
      KeepsToken(Apply(s, run[0]), run[1..], c, token);
    }
  }

  lemma {:induction false} KeepsBatch(s: State, run: seq<Event>, c: nat, tokens: seq<Token>)
    requires Valid(s, run) && At(s, c) && s.calls[c].phase == Holding(tokens) && tokens != []
    ensures var t := Exec(s, run);
      Gets(t, c, Some(tokens[0])) || (At(t, c) && t.calls[c].phase == Holding(tokens))
    decreases |run|
  {
    if run != [] {
      var t := Apply(s, run[0]);
      if run[0] == BufferExtras(c) {
        KeepsToken(t, run[1..], c, Some(tokens[0]));
      } else {
        KeepsBatch(t, run[1..], c, tokens);
      }
    }
  }

  lemma Cons(e: Event, rest: seq<Event>)
    ensures ([e] + rest)[0] == e && ([e] + rest)[1..] == rest
  {
  }

  // A call that finds tokens buffered for its storage returns the oldest of
  // them, whatever happens meanwhile; otherwise it has to fetch.
  lemma BufferedTokenIsTaken(before: seq<Event>, c: nat, after: seq<Event>)
    requires Valid(INIT, before + ([TryBuffer(c)] + after))
    ensures Valid(INIT, before) && Enabled(Exec(INIT, before), TryBuffer(c))
    ensures var s := Exec(INIT, before);
      var buf, t := Buffered(s.tokenBuf, s.calls[c].storage), Exec(INIT, before + ([TryBuffer(c)] + after));
      && (buf != [] ==> Gets(t, c, Some(buf[0])))
      && (buf == [] ==> Apply(s, TryBuffer(c)).calls[c].phase == Looping)
  {
    Split(INIT, before, [TryBuffer(c)] + after);
    Cons(TryBuffer(c), after);
    var s := Exec(INIT, before);
    var buf := Buffered(s.tokenBuf, s.calls[c].storage);
    if buf != [] {
      KeepsToken(Apply(s, TryBuffer(c)), after, c, Some(buf[0]));
    }
  }

  // A call that has fetched a batch returns the first token of it, once it has
  // put the others, in order, behind those already buffered.
  lemma FetchedTokenIsTaken(before: seq<Event>, c: nat, tokens: seq<Token>, after: seq<Event>)
    requires Valid(INIT, before + ([BatchOk(c, tokens)] + after))
    ensures var t := Exec(INIT, before + ([BatchOk(c, tokens)] + after));
      && tokens != []
      && (Gets(t, c, Some(tokens[0])) || (At(t, c) && t.calls[c].phase == Holding(tokens)))
  {
    Split(INIT, before, [BatchOk(c, tokens)] + after);
    Cons(BatchOk(c, tokens), after);
    KeepsBatch(Apply(Exec(INIT, before), BatchOk(c, tokens)), after, c, tokens);
  }

  lemma ExtrasAreBuffered(run: seq<Event>, c: nat, storage: nat)
    requires Valid(INIT, run) && Enabled(Exec(INIT, run), BufferExtras(c))
    ensures var s := Exec(INIT, run);
      var t, own := Apply(s, BufferExtras(c)), s.calls[c].storage;
      Buffered(t.tokenBuf, storage) ==
        Buffered(s.tokenBuf, storage) + if storage == own then s.calls[c].phase.tokens[1..] else []
  {
  }

  lemma FailureStep(s: State, e: Event, c: nat)
    requires Enabled(s, e)
    ensures Gets(Apply(s, e), c, None) <==> Gets(s, c, None) || e == GiveUp(c) || e == BatchFail(c)
  {
  }

  predicate ContextDone(s: State, c: nat) {
    At(s, c) && s.calls[c].ctxDone
  }

  lemma CancelStep(s: State, e: Event, c: nat)
    requires Enabled(s, e)
    ensures ContextDone(Apply(s, e), c) <==> ContextDone(s, c) || e == Cancel(c)
  {
  }

  lemma {:induction false} FailureInRun(s: State, run: seq<Event>, c: nat)
    requires Valid(s, run)
    ensures Gets(Exec(s, run), c, None) <==> Gets(s, c, None) || GiveUp(c) in run || BatchFail(c) in run
    ensures ContextDone(Exec(s, run), c) <==> ContextDone(s, c) || Cancel(c) in run
    decreases |run|
  {
    if run != [] {
      FailureStep(s, run[0], c);
      CancelStep(s, run[0], c);
      FailureInRun(Apply(s, run[0]), run[1..], c);
      assert run == [run[0]] + run[1..];
    }
  }

  // A call comes back without a token exactly if a batch of its own has failed
  // or it has given up, which it can exactly once it has been cancelled.
  lemma NoTokenIffFailed(run: seq<Event>, c: nat)
    requires Valid(INIT, run)
    ensures Gets(Exec(INIT, run), c, None) <==> GiveUp(c) in run || BatchFail(c) in run
    ensures var s := Exec(INIT, run);
      At(s, c) && (s.calls[c].phase.Looping? || s.calls[c].phase.Sleeping?) ==>
        (Enabled(s, GiveUp(c)) <==> Cancel(c) in run)
  {
    FailureInRun(INIT, run, c);
  }

  // Call c asks for a batch.
  predicate Fetches(e: Event, c: nat) {
    e == BatchEmpty(c) || e == BatchFail(c) || (e.BatchOk? && e.c == c)
  }

  lemma {:induction false} SleepsBetween(s: State, run: seq<Event>, c: nat)
    requires Valid(s, run) && At(s, c) && (s.calls[c].phase.Saturated? || s.calls[c].phase.Sleeping?)
    requires forall e | e in run :: !Fetches(e, c)
    ensures var t := Exec(s, run);
      At(t, c) && t.calls[c].phase.Looping? ==>
        Wake(c) in run && (s.calls[c].phase.Saturated? ==> Wait(c) in run)
    decreases |run|
  {
    if run != [] {
      var e, rest := run[0], run[1..];
      assert e in run && run == [e] + rest;
      if e == GiveUp(c) {
        KeepsToken(Apply(s, e), rest, c, None);
      } else if e != Wake(c) {
        SleepsBetween(Apply(s, e), rest, c);
      }
    }
  }

  // After an empty batch a call announces that it waits, and sleeps, before it
  // asks again.
  lemma EmptyBatchSleeps(before: seq<Event>, c: nat, during: seq<Event>, e: Event)
    requires Valid(INIT, before + ([BatchEmpty(c)] + (during + [e])))
    requires Fetches(e, c) && forall d | d in during :: !Fetches(d, c)
    ensures Wait(c) in during && Wake(c) in during
  {
    Split(INIT, before, [BatchEmpty(c)] + (during + [e]));
    Cons(BatchEmpty(c), during + [e]);
    var s := Apply(Exec(INIT, before), BatchEmpty(c));
    Split(s, during, [e]);
    SleepsBetween(s, during, c);
  }
}
