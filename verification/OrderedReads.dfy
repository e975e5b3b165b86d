// downloadChunksInOrder of internal/service/chunk_downloader.go: the handlers
// that writeWholeFile and writeRangeWindow give to the ordered worker pool.
module OrderedReads {
  import opened Prelude
  import opened ChunkLayout
  import opened RangeServing
  import OrderedJobs

  const DOWNLOAD_CHUNK_PARALLELISM := 5

  datatype ReadError = Range(e: RangeServing.Error) | Context | LoadError(cause: string)

  // The client's bytes so far, what its connection still takes, and the byte
  // offset of the next chunk.
  datatype Sink = Sink(out: Bytes, room: nat, offset: int)

  function Put(sink: Sink, piece: Bytes, offset: int): (Sink, Option<ReadError>) {
    if |piece| > sink.room then (Sink(sink.out + piece[..sink.room], 0, offset), Some(Range(WriteFailed)))
    else (Sink(sink.out + piece, sink.room - |piece|, offset), None)
  }

  /******* Whole files *******/

  // The jobs are the file's chunk records, in position order.
  function WholeFile<J>(chunks: seq<J>, room: nat): OrderedJobs.Config<J, Bytes, Sink, ReadError> {
    OrderedJobs.Config(chunks, DOWNLOAD_CHUNK_PARALLELISM,
                       (sink: Sink, chunk: J, data: Bytes) => Put(sink, data, 0), Sink([], room, 0), Context)
  }

  lemma ConcatSnoc(a: seq<Bytes>, b: Bytes)
    ensures Concat(a + [b]) == Concat(a) + b
  {
    ConcatAppend(a, [b]);
    assert Concat([b]) == b + Concat([]);
  }

  lemma {:induction false} ConcatPrefix(chunks: seq<Bytes>, k: nat)
    requires k <= |chunks|
    ensures Concat(chunks[..k]) <= Concat(chunks)
  {
    assert chunks == chunks[..k] + chunks[k..];
    ConcatAppend(chunks[..k], chunks[k..]);
  }

  lemma {:induction false} SequentialWrites<J>(c: OrderedJobs.Config<J, Bytes, Sink, ReadError>, jobs: seq<J>,
                                               room: nat, values: seq<Bytes>)
    requires c == WholeFile(jobs, room) && |values| <= |jobs|
    ensures var l := OrderedJobs.Sequential(c, values);
      && |l.sink.out| + l.sink.room == room
      && l.sink.out <= Concat(values)
      && (l.err.None? ==> l.sink.out == Concat(values))
      && (l.err.Some? ==> l.err == Some(Range(WriteFailed)) && |Concat(values)| > room)
  {
    if values != [] {
      var k := |values| - 1;
      SequentialWrites(c, jobs, room, values[..k]);
      assert values == values[..k] + [values[k]];
      ConcatSnoc(values[..k], values[k]);
    }
  }

  // What the loads of a run returned is what the chunks hold.
  ghost predicate Honest(loaded: map<nat, Bytes>, chunks: seq<Bytes>) {
    forall i: nat | i in loaded && i < |chunks| :: loaded[i] == chunks[i]
  }

  // What a finished download owes a client that takes `room` bytes: the whole
  // file, or an error of a load, of the caller or of a client that took too
  // little.
  ghost predicate Downloaded(s: OrderedJobs.State<Bytes, Sink, ReadError>, file: Bytes, room: nat) {
    match s.result
    case None => s.sink.out == file
    case Some(e) =>
      || OrderedJobs.LoadFailedWith(s, e) || (s.ctxDone && e == Context)
      || (e == Range(WriteFailed) && |file| > room)
  }

  // However the loads interleave, a download writes a prefix of the file, and
  // the whole file when it returns nil; it fails only for a reason.
  lemma WholeFileDelivers<J>(jobs: seq<J>, chunks: seq<Bytes>, room: nat, run: seq<OrderedJobs.Event<Bytes, ReadError>>)
    requires |jobs| == |chunks|
    requires var c := WholeFile(jobs, room); OrderedJobs.Valid(c, OrderedJobs.Init(c), run)
    requires var c := WholeFile(jobs, room); Honest(OrderedJobs.Exec(c, OrderedJobs.Init(c), run).loaded, chunks)
    ensures var c := WholeFile(jobs, room);
      var s := OrderedJobs.Exec(c, OrderedJobs.Init(c), run);
      && s.sink.out <= Concat(chunks)
      && (s.collector.Returned? ==> Downloaded(s, Concat(chunks), room))
  {
    var c := WholeFile(jobs, room);
    OrderedJobs.RefinesSequentialLoop(c, run);
    var s := OrderedJobs.Exec(c, OrderedJobs.Init(c), run);
    var values := OrderedJobs.Values(s.loaded, s.nextIndex);
    SequentialWrites(c, jobs, room, values);
    assert values == chunks[..s.nextIndex];
    ConcatPrefix(chunks, s.nextIndex);
    assert chunks[..|chunks|] == chunks;
  }

  /******* Ranges *******/

  // The closure of writeRangeWindow.
  function HandleRange(q: Request, check: bool, sink: Sink, k: int, data: Bytes): (Sink, Option<ReadError>) {
    var next := sink.offset + |data|;
    if check && !LayoutOk(k + 1 == q.n, sink.offset, |data|, q.totalSize) then
      (sink.(offset := next), Some(Range(LayoutMismatch)))
    else Put(sink, Piece(q, sink.offset, data), next)
  }

  function Indices(lo: nat, hi: nat): (ks: seq<int>)
    requires lo <= hi
    ensures |ks| == hi - lo && forall i: nat | i < |ks| :: ks[i] == lo + i
  {
    seq(hi - lo, i => lo + i)
  }

  // The jobs are chunks lo..hi-1.
  function RangeWindow(q: Request, lo: nat, hi: nat, offset: int, room: nat)
    : OrderedJobs.Config<int, Bytes, Sink, ReadError>
    requires lo <= hi
  {
    OrderedJobs.Config(Indices(lo, hi), DOWNLOAD_CHUNK_PARALLELISM,
                       (sink: Sink, k: int, data: Bytes) => HandleRange(q, offset > 0, sink, k, data),
                       Sink([], room, offset), Context)
  }

  // The loads a run of chunks lo.. has handed over, and none after them.
  function HandedOver(lo: nat, values: seq<Bytes>): Loader {
    seq(lo + |values|, k requires 0 <= k < lo + |values| => if k < lo then None else Some(values[k - lo]))
  }

  ghost predicate Agrees(load: Loader, lo: nat, values: seq<Bytes>) {
    forall i: nat | i < |values| :: Load(load, lo + i) == Some(values[i])
  }

  // Where the plain loop stands within a window: what it has delivered and what
  // the rest of the window will deliver add up to the whole.
  ghost predicate Within(q: Request, load: Loader, k: nat, hi: nat, check: bool, room: nat, full: Run,
                         l: OrderedJobs.Loop<Sink, ReadError>) {
    && |l.sink.out| + l.sink.room == room
    && match l.err
       case None =>
         var rest := Window(q, load, k, hi, l.sink.offset, check);
         full == Run(l.sink.out + rest.out, rest.err)
       case Some(x) => HandlerError(x) && Capped(full, room) == Run(l.sink.out, Some(x.e))
  }

  // What the handler of writeRangeWindow returns.
  predicate HandlerError(x: ReadError) {
    x.Range? && (x.e.WriteFailed? || x.e.LayoutMismatch?)
  }

  lemma PutWithin(sink: Sink, piece: Bytes, offset: int, later: Bytes, err: Option<Error>)
    ensures var (next, e) := Put(sink, piece, offset);
      var full := Run(sink.out + (piece + later), err);
      && |next.out| + next.room == |sink.out| + sink.room
      && (e.None? ==> full == Run(next.out + later, err))
      && (e.Some? ==> HandlerError(e.value) && Capped(full, |sink.out| + sink.room) == Run(next.out, Some(e.value.e)))
  {
    assert sink.out + (piece + later) == (sink.out + piece) + later;
    if |piece| > sink.room {
      var total := |sink.out| + sink.room;
      assert (sink.out + (piece + later))[..total] == sink.out + piece[..sink.room];
    }
  }

  // The plain loop over the chunks handed over.
  function HandleNext(q: Request, check: bool, k: int, data: Bytes, l: OrderedJobs.Loop<Sink, ReadError>)
    : OrderedJobs.Loop<Sink, ReadError>
  {
    if l.err.Some? then l
    else
      var (next, err) := HandleRange(q, check, l.sink, k, data);
      OrderedJobs.Loop(next, err, l.calls + 1)
  }

  function RangeLoop(q: Request, lo: nat, offset: int, room: nat, values: seq<Bytes>)
    : OrderedJobs.Loop<Sink, ReadError>
  {
    if values == [] then OrderedJobs.Loop(Sink([], room, offset), None, 0)
    else
      var k := |values| - 1;
      HandleNext(q, offset > 0, lo + k, values[k], RangeLoop(q, lo, offset, room, values[..k]))
  }

  lemma {:induction false} SequentialIsLoop(q: Request, lo: nat, hi: nat, offset: int, room: nat, values: seq<Bytes>)
    requires |values| <= hi - lo
    ensures OrderedJobs.Sequential(RangeWindow(q, lo, hi, offset, room), values)
         == RangeLoop(q, lo, offset, room, values)
  {
    if values != [] {
      SequentialIsLoop(q, lo, hi, offset, room, values[..|values| - 1]);
    }
  }

  // One more chunk handed over.
  lemma HandleWithin(q: Request, load: Loader, k: nat, hi: nat, check: bool, room: nat, full: Run,
                     l: OrderedJobs.Loop<Sink, ReadError>, data: Bytes)
    requires k < hi && Load(load, k) == Some(data)
    requires Within(q, load, k, hi, check, room, full, l)
    ensures Within(q, load, k + 1, hi, check, room, full, HandleNext(q, check, k, data, l))
  {
    if l.err.None? {
      if check && !LayoutOk(k + 1 == q.n, l.sink.offset, |data|, q.totalSize) {
        Nothing(l.sink.out);
      } else {
        var later := Window(q, load, k + 1, hi, l.sink.offset + |data|, check);
        PutWithin(l.sink, Piece(q, l.sink.offset, data), l.sink.offset + |data|, later.out, later.err);
      }
    }
  }

  lemma {:induction false} LoopIsWindow(q: Request, lo: nat, hi: nat, offset: int, room: nat,
                                        values: seq<Bytes>, load: Loader, full: Run)
    requires |values| <= hi - lo && Agrees(load, lo, values)
    requires full == Window(q, load, lo, hi, offset, offset > 0)
    ensures Within(q, load, lo + |values|, hi, offset > 0, room, full, RangeLoop(q, lo, offset, room, values))
  {
    if values == [] {
      Nothing(full.out);
    } else {
      var k := |values| - 1;
      var front := values[..k];
      LoopIsWindow(q, lo, hi, offset, room, front, load, full);
      assert Load(load, lo + k) == Some(values[k]);
      HandleWithin(q, load, lo + k, hi, offset > 0, room, full, RangeLoop(q, lo, offset, room, front), values[k]);
    }
  }

  lemma AllHandedOver(q: Request, lo: nat, hi: nat, offset: int, check: bool, room: nat, values: seq<Bytes>,
                      full: Run, l: OrderedJobs.Loop<Sink, ReadError>)
    requires lo + |values| <= hi
    requires Within(q, HandedOver(lo, values), lo + |values|, hi, check, room, full, l)
    ensures LoopDelivers(l, Capped(full, room), room, lo + |values| == hi)
  {
    Nothing(l.sink.out);
  }

  // What a plain loop over a window, or over the first chunks of it, has done.
  ghost predicate LoopDelivers(l: OrderedJobs.Loop<Sink, ReadError>, r: Run, room: nat, all: bool) {
    && l.sink.out == r.out && |l.sink.out| + l.sink.room == room
    && (l.err.Some? ==> HandlerError(l.err.value) && r.err == Some(l.err.value.e))
    && (l.err.None? && all ==> r.err.None?)
  }

  lemma SequentialDelivers(q: Request, lo: nat, hi: nat, offset: int, room: nat, values: seq<Bytes>)
    requires lo + |values| <= hi
    ensures LoopDelivers(OrderedJobs.Sequential(RangeWindow(q, lo, hi, offset, room), values),
                         Capped(Window(q, HandedOver(lo, values), lo, hi, offset, offset > 0), room), room,
                         lo + |values| == hi)
  {
    var load := HandedOver(lo, values);
    var full := Window(q, load, lo, hi, offset, offset > 0);
    SequentialIsLoop(q, lo, hi, offset, room, values);
    LoopIsWindow(q, lo, hi, offset, room, values, load, full);
    AllHandedOver(q, lo, hi, offset, offset > 0, room, values, full, RangeLoop(q, lo, offset, room, values));
  }

  // However its loads interleave, the pool delivers what Window says of the
  // chunks it has handed over. It returns nil only when the window ends well.
  lemma PoolDeliversWindow(q: Request, lo: nat, hi: nat, offset: int, room: nat,
                           run: seq<OrderedJobs.Event<Bytes, ReadError>>)
    returns (values: seq<Bytes>)
    requires lo <= hi
    requires var c := RangeWindow(q, lo, hi, offset, room); OrderedJobs.Valid(c, OrderedJobs.Init(c), run)
    ensures var c := RangeWindow(q, lo, hi, offset, room);
      var s := OrderedJobs.Exec(c, OrderedJobs.Init(c), run);
      var r := Capped(Window(q, HandedOver(lo, values), lo, hi, offset, offset > 0), room);
      && lo + |values| <= hi
      && OrderedJobs.AllLoaded(s.loaded, |values|) && values == OrderedJobs.Values(s.loaded, |values|)
      && s.sink.out == r.out && |s.sink.out| + s.sink.room == room
      && (s.handleErr.Some? ==> HandlerError(s.handleErr.value) && r.err == Some(s.handleErr.value.e))
      && (s.collector.Returned? && s.result.None? ==> r.err.None?)
  {
    var c := RangeWindow(q, lo, hi, offset, room);
    OrderedJobs.RefinesSequentialLoop(c, run);
    var s := OrderedJobs.Exec(c, OrderedJobs.Init(c), run);
    values := OrderedJobs.Values(s.loaded, s.nextIndex);
    SequentialDelivers(q, lo, hi, offset, room, values);
  }

  /******* DownloadRangeToWriter over two pool runs *******/

  type PoolRun = seq<OrderedJobs.Event<Bytes, ReadError>>

  type PoolState = OrderedJobs.State<Bytes, Sink, ReadError>

  ghost predicate Runs(q: Request, lo: nat, hi: nat, offset: int, room: nat, run: PoolRun)
    requires lo <= hi
  {
    var c := RangeWindow(q, lo, hi, offset, room);
    OrderedJobs.Valid(c, OrderedJobs.Init(c), run)
  }

  ghost function After(q: Request, lo: nat, hi: nat, offset: int, room: nat, run: PoolRun): PoolState
    requires lo <= hi && Runs(q, lo, hi, offset, room, run)
  {
    var c := RangeWindow(q, lo, hi, offset, room);
    OrderedJobs.Exec(c, OrderedJobs.Init(c), run)
  }

  // The pool has returned, its loads returned what the chunks hold, and the
  // errors they reported are not those of the handler.
  ghost predicate Answered(s: PoolState, chunks: seq<Bytes>) {
    && s.collector.Returned? && Honest(s.loaded, chunks)
    && forall i | i in s.failed :: !s.failed[i].Range?
  }

  // A load of the window failed with e, or the caller cancelled.
  ghost predicate Outside(s: PoolState, e: ReadError) {
    OrderedJobs.LoadFailedWith(s, e) || (s.ctxDone && e == Context)
  }

  // What a run has written and returned is what r says.
  ghost predicate Matches(s: PoolState, r: Run, room: nat) {
    && s.sink.out == r.out && |s.sink.out| + s.sink.room == room
    && match s.result
       case None => r.err.None?
       case Some(Range(e)) => HandlerError(Range(e)) && r.err == Some(e)
       case Some(e) => Outside(s, e)
  }

  // One call of writeRangeWindow.
  lemma PoolRead(q: Request, chunks: seq<Bytes>, lo: nat, hi: nat, offset: int, room: nat, run: PoolRun)
    returns (load: Loader)
    requires lo <= hi <= |chunks| && Runs(q, lo, hi, offset, room, run)
    requires Answered(After(q, lo, hi, offset, room, run), chunks[lo..hi])
    ensures RangeServing.Genuine(load, chunks)
    ensures Matches(After(q, lo, hi, offset, room, run),
                    Capped(Window(q, load, lo, hi, offset, offset > 0), room), room)
  {
    var c := RangeWindow(q, lo, hi, offset, room);
    var values := PoolDeliversWindow(q, lo, hi, offset, room, run);
    OrderedJobs.RefinesSequentialLoop(c, run);
    load := HandedOver(lo, values);
    forall k: nat | k < |chunks| && Load(load, k).Some? ensures Load(load, k).value == chunks[k] {
      assert values[k - lo] == chunks[lo..hi][k - lo];
    }
  }

  // What a finished range read owes a client that takes `room` bytes: the
  // wanted bytes, or a prefix of them and an error that some load or the client
  // caused, never the layout mismatch.
  ghost predicate Served(s: PoolState, wanted: Bytes, room: nat) {
    && s.sink.out <= wanted
    && match s.result
       case None => s.sink.out == wanted
       case Some(Range(e)) => e == WriteFailed && |wanted| > room
       case Some(e) => Outside(s, e)
  }

  lemma MatchingServes(s: PoolState, full: Run, wanted: Bytes, room: nat)
    requires Matches(s, Capped(full, room), room) && RangeServing.Honest(full, wanted)
    requires full.err != Some(LayoutMismatch) && full.err != Some(WriteFailed)
    ensures Served(s, wanted, room)
  {
    CappedHonest(full, wanted, room);
  }

  // Reading from the first chunk, up to one that ends after the request.
  lemma FirstServes(q: Request, chunks: seq<Bytes>, hi: nat, room: nat, run: PoolRun)
    requires ForFile(q, chunks) && hi <= |chunks| && (hi == |chunks| || q.end < Size(chunks[..hi]))
    requires Runs(q, 0, hi, 0, room, run) && Answered(After(q, 0, hi, 0, room, run), chunks[0..hi])
    ensures Served(After(q, 0, hi, 0, room, run), Requested(q, chunks), room)
  {
    var load := PoolRead(q, chunks, 0, hi, 0, room, run);
    assert chunks[..0] == [];
    PlacedWindowDelivers(q, load, chunks, 0, hi, 0, false);
    WindowErrors(q, load, 0, hi, 0, false);
    MatchingServes(After(q, 0, hi, 0, room, run), Window(q, load, 0, hi, 0, false), Requested(q, chunks), room);
  }

  // Reading an inferred window that is checked, of a file with the current
  // chunk size.
  lemma CheckedServes(q: Request, chunks: seq<Bytes>, lo: nat, hi: nat, room: nat, run: PoolRun)
    requires Supported(chunks, U, q.totalSize) && ForFile(q, chunks)
    requires 0 < lo < hi <= |chunks| && lo * U <= q.start && (hi < |chunks| ==> q.end < hi * U)
    requires Runs(q, lo, hi, lo * U, room, run)
    requires Answered(After(q, lo, hi, lo * U, room, run), chunks[lo..hi])
    ensures Served(After(q, lo, hi, lo * U, room, run), Requested(q, chunks), room)
  {
    var load := PoolRead(q, chunks, lo, hi, lo * U, room, run);
    UniformOffset(chunks, U, lo);
    if hi < |chunks| { UniformOffset(chunks, U, hi); }
    PlacedWindowDelivers(q, load, chunks, lo, hi, lo * U, true);
    CurrentLayoutPasses(chunks, q.totalSize);
    PassingWindow(q, load, chunks, lo, hi, true);
    WindowErrors(q, load, lo, hi, lo * U, true);
    var s, full := After(q, lo, hi, lo * U, room, run), Window(q, load, lo, hi, lo * U, true);
    MatchingServes(s, full, Requested(q, chunks), room);
  }

  // A window from the first chunk is not checked and needs no particular size.
  lemma UncheckedServes(q: Request, chunks: seq<Bytes>, s: int, hi: nat, room: nat, run: PoolRun)
    requires Supported(chunks, s, q.totalSize) && ForFile(q, chunks)
    requires hi <= |chunks| && (hi < |chunks| ==> q.end < hi * U)
    requires Runs(q, 0, hi, 0, room, run) && Answered(After(q, 0, hi, 0, room, run), chunks[0..hi])
    ensures Served(After(q, 0, hi, 0, room, run), Requested(q, chunks), room)
  {
    if hi < |chunks| {
      UniformOffset(chunks, s, hi);
      MulMonotone(hi, U, s);
    }
    FirstServes(q, chunks, hi, room, run);
  }

  // Reading an inferred window of a file with larger chunks writes nothing and
  // reports the mismatch, unless the load of its first chunk is what failed.
  lemma LegacyMismatches(q: Request, chunks: seq<Bytes>, s: int, lo: nat, hi: nat, room: nat, run: PoolRun)
    requires Supported(chunks, s, q.totalSize) && s > U && ForFile(q, chunks)
    requires 0 < lo < hi <= |chunks|
    requires Runs(q, lo, hi, lo * U, room, run)
    requires Answered(After(q, lo, hi, lo * U, room, run), chunks[lo..hi])
    ensures var t := After(q, lo, hi, lo * U, room, run);
      && t.sink.out == [] && t.sink.room == room && t.result.Some?
      && (t.result == Some(Range(LayoutMismatch)) || Served(t, Requested(q, chunks), room))
  {
    var load := PoolRead(q, chunks, lo, hi, lo * U, room, run);
    LegacyWindow(q, load, chunks, s, lo, hi);
  }

  // Does DownloadRangeToWriter replay the file after this window?
  predicate Replays(s: PoolState, offset: int) {
    s.result == Some(Range(LayoutMismatch)) && s.sink.out == [] && offset > 0
  }

  // A finished read of the inferred window lo..hi-1.
  ghost predicate WindowRead(q: Request, chunks: seq<Bytes>, lo: nat, hi: nat, room: nat, run: PoolRun)
    requires 0 <= q.start <= q.end
  {
    && InferredWindow(q) == (lo, hi) && lo <= hi <= |chunks|
    && Runs(q, lo, hi, lo * U, room, run) && Answered(After(q, lo, hi, lo * U, room, run), chunks[lo..hi])
  }

  // A finished read of the whole file.
  ghost predicate ReplayRead(q: Request, chunks: seq<Bytes>, room: nat, run: PoolRun) {
    Runs(q, 0, q.n, 0, room, run) && Answered(After(q, 0, q.n, 0, room, run), chunks)
  }

  // The window's pool loads no chunk that the request does not need.
  lemma OnlyNeededLoads(q: Request, chunks: seq<Bytes>, s: int, lo: nat, hi: nat, room: nat, run: PoolRun)
    requires Supported(chunks, s, q.totalSize) && ForFile(q, chunks)
    requires InferredWindow(q) == (lo, hi) && lo <= hi && Runs(q, lo, hi, lo * U, room, run)
    ensures var t := After(q, lo, hi, lo * U, room, run);
      forall i: nat | i in t.loaded || i in t.failed :: Needs(q, lo + i)
  {
    var c := RangeWindow(q, lo, hi, lo * U, room);
    OrderedJobs.InitInv(c);
    OrderedJobs.RunInv(c, OrderedJobs.Init(c), run);
    var lo', hi' := ServeInferred(q, [], [], chunks, s, room);
  }

  // For the current chunk size the window serves the request, without a replay.
  lemma PoolServesCurrent(q: Request, chunks: seq<Bytes>, room: nat, lo: nat, hi: nat, window: PoolRun)
    requires Supported(chunks, U, q.totalSize) && ForFile(q, chunks) && WindowRead(q, chunks, lo, hi, room, window)
    ensures var first := After(q, lo, hi, lo * U, room, window);
      !Replays(first, lo * U) && Served(first, Requested(q, chunks), room)
  {
    var lo', hi' := ServeInferred(q, [], [], chunks, U, room);
    if lo == 0 {
      UncheckedServes(q, chunks, U, hi, room, window);
    } else {
      CheckedServes(q, chunks, lo, hi, room, window);
    }
  }

  // DownloadRangeToWriter, with its loads running concurrently: on nil the
  // client has received exactly the requested bytes, otherwise a prefix of
  // them, whatever supported chunk size the file has; a layout mismatch never
  // reaches the caller. The window loads only chunks that the request needs.
  lemma PoolServesRange(q: Request, chunks: seq<Bytes>, s: int, room: nat, lo: nat, hi: nat,
                        window: PoolRun, replay: PoolRun)
    requires Supported(chunks, s, q.totalSize) && ForFile(q, chunks) && WindowRead(q, chunks, lo, hi, room, window)
    requires var first := After(q, lo, hi, lo * U, room, window);
      Replays(first, lo * U) ==> ReplayRead(q, chunks, first.sink.room, replay)
    ensures var first := After(q, lo, hi, lo * U, room, window);
      var last := if Replays(first, lo * U) then After(q, 0, q.n, 0, first.sink.room, replay) else first;
      && Served(last, Requested(q, chunks), room)
      && forall i: nat | i in first.loaded || i in first.failed :: Needs(q, lo + i)
  {
    OnlyNeededLoads(q, chunks, s, lo, hi, room, window);
    var lo', hi' := ServeInferred(q, [], [], chunks, s, room);
    if s == U {
      PoolServesCurrent(q, chunks, room, lo, hi, window);
    } else if lo == 0 {
      UncheckedServes(q, chunks, s, hi, room, window);
    } else {
      LegacyMismatches(q, chunks, s, lo, hi, room, window);
      if After(q, lo, hi, lo * U, room, window).result == Some(Range(LayoutMismatch)) {
        assert chunks[0..|chunks|] == chunks;
        FirstServes(q, chunks, q.n, room, replay);
      }
    }
  }
}
