// Upload then download: what the components guarantee together for a file that
// was cut, uploaded, verified and committed by one Upload call and is read back
// as a whole or in ranges (internal/service/chunk_uploader.go and
// chunk_downloader.go).
module RoundTrip {
  import opened Prelude
  import opened ChunkLayout
  import opened RangeServing
  import ByteRange
  import ChunkVerifier
  import OrderedJobs
  import OrderedReads
  import UploadRun

  const MAX_CHUNKS := 32768   // the non-negative int16 positions

  function Upload(source: Bytes, parallelism: nat): UploadRun.Config {
    UploadRun.Config(Split(source, UPLOAD_CHUNK_SIZE), UPLOAD_CHUNK_SIZE, parallelism)
  }

  // A run of Upload on a source whose chunks int16 positions keep in order.
  ghost predicate UploadOf(source: Bytes, parallelism: nat, run: seq<UploadRun.Event>) {
    var c := Upload(source, parallelism);
    && source != [] && |c.chunks| <= MAX_CHUNKS && parallelism >= 1
    && UploadRun.Valid(c, UploadRun.Init(c), run)
  }

  // Its state once it has committed.
  ghost predicate Committed(source: Bytes, s: UploadRun.State) {
    exists parallelism: nat, run: seq<UploadRun.Event> ::
      && UploadOf(source, parallelism, run)
      && s == UploadRun.Exec(Upload(source, parallelism), UploadRun.Init(Upload(source, parallelism)), run)
      && s.committed.Some?
  }

  // Telegram keeps what it stores: a later load of a record's message that
  // succeeds returns what the record's verification downloaded.
  ghost predicate Keeps(s: UploadRun.State, i: nat, data: Bytes)
    requires s.committed.Some?
  {
    i < |s.committed.value| && s.committed.value[i] in s.v.evidence ==> data == s.v.evidence[s.committed.value[i]]
  }

  // The loads of records lo, lo + 1, ... by job.
  ghost predicate Loaded(s: UploadRun.State, lo: nat, loaded: map<nat, Bytes>)
    requires s.committed.Some?
  {
    forall i: nat | i in loaded :: Keeps(s, lo + i, loaded[i])
  }

  ghost predicate Reloads(s: UploadRun.State, load: Loader)
    requires s.committed.Some?
  {
    forall i: nat | Load(load, i).Some? :: Keeps(s, i, Load(load, i).value)
  }

  lemma UploadIsWellFormed(source: Bytes, parallelism: nat)
    requires parallelism >= 1
    ensures UploadRun.WellFormed(Upload(source, parallelism))
  {
    SplitLayout(source, UPLOAD_CHUNK_SIZE);
  }

  ghost predicate Holds(s: UploadRun.State, chunks: seq<Bytes>)
    requires s.committed.Some?
  {
    var records := s.committed.value;
    && |records| == |chunks|
    && forall i: nat | i < |records| :: records[i] in s.v.evidence && s.v.evidence[records[i]] == chunks[i]
  }

  // A commit stores the source: the records are those of positions 0..n-1 in
  // order, their contents make up the source, and they are laid out as range
  // reads expect.
  lemma CommitStores(source: Bytes, s: UploadRun.State) returns (chunks: seq<Bytes>)
    requires Committed(source, s)
    ensures 0 < |chunks| <= MAX_CHUNKS && Holds(s, chunks)
    ensures var records := s.committed.value;
      forall i: nat | i < |records| :: ChunkVerifier.Position(records[i]) == i
    ensures Concat(chunks) == source && Supported(chunks, U, |source|)
  {
    var parallelism: nat, run: seq<UploadRun.Event> :|
      && UploadOf(source, parallelism, run)
      && s == UploadRun.Exec(Upload(source, parallelism), UploadRun.Init(Upload(source, parallelism)), run)
      && s.committed.Some?;
    chunks := Split(source, UPLOAD_CHUNK_SIZE);
    UploadIsWellFormed(source, parallelism);
    UploadRun.CommitIsComplete(Upload(source, parallelism), run);
    SplitLayout(source, UPLOAD_CHUNK_SIZE);
  }

  lemma LoadedIsHonest(s: UploadRun.State, lo: nat, hi: nat, loaded: map<nat, Bytes>, chunks: seq<Bytes>)
    requires s.committed.Some? && Loaded(s, lo, loaded) && Holds(s, chunks) && lo <= hi <= |chunks|
    ensures OrderedReads.Honest(loaded, chunks[lo..hi])
  {
    forall i: nat | i in loaded && i < hi - lo ensures loaded[i] == chunks[lo..hi][i] {
      assert Keeps(s, lo + i, loaded[i]);
    }
  }

  lemma ReloadsAreGenuine(s: UploadRun.State, load: Loader, chunks: seq<Bytes>)
    requires s.committed.Some? && Reloads(s, load) && Holds(s, chunks)
    ensures Genuine(load, chunks)
  {
    forall k: nat | k < |chunks| && Load(load, k).Some? ensures Load(load, k).value == chunks[k] {
      assert Keeps(s, k, Load(load, k).value);
    }
  }

  // Downloading a committed file writes a prefix of the source while it runs,
  // and the whole source when it succeeds; it fails only if a load fails, the
  // caller cancels or the client takes less.
  lemma UploadThenDownload(source: Bytes, s: UploadRun.State, room: nat,
                           download: seq<OrderedJobs.Event<Bytes, OrderedReads.ReadError>>)
    requires Committed(source, s)
    requires var c := OrderedReads.WholeFile(s.committed.value, room);
      && OrderedJobs.Valid(c, OrderedJobs.Init(c), download)
      && Loaded(s, 0, OrderedJobs.Exec(c, OrderedJobs.Init(c), download).loaded)
    ensures var c := OrderedReads.WholeFile(s.committed.value, room);
      var t := OrderedJobs.Exec(c, OrderedJobs.Init(c), download);
      && t.sink.out <= source
      && (t.collector.Returned? ==> OrderedReads.Downloaded(t, source, room))
  {
    var chunks := CommitStores(source, s);
    var c := OrderedReads.WholeFile(s.committed.value, room);
    LoadedIsHonest(s, 0, |chunks|, OrderedJobs.Exec(c, OrderedJobs.Init(c), download).loaded, chunks);
    assert chunks[0..|chunks|] == chunks;
    OrderedReads.WholeFileDelivers(s.committed.value, chunks, room, download);
  }

  // The size derived from the last chunk is the source's length.
  lemma UploadThenExactSize(source: Bytes, s: UploadRun.State, data: Bytes)
    requires Committed(source, s)
    requires s.committed.value != [] ==> Keeps(s, |s.committed.value| - 1, data)
    ensures s.committed.value != []
    ensures ExactFileSize(|s.committed.value|, data) == |source|
  {
    var chunks := CommitStores(source, s);
    ExactFileSizeIff(chunks, U);
  }

  lemma InferredWindowPasses(q: Request, load: Loader, chunks: seq<Bytes>, lo: int, hi: int, offset: int)
    requires Supported(chunks, U, q.totalSize) && ForFile(q, chunks) && Genuine(load, chunks)
    requires InferRangeChunkWindow(q.start, q.end, q.totalSize, q.n) == (lo, hi, offset, true)
    ensures 0 <= lo <= hi
    ensures Window(q, load, lo, hi + 1, offset, true).err != Some(LayoutMismatch)
  {
    WindowIsInferred(q, chunks, U);
    CurrentLayoutPasses(chunks, q.totalSize);
    PassingWindow(q, load, chunks, lo, hi + 1, true);
  }

  lemma ServedByWindow(q: Request, first: Loader, second: Loader, chunks: seq<Bytes>, room: nat,
                       lo: int, hi: int, offset: int)
    requires Supported(chunks, U, q.totalSize) && ForFile(q, chunks) && Genuine(first, chunks)
    requires InferRangeChunkWindow(q.start, q.end, q.totalSize, q.n) == (lo, hi, offset, true)
    ensures 0 <= lo <= hi
    ensures Serve(q, first, second, room) == Capped(Window(q, first, lo, hi + 1, offset, offset > 0), room)
  {
    InferredWindowPasses(q, first, chunks, lo, hi, offset);
    assert Serve(q, first, second, room) == ServeWindow(q, first, second, lo, hi + 1, offset, room);
  }

  // For the current chunk size the replay is never needed.
  lemma NeverReplays(q: Request, first: Loader, second: Loader, chunks: seq<Bytes>, room: nat)
    requires Supported(chunks, U, q.totalSize) && ForFile(q, chunks) && Genuine(first, chunks)
    ensures Serve(q, first, second, room) == Serve(q, first, [], room)
  {
    WindowIsInferred(q, chunks, U);
    var (lo, hi, offset, ok) := InferRangeChunkWindow(q.start, q.end, q.totalSize, q.n);
    ServedByWindow(q, first, second, chunks, room, lo, hi, offset);
    ServedByWindow(q, first, [], chunks, room, lo, hi, offset);
  }

  // Every range header the handler accepts for a committed file is answered
  // with exactly source[start..end+1], from the inferred window alone; only a
  // failed load of a chunk it needs or a lost connection leaves a prefix of it.
  lemma UploadThenRange(source: Bytes, s: UploadRun.State, header: string, first: Loader, second: Loader, room: nat)
    requires Committed(source, s) && Reloads(s, first) && Reloads(s, second)
    requires ByteRange.ParseSingleByteRange(header, |source|).Some?
    ensures var (start, end) := ByteRange.ParseSingleByteRange(header, |source|).value;
      var q := Request(|s.committed.value|, start, end, |source|);
      0 <= start <= end < |source|
    ensures var (start, end) := ByteRange.ParseSingleByteRange(header, |source|).value;
      var q := Request(|s.committed.value|, start, end, |source|);
      && Reads(source[start..end + 1], NeededFails(q, first), room, Serve(q, first, second, room))
      && Serve(q, first, second, room) == Serve(q, first, [], room)
  {
    var chunks := CommitStores(source, s);
    var (start, end) := ByteRange.ParseSingleByteRange(header, |source|).value;
    var q := Request(|chunks|, start, end, |source|);
    ByteRange.AcceptedRangeIsInside(header, |source|);
    ReloadsAreGenuine(s, first, chunks);
    ReloadsAreGenuine(s, second, chunks);
    RangeReadDelivers(q, first, second, chunks, U, room);
    NeverReplays(q, first, second, chunks, room);
    assert Requested(q, chunks) == source[start..end + 1];
  }

  // A finished read of the window the committed file's range is inferred to
  // lie in, by the worker pool.
  ghost predicate PoolReadOf(s: UploadRun.State, q: Request, lo: nat, hi: nat, room: nat, run: OrderedReads.PoolRun)
    requires s.committed.Some? && 0 <= q.start <= q.end
  {
    && InferredWindow(q) == (lo, hi) && lo <= hi <= |s.committed.value|
    && OrderedReads.Runs(q, lo, hi, lo * U, room, run)
    && var t := OrderedReads.After(q, lo, hi, lo * U, room, run);
    && t.collector.Returned? && Loaded(s, lo, t.loaded)
    && forall i | i in t.failed :: !t.failed[i].Range?
  }

  // The same over any interleaving of the concurrent loads: on nil the client
  // of an accepted range request has received exactly source[start..end+1].
  lemma UploadThenPoolRange(source: Bytes, s: UploadRun.State, header: string, room: nat, lo: nat, hi: nat,
                            run: OrderedReads.PoolRun)
    requires Committed(source, s)
    requires ByteRange.ParseSingleByteRange(header, |source|).Some?
    requires var (start, end) := ByteRange.ParseSingleByteRange(header, |source|).value;
      0 <= start <= end && PoolReadOf(s, Request(|s.committed.value|, start, end, |source|), lo, hi, room, run)
    ensures var (start, end) := ByteRange.ParseSingleByteRange(header, |source|).value;
      var q := Request(|s.committed.value|, start, end, |source|);
      && 0 <= start <= end < |source|
      && OrderedReads.Served(OrderedReads.After(q, lo, hi, lo * U, room, run), source[start..end + 1], room)
  {
    var chunks := CommitStores(source, s);
    var (start, end) := ByteRange.ParseSingleByteRange(header, |source|).value;
    var q := Request(|chunks|, start, end, |source|);
    ByteRange.AcceptedRangeIsInside(header, |source|);
    LoadedIsHonest(s, lo, hi, OrderedReads.After(q, lo, hi, lo * U, room, run).loaded, chunks);
    OrderedReads.PoolServesCurrent(q, chunks, room, lo, hi, run);
    assert Requested(q, chunks) == source[start..end + 1];
  }
}
