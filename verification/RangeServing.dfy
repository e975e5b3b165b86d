// Byte-range reads of internal/service/chunk_downloader.go: the window of
// chunks inferred from the fixed chunk size, the layout check that detects
// files uploaded with another chunk size, and the replay from the first chunk.
module RangeServing {
  import opened Prelude
  import opened ChunkLayout

  const U := UPLOAD_CHUNK_SIZE

  datatype Error = InvalidRange | NoChunks | LoadFailed | WriteFailed | LayoutMismatch

  // What an ordered run of chunk loads hands over: the bytes of chunk k, or the
  // news that the run ended before chunk k was handed over.
  type Loader = seq<Option<Bytes>>

  function Load(load: Loader, k: nat): Option<Bytes> {
    if k < |load| then load[k] else None
  }

  ghost predicate Genuine(load: Loader, chunks: seq<Bytes>) {
    forall k: nat | k < |chunks| && Load(load, k).Some? :: Load(load, k).value == chunks[k]
  }

  // inferRangeChunkWindow: (first chunk, last chunk, offset of the first, ok).
  function InferRangeChunkWindow(start: int, end: int, totalSize: int, chunksCount: nat): (int, int, int, bool)
    requires 0 <= start <= end
  {
    if chunksCount == 0 then (0, 0, 0, false)
    else if chunksCount == 1 then (0, 0, 0, true)
    else
      var last := chunksCount - 1;
      if totalSize < last * U then (0, last, 0, false)
      else
        var first := Min(start / U, last);
        (first, Min(end / U, last), first * U, true)
  }

  // checkChunkLayout: does a chunk contradict the fixed-size layout?
  predicate LayoutOk(last: bool, chunkStart: int, size: int, totalSize: int) {
    if !last then size == U
    else
      var chunkEnd := chunkStart + size;
      chunkEnd <= totalSize && totalSize - chunkEnd < UPLOAD_CHUNK_SAFETY_MARGIN
  }

  // The request: bytes start..end, inclusive, of a file recorded as totalSize
  // bytes long and stored in n chunks.
  datatype Request = Request(n: nat, start: int, end: int, totalSize: int)

  // Bytes out of b from position lo up to hi, clamped to b.
  function Clamp(x: int, n: nat): nat {
    if x < 0 then 0 else if x > n then n else x
  }

  function RangeOf(b: Bytes, lo: int, hi: int): Bytes {
    b[Clamp(lo, |b|)..Max(Clamp(lo, |b|), Clamp(hi, |b|))]
  }

  datatype Run = Run(out: Bytes, err: Option<Error>)

  // The bytes of one chunk that fall into the request.
  function Piece(q: Request, offset: int, data: Bytes): Bytes {
    var left := Max(q.start - offset, 0);
    var right := Min(q.end + 1 - offset, |data|);
    if left >= right then [] else data[left..right]
  }

  // What writing chunks k..hi-1 in order hands to a client that takes
  // everything, chunk k starting at offset: the bytes, and the error that ended
  // the run.
  function Window(q: Request, load: Loader, k: nat, hi: nat, offset: int, check: bool): Run
    decreases hi - k
  {
    if k >= hi then Run([], None)
    else if Load(load, k).None? then Run([], Some(LoadFailed))
    else
      var data := Load(load, k).value;
      if check && !LayoutOk(k + 1 == q.n, offset, |data|, q.totalSize) then Run([], Some(LayoutMismatch))
      else
        var rest := Window(q, load, k + 1, hi, offset + |data|, check);
        Run(Piece(q, offset, data) + rest.out, rest.err)
  }

  // The same for a client whose connection takes `room` bytes.
  function Capped(r: Run, room: nat): Run {
    if |r.out| > room then Run(r.out[..room], Some(WriteFailed)) else r
  }

  // A window that reports a layout mismatch before writing is replayed from the
  // first chunk.
  function ServeWindow(q: Request, first: Loader, second: Loader, lo: nat, hi: nat, offset: int, room: nat): Run {
    var r := Capped(Window(q, first, lo, hi, offset, offset > 0), room);
    if r.err == Some(LayoutMismatch) && r.out == [] && offset > 0 then
      Capped(Window(q, second, 0, q.n, 0, false), room)
    else r
  }

  // DownloadRangeToWriter; `first` and `second` are the loads of the window and
  // of the replay.
  function Serve(q: Request, first: Loader, second: Loader, room: nat): Run {
    if q.start < 0 || q.end < q.start || q.end >= q.totalSize then Run([], Some(InvalidRange))
    else if q.n == 0 then Run([], Some(NoChunks))
    else
      var (lo, hi, offset, ok) := InferRangeChunkWindow(q.start, q.end, q.totalSize, q.n);
      if ok then ServeWindow(q, first, second, lo, hi + 1, offset, room)
      else ServeWindow(q, first, second, 0, q.n, 0, room)
  }

  /******* The loops *******/

  // The response writer: it takes `room` bytes before the connection is gone.
  class Client {
    var received: Bytes
    var room: nat

    constructor (room: nat)
      ensures received == [] && this.room == room
    {
      received, this.room := [], room;
    }

    method Write(data: Bytes) returns (ok: bool)
      modifies this
      ensures ok <==> |data| <= old(room)
      ensures var n := Min(|data|, old(room)); received == old(received) + data[..n] && room == old(room) - n
    {
      var n := Min(|data|, room);
      ok := n == |data|;
      received, room := received + data[..n], room - n;
    }
  }

  // The handler of one chunk whose layout is not in question.
  method WritePiece(q: Request, offset: int, data: Bytes, client: Client) returns (written: nat, ok: bool)
    modifies client
    ensures var piece := Piece(q, offset, data);
      && written == (if ok then |piece| else 0)
      && (ok <==> |piece| <= old(client.room))
      && client.received == old(client.received) + (if ok then piece else piece[..old(client.room)])
      && client.room == old(client.room) - Min(|piece|, old(client.room))
  {
    var left := Max(q.start - offset, 0);
    var right := Min(q.end + 1 - offset, |data|);
    if left >= right {
      return 0, true;
    }
    var piece := data[left..right];
    assert piece == Piece(q, offset, data);
    ok := client.Write(piece);
    assert piece[..|piece|] == piece;
    written := if ok then right - left else 0;
  }

  // `done` has been handed out, and the window from chunk k on is still to come.
  ghost predicate Ahead(q: Request, load: Loader, k: nat, hi: nat, offset: int, check: bool, done: Bytes, full: Run) {
    var rest := Window(q, load, k, hi, offset, check);
    full == Run(done + rest.out, rest.err)
  }

  // How the run ends if it ends before or at chunk k, whose window has got that
  // far and whose client takes `room` more bytes.
  function EndAt(q: Request, load: Loader, k: nat, hi: nat, offset: int, check: bool, done: Bytes, room: nat)
    : Option<Run>
  {
    if k >= hi then Some(Run(done, None))
    else if Load(load, k).None? then Some(Run(done, Some(LoadFailed)))
    else
      var data := Load(load, k).value;
      var piece := Piece(q, offset, data);
      if check && !LayoutOk(k + 1 == q.n, offset, |data|, q.totalSize) then Some(Run(done, Some(LayoutMismatch)))
      else if room < |piece| then Some(Run(done + piece[..room], Some(WriteFailed)))
      else None
  }

  lemma GoesAhead(q: Request, load: Loader, k: nat, hi: nat, offset: int, check: bool, done: Bytes, full: Run,
                  room: nat)
    requires Ahead(q, load, k, hi, offset, check, done, full)
    ensures match EndAt(q, load, k, hi, offset, check, done, room)
      case Some(r) => Capped(full, |done| + room) == r
      case None =>
        var data := Load(load, k).value;
        Ahead(q, load, k + 1, hi, offset + |data|, check, done + Piece(q, offset, data), full)
  {
    Nothing(done);
    if k < hi && Load(load, k).Some? {
      var data := Load(load, k).value;
      var piece, rest := Piece(q, offset, data), Window(q, load, k + 1, hi, offset + |data|, check);
      Appended(done, piece, rest.out);
      if room < |piece| {
        assert ((done + piece) + rest.out)[..|done| + room] == done + piece[..room];
      }
    }
  }

  // A replay after a mismatch with written == 0 repeats nothing: the count is
  // exact unless the connection broke.
  method WriteRangeWindow(q: Request, load: Loader, lo: nat, hi: nat, offset0: int, client: Client)
    returns (written: nat, err: Option<Error>)
    requires lo <= hi
    modifies client
    ensures var r := Capped(Window(q, load, lo, hi, offset0, offset0 > 0), old(client.room));
      && client.received == old(client.received) + r.out && err == r.err
      && client.room == old(client.room) - |r.out|
      && (err != Some(WriteFailed) ==> written == |r.out|)
  {
    var checkLayout := offset0 > 0;
    var offset := offset0;
    written, err := 0, None;
    ghost var full := Window(q, load, lo, hi, offset0, checkLayout);
    ghost var done: Bytes := [];
    Nothing(client.received);
    Nothing(full.out);
    var k := lo;
    while k < hi
      invariant lo <= k <= hi
      invariant client.received == old(client.received) + done
      invariant client.room == old(client.room) - |done| && written == |done|
      invariant err.None?
      invariant Ahead(q, load, k, hi, offset, checkLayout, done, full)
    {
      GoesAhead(q, load, k, hi, offset, checkLayout, done, full, client.room);
      if Load(load, k).None? {
        return written, Some(LoadFailed);
      }
      var data := Load(load, k).value;
      if checkLayout && !LayoutOk(k + 1 == q.n, offset, |data|, q.totalSize) {
        return written, Some(LayoutMismatch);
      }
      ghost var piece := Piece(q, offset, data);
      ghost var part := if client.room < |piece| then piece[..client.room] else piece;
      Appended(old(client.received), done, part);
      var more, ok := WritePiece(q, offset, data, client);
      if !ok {
        return written, Some(WriteFailed);
      }
      written := written + more;
      done := done + piece;
      k, offset := k + 1, offset + |data|;
    }
    GoesAhead(q, load, k, hi, offset, checkLayout, done, full, client.room);
  }

  lemma Nothing(a: Bytes)
    ensures a + [] == a && [] + a == a
  {
  }

  lemma Appended(a: Bytes, b: Bytes, c: Bytes)
    ensures a + (b + c) == (a + b) + c
  {
  }

  method WriteOrReplay(q: Request, first: Loader, second: Loader, lo: nat, hi: nat, offset: int, client: Client)
    returns (err: Option<Error>)
    requires lo <= hi
    modifies client
    ensures var r := ServeWindow(q, first, second, lo, hi, offset, old(client.room));
      client.received == old(client.received) + r.out && err == r.err
  {
    var written;
    written, err := WriteRangeWindow(q, first, lo, hi, offset, client);
    if err == Some(LayoutMismatch) && written == 0 && offset > 0 {
      Nothing(old(client.received));
      var again;
      again, err := WriteRangeWindow(q, second, 0, q.n, 0, client);
    }
  }

  method DownloadRangeToWriter(q: Request, first: Loader, second: Loader, client: Client) returns (err: Option<Error>)
    modifies client
    ensures var r := Serve(q, first, second, old(client.room));
      client.received == old(client.received) + r.out && err == r.err
  {
    Nothing(client.received);
    if q.start < 0 || q.end < q.start || q.end >= q.totalSize {
      return Some(InvalidRange);
    }
    if q.n == 0 {
      return Some(NoChunks);
    }
    var lo, hi, offset := 0, q.n, 0;
    var (startIdx, endIdx, inferredOffset, ok) := InferRangeChunkWindow(q.start, q.end, q.totalSize, q.n);
    if ok {
      lo, hi, offset := startIdx, endIdx + 1, inferredOffset;
    }
    err := WriteOrReplay(q, first, second, lo, hi, offset, client);
  }

  /******* What a range read delivers *******/

  lemma SliceOfConcat(a: Bytes, b: Bytes, l: nat, h: nat)
    requires l <= h <= |a| + |b|
    ensures (a + b)[l..h] == a[Min(l, |a|)..Min(h, |a|)] + b[Max(l - |a|, 0)..Max(h - |a|, 0)]
  {
  }

  lemma ClampParts(m: nat, n: nat, lo: int, hi: int)
    ensures var l, h := Clamp(lo, m + n), Max(Clamp(lo, m + n), Clamp(hi, m + n));
      && Min(l, m) == Clamp(lo, m) && Min(h, m) == Max(Clamp(lo, m), Clamp(hi, m))
      && Max(l - m, 0) == Clamp(lo - m, n) && Max(h - m, 0) == Max(Clamp(lo - m, n), Clamp(hi - m, n))
  {
  }

  lemma RangeOfConcat(a: Bytes, b: Bytes, lo: int, hi: int)
    ensures RangeOf(a + b, lo, hi) == RangeOf(a, lo, hi) + RangeOf(b, lo - |a|, hi - |a|)
  {
    var n := |a + b|;
    ClampParts(|a|, |b|, lo, hi);
    SliceOfConcat(a, b, Clamp(lo, n), Max(Clamp(lo, n), Clamp(hi, n)));
  }

  lemma PieceIsRange(q: Request, offset: int, data: Bytes)
    ensures Piece(q, offset, data) == RangeOf(data, q.start - offset, q.end + 1 - offset)
  {
  }

  // The part of the request that lies in chunks placed at offset.
  function Wanted(q: Request, chunks: seq<Bytes>, offset: int): Bytes {
    RangeOf(Concat(chunks), q.start - offset, q.end + 1 - offset)
  }

  // The requested bytes, clipped to the real size.
  function Requested(q: Request, chunks: seq<Bytes>): Bytes {
    RangeOf(Concat(chunks), q.start, q.end + 1)
  }

  lemma WantedStep(q: Request, chunks: seq<Bytes>, k: nat, hi: nat, offset: int)
    requires k < hi <= |chunks|
    ensures Wanted(q, chunks[k..hi], offset)
         == Piece(q, offset, chunks[k]) + Wanted(q, chunks[k + 1..hi], offset + |chunks[k]|)
  {
    assert chunks[k..hi][0] == chunks[k] && chunks[k..hi][1..] == chunks[k + 1..hi];
    RangeOfConcat(chunks[k], Concat(chunks[k + 1..hi]), q.start - offset, q.end + 1 - offset);
    PieceIsRange(q, offset, chunks[k]);
  }

  // A run hands over a prefix of what is wanted, and all of it unless it
  // reports an error.
  ghost predicate Honest(r: Run, wanted: Bytes) {
    r.out <= wanted && (r.err.None? ==> r.out == wanted)
  }

  lemma HonestStep(rest: Run, piece: Bytes, later: Bytes)
    requires Honest(rest, later)
    ensures Honest(Run(piece + rest.out, rest.err), piece + later)
  {
  }

  lemma CappedHonest(r: Run, wanted: Bytes, room: nat)
    requires Honest(r, wanted)
    ensures Honest(Capped(r, room), wanted)
  {
  }

  // For genuine loads, a window delivers the requested bytes that lie in it.
  lemma {:induction false} WindowDelivers(q: Request, load: Loader, chunks: seq<Bytes>, k: nat, hi: nat, offset: int,
                                          check: bool)
    requires Genuine(load, chunks) && k <= hi <= |chunks|
    ensures Honest(Window(q, load, k, hi, offset, check), Wanted(q, chunks[k..hi], offset))
    decreases hi - k
  {
    if k < hi && Load(load, k).Some? {
      var data := chunks[k];
      WindowDelivers(q, load, chunks, k + 1, hi, offset + |data|, check);
      WantedStep(q, chunks, k, hi, offset);
      HonestStep(Window(q, load, k + 1, hi, offset + |data|, check),
                 Piece(q, offset, data), Wanted(q, chunks[k + 1..hi], offset + |data|));
    } else if k == hi {
      assert chunks[k..hi] == [];
    }
  }

  function Size(chunks: seq<Bytes>): nat {
    |Concat(chunks)|
  }

  lemma {:induction false} ConcatAppend(a: seq<Bytes>, b: seq<Bytes>)
    ensures Concat(a + b) == Concat(a) + Concat(b)
  {
    if a == [] {
      assert a + b == b;
    } else {
      assert (a + b)[1..] == a[1..] + b;
      ConcatAppend(a[1..], b);
    }
  }

  // Non-final chunks share the size s; nothing is said about the last one.
  ghost predicate Uniform(chunks: seq<Bytes>, s: int) {
    forall k: nat | k + 1 < |chunks| :: |chunks[k]| == s
  }

  lemma {:induction false} UniformOffset(chunks: seq<Bytes>, s: int, k: nat)
    requires Uniform(chunks, s) && k < |chunks|
    ensures Size(chunks[..k]) == k * s
  {
    if k > 0 {
      UniformOffset(chunks, s, k - 1);
      assert chunks[..k] == chunks[..k - 1] + [chunks[k - 1]];
      ConcatAppend(chunks[..k - 1], [chunks[k - 1]]);
      assert Concat([chunks[k - 1]]) == chunks[k - 1];
      assert (k - 1) * s + s == k * s;
    }
  }

  // The layouts the downloader serves: the current chunk size, or a larger one
  // by at least the safety margin; the recorded size overshoots the real one by
  // less than the margin.
  ghost predicate Supported(chunks: seq<Bytes>, s: int, totalSize: int) {
    && chunks != []
    && Uniform(chunks, s)
    && (s == U || s >= U + UPLOAD_CHUNK_SAFETY_MARGIN)
    && Size(chunks) <= totalSize < Size(chunks) + UPLOAD_CHUNK_SAFETY_MARGIN
  }

  ghost predicate ForFile(q: Request, chunks: seq<Bytes>) {
    q.n == |chunks| && 0 <= q.start <= q.end < q.totalSize
  }

  lemma SplitAtLast(chunks: seq<Bytes>, s: int)
    requires chunks != [] && Uniform(chunks, s)
    ensures Size(chunks) == (|chunks| - 1) * s + |chunks[|chunks| - 1]|
  {
    var n := |chunks|;
    UniformOffset(chunks, s, n - 1);
    assert chunks == chunks[..n - 1] + [chunks[n - 1]];
    ConcatAppend(chunks[..n - 1], [chunks[n - 1]]);
    assert Concat([chunks[n - 1]]) == chunks[n - 1];
  }

  // Where byte x lies, if chunks have the current size and chunk `last` is the
  // last one.
  lemma IndexOfByte(x: int, last: nat)
    requires x >= 0
    ensures var i := Min(x / U, last);
      0 <= i <= last && i * U <= x && (i < last ==> x < (i + 1) * U)
  {
  }

  lemma IndexMonotone(x: int, y: int, last: nat)
    requires 0 <= x <= y
    ensures Min(x / U, last) <= Min(y / U, last)
  {
  }

  // A read of the request needs chunk k: if chunks have the current size, some
  // requested byte lies in it, or it is the last one and all the rest does.
  ghost predicate Needs(q: Request, k: nat) {
    k < q.n && k * U <= q.end && (q.start < (k + 1) * U || k == q.n - 1)
  }

  lemma NeededIndex(q: Request, k: nat)
    requires q.n > 0 && 0 <= q.start <= q.end
    ensures Needs(q, k) <==> Min(q.start / U, q.n - 1) <= k <= Min(q.end / U, q.n - 1)
  {
    assert k * U <= q.end <==> k <= q.end / U;
    assert q.start < (k + 1) * U <==> q.start / U <= k;
  }

  // The window always is inferred for these layouts. It is exactly the chunks
  // the read needs, and covers the request.
  lemma WindowIsInferred(q: Request, chunks: seq<Bytes>, s: int)
    requires Supported(chunks, s, q.totalSize) && ForFile(q, chunks)
    ensures var (lo, hi, offset, ok) := InferRangeChunkWindow(q.start, q.end, q.totalSize, q.n);
      && ok && 0 <= lo <= hi < q.n && offset == lo * U && lo * U <= q.start
      && (hi + 1 < q.n ==> q.end < (hi + 1) * U)
      && (forall k: nat :: lo <= k <= hi <==> Needs(q, k))
  {
    var last := q.n - 1;
    assert last * U <= q.totalSize by {
      SplitAtLast(chunks, s);
      MulMonotone(last, U, s);
    }
    IndexOfByte(q.start, last);
    IndexOfByte(q.end, last);
    IndexMonotone(q.start, q.end, last);
    forall k: nat ensures Min(q.start / U, last) <= k <= Min(q.end / U, last) <==> Needs(q, k) {
      NeededIndex(q, k);
    }
  }

  lemma MulMonotone(k: int, a: int, b: int)
    requires k >= 0 && a <= b
    ensures k * a <= k * b
  {
  }

  lemma RangeOfMiddle(before: Bytes, window: Bytes, after: Bytes, lo: int, hi: int)
    requires |before| <= lo
    requires after == [] || hi <= |before| + |window|
    ensures RangeOf((before + window) + after, lo, hi) == RangeOf(window, lo - |before|, hi - |before|)
  {
    RangeOfConcat(before + window, after, lo, hi);
    RangeOfConcat(before, window, lo, hi);
  }

  // Nothing of the request lies outside a window that starts at or before it
  // and ends after it.
  lemma WindowCovers(before: seq<Bytes>, window: seq<Bytes>, after: seq<Bytes>, start: int, end: int)
    requires Size(before) <= start
    requires after == [] || end < Size(before + window)
    ensures RangeOf(Concat(window), start - Size(before), end + 1 - Size(before))
         == RangeOf(Concat(before + window + after), start, end + 1)
  {
    ConcatAppend(before + window, after);
    ConcatAppend(before, window);
    RangeOfMiddle(Concat(before), Concat(window), Concat(after), start, end + 1);
  }

  lemma ThreeParts(chunks: seq<Bytes>, lo: nat, hi: nat)
    requires lo <= hi <= |chunks|
    ensures chunks[..lo] + chunks[lo..hi] == chunks[..hi]
    ensures chunks[..lo] + chunks[lo..hi] + chunks[hi..] == chunks
  {
  }

  lemma PlacedWindowWants(q: Request, chunks: seq<Bytes>, lo: nat, hi: nat, offset: nat)
    requires lo <= hi <= |chunks| && offset == Size(chunks[..lo]) <= q.start
    requires hi < |chunks| ==> q.end < Size(chunks[..hi])
    ensures Wanted(q, chunks[lo..hi], offset) == Requested(q, chunks)
  {
    ThreeParts(chunks, lo, hi);
    WindowCovers(chunks[..lo], chunks[lo..hi], chunks[hi..], q.start, q.end);
  }

  // What a window that starts at its real offset delivers.
  lemma PlacedWindowDelivers(q: Request, load: Loader, chunks: seq<Bytes>, lo: nat, hi: nat, offset: nat, check: bool)
    requires Genuine(load, chunks) && lo <= hi <= |chunks|
    requires offset == Size(chunks[..lo]) <= q.start
    requires hi < |chunks| ==> q.end < Size(chunks[..hi])
    ensures Honest(Window(q, load, lo, hi, offset, check), Requested(q, chunks))
  {
    WindowDelivers(q, load, chunks, lo, hi, offset, check);
    PlacedWindowWants(q, chunks, lo, hi, offset);
  }

  // The first chunk of an inferred window contradicts a legacy layout.
  lemma LegacyChunkContradicts(chunks: seq<Bytes>, s: int, totalSize: int, k: nat)
    requires Supported(chunks, s, totalSize) && s > U && 0 < k < |chunks|
    ensures !LayoutOk(k + 1 == |chunks|, k * U, |chunks[k]|, totalSize)
  {
    SplitAtLast(chunks, s);
    MulMonotone(k, U + UPLOAD_CHUNK_SAFETY_MARGIN, s);
  }

  lemma LegacyWindow(q: Request, load: Loader, chunks: seq<Bytes>, s: int, lo: nat, hi: nat)
    requires Supported(chunks, s, q.totalSize) && s > U && ForFile(q, chunks) && Genuine(load, chunks)
    requires 0 < lo < hi <= |chunks|
    ensures Window(q, load, lo, hi, lo * U, true)
         == Run([], Some(if Load(load, lo).Some? then LayoutMismatch else LoadFailed))
  {
    LegacyChunkContradicts(chunks, s, q.totalSize, lo);
  }

  // A legacy layout is always detected before the first byte is written.
  lemma LegacyLayoutDetected(q: Request, load: Loader, chunks: seq<Bytes>, s: int, lo: int, hi: int, offset: int)
    requires Supported(chunks, s, q.totalSize) && s > U && ForFile(q, chunks) && Genuine(load, chunks)
    requires InferRangeChunkWindow(q.start, q.end, q.totalSize, q.n) == (lo, hi, offset, true) && offset > 0
    ensures 0 < lo <= hi < q.n
    ensures Window(q, load, lo, hi + 1, offset, true)
         == Run([], Some(if Load(load, lo).Some? then LayoutMismatch else LoadFailed))
  {
    WindowIsInferred(q, chunks, s);
    LegacyWindow(q, load, chunks, s, lo, hi + 1);
  }

  ghost predicate AllPass(chunks: seq<Bytes>, totalSize: int) {
    forall k: nat | k < |chunks| :: LayoutOk(k + 1 == |chunks|, k * U, |chunks[k]|, totalSize)
  }

  lemma CurrentLayoutPasses(chunks: seq<Bytes>, totalSize: int)
    requires Supported(chunks, U, totalSize)
    ensures AllPass(chunks, totalSize)
  {
    SplitAtLast(chunks, U);
  }

  // Under the current chunk size no window contradicts the layout.
  lemma {:induction false} PassingWindow(q: Request, load: Loader, chunks: seq<Bytes>, k: nat, hi: nat, check: bool)
    requires AllPass(chunks, q.totalSize) && Uniform(chunks, U) && q.n == |chunks| && Genuine(load, chunks)
    requires k <= hi <= |chunks|
    ensures Window(q, load, k, hi, k * U, check).err != Some(LayoutMismatch)
    decreases hi - k
  {
    if k < hi && Load(load, k).Some? && k + 1 < |chunks| {
      assert k * U + |chunks[k]| == (k + 1) * U;
      PassingWindow(q, load, chunks, k + 1, hi, check);
    }
  }

  // The load of a chunk that the read needs fails.
  ghost predicate NeededFails(q: Request, load: Loader) {
    exists k: nat :: Needs(q, k) && Load(load, k).None?
  }

  // The load of some chunk lo..hi-1 fails.
  ghost predicate FailsIn(load: Loader, lo: int, hi: int) {
    exists i: nat :: lo <= i < hi && Load(load, i).None?
  }

  // A window ends well, with a load error only if one of its loads failed, or,
  // if checked, with a layout mismatch.
  lemma {:induction false} WindowErrors(q: Request, load: Loader, k: nat, hi: nat, offset: int, check: bool)
    ensures var e := Window(q, load, k, hi, offset, check).err;
      || e.None?
      || (e == Some(LoadFailed) && FailsIn(load, k, hi))
      || (check && e == Some(LayoutMismatch))
    decreases hi - k
  {
    if k < hi && Load(load, k).Some? {
      WindowErrors(q, load, k + 1, hi, offset + |Load(load, k).value|, check);
    }
  }

  // What a range read owes a client that takes `room` bytes: the bytes it
  // wants, or a prefix of them and the news that a load or the connection failed.
  ghost predicate Reads(wanted: Bytes, failed: bool, room: nat, r: Run) {
    && Honest(r, wanted)
    && (r.err.None? || (r.err == Some(LoadFailed) && failed) || (r.err == Some(WriteFailed) && |wanted| > room))
  }

  ghost predicate Delivers(q: Request, chunks: seq<Bytes>, failed: bool, room: nat, r: Run) {
    Reads(Requested(q, chunks), failed, room, r)
  }

  lemma CappedReads(wanted: Bytes, failed: bool, r: Run, room: nat)
    requires Honest(r, wanted)
    requires r.err.None? || (r.err == Some(LoadFailed) && failed)
    ensures Reads(wanted, failed, room, Capped(r, room))
  {
    CappedHonest(r, wanted, room);
  }

  lemma LoadFailureReads(wanted: Bytes, room: nat)
    ensures Reads(wanted, true, room, Capped(Run([], Some(LoadFailed)), room))
  {
  }

  // Reading from the first chunk accumulates real sizes: correct for any layout.
  lemma FromFirstChunk(q: Request, load: Loader, chunks: seq<Bytes>, hi: nat, room: nat)
    requires Genuine(load, chunks) && ForFile(q, chunks) && hi <= |chunks|
    requires hi == |chunks| || q.end < Size(chunks[..hi])
    ensures Delivers(q, chunks, FailsIn(load, 0, hi), room, Capped(Window(q, load, 0, hi, 0, false), room))
  {
    assert chunks[..0] == [];
    PlacedWindowDelivers(q, load, chunks, 0, hi, 0, false);
    WindowErrors(q, load, 0, hi, 0, false);
    CappedReads(Requested(q, chunks), FailsIn(load, 0, hi), Window(q, load, 0, hi, 0, false), room);
  }

  lemma CurrentWindowDelivers(q: Request, load: Loader, chunks: seq<Bytes>, lo: nat, hi: nat, room: nat)
    requires Supported(chunks, U, q.totalSize) && ForFile(q, chunks) && Genuine(load, chunks)
    requires lo < hi <= |chunks| && lo * U <= q.start && (hi < |chunks| ==> q.end < hi * U)
    ensures Delivers(q, chunks, FailsIn(load, lo, hi), room, Capped(Window(q, load, lo, hi, lo * U, true), room))
  {
    UniformOffset(chunks, U, lo);
    if hi < |chunks| { UniformOffset(chunks, U, hi); }
    PlacedWindowDelivers(q, load, chunks, lo, hi, lo * U, true);
    CurrentLayoutPasses(chunks, q.totalSize);
    PassingWindow(q, load, chunks, lo, hi, true);
    WindowErrors(q, load, lo, hi, lo * U, true);
    CappedReads(Requested(q, chunks), FailsIn(load, lo, hi), Window(q, load, lo, hi, lo * U, true), room);
  }

  // The inferred window, from its first chunk to the one after its last.
  function InferredWindow(q: Request): (int, int)
    requires 0 <= q.start <= q.end
  {
    var (lo, hi, _, _) := InferRangeChunkWindow(q.start, q.end, q.totalSize, q.n);
    (lo, hi + 1)
  }

  // Serve, for a request whose window is inferred.
  lemma ServeInferred(q: Request, first: Loader, second: Loader, chunks: seq<Bytes>, s: int, room: nat)
    returns (lo: nat, hi: nat)
    requires Supported(chunks, s, q.totalSize) && ForFile(q, chunks)
    ensures InferredWindow(q) == (lo, hi)
    ensures lo < hi <= q.n && lo * U <= q.start && (hi < q.n ==> q.end < hi * U)
    ensures forall k: nat :: lo <= k < hi <==> Needs(q, k)
    ensures Serve(q, first, second, room) == ServeWindow(q, first, second, lo, hi, lo * U, room)
  {
    WindowIsInferred(q, chunks, s);
    var (first', last', offset, ok) := InferRangeChunkWindow(q.start, q.end, q.totalSize, q.n);
    lo, hi := first', last' + 1;
    assert Serve(q, first, second, room) == ServeWindow(q, first, second, lo, hi, offset, room);
  }

  // A window from the first chunk, which is not checked, ends after the
  // request whatever the chunk size.
  lemma UncheckedWindowDelivers(q: Request, load: Loader, chunks: seq<Bytes>, s: int, hi: nat, room: nat)
    requires Supported(chunks, s, q.totalSize) && ForFile(q, chunks) && Genuine(load, chunks)
    requires hi <= |chunks| && (hi < |chunks| ==> q.end < hi * U)
    ensures Delivers(q, chunks, FailsIn(load, 0, hi), room, Capped(Window(q, load, 0, hi, 0, false), room))
  {
    if hi < |chunks| {
      UniformOffset(chunks, s, hi);
      MulMonotone(hi, U, s);
    }
    FromFirstChunk(q, load, chunks, hi, room);
  }

  // A load that a read of chunks lo..hi-1 depends on fails: one of the window,
  // or, if the layout makes it replay, one of all chunks.
  ghost predicate ReadFails(q: Request, first: Loader, second: Loader, lo: int, hi: int, legacy: bool) {
    FailsIn(first, lo, hi) || (legacy && lo > 0 && FailsIn(second, 0, q.n))
  }

  lemma MoreExcuses(wanted: Bytes, failed: bool, excused: bool, room: nat, r: Run)
    requires Reads(wanted, failed, room, r) && (failed ==> excused)
    ensures Reads(wanted, excused, room, r)
  {
  }

  lemma FirstReadDelivers(q: Request, first: Loader, second: Loader, chunks: seq<Bytes>, s: int,
                          lo: nat, hi: nat, room: nat)
    requires Supported(chunks, s, q.totalSize) && ForFile(q, chunks) && Genuine(first, chunks)
    requires lo == 0 && hi <= q.n && (hi < q.n ==> q.end < hi * U)
    ensures Delivers(q, chunks, FailsIn(first, lo, hi), room, ServeWindow(q, first, second, lo, hi, lo * U, room))
  {
    UncheckedWindowDelivers(q, first, chunks, s, hi, room);
  }

  lemma LegacyReadDelivers(q: Request, first: Loader, second: Loader, chunks: seq<Bytes>, s: int,
                           lo: nat, hi: nat, room: nat)
    requires Supported(chunks, s, q.totalSize) && s > U && ForFile(q, chunks)
    requires Genuine(first, chunks) && Genuine(second, chunks)
    requires 0 < lo < hi <= q.n
    ensures Delivers(q, chunks, FailsIn(first, lo, hi) || FailsIn(second, 0, q.n), room,
                     ServeWindow(q, first, second, lo, hi, lo * U, room))
  {
    LegacyWindow(q, first, chunks, s, lo, hi);
    if Load(first, lo).None? {
      assert FailsIn(first, lo, hi);
      LoadFailureReads(Requested(q, chunks), room);
    } else {
      UncheckedWindowDelivers(q, second, chunks, s, q.n, room);
    }
  }

  lemma CurrentReadDelivers(q: Request, first: Loader, second: Loader, chunks: seq<Bytes>,
                            lo: nat, hi: nat, room: nat)
    requires Supported(chunks, U, q.totalSize) && ForFile(q, chunks) && Genuine(first, chunks)
    requires 0 < lo < hi <= q.n && lo * U <= q.start && (hi < q.n ==> q.end < hi * U)
    ensures Delivers(q, chunks, FailsIn(first, lo, hi), room, ServeWindow(q, first, second, lo, hi, lo * U, room))
  {
    CurrentWindowDelivers(q, first, chunks, lo, hi, room);
  }

  lemma ReadDelivers(q: Request, first: Loader, second: Loader, chunks: seq<Bytes>, s: int,
                     lo: nat, hi: nat, room: nat)
    requires Supported(chunks, s, q.totalSize) && ForFile(q, chunks)
    requires Genuine(first, chunks) && Genuine(second, chunks)
    requires lo < hi <= q.n && lo * U <= q.start && (hi < q.n ==> q.end < hi * U)
    ensures Delivers(q, chunks, ReadFails(q, first, second, lo, hi, s > U), room,
                     ServeWindow(q, first, second, lo, hi, lo * U, room))
  {
    var wanted, r := Requested(q, chunks), ServeWindow(q, first, second, lo, hi, lo * U, room);
    var excused := ReadFails(q, first, second, lo, hi, s > U);
    if lo == 0 {
      FirstReadDelivers(q, first, second, chunks, s, lo, hi, room);
      MoreExcuses(wanted, FailsIn(first, lo, hi), excused, room, r);
    } else if s > U {
      LegacyReadDelivers(q, first, second, chunks, s, lo, hi, room);
      MoreExcuses(wanted, FailsIn(first, lo, hi) || FailsIn(second, 0, q.n), excused, room, r);
    } else {
      CurrentReadDelivers(q, first, second, chunks, lo, hi, room);
      MoreExcuses(wanted, FailsIn(first, lo, hi), excused, room, r);
    }
  }

  // The loads that excuse a read with a load error: that of a chunk it needs
  // or, for larger chunks, any of the replay, which happens only if the first
  // chunk is not among them.
  ghost predicate Excused(q: Request, first: Loader, second: Loader, s: int) {
    NeededFails(q, first) || (s > U && !Needs(q, 0) && FailsIn(second, 0, q.n))
  }

  lemma ExcusedByWindow(q: Request, first: Loader, second: Loader, lo: nat, hi: nat, s: int)
    requires forall k: nat :: lo <= k < hi <==> Needs(q, k)
    ensures ReadFails(q, first, second, lo, hi, s > U) ==> Excused(q, first, second, s)
  {
    if FailsIn(first, lo, hi) {
      var i: nat :| lo <= i < hi && Load(first, i).None?;
      assert Needs(q, i);
    } else if lo > 0 {
      assert !Needs(q, 0);
    }
  }

  // A range read of a supported file delivers exactly bytes start..end clipped
  // to the real size. It reports a load error, after a prefix of them, only if
  // the load of a chunk that it needs has failed, or one of the replay. It never
  // reports a layout mismatch.
  lemma RangeReadDelivers(q: Request, first: Loader, second: Loader, chunks: seq<Bytes>, s: int, room: nat)
    requires Supported(chunks, s, q.totalSize) && ForFile(q, chunks)
    requires Genuine(first, chunks) && Genuine(second, chunks)
    ensures Delivers(q, chunks, Excused(q, first, second, s), room, Serve(q, first, second, room))
  {
    var lo, hi := ServeInferred(q, first, second, chunks, s, room);
    ReadDelivers(q, first, second, chunks, s, lo, hi, room);
    ExcusedByWindow(q, first, second, lo, hi, s);
    MoreExcuses(Requested(q, chunks), ReadFails(q, first, second, lo, hi, s > U), Excused(q, first, second, s), room,
                Serve(q, first, second, room));
  }

  // A file recorded as too small for its number of chunks is read from the first
  // chunk, which is right whatever its layout.
  lemma SmallChunksAreServed(q: Request, first: Loader, second: Loader, chunks: seq<Bytes>, room: nat)
    requires ForFile(q, chunks) && Genuine(first, chunks) && 0 < q.n && q.totalSize < (q.n - 1) * U
    ensures Delivers(q, chunks, FailsIn(first, 0, q.n), room, Serve(q, first, second, room))
  {
    FromFirstChunk(q, first, chunks, q.n, room);
  }

  /******* Whatever the chunks hold *******/

  lemma {:induction false} WindowIsShort(q: Request, load: Loader, k: nat, hi: nat, offset: int, check: bool)
    ensures |Window(q, load, k, hi, offset, check).out| <= Max(q.end + 1 - Max(q.start, offset), 0)
    decreases hi - k
  {
    if k < hi && Load(load, k).Some? {
      WindowIsShort(q, load, k + 1, hi, offset + |Load(load, k).value|, check);
    }
  }

  lemma ServeWindowIsBounded(q: Request, first: Loader, second: Loader, lo: nat, hi: nat, offset: int, room: nat)
    ensures var r := ServeWindow(q, first, second, lo, hi, offset, room);
      && |r.out| <= Min(room, Max(q.end + 1 - q.start, 0))
      && r.err != Some(InvalidRange) && r.err != Some(NoChunks)
      && (r.err == Some(WriteFailed) ==> |r.out| == room)
      && (r.err == Some(LayoutMismatch) ==> r.out != [])
  {
    WindowIsShort(q, first, lo, hi, offset, offset > 0);
    WindowErrors(q, first, lo, hi, offset, offset > 0);
    WindowIsShort(q, second, 0, q.n, 0, false);
    WindowErrors(q, second, 0, q.n, 0, false);
  }

  // For any chunk sizes and any loads: a client is never sent more than it
  // asked for, so not even a replay repeats a byte; only a request outside the
  // recorded size is invalid; and a mismatch is reported only once bytes have
  // been sent.
  lemma ServeIsBounded(q: Request, first: Loader, second: Loader, room: nat)
    ensures var r := Serve(q, first, second, room);
      var valid := 0 <= q.start <= q.end < q.totalSize;
      && |r.out| <= Min(room, Max(q.end + 1 - q.start, 0))
      && (r.err == Some(InvalidRange) <==> !valid)
      && (r.err == Some(NoChunks) <==> valid && q.n == 0)
      && (r.err == Some(WriteFailed) ==> |r.out| == room)
      && (r.err == Some(InvalidRange) || r.err == Some(NoChunks) ==> r.out == [])
      && (r.err == Some(LayoutMismatch) ==> r.out != [])
  {
    if 0 <= q.start <= q.end < q.totalSize && q.n > 0 {
      var (lo, hi, offset, ok) := InferRangeChunkWindow(q.start, q.end, q.totalSize, q.n);
      ServeWindowIsBounded(q, first, second, if ok then lo else 0, if ok then hi + 1 else q.n,
                           if ok then offset else 0, room);
    }
  }

  // ExactFileSize: the size derived from the chunk count and the last chunk.
  function ExactFileSize(chunksCount: nat, lastChunk: Bytes): int
    requires chunksCount > 0
  {
    (chunksCount - 1) * U + |lastChunk|
  }

  // It is the real size exactly when the non-final chunks hold on average the
  // current chunk size; for a uniform file, when they have that size.
  lemma ExactFileSizeIff(chunks: seq<Bytes>, s: int)
    requires chunks != [] && Uniform(chunks, s)
    ensures ExactFileSize(|chunks|, chunks[|chunks| - 1]) == Size(chunks) <==> |chunks| == 1 || s == U
  {
    SplitAtLast(chunks, s);
    if |chunks| > 1 {
      SameProduct(|chunks| - 1, s, U);
    }
  }

  lemma SameProduct(k: int, a: int, b: int)
    requires k > 0
    ensures k * a == k * b <==> a == b
  {
    assert k * a - k * b == k * (a - b);
  }
}
