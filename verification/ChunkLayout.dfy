// How a file is cut into chunks: the constants of
// internal/service/constants.go and the read loop of uploadChunks
// (internal/service/chunk_uploader.go).
module ChunkLayout {
  import opened Prelude

  const MAX_TELEGRAM_GET_FILE_BYTES := 20 * 1024 * 1024
  const UPLOAD_CHUNK_SAFETY_MARGIN := 64 * 1024
  const UPLOAD_CHUNK_SIZE := MAX_TELEGRAM_GET_FILE_BYTES - UPLOAD_CHUNK_SAFETY_MARGIN

  type Bytes = seq<byte>

  function Concat(chunks: seq<Bytes>): Bytes {
    if chunks == [] then [] else chunks[0] + Concat(chunks[1..])
  }

  // The chunks of a source: full ones and, if anything is left, a shorter one.
  function Split(source: Bytes, size: nat): seq<Bytes>
    requires size > 0
    decreases |source|
  {
    if source == [] then []
    else if |source| <= size then [source]
    else [source[..size]] + Split(source[size..], size)
  }

  // Every chunk but the last holds exactly size bytes, the last between 1 and
  // size.
  ghost predicate FullChunks(chunks: seq<Bytes>, size: nat) {
    && (forall i: nat | i < |chunks| :: 0 < |chunks[i]| <= size)
    && (forall i: nat | i + 1 < |chunks| :: |chunks[i]| == size)
  }

  lemma {:induction false} SplitLayout(source: Bytes, size: nat)
    requires size > 0
    ensures FullChunks(Split(source, size), size)
    ensures Concat(Split(source, size)) == source
    ensures source == [] <==> Split(source, size) == []
    decreases |source|
  {
    if |source| > size {
      SplitLayout(source[size..], size);
      var rest := Split(source[size..], size);
      var chunks := Split(source, size);
      assert chunks[1..] == rest;
      forall i: nat | i + 1 < |chunks| ensures |chunks[i]| == size {
        if i > 0 { assert chunks[i] == rest[i - 1]; }
      }
      assert source == source[..size] + source[size..];
    } else if source != [] {
      assert Split(source, size)[1..] == [];
    }
  }

  lemma SplitStep(source: Bytes, size: nat)
    requires size > 0 && source != []
    ensures var n := Min(size, |source|);
      Split(source, size) == [source[..n]] + Split(source[n..], size)
  {
    if |source| <= size {
      assert source[..|source|] == source && source[|source|..] == [];
    }
  }

  // The chunks read so far, and what is left of the source.
  ghost predicate Reading(all: seq<Bytes>, chunks: seq<Bytes>, left: Bytes, size: nat)
    requires size > 0
  {
    all == chunks + Split(left, size)
  }

  // One more chunk of the source is read, or there is none.
  lemma ReadStep(all: seq<Bytes>, chunks: seq<Bytes>, left: Bytes, size: nat)
    requires size > 0 && Reading(all, chunks, left, size)
    ensures chunks <= all
    ensures left == [] ==> all == chunks
    ensures left != [] ==>
      && chunks < all
      && var n := Min(size, |left|); Reading(all, chunks + [left[..n]], left[n..], size)
    ensures 0 < |left| < size ==> all == chunks + [left]
  {
    if left != [] {
      SplitStep(left, size);
      if |left| < size {
        assert left[..|left|] == left;
      }
    }
  }

  // A layout of full chunks is the only way to cut its bytes.
  lemma {:induction false} SplitOfConcat(chunks: seq<Bytes>, size: nat)
    requires size > 0 && FullChunks(chunks, size)
    ensures Split(Concat(chunks), size) == chunks
  {
    if |chunks| == 1 {
      assert chunks[1..] == [];
      assert Concat(chunks) == chunks[0];
    } else if |chunks| > 1 {
      var rest := chunks[1..];
      assert forall i: nat | i < |rest| :: rest[i] == chunks[i + 1];
      SplitOfConcat(rest, size);
      assert Concat(rest) == rest[0] + Concat(rest[1..]);
      assert Concat(chunks)[..size] == chunks[0];
      assert Concat(chunks)[size..] == Concat(rest);
    }
  }

  /******* The read loop *******/

  // int16 arithmetic.
  function Int16(x: int): int {
    (x + 32768) % 65536 - 32768
  }

  // The positions of the first n chunks, and the counter after them.
  ghost predicate Numbered(positions: seq<int>, n: nat, total: int) {
    && |positions| == n && total == Int16(n)
    && forall i: nat | i < n :: positions[i] == Int16(i)
  }

  lemma NumberNext(positions: seq<int>, n: nat, total: int)
    requires Numbered(positions, n, total)
    ensures Numbered(positions + [total], n + 1, Int16(total + 1))
  {
  }

  // The outcome of io.ReadFull.
  datatype ReadOutcome = Full | Partial | EndOfFile | Broken

  // A source that delivers data and then ends, or breaks after `intact` bytes.
  class SourceReader {
    const data: Bytes
    const intact: nat
    var pos: nat

    ghost predicate Valid()
      reads this
    {
      pos <= |data| && pos <= intact
    }

    constructor (data: Bytes, intact: nat)
      ensures Valid() && this.data == data && this.intact == intact && pos == 0
    {
      this.data, this.intact, pos := data, intact, 0;
    }

    // A source breaks only if it has not ended before.
    ghost predicate BreaksWithin(n: nat)
      reads this
    {
      intact < |data| && intact < pos + n
    }

    method ReadFull(n: nat) returns (buf: Bytes, outcome: ReadOutcome)
      requires Valid() && n > 0
      modifies this
      ensures Valid()
      ensures outcome.Broken? <==> old(BreaksWithin(n))
      ensures !outcome.Broken? ==>
        && buf == data[old(pos)..Min(old(pos) + n, |data|)] && pos == old(pos) + |buf|
        && (outcome.Full? <==> |buf| == n)
        && (outcome.EndOfFile? <==> |buf| == 0)
    {
      if intact < |data| && intact < pos + n {
        buf := data[pos..intact];
        pos := intact;
        return buf, Broken;
      }
      var end := Min(pos + n, |data|);
      buf := data[pos..end];
      outcome := if |buf| == n then Full else if |buf| == 0 then EndOfFile else Partial;
      pos := end;
    }
  }

  // What a reader has not delivered yet.
  ghost function Left(reader: SourceReader): Bytes
    requires reader.Valid()
    reads reader
  {
    reader.data[reader.pos..]
  }

  lemma Taken(data: Bytes, pos: nat, n: nat)
    requires pos + n <= |data|
    ensures data[pos..][..n] == data[pos..pos + n] && data[pos..][n..] == data[pos + n..]
  {
  }

  // How the read loop ended.
  datatype ReadEnd = Clean | CutShort | Cancelled

  // Reads the source chunk by chunk and hands each chunk to an upload under
  // its position; the caller's context, if it ends at all, is seen done once
  // doneAt chunks have been read. Only a clean end of the source makes the read
  // a success: a broken source or a cancellation leaves a prefix of its chunks.
  method ReadChunks(reader: SourceReader, doneAt: Option<nat>)
    returns (chunks: seq<Bytes>, positions: seq<int>, total: int, end: ReadEnd)
    requires reader.Valid() && reader.pos == 0
    modifies reader
    ensures var all := Split(reader.data, UPLOAD_CHUNK_SIZE);
      match end
      case Clean => chunks == all
      case CutShort => chunks < all && reader.intact < |reader.data|
      case Cancelled => chunks <= all && doneAt == Some(|chunks|)
    ensures doneAt.Some? ==> |chunks| <= doneAt.value
    ensures Numbered(positions, |chunks|, total)
  {
    chunks, positions, total := [], [], 0;
    ghost var all := Split(reader.data, UPLOAD_CHUNK_SIZE);
    assert Left(reader) == reader.data;
    while doneAt.None? || |chunks| < doneAt.value
      invariant reader.Valid()
      invariant Reading(all, chunks, Left(reader), UPLOAD_CHUNK_SIZE)
      invariant Numbered(positions, |chunks|, total)
      invariant doneAt.Some? ==> |chunks| <= doneAt.value
      decreases |reader.data| - reader.pos
    {
      ghost var before := Left(reader);
      var buf, outcome := reader.ReadFull(UPLOAD_CHUNK_SIZE);
      ReadStep(all, chunks, before, UPLOAD_CHUNK_SIZE);
      if outcome.Broken? {
        return chunks, positions, total, CutShort;
      }
      if outcome.EndOfFile? {
        return chunks, positions, total, Clean;
      }
      Taken(reader.data, reader.pos - |buf|, |buf|);
      NumberNext(positions, |chunks|, total);
      chunks := chunks + [buf];
      positions := positions + [total];
      total := Int16(total + 1);
      if !outcome.Full? {
        return chunks, positions, total, Clean;
      }
    }
    end := Cancelled;
  }

  // Positions ascend, and so identify the chunks in order, exactly for files
  // of at most 32768 chunks; the total count is right for one fewer.
  lemma Int16PositionsAscend(n: nat)
    ensures (forall i: nat, j: nat | i < j < n :: Int16(i) < Int16(j)) <==> n <= 32768
    ensures Int16(n) == n <==> n <= 32767
  {
    if n > 32768 {
      assert Int16(0) == 0 && Int16(32768) == -32768;
      var j: nat := 32768;
      assert 0 < j < n && !(Int16(0) < Int16(j));
    }
  }
}
