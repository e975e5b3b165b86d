// The reading functions of internal/media/matroska.go as they consume their
// input: each is proved against the byte-string reader of Ebml.
module EbmlReader {
  import opened Prelude
  import opened ChunkLayout
  import opened Ebml

  // What a read returned and left over is what the specification says.
  ghost predicate Matches<T>(spec: Read<T>, r: Result<T, Error>, rest: Bytes) {
    match spec
    case Got(value, left) => r == Ok(value) && rest == left
    case Failed(e) => r == Err(e)
  }

  // The loop over the bits of the first byte.
  method FirstBit(first: byte) returns (w: nat)
    ensures w == VintLength(first)
  {
    var i := 0;
    while i < 8
      invariant 0 <= i <= 8
      invariant i > 0 ==> first < Marker(i)
    {
      if first / Marker(i + 1) % 2 != 0 {
        return i + 1;
      }
      i := i + 1;
    }
    return 0;
  }

  lemma SliceOfSlice(data: Bytes, start: nat, end: nat, i: nat, k: nat)
    requires start <= end <= |data| && i <= k <= end - start
    ensures data[start..end][i..k] == data[start + i..start + k] && data[start..end][k..] == data[start + k..end]
  {
    var s := data[start..end];
    assert |s[i..k]| == |data[start + i..start + k]|;
    assert forall j | 0 <= j < k - i :: s[i..k][j] == s[i + j] == data[start + i + j] == data[start + i..start + k][j];
  }

  lemma BigSnoc(bs: Bytes, b: byte)
    ensures Big(bs + [b]) == 256 * Big(bs) + b
  {
    assert (bs + [b])[..|bs|] == bs;
  }

  lemma OneMore(top: byte, tail: Bytes, b: byte)
    ensures Big([top] + (tail + [b])) == 256 * Big([top] + tail) + b
    ensures AllOnes(tail + [b]) <==> AllOnes(tail) && b == 255
  {
    BigSnoc([top] + tail, b);
    assert [top] + (tail + [b]) == ([top] + tail) + [b];
    assert (tail + [b])[|tail|] == b;
    assert forall i | 0 <= i < |tail| :: (tail + [b])[i] == tail[i];
  }

  // An input stream. A limited reader is the same stream with an earlier end.
  class Reader {
    const data: Bytes
    var pos: nat

    constructor (data: Bytes)
      ensures this.data == data && pos == 0
    {
      this.data, pos := data, 0;
    }

    ghost predicate Before(end: nat)
      reads this
    {
      pos <= end <= |data|
    }

    ghost function Rest(end: nat): Bytes
      requires Before(end)
      reads this
    {
      data[pos..end]
    }

    method ReadByte(end: nat) returns (b: Option<byte>)
      requires Before(end)
      modifies this
      ensures Before(end)
      ensures if old(pos) < end then b == Some(data[old(pos)]) && pos == old(pos) + 1 else b == None && pos == old(pos)
    {
      if pos == end {
        return None;
      }
      b := Some(data[pos]);
      pos := pos + 1;
    }

    method ReadID(end: nat) returns (r: Result<nat, Error>)
      requires Before(end)
      modifies this
      ensures Before(end) && Matches(Ebml.ReadID(old(Rest(end))), r, Rest(end))
      ensures r == Err(Eof) ==> pos == end
    {
      ghost var start, s := pos, Rest(end);
      var first := ReadByte(end);
      if first.None? {
        return Err(Eof);
      }
      var length := FirstBit(first.value);
      if length == 0 || length > 4 {
        return Err(Invalid);
      }
      var id: nat := first.value;
      ghost var seen := [first.value];
      assert seen[..0] == [];
      for i := 1 to length
        invariant Before(end) && pos == start + i
        invariant seen == data[start..pos] && id == Big(seen)
      {
        var b := ReadByte(end);
        if b.None? {
          return Err(UnexpectedEof);
        }
        BigSnoc(seen, b.value);
        seen := seen + [b.value];
        id := 256 * id + b.value;
      }
      SliceOfSlice(data, start, end, 0, length);
      return Ok(id);
    }

    method ReadSize(end: nat) returns (r: Result<DataSize, Error>)
      requires Before(end)
      modifies this
      ensures Before(end) && Matches(Ebml.ReadSize(old(Rest(end))), r, Rest(end))
    {
      ghost var start, s := pos, Rest(end);
      var first := ReadByte(end);
      if first.None? {
        return Err(Eof);
      }
      var length := FirstBit(first.value);
      if length == 0 {
        return Err(Invalid);
      }
      var mask := Marker(length) - 1;
      var top := first.value - Marker(length);
      var value: nat := top;
      var allOnes := top == mask;
      ghost var tail: Bytes := [];
      assert [top][..0] == [] && [top] + tail == [top];
      for i := 1 to length
        invariant Before(end) && pos == start + i
        invariant tail == data[start + 1..pos]
        invariant value == Big([top] + tail)
        invariant allOnes == (top == mask && AllOnes(tail))
      {
        var b := ReadByte(end);
        if b.None? {
          return Err(UnexpectedEof);
        }
        if b.value != 255 {
          allOnes := false;
        }
        OneMore(top, tail, b.value);
        tail := tail + [b.value];
        value := 256 * value + b.value;
      }
      SliceOfSlice(data, start, end, 1, length);
      assert [top] + tail == Unmarked(s, length);
      return Ok(DataSize(value, allOnes));
    }

    method ReadElementHeader(end: nat) returns (r: Result<Header, Error>)
      requires Before(end)
      modifies this
      ensures Before(end) && Matches(Ebml.ReadElementHeader(old(Rest(end))), r, Rest(end))
      ensures if r.Ok? then pos > old(pos) else r.error.Eof? ==> pos == end
    {
      HeaderShortens(Rest(end));
      var id := ReadID(end);
      if id.Err? {
        return Err(id.error);
      }
      var size := ReadSize(end);
      if size.Err? {
        return Err(NoEof(size.error));
      }
      return Ok(Header(id.value, size.value.value, size.value.unknown));
    }

    // The loop head of forEachChild: the next child of the master element that
    // ends at `end`, or what ended its children.
    method NextChild(end: nat) returns (h: Option<Header>, err: Option<Error>)
      requires Before(end)
      modifies this
      ensures Before(end)
      ensures match Elements(old(Rest(end)))
        case Nil(e) => h.None? && err == e && (e.None? ==> pos == end)
        case Cons(c, tail) =>
          && h.Some? && err.None? && pos > old(pos)
          && c == ChildAt(h.value.id, h.value.size, end)
          && tail == Elements(data[Until(h.value.size, end)..end])
    {
      var next := ReadElementHeader(end);
      if next.Err? {
        return None, if next.error.Eof? then None else Some(next.error);
      }
      if next.value.unknown {
        return None, Some(Invalid);
      }
      CutRest(next.value.size, end);
      return Some(next.value), None;
    }

    lemma CutRest(size: nat, end: nat)
      requires Before(end)
      ensures var n := Cut(Rest(end), size);
        && Rest(end)[..n] == data[pos..Until(size, end)]
        && Rest(end)[n..] == data[Until(size, end)..end]
    {
      SliceOfSlice(data, pos, end, 0, Cut(Rest(end), size));
    }

    /******* Payloads *******/

    // Where a payload of this size ends, at the latest.
    function Until(size: nat, end: nat): (e: nat)
      requires Before(end)
      reads this
      ensures pos <= e <= end
    {
      if size <= end - pos then pos + size else end
    }

    ghost function ChildAt(id: nat, size: nat, end: nat): Child
      requires Before(end)
      reads this
    {
      Child(id, size, data[pos..Until(size, end)])
    }

    // A payload reader that succeeds has consumed exactly the payload.
    method ReadFull(size: nat, end: nat) returns (buf: Result<Bytes, Error>)
      requires Before(end)
      modifies this
      ensures Before(end)
      ensures buf == if old(end - pos) < size then Err(UnexpectedEof) else Ok(old(data[pos..Until(size, end)]))
      ensures buf.Ok? ==> pos == old(pos) + size
    {
      if end - pos < size {
        pos := end;
        return Err(UnexpectedEof);
      }
      buf := Ok(data[pos..pos + size]);
      pos := pos + size;
    }

    method ReadUint(size: nat, end: nat) returns (r: Result<nat, Error>)
      requires Before(end)
      modifies this
      ensures Before(end) && forall id :: r == UintOf(old(ChildAt(id, size, end)))
      ensures r.Ok? ==> pos == old(pos) + size
    {
      if size > 8 {
        return Err(Invalid);
      }
      var buf := ReadFull(size, end);
      if buf.Err? {
        return Err(buf.error);
      }
      var bytes := buf.value;
      var v: nat := 0;
      for i := 0 to |bytes|
        invariant v == Big(bytes[..i])
      {
        assert bytes[..i + 1][..i] == bytes[..i];
        v := 256 * v + bytes[i];
      }
      assert bytes[..|bytes|] == bytes;
      return Ok(v);
    }

    method ReadFloat(size: nat, end: nat) returns (r: Result<Float, Error>)
      requires Before(end)
      modifies this
      ensures Before(end) && forall id :: r == FloatOf(old(ChildAt(id, size, end)))
      ensures r.Ok? ==> pos == old(pos) + size
    {
      var buf := ReadFull(size, end);
      if buf.Err? {
        return Err(buf.error);
      }
      match size
      case 0 => return Ok(Zero);
      case 4 => return Ok(Single(Big(buf.value)));
      case 8 => return Ok(Double(Big(buf.value)));
      case _ => return Err(Invalid);
    }

    method ReadString(size: nat, end: nat) returns (r: Result<Bytes, Error>)
      requires Before(end)
      modifies this
      ensures Before(end) && forall id :: r == StringOf(old(ChildAt(id, size, end)))
      ensures r.Ok? ==> pos == old(pos) + size
    {
      var buf := ReadFull(size, end);
      if buf.Err? {
        return Err(buf.error);
      }
      return Ok(TrimNul(buf.value));
    }

    method Skip(size: nat, end: nat) returns (err: Option<Error>)
      requires Before(end)
      modifies this
      ensures Before(end) && forall id :: err == SkipOf(old(ChildAt(id, size, end)))
      ensures err.None? ==> pos == old(pos) + size
    {
      var buf := ReadFull(size, end);
      return if buf.Err? then Some(buf.error) else None;
    }
  }
}
