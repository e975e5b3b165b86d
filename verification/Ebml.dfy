// The EBML reader of internal/media/matroska.go: element IDs, variable-size
// integers and children of master elements (RFC 8794 sections 4 to 7), and the
// printer that undoes it.
module Ebml {
  import opened Prelude
  import opened ChunkLayout

  // Eof is a clean end before an element; Invalid is every error that is not an
  // end of data.
  datatype Error = Eof | UnexpectedEof | Invalid

  /******* Numbers *******/

  function Power(base: nat, n: nat): nat {
    if n == 0 then 1 else base * Power(base, n - 1)
  }

  // The big-endian number of a byte string.
  function Big(bs: Bytes): nat {
    if bs == [] then 0 else 256 * Big(bs[..|bs| - 1]) + bs[|bs| - 1]
  }

  // The n-byte big-endian form of v.
  function ToBig(v: nat, n: nat): (bs: Bytes)
    ensures |bs| == n
  {
    if n == 0 then [] else ToBig(v / 256, n - 1) + [v % 256]
  }

  lemma {:induction false} BigToBig(v: nat, n: nat)
    requires v < Power(256, n)
    ensures Big(ToBig(v, n)) == v
  {
    if n > 0 {
      BigToBig(v / 256, n - 1);
      assert ToBig(v, n)[..n - 1] == ToBig(v / 256, n - 1);
    }
  }

  lemma {:induction false} ToBigBig(bs: Bytes)
    ensures Big(bs) < Power(256, |bs|)
    ensures ToBig(Big(bs), |bs|) == bs
  {
    if bs != [] {
      ToBigBig(bs[..|bs| - 1]);
      assert bs == bs[..|bs| - 1] + [bs[|bs| - 1]];
    }
  }

  // The first byte carries the highest digit.
  lemma {:induction false} BigFirst(bs: Bytes)
    requires bs != []
    ensures Big(bs) == bs[0] * Power(256, |bs| - 1) + Big(bs[1..])
  {
    if |bs| > 1 {
      var front := bs[..|bs| - 1];
      BigFirst(front);
      assert bs[1..][..|bs| - 2] == front[1..];
      var p := Power(256, |bs| - 2);
      assert 256 * (bs[0] * p) == bs[0] * (256 * p);
    } else {
      assert bs[..0] == [] && bs[1..] == [];
    }
  }

  /******* Variable-size integers *******/

  function Marker(w: nat): byte
    requires 1 <= w <= 8
  {
    if w == 1 then 128 else if w == 2 then 64 else if w == 3 then 32 else if w == 4 then 16
    else if w == 5 then 8 else if w == 6 then 4 else if w == 7 then 2 else 1
  }

  // The width a first byte announces: one more than its leading zero bits, or 0
  // if it has no bit set.
  function VintLength(first: byte): (w: nat)
    ensures w <= 8
    ensures w > 0 ==> Marker(w) <= first < 2 * Marker(w)
    ensures w == 0 <==> first == 0
  {
    if first >= 128 then 1 else if first >= 64 then 2 else if first >= 32 then 3 else if first >= 16 then 4
    else if first >= 8 then 5 else if first >= 4 then 6 else if first >= 2 then 7 else if first >= 1 then 8 else 0
  }

  datatype Read<+T> = Got(value: T, rest: Bytes) | Failed(error: Error)

  function ReadID(s: Bytes): Read<nat> {
    if s == [] then Failed(Eof)
    else
      var w := VintLength(s[0]);
      if w == 0 || w > 4 then Failed(Invalid)
      else if |s| < w then Failed(UnexpectedEof)
      else Got(Big(s[..w]), s[w..])
  }

  datatype DataSize = DataSize(value: nat, unknown: bool)

  predicate AllOnes(s: Bytes) {
    forall i | 0 <= i < |s| :: s[i] == 255
  }

  // The width-w integer in s without its marker.
  function Unmarked(s: Bytes, w: nat): Bytes
    requires 1 <= w <= 8 && w <= |s| && Marker(w) <= s[0]
  {
    [s[0] - Marker(w)] + s[1..w]
  }

  function ReadSize(s: Bytes): Read<DataSize> {
    if s == [] then Failed(Eof)
    else
      var w := VintLength(s[0]);
      if w == 0 then Failed(Invalid)
      else if |s| < w then Failed(UnexpectedEof)
      else
        Got(DataSize(Big(Unmarked(s, w)), s[0] - Marker(w) == Marker(w) - 1 && AllOnes(s[1..w])), s[w..])
  }

  datatype Header = Header(id: nat, size: nat, unknown: bool)

  // An end of data within a header is never a clean end.
  function NoEof(e: Error): Error {
    if e.Eof? then UnexpectedEof else e
  }

  function ReadElementHeader(s: Bytes): Read<Header> {
    match ReadID(s)
    case Failed(e) => Failed(e)
    case Got(id, rest) =>
      match ReadSize(rest)
      case Failed(e) => Failed(NoEof(e))
      case Got(size, rest') => Got(Header(id, size.value, size.unknown), rest')
  }

  /******* Printing them *******/

  // One more than the largest width-w number.
  function Limit(w: nat): nat {
    Power(128, w)
  }

  lemma MarkerTimes(w: nat)
    requires 1 <= w <= 8
    ensures Marker(w) * Power(256, w - 1) == Limit(w)
  {
    assert Power(256, 0) == 1 && Power(256, 1) == 0x100 && Power(256, 2) == 0x1_0000;
    assert Power(256, 3) == 0x100_0000 && Power(256, 4) == 0x1_0000_0000;
    assert Power(256, 5) == 0x100_0000_0000 && Power(256, 6) == 0x1_0000_0000_0000;
    assert Power(256, 7) == 0x100_0000_0000_0000;
    assert Power(128, 1) == 0x80 && Power(128, 2) == 0x4000 && Power(128, 3) == 0x20_0000;
    assert Power(128, 4) == 0x1000_0000 && Power(128, 5) == 0x8_0000_0000;
    assert Power(128, 6) == 0x400_0000_0000 && Power(128, 7) == 0x2_0000_0000_0000;
    assert Power(128, 8) == 0x100_0000_0000_0000;
  }

  function SizeBytes(w: nat, v: nat): (bs: Bytes)
    requires 1 <= w <= 8 && v < Limit(w)
    ensures |bs| == w
  {
    FirstByteSmall(w, v);
    var bs := ToBig(v, w);
    [bs[0] + Marker(w)] + bs[1..]
  }

  // A number d*p + r written with a last part r below p lies between a*p and
  // b*p exactly when its digit d lies between a and b.
  lemma DigitBounds(d: int, p: int, r: int, a: int, b: int)
    requires 0 <= r < p
    ensures a * p <= d * p + r <==> a <= d
    ensures d * p + r < b * p <==> d < b
  {
    DigitBelow(d, p, r, a);
    DigitBelow(d, p, r, b);
  }

  lemma DigitBelow(d: int, p: int, r: int, b: int)
    requires 0 <= r < p
    ensures d * p + r < b * p <==> d < b
  {
    if d < b {
      Scale(d + 1, b, p);
      assert (d + 1) * p == d * p + p;
    } else {
      Scale(b, d, p);
    }
  }

  lemma Scale(a: int, b: int, p: int)
    requires a <= b && p >= 0
    ensures a * p <= b * p
  {
  }

  // It is the largest number below m*p exactly when both parts are.
  lemma LargestDigits(d: int, p: int, r: int, m: int)
    requires 0 <= r < p && d < m
    ensures d * p + r == m * p - 1 <==> d == m - 1 && r == p - 1
  {
    assert (m - 1) * p == m * p - p;
    DigitBelow(d, p, r, m - 1);
  }

  lemma FirstByteSmall(w: nat, v: nat)
    requires 1 <= w <= 8 && v < Limit(w)
    ensures Big(ToBig(v, w)) == v && ToBig(v, w)[0] < Marker(w)
  {
    MarkerTimes(w);
    var p := Power(256, w - 1);
    assert Power(256, w) == 256 * p;
    Scale(Marker(w), 256, p);
    BigToBig(v, w);
    var b := ToBig(v, w);
    BigFirst(b);
    ToBigBig(b[1..]);
    DigitBelow(b[0], p, Big(b[1..]), Marker(w));
  }

  lemma MarkerOf(w: nat, first: byte)
    requires 1 <= w <= 8 && Marker(w) <= first < 2 * Marker(w)
    ensures VintLength(first) == w
  {
  }

  lemma Slices(first: byte, tail: Bytes, rest: Bytes)
    ensures var s := ([first] + tail) + rest;
      s[0] == first && s[1..|tail| + 1] == tail && s[|tail| + 1..] == rest
  {
  }

  lemma HeadAndTail(b: Bytes)
    requires b != []
    ensures [b[0]] + b[1..] == b
  {
  }

  lemma SizeBytesParts(w: nat, v: nat, rest: Bytes)
    requires 1 <= w <= 8 && v < Limit(w)
    ensures var s := SizeBytes(w, v) + rest;
      VintLength(s[0]) == w && Unmarked(s, w) == ToBig(v, w) && s[1..w] == ToBig(v, w)[1..] && s[w..] == rest
  {
    FirstByteSmall(w, v);
    var b := ToBig(v, w);
    MarkerOf(w, b[0] + Marker(w));
    Slices(b[0] + Marker(w), b[1..], rest);
    HeadAndTail(b);
  }

  // A string of ones is the largest number of its width.
  lemma {:induction false} OnesAreLargest(s: Bytes)
    ensures AllOnes(s) <==> Big(s) == Power(256, |s|) - 1
  {
    if s != [] {
      var front := s[..|s| - 1];
      OnesAreLargest(front);
      ToBigBig(front);
      if AllOnes(front) && s[|s| - 1] == 255 {
        assert s == front + [s[|s| - 1]];
      }
    }
  }

  lemma UnknownIsLargest(w: nat, v: nat)
    requires 1 <= w <= 8 && v < Limit(w)
    ensures var b := ToBig(v, w); (b[0] == Marker(w) - 1 && AllOnes(b[1..])) <==> v == Limit(w) - 1
  {
    var b := ToBig(v, w);
    FirstByteSmall(w, v);
    MarkerTimes(w);
    BigFirst(b);
    OnesAreLargest(b[1..]);
    ToBigBig(b[1..]);
    LargestDigits(b[0], Power(256, w - 1), Big(b[1..]), Marker(w));
  }

  // The width-w form of v reads back as v, and as the unknown size exactly when
  // v is the all-ones number of its width.
  lemma SizeRoundTrip(w: nat, v: nat, rest: Bytes)
    requires 1 <= w <= 8 && v < Limit(w)
    ensures ReadSize(SizeBytes(w, v) + rest) == Got(DataSize(v, v == Limit(w) - 1), rest)
  {
    SizeBytesParts(w, v, rest);
    FirstByteSmall(w, v);
    UnknownIsLargest(w, v);
  }

  // The width of a well-formed element ID, marker included, or 0.
  function IdWidth(id: nat): (w: nat)
    ensures w <= 4
  {
    if 0x80 <= id <= 0xFF then 1
    else if 0x4000 <= id <= 0x7FFF then 2
    else if 0x20_0000 <= id <= 0x3F_FFFF then 3
    else if 0x1000_0000 <= id <= 0x1FFF_FFFF then 4
    else 0
  }

  predicate ValidId(id: nat) {
    IdWidth(id) > 0
  }

  function IdBytes(id: nat): Bytes {
    ToBig(id, IdWidth(id))
  }

  lemma IdRange(w: nat, id: nat)
    requires 1 <= w <= 4
    ensures IdWidth(id) == w <==> Marker(w) * Power(256, w - 1) <= id < 2 * Marker(w) * Power(256, w - 1)
  {
    assert Power(256, 0) == 1 && Power(256, 1) == 0x100 && Power(256, 2) == 0x1_0000 && Power(256, 3) == 0x100_0000;
  }

  lemma IdFirstByte(id: nat)
    requires ValidId(id)
    ensures var w := IdWidth(id);
      Big(IdBytes(id)) == id && Marker(w) <= IdBytes(id)[0] < 2 * Marker(w)
  {
    var w, b := IdWidth(id), IdBytes(id);
    IdRange(w, id);
    assert id < Power(256, w) by { IdFits(id); }
    BigToBig(id, w);
    BigFirst(b);
    ToBigBig(b[1..]);
    DigitBounds(b[0], Power(256, w - 1), Big(b[1..]), Marker(w), 2 * Marker(w));
  }

  lemma IdFits(id: nat)
    requires ValidId(id)
    ensures id < Power(256, IdWidth(id))
  {
    assert Power(256, 1) == 0x100 && Power(256, 2) == 0x1_0000;
    assert Power(256, 3) == 0x100_0000 && Power(256, 4) == 0x1_0000_0000;
  }

  // Well-formed IDs read back unchanged.
  lemma IdRoundTrip(id: nat, rest: Bytes)
    requires ValidId(id)
    ensures ReadID(IdBytes(id) + rest) == Got(id, rest)
  {
    IdFirstByte(id);
    MarkerOf(IdWidth(id), IdBytes(id)[0]);
    var s := IdBytes(id) + rest;
    assert s[..IdWidth(id)] == IdBytes(id) && s[IdWidth(id)..] == rest;
  }

  lemma IdOfBytes(b: Bytes)
    requires 1 <= |b| <= 4 && Marker(|b|) <= b[0] < 2 * Marker(|b|)
    ensures ValidId(Big(b)) && IdBytes(Big(b)) == b
  {
    BigFirst(b);
    ToBigBig(b[1..]);
    DigitBounds(b[0], Power(256, |b| - 1), Big(b[1..]), Marker(|b|), 2 * Marker(|b|));
    IdRange(|b|, Big(b));
    ToBigBig(b);
  }

  // Every ID that is read is well-formed, and what was read is its only form.
  lemma ReadIdIsValid(s: Bytes)
    requires ReadID(s).Got?
    ensures var id := ReadID(s).value; ValidId(id) && s == IdBytes(id) + ReadID(s).rest
  {
    var w := VintLength(s[0]);
    IdOfBytes(s[..w]);
    assert s == s[..w] + s[w..];
  }

  /******* Master elements *******/

  // An element as its parent's reader finds it: the payload is cut short when
  // the data ends within it.
  datatype Child = Child(id: nat, size: nat, payload: Bytes)

  // The children of a master element, and what ended them: the end of the data,
  // or an error.
  datatype Children = Nil(end: Option<Error>) | Cons(head: Child, tail: Children)

  function Cut(s: Bytes, size: nat): nat {
    if size <= |s| then size else |s|
  }

  lemma HeaderShortens(s: Bytes)
    ensures ReadElementHeader(s).Got? ==> |ReadElementHeader(s).rest| < |s|
  {
  }

  function Elements(s: Bytes): Children
    decreases |s|
  {
    match ReadElementHeader(s)
    case Failed(e) => Nil(if e.Eof? then None else Some(e))
    case Got(h, rest) =>
      if h.unknown then Nil(Some(Invalid))
      else
        HeaderShortens(s);
        var n := Cut(rest, h.size);
        Cons(Child(h.id, h.size, rest[..n]), Elements(rest[n..]))
  }

  /******* Documents *******/

  // A known-size element, with the width its size is written in.
  datatype Tree =
    | Leaf(id: nat, width: nat, bytes: Bytes)
    | Master(id: nat, width: nat, kids: seq<Tree>)

  function Body(t: Tree): Bytes
    decreases t, 0
  {
    match t
    case Leaf(_, _, bytes) => bytes
    case Master(_, _, kids) => PrintAll(kids)
  }

  // ID, size and body of one element.
  function Element(id: nat, width: nat, body: Bytes): Bytes
    requires 1 <= width <= 8 && |body| < Limit(width)
  {
    IdBytes(id) + SizeBytes(width, |body|) + body
  }

  predicate Sized(t: Tree)
    decreases t, 1
  {
    ValidId(t.id) && 1 <= t.width <= 8 && |Body(t)| < Limit(t.width) - 1
  }

  function Print(t: Tree): Bytes
    decreases t, 2
  {
    if Sized(t) then Element(t.id, t.width, Body(t)) else []
  }

  function PrintAll(ts: seq<Tree>): Bytes
    decreases ts
  {
    if ts == [] then [] else Print(ts[0]) + PrintAll(ts[1..])
  }

  ghost predicate AllSized(ts: seq<Tree>) {
    forall t | t in ts :: Sized(t)
  }

  lemma HeaderRoundTrip(id: nat, w: nat, size: nat, rest: Bytes)
    requires ValidId(id) && 1 <= w <= 8 && size < Limit(w)
    ensures ReadElementHeader(IdBytes(id) + SizeBytes(w, size) + rest)
         == Got(Header(id, size, size == Limit(w) - 1), rest)
  {
    assert IdBytes(id) + SizeBytes(w, size) + rest == IdBytes(id) + (SizeBytes(w, size) + rest);
    IdRoundTrip(id, SizeBytes(w, size) + rest);
    SizeRoundTrip(w, size, rest);
  }

  lemma Regroup(a: Bytes, b: Bytes, c: Bytes, d: Bytes)
    ensures ((a + b) + c) + d == (a + b) + (c + d)
  {
  }

  lemma ElementRoundTrip(t: Tree, rest: Bytes)
    requires Sized(t)
    ensures ReadElementHeader(Print(t) + rest) == Got(Header(t.id, |Body(t)|, false), Body(t) + rest)
  {
    var body := Body(t);
    HeaderRoundTrip(t.id, t.width, |body|, body + rest);
    Regroup(IdBytes(t.id), SizeBytes(t.width, |body|), body, rest);
  }

  function ChildOf(t: Tree): Child {
    Child(t.id, |Body(t)|, Body(t))
  }

  function ChildrenOf(ts: seq<Tree>): Children {
    if ts == [] then Nil(None) else Cons(ChildOf(ts[0]), ChildrenOf(ts[1..]))
  }

  // Printed children read back: each one's payload is its body, to the byte.
  lemma {:induction false} ElementsOfPrint(ts: seq<Tree>)
    requires AllSized(ts)
    ensures Elements(PrintAll(ts)) == ChildrenOf(ts)
  {
    if ts != [] {
      var rest := PrintAll(ts[1..]);
      ElementRoundTrip(ts[0], rest);
      ElementsOfPrint(ts[1..]);
      var body := Body(ts[0]);
      assert (body + rest)[..|body|] == body && (body + rest)[|body|..] == rest;
    }
  }

  /******* Payloads *******/

  // A float as the bits the file holds; an empty one is zero.
  datatype Float = Zero | Single(bits: nat) | Double(bits: nat)

  predicate Short(c: Child) {
    |c.payload| < c.size
  }

  function UintOf(c: Child): Result<nat, Error> {
    if c.size > 8 then Err(Invalid) else if Short(c) then Err(UnexpectedEof) else Ok(Big(c.payload))
  }

  function FloatOf(c: Child): Result<Float, Error> {
    if Short(c) then Err(UnexpectedEof)
    else if c.size == 0 then Ok(Zero)
    else if c.size == 4 then Ok(Single(Big(c.payload)))
    else if c.size == 8 then Ok(Double(Big(c.payload)))
    else Err(Invalid)
  }

  function TrimNul(s: Bytes): Bytes {
    if s != [] && s[|s| - 1] == 0 then TrimNul(s[..|s| - 1]) else s
  }

  function StringOf(c: Child): Result<Bytes, Error> {
    if Short(c) then Err(UnexpectedEof) else Ok(TrimNul(c.payload))
  }

  function SkipOf(c: Child): Option<Error> {
    if Short(c) then Some(UnexpectedEof) else None
  }
}
