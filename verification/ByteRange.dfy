// Range headers: parseSingleByteRange of internal/handler/download_handler.go.
module ByteRange {
  import opened Prelude
  import opened Decimal
  import RangeServing
  import opened ChunkLayout

  const PREFIX := "bytes="

  // unicode.IsSpace.
  predicate IsSpace(c: char) {
    var n := c as int;
    || 9 <= n <= 13 || n == 0x20 || n == 0x85 || n == 0xA0 || n == 0x1680 || 0x2000 <= n <= 0x200A
    || n == 0x2028 || n == 0x2029 || n == 0x202F || n == 0x205F || n == 0x3000
  }

  // strings.TrimSpace.
  function TrimLeft(s: string): string {
    if s != [] && IsSpace(s[0]) then TrimLeft(s[1..]) else s
  }

  function TrimRight(s: string): string {
    if s != [] && IsSpace(s[|s| - 1]) then TrimRight(s[..|s| - 1]) else s
  }

  function TrimSpace(s: string): string {
    TrimRight(TrimLeft(s))
  }

  // strings.Cut at the first '-': what stands before and after it.
  function CutDash(s: string): Option<(string, string)> {
    if s == [] then None
    else if s[0] == '-' then Some(("", s[1..]))
    else
      match CutDash(s[1..])
      case None => None
      case Some((before, after)) => Some(([s[0]] + before, after))
  }

  // The first and last byte to send, or None for an unsatisfiable range.
  function ParseSingleByteRange(header: string, size: int): Option<(int, int)> {
    if !(PREFIX <= header) then None
    else
      var spec := TrimSpace(header[|PREFIX|..]);
      if spec == "" || ',' in spec then None
      else
        match CutDash(spec)
        case None => None
        case Some((first, last)) => ParseBounds(first, last, size)
  }

  function ParseBounds(first: string, last: string, size: int): Option<(int, int)> {
    if first == "" then
      match ParseInt(last)
      case None => None
      case Some(suffix) => if suffix <= 0 then None else Some((size - Min(suffix, size), size - 1))
    else
      match ParseInt(first)
      case None => None
      case Some(start) =>
        if start < 0 || start >= size then None
        else if last == "" then Some((start, size - 1))
        else
          match ParseInt(last)
          case None => None
          case Some(end) => if end < start then None else Some((start, Min(end, size - 1)))
  }

  // An accepted range lies inside a non-empty file; of an empty one only a
  // suffix range is accepted, as the empty range 0..-1.
  lemma AcceptedRangeIsInside(header: string, size: nat)
    requires ParseSingleByteRange(header, size).Some?
    ensures var (start, end) := ParseSingleByteRange(header, size).value;
      if size > 0 then 0 <= start <= end < size else (start, end) == (0, -1)
  {
  }

  /******* What the headers clients send mean *******/

  datatype Spec = Closed(first: nat, last: nat) | From(first: nat) | Suffix(length: nat)

  ghost predicate Fits(spec: Spec) {
    match spec
    case Closed(a, b) => a <= INT64_MAX && b <= INT64_MAX
    case From(a) => a <= INT64_MAX
    case Suffix(n) => n <= INT64_MAX
  }

  // Byte i of a file of this size is asked for.
  predicate Selects(spec: Spec, size: nat, i: int) {
    0 <= i < size &&
    match spec
    case Closed(a, b) => a <= i <= b
    case From(a) => a <= i
    case Suffix(n) => size - n <= i
  }

  lemma {:induction false} CutAfterDigits(a: string, b: string)
    requires AllDigits(a)
    ensures CutDash(a + "-" + b) == Some((a, b))
  {
    if a == "" {
      assert a + "-" + b == "-" + b;
    } else {
      CutAfterDigits(a[1..], b);
      assert (a + "-" + b)[1..] == a[1..] + "-" + b;
      assert a == [a[0]] + a[1..];
    }
  }

  // Numerals and dashes are neither spaces nor commas.
  predicate Plain(c: char) {
    IsDigit(c) || c == '-'
  }

  lemma PlainIsNotTrimmed(s: string)
    requires forall i | 0 <= i < |s| :: Plain(s[i])
    ensures TrimSpace(s) == s && ',' !in s
  {
  }

  lemma ParseHeader(first: string, last: string, size: int)
    requires AllDigits(first) && AllDigits(last)
    ensures ParseSingleByteRange(PREFIX + (first + "-" + last), size) == ParseBounds(first, last, size)
  {
    var spec := first + "-" + last;
    assert (PREFIX + spec)[|PREFIX|..] == spec;
    PlainIsNotTrimmed(spec);
    CutAfterDigits(first, last);
  }

  // The range is the bytes asked for; it is refused exactly when none are,
  // except that a positive suffix of an empty file is an empty range.
  ghost predicate SelectsExactly(spec: Spec, size: nat, range: Option<(int, int)>) {
    match range
    case Some((start, end)) =>
      && (forall i: int :: start <= i <= end <==> Selects(spec, size, i))
      && (start <= end || (spec.Suffix? && size == 0))
    case None =>
      && (forall i: int :: !Selects(spec, size, i))
      && (spec.Suffix? ==> spec.length == 0)
  }

  // The bounds are in reverse or begin after the file, so that nothing is lost
  // when their numbers cannot be read.
  predicate Unsatisfiable(spec: Spec, size: nat) {
    match spec
    case Closed(a, b) => a >= size || a > b
    case From(a) => a >= size
    case Suffix(_) => false
  }

  lemma ClosedSelects(first: string, last: string, size: nat)
    requires first != "" && last != "" && AllDigits(first) && AllDigits(last)
    ensures var spec := Closed(Value(first), Value(last));
      && (SelectsExactly(spec, size, ParseBounds(first, last, size)) <==> Fits(spec) || Unsatisfiable(spec, size))
      && (!Fits(spec) ==> ParseBounds(first, last, size).None?)
  {
    ParseDigits(first);
    ParseDigits(last);
    var spec := Closed(Value(first), Value(last));
    if !Unsatisfiable(spec, size) {
      assert Selects(spec, size, Value(first));
    }
  }

  lemma FromSelects(first: string, size: nat)
    requires first != "" && AllDigits(first)
    ensures var spec := From(Value(first));
      && (SelectsExactly(spec, size, ParseBounds(first, "", size)) <==> Fits(spec) || Unsatisfiable(spec, size))
      && (!Fits(spec) ==> ParseBounds(first, "", size).None?)
  {
    ParseDigits(first);
    var spec := From(Value(first));
    if !Unsatisfiable(spec, size) {
      assert Selects(spec, size, Value(first));
    }
  }

  lemma SuffixSelects(last: string, size: nat)
    requires last != "" && AllDigits(last)
    ensures var spec := Suffix(Value(last));
      && (SelectsExactly(spec, size, ParseBounds("", last, size)) <==> Fits(spec) || Unsatisfiable(spec, size))
      && (!Fits(spec) ==> ParseBounds("", last, size).None?)
  {
    ParseDigits(last);
  }

  // What a header with these digits before and after its dash asks for.
  function Asked(first: string, last: string): Spec
    requires AllDigits(first) && AllDigits(last)
  {
    if first == "" then Suffix(Value(last))
    else if last == "" then From(Value(first))
    else Closed(Value(first), Value(last))
  }

  // Headers of all three forms, leading zeros included: if its numbers are
  // int64, a header selects exactly the bytes it asks for. Otherwise it is
  // refused, which is right exactly if no file of this size could satisfy it.
  lemma HeaderSelects(first: string, last: string, size: nat)
    requires AllDigits(first) && AllDigits(last) && (first != "" || last != "")
    ensures var spec := Asked(first, last);
      var range := ParseSingleByteRange(PREFIX + (first + "-" + last), size);
      && (SelectsExactly(spec, size, range) <==> Fits(spec) || Unsatisfiable(spec, size))
      && (!Fits(spec) ==> range.None?)
  {
    ParseHeader(first, last, size);
    if first == "" {
      SuffixSelects(last, size);
    } else if last == "" {
      FromSelects(first, size);
    } else {
      ClosedSelects(first, last, size);
    }
  }

  // For instance bytes=0-9223372036854775808: it asks for the whole file, and
  // is refused.
  lemma HugeEndIsRefused(size: nat)
    requires size > 0
    ensures var first, last := Print(0), Print(INT64_MAX + 1);
      AllDigits(first) && AllDigits(last) && Asked(first, last) == Closed(0, INT64_MAX + 1)
    ensures Selects(Closed(0, INT64_MAX + 1), size, 0)
    ensures ParseSingleByteRange(PREFIX + (Print(0) + "-" + Print(INT64_MAX + 1)), size).None?
  {
    PrintValue(0);
    PrintValue(INT64_MAX + 1);
    HeaderSelects(Print(0), Print(INT64_MAX + 1), size);
  }

  // Every range the handler accepts for a supported, non-empty file is served:
  // the response carries exactly the requested bytes clipped to the real size,
  // unless the client leaves or a load that the read needs fails.
  lemma AcceptedRangeIsServed(header: string, totalSize: nat, chunks: seq<Bytes>, s: int,
                              first: RangeServing.Loader, second: RangeServing.Loader, room: nat)
    requires RangeServing.Supported(chunks, s, totalSize) && totalSize > 0
    requires RangeServing.Genuine(first, chunks) && RangeServing.Genuine(second, chunks)
    requires ParseSingleByteRange(header, totalSize).Some?
    ensures var (start, end) := ParseSingleByteRange(header, totalSize).value;
      var q := RangeServing.Request(|chunks|, start, end, totalSize);
      RangeServing.Delivers(q, chunks, RangeServing.Excused(q, first, second, s), room,
                            RangeServing.Serve(q, first, second, room))
  {
    AcceptedRangeIsInside(header, totalSize);
    var (start, end) := ParseSingleByteRange(header, totalSize).value;
    var q := RangeServing.Request(|chunks|, start, end, totalSize);
    RangeServing.RangeReadDelivers(q, first, second, chunks, s, room);
  }
}
