// The format as files hold it, and what is no complete header, as ParseMatroska of
// internal/media/matroska.go reports it.
module MatroskaFormat {
  import opened Prelude
  import opened ChunkLayout
  import opened Ebml
  import opened Matroska
  import opened MatroskaDocument

  /******* Element IDs and values *******/

  lemma OneDigit(a: byte)
    ensures ToBig(a, 1) == [a]
  {
    assert ToBig(a, 1) == ToBig(0, 0) + [a];
  }

  lemma TwoDigits(a: byte, b: byte)
    ensures ToBig(0x100 * a + b, 2) == [a, b]
  {
    OneDigit(a);
  }

  lemma ThreeDigits(a: byte, b: byte, c: byte)
    ensures ToBig(0x1_0000 * a + 0x100 * b + c, 3) == [a, b, c]
  {
    TwoDigits(a, b);
    assert (0x1_0000 * a + 0x100 * b + c) / 256 == 0x100 * a + b;
  }

  lemma FourDigits(a: byte, b: byte, c: byte, d: byte)
    ensures ToBig(0x100_0000 * a + 0x1_0000 * b + 0x100 * c + d, 4) == [a, b, c, d]
  {
    ThreeDigits(a, b, c);
    assert (0x100_0000 * a + 0x1_0000 * b + 0x100 * c + d) / 256 == 0x1_0000 * a + 0x100 * b + c;
  }

  // The IDs of RFC 9559, as files hold them.
  lemma OneByteIds()
    ensures IdBytes(ID_TRACK_ENTRY) == [0xAE] && IdBytes(ID_TRACK_NUMBER) == [0xD7]
    ensures IdBytes(ID_TRACK_TYPE) == [0x83] && IdBytes(ID_CODEC_ID) == [0x86]
    ensures IdBytes(ID_FLAG_DEFAULT) == [0x88] && IdBytes(ID_VIDEO) == [0xE0]
    ensures IdBytes(ID_PIXEL_WIDTH) == [0xB0] && IdBytes(ID_PIXEL_HEIGHT) == [0xBA]
    ensures IdBytes(ID_AUDIO) == [0xE1] && IdBytes(ID_SAMPLING_FREQUENCY) == [0xB5]
    ensures IdBytes(ID_CHANNELS) == [0x9F]
  {
    OneDigit(0xAE);
    OneDigit(0xD7);
    OneDigit(0x83);
    OneDigit(0x86);
    OneDigit(0x88);
    OneDigit(0xE0);
    OneDigit(0xB0);
    OneDigit(0xBA);
    OneDigit(0xE1);
    OneDigit(0xB5);
    OneDigit(0x9F);
  }

  lemma TwoAndThreeByteIds()
    ensures IdBytes(ID_DOC_TYPE) == [0x42, 0x82] && IdBytes(ID_DURATION) == [0x44, 0x89]
    ensures IdBytes(ID_TRACK_NAME) == [0x53, 0x6E]
    ensures IdBytes(ID_TIMECODE_SCALE) == [0x2A, 0xD7, 0xB1]
    ensures IdBytes(ID_LANGUAGE) == [0x22, 0xB5, 0x9C]
    ensures IdBytes(ID_LANGUAGE_IETF) == [0x22, 0xB5, 0x9D]
  {
    TwoDigits(0x42, 0x82);
    TwoDigits(0x44, 0x89);
    TwoDigits(0x53, 0x6E);
    ThreeDigits(0x2A, 0xD7, 0xB1);
    ThreeDigits(0x22, 0xB5, 0x9C);
    ThreeDigits(0x22, 0xB5, 0x9D);
  }

  lemma FourByteIds()
    ensures IdBytes(ID_EBML) == [0x1A, 0x45, 0xDF, 0xA3]
    ensures IdBytes(ID_SEGMENT) == [0x18, 0x53, 0x80, 0x67]
    ensures IdBytes(ID_INFO) == [0x15, 0x49, 0xA9, 0x66]
    ensures IdBytes(ID_TRACKS) == [0x16, 0x54, 0xAE, 0x6B]
    ensures IdBytes(ID_CLUSTER) == [0x1F, 0x43, 0xB6, 0x75]
  {
    FourDigits(0x1A, 0x45, 0xDF, 0xA3);
    FourDigits(0x18, 0x53, 0x80, 0x67);
    FourDigits(0x15, 0x49, 0xA9, 0x66);
    FourDigits(0x16, 0x54, 0xAE, 0x6B);
    FourDigits(0x1F, 0x43, 0xB6, 0x75);
  }

  ghost predicate Zeros(b: Bytes) {
    forall i | 0 <= i < |b| :: b[i] == 0
  }

  // A string is an element's bytes up to the zero bytes at their end.
  lemma {:induction false} StringValue(b: Bytes)
    ensures var n := |TrimNul(b)|;
      n <= |b| && TrimNul(b) == b[..n] && Zeros(b[n..]) && (n > 0 ==> b[n - 1] != 0)
  {
    if b != [] && b[|b| - 1] == 0 {
      var front := b[..|b| - 1];
      StringValue(front);
      var n := |TrimNul(front)|;
      assert b[n..] == front[n..] + [b[|b| - 1]];
      assert front[..n] == b[..n];
    } else {
      assert b[..|b|] == b;
    }
  }

  // A file is WebM exactly if its document type says so, in any case.
  lemma ContainerIff(d: Bytes)
    ensures ContainerName(d) == WebM <==>
      |d| == 4 && d[0] in {0x57, 0x77} && d[1] in {0x45, 0x65} && d[2] in {0x42, 0x62} && d[3] in {0x4D, 0x6D}
  {
    if |d| == 4 {
      assert (forall i | 0 <= i < 4 :: ToLower(d[i]) == WEBM[i]) <==>
        ToLower(d[0]) == 0x77 && ToLower(d[1]) == 0x65 && ToLower(d[2]) == 0x62 && ToLower(d[3]) == 0x6D
      by {
        if forall i | 0 <= i < 4 :: ToLower(d[i]) == WEBM[i] {
          assert ToLower(d[0]) == WEBM[0] && ToLower(d[1]) == WEBM[1];
          assert ToLower(d[2]) == WEBM[2] && ToLower(d[3]) == WEBM[3];
        }
      }
    }
  }

  // What a track entry says that says nothing, and an Info element that only
  // gives a duration: ticks are milliseconds. All track types but three are
  // lumped together.
  lemma Defaults(ticks: Bytes, trackType: nat)
    ensures TrackOf([]) == Track(0, Other, [], [], [0x75, 0x6E, 0x64], true, 0, 0, 0, Zero)
    ensures DurationOf([Leaf(ID_DURATION, 8, ticks)]) == Duration(FloatValue(ticks), 1_000_000)
    ensures KindOf(trackType) == Other <==> trackType !in {1, 2, 17}
    ensures LastString([], ID_DOC_TYPE, MATROSKA) == [0x6D, 0x61, 0x74, 0x72, 0x6F, 0x73, 0x6B, 0x61]
  {
    LastAt([Leaf(ID_DURATION, 8, ticks)], 0, ID_DURATION);
    LastNone([Leaf(ID_DURATION, 8, ticks)], ID_TIMECODE_SCALE);
  }

  /******* No Matroska file *******/

  // Data that is not reported as no Matroska file begins with an EBML header.
  lemma OnlyEbmlFiles(s: Bytes)
    requires ParseMatroska(s) != Err(NotMatroska)
    ensures [0x1A, 0x45, 0xDF, 0xA3] <= s
  {
    assert ReadElementHeader(s).Got? && ReadElementHeader(s).value.id == ID_EBML;
    ReadIdIsValid(s);
    FourByteIds();
  }

  /******* Elements cut short *******/

  // The end of the data before an element, or within its header.
  function CutError(n: nat): Error {
    if n == 0 then Eof else UnexpectedEof
  }

  lemma IdCut(id: nat, n: nat)
    requires ValidId(id) && n < IdWidth(id)
    ensures ReadID(IdBytes(id)[..n]) == Failed(CutError(n))
  {
    IdFirstByte(id);
    MarkerOf(IdWidth(id), IdBytes(id)[0]);
  }

  lemma SizeCut(w: nat, v: nat, n: nat)
    requires 1 <= w <= 8 && v < Limit(w) && n < w
    ensures ReadSize(SizeBytes(w, v)[..n]) == Failed(CutError(n))
  {
    SizeBytesParts(w, v, []);
    assert (SizeBytes(w, v) + [])[0] == SizeBytes(w, v)[0];
  }

  lemma HeaderCut(id: nat, w: nat, v: nat, n: nat)
    requires ValidId(id) && 1 <= w <= 8 && v < Limit(w) && n < IdWidth(id) + w
    ensures ReadElementHeader((IdBytes(id) + SizeBytes(w, v))[..n]) == Failed(CutError(n))
  {
    var i, b := IdWidth(id), IdBytes(id) + SizeBytes(w, v);
    if n < i {
      assert b[..n] == IdBytes(id)[..n];
      IdCut(id, n);
    } else {
      assert b[..n] == IdBytes(id) + SizeBytes(w, v)[..n - i];
      IdRoundTrip(id, SizeBytes(w, v)[..n - i]);
      SizeCut(w, v, n - i);
    }
  }

  function HeaderSize(t: Tree): nat {
    IdWidth(t.id) + t.width
  }

  // A top-level element that is read as a whole or skipped: the cut lies in its
  // header, or in a payload whose end is looked for.
  predicate CutShows(t: Tree, n: nat) {
    n < HeaderSize(t) || (t.id != ID_INFO && t.id != ID_TRACKS)
  }

  lemma ElementCut(p: Progress, t: Tree, n: nat)
    requires !Complete(p) && TopOk(t) && n < |Print(t)| && CutShows(t, n)
    ensures ParseSegment(Print(t)[..n], p) == Err(HeaderIncomplete)
  {
    var h, body := HeaderSize(t), Body(t);
    var front := IdBytes(t.id) + SizeBytes(t.width, |body|);
    assert Print(t) == front + body;
    if n < h {
      assert Print(t)[..n] == front[..n];
      HeaderCut(t.id, t.width, |body|, n);
    } else {
      assert Print(t)[..n] == front + body[..n - h];
      HeaderRoundTrip(t.id, t.width, |body|, body[..n - h]);
      assert body[..n - h][..|body[..n - h]|] == body[..n - h];
    }
  }

  lemma NotYetComplete(d: Document, container: Container, k: nat)
    requires WellFormed(d) && k < |d.tops|
    ensures !Complete(At(container, d.tops[..k])) && Open([], d.tops[..k])
  {
    var before := d.tops[..|d.tops| - 1];
    assert before == d.tops[..k] + before[k..];
    HasPrefix(d.tops[..k], before[k..], ID_INFO);
    HasPrefix(d.tops[..k], before[k..], ID_TRACKS);
    if k > 0 {
      assert [] + d.tops[..k][..k - 1] == d.tops[..k - 1];
      assert d.tops[..k] == d.tops[..k - 1] + [d.tops[k - 1]];
      HasPrefix(d.tops[..k - 1], [d.tops[k - 1]], ID_INFO);
      HasPrefix(d.tops[..k - 1], [d.tops[k - 1]], ID_TRACKS);
    }
  }

  // What follows the first k children of a Segment is read as its next child.
  lemma AfterChildren(d: Document, k: nat, later: Bytes) returns (p: Progress)
    requires WellFormed(d) && k < |d.tops|
    ensures !Complete(p) && p.info.tracks == TracksOf(KidsOf(d.tops[..k], ID_TRACKS))
    ensures ParseMatroska(PrintWith(d, PrintAll(d.tops[..k]) + later)) == ParseSegment(later, p)
  {
    var container := ContainerName(LastString(d.header, ID_DOC_TYPE, MATROSKA));
    NotYetComplete(d, container, k);
    SegmentIsRead(d, PrintAll(d.tops[..k]) + later);
    SegmentFold(container, [], d.tops[..k], later);
    assert [] + d.tops[..k] == d.tops[..k];
    p := At(container, d.tops[..k]);
  }

  lemma {:induction false} PrintAllAppend(a: seq<Tree>, b: seq<Tree>)
    ensures PrintAll(a + b) == PrintAll(a) + PrintAll(b)
  {
    if a == [] {
      assert a + b == b;
    } else {
      assert (a + b)[1..] == a[1..] + b;
      PrintAllAppend(a[1..], b);
    }
  }

  // The file, cut n bytes into child k of its Segment.
  function CutInto(d: Document, k: nat, n: nat): Bytes
    requires WellFormed(d) && k < |d.tops| && n <= |Print(d.tops[k])|
  {
    PrintWith(d, PrintAll(d.tops[..k]) + Print(d.tops[k])[..n])
  }

  lemma CutChildren(ts: seq<Tree>, k: nat, n: nat) returns (later: Bytes)
    requires k < |ts| && n <= |Print(ts[k])|
    ensures PrintAll(ts) == (PrintAll(ts[..k]) + Print(ts[k])[..n]) + later
    ensures n < |Print(ts[k])| ==> later != []
  {
    assert ts == ts[..k] + ts[k..];
    PrintAllAppend(ts[..k], ts[k..]);
    var t := Print(ts[k]);
    assert ts[k..][1..] == ts[k + 1..];
    later := t[n..] + PrintAll(ts[k + 1..]);
    Rejoin(PrintAll(ts[..k]), t, n, PrintAll(ts[k + 1..]));
  }

  lemma Rejoin(a: Bytes, t: Bytes, n: nat, b: Bytes)
    requires n <= |t|
    ensures a + (t + b) == (a + t[..n]) + (t[n..] + b)
  {
    assert t == t[..n] + t[n..];
  }

  lemma Longer(a: Bytes, b: Bytes, c: Bytes, d: Bytes, e: Bytes)
    ensures a + (b + c) <= a + (b + ((c + d) + e))
  {
    assert a + (b + ((c + d) + e)) == (a + (b + c)) + (d + e);
  }

  lemma CutIsPrefix(d: Document, k: nat, n: nat)
    requires WellFormed(d) && k < |d.tops| && n <= |Print(d.tops[k])|
    ensures CutInto(d, k, n) <= PrintDocument(d)
  {
    var later := CutChildren(d.tops, k, n);
    Longer(Print(Master(ID_EBML, d.headerWidth, d.header)),
           IdBytes(ID_SEGMENT) + SizeBytes(d.segmentWidth, d.segmentSize),
           PrintAll(d.tops[..k]) + Print(d.tops[k])[..n], later, d.rest);
  }

  // Data that ends before Info and Tracks have been found is reported as an
  // incomplete header, at whatever byte it ends: between two children of the
  // Segment, within the header of any of them, or within the payload of one that
  // is skipped.
  lemma CutFileIsIncomplete(d: Document, k: nat, n: nat)
    requires WellFormed(d) && k < |d.tops| && n < |Print(d.tops[k])| && CutShows(d.tops[k], n)
    ensures CutInto(d, k, n) <= PrintDocument(d)
    ensures ParseMatroska(CutInto(d, k, n)) == Err(HeaderIncomplete)
  {
    CutIsPrefix(d, k, n);
    var p := AfterChildren(d, k, Print(d.tops[k])[..n]);
    ElementCut(p, d.tops[k], n);
  }

  /******* Cuts inside Info or Tracks *******/

  function Append(cs: Children, more: Children): Children {
    match cs
    case Nil(_) => more
    case Cons(c, tail) => Cons(c, Append(tail, more))
  }

  lemma {:induction false} ElementsAppend(ts: seq<Tree>, later: Bytes)
    requires AllSized(ts)
    ensures Elements(PrintAll(ts) + later) == Append(ChildrenOf(ts), Elements(later))
  {
    if ts == [] {
      assert [] + later == later;
    } else {
      var rest, body := PrintAll(ts[1..]) + later, Body(ts[0]);
      assert PrintAll(ts) + later == Print(ts[0]) + rest;
      ElementRoundTrip(ts[0], rest);
      ElementsAppend(ts[1..], later);
      assert (body + rest)[..|body|] == body && (body + rest)[|body|..] == rest;
    }
  }

  lemma {:induction false} InfoAppend(ts: seq<Tree>, more: Children, d: Duration)
    requires ParseInfo(ChildrenOf(ts), d).Ok?
    ensures ParseInfo(Append(ChildrenOf(ts), more), d) == ParseInfo(more, ParseInfo(ChildrenOf(ts), d).value)
  {
    if ts != [] {
      InfoAppend(ts[1..], more, InfoChild(d, ChildOf(ts[0])).value);
    }
  }

  lemma {:induction false} TracksAppend(ts: seq<Tree>, more: Children, tracks: seq<Track>)
    requires ParseTracks(ChildrenOf(ts), tracks).Ok?
    ensures ParseTracks(Append(ChildrenOf(ts), more), tracks)
         == ParseTracks(more, ParseTracks(ChildrenOf(ts), tracks).value)
  {
    if ts != [] {
      TracksAppend(ts[1..], more, TracksChild(tracks, ChildOf(ts[0])).value);
    }
  }

  // What is left of an element whose end is missing.
  lemma CutElement(t: Tree, n: nat)
    requires Sized(t) && 0 < n < |Print(t)|
    ensures var h := HeaderSize(t);
      if n < h then Elements(Print(t)[..n]) == Nil(Some(UnexpectedEof))
      else Elements(Print(t)[..n]).Cons? && Elements(Print(t)[..n]).head == Child(t.id, |Body(t)|, Body(t)[..n - h])
  {
    var h, body := HeaderSize(t), Body(t);
    var front := IdBytes(t.id) + SizeBytes(t.width, |body|);
    assert Print(t) == front + body;
    if n < h {
      assert Print(t)[..n] == front[..n];
      HeaderCut(t.id, t.width, |body|, n);
    } else {
      var part := body[..n - h];
      assert Print(t)[..n] == front + part;
      HeaderRoundTrip(t.id, t.width, |body|, part);
      assert part[..|part|] == part;
      assert Elements(Print(t)[..n]) == Cons(Child(t.id, |body|, part), Elements(part[|part|..]));
    }
  }

  lemma CutInfoChild(t: Tree, n: nat, d: Duration)
    requires InfoOk(t) && 0 < n < |Print(t)|
    ensures ParseInfo(Elements(Print(t)[..n]), d) == Err(UnexpectedEof)
  {
    CutElement(t, n);
  }

  lemma CutTracksChild(t: Tree, n: nat, tracks: seq<Track>)
    requires TracksOk(t) && 0 < n < |Print(t)| && (t.id == ID_TRACK_ENTRY ==> n < HeaderSize(t))
    ensures ParseTracks(Elements(Print(t)[..n]), tracks) == Err(UnexpectedEof)
  {
    CutElement(t, n);
  }

  lemma CutInfo(kids: seq<Tree>, j: nat, n: nat)
    requires (forall k | k in kids :: InfoOk(k)) && j < |kids| && 0 < n < |Print(kids[j])|
    ensures ParseInfo(Elements(PrintAll(kids[..j]) + Print(kids[j])[..n]), NEW_DURATION) == Err(UnexpectedEof)
  {
    assert forall k | k in kids[..j] :: k in kids;
    ElementsAppend(kids[..j], Print(kids[j])[..n]);
    InfoFold([], kids[..j]);
    InfoAppend(kids[..j], Elements(Print(kids[j])[..n]), NEW_DURATION);
    CutInfoChild(kids[j], n, ParseInfo(ChildrenOf(kids[..j]), NEW_DURATION).value);
  }

  lemma CutTracks(kids: seq<Tree>, j: nat, n: nat, before: seq<Tree>)
    requires TracksKidsOk(kids) && j < |kids| && 0 < n < |Print(kids[j])|
    requires kids[j].id == ID_TRACK_ENTRY ==> n < HeaderSize(kids[j])
    ensures ParseTracks(Elements(PrintAll(kids[..j]) + Print(kids[j])[..n]), TracksOf(before)) == Err(UnexpectedEof)
  {
    assert forall k | k in kids[..j] :: k in kids;
    ElementsAppend(kids[..j], Print(kids[j])[..n]);
    TracksFold(before, kids[..j]);
    TracksAppend(kids[..j], Elements(Print(kids[j])[..n]), TracksOf(before));
    CutTracksChild(kids[j], n, ParseTracks(ChildrenOf(kids[..j]), TracksOf(before)).value);
  }

  // Byte n of child j of this Info or Tracks element.
  function Inside(t: Tree, j: nat, n: nat): nat
    requires t.Master? && j < |t.kids|
  {
    HeaderSize(t) + |PrintAll(t.kids[..j])| + n
  }

  // A child of the Segment whose payload is only this part.
  lemma PartIsRead(p: Progress, t: Tree, part: Bytes)
    requires !Complete(p) && Sized(t) && |part| <= |Body(t)|
    ensures var r := SegmentChild(p, Child(t.id, |Body(t)|, part), false);
      r.Err? ==> ParseSegment(IdBytes(t.id) + SizeBytes(t.width, |Body(t)|) + part, p) == Err(r.error)
  {
    HeaderRoundTrip(t.id, t.width, |Body(t)|, part);
    assert part[..|part|] == part;
  }

  lemma InsideSplits(t: Tree, j: nat, n: nat)
    requires t.Master? && Sized(t) && j < |t.kids| && n < |Print(t.kids[j])|
    ensures Inside(t, j, n) < |Print(t)|
    ensures var part := PrintAll(t.kids[..j]) + Print(t.kids[j])[..n];
      && |part| <= |Body(t)|
      && Print(t)[..Inside(t, j, n)] == IdBytes(t.id) + SizeBytes(t.width, |Body(t)|) + part
  {
    var later := CutChildren(t.kids, j, n);
    var front := IdBytes(t.id) + SizeBytes(t.width, |Body(t)|);
    var part := PrintAll(t.kids[..j]) + Print(t.kids[j])[..n];
    assert Print(t) == (front + part) + later;
  }

  lemma CutPayload(p: Progress, t: Tree, j: nat, n: nat, before: seq<Tree>)
    requires !Complete(p) && p.info.tracks == TracksOf(before)
    requires TopOk(t) && (t.id == ID_INFO || t.id == ID_TRACKS) && j < |t.kids| && 0 < n < |Print(t.kids[j])|
    requires t.id == ID_TRACKS && t.kids[j].id == ID_TRACK_ENTRY ==> n < HeaderSize(t.kids[j])
    ensures Inside(t, j, n) < |Print(t)|
    ensures ParseSegment(Print(t)[..Inside(t, j, n)], p) == Err(Truncated)
  {
    InsideSplits(t, j, n);
    PartIsRead(p, t, PrintAll(t.kids[..j]) + Print(t.kids[j])[..n]);
    if t.id == ID_INFO {
      CutInfo(t.kids, j, n);
    } else {
      CutTracks(t.kids, j, n, before);
    }
  }

  // Data that ends inside Info or Tracks is another error: within a child of
  // Info, or within a child of Tracks before the payload of a track entry.
  lemma CutInsideIsTruncated(d: Document, k: nat, j: nat, n: nat)
    requires WellFormed(d) && k < |d.tops|
    requires var t := d.tops[k];
      && (t.id == ID_INFO || t.id == ID_TRACKS) && t.Master? && j < |t.kids| && 0 < n < |Print(t.kids[j])|
      && (t.id == ID_TRACKS && t.kids[j].id == ID_TRACK_ENTRY ==> n < HeaderSize(t.kids[j]))
    ensures Inside(d.tops[k], j, n) < |Print(d.tops[k])|
    ensures ParseMatroska(CutInto(d, k, Inside(d.tops[k], j, n))) == Err(Truncated)
  {
    var t := d.tops[k];
    var p := AfterChildren(d, k, []);
    CutPayload(p, t, j, n, KidsOf(d.tops[..k], ID_TRACKS));
    var q := AfterChildren(d, k, Print(t)[..Inside(t, j, n)]);
    CutPayload(q, t, j, n, KidsOf(d.tops[..k], ID_TRACKS));
  }

  /******* Values of a wrong size *******/

  lemma ChildrenSplit(ts: seq<Tree>, j: nat)
    requires AllSized(ts) && j <= |ts|
    ensures Elements(PrintAll(ts)) == Append(ChildrenOf(ts[..j]), ChildrenOf(ts[j..]))
  {
    assert ts == ts[..j] + ts[j..];
    assert forall t | t in ts[..j] || t in ts[j..] :: t in ts;
    PrintAllAppend(ts[..j], ts[j..]);
    ElementsAppend(ts[..j], PrintAll(ts[j..]));
    ElementsOfPrint(ts[j..]);
  }

  lemma BadInfoChild(kids: seq<Tree>, d: Duration)
    requires kids != [] && Sized(kids[0]) && !InfoOk(kids[0])
    ensures ParseInfo(ChildrenOf(kids), d) == Err(Invalid)
  {
  }

  lemma BadInfo(kids: seq<Tree>, j: nat)
    requires AllSized(kids) && j < |kids| && (forall k | k in kids[..j] :: InfoOk(k)) && !InfoOk(kids[j])
    ensures ParseInfo(Elements(PrintAll(kids)), NEW_DURATION) == Err(Invalid)
  {
    ChildrenSplit(kids, j);
    InfoFold([], kids[..j]);
    InfoAppend(kids[..j], ChildrenOf(kids[j..]), NEW_DURATION);
    assert kids[j] in kids;
    BadInfoChild(kids[j..], ParseInfo(ChildrenOf(kids[..j]), NEW_DURATION).value);
  }

  // An Info element whose tick length has more than 8 bytes, or whose duration
  // has not 0, 4 or 8, makes the file malformed.
  lemma WrongSizesAreMalformed(d: Document, k: nat, t: Tree, j: nat, rest: Bytes)
    requires WellFormed(d) && k < |d.tops|
    requires t.Master? && t.id == ID_INFO && Sized(t) && AllSized(t.kids)
    requires j < |t.kids| && forall x | x in t.kids[..j] :: InfoOk(x)
    requires var n := |Body(t.kids[j])|;
      (t.kids[j].id == ID_TIMECODE_SCALE && n > 8) || (t.kids[j].id == ID_DURATION && n !in {0, 4, 8})
    ensures ParseMatroska(PrintWith(d, PrintAll(d.tops[..k]) + (Print(t) + rest))) == Err(Malformed)
  {
    var p := AfterChildren(d, k, Print(t) + rest);
    ElementRoundTrip(t, rest);
    assert (Body(t) + rest)[..|Body(t)|] == Body(t);
    BadInfo(t.kids, j);
  }

  // So is a Cluster, of any size, that comes before them; any other element
  // whose size is unknown makes the file malformed.
  lemma ElementsThatEndTheHeader(d: Document, k: nat, id: nat, w: nat, size: nat, rest: Bytes)
    requires WellFormed(d) && k < |d.tops|
    requires ValidId(id) && id != ID_INFO && id != ID_TRACKS && 1 <= w <= 8 && size < Limit(w)
    requires id == ID_CLUSTER || size == Limit(w) - 1
    ensures ParseMatroska(PrintWith(d, PrintAll(d.tops[..k]) + (IdBytes(id) + SizeBytes(w, size) + rest)))
         == Err(if id == 0x1F43B675 then HeaderIncomplete else Malformed)
  {
    var p := AfterChildren(d, k, IdBytes(id) + SizeBytes(w, size) + rest);
    HeaderRoundTrip(id, w, size, rest);
  }
}
