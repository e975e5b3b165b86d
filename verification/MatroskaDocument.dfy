// Matroska files as documents: what a tree of elements means, and that parsing
// the bytes of a document gives its meaning.
module MatroskaDocument {
  import opened Prelude
  import opened ChunkLayout
  import opened Ebml
  import opened Matroska

  /******* What the children of an element say *******/

  // The value of the last child with this ID, if there is one.
  function LastBody(ts: seq<Tree>, id: nat): Option<Bytes> {
    if ts == [] then None
    else if ts[|ts| - 1].id == id then Some(Body(ts[|ts| - 1]))
    else LastBody(ts[..|ts| - 1], id)
  }

  function LastUint(ts: seq<Tree>, id: nat, otherwise: nat): nat {
    match LastBody(ts, id) case None => otherwise case Some(b) => Big(b)
  }

  function LastString(ts: seq<Tree>, id: nat, otherwise: Bytes): Bytes {
    match LastBody(ts, id) case None => otherwise case Some(b) => TrimNul(b)
  }

  function FloatValue(b: Bytes): Float {
    if |b| == 0 then Zero else if |b| == 4 then Single(Big(b)) else Double(Big(b))
  }

  function LastFloat(ts: seq<Tree>, id: nat, otherwise: Float): Float {
    match LastBody(ts, id) case None => otherwise case Some(b) => FloatValue(b)
  }

  // The children of all master elements with this ID, in order.
  function KidsOf(ts: seq<Tree>, id: nat): seq<Tree> {
    if ts == [] then []
    else
      var t := ts[|ts| - 1];
      KidsOf(ts[..|ts| - 1], id) + if t.id == id && t.Master? then t.kids else []
  }

  /******* What values mean *******/

  predicate FloatInRange(f: Float) {
    match f
    case Zero => true
    case Single(bits) => bits < Power(256, 4)
    case Double(bits) => bits < Power(256, 8)
  }

  // An IEEE 754 number of this sign, exponent and fraction is above zero. With
  // the largest exponent a fraction makes it no number.
  predicate AboveZero(sign: nat, exponent: nat, fraction: nat, largest: nat) {
    sign == 0 && (exponent != 0 || fraction != 0) && (exponent == largest ==> fraction == 0)
  }

  predicate PositiveNumber(f: Float) {
    match f
    case Zero => false
    case Single(bits) => AboveZero(bits / 0x8000_0000, bits / 0x80_0000 % 0x100, bits % 0x80_0000, 0xFF)
    case Double(bits) =>
      AboveZero(bits / 0x8000_0000_0000_0000, bits / 0x10_0000_0000_0000 % 0x800, bits % 0x10_0000_0000_0000, 0x7FF)
  }

  // Bits made of a sign, an exponent below n and a fraction below m.
  lemma Fields(sign: nat, exponent: nat, fraction: nat, n: nat, m: nat)
    requires exponent < n && fraction < m
    ensures var bits := sign * (n * m) + exponent * m + fraction;
      bits / (n * m) == sign && bits / m % n == exponent && bits % m == fraction
  {
    var bits := sign * (n * m) + exponent * m + fraction;
    var high := sign * n + exponent;
    assert high * m == sign * (n * m) + exponent * m;
    assert bits == high * m + fraction;
    Digits(high, fraction, m);
    Digits(sign, exponent, n);
    assert exponent * m + fraction < n * m by {
      Scale(exponent + 1, n, m);
    }
    Digits(sign, exponent * m + fraction, n * m);
  }

  lemma Digits(high: nat, low: nat, base: nat)
    requires low < base
    ensures (high * base + low) / base == high && (high * base + low) % base == low
  {
    var x := high * base + low;
    var q := x / base;
    assert x == q * base + x % base;
    DigitBelow(high, base, low, q + 1);
    DigitBelow(q, base, x % base, high + 1);
  }

  lemma PositiveSingle(sign: nat, exponent: nat, fraction: nat)
    requires sign < 2 && exponent < 0x100 && fraction < 0x80_0000
    ensures var bits := sign * 0x8000_0000 + exponent * 0x80_0000 + fraction;
      Positive(Single(bits)) <==> AboveZero(sign, exponent, fraction, 0xFF)
  {
  }

  lemma PositiveDouble(sign: nat, exponent: nat, fraction: nat)
    requires sign < 2 && exponent < 0x800 && fraction < 0x10_0000_0000_0000
    ensures var bits := sign * 0x8000_0000_0000_0000 + exponent * 0x10_0000_0000_0000 + fraction;
      Positive(Double(bits)) <==> AboveZero(sign, exponent, fraction, 0x7FF)
  {
  }

  // A float counts as a duration exactly if it is a number above zero.
  lemma PositiveIff(f: Float)
    requires FloatInRange(f)
    ensures Positive(f) <==> PositiveNumber(f)
  {
    match f
    case Zero =>
    case Single(bits) =>
      var sign, rest := bits / 0x8000_0000, bits % 0x8000_0000;
      Fields(sign, rest / 0x80_0000, rest % 0x80_0000, 0x100, 0x80_0000);
      PositiveSingle(sign, rest / 0x80_0000, rest % 0x80_0000);
    case Double(bits) =>
      var sign, rest := bits / 0x8000_0000_0000_0000, bits % 0x8000_0000_0000_0000;
      Fields(sign, rest / 0x10_0000_0000_0000, rest % 0x10_0000_0000_0000, 0x800, 0x10_0000_0000_0000);
      PositiveDouble(sign, rest / 0x10_0000_0000_0000, rest % 0x10_0000_0000_0000);
  }

  /******* The meaning of a document *******/

  function TrackOf(ts: seq<Tree>): Track {
    var video, audio := KidsOf(ts, ID_VIDEO), KidsOf(ts, ID_AUDIO);
    var ietf := LastString(ts, ID_LANGUAGE_IETF, []);
    var language := if ietf != [] then ietf else LastString(ts, ID_LANGUAGE, []);
    Track(
      LastUint(ts, ID_TRACK_NUMBER, 0),
      KindOf(LastUint(ts, ID_TRACK_TYPE, 0)),
      LastString(ts, ID_CODEC_ID, []),
      LastString(ts, ID_TRACK_NAME, []),
      if language != [] then language else UND,
      LastUint(ts, ID_FLAG_DEFAULT, 1) != 0,
      Int64(LastUint(video, ID_PIXEL_WIDTH, 0)),
      Int64(LastUint(video, ID_PIXEL_HEIGHT, 0)),
      Int64(LastUint(audio, ID_CHANNELS, 0)),
      LastFloat(audio, ID_SAMPLING_FREQUENCY, Zero))
  }

  // One track for each entry, in order.
  function TracksOf(ts: seq<Tree>): seq<Track> {
    if ts == [] then []
    else
      var t := ts[|ts| - 1];
      TracksOf(ts[..|ts| - 1]) + if t.id == ID_TRACK_ENTRY && t.Master? then [TrackOf(t.kids)] else []
  }

  function DurationOf(ts: seq<Tree>): Duration {
    Duration(LastFloat(ts, ID_DURATION, Zero), LastUint(ts, ID_TIMECODE_SCALE, DEFAULT_TIMECODE_SCALE))
  }

  // An Info element says how long the file is if it gives a duration above zero
  // and ticks that last; the last one that does counts.
  function SaidDuration(kids: seq<Tree>, before: Option<Duration>): Option<Duration> {
    var d := DurationOf(kids);
    if PositiveNumber(d.ticks) && d.scale > 0 then Some(d) else before
  }

  function SegmentDuration(tops: seq<Tree>): Option<Duration> {
    if tops == [] then None
    else
      var t := tops[|tops| - 1];
      var before := SegmentDuration(tops[..|tops| - 1]);
      if t.id == ID_INFO && t.Master? then SaidDuration(t.kids, before) else before
  }

  // A file: its EBML header, a Segment whose size may be anything, the Segment's
  // children up to the point where Info and Tracks have both been seen, and
  // whatever follows.
  datatype Document = Document(
    headerWidth: nat,
    header: seq<Tree>,
    segmentWidth: nat,
    segmentSize: nat,
    tops: seq<Tree>,
    rest: Bytes)

  function Meaning(d: Document): Info {
    Info(ContainerName(LastString(d.header, ID_DOC_TYPE, MATROSKA)),
         SegmentDuration(d.tops),
         TracksOf(KidsOf(d.tops, ID_TRACKS)))
  }

  /******* Well-formed documents *******/

  // A child whose payload its reader accepts.
  predicate UintSize(t: Tree) {
    |Body(t)| <= 8
  }

  predicate FloatSize(t: Tree) {
    |Body(t)| == 0 || |Body(t)| == 4 || |Body(t)| == 8
  }

  predicate VideoOk(t: Tree) {
    Sized(t) && (t.id == ID_PIXEL_WIDTH || t.id == ID_PIXEL_HEIGHT ==> UintSize(t))
  }

  predicate AudioOk(t: Tree) {
    && Sized(t)
    && (t.id == ID_CHANNELS ==> UintSize(t))
    && (t.id == ID_SAMPLING_FREQUENCY ==> FloatSize(t))
  }

  predicate EntryOk(t: Tree) {
    && Sized(t)
    && (IsUintField(t.id) ==> UintSize(t))
    && (t.id == ID_VIDEO ==> t.Master? && forall k | k in t.kids :: VideoOk(k))
    && (t.id == ID_AUDIO ==> t.Master? && forall k | k in t.kids :: AudioOk(k))
  }

  predicate TracksOk(t: Tree) {
    Sized(t) && (t.id == ID_TRACK_ENTRY ==> t.Master? && forall k | k in t.kids :: EntryOk(k))
  }

  predicate InfoOk(t: Tree) {
    && Sized(t)
    && (t.id == ID_TIMECODE_SCALE ==> UintSize(t))
    && (t.id == ID_DURATION ==> FloatSize(t))
  }

  predicate TracksKidsOk(kids: seq<Tree>) {
    forall k | k in kids :: TracksOk(k)
  }

  predicate TopOk(t: Tree) {
    && Sized(t) && t.id != ID_CLUSTER
    && (t.id == ID_TRACKS ==> t.Master? && TracksKidsOk(t.kids))
    && (t.id == ID_INFO ==> t.Master? && forall k | k in t.kids :: InfoOk(k))
  }

  predicate Has(ts: seq<Tree>, id: nat) {
    exists t :: t in ts && t.id == id
  }

  predicate HeaderDone(tops: seq<Tree>) {
    Has(tops, ID_INFO) && Has(tops, ID_TRACKS)
  }

  predicate WellFormed(d: Document) {
    && Sized(Master(ID_EBML, d.headerWidth, d.header))
    && (forall t | t in d.header :: Sized(t))
    && 1 <= d.segmentWidth <= 8 && d.segmentSize < Limit(d.segmentWidth)
    && (forall t | t in d.tops :: TopOk(t))
    && d.tops != [] && HeaderDone(d.tops) && !HeaderDone(d.tops[..|d.tops| - 1])
  }

  // The file up to its Segment's children, and then these bytes.
  function PrintWith(d: Document, body: Bytes): Bytes
    requires WellFormed(d)
  {
    Print(Master(ID_EBML, d.headerWidth, d.header))
    + (IdBytes(ID_SEGMENT) + SizeBytes(d.segmentWidth, d.segmentSize) + body)
  }

  function PrintDocument(d: Document): Bytes
    requires WellFormed(d)
  {
    PrintWith(d, PrintAll(d.tops) + d.rest)
  }

  /******* Parsing one level *******/

  lemma Snoc(ts: seq<Tree>, t: Tree)
    ensures (ts + [t])[..|ts|] == ts && (ts + [t])[|ts|] == t
  {
  }

  // What has been read of a track when `done` has been read.
  function DraftOf(done: seq<Tree>): Draft {
    var video, audio := KidsOf(done, ID_VIDEO), KidsOf(done, ID_AUDIO);
    Draft(
      Track(
        LastUint(done, ID_TRACK_NUMBER, 0),
        KindOf(LastUint(done, ID_TRACK_TYPE, 0)),
        LastString(done, ID_CODEC_ID, []),
        LastString(done, ID_TRACK_NAME, []),
        LastString(done, ID_LANGUAGE, []),
        LastUint(done, ID_FLAG_DEFAULT, 1) != 0,
        Int64(LastUint(video, ID_PIXEL_WIDTH, 0)),
        Int64(LastUint(video, ID_PIXEL_HEIGHT, 0)),
        Int64(LastUint(audio, ID_CHANNELS, 0)),
        LastFloat(audio, ID_SAMPLING_FREQUENCY, Zero)),
      LastString(done, ID_LANGUAGE_IETF, []))
  }

  function WithVideo(t: Track, kids: seq<Tree>): Track {
    t.(width := Int64(LastUint(kids, ID_PIXEL_WIDTH, 0)), height := Int64(LastUint(kids, ID_PIXEL_HEIGHT, 0)))
  }

  function WithAudio(t: Track, kids: seq<Tree>): Track {
    t.(channels := Int64(LastUint(kids, ID_CHANNELS, 0)), sampleRate := LastFloat(kids, ID_SAMPLING_FREQUENCY, Zero))
  }

  lemma VideoStep(done: seq<Tree>, t: Tree, track: Track)
    requires VideoOk(t)
    ensures VideoChild(WithVideo(track, done), ChildOf(t)) == Ok(WithVideo(track, done + [t]))
  {
    Snoc(done, t);
  }

  lemma {:induction false} VideoFold(done: seq<Tree>, todo: seq<Tree>, track: Track)
    requires forall t | t in todo :: VideoOk(t)
    ensures ParseVideo(ChildrenOf(todo), WithVideo(track, done)) == Ok(WithVideo(track, done + todo))
    decreases |todo|
  {
    if todo == [] {
      assert done + todo == done;
    } else {
      VideoStep(done, todo[0], track);
      VideoFold(done + [todo[0]], todo[1..], track);
      assert (done + [todo[0]]) + todo[1..] == done + todo;
    }
  }

  lemma AudioStep(done: seq<Tree>, t: Tree, track: Track)
    requires AudioOk(t)
    ensures AudioChild(WithAudio(track, done), ChildOf(t)) == Ok(WithAudio(track, done + [t]))
  {
    Snoc(done, t);
  }

  lemma {:induction false} AudioFold(done: seq<Tree>, todo: seq<Tree>, track: Track)
    requires forall t | t in todo :: AudioOk(t)
    ensures ParseAudio(ChildrenOf(todo), WithAudio(track, done)) == Ok(WithAudio(track, done + todo))
    decreases |todo|
  {
    if todo == [] {
      assert done + todo == done;
    } else {
      AudioStep(done, todo[0], track);
      AudioFold(done + [todo[0]], todo[1..], track);
      assert (done + [todo[0]]) + todo[1..] == done + todo;
    }
  }

  lemma FieldStep(done: seq<Tree>, t: Tree)
    requires EntryOk(t) && t.id != ID_VIDEO && t.id != ID_AUDIO
    ensures EntryChild(DraftOf(done), ChildOf(t)) == Ok(DraftOf(done + [t]))
  {
    Snoc(done, t);
    assert KidsOf(done + [t], ID_VIDEO) == KidsOf(done, ID_VIDEO);
    assert KidsOf(done + [t], ID_AUDIO) == KidsOf(done, ID_AUDIO);
  }

  lemma VideoElementStep(done: seq<Tree>, t: Tree)
    requires EntryOk(t) && t.id == ID_VIDEO
    ensures EntryChild(DraftOf(done), ChildOf(t)) == Ok(DraftOf(done + [t]))
  {
    Snoc(done, t);
    ElementsOfPrint(t.kids);
    VideoFold(KidsOf(done, ID_VIDEO), t.kids, DraftOf(done).track);
    assert KidsOf(done + [t], ID_AUDIO) == KidsOf(done, ID_AUDIO);
  }

  lemma AudioElementStep(done: seq<Tree>, t: Tree)
    requires EntryOk(t) && t.id == ID_AUDIO
    ensures EntryChild(DraftOf(done), ChildOf(t)) == Ok(DraftOf(done + [t]))
  {
    Snoc(done, t);
    ElementsOfPrint(t.kids);
    AudioFold(KidsOf(done, ID_AUDIO), t.kids, DraftOf(done).track);
    assert KidsOf(done + [t], ID_VIDEO) == KidsOf(done, ID_VIDEO);
  }

  lemma EntryStep(done: seq<Tree>, t: Tree)
    requires EntryOk(t)
    ensures EntryChild(DraftOf(done), ChildOf(t)) == Ok(DraftOf(done + [t]))
  {
    if t.id == ID_VIDEO {
      VideoElementStep(done, t);
    } else if t.id == ID_AUDIO {
      AudioElementStep(done, t);
    } else {
      FieldStep(done, t);
    }
  }

  lemma ShiftOne(done: seq<Tree>, todo: seq<Tree>)
    requires todo != []
    ensures todo[0] in todo && (done + [todo[0]]) + todo[1..] == done + todo
    ensures forall t | t in todo[1..] :: t in todo
  {
  }

  lemma {:induction false} EntryFold(done: seq<Tree>, todo: seq<Tree>)
    requires forall t | t in todo :: EntryOk(t)
    ensures ParseEntry(ChildrenOf(todo), DraftOf(done)) == Ok(DraftOf(done + todo))
    decreases |todo|
  {
    if todo == [] {
      assert done + todo == done;
    } else {
      ShiftOne(done, todo);
      EntryStep(done, todo[0]);
      EntryFold(done + [todo[0]], todo[1..]);
    }
  }

  lemma FinishedDraft(kids: seq<Tree>)
    ensures Finished(DraftOf(kids)) == TrackOf(kids)
  {
  }

  lemma EntryParses(kids: seq<Tree>)
    requires forall t | t in kids :: EntryOk(t)
    ensures match ParseEntry(Elements(PrintAll(kids)), NEW_DRAFT)
      case Ok(d) => Finished(d) == TrackOf(kids)
      case Err(_) => false
  {
    ElementsOfPrint(kids);
    assert DraftOf([]) == NEW_DRAFT;
    EntryFold([], kids);
    assert [] + kids == kids;
    FinishedDraft(kids);
  }

  lemma TracksStep(done: seq<Tree>, t: Tree)
    requires TracksOk(t)
    ensures TracksChild(TracksOf(done), ChildOf(t)) == Ok(TracksOf(done + [t]))
  {
    Snoc(done, t);
    if t.id == ID_TRACK_ENTRY {
      EntryParses(t.kids);
    } else {
      assert TracksOf(done) + [] == TracksOf(done);
    }
  }

  lemma {:induction false} TracksFold(done: seq<Tree>, todo: seq<Tree>)
    requires forall t | t in todo :: TracksOk(t)
    ensures ParseTracks(ChildrenOf(todo), TracksOf(done)) == Ok(TracksOf(done + todo))
    decreases |todo|
  {
    if todo == [] {
      assert done + todo == done;
    } else {
      ShiftOne(done, todo);
      TracksStep(done, todo[0]);
      TracksFold(done + [todo[0]], todo[1..]);
    }
  }

  lemma InfoStep(done: seq<Tree>, t: Tree)
    requires InfoOk(t)
    ensures InfoChild(DurationOf(done), ChildOf(t)) == Ok(DurationOf(done + [t]))
  {
    Snoc(done, t);
  }

  lemma {:induction false} InfoFold(done: seq<Tree>, todo: seq<Tree>)
    requires forall t | t in todo :: InfoOk(t)
    ensures ParseInfo(ChildrenOf(todo), DurationOf(done)) == Ok(DurationOf(done + todo))
    decreases |todo|
  {
    if todo == [] {
      assert done + todo == done;
    } else {
      InfoStep(done, todo[0]);
      InfoFold(done + [todo[0]], todo[1..]);
      assert (done + [todo[0]]) + todo[1..] == done + todo;
    }
  }

  lemma {:induction false} HeaderFold(done: seq<Tree>, todo: seq<Tree>)
    requires forall t | t in todo :: Sized(t)
    ensures ParseEbml(ChildrenOf(todo), LastString(done, ID_DOC_TYPE, MATROSKA))
         == Ok(LastString(done + todo, ID_DOC_TYPE, MATROSKA))
    decreases |todo|
  {
    if todo == [] {
      assert done + todo == done;
    } else {
      Snoc(done, todo[0]);
      HeaderFold(done + [todo[0]], todo[1..]);
      assert (done + [todo[0]]) + todo[1..] == done + todo;
    }
  }

  /******* Parsing a document *******/

  function At(container: Container, done: seq<Tree>): Progress {
    Progress(Info(container, SegmentDuration(done), TracksOf(KidsOf(done, ID_TRACKS))),
             Has(done, ID_INFO), Has(done, ID_TRACKS))
  }

  lemma HasSnoc(done: seq<Tree>, t: Tree, id: nat)
    ensures Has(done + [t], id) <==> Has(done, id) || t.id == id
  {
    if Has(done, id) {
      var u :| u in done && u.id == id;
      assert u in done + [t];
    }
    if t.id == id {
      assert t in done + [t];
    }
  }

  // The duration of an Info element is read as what it says.
  lemma InfoSays(kids: seq<Tree>, before: Option<Duration>)
    requires forall k | k in kids :: InfoOk(k)
    ensures Effective(DurationOf(kids), before) == SaidDuration(kids, before)
  {
    LastFloatInRange(kids);
    PositiveIff(DurationOf(kids).ticks);
  }

  lemma {:induction false} LastFloatInRange(kids: seq<Tree>)
    requires forall k | k in kids :: InfoOk(k)
    ensures FloatInRange(LastFloat(kids, ID_DURATION, Zero))
  {
    if kids != [] {
      var t := kids[|kids| - 1];
      if t.id == ID_DURATION {
        assert InfoOk(t);
        ToBigBig(Body(t));
        assert FloatSize(t) && LastFloat(kids, ID_DURATION, Zero) == FloatValue(Body(t));
      } else {
        LastFloatInRange(kids[..|kids| - 1]);
      }
    }
  }

  lemma InfoElementStep(container: Container, done: seq<Tree>, t: Tree)
    requires TopOk(t) && t.id == ID_INFO
    ensures SegmentChild(At(container, done), ChildOf(t), false) == Ok(At(container, done + [t]))
  {
    Snoc(done, t);
    HasSnoc(done, t, ID_INFO);
    HasSnoc(done, t, ID_TRACKS);
    ElementsOfPrint(t.kids);
    InfoFold([], t.kids);
    InfoSays(t.kids, SegmentDuration(done));
    assert [] + t.kids == t.kids;
    assert KidsOf(done + [t], ID_TRACKS) == KidsOf(done, ID_TRACKS);
  }

  lemma TracksElementStep(container: Container, done: seq<Tree>, t: Tree)
    requires TopOk(t) && t.id == ID_TRACKS
    ensures SegmentChild(At(container, done), ChildOf(t), false) == Ok(At(container, done + [t]))
  {
    Snoc(done, t);
    HasSnoc(done, t, ID_INFO);
    HasSnoc(done, t, ID_TRACKS);
    ElementsOfPrint(t.kids);
    TracksFold(KidsOf(done, ID_TRACKS), t.kids);
  }

  lemma OtherElementStep(container: Container, done: seq<Tree>, t: Tree)
    requires TopOk(t) && t.id != ID_INFO && t.id != ID_TRACKS
    ensures SegmentChild(At(container, done), ChildOf(t), false) == Ok(At(container, done + [t]))
  {
    Snoc(done, t);
    HasSnoc(done, t, ID_INFO);
    HasSnoc(done, t, ID_TRACKS);
    assert KidsOf(done + [t], ID_TRACKS) == KidsOf(done, ID_TRACKS);
  }

  lemma TopStep(container: Container, done: seq<Tree>, t: Tree)
    requires TopOk(t)
    ensures SegmentChild(At(container, done), ChildOf(t), false) == Ok(At(container, done + [t]))
  {
    if t.id == ID_INFO {
      InfoElementStep(container, done, t);
    } else if t.id == ID_TRACKS {
      TracksElementStep(container, done, t);
    } else {
      OtherElementStep(container, done, t);
    }
  }

  // One child of the Segment is consumed to exactly its size.
  lemma SegmentTurn(p: Progress, q: Progress, t: Tree, later: Bytes)
    requires Sized(t) && !Complete(p) && SegmentChild(p, ChildOf(t), false) == Ok(q)
    ensures ParseSegment(Print(t) + later, p) == ParseSegment(later, q)
  {
    ElementRoundTrip(t, later);
    var body := Body(t);
    assert (body + later)[..|body|] == body && (body + later)[|body|..] == later;
  }

  // Before the last of these children the header is not complete.
  ghost predicate Open(done: seq<Tree>, todo: seq<Tree>) {
    todo != [] ==> !HeaderDone(done + todo[..|todo| - 1])
  }

  lemma OpenStep(container: Container, done: seq<Tree>, todo: seq<Tree>)
    requires Open(done, todo) && todo != []
    ensures !Complete(At(container, done))
    ensures Open(done + [todo[0]], todo[1..])
  {
    HasPrefix(done, todo[..|todo| - 1], ID_INFO);
    HasPrefix(done, todo[..|todo| - 1], ID_TRACKS);
    ShiftOne(done, todo);
    if |todo| > 1 {
      assert (done + [todo[0]]) + todo[1..][..|todo[1..]| - 1] == done + todo[..|todo| - 1];
    }
  }

  lemma Regroup(a: Bytes, b: Bytes, c: Bytes)
    ensures (a + b) + c == a + (b + c)
  {
  }

  lemma PrintFirst(ts: seq<Tree>, rest: Bytes)
    requires ts != []
    ensures PrintAll(ts) + rest == Print(ts[0]) + (PrintAll(ts[1..]) + rest)
  {
    Regroup(Print(ts[0]), PrintAll(ts[1..]), rest);
  }

  // The Segment's children are read one by one, whatever follows them.
  lemma {:induction false} SegmentFold(container: Container, done: seq<Tree>, todo: seq<Tree>, rest: Bytes)
    requires (forall t | t in todo :: TopOk(t)) && Open(done, todo)
    ensures ParseSegment(PrintAll(todo) + rest, At(container, done)) == ParseSegment(rest, At(container, done + todo))
    decreases |todo|
  {
    if todo == [] {
      assert done + todo == done && PrintAll(todo) + rest == rest;
    } else {
      var t, later := todo[0], PrintAll(todo[1..]) + rest;
      ShiftOne(done, todo);
      OpenStep(container, done, todo);
      TopStep(container, done, t);
      PrintFirst(todo, rest);
      SegmentTurn(At(container, done), At(container, done + [t]), t, later);
      SegmentFold(container, done + [t], todo[1..], rest);
    }
  }

  lemma HasPrefix(a: seq<Tree>, b: seq<Tree>, id: nat)
    ensures Has(a, id) ==> Has(a + b, id)
  {
    if Has(a, id) {
      var t :| t in a && t.id == id;
      assert t in a + b;
    }
  }

  // After its EBML header a file is read as its Segment.
  lemma SegmentIsRead(d: Document, body: Bytes)
    requires WellFormed(d)
    ensures ParseMatroska(PrintWith(d, body))
         == ParseSegment(body, At(ContainerName(LastString(d.header, ID_DOC_TYPE, MATROSKA)), []))
  {
    var header := Master(ID_EBML, d.headerWidth, d.header);
    var later := IdBytes(ID_SEGMENT) + SizeBytes(d.segmentWidth, d.segmentSize) + body;
    var bytes := PrintAll(d.header);
    ElementRoundTrip(header, later);
    assert (bytes + later)[..|bytes|] == bytes && (bytes + later)[|bytes|..] == later;
    ElementsOfPrint(d.header);
    HeaderFold([], d.header);
    assert [] + d.header == d.header;
    HeaderRoundTrip(ID_SEGMENT, d.segmentWidth, d.segmentSize, body);
  }

  // Parsing the bytes of any well-formed document, whatever elements it holds
  // beside those that are understood, whatever the size of its Segment and
  // whatever follows its header, gives the document's meaning.
  lemma ParsePrint(d: Document)
    requires WellFormed(d)
    ensures ParseMatroska(PrintDocument(d)) == Ok(Meaning(d))
  {
    var container := ContainerName(LastString(d.header, ID_DOC_TYPE, MATROSKA));
    SegmentIsRead(d, PrintAll(d.tops) + d.rest);
    assert [] + d.tops == d.tops && [] + d.tops[..|d.tops| - 1] == d.tops[..|d.tops| - 1];
    SegmentFold(container, [], d.tops, d.rest);
    assert Complete(At(container, d.tops));
  }

  /******* Unrecognised elements *******/

  predicate InVideo(id: nat) { id == ID_PIXEL_WIDTH || id == ID_PIXEL_HEIGHT }

  predicate InAudio(id: nat) { id == ID_CHANNELS || id == ID_SAMPLING_FREQUENCY }

  predicate InEntry(id: nat) {
    IsUintField(id) || IsStringField(id) || id == ID_VIDEO || id == ID_AUDIO
  }

  predicate InInfo(id: nat) { id == ID_TIMECODE_SCALE || id == ID_DURATION }

  // The parts of a document the format prescribes, level by level: unrecognised
  // elements are dropped and size widths forgotten.
  datatype Level = VideoLevel | AudioLevel | EntryLevel | TracksLevel | InfoLevel | TopLevel | HeaderLevel

  predicate Known(l: Level, id: nat) {
    match l
    case VideoLevel => InVideo(id)
    case AudioLevel => InAudio(id)
    case EntryLevel => InEntry(id)
    case TracksLevel => id == ID_TRACK_ENTRY
    case InfoLevel => InInfo(id)
    case TopLevel => id == ID_INFO || id == ID_TRACKS
    case HeaderLevel => id == ID_DOC_TYPE
  }

  // The level of the children of an element, if it is a master element there.
  function Below(l: Level, id: nat): Option<Level> {
    if l == EntryLevel && id == ID_VIDEO then Some(VideoLevel)
    else if l == EntryLevel && id == ID_AUDIO then Some(AudioLevel)
    else if l == TracksLevel && id == ID_TRACK_ENTRY then Some(EntryLevel)
    else if l == TopLevel && id == ID_TRACKS then Some(TracksLevel)
    else if l == TopLevel && id == ID_INFO then Some(InfoLevel)
    else None
  }

  function Core(l: Level, t: Tree): Tree
    decreases t
  {
    match Below(l, t.id)
    case Some(k) => if t.Master? then Master(t.id, 0, Cores(k, t.kids)) else Leaf(t.id, 0, t.bytes)
    case None => Leaf(t.id, 0, Body(t))
  }

  function Cores(l: Level, ts: seq<Tree>): seq<Tree>
    decreases ts
  {
    if ts == [] then []
    else
      Cores(l, ts[..|ts| - 1]) + if Known(l, ts[|ts| - 1].id) then [Core(l, ts[|ts| - 1])] else []
  }

  lemma CoreFacts(l: Level, t: Tree)
    ensures Core(l, t).id == t.id
    ensures Below(l, t.id).None? ==> Body(Core(l, t)) == Body(t)
  {
  }

  lemma {:induction false} CoresAppend(l: Level, a: seq<Tree>, b: seq<Tree>)
    ensures Cores(l, a + b) == Cores(l, a) + Cores(l, b)
  {
    if b == [] {
      assert a + b == a;
    } else {
      var front := b[..|b| - 1];
      assert (a + b)[..|a + b| - 1] == a + front;
      CoresAppend(l, a, front);
    }
  }

  lemma CoresSnoc(l: Level, ts: seq<Tree>)
    requires ts != []
    ensures var front, t := ts[..|ts| - 1], ts[|ts| - 1];
      Cores(l, ts) == if Known(l, t.id) then Cores(l, front) + [Core(l, t)] else Cores(l, front)
  {
  }

  lemma LastSnoc(ts: seq<Tree>, t: Tree, id: nat)
    ensures LastBody(ts + [t], id) == if t.id == id then Some(Body(t)) else LastBody(ts, id)
    ensures KidsOf(ts + [t], id) == if t.id == id && t.Master? then KidsOf(ts, id) + t.kids else KidsOf(ts, id)
  {
    Snoc(ts, t);
  }

  lemma {:induction false} CoresLast(l: Level, ts: seq<Tree>, id: nat)
    requires Known(l, id) && Below(l, id).None?
    ensures LastBody(Cores(l, ts), id) == LastBody(ts, id)
  {
    if ts != [] {
      var front, t := ts[..|ts| - 1], ts[|ts| - 1];
      CoresLast(l, front, id);
      CoresSnoc(l, ts);
      CoreFacts(l, t);
      LastSnoc(Cores(l, front), Core(l, t), id);
    }
  }

  lemma CoreKids(l: Level, t: Tree, k: Level)
    requires Below(l, t.id) == Some(k)
    ensures Core(l, t) == if t.Master? then Master(t.id, 0, Cores(k, t.kids)) else Leaf(t.id, 0, t.bytes)
  {
  }

  lemma {:induction false} CoresKids(l: Level, ts: seq<Tree>, id: nat, k: Level)
    requires Known(l, id) && Below(l, id) == Some(k)
    ensures KidsOf(Cores(l, ts), id) == Cores(k, KidsOf(ts, id))
  {
    if ts != [] {
      var front, t := ts[..|ts| - 1], ts[|ts| - 1];
      assert ts == front + [t];
      CoresKids(l, front, id, k);
      CoresSnoc(l, ts);
      CoreFacts(l, t);
      LastSnoc(front, t, id);
      LastSnoc(Cores(l, front), Core(l, t), id);
      if t.id == id {
        CoreKids(l, t, k);
        if t.Master? { CoresAppend(k, KidsOf(front, id), t.kids); }
      }
    }
  }

  lemma CoreVideo(ts: seq<Tree>)
    ensures var kids, cores := KidsOf(ts, ID_VIDEO), KidsOf(Cores(EntryLevel, ts), ID_VIDEO);
      && LastBody(cores, ID_PIXEL_WIDTH) == LastBody(kids, ID_PIXEL_WIDTH)
      && LastBody(cores, ID_PIXEL_HEIGHT) == LastBody(kids, ID_PIXEL_HEIGHT)
  {
    CoresKids(EntryLevel, ts, ID_VIDEO, VideoLevel);
    CoresLast(VideoLevel, KidsOf(ts, ID_VIDEO), ID_PIXEL_WIDTH);
    CoresLast(VideoLevel, KidsOf(ts, ID_VIDEO), ID_PIXEL_HEIGHT);
  }

  lemma CoreAudio(ts: seq<Tree>)
    ensures var kids, cores := KidsOf(ts, ID_AUDIO), KidsOf(Cores(EntryLevel, ts), ID_AUDIO);
      && LastBody(cores, ID_CHANNELS) == LastBody(kids, ID_CHANNELS)
      && LastBody(cores, ID_SAMPLING_FREQUENCY) == LastBody(kids, ID_SAMPLING_FREQUENCY)
  {
    CoresKids(EntryLevel, ts, ID_AUDIO, AudioLevel);
    CoresLast(AudioLevel, KidsOf(ts, ID_AUDIO), ID_CHANNELS);
    CoresLast(AudioLevel, KidsOf(ts, ID_AUDIO), ID_SAMPLING_FREQUENCY);
  }

  predicate SameLast(a: seq<Tree>, b: seq<Tree>, id: nat) {
    LastBody(a, id) == LastBody(b, id)
  }

  lemma CoreFields(ts: seq<Tree>)
    ensures var cores := Cores(EntryLevel, ts);
      && SameLast(cores, ts, ID_TRACK_NUMBER) && SameLast(cores, ts, ID_TRACK_TYPE)
      && SameLast(cores, ts, ID_FLAG_DEFAULT)
      && SameLast(cores, ts, ID_CODEC_ID) && SameLast(cores, ts, ID_TRACK_NAME) && SameLast(cores, ts, ID_LANGUAGE)
      && SameLast(cores, ts, ID_LANGUAGE_IETF)
  {
    CoresLast(EntryLevel, ts, ID_TRACK_NUMBER);
    CoresLast(EntryLevel, ts, ID_TRACK_TYPE);
    CoresLast(EntryLevel, ts, ID_FLAG_DEFAULT);
    CoresLast(EntryLevel, ts, ID_CODEC_ID);
    CoresLast(EntryLevel, ts, ID_TRACK_NAME);
    CoresLast(EntryLevel, ts, ID_LANGUAGE);
    CoresLast(EntryLevel, ts, ID_LANGUAGE_IETF);
  }

  lemma CoreTrack(ts: seq<Tree>)
    ensures TrackOf(Cores(EntryLevel, ts)) == TrackOf(ts)
  {
    CoreFields(ts);
    CoreVideo(ts);
    CoreAudio(ts);
  }

  lemma TracksSnoc(ts: seq<Tree>, t: Tree)
    ensures TracksOf(ts + [t])
         == if t.id == ID_TRACK_ENTRY && t.Master? then TracksOf(ts) + [TrackOf(t.kids)] else TracksOf(ts)
  {
    Snoc(ts, t);
  }

  lemma {:induction false} CoreTracks(ts: seq<Tree>)
    ensures TracksOf(Cores(TracksLevel, ts)) == TracksOf(ts)
  {
    if ts != [] {
      var front, t := ts[..|ts| - 1], ts[|ts| - 1];
      assert ts == front + [t];
      CoreTracks(front);
      CoresSnoc(TracksLevel, ts);
      TracksSnoc(front, t);
      if t.id == ID_TRACK_ENTRY {
        CoreKids(TracksLevel, t, EntryLevel);
        TracksSnoc(Cores(TracksLevel, front), Core(TracksLevel, t));
        if t.Master? { CoreTrack(t.kids); }
      }
    }
  }

  lemma CoreInfo(ts: seq<Tree>)
    ensures DurationOf(Cores(InfoLevel, ts)) == DurationOf(ts)
  {
    CoresLast(InfoLevel, ts, ID_DURATION);
    CoresLast(InfoLevel, ts, ID_TIMECODE_SCALE);
  }

  lemma DurationSnoc(ts: seq<Tree>, t: Tree)
    ensures SegmentDuration(ts + [t])
         == if t.id == ID_INFO && t.Master? then SaidDuration(t.kids, SegmentDuration(ts)) else SegmentDuration(ts)
  {
    Snoc(ts, t);
  }

  lemma CoreInfoElement(t: Tree, before: Option<Duration>)
    requires t.id == ID_INFO
    ensures Core(TopLevel, t).id == ID_INFO && (Core(TopLevel, t).Master? <==> t.Master?)
    ensures t.Master? ==> SaidDuration(Core(TopLevel, t).kids, before) == SaidDuration(t.kids, before)
  {
    CoreKids(TopLevel, t, InfoLevel);
    if t.Master? { CoreInfo(t.kids); }
  }

  lemma CoreDurationStep(front: seq<Tree>, t: Tree)
    requires SegmentDuration(Cores(TopLevel, front)) == SegmentDuration(front)
    ensures SegmentDuration(Cores(TopLevel, front + [t])) == SegmentDuration(front + [t])
  {
    Snoc(front, t);
    CoresSnoc(TopLevel, front + [t]);
    CoreFacts(TopLevel, t);
    DurationSnoc(front, t);
    DurationSnoc(Cores(TopLevel, front), Core(TopLevel, t));
    if t.id == ID_INFO {
      CoreInfoElement(t, SegmentDuration(front));
    }
  }

  lemma {:induction false} CoreDuration(ts: seq<Tree>)
    ensures SegmentDuration(Cores(TopLevel, ts)) == SegmentDuration(ts)
  {
    if ts != [] {
      CoreDuration(ts[..|ts| - 1]);
      CoreDurationStep(ts[..|ts| - 1], ts[|ts| - 1]);
      assert ts == ts[..|ts| - 1] + [ts[|ts| - 1]];
    }
  }

  // The prescribed part of a file.
  function CoreDocument(d: Document): Document {
    Document(0, Cores(HeaderLevel, d.header), 0, 0, Cores(TopLevel, d.tops), [])
  }

  // Unrecognised elements, at any level, and size widths mean nothing.
  lemma CoreMeaning(d: Document)
    ensures Meaning(CoreDocument(d)) == Meaning(d)
  {
    CoresLast(HeaderLevel, d.header, ID_DOC_TYPE);
    CoreDuration(d.tops);
    CoresKids(TopLevel, d.tops, ID_TRACKS, TracksLevel);
    CoreTracks(KidsOf(d.tops, ID_TRACKS));
  }

  /******* Writing a header *******/

  // The shortest big-endian form.
  function UintBytes(v: nat): Bytes {
    if v < 256 then [v] else UintBytes(v / 256) + [v % 256]
  }

  lemma {:induction false} UintBytesValue(v: nat)
    ensures Big(UintBytes(v)) == v
  {
    if v < 256 {
      assert [v][..0] == [];
    } else {
      UintBytesValue(v / 256);
      var b := UintBytes(v);
      assert b[..|b| - 1] == UintBytes(v / 256);
    }
  }

  function FloatBytes(f: Float): Bytes {
    match f
    case Zero => []
    case Single(bits) => ToBig(bits, 4)
    case Double(bits) => ToBig(bits, 8)
  }

  lemma FloatBytesValue(f: Float)
    requires FloatInRange(f)
    ensures FloatValue(FloatBytes(f)) == f
  {
    match f
    case Zero =>
    case Single(bits) => BigToBig(bits, 4);
    case Double(bits) => BigToBig(bits, 8);
  }

  function Uint64(v: int): nat
    requires -0x8000_0000_0000_0000 <= v < 0x8000_0000_0000_0000
  {
    if v < 0 then v + 0x1_0000_0000_0000_0000 else v
  }

  function KindValue(k: Kind): nat {
    match k case Video => 1 case Audio => 2 case Subtitle => 17 case Other => 0
  }

  predicate IntInRange(v: int) {
    -0x8000_0000_0000_0000 <= v < 0x8000_0000_0000_0000
  }

  // A track the parser can return.
  predicate TrackInRange(t: Track) {
    && TrimNul(t.codecID) == t.codecID && TrimNul(t.name) == t.name
    && TrimNul(t.language) == t.language && t.language != []
    && IntInRange(t.width) && IntInRange(t.height) && IntInRange(t.channels)
    && FloatInRange(t.sampleRate)
  }

  predicate InfoInRange(i: Info) {
    && (forall t | t in i.tracks :: TrackInRange(t))
    && (i.duration.Some? ==>
          && PositiveNumber(i.duration.value.ticks) && FloatInRange(i.duration.value.ticks)
          && i.duration.value.scale > 0)
  }

  function WriteVideo(t: Track): Tree
    requires TrackInRange(t)
  {
    Master(ID_VIDEO, 8, [
      Leaf(ID_PIXEL_WIDTH, 8, UintBytes(Uint64(t.width))),
      Leaf(ID_PIXEL_HEIGHT, 8, UintBytes(Uint64(t.height)))])
  }

  function WriteAudio(t: Track): Tree
    requires TrackInRange(t)
  {
    Master(ID_AUDIO, 8, [
      Leaf(ID_CHANNELS, 8, UintBytes(Uint64(t.channels))),
      Leaf(ID_SAMPLING_FREQUENCY, 8, FloatBytes(t.sampleRate))])
  }

  function WriteEntry(t: Track): seq<Tree>
    requires TrackInRange(t)
  {
    [ Leaf(ID_TRACK_NUMBER, 8, UintBytes(t.number)),
      Leaf(ID_TRACK_TYPE, 8, UintBytes(KindValue(t.kind))),
      Leaf(ID_CODEC_ID, 8, t.codecID),
      Leaf(ID_TRACK_NAME, 8, t.name),
      Leaf(ID_LANGUAGE, 8, t.language),
      Leaf(ID_FLAG_DEFAULT, 8, UintBytes(if t.isDefault then 1 else 0)),
      WriteVideo(t),
      WriteAudio(t) ]
  }

  function WriteTrack(t: Track): Tree
    requires TrackInRange(t)
  {
    Master(ID_TRACK_ENTRY, 8, WriteEntry(t))
  }

  function WriteTracks(ts: seq<Track>): (ks: seq<Tree>)
    requires forall t | t in ts :: TrackInRange(t)
    ensures |ks| == |ts| && forall i: nat | i < |ts| :: ks[i] == WriteTrack(ts[i])
  {
    seq(|ts|, i requires 0 <= i < |ts| => WriteTrack(ts[i]))
  }

  function WriteInfo(d: Option<Duration>): seq<Tree> {
    match d
    case None => []
    case Some(x) => [Leaf(ID_TIMECODE_SCALE, 8, UintBytes(x.scale)), Leaf(ID_DURATION, 8, FloatBytes(x.ticks))]
  }

  // Info and Tracks in either order.
  function WriteTops(i: Info, infoFirst: bool): seq<Tree>
    requires InfoInRange(i)
  {
    var info, tracks := Master(ID_INFO, 8, WriteInfo(i.duration)), Master(ID_TRACKS, 8, WriteTracks(i.tracks));
    if infoFirst then [info, tracks] else [tracks, info]
  }

  function DocTypeOf(c: Container): Bytes {
    if c.WebM? then WEBM else MATROSKA
  }

  // A header that says exactly i, in a Segment of unknown size.
  function WriteHeader(i: Info, infoFirst: bool): Document
    requires InfoInRange(i)
  {
    Document(8, [Leaf(ID_DOC_TYPE, 8, DocTypeOf(i.container))], 8, Limit(8) - 1, WriteTops(i, infoFirst), [])
  }

  lemma {:induction false} LastAt(ts: seq<Tree>, n: nat, id: nat)
    requires n < |ts| && ts[n].id == id && forall j | n < j < |ts| :: ts[j].id != id
    ensures LastBody(ts, id) == Some(Body(ts[n]))
  {
    if n < |ts| - 1 {
      LastAt(ts[..|ts| - 1], n, id);
    }
  }

  lemma {:induction false} LastNone(ts: seq<Tree>, id: nat)
    requires forall j | 0 <= j < |ts| :: ts[j].id != id
    ensures LastBody(ts, id) == None && KidsOf(ts, id) == []
  {
    if ts != [] {
      LastNone(ts[..|ts| - 1], id);
    }
  }

  lemma {:induction false} KidsAt(ts: seq<Tree>, n: nat, id: nat)
    requires n < |ts| && ts[n].Master? && ts[n].id == id && forall j | 0 <= j < |ts| && j != n :: ts[j].id != id
    ensures KidsOf(ts, id) == ts[n].kids
  {
    if n < |ts| - 1 {
      KidsAt(ts[..|ts| - 1], n, id);
    } else {
      LastNone(ts[..n], id);
    }
  }

  lemma WrittenVideo(t: Track)
    requires TrackInRange(t)
    ensures var kids := WriteVideo(t).kids;
      && Int64(LastUint(kids, ID_PIXEL_WIDTH, 0)) == t.width
      && Int64(LastUint(kids, ID_PIXEL_HEIGHT, 0)) == t.height
  {
    var kids := WriteVideo(t).kids;
    LastAt(kids, 0, ID_PIXEL_WIDTH);
    LastAt(kids, 1, ID_PIXEL_HEIGHT);
    UintBytesValue(Uint64(t.width));
    UintBytesValue(Uint64(t.height));
  }

  lemma WrittenAudio(t: Track)
    requires TrackInRange(t)
    ensures var kids := WriteAudio(t).kids;
      && Int64(LastUint(kids, ID_CHANNELS, 0)) == t.channels
      && LastFloat(kids, ID_SAMPLING_FREQUENCY, Zero) == t.sampleRate
  {
    var kids := WriteAudio(t).kids;
    LastAt(kids, 0, ID_CHANNELS);
    LastAt(kids, 1, ID_SAMPLING_FREQUENCY);
    UintBytesValue(Uint64(t.channels));
    FloatBytesValue(t.sampleRate);
  }

  lemma WrittenFields(t: Track)
    requires TrackInRange(t)
    ensures var kids := WriteEntry(t);
      && LastUint(kids, ID_TRACK_NUMBER, 0) == t.number
      && KindOf(LastUint(kids, ID_TRACK_TYPE, 0)) == t.kind
      && (LastUint(kids, ID_FLAG_DEFAULT, 1) != 0) == t.isDefault
  {
    var kids := WriteEntry(t);
    LastAt(kids, 0, ID_TRACK_NUMBER);
    LastAt(kids, 1, ID_TRACK_TYPE);
    LastAt(kids, 5, ID_FLAG_DEFAULT);
    UintBytesValue(t.number);
    UintBytesValue(KindValue(t.kind));
    UintBytesValue(if t.isDefault then 1 else 0);
  }

  lemma WrittenStrings(t: Track)
    requires TrackInRange(t)
    ensures var kids := WriteEntry(t);
      && LastString(kids, ID_CODEC_ID, []) == t.codecID
      && LastString(kids, ID_TRACK_NAME, []) == t.name
      && LastString(kids, ID_LANGUAGE, []) == t.language
      && LastString(kids, ID_LANGUAGE_IETF, []) == []
  {
    var kids := WriteEntry(t);
    LastAt(kids, 2, ID_CODEC_ID);
    LastAt(kids, 3, ID_TRACK_NAME);
    LastAt(kids, 4, ID_LANGUAGE);
    LastNone(kids, ID_LANGUAGE_IETF);
  }

  lemma WrittenTrack(t: Track)
    requires TrackInRange(t)
    ensures TrackOf(WriteEntry(t)) == t
  {
    WrittenFields(t);
    WrittenStrings(t);
    KidsAt(WriteEntry(t), 6, ID_VIDEO);
    KidsAt(WriteEntry(t), 7, ID_AUDIO);
    WrittenVideo(t);
    WrittenAudio(t);
  }

  // Entry by entry, these elements say these tracks.
  ghost predicate Says(ks: seq<Tree>, ts: seq<Track>) {
    && |ks| == |ts|
    && forall i: nat | i < |ks| :: ks[i].id == ID_TRACK_ENTRY && ks[i].Master? && TrackOf(ks[i].kids) == ts[i]
  }

  lemma Front<T>(a: seq<T>, n: nat)
    requires 0 < n <= |a|
    ensures a[..n][..n - 1] == a[..n - 1] && a[..n] == a[..n - 1] + [a[n - 1]]
  {
  }

  lemma {:induction false} SaysTracks(ks: seq<Tree>, ts: seq<Track>, n: nat)
    requires Says(ks, ts) && n <= |ks|
    ensures TracksOf(ks[..n]) == ts[..n]
  {
    if n > 0 {
      SaysTracks(ks, ts, n - 1);
      Front(ks, n);
      Front(ts, n);
    }
  }

  lemma WrittenTracks(ts: seq<Track>)
    requires forall t | t in ts :: TrackInRange(t)
    ensures TracksOf(WriteTracks(ts)) == ts
  {
    forall i: nat | i < |ts| ensures TrackOf(WriteTrack(ts[i]).kids) == ts[i] {
      WrittenTrack(ts[i]);
    }
    var ks := WriteTracks(ts);
    SaysTracks(ks, ts, |ts|);
    assert ks[..|ts|] == ks && ts[..|ts|] == ts;
  }

  lemma WrittenInfo(d: Option<Duration>)
    requires d.Some? ==> PositiveNumber(d.value.ticks) && FloatInRange(d.value.ticks) && d.value.scale > 0
    ensures SaidDuration(WriteInfo(d), None) == d
  {
    var kids := WriteInfo(d);
    if d.Some? {
      LastAt(kids, 0, ID_TIMECODE_SCALE);
      LastAt(kids, 1, ID_DURATION);
      UintBytesValue(d.value.scale);
      FloatBytesValue(d.value.ticks);
    }
  }

  lemma Two(a: Tree, b: Tree)
    ensures [a, b] == ([] + [a]) + [b]
  {
  }

  lemma WrittenDuration(i: Info, infoFirst: bool)
    requires InfoInRange(i)
    ensures SegmentDuration(WriteTops(i, infoFirst)) == i.duration
  {
    var tops := WriteTops(i, infoFirst);
    WrittenInfo(i.duration);
    Two(tops[0], tops[1]);
    DurationSnoc([], tops[0]);
    DurationSnoc([] + [tops[0]], tops[1]);
  }

  lemma WrittenTops(i: Info, infoFirst: bool)
    requires InfoInRange(i)
    ensures SegmentDuration(WriteTops(i, infoFirst)) == i.duration
    ensures TracksOf(KidsOf(WriteTops(i, infoFirst), ID_TRACKS)) == i.tracks
  {
    WrittenDuration(i, infoFirst);
    KidsAt(WriteTops(i, infoFirst), if infoFirst then 1 else 0, ID_TRACKS);
    WrittenTracks(i.tracks);
  }

  lemma WrittenContainer(c: Container)
    ensures ContainerName(LastString([Leaf(ID_DOC_TYPE, 8, DocTypeOf(c))], ID_DOC_TYPE, MATROSKA)) == c
  {
    var header := [Leaf(ID_DOC_TYPE, 8, DocTypeOf(c))];
    LastAt(header, 0, ID_DOC_TYPE);
    assert TrimNul(DocTypeOf(c)) == DocTypeOf(c);
  }

  lemma WrittenMeaning(i: Info, infoFirst: bool)
    requires InfoInRange(i)
    ensures Meaning(WriteHeader(i, infoFirst)) == i
  {
    WrittenTops(i, infoFirst);
    WrittenContainer(i.container);
  }

  // Whatever else a file holds: if the part of it that the format prescribes is
  // that of a written header, parsing the file gives back what was written.
  lemma WriteThenParse(i: Info, infoFirst: bool, d: Document)
    requires InfoInRange(i) && WellFormed(d)
    requires CoreDocument(d) == CoreDocument(WriteHeader(i, infoFirst))
    ensures ParseMatroska(PrintDocument(d)) == Ok(i)
  {
    ParsePrint(d);
    CoreMeaning(d);
    CoreMeaning(WriteHeader(i, infoFirst));
    WrittenMeaning(i, infoFirst);
  }

  /******* Written headers are well-formed *******/

  const SMALL: nat := 0x1_0000_0000

  // Sizes far beyond any real header, and the value range of a uint64.
  predicate SmallTrack(t: Track) {
    && |t.codecID| <= SMALL && |t.name| <= SMALL && |t.language| <= SMALL
    && t.number < Power(256, 8)
  }

  predicate Small(i: Info) {
    && |i.tracks| <= 0x1000 && (forall t | t in i.tracks :: SmallTrack(t))
    && (i.duration.Some? ==> i.duration.value.scale < Power(256, 8))
  }

  lemma {:induction false} UintBytesShort(v: nat, n: nat)
    requires n >= 1 && v < Power(256, n)
    ensures |UintBytes(v)| <= n
  {
    if v >= 256 {
      UintBytesShort(v / 256, n - 1);
    }
  }

  lemma Power8()
    ensures Power(256, 8) == 0x1_0000_0000_0000_0000 && Limit(8) == 0x100_0000_0000_0000
  {
    MarkerTimes(8);
    assert Power(256, 7) == 0x100_0000_0000_0000;
  }

  // An element takes at most twelve bytes beside its body.
  lemma SmallLeaf(id: nat, b: Bytes)
    requires ValidId(id) && |b| <= SMALL
    ensures Sized(Leaf(id, 8, b)) && |Print(Leaf(id, 8, b))| <= 12 + SMALL
  {
    Power8();
  }

  lemma SmallMaster(id: nat, kids: seq<Tree>, m: nat)
    requires ValidId(id) && |PrintAll(kids)| <= m < 0xFF_FFFF_FFFF_FFFF
    ensures Sized(Master(id, 8, kids)) && |Print(Master(id, 8, kids))| <= 12 + m
  {
    Power8();
  }

  lemma OneMore(n: nat, m: nat)
    ensures (n + 1) * m == n * m + m
  {
  }

  lemma {:induction false} PrintAllSize(ts: seq<Tree>, m: nat)
    requires forall t | t in ts :: |Print(t)| <= m
    ensures |PrintAll(ts)| <= |ts| * m
  {
    if ts != [] {
      assert ts[0] in ts;
      PrintAllSize(ts[1..], m);
      OneMore(|ts| - 1, m);
    }
  }

  lemma UintLeaf(id: nat, v: nat)
    requires ValidId(id) && v < Power(256, 8)
    ensures var t := Leaf(id, 8, UintBytes(v)); UintSize(t) && Sized(t) && |Print(t)| <= 12 + SMALL
  {
    UintBytesShort(v, 8);
    SmallLeaf(id, UintBytes(v));
  }

  lemma FloatLeaf(id: nat, f: Float)
    requires ValidId(id)
    ensures var t := Leaf(id, 8, FloatBytes(f)); FloatSize(t) && Sized(t) && |Print(t)| <= 12 + SMALL
  {
    SmallLeaf(id, FloatBytes(f));
  }

  ghost predicate Fine(t: Tree) {
    EntryOk(t) && |Print(t)| <= 0x10_0000_0000
  }

  lemma FineVideo(t: Track)
    requires TrackInRange(t)
    ensures Fine(WriteVideo(t))
  {
    var kids := WriteVideo(t).kids;
    Power8();
    UintLeaf(ID_PIXEL_WIDTH, Uint64(t.width));
    UintLeaf(ID_PIXEL_HEIGHT, Uint64(t.height));
    PrintAllSize(kids, 12 + SMALL);
    SmallMaster(ID_VIDEO, kids, 2 * (12 + SMALL));
  }

  lemma FineAudio(t: Track)
    requires TrackInRange(t)
    ensures Fine(WriteAudio(t))
  {
    var kids := WriteAudio(t).kids;
    Power8();
    UintLeaf(ID_CHANNELS, Uint64(t.channels));
    FloatLeaf(ID_SAMPLING_FREQUENCY, t.sampleRate);
    PrintAllSize(kids, 12 + SMALL);
    SmallMaster(ID_AUDIO, kids, 2 * (12 + SMALL));
  }

  lemma FineUint(id: nat, v: nat)
    requires IsUintField(id) && v < Power(256, 8)
    ensures Fine(Leaf(id, 8, UintBytes(v)))
  {
    UintLeaf(id, v);
  }

  lemma FineString(id: nat, b: Bytes)
    requires IsStringField(id) && |b| <= SMALL
    ensures Fine(Leaf(id, 8, b))
  {
    SmallLeaf(id, b);
  }

  lemma AllFine(a: Tree, b: Tree, c: Tree, d: Tree, e: Tree, f: Tree, g: Tree, h: Tree)
    requires Fine(a) && Fine(b) && Fine(c) && Fine(d) && Fine(e) && Fine(f) && Fine(g) && Fine(h)
    ensures forall k | k in [a, b, c, d, e, f, g, h] :: Fine(k)
  {
  }

  lemma FineEntry(t: Track)
    requires TrackInRange(t) && SmallTrack(t)
    ensures forall k | k in WriteEntry(t) :: Fine(k)
  {
    Power8();
    FineUint(ID_TRACK_NUMBER, t.number);
    FineUint(ID_TRACK_TYPE, KindValue(t.kind));
    FineUint(ID_FLAG_DEFAULT, if t.isDefault then 1 else 0);
    FineString(ID_CODEC_ID, t.codecID);
    FineString(ID_TRACK_NAME, t.name);
    FineString(ID_LANGUAGE, t.language);
    FineVideo(t);
    FineAudio(t);
    AllFine(
      Leaf(ID_TRACK_NUMBER, 8, UintBytes(t.number)),
      Leaf(ID_TRACK_TYPE, 8, UintBytes(KindValue(t.kind))),
      Leaf(ID_CODEC_ID, 8, t.codecID),
      Leaf(ID_TRACK_NAME, 8, t.name),
      Leaf(ID_LANGUAGE, 8, t.language),
      Leaf(ID_FLAG_DEFAULT, 8, UintBytes(if t.isDefault then 1 else 0)),
      WriteVideo(t),
      WriteAudio(t));
  }

  ghost predicate FineTrack(t: Tree) {
    TracksOk(t) && |Print(t)| <= 0x100_0000_0000
  }

  lemma FineTrackEntry(t: Track)
    requires TrackInRange(t) && SmallTrack(t)
    ensures FineTrack(Master(ID_TRACK_ENTRY, 8, WriteEntry(t)))
  {
    FineEntry(t);
    PrintAllSize(WriteEntry(t), 0x10_0000_0000);
    SmallMaster(ID_TRACK_ENTRY, WriteEntry(t), 8 * 0x10_0000_0000);
  }

  lemma FineTracks(ts: seq<Track>)
    requires forall t | t in ts :: TrackInRange(t) && SmallTrack(t)
    ensures forall k | k in WriteTracks(ts) :: FineTrack(k)
  {
    forall i: nat | i < |ts| ensures FineTrack(WriteTrack(ts[i])) {
      FineTrackEntry(ts[i]);
    }
  }

  lemma FineTracksAreOk(ks: seq<Tree>)
    requires forall k | k in ks :: FineTrack(k)
    ensures forall k | k in ks :: |Print(k)| <= 0x100_0000_0000
    ensures TracksKidsOk(ks)
  {
  }

  lemma FineTracksElement(ts: seq<Track>)
    requires |ts| <= 0x1000 && forall t | t in ts :: TrackInRange(t) && SmallTrack(t)
    ensures TopOk(Master(ID_TRACKS, 8, WriteTracks(ts)))
  {
    FineTracks(ts);
    FineTracksAreOk(WriteTracks(ts));
    PrintAllSize(WriteTracks(ts), 0x100_0000_0000);
    Scale(|ts|, 0x1000, 0x100_0000_0000);
    SmallMaster(ID_TRACKS, WriteTracks(ts), 0x1000 * 0x100_0000_0000);
  }

  lemma FineInfoElement(d: Option<Duration>)
    requires d.Some? ==> d.value.scale < Power(256, 8)
    ensures TopOk(Master(ID_INFO, 8, WriteInfo(d)))
  {
    if d.Some? {
      UintLeaf(ID_TIMECODE_SCALE, d.value.scale);
      FloatLeaf(ID_DURATION, d.value.ticks);
    }
    PrintAllSize(WriteInfo(d), 12 + SMALL);
    SmallMaster(ID_INFO, WriteInfo(d), 2 * (12 + SMALL));
  }

  lemma WrittenOrder(i: Info, infoFirst: bool)
    requires InfoInRange(i)
    ensures var tops := WriteTops(i, infoFirst); HeaderDone(tops) && !HeaderDone(tops[..1])
  {
    var tops := WriteTops(i, infoFirst);
    assert tops[0] in tops && tops[1] in tops;
  }

  lemma WrittenHeaderElement(docType: Bytes)
    requires |docType| <= SMALL
    ensures Sized(Master(ID_EBML, 8, [Leaf(ID_DOC_TYPE, 8, docType)]))
  {
    SmallLeaf(ID_DOC_TYPE, docType);
    PrintAllSize([Leaf(ID_DOC_TYPE, 8, docType)], 12 + SMALL);
    SmallMaster(ID_EBML, [Leaf(ID_DOC_TYPE, 8, docType)], 12 + SMALL);
  }

  lemma WrittenIsWellFormed(i: Info, infoFirst: bool)
    requires InfoInRange(i) && Small(i)
    ensures WellFormed(WriteHeader(i, infoFirst))
  {
    var d := WriteHeader(i, infoFirst);
    Power8();
    WrittenHeaderElement(d.header[0].bytes);
    SmallLeaf(ID_DOC_TYPE, d.header[0].bytes);
    FineInfoElement(i.duration);
    FineTracksElement(i.tracks);
    WrittenOrder(i, infoFirst);
  }

  // Writing a header and parsing it is the identity.
  lemma WriteThenParseIdentity(i: Info, infoFirst: bool)
    requires InfoInRange(i) && Small(i)
    ensures WellFormed(WriteHeader(i, infoFirst))
    ensures ParseMatroska(PrintDocument(WriteHeader(i, infoFirst))) == Ok(i)
  {
    WrittenIsWellFormed(i, infoFirst);
    WriteThenParse(i, infoFirst, WriteHeader(i, infoFirst));
  }
}
