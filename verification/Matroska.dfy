// ParseMatroska of internal/media/matroska.go: container, raw duration and
// tracks from the head of a Matroska file (RFC 9559).
module Matroska {
  import opened Prelude
  import opened ChunkLayout
  import opened Ebml

  const ID_EBML := 0x1A45DFA3
  const ID_DOC_TYPE := 0x4282
  const ID_SEGMENT := 0x18538067
  const ID_INFO := 0x1549A966
  const ID_TIMECODE_SCALE := 0x2AD7B1
  const ID_DURATION := 0x4489
  const ID_TRACKS := 0x1654AE6B
  const ID_TRACK_ENTRY := 0xAE
  const ID_TRACK_NUMBER := 0xD7
  const ID_TRACK_TYPE := 0x83
  const ID_CODEC_ID := 0x86
  const ID_TRACK_NAME := 0x536E
  const ID_LANGUAGE := 0x22B59C
  const ID_LANGUAGE_IETF := 0x22B59D
  const ID_FLAG_DEFAULT := 0x88
  const ID_VIDEO := 0xE0
  const ID_PIXEL_WIDTH := 0xB0
  const ID_PIXEL_HEIGHT := 0xBA
  const ID_AUDIO := 0xE1
  const ID_SAMPLING_FREQUENCY := 0xB5
  const ID_CHANNELS := 0x9F
  const ID_CLUSTER := 0x1F43B675

  const DEFAULT_TIMECODE_SCALE: nat := 1_000_000

  datatype Kind = Video | Audio | Subtitle | Other

  datatype Track = Track(
    number: nat,
    kind: Kind,
    codecID: Bytes,
    name: Bytes,
    language: Bytes,
    isDefault: bool,
    width: int,
    height: int,
    channels: int,
    sampleRate: Float)

  datatype Container = WebM | MatroskaFile

  // The duration in ticks and the length of a tick, when both are positive.
  datatype Duration = Duration(ticks: Float, scale: nat)

  datatype Info = Info(container: Container, duration: Option<Duration>, tracks: seq<Track>)

  // Truncated is an end of data inside Info or Tracks, Malformed any error of
  // another kind.
  datatype ParseError = NotMatroska | HeaderIncomplete | Truncated | Malformed

  /******* Values *******/

  function KindOf(v: nat): Kind {
    if v == 1 then Video else if v == 2 then Audio else if v == 17 then Subtitle else Other
  }

  // int(v) for a uint64.
  function Int64(v: nat): int {
    if v < 0x8000_0000_0000_0000 then v else v - 0x1_0000_0000_0000_0000
  }

  // duration > 0 on the IEEE 754 bits.
  predicate Positive(f: Float) {
    match f
    case Zero => false
    case Single(bits) => 0 < bits <= 0x7F80_0000
    case Double(bits) => 0 < bits <= 0x7FF0_0000_0000_0000
  }

  const WEBM: Bytes := [0x77, 0x65, 0x62, 0x6D]
  const MATROSKA: Bytes := [0x6D, 0x61, 0x74, 0x72, 0x6F, 0x73, 0x6B, 0x61]
  const UND: Bytes := [0x75, 0x6E, 0x64]

  function ToLower(b: byte): byte {
    if 0x41 <= b <= 0x5A then b + 0x20 else b
  }

  // strings.ToLower(docType) == "webm"; no other character lowers to these.
  function ContainerName(docType: Bytes): Container {
    if |docType| == 4 && forall i | 0 <= i < 4 :: ToLower(docType[i]) == WEBM[i] then WebM else MatroskaFile
  }

  /******* Children of each master element *******/

  function Then<T>(e: Option<Error>, t: T): Result<T, Error> {
    if e.Some? then Err(e.value) else Ok(t)
  }

  function VideoChild(t: Track, c: Child): Result<Track, Error> {
    if c.id == ID_PIXEL_WIDTH then
      match UintOf(c) case Err(e) => Err(e) case Ok(v) => Ok(t.(width := Int64(v)))
    else if c.id == ID_PIXEL_HEIGHT then
      match UintOf(c) case Err(e) => Err(e) case Ok(v) => Ok(t.(height := Int64(v)))
    else Then(SkipOf(c), t)
  }

  function ParseVideo(cs: Children, t: Track): Result<Track, Error> {
    match cs
    case Nil(end) => Then(end, t)
    case Cons(c, tail) => match VideoChild(t, c) case Err(e) => Err(e) case Ok(u) => ParseVideo(tail, u)
  }

  function AudioChild(t: Track, c: Child): Result<Track, Error> {
    if c.id == ID_CHANNELS then
      match UintOf(c) case Err(e) => Err(e) case Ok(v) => Ok(t.(channels := Int64(v)))
    else if c.id == ID_SAMPLING_FREQUENCY then
      match FloatOf(c) case Err(e) => Err(e) case Ok(v) => Ok(t.(sampleRate := v))
    else Then(SkipOf(c), t)
  }

  function ParseAudio(cs: Children, t: Track): Result<Track, Error> {
    match cs
    case Nil(end) => Then(end, t)
    case Cons(c, tail) => match AudioChild(t, c) case Err(e) => Err(e) case Ok(u) => ParseAudio(tail, u)
  }

  // A track entry while it is read: the IETF language takes effect at the end.
  datatype Draft = Draft(track: Track, ietf: Bytes)

  const NEW_DRAFT := Draft(Track(0, Other, [], [], [], true, 0, 0, 0, Zero), [])

  predicate IsUintField(id: nat) {
    id == ID_TRACK_NUMBER || id == ID_TRACK_TYPE || id == ID_FLAG_DEFAULT
  }

  function SetUint(t: Track, id: nat, v: nat): Track {
    if id == ID_TRACK_NUMBER then t.(number := v)
    else if id == ID_TRACK_TYPE then t.(kind := KindOf(v))
    else if id == ID_FLAG_DEFAULT then t.(isDefault := v != 0)
    else t
  }

  predicate IsStringField(id: nat) {
    id == ID_CODEC_ID || id == ID_TRACK_NAME || id == ID_LANGUAGE || id == ID_LANGUAGE_IETF
  }

  function SetString(d: Draft, id: nat, s: Bytes): Draft {
    if id == ID_CODEC_ID then d.(track := d.track.(codecID := s))
    else if id == ID_TRACK_NAME then d.(track := d.track.(name := s))
    else if id == ID_LANGUAGE then d.(track := d.track.(language := s))
    else if id == ID_LANGUAGE_IETF then d.(ietf := s)
    else d
  }

  function WithTrack(r: Result<Track, Error>, d: Draft): Result<Draft, Error> {
    match r case Err(e) => Err(e) case Ok(t) => Ok(d.(track := t))
  }

  function EntryChild(d: Draft, c: Child): Result<Draft, Error> {
    if IsUintField(c.id) then
      match UintOf(c) case Err(e) => Err(e) case Ok(v) => Ok(d.(track := SetUint(d.track, c.id, v)))
    else if IsStringField(c.id) then
      match StringOf(c) case Err(e) => Err(e) case Ok(s) => Ok(SetString(d, c.id, s))
    else if c.id == ID_VIDEO then WithTrack(ParseVideo(Elements(c.payload), d.track), d)
    else if c.id == ID_AUDIO then WithTrack(ParseAudio(Elements(c.payload), d.track), d)
    else Then(SkipOf(c), d)
  }

  function ParseEntry(cs: Children, d: Draft): Result<Draft, Error> {
    match cs
    case Nil(end) => Then(end, d)
    case Cons(c, tail) => match EntryChild(d, c) case Err(e) => Err(e) case Ok(u) => ParseEntry(tail, u)
  }

  function Finished(d: Draft): Track {
    var language := if d.ietf != [] then d.ietf else d.track.language;
    d.track.(language := if language != [] then language else UND)
  }

  function TracksChild(ts: seq<Track>, c: Child): Result<seq<Track>, Error> {
    if c.id == ID_TRACK_ENTRY then
      match ParseEntry(Elements(c.payload), NEW_DRAFT) case Err(e) => Err(e) case Ok(d) => Ok(ts + [Finished(d)])
    else Then(SkipOf(c), ts)
  }

  function ParseTracks(cs: Children, ts: seq<Track>): Result<seq<Track>, Error> {
    match cs
    case Nil(end) => Then(end, ts)
    case Cons(c, tail) => match TracksChild(ts, c) case Err(e) => Err(e) case Ok(us) => ParseTracks(tail, us)
  }

  function InfoChild(d: Duration, c: Child): Result<Duration, Error> {
    if c.id == ID_TIMECODE_SCALE then
      match UintOf(c) case Err(e) => Err(e) case Ok(v) => Ok(d.(scale := v))
    else if c.id == ID_DURATION then
      match FloatOf(c) case Err(e) => Err(e) case Ok(v) => Ok(d.(ticks := v))
    else Then(SkipOf(c), d)
  }

  function ParseInfo(cs: Children, d: Duration): Result<Duration, Error> {
    match cs
    case Nil(end) => Then(end, d)
    case Cons(c, tail) => match InfoChild(d, c) case Err(e) => Err(e) case Ok(u) => ParseInfo(tail, u)
  }

  const NEW_DURATION := Duration(Zero, DEFAULT_TIMECODE_SCALE)

  function Effective(d: Duration, otherwise: Option<Duration>): Option<Duration> {
    if Positive(d.ticks) && d.scale > 0 then Some(d) else otherwise
  }

  function EbmlChild(docType: Bytes, c: Child): Result<Bytes, Error> {
    if c.id == ID_DOC_TYPE then StringOf(c) else Then(SkipOf(c), docType)
  }

  function ParseEbml(cs: Children, docType: Bytes): Result<Bytes, Error> {
    match cs
    case Nil(end) => Then(end, docType)
    case Cons(c, tail) => match EbmlChild(docType, c) case Err(e) => Err(e) case Ok(s) => ParseEbml(tail, s)
  }

  /******* The file *******/

  function WrapIncomplete(e: Error): ParseError {
    if e.Invalid? then Malformed else HeaderIncomplete
  }

  function Unwrapped(e: Error): ParseError {
    if e.Invalid? then Malformed else Truncated
  }

  // How far the Segment has been read.
  datatype Progress = Progress(info: Info, haveInfo: bool, haveTracks: bool)

  predicate Complete(p: Progress) {
    p.haveInfo && p.haveTracks
  }

  function SegmentChild(p: Progress, c: Child, unknown: bool): Result<Progress, ParseError> {
    if c.id == ID_INFO then
      match ParseInfo(Elements(c.payload), NEW_DURATION)
      case Err(e) => Err(Unwrapped(e))
      case Ok(d) => Ok(p.(info := p.info.(duration := Effective(d, p.info.duration)), haveInfo := true))
    else if c.id == ID_TRACKS then
      match ParseTracks(Elements(c.payload), p.info.tracks)
      case Err(e) => Err(Unwrapped(e))
      case Ok(ts) => Ok(p.(info := p.info.(tracks := ts), haveTracks := true))
    else if c.id == ID_CLUSTER then Err(HeaderIncomplete)
    else if unknown then Err(Malformed)
    else if Short(c) then Err(HeaderIncomplete)
    else Ok(p)
  }

  function ParseSegment(s: Bytes, p: Progress): Result<Info, ParseError>
    decreases |s|
  {
    if Complete(p) then Ok(p.info)
    else
      match ReadElementHeader(s)
      case Failed(e) => Err(WrapIncomplete(e))
      case Got(h, rest) =>
        HeaderShortens(s);
        var n := Cut(rest, h.size);
        match SegmentChild(p, Child(h.id, h.size, rest[..n]), h.unknown)
        case Err(e) => Err(e)
        case Ok(q) => ParseSegment(rest[n..], q)
  }

  function ParseMatroska(s: Bytes): Result<Info, ParseError> {
    match ReadElementHeader(s)
    case Failed(_) => Err(NotMatroska)
    case Got(h, rest) =>
      if h.id != ID_EBML then Err(NotMatroska)
      else
        match ParseEbml(Elements(rest[..Cut(rest, h.size)]), MATROSKA)
        case Err(_) => Err(NotMatroska)
        case Ok(docType) => ParseBody(rest[Cut(rest, h.size)..], docType)
  }

  function ParseBody(s: Bytes, docType: Bytes): Result<Info, ParseError> {
    match ReadElementHeader(s)
    case Failed(e) => Err(WrapIncomplete(e))
    case Got(h, rest) =>
      if h.id != ID_SEGMENT then Err(Malformed)
      else ParseSegment(rest, Progress(Info(ContainerName(docType), None, []), false, false))
  }
}
