// The parser of internal/media/matroska.go as it consumes its reader. For each
// master element there is the handler of one child, which sets the fields of
// what is being read, and the loop of forEachChild around it; both are proved
// against Matroska, and to leave the stream exactly behind what they read.
module MatroskaReader {
  import opened Prelude
  import opened ChunkLayout
  import opened Ebml
  import opened EbmlReader
  import opened Matroska

  method ReadVideoChild(r: Reader, id: nat, size: nat, end: nat, track: Track) returns (next: Result<Track, Error>)
    requires r.Before(end)
    modifies r
    ensures r.Before(end) && next == VideoChild(track, old(r.ChildAt(id, size, end)))
    ensures next.Ok? ==> r.pos == old(r.Until(size, end))
  {
    if id == ID_PIXEL_WIDTH {
      var v := r.ReadUint(size, end);
      return if v.Err? then Err(v.error) else Ok(track.(width := Int64(v.value)));
    } else if id == ID_PIXEL_HEIGHT {
      var v := r.ReadUint(size, end);
      return if v.Err? then Err(v.error) else Ok(track.(height := Int64(v.value)));
    } else {
      var err := r.Skip(size, end);
      return Then(err, track);
    }
  }

  method ReadVideo(r: Reader, end: nat, track: Track) returns (result: Result<Track, Error>)
    requires r.Before(end)
    modifies r
    ensures r.Before(end) && result == ParseVideo(old(Elements(r.Rest(end))), track)
    ensures result.Ok? ==> r.pos == end
  {
    var current := track;
    ghost var all := Elements(r.Rest(end));
    while true
      invariant r.Before(end)
      invariant ParseVideo(all, track) == ParseVideo(Elements(r.Rest(end)), current)
      decreases end - r.pos
    {
      var h, err := r.NextChild(end);
      if h.None? {
        return Then(err, current);
      }
      var next := ReadVideoChild(r, h.value.id, h.value.size, end, current);
      if next.Err? {
        return Err(next.error);
      }
      current := next.value;
    }
  }

  method ReadAudioChild(r: Reader, id: nat, size: nat, end: nat, track: Track) returns (next: Result<Track, Error>)
    requires r.Before(end)
    modifies r
    ensures r.Before(end) && next == AudioChild(track, old(r.ChildAt(id, size, end)))
    ensures next.Ok? ==> r.pos == old(r.Until(size, end))
  {
    if id == ID_CHANNELS {
      var v := r.ReadUint(size, end);
      return if v.Err? then Err(v.error) else Ok(track.(channels := Int64(v.value)));
    } else if id == ID_SAMPLING_FREQUENCY {
      var v := r.ReadFloat(size, end);
      return if v.Err? then Err(v.error) else Ok(track.(sampleRate := v.value));
    } else {
      var err := r.Skip(size, end);
      return Then(err, track);
    }
  }

  method ReadAudio(r: Reader, end: nat, track: Track) returns (result: Result<Track, Error>)
    requires r.Before(end)
    modifies r
    ensures r.Before(end) && result == ParseAudio(old(Elements(r.Rest(end))), track)
    ensures result.Ok? ==> r.pos == end
  {
    var current := track;
    ghost var all := Elements(r.Rest(end));
    while true
      invariant r.Before(end)
      invariant ParseAudio(all, track) == ParseAudio(Elements(r.Rest(end)), current)
      decreases end - r.pos
    {
      var h, err := r.NextChild(end);
      if h.None? {
        return Then(err, current);
      }
      var next := ReadAudioChild(r, h.value.id, h.value.size, end, current);
      if next.Err? {
        return Err(next.error);
      }
      current := next.value;
    }
  }

  method ReadEntryChild(r: Reader, id: nat, size: nat, end: nat, draft: Draft) returns (next: Result<Draft, Error>)
    requires r.Before(end)
    modifies r
    ensures r.Before(end) && next == EntryChild(draft, old(r.ChildAt(id, size, end)))
    ensures next.Ok? ==> r.pos == old(r.Until(size, end))
  {
    if IsUintField(id) {
      var v := r.ReadUint(size, end);
      return if v.Err? then Err(v.error) else Ok(draft.(track := SetUint(draft.track, id, v.value)));
    } else if IsStringField(id) {
      var v := r.ReadString(size, end);
      return if v.Err? then Err(v.error) else Ok(SetString(draft, id, v.value));
    } else if id == ID_VIDEO {
      var t := ReadVideo(r, r.Until(size, end), draft.track);
      return WithTrack(t, draft);
    } else if id == ID_AUDIO {
      var t := ReadAudio(r, r.Until(size, end), draft.track);
      return WithTrack(t, draft);
    } else {
      var err := r.Skip(size, end);
      return Then(err, draft);
    }
  }

  method ReadEntry(r: Reader, end: nat, draft: Draft) returns (result: Result<Draft, Error>)
    requires r.Before(end)
    modifies r
    ensures r.Before(end) && result == ParseEntry(old(Elements(r.Rest(end))), draft)
    ensures result.Ok? ==> r.pos == end
  {
    var current := draft;
    ghost var all := Elements(r.Rest(end));
    while true
      invariant r.Before(end)
      invariant ParseEntry(all, draft) == ParseEntry(Elements(r.Rest(end)), current)
      decreases end - r.pos
    {
      var h, err := r.NextChild(end);
      if h.None? {
        return Then(err, current);
      }
      var next := ReadEntryChild(r, h.value.id, h.value.size, end, current);
      if next.Err? {
        return Err(next.error);
      }
      current := next.value;
    }
  }

  method ReadTracksChild(r: Reader, id: nat, size: nat, end: nat, tracks: seq<Track>)
    returns (next: Result<seq<Track>, Error>)
    requires r.Before(end)
    modifies r
    ensures r.Before(end) && next == TracksChild(tracks, old(r.ChildAt(id, size, end)))
    ensures next.Ok? ==> r.pos == old(r.Until(size, end))
  {
    if id == ID_TRACK_ENTRY {
      var d := ReadEntry(r, r.Until(size, end), NEW_DRAFT);
      return if d.Err? then Err(d.error) else Ok(tracks + [Finished(d.value)]);
    } else {
      var err := r.Skip(size, end);
      return Then(err, tracks);
    }
  }

  method ReadTracks(r: Reader, end: nat, tracks: seq<Track>) returns (result: Result<seq<Track>, Error>)
    requires r.Before(end)
    modifies r
    ensures r.Before(end) && result == ParseTracks(old(Elements(r.Rest(end))), tracks)
    ensures result.Ok? ==> r.pos == end
  {
    var current := tracks;
    ghost var all := Elements(r.Rest(end));
    while true
      invariant r.Before(end)
      invariant ParseTracks(all, tracks) == ParseTracks(Elements(r.Rest(end)), current)
      decreases end - r.pos
    {
      var h, err := r.NextChild(end);
      if h.None? {
        return Then(err, current);
      }
      var next := ReadTracksChild(r, h.value.id, h.value.size, end, current);
      if next.Err? {
        return Err(next.error);
      }
      current := next.value;
    }
  }

  method ReadInfoChild(r: Reader, id: nat, size: nat, end: nat, duration: Duration)
    returns (next: Result<Duration, Error>)
    requires r.Before(end)
    modifies r
    ensures r.Before(end) && next == InfoChild(duration, old(r.ChildAt(id, size, end)))
    ensures next.Ok? ==> r.pos == old(r.Until(size, end))
  {
    if id == ID_TIMECODE_SCALE {
      var v := r.ReadUint(size, end);
      return if v.Err? then Err(v.error) else Ok(duration.(scale := v.value));
    } else if id == ID_DURATION {
      var v := r.ReadFloat(size, end);
      return if v.Err? then Err(v.error) else Ok(duration.(ticks := v.value));
    } else {
      var err := r.Skip(size, end);
      return Then(err, duration);
    }
  }

  method ReadInfo(r: Reader, end: nat, duration: Duration) returns (result: Result<Duration, Error>)
    requires r.Before(end)
    modifies r
    ensures r.Before(end) && result == ParseInfo(old(Elements(r.Rest(end))), duration)
    ensures result.Ok? ==> r.pos == end
  {
    var current := duration;
    ghost var all := Elements(r.Rest(end));
    while true
      invariant r.Before(end)
      invariant ParseInfo(all, duration) == ParseInfo(Elements(r.Rest(end)), current)
      decreases end - r.pos
    {
      var h, err := r.NextChild(end);
      if h.None? {
        return Then(err, current);
      }
      var next := ReadInfoChild(r, h.value.id, h.value.size, end, current);
      if next.Err? {
        return Err(next.error);
      }
      current := next.value;
    }
  }

  method ReadEbmlChild(r: Reader, id: nat, size: nat, end: nat, docType: Bytes) returns (next: Result<Bytes, Error>)
    requires r.Before(end)
    modifies r
    ensures r.Before(end) && next == EbmlChild(docType, old(r.ChildAt(id, size, end)))
    ensures next.Ok? ==> r.pos == old(r.Until(size, end))
  {
    if id == ID_DOC_TYPE {
      var v := r.ReadString(size, end);
      return if v.Err? then Err(v.error) else Ok(v.value);
    } else {
      var err := r.Skip(size, end);
      return Then(err, docType);
    }
  }

  method ReadEbml(r: Reader, end: nat, docType: Bytes) returns (result: Result<Bytes, Error>)
    requires r.Before(end)
    modifies r
    ensures r.Before(end) && result == ParseEbml(old(Elements(r.Rest(end))), docType)
    ensures result.Ok? ==> r.pos == end
  {
    var current := docType;
    ghost var all := Elements(r.Rest(end));
    while true
      invariant r.Before(end)
      invariant ParseEbml(all, docType) == ParseEbml(Elements(r.Rest(end)), current)
      decreases end - r.pos
    {
      var h, err := r.NextChild(end);
      if h.None? {
        return Then(err, current);
      }
      var next := ReadEbmlChild(r, h.value.id, h.value.size, end, current);
      if next.Err? {
        return Err(next.error);
      }
      current := next.value;
    }
  }

  method ReadSegmentChild(r: Reader, h: Header, end: nat, progress: Progress)
    returns (next: Result<Progress, ParseError>)
    requires r.Before(end)
    modifies r
    ensures r.Before(end) && next == SegmentChild(progress, old(r.ChildAt(h.id, h.size, end)), h.unknown)
    ensures next.Ok? ==> r.pos == old(r.Until(h.size, end))
  {
    if h.id == ID_INFO {
      var d := ReadInfo(r, r.Until(h.size, end), NEW_DURATION);
      return if d.Err? then Err(Unwrapped(d.error))
             else Ok(progress.(info := progress.info.(duration := Effective(d.value, progress.info.duration)),
                               haveInfo := true));
    } else if h.id == ID_TRACKS {
      var ts := ReadTracks(r, r.Until(h.size, end), progress.info.tracks);
      return if ts.Err? then Err(Unwrapped(ts.error))
             else Ok(progress.(info := progress.info.(tracks := ts.value), haveTracks := true));
    } else if h.id == ID_CLUSTER {
      return Err(HeaderIncomplete);
    } else if h.unknown {
      return Err(Malformed);
    }
    var err := r.Skip(h.size, end);
    return if err.Some? then Err(WrapIncomplete(err.value)) else Ok(progress);
  }

  // The loop over the Segment's children, which stops as soon as Info and Tracks
  // have been read.
  method ReadSegment(r: Reader, info: Info) returns (result: Result<Info, ParseError>)
    requires r.Before(|r.data|)
    modifies r
    ensures r.Before(|r.data|)
    ensures result == ParseSegment(old(r.Rest(|r.data|)), Progress(info, false, false))
  {
    var end := |r.data|;
    var progress := Progress(info, false, false);
    ghost var all := ParseSegment(r.Rest(end), progress);
    while !Complete(progress)
      invariant r.Before(end)
      invariant all == ParseSegment(r.Rest(end), progress)
      decreases end - r.pos
    {
      var h := r.ReadElementHeader(end);
      if h.Err? {
        return Err(WrapIncomplete(h.error));
      }
      r.CutRest(h.value.size, end);
      var next := ReadSegmentChild(r, h.value, end, progress);
      if next.Err? {
        return Err(next.error);
      }
      progress := next.value;
    }
    return Ok(progress.info);
  }

  method ReadMatroska(data: Bytes) returns (result: Result<Info, ParseError>)
    ensures result == ParseMatroska(data)
  {
    var r := new Reader(data);
    var end := |data|;
    assert r.Rest(end) == data;
    var h := r.ReadElementHeader(end);
    if h.Err? || h.value.id != ID_EBML {
      return Err(NotMatroska);
    }
    r.CutRest(h.value.size, end);
    var docType := ReadEbml(r, r.Until(h.value.size, end), MATROSKA);
    if docType.Err? {
      return Err(NotMatroska);
    }
    h := r.ReadElementHeader(end);
    if h.Err? {
      return Err(WrapIncomplete(h.error));
    }
    if h.value.id != ID_SEGMENT {
      return Err(Malformed);
    }
    result := ReadSegment(r, Info(ContainerName(docType.value), None, []));
  }
}
