// The session and source tables of internal/service/hls.go. What the service's
// mutex makes atomic is one method. ffmpeg writes segments and exits at any
// time; a new session's token is one never used before.
module HlsSessions {
  import opened Prelude

  const MAX_WAIT_AHEAD := 3

  datatype Key = Key(user: nat, file: nat, variant: nat)

  // The last index of the segments that follow p without a gap.
  ghost function RunEnd(segments: set<int>, p: int): (r: int)
    ensures p <= r && (forall i | p < i <= r :: i in segments) && r + 1 !in segments
    decreases segments
  {
    if p + 1 in segments then RunEnd(segments - {p + 1}, p + 1) else p
  }

  // One ffmpeg process writing segments from startIndex onwards.
  class Session {
    const key: Key
    const token: nat
    const startIndex: int
    var produced: int          // highest segment index known to exist
    var lastSeen: int
    var segments: set<int>     // the segment files in its directory
    var finished: bool
    var cancelled: bool

    // As it is when it starts, for this key and token.
    ghost predicate Starts(key: Key, token: nat, startIndex: int, now: int)
      reads this
    {
      && this.key == key && this.token == token && this.startIndex == startIndex && lastSeen == now
      && produced == startIndex - 1 && segments == {} && !finished && !cancelled
    }

    constructor (key: Key, token: nat, startIndex: int, now: int)
      ensures Starts(key, token, startIndex, now)
    {
      this.key, this.token, this.startIndex, lastSeen := key, token, startIndex, now;
      produced, segments, finished, cancelled := startIndex - 1, {}, false, false;
    }

    // Segments startIndex..produced all exist.
    ghost predicate Valid()
      reads this
    {
      startIndex - 1 <= produced && forall i | startIndex <= i <= produced :: i in segments
    }

    // How far the segments reach without a gap.
    ghost function Reach(): int
      reads this
    {
      RunEnd(segments, startIndex - 1)
    }

    ghost predicate CoversIndex(index: int)
      reads this
    {
      startIndex <= index && (index in segments || (!finished && index - Reach() <= 3))
    }

    method LastProduced() returns (last: int)
      requires Valid()
      modifies this`produced
      ensures Valid() && last == produced == Reach()
    {
      ghost var left := set i | i in segments && i > produced;
      while produced + 1 in segments
        invariant Valid() && left == set i | i in segments && i > produced
        decreases left
      {
        produced := produced + 1;
        left := left - {produced};
      }
      last := produced;
      EndIsUnique(segments, startIndex - 1, last);
    }

    method Covers(index: int) returns (covered: bool)
      requires Valid()
      modifies this`produced
      ensures Valid() && (covered <==> CoversIndex(index))
      ensures covered && index !in segments ==> produced == Reach()
    {
      if index < startIndex {
        return false;
      }
      if index in segments {
        return true;
      }
      if finished {
        return false;
      }
      var last := LastProduced();
      covered := index - last <= MAX_WAIT_AHEAD;
    }
  }

  lemma EndIsUnique(segments: set<int>, p: int, r: int)
    requires p <= r && (forall i | p < i <= r :: i in segments) && r + 1 !in segments
    ensures RunEnd(segments, p) == r
  {
  }

  /******* The tables *******/

  ghost predicate HasToken(sessions: map<Key, Session>, t: nat) {
    exists k :: k in sessions && sessions[k].token == t
  }

  // One session per key, and the source tokens are exactly those of the live
  // sessions, each leading to its session's file.
  ghost predicate Tables(sessions: map<Key, Session>, sources: map<nat, nat>, used: set<nat>) {
    && (forall k | k in sessions :: sessions[k].key == k)
    && (forall k | k in sessions :: sessions[k].token in sources && sources[sessions[k].token] == k.file)
    && (forall t | t in sources :: t in used && HasToken(sessions, t))
    && (forall k, l | k in sessions && l in sessions && sessions[k].token == sessions[l].token :: k == l)
  }

  lemma RemoveSession(sessions: map<Key, Session>, sources: map<nat, nat>, used: set<nat>, key: Key)
    requires Tables(sessions, sources, used) && key in sessions
    ensures Tables(sessions - {key}, sources - {sessions[key].token}, used)
  {
    var left, sources' := sessions - {key}, sources - {sessions[key].token};
    forall t | t in sources' ensures HasToken(left, t) {
      var k :| k in sessions && sessions[k].token == t;
      assert k in left;
    }
  }

  lemma AddSession(sessions: map<Key, Session>, sources: map<nat, nat>, used: set<nat>, x: Session)
    requires Tables(sessions, sources, used) && x.key !in sessions && x.token !in used
    ensures Tables(sessions[x.key := x], sources[x.token := x.key.file], used + {x.token})
  {
    var more, sources' := sessions[x.key := x], sources[x.token := x.key.file];
    assert x.key in more && more[x.key].token == x.token;
    forall t | t in sources' ensures HasToken(more, t) {
      if t != x.token {
        var k :| k in sessions && sessions[k].token == t;
        assert k in more && more[k].token == t;
      }
    }
    forall k | k in sessions ensures sessions[k].token != x.token {
      assert sessions[k].token in sources;
    }
  }

  ghost predicate Listed(sessions: map<Key, Session>, x: Session) {
    x.key in sessions && sessions[x.key] == x
  }

  lemma AddedLists(sessions: map<Key, Session>, x: Session, others: set<Session>)
    requires x.key !in sessions && x !in others
    ensures Listed(sessions[x.key := x], x)
    ensures forall y | y in others :: Listed(sessions[x.key := x], y) <==> Listed(sessions, y)
  {
  }

  lemma AddedValues(sessions: map<Key, Session>, started: set<Session>, x: Session)
    requires sessions.Values <= started
    ensures sessions[x.key := x].Values <= started + {x}
  {
  }

  lemma Kept(sessions: map<Key, Session>, gone: set<Key>)
    requires gone == {}
    ensures sessions - gone == sessions
  {
  }

  lemma KeptWithout(sessions: map<Key, Session>, gone: set<Key>, k: Key)
    ensures (sessions - gone) - {k} == sessions - (gone + {k})
  {
  }

  // Whatever happens to one key, the other keys keep their sessions.
  lemma OtherKeys(sessions: map<Key, Session>, key: Key, x: Session)
    ensures sessions[key := x] - {key} == sessions - {key}
    ensures (sessions - {key})[key := x] - {key} == sessions - {key}
    ensures sessions - {key} - {key} == sessions - {key}
  {
  }

  datatype Error = OutOfRange | StartFailed

  class Service {
    var sessions: map<Key, Session>
    var sources: map<nat, nat>        // token to file
    ghost var used: set<nat>          // every token ever given out
    ghost var started: set<Session>   // every session ever started

    ghost predicate Live(x: Session)
      reads this
    {
      Listed(sessions, x)
    }

    // The tables agree, and no process outlives its entry: a session is in the
    // table until it is cancelled.
    ghost predicate Valid()
      reads this, started
    {
      && Tables(sessions, sources, used)
      && sessions.Values <= started
      && forall x | x in started :: x.Valid() && (x.cancelled <==> !Live(x))
    }

    constructor ()
      ensures Valid() && sessions == map[] && sources == map[]
    {
      sessions, sources, used, started := map[], map[], {}, {};
    }

    // The file a loopback source token stands for.
    method LookupSource(token: nat) returns (file: Option<nat>)
      requires Valid()
      ensures match file
        case Some(f) => exists k :: k in sessions && sessions[k].token == token && f == k.file
        case None => forall k | k in sessions :: sessions[k].token != token
    {
      if token in sources {
        assert HasToken(sessions, token);
        return Some(sources[token]);
      }
      return None;
    }

    // A live session leaves both tables.
    method StopSessionLocked(sess: Session)
      requires Valid() && sess.key in sessions && sessions[sess.key] == sess
      modifies this`sessions, this`sources, sess`cancelled
      ensures Valid() && started == old(started) && sess.cancelled
      ensures sessions == old(sessions) - {sess.key} && sources == old(sources) - {sess.token}
    {
      RemoveSession(sessions, sources, used, sess.key);
      if sess.key in sessions && sessions[sess.key] == sess {
        sessions := sessions - {sess.key};
      }
      sources := sources - {sess.token};
      sess.cancelled := true;
    }

    // mkdir, the random token or the start of ffmpeg may fail.
    method StartSessionLocked(key: Key, startIndex: int, token: nat, starts: bool, now: int)
      returns (sess: Option<Session>)
      requires Valid() && key !in sessions && token !in used
      modifies this
      ensures Valid() && used <= old(used) + {token}
      ensures started == old(started) + (if sess.Some? then {sess.value} else {})
      ensures match sess
        case None => !starts && sessions == old(sessions) && sources == old(sources)
        case Some(x) =>
          && starts && fresh(x) && sessions == old(sessions)[key := x] && sources == old(sources)[token := key.file]
          && x.Starts(key, token, startIndex, now)
    {
      if !starts {
        return None;
      }
      var x := new Session(key, token, startIndex, now);
      AddSession(sessions, sources, used, x);
      AddedValues(sessions, started, x);
      AddedLists(sessions, x, started);
      sessions := sessions[key := x];
      sources := sources[token := key.file];
      used := used + {token};
      started := started + {x};
      sess := Some(x);
    }

    // Stops the key's session, if it has one, and starts one at this index.
    method ReplaceSession(key: Key, index: int, token: nat, starts: bool, now: int) returns (sess: Option<Session>)
      requires Valid() && token !in used
      modifies this, SessionOf(sessions, key)`cancelled
      ensures Valid() && used <= old(used) + {token} && old(started) <= started
      ensures sessions - {key} == old(sessions) - {key}
      ensures key in old(sessions) ==> old(sessions)[key].cancelled && old(sessions)[key].token !in sources
      ensures match sess
        case None => !starts && key !in sessions
        case Some(x) =>
          starts && fresh(x) && key in sessions && sessions[key] == x && x.Starts(key, token, index, now)
    {
      if key in sessions {
        var current := sessions[key];
        assert current.token in used;
        StopSessionLocked(current);
        OtherKeys(old(sessions), key, current);
      }
      sess := StartSessionLocked(key, index, token, starts, now);
      if sess.Some? {
        OtherKeys(old(sessions), key, sess.value);
      }
    }

    // What a request for a segment, or for the init file, does under the lock:
    // it goes on with a session that has the segment, or is at most three
    // segments short of it, and starts a new one only if the current one does
    // not cover it. The init file comes with the session's first segment.
    method Resource(key: Key, requested: Option<int>, segments: int, token: nat, starts: bool, now: int)
      returns (result: Result<Session, Error>, ghost awaited: int)
      requires Valid() && token !in used
      modifies this, SessionOf(sessions, key)`produced, SessionOf(sessions, key)`lastSeen
      modifies SessionOf(sessions, key)`cancelled
      ensures Valid()
      ensures sessions - {key} == old(sessions) - {key}
      ensures requested.Some? ==> awaited == requested.value
      ensures requested.None? && key in old(sessions) ==> awaited == old(sessions)[key].startIndex
      ensures requested.None? && key !in old(sessions) ==> awaited == 0
      ensures if awaited >= segments then
          && result == Err(OutOfRange) && sessions == old(sessions) && sources == old(sources)
          && unchanged(SessionOf(sessions, key))
        else if key in old(sessions) && old(sessions[key].CoversIndex(awaited)) then
          result == Ok(old(sessions)[key]) && sessions == old(sessions) && sources == old(sources)
        else
          && (key in old(sessions) ==> old(sessions)[key].cancelled && old(sessions)[key].token !in sources)
          && match result
             case Ok(x) => fresh(x) && x.startIndex == awaited && starts
             case Err(e) => e == StartFailed && !starts && key !in sessions
      ensures result.Ok? ==>
        && key in sessions && sessions[key] == result.value
        && result.value.CoversIndex(awaited) && result.value.lastSeen == now
    {
      var index := if requested.Some? then requested.value else if key in sessions then sessions[key].startIndex else 0;
      awaited := index;
      if index >= segments {
        return Err(OutOfRange), awaited;
      }
      var covered := false;
      if key in sessions {
        covered := sessions[key].Covers(index);
      }
      if covered {
        var sess := sessions[key];
        sess.lastSeen := now;
        return Ok(sess), awaited;
      }
      var started := ReplaceSession(key, index, token, starts, now);
      if started.None? {
        return Err(StartFailed), awaited;
      }
      var sess := started.value;
      FirstSegmentIsNear(sess, index);
      return Ok(sess), awaited;
    }

    method StopAll(doomed: set<Key>)
      requires Valid() && doomed <= sessions.Keys
      modifies this`sessions, this`sources, started`cancelled
      ensures Valid() && started == old(started)
      ensures sessions == old(sessions) - doomed
    {
      var left := doomed;
      ghost var gone: set<Key> := {};
      Kept(sessions, gone);
      while left != {}
        invariant Valid() && started == old(started)
        invariant left !! gone && left + gone == doomed
        invariant sessions == old(sessions) - gone
        decreases left
      {
        var k :| k in left;
        KeptWithout(old(sessions), gone, k);
        StopSessionLocked(sessions[k]);
        left := left - {k};
        gone := gone + {k};
      }
      assert gone == doomed;
    }

    // Ends every session of a user on a file, whatever variant, and no other.
    method Stop(user: nat, file: nat)
      requires Valid()
      modifies this`sessions, this`sources, started`cancelled
      ensures Valid() && started == old(started)
      ensures forall k :: k in sessions <==> k in old(sessions) && !(k.user == user && k.file == file)
      ensures forall k | k in sessions :: sessions[k] == old(sessions)[k]
    {
      StopAll(set k | k in sessions && k.user == user && k.file == file);
    }

    // Ends the sessions nobody has asked anything of since the cutoff.
    method ReapIdle(cutoff: int)
      requires Valid()
      modifies this`sessions, this`sources, started`cancelled
      ensures Valid() && started == old(started)
      ensures forall k :: k in sessions <==> k in old(sessions) && old(sessions[k].lastSeen) >= cutoff
      ensures forall k | k in sessions :: sessions[k] == old(sessions)[k]
    {
      StopAll(set k | k in sessions && sessions[k].lastSeen < cutoff);
    }

    // Ends every session: no source token remains usable.
    method Close()
      requires Valid()
      modifies this`sessions, this`sources, started`cancelled
      ensures Valid() && sessions == map[] && sources == map[]
      ensures forall x | x in old(started) :: x.cancelled
    {
      StopAll(sessions.Keys);
      assert forall t | t in sources :: HasToken(sessions, t);
    }

    // ffmpeg finishes a segment file, or exits.
    method SegmentWritten(key: Key, index: int)
      requires Valid() && key in sessions
      modifies SessionOf(sessions, key)`segments
      ensures Valid() && sessions[key].segments == old(sessions[key].segments) + {index}
    {
      var sess := sessions[key];
      sess.segments := sess.segments + {index};
    }

    method Exited(key: Key)
      requires Valid() && key in sessions
      modifies SessionOf(sessions, key)`finished
      ensures Valid() && sessions[key].finished
    {
      var sess := sessions[key];
      sess.finished := true;
    }
  }

  ghost function SessionOf(sessions: map<Key, Session>, key: Key): set<Session> {
    if key in sessions then {sessions[key]} else {}
  }

  // A session that has written nothing covers the segment it starts at.
  lemma FirstSegmentIsNear(sess: Session, index: int)
    requires sess.segments == {} && !sess.finished && sess.startIndex == index
    ensures sess.CoversIndex(index)
  {
  }
}
