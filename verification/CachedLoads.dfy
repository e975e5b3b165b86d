// Shared chunk loads over the bounded stream cache: the cache of ChunkLoads,
// which drops entries at will, is here the one of StreamCache
// (internal/service/chunk_downloader.go and stream_chunk_cache.go).
module CachedLoads {
  import opened Prelude
  import opened ChunkLayout
  import opened StreamCache
  import ChunkLoads

  // The cache's bounds; its constructor replaces other values by defaults.
  datatype Limits = Limits(maxEntries: nat, maxBytes: nat)

  datatype State = State(loads: ChunkLoads.State, recent: Recent)

  const INIT := State(ChunkLoads.INIT, [])

  // The entries by key.
  function Table(s: Recent): map<Key, Bytes> {
    if s == [] then map[] else Table(s[..|s| - 1])[s[|s| - 1].key := s[|s| - 1].data]
  }

  // What an action does to the cache: both looks get, storing a result sets.
  function CacheOp(s: ChunkLoads.State, e: ChunkLoads.Event): Option<Op>
    requires ChunkLoads.Enabled(s, e)
  {
    match e
    case FirstLook(c) => Some(Get(s.calls[c].key))
    case SecondLook(c) => Some(Get(s.calls[c].key))
    case Store(c, _) => Some(Set(s.calls[c].key, s.calls[c].phase.data))
    case _ => None
  }

  // The actions of calls. What the cache accepts is up to its size limit, and
  // nothing but the cache itself drops entries.
  predicate Enabled(m: Limits, s: State, e: ChunkLoads.Event) {
    && ChunkLoads.Enabled(s.loads, e) && !e.Evict?
    && (e.Store? ==> (e.accepted <==> Accepts(s.loads.calls[e.c].phase.data, m.maxBytes)))
  }

  function Recents(m: Limits, s: State, e: ChunkLoads.Event): Recent
    requires Enabled(m, s, e)
  {
    match CacheOp(s.loads, e)
    case None => s.recent
    case Some(op) => After(s.recent, op, m.maxEntries, m.maxBytes)
  }

  function Apply(m: Limits, s: State, e: ChunkLoads.Event): State
    requires Enabled(m, s, e)
  {
    var recent := Recents(m, s, e);
    State(ChunkLoads.Apply(s.loads, e).(cache := Table(recent)), recent)
  }

  ghost predicate Inv(m: Limits, s: State) {
    s.loads.cache == Table(s.recent) && Bounded(s.recent, m.maxEntries, m.maxBytes)
  }

  /******* Operations on the table *******/

  lemma {:induction false} TableFinds(s: Recent, k: Key)
    ensures Find(s, k) == if k in Table(s) then Some(Table(s)[k]) else None
  {
    if s != [] {
      TableFinds(s[..|s| - 1], k);
    }
  }

  lemma KeyIn(s: Recent, t: Recent, k: Key)
    requires forall x: Cached | x.key == k && x in s :: x in t
    ensures HasKey(s, k) ==> HasKey(t, k)
  {
    if HasKey(s, k) {
      var i: nat :| i < |s| && s[i].key == k;
      assert s[i] in t;
    }
  }

  lemma SameMembers(s: Recent, t: Recent, k: Key)
    requires DistinctKeys(s) && DistinctKeys(t)
    requires forall x: Cached | x.key == k :: x in s <==> x in t
    ensures Find(s, k) == Find(t, k)
  {
    FindIsMember(s, k);
    FindIsMember(t, k);
    KeyIn(t, s, k);
    if HasKey(s, k) {
      var i: nat :| i < |s| && s[i].key == k;
      assert s[i] in t;
    }
  }

  // Moving an entry to the front, with these data, sets its key only.
  lemma MovedFinds(s: Recent, k: Key, data: Bytes, l: Key)
    requires DistinctKeys(s)
    ensures Find(Moved(s, k, data), l) == if l == k then Some(data) else Find(s, l)
  {
    var t := Moved(s, k, data);
    MovedFacts(s, k, data);
    WithoutMembers(s, k);
    if l == k {
      FindIsMember(t, k);
      assert t[0].key == k;
    } else {
      SameMembers(s, t, l);
    }
  }

  lemma PrefixFinds(s: Recent, t: Recent, k: Key)
    requires DistinctKeys(s) && t <= s
    ensures Find(t, k).None? || Find(t, k) == Find(s, k)
  {
    FindIsMember(s, k);
    FindIsMember(t, k);
    if HasKey(t, k) {
      var i: nat :| i < |t| && t[i].key == k;
      assert s[i] == t[i];
    }
  }

  // Looking an entry up changes no entry.
  lemma GetKeepsTable(m: Limits, s: Recent, k: Key)
    requires DistinctKeys(s)
    ensures Table(After(s, Get(k), m.maxEntries, m.maxBytes)) == Table(s)
  {
    var t := After(s, Get(k), m.maxEntries, m.maxBytes);
    forall l ensures Find(t, l) == Find(s, l) {
      if Find(s, k).Some? {
        MovedFinds(s, k, Find(s, k).value, l);
      }
    }
    SameTable(s, t);
  }

  lemma SameTable(s: Recent, t: Recent)
    requires forall l :: Find(t, l) == Find(s, l)
    ensures Table(t) == Table(s)
  {
    forall l ensures (l in Table(t) <==> l in Table(s)) && (l in Table(s) ==> Table(t)[l] == Table(s)[l]) {
      TableFinds(s, l);
      TableFinds(t, l);
    }
  }

  // An accepted set is a map update after which some other entries are dropped.
  lemma SetDrops(m: Limits, s: Recent, k: Key, data: Bytes) returns (gone: set<Key>)
    requires DistinctKeys(s) && m.maxEntries > 0 && Accepts(data, m.maxBytes)
    ensures k !in gone && Table(After(s, Set(k, data), m.maxEntries, m.maxBytes)) == Table(s)[k := data] - gone
  {
    var t := After(s, Set(k, data), m.maxEntries, m.maxBytes);
    var full := Moved(s, k, data);
    MovedFacts(s, k, data);
    FittingPrefixIsLongest(full, m.maxEntries, m.maxBytes);
    SetSurvives(s, k, data, m.maxEntries, m.maxBytes);
    gone := Table(s)[k := data].Keys - Table(t).Keys;
    forall l
      ensures l in Table(t) <==> l in Table(s)[k := data] && l !in gone
      ensures l in Table(t) ==> Table(t)[l] == Table(s)[k := data][l]
      ensures l == k ==> l in Table(t)
    {
      TableFinds(s, l);
      TableFinds(t, l);
      MovedFinds(s, k, data, l);
      PrefixFinds(full, t, l);
      if l == k {
        FindIsMember(t, k);
        assert t[0].key == k;
      }
    }
  }

  /******* Runs *******/

  ghost predicate AllEvict(run: seq<ChunkLoads.Event>) {
    forall e | e in run :: e.Evict?
  }

  lemma Cons(e: ChunkLoads.Event, rest: seq<ChunkLoads.Event>)
    ensures ([e] + rest)[0] == e && ([e] + rest)[1..] == rest
  {
  }

  lemma Dropped(cache: map<Key, Bytes>, k: Key, rest: set<Key>)
    ensures (cache - {k}) - rest == cache - ({k} + rest)
  {
  }

  lemma {:induction false} EvictAll(s: ChunkLoads.State, gone: set<Key>) returns (run: seq<ChunkLoads.Event>)
    ensures AllEvict(run) && ChunkLoads.Valid(s, run)
    ensures ChunkLoads.Exec(s, run) == s.(cache := s.cache - gone)
    decreases gone
  {
    if gone == {} {
      run := [];
      assert s.cache - gone == s.cache;
    } else {
      var k :| k in gone;
      var t := ChunkLoads.Apply(s, ChunkLoads.Evict(k));
      var rest := EvictAll(t, gone - {k});
      Cons(ChunkLoads.Evict(k), rest);
      Dropped(s.cache, k, gone - {k});
      assert {k} + (gone - {k}) == gone;
      run := [ChunkLoads.Evict(k)] + rest;
    }
  }

  // One action of a call over this cache is that action over a cache that then
  // drops some entries.
  lemma StepIsLoads(m: Limits, s: State, e: ChunkLoads.Event) returns (evictions: seq<ChunkLoads.Event>)
    requires m.maxEntries > 0 && Inv(m, s) && Enabled(m, s, e)
    ensures Inv(m, Apply(m, s, e))
    ensures var t := ChunkLoads.Apply(s.loads, e);
      AllEvict(evictions) && ChunkLoads.Valid(t, evictions) && ChunkLoads.Exec(t, evictions) == Apply(m, s, e).loads
  {
    var t := ChunkLoads.Apply(s.loads, e);
    evictions := [];
    match CacheOp(s.loads, e)
    case None =>
    case Some(Get(k)) =>
      GetKeepsTable(m, s.recent, k);
      AfterIsBounded(s.recent, Get(k), m.maxEntries, m.maxBytes);
    case Some(Set(k, data)) =>
      AfterIsBounded(s.recent, Set(k, data), m.maxEntries, m.maxBytes);
      if e.accepted {
        var gone := SetDrops(m, s.recent, k, data);
        evictions := EvictAll(t, gone);
      }
  }

  predicate Valid(m: Limits, s: State, run: seq<ChunkLoads.Event>)
    decreases |run|
  {
    run == [] || (Enabled(m, s, run[0]) && Valid(m, Apply(m, s, run[0]), run[1..]))
  }

  function Exec(m: Limits, s: State, run: seq<ChunkLoads.Event>): State
    requires Valid(m, s, run)
    decreases |run|
  {
    if run == [] then s else Exec(m, Apply(m, s, run[0]), run[1..])
  }

  lemma {:induction false} Chain(s: ChunkLoads.State, a: seq<ChunkLoads.Event>, b: seq<ChunkLoads.Event>)
    requires ChunkLoads.Valid(s, a) && ChunkLoads.Valid(ChunkLoads.Exec(s, a), b)
    ensures ChunkLoads.Valid(s, a + b) && ChunkLoads.Exec(s, a + b) == ChunkLoads.Exec(ChunkLoads.Exec(s, a), b)
    decreases |a|
  {
    if a == [] {
      assert a + b == b;
    } else {
      assert (a + b)[1..] == a[1..] + b;
      Chain(ChunkLoads.Apply(s, a[0]), a[1..], b);
    }
  }

  // Every run over this cache is a run of the shared loads, with evictions.
  lemma {:induction false} Project(m: Limits, s: State, run: seq<ChunkLoads.Event>)
    returns (loads: seq<ChunkLoads.Event>)
    requires m.maxEntries > 0 && Inv(m, s) && Valid(m, s, run)
    ensures ChunkLoads.Valid(s.loads, loads) && ChunkLoads.Exec(s.loads, loads) == Exec(m, s, run).loads
    ensures Inv(m, Exec(m, s, run))
    decreases |run|
  {
    if run == [] {
      loads := [];
    } else {
      var evictions := StepIsLoads(m, s, run[0]);
      var rest := Project(m, Apply(m, s, run[0]), run[1..]);
      Chain(ChunkLoads.Apply(s.loads, run[0]), evictions, rest);
      Cons(run[0], evictions + rest);
      loads := [run[0]] + (evictions + rest);
    }
  }

  // So over the real cache, within its bounds, every call that returns data
  // returns what an uncached load of its chunk produced, no chunk is loaded
  // twice at the same time, and no other call's context error gets through.
  lemma CachedLoadsAreSound(m: Limits, run: seq<ChunkLoads.Event>, c: nat, d: nat)
    requires m.maxEntries > 0 && Valid(m, INIT, run)
    requires var s := Exec(m, INIT, run).loads; ChunkLoads.In(s, c) && ChunkLoads.In(s, d)
    ensures Bounded(Exec(m, INIT, run).recent, m.maxEntries, m.maxBytes)
    ensures var s := Exec(m, INIT, run).loads;
      var p := s.calls[c].phase;
      && (p.Returned? && p.outcome.Ok? ==> (s.calls[c].key, p.outcome.value) in s.produced)
      && (ChunkLoads.Leading(p) && ChunkLoads.Leading(s.calls[d].phase) && s.calls[c].key == s.calls[d].key ==> c == d)
      && (p.Returned? && p.outcome == Err(ChunkLoads.ContextError) && p.live ==>
            p.from.Some? && p.from.value < |s.flights|
            && s.flights[p.from.value].leader == c && s.flights[p.from.value].dups == 0)
  {
    var loads := Project(m, INIT, run);
    var s := Exec(m, INIT, run).loads;
    ChunkLoads.ReturnsLoadedData(loads, c);
    ChunkLoads.NoForeignContextError(loads, c);
    var x, y := s.calls[c], s.calls[d];
    if ChunkLoads.Leading(x.phase) && ChunkLoads.Leading(y.phase) && x.key == y.key {
      ChunkLoads.OneLoadPerKey(loads, c, d);
    }
  }

  /******* Who loads *******/

  // The call whose code an action runs.
  function Actor(e: ChunkLoads.Event): Option<nat> {
    match e
    case Arrive(_) => None
    case Evict(_) => None
    case Cancel(_) => None
    case _ => Some(e.c)
  }

  ghost predicate Acts(run: seq<ChunkLoads.Event>, c: nat) {
    exists e :: e in run && Actor(e) == Some(c)
  }

  // What the cache holds for the chunk that call c asks for.
  function Held(s: State, c: nat): Option<Bytes>
    requires ChunkLoads.In(s.loads, c)
  {
    Find(s.recent, s.loads.calls[c].key)
  }

  predicate Fresh(s: State, c: nat) {
    ChunkLoads.In(s.loads, c) ==> s.loads.calls[c].phase.Started?
  }

  lemma {:induction false} Split(m: Limits, s: State, a: seq<ChunkLoads.Event>, b: seq<ChunkLoads.Event>)
    requires Valid(m, s, a + b)
    ensures Valid(m, s, a) && Valid(m, Exec(m, s, a), b)
    ensures Exec(m, s, a + b) == Exec(m, Exec(m, s, a), b)
    decreases |a|
  {
    if a == [] {
      assert a + b == b;
    } else {
      assert (a + b)[1..] == a[1..] + b;
      Split(m, Apply(m, s, a[0]), a[1..], b);
    }
  }

  // Only its own code moves a call, and it never is as new as before again.
  lemma OnlyActorMoves(m: Limits, s: State, e: ChunkLoads.Event, c: nat)
    requires Enabled(m, s, e) && ChunkLoads.In(s.loads, c)
    ensures var t := Apply(m, s, e);
      && ChunkLoads.In(t.loads, c) && t.loads.calls[c].key == s.loads.calls[c].key
      && (Actor(e) != Some(c) ==> t.loads.calls[c].phase == s.loads.calls[c].phase)
      && (Actor(e) == Some(c) ==> !t.loads.calls[c].phase.Started? && !s.loads.calls[c].phase.Returned?)
  {
  }

  lemma {:induction false} StaysMoved(m: Limits, s: State, run: seq<ChunkLoads.Event>, c: nat)
    requires Valid(m, s, run) && ChunkLoads.In(s.loads, c) && !s.loads.calls[c].phase.Started?
    ensures !Fresh(Exec(m, s, run), c)
    decreases |run|
  {
    if run != [] {
      OnlyActorMoves(m, s, run[0], c);
      StaysMoved(m, Apply(m, s, run[0]), run[1..], c);
    }
  }

  lemma ActsTail(run: seq<ChunkLoads.Event>, c: nat)
    requires run != []
    ensures Acts(run, c) <==> Actor(run[0]) == Some(c) || Acts(run[1..], c)
  {
    assert run == [run[0]] + run[1..];
    if Actor(run[0]) == Some(c) { assert run[0] in run; }
    if Acts(run[1..], c) {
      var e :| e in run[1..] && Actor(e) == Some(c);
      assert e in run;
    }
  }

  // A call that is still new has done nothing.
  lemma {:induction false} FreshHasNotActed(m: Limits, s: State, run: seq<ChunkLoads.Event>, c: nat)
    requires Valid(m, s, run) && Fresh(Exec(m, s, run), c)
    ensures !Acts(run, c)
    decreases |run|
  {
    if run != [] {
      var t := Apply(m, s, run[0]);
      FreshHasNotActed(m, t, run[1..], c);
      ActsTail(run, c);
      if Actor(run[0]) == Some(c) {
        OnlyActorMoves(m, s, run[0], c);
        StaysMoved(m, t, run[1..], c);
      }
    }
  }

  // A call that has returned does nothing more.
  lemma {:induction false} ReturnedIsFinal(m: Limits, s: State, run: seq<ChunkLoads.Event>, c: nat)
    requires Valid(m, s, run) && ChunkLoads.In(s.loads, c) && s.loads.calls[c].phase.Returned?
    ensures var t := Exec(m, s, run);
      ChunkLoads.In(t.loads, c) && t.loads.calls[c].phase == s.loads.calls[c].phase
    ensures !Acts(run, c)
    decreases |run|
  {
    if run != [] {
      OnlyActorMoves(m, s, run[0], c);
      ReturnedIsFinal(m, Apply(m, s, run[0]), run[1..], c);
      ActsTail(run, c);
    }
  }

  lemma CacheIsRecent(m: Limits, run: seq<ChunkLoads.Event>, k: Key)
    requires m.maxEntries > 0 && Valid(m, INIT, run)
    ensures var s := Exec(m, INIT, run);
      Find(s.recent, k) == if k in s.loads.cache then Some(s.loads.cache[k]) else None
  {
    var loads := Project(m, INIT, run);
    TableFinds(Exec(m, INIT, run).recent, k);
  }

  // A call whose chunk is in the cache when it first looks returns that data,
  // and that look is all it does: it starts, joins and runs no load.
  lemma CachedCallNeverLoads(m: Limits, before: seq<ChunkLoads.Event>, c: nat, after: seq<ChunkLoads.Event>)
    requires m.maxEntries > 0 && Valid(m, INIT, before + ([ChunkLoads.FirstLook(c)] + after))
    ensures Valid(m, INIT, before) && ChunkLoads.In(Exec(m, INIT, before).loads, c)
    ensures var s, t := Exec(m, INIT, before), Exec(m, INIT, before + ([ChunkLoads.FirstLook(c)] + after));
      Held(s, c).Some? ==>
        && ChunkLoads.In(t.loads, c) && t.loads.calls[c].phase.Returned?
        && t.loads.calls[c].phase.outcome == Ok(Held(s, c).value)
        && !Acts(before, c) && !Acts(after, c)
  {
    var look := ChunkLoads.FirstLook(c);
    Split(m, INIT, before, [look] + after);
    Cons(look, after);
    var s := Exec(m, INIT, before);
    if Held(s, c).Some? {
      CacheIsRecent(m, before, s.loads.calls[c].key);
      FreshHasNotActed(m, INIT, before, c);
      ReturnedIsFinal(m, Apply(m, s, look), after, c);
    }
  }

  // The last thing call c has done is to look a second time, in vain.
  ghost predicate MissedLast(m: Limits, run: seq<ChunkLoads.Event>, c: nat, i: nat)
    requires Valid(m, INIT, run)
  {
    && i < |run| && run[i] == ChunkLoads.SecondLook(c)
    && Valid(m, INIT, run[..i]) && ChunkLoads.In(Exec(m, INIT, run[..i]).loads, c)
    && Held(Exec(m, INIT, run[..i]), c).None?
    && forall j: nat | i < j < |run| :: Actor(run[j]) != Some(c)
  }

  lemma LoadingStep(m: Limits, s: State, e: ChunkLoads.Event, c: nat)
    requires Enabled(m, s, e) && ChunkLoads.In(Apply(m, s, e).loads, c)
    requires Apply(m, s, e).loads.calls[c].phase.Loading?
    ensures ChunkLoads.In(s.loads, c)
    ensures Actor(e) == Some(c) ==> e == ChunkLoads.SecondLook(c) && s.loads.calls[c].key !in s.loads.cache
    ensures Actor(e) != Some(c) ==> s.loads.calls[c].phase.Loading?
  {
  }

  // A call that is loading has missed at its second look.
  lemma {:induction false} LoadingHasMissed(m: Limits, run: seq<ChunkLoads.Event>, c: nat) returns (i: nat)
    requires m.maxEntries > 0 && Valid(m, INIT, run)
    requires var s := Exec(m, INIT, run).loads; ChunkLoads.In(s, c) && s.calls[c].phase.Loading?
    ensures MissedLast(m, run, c, i)
    decreases |run|
  {
    var front, e := run[..|run| - 1], run[|run| - 1];
    assert run == front + [e];
    Split(m, INIT, front, [e]);
    var s := Exec(m, INIT, front);
    assert Exec(m, s, [e]) == Apply(m, s, e);
    LoadingStep(m, s, e, c);
    if Actor(e) == Some(c) {
      i := |run| - 1;
      CacheIsRecent(m, front, s.loads.calls[c].key);
    } else {
      i := LoadingHasMissed(m, front, c);
      assert run[..i] == front[..i];
    }
  }

  // A leader that finds its chunk at its second look ends its flight with it, for
  // itself and for every call that joined.
  lemma SecondLookHit(m: Limits, run: seq<ChunkLoads.Event>, c: nat)
    requires m.maxEntries > 0 && Valid(m, INIT, run + [ChunkLoads.SecondLook(c)])
    ensures Valid(m, INIT, run) && ChunkLoads.In(Exec(m, INIT, run).loads, c)
    ensures var s, t := Exec(m, INIT, run), Exec(m, INIT, run + [ChunkLoads.SecondLook(c)]).loads;
      Held(s, c).Some? ==>
        && ChunkLoads.In(t, c) && t.calls[c].phase.Landed? && t.calls[c].phase.flight < |t.flights|
        && t.flights[t.calls[c].phase.flight].outcome == Some(Ok(Held(s, c).value))
  {
    Split(m, INIT, run, [ChunkLoads.SecondLook(c)]);
    var s := Exec(m, INIT, run);
    assert Exec(m, s, [ChunkLoads.SecondLook(c)]) == Apply(m, s, ChunkLoads.SecondLook(c));
    CacheIsRecent(m, run, s.loads.calls[c].key);
  }

  // So a chunk is only ever loaded by a call that found it absent from the cache
  // while it led: nothing it did lies between that look and the load's end.
  lemma OnlyMissesLoad(m: Limits, run: seq<ChunkLoads.Event>, e: ChunkLoads.Event) returns (i: nat)
    requires m.maxEntries > 0 && Valid(m, INIT, run + [e]) && (e.LoadOk? || e.LoadFail?)
    ensures Valid(m, INIT, run) && MissedLast(m, run, e.c, i)
  {
    Split(m, INIT, run, [e]);
    i := LoadingHasMissed(m, run, e.c);
  }

  // What a load brings is in the cache right after it has been stored, unless it
  // is empty or larger than the cache.
  lemma StoredIsCached(m: Limits, run: seq<ChunkLoads.Event>, c: nat, accepted: bool)
    requires m.maxEntries > 0 && Valid(m, INIT, run + [ChunkLoads.Store(c, accepted)])
    ensures Valid(m, INIT, run) && ChunkLoads.In(Exec(m, INIT, run).loads, c)
    ensures Exec(m, INIT, run).loads.calls[c].phase.Storing?
    ensures var data := Exec(m, INIT, run).loads.calls[c].phase.data;
      var t := Exec(m, INIT, run + [ChunkLoads.Store(c, accepted)]);
      0 < |data| <= m.maxBytes ==> ChunkLoads.In(t.loads, c) && Held(t, c) == Some(data)
  {
    var e := ChunkLoads.Store(c, accepted);
    Split(m, INIT, run, [e]);
    var s := Exec(m, INIT, run);
    assert Exec(m, s, [e]) == Apply(m, s, e);
    var loads := Project(m, INIT, run);
    var k, data := s.loads.calls[c].key, s.loads.calls[c].phase.data;
    if 0 < |data| <= m.maxBytes {
      var t := Apply(m, s, e);
      SetSurvives(s.recent, k, data, m.maxEntries, m.maxBytes);
      AfterIsBounded(s.recent, Set(k, data), m.maxEntries, m.maxBytes);
      FindIsMember(t.recent, k);
      assert t.recent[0] == StreamCache.Cached(k, data);
    }
  }
}
