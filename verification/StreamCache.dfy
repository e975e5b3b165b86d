// The stream cache of internal/service/stream_chunk_cache.go: decrypted chunks,
// most recently used first, bounded in number and in bytes.
module StreamCache {
  import opened Prelude
  import opened ChunkLayout

  const DEFAULT_MAX_ENTRIES := 6
  const DEFAULT_MAX_BYTES := 96 * 1024 * 1024

  datatype Key = Key(fileId: nat, position: int)

  /******* The reference: a list, most recent first *******/

  datatype Cached = Cached(key: Key, data: Bytes)

  type Recent = seq<Cached>

  function Total(s: Recent): nat {
    if s == [] then 0 else Total(s[..|s| - 1]) + |s[|s| - 1].data|
  }

  function Without(s: Recent, k: Key): Recent {
    if s == [] then []
    else
      var rest := Without(s[..|s| - 1], k);
      if s[|s| - 1].key == k then rest else rest + [s[|s| - 1]]
  }

  predicate Fits(s: Recent, maxEntries: nat, maxBytes: nat) {
    |s| <= maxEntries && Total(s) <= maxBytes
  }

  function FittingPrefix(s: Recent, maxEntries: nat, maxBytes: nat): Recent {
    if s == [] || Fits(s, maxEntries, maxBytes) then s else FittingPrefix(s[..|s| - 1], maxEntries, maxBytes)
  }

  // FittingPrefix keeps as much as fits: it is the longest prefix that does.
  lemma {:induction false} FittingPrefixIsLongest(s: Recent, maxEntries: nat, maxBytes: nat)
    ensures var p := FittingPrefix(s, maxEntries, maxBytes);
      && p <= s && Fits(p, maxEntries, maxBytes)
      && forall n: nat | n <= |s| && Fits(s[..n], maxEntries, maxBytes) :: n <= |p|
  {
    if s != [] && !Fits(s, maxEntries, maxBytes) {
      var t := s[..|s| - 1];
      FittingPrefixIsLongest(t, maxEntries, maxBytes);
      assert s[..|s|] == s;
      forall n: nat | n <= |s| && Fits(s[..n], maxEntries, maxBytes)
        ensures n <= |FittingPrefix(s, maxEntries, maxBytes)|
      {
        assert t[..n] == s[..n];
      }
    }
  }

  ghost predicate DistinctKeys(s: Recent) {
    forall i: nat, j: nat | i < j < |s| :: s[i].key != s[j].key
  }

  ghost predicate HasKey(s: Recent, k: Key) {
    exists i: nat :: i < |s| && s[i].key == k
  }

  function Find(s: Recent, k: Key): Option<Bytes> {
    if s == [] then None
    else if s[|s| - 1].key == k then Some(s[|s| - 1].data)
    else Find(s[..|s| - 1], k)
  }

  lemma {:induction false} FindIsMember(s: Recent, k: Key)
    requires DistinctKeys(s)
    ensures Find(s, k).Some? <==> HasKey(s, k)
    ensures forall i: nat | i < |s| && s[i].key == k :: Find(s, k) == Some(s[i].data)
  {
    if s != [] {
      FindIsMember(s[..|s| - 1], k);
      if HasKey(s, k) && s[|s| - 1].key != k {
        var i: nat :| i < |s| && s[i].key == k;
        assert s[..|s| - 1][i].key == k;
      }
    }
  }

  lemma {:induction false} WithoutMembers(s: Recent, k: Key)
    ensures forall x :: x in Without(s, k) <==> x in s && x.key != k
  {
    if s != [] {
      var front, last := s[..|s| - 1], s[|s| - 1];
      WithoutMembers(front, k);
      assert s == front + [last];
    }
  }

  lemma {:induction false} WithoutDistinct(s: Recent, k: Key)
    requires DistinctKeys(s)
    ensures DistinctKeys(Without(s, k))
  {
    if s != [] {
      var front := s[..|s| - 1];
      WithoutDistinct(front, k);
      WithoutMembers(front, k);
    }
  }

  lemma {:induction false} WithoutAbsent(s: Recent, k: Key)
    requires !HasKey(s, k)
    ensures Without(s, k) == s
  {
    if s != [] {
      var front := s[..|s| - 1];
      assert forall i: nat | i < |front| :: front[i] == s[i];
      WithoutAbsent(front, k);
      assert s == front + [s[|s| - 1]];
    }
  }

  lemma TotalSnoc(s: Recent, x: Cached)
    ensures Total(s + [x]) == Total(s) + |x.data|
  {
    assert (s + [x])[..|s|] == s;
  }

  lemma {:induction false} WithoutSizes(s: Recent, k: Key)
    requires DistinctKeys(s)
    ensures match Find(s, k)
      case None => Without(s, k) == s
      case Some(data) => |Without(s, k)| == |s| - 1 && Total(Without(s, k)) == Total(s) - |data|
  {
    if s != [] {
      var front, last := s[..|s| - 1], s[|s| - 1];
      WithoutSizes(front, k);
      assert s == front + [last];
      if last.key == k {
        WithoutAbsent(front, k);
      } else {
        TotalSnoc(Without(front, k), last);
      }
    }
  }

  datatype Op = Get(key: Key) | Set(key: Key, data: Bytes)

  predicate Accepts(data: Bytes, maxBytes: nat) {
    0 < |data| <= maxBytes
  }

  function Moved(s: Recent, k: Key, data: Bytes): Recent {
    [Cached(k, data)] + Without(s, k)
  }

  // What an operation leaves: a hit or a set moves its entry to the front; a
  // set then keeps the longest prefix that fits.
  function After(s: Recent, op: Op, maxEntries: nat, maxBytes: nat): Recent {
    match op
    case Get(k) => if Find(s, k).Some? then Moved(s, k, Find(s, k).value) else s
    case Set(k, data) =>
      if Accepts(data, maxBytes) then FittingPrefix(Moved(s, k, data), maxEntries, maxBytes) else s
  }

  ghost predicate Bounded(s: Recent, maxEntries: nat, maxBytes: nat) {
    DistinctKeys(s) && Fits(s, maxEntries, maxBytes)
  }

  lemma {:induction false} TotalCons(x: Cached, s: Recent)
    ensures Total([x] + s) == |x.data| + Total(s)
  {
    if s == [] {
      assert [x] + s == [x] && [x][..0] == [];
    } else {
      assert ([x] + s)[..|s|] == [x] + s[..|s| - 1];
      TotalCons(x, s[..|s| - 1]);
    }
  }

  lemma MovedFacts(s: Recent, k: Key, data: Bytes)
    requires DistinctKeys(s)
    ensures var m := Moved(s, k, data);
      && DistinctKeys(m) && m[0] == Cached(k, data)
      && (forall x | x in m :: x == Cached(k, data) || (x in s && x.key != k))
  {
    WithoutDistinct(s, k);
    WithoutMembers(s, k);
  }

  lemma MovedSizes(s: Recent, k: Key, data: Bytes)
    requires DistinctKeys(s)
    ensures var m := Moved(s, k, data);
      && |m| == |s| + (if Find(s, k).Some? then 0 else 1)
      && Total(m) == Total(s) + |data| - (if Find(s, k).Some? then |Find(s, k).value| else 0)
  {
    WithoutSizes(s, k);
    TotalCons(Cached(k, data), Without(s, k));
  }

  // Both bounds hold after every operation.
  lemma AfterIsBounded(s: Recent, op: Op, maxEntries: nat, maxBytes: nat)
    requires Bounded(s, maxEntries, maxBytes)
    ensures Bounded(After(s, op, maxEntries, maxBytes), maxEntries, maxBytes)
  {
    match op
    case Get(k) =>
      if Find(s, k).Some? {
        MovedFacts(s, k, Find(s, k).value);
        MovedSizes(s, k, Find(s, k).value);
      }
    case Set(k, data) =>
      MovedFacts(s, k, data);
      FittingPrefixIsLongest(Moved(s, k, data), maxEntries, maxBytes);
  }

  // The entry just set survives trimming, unless it is empty or larger than the
  // whole cache; then nothing changes.
  lemma SetSurvives(s: Recent, k: Key, data: Bytes, maxEntries: nat, maxBytes: nat)
    requires DistinctKeys(s) && maxEntries > 0
    ensures var t := After(s, Set(k, data), maxEntries, maxBytes);
      if 0 < |data| <= maxBytes then t != [] && t[0] == Cached(k, data) else t == s
  {
    if |data| == 0 || |data| > maxBytes {
      return;
    }
    var m := Moved(s, k, data);
    MovedFacts(s, k, data);
    FittingPrefixIsLongest(m, maxEntries, maxBytes);
    assert m[..1] == [Cached(k, data)] && [Cached(k, data)][..0] == [];
    assert Total([Cached(k, data)]) == |data|;
  }

  /******* Histories *******/

  function Run(ops: seq<Op>, maxEntries: nat, maxBytes: nat): Recent {
    if ops == [] then []
    else After(Run(ops[..|ops| - 1], maxEntries, maxBytes), ops[|ops| - 1], maxEntries, maxBytes)
  }

  // The data of the last accepted set of a key.
  function LastSet(ops: seq<Op>, k: Key, maxBytes: nat): Option<Bytes> {
    if ops == [] then None
    else
      match ops[|ops| - 1]
      case Set(key, data) =>
        if key == k && Accepts(data, maxBytes) then Some(data) else LastSet(ops[..|ops| - 1], k, maxBytes)
      case Get(_) => LastSet(ops[..|ops| - 1], k, maxBytes)
  }

  lemma {:induction false} CachedIsLastSet(ops: seq<Op>, maxEntries: nat, maxBytes: nat)
    ensures var s := Run(ops, maxEntries, maxBytes);
      Bounded(s, maxEntries, maxBytes) && forall x | x in s :: LastSet(ops, x.key, maxBytes) == Some(x.data)
  {
    if ops != [] {
      var front, op := ops[..|ops| - 1], ops[|ops| - 1];
      CachedIsLastSet(front, maxEntries, maxBytes);
      var s := Run(front, maxEntries, maxBytes);
      AfterIsBounded(s, op, maxEntries, maxBytes);
      match op
      case Get(k) =>
        FindIsMember(s, k);
        if Find(s, k).Some? { MovedFacts(s, k, Find(s, k).value); }
      case Set(k, data) =>
        MovedFacts(s, k, data);
        FittingPrefixIsLongest(Moved(s, k, data), maxEntries, maxBytes);
    }
  }

  // A hit returns the data last accepted for its key, whatever happened since.
  lemma GetReturnsLastSet(ops: seq<Op>, k: Key, maxEntries: nat, maxBytes: nat)
    ensures var hit := Find(Run(ops, maxEntries, maxBytes), k);
      hit.Some? ==> LastSet(ops, k, maxBytes) == hit
  {
    CachedIsLastSet(ops, maxEntries, maxBytes);
    FindIsMember(Run(ops, maxEntries, maxBytes), k);
  }

  // Asking for a key uses it, as does setting it to data that the cache takes.
  predicate Uses(op: Op, k: Key, maxBytes: nat) {
    op.key == k && (op.Set? ==> 0 < |op.data| <= maxBytes)
  }

  // When a key was last used, counted in operations; 0 if never.
  function LastUse(ops: seq<Op>, k: Key, maxBytes: nat): (n: nat)
    ensures n <= |ops|
  {
    if ops == [] then 0
    else if Uses(ops[|ops| - 1], k, maxBytes) then |ops|
    else LastUse(ops[..|ops| - 1], k, maxBytes)
  }

  // Each entry was used more recently than those behind it.
  ghost predicate ByUse(ops: seq<Op>, s: Recent, maxBytes: nat) {
    forall i: nat, j: nat | i < j < |s| :: LastUse(ops, s[j].key, maxBytes) < LastUse(ops, s[i].key, maxBytes)
  }

  lemma {:induction false} WithoutByUse(ops: seq<Op>, s: Recent, k: Key, maxBytes: nat)
    requires ByUse(ops, s, maxBytes)
    ensures ByUse(ops, Without(s, k), maxBytes)
  {
    if s != [] {
      var front := s[..|s| - 1];
      WithoutByUse(ops, front, k, maxBytes);
      WithoutMembers(front, k);
    }
  }

  lemma UseNext(ops: seq<Op>, op: Op, k: Key, maxBytes: nat)
    ensures LastUse(ops + [op], k, maxBytes) == if Uses(op, k, maxBytes) then |ops| + 1 else LastUse(ops, k, maxBytes)
  {
    assert (ops + [op])[..|ops|] == ops;
  }

  lemma MovedByUse(ops: seq<Op>, op: Op, s: Recent, data: Bytes, maxBytes: nat)
    requires ByUse(ops, s, maxBytes) && Uses(op, op.key, maxBytes)
    ensures ByUse(ops + [op], Moved(s, op.key, data), maxBytes)
  {
    var rest := Without(s, op.key);
    WithoutByUse(ops, s, op.key, maxBytes);
    WithoutMembers(s, op.key);
    UseNext(ops, op, op.key, maxBytes);
    forall i: nat | i < |rest|
      ensures LastUse(ops + [op], rest[i].key, maxBytes) == LastUse(ops, rest[i].key, maxBytes)
    {
      assert rest[i] in rest;
      UseNext(ops, op, rest[i].key, maxBytes);
    }
  }

  lemma RunNext(ops: seq<Op>, op: Op, maxEntries: nat, maxBytes: nat)
    ensures Run(ops + [op], maxEntries, maxBytes)
         == After(Run(ops, maxEntries, maxBytes), op, maxEntries, maxBytes)
  {
    assert (ops + [op])[..|ops|] == ops;
  }

  lemma UnusedByUse(ops: seq<Op>, op: Op, s: Recent, maxBytes: nat)
    requires ByUse(ops, s, maxBytes) && (HasKey(s, op.key) ==> !Uses(op, op.key, maxBytes))
    ensures ByUse(ops + [op], s, maxBytes)
  {
    forall i: nat | i < |s| ensures LastUse(ops + [op], s[i].key, maxBytes) == LastUse(ops, s[i].key, maxBytes) {
      UseNext(ops, op, s[i].key, maxBytes);
    }
  }

  lemma StepByUse(ops: seq<Op>, op: Op, maxEntries: nat, maxBytes: nat)
    requires ByUse(ops, Run(ops, maxEntries, maxBytes), maxBytes)
    ensures ByUse(ops + [op], Run(ops + [op], maxEntries, maxBytes), maxBytes)
  {
    var s := Run(ops, maxEntries, maxBytes);
    RunNext(ops, op, maxEntries, maxBytes);
    CachedIsLastSet(ops, maxEntries, maxBytes);
    FindIsMember(s, op.key);
    if op.Set? && 0 < |op.data| <= maxBytes {
      MovedByUse(ops, op, s, op.data, maxBytes);
      FittingPrefixIsLongest(Moved(s, op.key, op.data), maxEntries, maxBytes);
    } else if op.Get? && Find(s, op.key).Some? {
      MovedByUse(ops, op, s, Find(s, op.key).value, maxBytes);
    } else {
      UnusedByUse(ops, op, s, maxBytes);
    }
  }

  // The list is in order of use, most recent first.
  lemma {:induction false} RunByUse(ops: seq<Op>, maxEntries: nat, maxBytes: nat)
    ensures ByUse(ops, Run(ops, maxEntries, maxBytes), maxBytes)
  {
    if ops != [] {
      var front, op := ops[..|ops| - 1], ops[|ops| - 1];
      RunByUse(front, maxEntries, maxBytes);
      assert ops == front + [op];
      StepByUse(front, op, maxEntries, maxBytes);
    }
  }

  ghost predicate Evicted(s: Recent, t: Recent, x: Cached) {
    x in s && !HasKey(t, x.key)
  }

  ghost predicate EvictedLast(ops: seq<Op>, s: Recent, t: Recent, maxBytes: nat) {
    forall x, y: Cached | Evicted(s, t, x) && y in t :: LastUse(ops, x.key, maxBytes) < LastUse(ops, y.key, maxBytes)
  }

  // z is the most recently used entry that went, and would not have fitted.
  ghost predicate NoRoomFor(ops: seq<Op>, s: Recent, t: Recent, z: Cached, maxEntries: nat, maxBytes: nat) {
    && Evicted(s, t, z)
    && (forall x | Evicted(s, t, x) :: LastUse(ops, x.key, maxBytes) <= LastUse(ops, z.key, maxBytes))
    && (|t| + 1 > maxEntries || Total(t) + |z.data| > maxBytes)
  }

  lemma KeyOfMember(s: Recent, x: Cached)
    requires x in s
    ensures HasKey(s, x.key)
  {
    var i: nat :| i < |s| && s[i] == x;
    assert s[i].key == x.key;
  }

  lemma GetEvictsNothing(s: Recent, k: Key, x: Cached)
    requires DistinctKeys(s) && x in s
    ensures HasKey(if Find(s, k).Some? then Moved(s, k, Find(s, k).value) else s, x.key)
  {
    KeyOfMember(s, x);
    if Find(s, k).Some? {
      var t := Moved(s, k, Find(s, k).value);
      WithoutMembers(s, k);
      KeyOfMember(t, if x.key == k then t[0] else x);
    }
  }

  // What a set evicts is what the longest fitting prefix leaves out.
  lemma EvictedIsBehind(s: Recent, k: Key, data: Bytes, t: Recent, x: Cached)
    requires t <= Moved(s, k, data) && t != [] && Evicted(s, t, x)
    ensures x in Moved(s, k, data)[|t|..]
  {
    var full := Moved(s, k, data);
    assert t[0].key == k;
    WithoutMembers(s, k);
    assert x.key != k && x in full;
    assert full == t + full[|t|..];
    if x in t { KeyOfMember(t, x); }
  }

  lemma TrimOrder(ops: seq<Op>, s: Recent, full: Recent, t: Recent, maxBytes: nat)
    requires t <= full && ByUse(ops, full, maxBytes)
    requires forall x | Evicted(s, t, x) :: x in full[|t|..]
    ensures EvictedLast(ops, s, t, maxBytes)
    ensures |t| < |full| ==>
      forall x | Evicted(s, t, x) :: LastUse(ops, x.key, maxBytes) <= LastUse(ops, full[|t|].key, maxBytes)
  {
    forall x | Evicted(s, t, x)
      ensures forall y | y in t :: LastUse(ops, x.key, maxBytes) < LastUse(ops, y.key, maxBytes)
      ensures |t| < |full| && LastUse(ops, x.key, maxBytes) <= LastUse(ops, full[|t|].key, maxBytes)
    {
      var i: nat :| i < |full[|t|..]| && full[|t|..][i] == x;
      assert full[|t| + i] == x;
      forall y | y in t ensures LastUse(ops, x.key, maxBytes) < LastUse(ops, y.key, maxBytes) {
        var j: nat :| j < |t| && t[j] == y;
        assert full[j] == y;
      }
    }
  }

  lemma NextIsEvicted(s: Recent, k: Key, data: Bytes, t: Recent)
    requires DistinctKeys(s) && t < Moved(s, k, data) && t != []
    ensures Evicted(s, t, Moved(s, k, data)[|t|])
  {
    var full := Moved(s, k, data);
    var z := full[|t|];
    MovedFacts(s, k, data);
    assert z in full && full[0].key == k && z.key != k;
    assert forall i: nat | i < |t| :: t[i] == full[i];
  }

  lemma SetEvicts(ops: seq<Op>, s: Recent, k: Key, data: Bytes, maxEntries: nat, maxBytes: nat)
    requires DistinctKeys(s) && ByUse(ops, Moved(s, k, data), maxBytes) && maxEntries > 0 && 0 < |data| <= maxBytes
    ensures var t := After(s, Set(k, data), maxEntries, maxBytes);
      && EvictedLast(ops, s, t, maxBytes)
      && (forall x | Evicted(s, t, x) :: exists z :: NoRoomFor(ops, s, t, z, maxEntries, maxBytes))
  {
    var full, t := Moved(s, k, data), After(s, Set(k, data), maxEntries, maxBytes);
    FittingPrefixIsLongest(full, maxEntries, maxBytes);
    SetSurvives(s, k, data, maxEntries, maxBytes);
    forall x | Evicted(s, t, x) ensures x in full[|t|..] {
      EvictedIsBehind(s, k, data, t, x);
    }
    TrimOrder(ops, s, full, t, maxBytes);
    if |t| < |full| {
      assert full[..|t| + 1] == t + [full[|t|]];
      TotalSnoc(t, full[|t|]);
      NextIsEvicted(s, k, data, t);
      assert NoRoomFor(ops, s, t, full[|t|], maxEntries, maxBytes);
    }
  }

  // What an operation evicts was used less recently than everything that stays,
  // and the most recently used of it would not have fitted.
  lemma EvictsLeastRecentlyUsed(ops: seq<Op>, op: Op, maxEntries: nat, maxBytes: nat)
    requires maxEntries > 0
    ensures var s, t := Run(ops, maxEntries, maxBytes), Run(ops + [op], maxEntries, maxBytes);
      && EvictedLast(ops + [op], s, t, maxBytes)
      && (forall x | Evicted(s, t, x) :: exists z :: NoRoomFor(ops + [op], s, t, z, maxEntries, maxBytes))
  {
    var s := Run(ops, maxEntries, maxBytes);
    RunNext(ops, op, maxEntries, maxBytes);
    RunByUse(ops, maxEntries, maxBytes);
    CachedIsLastSet(ops, maxEntries, maxBytes);
    if op.Set? && 0 < |op.data| <= maxBytes {
      MovedByUse(ops, op, s, op.data, maxBytes);
      SetEvicts(ops + [op], s, op.key, op.data, maxEntries, maxBytes);
    } else {
      forall x | x in s ensures HasKey(Run(ops + [op], maxEntries, maxBytes), x.key) {
        KeyOfMember(s, x);
        GetEvictsNothing(s, op.key, x);
      }
    }
  }

  /******* The cache *******/

  datatype Entry = Entry(data: Bytes, size: int)

  function Remove(order: seq<Key>, k: Key): seq<Key> {
    if order == [] then []
    else
      var rest := Remove(order[..|order| - 1], k);
      if order[|order| - 1] == k then rest else rest + [order[|order| - 1]]
  }

  function Listed(order: seq<Key>, entries: map<Key, Entry>): (s: Recent)
    requires forall k | k in order :: k in entries
    ensures |s| == |order| && forall i: nat | i < |s| :: s[i] == Cached(order[i], entries[order[i]].data)
  {
    seq(|order|, i requires 0 <= i < |order| => Cached(order[i], entries[order[i]].data))
  }

  // The map and the list hold the same keys, and the total is the sum of sizes.
  ghost predicate Linked(order: seq<Key>, entries: map<Key, Entry>, totalBytes: int) {
    && (forall k :: k in order <==> k in entries)
    && |order| == |entries|
    && (forall k | k in entries :: entries[k].size == |entries[k].data|)
    && DistinctKeys(Listed(order, entries))
    && totalBytes == Total(Listed(order, entries))
  }

  lemma {:induction false} RemoveMembers(order: seq<Key>, k: Key)
    ensures forall x :: x in Remove(order, k) <==> x in order && x != k
  {
    if order != [] {
      RemoveMembers(order[..|order| - 1], k);
      assert order == order[..|order| - 1] + [order[|order| - 1]];
    }
  }

  lemma {:induction false} RemoveAbsent(order: seq<Key>, k: Key)
    requires k !in order
    ensures Remove(order, k) == order
  {
    if order != [] {
      RemoveAbsent(order[..|order| - 1], k);
      assert order == order[..|order| - 1] + [order[|order| - 1]];
    }
  }

  lemma {:induction false} RemoveListed(order: seq<Key>, entries: map<Key, Entry>, k: Key)
    requires forall x | x in order :: x in entries
    ensures forall x | x in Remove(order, k) :: x in entries
    ensures Listed(Remove(order, k), entries) == Without(Listed(order, entries), k)
  {
    RemoveMembers(order, k);
    if order != [] {
      var front, last := order[..|order| - 1], order[|order| - 1];
      RemoveListed(front, entries, k);
      assert Listed(order, entries)[..|order| - 1] == Listed(front, entries);
      if last != k {
        RemoveMembers(front, k);
        assert Listed(Remove(front, k) + [last], entries)
            == Listed(Remove(front, k), entries) + [Cached(last, entries[last].data)];
      }
    }
  }

  lemma FindListed(order: seq<Key>, entries: map<Key, Entry>, totalBytes: int, k: Key)
    requires Linked(order, entries, totalBytes)
    ensures Find(Listed(order, entries), k) == if k in entries then Some(entries[k].data) else None
  {
    var s := Listed(order, entries);
    FindIsMember(s, k);
    if k in entries {
      var i: nat :| i < |order| && order[i] == k;
      assert s[i].key == k;
    } else {
      forall i: nat | i < |s| ensures s[i].key != k {
        assert order[i] in entries;
      }
    }
  }

  lemma OthersListed(order: seq<Key>, entries: map<Key, Entry>, k: Key, e: Entry)
    requires k !in order && forall x | x in order :: x in entries
    ensures Listed(order, entries[k := e]) == Listed(order, entries)
  {
    forall i: nat | i < |order| ensures Listed(order, entries[k := e])[i] == Listed(order, entries)[i] {
      assert order[i] in order;
    }
  }

  lemma ListedCons(k: Key, rest: seq<Key>, entries: map<Key, Entry>)
    requires k in entries && forall x | x in rest :: x in entries
    ensures Listed([k] + rest, entries) == [Cached(k, entries[k].data)] + Listed(rest, entries)
  {
  }

  lemma PutListed(order: seq<Key>, entries: map<Key, Entry>, k: Key, data: Bytes)
    requires forall x | x in order :: x in entries
    ensures forall x | x in [k] + Remove(order, k) :: x == k || x in entries
    ensures Listed([k] + Remove(order, k), entries[k := Entry(data, |data|)]) == Moved(Listed(order, entries), k, data)
  {
    RemoveMembers(order, k);
    RemoveListed(order, entries, k);
    OthersListed(Remove(order, k), entries, k, Entry(data, |data|));
    ListedCons(k, Remove(order, k), entries[k := Entry(data, |data|)]);
  }

  lemma PutKeys(order: seq<Key>, entries: map<Key, Entry>, k: Key, e: Entry)
    requires forall x :: x in order <==> x in entries
    ensures forall x :: x in [k] + Remove(order, k) <==> x in entries[k := e]
    ensures |entries[k := e]| == |entries| + if k in entries then 0 else 1
  {
    RemoveMembers(order, k);
    assert entries[k := e].Keys == entries.Keys + {k};
  }

  // Putting an entry in front keeps map, list and total in step.
  lemma PutLinked(order: seq<Key>, entries: map<Key, Entry>, totalBytes: int, k: Key, data: Bytes)
    requires Linked(order, entries, totalBytes)
    ensures var size := if k in entries then entries[k].size else 0;
      Linked([k] + Remove(order, k), entries[k := Entry(data, |data|)], totalBytes - size + |data|)
  {
    var s := Listed(order, entries);
    PutKeys(order, entries, k, Entry(data, |data|));
    PutListed(order, entries, k, data);
    FindListed(order, entries, totalBytes, k);
    MovedFacts(s, k, data);
    MovedSizes(s, k, data);
    assert |[k] + Remove(order, k)| == |Listed([k] + Remove(order, k), entries[k := Entry(data, |data|)])|;
  }

  lemma DropKeys(rest: seq<Key>, tail: Key, entries: map<Key, Entry>)
    requires forall k :: k in rest + [tail] <==> k in entries
    requires DistinctKeys(Listed(rest + [tail], entries))
    ensures tail in entries && tail !in rest
    ensures forall k :: k in rest <==> k in entries - {tail}
    ensures |entries - {tail}| == |entries| - 1
  {
    var s := Listed(rest + [tail], entries);
    assert tail in rest + [tail];
    forall i: nat | i < |rest| ensures rest[i] != tail {
      assert s[i].key != s[|rest|].key;
    }
    assert (entries - {tail}).Keys == entries.Keys - {tail};
  }

  lemma DropListed(rest: seq<Key>, tail: Key, entries: map<Key, Entry>)
    requires forall k | k in rest + [tail] :: k in entries
    requires tail !in rest
    ensures forall k | k in rest :: k in entries - {tail}
    ensures Listed(rest + [tail], entries) == Listed(rest, entries - {tail}) + [Cached(tail, entries[tail].data)]
  {
    forall i: nat | i < |rest| ensures rest[i] in entries && rest[i] != tail {
      assert (rest + [tail])[i] in rest + [tail];
    }
  }

  // So does dropping the last entry.
  lemma DropLinked(rest: seq<Key>, tail: Key, entries: map<Key, Entry>, totalBytes: int)
    requires Linked(rest + [tail], entries, totalBytes)
    ensures tail in entries
    ensures Linked(rest, entries - {tail}, totalBytes - entries[tail].size)
    ensures Listed(rest + [tail], entries) == Listed(rest, entries - {tail}) + [Cached(tail, entries[tail].data)]
  {
    DropKeys(rest, tail, entries);
    DropListed(rest, tail, entries);
    TotalSnoc(Listed(rest, entries - {tail}), Cached(tail, entries[tail].data));
    DistinctFront(Listed(rest, entries - {tail}), Cached(tail, entries[tail].data));
  }

  lemma DistinctFront(s: Recent, x: Cached)
    requires DistinctKeys(s + [x])
    ensures DistinctKeys(s)
  {
    forall i: nat, j: nat | i < j < |s| ensures s[i].key != s[j].key {
      assert (s + [x])[i].key != (s + [x])[j].key;
    }
  }

  lemma TrimStep(s: Recent, last: Cached, maxEntries: nat, maxBytes: nat)
    requires !Fits(s + [last], maxEntries, maxBytes)
    ensures FittingPrefix(s + [last], maxEntries, maxBytes) == FittingPrefix(s, maxEntries, maxBytes)
  {
    assert (s + [last])[..|s|] == s;
  }

  class StreamChunkCache {
    var entries: map<Key, Entry>
    var order: seq<Key>           // front to back
    var totalBytes: int
    const maxBytes: nat
    const maxEntries: nat

    ghost predicate Consistent()
      reads this
    {
      Linked(order, entries, totalBytes) && maxEntries > 0 && maxBytes > 0
    }

    ghost function Contents(): Recent
      requires Consistent()
      reads this
    {
      Listed(order, entries)
    }

    ghost predicate Valid()
      reads this
    {
      Consistent() && Fits(Contents(), maxEntries, maxBytes)
    }

    constructor (maxEntries: int, maxBytes: int)
      ensures Valid() && Contents() == []
      ensures this.maxEntries == (if maxEntries <= 0 then DEFAULT_MAX_ENTRIES else maxEntries)
      ensures this.maxBytes == (if maxBytes <= 0 then DEFAULT_MAX_BYTES else maxBytes)
    {
      entries, order, totalBytes := map[], [], 0;
      this.maxEntries := if maxEntries <= 0 then DEFAULT_MAX_ENTRIES else maxEntries;
      this.maxBytes := if maxBytes <= 0 then DEFAULT_MAX_BYTES else maxBytes;
    }

    method MoveToFront(k: Key)
      requires Consistent() && k in entries
      modifies this`order
      ensures Consistent() && Contents() == Moved(old(Contents()), k, entries[k].data)
    {
      PutLinked(order, entries, totalBytes, k, entries[k].data);
      PutListed(order, entries, k, entries[k].data);
      assert entries[k := Entry(entries[k].data, |entries[k].data|)] == entries;
      order := [k] + Remove(order, k);
    }

    method Get(k: Key) returns (data: Option<Bytes>)
      requires Valid()
      modifies this
      ensures Valid()
      ensures data == Find(old(Contents()), k)
      ensures Contents() == After(old(Contents()), Op.Get(k), maxEntries, maxBytes)
    {
      FindListed(order, entries, totalBytes, k);
      if k !in entries {
        return None;
      }
      AfterIsBounded(Contents(), Op.Get(k), maxEntries, maxBytes);
      MoveToFront(k);
      return Some(entries[k].data);
    }

    method RemoveTail()
      requires Consistent() && order != []
      modifies this
      ensures Consistent() && |order| == |old(order)| - 1
      ensures exists last :: old(Contents()) == Contents() + [last]
    {
      var tail := order[|order| - 1];
      var rest := order[..|order| - 1];
      assert order == rest + [tail];
      DropLinked(rest, tail, entries, totalBytes);
      ghost var before, last := Contents(), Cached(tail, entries[tail].data);
      totalBytes := totalBytes - entries[tail].size;
      entries := entries - {tail};
      order := rest;
      assert Linked(order, entries, totalBytes);
      assert before == Contents() + [last];
    }

    method TrimLocked()
      requires Consistent()
      modifies this
      ensures Valid() && Contents() == FittingPrefix(old(Contents()), maxEntries, maxBytes)
    {
      while |entries| > maxEntries || totalBytes > maxBytes
        invariant Consistent()
        invariant FittingPrefix(Contents(), maxEntries, maxBytes)
               == FittingPrefix(old(Contents()), maxEntries, maxBytes)
        decreases |order|
      {
        if order == [] {
          return;
        }
        ghost var before := Contents();
        RemoveTail();
        ghost var last :| before == Contents() + [last];
        TrimStep(Contents(), last, maxEntries, maxBytes);
      }
    }

    method Set(k: Key, data: Bytes)
      requires Valid()
      modifies this
      ensures Valid()
      ensures Contents() == After(old(Contents()), Op.Set(k, data), maxEntries, maxBytes)
    {
      if |data| == 0 || |data| > maxBytes {
        return;
      }
      PutLinked(order, entries, totalBytes, k, data);
      PutListed(order, entries, k, data);
      if k in entries {
        totalBytes := totalBytes - entries[k].size;
        entries := entries[k := Entry(data, |data|)];
        totalBytes := totalBytes + entries[k].size;
        order := [k] + Remove(order, k);
        TrimLocked();
        return;
      }
      RemoveAbsent(order, k);
      order := [k] + order;
      entries := entries[k := Entry(data, |data|)];
      totalBytes := totalBytes + |data|;
      TrimLocked();
    }
  }
}
