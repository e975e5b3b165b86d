// Conflict-free names: CreateFileAnyway of internal/repository/files.go over
// the path helpers of internal/pathutil/pathutil.go. The pattern it selects
// rows by is taken to match exactly the path itself and its numbered variants.
module FileNaming {
  import opened Prelude
  import opened Decimal

  // strings.LastIndex for one character, or -1.
  function LastIndex(s: string, c: char): (i: int)
    ensures -1 <= i < |s|
    ensures i >= 0 ==> s[i] == c
    ensures forall j | i < j < |s| :: s[j] != c
  {
    if s == "" then -1 else if s[|s| - 1] == c then |s| - 1 else LastIndex(s[..|s| - 1], c)
  }

  function SplitDirAndFile(path: string): (string, string) {
    var i := LastIndex(path, '/');
    if i >= 0 then (path[..i + 1], path[i + 1..]) else ("", path)
  }

  function SplitNameAndExtension(filename: string): (string, string) {
    var i := LastIndex(filename, '.');
    if i > 0 then (filename[..i], filename[i..]) else (filename, "")
  }

  datatype Parts = Parts(dir: string, name: string, ext: string)

  function Split(path: string): Parts {
    var (dir, filename) := SplitDirAndFile(path);
    var (name, ext) := SplitNameAndExtension(filename);
    Parts(dir, name, ext)
  }

  function Plain(p: Parts): string {
    p.dir + p.name + p.ext
  }

  function Numbered(p: Parts, n: nat): string {
    p.dir + p.name + " (" + Print(n) + ")" + p.ext
  }

  lemma DirJoins(path: string)
    ensures var (dir, filename) := SplitDirAndFile(path); dir + filename == path
  {
  }

  lemma NameJoins(filename: string)
    ensures var (name, ext) := SplitNameAndExtension(filename); name + ext == filename
  {
  }

  lemma SplitJoins(path: string)
    ensures Plain(Split(path)) == path
  {
    DirJoins(path);
    var (dir, filename) := SplitDirAndFile(path);
    NameJoins(filename);
    var (name, ext) := SplitNameAndExtension(filename);
    assert dir + (name + ext) == dir + name + ext;
  }

  /******* The statement *******/

  datatype Row = Row(storage: nat, path: string)

  function Before(p: Parts): string {
    p.dir + p.name + " ("
  }

  function After(p: Parts): string {
    ")" + p.ext
  }

  // The path itself, or a variant with any string of digits.
  predicate Matches(p: Parts, path: string) {
    var b, a := |Before(p)|, |path| - |After(p)|;
    || path == Plain(p)
    || (b < a && path[..b] == Before(p) && path[a..] == After(p) && AllDigits(path[b..a]))
  }

  // The paths of `existing`, one for each row.
  function Existing(rows: seq<Row>, storage: nat, p: Parts): seq<string> {
    if rows == [] then []
    else
      var r := rows[|rows| - 1];
      Existing(rows[..|rows| - 1], storage, p) + if r.storage == storage && Matches(p, r.path) then [r.path] else []
  }

  // MIN(n) over from..bound of the numbers whose variant is free.
  function LeastFree(existing: seq<string>, p: Parts, from: nat, bound: nat): Option<nat>
    decreases bound + 1 - from
  {
    if from > bound then None
    else if Numbered(p, from) !in existing then Some(from)
    else LeastFree(existing, p, from + 1, bound)
  }

  function NextNum(existing: seq<string>, p: Parts): nat {
    match LeastFree(existing, p, 1, |existing| + 1)
    case Some(n) => n
    case None => 0
  }

  function ChosenPath(rows: seq<Row>, storage: nat, path: string): string {
    var p := Split(path);
    var existing := Existing(rows, storage, p);
    if Plain(p) in existing then Numbered(p, NextNum(existing, p)) else Plain(p)
  }

  ghost predicate Taken(rows: seq<Row>, storage: nat, path: string) {
    exists i: nat :: i < |rows| && rows[i] == Row(storage, path)
  }

  class FilesRepo {
    var files: seq<Row>

    constructor ()
      ensures files == []
    {
      files := [];
    }

    // Whatever rows there are, the new file's path is new in its storage.
    method CreateFileAnyway(path: string, storage: nat) returns (file: Row)
      modifies this
      ensures files == old(files) + [file]
      ensures file.storage == storage && !Taken(old(files), storage, file.path)
      ensures if !Taken(old(files), storage, path) then file.path == path
              else IsLeastVariant(old(files), storage, path, file.path)
    {
      ChoiceIsFree(files, storage, path);
      file := Row(storage, ChosenPath(files, storage, path));
      files := files + [file];
    }
  }

  // The least n >= 1 whose variant is free, and its variant.
  ghost predicate IsLeastVariant(rows: seq<Row>, storage: nat, path: string, chosen: string) {
    exists n: nat ::
      && n >= 1 && chosen == Numbered(Split(path), n) && !Taken(rows, storage, chosen)
      && forall m: nat | 1 <= m < n :: Taken(rows, storage, Numbered(Split(path), m))
  }

  /******* Which paths the statement sees *******/

  lemma NumberedParts(p: Parts, n: nat)
    ensures Numbered(p, n) == Before(p) + Print(n) + After(p)
  {
  }

  lemma Middle(a: string, b: string, c: string)
    ensures var s := a + b + c;
      s[..|a|] == a && s[|a|..|a| + |b|] == b && s[|a| + |b|..] == c
  {
  }

  lemma NumberedMatches(p: Parts, n: nat)
    ensures Matches(p, Numbered(p, n))
  {
    PrintValue(n);
    NumberedParts(p, n);
    Middle(Before(p), Print(n), After(p));
  }

  lemma {:induction false} ExistingIff(rows: seq<Row>, storage: nat, p: Parts, path: string)
    ensures path in Existing(rows, storage, p) <==> Taken(rows, storage, path) && Matches(p, path)
  {
    if rows != [] {
      var front, r := rows[..|rows| - 1], rows[|rows| - 1];
      ExistingIff(front, storage, p, path);
      assert rows == front + [r];
      if Taken(front, storage, path) {
        var i: nat :| i < |front| && front[i] == Row(storage, path);
        assert rows[i] == Row(storage, path);
      }
      if r == Row(storage, path) { assert rows[|rows| - 1] == Row(storage, path); }
    }
  }

  /******* A free number always exists *******/

  lemma NumberedInjective(p: Parts, m: nat, n: nat)
    requires Numbered(p, m) == Numbered(p, n)
    ensures m == n
  {
    NumberedParts(p, m);
    NumberedParts(p, n);
    Middle(Before(p), Print(m), After(p));
    Middle(Before(p), Print(n), After(p));
    PrintInjective(m, n);
  }

  // The first k variants.
  function Variants(p: Parts, k: nat): set<string> {
    if k == 0 then {} else Variants(p, k - 1) + {Numbered(p, k)}
  }

  lemma {:induction false} LaterVariantIsNew(p: Parts, k: nat, n: nat)
    requires k < n
    ensures Numbered(p, n) !in Variants(p, k)
  {
    if k > 0 {
      LaterVariantIsNew(p, k - 1, n);
      if Numbered(p, n) == Numbered(p, k) {
        NumberedInjective(p, n, k);
      }
    }
  }

  lemma {:induction false} VariantsCount(p: Parts, k: nat)
    ensures |Variants(p, k)| == k
  {
    if k > 0 {
      VariantsCount(p, k - 1);
      LaterVariantIsNew(p, k - 1, k);
    }
  }

  lemma {:induction false} VariantsIn(p: Parts, k: nat, xs: seq<string>)
    requires forall n: nat | 1 <= n <= k :: Numbered(p, n) in xs
    ensures forall s | s in Variants(p, k) :: s in xs
  {
    if k > 0 {
      VariantsIn(p, k - 1, xs);
    }
  }

  lemma {:induction false} FewElements(xs: seq<string>, s: set<string>)
    requires forall x | x in s :: x in xs
    ensures |s| <= |xs|
  {
    if xs == [] {
      assert s == {};
    } else {
      var x := xs[|xs| - 1];
      FewElements(xs[..|xs| - 1], s - {x});
      assert s <= (s - {x}) + {x};
      if x in s { assert s == (s - {x}) + {x}; } else { assert s == s - {x}; }
    }
  }

  // More numbers than rows: by pigeonhole one variant is in no row.
  lemma FreeNumberExists(existing: seq<string>, p: Parts)
    ensures exists n: nat :: 1 <= n <= |existing| + 1 && Numbered(p, n) !in existing
  {
    if forall n: nat | 1 <= n <= |existing| + 1 :: Numbered(p, n) in existing {
      VariantsCount(p, |existing| + 1);
      VariantsIn(p, |existing| + 1, existing);
      FewElements(existing, Variants(p, |existing| + 1));
      assert false;
    }
  }

  lemma {:induction false} LeastFreeIsLeast(existing: seq<string>, p: Parts, from: nat, bound: nat)
    ensures match LeastFree(existing, p, from, bound)
      case Some(n) =>
        && from <= n <= bound && Numbered(p, n) !in existing
        && forall m: nat | from <= m < n :: Numbered(p, m) in existing
      case None => forall m: nat | from <= m <= bound :: Numbered(p, m) in existing
    decreases bound + 1 - from
  {
    if from <= bound && Numbered(p, from) in existing {
      LeastFreeIsLeast(existing, p, from + 1, bound);
    }
  }

  // So COALESCE never falls back to 0.
  lemma NextNumIsLeastFree(existing: seq<string>, p: Parts)
    ensures var n := NextNum(existing, p);
      && 1 <= n <= |existing| + 1 && Numbered(p, n) !in existing
      && forall m: nat | 1 <= m < n :: Numbered(p, m) in existing
  {
    FreeNumberExists(existing, p);
    LeastFreeIsLeast(existing, p, 1, |existing| + 1);
  }

  /******* What the statement picks *******/

  // The requested path when it is free, else the least free numbered variant;
  // either way a path no row of the storage has.
  lemma ChoiceIsFree(rows: seq<Row>, storage: nat, path: string)
    ensures var chosen := ChosenPath(rows, storage, path);
      && !Taken(rows, storage, chosen)
      && if !Taken(rows, storage, path) then chosen == path else IsLeastVariant(rows, storage, path, chosen)
  {
    var p := Split(path);
    var existing := Existing(rows, storage, p);
    SplitJoins(path);
    ExistingIff(rows, storage, p, path);
    NextNumIsLeastFree(existing, p);
    var n := NextNum(existing, p);
    ExistingIff(rows, storage, p, Numbered(p, n));
    NumberedMatches(p, n);
    forall m: nat | 1 <= m < n ensures Taken(rows, storage, Numbered(p, m)) {
      ExistingIff(rows, storage, p, Numbered(p, m));
    }
  }

  lemma {:induction false} LastIndexIs(s: string, c: char, i: int)
    requires -1 <= i < |s| && (i >= 0 ==> s[i] == c) && forall j | i < j < |s| :: s[j] != c
    ensures LastIndex(s, c) == i
  {
  }

  lemma DirOf(dir: string, filename: string)
    requires dir == "" || dir[|dir| - 1] == '/'
    requires '/' !in filename
    ensures SplitDirAndFile(dir + filename) == (dir, filename)
  {
    var path := dir + filename;
    forall j | |dir| - 1 < j < |path| ensures path[j] != '/' {
      assert path[j] == filename[j - |dir|];
    }
    LastIndexIs(path, '/', |dir| - 1);
    assert path[..|dir|] == dir && path[|dir|..] == filename;
  }

  lemma SplitFacts(path: string)
    ensures var p := Split(path);
      && (p.dir == "" || p.dir[|p.dir| - 1] == '/')
      && '/' !in p.name && '/' !in p.ext
      && NameParts(p.name, p.ext)
  {
  }

  lemma DigitsAreNot(s: string, c: char)
    requires AllDigits(s) && !IsDigit(c)
    ensures c !in s
  {
  }

  lemma NameOf(name: string, ext: string)
    requires NameParts(name, ext)
    ensures SplitNameAndExtension(name + ext) == (name, ext)
  {
    var s := name + ext;
    if ext != "" {
      forall j | |name| < j < |s| ensures s[j] != '.' {
        assert s[j] == ext[1..][j - |name| - 1];
      }
      LastIndexIs(s, '.', |name|);
      assert s[..|name|] == name && s[|name|..] == ext;
    } else {
      assert s == name;
      if '.' in name {
        assert forall j | 0 < j < |name| :: name[j] == name[1..][j - 1];
        LastIndexIs(name, '.', 0);
      } else {
        LastIndexIs(name, '.', -1);
      }
    }
  }

  // The split of a file name is final: a stem and extension that look like one.
  predicate NameParts(name: string, ext: string) {
    if ext != "" then name != "" && ext[0] == '.' && '.' !in ext[1..]
    else '.' !in name || (name[0] == '.' && '.' !in name[1..])
  }

  lemma SuffixKeepsParts(name: string, suffix: string, ext: string)
    requires NameParts(name, ext) && '.' !in suffix && (name == "" ==> ext == "")
    ensures NameParts(name + suffix, ext)
  {
    if ext == "" && name != "" {
      assert (name + suffix)[1..] == name[1..] + suffix;
    }
  }

  lemma NumberSuffix(n: nat)
    ensures var suffix := " (" + Print(n) + ")"; '.' !in suffix && '/' !in suffix
  {
    PrintValue(n);
    DigitsAreNot(Print(n), '/');
    DigitsAreNot(Print(n), '.');
  }

  lemma Regroup(dir: string, name: string, digits: string, ext: string)
    ensures dir + name + " (" + digits + ")" + ext == dir + ((name + (" (" + digits + ")")) + ext)
    ensures name + (" (" + digits + ")") == name + " (" + digits + ")"
  {
  }

  // A numbered variant stays in the directory and keeps the extension.
  lemma VariantKeepsDirAndExtension(path: string, n: nat)
    ensures var p := Split(path);
      Split(Numbered(p, n)) == p.(name := p.name + " (" + Print(n) + ")")
  {
    var p := Split(path);
    var suffix := " (" + Print(n) + ")";
    SplitFacts(path);
    NumberSuffix(n);
    SuffixKeepsParts(p.name, suffix, p.ext);
    Regroup(p.dir, p.name, Print(n), p.ext);
    DirOf(p.dir, (p.name + suffix) + p.ext);
    NameOf(p.name + suffix, p.ext);
  }
}
