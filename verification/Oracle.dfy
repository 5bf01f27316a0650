/** The evaluation oracle (oracle.py): expected truth, copied out of the worktree, compared
    with it later and put back into it. */
module Oracle {
  import opened Sequences

  type Path = seq<string>
  type Bytes = seq<bv8>
  type Files = map<Path, Bytes>

  /** Test sources, and the build file that declares which tests exist. */
  const ORACLE_PATHS: seq<Path> := [["tests"], ["CMakeLists.txt"]]

  /** A file tree: what every file holds, and which paths are directories. */
  datatype Image = Image(files: Files, dirs: set<Path>) {
    ghost predicate Wellformed() {
      && [] in dirs
      && (forall p :: p in files ==> p !in dirs)
      && (forall p, k :: p in files && 0 <= k < |p| ==> p[..k] in dirs)
      && (forall p, k :: p in dirs && 0 <= k < |p| ==> p[..k] in dirs)
    }
  }

  /** At or below one of the first n oracle entries. */
  predicate CoveredBy(n: nat, p: Path)
    requires n <= |ORACLE_PATHS|
  {
    n > 0 && (ORACLE_PATHS[n - 1] <= p || CoveredBy(n - 1, p))
  }

  predicate Covered(p: Path) { CoveredBy(|ORACLE_PATHS|, p) }

  /** The test sources and the top build file: a path of the oracle. */
  predicate OracleFile(p: Path) { p != [] && (p[0] == "tests" || p[0] == "CMakeLists.txt") }

  lemma CoveredMeans(p: Path)
    ensures Covered(p) <==> OracleFile(p)
  {
    assert CoveredBy(2, p) <==> ORACLE_PATHS[1] <= p || CoveredBy(1, p);
    assert CoveredBy(1, p) <==> ORACLE_PATHS[0] <= p || CoveredBy(0, p);
    if p != [] {
      assert ["tests"] <= p <==> p[0] == "tests";
      assert ["CMakeLists.txt"] <= p <==> p[0] == "CMakeLists.txt";
    }
  }

  /** No path lies below two entries. */
  lemma {:induction false} EntriesApart(n: nat, k: nat, p: Path)
    requires k <= n < |ORACLE_PATHS| && ORACLE_PATHS[n] <= p
    ensures !CoveredBy(k, p)
  {
    if k > 0 {
      EntriesApart(n, k - 1, p);
      assert ORACLE_PATHS[0] != ORACLE_PATHS[1];
      assert p[0] == ORACLE_PATHS[n][0];
    }
  }

  // ---------------------------------------------------------------- comparison

  datatype Kind = Modified | Deleted | Added

  /** How a path of the worktree differs from what the oracle expects. */
  predicate Differs(kind: Kind, expected: Files, actual: Files, p: Path) {
    match kind
    case Modified => p in expected && p in actual && expected[p] != actual[p]
    case Deleted => p in expected && p !in actual
    case Added => p !in expected && p in actual
  }

  predicate Distinct(names: seq<Path>) {
    forall i, j :: 0 <= i < j < |names| ==> names[i] != names[j]
  }

  /** A list holding, once each, exactly the differing paths below the first n entries. */
  ghost predicate Lists(names: seq<Path>, kind: Kind, expected: Files, actual: Files, n: nat)
    requires n <= |ORACLE_PATHS|
  {
    Distinct(names) && forall p :: p in names <==> CoveredBy(n, p) && Differs(kind, expected, actual, p)
  }

  /** The worktree shows exactly the expected truth. */
  ghost predicate Clean(expected: Files, actual: Files) {
    forall p :: Covered(p) ==>
      (p in expected <==> p in actual) && (p in expected && p in actual ==> expected[p] == actual[p])
  }

  datatype TamperReport = TamperReport(tampered: bool, modified: seq<Path>, deleted: seq<Path>, added: seq<Path>)

  /** Nothing listed, and nothing to list, are the same thing. */
  lemma CleanMeansNoDifference(expected: Files, actual: Files)
    ensures Clean(expected, actual) <==> forall kind, p :: Covered(p) ==> !Differs(kind, expected, actual, p)
  {
    if forall kind, p :: Covered(p) ==> !Differs(kind, expected, actual, p) {
      forall p | Covered(p)
        ensures (p in expected <==> p in actual) && (p in expected && p in actual ==> expected[p] == actual[p])
      {
        assert !Differs(Modified, expected, actual, p) && !Differs(Deleted, expected, actual, p);
        assert !Differs(Added, expected, actual, p);
      }
    }
  }

  /** The three lists have nothing in common, and nothing beyond them differs. */
  lemma KindsSplit(expected: Files, actual: Files, p: Path)
    ensures forall a, b :: Differs(a, expected, actual, p) && Differs(b, expected, actual, p) ==> a == b
    ensures (exists kind :: Differs(kind, expected, actual, p))
        <==> ((p in expected) != (p in actual) || (p in expected && expected[p] != actual[p]))
  {
    if (p in expected) != (p in actual) || (p in expected && expected[p] != actual[p]) {
      assert Differs(Modified, expected, actual, p) || Differs(Deleted, expected, actual, p)
          || Differs(Added, expected, actual, p);
    }
  }

  // ------------------------------------------------------------------ restoring

  /** The covered part of `expected` in place of the covered part of `actual`. */
  function Restored(expected: Files, actual: Files): Files {
    map p | p in actual.Keys + expected.Keys && (if Covered(p) then p in expected else p in actual)
      :: if Covered(p) then expected[p] else actual[p]
  }

  lemma RestoredIsClean(expected: Files, actual: Files)
    ensures Clean(expected, Restored(expected, actual))
    ensures forall p :: !Covered(p) ==> (p in Restored(expected, actual) <==> p in actual)
    ensures forall p :: !Covered(p) && p in actual ==> Restored(expected, actual)[p] == actual[p]
    ensures Restored(expected, Restored(expected, actual)) == Restored(expected, actual)
  {}

  /** Restoring changes nothing exactly when nothing was tampered with. */
  lemma RestoringCleanTrees(expected: Files, actual: Files)
    ensures Restored(expected, actual) == actual <==> Clean(expected, actual)
  {
    if Restored(expected, actual) == actual {
      RestoredIsClean(expected, actual);
    }
  }

  // --------------------------------------------------------------- one entry's files

  /** Names of the files at or below one entry, in some order. */
  method FilesUnder(t: Image, rel: Path) returns (names: seq<Path>)
    requires t.Wellformed()
    ensures Distinct(names) && forall p :: p in names <==> p in t.files && rel <= p
  {
    if rel in t.files {
      names := [rel];
      forall p | p in t.files && rel <= p ensures p == rel { OnlyItself(t, rel, p); }
    } else if rel in t.dirs {
      names := [];
      var rest := t.files.Keys;
      while rest != {}
        invariant rest <= t.files.Keys && Distinct(names)
        invariant forall p :: p in names <==> p in t.files && p !in rest && rel <= p
        decreases rest
      {
        var p :| p in rest;
        rest := rest - {p};
        if rel <= p { names := names + [p]; }
      }
    } else {
      names := [];
      forall p | p in t.files ensures !(rel <= p) {
        if rel <= p { OnlyItself(t, rel, p); }
      }
    }
  }

  /** Nothing lies below a path that is no directory. */
  lemma OnlyItself(t: Image, rel: Path, p: Path)
    requires t.Wellformed() && rel !in t.dirs && p in t.files && rel <= p
    ensures p == rel
  {
    assert p[..|rel|] == rel;
    assert |p| == |rel| ==> p == rel;
  }

  // ------------------------------------------------------------------- compare

  /** What compare finds below one entry. */
  ghost predicate EntryLists(names: seq<Path>, kind: Kind, expected: Files, actual: Files, rel: Path) {
    Distinct(names) && forall p :: p in names <==> rel <= p && Differs(kind, expected, actual, p)
  }

  lemma ListsJoin(a: seq<Path>, b: seq<Path>, kind: Kind, expected: Files, actual: Files, n: nat)
    requires n < |ORACLE_PATHS| && Lists(a, kind, expected, actual, n)
    requires EntryLists(b, kind, expected, actual, ORACLE_PATHS[n])
    ensures Lists(a + b, kind, expected, actual, n + 1)
  {
    forall p | p in b ensures p !in a {
      EntriesApart(n, n, p);
    }
    var c := a + b;
    forall i, j | 0 <= i < j < |c| ensures c[i] != c[j] {
      if i < |a| <= j { assert c[i] in a && c[j] in b; }
    }
    var m := n + 1;
    assert forall p :: CoveredBy(m, p) <==> ORACLE_PATHS[m - 1] <= p || CoveredBy(m - 1, p);
  }

  /** compare, below one entry. */
  method CompareEntry(expected: Image, actual: Image, rel: Path)
      returns (modified: seq<Path>, deleted: seq<Path>, added: seq<Path>)
    requires expected.Wellformed() && actual.Wellformed()
    ensures EntryLists(modified, Modified, expected.files, actual.files, rel)
    ensures EntryLists(deleted, Deleted, expected.files, actual.files, rel)
    ensures EntryLists(added, Added, expected.files, actual.files, rel)
  {
    var names := FilesUnder(expected, rel);
    modified, deleted, added := [], [], [];
    for i := 0 to |names|
      invariant Picked(modified, names[..i], Modified, expected.files, actual.files)
      invariant Picked(deleted, names[..i], Deleted, expected.files, actual.files)
    {
      var name := names[i];
      assert name !in names[..i] && names[..i + 1] == names[..i] + [name];
      if name !in actual.files {
        deleted := deleted + [name];
      } else if expected.files[name] != actual.files[name] {
        modified := modified + [name];
      }
    }
    assert names[..|names|] == names;
    names := FilesUnder(actual, rel);
    for i := 0 to |names|
      invariant Picked(added, names[..i], Added, expected.files, actual.files)
    {
      assert names[i] !in names[..i] && names[..i + 1] == names[..i] + [names[i]];
      if names[i] !in expected.files { added := added + [names[i]]; }
    }
    assert names[..|names|] == names;
  }

  ghost predicate Picked(picked: seq<Path>, names: seq<Path>, kind: Kind, expected: Files, actual: Files) {
    Distinct(picked) && forall p :: p in picked <==> p in names && Differs(kind, expected, actual, p)
  }

  /** compare: every difference below the oracle entries, each in the one list it belongs to;
      tampered exactly when the worktree is not clean. */
  method Compare(expected: Image, actual: Image) returns (r: TamperReport)
    requires expected.Wellformed() && actual.Wellformed()
    ensures Lists(r.modified, Modified, expected.files, actual.files, |ORACLE_PATHS|)
    ensures Lists(r.deleted, Deleted, expected.files, actual.files, |ORACLE_PATHS|)
    ensures Lists(r.added, Added, expected.files, actual.files, |ORACLE_PATHS|)
    ensures r.tampered <==> !Clean(expected.files, actual.files)
    ensures Reports(r, expected.files, actual.files)
  {
    var modified, deleted, added := [], [], [];
    for n := 0 to |ORACLE_PATHS|
      invariant Lists(modified, Modified, expected.files, actual.files, n)
      invariant Lists(deleted, Deleted, expected.files, actual.files, n)
      invariant Lists(added, Added, expected.files, actual.files, n)
    {
      var m, d, a := CompareEntry(expected, actual, ORACLE_PATHS[n]);
      ListsJoin(modified, m, Modified, expected.files, actual.files, n);
      ListsJoin(deleted, d, Deleted, expected.files, actual.files, n);
      ListsJoin(added, a, Added, expected.files, actual.files, n);
      modified, deleted, added := modified + m, deleted + d, added + a;
    }
    r := TamperReport(modified != [] || deleted != [] || added != [], modified, deleted, added);
    NothingListed(r, expected.files, actual.files);
    ReportsDifferences(r, expected.files, actual.files);
  }

  /** The report names, of the oracle's paths, those whose content changed, those that are gone
      and those that are new, each in its own list. */
  ghost predicate Reports(r: TamperReport, expected: Files, actual: Files) {
    && (forall p :: p in r.modified <==> OracleFile(p) && p in expected && p in actual && expected[p] != actual[p])
    && (forall p :: p in r.deleted <==> OracleFile(p) && p in expected && p !in actual)
    && (forall p :: p in r.added <==> OracleFile(p) && p !in expected && p in actual)
    && (r.tampered <==> r.modified + r.deleted + r.added != [])
  }

  lemma ReportsDifferences(r: TamperReport, expected: Files, actual: Files)
    requires Lists(r.modified, Modified, expected, actual, |ORACLE_PATHS|)
    requires Lists(r.deleted, Deleted, expected, actual, |ORACLE_PATHS|)
    requires Lists(r.added, Added, expected, actual, |ORACLE_PATHS|)
    requires r.tampered <==> r.modified != [] || r.deleted != [] || r.added != []
    ensures Reports(r, expected, actual)
  {
    forall p ensures Covered(p) <==> OracleFile(p) { CoveredMeans(p); }
    assert forall p :: CoveredBy(|ORACLE_PATHS|, p) <==> Covered(p);
  }

  lemma NothingListed(r: TamperReport, expected: Files, actual: Files)
    requires Lists(r.modified, Modified, expected, actual, |ORACLE_PATHS|)
    requires Lists(r.deleted, Deleted, expected, actual, |ORACLE_PATHS|)
    requires Lists(r.added, Added, expected, actual, |ORACLE_PATHS|)
    ensures r.modified != [] || r.deleted != [] || r.added != [] <==> !Clean(expected, actual)
  {
    CleanMeansNoDifference(expected, actual);
    if r.modified != [] { assert r.modified[0] in r.modified; }
    if r.deleted != [] { assert r.deleted[0] in r.deleted; }
    if r.added != [] { assert r.added[0] in r.added; }
    if !Clean(expected, actual) {
      var kind, p :| Covered(p) && Differs(kind, expected, actual, p);
      assert p in r.modified || p in r.deleted || p in r.added;
    }
  }

  // ------------------------------------------------------------------- restore

  /** Paths strictly above some of these files. */
  ghost function ParentsOf(names: set<Path>): set<Path> {
    set n, k | n in names && 0 <= k < |n| :: n[..k]
  }

  /** An oracle file whose path is a directory of the worktree. */
  ghost predicate Blocked(oracle: Files, dirs: set<Path>) {
    exists p :: p in oracle && Covered(p) && p in dirs
  }

  datatype OsError = IsADirectory

  lemma WithParents(t: Image, name: Path)
    requires t.Wellformed() && forall k :: 0 <= k < |name| ==> name[..k] !in t.files
    ensures t.(dirs := t.dirs + ParentsOf({name})).Wellformed()
  {
    var dirs := t.dirs + ParentsOf({name});
    forall p, k | p in dirs && 0 <= k < |p| ensures p[..k] in dirs {
      if p !in t.dirs {
        var j :| 0 <= j < |name| && p == name[..j];
        assert p[..k] == name[..k];
      }
    }
  }

  /** The worktree on disk. */
  class Tree {
    var files: Files
    var dirs: set<Path>

    function Now(): Image reads this { Image(files, dirs) }

    ghost predicate Valid() reads this { Now().Wellformed() }

    constructor (files: Files, dirs: set<Path>)
      requires Image(files, dirs).Wellformed()
      ensures Valid() && this.files == files && this.dirs == dirs
    {
      this.files, this.dirs := files, dirs;
    }

    /** Remove what the agent added below one entry. */
    method RemoveAdded(oracle: Image, rel: Path)
      requires Valid() && oracle.Wellformed()
      modifies this`files
      ensures Valid()
      ensures files == map p | p in old(files) && (rel <= p ==> p in oracle.files) :: old(files)[p]
    {
      var actual := FilesUnder(Now(), rel);
      for i := 0 to |actual|
        invariant files == map p | p in old(files) && (p in actual[..i] ==> p in oracle.files) :: old(files)[p]
      {
        assert actual[..i + 1] == actual[..i] + [actual[i]];
        if actual[i] !in oracle.files { files := files - {actual[i]}; }
      }
      assert actual[..|actual|] == actual;
    }

    /** Copy one oracle file back, making its parent directories. */
    method CopyBack(oracle: Image, name: Path) returns (r: Result<(), OsError>)
      requires Valid() && oracle.Wellformed() && name in oracle.files
      requires forall k :: 0 <= k < |name| ==> name[..k] !in files
      modifies this
      ensures Valid() && dirs == old(dirs) + ParentsOf({name})
      ensures r.Err? <==> name in old(dirs)
      ensures files == if r.Ok? then old(files)[name := oracle.files[name]] else old(files)
    {
      WithParents(Now(), name);
      dirs := dirs + set k | 0 <= k < |name| :: name[..k];
      assert dirs == old(dirs) + ParentsOf({name});
      if name in dirs { return Err(IsADirectory); }
      files := files[name := oracle.files[name]];
      r := Ok(());
    }

    /** Copy the expected files of one entry back, one after another. */
    method CopyAllBack(ghost before: Image, oracle: Image, rel: Path, expected: seq<Path>)
        returns (r: Result<(), OsError>)
      requires before.Wellformed() && oracle.Wellformed() && |rel| == 1
      requires Distinct(expected) && forall p :: p in expected ==> p in oracle.files && rel <= p
      requires Now() == Halfway(before, oracle, {}, rel)
      modifies this
      ensures r.Ok? ==> Names(expected) !! before.dirs && Now() == Halfway(before, oracle, Names(expected), rel)
      ensures r.Err? ==> !(Names(expected) !! before.dirs) && OutsideKept(before, Now(), oracle, rel)
      ensures Valid()
    {
      ghost var done: set<Path> := {};
      for i := 0 to |expected|
        invariant done <= Names(expected) && Now() == Halfway(before, oracle, done, rel)
        invariant forall k :: 0 <= k < i ==> expected[k] in done
        invariant done !! before.dirs
      {
        var name := expected[i];
        HalfwayHolds(before, oracle, done, rel);
        ClearAbove(before, oracle, done, rel, name);
        r := CopyBack(oracle, name);
        if r.Err? { return; }
        done := done + {name};
      }
      assert done == Names(expected);
      HalfwayHolds(before, oracle, done, rel);
      r := Ok(());
    }

    /** restore, for one entry. */
    method RestoreEntry(oracle: Image, rel: Path) returns (r: Result<(), OsError>)
      requires Valid() && oracle.Wellformed() && |rel| == 1
      modifies this
      ensures Valid() && OutsideKept(old(Now()), Now(), oracle, rel)
      ensures if r.Ok? then EntryRestored(old(Now()), Now(), oracle, rel)
              else exists p :: p in oracle.files && rel <= p && p in old(dirs)
    {
      RemoveAdded(oracle, rel);
      ghost var before := old(Now());
      assert Now() == Halfway(before, oracle, {}, rel);
      var expected := FilesUnder(oracle, rel);
      r := CopyAllBack(before, oracle, rel, expected);
      if r.Ok? { AllBack(before, oracle, Names(expected), rel); }
    }

    /** restore: the oracle files are back exactly and nothing else below the oracle entries
        remains; files elsewhere are untouched, and no directory went away. It fails exactly
        when some oracle file's path has become a directory. */
    method Restore(oracle: Image) returns (r: Result<(), OsError>)
      requires Valid() && oracle.Wellformed()
      modifies this
      ensures Valid()
      ensures r.Err? <==> Blocked(oracle.files, old(dirs))
      ensures r.Ok? ==> files == Restored(oracle.files, old(files))
      ensures r.Ok? ==> dirs == old(dirs) + ParentsOf(CoveredNames(|ORACLE_PATHS|, oracle.files))
      ensures forall p :: !Covered(p) ==>
                (p in files <==> p in old(files)) && (p in files ==> files[p] == old(files)[p])
    {
      ghost var before := Now();
      NothingRestored(before, oracle);
      for n := 0 to |ORACLE_PATHS|
        invariant Valid() && RestoredTo(n, before, Now(), oracle)
      {
        ghost var mid := Now();
        r := RestoreEntry(oracle, ORACLE_PATHS[n]);
        if r.Err? {
          StillBlocked(n, before, mid, oracle);
          OutsideAll(n, before, mid, Now(), oracle);
          return;
        }
        EntryDone(n, before, mid, Now(), oracle);
      }
      RestoredIsSpecified(before.files, files, oracle.files);
      r := Ok(());
    }
  }

  ghost function CoveredNames(n: nat, files: Files): set<Path>
    requires n <= |ORACLE_PATHS|
  {
    set p | p in files && CoveredBy(n, p)
  }

  /** Both hold the same at p, if anything. */
  predicate SameAt(a: Files, b: Files, p: Path) { (p in a <==> p in b) && (p in a && p in b ==> a[p] == b[p]) }

  predicate RestoredAt(n: nat, before: Files, now: Files, oracle: Files, p: Path)
    requires n <= |ORACLE_PATHS|
  {
    SameAt(now, if CoveredBy(n, p) then oracle else before, p)
  }

  ghost predicate FilesRestored(n: nat, before: Files, now: Files, oracle: Files)
    requires n <= |ORACLE_PATHS|
  {
    forall p :: RestoredAt(n, before, now, oracle, p)
  }

  ghost predicate DirsRestored(n: nat, before: Image, now: Image, oracle: Files)
    requires n <= |ORACLE_PATHS|
  {
    now.dirs == before.dirs + ParentsOf(CoveredNames(n, oracle)) && CoveredNames(n, oracle) !! before.dirs
  }

  /** The first n entries are restored, the rest is as before. */
  ghost predicate RestoredTo(n: nat, before: Image, now: Image, oracle: Image)
    requires n <= |ORACLE_PATHS|
  {
    FilesRestored(n, before.files, now.files, oracle.files) && DirsRestored(n, before, now, oracle.files)
  }

  lemma RestoredIsSpecified(before: Files, now: Files, oracle: Files)
    requires FilesRestored(|ORACLE_PATHS|, before, now, oracle)
    ensures now == Restored(oracle, before)
    ensures forall p :: !Covered(p) ==> SameAt(now, before, p)
  {
    var r := Restored(oracle, before);
    forall p
      ensures (p in now <==> p in r) && (p in now ==> now[p] == r[p]) && (!Covered(p) ==> SameAt(now, before, p))
    {
      assert RestoredAt(|ORACLE_PATHS|, before, now, oracle, p);
    }
  }

  lemma NothingRestored(before: Image, oracle: Image)
    ensures RestoredTo(0, before, before, oracle)
  {
    assert ParentsOf(CoveredNames(0, oracle.files)) == {};
  }

  lemma NextCovered(n: nat, p: Path)
    requires n < |ORACLE_PATHS|
    ensures CoveredBy(n + 1, p) <==> ORACLE_PATHS[n] <= p || CoveredBy(n, p)
    ensures CoveredBy(n + 1, p) ==> Covered(p)
  {
    var m := n + 1;
    assert CoveredBy(m, p) <==> ORACLE_PATHS[m - 1] <= p || CoveredBy(m - 1, p);
  }

  lemma EntryDone(n: nat, before: Image, mid: Image, now: Image, oracle: Image)
    requires n < |ORACLE_PATHS| && oracle.Wellformed() && RestoredTo(n, before, mid, oracle)
    requires EntryRestored(mid, now, oracle, ORACLE_PATHS[n]) && OutsideKept(mid, now, oracle, ORACLE_PATHS[n])
    ensures RestoredTo(n + 1, before, now, oracle)
  {
    EntryFilesDone(n, before.files, mid, now, oracle);
    EntryDirsDone(n, before, mid, now, oracle);
  }

  lemma EntryFilesDone(n: nat, before: Files, mid: Image, now: Image, oracle: Image)
    requires n < |ORACLE_PATHS| && FilesRestored(n, before, mid.files, oracle.files)
    requires EntryRestored(mid, now, oracle, ORACLE_PATHS[n]) && OutsideKept(mid, now, oracle, ORACLE_PATHS[n])
    ensures FilesRestored(n + 1, before, now.files, oracle.files)
  {
    var m := n + 1;
    forall p ensures RestoredAt(m, before, now.files, oracle.files, p) {
      NextCovered(n, p);
      assert RestoredAt(n, before, mid.files, oracle.files, p);
    }
  }

  lemma EntryDirsDone(n: nat, before: Image, mid: Image, now: Image, oracle: Image)
    requires n < |ORACLE_PATHS| && DirsRestored(n, before, mid, oracle.files)
    requires EntryRestored(mid, now, oracle, ORACLE_PATHS[n])
    ensures DirsRestored(n + 1, before, now, oracle.files)
  {
    NamesStep(n, oracle.files);
  }

  lemma NamesStep(n: nat, files: Files)
    requires n < |ORACLE_PATHS|
    ensures CoveredNames(n + 1, files) == CoveredNames(n, files) + Below(files, ORACLE_PATHS[n])
    ensures ParentsOf(CoveredNames(n + 1, files))
         == ParentsOf(CoveredNames(n, files)) + ParentsOf(Below(files, ORACLE_PATHS[n]))
  {
    forall p ensures CoveredBy(n + 1, p) <==> ORACLE_PATHS[n] <= p || CoveredBy(n, p) { NextCovered(n, p); }
    ParentsJoin(CoveredNames(n, files), Below(files, ORACLE_PATHS[n]));
  }

  lemma ParentsJoin(a: set<Path>, b: set<Path>)
    ensures ParentsOf(a + b) == ParentsOf(a) + ParentsOf(b)
  {}

  /** An oracle file blocked part-way was blocked from the start. */
  lemma StillBlocked(n: nat, before: Image, mid: Image, oracle: Image)
    requires n < |ORACLE_PATHS| && oracle.Wellformed() && RestoredTo(n, before, mid, oracle)
    requires exists p :: p in oracle.files && ORACLE_PATHS[n] <= p && p in mid.dirs
    ensures Blocked(oracle.files, before.dirs)
  {
    var p :| p in oracle.files && ORACLE_PATHS[n] <= p && p in mid.dirs;
    NextCovered(n, p);
    assert ParentsOf(CoveredNames(n, oracle.files)) <= oracle.dirs;
  }

  lemma OutsideAll(n: nat, before: Image, mid: Image, now: Image, oracle: Image)
    requires n < |ORACLE_PATHS| && RestoredTo(n, before, mid, oracle)
    requires OutsideKept(mid, now, oracle, ORACLE_PATHS[n])
    ensures forall p :: !Covered(p) ==>
              (p in now.files <==> p in before.files) && (p in now.files ==> now.files[p] == before.files[p])
  {
    forall p | !Covered(p)
      ensures (p in now.files <==> p in before.files) && (p in now.files ==> now.files[p] == before.files[p])
    {
      NextCovered(n, p);
      assert RestoredAt(n, before.files, mid.files, oracle.files, p);
    }
  }

  ghost function Names(s: seq<Path>): set<Path> { set p | p in s }

  function Below(files: Files, rel: Path): set<Path> { set p | p in files && rel <= p }

  /** Outside the entry no file changed; directories only came, and only where the oracle has
      them. */
  ghost predicate OutsideKept(before: Image, after: Image, oracle: Image, rel: Path) {
    && before.dirs <= after.dirs <= before.dirs + oracle.dirs
    && forall p :: !(rel <= p) ==>
         (p in after.files <==> p in before.files) && (p in after.files ==> after.files[p] == before.files[p])
  }

  /** Below the entry the oracle is back, exactly. */
  ghost predicate EntryRestored(before: Image, after: Image, oracle: Image, rel: Path) {
    && after.dirs == before.dirs + ParentsOf(Below(oracle.files, rel))
    && (forall p :: p in oracle.files && rel <= p ==> p !in before.dirs)
    && forall p :: rel <= p ==>
         (p in after.files <==> p in oracle.files) && (p in after.files ==> after.files[p] == oracle.files[p])
  }

  /** Restoring under way: what was added is gone, `done` are back, the rest is untouched. */
  ghost function Halfway(before: Image, oracle: Image, done: set<Path>, rel: Path): Image
    requires done <= oracle.files.Keys
  {
    Image(map p | p in before.files.Keys + done && (p in done || !(rel <= p) || p in oracle.files)
            :: if p in done then oracle.files[p] else before.files[p],
          before.dirs + ParentsOf(done))
  }

  lemma HalfwayHolds(before: Image, oracle: Image, done: set<Path>, rel: Path)
    requires before.Wellformed() && oracle.Wellformed() && |rel| == 1
    requires forall p :: p in done ==> p in oracle.files && rel <= p && p !in before.dirs
    ensures Halfway(before, oracle, done, rel).Wellformed()
    ensures OutsideKept(before, Halfway(before, oracle, done, rel), oracle, rel)
  {
    var now := Halfway(before, oracle, done, rel);
    forall p, k | p in now.dirs && 0 <= k < |p| ensures p[..k] in now.dirs {
      if p !in before.dirs {
        var n, j :| n in done && 0 <= j < |n| && p == n[..j];
        assert p[..k] == n[..k];
      }
    }
  }

  lemma AllBack(before: Image, oracle: Image, done: set<Path>, rel: Path)
    requires oracle.Wellformed() && done !! before.dirs
    requires forall p :: p in done <==> p in oracle.files && rel <= p
    ensures EntryRestored(before, Halfway(before, oracle, done, rel), oracle, rel)
    ensures OutsideKept(before, Halfway(before, oracle, done, rel), oracle, rel)
  {
    assert done == Below(oracle.files, rel);
  }

  /** No file sits where an oracle file needs a directory, no directory made on the way lies
      where an oracle file belongs, and stopping here leaves the outside alone. */
  lemma ClearAbove(before: Image, oracle: Image, done: set<Path>, rel: Path, name: Path)
    requires before.Wellformed() && oracle.Wellformed() && |rel| == 1 && name in oracle.files && rel <= name
    requires forall p :: p in done ==> p in oracle.files && rel <= p && p !in before.dirs
    ensures var now := Halfway(before, oracle, done, rel);
            && (forall k :: 0 <= k < |name| ==> name[..k] !in now.files)
            && (name in now.dirs <==> name in before.dirs)
            && OutsideKept(before, now.(dirs := now.dirs + ParentsOf({name})), oracle, rel)
            && (name !in before.dirs ==>
                  Halfway(before, oracle, done + {name}, rel)
                  == Image(now.files[name := oracle.files[name]], now.dirs + ParentsOf({name})))
  {
    var now := Halfway(before, oracle, done, rel);
    forall k | 0 <= k < |name| ensures name[..k] !in now.files {
      if k == 0 { assert name[..k] == []; } else { assert rel <= name[..k]; }
    }
    assert ParentsOf(done + {name}) == ParentsOf(done) + ParentsOf({name});
  }

  // ------------------------------------------------------------------ snapshot

  /** snapshot: the oracle material, copied out of the worktree. */
  method Snapshot(root: Image) returns (oracle: Image)
    requires root.Wellformed()
    ensures oracle.Wellformed()
    ensures oracle.files == map p | p in root.files && Covered(p) :: root.files[p]
  {
    var files: Files, dirs: set<Path> := map[], {[]};
    for n := 0 to |ORACLE_PATHS|
      invariant Image(files, dirs).Wellformed()
      invariant dirs <= root.dirs
      invariant files == map p | p in root.files && CoveredBy(n, p) :: root.files[p]
    {
      var rel := ORACLE_PATHS[n];
      CopyOut(root, files, dirs, n);
      if rel in root.dirs {
        files := files + map p | p in root.files && rel <= p :: root.files[p];
        dirs := dirs + set d | d in root.dirs && rel <= d;
      } else if rel in root.files {
        files := files[rel := root.files[rel]];
      }
    }
    oracle := Image(files, dirs);
  }

  /** Copying one entry keeps a copy well formed, and copies exactly what the entry covers. */
  lemma CopyOut(root: Image, files: Files, dirs: set<Path>, n: nat)
    requires n < |ORACLE_PATHS| && root.Wellformed() && Image(files, dirs).Wellformed() && dirs <= root.dirs
    requires files == map p | p in root.files && CoveredBy(n, p) :: root.files[p]
    ensures var rel := ORACLE_PATHS[n];
            var more := map p | p in root.files && rel <= p :: root.files[p];
            && (rel in root.dirs ==>
                  Image(files + more, dirs + set d | d in root.dirs && rel <= d).Wellformed())
            && (rel in root.files ==> files + more == files[rel := root.files[rel]]
                                      && Image(files + more, dirs).Wellformed())
            && (rel !in root.dirs && rel !in root.files ==> more == map[])
            && files + more == map p | p in root.files && CoveredBy(n + 1, p) :: root.files[p]
  {
    var rel := ORACLE_PATHS[n];
    forall p ensures CoveredBy(n + 1, p) <==> rel <= p || CoveredBy(n, p) { NextCovered(n, p); }
    forall p, k | (p in root.files || p in root.dirs) && rel <= p && 0 < k < |p|
      ensures rel <= p[..k] && p[..k] in root.dirs
    {}
    forall p | p in root.files && rel <= p && rel !in root.dirs ensures p == rel { OnlyItself(root, rel, p); }
  }

  // ------------------------------------------------------------- the eval's check

  datatype CaseCheck = Judged(tamper: TamperReport) | HarnessError

  /** The part of run_case that puts the expected truth back before judging. The check after
      restoring never fails: the only harness error is a directory in an oracle file's place. */
  method PutTruthBack(root: Tree, oracle: Image) returns (r: CaseCheck)
    requires root.Valid() && oracle.Wellformed()
    modifies root
    ensures root.Valid()
    ensures r.HarnessError? <==> Blocked(oracle.files, old(root.dirs))
    ensures r.Judged? ==> root.files == Restored(oracle.files, old(root.files))
    ensures r.Judged? ==> (r.tamper.tampered <==> root.files != old(root.files))
  {
    RestoredIsClean(oracle.files, root.files);
    RestoringCleanTrees(oracle.files, root.files);
    var tamper := Compare(oracle, root.Now());
    var restored := root.Restore(oracle);
    if restored.Err? { return HarnessError; }
    var check := Compare(oracle, root.Now());
    if check.tampered { return HarnessError; }
    r := Judged(tamper);
  }

  /** From snapshot to verdict, whatever the agent did to the worktree in between: the verdict
      sees the oracle files of the snapshot and the agent's files everywhere else. */
  method Episode(root: Tree, edited: Image) returns (r: CaseCheck)
    requires root.Valid() && edited.Wellformed()
    modifies root
    ensures r.Judged? ==> root.files == Restored(old(root.files), edited.files)
    ensures edited.files == old(root.files) && edited.dirs == old(root.dirs) ==> r.Judged? && !r.tamper.tampered
  {
    var oracle := Snapshot(root.Now());
    ghost var start := root.Now();
    root.files, root.dirs := edited.files, edited.dirs;
    r := PutTruthBack(root, oracle);
    assert Restored(oracle.files, edited.files) == Restored(start.files, edited.files);
  }

  /** Restoring twice does what restoring once did. */
  method RestoreTwice(root: Tree, oracle: Image) returns (first: Result<(), OsError>, second: Result<(), OsError>,
                      once: Image)
    requires root.Valid() && oracle.Wellformed()
    modifies root
    ensures root.Valid()
    ensures first.Ok? ==> second.Ok? && root.Now() == once
  {
    first := root.Restore(oracle);
    once := root.Now();
    RestoredIsClean(oracle.files, root.files);
    second := root.Restore(oracle);
  }
}
