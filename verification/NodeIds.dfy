/** From a JUnit report back to pytest node ids and shard units (ci_shards.py). */
module NodeIds {
  import opened Sequences

  const SPLIT_FILES: set<string> := {
    "internal/tests/integration/test_condition_purity.py",
    "internal/tests/integration/test_oracle_isolation.py",
    "internal/tests/integration/test_endpoint_row_contract.py",
    "internal/tests/integration/test_build_and_diagnose.py",
    "internal/tests/unit/test_candidate_change_journey.py",
    "internal/tests/unit/test_acceptance_journeys.py",
    "internal/tests/unit/test_session_textual_retained_results.py",
    "internal/tests/unit/test_audit_fixes.py"
  }

  // --------------------------------------------------------- string operations

  function Join(parts: seq<string>, sep: string): string {
    if parts == [] then "" else if |parts| == 1 then parts[0] else parts[0] + sep + Join(parts[1..], sep)
  }

  function Split(s: string, c: char): (r: seq<string>)
    ensures r != []
  {
    if s == [] then [[]]
    else
      var rest := Split(s[1..], c);
      if s[0] == c then [[]] + rest else [[s[0]] + rest[0]] + rest[1..]
  }

  function StripLeft(s: string, c: char): string {
    if s != [] && s[0] == c then StripLeft(s[1..], c) else s
  }

  function ReplaceChar(s: string, from: char, to: char): (r: string)
    ensures |r| == |s|
  {
    if s == [] then [] else [if s[0] == from then to else s[0]] + ReplaceChar(s[1..], from, to)
  }

  /** nodeid.split("::", 1)[0]. */
  function PathOf(nodeid: string): string {
    if |nodeid| < 2 then nodeid
    else if nodeid[0] == ':' && nodeid[1] == ':' then []
    else [nodeid[0]] + PathOf(nodeid[1..])
  }

  // ------------------------------------------------------------------ the code

  function UnitOf(nodeid: string): string {
    if PathOf(nodeid) in SPLIT_FILES then nodeid else PathOf(nodeid)
  }

  predicate IsTestModule(part: string) { "test_" <= part || part == "conftest" }

  /** One past the last of the first `end` parts that names a test module; 0 if none does. */
  function ModuleEnd(parts: seq<string>, end: nat): (r: nat)
    requires end <= |parts|
    ensures r <= end
    ensures r > 0 ==> IsTestModule(parts[r - 1])
    ensures forall i :: r <= i < end ==> !IsTestModule(parts[i])
  {
    if end == 0 || IsTestModule(parts[end - 1]) then end else ModuleEnd(parts, end - 1)
  }

  function FileOf(classname: string): string {
    var parts := Split(classname, '.');
    var end := ModuleEnd(parts, |parts|);
    Join(if end > 0 then parts[..end] else parts, "/") + ".py"
  }

  function NodeIdOf(classname: string, name: string): string {
    var path := FileOf(classname);
    var module_ := ReplaceChar(path[..|path| - 3], '/', '.');
    var inner := StripLeft(if |module_| <= |classname| then classname[|module_|..] else [], '.');
    Join([path] + (if inner != [] then Split(inner, '.') else []), "::") + "::" + name
  }

  // ---------------------------------------------------------- split after join

  lemma {:induction false} SplitPlain(a: string, c: char)
    requires c !in a
    ensures Split(a, c) == [a]
  {
    if a != [] {
      assert a[0] in a && [a[0]] + a[1..] == a;
      SplitPlain(a[1..], c);
    }
  }

  lemma {:induction false} SplitFirst(a: string, c: char, b: string)
    requires c !in a
    ensures Split(a + [c] + b, c) == [a] + Split(b, c)
  {
    if a == [] {
      assert ([c] + b)[1..] == b;
      assert a + [c] + b == [c] + b;
    } else {
      assert a[0] in a && [a[0]] + a[1..] == a;
      assert (a + [c] + b)[1..] == a[1..] + [c] + b;
      SplitFirst(a[1..], c, b);
    }
  }

  lemma {:induction false} SplitJoin(parts: seq<string>, c: char)
    requires parts != [] && forall p :: p in parts ==> c !in p
    ensures Split(Join(parts, [c]), c) == parts
  {
    if |parts| == 1 {
      SplitPlain(parts[0], c);
    } else {
      var rest := Join(parts[1..], [c]);
      SplitJoin(parts[1..], c);
      SplitFirst(parts[0], c, rest);
      assert Join(parts, [c]) == parts[0] + [c] + rest;
      assert parts == [parts[0]] + parts[1..];
    }
  }

  lemma {:induction false} JoinAppend(a: seq<string>, b: seq<string>, sep: string)
    requires a != [] && b != []
    ensures Join(a + b, sep) == Join(a, sep) + sep + Join(b, sep)
  {
    if |a| == 1 {
      assert (a + b)[1..] == b;
    } else {
      assert (a + b)[1..] == a[1..] + b;
      JoinAppend(a[1..], b, sep);
    }
  }

  /** Separators of one length give joins of one length. */
  lemma {:induction false} JoinLength(parts: seq<string>, a: string, b: string)
    requires |a| == |b|
    ensures |Join(parts, a)| == |Join(parts, b)|
  {
    if |parts| > 1 { JoinLength(parts[1..], a, b); }
  }

  // ---------------------------------------------------------------- round trip

  /** A test path (directories and module) and the classes around one test. */
  predicate TestPlace(path: seq<string>, classes: seq<string>) {
    && path != [] && "test_" <= path[|path| - 1]
    && (forall p :: p in path ==> '.' !in p)
    && (forall c :: c in classes ==> c != [] && '.' !in c)
  }

  /** The class name pytest reports for such a test. */
  function ClassName(path: seq<string>, classes: seq<string>): string { Join(path + classes, ".") }

  /** The node id pytest collected it under. */
  function NodeId(path: seq<string>, classes: seq<string>, name: string): string {
    Join([Join(path, "/") + ".py"] + classes, "::") + "::" + name
  }

  lemma ModuleFound(path: seq<string>, classes: seq<string>)
    requires TestPlace(path, classes)
    ensures Split(ClassName(path, classes), '.') == path + classes
    ensures |path| <= ModuleEnd(path + classes, |path + classes|)
    ensures (forall c :: c in classes ==> !IsTestModule(c))
        <==> ModuleEnd(path + classes, |path + classes|) == |path|
  {
    var parts := path + classes;
    SplitJoin(parts, '.');
    var end := ModuleEnd(parts, |parts|);
    assert IsTestModule(parts[|path| - 1]);
    forall i | 0 <= i < |classes| ensures classes[i] == parts[|path| + i] {}
    if end > |path| { assert parts[end - 1] == classes[end - 1 - |path|]; }
  }

  lemma StripOne(s: string)
    requires s != [] && s[0] != '.'
    ensures StripLeft("." + s, '.') == s
  {
    assert ("." + s)[1..] == s;
  }

  lemma JoinHead(parts: seq<string>, sep: string)
    requires parts != [] && parts[0] != []
    ensures Join(parts, sep) != [] && Join(parts, sep)[0] == parts[0][0]
  {}

  /** What is left of the class name after the module part: the classes. */
  lemma InnerIsClasses(path: seq<string>, classes: seq<string>)
    requires TestPlace(path, classes)
    ensures var n, whole := |Join(path, "/")|, ClassName(path, classes);
            && n <= |whole|
            && var inner := StripLeft(whole[n..], '.');
               if classes == [] then inner == [] else inner != [] && Split(inner, '.') == classes
  {
    var n, whole := |Join(path, "/")|, ClassName(path, classes);
    JoinLength(path, "/", ".");
    if classes == [] {
      assert path + classes == path;
    } else {
      JoinAppend(path, classes, ".");
      var tail := Join(classes, ".");
      assert whole[n..] == "." + tail;
      assert classes[0] in classes;
      JoinHead(classes, ".");
      StripOne(tail);
      SplitJoin(classes, '.');
    }
  }

  lemma RoundTripHolds(path: seq<string>, classes: seq<string>, name: string)
    requires TestPlace(path, classes) && forall c :: c in classes ==> !("test_" <= c) && c != "conftest"
    ensures NodeIdOf(ClassName(path, classes), name) == NodeId(path, classes, name)
  {
    ModuleFound(path, classes);
    assert (path + classes)[..|path|] == path;
    var file := Join(path, "/") + ".py";
    assert FileOf(ClassName(path, classes)) == file;
    assert file[..|file| - 3] == Join(path, "/");
    InnerIsClasses(path, classes);
  }

  /** A class name without any module part is read as one path. */
  lemma NoModule(parts: seq<string>)
    requires parts != [] && forall p :: p in parts ==> '.' !in p && !("test_" <= p) && p != "conftest"
    ensures FileOf(Join(parts, ".")) == Join(parts, "/") + ".py"
  {
    SplitJoin(parts, '.');
    forall i | 0 <= i < |parts| ensures !IsTestModule(parts[i]) { assert parts[i] in parts; }
  }

  /** A class that looks like a module is taken for one, and the file part differs. */
  lemma RoundTripFails(path: seq<string>, classes: seq<string>, name: string)
    requires TestPlace(path, classes) && exists c :: c in classes && ("test_" <= c || c == "conftest")
    ensures NodeIdOf(ClassName(path, classes), name) != NodeId(path, classes, name)
  {
    ModuleFound(path, classes);
    var parts := path + classes;
    var end := ModuleEnd(parts, |parts|);
    var n := |Join(path, "/")|;
    var extra := parts[|path|..end];
    assert parts[..end] == path + extra;
    JoinAppend(path, extra, "/");
    var whole := ClassName(path, classes);
    FilePrefix(whole, name);
    assert FileOf(whole)[n] == '/';
    NodeIdPrefix(path, classes, name);
  }

  /** A node id starts with its file. */
  lemma FilePrefix(classname: string, name: string)
    ensures FileOf(classname) <= NodeIdOf(classname, name)
  {}

  lemma NodeIdPrefix(path: seq<string>, classes: seq<string>, name: string)
    ensures Join(path, "/") + ".py" <= NodeId(path, classes, name)
  {}

  /** The recorded time of a test lands on the node id it was collected under exactly when
      no class around it is named like a test module. */
  lemma NodeIdRoundTrip(path: seq<string>, classes: seq<string>, name: string)
    requires TestPlace(path, classes)
    ensures NodeIdOf(ClassName(path, classes), name) == NodeId(path, classes, name)
        <==> forall c :: c in classes ==> !("test_" <= c) && c != "conftest"
  {
    if forall c :: c in classes ==> !IsTestModule(c) {
      RoundTripHolds(path, classes, name);
    } else {
      RoundTripFails(path, classes, name);
    }
  }

  lemma {:induction false} PathBefore(file: string, rest: string)
    requires ':' !in file
    ensures PathOf(file + "::" + rest) == file
  {
    var s := file + "::" + rest;
    if file != [] {
      assert s[1..] == file[1..] + "::" + rest;
      PathBefore(file[1..], rest);
    }
  }

  lemma NodeIdTail(path: seq<string>, classes: seq<string>, name: string)
    ensures exists rest :: NodeId(path, classes, name) == Join(path, "/") + ".py" + "::" + rest
  {
    var file := Join(path, "/") + ".py";
    if classes == [] {
      assert NodeId(path, classes, name) == file + "::" + name;
    } else {
      JoinAppend([file], classes, "::");
      assert NodeId(path, classes, name) == file + "::" + (Join(classes, "::") + "::" + name);
    }
  }

  /** So the weight recorded for a test is filed under the unit the plan looks up: its file,
      or the test itself in a split file. */
  lemma RecordedUnit(path: seq<string>, classes: seq<string>, name: string)
    requires TestPlace(path, classes) && forall c :: c in classes ==> !("test_" <= c) && c != "conftest"
    requires ':' !in Join(path, "/")
    ensures UnitOf(NodeIdOf(ClassName(path, classes), name))
         == var file := Join(path, "/") + ".py";
            if file in SPLIT_FILES then NodeId(path, classes, name) else file
  {
    RoundTripHolds(path, classes, name);
    NodeIdTail(path, classes, name);
    var file := Join(path, "/") + ".py";
    var rest :| NodeId(path, classes, name) == file + "::" + rest;
    PathBefore(file, rest);
  }
}
