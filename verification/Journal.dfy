/** The journal of the agent's own writes, and undoing them (journal.py).

    File contents are compared as values; a missing file cannot be read. */
module Journal {
  import opened Sequences

  type Path = string
  type Files = map<Path, string>

  /** `before` is None when the file did not exist. */
  datatype FileMutation = FileMutation(path: Path, before: Option<string>, after: string, tool: string)

  datatype Reason = Unreadable | ChangedBySomeoneElse

  datatype Skip = Skip(path: Path, reason: Reason)

  datatype Reverted = Reverted(files: Files, reverted: seq<Path>, skipped: seq<Skip>)

  function Content(files: Files, p: Path): Option<string> {
    if p in files then Some(files[p]) else None
  }

  function Put(files: Files, p: Path, content: Option<string>): (r: Files)
    ensures forall q :: Content(r, q) == if q == p then content else Content(files, q)
  {
    match content
    case None => files - {p}
    case Some(c) => files[p := c]
  }

  /** Undo one entry, if the file still holds what that entry wrote. */
  function UndoOne(e: FileMutation, r: Reverted): Reverted {
    if e.path !in r.files then r.(skipped := r.skipped + [Skip(e.path, Unreadable)])
    else if r.files[e.path] != e.after then r.(skipped := r.skipped + [Skip(e.path, ChangedBySomeoneElse)])
    else Reverted(Put(r.files, e.path, e.before), r.reverted + [e.path], r.skipped)
  }

  /** Undo entries newest first. */
  function Undo(entries: seq<FileMutation>, r: Reverted): Reverted {
    if entries == [] then r
    else Undo(entries[..|entries| - 1], UndoOne(entries[|entries| - 1], r))
  }

  function UndoAll(entries: seq<FileMutation>, files: Files): Reverted { Undo(entries, Reverted(files, [], [])) }

  class Worktree {
    var files: Files

    constructor (files: Files)
      ensures this.files == files
    {
      this.files := files;
    }
  }

  class MutationJournal {
    var entries: seq<FileMutation>
    var irreversible: seq<string>

    constructor ()
      ensures entries == [] && irreversible == []
    {
      entries, irreversible := [], [];
    }

    method RecordWrite(path: Path, before: Option<string>, after: string, tool: string)
      modifies this
      ensures entries == old(entries) + [FileMutation(path, before, after, tool)]
      ensures irreversible == old(irreversible)
    {
      entries := entries + [FileMutation(path, before, after, tool)];
    }

    method RecordIrreversible(description: string)
      modifies this
      ensures irreversible == old(irreversible) + [description] && entries == old(entries)
    {
      irreversible := irreversible + [description];
    }

    method Revert(tree: Worktree) returns (reverted: seq<Path>, skipped: seq<Skip>)
      modifies this, tree
      ensures Reverted(tree.files, reverted, skipped) == UndoAll(old(entries), old(tree.files))
      ensures entries == if skipped == [] then [] else old(entries)
      ensures irreversible == old(irreversible)
    {
      reverted, skipped := [], [];
      var i := |entries|;
      assert entries[..i] == entries;
      while i > 0
        invariant 0 <= i <= |entries| && entries == old(entries) && irreversible == old(irreversible)
        invariant Undo(entries[..i], Reverted(tree.files, reverted, skipped)) == UndoAll(entries, old(tree.files))
      {
        i := i - 1;
        var entry := entries[i];
        assert entries[..i + 1][..i] == entries[..i];
        if entry.path !in tree.files {
          skipped := skipped + [Skip(entry.path, Unreadable)];
        } else if tree.files[entry.path] != entry.after {
          skipped := skipped + [Skip(entry.path, ChangedBySomeoneElse)];
        } else {
          tree.files := Put(tree.files, entry.path, entry.before);
          reverted := reverted + [entry.path];
        }
      }
      if skipped == [] {
        entries := [];
      }
    }
  }

  // ------------------------------------------------------------ no outside writer

  /** Applying journalled writes; each finds the file as its entry says it was. */
  ghost predicate Journalled(start: Files, entries: seq<FileMutation>, end: Files)
    decreases |entries|
  {
    if entries == [] then start == end
    else
      var last := entries[|entries| - 1];
      var before := Put(end, last.path, last.before);
      && Content(end, last.path) == Some(last.after)
      && Journalled(start, entries[..|entries| - 1], before)
  }

  /** One more write through the journal. */
  lemma JournalWrite(start: Files, entries: seq<FileMutation>, end: Files, p: Path, after: string, tool: string)
    requires Journalled(start, entries, end)
    ensures Journalled(start, entries + [FileMutation(p, Content(end, p), after, tool)], end[p := after])
  {
    var e := FileMutation(p, Content(end, p), after, tool);
    assert (entries + [e])[..|entries|] == entries;
    assert Put(end[p := after], p, e.before) == end;
  }

  lemma {:induction false} UndoJournalled(start: Files, entries: seq<FileMutation>, r: Reverted)
    requires Journalled(start, entries, r.files)
    ensures Undo(entries, r).files == start
    ensures Undo(entries, r).skipped == r.skipped
    ensures Undo(entries, r).reverted == r.reverted + PathsBackwards(entries)
    decreases |entries|
  {
    if entries != [] {
      UndoJournalled(start, entries[..|entries| - 1], UndoOne(entries[|entries| - 1], r));
    }
  }

  function PathsBackwards(entries: seq<FileMutation>): seq<Path> {
    if entries == [] then [] else [entries[|entries| - 1].path] + PathsBackwards(entries[..|entries| - 1])
  }

  /** With every write journalled and nobody else writing, undoing gives back exactly the
      starting files and skips nothing. */
  lemma RevertRestoresStart(start: Files, entries: seq<FileMutation>, end: Files)
    requires Journalled(start, entries, end)
    ensures UndoAll(entries, end) == Reverted(start, PathsBackwards(entries), [])
  {
    UndoJournalled(start, entries, Reverted(end, [], []));
  }

  // ----------------------------------------------------------- with outside edits

  /** What undoing makes of one path, from the content found there. */
  function Walk(entries: seq<FileMutation>, p: Path, found: Option<string>): Option<string> {
    if entries == [] then found
    else
      var e := entries[|entries| - 1];
      Walk(entries[..|entries| - 1], p, if e.path == p && found == Some(e.after) then e.before else found)
  }

  /** Undoing treats every path by itself, whatever else was edited. */
  lemma {:induction false} UndoIsPerPath(entries: seq<FileMutation>, r: Reverted, p: Path)
    ensures Content(Undo(entries, r).files, p) == Walk(entries, p, Content(r.files, p))
    decreases |entries|
  {
    if entries != [] {
      UndoIsPerPath(entries[..|entries| - 1], UndoOne(entries[|entries| - 1], r), p);
    }
  }

  ghost predicate WroteIt(entries: seq<FileMutation>, p: Path, found: Option<string>) {
    exists e :: e in entries && e.path == p && found == Some(e.after)
  }

  lemma WroteItSplit(entries: seq<FileMutation>, p: Path, found: Option<string>)
    requires entries != []
    ensures var e := entries[|entries| - 1];
            WroteIt(entries, p, found)
            <==> (e.path == p && found == Some(e.after)) || WroteIt(entries[..|entries| - 1], p, found)
  {
    var n := |entries| - 1;
    assert entries == entries[..n] + [entries[n]];
    assert entries[n] in entries;
    forall x ensures x in entries <==> x == entries[n] || x in entries[..n] {}
  }

  lemma {:induction false} UndoTouches(entries: seq<FileMutation>, r: Reverted, p: Path)
    ensures p in Undo(entries, r).reverted
        <==> p in r.reverted || WroteIt(entries, p, Content(r.files, p))
    decreases |entries|
  {
    if entries != [] {
      var n := |entries| - 1;
      var next := UndoOne(entries[n], r);
      WroteItSplit(entries, p, Content(r.files, p));
      UndoTouches(entries[..n], next, p);
      assert p in next.reverted <==>
             p in r.reverted || (entries[n].path == p && Content(r.files, p) == Some(entries[n].after));
    }
  }

  /** Undoing writes to a path exactly when it holds something the journal recorded writing
      there; otherwise the path is left as found. */
  lemma RevertWritesExactly(entries: seq<FileMutation>, files: Files, p: Path)
    ensures p in UndoAll(entries, files).reverted <==> WroteIt(entries, p, Content(files, p))
    ensures !WroteIt(entries, p, Content(files, p)) ==>
              Content(UndoAll(entries, files).files, p) == Content(files, p)
  {
    UndoTouches(entries, Reverted(files, [], []), p);
    UndoIsPerPath(entries, Reverted(files, [], []), p);
    if !WroteIt(entries, p, Content(files, p)) { WalkStays(entries, p, Content(files, p)); }
  }

  lemma {:induction false} WalkStays(entries: seq<FileMutation>, p: Path, found: Option<string>)
    requires !WroteIt(entries, p, found)
    ensures Walk(entries, p, found) == found
  {
    if entries != [] {
      WroteItSplit(entries, p, found);
      WalkStays(entries[..|entries| - 1], p, found);
    }
  }

  /** Why entries are skipped on a path no entry fits: the file is missing, or somebody else
      changed it; and every such entry is skipped. */
  lemma {:induction false} SkippedFor(entries: seq<FileMutation>, r: Reverted, p: Path)
    requires !WroteIt(entries, p, Content(r.files, p))
    ensures var skip := Skip(p, if p in r.files then ChangedBySomeoneElse else Unreadable);
            && (forall s :: s in Undo(entries, r).skipped && s.path == p ==> s in r.skipped || s == skip)
            && ((exists e :: e in entries && e.path == p) ==> skip in Undo(entries, r).skipped)
            && (forall s :: s in r.skipped ==> s in Undo(entries, r).skipped)
    decreases |entries|
  {
    if entries != [] {
      var n := |entries| - 1;
      var e, next := entries[n], UndoOne(entries[n], r);
      WroteItSplit(entries, p, Content(r.files, p));
      assert Content(next.files, p) == Content(r.files, p);
      SkippedFor(entries[..n], next, p);
      assert entries == entries[..n] + [e];
      assert forall x :: x in entries <==> x == e || x in entries[..n];
    }
  }

  /** A path whose content no entry wrote is skipped for every entry there is: as unreadable if
      the file is gone, as somebody else's if it is there. */
  lemma SkippedExactly(entries: seq<FileMutation>, files: Files, p: Path)
    requires forall e :: e in entries && e.path == p ==> Content(files, p) != Some(e.after)
    ensures var skipped := UndoAll(entries, files).skipped;
            && (Skip(p, Unreadable) in skipped <==> p !in files && exists e :: e in entries && e.path == p)
            && (Skip(p, ChangedBySomeoneElse) in skipped <==> p in files && exists e :: e in entries && e.path == p)
  {
    SkippedFor(entries, Reverted(files, [], []), p);
    SkipsHaveEntries(entries, Reverted(files, [], []), p);
  }

  lemma {:induction false} SkipsHaveEntries(entries: seq<FileMutation>, r: Reverted, p: Path)
    ensures forall s :: s in Undo(entries, r).skipped && s.path == p ==>
              s in r.skipped || exists e :: e in entries && e.path == p
    decreases |entries|
  {
    if entries != [] {
      var n := |entries| - 1;
      SkipsHaveEntries(entries[..n], UndoOne(entries[n], r), p);
      assert entries == entries[..n] + [entries[n]];
      assert forall x :: x in entries[..n] || x == entries[n] ==> x in entries;
    }
  }

  /** The entries for one path, in order. */
  function For(entries: seq<FileMutation>, p: Path): (r: seq<FileMutation>)
    ensures forall e :: e in r ==> e.path == p
  {
    if entries == [] then []
    else
      var e := entries[|entries| - 1];
      For(entries[..|entries| - 1], p) + (if e.path == p then [e] else [])
  }

  /** Nobody else wrote the path between our writes. */
  ghost predicate Chain(own: seq<FileMutation>) {
    forall i :: 0 < i < |own| ==> own[i].before == Some(own[i - 1].after)
  }

  lemma {:induction false} WalkChain(entries: seq<FileMutation>, p: Path)
    requires var own := For(entries, p); own != [] && Chain(own)
    ensures var own := For(entries, p); Walk(entries, p, Some(own[|own| - 1].after)) == own[0].before
  {
    var n := |entries| - 1;
    var own, earlier := For(entries, p), For(entries[..n], p);
    if entries[n].path == p {
      assert own == earlier + [entries[n]];
      if earlier == [] {
        WalkNothing(entries[..n], p, entries[n].before);
      } else {
        assert own[|own| - 1].before == Some(own[|own| - 2].after);
        forall i | 0 < i < |earlier| ensures earlier[i].before == Some(earlier[i - 1].after) {
          assert own[i] == earlier[i] && own[i - 1] == earlier[i - 1];
        }
        WalkChain(entries[..n], p);
      }
    } else {
      assert own == earlier;
      WalkChain(entries[..n], p);
    }
  }

  lemma {:induction false} WalkNothing(entries: seq<FileMutation>, p: Path, found: Option<string>)
    requires For(entries, p) == []
    ensures Walk(entries, p, found) == found
  {
    if entries != [] { WalkNothing(entries[..|entries| - 1], p, found); }
  }

  /** Whatever happened to other paths: a path nobody else wrote goes back to what it was
      before our first write, and a path we never wrote is untouched. */
  lemma RevertWithOutsideEdits(entries: seq<FileMutation>, files: Files, p: Path)
    ensures var own := For(entries, p);
            && (own == [] ==> Content(UndoAll(entries, files).files, p) == Content(files, p))
            && (own != [] && Chain(own) && Content(files, p) == Some(own[|own| - 1].after) ==>
                  Content(UndoAll(entries, files).files, p) == own[0].before)
  {
    UndoIsPerPath(entries, Reverted(files, [], []), p);
    var own := For(entries, p);
    if own == [] {
      WalkNothing(entries, p, Content(files, p));
    } else if Chain(own) && Content(files, p) == Some(own[|own| - 1].after) {
      WalkChain(entries, p);
    }
  }

  /** The promise "a file that is not what we last wrote is left alone" is wider than the
      code: here someone put back our first version, and undoing removes it. */
  lemma OlderVersionIsClobbered()
    ensures var entries := [FileMutation("a", Some("v0"), "v1", "apply_patch"),
                            FileMutation("a", Some("v1"), "v2", "apply_patch")];
            var found := map["a" := "v1"];
            && found["a"] != entries[1].after
            && UndoAll(entries, found) == Reverted(map["a" := "v0"], ["a"], [Skip("a", ChangedBySomeoneElse)])
  {
    var e1 := FileMutation("a", Some("v0"), "v1", "apply_patch");
    var e2 := FileMutation("a", Some("v1"), "v2", "apply_patch");
    var r0 := Reverted(map["a" := "v1"], [], []);
    var r1 := UndoOne(e2, r0);
    assert "v1"[1] != "v2"[1];
    assert r1 == Reverted(map["a" := "v1"], [], [Skip("a", ChangedBySomeoneElse)]);
    assert [e1, e2][..1] == [e1];
    assert [e1][..0] == [];
    assert UndoOne(e1, r1) == Reverted(map["a" := "v0"], ["a"], [Skip("a", ChangedBySomeoneElse)]);
    assert Undo([e1], r1) == UndoOne(e1, r1);
  }

  /** It holds, for a path whose content is not our last write, exactly when the content is
      none of our earlier writes to that path either. */
  lemma LeftAloneExactly(entries: seq<FileMutation>, files: Files, p: Path)
    requires var own := For(entries, p); own != [] && Content(files, p) != Some(own[|own| - 1].after)
    ensures var own := For(entries, p);
            p !in UndoAll(entries, files).reverted
            <==> forall e :: e in own[..|own| - 1] ==> Content(files, p) != Some(e.after)
  {
    var own := For(entries, p);
    RevertWritesExactly(entries, files, p);
    ForMembers(entries, p);
    assert own == own[..|own| - 1] + [own[|own| - 1]];
    forall e ensures e in own <==> e == own[|own| - 1] || e in own[..|own| - 1] {}
  }

  lemma {:induction false} ForMembers(entries: seq<FileMutation>, p: Path)
    ensures forall e :: e in For(entries, p) <==> e in entries && e.path == p
  {
    if entries != [] {
      var n := |entries| - 1;
      ForMembers(entries[..n], p);
      assert entries == entries[..n] + [entries[n]];
      forall e ensures e in entries <==> e == entries[n] || e in entries[..n] {}
    }
  }
}
