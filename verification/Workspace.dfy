/** The tree a run works on, with the journal of its own writes and a count of what cannot
    be journalled: changes to git's index or history (patch.py, git.py, journal.py). */
module Workspace {
  import opened Sequences
  import opened Journal
  import opened Policy

  /** What a tool's handler did. Only apply_patch writes files; only git_stage and git_commit
      change the index or the history. */
  datatype Effect = NoEffect | Wrote(path: Path, content: string) | ChangedHistory(description: string)

  /** The files after a handler ran. */
  function FilesAfter(name: string, effect: Effect, files: Files): Files {
    if name == "apply_patch" && effect.Wrote? then files[effect.path := effect.content] else files
  }

  /** The changes of git's index or history after a handler ran. */
  function ChangesAfter(name: string, effect: Effect, changes: nat): nat {
    if name in HISTORY_MUTATING && effect.ChangedHistory? then changes + 1 else changes
  }

  class Space {
    const tree: Worktree
    const journal: MutationJournal
    var historyChanges: nat
    /** The files when the journal was last empty. */
    ghost var start: Files

    ghost predicate Valid()
      reads this, tree, journal
    {
      Journalled(start, journal.entries, tree.files)
    }

    constructor (tree: Worktree)
      ensures Valid() && this.tree == tree && fresh(journal) && journal.entries == [] && historyChanges == 0
      ensures start == tree.files
    {
      var j := new MutationJournal();
      this.tree, journal, historyChanges, start := tree, j, 0, tree.files;
    }

    method Apply(name: string, effect: Effect)
      requires Valid()
      modifies this`historyChanges, tree, journal
      ensures Valid()
      ensures tree.files == FilesAfter(name, effect, old(tree.files))
      ensures journal.entries == old(journal.entries)
                + if name == "apply_patch" && effect.Wrote?
                  then [FileMutation(effect.path, Content(old(tree.files), effect.path), effect.content, name)] else []
      ensures historyChanges == ChangesAfter(name, effect, old(historyChanges))
      ensures journal.irreversible == old(journal.irreversible)
                + if name == "git_commit" && effect.ChangedHistory? then [effect.description] else []
    {
      if name == "apply_patch" && effect.Wrote? {
        var before := Content(tree.files, effect.path);
        JournalWrite(start, journal.entries, tree.files, effect.path, effect.content, name);
        tree.files := tree.files[effect.path := effect.content];
        journal.RecordWrite(effect.path, before, effect.content, name);
      } else if name in HISTORY_MUTATING && effect.ChangedHistory? {
        historyChanges := historyChanges + 1;
        if name == "git_commit" { journal.RecordIrreversible(effect.description); }
      }
    }

    /** Put the tree back before escalating. Nobody else wrote, so it is exactly the start. */
    method Restore() returns (skipped: seq<Skip>)
      requires Valid()
      modifies tree, journal
      ensures Valid() && tree.files == start && journal.entries == [] && skipped == []
    {
      skipped := [];
      RevertRestoresStart(start, journal.entries, tree.files);
      if journal.entries != [] || journal.irreversible != [] {
        var reverted;
        reverted, skipped := journal.Revert(tree);
      }
    }
  }
}
