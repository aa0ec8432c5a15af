/**
 What a push leaves on the branch (backend/app/github/pr.py, and the paths that `_publish` of
 backend/app/agent/orchestrator.py hands it). Whole files are read from the workspace at push time;
 the approval gate compares the stored diff text and never looks at them. So the branch carries the
 reviewed change only if the workspace still does, and exactly then.
 */
module Publishing {
  import opened Basics
  import opened Texts
  import opened Editing
  import opened ChangeSet

  /**
   The file that ends up at a listed path. `seen` is what the workspace holds there when edits are
   told from deletions, `found` what it holds when the path's turn comes; anyone may write in between.
   */
  function Landed(branch: Files, seen: Files, found: Files, p: Path): Option<Text> {
    if p !in seen then None
    else if p in found then Some(found[p])
    else Get(branch, p)
  }

  /** A listed path for which the push makes a commit. */
  predicate Commits(branch: Files, seen: Files, found: Files, p: Path) {
    if p in seen then p in found else p in branch
  }

  class Branch {
    var files: Files

    /** A new branch at a base commit. A retry reuses the branch an earlier attempt left. */
    constructor (base: Files)
      ensures files == base
    {
      files := base;
    }

    method CommitFile(p: Path, content: Text)
      modifies this
      ensures files == old(files)[p := content]
    {
      files := files[p := content];
    }

    method DeleteFile(p: Path) returns (done: bool)
      modifies this
      ensures done <==> p in old(files)
      ensures files == old(files) - {p}
    {
      done := p in files;
      files := files - {p};
    }

    /** The paths with a file are edits, the others deletions. */
    method Part(paths: seq<Path>, seen: Files) returns (changed: seq<Path>, deleted: seq<Path>)
      ensures forall p :: p in changed <==> p in paths && p in seen
      ensures forall p :: p in deleted <==> p in paths && p !in seen
    {
      changed, deleted := [], [];
      for i := 0 to |paths|
        invariant forall p :: p in changed <==> p in paths[..i] && p in seen
        invariant forall p :: p in deleted <==> p in paths[..i] && p !in seen
      {
        if paths[i] in seen {
          changed := changed + [paths[i]];
        } else {
          deleted := deleted + [paths[i]];
        }
      }
    }

    /** Commits each edited file as it is found; one that has gone since is skipped. */
    method CommitAll(changed: seq<Path>, found: Files) returns (any: bool)
      modifies this
      ensures forall p :: Get(files, p) == if p in changed && p in found then Get(found, p) else Get(old(files), p)
      ensures any <==> exists p :: p in changed && p in found
    {
      any := false;
      for i := 0 to |changed|
        invariant forall p ::
                    Get(files, p) == if p in changed[..i] && p in found then Get(found, p) else Get(old(files), p)
        invariant any <==> exists p :: p in changed[..i] && p in found
      {
        if changed[i] in found {
          CommitFile(changed[i], found[changed[i]]);
          any := true;
          assert changed[i] in changed[..i + 1];
        }
      }
    }

    method DeleteAll(deleted: seq<Path>) returns (any: bool)
      modifies this
      ensures forall p :: Get(files, p) == if p in deleted then None else Get(old(files), p)
      ensures any <==> exists p :: p in deleted && p in old(files)
    {
      any := false;
      for i := 0 to |deleted|
        invariant forall p :: Get(files, p) == if p in deleted[..i] then None else Get(old(files), p)
        invariant any <==> exists p :: p in deleted[..i] && p in old(files)
      {
        assert deleted[..i + 1] == deleted[..i] + [deleted[i]];
        assert Get(files, deleted[i]).Some? <==> deleted[i] !in deleted[..i] && deleted[i] in old(files);
        var done := DeleteFile(deleted[i]);
        any := any || done;
      }
    }

    /**
     `publish_changes`: every listed path ends up as it is found, every other one stays as the branch
     had it; refused exactly when nothing at all was committed.
     */
    method Publish(listed: set<Path>, seen: Files, found: Files) returns (opened_: bool)
      modifies this
      ensures forall p ::
                Get(files, p) == if p in listed then Landed(old(files), seen, found, p) else Get(old(files), p)
      ensures opened_ <==> exists p :: p in listed && Commits(old(files), seen, found, p)
    {
      var paths := Sorted(listed);
      var changed, deleted := Part(paths, seen);
      var edited := CommitAll(changed, found);
      label Edited:
      assert forall p :: p in deleted ==> (p in files <==> Get(files, p).Some?) && Get(files, p) == Get(old(files), p);
      var removed := DeleteAll(deleted);
      opened_ := edited || removed;
    }
  }

  // ------------------------------------------------------------------ the reviewed change

  function PathsOf(diffs: seq<FileDiff>): set<Path> {
    set i | 0 <= i < |diffs| :: diffs[i].path
  }

  /** The workspace still holds what was reviewed at a path, both times the push looks. */
  predicate Untouched(reviewed: Files, seen: Files, found: Files, p: Path) {
    if p in seen then p in found && found[p] == TextAt(reviewed, p) else TextAt(reviewed, p) == ""
  }

  /** What is on the branch after a push of the listed paths. */
  ghost predicate IsPushed(branch: Files, listed: set<Path>, seen: Files, found: Files, after: Files) {
    forall p :: Get(after, p) == if p in listed then Landed(branch, seen, found, p) else Get(branch, p)
  }

  /** At every path the branch has the text that was reviewed. */
  ghost predicate CarriesTheReview(reviewed: Files, after: Files) {
    forall p :: TextAt(after, p) == TextAt(reviewed, p)
  }

  lemma ListedIsInPaths(diffs: seq<FileDiff>, p: Path)
    ensures p in PathsOf(diffs) <==> Lists(diffs, p)
  {
  }

  /**
   The exact condition: from a new branch at the commit that was edited, and the exact change set a
   human approved, the push leaves the reviewed text at every path if and only if the workspace is
   untouched since the review at each listed one.
   */
  lemma PushCarriesTheReviewIffUntouched(start: Files, reviewed: Files, diffs: seq<FileDiff>, seen: Files, found: Files,
                                         after: Files)
    requires Exact(start, reviewed, diffs) && IsPushed(start, PathsOf(diffs), seen, found, after)
    ensures CarriesTheReview(reviewed, after) <==>
            forall p :: p in PathsOf(diffs) ==> Untouched(reviewed, seen, found, p)
  {
    forall p
      ensures TextAt(after, p) == TextAt(reviewed, p) <==>
              (p in PathsOf(diffs) ==> Untouched(reviewed, seen, found, p))
    {
      ListedIsInPaths(diffs, p);
      assert Get(after, p) == if p in PathsOf(diffs) then Landed(start, seen, found, p) else Get(start, p);
    }
  }

  /**
   At one listed path and for any branch, one that moved on or one an earlier attempt left included:
   the push leaves the reviewed text exactly if the workspace is untouched there, or the file has
   gone in between and the branch happened to hold that text already.
   */
  lemma PushIsRightWhere(branch: Files, reviewed: Files, listed: set<Path>, seen: Files, found: Files, after: Files,
                         p: Path)
    requires IsPushed(branch, listed, seen, found, after) && p in listed
    ensures TextAt(after, p) == TextAt(reviewed, p) <==>
            || Untouched(reviewed, seen, found, p)
            || (p in seen && p !in found && TextAt(branch, p) == TextAt(reviewed, p))
  {
    assert Get(after, p) == Landed(branch, seen, found, p);
  }

  /**
   A retry: on an untouched workspace the listed paths come out right whatever an earlier attempt left on
   the branch.
   */
  lemma RetriesCarryTheReview(branch: Files, reviewed: Files, listed: set<Path>, seen: Files, found: Files,
                              after: Files)
    requires IsPushed(branch, listed, seen, found, after)
    requires forall p :: p in listed ==> Untouched(reviewed, seen, found, p)
    ensures forall p :: p in listed ==> TextAt(after, p) == TextAt(reviewed, p)
    ensures forall p :: p !in listed ==> Get(after, p) == Get(branch, p)
  {
    forall p | p in listed ensures TextAt(after, p) == TextAt(reviewed, p) {
      PushIsRightWhere(branch, reviewed, listed, seen, found, after, p);
    }
  }

  /** What the gate lets through: a file written again after the review is pushed as it now is. */
  method LateWriteIsPushed() returns (after: Files)
    ensures var start, reviewed := map["a" := "old"], map["a" := "reviewed"];
            && Exact(start, reviewed, [FileDiff("a", Modified, "old", "reviewed")])
            && TextAt(after, "a") == "written later"
  {
    var branch := new Branch(map["a" := "old"]);
    var disk: Files := map["a" := "written later"];
    var opened_ := branch.Publish({"a"}, disk, disk);
    after := branch.files;
    assert Get(after, "a") == Some("written later");
    OneFileIsExact("a", "old", "reviewed");
  }

  lemma OneFileIsExact(p: Path, before: Text, after: Text)
    requires before != after
    ensures Exact(map[p := before], map[p := after], [FileDiff(p, Modified, before, after)])
  {
    assert [FileDiff(p, Modified, before, after)][0].path == p;
  }
}
