/**
 The review diff of backend/app/agent/diff.py: which files it lists, and the texts it compares.
 Paths in the log are joined to the workspace as they are, so the diff's reader and the write
 tools agree on them.
 */
module ChangeSet {
  import opened Basics
  import opened Texts
  import opened Editing

  datatype FileDiff = FileDiff(path: Path, action: Action, before: Text, after: Text)

  /** The text before the change, empty for a new file. */
  function Original(c: FileChange): Text {
    if c.original.None? then "" else c.original.value
  }

  /** One entry per path: the earliest original content, the latest action. */
  method Collapse(changes: seq<FileChange>) returns (collapsed: map<Path, FileChange>)
    ensures forall p :: p in collapsed <==> FirstFor(changes, p).Some?
    ensures forall p :: p in collapsed ==>
              && LastFor(changes, p).Some?
              && collapsed[p] == FileChange(p, LastFor(changes, p).value.action, FirstFor(changes, p).value.original)
  {
    collapsed := map[];
    for i := 0 to |changes|
      invariant forall p :: p in collapsed <==> FirstFor(changes[..i], p).Some?
      invariant forall p :: p in collapsed ==>
                  && LastFor(changes[..i], p).Some?
                  && collapsed[p] ==
                     FileChange(p, LastFor(changes[..i], p).value.action, FirstFor(changes[..i], p).value.original)
    {
      var change := changes[i];
      assert changes[..i + 1] == changes[..i] + [change];
      forall p {
        FirstAndLast(changes[..i], change, p);
      }
      if change.path !in collapsed {
        collapsed := collapsed[change.path := change];
      } else {
        collapsed := collapsed[change.path := FileChange(change.path, change.action, collapsed[change.path].original)];
      }
    }
    assert changes[..|changes|] == changes;
  }

  predicate Ascending(diffs: seq<FileDiff>) {
    forall i, j :: 0 <= i < j < |diffs| ==> Before(diffs[i].path, diffs[j].path)
  }

  predicate Lists(diffs: seq<FileDiff>, p: Path) {
    exists i :: 0 <= i < |diffs| && diffs[i].path == p
  }

  /** The entry a logged path deserves, when its text differs from the recorded original. */
  ghost predicate Entry(files: Files, changes: seq<FileChange>, d: FileDiff) {
    && FirstFor(changes, d.path).Some? && LastFor(changes, d.path).Some?
    && d.action == LastFor(changes, d.path).value.action
    && d.before == Original(FirstFor(changes, d.path).value)
    && d.after == TextAt(files, d.path)
    && d.before != d.after
  }

  /** A logged path whose text is no longer the recorded original. */
  ghost predicate Changed(files: Files, changes: seq<FileChange>, p: Path) {
    FirstFor(changes, p).Some? && Original(FirstFor(changes, p).value) != TextAt(files, p)
  }

  lemma ListsMore(diffs: seq<FileDiff>, d: FileDiff)
    ensures Lists(diffs + [d], d.path)
    ensures forall p :: Lists(diffs, p) ==> Lists(diffs + [d], p)
  {
    assert (diffs + [d])[|diffs|].path == d.path;
    forall p | Lists(diffs, p) ensures Lists(diffs + [d], p) {
      var i :| 0 <= i < |diffs| && diffs[i].path == p;
      assert (diffs + [d])[i].path == p;
    }
  }

  ghost predicate AllEntries(files: Files, changes: seq<FileChange>, diffs: seq<FileDiff>) {
    forall i :: 0 <= i < |diffs| ==> Entry(files, changes, diffs[i])
  }

  predicate AllBefore(diffs: seq<FileDiff>, p: Path) {
    forall i :: 0 <= i < |diffs| ==> Before(diffs[i].path, p)
  }

  predicate Increasing(paths: seq<Path>) {
    forall i, j :: 0 <= i < j < |paths| ==> Before(paths[i], paths[j])
  }

  /** One more entry, beyond all those listed so far and before all those to come. */
  lemma AddsEntry(files: Files, changes: seq<FileChange>, diffs: seq<FileDiff>, d: FileDiff, paths: seq<Path>, k: nat)
    requires Ascending(diffs) && AllEntries(files, changes, diffs) && AllBefore(diffs, d.path)
             && Entry(files, changes, d)
    requires Increasing(paths) && k < |paths| && paths[k] == d.path
    requires forall j :: k <= j < |paths| ==> AllBefore(diffs, paths[j])
    ensures Ascending(diffs + [d]) && AllEntries(files, changes, diffs + [d])
    ensures forall j :: k < j < |paths| ==> AllBefore(diffs + [d], paths[j])
  {
  }

  method BuildChangeSet(files: Files, changes: seq<FileChange>) returns (diffs: seq<FileDiff>)
    ensures Ascending(diffs) && AllEntries(files, changes, diffs)
    ensures forall p :: Changed(files, changes, p) ==> Lists(diffs, p)
  {
    var collapsed := Collapse(changes);
    var paths := Sorted(collapsed.Keys);
    diffs := [];
    for k := 0 to |paths|
      invariant Ascending(diffs) && AllEntries(files, changes, diffs)
      invariant forall j :: k <= j < |paths| ==> AllBefore(diffs, paths[j])
      invariant forall j :: 0 <= j < k && Changed(files, changes, paths[j]) ==> Lists(diffs, paths[j])
    {
      var path := paths[k];
      assert path in paths;
      var change := collapsed[path];
      var before := Original(change);
      var after := TextAt(files, path);
      if before == after {
        continue;
      }
      var entry := FileDiff(path, change.action, before, after);
      AddsEntry(files, changes, diffs, entry, paths, k);
      ListsMore(diffs, entry);
      diffs := diffs + [entry];
    }
    forall p | Changed(files, changes, p) ensures Lists(diffs, p) {
      assert p in collapsed.Keys;
      assert p in paths;
    }
  }

  /**
   The change set of two workspaces, with no reference to any log: every path whose text
   differs, once each, in order, with the starting and the present text.
   */
  ghost predicate Exact(start: Files, files: Files, diffs: seq<FileDiff>) {
    && Ascending(diffs)
    && (forall p :: Lists(diffs, p) <==> TextAt(start, p) != TextAt(files, p))
    && (forall i :: 0 <= i < |diffs| ==>
          && diffs[i].before == TextAt(start, diffs[i].path)
          && diffs[i].after == TextAt(files, diffs[i].path)
          && (diffs[i].action == Deleted <==> diffs[i].path !in files))
  }

  /** An exact log makes an exact change set, however often each path was edited, created or deleted. */
  lemma LogMakesItExact(start: Files, d: Desk, diffs: seq<FileDiff>)
    requires ExactLog(start, d) && Ascending(diffs) && AllEntries(d.files, d.changes, diffs)
    requires forall p :: Changed(d.files, d.changes, p) ==> Lists(diffs, p)
    ensures Exact(start, d.files, diffs)
  {
    forall i | 0 <= i < |diffs|
      ensures diffs[i].before == TextAt(start, diffs[i].path)
      ensures diffs[i].after == TextAt(d.files, diffs[i].path)
      ensures diffs[i].action == Deleted <==> diffs[i].path !in d.files
    {
      assert Accounts(start, d, diffs[i].path);
    }
    forall p ensures Lists(diffs, p) <==> TextAt(start, p) != TextAt(d.files, p) {
      assert Accounts(start, d, p);
    }
  }

  /** The change set of a whole execution is exact, for every sequence of tool calls from any workspace. */
  method Review(start: Files, ghost calls: seq<Call>, d: Desk) returns (diffs: seq<FileDiff>)
    requires ValidCalls(calls) && d == PerformAll(Desk(start, []), calls)
    ensures Exact(start, d.files, diffs)
    ensures diffs == [] <==> forall p :: TextAt(start, p) == TextAt(d.files, p)
    ensures forall i :: 0 <= i < |diffs| ==>
              && diffs[i].before == (if diffs[i].path in start then start[diffs[i].path] else "")
              && diffs[i].after == (if diffs[i].path in d.files then d.files[diffs[i].path] else "")
    ensures forall p :: Lists(diffs, p) <==>
                        (if p in start then start[p] else "") != (if p in d.files then d.files[p] else "")
  {
    EveryExecutionIsLogged(start, calls);
    diffs := BuildChangeSet(d.files, d.changes);
    LogMakesItExact(start, d, diffs);
    if diffs != [] {
      assert Lists(diffs, diffs[0].path);
    }
  }

  // ------------------------------------------------------------------ the reported action

  /** The last call on a path that was carried out, by its position among the calls. */
  ghost function LastExecuted(d: Desk, calls: seq<Call>, p: Path): (k: Option<nat>)
    requires ValidCalls(calls)
    ensures k.Some? ==> k.value < |calls| && calls[k.value].edit.path == p
  {
    if calls == [] then None
    else
      var n := |calls| - 1;
      var files := PerformAll(d, calls[..n]).files;
      if calls[n].edit.path == p && Refusal(files, calls[n].edit, calls[n].env).None? then Some(n)
      else LastExecuted(d, calls[..n], p)
  }

  /** What the call found at its path. */
  ghost predicate FoundAFile(d: Desk, calls: seq<Call>, k: nat)
    requires ValidCalls(calls) && k < |calls|
  {
    calls[k].edit.path in PerformAll(d, calls[..k]).files
  }

  lemma ExecutedAction(files: Files, edit: Edit, env: Env)
    requires edit.Replace? ==> edit.find != ""
    requires Refusal(files, edit, env).None?
    ensures ActionOf(files, edit) == Editing.Created <==> edit.path !in files
    ensures ActionOf(files, edit) == Deleted <==> edit.Delete?
  {
  }

  /** The log's last action for a path is that of the last call carried out on it. */
  lemma {:induction false} LastActionIsTheLastCalls(start: Files, calls: seq<Call>, p: Path)
    requires ValidCalls(calls)
    ensures var d, k := PerformAll(Desk(start, []), calls), LastExecuted(Desk(start, []), calls, p);
            && (LastFor(d.changes, p).Some? <==> k.Some?)
            && (k.Some? ==>
                  && (LastFor(d.changes, p).value.action == Editing.Created <==>
                      !FoundAFile(Desk(start, []), calls, k.value))
                  && (LastFor(d.changes, p).value.action == Deleted <==> calls[k.value].edit.Delete?))
    decreases |calls|
  {
    if calls != [] {
      var n := |calls| - 1;
      var before := PerformAll(Desk(start, []), calls[..n]);
      LastActionIsTheLastCalls(start, calls[..n], p);
      if Refusal(before.files, calls[n].edit, calls[n].env).None? {
        ExecutedAction(before.files, calls[n].edit, calls[n].env);
        var c := FileChange(calls[n].edit.path, ActionOf(before.files, calls[n].edit),
                            Get(before.files, calls[n].edit.path));
        FirstAndLast(before.changes, c, p);
      }
      var k := LastExecuted(Desk(start, []), calls[..n], p);
      if k.Some? {
        assert calls[..n][..k.value] == calls[..k.value];
      }
    }
  }

  /**
   The action a listed file is reported with, for every starting workspace and every sequence of
   calls: the last call carried out on it decides alone. It is reported as created exactly when that
   call found no file there, so a file created and then edited again reads as modified, and one that
   was there from the start but was deleted and written again reads as created.
   */
  lemma ReportedActionIsTheLastCalls(start: Files, calls: seq<Call>, diffs: seq<FileDiff>, i: nat)
    requires ValidCalls(calls) && i < |diffs|
    requires var d := PerformAll(Desk(start, []), calls); AllEntries(d.files, d.changes, diffs)
    ensures var k := LastExecuted(Desk(start, []), calls, diffs[i].path);
            && k.Some?
            && (diffs[i].action == Editing.Created <==> !FoundAFile(Desk(start, []), calls, k.value))
            && (diffs[i].action == Deleted <==> calls[k.value].edit.Delete?)
  {
    LastActionIsTheLastCalls(start, calls, diffs[i].path);
  }

  /** A witness: a new file written twice is logged as modified. */
  lemma CreatedThenEditedReadsAsModified()
    ensures var env := Env(false, false, false, false);
            var d := PerformAll(Desk(map[], []), [Call(Write("a", "x"), env), Call(Write("a", "y"), env)]);
            && "a" in d.files && LastFor(d.changes, "a") == Some(FileChange("a", Modified, Some("x")))
            && FirstFor(d.changes, "a") == Some(FileChange("a", Editing.Created, None))
  {
    var env := Env(false, false, false, false);
    var one, two := Call(Write("a", "x"), env), Call(Write("a", "y"), env);
    assert [one, two][..1] == [one] && [one][..0] == [];
    var d0 := Desk(map[], []);
    var d1 := Perform(d0, one.edit, env);
    assert AsRead("x") == "x" && AsRead("y") == "y" && Utf8Size("x") == 1 && Utf8Size("y") == 1;
    assert PerformAll(d0, [one]) == d1;
    assert d1.files == map["a" := "x"];
    assert PerformAll(d0, [one, two]) == Perform(d1, two.edit, env);
  }
}
