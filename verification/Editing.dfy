/**
 The write tools of backend/app/agent/tools/editing.py: an abstract workspace (canonical path to
 the text `read_text` returns) edited in place, and the log of what was actually written.
 */
module Editing {
  import opened Basics
  import opened Texts

  type Files = map<Path, Text>

  datatype Action = Created | Modified | Deleted

  datatype FileChange = FileChange(path: Path, action: Action, original: Option<Text>)

  datatype Edit =
    | Write(path: Path, content: Text)
    | Replace(path: Path, find: Text, replacement: Text)
    | Delete(path: Path)

  /** What the surroundings decide: a safety refusal, a directory at the path, an operating-system error. */
  datatype Env = Env(refused: bool, isDirectory: bool, readFails: bool, writeFails: bool)

  datatype ErrorCode =
    | SafetyRefused | ContentTooLarge | FileTooLarge | NotFound
    | TextNotFound | TextNotUnique | IsADirectory | ToolError

  /** A workspace with its log. */
  datatype Desk = Desk(files: Files, changes: seq<FileChange>)

  const MAX_WRITE_BYTES := 100_000
  const MAX_READ_BYTES := 200_000

  function Get(files: Files, p: Path): Option<Text> {
    if p in files then Some(files[p]) else None
  }

  /** The text at a path, with an absent file counted as empty. */
  function TextAt(files: Files, p: Path): Text {
    if p in files then files[p] else ""
  }

  /** Why an edit fails, if it does; the checks are made in this order. */
  function Refusal(files: Files, edit: Edit, env: Env): Option<ErrorCode>
    requires edit.Replace? ==> edit.find != ""
  {
    if env.refused then Some(SafetyRefused)
    else
      match edit
      case Write(p, content) =>
        if Utf8Size(content) > MAX_WRITE_BYTES then Some(ContentTooLarge)
        else if p in files && env.readFails then Some(ToolError)
        else if p in files && |files[p]| > MAX_READ_BYTES then Some(FileTooLarge)
        else if env.writeFails then Some(ToolError)
        else None
      case Replace(p, find, replacement) =>
        if p !in files then Some(NotFound)
        else if env.readFails then Some(ToolError)
        else if Count(files[p], find) == 0 then Some(TextNotFound)
        else if Count(files[p], find) > 1 then Some(TextNotUnique)
        else if env.writeFails then Some(ToolError)
        else None
      case Delete(p) =>
        if p !in files then Some(if env.isDirectory then IsADirectory else NotFound)
        else if env.readFails || env.writeFails then Some(ToolError)
        else None
  }

  /** The file an edit leaves at its path. */
  function Written(files: Files, edit: Edit): Option<Text>
    requires edit.Replace? ==> edit.find != ""
  {
    match edit
    case Write(_, content) => Some(AsRead(content))
    case Replace(p, find, replacement) => Some(AsRead(ReplaceFirst(TextAt(files, p), find, replacement)))
    case Delete(_) => None
  }

  function ActionOf(files: Files, edit: Edit): Action {
    match edit
    case Write(p, _) => if p in files then Modified else Created
    case Replace(_, _, _) => Modified
    case Delete(_) => Deleted
  }

  function SetFile(files: Files, p: Path, text: Option<Text>): Files {
    match text
    case None => files - {p}
    case Some(t) => files[p := t]
  }

  /** One tool call: refused without effect, or carried out and recorded. */
  function Perform(d: Desk, edit: Edit, env: Env): Desk
    requires edit.Replace? ==> edit.find != ""
  {
    if Refusal(d.files, edit, env).Some? then d
    else Desk(SetFile(d.files, edit.path, Written(d.files, edit)),
              d.changes + [FileChange(edit.path, ActionOf(d.files, edit), Get(d.files, edit.path))])
  }

  // ------------------------------------------------------------------ the log

  function FirstFor(changes: seq<FileChange>, p: Path): Option<FileChange> {
    if changes == [] then None
    else if changes[0].path == p then Some(changes[0])
    else FirstFor(changes[1..], p)
  }

  function LastFor(changes: seq<FileChange>, p: Path): Option<FileChange> {
    if changes == [] then None
    else if changes[|changes| - 1].path == p then Some(changes[|changes| - 1])
    else LastFor(changes[..|changes| - 1], p)
  }

  lemma {:induction false} FirstAndLast(changes: seq<FileChange>, c: FileChange, p: Path)
    ensures FirstFor(changes + [c], p) ==
            if FirstFor(changes, p).Some? then FirstFor(changes, p) else if c.path == p then Some(c) else None
    ensures LastFor(changes + [c], p) == if c.path == p then Some(c) else LastFor(changes, p)
  {
    assert (changes + [c])[..|changes|] == changes;
    if changes != [] {
      assert (changes + [c])[1..] == changes[1..] + [c];
      FirstAndLast(changes[1..], c, p);
    }
  }

  lemma {:induction false} FirstIffLast(changes: seq<FileChange>, p: Path)
    ensures FirstFor(changes, p).Some? <==> LastFor(changes, p).Some?
  {
    if changes != [] {
      var n := |changes| - 1;
      assert changes == changes[..n] + [changes[n]];
      FirstAndLast(changes[..n], changes[n], p);
      FirstIffLast(changes[..n], p);
    }
  }

  /**
   The log accounts for one path: its first entry holds the starting text, its last one says whether the
   file is there.
   */
  ghost predicate Accounts(start: Files, d: Desk, p: Path) {
    if FirstFor(d.changes, p).None? then Get(d.files, p) == Get(start, p)
    else
      && FirstFor(d.changes, p).value.original == Get(start, p)
      && LastFor(d.changes, p).Some?
      && (LastFor(d.changes, p).value.action == Deleted <==> p !in d.files)
  }

  /** The log is exact for the starting workspace. */
  ghost predicate ExactLog(start: Files, d: Desk) {
    forall p :: Accounts(start, d, p)
  }

  lemma ExactLogIsKept(start: Files, d: Desk, edit: Edit, env: Env)
    requires edit.Replace? ==> edit.find != ""
    requires ExactLog(start, d)
    ensures ExactLog(start, Perform(d, edit, env))
  {
    var d' := Perform(d, edit, env);
    if Refusal(d.files, edit, env).None? {
      forall p ensures Accounts(start, d', p) {
        assert Accounts(start, d, p);
        FirstAndLast(d.changes, d'.changes[|d.changes|], p);
      }
    }
  }

  datatype Call = Call(edit: Edit, env: Env)

  ghost predicate ValidCalls(calls: seq<Call>) {
    forall i :: 0 <= i < |calls| && calls[i].edit.Replace? ==> calls[i].edit.find != ""
  }

  /** A whole execution: any sequence of calls, successful or failed, in order. */
  ghost function PerformAll(d: Desk, calls: seq<Call>): Desk
    requires ValidCalls(calls)
  {
    if calls == [] then d
    else
      var n := |calls| - 1;
      Perform(PerformAll(d, calls[..n]), calls[n].edit, calls[n].env)
  }

  /** Whatever is called in whatever order, the log stays exact for the workspace it started from. */
  lemma {:induction false} EveryExecutionIsLogged(start: Files, calls: seq<Call>)
    requires ValidCalls(calls)
    ensures ExactLog(start, PerformAll(Desk(start, []), calls))
  {
    if calls == [] {
      forall p ensures Accounts(start, Desk(start, []), p) {
      }
    } else {
      var n := |calls| - 1;
      EveryExecutionIsLogged(start, calls[..n]);
      ExactLogIsKept(start, PerformAll(Desk(start, []), calls[..n]), calls[n].edit, calls[n].env);
    }
  }

  /** The file was split around one occurrence, and only that occurrence is new. */
  ghost predicate ReplacedAt(old_: Text, new_: Text, find: Text, replacement: Text, i: nat) {
    && OccursAt(old_, find, i)
    && new_ == old_[..i] + AsRead(Spliced(replacement, old_[i + |find|..])) + old_[i + |find|..]
  }

  lemma ReadAround(before: Text, r: Text, after: Text)
    requires '\r' !in before && '\r' !in after
    ensures AsRead(before + r + after) == before + AsRead(Spliced(r, after)) + after
  {
    assert before + r + after == before + (r + after);
    ReadingKeepsThePrefix(before, r + after);
    ReadingKeepsTheSuffix(r, after);
    assert before + (AsRead(Spliced(r, after)) + after) == before + AsRead(Spliced(r, after)) + after;
  }

  lemma SplicingReadsBack(s: Text, find: Text, replacement: Text, i: nat)
    requires '\r' !in s && OccursAt(s, find, i)
    ensures ReplacedAt(s, AsRead(s[..i] + replacement + s[i + |find|..]), find, replacement, i)
  {
    ReadAround(s[..i], replacement, s[i + |find|..]);
  }

  /**
   A targeted replacement changes only what it names: the file is split around the first
   occurrence of the searched text, everything outside it survives, and no other file is touched.
   */
  lemma ReplacementIsTargeted(d: Desk, p: Path, find: Text, replacement: Text, env: Env)
    requires find != "" && p in d.files && '\r' !in d.files[p]
    requires Refusal(d.files, Replace(p, find, replacement), env).None?
    ensures var d' := Perform(d, Replace(p, find, replacement), env);
            && d'.files.Keys == d.files.Keys
            && (exists i: nat :: ReplacedAt(d.files[p], d'.files[p], find, replacement, i))
            && (forall q :: q in d.files && q != p ==> d'.files[q] == d.files[q])
  {
    CountedIffPresent(d.files[p], find);
    SplicingReadsBack(d.files[p], find, replacement, FirstIndex(d.files[p], find).value);
  }

  /**
   Which replacements are refused, and as what: text that occurs nowhere, or twice without overlap, is
   reported as such; and one that is carried out finds its text, but not a second time beside it.
   */
  lemma ReplacementNeedsTheText(files: Files, p: Path, find: Text, replacement: Text, env: Env)
    requires find != ""
    ensures var code := Refusal(files, Replace(p, find, replacement), env);
            var readable := p in files && !env.refused && !env.readFails;
            && (code == Some(TextNotFound) <==> readable && forall i: nat :: !OccursAt(files[p], find, i))
            && (code == Some(TextNotUnique) <==> readable && OccursTwice(files[p], find))
            && (code == Some(NotFound) <==> p !in files && !env.refused)
            && (code.None? <==> readable && !env.writeFails && !OccursTwice(files[p], find)
                                && exists i: nat :: OccursAt(files[p], find, i))
  {
    if p in files {
      CountedIfPresent(files[p], find);
      CountedTwice(files[p], find);
    }
  }

  lemma CountedIfPresent(s: Text, find: Text)
    requires find != ""
    ensures Count(s, find) == 0 <==> forall i: nat :: !OccursAt(s, find, i)
  {
    CountedIffPresent(s, find);
    if FirstIndex(s, find).Some? {
      assert OccursAt(s, find, FirstIndex(s, find).value);
    }
  }

  /** Every other path is as before. */
  ghost predicate SameBeside(p: Path, before: Files, after: Files) {
    forall q :: q != p ==> (q in after <==> q in before) && (q in before ==> after[q] == before[q])
  }

  /** A refused call has no effect. */
  lemma RefusedHasNoEffect(d: Desk, edit: Edit, env: Env)
    requires edit.Replace? ==> edit.find != ""
    ensures Refusal(d.files, edit, env).Some? ==> Perform(d, edit, env) == d
    ensures Refusal(d.files, edit, env).None? ==> |Perform(d, edit, env).changes| == |d.changes| + 1
  {
  }

  /**
   A write replaces the whole file: whatever was there, the file afterwards is what was written, as it
   reads back; every other path is as before; and the log gains what was there.
   */
  lemma WritingReplaces(d: Desk, p: Path, content: Text, env: Env)
    requires Refusal(d.files, Write(p, content), env).None?
    ensures var d' := Perform(d, Write(p, content), env);
            && p in d'.files && d'.files[p] == AsRead(content)
            && ('\r' !in content ==> d'.files[p] == content)
            && SameBeside(p, d.files, d'.files)
            && d'.changes == d.changes + [if p in d.files then FileChange(p, Modified, Some(d.files[p]))
                                          else FileChange(p, Created, None)]
  {
    ReadsBackItself(content);
  }

  /** A replacement changes the first occurrence of its text and nothing else, and the log keeps the text before. */
  lemma ReplacingChangesTheFirst(d: Desk, p: Path, find: Text, replacement: Text, env: Env) returns (i: nat)
    requires find != "" && Refusal(d.files, Replace(p, find, replacement), env).None?
    ensures p in d.files && OccursAt(d.files[p], find, i) && forall j: nat :: j < i ==> !OccursAt(d.files[p], find, j)
    ensures var d', text := Perform(d, Replace(p, find, replacement), env), d.files[p];
            && d'.files == d.files[p := AsRead(text[..i] + replacement + text[i + |find|..])]
            && d'.changes == d.changes + [FileChange(p, Modified, Some(text))]
  {
    i := FirstIsReplaced(d.files[p], find, replacement);
  }

  lemma FirstIsReplaced(s: Text, find: Text, replacement: Text) returns (i: nat)
    requires find != "" && Count(s, find) == 1
    ensures OccursAt(s, find, i) && forall j: nat :: j < i ==> !OccursAt(s, find, j)
    ensures ReplaceFirst(s, find, replacement) == s[..i] + replacement + s[i + |find|..]
  {
    CountedIffPresent(s, find);
    i := FirstIndex(s, find).value;
  }

  /** A deletion removes its file and nothing else, and the log keeps the text. */
  lemma DeletingRemoves(d: Desk, p: Path, env: Env)
    requires Refusal(d.files, Delete(p), env).None?
    ensures var d' := Perform(d, Delete(p), env);
            && p in d.files && p !in d'.files
            && SameBeside(p, d.files, d'.files)
            && d'.changes == d.changes + [FileChange(p, Deleted, Some(d.files[p]))]
  {
  }

  /** When a write is refused, and as what. */
  lemma WritesRefused(files: Files, p: Path, content: Text, env: Env)
    ensures var code := Refusal(files, Write(p, content), env);
            var fits := !env.refused && Utf8Size(content) <= 100_000;
            && (code == Some(SafetyRefused) <==> env.refused)
            && (code == Some(ContentTooLarge) <==> !env.refused && Utf8Size(content) > 100_000)
            && (code == Some(FileTooLarge) <==> fits && p in files && !env.readFails && |files[p]| > 200_000)
            && (code.None? <==> fits && !env.writeFails && (p in files ==> !env.readFails && |files[p]| <= 200_000))
  {
  }

  /** When a deletion is refused, and as what. */
  lemma DeletionsRefused(files: Files, p: Path, env: Env)
    ensures var code := Refusal(files, Delete(p), env);
            && (code == Some(SafetyRefused) <==> env.refused)
            && (code == Some(IsADirectory) <==> !env.refused && p !in files && env.isDirectory)
            && (code == Some(NotFound) <==> !env.refused && p !in files && !env.isDirectory)
            && (code.None? <==> !env.refused && p in files && !env.readFails && !env.writeFails)
  {
  }

  // ------------------------------------------------------------------ in place

  class Workspace {
    var files: Files
    var changes: seq<FileChange>
    ghost const start: Files

    ghost function View(): Desk
      reads this
    {
      Desk(files, changes)
    }

    ghost predicate Valid()
      reads this
    {
      ExactLog(start, View())
    }

    constructor (initial: Files)
      ensures Valid() && start == initial && files == initial && changes == []
    {
      files, changes, start := initial, [], initial;
    }

    method WriteFile(p: Path, content: Text, env: Env) returns (error: Option<ErrorCode>)
      requires Valid()
      modifies this
      ensures Valid()
      ensures error == Refusal(old(files), Write(p, content), env)
      ensures View() == Perform(old(View()), Write(p, content), env)
      ensures error.None? ==> files == old(files)[p := AsRead(content)]
    {
      ExactLogIsKept(start, View(), Write(p, content), env);
      if env.refused {
        return Some(SafetyRefused);
      }
      if Utf8Size(content) > MAX_WRITE_BYTES {
        return Some(ContentTooLarge);
      }
      var existed := p in files;
      if existed && env.readFails {
        return Some(ToolError);
      }
      var original := Get(files, p);
      if existed && |original.value| > MAX_READ_BYTES {
        return Some(FileTooLarge);
      }
      if env.writeFails {
        return Some(ToolError);
      }
      files := files[p := AsRead(content)];
      changes := changes + [FileChange(p, if existed then Modified else Created, original)];
      error := None;
    }

    method ReplaceInFile(p: Path, find: Text, replacement: Text, env: Env) returns (error: Option<ErrorCode>)
      requires Valid() && find != ""
      modifies this
      ensures Valid()
      ensures error == Refusal(old(files), Replace(p, find, replacement), env)
      ensures View() == Perform(old(View()), Replace(p, find, replacement), env)
    {
      ExactLogIsKept(start, View(), Replace(p, find, replacement), env);
      if env.refused {
        return Some(SafetyRefused);
      }
      if p !in files {
        return Some(NotFound);
      }
      if env.readFails {
        return Some(ToolError);
      }
      var original := files[p];
      var occurrences := Count(original, find);
      if occurrences == 0 {
        return Some(TextNotFound);
      }
      if occurrences > 1 {
        return Some(TextNotUnique);
      }
      var updated := ReplaceFirst(original, find, replacement);
      if env.writeFails {
        return Some(ToolError);
      }
      files := files[p := AsRead(updated)];
      changes := changes + [FileChange(p, Modified, Some(original))];
      error := None;
    }

    method DeleteFile(p: Path, env: Env) returns (error: Option<ErrorCode>)
      requires Valid()
      modifies this
      ensures Valid()
      ensures error == Refusal(old(files), Delete(p), env)
      ensures View() == Perform(old(View()), Delete(p), env)
      ensures error.None? ==> p in old(files) && files == old(files) - {p}
    {
      ExactLogIsKept(start, View(), Delete(p), env);
      if env.refused {
        return Some(SafetyRefused);
      }
      if p !in files {
        return Some(if env.isDirectory then IsADirectory else NotFound);
      }
      if env.readFails || env.writeFails {
        return Some(ToolError);
      }
      var original := files[p];
      files := files - {p};
      changes := changes + [FileChange(p, Deleted, Some(original))];
      error := None;
    }
  }
}
