/**
 Line windows of backend/app/rag/chunk.py: the fallback for files without a parser, the splitting
 of oversized declarations, and the choice between them.
 */
module Chunking {
  import opened Basics
  import opened Texts

  /** Lines `start..end`, counted from 1 and inclusive, and their text. */
  datatype Window = Window(start: nat, end: nat, content: string)

  const FALLBACK_WINDOW_LINES := 80
  const FALLBACK_OVERLAP_LINES := 10
  const MAX_CHUNK_LINES := 220

  function Slice(lines: seq<string>, offset: nat, size: nat): (r: seq<string>)
    ensures |r| == if offset >= |lines| then 0 else Min(size, |lines| - offset)
    ensures forall i :: 0 <= i < |r| ==> r[i] == lines[offset + i]
  {
    if offset >= |lines| then [] else lines[offset..Min(offset + size, |lines|)]
  }

  lemma SliceIsBlank(lines: seq<string>, offset: nat, size: nat)
    ensures AllBlank(Slice(lines, offset, size)) <==>
            forall i :: offset <= i < Min(offset + size, |lines|) ==> Blank(lines[i])
  {
  }

  /** The window at an offset, its lines counted from `first`. */
  function WindowAt(lines: seq<string>, first: nat, offset: nat, size: nat): Window
    requires offset < |lines| && size > 0
  {
    var window := Slice(lines, offset, size);
    Window(first + offset, first + offset + |window| - 1, Join(window))
  }

  // ------------------------------------------------------------------ fallback windows

  const STEP := FALLBACK_WINDOW_LINES - FALLBACK_OVERLAP_LINES

  /** The windows from an offset on: blank ones are skipped, and a window that reaches the end is the last. */
  function WindowsFrom(lines: seq<string>, offset: nat): seq<Window>
    decreases |lines| - offset
  {
    if offset >= |lines| then []
    else if AllBlank(Slice(lines, offset, FALLBACK_WINDOW_LINES)) then WindowsFrom(lines, offset + STEP)
    else [WindowAt(lines, 1, offset, FALLBACK_WINDOW_LINES)]
         + if offset + FALLBACK_WINDOW_LINES >= |lines| then [] else WindowsFrom(lines, offset + STEP)
  }

  /** `_fallback_windows`: overlapping windows over the lines of a file. */
  method FallbackWindows(content: string) returns (chunks: seq<Window>)
    ensures chunks == WindowsFrom(Lines(content), 0)
  {
    var lines := Lines(content);
    chunks := [];
    var offset := 0;
    while offset < Max(|lines|, 1)
      invariant chunks + WindowsFrom(lines, offset) == WindowsFrom(lines, 0)
      decreases |lines| - offset
    {
      var window := Slice(lines, offset, FALLBACK_WINDOW_LINES);
      if AllBlank(window) {
        offset := offset + STEP;
        continue;
      }
      chunks := chunks + [Window(offset + 1, offset + |window|, Join(window))];
      if offset + FALLBACK_WINDOW_LINES >= |lines| {
        break;
      }
      offset := offset + STEP;
    }
  }

  /** How many windows hold a line, counted from 1. */
  function Holding(windows: seq<Window>, line: nat): nat {
    if windows == [] then 0
    else (if windows[0].start <= line <= windows[0].end then 1 else 0) + Holding(windows[1..], line)
  }

  /** What every window is: some lines of the file, at most `size` of them, not all blank, and exactly their text. */
  ghost predicate Cuts(lines: seq<string>, first: nat, size: nat, w: Window) {
    && first <= w.start <= w.end < first + |lines|
    && w.end - w.start < size
    && w.content == Join(lines[w.start - first..w.end - first + 1])
    && !AllBlank(lines[w.start - first..w.end - first + 1])
  }

  lemma WindowCuts(lines: seq<string>, first: nat, offset: nat, size: nat)
    requires offset < |lines| && size > 0 && !AllBlank(Slice(lines, offset, size))
    ensures Cuts(lines, first, size, WindowAt(lines, first, offset, size))
  {
  }

  /** Ends and starts strictly increase. */
  ghost predicate Advances(windows: seq<Window>) {
    forall i, j :: 0 <= i < j < |windows| ==> windows[i].start < windows[j].start && windows[i].end < windows[j].end
  }

  /** A fallback window after `offset`: it starts there or later and is full unless the file ends. */
  ghost predicate Fallback(lines: seq<string>, offset: nat, w: Window) {
    && Cuts(lines, 1, FALLBACK_WINDOW_LINES, w)
    && w.start > offset
    && w.end == Min(w.start + FALLBACK_WINDOW_LINES - 1, |lines|)
  }

  ghost predicate AllFallback(lines: seq<string>, offset: nat, ws: seq<Window>) {
    forall i :: 0 <= i < |ws| ==> Fallback(lines, offset, ws[i])
  }

  lemma FirstIsFallback(lines: seq<string>, offset: nat, rest: seq<Window>)
    requires offset < |lines| && !AllBlank(Slice(lines, offset, FALLBACK_WINDOW_LINES))
    requires Advances(rest) && AllFallback(lines, offset + STEP, rest)
    requires rest != [] ==> offset + FALLBACK_WINDOW_LINES < |lines|
    ensures var ws := [WindowAt(lines, 1, offset, FALLBACK_WINDOW_LINES)] + rest;
            Advances(ws) && AllFallback(lines, offset, ws)
  {
    WindowCuts(lines, 1, offset, FALLBACK_WINDOW_LINES);
    var w := WindowAt(lines, 1, offset, FALLBACK_WINDOW_LINES);
    forall i | 0 <= i < |rest|
      ensures Fallback(lines, offset, rest[i]) && rest[i].start > w.start && rest[i].end > w.end
    {
      assert Fallback(lines, offset + STEP, rest[i]);
    }
  }

  lemma {:induction false} WindowsCutAndAdvance(lines: seq<string>, offset: nat)
    ensures Advances(WindowsFrom(lines, offset)) && AllFallback(lines, offset, WindowsFrom(lines, offset))
    decreases |lines| - offset
  {
    if offset < |lines| {
      WindowsCutAndAdvance(lines, offset + STEP);
      var rest := WindowsFrom(lines, offset + STEP);
      if AllBlank(Slice(lines, offset, FALLBACK_WINDOW_LINES)) {
        forall i | 0 <= i < |rest| ensures Fallback(lines, offset, rest[i]) {
          assert Fallback(lines, offset + STEP, rest[i]);
        }
      } else {
        FirstIsFallback(lines, offset, if offset + FALLBACK_WINDOW_LINES >= |lines| then [] else rest);
      }
    }
  }

  lemma HoldingFirst(lines: seq<string>, offset: nat, line: nat)
    requires offset < |lines| && !AllBlank(Slice(lines, offset, FALLBACK_WINDOW_LINES))
    ensures var rest := if offset + FALLBACK_WINDOW_LINES >= |lines| then [] else WindowsFrom(lines, offset + STEP);
            Holding(WindowsFrom(lines, offset), line)
            == (if offset < line <= Min(offset + FALLBACK_WINDOW_LINES, |lines|) then 1 else 0) + Holding(rest, line)
  {
  }

  lemma {:induction false} NoWindowBefore(lines: seq<string>, offset: nat, line: nat)
    requires line <= offset
    ensures Holding(WindowsFrom(lines, offset), line) == 0
    decreases |lines| - offset
  {
    if offset < |lines| {
      NoWindowBefore(lines, offset + STEP, line);
      if !AllBlank(Slice(lines, offset, FALLBACK_WINDOW_LINES)) {
        HoldingFirst(lines, offset, line);
      }
    }
  }

  /**
   A non-blank line beyond `offset` is in one or two of the windows from there; in one only, if it is before
   the next offset.
   */
  lemma {:induction false} NonBlankLineIsHeld(lines: seq<string>, offset: nat, line: nat)
    requires offset < line <= |lines| && !Blank(lines[line - 1])
    ensures 1 <= Holding(WindowsFrom(lines, offset), line) <= 2
    ensures line <= offset + STEP ==> Holding(WindowsFrom(lines, offset), line) == 1
    decreases |lines| - offset
  {
    var window := Slice(lines, offset, FALLBACK_WINDOW_LINES);
    SliceIsBlank(lines, offset, FALLBACK_WINDOW_LINES);
    if AllBlank(window) {
      NonBlankLineIsHeld(lines, offset + STEP, line);
    } else {
      HoldingFirst(lines, offset, line);
      if line <= offset + STEP {
        NoWindowBefore(lines, offset + STEP, line);
      } else if offset + FALLBACK_WINDOW_LINES < |lines| {
        NonBlankLineIsHeld(lines, offset + STEP, line);
      }
    }
  }

  /** Windows start every seventy lines, and reach eighty lines or the end of the file. */
  ghost predicate OnTheGrid(lines: seq<string>, w: Window) {
    w.start > 0 && (w.start - 1) % 70 == 0 && w.end == Min(w.start + 79, |lines|)
  }

  lemma {:induction false} WindowsOnTheGrid(lines: seq<string>, offset: nat)
    requires offset % 70 == 0
    ensures forall i :: 0 <= i < |WindowsFrom(lines, offset)| ==> OnTheGrid(lines, WindowsFrom(lines, offset)[i])
    decreases |lines| - offset
  {
    if offset < |lines| {
      WindowsOnTheGrid(lines, offset + STEP);
      if !AllBlank(Slice(lines, offset, FALLBACK_WINDOW_LINES)) {
        assert OnTheGrid(lines, WindowAt(lines, 1, offset, FALLBACK_WINDOW_LINES));
      }
    }
  }

  /**
   Fallback windows of any file: each is exactly its stated lines, at most 80 of them and not all
   blank; starts and ends strictly increase; and every non-blank line is in one or two windows.
   */
  lemma FallbackWindowsCover(content: string)
    ensures var lines, ws := Lines(content), WindowsFrom(Lines(content), 0);
            && Advances(ws) && AllFallback(lines, 0, ws)
            && (forall i :: 0 <= i < |ws| ==> OnTheGrid(lines, ws[i]))
            && (forall n :: 1 <= n <= |lines| && !Blank(lines[n - 1]) ==> 1 <= Holding(ws, n) <= 2)
            && (ws == [] <==> Blank(content))
  {
    var lines, ws := Lines(content), WindowsFrom(Lines(content), 0);
    WindowsCutAndAdvance(lines, 0);
    WindowsOnTheGrid(lines, 0);
    forall n | 1 <= n <= |lines| && !Blank(lines[n - 1]) ensures 1 <= Holding(ws, n) <= 2 {
      NonBlankLineIsHeld(lines, 0, n);
    }
    BlankByLines(content);
    if ws != [] {
      assert Fallback(lines, 0, ws[0]);
      var cut := lines[ws[0].start - 1..ws[0].end];
      var i :| 0 <= i < |cut| && !Blank(cut[i]);
      assert cut[i] == lines[ws[0].start - 1 + i];
    }
    if !Blank(content) {
      var i :| 0 <= i < |lines| && !Blank(lines[i]);
      assert !Blank(lines[(i + 1) - 1]);
      assert 1 <= Holding(ws, i + 1);
    }
  }

  // ------------------------------------------------------------------ oversized declarations

  datatype Strategy = Syntax | SyntaxSplit | ByLines

  /** A chunk: what it declares, if anything, its lines and their text. */
  datatype Chunk = Chunk(symbol: Option<string>, kind: Option<string>, parent: Option<string>, window: Window,
                         strategy: Strategy)
  {
    function LineCount(): int {
      window.end - window.start + 1
    }
  }

  function PartsFrom(lines: seq<string>, first: nat, offset: nat): seq<Window>
    decreases |lines| - offset
  {
    if offset >= |lines| then []
    else
      (if AllBlank(Slice(lines, offset, MAX_CHUNK_LINES)) then []
       else [WindowAt(lines, first, offset, MAX_CHUNK_LINES)])
      + PartsFrom(lines, first, offset + MAX_CHUNK_LINES)
  }

  function WithWindow(chunk: Chunk, windows: seq<Window>): (r: seq<Chunk>)
    ensures |r| == |windows|
  {
    seq(|windows|, i requires 0 <= i < |windows| => chunk.(window := windows[i], strategy := SyntaxSplit))
  }

  /** The parts found up to an offset. */
  ghost predicate CutSoFar(lines: seq<string>, first: nat, offset: nat, windows: seq<Window>) {
    windows + PartsFrom(lines, first, offset) == PartsFrom(lines, first, 0)
  }

  lemma Associates(a: seq<Window>, b: seq<Window>, c: seq<Window>)
    ensures a + b + c == a + (b + c)
  {
  }

  lemma NextPart(lines: seq<string>, first: nat, offset: nat, windows: seq<Window>, more: seq<Window>)
    requires offset < |lines| && CutSoFar(lines, first, offset, windows)
    requires more == if AllBlank(Slice(lines, offset, MAX_CHUNK_LINES)) then []
                     else [WindowAt(lines, first, offset, MAX_CHUNK_LINES)]
    ensures CutSoFar(lines, first, offset + MAX_CHUNK_LINES, windows + more)
  {
    Associates(windows, more, PartsFrom(lines, first, offset + MAX_CHUNK_LINES));
  }

  lemma CutAll(lines: seq<string>, first: nat, offset: nat, windows: seq<Window>)
    ensures CutSoFar(lines, first, 0, [])
    ensures offset >= |lines| && CutSoFar(lines, first, offset, windows) ==> windows == PartsFrom(lines, first, 0)
  {
    assert [] + PartsFrom(lines, first, 0) == PartsFrom(lines, first, 0);
    assert windows + [] == windows;
  }

  /** The loop of `_split_oversized`. */
  method CutParts(lines: seq<string>, first: nat) returns (windows: seq<Window>)
    ensures windows == PartsFrom(lines, first, 0)
  {
    windows := [];
    var offset := 0;
    CutAll(lines, first, 0, windows);
    while offset < |lines|
      invariant CutSoFar(lines, first, offset, windows)
      decreases |lines| - offset
    {
      var window := Slice(lines, offset, MAX_CHUNK_LINES);
      var more := if AllBlank(window) then []
                  else [Window(first + offset, first + offset + |window| - 1, Join(window))];
      NextPart(lines, first, offset, windows, more);
      windows := windows + more;
      offset := offset + MAX_CHUNK_LINES;
    }
    CutAll(lines, first, offset, windows);
  }

  /** `_split_oversized`: one declaration stays one chunk up to 220 lines. */
  method SplitOversized(chunk: Chunk) returns (parts: seq<Chunk>)
    ensures parts == Split(chunk)
    ensures chunk.window.end - chunk.window.start < 220 ==> parts == [chunk]
  {
    if chunk.LineCount() <= MAX_CHUNK_LINES {
      return [chunk];
    }
    var windows := CutParts(Lines(chunk.window.content), chunk.window.start);
    parts := WithWindow(chunk, windows);
  }

  function Split(chunk: Chunk): seq<Chunk> {
    if chunk.LineCount() <= MAX_CHUNK_LINES then [chunk]
    else WithWindow(chunk, PartsFrom(Lines(chunk.window.content), chunk.window.start, 0))
  }

  /** Parts follow one another without overlap. */
  ghost predicate Disjoint(parts: seq<Window>) {
    forall i, j :: 0 <= i < j < |parts| ==> parts[i].end < parts[j].start
  }

  ghost predicate AllCut(lines: seq<string>, first: nat, offset: nat, parts: seq<Window>) {
    forall i :: 0 <= i < |parts| ==> Cuts(lines, first, MAX_CHUNK_LINES, parts[i]) && parts[i].start >= first + offset
  }

  lemma {:induction false} PartsAreDisjoint(lines: seq<string>, first: nat, offset: nat)
    ensures Disjoint(PartsFrom(lines, first, offset)) && AllCut(lines, first, offset, PartsFrom(lines, first, offset))
    decreases |lines| - offset
  {
    if offset < |lines| {
      PartsAreDisjoint(lines, first, offset + MAX_CHUNK_LINES);
      if !AllBlank(Slice(lines, offset, MAX_CHUNK_LINES)) {
        WindowCuts(lines, first, offset, MAX_CHUNK_LINES);
      }
    }
  }

  /** Every non-blank line from `offset` on is in exactly one part. */
  lemma {:induction false} NonBlankLineIsInOnePart(lines: seq<string>, first: nat, offset: nat, i: nat)
    requires i < |lines| && !Blank(lines[i])
    ensures Holding(PartsFrom(lines, first, offset), first + i) == if i < offset then 0 else 1
    decreases |lines| - offset
  {
    if offset < |lines| {
      var window := Slice(lines, offset, MAX_CHUNK_LINES);
      var rest := PartsFrom(lines, first, offset + MAX_CHUNK_LINES);
      NonBlankLineIsInOnePart(lines, first, offset + MAX_CHUNK_LINES, i);
      SliceIsBlank(lines, offset, MAX_CHUNK_LINES);
      if AllBlank(window) {
        assert PartsFrom(lines, first, offset) == rest;
      } else {
        assert PartsFrom(lines, first, offset) == [WindowAt(lines, first, offset, MAX_CHUNK_LINES)] + rest;
        assert PartsFrom(lines, first, offset)[1..] == rest;
      }
    }
  }

  /** Parts start every 220 lines of the declaration, and reach 220 lines or its end. */
  ghost predicate EveryTwoHundredTwenty(lines: seq<string>, first: nat, w: Window) {
    w.start >= first && (w.start - first) % 220 == 0 && w.end == Min(w.start + 219, first + |lines| - 1)
  }

  ghost predicate AllOnTheGrid(lines: seq<string>, first: nat, parts: seq<Window>) {
    forall i :: 0 <= i < |parts| ==> EveryTwoHundredTwenty(lines, first, parts[i])
  }

  lemma {:induction false} PartsOnTheGrid(lines: seq<string>, first: nat, offset: nat)
    requires offset % 220 == 0
    ensures AllOnTheGrid(lines, first, PartsFrom(lines, first, offset))
    decreases |lines| - offset
  {
    if offset < |lines| {
      PartsOnTheGrid(lines, first, offset + MAX_CHUNK_LINES);
      if !AllBlank(Slice(lines, offset, MAX_CHUNK_LINES)) {
        assert EveryTwoHundredTwenty(lines, first, WindowAt(lines, first, offset, MAX_CHUNK_LINES));
      }
    }
  }

  /**
   Splitting an oversized declaration gives disjoint spans of at most 220 lines, each exactly its
   text, that leave out only blank windows: every non-blank line is in exactly one part.
   */
  lemma SplittingLosesOnlyBlankLines(chunk: Chunk)
    requires chunk.window.end - chunk.window.start >= 220
    ensures var lines := Lines(chunk.window.content);
            var parts := PartsFrom(lines, chunk.window.start, 0);
            && Split(chunk) == WithWindow(chunk, parts)
            && Disjoint(parts) && AllCut(lines, chunk.window.start, 0, parts)
            && AllOnTheGrid(lines, chunk.window.start, parts)
            && EachInOnePart(lines, chunk.window.start, parts)
  {
    var lines := Lines(chunk.window.content);
    PartsAreDisjoint(lines, chunk.window.start, 0);
    PartsOnTheGrid(lines, chunk.window.start, 0);
    LinesAreInOnePart(lines, chunk.window.start);
  }

  /** Every line that is not blank is in exactly one of the parts. */
  ghost predicate EachInOnePart(lines: seq<string>, first: nat, parts: seq<Window>) {
    forall i :: 0 <= i < |lines| && !Blank(lines[i]) ==> Holding(parts, first + i) == 1
  }

  lemma LinesAreInOnePart(lines: seq<string>, first: nat)
    ensures EachInOnePart(lines, first, PartsFrom(lines, first, 0))
  {
    forall i | 0 <= i < |lines| && !Blank(lines[i]) ensures Holding(PartsFrom(lines, first, 0), first + i) == 1 {
      NonBlankLineIsInOnePart(lines, first, 0, i);
    }
  }

  // ------------------------------------------------------------------ one file

  const MIN_UNNAMED_CHUNK_LINES := 3

  /** What the parser made of a file: nothing, or the declarations of its syntax tree in walk order. */
  datatype Parsed = NoTree | Tree(declarations: seq<Chunk>)

  function ByLineWindows(windows: seq<Window>): (r: seq<Chunk>)
    ensures |r| == |windows|
  {
    seq(|windows|, i requires 0 <= i < |windows| => Chunk(None, None, None, windows[i], ByLines))
  }

  function SplitAll(declarations: seq<Chunk>): seq<Chunk> {
    if declarations == [] then []
    else SplitAll(declarations[..|declarations| - 1]) + Split(declarations[|declarations| - 1])
  }

  /** Named chunks are always worth keeping, unnamed ones from three lines on. */
  predicate Worth(c: Chunk) {
    c.symbol.Some? || c.LineCount() >= MIN_UNNAMED_CHUNK_LINES
  }

  function Kept(chunks: seq<Chunk>): (r: seq<Chunk>)
    ensures forall c :: c in r <==> c in chunks && Worth(c)
    ensures forall c :: Worth(c) ==> multiset(r)[c] == multiset(chunks)[c]
  {
    if chunks == [] then []
    else
      var init, last := chunks[..|chunks| - 1], chunks[|chunks| - 1];
      assert chunks == init + [last];
      if Worth(last) then Kept(init) + [last] else Kept(init)
  }

  /**
   `chunk_file`: a file with a non-blank character always yields a chunk, whatever the parser
   does; no part of a named declaration is ever dropped, and unnamed fragments only when
   something else is kept.
   */
  method ChunkFile(content: string, parsed: Parsed) returns (chunks: seq<Chunk>)
    ensures chunks == [] <==> Blank(content)
    ensures !Blank(content) && parsed.Tree? && SplitAll(parsed.declarations) != [] ==>
              && (forall c :: c in chunks ==> c in SplitAll(parsed.declarations))
              && (forall c :: c in SplitAll(parsed.declarations) && Worth(c) ==> c in chunks)
              && (forall c :: c in SplitAll(parsed.declarations) ==>
                    c in chunks || (c.symbol.None? && c.window.end - c.window.start < 2))
              && ((exists c :: c in chunks && !Worth(c)) ==> chunks == SplitAll(parsed.declarations))
    ensures !Blank(content) && parsed.Tree? && SplitAll(parsed.declarations) != [] ==>
              var all := SplitAll(parsed.declarations);
              chunks == if Kept(all) != [] then Kept(all) else all
    ensures !Blank(content) && (parsed.NoTree? || SplitAll(parsed.declarations) == []) ==>
              && chunks == ByLineWindows(WindowsFrom(Lines(content), 0))
              && forall i :: 0 <= i < |chunks| ==>
                   && chunks[i].symbol.None? && chunks[i].kind.None? && chunks[i].parent.None?
                   && chunks[i].window == WindowsFrom(Lines(content), 0)[i]
  {
    if Blank(content) {
      return [];
    }
    FallbackWindowsCover(content);
    if parsed.NoTree? {
      var windows := FallbackWindows(content);
      return ByLineWindows(windows);
    }
    chunks := [];
    for i := 0 to |parsed.declarations|
      invariant chunks == SplitAll(parsed.declarations[..i])
    {
      assert parsed.declarations[..i + 1][..i] == parsed.declarations[..i];
      var parts := SplitOversized(parsed.declarations[i]);
      chunks := chunks + parts;
    }
    assert parsed.declarations[..|parsed.declarations|] == parsed.declarations;
    if chunks == [] {
      var windows := FallbackWindows(content);
      return ByLineWindows(windows);
    }
    var kept := Kept(chunks);
    if kept != [] {
      chunks := kept;
    }
  }
}
