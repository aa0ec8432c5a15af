/**
 From a syntax tree to the chunks of its file: the pieces of module SyntaxWalk, the lines they are on,
 and what module Chunking keeps of them. The source is given as bytes, one character each, so that
 the parser's spans are positions in it; decoding them is left out.
 */
module FileChunks {
  import opened Basics
  import opened Texts
  import opened Chunking
  import opened SyntaxWalk

  function Newlines(s: string): nat {
    if s == "" then 0 else (if s[0] == '\n' then 1 else 0) + Newlines(s[1..])
  }

  /** The line a position is on, counted from 1. */
  function LineAt(source: string, k: nat): nat
    requires k <= |source|
  {
    1 + Newlines(source[..k])
  }

  lemma {:induction false} NewlinesAppend(a: string, b: string)
    ensures Newlines(a + b) == Newlines(a) + Newlines(b)
  {
    if a == "" {
      assert a + b == b;
    } else {
      assert (a + b)[1..] == a[1..] + b;
      NewlinesAppend(a[1..], b);
    }
  }

  lemma {:induction false} LinesAreNewlines(s: string)
    ensures |Lines(s)| == 1 + Newlines(s)
  {
    if s != "" {
      LinesAreNewlines(s[1..]);
    }
  }

  /** A span's text has exactly the lines from its first to its last position. */
  lemma SpanLines(source: string, a: nat, b: nat)
    requires a <= b <= |source|
    ensures 1 == LineAt(source, 0) <= LineAt(source, a) <= LineAt(source, b)
    ensures |Lines(source[a..b])| == LineAt(source, b) - LineAt(source, a) + 1
  {
    assert source[..b] == source[..a] + source[a..b] && source[..a] == source[..0] + source[0..a];
    NewlinesAppend(source[..0], source[0..a]);
    NewlinesAppend(source[..a], source[a..b]);
    LinesAreNewlines(source[a..b]);
  }

  // ------------------------------------------------------------------ the declarations of a file

  predicate Inside(source: string, pieces: seq<Piece>) {
    forall i :: 0 <= i < |pieces| ==> pieces[i].start <= pieces[i].end <= |source|
  }

  /** `_make_chunk`, before splitting. */
  function DeclarationOfPiece(source: string, p: Piece): Chunk
    requires p.start <= p.end <= |source|
  {
    Chunk(p.symbol, Some(p.kind), p.parent,
          Window(LineAt(source, p.start), LineAt(source, p.end), source[p.start..p.end]), Syntax)
  }

  function Declarations(source: string, pieces: seq<Piece>): (r: seq<Chunk>)
    requires Inside(source, pieces)
    ensures |r| == |pieces|
  {
    seq(|pieces|, i requires 0 <= i < |pieces| => DeclarationOfPiece(source, pieces[i]))
  }

  /** Its stated lines are as many as its text has. */
  predicate Honest(c: Chunk) {
    c.window.start <= c.window.end && |Lines(c.window.content)| == c.window.end - c.window.start + 1
  }

  predicate AllHonest(chunks: seq<Chunk>) {
    forall i :: 0 <= i < |chunks| ==> Honest(chunks[i])
  }

  /** Each chunk ends no later than the next one starts: two neighbours share at most one line. */
  predicate InLineOrder(chunks: seq<Chunk>) {
    forall i, j :: 0 <= i < j < |chunks| ==> chunks[i].window.end <= chunks[j].window.start
  }

  lemma DeclarationsInOrder(source: string, pieces: seq<Piece>, lo: nat, hi: nat)
    requires InOrder(pieces, lo, hi) && hi <= |source|
    ensures Inside(source, pieces)
    ensures InLineOrder(Declarations(source, pieces)) && AllHonest(Declarations(source, pieces))
  {
    forall i | 0 <= i < |pieces| ensures Honest(DeclarationOfPiece(source, pieces[i])) {
      SpanLines(source, pieces[i].start, pieces[i].end);
    }
    forall i, j | 0 <= i < j < |pieces| ensures LineAt(source, pieces[i].end) <= LineAt(source, pieces[j].start) {
      SpanLines(source, pieces[i].end, pieces[j].start);
    }
  }

  // ------------------------------------------------------------------ splitting keeps the order

  /** A part of a declaration: its lines are among the declaration's, and it says what it is a part of. */
  predicate PartOf(part: Chunk, whole: Chunk) {
    && whole.window.start <= part.window.start <= part.window.end <= whole.window.end
    && part.symbol == whole.symbol && part.kind == whole.kind && part.parent == whole.parent
    && HasItsLines(part.window, whole.window)
    && (part == whole || part.strategy == SyntaxSplit)
  }

  /** Its text is that of the lines it names, cut out of the declaration's text. */
  predicate HasItsLines(part: Window, whole: Window)
    requires whole.start <= part.start <= part.end
  {
    var lines := Lines(whole.content);
    && part.end - whole.start < |lines|
    && part.content == Join(lines[part.start - whole.start..part.end - whole.start + 1])
  }

  ghost predicate AllPartsOf(parts: seq<Chunk>, whole: Chunk) {
    forall i :: 0 <= i < |parts| ==> PartOf(parts[i], whole)
  }

  lemma WholeIsAPart(c: Chunk)
    requires Honest(c)
    ensures PartOf(c, c)
  {
    LinesJoinBack(c.window.content);
    assert Lines(c.window.content)[0..|Lines(c.window.content)|] == Lines(c.window.content);
  }

  lemma CutIsAPart(c: Chunk, w: Window)
    requires Honest(c) && Cuts(Lines(c.window.content), c.window.start, MAX_CHUNK_LINES, w)
    ensures PartOf(c.(window := w, strategy := SyntaxSplit), c)
  {
  }

  lemma SplitInOrder(c: Chunk)
    requires Honest(c)
    ensures AllPartsOf(Split(c), c) && InLineOrder(Split(c))
  {
    if c.LineCount() <= MAX_CHUNK_LINES {
      assert Split(c) == [c];
      WholeIsAPart(c);
    } else {
      var lines := Lines(c.window.content);
      var parts := PartsFrom(lines, c.window.start, 0);
      SplittingLosesOnlyBlankLines(c);
      assert Split(c) == WithWindow(c, parts);
      forall i | 0 <= i < |parts| ensures PartOf(Split(c)[i], c) && Split(c)[i].window == parts[i] {
        assert Cuts(lines, c.window.start, MAX_CHUNK_LINES, parts[i]);
        CutIsAPart(c, parts[i]);
      }
    }
  }

  ghost predicate FromOne(part: Chunk, declarations: seq<Chunk>) {
    exists k :: 0 <= k < |declarations| && PartOf(part, declarations[k])
  }

  /** Every part belongs to one of the declarations. */
  ghost predicate FromSome(parts: seq<Chunk>, declarations: seq<Chunk>) {
    forall i :: 0 <= i < |parts| ==> FromOne(parts[i], declarations)
  }

  lemma FromMore(parts: seq<Chunk>, declarations: seq<Chunk>, last: Chunk, more: seq<Chunk>)
    requires FromSome(parts, declarations) && AllPartsOf(more, last)
    ensures FromSome(parts + more, declarations + [last])
  {
    var all := declarations + [last];
    forall i | 0 <= i < |parts + more| ensures FromOne((parts + more)[i], all) {
      if i < |parts| {
        assert FromOne(parts[i], declarations);
        var k :| 0 <= k < |declarations| && PartOf(parts[i], declarations[k]);
        assert all[k] == declarations[k];
      } else {
        assert all[|declarations|] == last && (parts + more)[i] == more[i - |parts|];
      }
    }
  }

  lemma AppendInOrder(parts: seq<Chunk>, declarations: seq<Chunk>, last: Chunk, more: seq<Chunk>)
    requires InLineOrder(parts) && FromSome(parts, declarations) && InLineOrder(more) && AllPartsOf(more, last)
    requires forall k :: 0 <= k < |declarations| ==> declarations[k].window.end <= last.window.start
    ensures InLineOrder(parts + more)
  {
    forall i, j | 0 <= i < |parts| && 0 <= j < |more| ensures parts[i].window.end <= more[j].window.start {
      assert FromOne(parts[i], declarations);
      var k :| 0 <= k < |declarations| && PartOf(parts[i], declarations[k]);
    }
  }

  lemma {:induction false} SplitAllInOrder(declarations: seq<Chunk>)
    requires AllHonest(declarations) && InLineOrder(declarations)
    ensures InLineOrder(SplitAll(declarations)) && FromSome(SplitAll(declarations), declarations)
  {
    if declarations != [] {
      var init, last := declarations[..|declarations| - 1], declarations[|declarations| - 1];
      assert declarations == init + [last];
      SplitAllInOrder(init);
      SplitInOrder(last);
      FromMore(SplitAll(init), init, last, Split(last));
      AppendInOrder(SplitAll(init), init, last, Split(last));
    }
  }

  lemma {:induction false} KeptInOrder(chunks: seq<Chunk>)
    requires InLineOrder(chunks)
    ensures InLineOrder(Kept(chunks))
  {
    if chunks != [] {
      var init, last := chunks[..|chunks| - 1], chunks[|chunks| - 1];
      KeptInOrder(init);
      forall i | 0 <= i < |Kept(init)| ensures Kept(init)[i].window.end <= last.window.start {
        assert Kept(init)[i] in init;
      }
    }
  }

  // ------------------------------------------------------------------ no line of a named declaration is lost

  predicate Holds(chunks: seq<Chunk>, whole: Chunk, line: nat) {
    exists i :: 0 <= i < |chunks| && PartOf(chunks[i], whole) && chunks[i].window.start <= line <= chunks[i].window.end
  }

  lemma {:induction false} HeldBySome(windows: seq<Window>, line: nat)
    requires Holding(windows, line) > 0
    ensures exists i :: 0 <= i < |windows| && windows[i].start <= line <= windows[i].end
  {
    if !(windows[0].start <= line <= windows[0].end) {
      HeldBySome(windows[1..], line);
      var i :| 0 <= i < |windows[1..]| && windows[1..][i].start <= line <= windows[1..][i].end;
      assert windows[i + 1] == windows[1..][i];
    }
  }

  /** Each line of a declaration that is not blank is on one of its parts. */
  lemma SplitHolds(c: Chunk, k: nat)
    requires Honest(c) && k < |Lines(c.window.content)| && !Blank(Lines(c.window.content)[k])
    ensures Holds(Split(c), c, c.window.start + k)
  {
    SplitInOrder(c);
    if c.LineCount() <= MAX_CHUNK_LINES {
      assert Split(c)[0] == c;
    } else {
      SplittingLosesOnlyBlankLines(c);
      var parts := PartsFrom(Lines(c.window.content), c.window.start, 0);
      HeldBySome(parts, c.window.start + k);
      var i :| 0 <= i < |parts| && parts[i].start <= c.window.start + k <= parts[i].end;
      assert Split(c)[i].window == parts[i];
    }
  }

  lemma {:induction false} SplitAllHolds(declarations: seq<Chunk>, d: nat, part: Chunk)
    requires d < |declarations| && part in Split(declarations[d])
    ensures part in SplitAll(declarations)
  {
    var n := |declarations| - 1;
    assert SplitAll(declarations) == SplitAll(declarations[..n]) + Split(declarations[n]);
    if d < n {
      assert declarations[..n][d] == declarations[d];
      SplitAllHolds(declarations[..n], d, part);
    }
  }

  /** Every line that is not blank of a declaration with a name is on a chunk that is part of it. */
  lemma NamedLinesAreHeld(declarations: seq<Chunk>, chunks: seq<Chunk>, d: nat, k: nat)
    requires d < |declarations| && Honest(declarations[d]) && declarations[d].symbol.Some?
    requires k < |Lines(declarations[d].window.content)| && !Blank(Lines(declarations[d].window.content)[k])
    requires forall c :: c in SplitAll(declarations) && Worth(c) ==> c in chunks
    ensures Holds(chunks, declarations[d], declarations[d].window.start + k)
  {
    var whole, line := declarations[d], declarations[d].window.start + k;
    SplitHolds(whole, k);
    var i :| 0 <= i < |Split(whole)| && PartOf(Split(whole)[i], whole)
             && Split(whole)[i].window.start <= line <= Split(whole)[i].window.end;
    SplitAllHolds(declarations, d, Split(whole)[i]);
    assert Worth(Split(whole)[i]);
    var j :| 0 <= j < |chunks| && chunks[j] == Split(whole)[i];
  }

  /** What a file's chunks say about its declarations, one for each piece. */
  ghost predicate Represents(chunks: seq<Chunk>, declarations: seq<Chunk>) {
    && InLineOrder(chunks) && FromSome(chunks, declarations)
    && forall d, k :: 0 <= d < |declarations| && declarations[d].symbol.Some?
                      && 0 <= k < |Lines(declarations[d].window.content)|
                      && !Blank(Lines(declarations[d].window.content)[k]) ==>
         Holds(chunks, declarations[d], declarations[d].window.start + k)
  }

  lemma KeptRepresents(declarations: seq<Chunk>, chunks: seq<Chunk>)
    requires AllHonest(declarations) && InLineOrder(declarations)
    requires var all := SplitAll(declarations); chunks == if Kept(all) != [] then Kept(all) else all
    ensures Represents(chunks, declarations)
  {
    var all := SplitAll(declarations);
    SplitAllInOrder(declarations);
    KeptInOrder(all);
    forall i | 0 <= i < |chunks| ensures FromOne(chunks[i], declarations) {
      assert chunks[i] in all;
      var j :| 0 <= j < |all| && all[j] == chunks[i];
    }
    forall d, k | 0 <= d < |declarations| && declarations[d].symbol.Some?
                  && 0 <= k < |Lines(declarations[d].window.content)|
                  && !Blank(Lines(declarations[d].window.content)[k])
      ensures Holds(chunks, declarations[d], declarations[d].window.start + k)
    {
      NamedLinesAreHeld(declarations, chunks, d, k);
    }
  }

  /** The declaration says what the piece says, and has the text of its span and the lines that text is on. */
  predicate TakenFrom(source: string, p: Piece, c: Chunk) {
    && p.start <= p.end <= |source|
    && c.symbol == p.symbol && c.kind == Some(p.kind) && c.parent == p.parent
    && c.window.content == source[p.start..p.end]
    && c.window.start == LineAt(source, p.start) && c.window.end == LineAt(source, p.end)
  }

  /**
   `chunk_file` with a parser, from tree to chunks: the chunks of the pieces follow one another in the
   file and share at most a line at their borders, each is part of one piece and says which, and no
   line of a named declaration is lost unless it is blank. Only a file without declarations falls
   back to windows of lines.
   */
  method ChunkWithTree(source: string, root: Node) returns (chunks: seq<Chunk>, ghost declarations: seq<Chunk>)
    requires Nested(root) && root.end <= |source|
    ensures Inside(source, Walk(root, [], None, 0)) && declarations == Declarations(source, Walk(root, [], None, 0))
    ensures forall k :: 0 <= k < |declarations| ==> TakenFrom(source, Walk(root, [], None, 0)[k], declarations[k])
    ensures chunks == [] <==> Blank(source)
    ensures !Blank(source) && SplitAll(declarations) != [] ==> Represents(chunks, declarations)
    ensures !Blank(source) && SplitAll(declarations) == [] ==> chunks == ByLineWindows(WindowsFrom(Lines(source), 0))
  {
    var pieces := WalkTree(root, [], None, 0);
    WalkInOrder(root, [], None, 0);
    DeclarationsInOrder(source, pieces, root.start, root.end);
    declarations := Declarations(source, pieces);
    chunks := ChunkFile(source, Tree(Declarations(source, pieces)));
    if !Blank(source) && SplitAll(declarations) != [] {
      KeptRepresents(declarations, chunks);
    }
  }
}
