/**
 Incremental indexing of backend/app/rag/indexer.py: unchanged files are copied forward from the
 previous snapshot with their vectors, everything else is chunked and embedded again. Chunker and
 embedding provider are arbitrary functions; the result must not depend on the shortcut taken.
 */
module Indexing {
  import opened Basics
  import opened Texts

  type Content = string
  type Vector = seq<real>
  type ModelName = string

  /** Everything a chunk row holds besides its path: symbol, span, text and so on. */
  type Fragment = string

  type Chunker = (Path, Content) -> seq<Fragment>
  type Embedder = (ModelName, Path, Fragment) -> Vector

  datatype Scanned = Scanned(path: Path, content: Content)
  datatype FileRow = FileRow(path: Path, hash: Digest, chunkCount: nat)
  datatype Embedding = Embedding(model: ModelName, vector: Vector)
  datatype ChunkRow = ChunkRow(path: Path, fragment: Fragment, embeddings: seq<Embedding>)
  datatype Snapshot = Snapshot(files: seq<FileRow>, chunks: seq<ChunkRow>)

  datatype IndexResult = IndexResult(
    filesIndexed: nat, filesReused: nat, chunksCreated: nat, chunksReused: nat,
    embeddingsCreated: nat, embeddingsReused: nat)

  const LOOKUP_BATCH := 400

  // ------------------------------------------------------------------ what a snapshot holds

  /** What retrieval can find for a path: each chunk with its vectors, as a multiset. */
  ghost function Held(rows: seq<ChunkRow>, p: Path): multiset<(Fragment, seq<Embedding>)> {
    if rows == [] then multiset{}
    else (if rows[0].path == p then multiset{(rows[0].fragment, rows[0].embeddings)} else multiset{})
         + Held(rows[1..], p)
  }

  ghost function Fragments(rows: seq<ChunkRow>, p: Path): multiset<Fragment> {
    if rows == [] then multiset{}
    else (if rows[0].path == p then multiset{rows[0].fragment} else multiset{}) + Fragments(rows[1..], p)
  }

  /** What indexing a text from scratch would hold for it. */
  ghost function Wanted(e: Embedder, model: ModelName, p: Path, fragments: seq<Fragment>)
    : multiset<(Fragment, seq<Embedding>)>
  {
    if fragments == [] then multiset{}
    else multiset{(fragments[0], [Embedding(model, e(model, p, fragments[0]))])} + Wanted(e, model, p, fragments[1..])
  }

  function FreshRows(e: Embedder, model: ModelName, p: Path, fragments: seq<Fragment>): (rows: seq<ChunkRow>)
    ensures |rows| == |fragments|
    ensures forall i :: 0 <= i < |rows| ==>
              rows[i] == ChunkRow(p, fragments[i], [Embedding(model, e(model, p, fragments[i]))])
  {
    seq(|fragments|, i requires 0 <= i < |fragments| =>
          ChunkRow(p, fragments[i], [Embedding(model, e(model, p, fragments[i]))]))
  }

  lemma {:induction false} HeldAppends(a: seq<ChunkRow>, b: seq<ChunkRow>, p: Path)
    ensures Held(a + b, p) == Held(a, p) + Held(b, p)
  {
    if a == [] {
      assert a + b == b;
    } else {
      assert (a + b)[1..] == a[1..] + b;
      HeldAppends(a[1..], b, p);
    }
  }

  lemma {:induction false} HeldElsewhere(rows: seq<ChunkRow>, p: Path)
    requires forall i :: 0 <= i < |rows| ==> rows[i].path != p
    ensures Held(rows, p) == multiset{}
  {
    if rows != [] {
      HeldElsewhere(rows[1..], p);
    }
  }

  lemma {:induction false} FreshRowsHoldTheWanted(e: Embedder, model: ModelName, p: Path, fragments: seq<Fragment>)
    ensures Held(FreshRows(e, model, p, fragments), p) == Wanted(e, model, p, fragments)
  {
    if fragments != [] {
      assert FreshRows(e, model, p, fragments)[1..] == FreshRows(e, model, p, fragments[1..]);
      FreshRowsHoldTheWanted(e, model, p, fragments[1..]);
    }
  }

  /** The wanted contents depend on the fragments as a multiset only. */
  lemma {:induction false} WantedCounts(e: Embedder, model: ModelName, p: Path, fragments: seq<Fragment>, f: Fragment,
                                        v: seq<Embedding>)
    ensures Wanted(e, model, p, fragments)[(f, v)]
            == if v == [Embedding(model, e(model, p, f))] then multiset(fragments)[f] else 0
  {
    if fragments != [] {
      assert fragments == [fragments[0]] + fragments[1..];
      WantedCounts(e, model, p, fragments[1..], f, v);
    }
  }

  /** The rows at `p` all carry exactly the current model's right vector. */
  ghost predicate AllCurrent(e: Embedder, model: ModelName, rows: seq<ChunkRow>, p: Path) {
    forall i :: 0 <= i < |rows| && rows[i].path == p ==>
      rows[i].embeddings == [Embedding(model, e(model, p, rows[i].fragment))]
  }

  lemma {:induction false} CurrentRowsCount(e: Embedder, model: ModelName, rows: seq<ChunkRow>, p: Path, f: Fragment,
                                            v: seq<Embedding>)
    requires AllCurrent(e, model, rows, p)
    ensures Held(rows, p)[(f, v)] == if v == [Embedding(model, e(model, p, f))] then Fragments(rows, p)[f] else 0
  {
    if rows != [] {
      CurrentRowsCount(e, model, rows[1..], p, f, v);
    }
  }

  /** Rows that are all current and have the right fragments hold exactly what is wanted. */
  lemma CurrentRowsHoldTheWanted(e: Embedder, model: ModelName, rows: seq<ChunkRow>, p: Path, fragments: seq<Fragment>)
    requires AllCurrent(e, model, rows, p) && Fragments(rows, p) == multiset(fragments)
    ensures Held(rows, p) == Wanted(e, model, p, fragments)
  {
    forall x: (Fragment, seq<Embedding>) ensures Held(rows, p)[x] == Wanted(e, model, p, fragments)[x] {
      CurrentRowsCount(e, model, rows, p, x.0, x.1);
      WantedCounts(e, model, p, fragments, x.0, x.1);
    }
  }

  // ------------------------------------------------------------------ the previous snapshot

  ghost predicate UniquePaths(files: seq<FileRow>) {
    forall i, j :: 0 <= i < j < |files| ==> files[i].path != files[j].path
  }

  ghost predicate RowConsistent(e: Embedder, r: ChunkRow) {
    && (forall i, j :: 0 <= i < j < |r.embeddings| ==> r.embeddings[i].model != r.embeddings[j].model)
    && (forall i :: 0 <= i < |r.embeddings| ==> r.embeddings[i].vector == e(r.embeddings[i].model, r.path, r.fragment))
  }

  ghost predicate FileConsistent(c: Chunker, f: FileRow, rows: seq<ChunkRow>) {
    && f.chunkCount == |c(f.path, f.hash.text)|
    && (Fragments(rows, f.path) == multiset{} || Fragments(rows, f.path) == multiset(c(f.path, f.hash.text)))
  }

  /**
   What may be left of a snapshot: the chunk rows of a file are all there or all gone, vectors
   may be missing or belong to other models, and those that are there are the model's own.
   */
  ghost predicate Consistent(c: Chunker, e: Embedder, s: Snapshot) {
    && UniquePaths(s.files)
    && (forall i :: 0 <= i < |s.files| ==> FileConsistent(c, s.files[i], s.chunks))
    && (forall i :: 0 <= i < |s.chunks| ==> RowConsistent(e, s.chunks[i]))
  }

  /** The file row of a path, if the snapshot has one. */
  function FileAt(files: seq<FileRow>, p: Path): (r: Option<FileRow>)
    ensures r.Some? ==> r.value in files && r.value.path == p
    ensures r.None? ==> forall i :: 0 <= i < |files| ==> files[i].path != p
  {
    if files == [] then None
    else if files[0].path == p then Some(files[0])
    else FileAt(files[1..], p)
  }

  // ------------------------------------------------------------------ workspace.changed_files

  ghost predicate DistinctPaths(scan: seq<Scanned>) {
    forall i, j :: 0 <= i < j < |scan| ==> scan[i].path != scan[j].path
  }

  predicate Unchanged(previous: Option<Snapshot>, f: Scanned) {
    previous.Some? && match FileAt(previous.value.files, f.path)
    case None => false
    case Some(row) => row.hash == Sha256(f.content)
  }

  /** The scanned files that are unchanged, or those that are not, in scan order. */
  function Select(previous: Option<Snapshot>, scan: seq<Scanned>, want: bool): (r: seq<Scanned>)
    ensures forall f :: f in r <==> f in scan && Unchanged(previous, f) == want
    ensures DistinctPaths(scan) ==> DistinctPaths(r)
  {
    if scan == [] then []
    else
      var last := scan[|scan| - 1];
      var rest := Select(previous, scan[..|scan| - 1], want);
      assert scan == scan[..|scan| - 1] + [last];
      assert DistinctPaths(scan) ==> forall i :: 0 <= i < |rest| ==> rest[i].path != last.path by {
        forall i | DistinctPaths(scan) && 0 <= i < |rest| ensures rest[i].path != last.path {
          assert rest[i] in rest;
          var k :| 0 <= k < |scan| - 1 && scan[k] == rest[i];
        }
      }
      if Unchanged(previous, last) == want then rest + [last] else rest
  }

  lemma {:induction false} SelectPartitions(previous: Option<Snapshot>, scan: seq<Scanned>)
    ensures |Select(previous, scan, false)| + |Select(previous, scan, true)| == |scan|
  {
    if scan != [] {
      SelectPartitions(previous, scan[..|scan| - 1]);
    }
  }

  /** `changed_files`: the added or modified files, and the unchanged ones. */
  function ChangedFiles(previous: Option<Snapshot>, scan: seq<Scanned>): (r: (seq<Scanned>, seq<Scanned>))
    ensures |r.0| + |r.1| == |scan|
    ensures forall f :: f in r.0 <==> f in scan && !Unchanged(previous, f)
    ensures forall f :: f in r.1 <==> f in scan && Unchanged(previous, f)
    ensures DistinctPaths(scan) ==> DistinctPaths(r.0) && DistinctPaths(r.1)
  {
    SelectPartitions(previous, scan);
    (Select(previous, scan, false), Select(previous, scan, true))
  }

  /** `_batched`: slices of at most 400, which together are the list. */
  function Batched<T>(items: seq<T>): (batches: seq<seq<T>>)
    ensures forall i :: 0 <= i < |batches| ==> 0 < |batches[i]| <= 400
    ensures forall i :: 0 <= i < |batches| - 1 ==> |batches[i]| == 400
    ensures Concat(batches) == items
    decreases |items|
  {
    if items == [] then []
    else
      var n := Min(LOOKUP_BATCH, |items|);
      assert items == items[..n] + items[n..];
      [items[..n]] + Batched(items[n..])
  }

  function Concat<T>(batches: seq<seq<T>>): seq<T> {
    if batches == [] then [] else batches[0] + Concat(batches[1..])
  }

  // ------------------------------------------------------------------ the outer join

  /** One joined row: a chunk with one of its embeddings, or with none. */
  type Pair = (ChunkRow, Option<Embedding>)

  function Joined(r: ChunkRow): seq<Pair> {
    if r.embeddings == [] then [(r, None)]
    else seq(|r.embeddings|, i requires 0 <= i < |r.embeddings| => (r, Some(r.embeddings[i])))
  }

  /** The left join of the previous snapshot's chunks with their vectors, for the paths of one batch. */
  function JoinRows(chunks: seq<ChunkRow>, batch: seq<Path>): seq<Pair> {
    if chunks == [] then []
    else
      var last := chunks[|chunks| - 1];
      JoinRows(chunks[..|chunks| - 1], batch) + (if last.path in batch then Joined(last) else [])
  }

  /** An embedding is usable only if it is the current model's. */
  function Usable(pair: Pair, model: ModelName): Pair {
    (pair.0, if pair.1.Some? && pair.1.value.model == model then pair.1 else None)
  }

  function PairsAt(rows: seq<Pair>, model: ModelName, p: Path): seq<Pair> {
    if rows == [] then []
    else
      var last := rows[|rows| - 1];
      PairsAt(rows[..|rows| - 1], model, p) + (if last.0.path == p then [Usable(last, model)] else [])
  }

  lemma {:induction false} PairsAtAppends(a: seq<Pair>, b: seq<Pair>, model: ModelName, p: Path)
    ensures PairsAt(a + b, model, p) == PairsAt(a, model, p) + PairsAt(b, model, p)
  {
    if b == [] {
      assert a + b == a;
    } else {
      assert (a + b)[..|a + b| - 1] == a + b[..|b| - 1];
      PairsAtAppends(a, b[..|b| - 1], model, p);
    }
  }

  predicate AllUsable(pairs: seq<Pair>) {
    forall i :: 0 <= i < |pairs| ==> pairs[i].1.Some?
  }

  /** The rows written for reused pairs. */
  function Copies(pairs: seq<Pair>): (rows: seq<ChunkRow>)
    requires AllUsable(pairs)
    ensures |rows| == |pairs|
  {
    seq(|pairs|, i requires 0 <= i < |pairs| => Copy(pairs[i]))
  }

  function Copy(pair: Pair): ChunkRow
    requires pair.1.Some?
  {
    ChunkRow(pair.0.path, pair.0.fragment, [Embedding(pair.1.value.model, pair.1.value.vector)])
  }

  lemma {:induction false} FragmentsAppend(a: seq<ChunkRow>, b: seq<ChunkRow>, p: Path)
    ensures Fragments(a + b, p) == Fragments(a, p) + Fragments(b, p)
  {
    if a == [] {
      assert a + b == b;
    } else {
      assert (a + b)[1..] == a[1..] + b;
      FragmentsAppend(a[1..], b, p);
    }
  }

  /** Every chunk of the path has vectors, and none of another model; and there is a chunk at all. */
  ghost predicate Covered(chunks: seq<ChunkRow>, model: ModelName, p: Path) {
    HasChunk(chunks, p) && RowsCovered(chunks, model, p)
  }

  ghost predicate RowCovered(r: ChunkRow, model: ModelName) {
    r.embeddings != [] && forall j :: 0 <= j < |r.embeddings| ==> r.embeddings[j].model == model
  }

  lemma {:induction false} PairsAtElements(rows: seq<Pair>, model: ModelName, p: Path)
    requires forall i :: 0 <= i < |rows| ==> rows[i].0.path == p
    ensures |PairsAt(rows, model, p)| == |rows|
    ensures forall i :: 0 <= i < |rows| ==> PairsAt(rows, model, p)[i] == Usable(rows[i], model)
  {
    if rows != [] {
      PairsAtElements(rows[..|rows| - 1], model, p);
    }
  }

  lemma OneRowCovered(r: ChunkRow, model: ModelName)
    ensures PairsAt(Joined(r), model, r.path) != []
    ensures AllUsable(PairsAt(Joined(r), model, r.path)) <==> RowCovered(r, model)
  {
    PairsAtElements(Joined(r), model, r.path);
    if r.embeddings != [] && AllUsable(PairsAt(Joined(r), model, r.path)) {
      forall j | 0 <= j < |r.embeddings| ensures r.embeddings[j].model == model {
        assert PairsAt(Joined(r), model, r.path)[j].1.Some?;
      }
    }
  }

  /** The pairs of one chunk are all usable only if it has exactly one embedding, the current model's. */
  lemma OneRowReused(e: Embedder, r: ChunkRow, model: ModelName)
    requires RowConsistent(e, r) && AllUsable(PairsAt(Joined(r), model, r.path))
    ensures PairsAt(Joined(r), model, r.path) == [(r, Some(Embedding(model, e(model, r.path, r.fragment))))]
  {
    OneRowCovered(r, model);
    PairsAtElements(Joined(r), model, r.path);
    var n := |r.embeddings|;
    assert r.embeddings[0].model == model == r.embeddings[n - 1].model;
    assert n == 1;
  }

  lemma {:induction false} OtherRowSkipped(rows: seq<Pair>, model: ModelName, p: Path)
    requires forall i :: 0 <= i < |rows| ==> rows[i].0.path != p
    ensures PairsAt(rows, model, p) == []
  {
    if rows != [] {
      OtherRowSkipped(rows[..|rows| - 1], model, p);
    }
  }

  /** Rows that stand in for `source` at a path: same fragments, right vectors. */
  ghost predicate StandIn(e: Embedder, model: ModelName, copies: seq<ChunkRow>, source: seq<ChunkRow>, p: Path) {
    && Fragments(copies, p) == Fragments(source, p)
    && AllCurrent(e, model, copies, p)
    && forall i :: 0 <= i < |copies| ==> copies[i].path == p
  }

  lemma StandInAppends(e: Embedder, model: ModelName, a: seq<ChunkRow>, b: seq<ChunkRow>, sa: seq<ChunkRow>,
                       sb: seq<ChunkRow>, p: Path)
    requires StandIn(e, model, a, sa, p) && StandIn(e, model, b, sb, p)
    ensures StandIn(e, model, a + b, sa + sb, p)
  {
    FragmentsAppend(a, b, p);
    FragmentsAppend(sa, sb, p);
  }

  lemma OneRowStandsIn(e: Embedder, r: ChunkRow, batch: seq<Path>, model: ModelName, p: Path)
    requires p in batch && RowConsistent(e, r)
    requires AllUsable(PairsAt(if r.path in batch then Joined(r) else [], model, p))
    ensures StandIn(e, model, Copies(PairsAt(if r.path in batch then Joined(r) else [], model, p)), [r], p)
  {
    if r.path == p {
      OneRowReused(e, r, model);
      var copies := Copies(PairsAt(Joined(r), model, p));
      assert copies == [ChunkRow(p, r.fragment, [Embedding(model, e(model, p, r.fragment))])];
      assert copies[1..] == [];
    } else if r.path in batch {
      OtherRowSkipped(Joined(r), model, p);
    }
    assert [r][1..] == [];
  }

  lemma SplitCopies(a: seq<Pair>, b: seq<Pair>)
    requires AllUsable(a + b)
    ensures AllUsable(a) && AllUsable(b) && Copies(a + b) == Copies(a) + Copies(b)
  {
    assert forall i :: 0 <= i < |a| ==> a[i] == (a + b)[i];
    assert forall i :: 0 <= i < |b| ==> b[i] == (a + b)[|a| + i];
  }

  /** When every pair of a path is usable, the copies stand in for the path's chunks. */
  lemma {:induction false} ReusedRows(e: Embedder, chunks: seq<ChunkRow>, batch: seq<Path>, model: ModelName, p: Path)
    requires p in batch
    requires forall i :: 0 <= i < |chunks| ==> RowConsistent(e, chunks[i])
    requires AllUsable(PairsAt(JoinRows(chunks, batch), model, p))
    ensures StandIn(e, model, Copies(PairsAt(JoinRows(chunks, batch), model, p)), chunks, p)
  {
    if chunks != [] {
      var init, last := chunks[..|chunks| - 1], chunks[|chunks| - 1];
      var tail := if last.path in batch then Joined(last) else [];
      PairsAtAppends(JoinRows(init, batch), tail, model, p);
      var early, late := PairsAt(JoinRows(init, batch), model, p), PairsAt(tail, model, p);
      SplitCopies(early, late);
      ReusedRows(e, init, batch, model, p);
      OneRowStandsIn(e, last, batch, model, p);
      assert chunks == init + [last];
      StandInAppends(e, model, Copies(early), Copies(late), init, [last], p);
    }
  }

  lemma TailCovered(r: ChunkRow, batch: seq<Path>, model: ModelName, p: Path)
    requires p in batch
    ensures var late := PairsAt(if r.path in batch then Joined(r) else [], model, p);
            && (late != [] <==> r.path == p)
            && (AllUsable(late) <==> (r.path == p ==> RowCovered(r, model)))
  {
    if r.path == p {
      OneRowCovered(r, model);
    } else {
      OtherRowSkipped(Joined(r), model, p);
    }
  }

  predicate HasChunk(chunks: seq<ChunkRow>, p: Path) {
    exists i :: 0 <= i < |chunks| && chunks[i].path == p
  }

  ghost predicate RowsCovered(chunks: seq<ChunkRow>, model: ModelName, p: Path) {
    forall i :: 0 <= i < |chunks| && chunks[i].path == p ==> RowCovered(chunks[i], model)
  }

  lemma OneMoreRow(init: seq<ChunkRow>, last: ChunkRow, model: ModelName, p: Path)
    ensures HasChunk(init + [last], p) <==> HasChunk(init, p) || last.path == p
    ensures RowsCovered(init + [last], model, p) <==>
            RowsCovered(init, model, p) && (last.path == p ==> RowCovered(last, model))
  {
    var all := init + [last];
    assert all[|init|] == last;
    assert forall i :: 0 <= i < |init| ==> all[i] == init[i];
  }

  lemma UsableAppends(a: seq<Pair>, b: seq<Pair>)
    ensures AllUsable(a + b) <==> AllUsable(a) && AllUsable(b)
  {
    assert forall i :: 0 <= i < |a| ==> (a + b)[i] == a[i];
    assert forall i :: 0 <= i < |b| ==> (a + b)[|a| + i] == b[i];
  }

  /** The joined pairs of a path are all usable, and there are some, exactly when its chunks are covered. */
  lemma {:induction false} UsableIffCovered(chunks: seq<ChunkRow>, batch: seq<Path>, model: ModelName, p: Path)
    requires p in batch
    ensures PairsAt(JoinRows(chunks, batch), model, p) != [] <==> HasChunk(chunks, p)
    ensures AllUsable(PairsAt(JoinRows(chunks, batch), model, p)) <==> RowsCovered(chunks, model, p)
  {
    if chunks != [] {
      var init, last := chunks[..|chunks| - 1], chunks[|chunks| - 1];
      UsableIffCovered(init, batch, model, p);
      assert chunks == init + [last];
      OneMoreRow(init, last, model, p);
      var tail := if last.path in batch then Joined(last) else [];
      PairsAtAppends(JoinRows(init, batch), tail, model, p);
      TailCovered(last, batch, model, p);
      UsableAppends(PairsAt(JoinRows(init, batch), model, p), PairsAt(tail, model, p));
    }
  }

  // ------------------------------------------------------------------ carrying forward

  /** The provider's model and embeddings, and the chunker. */
  datatype Setting = Setting(chunker: Chunker, embedder: Embedder, model: ModelName)

  function RowFor(st: Setting, p: Path, content: Content): FileRow {
    FileRow(p, Sha256(content), |st.chunker(p, content)|)
  }

  ghost function WantedAt(st: Setting, p: Path, content: Content): multiset<(Fragment, seq<Embedding>)> {
    Wanted(st.embedder, st.model, p, st.chunker(p, content))
  }

  function PathSet(files: seq<FileRow>): set<Path> {
    set i | 0 <= i < |files| :: files[i].path
  }

  ghost predicate FileRight(st: Setting, texts: map<Path, Content>, f: FileRow) {
    f.path in texts && f == RowFor(st, f.path, texts[f.path])
  }

  ghost predicate PathRight(st: Setting, texts: map<Path, Content>, files: seq<FileRow>, chunks: seq<ChunkRow>,
                            p: Path)
  {
    Held(chunks, p) == if p in PathSet(files) && p in texts then WantedAt(st, p, texts[p]) else multiset{}
  }

  /** A snapshot under construction: each file written so far is right and complete, every other path is empty. */
  ghost predicate Progress(st: Setting, texts: map<Path, Content>, files: seq<FileRow>, chunks: seq<ChunkRow>) {
    && UniquePaths(files)
    && (forall i :: 0 <= i < |files| ==> FileRight(st, texts, files[i]))
    && (forall p :: PathRight(st, texts, files, chunks, p))
  }

  lemma AddsFile(st: Setting, texts: map<Path, Content>, files: seq<FileRow>, chunks: seq<ChunkRow>, p: Path,
                 rows: seq<ChunkRow>)
    requires Progress(st, texts, files, chunks) && p !in PathSet(files) && p in texts
    requires forall i :: 0 <= i < |rows| ==> rows[i].path == p
    requires Held(rows, p) == WantedAt(st, p, texts[p])
    ensures Progress(st, texts, files + [RowFor(st, p, texts[p])], chunks + rows)
    ensures PathSet(files + [RowFor(st, p, texts[p])]) == PathSet(files) + {p}
  {
    var row := RowFor(st, p, texts[p]);
    PathSetSnoc(files, row);
    UniqueSnoc(files, row);
    forall q ensures PathRight(st, texts, files + [row], chunks + rows, q) {
      AddsFileAt(st, texts, files, chunks, p, rows, q);
    }
  }

  lemma UniqueSnoc(files: seq<FileRow>, row: FileRow)
    requires UniquePaths(files) && row.path !in PathSet(files)
    ensures UniquePaths(files + [row])
  {
  }

  lemma AddsFileAt(st: Setting, texts: map<Path, Content>, files: seq<FileRow>, chunks: seq<ChunkRow>, p: Path,
                   rows: seq<ChunkRow>, q: Path)
    requires PathRight(st, texts, files, chunks, q) && p !in PathSet(files) && p in texts
    requires forall i :: 0 <= i < |rows| ==> rows[i].path == p
    requires Held(rows, p) == WantedAt(st, p, texts[p])
    ensures PathRight(st, texts, files + [RowFor(st, p, texts[p])], chunks + rows, q)
  {
    PathSetSnoc(files, RowFor(st, p, texts[p]));
    HeldAppends(chunks, rows, q);
    if q != p {
      HeldElsewhere(rows, q);
    }
  }

  lemma PathSetSnoc(files: seq<FileRow>, f: FileRow)
    ensures PathSet(files + [f]) == PathSet(files) + {f.path}
  {
    assert (files + [f])[|files|] == f;
    assert forall i :: 0 <= i < |files| ==> (files + [f])[i] == files[i];
  }

  function FilesIn(files: seq<FileRow>, batch: seq<Path>): (r: seq<FileRow>)
    ensures forall f :: f in r <==> f in files && f.path in batch
    ensures UniquePaths(files) ==> UniquePaths(r)
  {
    if files == [] then []
    else
      var last := files[|files| - 1];
      assert files == files[..|files| - 1] + [last];
      var rest := FilesIn(files[..|files| - 1], batch);
      assert UniquePaths(files) ==> forall f :: f in files[..|files| - 1] ==> f.path != last.path;
      if last.path in batch then rest + [last] else rest
  }

  /** `chunks_by_path`, with unusable embeddings already replaced by None. */
  method GroupByPath(rows: seq<Pair>, model: ModelName) returns (byPath: map<Path, seq<Pair>>)
    ensures Grouped(rows, model, byPath)
  {
    byPath := map[];
    for i := 0 to |rows|
      invariant Grouped(rows[..i], model, byPath)
    {
      var p, usable := rows[i].0.path, Usable(rows[i], model);
      GroupsOneMore(rows, model, byPath, i);
      byPath := byPath[p := (if p in byPath then byPath[p] else []) + [usable]];
    }
    assert rows[..|rows|] == rows;
  }

  /** Each path's pairs, in order. */
  ghost predicate Grouped(rows: seq<Pair>, model: ModelName, byPath: map<Path, seq<Pair>>) {
    forall p :: (if p in byPath then byPath[p] else []) == PairsAt(rows, model, p)
  }

  lemma GroupsOneMore(rows: seq<Pair>, model: ModelName, byPath: map<Path, seq<Pair>>, i: nat)
    requires i < |rows| && Grouped(rows[..i], model, byPath)
    ensures var p := rows[i].0.path;
            var pairs := (if p in byPath then byPath[p] else []) + [Usable(rows[i], model)];
            Grouped(rows[..i + 1], model, byPath[p := pairs])
  {
    var p := rows[i].0.path;
    var after := byPath[p := (if p in byPath then byPath[p] else []) + [Usable(rows[i], model)]];
    forall q ensures (if q in after then after[q] else []) == PairsAt(rows[..i + 1], model, q) {
      PairsOneMore(rows, model, i, q);
      assert (if q in byPath then byPath[q] else []) == PairsAt(rows[..i], model, q);
    }
  }

  lemma PairsOneMore(rows: seq<Pair>, model: ModelName, i: nat, q: Path)
    requires i < |rows|
    ensures PairsAt(rows[..i + 1], model, q)
            == PairsAt(rows[..i], model, q) + (if rows[i].0.path == q then [Usable(rows[i], model)] else [])
  {
    assert rows[..i + 1][..i] == rows[..i];
  }

  /** The pairs that do have a vector. */
  function WithVector(pairs: seq<Pair>): (r: seq<Pair>)
    ensures |r| <= |pairs| && AllUsable(r)
    ensures |r| == |pairs| <==> AllUsable(pairs)
    ensures AllUsable(pairs) ==> r == pairs
  {
    if pairs == [] then []
    else
      var last := pairs[|pairs| - 1];
      var rest := WithVector(pairs[..|pairs| - 1]);
      if last.1.Some? then rest + [last] else rest
  }

  predicate NoRepeats(paths: seq<Path>) {
    forall i, j :: 0 <= i < j < |paths| ==> paths[i] != paths[j]
  }

  /** The paths of a batch that the previous snapshot does not have, in the batch's order: they go stale. */
  function Missing(batch: seq<Path>, indexed: set<Path>): (r: seq<Path>)
    ensures forall p :: p in r <==> p in batch && p !in indexed
    ensures NoRepeats(batch) ==> NoRepeats(r)
  {
    if batch == [] then []
    else
      var last := batch[|batch| - 1];
      assert batch == batch[..|batch| - 1] + [last];
      var rest := Missing(batch[..|batch| - 1], indexed);
      assert NoRepeats(batch) ==> last !in batch[..|batch| - 1];
      if last in indexed then rest else rest + [last]
  }

  datatype Reused = Reused(files: seq<FileRow>, chunks: seq<ChunkRow>, stale: seq<Path>)

  /** Every path of `seen` has been dealt with once: carried forward right, or reported stale. */
  ghost predicate Split(st: Setting, texts: map<Path, Content>, r: Reused, seen: set<Path>) {
    && Progress(st, texts, r.files, r.chunks)
    && NoRepeats(r.stale)
    && (forall p :: p in seen <==> p in PathSet(r.files) || p in r.stale)
    && (forall p :: p in r.stale ==> p !in PathSet(r.files))
  }

  /** A path of the previous snapshot that the shortcut serves. */
  ghost predicate Reusable(previous: Option<Snapshot>, model: ModelName, p: Path) {
    previous.Some? && FileAt(previous.value.files, p).Some? && Covered(previous.value.chunks, model, p)
  }

  /** The shortcut is taken exactly where it can be. */
  ghost predicate Honest(previous: Option<Snapshot>, model: ModelName, r: Reused) {
    && (forall p :: p in PathSet(r.files) ==> Reusable(previous, model, p))
    && (forall p :: p in r.stale ==> !Reusable(previous, model, p))
  }

  lemma ReportsStale(st: Setting, texts: map<Path, Content>, r: Reused, seen: set<Path>, more: seq<Path>)
    requires Split(st, texts, r, seen) && NoRepeats(more) && forall p :: p in more ==> p !in seen
    ensures Split(st, texts, r.(stale := r.stale + more), seen + set p | p in more)
  {
    var r', seen' := r.(stale := r.stale + more), seen + set p | p in more;
    forall i, j | 0 <= i < j < |r'.stale| ensures r'.stale[i] != r'.stale[j] {
      if i < |r.stale| <= j {
        assert r.stale[i] in r.stale && more[j - |r.stale|] in more;
      }
    }
  }

  /** What the previous snapshot must offer for a batch of unchanged paths. */
  ghost predicate Offers(st: Setting, texts: map<Path, Content>, previous: Snapshot, batch: seq<Path>) {
    && Consistent(st.chunker, st.embedder, previous)
    && NoRepeats(batch)
    && forall p :: p in batch ==> p in texts && Unchanged(Some(previous), Scanned(p, texts[p]))
  }

  lemma UniqueRow(files: seq<FileRow>, f: FileRow)
    requires UniquePaths(files) && f in files
    ensures FileAt(files, f.path) == Some(f)
  {
  }

  /** The file row of an unchanged path is copied as it is, and its reusable pairs become what is wanted. */
  lemma CarriesFile(st: Setting, texts: map<Path, Content>, previous: Snapshot, batch: seq<Path>, f: FileRow,
                    pairs: seq<Pair>)
    requires Offers(st, texts, previous, batch) && f in previous.files && f.path in batch
    requires pairs == PairsAt(JoinRows(previous.chunks, batch), st.model, f.path)
    requires pairs != [] && AllUsable(pairs)
    ensures f == RowFor(st, f.path, texts[f.path])
    ensures Held(Copies(pairs), f.path) == WantedAt(st, f.path, texts[f.path])
    ensures forall i :: 0 <= i < |pairs| ==> Copies(pairs)[i].path == f.path
  {
    var p := f.path;
    UniqueRow(previous.files, f);
    assert Unchanged(Some(previous), Scanned(p, texts[p]));
    var k :| 0 <= k < |previous.files| && previous.files[k] == f;
    assert FileConsistent(st.chunker, previous.files[k], previous.chunks);
    ReusedRows(st.embedder, previous.chunks, batch, st.model, p);
    var copies := Copies(pairs);
    assert copies[0].path == p && Fragments(copies, p) != multiset{} by {
      assert copies[0].fragment in Fragments(copies, p);
    }
    CurrentRowsHoldTheWanted(st.embedder, st.model, copies, p, st.chunker(p, texts[p]));
  }

  lemma NextFile(files: seq<FileRow>, k: nat)
    requires k < |files|
    ensures PathSet(files[..k + 1]) == PathSet(files[..k]) + {files[k].path}
    ensures UniquePaths(files) ==> files[k].path !in PathSet(files[..k])
  {
  }

  /** One old file row: copied with its chunks when every pair is usable, stale otherwise. */
  method CarryFile(st: Setting, previous: Snapshot, batch: seq<Path>, file: FileRow, pairs: seq<Pair>, before: Reused,
                   ghost texts: map<Path, Content>, ghost seen: set<Path>)
    returns (r: Reused)
    requires Offers(st, texts, previous, batch) && file in previous.files && file.path in batch
    requires pairs == PairsAt(JoinRows(previous.chunks, batch), st.model, file.path)
    requires Split(st, texts, before, seen) && file.path !in seen && Honest(Some(previous), st.model, before)
    ensures Split(st, texts, r, seen + {file.path}) && Honest(Some(previous), st.model, r)
  {
    UsableIffCovered(previous.chunks, batch, st.model, file.path);
    var usable := WithVector(pairs);
    if pairs == [] || |usable| != |pairs| {
      ReportsStale(st, texts, before, seen, [file.path]);
      assert (set p | p in [file.path]) == {file.path};
      r := before.(stale := before.stale + [file.path]);
    } else {
      CarriesFile(st, texts, previous, batch, file, pairs);
      AddsFile(st, texts, before.files, before.chunks, file.path, Copies(usable));
      r := before.(files := before.files + [file], chunks := before.chunks + Copies(usable));
    }
  }

  /** One batch of `_carry_forward`. */
  method CarryBatch(st: Setting, previous: Snapshot, batch: seq<Path>, before: Reused, ghost texts: map<Path, Content>,
                    ghost seen: set<Path>)
    returns (r: Reused)
    requires Offers(st, texts, previous, batch)
    requires Split(st, texts, before, seen) && forall p :: p in batch ==> p !in seen
    requires Honest(Some(previous), st.model, before)
    ensures Split(st, texts, r, seen + set p | p in batch) && Honest(Some(previous), st.model, r)
  {
    r := before;
    var files := FilesIn(previous.files, batch);
    var byPath := GroupByPath(JoinRows(previous.chunks, batch), st.model);
    ghost var now := seen;
    for k := 0 to |files|
      invariant Split(st, texts, r, now) && Honest(Some(previous), st.model, r)
      invariant now == seen + PathSet(files[..k])
    {
      var file := files[k];
      assert file in files;
      NextFile(files, k);
      var pairs := if file.path in byPath then byPath[file.path] else [];
      r := CarryFile(st, previous, batch, file, pairs, r, texts, now);
      now := now + {file.path};
    }
    assert files[..|files|] == files;
    var missing := Missing(batch, PathSet(files));
    FinishesBatch(st, texts, previous, batch, files, r, seen);
    r := r.(stale := r.stale + missing);
  }

  /** The paths of a batch without a file row are reported stale too. */
  lemma FinishesBatch(st: Setting, texts: map<Path, Content>, previous: Snapshot, batch: seq<Path>, files: seq<FileRow>,
                      r: Reused, seen: set<Path>)
    requires NoRepeats(batch) && files == FilesIn(previous.files, batch)
    requires forall p :: p in batch ==> p !in seen
    requires Split(st, texts, r, seen + PathSet(files)) && Honest(Some(previous), st.model, r)
    ensures var r' := r.(stale := r.stale + Missing(batch, PathSet(files)));
            Split(st, texts, r', seen + set p | p in batch) && Honest(Some(previous), st.model, r')
  {
    var missing := Missing(batch, PathSet(files));
    ReportsStale(st, texts, r, seen + PathSet(files), missing);
    assert forall i :: 0 <= i < |files| ==> files[i] in files;
    BatchIsCovered(files, batch, missing);
    assert seen + PathSet(files) + (set p | p in missing) == seen + set p | p in batch;
  }

  lemma BatchIsCovered(files: seq<FileRow>, batch: seq<Path>, missing: seq<Path>)
    requires forall i :: 0 <= i < |files| ==> files[i].path in batch
    requires forall p :: p in missing <==> p in batch && p !in PathSet(files)
    ensures PathSet(files) + (set p | p in missing) == set p | p in batch
  {
  }

  /** The next batch of a list still to be dealt with. */
  lemma NextBatch(all: seq<Path>, done: seq<Path>, batch: seq<Path>, rest: seq<Path>)
    requires all == done + (batch + rest) && NoRepeats(all)
    ensures NoRepeats(batch)
    ensures forall p :: p in batch ==> p in all && p !in done
    ensures (done + batch) + rest == all
    ensures (set p | p in done) + (set p | p in batch) == set p | p in done + batch
  {
    forall i | 0 <= i < |batch| ensures batch[i] in all && batch[i] !in done {
      assert all[|done| + i] == batch[i];
      forall j | 0 <= j < |done| ensures done[j] != batch[i] {
        assert all[j] == done[j];
      }
    }
    forall i, j | 0 <= i < j < |batch| ensures batch[i] != batch[j] {
      assert all[|done| + i] == batch[i] && all[|done| + j] == batch[j];
    }
  }

  /**
   `_carry_forward`: every unchanged path is either carried forward with exactly the chunks and
   current vectors that indexing it again would produce, or reported stale; never both.
   */
  method CarryForward(st: Setting, previous: Option<Snapshot>, same: seq<Path>, ghost texts: map<Path, Content>)
    returns (r: Reused)
    requires NoRepeats(same)
    requires forall p :: p in same ==> p in texts && Unchanged(previous, Scanned(p, texts[p]))
    requires previous.Some? ==> Consistent(st.chunker, st.embedder, previous.value)
    ensures Split(st, texts, r, set p | p in same) && Honest(previous, st.model, r)
  {
    r := Reused([], [], []);
    assert Split(st, texts, r, {});
    if previous.None? || same == [] {
      ReportsStale(st, texts, r, {}, same);
      assert {} + (set p | p in same) == set p | p in same;
      r := Reused([], [], same);
      return;
    }
    var batches := Batched(same);
    ghost var done: seq<Path> := [];
    for k := 0 to |batches|
      invariant done + Concat(batches[k..]) == same
      invariant Split(st, texts, r, set p | p in done) && Honest(previous, st.model, r)
    {
      assert batches[k..][1..] == batches[k + 1..];
      NextBatch(same, done, batches[k], Concat(batches[k + 1..]));
      r := CarryBatch(st, previous.value, batches[k], r, texts, set p | p in done);
      done := done + batches[k];
    }
    assert done + [] == done;
  }

  // ------------------------------------------------------------------ chunking and embedding the rest

  function FreshAll(st: Setting, todo: seq<Scanned>): seq<ChunkRow> {
    if todo == [] then []
    else
      var last := todo[|todo| - 1];
      FreshAll(st, todo[..|todo| - 1])
      + FreshRows(st.embedder, st.model, last.path, st.chunker(last.path, last.content))
  }

  function FileRows(st: Setting, todo: seq<Scanned>): (r: seq<FileRow>)
    ensures |r| == |todo|
  {
    seq(|todo|, i requires 0 <= i < |todo| => RowFor(st, todo[i].path, todo[i].content))
  }

  /** The loop over `modified`: file rows, chunk rows still without vectors, and the texts to embed. */
  method ChunkFiles(st: Setting, todo: seq<Scanned>)
    returns (files: seq<FileRow>, chunkRows: seq<ChunkRow>, texts: seq<(Path, Fragment)>)
    ensures files == FileRows(st, todo)
    ensures |chunkRows| == |texts| == |FreshAll(st, todo)|
    ensures forall i :: 0 <= i < |texts| ==>
              && chunkRows[i] == FreshAll(st, todo)[i].(embeddings := [])
              && FreshAll(st, todo)[i].embeddings
                 == [Embedding(st.model, st.embedder(st.model, texts[i].0, texts[i].1))]
  {
    files, chunkRows, texts := [], [], [];
    for k := 0 to |todo|
      invariant files == FileRows(st, todo[..k])
      invariant |chunkRows| == |texts| == |FreshAll(st, todo[..k])|
      invariant forall i :: 0 <= i < |texts| ==>
                  && chunkRows[i] == FreshAll(st, todo[..k])[i].(embeddings := [])
                  && FreshAll(st, todo[..k])[i].embeddings
                     == [Embedding(st.model, st.embedder(st.model, texts[i].0, texts[i].1))]
    {
      var file := todo[k];
      assert todo[..k + 1][..k] == todo[..k];
      var parsed := st.chunker(file.path, file.content);
      files := files + [FileRow(file.path, Sha256(file.content), |parsed|)];
      chunkRows := chunkRows + seq(|parsed|, i requires 0 <= i < |parsed| => ChunkRow(file.path, parsed[i], []));
      texts := texts + seq(|parsed|, i requires 0 <= i < |parsed| => (file.path, parsed[i]));
    }
    assert todo[..|todo|] == todo;
  }

  /** Writing the files indexed afresh completes each of them. */
  lemma {:induction false} FreshFilesProgress(st: Setting, texts: map<Path, Content>, r: Reused, todo: seq<Scanned>)
    requires Progress(st, texts, r.files, r.chunks) && DistinctPaths(todo)
    requires forall i :: 0 <= i < |todo| ==>
               todo[i].path in texts && texts[todo[i].path] == todo[i].content && todo[i].path !in PathSet(r.files)
    ensures Progress(st, texts, r.files + FileRows(st, todo), r.chunks + FreshAll(st, todo))
    ensures PathSet(r.files + FileRows(st, todo)) == PathSet(r.files) + set i | 0 <= i < |todo| :: todo[i].path
  {
    if todo == [] {
      assert r.files + FileRows(st, todo) == r.files && r.chunks + FreshAll(st, todo) == r.chunks;
    } else {
      var init, last := todo[..|todo| - 1], todo[|todo| - 1];
      FreshFilesProgress(st, texts, r, init);
      assert todo == init + [last];
      PathsOfSnoc(init, last);
      FreshStep(st, texts, r, init, last);
    }
  }

  lemma FreshStep(st: Setting, texts: map<Path, Content>, r: Reused, init: seq<Scanned>, last: Scanned)
    requires Progress(st, texts, r.files + FileRows(st, init), r.chunks + FreshAll(st, init))
    requires last.path !in PathSet(r.files + FileRows(st, init))
    requires last.path in texts && texts[last.path] == last.content
    ensures Progress(st, texts, r.files + FileRows(st, init + [last]), r.chunks + FreshAll(st, init + [last]))
    ensures PathSet(r.files + FileRows(st, init + [last])) == PathSet(r.files + FileRows(st, init)) + {last.path}
  {
    var todo := init + [last];
    var fragments := st.chunker(last.path, last.content);
    var rows := FreshRows(st.embedder, st.model, last.path, fragments);
    FreshRowsHoldTheWanted(st.embedder, st.model, last.path, fragments);
    var files, chunks := r.files + FileRows(st, init), r.chunks + FreshAll(st, init);
    AddsFile(st, texts, files, chunks, last.path, rows);
    assert files + [RowFor(st, last.path, last.content)] == r.files + FileRows(st, todo);
    assert todo[..|todo| - 1] == init;
    assert chunks + rows == r.chunks + FreshAll(st, todo);
  }

  lemma PathsOfSnoc(init: seq<Scanned>, last: Scanned)
    ensures var todo := init + [last];
            (set i | 0 <= i < |todo| :: todo[i].path) == (set i | 0 <= i < |init| :: init[i].path) + {last.path}
  {
    var todo := init + [last];
    assert todo[|init|] == last;
    assert forall i :: 0 <= i < |init| ==> todo[i] == init[i];
  }

  // ------------------------------------------------------------------ the whole index

  /** The scanned files as a map from path to text. */
  ghost predicate Reads(scan: seq<Scanned>, texts: map<Path, Content>) {
    && (forall i :: 0 <= i < |scan| ==> scan[i].path in texts && texts[scan[i].path] == scan[i].content)
    && (forall p :: p in texts ==> exists i :: 0 <= i < |scan| && scan[i].path == p)
  }

  ghost function TextsOf(scan: seq<Scanned>): (texts: map<Path, Content>)
    requires DistinctPaths(scan)
    ensures Reads(scan, texts)
  {
    map f | f in scan :: f.path := f.content
  }

  /** Indexing a checkout from scratch, with no previous snapshot to think about. */
  function FromScratch(st: Setting, scan: seq<Scanned>): Snapshot {
    Snapshot(FileRows(st, scan), FreshAll(st, scan))
  }

  /** The same files with the same hashes, and for every path the same chunks with the same vectors. */
  ghost predicate Equivalent(a: Snapshot, b: Snapshot) {
    && UniquePaths(a.files) && UniquePaths(b.files)
    && (forall f :: f in a.files <==> f in b.files)
    && (forall p :: Held(a.chunks, p) == Held(b.chunks, p))
  }

  ghost predicate Complete(st: Setting, texts: map<Path, Content>, s: Snapshot) {
    Progress(st, texts, s.files, s.chunks) && PathSet(s.files) == texts.Keys
  }

  lemma FromScratchIsComplete(st: Setting, scan: seq<Scanned>)
    requires DistinctPaths(scan)
    ensures Complete(st, TextsOf(scan), FromScratch(st, scan))
  {
    var texts := TextsOf(scan);
    var none := Reused([], [], []);
    assert PathSet(none.files) == {};
    assert forall p :: PathRight(st, texts, none.files, none.chunks, p);
    FreshFilesProgress(st, texts, none, scan);
    assert none.files + FileRows(st, scan) == FileRows(st, scan);
    assert none.chunks + FreshAll(st, scan) == FreshAll(st, scan);
    assert PathSet(FileRows(st, scan)) == texts.Keys;
  }

  lemma CompleteIsUnique(st: Setting, texts: map<Path, Content>, a: Snapshot, b: Snapshot)
    requires Complete(st, texts, a) && Complete(st, texts, b)
    ensures Equivalent(a, b)
  {
    forall p ensures Held(a.chunks, p) == Held(b.chunks, p) {
      assert PathRight(st, texts, a.files, a.chunks, p) && PathRight(st, texts, b.files, b.chunks, p);
    }
    SameFiles(st, texts, a, b);
    SameFiles(st, texts, b, a);
  }

  lemma IsFromScratch(st: Setting, scan: seq<Scanned>, s: Snapshot)
    requires DistinctPaths(scan) && Complete(st, TextsOf(scan), s)
    ensures Equivalent(s, FromScratch(st, scan))
  {
    FromScratchIsComplete(st, scan);
    CompleteIsUnique(st, TextsOf(scan), s, FromScratch(st, scan));
  }

  lemma SameFiles(st: Setting, texts: map<Path, Content>, a: Snapshot, b: Snapshot)
    requires Complete(st, texts, a) && Complete(st, texts, b)
    ensures forall f :: f in a.files ==> f in b.files
  {
    forall f | f in a.files ensures f in b.files {
      var i :| 0 <= i < |a.files| && a.files[i] == f;
      assert FileRight(st, texts, a.files[i]);
      assert f.path in PathSet(b.files);
      var j :| 0 <= j < |b.files| && b.files[j].path == f.path;
      assert FileRight(st, texts, b.files[j]);
    }
  }

  function PathsOf(scan: seq<Scanned>): (r: seq<Path>)
    ensures |r| == |scan| && forall i :: 0 <= i < |r| ==> r[i] == scan[i].path
  {
    seq(|scan|, i requires 0 <= i < |scan| => scan[i].path)
  }

  /** Counting: a set of paths split into two lists without repeats. */
  lemma {:induction false} SplitCounts(files: seq<FileRow>, stale: seq<Path>, all: seq<Path>)
    requires UniquePaths(files) && NoRepeats(stale) && NoRepeats(all)
    requires forall p :: p in all <==> p in PathSet(files) || p in stale
    requires forall p :: p in stale ==> p !in PathSet(files)
    ensures |files| + |stale| == |all|
  {
    var a := seq(|files|, i requires 0 <= i < |files| => files[i].path);
    assert forall i :: 0 <= i < |files| ==> a[i] == files[i].path;
    SetSize(a);
    SetSize(stale);
    SetSize(all);
    assert (set p | p in a) == PathSet(files);
    assert (set p | p in all) == (set p | p in a) + (set p | p in stale);
    assert (set p | p in a) !! (set p | p in stale);
  }

  lemma {:induction false} SetSize(s: seq<Path>)
    requires NoRepeats(s)
    ensures |set p | p in s| == |s|
  {
    if s != [] {
      var init, last := s[..|s| - 1], s[|s| - 1];
      SetSize(init);
      assert s == init + [last];
      assert (set p | p in s) == (set p | p in init) + {last};
    }
  }

  /** What phase two has to index: the changed files, then the stale ones looked up again. */
  ghost predicate Todo(previous: Option<Snapshot>, scan: seq<Scanned>, r: Reused, todo: seq<Scanned>) {
    var modified := ChangedFiles(previous, scan).0;
    && |todo| == |modified| + |r.stale|
    && (forall i :: 0 <= i < |modified| ==> todo[i] == modified[i])
    && (forall i :: |modified| <= i < |todo| ==> todo[i].path == r.stale[i - |modified|] && todo[i] in scan)
  }

  /** The outcome of carrying forward, seen from the scanned files. */
  ghost predicate Dealt(previous: Option<Snapshot>, scan: seq<Scanned>, r: Reused) {
    && DistinctPaths(scan) && UniquePaths(r.files) && NoRepeats(r.stale)
    && (forall f :: f in scan && !Unchanged(previous, f) ==> f.path !in PathSet(r.files) && f.path !in r.stale)
    && (forall f :: f in scan && Unchanged(previous, f) ==> f.path in PathSet(r.files) || f.path in r.stale)
    && (forall p :: p in r.stale ==> p !in PathSet(r.files) && exists f :: f in scan && f.path == p)
  }

  lemma CarryingDeals(st: Setting, previous: Option<Snapshot>, scan: seq<Scanned>, texts: map<Path, Content>, r: Reused)
    requires DistinctPaths(scan)
    requires Split(st, texts, r, set p | p in PathsOf(ChangedFiles(previous, scan).1))
    ensures Dealt(previous, scan, r)
    ensures |r.files| + |r.stale| == |ChangedFiles(previous, scan).1|
  {
    var same := ChangedFiles(previous, scan).1;
    var paths := PathsOf(same);
    forall f | f in scan && !Unchanged(previous, f) ensures f.path !in paths {
      SharedPath(previous, scan, f, paths);
    }
    forall f | f in scan && Unchanged(previous, f) ensures f.path in paths {
      assert f in same;
      var k :| 0 <= k < |same| && same[k] == f;
      assert paths[k] == f.path;
    }
    forall p | p in paths ensures exists f :: f in scan && f.path == p {
      var k :| 0 <= k < |paths| && paths[k] == p;
      assert same[k] in same;
    }
    SplitCounts(r.files, r.stale, paths);
  }

  lemma TodoIsFresh(previous: Option<Snapshot>, scan: seq<Scanned>, r: Reused, todo: seq<Scanned>)
    requires Dealt(previous, scan, r) && Todo(previous, scan, r, todo)
    ensures forall i :: 0 <= i < |todo| ==> todo[i] in scan && todo[i].path !in PathSet(r.files)
    ensures DistinctPaths(todo)
  {
    var modified := ChangedFiles(previous, scan).0;
    var n := |modified|;
    forall i | 0 <= i < |todo|
      ensures todo[i] in scan && todo[i].path !in PathSet(r.files)
      ensures i < n ==> todo[i].path !in r.stale
      ensures i >= n ==> todo[i].path in r.stale
    {
      if i < n {
        assert modified[i] in modified;
      }
    }
    forall i, j | 0 <= i < j < |todo| ensures todo[i].path != todo[j].path {
      if j < n {
        assert modified[i].path != modified[j].path;
      } else if i >= n {
        assert r.stale[i - n] != r.stale[j - n];
      }
    }
  }

  lemma TodoIsEverything(previous: Option<Snapshot>, scan: seq<Scanned>, r: Reused, todo: seq<Scanned>, f: Scanned)
    requires Dealt(previous, scan, r) && Todo(previous, scan, r, todo) && f in scan
    ensures f.path in PathSet(r.files) || exists i :: 0 <= i < |todo| && todo[i].path == f.path
  {
    var modified := ChangedFiles(previous, scan).0;
    if !Unchanged(previous, f) {
      assert f in modified;
      var i :| 0 <= i < |modified| && modified[i] == f;
      assert todo[i].path == f.path;
    } else if f.path !in PathSet(r.files) {
      var i :| 0 <= i < |r.stale| && r.stale[i] == f.path;
      assert todo[|modified| + i].path == f.path;
    }
  }

  lemma SamePathSameFile(scan: seq<Scanned>, f: Scanned, g: Scanned)
    requires DistinctPaths(scan) && f in scan && g in scan && f.path == g.path
    ensures f == g
  {
    var i :| 0 <= i < |scan| && scan[i] == f;
    var j :| 0 <= j < |scan| && scan[j] == g;
  }

  /** A changed file's path is not among the unchanged ones. */
  lemma SharedPath(previous: Option<Snapshot>, scan: seq<Scanned>, f: Scanned, paths: seq<Path>)
    requires DistinctPaths(scan) && f in scan && !Unchanged(previous, f)
    requires paths == PathsOf(ChangedFiles(previous, scan).1)
    ensures f.path !in paths
  {
    var same := ChangedFiles(previous, scan).1;
    if f.path in paths {
      var i :| 0 <= i < |paths| && paths[i] == f.path;
      assert same[i] in same;
      SamePathSameFile(scan, f, same[i]);
      assert false;
    }
  }

  /** Carrying forward and indexing the rest completes the snapshot. */
  lemma IndexIsComplete(st: Setting, previous: Option<Snapshot>, scan: seq<Scanned>, texts: map<Path, Content>,
                        r: Reused, todo: seq<Scanned>)
    requires DistinctPaths(scan) && Reads(scan, texts) && Dealt(previous, scan, r) && Todo(previous, scan, r, todo)
    requires Progress(st, texts, r.files, r.chunks)
    ensures Complete(st, texts, Snapshot(r.files + FileRows(st, todo), r.chunks + FreshAll(st, todo)))
  {
    TodoIsFresh(previous, scan, r, todo);
    FreshFilesProgress(st, texts, r, todo);
    EveryFileIsWritten(st, previous, scan, texts, r, todo);
  }

  lemma EveryFileIsWritten(st: Setting, previous: Option<Snapshot>, scan: seq<Scanned>, texts: map<Path, Content>,
                           r: Reused, todo: seq<Scanned>)
    requires Reads(scan, texts) && Dealt(previous, scan, r) && Todo(previous, scan, r, todo)
    requires forall i :: 0 <= i < |todo| ==> todo[i] in scan
    requires forall i :: 0 <= i < |r.files| ==> FileRight(st, texts, r.files[i])
    ensures PathSet(r.files) + (set i | 0 <= i < |todo| :: todo[i].path) == texts.Keys
  {
    var written := PathSet(r.files) + set i | 0 <= i < |todo| :: todo[i].path;
    forall p | p in texts ensures p in written {
      var k :| 0 <= k < |scan| && scan[k].path == p;
      TodoIsEverything(previous, scan, r, todo, scan[k]);
    }
    forall i | 0 <= i < |todo| ensures todo[i].path in texts {
      assert todo[i] in scan;
      var k :| 0 <= k < |scan| && scan[k] == todo[i];
    }
  }

  /** The scanned file at a path. */
  function ScannedAt(scan: seq<Scanned>, p: Path): (f: Scanned)
    requires exists g :: g in scan && g.path == p
    ensures f in scan && f.path == p
  {
    if scan[0].path == p then scan[0]
    else
      assert forall g :: g in scan ==> g == scan[0] || g in scan[1..];
      ScannedAt(scan[1..], p)
  }

  /** The rows `index_snapshot` adds: those carried forward, and those of the files it indexes. */
  method IndexRows(st: Setting, scan: seq<Scanned>, previous: Option<Snapshot>, ghost texts: map<Path, Content>)
    returns (reused: Reused, fileRows: seq<FileRow>, embedded: seq<ChunkRow>)
    requires DistinctPaths(scan) && Reads(scan, texts)
    requires previous.Some? ==> Consistent(st.chunker, st.embedder, previous.value)
    ensures Complete(st, texts, Snapshot(reused.files + fileRows, reused.chunks + embedded))
    ensures |fileRows| + |reused.files| == |scan|
    ensures |reused.files| == |ReusablePaths(previous, st.model, scan)|
    ensures |reused.chunks| == ChunksAt(st, scan, ReusablePaths(previous, st.model, scan))
  {
    var (modified, same) := ChangedFiles(previous, scan);
    reused := CarryUnchanged(st, scan, previous, texts);
    var todo := modified + StaleFiles(previous, scan, reused);
    var chunkRows, toEmbed;
    fileRows, chunkRows, toEmbed := ChunkFiles(st, todo);
    embedded := Embed(st, todo, chunkRows, toEmbed);
    IndexIsComplete(st, previous, scan, texts, reused, todo);
  }

  method CarryUnchanged(st: Setting, scan: seq<Scanned>, previous: Option<Snapshot>, ghost texts: map<Path, Content>)
    returns (reused: Reused)
    requires DistinctPaths(scan) && Reads(scan, texts)
    requires previous.Some? ==> Consistent(st.chunker, st.embedder, previous.value)
    ensures Progress(st, texts, reused.files, reused.chunks) && Dealt(previous, scan, reused)
    ensures |reused.files| + |reused.stale| == |ChangedFiles(previous, scan).1|
    ensures |reused.files| == |ReusablePaths(previous, st.model, scan)|
    ensures |reused.chunks| == ChunksAt(st, scan, ReusablePaths(previous, st.model, scan))
  {
    var same := ChangedFiles(previous, scan).1;
    var paths := PathsOf(same);
    forall i | 0 <= i < |paths|
      ensures paths[i] in texts && Unchanged(previous, Scanned(paths[i], texts[paths[i]]))
    {
      assert same[i] in same;
      var k :| 0 <= k < |scan| && scan[k] == same[i];
    }
    reused := CarryForward(st, previous, paths, texts);
    CarryingDeals(st, previous, scan, texts, reused);
    CarriedAreReusable(st, previous, scan, texts, reused);
    ProgressCounts(st, texts, scan, reused.files, reused.chunks);
  }

  /** The files the shortcut serves: unchanged, and fully embedded by the current model. */
  ghost function ReusablePaths(previous: Option<Snapshot>, model: ModelName, scan: seq<Scanned>): set<Path> {
    set f | f in scan && Unchanged(previous, f) && Reusable(previous, model, f.path) :: f.path
  }

  lemma CarriedAreReusable(st: Setting, previous: Option<Snapshot>, scan: seq<Scanned>, texts: map<Path, Content>,
                           r: Reused)
    requires Dealt(previous, scan, r) && Honest(previous, st.model, r)
    requires Split(st, texts, r, set p | p in PathsOf(ChangedFiles(previous, scan).1))
    ensures |r.files| == |ReusablePaths(previous, st.model, scan)|
    ensures PathSet(r.files) == ReusablePaths(previous, st.model, scan)
  {
    var same := ChangedFiles(previous, scan).1;
    var paths := PathsOf(same);
    forall p | p in PathSet(r.files) ensures p in ReusablePaths(previous, st.model, scan) {
      assert p in paths;
      var k :| 0 <= k < |paths| && paths[k] == p;
      assert same[k] in same;
    }
    assert PathSet(r.files) == ReusablePaths(previous, st.model, scan);
    var names := seq(|r.files|, i requires 0 <= i < |r.files| => r.files[i].path);
    assert forall i :: 0 <= i < |r.files| ==> names[i] == r.files[i].path;
    forall p | p in PathSet(r.files) ensures p in names {
      var k :| 0 <= k < |r.files| && r.files[k].path == p;
      assert names[k] == p;
    }
    assert (set p | p in names) == PathSet(r.files);
    SetSize(names);
  }

  /** The scanned files to index again: one for each stale path, in that order. */
  function StaleFiles(ghost previous: Option<Snapshot>, scan: seq<Scanned>, r: Reused): (files: seq<Scanned>)
    requires Dealt(previous, scan, r)
    ensures |files| == |r.stale|
    ensures forall i :: 0 <= i < |files| ==> files[i].path == r.stale[i] && files[i] in scan
  {
    assert forall i :: 0 <= i < |r.stale| ==> r.stale[i] in r.stale;
    seq(|r.stale|, i requires 0 <= i < |r.stale| => ScannedAt(scan, r.stale[i]))
  }

  /** `embed_documents`, and the rows zipped with their vectors. */
  method Embed(st: Setting, ghost todo: seq<Scanned>, chunkRows: seq<ChunkRow>, texts: seq<(Path, Fragment)>)
    returns (embedded: seq<ChunkRow>)
    requires |chunkRows| == |texts| == |FreshAll(st, todo)|
    requires forall i :: 0 <= i < |texts| ==>
              && chunkRows[i] == FreshAll(st, todo)[i].(embeddings := [])
              && FreshAll(st, todo)[i].embeddings
                 == [Embedding(st.model, st.embedder(st.model, texts[i].0, texts[i].1))]
    ensures embedded == FreshAll(st, todo)
  {
    var vectors := seq(|texts|, i requires 0 <= i < |texts| => st.embedder(st.model, texts[i].0, texts[i].1));
    embedded := seq(|chunkRows|, i requires 0 <= i < |chunkRows| =>
                      chunkRows[i].(embeddings := [Embedding(st.model, vectors[i])]));
  }

  // ------------------------------------------------------------------ counting what was reused

  /** The chunks the chunker makes of the scanned files at some paths. */
  ghost function ChunksAt(st: Setting, scan: seq<Scanned>, paths: set<Path>): nat {
    if scan == [] then 0
    else
      var last := scan[|scan| - 1];
      ChunksAt(st, scan[..|scan| - 1], paths)
      + (if last.path in paths then |st.chunker(last.path, last.content)| else 0)
  }

  ghost function ScannedPaths(scan: seq<Scanned>): set<Path> {
    set i | 0 <= i < |scan| :: scan[i].path
  }

  lemma {:induction false} ChunksSplit(st: Setting, scan: seq<Scanned>, paths: set<Path>)
    ensures ChunksAt(st, scan, paths) + ChunksAt(st, scan, ScannedPaths(scan) - paths)
            == ChunksAt(st, scan, ScannedPaths(scan))
  {
    ChunksSplitIn(st, scan, paths, ScannedPaths(scan));
  }

  lemma {:induction false} ChunksSplitIn(st: Setting, scan: seq<Scanned>, paths: set<Path>, all: set<Path>)
    requires ScannedPaths(scan) <= all
    ensures ChunksAt(st, scan, paths) + ChunksAt(st, scan, all - paths) == ChunksAt(st, scan, all)
  {
    if scan != [] {
      var init, last := scan[..|scan| - 1], scan[|scan| - 1];
      assert scan == init + [last];
      assert last.path in ScannedPaths(scan);
      forall p | p in ScannedPaths(init) ensures p in ScannedPaths(scan) {
        var i :| 0 <= i < |init| && init[i].path == p;
        assert scan[i].path == p;
      }
      ChunksSplitIn(st, init, paths, all);
    }
  }

  lemma {:induction false} WantedSize(e: Embedder, model: ModelName, p: Path, fragments: seq<Fragment>)
    ensures |Wanted(e, model, p, fragments)| == |fragments|
  {
    if fragments != [] {
      WantedSize(e, model, p, fragments[1..]);
    }
  }

  lemma {:induction false} RowIsHeld(rows: seq<ChunkRow>, i: nat)
    requires i < |rows|
    ensures (rows[i].fragment, rows[i].embeddings) in Held(rows, rows[i].path)
  {
    if i > 0 {
      RowIsHeld(rows[1..], i - 1);
    }
  }

  /** The rows held at the scanned paths, path by path. */
  ghost function HeldAll(rows: seq<ChunkRow>, scan: seq<Scanned>): nat {
    if scan == [] then 0 else HeldAll(rows, scan[..|scan| - 1]) + |Held(rows, scan[|scan| - 1].path)|
  }

  lemma {:induction false} HeldAllCons(row: ChunkRow, rows: seq<ChunkRow>, scan: seq<Scanned>)
    requires DistinctPaths(scan)
    ensures HeldAll([row] + rows, scan) == HeldAll(rows, scan) + if row.path in ScannedPaths(scan) then 1 else 0
  {
    assert ([row] + rows)[1..] == rows;
    if scan != [] {
      var init, last := scan[..|scan| - 1], scan[|scan| - 1];
      assert scan == init + [last];
      HeldAllCons(row, rows, init);
      PathsOfSnoc(init, last);
      assert last.path !in ScannedPaths(init);
    }
  }

  lemma {:induction false} HeldAllNone(scan: seq<Scanned>)
    ensures HeldAll([], scan) == 0
  {
    if scan != [] {
      HeldAllNone(scan[..|scan| - 1]);
    }
  }

  /** Rows that all belong to scanned paths are as many as are held there. */
  lemma {:induction false} RowsByPath(rows: seq<ChunkRow>, scan: seq<Scanned>)
    requires DistinctPaths(scan) && forall i :: 0 <= i < |rows| ==> rows[i].path in ScannedPaths(scan)
    ensures HeldAll(rows, scan) == |rows|
  {
    if rows == [] {
      HeldAllNone(scan);
    } else {
      RowsByPath(rows[1..], scan);
      HeldAllCons(rows[0], rows[1..], scan);
      assert rows == [rows[0]] + rows[1..];
    }
  }

  /** Rows that hold what is wanted at some paths and nothing elsewhere are as many as the chunker makes there. */
  lemma {:induction false} HeldIsChunked(st: Setting, texts: map<Path, Content>, rows: seq<ChunkRow>,
                                         scan: seq<Scanned>, paths: set<Path>)
    requires forall i :: 0 <= i < |scan| ==> scan[i].path in texts && texts[scan[i].path] == scan[i].content
    requires forall i :: 0 <= i < |scan| ==>
               Held(rows, scan[i].path)
               == if scan[i].path in paths then WantedAt(st, scan[i].path, scan[i].content) else multiset{}
    ensures HeldAll(rows, scan) == ChunksAt(st, scan, paths)
  {
    if scan != [] {
      var init, last := scan[..|scan| - 1], scan[|scan| - 1];
      assert forall i :: 0 <= i < |init| ==> init[i] == scan[i];
      HeldIsChunked(st, texts, rows, init, paths);
      WantedSize(st.embedder, st.model, last.path, st.chunker(last.path, last.content));
    }
  }

  lemma RowsAreScanned(st: Setting, texts: map<Path, Content>, scan: seq<Scanned>, files: seq<FileRow>,
                       chunks: seq<ChunkRow>)
    requires Reads(scan, texts) && Progress(st, texts, files, chunks)
    ensures forall i :: 0 <= i < |chunks| ==> chunks[i].path in ScannedPaths(scan)
  {
    forall i | 0 <= i < |chunks| ensures chunks[i].path in ScannedPaths(scan) {
      RowIsHeld(chunks, i);
      assert PathRight(st, texts, files, chunks, chunks[i].path);
      assert chunks[i].path in texts;
    }
  }

  /** The chunk rows of a snapshot under construction are those the chunker makes of the files written so far. */
  lemma ProgressCounts(st: Setting, texts: map<Path, Content>, scan: seq<Scanned>, files: seq<FileRow>,
                       chunks: seq<ChunkRow>)
    requires DistinctPaths(scan) && Reads(scan, texts) && Progress(st, texts, files, chunks)
    ensures |chunks| == ChunksAt(st, scan, PathSet(files))
  {
    RowsAreScanned(st, texts, scan, files, chunks);
    RowsByPath(chunks, scan);
    forall i | 0 <= i < |scan|
      ensures Held(chunks, scan[i].path)
              == if scan[i].path in PathSet(files) then WantedAt(st, scan[i].path, scan[i].content) else multiset{}
    {
      assert PathRight(st, texts, files, chunks, scan[i].path);
    }
    HeldIsChunked(st, texts, chunks, scan, PathSet(files));
  }

  lemma EverythingIsChunked(st: Setting, scan: seq<Scanned>, s: Snapshot)
    requires DistinctPaths(scan) && Complete(st, TextsOf(scan), s)
    ensures |s.chunks| == ChunksAt(st, scan, ScannedPaths(scan))
  {
    var texts := TextsOf(scan);
    ProgressCounts(st, texts, scan, s.files, s.chunks);
    assert texts.Keys == ScannedPaths(scan);
  }

  // ------------------------------------------------------------------ when the shortcut serves

  /** The shortcut's condition, read off the rows: the same text, and chunks that all have only this model's vectors. */
  lemma ServedWhen(s: Snapshot, model: ModelName, f: Scanned)
    requires UniquePaths(s.files)
    ensures Unchanged(Some(s), f) <==>
            exists i :: 0 <= i < |s.files| && s.files[i].path == f.path && s.files[i].hash.text == f.content
    ensures Unchanged(Some(s), f) && Reusable(Some(s), model, f.path) <==>
            && (exists i :: 0 <= i < |s.files| && s.files[i].path == f.path && s.files[i].hash.text == f.content)
            && (exists i :: 0 <= i < |s.chunks| && s.chunks[i].path == f.path)
            && (forall i :: 0 <= i < |s.chunks| && s.chunks[i].path == f.path ==>
                  s.chunks[i].embeddings != []
                  && forall j :: 0 <= j < |s.chunks[i].embeddings| ==> s.chunks[i].embeddings[j].model == model)
  {
    if i :| 0 <= i < |s.files| && s.files[i].path == f.path && s.files[i].hash.text == f.content {
      assert s.files[i] in s.files;
      UniqueRow(s.files, s.files[i]);
      assert s.files[i].hash == Sha256(f.content);
    }
    if Unchanged(Some(s), f) {
      var i :| 0 <= i < |s.files| && s.files[i] == FileAt(s.files, f.path).value;
    }
  }

  lemma {:induction false} NoChunksAt(st: Setting, scan: seq<Scanned>, paths: set<Path>)
    requires forall f :: f in scan && f.path in paths ==> st.chunker(f.path, f.content) == []
    ensures ChunksAt(st, scan, paths) == 0
  {
    if scan != [] {
      var init, last := scan[..|scan| - 1], scan[|scan| - 1];
      assert scan == init + [last];
      assert last in scan;
      NoChunksAt(st, init, paths);
    }
  }

  lemma FragmentsAreRows(rows: seq<ChunkRow>, p: Path)
    ensures Fragments(rows, p) != multiset{} ==> HasChunk(rows, p)
  {
    if rows != [] {
      FragmentsAreRows(rows[1..], p);
      if HasChunk(rows[1..], p) {
        var i :| 0 <= i < |rows[1..]| && rows[1..][i].path == p;
        assert rows[i + 1].path == p;
      }
    }
  }

  /** A file of a complete snapshot, unchanged, is served unless it has no chunks to serve. */
  lemma CompleteServes(st: Setting, scan: seq<Scanned>, s: Snapshot, f: Scanned)
    requires DistinctPaths(scan) && Complete(st, TextsOf(scan), s) && f in scan
    requires st.chunker(f.path, f.content) != []
    ensures Unchanged(Some(s), f) && Reusable(Some(s), st.model, f.path)
  {
    var texts := TextsOf(scan);
    assert f.path in texts && texts[f.path] == f.content by {
      var k :| 0 <= k < |scan| && scan[k] == f;
    }
    assert f.path in PathSet(s.files);
    var i :| 0 <= i < |s.files| && s.files[i].path == f.path;
    assert FileRight(st, texts, s.files[i]);
    CompleteRows(st, texts, s, f.path);
    assert st.chunker(f.path, f.content)[0] in multiset(st.chunker(f.path, f.content));
    FragmentsAreRows(s.chunks, f.path);
    ServedWhen(s, st.model, f);
  }

  /** Indexing what the previous snapshot already holds, with the same model, makes no chunk and no vector. */
  lemma NothingNewNothingMade(st: Setting, scan: seq<Scanned>, s: Snapshot)
    requires DistinctPaths(scan) && Complete(st, TextsOf(scan), s)
    ensures ChunksAt(st, scan, ScannedPaths(scan) - ReusablePaths(Some(s), st.model, scan)) == 0
  {
    var served := ReusablePaths(Some(s), st.model, scan);
    forall f | f in scan && f.path in ScannedPaths(scan) - served ensures st.chunker(f.path, f.content) == [] {
      if st.chunker(f.path, f.content) != [] {
        CompleteServes(st, scan, s, f);
      }
    }
    NoChunksAt(st, scan, ScannedPaths(scan) - served);
  }

  /** The rows of one snapshot, filled in place. */
  class SnapshotRecord {
    var files: seq<FileRow>
    var chunks: seq<ChunkRow>
    var ready: bool
    var fileCount: nat
    var chunkCount: nat
    var embeddingModel: ModelName

    ghost function View(): Snapshot
      reads this
    {
      Snapshot(files, chunks)
    }

    constructor ()
      ensures files == [] && chunks == [] && !ready
    {
      files, chunks, ready, fileCount, chunkCount, embeddingModel := [], [], false, 0, 0, "";
    }

    /**
     `index_snapshot`: into an empty snapshot, and from any consistent predecessor or none, the
     result is the one a full index of the same checkout would store.
     */
    method Index(st: Setting, scan: seq<Scanned>, previous: Option<Snapshot>) returns (result: IndexResult)
      requires files == [] && chunks == [] && DistinctPaths(scan)
      requires previous.Some? ==> Consistent(st.chunker, st.embedder, previous.value)
      modifies this
      ensures Complete(st, TextsOf(scan), View())
      ensures Equivalent(View(), FromScratch(st, scan))
      ensures ready && embeddingModel == st.model
      ensures result.filesIndexed + result.filesReused == |scan| == |files| == fileCount
      ensures result.filesReused == |ReusablePaths(previous, st.model, scan)|
      ensures var served := ReusablePaths(previous, st.model, scan);
              && result.chunksReused == result.embeddingsReused == ChunksAt(st, scan, served)
              && result.chunksCreated == result.embeddingsCreated
                 == ChunksAt(st, scan, ScannedPaths(scan) - served)
      ensures |chunks| == chunkCount == result.chunksCreated + result.chunksReused
      ensures previous.Some? && Complete(st, TextsOf(scan), previous.value) ==>
                result.chunksCreated == 0 && result.embeddingsCreated == 0
    {
      var reused, fileRows, embedded := IndexRows(st, scan, previous, TextsOf(scan));
      ghost var s := Snapshot(reused.files + fileRows, reused.chunks + embedded);
      IsFromScratch(st, scan, s);
      EverythingIsChunked(st, scan, s);
      ChunksSplit(st, scan, ReusablePaths(previous, st.model, scan));
      if previous.Some? && Complete(st, TextsOf(scan), previous.value) {
        NothingNewNothingMade(st, scan, previous.value);
      }
      files := reused.files + fileRows;
      chunks := reused.chunks + embedded;
      ready := true;
      fileCount := |scan|;
      chunkCount := |embedded| + |reused.chunks|;
      embeddingModel := st.model;
      result := IndexResult(|fileRows|, |reused.files|, |embedded|, |reused.chunks|, |embedded|, |reused.chunks|);
      assert View() == s;
    }
  }

  // ------------------------------------------------------------------ histories of commits

  /** What may be missing when a snapshot is next read: whole files, all chunks of a file, single vectors. */
  datatype Loss = Loss(files: set<Path>, chunks: set<Path>, vectors: set<(Path, Fragment)>)

  function KeptFiles(files: seq<FileRow>, lost: set<Path>): (r: seq<FileRow>)
    ensures forall f :: f in r ==> f in files
    ensures UniquePaths(files) ==> UniquePaths(r)
  {
    if files == [] then []
    else
      var last := files[|files| - 1];
      assert files == files[..|files| - 1] + [last];
      var rest := KeptFiles(files[..|files| - 1], lost);
      assert UniquePaths(files) ==> forall f :: f in files[..|files| - 1] ==> f.path != last.path;
      if last.path in lost then rest else rest + [last]
  }

  function KeptChunks(chunks: seq<ChunkRow>, loss: Loss): seq<ChunkRow> {
    if chunks == [] then []
    else
      var rest := KeptChunks(chunks[1..], loss);
      var first := chunks[0];
      if first.path in loss.chunks then rest
      else [if (first.path, first.fragment) in loss.vectors then first.(embeddings := []) else first] + rest
  }

  function Degrade(s: Snapshot, loss: Loss): Snapshot {
    Snapshot(KeptFiles(s.files, loss.files), KeptChunks(s.chunks, loss))
  }

  lemma {:induction false} KeptFragments(chunks: seq<ChunkRow>, loss: Loss, p: Path)
    ensures Fragments(KeptChunks(chunks, loss), p) == if p in loss.chunks then multiset{} else Fragments(chunks, p)
  {
    if chunks != [] {
      KeptFragments(chunks[1..], loss, p);
      var rest := KeptChunks(chunks[1..], loss);
      var all := KeptChunks(chunks, loss);
      if chunks[0].path !in loss.chunks {
        assert all[1..] == rest;
      }
    }
  }

  lemma {:induction false} KeptRowsConsistent(e: Embedder, chunks: seq<ChunkRow>, loss: Loss)
    requires forall i :: 0 <= i < |chunks| ==> RowConsistent(e, chunks[i])
    ensures forall i :: 0 <= i < |KeptChunks(chunks, loss)| ==> RowConsistent(e, KeptChunks(chunks, loss)[i])
  {
    if chunks != [] {
      KeptRowsConsistent(e, chunks[1..], loss);
      assert RowConsistent(e, chunks[0]);
    }
  }

  /** In a complete snapshot every row is current, so its fragments are the chunker's. */
  lemma CompleteRows(st: Setting, texts: map<Path, Content>, s: Snapshot, p: Path)
    requires Complete(st, texts, s)
    ensures AllCurrent(st.embedder, st.model, s.chunks, p)
    ensures p in texts ==> Fragments(s.chunks, p) == multiset(st.chunker(p, texts[p]))
  {
    assert PathRight(st, texts, s.files, s.chunks, p);
    forall i | 0 <= i < |s.chunks| && s.chunks[i].path == p
      ensures s.chunks[i].embeddings == [Embedding(st.model, st.embedder(st.model, p, s.chunks[i].fragment))]
    {
      RowIsHeld(s.chunks, i);
      if p in texts {
        WantedCounts(st.embedder, st.model, p, st.chunker(p, texts[p]), s.chunks[i].fragment, s.chunks[i].embeddings);
      }
    }
    if p in texts {
      forall f ensures Fragments(s.chunks, p)[f] == multiset(st.chunker(p, texts[p]))[f] {
        var v := [Embedding(st.model, st.embedder(st.model, p, f))];
        CurrentRowsCount(st.embedder, st.model, s.chunks, p, f, v);
        WantedCounts(st.embedder, st.model, p, st.chunker(p, texts[p]), f, v);
      }
    }
  }

  /** Whatever is lost of a complete snapshot, the rest is a consistent predecessor, for any later model. */
  lemma LossKeepsConsistency(st: Setting, texts: map<Path, Content>, s: Snapshot, loss: Loss)
    requires Complete(st, texts, s)
    ensures Consistent(st.chunker, st.embedder, Degrade(s, loss))
  {
    forall i | 0 <= i < |s.chunks| ensures RowConsistent(st.embedder, s.chunks[i]) {
      CompleteRows(st, texts, s, s.chunks[i].path);
    }
    KeptRowsConsistent(st.embedder, s.chunks, loss);
    var files := KeptFiles(s.files, loss.files);
    forall i | 0 <= i < |files| ensures FileConsistent(st.chunker, files[i], KeptChunks(s.chunks, loss)) {
      assert files[i] in s.files;
      var k :| 0 <= k < |s.files| && s.files[k] == files[i];
      assert FileRight(st, texts, s.files[k]);
      CompleteRows(st, texts, s, files[i].path);
      KeptFragments(s.chunks, loss, files[i].path);
    }
  }

  /** One commit to index: its files, the embedding model in use, and what has been lost of the snapshot before it. */
  datatype Commit = Commit(scan: seq<Scanned>, model: ModelName, lost: Loss)

  /** Every snapshot is the one a full index of its commit would build. */
  ghost predicate AllRefine(c: Chunker, e: Embedder, commits: seq<Commit>, snapshots: seq<Snapshot>) {
    && |snapshots| == |commits|
    && (commits != [] ==>
          var n := |commits| - 1;
          && Equivalent(snapshots[n], FromScratch(Setting(c, e, commits[n].model), commits[n].scan))
          && AllRefine(c, e, commits[..n], snapshots[..n]))
  }

  lemma MoreRefine(c: Chunker, e: Embedder, commits: seq<Commit>, k: nat, snapshots: seq<Snapshot>, s: Snapshot)
    requires k < |commits| && AllRefine(c, e, commits[..k], snapshots)
    requires Equivalent(s, FromScratch(Setting(c, e, commits[k].model), commits[k].scan))
    ensures AllRefine(c, e, commits[..k + 1], snapshots + [s])
  {
    assert commits[..k + 1][..k] == commits[..k];
    assert (snapshots + [s])[..k] == snapshots;
  }

  lemma {:induction false} EachRefines(c: Chunker, e: Embedder, commits: seq<Commit>, snapshots: seq<Snapshot>)
    requires AllRefine(c, e, commits, snapshots)
    ensures forall k :: 0 <= k < |commits| ==>
              Equivalent(snapshots[k], FromScratch(Setting(c, e, commits[k].model), commits[k].scan))
  {
    if commits != [] {
      var n := |commits| - 1;
      EachRefines(c, e, commits[..n], snapshots[..n]);
      forall k | 0 <= k < n
        ensures Equivalent(snapshots[k], FromScratch(Setting(c, e, commits[k].model), commits[k].scan))
      {
        assert snapshots[..n][k] == snapshots[k] && commits[..n][k] == commits[k];
      }
    }
  }

  /**
   Incremental indexing refines full indexing: over every sequence of commits, each indexed from
   what is left of its predecessor's snapshot and each with any embedding model, every snapshot
   equals the one built from scratch.
   */
  method IndexHistory(c: Chunker, e: Embedder, commits: seq<Commit>) returns (snapshots: seq<Snapshot>)
    requires forall k :: 0 <= k < |commits| ==> DistinctPaths(commits[k].scan)
    ensures |snapshots| == |commits|
    ensures AllRefine(c, e, commits, snapshots)
    ensures forall k :: 0 <= k < |commits| ==>
              Equivalent(snapshots[k], FromScratch(Setting(c, e, commits[k].model), commits[k].scan))
  {
    snapshots := [];
    var previous: Option<Snapshot> := None;
    ghost var was, texts := Setting(c, e, ""), map[];
    for k := 0 to |commits|
      invariant |snapshots| == k
      invariant AllRefine(c, e, commits[..k], snapshots)
      invariant was.chunker == c && was.embedder == e
      invariant previous.Some? ==> Complete(was, texts, previous.value)
    {
      var st := Setting(c, e, commits[k].model);
      var snapshot := IndexCommit(st, commits[k], previous, was, texts);
      MoreRefine(c, e, commits, k, snapshots, snapshot);
      was, texts := st, TextsOf(commits[k].scan);
      snapshots := snapshots + [snapshot];
      previous := Some(snapshot);
    }
    assert commits[..|commits|] == commits;
    EachRefines(c, e, commits, snapshots);
  }

  method IndexCommit(st: Setting, commit: Commit, previous: Option<Snapshot>,
                     ghost was: Setting, ghost texts: map<Path, Content>)
    returns (snapshot: Snapshot)
    requires DistinctPaths(commit.scan)
    requires previous.Some? ==>
               was.chunker == st.chunker && was.embedder == st.embedder && Complete(was, texts, previous.value)
    ensures Complete(st, TextsOf(commit.scan), snapshot)
    ensures Equivalent(snapshot, FromScratch(st, commit.scan))
  {
    var left: Option<Snapshot> := None;
    if previous.Some? {
      LossKeepsConsistency(was, texts, previous.value, commit.lost);
      left := Some(Degrade(previous.value, commit.lost));
    }
    var record := new SnapshotRecord();
    var _ := record.Index(st, commit.scan, left);
    snapshot := Snapshot(record.files, record.chunks);
  }
}
