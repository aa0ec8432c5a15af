/**
 Reciprocal rank fusion of backend/app/rag/retrieve.py, over exact reals. A dictionary is a
 sequence in insertion order with unique keys.
 */
module RankFusion {
  import opened Basics

  type Id = nat

  datatype Retrieved = Retrieved(
    id: Id, score: real, strategies: seq<string>, semanticRank: Option<nat>, lexicalRank: Option<nat>)

  /** One strategy's hits, best first. */
  datatype Ranked = Ranked(strategy: string, hits: seq<Id>)

  const RRF_K := 60
  const CANDIDATES_PER_STRATEGY := 30

  function Weight(weights: map<string, real>, strategy: string): real {
    if strategy in weights then weights[strategy] else 1.0
  }

  // ------------------------------------------------------------------ the formula

  /** What one hit adds: its weight over sixty plus its rank, with ranks counted from 1. */
  function Contribution(weight: real, rank: nat): real
    requires rank >= 1
  {
    weight / (RRF_K + rank) as real
  }

  function ListScore(weight: real, hits: seq<Id>, id: Id): real {
    if hits == [] then 0.0
    else
      var n := |hits|;
      ListScore(weight, hits[..n - 1], id) + if hits[n - 1] == id then Contribution(weight, n) else 0.0
  }

  /** Sum over the lists of weight / (K + rank). */
  function Score(weights: map<string, real>, lists: seq<Ranked>, id: Id): real {
    if lists == [] then 0.0
    else
      var last := lists[|lists| - 1];
      Score(weights, lists[..|lists| - 1], id) + ListScore(Weight(weights, last.strategy), last.hits, id)
  }

  // ------------------------------------------------------------------ sorted(..., reverse=True)

  ghost predicate Descending(items: seq<Retrieved>) {
    forall i, j :: 0 <= i < j < |items| ==> items[i].score >= items[j].score
  }

  function Insert(sorted: seq<Retrieved>, x: Retrieved): (r: seq<Retrieved>)
    ensures |r| == |sorted| + 1
    ensures multiset(r) == multiset(sorted) + multiset{x}
  {
    if sorted == [] then [x]
    else if x.score > sorted[|sorted| - 1].score then
      assert sorted == sorted[..|sorted| - 1] + [sorted[|sorted| - 1]];
      Insert(sorted[..|sorted| - 1], x) + [sorted[|sorted| - 1]]
    else sorted + [x]
  }

  /** Python's stable sort by descending score. */
  function SortDesc(items: seq<Retrieved>): (r: seq<Retrieved>)
    ensures |r| == |items|
    ensures multiset(r) == multiset(items)
  {
    if items == [] then []
    else
      assert items == items[..|items| - 1] + [items[|items| - 1]];
      Insert(SortDesc(items[..|items| - 1]), items[|items| - 1])
  }

  lemma {:induction false} InsertKeepsOrder(sorted: seq<Retrieved>, x: Retrieved)
    requires Descending(sorted)
    ensures Descending(Insert(sorted, x))
  {
    if sorted != [] && x.score > sorted[|sorted| - 1].score {
      var init, last := sorted[..|sorted| - 1], sorted[|sorted| - 1];
      InsertKeepsOrder(init, x);
      var r := Insert(init, x);
      forall i | 0 <= i < |r| ensures r[i].score >= last.score {
        assert r[i] in multiset(r);
        assert r[i] in multiset(init) || r[i] == x;
      }
    }
  }

  lemma {:induction false} SortIsSorted(items: seq<Retrieved>)
    ensures Descending(SortDesc(items))
  {
    if items != [] {
      SortIsSorted(items[..|items| - 1]);
      InsertKeepsOrder(SortDesc(items[..|items| - 1]), items[|items| - 1]);
    }
  }

  /** The items of one score, in the order they come in. */
  function WithScore(items: seq<Retrieved>, s: real): seq<Retrieved> {
    if items == [] then []
    else
      var last := items[|items| - 1];
      WithScore(items[..|items| - 1], s) + if last.score == s then [last] else []
  }

  lemma {:induction false} NoneWithScore(items: seq<Retrieved>, s: real)
    requires forall i :: 0 <= i < |items| ==> items[i].score != s
    ensures WithScore(items, s) == []
  {
    if items != [] {
      NoneWithScore(items[..|items| - 1], s);
    }
  }

  lemma {:induction false} InsertIsStable(sorted: seq<Retrieved>, x: Retrieved, s: real)
    requires Descending(sorted)
    ensures WithScore(Insert(sorted, x), s) == WithScore(sorted, s) + if x.score == s then [x] else []
  {
    if sorted == [] {
      assert [x][..0] == [];
    } else if x.score > sorted[|sorted| - 1].score {
      var init, last := sorted[..|sorted| - 1], sorted[|sorted| - 1];
      InsertIsStable(init, x, s);
      assert (Insert(init, x) + [last])[..|sorted|] == Insert(init, x);
    } else {
      assert (sorted + [x])[..|sorted|] == sorted;
    }
  }

  /** Ties keep the order they came in. */
  lemma {:induction false} SortIsStable(items: seq<Retrieved>, s: real)
    ensures WithScore(SortDesc(items), s) == WithScore(items, s)
  {
    if items != [] {
      var init, last := items[..|items| - 1], items[|items| - 1];
      SortIsSorted(init);
      SortIsStable(init, s);
      InsertIsStable(SortDesc(init), last, s);
    }
  }

  // ------------------------------------------------------------------ the fusion loop

  ghost predicate UniqueIds(items: seq<Retrieved>) {
    forall i, j :: 0 <= i < j < |items| ==> items[i].id != items[j].id
  }

  /** The merged entry of an id, if there is one. */
  function IndexOf(items: seq<Retrieved>, id: Id): (r: Option<nat>)
    ensures r.Some? ==> r.value < |items| && items[r.value].id == id
    ensures r.None? ==> forall i :: 0 <= i < |items| ==> items[i].id != id
  {
    if items == [] then None
    else if items[|items| - 1].id == id then Some(|items| - 1)
    else IndexOf(items[..|items| - 1], id)
  }

  /** The hits of the lists one after another. */
  function AllHits(lists: seq<Ranked>): seq<Id> {
    if lists == [] then [] else AllHits(lists[..|lists| - 1]) + lists[|lists| - 1].hits
  }

  /** A sequence without its later repetitions: the insertion order of a dictionary. */
  function FirstSeen(ids: seq<Id>): (r: seq<Id>)
    ensures forall id :: id in r <==> id in ids
  {
    if ids == [] then []
    else
      var init, last := ids[..|ids| - 1], ids[|ids| - 1];
      assert ids == init + [last];
      if last in init then FirstSeen(init) else FirstSeen(init) + [last]
  }

  function Ids(items: seq<Retrieved>): (r: seq<Id>)
    ensures |r| == |items| && forall i :: 0 <= i < |r| ==> r[i] == items[i].id
  {
    seq(|items|, i requires 0 <= i < |items| => items[i].id)
  }

  /** What one hit adds to its entry: score, strategy, and that strategy's latest rank. */
  function Credit(x: Retrieved, strategy: string, contribution: real, position: nat): Retrieved {
    var y := x.(score := x.score + contribution, strategies := x.strategies + [strategy]);
    if strategy == "semantic" then y.(semanticRank := Some(position))
    else if strategy == "lexical" then y.(lexicalRank := Some(position))
    else y
  }

  function Blank(id: Id): Retrieved {
    Retrieved(id, 0.0, [], None, None)
  }

  /** An entry after one list. */
  function ListEntry(x: Retrieved, strategy: string, weight: real, hits: seq<Id>): Retrieved {
    if hits == [] then x
    else
      var n := |hits|;
      var y := ListEntry(x, strategy, weight, hits[..n - 1]);
      if hits[n - 1] == x.id then Credit(y, strategy, Contribution(weight, n), n) else y
  }

  /** The entry of an id, computed on its own from the lists. */
  function EntryOf(weights: map<string, real>, lists: seq<Ranked>, id: Id): Retrieved {
    if lists == [] then Blank(id)
    else
      var last := lists[|lists| - 1];
      ListEntry(EntryOf(weights, lists[..|lists| - 1], id), last.strategy, Weight(weights, last.strategy), last.hits)
  }

  lemma {:induction false} ListEntryScore(x: Retrieved, strategy: string, weight: real, hits: seq<Id>)
    ensures ListEntry(x, strategy, weight, hits).id == x.id
    ensures ListEntry(x, strategy, weight, hits).score == x.score + ListScore(weight, hits, x.id)
  {
    if hits != [] {
      ListEntryScore(x, strategy, weight, hits[..|hits| - 1]);
    }
  }

  /** The entry's score is the formula's. */
  lemma {:induction false} EntryScore(weights: map<string, real>, lists: seq<Ranked>, id: Id)
    ensures EntryOf(weights, lists, id).id == id
    ensures EntryOf(weights, lists, id).score == Score(weights, lists, id)
  {
    if lists != [] {
      var init, last := lists[..|lists| - 1], lists[|lists| - 1];
      EntryScore(weights, init, id);
      ListEntryScore(EntryOf(weights, init, id), last.strategy, Weight(weights, last.strategy), last.hits);
    }
  }

  lemma {:induction false} UnseenKeepsEntry(x: Retrieved, strategy: string, weight: real, hits: seq<Id>)
    requires x.id !in hits
    ensures ListEntry(x, strategy, weight, hits) == x
  {
    if hits != [] {
      UnseenKeepsEntry(x, strategy, weight, hits[..|hits| - 1]);
    }
  }

  lemma {:induction false} NeverSeenIsBlank(weights: map<string, real>, lists: seq<Ranked>, id: Id)
    requires id !in AllHits(lists)
    ensures EntryOf(weights, lists, id) == Blank(id)
  {
    if lists != [] {
      var last := lists[|lists| - 1];
      NeverSeenIsBlank(weights, lists[..|lists| - 1], id);
      UnseenKeepsEntry(Blank(id), last.strategy, Weight(weights, last.strategy), last.hits);
    }
  }

  /** One hit merged in: the entry found, or a new one, is credited. */
  function MergeHit(merged: seq<Retrieved>, strategy: string, contribution: real, position: nat,
                    id: Id): seq<Retrieved>
  {
    match IndexOf(merged, id)
    case None => merged + [Credit(Blank(id), strategy, contribution, position)]
    case Some(k) => merged[k := Credit(merged[k], strategy, contribution, position)]
  }

  /** Entries in insertion order, each the one some function gives its id. */
  ghost predicate Tabulates(merged: seq<Retrieved>, order: seq<Id>, entry: Id -> Retrieved) {
    && Ids(merged) == order
    && UniqueIds(merged)
    && (forall i :: 0 <= i < |merged| ==> merged[i] == entry(merged[i].id))
  }

  /** Crediting one hit changes the entry of its id, and no other. */
  lemma HitCredits(merged: seq<Retrieved>, order: seq<Id>, f: Id -> Retrieved, g: Id -> Retrieved, strategy: string,
                   c: real, position: nat, id: Id)
    requires Tabulates(merged, order, f)
    requires forall x: Id :: g(x) == if x == id then Credit(f(x), strategy, c, position) else f(x)
    requires id !in order ==> f(id) == Blank(id)
    ensures Tabulates(MergeHit(merged, strategy, c, position, id), if id in order then order else order + [id], g)
  {
  }

  lemma SnocSeen(before: seq<Id>, hits: seq<Id>, id: Id)
    ensures FirstSeen(before + (hits + [id])) ==
            if id in FirstSeen(before + hits) then FirstSeen(before + hits) else FirstSeen(before + hits) + [id]
  {
    assert before + (hits + [id]) == (before + hits) + [id];
    assert ((before + hits) + [id])[..|before + hits|] == before + hits;
  }

  lemma SnocEntry(x: Retrieved, strategy: string, weight: real, hits: seq<Id>, id: Id)
    ensures ListEntry(x, strategy, weight, hits + [id]) ==
            var y := ListEntry(x, strategy, weight, hits);
            if x.id == id then Credit(y, strategy, Contribution(weight, |hits| + 1), |hits| + 1) else y
  {
  }

  /** The entries once the lists `done` and the first `hits` of the next one are merged. */
  ghost function SoFar(weights: map<string, real>, done: seq<Ranked>, strategy: string,
                       hits: seq<Id>): Id -> Retrieved
  {
    (x: Id) => ListEntry(EntryOf(weights, done, x), strategy, Weight(weights, strategy), hits)
  }

  ghost predicate Merging(weights: map<string, real>, done: seq<Ranked>, strategy: string, hits: seq<Id>,
                          merged: seq<Retrieved>)
  {
    Tabulates(merged, FirstSeen(AllHits(done) + hits), SoFar(weights, done, strategy, hits))
  }

  lemma HitKeepsMerging(weights: map<string, real>, done: seq<Ranked>, strategy: string, hits: seq<Id>, n: nat,
                        merged: seq<Retrieved>)
    requires n < |hits| && Merging(weights, done, strategy, hits[..n], merged)
    ensures Merging(weights, done, strategy, hits[..n + 1],
                    MergeHit(merged, strategy, Contribution(Weight(weights, strategy), n + 1), n + 1, hits[n]))
  {
    var w, id, before := Weight(weights, strategy), hits[n], hits[..n];
    assert hits[..n + 1] == before + [id];
    var f, g := SoFar(weights, done, strategy, before), SoFar(weights, done, strategy, before + [id]);
    forall x: Id ensures g(x) == if x == id then Credit(f(x), strategy, Contribution(w, n + 1), n + 1) else f(x) {
      EntryScore(weights, done, x);
      SnocEntry(EntryOf(weights, done, x), strategy, w, before, id);
    }
    if id !in FirstSeen(AllHits(done) + before) {
      NeverSeenIsBlank(weights, done, id);
      UnseenKeepsEntry(Blank(id), strategy, w, before);
    }
    SnocSeen(AllHits(done), before, id);
    HitCredits(merged, FirstSeen(AllHits(done) + before), f, g, strategy, Contribution(w, n + 1), n + 1, id);
  }

  /** All lists so far are merged. */
  ghost predicate Merged(weights: map<string, real>, done: seq<Ranked>, merged: seq<Retrieved>) {
    && Ids(merged) == FirstSeen(AllHits(done))
    && UniqueIds(merged)
    && (forall i :: 0 <= i < |merged| ==> merged[i] == EntryOf(weights, done, merged[i].id))
  }

  /** The inner loop: one list merged in. */
  method MergeList(before: seq<Retrieved>, strategy: string, weight: real, hits: seq<Id>,
                   ghost weights: map<string, real>, ghost done: seq<Ranked>)
    returns (merged: seq<Retrieved>)
    requires weight == Weight(weights, strategy) && Merged(weights, done, before)
    ensures Merging(weights, done, strategy, hits, merged)
  {
    merged := before;
    assert hits[..0] == [] && AllHits(done) + [] == AllHits(done);
    for n := 0 to |hits|
      invariant Merging(weights, done, strategy, hits[..n], merged)
    {
      HitKeepsMerging(weights, done, strategy, hits, n, merged);
      var position := n + 1;
      var contribution := weight / (RRF_K + position) as real;
      var existing := IndexOf(merged, hits[n]);
      if existing.None? {
        merged := merged + [Credit(Blank(hits[n]), strategy, contribution, position)];
      } else {
        merged := merged[existing.value := Credit(merged[existing.value], strategy, contribution, position)];
      }
    }
    assert hits[..|hits|] == hits;
  }

  lemma NextList(weights: map<string, real>, lists: seq<Ranked>, k: nat, merged: seq<Retrieved>)
    requires k < |lists|
    requires Merging(weights, lists[..k], lists[k].strategy, lists[k].hits, merged)
    ensures Merged(weights, lists[..k + 1], merged)
  {
    assert lists[..k + 1][..k] == lists[..k];
  }

  /** The nested loops over the lists. */
  method Merge(lists: seq<Ranked>, weights: map<string, real>) returns (merged: seq<Retrieved>)
    ensures Ids(merged) == FirstSeen(AllHits(lists)) && UniqueIds(merged)
    ensures forall i :: 0 <= i < |merged| ==> merged[i] == EntryOf(weights, lists, merged[i].id)
  {
    merged := [];
    for k := 0 to |lists|
      invariant Merged(weights, lists[..k], merged)
    {
      var weight := Weight(weights, lists[k].strategy);
      merged := MergeList(merged, lists[k].strategy, weight, lists[k].hits, weights, lists[..k]);
      NextList(weights, lists, k, merged);
    }
    assert lists[..|lists|] == lists;
  }

  /** Equal scores are listed in the order in which the ids first appeared. */
  ghost predicate TiesInOrder(ranking: seq<Retrieved>, order: seq<Id>) {
    exists merged: seq<Retrieved> :: Ids(merged) == order && SameTies(ranking, merged)
  }

  ghost predicate SameTies(ranking: seq<Retrieved>, merged: seq<Retrieved>) {
    forall s :: WithScore(ranking, s) == WithScore(merged, s)
  }

  /**
   Reciprocal rank fusion: every id that some list holds appears exactly once, with exactly the
   score of the formula, best first, ties in order of first appearance.
   */
  method Fuse(lists: seq<Ranked>, weights: map<string, real>) returns (ranking: seq<Retrieved>)
    ensures UniqueIds(ranking) && Descending(ranking)
    ensures forall id :: id in Ids(ranking) <==> id in AllHits(lists)
    ensures forall i :: 0 <= i < |ranking| ==> ranking[i].score == Score(weights, lists, ranking[i].id)
    ensures forall i :: 0 <= i < |ranking| ==> ranking[i] == EntryOf(weights, lists, ranking[i].id)
    ensures TiesInOrder(ranking, FirstSeen(AllHits(lists)))
  {
    var merged := Merge(lists, weights);
    ranking := SortDesc(merged);
    SortIsSorted(merged);
    SortingKeepsEntries(merged);
    forall i | 0 <= i < |ranking|
      ensures ranking[i] == EntryOf(weights, lists, ranking[i].id)
      ensures ranking[i].score == Score(weights, lists, ranking[i].id)
    {
      assert ranking[i] in merged;
      EntryScore(weights, lists, ranking[i].id);
    }
    forall s ensures WithScore(ranking, s) == WithScore(merged, s) {
      SortIsStable(merged, s);
    }
    assert SameTies(ranking, merged);
  }

  /** Sorting neither loses, adds nor repeats an entry. */
  lemma SortingKeepsEntries(items: seq<Retrieved>)
    requires UniqueIds(items)
    ensures UniqueIds(SortDesc(items))
    ensures forall id :: id in Ids(SortDesc(items)) <==> id in Ids(items)
    ensures forall x :: x in SortDesc(items) <==> x in items
  {
    var r := SortDesc(items);
    assert forall x :: x in r <==> x in multiset(r);
    assert forall x :: x in items <==> x in multiset(items);
    forall i, j | 0 <= i < j < |r| ensures r[i].id != r[j].id {
      if r[i].id == r[j].id {
        SameIdSameEntry(items, r[i], r[j]);
        TwiceInMultiset(r, i, j);
        OnceInMultiset(items, r[i]);
        assert false;
      }
    }
    SameIds(items, r);
    SameIds(r, items);
  }

  lemma SameIdSameEntry(items: seq<Retrieved>, x: Retrieved, y: Retrieved)
    requires UniqueIds(items) && x in items && y in items && x.id == y.id
    ensures x == y
  {
  }

  lemma TwiceInMultiset(r: seq<Retrieved>, i: nat, j: nat)
    requires i < j < |r| && r[i] == r[j]
    ensures multiset(r)[r[i]] >= 2
  {
    assert r == r[..j] + [r[j]] + r[j + 1..];
    assert r[..j][i] == r[j] && r[j] in multiset(r[..j]);
  }

  lemma {:induction false} OnceInMultiset(items: seq<Retrieved>, x: Retrieved)
    requires UniqueIds(items)
    ensures multiset(items)[x] <= 1
  {
    if items != [] {
      var init, last := items[..|items| - 1], items[|items| - 1];
      assert items == init + [last];
      OnceInMultiset(init, x);
      forall i | 0 <= i < |init| ensures init[i] != last {
        assert items[i].id != items[|items| - 1].id;
      }
    }
  }

  lemma SameIds(a: seq<Retrieved>, b: seq<Retrieved>)
    requires forall x :: x in a ==> x in b
    ensures forall id :: id in Ids(a) ==> id in Ids(b)
  {
    forall id | id in Ids(a) ensures id in Ids(b) {
      var i :| 0 <= i < |Ids(a)| && Ids(a)[i] == id;
      assert a[i] in b;
      var j :| 0 <= j < |b| && b[j] == a[i];
      assert Ids(b)[j] == id;
    }
  }
}
