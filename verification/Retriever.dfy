/**
 The multi-query retriever of backend/app/agent/runtime.py: up to six queries, each cut to its top
 `limit`, merged by best score and cut again.
 */
module Retriever {
  import opened Basics
  import opened RankFusion

  /** What `hybrid_search` fused for each query, before its own cut. */
  type Search = string -> seq<Retrieved>

  const MAX_QUERIES := 6

  /** The first `limit` items, or all of them. */
  function Top(items: seq<Retrieved>, limit: nat): (r: seq<Retrieved>)
    ensures |r| == Min(limit, |items|) && r == items[..|r|]
  {
    items[..Min(limit, |items|)]
  }

  /** One chunk merged in: a new id is appended, a strictly better score replaces the entry in place. */
  function Keep(collected: seq<Retrieved>, x: Retrieved): seq<Retrieved> {
    match IndexOf(collected, x.id)
    case None => collected + [x]
    case Some(k) => if x.score > collected[k].score then collected[k := x] else collected
  }

  function KeepAll(collected: seq<Retrieved>, items: seq<Retrieved>): seq<Retrieved> {
    if items == [] then collected
    else Keep(KeepAll(collected, items[..|items| - 1]), items[|items| - 1])
  }

  /** All lists merged by best score, in the order the ids first appear. */
  function MergeBest(lists: seq<seq<Retrieved>>): seq<Retrieved> {
    if lists == [] then [] else KeepAll(MergeBest(lists[..|lists| - 1]), lists[|lists| - 1])
  }

  function Scores(items: seq<Retrieved>): seq<real> {
    seq(|items|, i requires 0 <= i < |items| => items[i].score)
  }

  // ------------------------------------------------------------------ what merging keeps

  predicate In(x: Retrieved, items: seq<Retrieved>) {
    x in items
  }

  /** The id of `x` is there, with at least its score. */
  ghost predicate Represents(collected: seq<Retrieved>, x: Retrieved) {
    exists k :: 0 <= k < |collected| && collected[k].id == x.id && collected[k].score >= x.score
  }

  /** `collected` has each id seen once, with its best score. */
  ghost predicate Best(collected: seq<Retrieved>, seen: seq<Retrieved>) {
    && UniqueIds(collected)
    && (forall x :: x in collected ==> x in seen)
    && (forall x {:trigger In(x, seen)} :: In(x, seen) ==> Represents(collected, x))
  }

  lemma KeepRepresents(collected: seq<Retrieved>, x: Retrieved, z: Retrieved)
    requires z == x || Represents(collected, z)
    ensures Represents(Keep(collected, x), z)
  {
    var kept := Keep(collected, x);
    if Represents(collected, z) {
      var j :| 0 <= j < |collected| && collected[j].id == z.id && collected[j].score >= z.score;
      assert kept[j].id == z.id && kept[j].score >= z.score;
    } else {
      var k := match IndexOf(collected, x.id) case None => |collected| case Some(j) => j;
      assert kept[k].id == x.id && kept[k].score >= x.score;
    }
  }

  lemma KeepIsBest(collected: seq<Retrieved>, seen: seq<Retrieved>, x: Retrieved)
    requires Best(collected, seen)
    ensures Best(Keep(collected, x), seen + [x])
  {
    forall z | In(z, seen + [x]) ensures Represents(Keep(collected, x), z) {
      assert z == x || In(z, seen);
      KeepRepresents(collected, x, z);
    }
  }

  lemma {:induction false} KeepAllIsBest(collected: seq<Retrieved>, seen: seq<Retrieved>, items: seq<Retrieved>)
    requires Best(collected, seen)
    ensures Best(KeepAll(collected, items), seen + items)
  {
    if items == [] {
      assert seen + items == seen;
    } else {
      var n := |items| - 1;
      KeepAllIsBest(collected, seen, items[..n]);
      assert seen + items[..n] + [items[n]] == seen + items;
      KeepIsBest(KeepAll(collected, items[..n]), seen + items[..n], items[n]);
    }
  }

  function Flat(lists: seq<seq<Retrieved>>): seq<Retrieved> {
    if lists == [] then [] else Flat(lists[..|lists| - 1]) + lists[|lists| - 1]
  }

  lemma {:induction false} MergeIsBest(lists: seq<seq<Retrieved>>)
    ensures Best(MergeBest(lists), Flat(lists))
  {
    if lists != [] {
      MergeIsBest(lists[..|lists| - 1]);
      KeepAllIsBest(MergeBest(lists[..|lists| - 1]), Flat(lists[..|lists| - 1]), lists[|lists| - 1]);
    }
  }

  // ------------------------------------------------------------------ which entry is kept

  /** Among the entries seen with its id, `x` at place `i` is the first of those with the best score. */
  predicate FirstOfTheBest(seen: seq<Retrieved>, i: nat, x: Retrieved) {
    && i < |seen| && seen[i] == x
    && (forall j :: 0 <= j < |seen| && seen[j].id == x.id ==> seen[j].score <= x.score)
    && (forall j :: 0 <= j < i && seen[j].id == x.id ==> seen[j].score < x.score)
  }

  ghost predicate IsFirstBest(seen: seq<Retrieved>, x: Retrieved) {
    exists i: nat :: FirstOfTheBest(seen, i, x)
  }

  ghost predicate KeepsFirstBest(collected: seq<Retrieved>, seen: seq<Retrieved>) {
    && (forall k :: 0 <= k < |collected| ==> IsFirstBest(seen, collected[k]))
    && (forall j :: 0 <= j < |seen| ==> IndexOf(collected, seen[j].id).Some?)
  }

  lemma {:induction false} IndexStays(collected: seq<Retrieved>, x: Retrieved, id: Id)
    requires UniqueIds(collected)
    ensures IndexOf(Keep(collected, x), id).Some? <==> IndexOf(collected, id).Some? || id == x.id
  {
    var kept := Keep(collected, x);
    if IndexOf(collected, id).Some? {
      var k := IndexOf(collected, id).value;
      assert kept[k].id == id;
    }
    if id == x.id && IndexOf(collected, id).None? {
      assert kept[|collected|].id == id;
    }
    if IndexOf(kept, id).Some? && id != x.id {
      var k := IndexOf(kept, id).value;
      assert k < |collected| && collected[k].id == id;
    }
  }

  lemma FirstBestStays(seen: seq<Retrieved>, x: Retrieved, next: Retrieved)
    requires IsFirstBest(seen, x) && (next.id == x.id ==> next.score <= x.score)
    ensures IsFirstBest(seen + [next], x)
  {
    var i: nat :| FirstOfTheBest(seen, i, x);
    assert FirstOfTheBest(seen + [next], i, x);
  }

  lemma NewBest(seen: seq<Retrieved>, x: Retrieved)
    requires forall j :: 0 <= j < |seen| && seen[j].id == x.id ==> seen[j].score < x.score
    ensures IsFirstBest(seen + [x], x)
  {
    assert FirstOfTheBest(seen + [x], |seen|, x);
  }

  lemma KeepsOneMore(collected: seq<Retrieved>, seen: seq<Retrieved>, x: Retrieved)
    requires UniqueIds(collected) && KeepsFirstBest(collected, seen)
    ensures KeepsFirstBest(Keep(collected, x), seen + [x])
  {
    var kept, place := Keep(collected, x), IndexOf(collected, x.id);
    forall j | 0 <= j < |seen + [x]| ensures IndexOf(kept, (seen + [x])[j].id).Some? {
      IndexStays(collected, x, (seen + [x])[j].id);
    }
    forall k | 0 <= k < |kept| ensures IsFirstBest(seen + [x], kept[k]) {
      if place.None? && k == |collected| {
        NewBest(seen, x);
      } else if place.Some? && k == place.value && kept[k] == x && x != collected[k] {
        var i: nat :| FirstOfTheBest(seen, i, collected[k]);
        NewBest(seen, x);
      } else {
        assert kept[k] == collected[k];
        FirstBestStays(seen, collected[k], x);
      }
    }
  }

  lemma {:induction false} KeepAllKeepsFirstBest(collected: seq<Retrieved>, seen: seq<Retrieved>, items: seq<Retrieved>)
    requires Best(collected, seen) && KeepsFirstBest(collected, seen)
    ensures KeepsFirstBest(KeepAll(collected, items), seen + items)
  {
    if items == [] {
      assert seen + items == seen;
    } else {
      var n := |items| - 1;
      KeepAllKeepsFirstBest(collected, seen, items[..n]);
      KeepAllIsBest(collected, seen, items[..n]);
      assert seen + items[..n] + [items[n]] == seen + items;
      KeepsOneMore(KeepAll(collected, items[..n]), seen + items[..n], items[n]);
    }
  }

  /** Merging keeps, for each id, the entry that first reached its best score, in the order of the queries. */
  lemma {:induction false} MergeKeepsTheFirstBest(lists: seq<seq<Retrieved>>)
    ensures KeepsFirstBest(MergeBest(lists), Flat(lists))
  {
    if lists != [] {
      var n := |lists| - 1;
      MergeKeepsTheFirstBest(lists[..n]);
      MergeIsBest(lists[..n]);
      KeepAllKeepsFirstBest(MergeBest(lists[..n]), Flat(lists[..n]), lists[n]);
    }
  }

  // ------------------------------------------------------------------ counting above a threshold

  /** At or above the threshold; None is below everything. */
  predicate Above(x: Retrieved, t: Option<real>) {
    t.None? || x.score >= t.value
  }

  /** The ids of the items at or above a threshold. */
  ghost function IdsAbove(items: seq<Retrieved>, t: Option<real>): set<Id> {
    set x | x in items && Above(x, t) :: x.id
  }

  /** Merging by best score leaves the ids above every threshold as they are. */
  lemma BestKeepsIdsAbove(collected: seq<Retrieved>, seen: seq<Retrieved>, t: Option<real>)
    requires Best(collected, seen)
    ensures IdsAbove(collected, t) == IdsAbove(seen, t)
  {
    forall id | id in IdsAbove(seen, t) ensures id in IdsAbove(collected, t) {
      var x :| x in seen && Above(x, t) && x.id == id;
      assert In(x, seen);
      var k :| 0 <= k < |collected| && collected[k].id == x.id && collected[k].score >= x.score;
      assert collected[k] in collected && Above(collected[k], t);
    }
  }

  /** In a ranking, exactly the first items are above a threshold, as many as there are such ids. */
  lemma {:induction false} AboveIsAPrefix(ranking: seq<Retrieved>, t: Option<real>)
    requires UniqueIds(ranking) && Descending(ranking)
    ensures |IdsAbove(ranking, t)| <= |ranking|
    ensures forall i :: 0 <= i < |ranking| ==> (Above(ranking[i], t) <==> i < |IdsAbove(ranking, t)|)
  {
    if ranking == [] {
      assert IdsAbove(ranking, t) == {};
    } else {
      var init, last := ranking[..|ranking| - 1], ranking[|ranking| - 1];
      AboveIsAPrefix(init, t);
      assert ranking == init + [last];
      PrefixSnoc(init, last, t);
    }
  }

  lemma PrefixSnoc(init: seq<Retrieved>, last: Retrieved, t: Option<real>)
    requires UniqueIds(init + [last]) && |IdsAbove(init, t)| <= |init|
    requires forall i :: 0 <= i < |init| ==> init[i].score >= last.score
    requires forall i :: 0 <= i < |init| ==> (Above(init[i], t) <==> i < |IdsAbove(init, t)|)
    ensures var all := init + [last];
            && |IdsAbove(all, t)| <= |all|
            && forall i :: 0 <= i < |all| ==> (Above(all[i], t) <==> i < |IdsAbove(all, t)|)
  {
    IdsAboveSnoc(init, last, t);
    if Above(last, t) {
      assert forall i :: 0 <= i < |init| ==> Above(init[i], t);
      AllAboveCount(init, t);
    }
  }

  lemma IdsAboveSnoc(init: seq<Retrieved>, last: Retrieved, t: Option<real>)
    requires UniqueIds(init + [last])
    ensures IdsAbove(init + [last], t) == if Above(last, t) then IdsAbove(init, t) + {last.id} else IdsAbove(init, t)
    ensures last.id !in IdsAbove(init, t)
  {
    var all := init + [last];
    assert all[|init|] == last;
    forall i | 0 <= i < |init| ensures init[i].id != last.id {
      assert all[i].id != all[|init|].id;
    }
  }

  lemma AllAboveCount(items: seq<Retrieved>, t: Option<real>)
    requires |IdsAbove(items, t)| <= |items|
    requires forall i :: 0 <= i < |items| ==> Above(items[i], t)
    requires forall i :: 0 <= i < |items| ==> (Above(items[i], t) <==> i < |IdsAbove(items, t)|)
    ensures |IdsAbove(items, t)| == |items|
  {
    if |items| > 0 {
      assert Above(items[|items| - 1], t);
    }
  }

  // ------------------------------------------------------------------ cutting early

  function Cut(lists: seq<seq<Retrieved>>, limit: nat): (r: seq<seq<Retrieved>>)
    ensures |r| == |lists|
  {
    seq(|lists|, i requires 0 <= i < |lists| => Top(lists[i], limit))
  }

  /** Each list is a ranking of its own: best first, no id twice. */
  ghost predicate Rankings(lists: seq<seq<Retrieved>>) {
    forall i :: 0 <= i < |lists| ==> UniqueIds(lists[i]) && Descending(lists[i])
  }

  lemma {:induction false} InFlat(lists: seq<seq<Retrieved>>, x: Retrieved)
    ensures x in Flat(lists) <==> exists i :: 0 <= i < |lists| && x in lists[i]
  {
    if lists != [] {
      var init, last := lists[..|lists| - 1], lists[|lists| - 1];
      InFlat(init, x);
      if x in Flat(init) {
        var i :| 0 <= i < |init| && x in init[i];
        assert x in lists[i];
      }
      if i: nat :| i < |lists| && x in lists[i] {
        if i < |init| {
          assert x in init[i];
        }
      }
    }
  }

  /** A cut list either keeps all its ids above the threshold, or keeps `limit` of them. */
  lemma CutKeepsEnough(list: seq<Retrieved>, limit: nat, t: Option<real>)
    requires UniqueIds(list) && Descending(list)
    ensures IdsAbove(Top(list, limit), t) <= IdsAbove(list, t)
    ensures IdsAbove(Top(list, limit), t) == IdsAbove(list, t) || |IdsAbove(Top(list, limit), t)| == limit
  {
    var top := Top(list, limit);
    AboveIsAPrefix(top, t);
    AboveIsAPrefix(list, t);
    if IdsAbove(top, t) != IdsAbove(list, t) {
      var x :| x in list && Above(x, t) && x.id !in IdsAbove(top, t);
      var k :| 0 <= k < |list| && list[k] == x;
      assert forall i :: 0 <= i < |top| && list[i].id == x.id ==> top[i].id in IdsAbove(top, t);
      assert forall i :: 0 <= i < |top| ==> top[i] == list[i];
      AllAboveCount(top, t);
    }
  }

  /** So the number of ids above any threshold, counted up to `limit`, survives the cuts. */
  lemma CutsKeepCounts(lists: seq<seq<Retrieved>>, limit: nat, t: Option<real>)
    requires Rankings(lists)
    ensures Min(limit, |IdsAbove(Flat(Cut(lists, limit)), t)|) == Min(limit, |IdsAbove(Flat(lists), t)|)
  {
    var cut := Cut(lists, limit);
    var few, many := IdsAbove(Flat(cut), t), IdsAbove(Flat(lists), t);
    forall id | id in few ensures id in many {
      var x :| x in Flat(cut) && Above(x, t) && x.id == id;
      InFlat(cut, x);
      var i :| 0 <= i < |cut| && x in cut[i];
      assert x in lists[i];
      InFlat(lists, x);
    }
    SubsetSize(few, many);
    if id :| id in many && id !in few {
      var x :| x in Flat(lists) && Above(x, t) && x.id == id;
      InFlat(lists, x);
      var i :| 0 <= i < |lists| && x in lists[i];
      CutKeepsEnough(lists[i], limit, t);
      PartOfFlat(cut, i, t);
      assert id in IdsAbove(lists[i], t);
      SubsetSize(IdsAbove(cut[i], t), few);
    } else {
      assert few == many;
    }
  }

  lemma PartOfFlat(lists: seq<seq<Retrieved>>, i: nat, t: Option<real>)
    requires i < |lists|
    ensures IdsAbove(lists[i], t) <= IdsAbove(Flat(lists), t)
  {
  }

  lemma SubsetSize(a: set<Id>, b: set<Id>)
    requires a <= b
    ensures |a| <= |b|
  {
    assert b == a + (b - a);
  }

  // ------------------------------------------------------------------ the theorem

  function Rank(lists: seq<seq<Retrieved>>): seq<Retrieved> {
    SortDesc(MergeBest(lists))
  }

  /** A ranking of the merged lists: no id twice, best first, with the lists' ids above every threshold. */
  lemma RankIsARanking(lists: seq<seq<Retrieved>>, t: Option<real>)
    ensures UniqueIds(Rank(lists)) && Descending(Rank(lists))
    ensures IdsAbove(Rank(lists), t) == IdsAbove(Flat(lists), t)
  {
    MergeIsBest(lists);
    SortIsSorted(MergeBest(lists));
    SortingKeepsEntries(MergeBest(lists));
    BestKeepsIdsAbove(MergeBest(lists), Flat(lists), t);
    assert IdsAbove(Rank(lists), t) == IdsAbove(MergeBest(lists), t);
  }

  lemma SamePlaces(lists: seq<seq<Retrieved>>, limit: nat, i: nat, t: Option<real>)
    requires Rankings(lists) && i < limit
    ensures (i < |Rank(lists)| && Above(Rank(lists)[i], t)) <==>
            (i < |Rank(Cut(lists, limit))| && Above(Rank(Cut(lists, limit))[i], t))
  {
    CutsKeepCounts(lists, limit, t);
    RankIsARanking(lists, t);
    RankIsARanking(Cut(lists, limit), t);
    AboveIsAPrefix(Rank(lists), t);
    AboveIsAPrefix(Rank(Cut(lists, limit)), t);
  }

  /**
   Early truncation loses nothing: cutting every query's ranking to `limit` before merging gives
   the same sequence of top scores as merging the full rankings and cutting once.
   */
  lemma EarlyTruncationLosesNothing(lists: seq<seq<Retrieved>>, limit: nat)
    requires Rankings(lists)
    ensures Scores(Top(Rank(Cut(lists, limit)), limit)) == Scores(Top(Rank(lists), limit))
    ensures UniqueIds(Top(Rank(Cut(lists, limit)), limit)) && Descending(Top(Rank(Cut(lists, limit)), limit))
  {
    var a, b := Rank(Cut(lists, limit)), Rank(lists);
    RankIsARanking(Cut(lists, limit), None);
    if limit > 0 {
      if |Top(a, limit)| < |Top(b, limit)| {
        SamePlaces(lists, limit, |Top(a, limit)|, None);
      }
      if |Top(b, limit)| < |Top(a, limit)| {
        SamePlaces(lists, limit, |Top(b, limit)|, None);
      }
    }
    forall i | 0 <= i < |Top(a, limit)| ensures a[i].score == b[i].score {
      SamePlaces(lists, limit, i, Some(a[i].score));
      SamePlaces(lists, limit, i, Some(b[i].score));
    }
  }

  /** The inner loop: one query's chunks merged in. */
  method Collect(before: seq<Retrieved>, chunks: seq<Retrieved>) returns (collected: seq<Retrieved>)
    ensures collected == KeepAll(before, chunks)
  {
    collected := before;
    for j := 0 to |chunks|
      invariant collected == KeepAll(before, chunks[..j])
    {
      assert chunks[..j + 1][..j] == chunks[..j];
      var existing := IndexOf(collected, chunks[j].id);
      if existing.None? {
        collected := collected + [chunks[j]];
      } else if chunks[j].score > collected[existing.value].score {
        collected := collected[existing.value := chunks[j]];
      }
    }
    assert chunks[..|chunks|] == chunks;
  }

  /** The rankings of the queries that are run: the first six. */
  function Results(search: Search, queries: seq<string>): (lists: seq<seq<Retrieved>>)
    ensures |lists| == Min(6, |queries|)
    ensures forall i :: 0 <= i < |lists| ==> lists[i] == search(queries[i])
  {
    var n := Min(MAX_QUERIES, |queries|);
    seq(n, i requires 0 <= i < n => search(queries[i]))
  }

  /** The closure `retrieve` of `build_retriever`. */
  method Retrieve(search: Search, queries: seq<string>, limit: nat) returns (found: seq<Retrieved>)
    requires Rankings(Results(search, queries))
    ensures UniqueIds(found) && Descending(found) && |found| <= limit
    ensures Scores(found) == Scores(Top(Rank(Results(search, queries)), limit))
    ensures forall x :: x in found ==> x in Flat(Results(search, queries))
    ensures forall x :: x in found ==> IsFirstBest(Flat(Cut(Results(search, queries), limit)), x)
  {
    ghost var lists := Results(search, queries);
    EarlyTruncationLosesNothing(lists, limit);
    FoundSomewhere(lists, limit);
    FoundFirst(Cut(lists, limit), limit);
    if queries == [] {
      assert lists == [] && Cut(lists, limit) == [];
      return [];
    }
    var collected: seq<Retrieved> := [];
    for k := 0 to Min(MAX_QUERIES, |queries|)
      invariant collected == MergeBest(Cut(lists, limit)[..k])
    {
      collected := Collect(collected, Top(search(queries[k]), limit));
      assert Cut(lists, limit)[..k + 1][..k] == Cut(lists, limit)[..k];
    }
    assert Cut(lists, limit)[..|lists|] == Cut(lists, limit);
    found := Top(SortDesc(collected), limit);
  }

  lemma FoundFirst(lists: seq<seq<Retrieved>>, limit: nat)
    ensures forall x :: x in Top(Rank(lists), limit) ==> IsFirstBest(Flat(lists), x)
  {
    MergeIsBest(lists);
    SortingKeepsEntries(MergeBest(lists));
    MergeKeepsTheFirstBest(lists);
    forall x | x in Top(Rank(lists), limit) ensures IsFirstBest(Flat(lists), x) {
      assert x in Rank(lists);
      var k :| 0 <= k < |MergeBest(lists)| && MergeBest(lists)[k] == x;
    }
  }

  lemma FoundSomewhere(lists: seq<seq<Retrieved>>, limit: nat)
    ensures forall x :: x in Top(Rank(Cut(lists, limit)), limit) ==> x in Flat(lists)
  {
    var cut := Cut(lists, limit);
    MergeIsBest(cut);
    SortingKeepsEntries(MergeBest(cut));
    forall x | x in Top(Rank(cut), limit) ensures x in Flat(lists) {
      assert x in Rank(cut);
      assert x in Flat(cut);
      InFlat(cut, x);
      var i :| 0 <= i < |cut| && x in cut[i];
      assert x in lists[i];
      InFlat(lists, x);
    }
  }
}
