/**
 What the fusion formula promises: a chunk ranked ahead everywhere wins, and, up to a bound on
 the number of candidates, two strategies agreeing beat either one alone.
 */
module FusionLaws {
  import opened Basics
  import opened RankFusion

  // ------------------------------------------------------------------ ranks

  /** The contribution of a list without repetitions is that of the one position, if any. */
  lemma {:induction false} ScoreIsOneContribution(weight: real, hits: seq<Id>, k: nat)
    requires Distinct(hits) && k < |hits|
    ensures ListScore(weight, hits, hits[k]) == Contribution(weight, k + 1)
  {
    var n := |hits|;
    var init := hits[..n - 1];
    if k == n - 1 {
      UnseenZero(weight, init, hits[k]);
    } else {
      ScoreIsOneContribution(weight, init, k);
    }
  }

  lemma {:induction false} UnseenZero(weight: real, hits: seq<Id>, id: Id)
    requires id !in hits
    ensures ListScore(weight, hits, id) == 0.0
  {
    if hits != [] {
      UnseenZero(weight, hits[..|hits| - 1], id);
    }
  }

  /** A better rank contributes strictly more. */
  lemma BetterRankContributesMore(weight: real, a: nat, b: nat)
    requires weight > 0.0 && 1 <= a < b
    ensures Contribution(weight, a) > Contribution(weight, b) > 0.0
  {
  }

  // ------------------------------------------------------------------ dominance

  /** `a` comes before `b` in a list that holds `b`, and the list repeats nothing. */
  ghost predicate Precedes(hits: seq<Id>, a: Id, b: Id) {
    Distinct(hits) && (b in hits ==> exists i, j :: 0 <= i < j < |hits| && hits[i] == a && hits[j] == b)
  }

  ghost predicate PositiveWeights(weights: map<string, real>) {
    forall s :: s in weights ==> weights[s] > 0.0
  }

  lemma ListPrefers(weight: real, hits: seq<Id>, a: Id, b: Id)
    requires weight > 0.0 && Precedes(hits, a, b)
    ensures ListScore(weight, hits, a) >= ListScore(weight, hits, b)
    ensures b in hits ==> ListScore(weight, hits, a) > ListScore(weight, hits, b)
  {
    if b in hits {
      var i, j :| 0 <= i < j < |hits| && hits[i] == a && hits[j] == b;
      ScoreIsOneContribution(weight, hits, i);
      ScoreIsOneContribution(weight, hits, j);
      BetterRankContributesMore(weight, i + 1, j + 1);
    } else {
      UnseenZero(weight, hits, b);
      if a in hits {
        var i :| 0 <= i < |hits| && hits[i] == a;
        ScoreIsOneContribution(weight, hits, i);
        BetterRankContributesMore(weight, i + 1, i + 2);
      } else {
        UnseenZero(weight, hits, a);
      }
    }
  }

  /**
   Dominance: for any positive weights and any number of lists, a chunk that precedes another in
   every list holding the latter scores strictly higher.
   */
  lemma {:induction false} Dominance(weights: map<string, real>, lists: seq<Ranked>, a: Id, b: Id)
    requires PositiveWeights(weights)
    requires forall k :: 0 <= k < |lists| ==> Precedes(lists[k].hits, a, b)
    ensures Score(weights, lists, a) >= Score(weights, lists, b)
    ensures b in AllHits(lists) ==> Score(weights, lists, a) > Score(weights, lists, b)
  {
    if lists != [] {
      var last := lists[|lists| - 1];
      Dominance(weights, lists[..|lists| - 1], a, b);
      ListPrefers(Weight(weights, last.strategy), last.hits, a, b);
    }
  }

  // ------------------------------------------------------------------ agreement

  /** The two lists `hybrid_search` fuses. */
  function Hybrid(semantic: seq<Id>, lexical: seq<Id>): seq<Ranked> {
    [Ranked("semantic", semantic), Ranked("lexical", lexical)]
  }

  function HybridWeights(ws: real, wl: real): map<string, real> {
    map["semantic" := ws, "lexical" := wl]
  }

  lemma HybridScore(ws: real, wl: real, semantic: seq<Id>, lexical: seq<Id>, id: Id)
    ensures Score(HybridWeights(ws, wl), Hybrid(semantic, lexical), id)
            == ListScore(ws, semantic, id) + ListScore(wl, lexical, id)
  {
    var lists, weights := Hybrid(semantic, lexical), HybridWeights(ws, wl);
    assert |"semantic"| != |"lexical"|;
    assert Weight(weights, "semantic") == ws && Weight(weights, "lexical") == wl;
    assert lists[..1] == [Ranked("semantic", semantic)];
    assert lists[..1][..0] == [];
    assert Score(weights, lists[..1], id) == ListScore(ws, semantic, id);
  }

  /** Strategies without a weight of their own count with weight one. */
  lemma UnweightedScore(semantic: seq<Id>, lexical: seq<Id>, id: Id)
    ensures Score(map[], Hybrid(semantic, lexical), id) == ListScore(1.0, semantic, id) + ListScore(1.0, lexical, id)
  {
    var lists := Hybrid(semantic, lexical);
    assert lists[..1] == [Ranked("semantic", semantic)] && lists[..1][..0] == [];
    assert Score(map[], lists[..1], id) == ListScore(1.0, semantic, id);
  }

  /** What a list that holds an id once does to its entry. */
  lemma {:induction false} CreditedOnce(x: Retrieved, strategy: string, weight: real, hits: seq<Id>, k: nat)
    requires Distinct(hits) && k < |hits| && hits[k] == x.id
    ensures ListEntry(x, strategy, weight, hits) == Credit(x, strategy, Contribution(weight, k + 1), k + 1)
  {
    var n := |hits| - 1;
    if k == n {
      UnseenKeepsEntry(x, strategy, weight, hits[..n]);
    } else {
      CreditedOnce(x, strategy, weight, hits[..n], k);
    }
  }

  /** The rank an entry should show: its place in the list, counted from one. */
  ghost predicate ShowsPlace(rank: Option<nat>, hits: seq<Id>, id: Id) {
    if rank.None? then id !in hits else 1 <= rank.value <= |hits| && hits[rank.value - 1] == id
  }

  /**
   The merged entry of a hybrid search: the strategies that found the chunk, in their order, and for
   each its own place in that strategy's list.
   */
  lemma HybridEntry(ws: real, wl: real, semantic: seq<Id>, lexical: seq<Id>, id: Id)
    requires Distinct(semantic) && Distinct(lexical)
    ensures var e := EntryOf(HybridWeights(ws, wl), Hybrid(semantic, lexical), id);
            && e.id == id
            && ShowsPlace(e.semanticRank, semantic, id) && ShowsPlace(e.lexicalRank, lexical, id)
            && e.strategies == (if id in semantic then ["semantic"] else [])
                               + (if id in lexical then ["lexical"] else [])
  {
    var lists, weights := Hybrid(semantic, lexical), HybridWeights(ws, wl);
    assert |"semantic"| != |"lexical"|;
    assert Weight(weights, "semantic") == ws && Weight(weights, "lexical") == wl;
    var first := [Ranked("semantic", semantic)];
    assert lists[..1] == first && first[..0] == [] && EntryOf(weights, first[..0], id) == Blank(id);
    var one := EntryOf(weights, first, id);
    assert one == ListEntry(Blank(id), "semantic", ws, semantic);
    AfterOneList(Blank(id), "semantic", ws, semantic);
    AfterOneList(one, "lexical", wl, lexical);
  }

  lemma AfterOneList(x: Retrieved, strategy: string, weight: real, hits: seq<Id>)
    requires Distinct(hits)
    ensures x.id !in hits ==> ListEntry(x, strategy, weight, hits) == x
    ensures x.id in hits ==>
              exists k: nat :: k < |hits| && hits[k] == x.id
                               && ListEntry(x, strategy, weight, hits)
                                  == Credit(x, strategy, Contribution(weight, k + 1), k + 1)
  {
    if x.id in hits {
      var k: nat :| k < |hits| && hits[k] == x.id;
      CreditedOnce(x, strategy, weight, hits, k);
    } else {
      UnseenKeepsEntry(x, strategy, weight, hits);
    }
  }

  ghost predicate CandidateLists(semantic: seq<Id>, lexical: seq<Id>, cap: nat) {
    Distinct(semantic) && Distinct(lexical) && |semantic| <= cap && |lexical| <= cap
  }

  /** In these lists, `both` is found by both strategies and `one` by exactly one. */
  predicate FoundBoth(semantic: seq<Id>, lexical: seq<Id>, both: Id, one: Id) {
    both in semantic && both in lexical && ((one in semantic) != (one in lexical))
  }

  /** With at most `cap` candidates each, being found by both strategies always wins. */
  ghost predicate AgreementWins(ws: real, wl: real, cap: nat) {
    forall semantic: seq<Id>, lexical: seq<Id>, both: Id, one: Id ::
      CandidateLists(semantic, lexical, cap) && FoundBoth(semantic, lexical, both, one) ==>
        Outscores(ws, wl, semantic, lexical, both, one)
  }

  ghost predicate Outscores(ws: real, wl: real, semantic: seq<Id>, lexical: seq<Id>, a: Id, b: Id) {
    Score(HybridWeights(ws, wl), Hybrid(semantic, lexical), a)
    > Score(HybridWeights(ws, wl), Hybrid(semantic, lexical), b)
  }

  /** The worst agreement still beats the best single hit. */
  predicate BoundHolds(ws: real, wl: real, cap: nat)
    requires cap >= 1
  {
    Contribution(ws, cap) + Contribution(wl, cap) > Contribution(if ws >= wl then ws else wl, 1)
  }

  lemma HitScore(weight: real, hits: seq<Id>, id: Id, cap: nat)
    requires weight > 0.0 && Distinct(hits) && id in hits && |hits| <= cap
    ensures Contribution(weight, cap) <= ListScore(weight, hits, id) <= Contribution(weight, 1)
  {
    var k :| 0 <= k < |hits| && hits[k] == id;
    ScoreIsOneContribution(weight, hits, k);
    if k > 0 {
      BetterRankContributesMore(weight, 1, k + 1);
    }
    if k + 1 < cap {
      BetterRankContributesMore(weight, k + 1, cap);
    }
  }

  lemma HeavierContributesMore(a: real, b: real, rank: nat)
    requires a <= b && rank >= 1
    ensures Contribution(a, rank) <= Contribution(b, rank)
  {
  }

  lemma BoundSuffices(ws: real, wl: real, cap: nat, semantic: seq<Id>, lexical: seq<Id>, both: Id, one: Id)
    requires ws > 0.0 && wl > 0.0 && cap >= 1 && BoundHolds(ws, wl, cap)
    requires CandidateLists(semantic, lexical, cap) && FoundBoth(semantic, lexical, both, one)
    ensures Outscores(ws, wl, semantic, lexical, both, one)
  {
    HybridScore(ws, wl, semantic, lexical, both);
    HybridScore(ws, wl, semantic, lexical, one);
    HitScore(ws, semantic, both, cap);
    HitScore(wl, lexical, both, cap);
    var most := if ws >= wl then ws else wl;
    if one in semantic {
      HitScore(ws, semantic, one, cap);
      UnseenZero(wl, lexical, one);
      HeavierContributesMore(ws, most, 1);
    } else {
      HitScore(wl, lexical, one, cap);
      UnseenZero(ws, semantic, one);
      HeavierContributesMore(wl, most, 1);
    }
  }

  /** `cap` ids: `first`, then fillers, with 0 in the last place. */
  function WorstList(first: Id, cap: nat): (hits: seq<Id>)
    requires cap >= 2 && first in {1, 2}
    ensures |hits| == cap && Distinct(hits)
    ensures hits[0] == first && hits[cap - 1] == 0
    ensures forall i :: 1 <= i < cap - 1 ==> hits[i] > 2
  {
    seq(cap, i requires 0 <= i < cap => if i == 0 then first else if i == cap - 1 then 0 else i + 2)
  }

  lemma OneCandidateIsFine(ws: real, wl: real)
    requires ws > 0.0 && wl > 0.0
    ensures BoundHolds(ws, wl, 1)
  {
  }

  /** With more candidates than the bound allows, a first place of the heavier strategy is not beaten. */
  lemma BoundIsNeeded(ws: real, wl: real, cap: nat)
    requires ws > 0.0 && wl > 0.0 && cap >= 1 && !BoundHolds(ws, wl, cap)
    ensures !AgreementWins(ws, wl, cap)
  {
    if cap == 1 {
      OneCandidateIsFine(ws, wl);
      assert false;
    }
    var semantic, lexical := WorstList(1, cap), WorstList(2, cap);
    var one := if ws >= wl then 1 else 2;
    assert 1 !in lexical && 2 !in semantic;
    assert semantic[0] == 1 && lexical[0] == 2 && semantic[cap - 1] == 0 && lexical[cap - 1] == 0;
    ScoreIsOneContribution(ws, semantic, cap - 1);
    ScoreIsOneContribution(wl, lexical, cap - 1);
    ScoreIsOneContribution(ws, semantic, 0);
    ScoreIsOneContribution(wl, lexical, 0);
    UnseenZero(ws, semantic, 2);
    UnseenZero(wl, lexical, 1);
    HybridScore(ws, wl, semantic, lexical, 0);
    HybridScore(ws, wl, semantic, lexical, one);
    assert CandidateLists(semantic, lexical, cap) && FoundBoth(semantic, lexical, 0, one);
    assert !Outscores(ws, wl, semantic, lexical, 0, one);
  }

  /** Agreement wins, on all lists of at most `cap` candidates, exactly when the bound holds. */
  lemma AgreementBound(ws: real, wl: real, cap: nat)
    requires ws > 0.0 && wl > 0.0 && cap >= 1
    ensures AgreementWins(ws, wl, cap) <==> BoundHolds(ws, wl, cap)
  {
    if BoundHolds(ws, wl, cap) {
      forall semantic: seq<Id>, lexical: seq<Id>, both: Id, one: Id
        | CandidateLists(semantic, lexical, cap) && FoundBoth(semantic, lexical, both, one)
        ensures Outscores(ws, wl, semantic, lexical, both, one)
      {
        BoundSuffices(ws, wl, cap, semantic, lexical, both, one);
      }
    } else {
      BoundIsNeeded(ws, wl, cap);
    }
  }

  /** With the source's weights, 51 candidates per strategy is the largest cap for which agreement wins. */
  lemma AgreementCap(cap: nat)
    requires cap >= 1
    ensures AgreementWins(1.0, 1.2, cap) <==> cap <= 51
    ensures AgreementWins(1.0, 1.2, CANDIDATES_PER_STRATEGY)
  {
    AgreementBound(1.0, 1.2, cap);
    BoundInNumbers(cap);
    AgreementBound(1.0, 1.2, CANDIDATES_PER_STRATEGY);
    BoundInNumbers(CANDIDATES_PER_STRATEGY);
  }

  lemma BoundInNumbers(cap: nat)
    requires cap >= 1
    ensures BoundHolds(1.0, 1.2, cap) <==> cap <= 51
  {
  }
}
