/**
 Ranking documents by similarity and scoring the rankings: the top k, recall at k, the
 reciprocal rank and the overlap of two rankings.  The similarity of a document to the
 query is a function of its id.
 */
module Ranking {
  import opened Wrappers
  import opened Fractions
  import opened StableSort

  datatype Scored = Scored(docId: string, score: real)

  // `sort(key=score, reverse=True)`, which keeps equal scores in order.
  predicate Better(a: Scored, b: Scored) {
    a.score > b.score
  }

  function Score(similarity: string -> real, docs: seq<string>): seq<Scored> {
    seq(|docs|, i requires 0 <= i < |docs| => Scored(docs[i], similarity(docs[i])))
  }

  // `xs[:k]`
  function Cut(n: nat, k: int): nat {
    if k < 0 then if n + k < 0 then 0 else n + k
    else if k < n then k else n
  }

  function Ids(ss: seq<Scored>, n: nat): seq<string>
    requires n <= |ss|
  {
    seq(n, i requires 0 <= i < n => ss[i].docId)
  }

  // All documents, the best first.
  function Ranked(similarity: string -> real, docs: seq<string>): seq<Scored> {
    Sort(Better, Score(similarity, docs))
  }

  // `top_k_rankings`
  function TopK(similarity: string -> real, docs: seq<string>, k: int): seq<string> {
    var scored := Ranked(similarity, docs);
    Ids(scored, Cut(|scored|, k))
  }

  ghost predicate Different(xs: seq<string>) {
    forall i, j :: 0 <= i < j < |xs| ==> xs[i] != xs[j]
  }

  lemma {:induction false} RankedFacts(similarity: string -> real, docs: seq<string>)
    ensures |Ranked(similarity, docs)| == |docs|
    ensures Ordered(Better, Ranked(similarity, docs))
    ensures multiset(Ranked(similarity, docs)) == multiset(Score(similarity, docs))
  {
    var scored := Score(similarity, docs);
    SortToOrders(Better, scored, |scored|);
    SortToPermutes(Better, scored, |scored|);
    assert scored[..|scored|] == scored;
  }

  // Each place of the ranking holds a document of the list with its own score.
  lemma {:induction false} RankedAt(similarity: string -> real, docs: seq<string>, a: nat) returns (i: nat)
    requires a < |Ranked(similarity, docs)|
    ensures i < |docs| && Ranked(similarity, docs)[a] == Scored(docs[i], similarity(docs[i]))
  {
    i := CameIn(Better, Score(similarity, docs), |docs|, a);
  }

  // Document i is preferred to document j: a higher score, or the same and earlier.
  predicate Preferred(similarity: string -> real, docs: seq<string>, i: nat, j: nat)
    requires i < |docs| && j < |docs|
  {
    similarity(docs[i]) > similarity(docs[j]) || (similarity(docs[i]) == similarity(docs[j]) && i < j)
  }

  // Of two places the first holds the preferred document: a higher score, or the same score
  // and an earlier place in the list.
  lemma {:induction false} RankedTies(similarity: string -> real, docs: seq<string>, a: nat, b: nat) returns (i: nat,
                                      j: nat)
    requires a < b < |Ranked(similarity, docs)| && Different(docs)
    ensures i < |docs| && j < |docs| && i != j
    ensures Ranked(similarity, docs)[a].docId == docs[i] && Ranked(similarity, docs)[b].docId == docs[j]
    ensures Preferred(similarity, docs, i, j)
  {
    var scored, t := Score(similarity, docs), Ranked(similarity, docs);
    RankedFacts(similarity, docs);
    assert !Better(t[b], t[a]);
    if Better(t[a], t[b]) {
      i := RankedAt(similarity, docs, a);
      j := RankedAt(similarity, docs, b);
    } else {
      i, j := TiesKeepOrder(Better, scored, |scored|, a, b);
    }
  }

  // The top k are min(k, n) different documents of the list.
  lemma {:induction false} TopKOrder(similarity: string -> real, docs: seq<string>, k: int)
    requires Different(docs)
    ensures |TopK(similarity, docs, k)| == Cut(|docs|, k)
    ensures Different(TopK(similarity, docs, k))
    ensures forall id :: id in TopK(similarity, docs, k) ==> id in docs
  {
    RankedFacts(similarity, docs);
    var top := TopK(similarity, docs, k);
    forall a, b | 0 <= a < b < |top| ensures top[a] != top[b] {
      var i, j := RankedTies(similarity, docs, a, b);
      if i < j {
        assert docs[i] != docs[j];
      } else {
        assert docs[j] != docs[i];
      }
    }
    forall id | id in top ensures id in docs {
      var a :| 0 <= a < |top| && top[a] == id;
      var i := RankedAt(similarity, docs, a);
    }
  }

  // A kept document is preferred to every dropped one.
  lemma {:induction false} KeptArePreferred(similarity: string -> real, docs: seq<string>, k: int, i: nat, j: nat)
    requires Different(docs) && i < |docs| && j < |docs|
    requires docs[i] in TopK(similarity, docs, k) && docs[j] !in TopK(similarity, docs, k)
    ensures Preferred(similarity, docs, i, j)
  {
    RankedFacts(similarity, docs);
    var t, top := Ranked(similarity, docs), TopK(similarity, docs, k);
    assert forall p :: 0 <= p < |top| ==> top[p] == t[p].docId;
    var a :| 0 <= a < |top| && top[a] == docs[i];
    var scored := Score(similarity, docs);
    assert scored[j] in multiset(scored);
    assert scored[j] in multiset(t);
    var b :| 0 <= b < |t| && t[b] == scored[j];
    var x, y := RankedTies(similarity, docs, a, b);
    SameDocument(docs, x, i);
    SameDocument(docs, y, j);
  }

  lemma {:induction false} SameDocument(docs: seq<string>, i: nat, j: nat)
    requires Different(docs) && i < |docs| && j < |docs| && docs[i] == docs[j]
    ensures i == j
  {
  }

  // ---------------------------------------------------------------- recall and reciprocal rank

  function Retrieved(ranking: seq<string>, relevant: set<string>, n: nat): set<string>
    requires n <= |ranking|
  {
    set id | id in ranking[..n] && id in relevant
  }

  // `recall_at_k`
  function RecallAtK(ranking: seq<string>, relevant: set<string>, k: int): real {
    if relevant == {} then 0.0
    else |Retrieved(ranking, relevant, Cut(|ranking|, k))| as real / |relevant| as real
  }

  lemma {:induction false} SizeGrows<T>(a: set<T>, b: set<T>)
    requires a <= b
    ensures |a| <= |b|
  {
    assert b == a + (b - a);
  }

  // Recall lies between 0 and 1, never falls as k grows, and is 1 exactly when every
  // relevant document is among the first k.
  lemma {:induction false} RecallGrows(ranking: seq<string>, relevant: set<string>, k: nat, l: nat)
    requires k <= l
    ensures 0.0 <= RecallAtK(ranking, relevant, k) <= RecallAtK(ranking, relevant, l) <= 1.0
    ensures relevant != {} ==>
      (RecallAtK(ranking, relevant, k) == 1.0 <==> relevant <= Retrieved(ranking, relevant, Cut(|ranking|, k)))
  {
    var n, m := Cut(|ranking|, k), Cut(|ranking|, l);
    var few, more := Retrieved(ranking, relevant, n), Retrieved(ranking, relevant, m);
    if relevant != {} {
      assert ranking[..n] <= ranking[..m];
      SizeGrows(few, more);
      SizeGrows(more, relevant);
      DivideMonotone(|few|, |more|, |relevant|);
      Fraction(|few|, |relevant|);
      Fraction(|more|, |relevant|);
      SubsetOfSameSize(few, relevant);
    }
  }

  lemma {:induction false} SubsetOfSameSize<T>(a: set<T>, b: set<T>)
    requires a <= b
    ensures |a| == |b| <==> a == b
  {
    assert b == a + (b - a);
    assert |b| == |a| + |b - a|;
  }

  // The place of the first relevant document from place i on, or the length.
  function FirstHit(ranking: seq<string>, relevant: set<string>, i: nat): nat
    requires i <= |ranking|
    decreases |ranking| - i
  {
    if i == |ranking| || ranking[i] in relevant then i else FirstHit(ranking, relevant, i + 1)
  }

  lemma {:induction false} FirstHitIsFirst(ranking: seq<string>, relevant: set<string>, i: nat)
    requires i <= |ranking|
    ensures i <= FirstHit(ranking, relevant, i) <= |ranking|
    ensures FirstHit(ranking, relevant, i) < |ranking| ==> ranking[FirstHit(ranking, relevant, i)] in relevant
    ensures forall j :: i <= j < FirstHit(ranking, relevant, i) ==> ranking[j] !in relevant
    decreases |ranking| - i
  {
    if i < |ranking| && ranking[i] !in relevant {
      FirstHitIsFirst(ranking, relevant, i + 1);
    }
  }

  function ReciprocalOf(ranking: seq<string>, relevant: set<string>): real {
    FirstHitIsFirst(ranking, relevant, 0);
    var i := FirstHit(ranking, relevant, 0);
    if i < |ranking| then 1.0 / (i + 1) as real else 0.0
  }

  // `reciprocal_rank`
  method ReciprocalRank(ranking: seq<string>, relevant: set<string>) returns (r: real)
    ensures r == ReciprocalOf(ranking, relevant)
  {
    for index := 0 to |ranking|
      invariant FirstHit(ranking, relevant, 0) == FirstHit(ranking, relevant, index)
    {
      if ranking[index] in relevant {
        return 1.0 / (index + 1) as real;
      }
    }
    return 0.0;
  }

  // Something relevant is among the first k exactly when the reciprocal rank is at least 1/k.
  lemma {:induction false} RankAgainstRecall(ranking: seq<string>, relevant: set<string>, k: nat)
    requires k > 0
    ensures RecallAtK(ranking, relevant, k) > 0.0 <==> ReciprocalOf(ranking, relevant) >= 1.0 / k as real
  {
    FirstHitIsFirst(ranking, relevant, 0);
    var i, n := FirstHit(ranking, relevant, 0), Cut(|ranking|, k);
    var hits := Retrieved(ranking, relevant, n);
    if i < n {
      assert ranking[..n][i] in hits;
      assert |hits| > 0;
      InverseOrder(i + 1, k);
    } else {
      assert forall j :: 0 <= j < n ==> ranking[..n][j] !in relevant;
      assert hits == {};
      if i < |ranking| {
        InverseOrder(k, i + 1);
      }
    }
  }

  lemma {:induction false} InverseOrder(a: nat, b: nat)
    requires 0 < a <= b
    ensures 1.0 / a as real >= 1.0 / b as real > 0.0
    ensures a < b ==> 1.0 / a as real > 1.0 / b as real
  {
    var x, y := a as real, b as real;
    assert (1.0 / x) * x == 1.0 && (1.0 / y) * y == 1.0;
  }

  // ---------------------------------------------------------------- overlap of two rankings

  function FirstOnes(ranking: seq<string>, k: int): set<string> {
    set id | id in ranking[..Cut(|ranking|, k)]
  }

  // `len(left & right) / len(union) if union else 1.0`
  function Overlap(left: set<string>, right: set<string>): real {
    if left + right == {} then 1.0 else |left * right| as real / |left + right| as real
  }

  // Between 0 and 1, the same both ways, 1 exactly for equal sets and 0 exactly for
  // disjoint ones that are not both empty.
  lemma {:induction false} OverlapIsJaccard(left: set<string>, right: set<string>)
    ensures 0.0 <= Overlap(left, right) <= 1.0
    ensures Overlap(left, right) == Overlap(right, left)
    ensures Overlap(left, right) == 1.0 <==> left == right
    ensures Overlap(left, right) == 0.0 <==> left * right == {} && left + right != {}
  {
    var both, either := left * right, left + right;
    assert right * left == both && right + left == either;
    assert both == {} <==> |both| == 0;
    if either != {} {
      SizeGrows(both, either);
      Fraction(|both|, |either|);
      SubsetOfSameSize(both, either);
    }
  }

  function Overlaps(pairs: seq<(seq<string>, seq<string>)>, k: int, n: nat): seq<real>
    requires n <= |pairs|
  {
    if n == 0 then []
    else Overlaps(pairs, k, n - 1) + [Overlap(FirstOnes(pairs[n - 1].0, k), FirstOnes(pairs[n - 1].1, k))]
  }

  function Sum(xs: seq<real>, n: nat): real
    requires n <= |xs|
  {
    if n == 0 then 0.0 else Sum(xs, n - 1) + xs[n - 1]
  }

  function MeanOf(xs: seq<real>): real
    requires xs != []
  {
    Sum(xs, |xs|) / |xs| as real
  }

  // `average_top_k_overlap`, given the pairs of rankings of each query; None where
  // `statistics.mean` raises because there is no query.
  method AverageTopKOverlap(pairs: seq<(seq<string>, seq<string>)>, k: int) returns (r: Option<real>)
    ensures r == if pairs == [] then None else Some(MeanOf(Overlaps(pairs, k, |pairs|)))
  {
    var overlaps: seq<real> := [];
    for i := 0 to |pairs|
      invariant overlaps == Overlaps(pairs, k, i) && |overlaps| == i
    {
      var left, right := FirstOnes(pairs[i].0, k), FirstOnes(pairs[i].1, k);
      overlaps := overlaps + [Overlap(left, right)];
    }
    if pairs == [] {
      return None;
    }
    return Some(MeanOf(overlaps));
  }

  lemma {:induction false} SumBetween(pairs: seq<(seq<string>, seq<string>)>, k: int, n: nat)
    requires n <= |pairs|
    ensures |Overlaps(pairs, k, n)| == n
    ensures 0.0 <= Sum(Overlaps(pairs, k, n), n) <= n as real
    ensures Sum(Overlaps(pairs, k, n), n) == n as real
            <==> forall i :: 0 <= i < n ==> FirstOnes(pairs[i].0, k) == FirstOnes(pairs[i].1, k)
  {
    if n > 0 {
      SumBetween(pairs, k, n - 1);
      OverlapIsJaccard(FirstOnes(pairs[n - 1].0, k), FirstOnes(pairs[n - 1].1, k));
      SumPrefix(Overlaps(pairs, k, n - 1), Overlaps(pairs, k, n), n - 1);
    }
  }

  lemma {:induction false} SumPrefix(xs: seq<real>, ys: seq<real>, n: nat)
    requires n <= |xs| <= |ys| && forall i :: 0 <= i < n ==> xs[i] == ys[i]
    ensures Sum(xs, n) == Sum(ys, n)
  {
    if n > 0 {
      SumPrefix(xs, ys, n - 1);
    }
  }

  // The average is 1 exactly when the two models agree, as sets, on the top k of every query.
  lemma {:induction false} AverageIsOneIff(pairs: seq<(seq<string>, seq<string>)>, k: int)
    requires pairs != []
    ensures |Overlaps(pairs, k, |pairs|)| == |pairs|
    ensures 0.0 <= MeanOf(Overlaps(pairs, k, |pairs|)) <= 1.0
    ensures MeanOf(Overlaps(pairs, k, |pairs|)) == 1.0
            <==> forall i :: 0 <= i < |pairs| ==> FirstOnes(pairs[i].0, k) == FirstOnes(pairs[i].1, k)
  {
    SumBetween(pairs, k, |pairs|);
    var overlaps := Overlaps(pairs, k, |pairs|);
    Part(Sum(overlaps, |overlaps|), |overlaps| as real, MeanOf(overlaps));
  }
}
